/**
 * The "GitHub Styled Blockquotes" script: the user picks one of five alert
 * kinds; the script pastes the GitHub Flavored Markdown alert opener for it
 * (`> [!NOTE]` and a second, empty quoted line) and announces which kind it
 * pasted. Prompting, pasting and notifying are not modelled; the selected
 * value is the input.
 */
module GithubAlerts {
  import opened Wrappers
  import opened Text

  /** One entry of the choice list: display name, description and the value returned on selection. */
  datatype AlertChoice = AlertChoice(name: string, description: string, value: string)

  /** `blockquoteTypes`, in display order. */
  const BlockquoteTypes: seq<AlertChoice> := [
    AlertChoice("Note", "Highlights information that users should take into account, even when skimming", "note"),
    AlertChoice("Tip", "Optional information to help a user be more successful", "tip"),
    AlertChoice("Important", "Crucial information necessary for users to succeed", "important"),
    AlertChoice("Warning", "Critical content demanding immediate user attention due to potential risks", "warning"),
    AlertChoice("Caution", "Negative potential consequences of an action", "caution")
  ]

  /** `templates`: each value's alert opener, two lines. */
  const Templates: map<string, string> := map[
    "note" := "> [!NOTE]\n> ",
    "tip" := "> [!TIP]\n> ",
    "important" := "> [!IMPORTANT]\n> ",
    "warning" := "> [!WARNING]\n> ",
    "caution" := "> [!CAUTION]\n> "
  ]

  /** The alert kind a value stands for, as written inside `[! ]`. */
  function Marker(value: string): string
  {
    "[!" + Upper(value) + "]"
  }

  /** `templates[selected]`, `undefined` for a value outside the table. */
  function TemplateFor(selected: string): (template: Option<string>)
    ensures template.Some? <==> selected in Templates
    ensures template.Some? ==> template.value == "> " + Marker(selected) + "\n> "
  {
    if selected in Templates then
      TemplateShape(selected);
      Some(Templates[selected])
    else None
  }

  /** The notification body: the selected value upper-cased, then a fixed phrase. */
  function NotificationBody(selected: string): (body: string)
    ensures |body| == |selected| + |" blockquote template pasted"|
    ensures forall i :: 0 <= i < |selected| ==> body[i] == UpperChar(selected[i])
    ensures forall i :: 0 <= i < |selected| ==> !('a' <= body[i] <= 'z')
    ensures body[|selected|..] == " blockquote template pasted"
  {
    Upper(selected) + " blockquote template pasted"
  }

  lemma UpperOf(s: string, u: string)
    requires |s| == |u|
    requires forall i :: 0 <= i < |s| ==> u[i] == UpperChar(s[i])
    ensures Upper(s) == u
  {
  }

  /** Every template is `> [!VALUE]` on the first line and `> ` on the second. */
  lemma TemplateShape(v: string)
    requires v in Templates
    ensures Templates[v] == "> " + Marker(v) + "\n> "
  {
    if v == "note" {
      OpenerOf("note", "NOTE", "> [!NOTE]\n> ");
    } else if v == "tip" {
      OpenerOf("tip", "TIP", "> [!TIP]\n> ");
    } else if v == "important" {
      OpenerOf("important", "IMPORTANT", "> [!IMPORTANT]\n> ");
    } else if v == "warning" {
      OpenerOf("warning", "WARNING", "> [!WARNING]\n> ");
    } else {
      OpenerOf("caution", "CAUTION", "> [!CAUTION]\n> ");
    }
  }

  lemma OpenerOf(v: string, upper: string, template: string)
    requires |v| == |upper|
    requires forall i :: 0 <= i < |v| ==> upper[i] == UpperChar(v[i])
    requires template == "> [!" + upper + "]\n> "
    ensures template == "> " + Marker(v) + "\n> "
  {
    UpperOf(v, upper);
  }

  /** The values offered are exactly the five alert kinds, in this order. */
  lemma ChoiceValues()
    ensures |BlockquoteTypes| == 5
    ensures BlockquoteTypes[0].value == "note" && BlockquoteTypes[1].value == "tip"
    ensures BlockquoteTypes[2].value == "important" && BlockquoteTypes[3].value == "warning"
    ensures BlockquoteTypes[4].value == "caution"
  {
  }

  /** No two choices share a value, so a selection names one alert kind. */
  lemma ChoiceValuesDistinct()
    ensures forall i, j :: 0 <= i < j < |BlockquoteTypes| ==> BlockquoteTypes[i].value != BlockquoteTypes[j].value
  {
  }

  /** The lookup is total over the choices, and the table holds nothing else. */
  lemma TemplatesMatchChoices()
    ensures forall i :: 0 <= i < |BlockquoteTypes| ==> TemplateFor(BlockquoteTypes[i].value).Some?
    ensures forall v :: v in Templates ==> exists i :: 0 <= i < |BlockquoteTypes| && BlockquoteTypes[i].value == v
  {
    forall v | v in Templates
      ensures exists i :: 0 <= i < |BlockquoteTypes| && BlockquoteTypes[i].value == v
    {
      if v == "note" { assert BlockquoteTypes[0].value == v; }
      else if v == "tip" { assert BlockquoteTypes[1].value == v; }
      else if v == "important" { assert BlockquoteTypes[2].value == v; }
      else if v == "warning" { assert BlockquoteTypes[3].value == v; }
      else { assert BlockquoteTypes[4].value == v; }
    }
  }

  /** Each template is two lines; both begin with `> ` and the second holds nothing more. */
  lemma {:induction false} TemplateTwoLines(v: string)
    requires v in Templates
    ensures Split(Templates[v], '\n') == ["> " + Marker(v), "> "]
  {
    TemplateShape(v);
    assert '\n' !in v by {
      if v == "note" {} else if v == "tip" {} else if v == "important" {} else if v == "warning" {} else {}
    }
    OpenerLines(v);
  }

  /** For a one-line value, the opener splits into the marker line and a bare `> ` line. */
  lemma {:induction false} OpenerLines(v: string)
    requires '\n' !in v
    ensures Split("> " + Marker(v) + "\n> ", '\n') == ["> " + Marker(v), "> "]
  {
    var first := "> " + Marker(v);
    assert '\n' !in first by {
      UpperKeepsNewlineOut(v);
      assert first == "> [!" + Upper(v) + "]";
    }
    assert first + "\n> " == first + ['\n'] + "> ";
    SplitAround(first, "> ", '\n');
    SplitNoSep("> ", '\n');
  }

  lemma UpperKeepsNewlineOut(s: string)
    requires '\n' !in s
    ensures '\n' !in Upper(s)
  {
  }

  /** The upper-case word the notification starts with is the one inside the template's marker. */
  lemma NotificationNamesMarker(v: string)
    requires v in Templates
    ensures NotificationBody(v)[..|v|] == Templates[v][4..4 + |v|]
  {
    TemplateShape(v);
    assert Templates[v][4..4 + |v|] == Upper(v);
  }

  /** Each display name is its value with the first letter upper-cased. */
  lemma DisplayNamesCapitalized()
    ensures forall i :: 0 <= i < |BlockquoteTypes| ==> BlockquoteTypes[i].name == Capitalize(BlockquoteTypes[i].value)
  {
    forall i | 0 <= i < |BlockquoteTypes|
      ensures BlockquoteTypes[i].name == Capitalize(BlockquoteTypes[i].value)
    {
      var c := BlockquoteTypes[i];
      assert c.name[1..] == c.value[1..];
      assert c.name[0] == UpperChar(c.value[0]);
    }
  }
}
