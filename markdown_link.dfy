/**
 * The "Markdown-Linkify Chrome Tab" script: turn the active tab's title and
 * URL into `[title](url)`, using the URL as the text when the title is
 * missing. Reading the tab from the browser is not modelled; the tab is the
 * input.
 */
module MarkdownLink {
  import opened Wrappers

  /** The active tab: a title that may be missing (`undefined`/`null`) and a URL. */
  datatype Tab = Tab(title: Option<string>, url: string)

  /** The two kinds of JavaScript value met on the title test: a string, or a method taken without calling it. */
  datatype JsValue = Str(s: string) | MethodRef(name: string)

  /** `!==` between two such values: a method reference is never equal to a string. */
  predicate StrictlyUnequal(a: JsValue, b: JsValue)
  {
    a != b
  }

  /**
   * `_title && _title.trim !== ''`: the title must be present and non-empty
   * (truthy), and then the method `trim` itself, not its result, is
   * compared with `''`.
   */
  predicate TitleIsPresent(title: Option<string>): (present: bool)
    ensures present ==> title.Some? && |title.value| > 0
  {
    title.Some? && title.value != "" && StrictlyUnequal(MethodRef("trim"), Str(""))
  }

  /** The link text: the title when present, else the URL. */
  function LinkText(tab: Tab): (text: string)
    ensures text == tab.url || (tab.title.Some? && text == tab.title.value)
    ensures text == "" ==> tab.url == ""
  {
    if TitleIsPresent(tab.title) then tab.title.value else tab.url
  }

  /** `turnTitleAndUrlIntoMarkdownLink`: `[text](url)`, with text and URL recoverable by position. */
  function TurnTitleAndUrlIntoMarkdownLink(tab: Tab): (link: string)
    ensures var text := LinkText(tab);
            && |link| == |text| + |tab.url| + 4
            && link[0] == '[' && link[1..|text| + 1] == text
            && link[|text| + 1..|text| + 3] == "]("
            && link[|text| + 3..] == tab.url + ")"
  {
    var text := LinkText(tab);
    var link := "[" + text + "](" + tab.url + ")";
    assert link[1..|text| + 1] == text;
    assert link[|text| + 1..|text| + 3] == "](";
    assert link[|text| + 3..] == tab.url + ")";
    link
  }

  /** The title comparison on its own never fails: only presence and emptiness decide. */
  lemma TrimComparisonNeverFails(title: Option<string>)
    ensures TitleIsPresent(title) <==> title.Some? && title.value != ""
  {
  }

  /** The URL stands in for the text exactly when the title is missing or empty. */
  lemma TextFallsBackToUrl(tab: Tab)
    ensures tab.title == None || tab.title == Some("") ==> LinkText(tab) == tab.url
    ensures tab.title.Some? && tab.title.value != "" ==> LinkText(tab) == tab.title.value
  {
  }

  /** A title of blanks is not trimmed, so it is not replaced by the URL. */
  lemma BlankTitleKept(title: string, url: string)
    requires |title| > 0
    requires forall i :: 0 <= i < |title| ==> title[i] == ' '
    ensures TurnTitleAndUrlIntoMarkdownLink(Tab(Some(title), url)) == "[" + title + "](" + url + ")"
  {
  }

  /** For one URL, the link determines its text: different texts give different links. */
  lemma LinkDeterminesText(a: Tab, b: Tab)
    requires a.url == b.url
    requires TurnTitleAndUrlIntoMarkdownLink(a) == TurnTitleAndUrlIntoMarkdownLink(b)
    ensures LinkText(a) == LinkText(b)
  {
  }
}
