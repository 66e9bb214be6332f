/**
 * The "Start Amphetamine Session" script: pick a preset or a custom number of
 * hours, convert it to whole minutes, and ask the Amphetamine application,
 * through an AppleScript run by `osascript -e`, to start a session of that
 * length; then notify success or failure. Unlike the caffeinate script it
 * sets no exit code. The prompts and the command execution are not modelled:
 * the selection, the parsed custom input and whether executing throws are
 * inputs; the shell command and the notification are outputs.
 */
module Amphetamine {
  import opened Wrappers
  import opened Text
  import opened KeepAwake

  /** `DURATION_PRESETS`, in the order the choices are offered. */
  const DurationPresets: seq<(string, PresetValue)> := [
    ("8 Hours", Hours(8.0)),
    ("4 Hours", Hours(4.0)),
    ("2 Hours", Hours(2.0)),
    ("1 Hour", Hours(1.0)),
    ("30 Minutes", Hours(0.5)),
    ("Custom Duration", Custom)
  ]

  /** The AppleScript around the duration, written in pieces. */
  const ScriptHead := "tell " + "application " + "\"Amphetamine\" " + "to start " + "new session " + "with options " + "{ duration:"
  const ScriptTail := ", interval:" + "minutes, " + "displaySleep" + "Allowed:false }"

  /** `Math.round(durationHours * 60)`: the nearest whole minute, halves up. */
  function DurationMinutes(hours: real): (minutes: int)
    ensures -0.5 < minutes as real - hours * 60.0 <= 0.5
  {
    Round(hours * 60.0)
  }

  /** The AppleScript: start a session whose duration, in minutes, can be read back from between its fixed head and tail. */
  function SessionScript(minutes: int): (script: string)
    ensures |script| > |ScriptHead| + |ScriptTail|
    ensures script[..|ScriptHead|] == ScriptHead
    ensures script[|script| - |ScriptTail|..] == ScriptTail
    ensures script[|ScriptHead|..|script| - |ScriptTail|] == IntToDecimal(minutes)
    ensures ParseDecimal(script[|ScriptHead|..|script| - |ScriptTail|]) == Some(minutes)
    ensures '\'' !in script
  {
    var duration := IntToDecimal(minutes);
    var script := ScriptHead + duration + ScriptTail;
    DecimalRoundTrip(minutes);
    assert script[|ScriptHead|..|script| - |ScriptTail|] == duration;
    FixedTextQuoteFree();
    script
  }

  /** Neither fixed part of the script holds a single quote. */
  lemma FixedTextQuoteFree()
    ensures '\'' !in ScriptHead && '\'' !in ScriptTail
  {
  }

  /** The shell command: `osascript -e` with the script as one single-quoted word. */
  function OsascriptCommand(script: string): (command: string)
    ensures |command| == |script| + |"osascript -e ''"|
    ensures command[..|"osascript -e '"|] == "osascript -e '"
    ensures command[|"osascript -e '"|..|command| - 1] == script
    ensures command[|command| - 1] == '\''
  {
    "osascript -e '" + script + "'"
  }

  /** What one run leaves behind: the command it executed and its notification. */
  datatype Outcome = Outcome(command: string, notice: Notice)

  /**
   * `startAmphetamineSession`. `execThrows` says whether the awaited
   * `exec` of the command rejects. The success notification is not
   * awaited, so its failure never reaches the `catch` and is not modelled.
   */
  method StartAmphetamineSession(selectedPreset: string, customInput: ParsedNumber, execThrows: bool)
    returns (outcome: Outcome)
    requires LookupPreset(DurationPresets, selectedPreset).Some?
    requires LookupPreset(DurationPresets, selectedPreset) == Some(Custom) ==> Validate(customInput).Accepted?
    ensures var hours := ResolveHours(LookupPreset(DurationPresets, selectedPreset).value, customInput);
            && hours > 0.0
            && outcome.command == OsascriptCommand(SessionScript(DurationMinutes(hours)))
            && outcome.notice == (if execThrows then Notice("Error", Plain("Failed to start Amphetamine session"))
                                  else Notice("Amphetamine Session Started",
                                              AroundHours("Session started for ", hours, " hour" + PluralSuffix(hours))))
  {
    PresetsPositive();
    ResolvedHoursPositive(DurationPresets, selectedPreset, customInput);
    var preset := LookupPreset(DurationPresets, selectedPreset).value;
    var durationHours: real;
    if preset == Custom {
      durationHours := customInput.value;
    } else {
      durationHours := preset.hours;
    }
    var durationMinutes := DurationMinutes(durationHours);
    var script := SessionScript(durationMinutes);
    var command := OsascriptCommand(script);
    if execThrows {
      outcome := Outcome(command, Notice("Error", Plain("Failed to start Amphetamine session")));
    } else {
      var body := AroundHours("Session started for ", durationHours, " hour" + PluralSuffix(durationHours));
      outcome := Outcome(command, Notice("Amphetamine Session Started", body));
    }
  }

  /** The presets add `30 Minutes`, half an hour, to those of the caffeinate script. */
  lemma PresetTable()
    ensures LookupPreset(DurationPresets, "8 Hours") == Some(Hours(8.0))
    ensures LookupPreset(DurationPresets, "4 Hours") == Some(Hours(4.0))
    ensures LookupPreset(DurationPresets, "2 Hours") == Some(Hours(2.0))
    ensures LookupPreset(DurationPresets, "1 Hour") == Some(Hours(1.0))
    ensures LookupPreset(DurationPresets, "30 Minutes") == Some(Hours(0.5))
    ensures LookupPreset(DurationPresets, "Custom Duration") == Some(Custom)
  {
  }

  /** Every numeric preset is positive. */
  lemma PresetsPositive()
    ensures forall i :: 0 <= i < |DurationPresets| && DurationPresets[i].1.Hours? ==> DurationPresets[i].1.hours > 0.0
  {
  }

  /** The presets give 480, 240, 120, 60 and 30 minutes, with no rounding. */
  lemma PresetMinutes()
    ensures DurationMinutes(8.0) == 480 && DurationMinutes(4.0) == 240 && DurationMinutes(2.0) == 120
    ensures DurationMinutes(1.0) == 60 && DurationMinutes(0.5) == 30
  {
  }

  /**
   * The script has no single quote, so the shell passes it to `osascript`
   * unchanged: the command's only quotes are the two around the script.
   */
  lemma ScriptIsOneShellWord(minutes: int)
    ensures var command := OsascriptCommand(SessionScript(minutes));
            forall i :: 0 <= i < |command| && command[i] == '\'' ==> i == |"osascript -e "| || i == |command| - 1
  {
  }

  /** The half-hour preset reads `hours`: only exactly one hour is singular. */
  lemma HalfHourIsPlural()
    ensures PluralSuffix(0.5) == "s" && PluralSuffix(1.0) == ""
  {
  }
}
