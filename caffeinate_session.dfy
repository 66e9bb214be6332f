/**
 * The "Start Caffeinate Session" script: pick a preset or a custom number of
 * hours, convert it to whole seconds, launch `caffeinate -d -i -t <seconds>`
 * in the background, notify, and exit with 0 (or notify the failure and
 * exit with 1). The prompts, the detached process and the exit itself are
 * not modelled: the selection, the parsed custom input and whether launching
 * throws are inputs, and the argument vector and exit code are outputs.
 */
module Caffeinate {
  import opened Wrappers
  import opened Text
  import opened KeepAwake

  /** `DURATION_PRESETS`, in the order the choices are offered. */
  const DurationPresets: seq<(string, PresetValue)> := [
    ("8 Hours", Hours(8.0)),
    ("4 Hours", Hours(4.0)),
    ("2 Hours", Hours(2.0)),
    ("1 Hour", Hours(1.0)),
    ("Custom Duration", Custom)
  ]

  /** `Math.round(durationHours * 3600)`: the nearest whole second, halves up. */
  function DurationSeconds(hours: real): (seconds: int)
    ensures -0.5 < seconds as real - hours * 3600.0 <= 0.5
  {
    Round(hours * 3600.0)
  }

  /** The argument vector given to `caffeinate`: keep the display and the system awake, for that many seconds. */
  function CaffeinateArgs(seconds: int): (argv: seq<string>)
    ensures |argv| == 4 && argv[..3] == ["-d", "-i", "-t"]
    ensures argv[3] == IntToDecimal(seconds)
    ensures ParseDecimal(argv[3]) == Some(seconds)
  {
    DecimalRoundTrip(seconds);
    ["-d", "-i", "-t", IntToDecimal(seconds)]
  }

  /** What one run leaves behind: the argument vector it launched with, its notification and its exit code. */
  datatype Outcome = Outcome(argv: seq<string>, notice: Notice, exitCode: int)

  /**
   * `startCaffeinateSession`. `launchThrows` says whether the `try` block
   * throws: `spawn` throwing synchronously, or the awaited success
   * notification rejecting. A missing `caffeinate` binary is reported by
   * `spawn` through a later `'error'` event, not a throw, and is not modelled.
   */
  method StartCaffeinateSession(selectedPreset: string, customInput: ParsedNumber, launchThrows: bool)
    returns (outcome: Outcome)
    requires LookupPreset(DurationPresets, selectedPreset).Some?
    requires LookupPreset(DurationPresets, selectedPreset) == Some(Custom) ==> Validate(customInput).Accepted?
    ensures var hours := ResolveHours(LookupPreset(DurationPresets, selectedPreset).value, customInput);
            && hours > 0.0
            && outcome.argv == CaffeinateArgs(DurationSeconds(hours))
            && outcome.exitCode == (if launchThrows then 1 else 0)
            && outcome.notice == (if launchThrows then Notice("Error", Plain("Failed to start caffeinate session"))
                                  else Notice("Caffeinate Session Started",
                                              AroundHours("System will stay awake for ", hours, " hour" + PluralSuffix(hours))))
  {
    PresetsPositive();
    ResolvedHoursPositive(DurationPresets, selectedPreset, customInput);
    var preset := LookupPreset(DurationPresets, selectedPreset).value;
    var durationHours: real;
    if preset == Custom {
      durationHours := customInput.value;
    } else {
      durationHours := preset.hours;
    }
    var durationSeconds := DurationSeconds(durationHours);
    var argv := CaffeinateArgs(durationSeconds);
    if launchThrows {
      outcome := Outcome(argv, Notice("Error", Plain("Failed to start caffeinate session")), 1);
    } else {
      var body := AroundHours("System will stay awake for ", durationHours, " hour" + PluralSuffix(durationHours));
      outcome := Outcome(argv, Notice("Caffeinate Session Started", body), 0);
    }
  }

  /** The labels offered, and each preset's value: 8, 4, 2 and 1 hours, then the custom sentinel. */
  lemma PresetTable()
    ensures LookupPreset(DurationPresets, "8 Hours") == Some(Hours(8.0))
    ensures LookupPreset(DurationPresets, "4 Hours") == Some(Hours(4.0))
    ensures LookupPreset(DurationPresets, "2 Hours") == Some(Hours(2.0))
    ensures LookupPreset(DurationPresets, "1 Hour") == Some(Hours(1.0))
    ensures LookupPreset(DurationPresets, "Custom Duration") == Some(Custom)
  {
  }

  /** Every numeric preset is a positive whole number of hours. */
  lemma PresetsPositive()
    ensures forall i :: 0 <= i < |DurationPresets| && DurationPresets[i].1.Hours? ==>
              DurationPresets[i].1.hours > 0.0 && DurationPresets[i].1.hours == DurationPresets[i].1.hours.Floor as real
  {
  }

  /** For every preset, rounding changes nothing: the seconds are exactly hours times 3600, and positive. */
  lemma PresetSecondsExact(i: nat)
    requires i < |DurationPresets| && DurationPresets[i].1.Hours?
    ensures var h := DurationPresets[i].1.hours;
            DurationSeconds(h) as real == h * 3600.0 && DurationSeconds(h) > 0
  {
  }

  /** The 8-hour and 1-hour presets give 28800 and 3600 seconds; a custom 2.5 gives 9000. */
  lemma SecondsExamples()
    ensures DurationSeconds(8.0) == 28800 && DurationSeconds(1.0) == 3600
    ensures DurationSeconds(2.5) == 9000
  {
  }

  /** An accepted custom duration rounds to zero seconds exactly when it is under half a second, 1/7200 hour. */
  lemma ZeroSecondsForTinyDurations(hours: real)
    requires hours > 0.0
    ensures DurationSeconds(hours) == 0 <==> hours < 1.0 / 7200.0
  {
  }

  /** Only the `1 Hour` preset reads `hour`; the others read `hours`. */
  lemma PresetPlurals()
    ensures PluralSuffix(1.0) == ""
    ensures PluralSuffix(8.0) == "s" && PluralSuffix(4.0) == "s" && PluralSuffix(2.0) == "s"
  {
  }
}
