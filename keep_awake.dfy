/**
 * What the two keep-awake session scripts (caffeinate and Amphetamine) share:
 * the preset table's shape and lookup, the custom-duration validator, the
 * choice of hours, JavaScript's `Math.round`, the `hour`/`hours` rule and the
 * notifications. Durations are exact reals, not IEEE-754 doubles.
 */
module KeepAwake {
  import opened Wrappers

  /** What `parseFloat` yields for the typed text: `NaN`, or a number. */
  datatype ParsedNumber = NotANumber | Number(value: real)

  /** The validator's answer: `true`, or the message shown beside the prompt. */
  datatype Validation = Accepted | Rejected(message: string)

  /** A preset's value: a number of hours, or the `'custom'` sentinel. */
  datatype PresetValue = Hours(hours: real) | Custom

  /** A notification body: plain text, or text around `${durationHours}` (whose float rendering is not modelled). */
  datatype Body = Plain(text: string) | AroundHours(before: string, hours: real, after: string)

  datatype Notice = Notice(title: string, body: Body)

  /** The custom-duration validator: only a number greater than zero passes. */
  function Validate(input: ParsedNumber): (v: Validation)
    ensures v.Accepted? <==> input.Number? && input.value > 0.0
    ensures v.Rejected? ==> v.message == "Please enter a valid positive number"
  {
    if input.NotANumber? || input.value <= 0.0 then Rejected("Please enter a valid positive number")
    else Accepted
  }

  /** `DURATION_PRESETS[name]`: the value of the first entry with that label. */
  function LookupPreset(presets: seq<(string, PresetValue)>, name: string): (v: Option<PresetValue>)
    ensures v.None? <==> forall i :: 0 <= i < |presets| ==> presets[i].0 != name
    ensures v.Some? ==> exists i :: 0 <= i < |presets| && presets[i] == (name, v.value)
  {
    if |presets| == 0 then None
    else if presets[0].0 == name then Some(presets[0].1)
    else LookupPreset(presets[1..], name)
  }

  /**
   * The hours a session runs for: the preset's number, or, for the custom
   * sentinel, the number the validated input parsed to.
   */
  function ResolveHours(preset: PresetValue, customInput: ParsedNumber): (hours: real)
    requires preset.Custom? ==> Validate(customInput).Accepted?
    ensures preset.Custom? ==> hours == customInput.value && hours > 0.0
    ensures preset.Hours? ==> hours == preset.hours
  {
    match preset
    case Hours(h) => h
    case Custom => customInput.value
  }

  /** `Math.round`: the nearest integer, halves rounded up. */
  function Round(x: real): (n: int)
    ensures x - 0.5 < n as real <= x + 0.5
  {
    (x + 0.5).Floor
  }

  /** The suffix after `hour`: none for exactly one hour, `s` otherwise. */
  function PluralSuffix(hours: real): (suffix: string)
    ensures suffix == "" <==> hours == 1.0
    ensures suffix != "" ==> suffix == "s"
  {
    if hours == 1.0 then "" else "s"
  }

  /** Rounding a whole number leaves it unchanged. */
  lemma RoundWhole(k: int)
    ensures Round(k as real) == k
  {
  }

  /** All presets that name a number name a positive one, so every resolved duration is positive. */
  lemma ResolvedHoursPositive(presets: seq<(string, PresetValue)>, name: string, customInput: ParsedNumber)
    requires forall i :: 0 <= i < |presets| && presets[i].1.Hours? ==> presets[i].1.hours > 0.0
    requires LookupPreset(presets, name).Some?
    requires LookupPreset(presets, name) == Some(Custom) ==> Validate(customInput).Accepted?
    ensures ResolveHours(LookupPreset(presets, name).value, customInput) > 0.0
  {
  }
}
