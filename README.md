# Script Kit text and duration helpers, modelled in Dafny

This project models the self-contained logic in five Script Kit automation
scripts (`scriptkit/scripts/`). The launcher, the browser, the clipboard and
the OS are left out. What remains is modelled:

- **Get Email for Newsletter**: from `user@domain` and a page host, build
  `user+<host labels joined by '-'>@domain`. A first label that is exactly
  `www` is dropped (`newsletter_email.dfy`, module `NewsletterEmail`).
- **Markdown-Linkify Chrome Tab**: `[title](url)`, where the URL is used as
  the text when the title is missing or empty. The title test compares the
  method `trim` itself with `''`, so it never fails and a title of blanks is
  kept (`markdown_link.dfy`, module `MarkdownLink`).
- **GitHub Styled Blockquotes**: the five alert kinds, their templates
  (`> [!NOTE]` and an empty quoted line), the lookup and the notification text
  (`github_blockquotes.dfy`, module `GithubAlerts`).
- **Start Caffeinate Session** and **Start Amphetamine Session**:
  - the preset tables and the custom-duration validator;
  - the hours→seconds and hours→minutes conversions with `Math.round`;
  - the `hour`/`hours` rule;
  - the `caffeinate` argument vector and the AppleScript passed to `osascript`;
  - the notification and, for caffeinate, the exit code.

  The parts both scripts share are in `keep_awake.dfy` (module `KeepAwake`).
  The script-specific parts are in `caffeinate_session.dfy` (`Caffeinate`) and
  `amphetamine_session.dfy` (`Amphetamine`).

`text.dfy` (module `Text`) models the JavaScript string built-ins the scripts
use: `split`, `join`, `toUpperCase` on ASCII, and `toString` of an integer
below 1e21 in magnitude, which is written in plain digits. Each
comes with its inverse or a reference definition: `join` undoes `split`,
split-then-join is character replacement, and a decimal parser reads back
what `toString` wrote. `wrappers.dfy` holds `Option`, which stands for
`undefined`.

Durations are exact reals and `Math.round(x)` is `Floor(x + 1/2)`. All preset
values are exact, so their conversions are exact as well. The user's
selection, the parsed custom input, and whether launching throws are
parameters. The caffeinate script has no check for an active session and
never kills one.

## Model

| member | source | states |
|---|---|---|
| Text.Split | scriptkit/scripts/get-email-for-newsletter.ts:10 | `split` with a one-character separator yields at least one part, no part contains the separator, and there are two or more parts exactly when the separator occurs |
| Text.SplitJoin | scriptkit/scripts/get-email-for-newsletter.ts:10-17 | joining separator-free parts and splitting again gives the same parts back |
| Text.JoinSplitReplaces | scriptkit/scripts/get-email-for-newsletter.ts:10-17 | splitting on `.` and joining with `-` is the same as replacing every `.` by `-` |
| Text.Join | scriptkit/scripts/get-email-for-newsletter.ts:17 | `join` starts with the first part and, when there is a second part, puts the separator right after it; `SplitJoin` and `JoinSplit` make it the inverse of `split` |
| Text.Upper | scriptkit/scripts/github-blockquotes.ts:70 | `toUpperCase` keeps the length and upper-cases each ASCII letter in place, leaving every other character as it is |
| Text.IntToDecimal | scriptkit/scripts/start-caffeinate-session.ts:44 | an integer's text is digits with a leading `-` exactly for negatives, and has no leading zero except for `0` itself (also the interpolation at start-amphetamine-session.ts:41) |
| Text.DecimalRoundTrip | scriptkit/scripts/start-caffeinate-session.ts:44 | the decimal text written for an integer parses back to that integer |
| NewsletterEmail.LocalPart | scriptkit/scripts/get-email-for-newsletter.ts:7 | the local part is a prefix of the address and contains no `@` |
| NewsletterEmail.DomainPart | scriptkit/scripts/get-email-for-newsletter.ts:7 | the domain part contains no `@` |
| NewsletterEmail.AddressSplit | scriptkit/scripts/get-email-for-newsletter.ts:7 | with an `@` present, `split('@')` has at least two parts, and the first two are the local part and the domain part |
| NewsletterEmail.Discarded | scriptkit/scripts/get-email-for-newsletter.ts:7 | what follows the domain part is empty or starts at a second `@` |
| NewsletterEmail.AddressParts | scriptkit/scripts/get-email-for-newsletter.ts:7 | the address is the local part, `@`, then the domain part followed by the discarded remainder |
| NewsletterEmail.ExpectedTag | scriptkit/scripts/get-email-for-newsletter.ts:10-17 | the tag (host without a leading `www` label, dots turned into dashes) contains no `.` |
| NewsletterEmail.SiteLabels | scriptkit/scripts/get-email-for-newsletter.ts:10-15 | the kept labels contain no `.`, and none are left exactly when the host is `www` |
| NewsletterEmail.CreateEmailWithDomain | scriptkit/scripts/get-email-for-newsletter.ts:6-18 | the result is local part + `+` + the tag + `@` + domain part |
| NewsletterEmail.FirstLabelIsWww | scriptkit/scripts/get-email-for-newsletter.ts:13-15 | the first label is `www` exactly when the host is `www` or starts with `www.` |
| NewsletterEmail.TagMatchesExpected | scriptkit/scripts/get-email-for-newsletter.ts:10-17 | the kept labels joined with `-` equal the reference tag |
| NewsletterEmail.OnlyOneWwwDropped | scriptkit/scripts/get-email-for-newsletter.ts:14 | at most one label goes: `www.www.a.com` gives `www-a-com` |
| NewsletterEmail.NumberedWwwKept | scriptkit/scripts/get-email-for-newsletter.ts:13 | a first label `www2` is kept |
| NewsletterEmail.UpperCaseWwwKept | scriptkit/scripts/get-email-for-newsletter.ts:13 | a first label `WWW` is kept, because the comparison is case-sensitive |
| NewsletterEmail.InnerWwwKept | scriptkit/scripts/get-email-for-newsletter.ts:13 | a `www` label that is not first is kept |
| NewsletterEmail.BareWwwHostGivesEmptyTag | scriptkit/scripts/get-email-for-newsletter.ts:10-17 | the host `www` gives an empty tag: `user+@domain` |
| MarkdownLink.TitleIsPresent | scriptkit/scripts/markdown-link-active-tab.ts:9 | a title counts as present only when it exists and is non-empty |
| MarkdownLink.LinkText | scriptkit/scripts/markdown-link-active-tab.ts:9-10 | the text is the URL or the tab's own title, and it is empty only when the URL is |
| MarkdownLink.TurnTitleAndUrlIntoMarkdownLink | scriptkit/scripts/markdown-link-active-tab.ts:7-16 | the link is `[` + text + `](` + url + `)`, each piece found at its position; length is text + url + 4 |
| MarkdownLink.TrimComparisonNeverFails | scriptkit/scripts/markdown-link-active-tab.ts:9 | the title counts as present exactly when it exists and is non-empty; the `trim` comparison never decides |
| MarkdownLink.TextFallsBackToUrl | scriptkit/scripts/markdown-link-active-tab.ts:9-10 | a missing or empty title gives the URL as text; any other title is used verbatim |
| MarkdownLink.BlankTitleKept | scriptkit/scripts/markdown-link-active-tab.ts:9-13 | a title of blanks is not replaced by the URL |
| MarkdownLink.LinkDeterminesText | scriptkit/scripts/markdown-link-active-tab.ts:13 | for one URL, equal links have equal texts |
| GithubAlerts.TemplateFor | scriptkit/scripts/github-blockquotes.ts:49-62 | the lookup finds a template exactly for the table's keys, and it is `> [!VALUE]` newline `> ` |
| GithubAlerts.NotificationBody | scriptkit/scripts/github-blockquotes.ts:70 | the body starts with the selected value upper-cased character by character, so with no lower-case letter, followed by ` blockquote template pasted` |
| GithubAlerts.TemplateShape | scriptkit/scripts/github-blockquotes.ts:50-59 | each template is `> [!` + the upper-cased value + `]` newline `> ` |
| GithubAlerts.ChoiceValues | scriptkit/scripts/github-blockquotes.ts:8-34 | the values offered are `note`, `tip`, `important`, `warning`, `caution`, in that order |
| GithubAlerts.ChoiceValuesDistinct | scriptkit/scripts/github-blockquotes.ts:41-45 | no two choices share a value |
| GithubAlerts.TemplatesMatchChoices | scriptkit/scripts/github-blockquotes.ts:49-62 | every choice has a template, and every template belongs to a choice |
| GithubAlerts.TemplateTwoLines | scriptkit/scripts/github-blockquotes.ts:50-59 | each template is exactly two lines, both beginning with `> `, the second nothing more |
| GithubAlerts.NotificationNamesMarker | scriptkit/scripts/github-blockquotes.ts:62-70 | the word at the start of the notification is the word in the template's `[! ]` marker |
| GithubAlerts.DisplayNamesCapitalized | scriptkit/scripts/github-blockquotes.ts:10-31 | each display name is its value with the first letter upper-cased |
| KeepAwake.Validate | scriptkit/scripts/start-caffeinate-session.ts:26-30 | custom input is accepted exactly when it parses to a number greater than zero, else it gets the fixed message (same validator at start-amphetamine-session.ts:28-32) |
| KeepAwake.LookupPreset | scriptkit/scripts/start-caffeinate-session.ts:20 | a label is found exactly when some entry has it, and the value found is that entry's |
| KeepAwake.ResolveHours | scriptkit/scripts/start-caffeinate-session.ts:20-33 | a preset gives its number; the custom sentinel gives exactly the number the validated input parsed to, which is positive |
| KeepAwake.Round | scriptkit/scripts/start-caffeinate-session.ts:36 | `Math.round` returns the integer within one half of its argument, a tie going up |
| KeepAwake.PluralSuffix | scriptkit/scripts/start-caffeinate-session.ts:54 | the suffix is empty exactly for one hour, and `s` otherwise |
| KeepAwake.RoundWhole | scriptkit/scripts/start-caffeinate-session.ts:36 | rounding a whole number returns it unchanged |
| KeepAwake.ResolvedHoursPositive | scriptkit/scripts/start-caffeinate-session.ts:20-33 | with positive numeric presets, every resolved duration is positive |
| Caffeinate.DurationSeconds | scriptkit/scripts/start-caffeinate-session.ts:36 | the seconds are the nearest whole number to hours × 3600, a half going up |
| Caffeinate.CaffeinateArgs | scriptkit/scripts/start-caffeinate-session.ts:44 | the argv is `-d`, `-i`, `-t` and the seconds' canonical decimal text, which parses back to the seconds |
| Caffeinate.StartCaffeinateSession | scriptkit/scripts/start-caffeinate-session.ts:16-67 | the duration is positive; caffeinate gets the argv for the rounded seconds; success notifies with the plural rule and exits 0; a throw notifies the failure and exits 1 |
| Caffeinate.PresetTable | scriptkit/scripts/start-caffeinate-session.ts:8-14 | `8 Hours`, `4 Hours`, `2 Hours`, `1 Hour` give 8, 4, 2, 1; `Custom Duration` gives the sentinel |
| Caffeinate.PresetsPositive | scriptkit/scripts/start-caffeinate-session.ts:8-14 | every numeric preset is a positive whole number |
| Caffeinate.PresetSecondsExact | scriptkit/scripts/start-caffeinate-session.ts:36 | for each preset the seconds are exactly hours × 3600, and positive |
| Caffeinate.SecondsExamples | scriptkit/scripts/start-caffeinate-session.ts:36 | 8 hours give 28800 s, 1 hour 3600 s, a custom 2.5 gives 9000 s |
| Caffeinate.ZeroSecondsForTinyDurations | scriptkit/scripts/start-caffeinate-session.ts:28-36 | an accepted duration gives 0 seconds exactly when it is below 1/7200 hour |
| Caffeinate.PresetPlurals | scriptkit/scripts/start-caffeinate-session.ts:54 | only the one-hour preset reads `hour` |
| Amphetamine.DurationMinutes | scriptkit/scripts/start-amphetamine-session.ts:38 | the minutes are the nearest whole number to hours × 60, a half going up |
| Amphetamine.SessionScript | scriptkit/scripts/start-amphetamine-session.ts:41 | the script is the fixed head, the minutes' canonical decimal text (which parses back to the minutes), and the fixed tail; it has no single quote |
| Amphetamine.FixedTextQuoteFree | scriptkit/scripts/start-amphetamine-session.ts:41 | neither fixed part of the AppleScript has a single quote |
| Amphetamine.OsascriptCommand | scriptkit/scripts/start-amphetamine-session.ts:44 | the command is `osascript -e '`, the script, then a closing `'` |
| Amphetamine.ScriptIsOneShellWord | scriptkit/scripts/start-amphetamine-session.ts:41-44 | the only single quotes in the command are the two around the script, so the shell passes it on unchanged |
| Amphetamine.StartAmphetamineSession | scriptkit/scripts/start-amphetamine-session.ts:17-56 | the duration is positive; the command carries the rounded minutes; success and failure get their notifications; no exit code is set |
| Amphetamine.PresetTable | scriptkit/scripts/start-amphetamine-session.ts:8-15 | the caffeinate presets plus `30 Minutes` giving 0.5 |
| Amphetamine.PresetsPositive | scriptkit/scripts/start-amphetamine-session.ts:8-15 | every numeric preset is positive |
| Amphetamine.PresetMinutes | scriptkit/scripts/start-amphetamine-session.ts:38 | the presets give 480, 240, 120, 60 and 30 minutes |
| Amphetamine.HalfHourIsPlural | scriptkit/scripts/start-amphetamine-session.ts:47 | half an hour reads `hours`; only exactly one hour reads `hour` |

## Left out

- Script Kit runtime calls (`arg`, `notify`, `copy`, `setSelectedText`, `env`, `npm`) are foreign library calls. The user's choices are parameters; the text copied or pasted and the notifications are results.
- The prompt re-asks until the validator accepts, and offers only the preset labels. So the session methods require a preset label, and require validated input when the custom sentinel is chosen.
- Reading the active Chrome tab through JXA is OS automation. The tab's title and URL, and the page host, are inputs.
- `new URL(url).host` is URL parsing from a library, so the host is taken as a string. A `:port` in it stays part of the last label.
- NewsletterEmail.CreateEmailWithDomain: requires an `@` in the address. Without one, JavaScript would write the text `undefined` as the domain.
- `child_process.spawn` with `detached`/`unref`, `exec` of `osascript`, and `process.exit` are process I/O. The model keeps the argv, the command string and the intended exit code. One boolean parameter says whether the `try` block throws.
- Caffeinate.StartCaffeinateSession: the boolean covers a synchronous throw from `spawn` and a rejected success notification, which is awaited. A missing `caffeinate` binary is reported by `spawn` through a later `'error'` event, not a throw; that path is not modelled.
- Amphetamine.StartAmphetamineSession: the boolean covers only the awaited `exec` rejecting. The success notification is not awaited, so a rejection of it bypasses the `catch` and sends no failure notification; that unhandled rejection is not modelled.
- Text.IntToDecimal: plain digits only. JavaScript writes numbers of magnitude 1e21 and above in exponent form, so a custom `1e18` hours, which the validator accepts, gives the argument `3.6e+21` seconds; that rendering is not modelled.
- `console.error` logging of the caught error is not modelled.
- `parseFloat` and IEEE-754 arithmetic are floating point. Parsed input is `NaN` or an exact real. `Infinity` is not modelled: it parses to a positive infinity that the validator would accept.
- The rendering of `${durationHours}` in notification bodies is float-to-string. The body keeps the number as a value (`AroundHours`), and only the plural suffix is stated.
- GithubAlerts.NotificationBody: `toUpperCase` is modelled for ASCII letters only; other characters are left as they are. Every selectable value is ASCII.
- MarkdownLink: a title that is some other falsy or non-string JavaScript value is not modelled. A title is a string or missing.
- `scriptkit/scripts/example-script.ts` passes a prompt answer straight to a notification and has no logic.
