# Raycast extensions: usage pacing, activity summary, registry and helpers, in Dafny

This project models the computational core of a collection of Raycast extensions and proves
properties of it.

**Claude usage extension**
- The usage pacing calculator of the menu bar and the detail view:
  - reading the session reset text ("2h 15m") and the weekly reset text ("Mon 3:00 AM");
  - elapsed time against quota used over the 300-minute session and the 168-hour week;
  - the three pacing labels and the five colour bands;
  - the 24-segment timeline and the 7-day calendar strip.
- The daily activity summary:
  - session-log parsing;
  - aggregation across projects;
  - top tools and the heatmap;
  - the hourly chart, the most productive hour and the productivity tiers.
- The git status classification of a project.

**claude-built extension**
- The registry: recency sort, usage counters, favourites, relative time, tilde expansion and item markdown.
- The list's filtering and favourites-first ordering.
- The command builders and quoting used to launch items.

**Other extensions**
- The shared feedback form's GitHub issue builder.
- The form template's validation state.
- The Finder actions path shortener and terminal launcher.
- The balloons overlay app's effect argument and duration table.

**How the model is written**
- The clock is a value passed in (`Clock`: weekday, hour, minute, second, millisecond).
- Effects on the outside world are returned as lists of effect values, in the order the source performs them:
  - process launches, clipboard copies and HUD messages;
  - GitHub API calls and toasts.
- Whatever the program reads from outside becomes a parameter:
  - file contents, whether an application is installed and whether a command succeeds;
  - Node's `path.dirname`/`path.basename` and `Date` parsing.
- Regular expressions become a deterministic "matches at position i" function plus a leftmost search, with a contract that the search finds the least matching position.
- `Math.round(x)` is `floor(x + 1/2)` and `Math.ceil(x)` is `-floor(-x)`, both on exact rationals.
- `Array.prototype.sort` with the source's comparators is a stable descending insertion sort on a two-part key (`Ordering.SortDesc`).
- JavaScript objects used as counters are insertion-ordered association lists (`Counter`).

**Where the code decides**
- In the feedback form, the issue body is copied to the clipboard only when the submission does not fail. A rejected API call throws before the copy (extensions/forked/_shared/submit-feedback.tsx:113-118 and 275-278). The model follows the code.

**Modules**
- `Wrappers`, `Text`, `Numeric`, `Ordering` and `Counter` are support modules.
- `ResetParsing` holds the two reset-text parsers. show-usage.tsx and menu-bar.tsx contain textually identical copies of them, so they are modelled once.
- Each other module follows one source file:
  - `ShowUsage`, `MenuBar`, `DailySummary` and `GitStatus` (claude-usage);
  - `Registry`, `BuiltList` and `Execute` (claude-built);
  - `SubmitFeedback`, `HelloForm`, `FinderActions` and `Balloons`.

## Model

| member | source | states |
|---|---|---|
| ResetParsing.DigitRunEnd | extensions/claude-usage/src/show-usage.tsx:42 | the greedy `\d+` run from i: all digits up to j, and no digit at j |
| ResetParsing.FirstUnitMatch | extensions/claude-usage/src/show-usage.tsx:42-46 | the found position matches `(\d+)\s*u` case-insensitively, and no earlier position does |
| ResetParsing.FirstUnitMatchStartsRun | extensions/claude-usage/src/show-usage.tsx:42-46 | the leftmost match starts a number, so the captured group is the whole number |
| ResetParsing.UnitNumberFound | extensions/claude-usage/src/show-usage.tsx:42-46 | the first number followed by the unit letter is the one read |
| ResetParsing.UnitNumber | extensions/claude-usage/src/show-usage.tsx:42-46 | no number is read exactly when `(\d+)\s*u` matches nowhere; otherwise the number read is the digit run at the leftmost match |
| ResetParsing.ParseSessionResetTime | extensions/claude-usage/src/show-usage.tsx:37-49 | a result is always positive; null or empty text gives none |
| ResetParsing.SessionResetRoundTrip | extensions/claude-usage/src/menu-bar.tsx:26-42 | "<h>h <m>m" parses back to 60·h + m minutes whenever that is not zero |
| ResetParsing.SessionResetExamples | extensions/claude-usage/src/show-usage.tsx:37-49 | "2h 15m" is 135, "45m" is 45, "3h" is 180, "" and "0h 0m" are none |
| ResetParsing.ZeroUnitsReadAsAbsent | extensions/claude-usage/src/show-usage.tsx:41-48 | hour and minute numbers that are each absent or zero give no reset time, as `totalMinutes > 0` demands |
| ResetParsing.WeeklyMatchAt | extensions/claude-usage/src/show-usage.tsx:57 | a match has a 3-character day, 1–2 hour digits, 2 minute digits and a 2-letter meridiem |
| ResetParsing.FirstWeeklyMatch | extensions/claude-usage/src/show-usage.tsx:57-58 | the leftmost position where `(\w{3})\s+(\d{1,2}):(\d{2})\s*(AM\|PM)` matches, case-insensitively |
| ResetParsing.DayIndex | extensions/claude-usage/src/show-usage.tsx:62-67 | a day is found exactly for the case-sensitive keys Sun..Sat, so "mon" fails |
| ResetParsing.DayName | extensions/claude-usage/src/show-usage.tsx:62-64 | every weekday's name reads back as that weekday |
| ResetParsing.To24Hour | extensions/claude-usage/src/show-usage.tsx:69-71 | for hours 1..12 with AM or PM, the 24-hour hour is below 24, shows the same clock-face position, and is in the afternoon exactly for PM |
| ResetParsing.To24HourCases | extensions/claude-usage/src/show-usage.tsx:69-71 | 12 AM is 0, 12 PM is 12, other PM hours add 12, other AM hours are kept |
| ResetParsing.DaysUntil | extensions/claude-usage/src/show-usage.tsx:78-84 | at most 7 days ahead |
| ResetParsing.MillisUntil | extensions/claude-usage/src/show-usage.tsx:86-90 | now plus the interval lands on the target weekday, hour and minute, this week or next |
| ResetParsing.HoursUntil | extensions/claude-usage/src/show-usage.tsx:90 | the hours until the reset are positive and at most 168 |
| ResetParsing.ParseWeeklyResetTime | extensions/claude-usage/src/show-usage.tsx:54-91 | hours are returned exactly when the text parses (day, hour, minute, meridiem) |
| ResetParsing.MillisUntilPositive | extensions/claude-usage/src/show-usage.tsx:78-90 | the reset is always strictly in the future |
| ResetParsing.MillisUntilAtMostWeek | extensions/claude-usage/src/show-usage.tsx:78-90 | the reset is at most one week away |
| ResetParsing.MillisUntilFullWeek | extensions/claude-usage/src/show-usage.tsx:80-84 | exactly one week away only at the reset's weekday and minute with zero seconds |
| ResetParsing.WeeklyResetHoursRange | extensions/claude-usage/src/menu-bar.tsx:66-106 | the hours until a parsed weekly reset lie in (0, 168] |
| ResetParsing.WeeklyResetRoundTrip | extensions/claude-usage/src/show-usage.tsx:54-72 | a reset time rendered as "Mon 3:05 PM" parses back to its weekday, hour and minute |
| ResetParsing.WeeklyResetExamples | extensions/claude-usage/src/show-usage.tsx:78-90 | "Wed 10:00 AM" read at Wednesday 10:00 is 168 hours away; read at 09:00 it is 1 hour |
| ResetParsing.Pad2Value | extensions/claude-usage/src/show-usage.tsx:57 | two-digit minutes read back as their value |
| ResetParsing.Hour12To24 | extensions/claude-usage/src/show-usage.tsx:69-71 | the 12-hour face with its meridiem converts back to the hour of the day |
| ShowUsage.SessionElapsed | extensions/claude-usage/src/show-usage.tsx:214-216 | no parsed reset gives 0 elapsed; otherwise elapsed + remaining = 300 |
| ShowUsage.WeekElapsed | extensions/claude-usage/src/show-usage.tsx:218-220 | no parsed reset gives 0; otherwise elapsed + remaining = 168 |
| ShowUsage.UnparsedSessionElapsedZero | extensions/claude-usage/src/show-usage.tsx:214-216 | an unparseable session text leaves elapsed at 0 rather than suppressing pacing |
| ShowUsage.WeekElapsedRange | extensions/claude-usage/src/show-usage.tsx:218-220 | a parsed weekly reset gives elapsed hours in [0, 168) |
| ShowUsage.LeftText | extensions/claude-usage/src/show-usage.tsx:148 | a present non-empty remaining-time text is shown unchanged; a missing or empty one shows "?" |
| ShowUsage.CreateTimelineVisual | extensions/claude-usage/src/show-usage.tsx:96-149 | no usage gives exactly "<label>: No data"; otherwise 24 segments, each the combined mark, time cursor, used or available by the source's precedence, with the pacing band and status text |
| ShowUsage.Marker | extensions/claude-usage/src/show-usage.tsx:110-111 | the marker is within half a segment of the percentage scaled to 24 segments |
| ShowUsage.SegmentAt | extensions/claude-usage/src/show-usage.tsx:114-124 | a segment is combined exactly where both markers sit, the cursor where only the time marker sits, used before the usage marker and available from it on, away from the cursor |
| ShowUsage.MarkerRange | extensions/claude-usage/src/show-usage.tsx:110-111 | a percentage in 0..100 gives a marker in 0..24 |
| ShowUsage.MarkerMonotone | extensions/claude-usage/src/show-usage.tsx:110-111 | a larger percentage never gives an earlier marker |
| ShowUsage.UsedSegmentCount | extensions/claude-usage/src/show-usage.tsx:114-124 | the number of used segments is the clamped usage marker, less one when the cursor falls inside it |
| ShowUsage.CursorCount | extensions/claude-usage/src/show-usage.tsx:114-118 | the time cursor, alone or combined, shows exactly once when its marker is on the bar |
| ShowUsage.BandOf | extensions/claude-usage/src/show-usage.tsx:127-144 | the bands are >15, 1..15, 0, −14..−1 and ≤ −15, each in both directions |
| ShowUsage.BandMonotone | extensions/claude-usage/src/show-usage.tsx:127-144 | a larger pacing never lands in a lower band |
| ShowUsage.StatusText | extensions/claude-usage/src/show-usage.tsx:129-144 | "<\|p\|>% ahead" above zero, "<\|p\|>% behind" below, "On pace" exactly at zero |
| ShowUsage.FormatTimeRemaining | extensions/claude-usage/src/show-usage.tsx:223-230 | null gives "?"; under 1 h, rounded minutes; under 24 h, hours in 1..24 within half an hour of the real value; else the days are the whole number of 24-hour periods in it (days <= hours/24 < days + 1) and the hours lie within half an hour of what remains after them, in 0..24 |
| ShowUsage.DaysHoursApproximates | extensions/claude-usage/src/show-usage.tsx:227-229 | the days and hours shown add up to the remaining time to within half an hour |
| ShowUsage.TwentyFourHoursShown | extensions/claude-usage/src/show-usage.tsx:228 | 47.75 hours reads "1d 24h": the rounded hours can reach 24 |
| ShowUsage.CalendarStrip | extensions/claude-usage/src/show-usage.tsx:165-179 | 7 cells, each cell i fixed by today, the reset day and the days between |
| ShowUsage.CellAt | extensions/claude-usage/src/show-usage.tsx:166-177 | a cell is "today" exactly on today, the reset mark exactly on the reset day when it is not today, and every non-dot cell carries that weekday's letter |
| ShowUsage.Forward | extensions/claude-usage/src/show-usage.tsx:171-174 | the days forward from one weekday to another, round the week, below 7 |
| ShowUsage.UntilResetIsForwardBetween | extensions/claude-usage/src/show-usage.tsx:171-175 | a day other than today and the reset day is shown bare exactly when it lies strictly between them going forward, wrapping past Saturday |
| ShowUsage.TodayAlwaysShown | extensions/claude-usage/src/show-usage.tsx:167-168 | today is "[X]" even when it is also the reset day |
| ShowUsage.NoResetMarksLaterDays | extensions/claude-usage/src/show-usage.tsx:159-163 | with no reset time no day is marked as the reset day, yet every day after today still shows bare and every day before it a dot |
| ShowUsage.CeilResetDay | extensions/claude-usage/src/show-usage.tsx:159-163 | −1 without a reset time, else a weekday |
| ShowUsage.CreateWeekCalendarAsWritten | extensions/claude-usage/src/show-usage.tsx:154-182 | the strip as written, marking the day `ceil(h/24)` days ahead |
| ShowUsage.CeilResetDayOffByOne | extensions/claude-usage/src/show-usage.tsx:161-162 | "Mon 3:00 AM" read at Monday 01:00 is 2 hours away, yet the strip as written marks Tuesday |
| ShowUsage.ResetDay | extensions/claude-usage/src/show-usage.tsx:159-163 | −1 without a reset time, else a weekday, counted in whole days from today's midnight |
| ShowUsage.ResetDayIsTargetDay | extensions/claude-usage/src/show-usage.tsx:154-163 | the corrected strip marks exactly the weekday the reset text names |
| ShowUsage.CreateWeekCalendar | extensions/claude-usage/src/show-usage.tsx:154-182 | the corrected strip: 7 cells for today and the named reset day |
| MenuBar.PacingOf | extensions/claude-usage/src/menu-bar.tsx:58-60 | "ahead" exactly for a positive difference, "behind" for a negative one with its magnitude, "On schedule" at zero |
| MenuBar.PacingText | extensions/claude-usage/src/menu-bar.tsx:48-60 | the text is empty exactly when there is no pacing |
| MenuBar.CalculateSessionPacing | extensions/claude-usage/src/menu-bar.tsx:47-61 | no pacing exactly when the usage is null or the reset text does not parse |
| MenuBar.CalculatePacing | extensions/claude-usage/src/menu-bar.tsx:111-125 | no pacing exactly when the usage is null or the weekly text does not parse |
| MenuBar.WindowDiffMatchesDetailView | extensions/claude-usage/src/menu-bar.tsx:55-56 | rounding the difference equals rounding the elapsed percentage and then subtracting the integer usage, as show-usage.tsx:105-106 does |
| MenuBar.SessionViewsAgree | extensions/claude-usage/src/menu-bar.tsx:47-61 | the menu bar's session label and the detail view's session band agree |
| MenuBar.WeeklyViewsAgree | extensions/claude-usage/src/menu-bar.tsx:111-125 | the All Models weekly label and the detail view's All Models band, both read from the All Models reset text, agree |
| MenuBar.SonnetViewsAgreeOnSharedReset | extensions/claude-usage/src/menu-bar.tsx:178-181 | the Sonnet label, paced on Sonnet's own reset text, agrees with the detail view's Sonnet band, paced on the All Models reset text, whenever the two texts name the same weekday and time |
| MenuBar.BandsRefineLabels | extensions/claude-usage/src/menu-bar.tsx:122-124 | the five bands refine the three labels |
| MenuBar.SessionPacingExamples | extensions/claude-usage/src/menu-bar.tsx:53-60 | 50% used with "2h 30m" left is on schedule; 30% is 20% ahead; 70% is 20% behind |
| MenuBar.MenuBarTitle | extensions/claude-usage/src/menu-bar.tsx:156-163 | the precedence loading, then error, then known percentage, then "C: —" |
| MenuBar.FormatPercentage | extensions/claude-usage/src/menu-bar.tsx:165-168 | null gives "—", n gives "<n>%" |
| MenuBar.FormatPercentageInjective | extensions/claude-usage/src/menu-bar.tsx:165-168 | different values never read the same |
| MenuBar.Subtitle | extensions/claude-usage/src/menu-bar.tsx:190 | the "Resets …" fallback shows only when the pacing text is empty |
| MenuBar.MenuBarItems | extensions/claude-usage/src/menu-bar.tsx:126-201 | the title; the "Error: …" item exactly when the usage carries a non-empty error; the session, "All Models: " and "Sonnet Only: " titles with their percentages; each subtitle, with Sonnet paced on its own reset text; before the first fetch ends (no usage, still loading) the three titles read "undefined%", no item has a subtitle and there is no error item |
| MenuBar.FirstRenderShowsUndefined | extensions/claude-usage/src/menu-bar.tsx:127-128 | the first render shows "C: ..." over "undefined% used", not the "—" kept for a null percentage |
| DailySummary.IsInRange | extensions/claude-usage/src/daily-summary.tsx:108-110 | the bounds are inclusive: both ends are inside, anything before the start or after the end is outside, and nothing is inside an empty range |
| DailySummary.FormatDateKey | extensions/claude-usage/src/daily-summary.tsx:112-114 | "<year>-<MM>-<DD>": the year's digits, then two digits that read back as the 1-based month and two that read back as the day |
| DailySummary.PadStart2 | extensions/claude-usage/src/daily-summary.tsx:113 | two digits that read back as the number |
| DailySummary.DateKeySameDay | extensions/claude-usage/src/daily-summary.tsx:112-114 | two moments share a day key exactly when they fall on the same year, month and date |
| DailySummary.UserPrompt | extensions/claude-usage/src/daily-summary.tsx:166-175 | a prompt comes only from non-"<system" text and is its trimmed first 300 characters |
| DailySummary.CollectPrompts | extensions/claude-usage/src/daily-summary.tsx:168-174 | the prompt loop collects exactly the content's prompts |
| DailySummary.CollectWork | extensions/claude-usage/src/daily-summary.tsx:178-207 | the tool and code-block loop computes the content's work |
| DailySummary.ParseSessionFile | extensions/claude-usage/src/daily-summary.tsx:120-218 | a session exactly when some entry is in range, with the latest in-range time and the collected prompts and work |
| DailySummary.HasInRangeExactly | extensions/claude-usage/src/daily-summary.tsx:146-163 | a session counts exactly when some entry's time is in range, inclusive at both ends |
| DailySummary.LatestIsLatest | extensions/claude-usage/src/daily-summary.tsx:158-163 | the activity time is the latest in-range time, or the epoch when none is later |
| DailySummary.PromptsWellFormed | extensions/claude-usage/src/daily-summary.tsx:169-172 | every stored prompt is trimmed at the front and at most 300 characters long |
| DailySummary.ToolCountsAddUp | extensions/claude-usage/src/daily-summary.tsx:182-183 | each named tool call adds one to exactly one tool's count |
| DailySummary.ToolNamesUnique | extensions/claude-usage/src/daily-summary.tsx:183 | each tool appears once in a session's counts |
| DailySummary.ProjectName | extensions/claude-usage/src/daily-summary.tsx:255 | a name without "-" or ending in "-" is kept whole; otherwise the name is the non-empty text after the last "-" |
| DailySummary.OriginalPath | extensions/claude-usage/src/daily-summary.tsx:254 | "/" followed by the directory name with a leading "-" or "/" dropped and every other "-" turned into "/", character by character; no "-" remains |
| DailySummary.Aggregate | extensions/claude-usage/src/daily-summary.tsx:278-304 | folding the kept sessions records exactly those sessions; the prompt, distinct-file and line totals are the sums over them; the day tally has an entry for exactly the days they fall on |
| DailySummary.Finish | extensions/claude-usage/src/daily-summary.tsx:306-315 | the sessions are a permutation of the recorded ones, newest first; the top tools are min(6, tally size) entries of the tally, most used first, and no tool left out was used more than any kept one |
| DailySummary.ScanSummary | extensions/claude-usage/src/daily-summary.tsx:224-322 | the summary holds a permutation of the kept sessions; its prompt, distinct-files-created, distinct-files-modified and lines totals are sums over them; the hourly and daily histograms add up to the prompts; uniqueDaysActive is the number of distinct days a kept session falls on |
| DailySummary.AddSession | extensions/claude-usage/src/daily-summary.tsx:278-302 | recording a session keeps the 24-hour histogram's length; what else it preserves is stated by AddSessionCoherent and AddSessionDays |
| DailySummary.AggregateTools | extensions/claude-usage/src/daily-summary.tsx:299-301 | the tool loop merges a session's counts into the running totals |
| DailySummary.RecordSession | extensions/claude-usage/src/daily-summary.tsx:278-302 | the body of the inner loop records one kept session |
| DailySummary.ScanProject | extensions/claude-usage/src/daily-summary.tsx:265-303 | the walk over one project's logs folds exactly its kept sessions |
| DailySummary.ScanActivity | extensions/claude-usage/src/daily-summary.tsx:224-322 | the summary of the kept sessions of all projects, in directory order |
| DailySummary.AddAllTotal | extensions/claude-usage/src/daily-summary.tsx:299-301 | merging a session's tally adds its calls to the running total |
| DailySummary.AddSessionCoherent | extensions/claude-usage/src/daily-summary.tsx:278-302 | recording keeps the totals consistent: prompt, tool and hour totals add up, the file totals count each session's distinct files, the line total adds its lines, and projects are listed once |
| DailySummary.FoldCoherent | extensions/claude-usage/src/daily-summary.tsx:247-304 | the totals stay consistent across the whole walk |
| DailySummary.AddSessionDays | extensions/claude-usage/src/daily-summary.tsx:290-292 | recording a session adds its day key to the tally's keys, so the keys stay exactly the days of the recorded sessions |
| DailySummary.FoldDays | extensions/claude-usage/src/daily-summary.tsx:290-292 | across the whole walk the day tally's keys are exactly the days of the recorded sessions |
| DailySummary.DaysActive | extensions/claude-usage/src/daily-summary.tsx:306-307 | the number of day-tally entries is the number of distinct days the recorded sessions fall on |
| DailySummary.KeptSessionsHavePrompts | extensions/claude-usage/src/daily-summary.tsx:278 | every kept session has at least one prompt |
| DailySummary.TopToolsFacts | extensions/claude-usage/src/daily-summary.tsx:310-312 | min(6, tally size) tools, each from the tally, most used first; every tool left out has a count at most that of every tool kept |
| DailySummary.SessionsFacts | extensions/claude-usage/src/daily-summary.tsx:315 | the summary's sessions are the kept ones, newest first |
| DailySummary.SummaryFacts | extensions/claude-usage/src/daily-summary.tsx:278-315 | the totals sum the kept sessions' prompts, distinct created and modified files, lines, tools and hours; the day keys are exactly the days of the kept sessions and uniqueDaysActive counts them; projects have no duplicates; the top tools are the six most used |
| DailySummary.Intensity | extensions/claude-usage/src/daily-summary.tsx:345 | a shade in 0..4, 0 exactly without activity, 4 at the maximum |
| DailySummary.DayCountAtMostMax | extensions/claude-usage/src/daily-summary.tsx:336 | every day's count is at most the scaling maximum |
| DailySummary.GridRows | extensions/claude-usage/src/daily-summary.tsx:356-359 | rows of 7 except the last, which together give back the cells |
| DailySummary.HeatCell | extensions/claude-usage/src/daily-summary.tsx:338-348 | one day's cell is a shade 0..4, and 0 exactly on a day without prompts |
| DailySummary.DayCells | extensions/claude-usage/src/daily-summary.tsx:338-348 | one cell per day of the range |
| DailySummary.DayCellsShades | extensions/claude-usage/src/daily-summary.tsx:338-348 | each cell is a shade 0..4, and 0 exactly on a day without prompts |
| DailySummary.HeatCells | extensions/claude-usage/src/daily-summary.tsx:338-348 | the heatmap loop computes the day cells, oldest first |
| DailySummary.CreateActivityHeatmap | extensions/claude-usage/src/daily-summary.tsx:328-361 | no heatmap for today or yesterday; a strip of 7 cells for a week; otherwise 5 rows, the first 4 of 7 cells, holding the 30 day cells in order |
| DailySummary.BarLevel | extensions/claude-usage/src/daily-summary.tsx:370 | a bar height in 0..7, 0 without activity, 7 at the maximum |
| DailySummary.BarLevelMonotone | extensions/claude-usage/src/daily-summary.tsx:370 | a busier hour never gets a shorter bar |
| DailySummary.CreateHourlyChart | extensions/claude-usage/src/daily-summary.tsx:363-375 | 18 bars for hours 6..23, each the hour's level in 0..7 |
| DailySummary.MostProductiveHour | extensions/claude-usage/src/daily-summary.tsx:377-386 | none exactly when all counts are 0; otherwise the earliest hour with the strictly largest count |
| DailySummary.ProductiveHourText | extensions/claude-usage/src/daily-summary.tsx:386-390 | "—" exactly without activity |
| DailySummary.HourLabel | extensions/claude-usage/src/daily-summary.tsx:388-390 | digits that read back as the 12-hour face (12 for noon and midnight) followed by "pm" from noon on and "am" before |
| DailySummary.HourLabelReadBack | extensions/claude-usage/src/daily-summary.tsx:388-390 | the 12-hour label reads back as its hour (0 is "12am", 12 is "12pm") |
| DailySummary.HourLabelInjective | extensions/claude-usage/src/daily-summary.tsx:388-390 | different hours get different labels |
| DailySummary.Thresholds | extensions/claude-usage/src/daily-summary.tsx:394-400 | four strictly increasing thresholds per range |
| DailySummary.ProductivityTier | extensions/claude-usage/src/daily-summary.tsx:402-407 | the tier's rank is the number of the range's thresholds the prompt count reaches |
| DailySummary.TierMonotone | extensions/claude-usage/src/daily-summary.tsx:393-408 | more prompts never give a lower tier |
| GitStatus.WordEnd | extensions/claude-usage/src/utils/git.ts:41 | the greedy `\S+` run from i |
| GitStatus.RemoteFields | extensions/claude-usage/src/utils/git.ts:41-45 | the name and URL are words, and the line starts with the name |
| GitStatus.RemoteFieldsOfLine | extensions/claude-usage/src/utils/git.ts:41-45 | "<name><spaces><url>…" yields exactly that name and URL |
| GitStatus.RemoteFieldsNeedName | extensions/claude-usage/src/utils/git.ts:41-42 | a line starting with white space yields no fields |
| GitStatus.FirstGitHubLine | extensions/claude-usage/src/utils/git.ts:38-39 | the first line mentioning github.com, and none before it |
| GitStatus.CheckGitStatus | extensions/claude-usage/src/utils/git.ts:18-57 | the loop with break computes the status of the first GitHub line |
| GitStatus.StatusConsistent | extensions/claude-usage/src/utils/git.ts:19-56 | a GitHub remote implies a git repository; without .git both flags are false and no remote is set |
| GitStatus.FirstGitHubLineWins | extensions/claude-usage/src/utils/git.ts:37-47 | only the first GitHub line counts, whatever later lines say |
| GitStatus.StatusOf | extensions/claude-usage/src/utils/git.ts:18-57 | a repository exactly with .git; a GitHub remote exactly when .git exists and some remote line mentions github.com; name and URL come together, from the first such line |
| GitStatus.Label | extensions/claude-usage/src/utils/git.ts:77-85 | "Git + GitHub" exactly with a GitHub remote, "Git (local only)" exactly for a repository without one, "No version control" otherwise |
| GitStatus.Symbol | extensions/claude-usage/src/utils/git.ts:64-72 | "⑃☁️" whenever there is a GitHub remote, whatever isGitRepo says; otherwise "⑃" for a repository; "" exactly when there is neither |
| GitStatus.SymbolAndLabelAgree | extensions/claude-usage/src/utils/git.ts:64-85 | symbol and label follow the same precedence: each determines the other |
| Registry.TypeNameInjective | extensions/claude-built/src/types.ts:1-31 | the five type names are distinct |
| Registry.SortByRecency | extensions/claude-built/src/registry.ts:21-31 | a permutation ordered by modification time descending, ties by use count descending |
| Registry.SortByRecencyStable | extensions/claude-built/src/registry.ts:22-30 | items tying on both keys keep their order |
| Registry.Bumped | extensions/claude-built/src/registry.ts:49-55 | the item's count is old + 1 (1 when absent), its last use is now, every other entry is unchanged |
| Registry.UseCountCountsExecutions | extensions/claude-built/src/registry.ts:40-61 | starting from no file, an item's count is the number of times it was executed |
| Registry.UsageFile.UpdateUsage | extensions/claude-built/src/registry.ts:40-61 | the usage dictionary becomes the bumped one |
| Registry.FavoritesFile.AddFavorite | extensions/claude-built/src/registry.ts:89-94 | the saved set becomes old ∪ {id}; adding twice changes nothing |
| Registry.FavoritesFile.RemoveFavorite | extensions/claude-built/src/registry.ts:96-101 | the saved set becomes old \ {id}; other ids stay |
| Registry.AgoOf | extensions/claude-built/src/registry.ts:108-126 | "just now" exactly under a minute; minutes 1..59, hours 1..23, days 2..6, weeks 1..3, months 0..11 |
| Registry.RelativeTime | extensions/claude-built/src/registry.ts:108-127 | "just now" under a minute; "<n>m ago", "<n>h ago" and "<n>d ago" (days 2..6) with the floored count; "yesterday" on day 1; "<n>w ago" with n = floor(days/7) from 7 to 27 days; "<n>mo ago" with n = floor(days/30) from 28 to 359 days; the locale date from 360 days on |
| Registry.AgoOfBounds | extensions/claude-built/src/registry.ts:108-126 | each description's interval: under a minute, minutes, hours, yesterday, days, weeks, months, then the locale date |
| Registry.FloorChain | extensions/claude-built/src/registry.ts:112-115 | flooring unit by unit is flooring by the product of the units |
| Registry.AgoMonotone | extensions/claude-built/src/registry.ts:119-126 | an older date never gets a more recent description |
| Registry.FutureIsJustNow | extensions/claude-built/src/registry.ts:119 | a future date, or anything under a minute old, is "just now" |
| Registry.FourWeeksIsZeroMonths | extensions/claude-built/src/registry.ts:117-125 | 28 and 29 days read "0mo ago" |
| Registry.ExpandPath | extensions/claude-built/src/registry.ts:136-138 | each "~" grows by the home directory's length less one |
| Registry.ExpandPathEveryTilde | extensions/claude-built/src/registry.ts:136-138 | every tilde is expanded where it stands, not only a leading one |
| Registry.ExpandPathIdempotent | extensions/claude-built/src/registry.ts:136-138 | with a tilde-free home nothing is left to expand, so expanding twice is once |
| Registry.GetFolderPath | extensions/claude-built/src/registry.ts:130-133 | a path without "~" has the folder `dirname` gives it directly |
| Registry.GetFolderPathOfExpanded | extensions/claude-built/src/registry.ts:130-133 | an already expanded path has the same folder |
| Registry.ExecutionLine | extensions/claude-built/src/registry.ts:168 | command, else deeplink, else ""; "" exactly when both are falsy |
| Registry.KeepTruthy | extensions/claude-built/src/registry.ts:172 | drops exactly the nulls and the empty strings |
| Registry.KeepTruthyAppend | extensions/claude-built/src/registry.ts:172 | the filter works line by line: one line is kept exactly when it is a non-empty string, and the result for a concatenation is the results for its parts in order, repeats included |
| Registry.ItemToMarkdown | extensions/claude-built/src/registry.ts:155-175 | when no line holds a line break, the markdown splits back at newlines into exactly its lines |
| Registry.MarkdownLinesKeep | extensions/claude-built/src/registry.ts:155-175 | "# name" first; the execution line and a truthy trigger line kept; no blank lines |
| BuiltList.Keep | extensions/claude-built/src/index.tsx:79-80 | keeps exactly the items the predicate accepts |
| BuiltList.KeepAppend | extensions/claude-built/src/index.tsx:79-80 | filtering keeps the order of what it keeps |
| BuiltList.FilteredItems | extensions/claude-built/src/index.tsx:77-81 | "all" gives the items; "favorites" exactly the favourites; any other value exactly that type |
| BuiltList.UnknownFilterShowsNothing | extensions/claude-built/src/index.tsx:80 | a value naming no type shows nothing |
| BuiltList.SortedItems | extensions/claude-built/src/index.tsx:84-95 | a permutation; favourites first; newer first within a group |
| BuiltList.SortedItemsStable | extensions/claude-built/src/index.tsx:85-93 | equal keys keep the filtered order |
| BuiltList.Toggled | extensions/claude-built/src/index.tsx:101-111 | the id's membership flips, every other id is unchanged |
| BuiltList.ToggleTwice | extensions/claude-built/src/index.tsx:101-111 | toggling twice restores the favourites |
| BuiltList.HandleToggleFavorite | extensions/claude-built/src/index.tsx:101-111 | removes a shown favourite, adds otherwise; the new set is the stored one |
| Execute.FirstInstalled | extensions/claude-built/src/execute.ts:13-24 | the leftmost installed app, else the fallback |
| Execute.GetTerminalApp | extensions/claude-built/src/execute.ts:13-24 | the loop returns the first of Ghostty, iTerm, Terminal that is installed, else Terminal |
| Execute.TerminalAppInstalled | extensions/claude-built/src/execute.ts:13-24 | the chosen app is installed, or none is and it is Terminal |
| Execute.EscapeQuotesRead | extensions/claude-built/src/execute.ts:64 | inside single quotes the escaped text reads back as the text |
| Execute.SingleQuotedRoundTrip | extensions/claude-built/src/execute.ts:64 | undoing the escape recovers the expanded command |
| Execute.EscapeQuotes | extensions/claude-built/src/execute.ts:64 | each single quote grows by three characters and a text without one is unchanged |
| Execute.TerminalCommand | extensions/claude-built/src/execute.ts:59-79 | the shell hands osascript exactly the script, whatever quotes the command held |
| Execute.ExecuteInTerminal | extensions/claude-built/src/execute.ts:59-79 | one run of the osascript command for the chosen terminal |
| Execute.ExecuteItem | extensions/claude-built/src/execute.ts:26-57 | usage is recorded first and only there; each execution type's effects |
| Execute.UpToQuote | extensions/claude-built/src/execute.ts:84 | the prefix up to the first double quote: a quote-free prefix that ends at the text's end or at a quote |
| Execute.FolderCommandsTarget | extensions/claude-built/src/execute.ts:82-102 | every folder command changes into its folder, when the folder holds no double quote |
| Execute.OpenFolderInTerminal | extensions/claude-built/src/execute.ts:82-86 | runs `cd "<folder>"` in the terminal |
| Execute.OpenInClaudeCode | extensions/claude-built/src/execute.ts:88-93 | runs `cd "<folder>" && claude` |
| Execute.ViewGitHistory | extensions/claude-built/src/execute.ts:95-102 | runs `cd "<folder>" && git log --oneline -20 "<basename>"` |
| Execute.FirstSuccess | extensions/claude-built/src/execute.ts:105-120 | the first command that succeeds, and none before it |
| Execute.Attempts | extensions/claude-built/src/execute.ts:108-118 | one run per command tried |
| Execute.OpenInEditor | extensions/claude-built/src/execute.ts:105-120 | tries code, cursor, open in turn and stops at the first success |
| Execute.OpenDocumentation | extensions/claude-built/src/execute.ts:122-126 | runs `open "<docPath>"` on the path as given, then "Opened documentation" exactly when that succeeded; a failure reaches the caller |
| Execute.OpenCommandOpens | extensions/claude-built/src/execute.ts:124 | the `open` command opens exactly its path, when the path holds no double quote |
| SubmitFeedback.FindTitle | extensions/forked/_shared/submit-feedback.tsx:198 | a title found belongs to the value; none when no type has it |
| SubmitFeedback.TypeTitles | extensions/forked/_shared/submit-feedback.tsx:69-74 | each type's heading, and "Feedback" for an unknown type |
| SubmitFeedback.IssueSections | extensions/forked/_shared/submit-feedback.tsx:196-235 | first line "## <title>"; 26 lines for a bug, 17 otherwise; the footer last |
| SubmitFeedback.IssueBody | extensions/forked/_shared/submit-feedback.tsx:196-235 | whatever the fields hold, the body opens with "## " + the type's heading + a newline and ends with a newline and the joined footer, whose last lines are the CLAUDE_CODE_CONTEXT comment listing extension, repo, type and priority; when no field holds a line break, splitting the body at newlines gives back exactly its sections |
| SubmitFeedback.IssueBodyLines | extensions/forked/_shared/submit-feedback.tsx:221-235 | when the footer's fields are single-line (a multi-line description or steps allowed), the body's last ten lines are the footer, ending with the type, the priority and "-->"; with every field single-line it splits back into exactly its sections |
| SubmitFeedback.IssueLabels | extensions/forked/_shared/submit-feedback.tsx:238-240 | the defaults unchanged, then "bug" or "enhancement" for those types |
| SubmitFeedback.Labels | extensions/forked/_shared/submit-feedback.tsx:257-259 | the defaults come first and unchanged, followed by at most one label: "bug" exactly for a bug, "enhancement" exactly for a feature request |
| SubmitFeedback.FeatureLabelsRepeatEnhancement | extensions/forked/_shared/submit-feedback.tsx:257-259 | with the shipped defaults a feature request carries "enhancement" twice |
| SubmitFeedback.IssueTitle | extensions/forked/_shared/submit-feedback.tsx:92 | "[" + displayName + "] " + title |
| SubmitFeedback.HandleSubmit | extensions/forked/_shared/submit-feedback.tsx:87-126 | with a token the API is called, otherwise the prefilled page is opened; the body is copied unless the API call fails |
| SubmitFeedback.Deliver | extensions/forked/_shared/submit-feedback.tsx:94-123 | the first effect is the API call with a non-empty token and the prefilled page otherwise; the body is copied exactly when the API did not refuse, and the toast reports success exactly then |
| HelloForm.SubmitError | extensions/templates/hello-world-form/src/index.tsx:30-43 | the first failing check, in order name, email, "@" |
| HelloForm.NameBlurError | extensions/templates/hello-world-form/src/index.tsx:73-79 | an error exactly for an empty value |
| HelloForm.EmailBlurError | extensions/templates/hello-world-form/src/index.tsx:88-97 | required when empty, invalid exactly when non-empty without "@" |
| HelloForm.BlurAgreesWithSubmit | extensions/templates/hello-world-form/src/index.tsx:40-41 | with a name, leaving the email field judges it as a submit would |
| HelloForm.FormState.DropNameErrorIfNeeded | extensions/templates/hello-world-form/src/index.tsx:16-20 | clears only a non-empty error, else leaves the state |
| HelloForm.FormState.DropEmailErrorIfNeeded | extensions/templates/hello-world-form/src/index.tsx:22-26 | the same for the email error |
| HelloForm.FormState.HandleSubmit | extensions/templates/hello-world-form/src/index.tsx:28-57 | a failing submit sets exactly its field's error; a passing one changes none |
| HelloForm.FormState.NameBlur | extensions/templates/hello-world-form/src/index.tsx:73-79 | sets the name error for an empty value, else drops it |
| HelloForm.FormState.EmailBlur | extensions/templates/hello-world-form/src/index.tsx:88-97 | required, invalid, or the error dropped |
| FinderActions.SegmentEnd | extensions/finder-actions/src/index.tsx:66 | the greedy `[^/]+` run |
| FinderActions.ShortPath | extensions/finder-actions/src/index.tsx:66 | a null or empty path shows as "" |
| FinderActions.ShortenHomeOf | extensions/finder-actions/src/index.tsx:66 | "/Users/<name><rest>" becomes "~<rest>" for the whole name segment |
| FinderActions.ShortenHome | extensions/finder-actions/src/index.tsx:66 | a path "/Users/<segment>…" becomes "~" followed by the path from the end of that whole segment on; any other path is unchanged |
| FinderActions.ShortPathShape | extensions/finder-actions/src/index.tsx:66 | the shown path is "", the path itself, or "~" followed by the rest from the next slash |
| FinderActions.JsonQuote | extensions/finder-actions/src/index.tsx:37-54 | the JSON-quoted directory reads back, as a JSON string literal, as the directory |
| FinderActions.OpenTerminal | extensions/finder-actions/src/index.tsx:32-57 | the window closes, then one command for each of the four terminals and none for other names |
| FinderActions.OpenTerminalQuotes | extensions/finder-actions/src/index.tsx:37-54 | Terminal, Ghostty and Warp end with the JSON-quoted directory |
| FinderActions.ITermHoldsDirectory | extensions/finder-actions/src/index.tsx:42-51 | iTerm's script holds the directory verbatim, with an AppleScript quote right before and right after it |
| Balloons.RawValueInjective | extensions/balloons-fancy/BalloonsApp/BalloonsApp.swift:15-27 | each raw value names one effect |
| Balloons.SelectsUnique | extensions/balloons-fancy/BalloonsApp/BalloonsApp.swift:45-65 | an argument selects at most one effect |
| Balloons.NoEffectSelected | extensions/balloons-fancy/BalloonsApp/BalloonsApp.swift:45-66 | an argument matching none of the twenty forms selects nothing |
| Balloons.EffectNamed | extensions/balloons-fancy/BalloonsApp/BalloonsApp.swift:45-65 | the if/else chain picks an effect the argument names, or balloons when it names none |
| Balloons.FoldChar | extensions/balloons-fancy/BalloonsApp/BalloonsApp.swift:44 | ASCII capitals move to lower case, the Kelvin sign becomes 'k', and the result is a lower-case ASCII letter exactly for ASCII letters and the Kelvin sign |
| Balloons.Lowercased | extensions/balloons-fancy/BalloonsApp/BalloonsApp.swift:44 | the lowercased argument has the same length and folds each character on its own |
| Balloons.ParseEffect | extensions/balloons-fancy/BalloonsApp/BalloonsApp.swift:40-66 | balloons unless arguments[1], lowercased, is a non-default effect's name or "--effect=<name>" |
| Balloons.BalloonsByNameIsDefault | extensions/balloons-fancy/BalloonsApp/BalloonsApp.swift:41-66 | "balloons" selects no other effect, so it yields the default |
| Balloons.UppercaseArgumentSelects | extensions/balloons-fancy/BalloonsApp/BalloonsApp.swift:44 | "SNOW" selects snow after lowercasing |
| Balloons.Duration | extensions/balloons-fancy/BalloonsApp/BalloonsApp.swift:105-139 | every duration is 6..25 seconds; 25 only for feather, 6 only for beer |
| Balloons.KelvinSignSelects | extensions/balloons-fancy/BalloonsApp/BalloonsApp.swift:44-46 | "FIREWOR\u{212A}S" (with a Kelvin sign) lowercases to "fireworks" and picks fireworks |
| Balloons.ViewOf | extensions/balloons-fancy/BalloonsApp/BalloonsApp.swift:105-139 | the view chosen for an effect animates that effect |
| Balloons.ViewOfInjective | extensions/balloons-fancy/BalloonsApp/BalloonsApp.swift:105-139 | every effect has its own view |
| Numeric.RoundNear | extensions/claude-usage/src/show-usage.tsx:105 | `Math.round` lies within half a unit |
| Numeric.CeilScale | extensions/claude-usage/src/daily-summary.tsx:345 | `ceil(k·a/m)` for a share of a positive maximum is in 0..k |
| Numeric.RoundScale | extensions/claude-usage/src/daily-summary.tsx:370 | `round(k·a/m)` for a share of a positive maximum is in 0..k |
| Numeric.MaxAtLeastOne | extensions/claude-usage/src/daily-summary.tsx:336 | `Math.max(...xs, 1)`: at least 1 and every element, and one of them unless it is 1 |
| Counter.GetAdd | extensions/claude-usage/src/daily-summary.tsx:183 | `counts[name] = (counts[name] \|\| 0) + n` changes only that name's count |
| Counter.GetFirst | extensions/claude-usage/src/daily-summary.tsx:183 | `counts[name] \|\| 0` reads the count stored under the name's first occurrence |
| Counter.AddTotal | extensions/claude-usage/src/daily-summary.tsx:292 | adding n adds n to the total |
| Ordering.SortDesc | extensions/claude-usage/src/daily-summary.tsx:310-315 | a permutation sorted by the comparator's key, descending |
| Ordering.SortDescStable | extensions/claude-usage/src/daily-summary.tsx:315 | equal keys keep their order, as the stable `Array.prototype.sort` does |
| Text.SplitJoin | extensions/claude-usage/src/utils/git.ts:37 | joining the split parts gives back the text |
| Text.JoinSplit | extensions/forked/_shared/submit-feedback.tsx:234 | splitting the joined lines, none containing the separator, gives back the lines |
| Text.ReplaceCharLength | extensions/claude-built/src/registry.ts:137 | a global one-character replace adds the replacement's length less one per occurrence |
| Text.NatToStringRoundTrip | extensions/claude-usage/src/show-usage.tsx:130 | a number's decimal text reads back as the number |

## Left out

- File and process I/O is not modelled. Its results are parameters or returned effect values:
  - reading and writing the registry, usage and favourites files, and `findDocumentation`;
  - the projects directory listing, `stat`, `readFile` and `JSON.parse` of session lines (entries are an abstract datatype);
  - `git remote -v` and the `.git` access check (a boolean and an optional output);
  - exec, osascript, `open`, the clipboard and HUDs.
- The GitHub API request and the encoding of the prefilled issue URL (URLSearchParams) are not modelled. The URL is an effect carrying title, body and label list.
- The wall clock and calendar arithmetic are inputs:
  - `new Date()` is a `Clock` value;
  - `Date` string parsing is a function from text to milliseconds, so invalid dates (NaN) are not modelled;
  - the heatmap's day keys come from a function from "days ago" to a key;
  - daylight-saving shifts are ignored.
- Locale formatting (`toLocaleDateString`, `toLocaleTimeString`) is not modelled. getRelativeTime's last case takes the locale text as a parameter.
- Floating point is not modelled. Percentages, shares and hours are exact rationals, so IEEE rounding corner cases are not reproduced.
- Markdown and UI assembly is not modelled: React components, toasts, action panels, the detail view's surrounding text and the heatmap's and chart's code fences.
- The mis-decoded glyph bytes are not reproduced. The timeline segments, bands, calendar cells, heatmap shades and bar heights are enumerations or integers.
- The `isSubmitting` flag of the feedback form is not modelled. It is UI state only.
- The failure of processes launched by executeItem and the folder actions is not modelled. Only openInEditor's fallback chain depends on success.
- AppleScript's own handling of the `keystroke` string is not modelled. The model stops at the osascript argument, which is proved to reach osascript intact.
- The shell's reading of the JSON-quoted directory in the Finder actions is not modelled. The JSON encoding is proved to round-trip, but `$` and backquotes inside double quotes are still interpreted by `exec`'s shell.
- The git status is not attached to each session in scanActivity. It only labels the session in the view.
- `sortByRecency` and `sortedItems` sort a copy. That the caller's array is not reordered holds trivially, because sequences are values.
- The SwiftUI views of the overlay app, its window set-up and its timer are not modelled. `ViewOf` only names the view each effect shows.
- DailySummary.UserPrompt: the 300-character cut counts Unicode scalar values, while `substring(0, 300)` counts UTF-16 code units, so a prompt with characters outside the Basic Multilingual Plane is cut later in the model than in the source (which can also split a surrogate pair).
- MenuBar.WeeklyViewsAgree: only the All Models views are proved to agree. The detail view paces its Weekly Sonnet band on the All Models reset time (extensions/claude-usage/src/show-usage.tsx:218-220 and 268-274) while the menu bar paces Sonnet on its own reset time (extensions/claude-usage/src/menu-bar.tsx:178-181); the Sonnet views are proved to agree only when the two reset texts name the same time.
- Registry.ExpandPath: `replace(/~/g, HOME)` is modelled as plain substitution. JavaScript would read `$&`, `` $` ``, `$'` and `$$` in the home directory as replacement patterns; a home path holding `$` is assumed not to occur.
- Registry.GetFolderPath: the same plain-substitution reading of `~` as in ExpandPath.
- Execute.TerminalCommand: the same plain-substitution reading of `~` as in ExpandPath.
- Execute.ExecuteItem: the same plain-substitution reading of `~` as in ExpandPath, for the file path it opens.
- Execute.OpenInEditor: the same plain-substitution reading of `~` as in ExpandPath.
- Balloons.Lowercased: of Swift's full Unicode lowercasing only ASCII capitals and the Kelvin sign (U+212A, which becomes 'k') are modelled. Every other character is kept as it is. Swift also keeps the other ASCII characters, and lowercases every other non-ASCII character to text that still holds a non-ASCII character (U+0130 becomes 'i' plus a combining dot), so the effect chosen is the same either way.

## Findings

| source | as written | input that shows it | evidently intended | confidence | as-written member | corrected member |
|---|---|---|---|---|---|---|
| extensions/claude-usage/src/show-usage.tsx:161-162 | the reset day is today + `ceil(hours / 24)` | now Monday 01:00, reset text "Mon 3:00 AM": 2 hours away, `ceil(2/24) = 1`, so Tuesday is marked | mark the weekday the reset falls on, counting whole days from today's midnight | not executed | ShowUsage.CeilResetDayOffByOne | ShowUsage.ResetDayIsTargetDay |
