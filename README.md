# obsidian-tasks core in Dafny

This project models the core of the Obsidian Tasks plugin. That core covers:

- **Tasks** (`src/Task.ts`): reading a checklist line into a task, writing a task back as a line, and toggling a task between to do and done, with recurrence.
- **Queries** (`src/Query.ts`): parsing the text of a `tasks` query block into filters, sort keys, layout flags, a limit and an error message.
- **Sorting** (`src/Sort.ts`): the comparators and the in-place sort of a result list.
- **Settings** (`src/Settings.ts`): the settings record, its merge on update, the `&&`-separated format lists, and regular-expression escaping.
- **Files** (`src/File.ts`): splitting a tag into its parent tags, and finding a task's list item in a file and replacing its line.

The modules follow the source files:

| module | models |
|---|---|
| `Tasks` | `Task`, `Status`, `fromLine`, `toString`, `toFileLineString`, `toggle` |
| `Queries` | the `Query` class and its line parsers |
| `Sort` | the `Sort` class |
| `Settings` | `src/Settings.ts` |
| `Files` | the vault-free parts of `src/File.ts` |
| `Moments` | moments as whole minutes since the epoch, with day, hour and minute projections |
| `JsStrings` | the JavaScript string operations the core relies on (`trim`, `includes`, `indexOf`, `split`, `join`, `<` on strings) |
| `Libraries` | moment.js, rrule, chrono and the locale-aware string functions, as records of uninterpreted functions passed in by the caller |
| `Wrappers` | `Option` and `Result` |

Imperative code stays imperative:

- `fromLine` is a method with the do-while loop. `toString` and `toggle` are methods too.
- `Query` is a class whose parse methods update its fields.
- `Sort.by` reverses the query's sort keys and sorts an `array` in place.
- `updateSettings` updates a settings store object.
- `expandSubtags` and the list-item lookup are loops.

Most methods are proved equal to a specification function, and the properties are proved about those functions as lemmas. Three methods are specified instead by the properties their results have. `Sort.SortInPlace` and `Sort.By` end with a sorted permutation of the array. `Files.FindListItem` is specified through the counting predicates `Counted` and `CountCounted`. The clock, moment parsing and formatting, the rrule library, chrono and the locale are parameters. A `Runtime` record carries the libraries, and the current moment is passed as `now`.

## Model

| member | source | states |
|---|---|---|
| Tasks.MatchTaskLineWellFormed | src/Task.ts:37 | a checklist-line match splits the line into pieces of the shapes the pattern allows: whitespace indentation, `-` or `*`, one or more spaces, a bracketed character, padding, and a body up to the line end |
| Tasks.MatchTaskLineAssembles | src/Task.ts:37 | the pieces of a match put together give the line back |
| Tasks.MatchTaskLineComplete | src/Task.ts:37 | every line made of well-formed pieces matches, and is split into exactly those pieces |
| Tasks.MatchTaskLineNone | src/Task.ts:100-103 | a line the pattern rejects is not made of any well-formed pieces |
| Tasks.BlockLinkStartUnique | src/Task.ts:38 | the block link found is ` ^` followed by one or more letters, digits or dashes running to the end, and it is the only such suffix |
| Tasks.BlockLinkOfIs | src/Task.ts:127-132 | a trailing block link is kept verbatim, its leading space included; without one the block link is empty |
| Tasks.FirstAlternativeIsFirst | src/Task.ts:142-153 | the signifier alternative chosen at a position is the first one in list order that matches there |
| Tasks.FindSignifierLeftmost | src/Task.ts:155-163 | a signifier match is at the leftmost position from which a signifier and the required tail run to the end of the description; with no match, none exists at any position |
| Tasks.ParseDate | src/Task.ts:182-198 | strict parsing against the date-time formats, then the date formats, succeeds exactly when moment.js reads the text; the time flag is set exactly when the format that matched is a date-time format; the value keeps the parsed day, and a value read by a date-only format lies at 00:00 |
| Tasks.DateStep | src/Task.ts:180-230 | a date block that matches nothing changes nothing; it never touches the other date or the recurrence rule |
| Tasks.DateStepDescription | src/Task.ts:180-230 | a matching date signifier is cut off with everything after it and the rest is trimmed, whether or not the date parses |
| Tasks.DateStepParseFailure | src/Task.ts:199-202 | when the text after a date signifier does not parse, only the description changes |
| Tasks.DateStepParsed | src/Task.ts:180-230 | when the text after a date signifier parses, the date becomes the parsed moment, moved to 00:00 unless a date-time format matched; the time flag is then set exactly when it was already set or a date-time format matched |
| Tasks.DateStepFromUnset | src/Task.ts:187-198 | on a date not yet set, the date is set exactly when the text after its signifier parses, and the time flag exactly when a date-time format matched |
| Tasks.FirstPassTimeFlags | src/Task.ts:180-230 | in the first pass, the done date is set exactly when the text after the done signifier parses, and `hasDoneTime` exactly when it parsed with a date-time format; the same holds for the due date, looked for in what the done block left |
| Tasks.SliceDateMatch | src/Task.ts:142-163 | a date signifier that matches in a slice of a line-free text also matches in the whole text, before the end of the slice |
| Tasks.CutKeepsNoDate | src/Task.ts:180-230 | cutting before a date match and trimming leaves text on one line in which no date signifier matches that matched nowhere before the cut |
| Tasks.DateStepClears | src/Task.ts:180-230 | after a date block its own signifiers no longer match in the description, and no signifier matches that did not match before |
| Tasks.RecurrenceStepKeepsNoDate | src/Task.ts:232-242 | the recurrence block lets no date signifier match that did not match before |
| Tasks.PassClearsDates | src/Task.ts:178-242 | after one pass over a description on one line, neither date signifier matches in what is left |
| Tasks.PassKeepsDates | src/Task.ts:178-242 | a pass over a description in which no date signifier matches changes neither date nor time flag |
| Tasks.LoopDatesFromFirstPass | src/Task.ts:174-245 | the loop ends with the dates and time flags its first pass set |
| Tasks.FromLineTimeFlags | src/Task.ts:174-245 | the task `fromLine` returns has the dates of the first pass; its done date is set exactly when the text after the leftmost done signifier parses, and `hasDoneTime` exactly when a date-time format matched; the same holds for the due date, looked for in what the done block left |
| Tasks.RecurrenceStep | src/Task.ts:232-242 | the recurrence block never touches the dates or their time flags, and changes nothing when it matches nothing |
| Tasks.RecurrenceStepDescription | src/Task.ts:232-242 | a matching recurrence signifier is cut off with everything after it; an unreadable rule raises nothing and leaves the rule as it was |
| Tasks.Pass | src/Task.ts:178-242 | a pass that matches nothing changes nothing |
| Tasks.PassKeepsTrimmed | src/Task.ts:178-242 | every pass keeps the description trimmed |
| Tasks.DoWhileIsRepeat | src/Task.ts:174-245 | for a body that changes nothing when it matches nothing, the do-while loop gives exactly what `maxRuns + 1` passes give |
| Tasks.DoWhileKeeps | src/Task.ts:174-245 | an invariant of the loop body is an invariant of the loop |
| Tasks.LoopIsFivePasses | src/Task.ts:174-245 | the extraction loop makes at most five passes, and stopping early does not change the result |
| Tasks.LoopKeepsTimesConsistent | src/Task.ts:187-224 | after the loop, a time flag is set only together with its date, and a date without a time lies at 00:00 |
| Tasks.LoopKeepsOk | src/Task.ts:174-245 | the loop keeps the description trimmed and the date and time flags in agreement |
| Tasks.LoopQuiet | src/Task.ts:174-245 | a description that contains no signifier passes through the loop unchanged |
| Tasks.ExtractDate | src/Task.ts:180-230 | the done-date and due-date blocks compute the date step |
| Tasks.ExtractRecurrence | src/Task.ts:232-242 | the recurrence block computes the recurrence step |
| Tasks.RunPass | src/Task.ts:178-242 | one run of the loop body is the done step, then the due step, then the recurrence step |
| Tasks.ExtractAll | src/Task.ts:168-245 | the do-while loop over `matched` and `runs` computes the loop function |
| Tasks.FromLine | src/Task.ts:87-265 | `fromLine` returns the task of the specification function, or null exactly where it does |
| Tasks.FromMatched | src/Task.ts:105-264 | the part of `fromLine` after the match builds the task of the specification function |
| Tasks.FromLineNull | src/Task.ts:100-123 | `fromLine` returns null exactly when the line is not a checklist item or its trimmed body lacks the global filter |
| Tasks.EmptyFilterKeepsAll | src/Task.ts:120-123 | with an empty global filter every checklist item gives a task |
| Tasks.FromLineStatus | src/Task.ts:105-115 | the marker is the lower-cased bracket character, and the task is to do exactly when the marker is a space; indentation, path, section and heading are taken over |
| Tasks.FromLineBlockLink | src/Task.ts:127-132 | the task's block link is the trailing block link of the trimmed body; the description, dates, time flags and rule are what the extraction loop ends with when started from that body without its block link (`Tasks.StartDescriptionIs`) |
| Tasks.StartDescriptionIs | src/Task.ts:127-132 | the loop starts from the trimmed body with its trailing block link cut off and the rest trimmed, or from the whole trimmed body when there is no link |
| Tasks.FromLineDescription | src/Task.ts:125-245 | when the text the loop starts from holds no signifier, that text is the description, and the task has no dates, no time flags and no rule |
| Tasks.FromLineConsistent | src/Task.ts:168-264 | a parsed task has a trimmed description, time flags only with their dates, and date-only values at 00:00 |
| Tasks.First | src/Task.ts:360 | the first entry of a signifier or format list, or undefined exactly when the list is empty |
| Tasks.ChooseLayout | src/Task.ts:365-383 | date and time when neither is hidden and there is a time; otherwise the date unless it is hidden; otherwise the time only if it is not hidden and there is one; otherwise nothing |
| Tasks.WriteDate | src/Task.ts:365-383 | the due-date block, and the done-date block that repeats it, append the date phrase of the chosen layout |
| Tasks.ToString | src/Task.ts:346-406 | `toString` builds the description, then the recurrence phrase, then the due phrase, then the done phrase, with the default layout when none is given |
| Tasks.RenderStartsWithDescription | src/Task.ts:356 | the text starts with the description, whatever the layout |
| Tasks.RenderBare | src/Task.ts:356-405 | a task with no rule and no dates, or with all of them hidden, is written as its description alone |
| Tasks.RenderIgnoresBlockLink | src/Task.ts:346-406 | the block link never reaches the text |
| Tasks.WrittenLineMatches | src/Task.ts:408-412 | the line `toFileLineString` writes is the indentation, `- [`, the marker, `] ` and the text, as the checklist pattern splits it |
| Tasks.PlainTaskRoundTrip | src/Task.ts:408-412 | a task without dates or rule, written by `toFileLineString` and read back by `fromLine` at the same place, is the same task except that its block link is empty |
| Tasks.DateStepReadsBack | src/Task.ts:180-230 | a date block that meets the date phrase `toString` wrote at the end of the description reads back that date and its time flag, and cuts the phrase off |
| Tasks.RecurrenceStepReadsBack | src/Task.ts:232-242 | the recurrence block that meets the rule phrase `toString` wrote reads back that rule, and cuts the phrase off |
| Tasks.FirstPassReadsBack | src/Task.ts:178-242 | the first pass over the text `toString` wrote, trimmed as `fromLine` trims the body, gives back the description, both dates, both time flags and the rule; this includes an empty description, after which the trim drops the space the first phrase starts with |
| Tasks.TaskRoundTrip | src/Task.ts:346-412 | a task with dates, time flags and a rule, its description empty or not, written by `toFileLineString` and read back by `fromLine` at the same place, is the same task except that its block link is empty; this holds when moment.js and rrule read back what they write and each signifier written is the first match `fromLine` meets |
| Tasks.LeadDateStepReadsBack | src/Task.ts:180-230 | after an empty description the body starts with the date signifier itself; the date block matches there, reads back the date and its time flag, and leaves an empty description |
| Tasks.LeadRecurrenceStepReadsBack | src/Task.ts:232-242 | after an empty description the body starts with the recurrence signifier itself; the recurrence block reads back the rule and leaves an empty description |
| Tasks.EmptyFirstPassReadsBack | src/Task.ts:178-242 | for an empty description, the first pass over the written text without its leading space gives back both dates, both time flags and the rule, and an empty description |
| Tasks.EmptyWrittenTextShape | src/Task.ts:346-406 | after an empty description `toString` writes a space and then trimmed text on one line that ends in no block link |
| Tasks.EmptyRoundTrip | src/Task.ts:408-412 | the pad of the checklist pattern takes the space `toString` writes after an empty description, and the rest of the line reads back as the task |
| Tasks.Toggled | src/Task.ts:470-476 | the toggled task has the other status; it has a done date exactly when it is done, and that date is now; its time flag is the done-time setting and its marker is `x` or a space; every other field is kept |
| Tasks.RecurrenceBoundary | src/Task.ts:448-451 | the next occurrence is looked for after the later of the end of today and the end of the due day |
| Tasks.Toggle | src/Task.ts:422-495 | `toggle` returns `[toggled]`, or `[next, toggled]` exactly when a to-do recurring task has a further occurrence; `next` is the old task with the new due date and no block link |
| Tasks.NextOccurrenceIsLater | src/Task.ts:431-466 | the next due date falls strictly after the search boundary and on a later day than today and the old due date, at the old due date's hour and minute |
| Tasks.ToggleTwice | src/Task.ts:422-476 | toggling twice gives the status back; only the done date, its time flag and the marker are rewritten |
| Queries.FirstPrefix | src/Query.ts:26-27 | the alternative chosen is the first one in order that begins the text; when none is chosen, none begins it |
| Queries.RestOfLine | src/Query.ts:17 | `(.*)` captures the longest prefix without a line terminator |
| Queries.MatchLimitLine | src/Query.ts:38 | the captured limit is a non-empty run of digits |
| Queries.HideOptionOf | src/Query.ts:131-151 | the `if` chain of `parseHideOptions` recognises an option only by its own name |
| Queries.Query.Empty | src/Query.ts:9-13 | a new query has no limit, the default layout, no filters, no error and no sort keys |
| Queries.Query.ParseHideOptions | src/Query.ts:128-153 | `parseHideOptions` updates the fields as the hide directive of the line says |
| Queries.Query.ParseDateFilter | src/Query.ts:155-246 | `parseDueFilter` and `parseDoneFilter` push the date filter of the line; when chrono finds no date they record the error and then throw |
| Queries.Query.ParseTextFilter | src/Query.ts:249-298 | `parsePathFilter` and `parseDescriptionFilter` push the text filter of the line |
| Queries.Query.ParseHeadingFilter | src/Query.ts:300-328 | `parseHeadingFilter` pushes the heading filter of the line, or records its error |
| Queries.Query.ParseLimit | src/Query.ts:330-339 | `parseLimit` sets the limit of the line |
| Queries.Query.ParseSortBy | src/Query.ts:341-348 | `parseSortBy` appends the sort key of the line |
| Queries.Query.ParseLine | src/Query.ts:46-104 | the `switch` of the constructor applies the directive of the line and throws exactly when that directive throws |
| Queries.Query.ParsePatternLine | src/Query.ts:78-104 | the cases of the `switch` that test a regular expression apply the directive of the line |
| Queries.NewQuery | src/Query.ts:41-106 | `new Query({ source })` succeeds exactly when processing the trimmed lines in order does not throw, and then has the fields that processing yields |
| Queries.RunStopsAt | src/Query.ts:158-162 | once a line throws, the whole constructor throws |
| Queries.Directives | src/Query.ts:42-45 | each line of the source is classified on its own |
| Queries.RunIsApplyAll | src/Query.ts:45-105 | processing the lines is applying their directives in order |
| Queries.ApplyAllSummary | src/Query.ts:45-105 | the directives throw exactly when one of them throws; otherwise filters and sort keys are appended in order, the last limit wins and the last error stays |
| Queries.ApplyAllFlags | src/Query.ts:128-153 | after the directives, a layout flag is set exactly when it was set before or some directive sets it |
| Queries.RunSummary | src/Query.ts:41-106 | the query throws exactly when a line throws; otherwise its filters and sort keys are those the lines push, in source order; the last limit wins; the error is the last one recorded, and later lines are still processed; a layout flag is set exactly when some line sets it |
| Queries.ErrorNeverCleared | src/Query.ts:102-104 | once recorded, an error stays whatever lines follow |
| Queries.UnchangedDropped | src/Query.ts:47-48 | a directive that changes nothing may be dropped wherever it stands |
| Queries.BlankLineChangesNothing | src/Query.ts:42-48 | a blank line changes nothing wherever it stands |
| Queries.ExactStrings | src/Query.ts:47-77 | the exact strings are tested first and compared with `===`: `done` yields the status filter and not a done-date filter, and `Done` is not understood |
| Queries.ToPatterns | src/Query.ts:46-77 | a line that is none of the exact strings goes to the patterns |
| Queries.DateFilterMeaning | src/Query.ts:162-195 | a date filter fails a task without the date; `before` a date-only day means an earlier day, `after` means a later day, otherwise the same day, or the same minute when the hour is certain |
| Queries.OperatorFirst | src/Query.ts:17 | the operator a date line starts with is found as the group |
| Queries.DateGroupsOf | src/Query.ts:17 | an operator, a space and a text give that operator and that text as the groups |
| Queries.MatchDateLineOf | src/Query.ts:17-21 | the due and done patterns read the operator and the text after it |
| Queries.PatternDate | src/Query.ts:78-83 | a line that the date pattern matches, and no earlier pattern, goes to that field's parser |
| Queries.DateHeads | src/Query.ts:78-83 | a due line fails the done pattern, and a done line fails the due pattern |
| Queries.DateLine | src/Query.ts:155-197 | `due before D`, `due after D`, `due on D` and `due D`, and their `done` forms, push exactly one date filter |
| Queries.TextGroupsOf | src/Query.ts:23-25 | `includes` or `does not include` and a text give those groups |
| Queries.MatchTextLineOf | src/Query.ts:23-25 | the path and description patterns read the method and the text after it |
| Queries.PatternText | src/Query.ts:84-89 | a line that only the path or description pattern matches goes to that filter's parser |
| Queries.TextHeads | src/Query.ts:78-89 | a path or description line fails the patterns tested before its own |
| Queries.TextLine | src/Query.ts:249-298 | `path includes X`, `description does not include X` and the like push exactly one text filter |
| Queries.MatchHeadingLineOf | src/Query.ts:29-30 | the heading pattern reads the method and the text after it |
| Queries.PatternHeading | src/Query.ts:78-91 | a line the heading pattern matches fails the date, path and description patterns and goes to `parseHeadingFilter` |
| Queries.HeadingLine | src/Query.ts:300-328 | `heading includes X` and `heading does not include X` push exactly one heading filter, when the locale leaves the lower-case method as it is |
| Queries.IncludesComplement | src/Query.ts:249-328 | `includes` and `does not include` are complements for path, description and heading; a task without a heading fails `includes` |
| Queries.OtherHeads | src/Query.ts:78-98 | limit, sort and hide lines fail the date and text patterns tested before theirs |
| Queries.MatchLimitLineOf | src/Query.ts:38 | the limit pattern reads the digits after an optional `to ` |
| Queries.PatternLimit | src/Query.ts:93-95 | a line that the limit pattern matches, and no earlier pattern, goes to `parseLimit` |
| Queries.LimitLine | src/Query.ts:330-339 | `limit N` and `limit to N`, with or without ` tasks`, set the limit to the number N spells and change nothing else |
| Queries.SetFlagExactly | src/Query.ts:133-148 | setting the flag of an option sets that flag and no other |
| Queries.HideFirst | src/Query.ts:33 | each hide option is the alternative the hide pattern picks for a line that starts with it |
| Queries.HideNameTrimmed | src/Query.ts:131 | `trim` keeps every option name |
| Queries.HideOptionOfName | src/Query.ts:131-148 | the `if` chain recognises every option by its name |
| Queries.PatternHide | src/Query.ts:99-101 | a line that only the hide pattern matches goes to `parseHideOptions` |
| Queries.HideLine | src/Query.ts:128-153 | `hide X` sets the flag for X and changes nothing else, whatever follows X |
| Queries.SortFirst | src/Query.ts:26-27 | each sort key is the alternative the sort pattern picks for a line that starts with it |
| Queries.PatternSort | src/Query.ts:96-98 | a line that the sort pattern matches, and no earlier pattern, goes to `parseSortBy` |
| Queries.SortLine | src/Query.ts:341-348 | `sort by K` appends K to the sort keys and changes nothing else |
| Queries.TwoSortLines | src/Query.ts:341-348 | two sort lines give their keys in source order |
| Sort.CompareByStatus | src/Sort.ts:52-60 | the status comparison is -1, 0 or 1 |
| Sort.StatusOrder | src/Sort.ts:52-60 | done sorts after to do, to do before done, and the same status ties |
| Sort.CompareByMoment | src/Sort.ts:80-99 | the moment comparison is -1, 0 or 1 |
| Sort.MomentOrder | src/Sort.ts:80-99 | a date sorts before no date, two absent dates tie, present dates sort chronologically, and only equal values tie |
| Sort.DatePart | src/Sort.ts:62-78 | the date part keeps the day and lies at midnight |
| Sort.TimePart | src/Sort.ts:62-78 | the time part is the minute of the day |
| Sort.DateThenTimeIsChronological | src/Sort.ts:62-78 | comparing the day first and the minute of the day on a tie is comparing the moments |
| Sort.CompareByDueDateTime | src/Sort.ts:62-69 | the due comparison is -1, 0 or 1; this is the corrected comparator of the Findings row (as written, the comparison throws a TypeError) |
| Sort.CompareByDoneDateTime | src/Sort.ts:71-78 | the done comparison is -1, 0 or 1; this is the corrected comparator of the Findings row (as written, the comparison throws a TypeError) |
| Sort.DueAndDoneOrder | src/Sort.ts:62-78 | the due and done comparisons are chronological; on one day a date-only value sorts before a timed one; a task with a due date sorts before one without |
| Sort.Property | src/Task.ts:29-32 | only `dueDateTime` and `doneDateTime` exist among the moment-valued property names; any other name reads as undefined |
| Sort.DateTimeComparisonAsWrittenThrows | src/Sort.ts:62-99 | as written, every due or done comparison throws a TypeError, whatever the tasks hold |
| Sort.CompareByPath | src/Sort.ts:101-109 | the path comparison is -1, 0 or 1 |
| Sort.PathOrder | src/Sort.ts:101-109 | -1 exactly when the first path is less, 1 exactly when it is greater, 0 exactly when the paths are equal |
| Sort.CompareKeys | src/Sort.ts:111-113 | the collation-key comparison is -1, 0 or 1 |
| Sort.CompareByDescription | src/Sort.ts:111-113 | the description comparison is -1, 0 or 1 |
| Sort.CompareKeysZero | src/Sort.ts:111-113 | descriptions tie exactly when their collation keys are equal |
| Sort.CompareKeysAntisymmetric | src/Sort.ts:111-113 | swapping the arguments negates the description comparison |
| Sort.CompareKeysTransitive | src/Sort.ts:111-113 | the description comparison is transitive |
| Sort.Compare | src/Sort.ts:16-32 | each sort key selects a comparison with values -1, 0 or 1 |
| Sort.CompareIsTotalOrder | src/Sort.ts:16-32 | every comparator is antisymmetric and transitive, and tied values are interchangeable |
| Sort.Composite | src/Sort.ts:38-50 | the composite comparison is -1, 0 or 1 |
| Sort.CompositeIsFirstNonZero | src/Sort.ts:38-50 | the composite result is that of the first comparator that does not tie, or 0 when all tie |
| Sort.CompositeIsTotalOrder | src/Sort.ts:38-50 | the composite comparator is antisymmetric, and its at-most-0 relation is transitive |
| Sort.CompareComposite | src/Sort.ts:41-49 | the loop of the composite closure returns the composite result |
| Sort.Reversed | src/Sort.ts:15 | the reversed sequence holds the same elements back to front |
| Sort.ReversedTwice | src/Sort.ts:15 | reversing twice gives the sequence back |
| Sort.Priorities | src/Sort.ts:9-33 | the priority list is the query's sort keys in written order followed by status, due and path; the query's keys are left reversed |
| Sort.CompositeReflexive | src/Sort.ts:38-50 | a task ties with itself |
| Sort.AdjacentSortedIsSorted | src/Sort.ts:35 | when each pair of neighbours is in order, every pair is in order |
| Sort.Swap | src/Sort.ts:35 | the two elements change places, nothing else changes, and the multiset stays the same |
| Sort.SortInPlace | src/Sort.ts:35 | the array ends sorted under the composite comparator and holds a permutation of its old contents |
| Sort.Insert | src/Sort.ts:35 | inserting the next element into the sorted run before it leaves a longer sorted run and the same multiset |
| Sort.By | src/Sort.ts:8-36 | `Sort.by` returns its input array, sorted under the user keys followed by status, due and path, and holding a permutation of its old contents; the query's keys are left reversed. The due and done keys use the corrected comparators of the Findings row (as written, `Sort.by` throws a TypeError whenever the default due key is reached) |
| Settings.MergeEmpty | src/Settings.ts:29-33 | an update that sets no field leaves the settings as they are |
| Settings.MergeGlobalFilter | src/Settings.ts:29-33 | the global filter takes the update's value when the update sets it and keeps its old value otherwise; no other field depends on the update's global filter |
| Settings.MergeIdempotent | src/Settings.ts:29-33 | applying the same update twice is applying it once |
| Settings.MergeThen | src/Settings.ts:29-33 | two updates in a row are one update in which the later update wins |
| Settings.MergeFull | src/Settings.ts:29-33 | an update that sets every field replaces the settings outright |
| Settings.SettingsStore.constructor | src/Settings.ts:12-23 | the settings start as the defaults |
| Settings.SettingsStore.GetSettings | src/Settings.ts:25-27 | `getSettings` returns the current settings |
| Settings.SettingsStore.UpdateSettings | src/Settings.ts:29-33 | `updateSettings` merges the update into the settings and returns the result |
| Settings.SplitFormatArrayShape | src/Settings.ts:35-37 | `splitFormatArray` gives one trimmed entry per `&&`-separated segment, one more than the number of `&&`, and no entry contains `&&` |
| Settings.SplitJoinFormatArray | src/Settings.ts:35-41 | a non-empty list of trimmed entries without `&&` survives `joinFormatArray` followed by `splitFormatArray` |
| Settings.SplitJoined | src/Settings.ts:39-41 | splitting a joined list on `&&` gives each entry with the spaces of the joiner around it |
| Settings.EscapeRegExp | src/Settings.ts:44-46 | the escaped text is a pattern that matches exactly the input, one backslash longer for every special character |
| Settings.EscapeOrdinary | src/Settings.ts:44-46 | text without special characters is left unchanged |
| Files.SlashPrefixesCount | src/File.ts:212-217 | there is one prefix per `/` |
| Files.SlashPrefixesShape | src/File.ts:212-217 | each prefix ends just before a `/`, and they grow strictly |
| Files.SlashPrefixesComplete | src/File.ts:212-217 | every `/` gives its prefix |
| Files.ExpandSubtags | src/File.ts:210-218 | the tag comes first; then, one per `/` in order of position, come the parts of the tag before each `/`; the length is 1 plus the number of `/` |
| Files.CountCounted | src/File.ts:144-151 | no more items are counted than there are |
| Files.FindListItem | src/File.ts:131-156 | the lookup skips items before the section start and items that are not tasks, and counts items whose line holds the global filter. It returns the item counted when `sectionIndex` items were counted before it, or nothing when fewer qualify. It fails with a TypeError when an item it looks at lies past the end of the file |
| Files.CountCountedMonotone | src/File.ts:131-152 | counting more items never counts fewer |
| Files.FoundItemIsUnique | src/File.ts:144-151 | a counted item raises the count for every later item, so at most one item can be found |
| Files.LookupFailureIsExclusive | src/File.ts:139-151 | an item past the end of the file that the loop reaches, where `fileLines[item.line].includes` throws, rules out both a found item and running out of items, so the lookup's three outcomes exclude each other |
| Files.Splice | src/File.ts:158-162 | the splice keeps the lines before and after the target and puts the new lines in its place; the length is n - 1 + k |
| Files.SpliceOneOrNone | src/File.ts:158-162 | replacing a line by one line updates it, and replacing it by none deletes it |
| Files.TaskLines | src/File.ts:160 | the new lines are the tasks' file lines, in the same order |
| Files.ReplaceTaskLines | src/File.ts:127-164 | the new file content is the split content with the found item's line spliced out and the new tasks' lines in its place, and every item the lookup passed has its line in the file; nothing is written when fewer items qualify and every item looked at has its line; a TypeError is raised exactly when an item looked at, with fewer than `sectionIndex` + 1 items counted before it, lies past the end of the file |
| Files.UnchangedLinesRoundTrip | src/File.ts:127-164 | splitting on newlines and joining again gives the content back |
| JsStrings.Split | src/File.ts:128 | `split` always gives at least one piece |
| JsStrings.SplitJoin | src/File.ts:128 | joining the pieces of a split with the separator gives the text back |
| JsStrings.SplitLength | src/Settings.ts:35-37 | a split gives one more piece than the separator occurs |
| JsStrings.TrimShape | src/Query.ts:44 | `trim` removes exactly the leading and trailing whitespace, and its result is trimmed |
| JsStrings.StringLessTotal | src/Sort.ts:101-109 | two different strings are ordered one way or the other |
| JsStrings.StringLessTransitive | src/Sort.ts:101-109 | string `<` is transitive |
| Moments.StartOfDay | src/Query.ts:168 | the start of the day keeps the day, lies at 00:00 and is not later than the moment |
| Moments.EndOfDay | src/Query.ts:176 | the end of the day keeps the day, lies at 23:59 and is not earlier than the moment |
| Moments.BeforeStartOfDay | src/Query.ts:168-173 | a moment is before the start of a day exactly when it lies on an earlier day |
| Moments.AfterEndOfDay | src/Query.ts:176-181 | a moment is after the end of a day exactly when it lies on a later day |
| Moments.SetTime | src/Task.ts:460-464 | setting the hour and minute keeps the day and gives exactly that hour and minute |

## Left out

- The vault and metadata cache are left out: file lookup, `vault.read` and `vault.modify`, and `initializeFile` (src/File.ts:12-127, 164). The model starts from the file content and the list items already read.
- The retry with a back-off timer in `tryRepetitive` is left out, as are console warnings and errors.
- `readTagsInFile` is left out because it calls `getAllTags` of the host application. The lower-casing of tags and the concatenation of their expansions are not modelled either; `expandSubtags` itself is.
- `Task.toLi` is left out: DOM rendering, event handlers and the Markdown renderer.
- `src/SettingsTab.ts` (the settings screen) is not part of this model.
- moment.js parsing and formatting, rrule and chrono are uninterpreted functions passed in by the caller. A moment is a whole number of minutes. Seconds, calendars, time zones and the `utc(true)` shifts around rrule are not modelled.
- `toLowerCase`, `toLocaleLowerCase` and `localeCompare` are uninterpreted. `localeCompare` is modelled as the comparison of collation keys, so it returns -1, 0 or 1 and is a total order.
- Strings are sequences of characters. UTF-16 code units, surrogate pairs and the `u` flag of the patterns are not distinguished from code points.
- The regular expressions are coded as matchers for the specific patterns, not as a general engine. The signifiers are matched as literal text, which is what `escapeRegExp` makes of them (`Settings.EscapeRegExp` proves that).
- `Tasks.FromLine`, `Tasks.ToString`: both read `dueDateSignifiers`, `doneDateSignifiers` and `recurrenceSignifiers` lists from the settings object (src/Task.ts:134-140, 348-355). The settings record declares none of them. It has single `dueDateSignifier` and `doneDateSignifier` strings instead (src/Settings.ts:1-10).
  - The lists reach the settings object only when the settings screen passes them to `updateSettings` under those undeclared keys (src/SettingsTab.ts:92-128). The object spread in `updateSettings` keeps such keys. `Settings.Merge` covers the declared fields only, so it does not carry them.
  - Under the defaults the lists are `undefined`. `fromLine` then throws a TypeError at the first `.map` (src/Task.ts:142-153), and `toString` throws at `recurrenceSignifiers[0]` or `dueDateSignifiers[0]` for a task with a rule or a date. The model does not capture these failures.
  - The model takes the lists the tasks code reads as a `Config` parameter. Nothing in the model builds a `Config` from a settings record.
- `Queries.LimitLine`: `Number.parseInt` returns a double, so the limit of a digit string above 2^53 is rounded to the nearest double (`limit 9007199254740993` gives 9007199254740992). `Queries.DecimalValue` is the exact integer, and the model does not round.
- `Queries.NewQuery`: a constructor that throws is modelled as a failure result. The half-built query it leaves behind is dropped.
- `Sort.By`: the sort is an insertion sort in place of the engine's algorithm. The contract states a sorted permutation, so stability and the order of ties are not stated.
- `Sort.CompareByDescription`: `localeCompare` may return any negative or positive number; the model returns -1 or 1.
- `Sort.Property` models a property read only for the names the due and done comparators use.
- `Tasks.TaskRoundTrip`, `Tasks.PlainTaskRoundTrip`: `toFileLineString` never writes the block link (src/Task.ts:408-412), so a task read back from its own line has an empty block link. Toggling a task therefore drops the block link of its line. The round trip is also conditional:
  - moment.js must read back, with the same format, what it writes with the first date-time format and the first date format. The first date format must not be a date-time format.
  - rrule's `fromText` must read back what `toText` writes, and `toText` must write trimmed text in the characters the recurrence pattern accepts.
  - Each signifier written must be the first match `fromLine` finds, and the description must hold no signifier and no block link.
  - The marker must already be lower case, and the description must be trimmed, on one line and hold the global filter.
  - For an empty description, each first signifier must be non-empty and start with a character `trim` keeps. After an empty description the body starts with the first signifier written, and a signifier that starts with white space would lose it to the trim.
- `Tasks.Toggle`: the current moment is a parameter. `toggle` reads the clock up to three times: for the done date (src/Task.ts:428), for the start of a recurring task without a due date (src/Task.ts:436) and for today's end (src/Task.ts:450). The model reads it once, so all three see the same moment.
- `Tasks.NextOccurrenceIsLater` depends on a stated assumption: the rrule library's `after(t, false)` returns an occurrence strictly after `t`. It is a precondition of that lemma, not a property proved of rrule.

## Findings

| source | as written | input that shows it | evidently intended | confidence | as-written member | corrected member |
|---|---|---|---|---|---|---|
| src/Sort.ts:62-78 | `compareByDueDateTime` and `compareByDoneDateTime` read `dueDate`, `dueTime`, `doneDate` and `doneTime`, which `Task` does not declare, so `compareByMoment` gets `undefined` twice; `undefined !== null` leads it to call `undefined.isAfter`, which throws a TypeError | any two tasks that reach the due comparator, e.g. two to-do tasks in a query without sort lines | compare the date part of `dueDateTime` (or `doneDateTime`) first and its time part on a tie | not executed | Sort.DateTimeComparisonAsWrittenThrows | Sort.DueAndDoneOrder |
