/**
 * A query is the text of a `tasks` code block (src/Query.ts): the constructor splits it into
 * lines, trims each and classifies it, and the `parse*` methods add a filter, a sort key or a
 * limit, set a layout flag, or record an error.
 */
module Queries {
  import opened Wrappers
  import opened JsStrings
  import opened Moments
  import opened Libraries
  import T = Tasks

  /** The `Sorting` union type. */
  datatype Sorting = SortStatus | SortDue | SortDone | SortPath | SortDescription

  datatype DateFieldName = DueDate | DoneDate

  /** What a date filter compares the task's date with. */
  datatype DateTest = Before(bound: Moment) | After(bound: Moment) | SameDay(bound: Moment) | SameMinute(bound: Moment)

  datatype TextField = PathText | DescriptionText

  /** The closures the constructor pushes onto `_filters`, as data. */
  datatype Filter =
    | IsDone
    | NotDone
    | IsRecurring
    | NotRecurring
    | NoSubItems
    | NoDueDate
    | NoDueTime
    | DateFilter(field: DateFieldName, test: DateTest)
    | TextFilter(text: TextField, includes: bool, needle: string)
    | HeadingFilter(includes: bool, needle: string)

  /** `stringIncludesCaseInsensitive`. */
  predicate IncludesCaseInsensitive(haystack: string, needle: string, locale: Locale) {
    Contains(locale.localeLowerCase(haystack), locale.localeLowerCase(needle))
  }

  /** `isBefore`, `isAfter` and `isSame` with a day or minute granularity, on moments in minutes. */
  predicate TestDate(test: DateTest, t: Moment) {
    match test
    case Before(b) => t < b
    case After(b) => t > b
    case SameDay(b) => Day(t) == Day(b)
    case SameMinute(b) => t == b
  }

  function DateOfTask(task: T.Task, field: DateFieldName): Option<Moment> {
    match field
    case DueDate => task.dueDateTime
    case DoneDate => task.doneDateTime
  }

  function TextOfTask(task: T.Task, text: TextField): string {
    match text
    case PathText => task.path
    case DescriptionText => task.description
  }

  /** Applying a filter closure to a task. */
  predicate Eval(f: Filter, task: T.Task, locale: Locale) {
    match f
    case IsDone => task.status == T.Done
    case NotDone => task.status != T.Done
    case IsRecurring => task.recurrenceRule.Some?
    case NotRecurring => task.recurrenceRule.None?
    case NoSubItems => task.indentation == ""
    case NoDueDate => task.dueDateTime.None?
    case NoDueTime => !task.hasDueTime
    case DateFilter(field, test) =>
      var d := DateOfTask(task, field);
      d.Some? && TestDate(test, d.value)
    case TextFilter(text, includes, needle) =>
      if includes then IncludesCaseInsensitive(TextOfTask(task, text), needle, locale)
      else !IncludesCaseInsensitive(TextOfTask(task, text), needle, locale)
    case HeadingFilter(includes, needle) =>
      if includes then task.precedingHeader.Some? && IncludesCaseInsensitive(task.precedingHeader.value, needle, locale)
      else task.precedingHeader.None? || !IncludesCaseInsensitive(task.precedingHeader.value, needle, locale)
  }

  // ---------------------------------------------------------------------------------------
  // The regular expressions, as matchers on the trimmed line

  /** `s` begins with `p`. */
  predicate StartsWith(s: string, p: string)
    ensures StartsWith(s, p) ==> |p| <= |s|
    decreases |p|
  {
    p == [] || (s != [] && s[0] == p[0] && StartsWith(s[1..], p[1..]))
  }

  lemma {:induction false} StartsWithIs(s: string, p: string)
    ensures StartsWith(s, p) <==> |p| <= |s| && s[..|p|] == p
    decreases |p|
  {
    if p != [] && s != [] {
      StartsWithIs(s[1..], p[1..]);
      if |p| <= |s| {
        assert s[..|p|] == [s[0]] + s[1..][..|p| - 1];
        assert p == [p[0]] + p[1..];
      }
    }
  }

  /** The first alternative of `alts` (from index `k` on) that is a prefix of `s`. */
  function FirstPrefix(s: string, alts: seq<string>, k: nat): (r: Option<nat>)
    requires k <= |alts|
    ensures r.Some? ==> (k <= r.value < |alts| && StartsWith(s, alts[r.value])
      && forall j :: k <= j < r.value ==> !StartsWith(s, alts[j]))
    ensures r.None? ==> forall j :: k <= j < |alts| ==> !StartsWith(s, alts[j])
    decreases |alts| - k
  {
    if k == |alts| then None
    else if StartsWith(s, alts[k]) then Some(k)
    else FirstPrefix(s, alts, k + 1)
  }

  /** What a trailing `(.*)` captures: everything up to the first line terminator. */
  function RestOfLine(s: string): (r: string)
    ensures |r| <= |s| && r == s[..|r|] && All(r, NotLineTerminator)
    ensures |r| < |s| ==> IsLineTerminator(s[|r|])
  {
    s[..Span(s, NotLineTerminator)]
  }

  const DateOperators: seq<string> := ["before", "after", "on"]

  /** The groups of `^due (before|after|on)? ?(.*)` and `^done (before|after|on)? ?(.*)`. */
  datatype DateMatch = DateMatch(operator: Option<string>, text: string)

  function MatchDateLine(line: string, head: string): Option<DateMatch> {
    if !StartsWith(line, head) then None else Some(DateGroups(line[|head|..]))
  }

  /** The groups of the date pattern in what follows the keyword and its space. */
  function DateGroups(rest: string): DateMatch {
    var k := FirstPrefix(rest, DateOperators, 0);
    var afterOperator := if k.Some? then rest[|DateOperators[k.value]|..] else rest;
    var text := if afterOperator != [] && afterOperator[0] == ' ' then afterOperator[1..] else afterOperator;
    DateMatch(if k.Some? then Some(DateOperators[k.value]) else None, RestOfLine(text))
  }

  datatype TextMatch = TextMatch(filterMethod: string, text: string)

  function MatchTextLine(line: string, head: string): Option<TextMatch> {
    if !StartsWith(line, head) then None else TextGroups(line[|head|..])
  }

  /** The groups of the text pattern in what follows the keyword and its space. */
  function TextGroups(rest: string): Option<TextMatch> {
    if StartsWith(rest, "includes ") then Some(TextMatch("includes", RestOfLine(rest[9..])))
    else if StartsWith(rest, "does not include ") then Some(TextMatch("does not include", RestOfLine(rest[17..])))
    else None
  }

  predicate IsDigit(c: char) {
    '0' <= c <= '9'
  }

  /** Group 2 of `^limit (to )?(\d+)( tasks?)?`: the digits. */
  function MatchLimitLine(line: string): (r: Option<string>)
    ensures r.Some? ==> r.value != [] && All(r.value, IsDigit)
  {
    if !StartsWith(line, "limit ") then None
    else
      var rest := line[6..];
      if StartsWith(rest, "to ") && Span(rest[3..], IsDigit) > 0 then Some(rest[3..][..Span(rest[3..], IsDigit)])
      else if Span(rest, IsDigit) > 0 then Some(rest[..Span(rest, IsDigit)])
      else None
  }

  const SortNames: seq<string> := ["status", "due", "done", "path", "description"]
  const SortKeys: seq<Sorting> := [SortStatus, SortDue, SortDone, SortPath, SortDescription]

  /** Group 1 of `^sort by (status|due|done|path|description)`, as a `Sorting`. */
  function MatchSortLine(line: string): Option<Sorting> {
    if !StartsWith(line, "sort by ") then None
    else
      var k := FirstPrefix(line[8..], SortNames, 0);
      if k.Some? then Some(SortKeys[k.value]) else None
  }

  const HideNames: seq<string> :=
    ["task count", "backlink", "done date", "done time", "due date", "due time", "recurrence rule", "edit button"]

  /** Group 1 of `^hide (task count|backlink|...|edit button)`. */
  function MatchHideLine(line: string): Option<string> {
    if !StartsWith(line, "hide ") then None
    else
      var k := FirstPrefix(line[5..], HideNames, 0);
      if k.Some? then Some(HideNames[k.value]) else None
  }

  /** `Number.parseInt(digits, 10)`. */
  function DecimalValue(digits: string): nat
    requires All(digits, IsDigit)
  {
    if digits == [] then 0
    else DecimalValue(digits[..|digits| - 1]) * 10 + (digits[|digits| - 1] as int - '0' as int)
  }

  // ---------------------------------------------------------------------------------------
  // The constructor's classification, one line at a time

  /** The private fields of a `Query`. */
  datatype QueryState = QueryState(
    limit: Option<nat>,
    layoutOptions: T.LayoutOptions,
    filters: seq<Filter>,
    error: Option<string>,
    sorting: seq<Sorting>)

  const Initial: QueryState := QueryState(None, T.DefaultLayout, [], None, [])

  const NotUnderstood: string := "do not understand query"

  /** The options of `hide`, one per layout flag. */
  datatype HideOption =
    | TaskCount | Backlink | DoneDateOption | DoneTimeOption
    | DueDateOption | DueTimeOption | RecurrenceRuleOption | EditButton

  /** The option as the pattern spells it. */
  function HideName(o: HideOption): string {
    match o
    case TaskCount => "task count"
    case Backlink => "backlink"
    case DoneDateOption => "done date"
    case DoneTimeOption => "done time"
    case DueDateOption => "due date"
    case DueTimeOption => "due time"
    case RecurrenceRuleOption => "recurrence rule"
    case EditButton => "edit button"
  }

  /** The position of the option in the pattern's alternation. */
  function HideIndex(o: HideOption): (k: nat)
    ensures k < |HideNames| && HideNames[k] == HideName(o)
  {
    match o
    case TaskCount => 0
    case Backlink => 1
    case DoneDateOption => 2
    case DoneTimeOption => 3
    case DueDateOption => 4
    case DueTimeOption => 5
    case RecurrenceRuleOption => 6
    case EditButton => 7
  }

  /** The `if` chain of `parseHideOptions`; None for an option it does not know. */
  function HideOptionOf(option: string): (r: Option<HideOption>)
    ensures r.Some? ==> HideName(r.value) == option
  {
    if option == "task count" then Some(TaskCount)
    else if option == "backlink" then Some(Backlink)
    else if option == "done date" then Some(DoneDateOption)
    else if option == "done time" then Some(DoneTimeOption)
    else if option == "due date" then Some(DueDateOption)
    else if option == "due time" then Some(DueTimeOption)
    else if option == "recurrence rule" then Some(RecurrenceRuleOption)
    else if option == "edit button" then Some(EditButton)
    else None
  }

  /** The layout options with the flag of `o` set. */
  function SetFlag(layout: T.LayoutOptions, o: HideOption): T.LayoutOptions {
    match o
    case TaskCount => layout.(hideTaskCount := true)
    case Backlink => layout.(hideBacklinks := true)
    case DoneDateOption => layout.(hideDoneDate := true)
    case DoneTimeOption => layout.(hideDoneTime := true)
    case DueDateOption => layout.(hideDueDate := true)
    case DueTimeOption => layout.(hideDueTime := true)
    case RecurrenceRuleOption => layout.(hideRecurrenceRule := true)
    case EditButton => layout.(hideEditButton := true)
  }

  /** What one line tells the query to do. */
  datatype Directive =
    | Unchanged
    | Push(filter: Filter)
    | PushSorting(key: Sorting)
    | SetLimit(limit: nat)
    | Hide(option: HideOption)
    | Fail(message: string)
    | Throw(message: string)

  function AddFilter(st: QueryState, f: Filter): QueryState {
    st.(filters := st.filters + [f])
  }

  /** The fields after a directive; None when the constructor throws (after recording the message). */
  function Apply(st: QueryState, d: Directive): Option<QueryState> {
    match d
    case Unchanged => Some(st)
    case Push(f) => Some(AddFilter(st, f))
    case PushSorting(key) => Some(st.(sorting := st.sorting + [key]))
    case SetLimit(n) => Some(st.(limit := Some(n)))
    case Hide(o) => Some(st.(layoutOptions := SetFlag(st.layoutOptions, o)))
    case Fail(message) => Some(st.(error := Some(message)))
    case Throw(_) => None
  }

  lemma ApplyFieldwise(st: QueryState, d: Directive, after: QueryState)
    requires d.Unchanged? || d.Hide? || d.Fail?
    requires after.limit == st.limit && after.filters == st.filters && after.sorting == st.sorting
    requires after.layoutOptions == if d.Hide? then SetFlag(st.layoutOptions, d.option) else st.layoutOptions
    requires after.error == if d.Fail? then Some(d.message) else st.error
    ensures Apply(st, d) == Some(after)
  {
  }

  /** `parseHideOptions`. */
  function HideDirective(line: string, rt: Runtime): Directive {
    match MatchHideLine(line)
    case None => Unchanged
    case Some(group) =>
      match HideOptionOf(rt.locale.lowerCase(Trim(group)))
      case Some(o) => Hide(o)
      case None => Fail("do not understand hide option")
  }

  /** The comparison a due or done filter makes, from its operator and the date chrono read. */
  function DateTestOf(operator: Option<string>, parsed: ChronoDate): DateTest {
    if operator == Some("before") then Before(if parsed.hourCertain then parsed.date else StartOfDay(parsed.date))
    else if operator == Some("after") then After(if parsed.hourCertain then parsed.date else EndOfDay(parsed.date))
    else if !parsed.hourCertain then SameDay(parsed.date)
    else SameMinute(parsed.date)
  }

  /** The keyword of the pattern of a date field, with the space after it. */
  function DateHead(field: DateFieldName): string {
    if field == DueDate then "due " else "done "
  }

  /** The keyword of the pattern of a text field, with the space after it. */
  function TextHead(text: TextField): string {
    if text == PathText then "path " else "description "
  }

  /**
   * `parseDueFilter` and `parseDoneFilter`; when chrono finds no date the source records an
   * error and then throws reading a property of `undefined`.
   */
  function DateDirective(line: string, field: DateFieldName, rt: Runtime): Directive {
    match MatchDateLine(line, DateHead(field))
    case None => if field == DueDate then Fail("do not understand query filter (due date)") else Unchanged
    case Some(m) =>
      match rt.chrono.parse(m.text)
      case None => Throw(if field == DueDate then "do not understand due date" else "do not understand done date")
      case Some(parsed) => Push(DateFilter(field, DateTestOf(m.operator, parsed)))
  }

  /** `parsePathFilter` and `parseDescriptionFilter`. */
  function TextDirective(line: string, text: TextField): Directive {
    var failure := if text == PathText then "do not understand query filter (path)"
      else "do not understand query filter (description)";
    match MatchTextLine(line, TextHead(text))
    case None => Fail(failure)
    case Some(m) =>
      if m.filterMethod == "includes" then Push(TextFilter(text, true, m.text))
      else if m.filterMethod == "does not include" then Push(TextFilter(text, false, m.text))
      else Fail(failure)
  }

  /** `parseHeadingFilter`: the method is lower-cased before the first comparison only. */
  function HeadingDirective(line: string, rt: Runtime): Directive {
    match MatchTextLine(line, "heading ")
    case None => Fail("do not understand query filter (heading)")
    case Some(m) =>
      if rt.locale.lowerCase(m.filterMethod) == "includes" then Push(HeadingFilter(true, m.text))
      else if m.filterMethod == "does not include" then Push(HeadingFilter(false, m.text))
      else Fail("do not understand query filter (heading)")
  }

  /** `parseLimit`. */
  function LimitDirective(line: string): Directive {
    match MatchLimitLine(line)
    case None => Fail("do not understand query limit")
    case Some(digits) => SetLimit(DecimalValue(digits))
  }

  /** `parseSortBy`. */
  function SortDirective(line: string): Directive {
    match MatchSortLine(line)
    case None => Fail("do not understand query sorting")
    case Some(key) => PushSorting(key)
  }

  /** The `switch (true)` of the constructor, on one trimmed line. */
  function Classify(line: string, rt: Runtime): Directive {
    if line == "" then Unchanged
    else if line == "done" then Push(IsDone)
    else if line == "not done" then Push(NotDone)
    else if line == "is recurring" then Push(IsRecurring)
    else if line == "is not recurring" then Push(NotRecurring)
    else if line == "exclude sub-items" then Push(NoSubItems)
    else if line == "no due date" then Push(NoDueDate)
    else if line == "no due time" then Push(NoDueTime)
    else ClassifyPattern(line, rt)
  }

  /** The cases of the `switch` that test a regular expression, in order. */
  function ClassifyPattern(line: string, rt: Runtime): Directive {
    if MatchDateLine(line, "due ").Some? then DateDirective(line, DueDate, rt)
    else if MatchDateLine(line, "done ").Some? then DateDirective(line, DoneDate, rt)
    else if MatchTextLine(line, "path ").Some? then TextDirective(line, PathText)
    else if MatchTextLine(line, "description ").Some? then TextDirective(line, DescriptionText)
    else if MatchTextLine(line, "heading ").Some? then HeadingDirective(line, rt)
    else if MatchLimitLine(line).Some? then LimitDirective(line)
    else if MatchSortLine(line).Some? then SortDirective(line)
    else if MatchHideLine(line).Some? then HideDirective(line, rt)
    else Fail(NotUnderstood)
  }

  /** One trimmed line of the source; None when the constructor throws. */
  function Step(st: QueryState, line: string, rt: Runtime): Option<QueryState> {
    Apply(st, Classify(line, rt))
  }

  /** The lines processed in order from `st`; None as soon as one throws. */
  function Run(st: QueryState, lines: seq<string>, rt: Runtime): Option<QueryState>
    decreases |lines|
  {
    if lines == [] then Some(st)
    else
      match Run(st, lines[..|lines| - 1], rt)
      case None => None
      case Some(s) => Step(s, lines[|lines| - 1], rt)
  }

  /** The lines of the source, each trimmed. */
  function SourceLines(source: string): seq<string> {
    MapTrim(Split(source, "\n"))
  }

  /** `new Query({ source })`: its fields, or None when the constructor throws. */
  function Parse(source: string, rt: Runtime): Option<QueryState> {
    Run(Initial, SourceLines(source), rt)
  }

  // ---------------------------------------------------------------------------------------
  // The class

  class Query {
    var limit: Option<nat>
    var layoutOptions: T.LayoutOptions
    var filters: seq<Filter>
    var error: Option<string>
    var sorting: seq<Sorting>

    function State(): QueryState
      reads this
    {
      QueryState(limit, layoutOptions, filters, error, sorting)
    }

    /** The field initialisers. */
    constructor Empty()
      ensures State() == Initial
    {
      limit := None;
      layoutOptions := T.DefaultLayout;
      filters := [];
      error := None;
      sorting := [];
    }

    method ParseHideOptions(line: string, rt: Runtime)
      modifies this
      ensures Apply(old(State()), HideDirective(line, rt)) == Some(State())
    {
      ghost var before := State();
      var hideOptionsMatch := MatchHideLine(line);
      if hideOptionsMatch.Some? {
        var option := rt.locale.lowerCase(Trim(hideOptionsMatch.value));
        match HideOptionOf(option)
        case Some(TaskCount) => layoutOptions := layoutOptions.(hideTaskCount := true);
        case Some(Backlink) => layoutOptions := layoutOptions.(hideBacklinks := true);
        case Some(DoneDateOption) => layoutOptions := layoutOptions.(hideDoneDate := true);
        case Some(DoneTimeOption) => layoutOptions := layoutOptions.(hideDoneTime := true);
        case Some(DueDateOption) => layoutOptions := layoutOptions.(hideDueDate := true);
        case Some(DueTimeOption) => layoutOptions := layoutOptions.(hideDueTime := true);
        case Some(RecurrenceRuleOption) => layoutOptions := layoutOptions.(hideRecurrenceRule := true);
        case Some(EditButton) => layoutOptions := layoutOptions.(hideEditButton := true);
        case None => error := Some("do not understand hide option");
      }
      ghost var d := HideDirective(line, rt);
      assert layoutOptions == if d.Hide? then SetFlag(before.layoutOptions, d.option) else before.layoutOptions;
      assert error == if d.Fail? then Some(d.message) else before.error;
      ApplyFieldwise(before, d, State());
    }

    /** `parseDueFilter` (`field == DueDate`) and `parseDoneFilter`; `threw` when chrono finds no date. */
    method ParseDateFilter(line: string, field: DateFieldName, rt: Runtime) returns (threw: bool)
      modifies this
      ensures threw <==> DateDirective(line, field, rt).Throw?
      ensures threw ==> error == Some(DateDirective(line, field, rt).message)
      ensures !threw ==> Apply(old(State()), DateDirective(line, field, rt)) == Some(State())
    {
      threw := false;
      var dateMatch := MatchDateLine(line, DateHead(field));
      if dateMatch.Some? {
        var parsedDate := rt.chrono.parse(dateMatch.value.text);
        if parsedDate.None? {
          error := Some(if field == DueDate then "do not understand due date" else "do not understand done date");
          threw := true;
          return;
        }
        var parsedWithTime := parsedDate.value.hourCertain;
        var filterDate := parsedDate.value.date;
        var test;
        if dateMatch.value.operator == Some("before") {
          if !parsedWithTime {
            filterDate := StartOfDay(filterDate);
          }
          test := Before(filterDate);
        } else if dateMatch.value.operator == Some("after") {
          if !parsedWithTime {
            filterDate := EndOfDay(filterDate);
          }
          test := After(filterDate);
        } else {
          if !parsedWithTime {
            test := SameDay(filterDate);
          } else {
            test := SameMinute(filterDate);
          }
        }
        filters := filters + [DateFilter(field, test)];
      } else if field == DueDate {
        error := Some("do not understand query filter (due date)");
      }
    }

    /** `parsePathFilter` (`text == PathText`) and `parseDescriptionFilter`. */
    method ParseTextFilter(line: string, text: TextField)
      modifies this
      ensures Apply(old(State()), TextDirective(line, text)) == Some(State())
    {
      var failure := if text == PathText then "do not understand query filter (path)"
        else "do not understand query filter (description)";
      var textMatch := MatchTextLine(line, TextHead(text));
      if textMatch.Some? {
        var filterMethod := textMatch.value.filterMethod;
        if filterMethod == "includes" {
          filters := filters + [TextFilter(text, true, textMatch.value.text)];
        } else if textMatch.value.filterMethod == "does not include" {
          filters := filters + [TextFilter(text, false, textMatch.value.text)];
        } else {
          // The pattern admits no other method.
          assert false;
        }
      } else {
        error := Some(failure);
      }
    }

    method ParseHeadingFilter(line: string, rt: Runtime)
      modifies this
      ensures Apply(old(State()), HeadingDirective(line, rt)) == Some(State())
    {
      var headingMatch := MatchTextLine(line, "heading ");
      if headingMatch.Some? {
        var filterMethod := rt.locale.lowerCase(headingMatch.value.filterMethod);
        if filterMethod == "includes" {
          filters := filters + [HeadingFilter(true, headingMatch.value.text)];
        } else if headingMatch.value.filterMethod == "does not include" {
          filters := filters + [HeadingFilter(false, headingMatch.value.text)];
        } else {
          error := Some("do not understand query filter (heading)");
        }
      } else {
        error := Some("do not understand query filter (heading)");
      }
    }

    method ParseLimit(line: string)
      modifies this
      ensures Apply(old(State()), LimitDirective(line)) == Some(State())
    {
      var limitMatch := MatchLimitLine(line);
      if limitMatch.Some? {
        limit := Some(DecimalValue(limitMatch.value));
      } else {
        error := Some("do not understand query limit");
      }
    }

    method ParseSortBy(line: string)
      modifies this
      ensures Apply(old(State()), SortDirective(line)) == Some(State())
    {
      var fieldMatch := MatchSortLine(line);
      if fieldMatch.Some? {
        sorting := sorting + [fieldMatch.value];
      } else {
        error := Some("do not understand query sorting");
      }
    }

    /** The body of the constructor's `forEach`; `threw` when a date filter throws. */
    method ParseLine(line: string, rt: Runtime) returns (threw: bool)
      modifies this
      ensures threw <==> Classify(line, rt).Throw?
      ensures !threw ==> Apply(old(State()), Classify(line, rt)) == Some(State())
    {
      threw := false;
      if line == "" {
      } else if line == "done" {
        filters := filters + [IsDone];
      } else if line == "not done" {
        filters := filters + [NotDone];
      } else if line == "is recurring" {
        filters := filters + [IsRecurring];
      } else if line == "is not recurring" {
        filters := filters + [NotRecurring];
      } else if line == "exclude sub-items" {
        filters := filters + [NoSubItems];
      } else if line == "no due date" {
        filters := filters + [NoDueDate];
      } else if line == "no due time" {
        filters := filters + [NoDueTime];
      } else {
        threw := ParsePatternLine(line, rt);
      }
    }

    /** The cases of the `switch` that test a regular expression. */
    method ParsePatternLine(line: string, rt: Runtime) returns (threw: bool)
      modifies this
      ensures threw <==> ClassifyPattern(line, rt).Throw?
      ensures !threw ==> Apply(old(State()), ClassifyPattern(line, rt)) == Some(State())
    {
      threw := false;
      ghost var d := ClassifyPattern(line, rt);
      if MatchDateLine(line, "due ").Some? {
        assert d == DateDirective(line, DueDate, rt);
        threw := ParseDateFilter(line, DueDate, rt);
      } else if MatchDateLine(line, "done ").Some? {
        assert d == DateDirective(line, DoneDate, rt);
        threw := ParseDateFilter(line, DoneDate, rt);
      } else if MatchTextLine(line, "path ").Some? {
        assert d == TextDirective(line, PathText);
        ParseTextFilter(line, PathText);
      } else if MatchTextLine(line, "description ").Some? {
        assert d == TextDirective(line, DescriptionText);
        ParseTextFilter(line, DescriptionText);
      } else if MatchTextLine(line, "heading ").Some? {
        assert d == HeadingDirective(line, rt);
        ParseHeadingFilter(line, rt);
      } else if MatchLimitLine(line).Some? {
        assert d == LimitDirective(line);
        ParseLimit(line);
      } else if MatchSortLine(line).Some? {
        assert d == SortDirective(line);
        ParseSortBy(line);
      } else if MatchHideLine(line).Some? {
        assert d == HideDirective(line, rt);
        ParseHideOptions(line, rt);
      } else {
        assert d == Fail(NotUnderstood);
        error := Some(NotUnderstood);
      }
    }
  }

  /** `new Query({ source })`: the query, or a failure when the constructor throws. */
  method NewQuery(source: string, rt: Runtime) returns (r: Result<Query, string>)
    ensures r.Success? <==> Parse(source, rt).Some?
    ensures r.Success? ==> fresh(r.value) && r.value.State() == Parse(source, rt).value
  {
    var q := new Query.Empty();
    var lines := SourceLines(source);
    var i := 0;
    while i < |lines|
      invariant 0 <= i <= |lines|
      invariant Run(Initial, lines[..i], rt) == Some(q.State())
      invariant fresh(q)
    {
      assert lines[..i + 1][..i] == lines[..i];
      var threw := q.ParseLine(lines[i], rt);
      if threw {
        RunStopsAt(Initial, lines, i, rt);
        return Failure("TypeError");
      }
      i := i + 1;
    }
    assert lines[..i] == lines;
    r := Success(q);
  }

  /** Once a line throws, the whole source throws. */
  lemma RunStopsAt(st: QueryState, lines: seq<string>, i: nat, rt: Runtime)
    requires i < |lines| && Classify(lines[i], rt).Throw?
    ensures Run(st, lines, rt).None?
  {
    RunSummary(st, lines, rt);
  }

  // ---------------------------------------------------------------------------------------
  // What the lines do together

  /** The directives applied in order from `st`; None as soon as one throws. */
  function ApplyAll(st: QueryState, ds: seq<Directive>): Option<QueryState>
    decreases |ds|
  {
    if ds == [] then Some(st)
    else
      match ApplyAll(st, ds[..|ds| - 1])
      case None => None
      case Some(s) => Apply(s, ds[|ds| - 1])
  }

  /** What each line tells the query to do. */
  function Directives(lines: seq<string>, rt: Runtime): (ds: seq<Directive>)
    ensures |ds| == |lines| && forall i :: 0 <= i < |lines| ==> ds[i] == Classify(lines[i], rt)
  {
    seq(|lines|, i requires 0 <= i < |lines| => Classify(lines[i], rt))
  }

  /** The filters the directives push, in order. */
  function Pushed(ds: seq<Directive>): seq<Filter>
    decreases |ds|
  {
    if ds == [] then []
    else Pushed(ds[..|ds| - 1]) + (if ds[|ds| - 1].Push? then [ds[|ds| - 1].filter] else [])
  }

  /** The sort keys the directives push, in order. */
  function PushedSorting(ds: seq<Directive>): seq<Sorting>
    decreases |ds|
  {
    if ds == [] then []
    else PushedSorting(ds[..|ds| - 1]) + (if ds[|ds| - 1].PushSorting? then [ds[|ds| - 1].key] else [])
  }

  /** The limit of the last directive that sets one. */
  function LastLimit(ds: seq<Directive>): Option<nat>
    decreases |ds|
  {
    if ds == [] then None
    else if ds[|ds| - 1].SetLimit? then Some(ds[|ds| - 1].limit)
    else LastLimit(ds[..|ds| - 1])
  }

  /** The message of the last directive that records an error. */
  function LastError(ds: seq<Directive>): Option<string>
    decreases |ds|
  {
    if ds == [] then None
    else if ds[|ds| - 1].Fail? then Some(ds[|ds| - 1].message)
    else LastError(ds[..|ds| - 1])
  }

  /**
   * Running the directives: the query throws exactly when one of them throws; otherwise its
   * filters and sort keys are the pushed ones in order after the ones it had, the last limit
   * wins and the last error recorded stays.
   */
  lemma {:induction false} ApplyAllSummary(st: QueryState, ds: seq<Directive>)
    ensures ApplyAll(st, ds).Some? <==> forall i :: 0 <= i < |ds| ==> !ds[i].Throw?
    ensures ApplyAll(st, ds).Some? ==>
      var r := ApplyAll(st, ds).value;
      r.filters == st.filters + Pushed(ds)
      && r.sorting == st.sorting + PushedSorting(ds)
      && r.limit == (if LastLimit(ds).Some? then LastLimit(ds) else st.limit)
      && r.error == (if LastError(ds).Some? then LastError(ds) else st.error)
    decreases |ds|
  {
    if ds != [] {
      var init := ds[..|ds| - 1];
      ApplyAllSummary(st, init);
      assert forall i :: 0 <= i < |init| ==> init[i] == ds[i];
    }
  }

  /** A layout flag is set after the directives exactly when it was set before or one of them sets it. */
  lemma {:induction false} ApplyAllFlags(st: QueryState, ds: seq<Directive>)
    requires ApplyAll(st, ds).Some?
    ensures forall o :: Flag(ApplyAll(st, ds).value.layoutOptions, o) <==> Flag(st.layoutOptions, o) || Hide(o) in ds
    decreases |ds|
  {
    if ds != [] {
      var init := ds[..|ds| - 1];
      var last := ds[|ds| - 1];
      assert ApplyAll(st, init).Some?;
      ApplyAllFlags(st, init);
      assert ds == init + [last];
      if last.Hide? {
        forall o
          ensures Flag(SetFlag(ApplyAll(st, init).value.layoutOptions, last.option), o)
            == (Flag(ApplyAll(st, init).value.layoutOptions, o) || o == last.option)
        {
          SetFlagExactly(ApplyAll(st, init).value.layoutOptions, last.option, o);
        }
      }
    }
  }

  lemma {:induction false} RunIsApplyAll(st: QueryState, lines: seq<string>, rt: Runtime)
    ensures Run(st, lines, rt) == ApplyAll(st, Directives(lines, rt))
    decreases |lines|
  {
    if lines != [] {
      RunIsApplyAll(st, lines[..|lines| - 1], rt);
      assert Directives(lines, rt)[..|lines| - 1] == Directives(lines[..|lines| - 1], rt);
    }
  }

  /**
   * The query the lines build: it throws exactly when one line throws; otherwise its filters
   * and sort keys are those the lines push, in source order, the last limit wins, the error
   * is the last one recorded and later lines are still processed, and a layout flag is set
   * exactly when some line sets it.
   */
  lemma RunSummary(st: QueryState, lines: seq<string>, rt: Runtime)
    ensures var ds := Directives(lines, rt);
      (Run(st, lines, rt).Some? <==> forall i :: 0 <= i < |lines| ==> !Classify(lines[i], rt).Throw?)
      && (Run(st, lines, rt).Some? ==>
        var r := Run(st, lines, rt).value;
        r.filters == st.filters + Pushed(ds)
        && r.sorting == st.sorting + PushedSorting(ds)
        && r.limit == (if LastLimit(ds).Some? then LastLimit(ds) else st.limit)
        && r.error == (if LastError(ds).Some? then LastError(ds) else st.error)
        && forall o :: Flag(r.layoutOptions, o) <==> Flag(st.layoutOptions, o) || Hide(o) in ds)
  {
    RunIsApplyAll(st, lines, rt);
    ApplyAllSummary(st, Directives(lines, rt));
    if Run(st, lines, rt).Some? {
      ApplyAllFlags(st, Directives(lines, rt));
    }
  }

  /** Once recorded, an error stays, whatever the later lines. */
  lemma ErrorNeverCleared(st: QueryState, lines: seq<string>, rt: Runtime)
    requires st.error.Some? && Run(st, lines, rt).Some?
    ensures Run(st, lines, rt).value.error.Some?
  {
    RunSummary(st, lines, rt);
  }

  /** A directive that changes nothing may be dropped, wherever it stands. */
  lemma {:induction false} UnchangedDropped(st: QueryState, before: seq<Directive>, after: seq<Directive>)
    ensures ApplyAll(st, before + [Unchanged] + after) == ApplyAll(st, before + after)
    decreases |after|
  {
    if after == [] {
      assert (before + [Unchanged] + after)[..|before|] == before;
      assert before + after == before;
    } else {
      var init := after[..|after| - 1];
      assert (before + [Unchanged] + after)[..|before| + |after|] == before + [Unchanged] + init;
      assert (before + after)[..|before| + |after| - 1] == before + init;
      UnchangedDropped(st, before, init);
    }
  }

  lemma DirectivesSnoc(lines: seq<string>, line: string, rt: Runtime)
    ensures Directives(lines + [line], rt) == Directives(lines, rt) + [Classify(line, rt)]
  {
    var x := lines + [line];
    assert forall i :: 0 <= i < |lines| ==> x[i] == lines[i];
  }

  lemma {:induction false} DirectivesConcat(before: seq<string>, after: seq<string>, rt: Runtime)
    ensures Directives(before + after, rt) == Directives(before, rt) + Directives(after, rt)
    decreases |after|
  {
    if after == [] {
      assert before + after == before;
    } else {
      var init, last := after[..|after| - 1], after[|after| - 1];
      DirectivesConcat(before, init, rt);
      assert before + after == (before + init) + [last];
      DirectivesSnoc(before + init, last, rt);
      assert after == init + [last];
      DirectivesSnoc(init, last, rt);
    }
  }

  /** A blank line changes nothing, wherever it stands. */
  lemma BlankLineChangesNothing(st: QueryState, before: seq<string>, after: seq<string>, rt: Runtime)
    ensures Run(st, before + [""] + after, rt) == Run(st, before + after, rt)
  {
    RunIsApplyAll(st, before + [""] + after, rt);
    RunIsApplyAll(st, before + after, rt);
    DirectivesConcat(before + [""], after, rt);
    DirectivesSnoc(before, "", rt);
    DirectivesConcat(before, after, rt);
    assert Classify("", rt) == Unchanged;
    UnchangedDropped(st, Directives(before, rt), Directives(after, rt));
  }

  // ---------------------------------------------------------------------------------------
  // Particular lines

  /**
   * The exact strings are tested first and compared with `===`: `done` yields the status
   * filter, and a keyword in another case is not understood.
   */
  lemma ExactStrings(st: QueryState, rt: Runtime)
    ensures Step(st, "done", rt) == Some(AddFilter(st, IsDone))
    ensures Step(st, "not done", rt) == Some(AddFilter(st, NotDone))
    ensures Step(st, "is recurring", rt) == Some(AddFilter(st, IsRecurring))
    ensures Step(st, "is not recurring", rt) == Some(AddFilter(st, NotRecurring))
    ensures Step(st, "exclude sub-items", rt) == Some(AddFilter(st, NoSubItems))
    ensures Step(st, "no due date", rt) == Some(AddFilter(st, NoDueDate))
    ensures Step(st, "no due time", rt) == Some(AddFilter(st, NoDueTime))
    ensures Step(st, "Done", rt) == Some(st.(error := Some(NotUnderstood)))
  {
  }

  /** A date filter fails a task without that date; otherwise it compares as its operator says. */
  lemma DateFilterMeaning(field: DateFieldName, operator: Option<string>, parsed: ChronoDate, task: T.Task, locale: Locale)
    ensures var f := DateFilter(field, DateTestOf(operator, parsed));
      var d := DateOfTask(task, field);
      var day := parsed.date;
      (d.None? ==> !Eval(f, task, locale))
      && (d.Some? ==> var t := d.value; (Eval(f, task, locale) ==
        if operator == Some("before") then (if parsed.hourCertain then t < day else Day(t) < Day(day))
        else if operator == Some("after") then (if parsed.hourCertain then t > day else Day(t) > Day(day))
        else if parsed.hourCertain then t == day
        else Day(t) == Day(day)))
  {
    var d := DateOfTask(task, field);
    if d.Some? {
      BeforeStartOfDay(d.value, parsed.date);
      AfterEndOfDay(d.value, parsed.date);
    }
  }

  lemma NoLineTerminator(text: string)
    requires All(text, NotLineTerminator)
    ensures RestOfLine(text) == text
  {
    SpanConcat(text, [], NotLineTerminator);
    assert text + [] == text;
  }

  /** `s` does not begin with `p` when they differ at a position both have. */
  lemma Differs(s: string, p: string, i: nat)
    requires i < |s| && i < |p| && s[i] != p[i]
    ensures !StartsWith(s, p)
  {
    StartsWithIs(s, p);
    if |p| <= |s| {
      assert s[..|p|][i] == s[i];
    }
  }

  lemma StartsWithConcat(p: string, rest: string)
    ensures StartsWith(p + rest, p)
  {
    StartsWithIs(p + rest, p);
    assert (p + rest)[..|p|] == p;
  }

  /** The alternative `FirstPrefix` picks is the first one that is a prefix. */
  lemma FirstPrefixAt(s: string, alts: seq<string>, k: nat)
    requires k < |alts| && StartsWith(s, alts[k])
    requires forall j :: 0 <= j < k ==> !StartsWith(s, alts[j])
    ensures FirstPrefix(s, alts, 0) == Some(k)
  {
  }

  /** A line that is none of the exact strings goes to the patterns. */
  lemma ToPatterns(line: string, rt: Runtime)
    requires line != [] && line != "done" && line[0] != 'n' && line[0] != 'i' && line[0] != 'e'
    ensures Classify(line, rt) == ClassifyPattern(line, rt)
  {
  }

  /** No operator is a prefix of an earlier one: the operator a line starts with is found. */
  lemma OperatorFirst(i: nat, tail: string)
    requires i < |DateOperators|
    ensures FirstPrefix(DateOperators[i] + tail, DateOperators, 0) == Some(i)
  {
    var rest := DateOperators[i] + tail;
    StartsWithConcat(DateOperators[i], tail);
    assert FirstPrefix(rest, DateOperators, i) == Some(i);
    assert DateOperators[0][0] == 'b' && DateOperators[1][0] == 'a' && DateOperators[2][0] == 'o';
    assert rest[0] == DateOperators[i][0];
    if i == 1 {
      FirstPrefixSkip(rest, DateOperators, 0, 0);
    } else if i == 2 {
      FirstPrefixSkip(rest, DateOperators, 1, 0);
      FirstPrefixSkip(rest, DateOperators, 0, 0);
    }
  }

  /** The date groups of an operator, a space and a text, or of a text that starts with no operator. */
  lemma DateGroupsOf(operator: Option<string>, text: string)
    requires operator.None? || operator.value in DateOperators
    requires All(text, NotLineTerminator) && (text == [] || text[0] != ' ')
    requires operator.None? ==> forall j :: 0 <= j < |DateOperators| ==> !StartsWith(text, DateOperators[j])
    ensures DateGroups((if operator.Some? then operator.value + " " else "") + text) == DateMatch(operator, text)
  {
    var rest := (if operator.Some? then operator.value + " " else "") + text;
    NoLineTerminator(text);
    if operator.Some? {
      var op := operator.value;
      var i :| 0 <= i < |DateOperators| && DateOperators[i] == op;
      assert rest == op + (" " + text);
      assert FirstPrefix(rest, DateOperators, 0) == Some(i) by {
        OperatorFirst(i, " " + text);
      }
      assert rest[|op|..][1..] == text;
    } else {
      assert rest == text;
      assert FirstPrefix(rest, DateOperators, 0).None?;
    }
  }

  /** The matcher of `due` or `done` lines reads the operator and the text after it. */
  lemma MatchDateLineOf(field: DateFieldName, operator: Option<string>, text: string)
    requires operator.None? || operator.value in DateOperators
    requires All(text, NotLineTerminator) && (text == [] || text[0] != ' ')
    requires operator.None? ==> forall j :: 0 <= j < |DateOperators| ==> !StartsWith(text, DateOperators[j])
    ensures var line := DateHead(field) + ((if operator.Some? then operator.value + " " else "") + text);
      MatchDateLine(line, DateHead(field)) == Some(DateMatch(operator, text))
  {
    var head := DateHead(field);
    var rest := (if operator.Some? then operator.value + " " else "") + text;
    StartsWithConcat(head, rest);
    assert (head + rest)[|head|..] == rest;
    DateGroupsOf(operator, text);
  }

  /** A line that the pattern of a date field matches, and no pattern tested before it, goes to that field's parser. */
  lemma PatternDate(line: string, field: DateFieldName, rt: Runtime)
    requires field == DoneDate ==> MatchDateLine(line, "due ").None?
    requires MatchDateLine(line, DateHead(field)).Some?
    ensures ClassifyPattern(line, rt) == DateDirective(line, field, rt)
  {
  }

  /** The only pattern tested before a date line's own is the due pattern, which a done line fails. */
  lemma DateHeads(field: DateFieldName, rest: string)
    ensures var line := DateHead(field) + rest;
      line != [] && line != "done" && line[0] == 'd' && (field == DoneDate ==> !StartsWith(line, "due "))
  {
    var line := DateHead(field) + rest;
    assert line[..|DateHead(field)|] == DateHead(field);
    if field == DoneDate {
      Differs(line, "due ", 1);
    } else {
      assert line[1] != "done"[1];
    }
  }

  /** `due before D`, `due after D`, `due on D` and `due D` (and their `done` forms) add one date filter. */
  lemma DateLine(st: QueryState, field: DateFieldName, operator: Option<string>, text: string, rt: Runtime)
    requires operator.None? || operator.value in DateOperators
    requires All(text, NotLineTerminator) && (text == [] || text[0] != ' ')
    requires operator.None? ==> forall j :: 0 <= j < |DateOperators| ==> !StartsWith(text, DateOperators[j])
    requires rt.chrono.parse(text).Some?
    ensures var line := DateHead(field) + ((if operator.Some? then operator.value + " " else "") + text);
      Step(st, line, rt) == Some(AddFilter(st, DateFilter(field, DateTestOf(operator, rt.chrono.parse(text).value))))
  {
    var line := DateHead(field) + ((if operator.Some? then operator.value + " " else "") + text);
    assert Classify(line, rt) == Push(DateFilter(field, DateTestOf(operator, rt.chrono.parse(text).value))) by {
      DateHeads(field, (if operator.Some? then operator.value + " " else "") + text);
      MatchDateLineOf(field, operator, text);
      PatternDate(line, field, rt);
      ToPatterns(line, rt);
    }
  }

  /** The text groups of a method, its space and a text. */
  lemma TextGroupsOf(includes: bool, needle: string)
    requires All(needle, NotLineTerminator)
    ensures TextGroups((if includes then "includes " else "does not include ") + needle)
      == Some(TextMatch(if includes then "includes" else "does not include", needle))
  {
    var word := if includes then "includes " else "does not include ";
    StartsWithConcat(word, needle);
    assert (word + needle)[|word|..] == needle;
    if !includes {
      Differs(word + needle, "includes ", 0);
    }
    NoLineTerminator(needle);
  }

  /** The matcher of `path` or `description` lines reads the method and the text after it. */
  lemma MatchTextLineOf(text: TextField, includes: bool, needle: string)
    requires All(needle, NotLineTerminator)
    ensures var line := TextHead(text) + ((if includes then "includes " else "does not include ") + needle);
      MatchTextLine(line, TextHead(text)) == Some(TextMatch(if includes then "includes" else "does not include", needle))
  {
    var head := TextHead(text);
    var rest := (if includes then "includes " else "does not include ") + needle;
    StartsWithConcat(head, rest);
    assert (head + rest)[|head|..] == rest;
    TextGroupsOf(includes, needle);
  }

  /** A line that only the path or description pattern matches goes to that filter's parser. */
  lemma PatternText(line: string, text: TextField, rt: Runtime)
    requires MatchDateLine(line, "due ").None? && MatchDateLine(line, "done ").None?
    requires text == DescriptionText ==> MatchTextLine(line, "path ").None?
    requires MatchTextLine(line, TextHead(text)).Some?
    ensures ClassifyPattern(line, rt) == TextDirective(line, text)
  {
  }

  /** A path or description line fails the patterns tested before its own. */
  lemma TextHeads(text: TextField, rest: string)
    ensures var line := TextHead(text) + rest;
      line != [] && (line[0] == 'p' || line[0] == 'd') && line[1] != 'o'
      && !StartsWith(line, "due ") && !StartsWith(line, "done ")
      && (text == DescriptionText ==> !StartsWith(line, "path "))
  {
    var line := TextHead(text) + rest;
    assert line[..|TextHead(text)|] == TextHead(text);
    Differs(line, "due ", 1);
    Differs(line, "done ", 1);
    if text == DescriptionText {
      Differs(line, "path ", 0);
    }
  }

  /** `path includes X`, `description does not include X` and the like add one text filter. */
  lemma TextLine(st: QueryState, text: TextField, includes: bool, needle: string, rt: Runtime)
    requires All(needle, NotLineTerminator)
    ensures var line := TextHead(text) + ((if includes then "includes " else "does not include ") + needle);
      Step(st, line, rt) == Some(AddFilter(st, TextFilter(text, includes, needle)))
  {
    var line := TextHead(text) + ((if includes then "includes " else "does not include ") + needle);
    assert Classify(line, rt) == Push(TextFilter(text, includes, needle)) by {
      TextHeads(text, (if includes then "includes " else "does not include ") + needle);
      MatchTextLineOf(text, includes, needle);
      PatternText(line, text, rt);
      ToPatterns(line, rt);
    }
  }

  /** The heading pattern reads the method and the text after it. */
  lemma MatchHeadingLineOf(includes: bool, needle: string)
    requires All(needle, NotLineTerminator)
    ensures var line := "heading " + ((if includes then "includes " else "does not include ") + needle);
      MatchTextLine(line, "heading ") == Some(TextMatch(if includes then "includes" else "does not include", needle))
  {
    var rest := (if includes then "includes " else "does not include ") + needle;
    StartsWithConcat("heading ", rest);
    assert ("heading " + rest)[8..] == rest;
    TextGroupsOf(includes, needle);
  }

  /** A line the heading pattern matches fails the patterns tested before it and goes to `parseHeadingFilter`. */
  lemma PatternHeading(line: string, rt: Runtime)
    requires MatchTextLine(line, "heading ").Some?
    ensures line[0] == 'h' && line[1] == 'e'
    ensures ClassifyPattern(line, rt) == HeadingDirective(line, rt)
  {
    StartsWithIs(line, "heading ");
    assert line[..8] == "heading ";
    assert line[0] == line[..8][0] && line[1] == line[..8][1];
    Differs(line, "due ", 0);
    Differs(line, "done ", 0);
    Differs(line, "path ", 0);
    Differs(line, "description ", 0);
  }

  /**
   * `heading includes X` and `heading does not include X` add one heading filter, provided
   * the locale leaves the lower-case method as it is.
   */
  lemma HeadingLine(st: QueryState, includes: bool, needle: string, rt: Runtime)
    requires All(needle, NotLineTerminator)
    requires var word := if includes then "includes" else "does not include";
      rt.locale.lowerCase(word) == word
    ensures var line := "heading " + ((if includes then "includes " else "does not include ") + needle);
      Step(st, line, rt) == Some(AddFilter(st, HeadingFilter(includes, needle)))
  {
    var line := "heading " + ((if includes then "includes " else "does not include ") + needle);
    assert Classify(line, rt) == Push(HeadingFilter(includes, needle)) by {
      MatchHeadingLineOf(includes, needle);
      PatternHeading(line, rt);
      ToPatterns(line, rt);
    }
  }

  /** Path and description filters and their negations are complements; a task without heading fails `includes`. */
  lemma IncludesComplement(text: TextField, needle: string, task: T.Task, locale: Locale)
    ensures Eval(TextFilter(text, false, needle), task, locale) == !Eval(TextFilter(text, true, needle), task, locale)
    ensures Eval(HeadingFilter(false, needle), task, locale) == !Eval(HeadingFilter(true, needle), task, locale)
    ensures task.precedingHeader.None? ==> !Eval(HeadingFilter(true, needle), task, locale)
  {
  }

  lemma {:induction false} DecimalDigits(digits: string, suffix: string)
    requires digits != [] && All(digits, IsDigit) && (suffix == [] || !IsDigit(suffix[0]))
    ensures Span(digits + suffix, IsDigit) == |digits| && (digits + suffix)[..|digits|] == digits
  {
    SpanConcat(digits, suffix, IsDigit);
  }

  /** A line that begins with neither `d`, `p` nor `he` fails the date and text patterns. */
  lemma OtherHeads(line: string)
    requires |line| >= 2 && (line[0] == 'l' || line[0] == 's' || (line[0] == 'h' && line[1] == 'i'))
    ensures MatchDateLine(line, "due ").None? && MatchDateLine(line, "done ").None?
    ensures MatchTextLine(line, "path ").None? && MatchTextLine(line, "description ").None?
    ensures MatchTextLine(line, "heading ").None?
    ensures line[0] != 'l' ==> MatchLimitLine(line).None?
    ensures line[0] == 'h' ==> MatchSortLine(line).None?
  {
    Differs(line, "due ", 0);
    Differs(line, "done ", 0);
    Differs(line, "path ", 0);
    Differs(line, "description ", 0);
    Differs(line, "heading ", if line[0] == 'h' then 1 else 0);
    if line[0] != 'l' {
      Differs(line, "limit ", 0);
    }
    if line[0] == 'h' {
      Differs(line, "sort by ", 0);
    }
  }

  /** The matcher of `limit` lines reads the digits, after an optional `to `. */
  lemma MatchLimitLineOf(to: bool, digits: string, suffix: string)
    requires digits != [] && All(digits, IsDigit) && (suffix == [] || !IsDigit(suffix[0]))
    ensures MatchLimitLine("limit " + ((if to then "to " else "") + (digits + suffix))) == Some(digits)
  {
    var rest := (if to then "to " else "") + (digits + suffix);
    StartsWithConcat("limit ", rest);
    assert ("limit " + rest)[6..] == rest;
    DecimalDigits(digits, suffix);
    if to {
      StartsWithConcat("to ", digits + suffix);
      assert rest[3..] == digits + suffix;
    } else {
      assert rest == digits + suffix;
      assert rest[0] == digits[0];
      Differs(rest, "to ", 0);
    }
  }

  /** A line that the limit pattern matches, and no pattern tested before it, goes to `parseLimit`. */
  lemma PatternLimit(line: string, rt: Runtime)
    requires MatchDateLine(line, "due ").None? && MatchDateLine(line, "done ").None?
    requires MatchTextLine(line, "path ").None? && MatchTextLine(line, "description ").None?
    requires MatchTextLine(line, "heading ").None?
    requires MatchLimitLine(line).Some?
    ensures ClassifyPattern(line, rt) == LimitDirective(line)
  {
  }

  /** `limit N`, `limit to N` and either with ` tasks` after it set the limit to the number N spells. */
  lemma LimitLine(st: QueryState, to: bool, digits: string, suffix: string, rt: Runtime)
    requires digits != [] && All(digits, IsDigit) && (suffix == [] || !IsDigit(suffix[0]))
    ensures Step(st, "limit " + ((if to then "to " else "") + (digits + suffix)), rt)
      == Some(st.(limit := Some(DecimalValue(digits))))
  {
    var line := "limit " + ((if to then "to " else "") + (digits + suffix));
    assert Classify(line, rt) == SetLimit(DecimalValue(digits)) by {
      assert line[0] == 'l' && line[1] == 'i';
      OtherHeads(line);
      MatchLimitLineOf(to, digits, suffix);
      PatternLimit(line, rt);
      ToPatterns(line, rt);
    }
  }

  /** The layout flag of an option. */
  predicate Flag(l: T.LayoutOptions, o: HideOption) {
    match o
    case TaskCount => l.hideTaskCount
    case Backlink => l.hideBacklinks
    case DoneDateOption => l.hideDoneDate
    case DoneTimeOption => l.hideDoneTime
    case DueDateOption => l.hideDueDate
    case DueTimeOption => l.hideDueTime
    case RecurrenceRuleOption => l.hideRecurrenceRule
    case EditButton => l.hideEditButton
  }

  /** Setting the flag of an option sets that flag and no other. */
  lemma SetFlagExactly(l: T.LayoutOptions, o: HideOption, other: HideOption)
    ensures Flag(SetFlag(l, o), o)
    ensures other != o ==> Flag(SetFlag(l, o), other) == Flag(l, other)
  {
  }

  /** Skipping an alternative that is not a prefix. */
  lemma FirstPrefixSkip(s: string, alts: seq<string>, j: nat, i: nat)
    requires j < |alts| && i < |s| && i < |alts[j]| && s[i] != alts[j][i]
    ensures FirstPrefix(s, alts, j) == FirstPrefix(s, alts, j + 1)
  {
    Differs(s, alts[j], i);
  }

  /** The characters of the hide names that tell them apart. */
  lemma HideNamesSpelling()
    ensures forall j :: 0 <= j < |HideNames| ==> |HideNames[j]| >= 8
    ensures HideNames[0][0] == 't' && HideNames[1][0] == 'b' && HideNames[6][0] == 'r' && HideNames[7][0] == 'e'
    ensures HideNames[2][0] == 'd' && HideNames[3][0] == 'd' && HideNames[4][0] == 'd' && HideNames[5][0] == 'd'
    ensures HideNames[2][1] == 'o' && HideNames[3][1] == 'o' && HideNames[4][1] == 'u' && HideNames[5][1] == 'u'
    ensures HideNames[2][5] == 'd' && HideNames[3][5] == 't' && HideNames[4][4] == 'd' && HideNames[5][4] == 't'
  {
  }

  /** `HideFirst` for `task count`, `backlink`, `done date` and `done time`. */
  lemma HideFirstDone(k: nat, rest: string)
    requires k < 4
    ensures FirstPrefix(HideNames[k] + rest, HideNames, 0) == Some(k)
  {
    var s := HideNames[k] + rest;
    HideNamesSpelling();
    StartsWithConcat(HideNames[k], rest);
    assert s[0] == HideNames[k][0] && s[5] == HideNames[k][5];
    assert FirstPrefix(s, HideNames, k) == Some(k);
    if k == 3 {
      FirstPrefixSkip(s, HideNames, 2, 5);
    }
    if k >= 2 {
      FirstPrefixSkip(s, HideNames, 1, 0);
    }
    if k >= 1 {
      FirstPrefixSkip(s, HideNames, 0, 0);
    }
  }

  /** `HideFirst` for `due date` and `due time`. */
  lemma HideFirstDue(k: nat, rest: string)
    requires 4 <= k < 6
    ensures FirstPrefix(HideNames[k] + rest, HideNames, 0) == Some(k)
  {
    var s := HideNames[k] + rest;
    HideNamesSpelling();
    StartsWithConcat(HideNames[k], rest);
    assert s[0] == HideNames[k][0] && s[1] == HideNames[k][1] && s[4] == HideNames[k][4];
    assert FirstPrefix(s, HideNames, k) == Some(k);
    if k == 5 {
      FirstPrefixSkip(s, HideNames, 4, 4);
    }
    FirstPrefixSkip(s, HideNames, 3, 1);
    FirstPrefixSkip(s, HideNames, 2, 1);
    FirstPrefixSkip(s, HideNames, 1, 0);
    FirstPrefixSkip(s, HideNames, 0, 0);
  }

  /** `HideFirst` for `recurrence rule` and `edit button`. */
  lemma HideFirstLast(k: nat, rest: string)
    requires 6 <= k < 8
    ensures FirstPrefix(HideNames[k] + rest, HideNames, 0) == Some(k)
  {
    var s := HideNames[k] + rest;
    HideNamesSpelling();
    StartsWithConcat(HideNames[k], rest);
    assert s[0] == HideNames[k][0];
    assert FirstPrefix(s, HideNames, k) == Some(k);
    if k == 7 {
      FirstPrefixSkip(s, HideNames, 6, 0);
    }
    FirstPrefixSkip(s, HideNames, 5, 0);
    FirstPrefixSkip(s, HideNames, 4, 0);
    FirstPrefixSkip(s, HideNames, 3, 0);
    FirstPrefixSkip(s, HideNames, 2, 0);
    FirstPrefixSkip(s, HideNames, 1, 0);
    FirstPrefixSkip(s, HideNames, 0, 0);
  }

  /** Each hide option is the first alternative of the pattern that begins what follows `hide `. */
  lemma HideFirst(k: nat, rest: string)
    requires k < |HideNames|
    ensures FirstPrefix(HideNames[k] + rest, HideNames, 0) == Some(k)
  {
    if k < 4 {
      HideFirstDone(k, rest);
    } else if k < 6 {
      HideFirstDue(k, rest);
    } else {
      HideFirstLast(k, rest);
    }
  }

  /** The names have no space at either end, so `trim` keeps them. */
  lemma HideNameTrimmed(o: HideOption)
    ensures Trim(HideName(o)) == HideName(o)
  {
    TrimTrimmed(HideName(o));
  }

  /** The `if` chain recognises every option by its name. */
  lemma HideOptionOfName(o: HideOption)
    ensures HideOptionOf(HideName(o)) == Some(o)
  {
    match o
    case DoneTimeOption => assert HideName(o)[5] != "done date"[5];
    case DueTimeOption => assert HideName(o)[4] != "due date"[4];
    case _ =>
  }

  /** A line that only the hide pattern matches goes to `parseHideOptions`. */
  lemma PatternHide(line: string, rt: Runtime)
    requires MatchDateLine(line, "due ").None? && MatchDateLine(line, "done ").None?
    requires MatchTextLine(line, "path ").None? && MatchTextLine(line, "description ").None?
    requires MatchTextLine(line, "heading ").None?
    requires MatchLimitLine(line).None? && MatchSortLine(line).None?
    requires MatchHideLine(line).Some?
    ensures ClassifyPattern(line, rt) == HideDirective(line, rt)
  {
  }

  /** `hide X` sets the flag for X and changes nothing else, whatever follows X. */
  lemma HideLine(st: QueryState, o: HideOption, rest: string, rt: Runtime)
    requires rt.locale.lowerCase(HideName(o)) == HideName(o)
    ensures Step(st, "hide " + (HideName(o) + rest), rt) == Some(st.(layoutOptions := SetFlag(st.layoutOptions, o)))
  {
    var line := "hide " + (HideName(o) + rest);
    assert Classify(line, rt) == Hide(o) by {
      StartsWithConcat("hide ", HideName(o) + rest);
      assert line[5..] == HideName(o) + rest;
      HideFirst(HideIndex(o), rest);
      assert MatchHideLine(line) == Some(HideName(o));
      HideNameTrimmed(o);
      HideOptionOfName(o);
      assert line[0] == 'h' && line[1] == 'i';
      OtherHeads(line);
      PatternHide(line, rt);
      ToPatterns(line, rt);
    }
  }

  /** Each sort key is the first alternative of the pattern that begins what follows `sort by `. */
  lemma SortFirst(k: nat, rest: string)
    requires k < |SortNames|
    ensures FirstPrefix(SortNames[k] + rest, SortNames, 0) == Some(k)
  {
    var s := SortNames[k] + rest;
    StartsWithConcat(SortNames[k], rest);
    if k == 1 {
      Differs(s, SortNames[0], 0);
    } else if k == 2 {
      Differs(s, SortNames[0], 0);
      Differs(s, SortNames[1], 1);
    } else if k == 3 {
      Differs(s, SortNames[0], 0);
      Differs(s, SortNames[1], 0);
      Differs(s, SortNames[2], 0);
    } else if k == 4 {
      Differs(s, SortNames[0], 0);
      Differs(s, SortNames[1], 1);
      Differs(s, SortNames[2], 1);
      Differs(s, SortNames[3], 0);
    }
    FirstPrefixAt(s, SortNames, k);
  }

  /** A line that the sort pattern matches, and no pattern tested before it, goes to `parseSortBy`. */
  lemma PatternSort(line: string, rt: Runtime)
    requires MatchDateLine(line, "due ").None? && MatchDateLine(line, "done ").None?
    requires MatchTextLine(line, "path ").None? && MatchTextLine(line, "description ").None?
    requires MatchTextLine(line, "heading ").None?
    requires MatchLimitLine(line).None? && MatchSortLine(line).Some?
    ensures ClassifyPattern(line, rt) == SortDirective(line)
  {
  }

  /** `sort by K` appends the key K to the sorting, whatever follows K. */
  lemma SortLine(st: QueryState, k: nat, rest: string, rt: Runtime)
    requires k < |SortNames|
    ensures Step(st, "sort by " + (SortNames[k] + rest), rt) == Some(st.(sorting := st.sorting + [SortKeys[k]]))
  {
    var line := "sort by " + (SortNames[k] + rest);
    assert Classify(line, rt) == PushSorting(SortKeys[k]) by {
      StartsWithConcat("sort by ", SortNames[k] + rest);
      assert line[8..] == SortNames[k] + rest;
      SortFirst(k, rest);
      assert MatchSortLine(line) == Some(SortKeys[k]);
      assert line[0] == 's' && line[1] == 'o';
      OtherHeads(line);
      PatternSort(line, rt);
      ToPatterns(line, rt);
    }
  }

  /** Sort lines give their keys in source order. */
  lemma TwoSortLines(st: QueryState, i: nat, j: nat, rt: Runtime)
    requires i < |SortNames| && j < |SortNames|
    ensures Run(st, ["sort by " + (SortNames[i] + ""), "sort by " + (SortNames[j] + "")], rt)
      == Some(st.(sorting := st.sorting + [SortKeys[i], SortKeys[j]]))
  {
    var lines := ["sort by " + (SortNames[i] + ""), "sort by " + (SortNames[j] + "")];
    SortLine(st, i, "", rt);
    SortLine(st.(sorting := st.sorting + [SortKeys[i]]), j, "", rt);
    assert lines[..1] == [lines[0]];
    assert [lines[0]][..0] == [];
    assert Run(st, [lines[0]], rt) == Step(st, lines[0], rt);
    assert st.sorting + [SortKeys[i]] + [SortKeys[j]] == st.sorting + [SortKeys[i], SortKeys[j]];
  }
}
