/**
 * A task is one checklist line of a note (src/Task.ts): `fromLine` reads it, `toString` and
 * `toFileLineString` write it back, and `toggle` checks or unchecks it, creating the next
 * occurrence of a recurring task.
 */
module Tasks {
  import opened Wrappers
  import opened JsStrings
  import opened Moments
  import opened Libraries

  datatype Status = Todo | Done

  /** The string value of the `Status` enum. */
  function StatusName(s: Status): string {
    match s
    case Todo => "Todo"
    case Done => "Done"
  }

  /** src/LayoutOptions.ts: which parts of a task a query hides. */
  datatype LayoutOptions = LayoutOptions(
    hideTaskCount: bool,
    hideBacklinks: bool,
    hideDoneDate: bool,
    hideDoneTime: bool,
    hideDueDate: bool,
    hideDueTime: bool,
    hideRecurrenceRule: bool,
    hideEditButton: bool)

  const DefaultLayout: LayoutOptions := LayoutOptions(false, false, false, false, false, false, false, false)

  /**
   * The settings object as src/Task.ts reads it: lists of formats, and lists of signifiers
   * for due dates, done dates and recurrence rules under keys the settings record does not
   * declare.
   */
  datatype Config = Config(
    globalFilter: string,
    doneTime: bool,
    dateFormats: seq<string>,
    timeFormat: string,
    dateTimeFormats: seq<string>,
    dueDateSignifiers: seq<string>,
    doneDateSignifiers: seq<string>,
    recurrenceSignifiers: seq<string>)

  datatype Task = Task(
    status: Status,
    description: string,
    path: string,
    indentation: string,
    sectionStart: nat,
    sectionIndex: nat,
    originalStatusCharacter: string,
    precedingHeader: Option<string>,
    dueDateTime: Option<Moment>,
    hasDueTime: bool,
    doneDateTime: Option<Moment>,
    hasDoneTime: bool,
    recurrenceRule: Option<RRule>,
    blockLink: string)

  // ---------------------------------------------------------------------------------------
  // `taskRegex`: ^([\s\t]*)[-*] +\[(.)\] *(.*)

  predicate IsBullet(c: char) {
    c == '-' || c == '*'
  }

  /** The pieces of a line the task pattern matches, in order; `rest` is what `(.*)` leaves. */
  datatype TaskLineMatch = TaskLineMatch(
    indentation: string,
    bullet: char,
    gap: string,
    statusCharacter: char,
    pad: string,
    body: string,
    rest: string)

  function Assemble(m: TaskLineMatch): string {
    m.indentation + ([m.bullet] + (m.gap + (['[', m.statusCharacter, ']'] + (m.pad + (m.body + m.rest)))))
  }

  /** The pieces as the greedy pattern splits them. */
  predicate WellFormed(m: TaskLineMatch) {
    All(m.indentation, IsWhitespace) && IsBullet(m.bullet)
    && |m.gap| >= 1 && All(m.gap, IsSpace)
    && !IsLineTerminator(m.statusCharacter)
    && All(m.pad, IsSpace) && (m.body == [] || m.body[0] != ' ')
    && All(m.body, NotLineTerminator) && (m.rest == [] || IsLineTerminator(m.rest[0]))
  }

  /** `line.match(Task.taskRegex)`, each quantifier taking as much as it can. */
  function MatchTaskLine(line: string): Option<TaskLineMatch> {
    var a := Span(line, IsWhitespace);
    var t1 := line[a..];
    if t1 != [] && IsBullet(t1[0]) then
      var t2 := t1[1..];
      var g := Span(t2, IsSpace);
      var t3 := t2[g..];
      if g >= 1 && |t3| >= 3 && t3[0] == '[' && !IsLineTerminator(t3[1]) && t3[2] == ']' then
        var t5 := t3[3..];
        var q := Span(t5, IsSpace);
        var t6 := t5[q..];
        var e := Span(t6, NotLineTerminator);
        Some(TaskLineMatch(line[..a], t1[0], t2[..g], t3[1], t5[..q], t6[..e], t6[e..]))
      else None
    else None
  }

  lemma PrefixAll(s: string, n: nat, p: char -> bool)
    requires n <= |s|
    requires forall i :: 0 <= i < n ==> p(s[i])
    ensures All(s[..n], p)
  {
  }

  lemma Bracketed(t: string)
    requires |t| >= 3 && t[0] == '[' && t[2] == ']'
    ensures t[..3] == ['[', t[1], ']']
  {
  }

  lemma FirstOf(t: string)
    requires |t| >= 1
    ensures t[..1] == [t[0]]
  {
  }

  /** The part after the brackets, split greedily, gives a padding, body and rest of the right shape. */
  lemma TailWellFormed(t5: string)
    ensures var q := Span(t5, IsSpace); var t6 := t5[q..]; var e := Span(t6, NotLineTerminator);
      All(t5[..q], IsSpace) && (t6[..e] == [] || t6[..e][0] != ' ')
      && All(t6[..e], NotLineTerminator) && (t6[e..] == [] || IsLineTerminator(t6[e..][0]))
  {
    var q := Span(t5, IsSpace);
    var t6 := t5[q..];
    var e := Span(t6, NotLineTerminator);
    PrefixAll(t5, q, IsSpace);
    PrefixAll(t6, e, NotLineTerminator);
    assert t6[..e] != [] ==> t6[..e][0] == t6[0];
  }

  /** A match splits the line into well-formed pieces ... */
  lemma MatchTaskLineWellFormed(line: string)
    requires MatchTaskLine(line).Some?
    ensures WellFormed(MatchTaskLine(line).value)
  {
    var a := Span(line, IsWhitespace);
    var t1 := line[a..];
    var t2 := t1[1..];
    var g := Span(t2, IsSpace);
    var t3 := t2[g..];
    var t5 := t3[3..];
    var q := Span(t5, IsSpace);
    var t6 := t5[q..];
    var e := Span(t6, NotLineTerminator);
    assert MatchTaskLine(line).value == TaskLineMatch(line[..a], t1[0], t2[..g], t3[1], t5[..q], t6[..e], t6[e..]);
    PrefixAll(line, a, IsWhitespace);
    PrefixAll(t2, g, IsSpace);
    TailWellFormed(t5);
  }

  /** ... that make it up again. */
  lemma MatchTaskLineAssembles(line: string)
    requires MatchTaskLine(line).Some?
    ensures Assemble(MatchTaskLine(line).value) == line
  {
    var a := Span(line, IsWhitespace);
    var t1 := line[a..];
    var t2 := t1[1..];
    var g := Span(t2, IsSpace);
    var t3 := t2[g..];
    var t5 := t3[3..];
    var q := Span(t5, IsSpace);
    var t6 := t5[q..];
    var e := Span(t6, NotLineTerminator);
    assert MatchTaskLine(line).value == TaskLineMatch(line[..a], t1[0], t2[..g], t3[1], t5[..q], t6[..e], t6[e..]);
    SplitAt(t6, e);
    SplitAt(t5, q);
    SplitAt(t3, 3);
    Bracketed(t3);
    SplitAt(t2, g);
    SplitAt(t1, 1);
    FirstOf(t1);
    SplitAt(line, a);
  }

  /** The part after the brackets splits back into the padding, the body and the rest. */
  lemma TailPieces(pad: string, body: string, rest: string)
    requires All(pad, IsSpace) && (body == [] || body[0] != ' ')
    requires All(body, NotLineTerminator) && (rest == [] || IsLineTerminator(rest[0]))
    ensures var t5 := pad + (body + rest);
      Span(t5, IsSpace) == |pad| && t5[..|pad|] == pad && t5[|pad|..] == body + rest
    ensures Span(body + rest, NotLineTerminator) == |body|
      && (body + rest)[..|body|] == body && (body + rest)[|body|..] == rest
  {
    var t6 := body + rest;
    assert t6 == [] || t6[0] != ' ' by {
      if body == [] && rest != [] {
        assert t6[0] == rest[0];
      }
    }
    SpanConcat(pad, t6, IsSpace);
    ConcatParts(pad, t6);
    SpanConcat(body, rest, NotLineTerminator);
    ConcatParts(body, rest);
  }

  /** The part up to the brackets splits back into the indentation, the bullet, the gap and the bracketed character. */
  lemma HeadPieces(m: TaskLineMatch)
    requires WellFormed(m)
    ensures var t3 := ['[', m.statusCharacter, ']'] + (m.pad + (m.body + m.rest));
      var t2 := m.gap + t3;
      var t1 := [m.bullet] + t2;
      var line := Assemble(m);
      Span(line, IsWhitespace) == |m.indentation| && line[..|m.indentation|] == m.indentation
      && line[|m.indentation|..] == t1 && t1[0] == m.bullet && t1[1..] == t2
      && Span(t2, IsSpace) == |m.gap| && t2[..|m.gap|] == m.gap && t2[|m.gap|..] == t3
      && |t3| >= 3 && t3[0] == '[' && t3[1] == m.statusCharacter && t3[2] == ']'
      && t3[3..] == m.pad + (m.body + m.rest)
  {
    var t5 := m.pad + (m.body + m.rest);
    var t3 := ['[', m.statusCharacter, ']'] + t5;
    var t2 := m.gap + t3;
    var t1 := [m.bullet] + t2;
    assert Assemble(m) == m.indentation + t1;
    SpanConcat(m.indentation, t1, IsWhitespace);
    ConcatParts(m.indentation, t1);
    ConcatParts([m.bullet], t2);
    SpanConcat(m.gap, t3, IsSpace);
    ConcatParts(m.gap, t3);
    ConcatParts(['[', m.statusCharacter, ']'], t5);
  }

  /** Every line made of well-formed pieces is matched, and split into exactly those pieces. */
  lemma MatchTaskLineComplete(m: TaskLineMatch)
    requires WellFormed(m)
    ensures MatchTaskLine(Assemble(m)) == Some(m)
  {
    HeadPieces(m);
    TailPieces(m.pad, m.body, m.rest);
  }

  /** A line is rejected exactly when no well-formed pieces make it up. */
  lemma MatchTaskLineNone(line: string, m: TaskLineMatch)
    requires MatchTaskLine(line).None?
    requires WellFormed(m)
    ensures Assemble(m) != line
  {
    MatchTaskLineComplete(m);
  }

  // ---------------------------------------------------------------------------------------
  // `blockLinkRegex`: / \^[a-zA-Z0-9-]+$/

  predicate IsIdChar(c: char) {
    ('a' <= c <= 'z') || ('A' <= c <= 'Z') || ('0' <= c <= '9') || c == '-'
  }

  /** A block link as the pattern matches it: a space, a caret and one or more id characters. */
  predicate IsBlockLink(t: string) {
    |t| >= 3 && t[0] == ' ' && t[1] == '^' && All(t[2..], IsIdChar)
  }

  /** Where the block link starts, or None when `s` does not end in one. */
  function BlockLinkStart(s: string): Option<nat> {
    var n := TrailingSpan(s, IsIdChar);
    if n >= 1 && n + 2 <= |s| && s[|s| - n - 1] == '^' && s[|s| - n - 2] == ' ' then Some(|s| - n - 2) else None
  }

  /** The block link found is one, and it is the only index from which the rest of `s` is one. */
  lemma BlockLinkStartUnique(s: string)
    ensures BlockLinkStart(s).Some? ==> BlockLinkStart(s).value <= |s| && IsBlockLink(s[BlockLinkStart(s).value..])
    ensures forall j :: 0 <= j <= |s| && IsBlockLink(s[j..]) ==> BlockLinkStart(s) == Some(j)
  {
    var n := TrailingSpan(s, IsIdChar);
    var r := BlockLinkStart(s);
    assert r.Some? ==> s[r.value..][2..] == s[|s| - n..];
    forall j | 0 <= j <= |s| && IsBlockLink(s[j..])
      ensures r == Some(j)
    {
      var a := s[..j + 2];
      var b := s[j + 2..];
      SplitAt(s, j + 2);
      assert b == s[j..][2..];
      assert a[|a| - 1] == s[j..][1];
      TrailingSpanConcat(a, b, IsIdChar);
      assert s[j] == s[j..][0];
    }
  }

  // ---------------------------------------------------------------------------------------
  // The signifier patterns `(?:s1|s2|...) ?(.+)$` and `(?:s1|s2|...)([a-zA-Z0-9, !]+)$`.
  // Each signifier is passed through `escapeRegExp`, so each alternative matches itself.

  /** The alternatives of `'(?:' + signifiers.join('|') + ')'`; an empty list leaves `(?:)`. */
  function Alternatives(signifiers: seq<string>): (r: seq<string>)
    ensures |r| >= 1
  {
    if signifiers == [] then [""] else signifiers
  }

  datatype TailKind = DateTail | RecurrenceTail

  predicate IsRecurrenceChar(c: char) {
    ('a' <= c <= 'z') || ('A' <= c <= 'Z') || ('0' <= c <= '9') || c == ',' || c == ' ' || c == '!'
  }

  /** What may follow the signifier up to the end: ` ?(.+)` for dates, `[a-zA-Z0-9, !]+` for rules. */
  predicate TailOk(kind: TailKind, t: string) {
    |t| >= 1 && (if kind == DateTail then All(t, NotLineTerminator) else All(t, IsRecurrenceChar))
  }

  /** Alternative `k` matches at `p` and the pattern then runs to the end of `s`. */
  predicate MatchAt(s: string, alts: seq<string>, kind: TailKind, p: int, k: int) {
    0 <= k < |alts| && OccursAt(s, alts[k], p) && TailOk(kind, s[p + |alts[k]|..])
  }

  datatype SignifierMatch = SignifierMatch(pos: nat, alt: nat)

  /** The first alternative, from `k` on, that matches at `p`. */
  function FirstAlternative(s: string, alts: seq<string>, kind: TailKind, p: nat, k: nat): (r: Option<nat>)
    ensures r.Some? ==> k <= r.value && MatchAt(s, alts, kind, p, r.value)
    decreases |alts| - k
  {
    if k >= |alts| then None
    else if MatchAt(s, alts, kind, p, k) then Some(k)
    else FirstAlternative(s, alts, kind, p, k + 1)
  }

  /** No alternative before the one found matches, and when none is found none matches. */
  lemma {:induction false} FirstAlternativeIsFirst(s: string, alts: seq<string>, kind: TailKind, p: nat, k: nat)
    ensures FirstAlternative(s, alts, kind, p, k).Some? ==>
      forall k' :: k <= k' < FirstAlternative(s, alts, kind, p, k).value ==> !MatchAt(s, alts, kind, p, k')
    ensures FirstAlternative(s, alts, kind, p, k).None? ==> forall k' :: k <= k' ==> !MatchAt(s, alts, kind, p, k')
    decreases |alts| - k
  {
    if k < |alts| && !MatchAt(s, alts, kind, p, k) {
      FirstAlternativeIsFirst(s, alts, kind, p, k + 1);
    }
  }

  /**
   * `s.match(pattern)` from `from` on: the leftmost position at which some alternative
   * matches, and the first alternative that matches there.
   */
  function FindSignifier(s: string, alts: seq<string>, kind: TailKind, from: nat): (r: Option<SignifierMatch>)
    ensures r.Some? ==> r.value.alt < |alts| && r.value.pos + |alts[r.value.alt]| <= |s|
    decreases |s| - from
  {
    if from > |s| then None
    else match FirstAlternative(s, alts, kind, from, 0)
      case Some(k) => Some(SignifierMatch(from, k))
      case None => FindSignifier(s, alts, kind, from + 1)
  }

  /** The match found is the leftmost one, with the first alternative; no match means none exists. */
  lemma {:induction false} FindSignifierLeftmost(s: string, alts: seq<string>, kind: TailKind, from: nat)
    ensures var r := FindSignifier(s, alts, kind, from);
      r.Some? ==> from <= r.value.pos && MatchAt(s, alts, kind, r.value.pos, r.value.alt)
    ensures var r := FindSignifier(s, alts, kind, from);
      r.Some? ==> forall k :: 0 <= k < r.value.alt ==> !MatchAt(s, alts, kind, r.value.pos, k)
    ensures var r := FindSignifier(s, alts, kind, from);
      r.Some? ==> forall p, k :: from <= p < r.value.pos ==> !MatchAt(s, alts, kind, p, k)
    ensures FindSignifier(s, alts, kind, from).None? ==> forall p, k :: from <= p ==> !MatchAt(s, alts, kind, p, k)
    decreases |s| - from
  {
    if from <= |s| {
      FirstAlternativeIsFirst(s, alts, kind, from, 0);
      if FirstAlternative(s, alts, kind, from, 0).None? {
        FindSignifierLeftmost(s, alts, kind, from + 1);
      }
    }
  }

  /** The text after the signifier; for a date, `' ?'` takes one space when `(.+)` keeps a character. */
  function Captured(kind: TailKind, tail: string): string {
    if kind == DateTail && |tail| >= 2 && tail[0] == ' ' then tail[1..] else tail
  }

  // ---------------------------------------------------------------------------------------
  // The extraction loop of `fromLine`.

  /** The local variables of the loop. */
  datatype Extracted = Extracted(
    description: string,
    dueDateTime: Option<Moment>,
    hasDueTime: bool,
    doneDateTime: Option<Moment>,
    hasDoneTime: bool,
    recurrenceRule: Option<RRule>)

  datatype Step = Step(after: Extracted, matched: bool)

  datatype DateField = DueField | DoneField

  function Signifiers(c: Config, f: DateField): seq<string> {
    if f == DueField then c.dueDateSignifiers else c.doneDateSignifiers
  }

  function DateOf(e: Extracted, f: DateField): Option<Moment> {
    if f == DueField then e.dueDateTime else e.doneDateTime
  }

  function HasTimeOf(e: Extracted, f: DateField): bool {
    if f == DueField then e.hasDueTime else e.hasDoneTime
  }

  function WithDate(e: Extracted, f: DateField, t: Option<Moment>, hasTime: bool): Extracted {
    if f == DueField then e.(dueDateTime := t, hasDueTime := hasTime)
    else e.(doneDateTime := t, hasDoneTime := hasTime)
  }

  /**
   * `window.moment(text, [...dateTimeFormats, ...dateFormats], true)`: the parsed moment and
   * whether the format that matched is a date-time format; a date-only value is moved to 00:00.
   */
  function ParseDate(text: string, c: Config, rt: Runtime): (r: Option<(Moment, bool)>)
    ensures var p := rt.moment.parse(text, c.dateTimeFormats + c.dateFormats);
      r.Some? == p.Some?
      && (r.Some? ==>
        (r.value.1 <==> p.value.format in c.dateTimeFormats)
        && Day(r.value.0) == Day(p.value.moment)
        && (r.value.1 ==> r.value.0 == p.value.moment))
    ensures r.Some? && !r.value.1 ==> MinuteOfDay(r.value.0) == 0
  {
    match rt.moment.parse(text, c.dateTimeFormats + c.dateFormats)
    case None => None
    case Some(p) =>
      if p.format in c.dateTimeFormats then Some((p.moment, true))
      else Some((SetTime(p.moment, 0, 0), false))
  }

  /** One of the two date blocks of the loop body. */
  function DateStep(e: Extracted, f: DateField, c: Config, rt: Runtime): (r: Step)
    ensures !r.matched ==> r.after == e
    ensures r.after.recurrenceRule == e.recurrenceRule
    ensures DateOf(r.after, if f == DueField then DoneField else DueField) == DateOf(e, if f == DueField then DoneField else DueField)
    ensures HasTimeOf(r.after, if f == DueField then DoneField else DueField) == HasTimeOf(e, if f == DueField then DoneField else DueField)
  {
    var s := e.description;
    var alts := Alternatives(Signifiers(c, f));
    match FindSignifier(s, alts, DateTail, 0)
    case None => Step(e, false)
    case Some(m) =>
      var text := Captured(DateTail, s[m.pos + |alts[m.alt]|..]);
      var parsed := match ParseDate(text, c, rt)
        case None => e
        case Some(p) => WithDate(e, f, Some(p.0), HasTimeOf(e, f) || p.1);
      Step(parsed.(description := Trim(s[..m.pos])), true)
  }

  /** The recurrence block of the loop body. */
  function RecurrenceStep(e: Extracted, c: Config, rt: Runtime): (r: Step)
    ensures !r.matched ==> r.after == e
    ensures r.after.dueDateTime == e.dueDateTime && r.after.hasDueTime == e.hasDueTime
    ensures r.after.doneDateTime == e.doneDateTime && r.after.hasDoneTime == e.hasDoneTime
  {
    var s := e.description;
    var alts := Alternatives(c.recurrenceSignifiers);
    match FindSignifier(s, alts, RecurrenceTail, 0)
    case None => Step(e, false)
    case Some(m) =>
      var rule := rt.rrule.fromText(Trim(s[m.pos + |alts[m.alt]|..]));
      var e1 := if rule.Some? then e.(recurrenceRule := rule) else e;
      Step(e1.(description := Trim(s[..m.pos])), true)
  }

  /** One pass of the loop body: done date, then due date, then recurrence rule. */
  function Pass(e: Extracted, c: Config, rt: Runtime): (r: Step)
    ensures !r.matched ==> r.after == e
  {
    var done := DateStep(e, DoneField, c, rt);
    var due := DateStep(done.after, DueField, c, rt);
    var rec := RecurrenceStep(due.after, c, rt);
    Step(rec.after, done.matched || due.matched || rec.matched)
  }

  /** The loop body as a value, so that the loop itself can be reasoned about for any body. */
  function PassOf(c: Config, rt: Runtime): Extracted -> Step {
    e => Pass(e, c, rt)
  }

  const MaxRuns: nat := 4

  /**
   * The do-while loop with body `body`, `runs` passes already made: it stops after a pass
   * that matched nothing or once `runs > maxRuns`.
   */
  function DoWhile(e: Extracted, runs: nat, body: Extracted -> Step): Extracted
    requires runs <= MaxRuns
    decreases MaxRuns - runs
  {
    var st := body(e);
    if st.matched && runs + 1 <= MaxRuns then DoWhile(st.after, runs + 1, body) else st.after
  }

  /** The extraction loop of `fromLine`, from its start. */
  function Loop(e: Extracted, c: Config, rt: Runtime): Extracted {
    DoWhile(e, 0, PassOf(c, rt))
  }

  /** `n` passes in a row. */
  function Repeat(e: Extracted, n: nat, body: Extracted -> Step): Extracted
    decreases n
  {
    if n == 0 then e else Repeat(body(e).after, n - 1, body)
  }

  /** What the loop still yields from its variables: the rest of the loop while it goes on, else `e` itself. */
  function Remaining(e: Extracted, runs: nat, matched: bool, body: Extracted -> Step): Extracted {
    if matched && runs <= MaxRuns then DoWhile(e, runs, body) else e
  }

  /** One more pass leaves what the loop yields unchanged. */
  lemma LoopStep(e: Extracted, runs: nat, body: Extracted -> Step)
    requires runs <= MaxRuns
    ensures Remaining(e, runs, true, body) == Remaining(body(e).after, runs + 1, body(e).matched, body)
  {
  }

  /** A body that changes nothing when it matches nothing: repeating it after such a pass changes nothing. */
  lemma {:induction false} RepeatFixpoint(e: Extracted, n: nat, body: Extracted -> Step)
    requires !body(e).matched && body(e).after == e
    ensures Repeat(e, n, body) == e
    decreases n
  {
    if n > 0 {
      RepeatFixpoint(e, n - 1, body);
    }
  }

  /**
   * For a body that changes nothing when it matches nothing, the loop's result is exactly
   * what `maxRuns + 1` passes give: it stops early only at a pass that changed nothing.
   */
  lemma {:induction false} DoWhileIsRepeat(e: Extracted, runs: nat, body: Extracted -> Step)
    requires runs <= MaxRuns
    requires forall x :: !body(x).matched ==> body(x).after == x
    ensures DoWhile(e, runs, body) == Repeat(e, MaxRuns + 1 - runs, body)
    decreases MaxRuns - runs
  {
    var st := body(e);
    if st.matched && runs + 1 <= MaxRuns {
      DoWhileIsRepeat(st.after, runs + 1, body);
    } else if !st.matched {
      RepeatFixpoint(e, MaxRuns + 1 - runs, body);
    }
  }

  /** An invariant of the body is an invariant of the loop. */
  lemma {:induction false} DoWhileKeeps(e: Extracted, runs: nat, body: Extracted -> Step, inv: Extracted -> bool)
    requires runs <= MaxRuns
    requires forall x :: inv(x) ==> inv(body(x).after)
    requires inv(e)
    ensures inv(DoWhile(e, runs, body))
    decreases MaxRuns - runs
  {
    var st := body(e);
    if st.matched && runs + 1 <= MaxRuns {
      DoWhileKeeps(st.after, runs + 1, body, inv);
    }
  }

  /** The extraction loop makes five passes at most, and stopping early changes nothing. */
  lemma LoopIsFivePasses(e: Extracted, c: Config, rt: Runtime)
    ensures Loop(e, c, rt) == Repeat(e, MaxRuns + 1, PassOf(c, rt))
  {
    DoWhileIsRepeat(e, 0, PassOf(c, rt));
  }

  /** A time is present only with a date, and a date without a time is at 00:00. */
  predicate TimesConsistent(e: Extracted) {
    (e.hasDueTime ==> e.dueDateTime.Some?)
    && (e.dueDateTime.Some? && !e.hasDueTime ==> MinuteOfDay(e.dueDateTime.value) == 0)
    && (e.hasDoneTime ==> e.doneDateTime.Some?)
    && (e.doneDateTime.Some? && !e.hasDoneTime ==> MinuteOfDay(e.doneDateTime.value) == 0)
  }

  lemma DateStepKeepsTimesConsistent(e: Extracted, f: DateField, c: Config, rt: Runtime)
    requires TimesConsistent(e)
    ensures TimesConsistent(DateStep(e, f, c, rt).after)
  {
    var s := e.description;
    var alts := Alternatives(Signifiers(c, f));
    match FindSignifier(s, alts, DateTail, 0)
    case None =>
    case Some(m) =>
      var text := Captured(DateTail, s[m.pos + |alts[m.alt]|..]);
      match ParseDate(text, c, rt)
      case None =>
      case Some(p) =>
  }

  lemma PassKeepsTimesConsistent(e: Extracted, c: Config, rt: Runtime)
    requires TimesConsistent(e)
    ensures TimesConsistent(Pass(e, c, rt).after)
  {
    DateStepKeepsTimesConsistent(e, DoneField, c, rt);
    var done := DateStep(e, DoneField, c, rt);
    DateStepKeepsTimesConsistent(done.after, DueField, c, rt);
  }

  lemma LoopKeepsTimesConsistent(e: Extracted, c: Config, rt: Runtime)
    requires TimesConsistent(e)
    ensures TimesConsistent(Loop(e, c, rt))
  {
    forall x | TimesConsistent(x)
      ensures TimesConsistent(PassOf(c, rt)(x).after)
    {
      PassKeepsTimesConsistent(x, c, rt);
    }
    DoWhileKeeps(e, 0, PassOf(c, rt), TimesConsistent);
  }

  // ---------------------------------------------------------------------------------------
  // `fromLine`

  function StatusOf(statusString: string): Status {
    if statusString == " " then Todo else Done
  }

  /** The description `fromLine` starts the loop with: the trimmed body without its block link. */
  function StartDescription(body: string): string {
    var start := BlockLinkStart(body);
    if start.Some? && body[start.value..] != "" then Trim(body[..start.value]) else body
  }

  /** The block link `fromLine` keeps: the trailing ` ^id` of the trimmed body, or the empty string. */
  function BlockLinkOf(body: string): string {
    var start := BlockLinkStart(body);
    if start.Some? then body[start.value..] else ""
  }

  /** The task `fromLine` builds once the line has matched, or None when the global filter is missing. */
  function FromMatch(m: TaskLineMatch, path: string, sectionStart: nat, sectionIndex: nat,
                     precedingHeader: Option<string>, c: Config, rt: Runtime): Option<Task>
  {
    var statusString := rt.locale.lowerCase([m.statusCharacter]);
    var body := Trim(m.body);
    if !Contains(body, c.globalFilter) then None
    else
      var e := Loop(Extracted(StartDescription(body), None, false, None, false, None), c, rt);
      Some(Task(StatusOf(statusString), e.description, path, m.indentation, sectionStart, sectionIndex,
        statusString, precedingHeader, e.dueDateTime, e.hasDueTime, e.doneDateTime, e.hasDoneTime,
        e.recurrenceRule, BlockLinkOf(body)))
  }

  /** The task `fromLine` builds from a line, or None when it returns `null`. */
  function FromLineSpec(line: string, path: string, sectionStart: nat, sectionIndex: nat,
                        precedingHeader: Option<string>, c: Config, rt: Runtime): Option<Task>
  {
    match MatchTaskLine(line)
    case None => None
    case Some(m) => FromMatch(m, path, sectionStart, sectionIndex, precedingHeader, c, rt)
  }

  /**
   * One date block of the loop body of `fromLine`: find the signifier, parse the text after
   * it, record the date (and that it has a time when a date-time format matched) and cut the
   * description before the signifier, whether or not the date parsed.
   */
  method ExtractDate(e: Extracted, f: DateField, c: Config, rt: Runtime) returns (st: Step)
    ensures st == DateStep(e, f, c, rt)
  {
    var description := e.description;
    var alts := Alternatives(Signifiers(c, f));
    var found := FindSignifier(description, alts, DateTail, 0);
    if found.None? {
      return Step(e, false);
    }
    var p := found.value;
    var after := e;
    var parsed := ParseDate(Captured(DateTail, description[p.pos + |alts[p.alt]|..]), c, rt);
    if parsed.Some? {
      var hasTime := HasTimeOf(e, f);
      if parsed.value.1 {
        hasTime := true;
      }
      after := WithDate(e, f, Some(parsed.value.0), hasTime);
    }
    after := after.(description := Trim(description[..p.pos]));
    st := Step(after, true);
  }

  /** The recurrence block of the loop body of `fromLine`. */
  method ExtractRecurrence(e: Extracted, c: Config, rt: Runtime) returns (st: Step)
    ensures st == RecurrenceStep(e, c, rt)
  {
    var description := e.description;
    var alts := Alternatives(c.recurrenceSignifiers);
    var found := FindSignifier(description, alts, RecurrenceTail, 0);
    if found.None? {
      return Step(e, false);
    }
    var p := found.value;
    var after := e;
    var rule := rt.rrule.fromText(Trim(description[p.pos + |alts[p.alt]|..]));
    if rule.Some? {
      after := after.(recurrenceRule := rule);
    }
    after := after.(description := Trim(description[..p.pos]));
    st := Step(after, true);
  }

  /** The body of the loop of `fromLine`: done date, then due date, then recurrence rule. */
  method RunPass(e: Extracted, c: Config, rt: Runtime) returns (st: Step)
    ensures st == Pass(e, c, rt)
  {
    var done := ExtractDate(e, DoneField, c, rt);
    var due := ExtractDate(done.after, DueField, c, rt);
    var recurrence := ExtractRecurrence(due.after, c, rt);
    st := Step(recurrence.after, done.matched || due.matched || recurrence.matched);
  }

  /**
   * The do-while loop of `fromLine`: passes over the description until one matches nothing
   * or `maxRuns` is exceeded.
   */
  method ExtractAll(description: string, c: Config, rt: Runtime) returns (e: Extracted)
    ensures e == Loop(Extracted(description, None, false, None, false, None), c, rt)
  {
    e := Extracted(description, None, false, None, false, None);
    ghost var start := e;
    var runs := 0;
    var matched := true;
    while matched && runs <= MaxRuns
      invariant runs <= MaxRuns + 1
      invariant Remaining(e, runs, matched, PassOf(c, rt)) == Loop(start, c, rt)
      decreases MaxRuns + 1 - runs
    {
      LoopStep(e, runs, PassOf(c, rt));
      var st := RunPass(e, c, rt);
      e := st.after;
      matched := st.matched;
      runs := runs + 1;
    }
  }

  /** `Task.fromLine`. */
  method FromLine(line: string, path: string, sectionStart: nat, sectionIndex: nat,
                  precedingHeader: Option<string>, c: Config, rt: Runtime) returns (r: Option<Task>)
    ensures r == FromLineSpec(line, path, sectionStart, sectionIndex, precedingHeader, c, rt)
  {
    var regexMatch := MatchTaskLine(line);
    if regexMatch.None? {
      return None;
    }
    r := FromMatched(regexMatch.value, path, sectionStart, sectionIndex, precedingHeader, c, rt);
  }

  /** The part of `fromLine` after the regular expression has matched. */
  method FromMatched(m: TaskLineMatch, path: string, sectionStart: nat, sectionIndex: nat,
                     precedingHeader: Option<string>, c: Config, rt: Runtime) returns (r: Option<Task>)
    ensures r == FromMatch(m, path, sectionStart, sectionIndex, precedingHeader, c, rt)
  {
    var indentation := m.indentation;
    var statusString := rt.locale.lowerCase([m.statusCharacter]);
    var status := if statusString == " " then Todo else Done;
    var body := Trim(m.body);
    if !Contains(body, c.globalFilter) {
      return None;
    }
    var description := body;
    var blockLinkMatch := BlockLinkStart(description);
    var blockLink := if blockLinkMatch.Some? then description[blockLinkMatch.value..] else "";
    if blockLink != "" {
      description := Trim(description[..blockLinkMatch.value]);
    }

    var e := ExtractAll(description, c, rt);
    r := Some(Task(status, e.description, path, indentation, sectionStart, sectionIndex, statusString,
      precedingHeader, e.dueDateTime, e.hasDueTime, e.doneDateTime, e.hasDoneTime, e.recurrenceRule, blockLink));
  }

  // ---------------------------------------------------------------------------------------
  // `toString` and `toFileLineString`

  /** `xs[0]`: the first entry, or `undefined` for an empty list. */
  function First(xs: seq<string>): (r: Option<string>)
    ensures r.Some? <==> |xs| >= 1
    ensures r.Some? ==> r.value == xs[0]
  {
    if |xs| >= 1 then Some(xs[0]) else None
  }

  /** A value substituted into a template string; `undefined` prints as its name. */
  function TemplateText(o: Option<string>): string {
    match o
    case Some(s) => s
    case None => "undefined"
  }

  /** The three formats `toString` may write a date with. */
  datatype DateLayout = DateAndTime | DateOnly | TimeOnly

  /** The branch `toString` takes for one date, or None when it writes nothing. */
  function ChooseLayout(hideDate: bool, hideTime: bool, hasTime: bool): (r: Option<DateLayout>)
    ensures r == Some(DateAndTime) <==> !hideDate && !hideTime && hasTime
    ensures r == Some(DateOnly) <==> !hideDate && (hideTime || !hasTime)
    ensures r == Some(TimeOnly) <==> hideDate && !hideTime && hasTime
    ensures r == None <==> hideDate && (hideTime || !hasTime)
  {
    if !hideDate && !hideTime && hasTime then Some(DateAndTime)
    else if !hideDate then Some(DateOnly)
    else if !hideTime && hasTime then Some(TimeOnly)
    else None
  }

  /** The format argument of each branch: `dateTimeFormats[0]`, `dateFormats[0]` or `timeFormat`. */
  function FormatFor(l: DateLayout, c: Config): Option<string> {
    match l
    case DateAndTime => First(c.dateTimeFormats)
    case DateOnly => First(c.dateFormats)
    case TimeOnly => Some(c.timeFormat)
  }

  /** ` <signifier> <formatted date>` for a date that is present and not hidden, else nothing. */
  function DatePhrase(signifiers: seq<string>, t: Option<Moment>, hasTime: bool, hideDate: bool, hideTime: bool,
                      c: Config, rt: Runtime): string
  {
    if t.None? then ""
    else match ChooseLayout(hideDate, hideTime, hasTime)
      case None => ""
      case Some(l) => " " + TemplateText(First(signifiers)) + " " + rt.moment.format(t.value, FormatFor(l, c))
  }

  /** ` <signifier> <rule text>` for a recurring task whose rule is not hidden, else nothing. */
  function RecurrencePhrase(task: Task, layout: LayoutOptions, c: Config, rt: Runtime): string {
    if !layout.hideRecurrenceRule && task.recurrenceRule.Some? then
      " " + TemplateText(First(c.recurrenceSignifiers)) + " " + rt.rrule.toText(task.recurrenceRule.value)
    else ""
  }

  /** The text `toString` builds: the description, then the rule, the due date and the done date. */
  function Render(task: Task, layout: LayoutOptions, c: Config, rt: Runtime): string {
    task.description + RecurrencePhrase(task, layout, c, rt)
      + DatePhrase(c.dueDateSignifiers, task.dueDateTime, task.hasDueTime, layout.hideDueDate, layout.hideDueTime, c, rt)
      + DatePhrase(c.doneDateSignifiers, task.doneDateTime, task.hasDoneTime, layout.hideDoneDate, layout.hideDoneTime, c, rt)
  }

  /** The text starts with the description, whatever the layout. */
  lemma RenderStartsWithDescription(task: Task, layout: LayoutOptions, c: Config, rt: Runtime)
    ensures |task.description| <= |Render(task, layout, c, rt)|
    ensures Render(task, layout, c, rt)[..|task.description|] == task.description
  {
    var r := Render(task, layout, c, rt);
    assert r == task.description + r[|task.description|..];
  }

  /** A task without rule and dates, or with all of them hidden, is written as its description alone. */
  lemma RenderBare(task: Task, layout: LayoutOptions, c: Config, rt: Runtime)
    requires task.recurrenceRule.None? || layout.hideRecurrenceRule
    requires task.dueDateTime.None? || (layout.hideDueDate && (layout.hideDueTime || !task.hasDueTime))
    requires task.doneDateTime.None? || (layout.hideDoneDate && (layout.hideDoneTime || !task.hasDoneTime))
    ensures Render(task, layout, c, rt) == task.description
  {
  }

  /** The block link never reaches the text. */
  lemma RenderIgnoresBlockLink(task: Task, blockLink: string, layout: LayoutOptions, c: Config, rt: Runtime)
    ensures Render(task.(blockLink := blockLink), layout, c, rt) == Render(task, layout, c, rt)
  {
  }

  /** The due-date block of `toString`, and the done-date block, which is the same code for the other date. */
  method WriteDate(signifiers: seq<string>, t: Option<Moment>, hasTime: bool, hideDate: bool, hideTime: bool,
                   c: Config, rt: Runtime) returns (phrase: string)
    ensures phrase == DatePhrase(signifiers, t, hasTime, hideDate, hideTime, c, rt)
  {
    phrase := "";
    if t.Some? {
      var signifier := TemplateText(First(signifiers));
      if !hideDate && !hideTime && hasTime {
        phrase := " " + signifier + " " + rt.moment.format(t.value, First(c.dateTimeFormats));
      } else if !hideDate {
        phrase := " " + signifier + " " + rt.moment.format(t.value, First(c.dateFormats));
      } else if !hideTime && hasTime {
        phrase := " " + signifier + " " + rt.moment.format(t.value, Some(c.timeFormat));
      }
    }
  }

  /** `task.toString(layoutOptions)`, the default layout when none is given. */
  method ToString(task: Task, layoutOptions: Option<LayoutOptions>, c: Config, rt: Runtime) returns (taskString: string)
    ensures taskString == Render(task, if layoutOptions.Some? then layoutOptions.value else DefaultLayout, c, rt)
  {
    var layout := if layoutOptions.Some? then layoutOptions.value else DefaultLayout;
    taskString := task.description;

    var recurrenceRule := "";
    if !layout.hideRecurrenceRule && task.recurrenceRule.Some? {
      recurrenceRule := " " + TemplateText(First(c.recurrenceSignifiers)) + " " + rt.rrule.toText(task.recurrenceRule.value);
    }
    assert recurrenceRule == RecurrencePhrase(task, layout, c, rt);
    taskString := taskString + recurrenceRule;

    var duePhrase := WriteDate(c.dueDateSignifiers, task.dueDateTime, task.hasDueTime,
      layout.hideDueDate, layout.hideDueTime, c, rt);
    taskString := taskString + duePhrase;
    var donePhrase := WriteDate(c.doneDateSignifiers, task.doneDateTime, task.hasDoneTime,
      layout.hideDoneDate, layout.hideDoneTime, c, rt);
    taskString := taskString + donePhrase;
  }

  /** `toFileLineString`: the checklist line for the task, written with the default layout. */
  function ToFileLineString(task: Task, c: Config, rt: Runtime): string {
    task.indentation + "- [" + task.originalStatusCharacter + "] " + Render(task, DefaultLayout, c, rt)
  }

  // ---------------------------------------------------------------------------------------
  // `toggle`

  /** The toggled task: the other status, done now or not done, and the marker written for it. */
  function Toggled(task: Task, c: Config, now: Moment): (r: Task)
    ensures r.status != task.status
    ensures r.doneDateTime.Some? <==> r.status == Done
    ensures r.doneDateTime.Some? ==> r.doneDateTime.value == now
    ensures r.hasDoneTime == c.doneTime
    ensures r.originalStatusCharacter == (if r.status == Done then "x" else " ")
    ensures r.(status := task.status, doneDateTime := task.doneDateTime, hasDoneTime := task.hasDoneTime,
      originalStatusCharacter := task.originalStatusCharacter) == task
  {
    var newStatus := if task.status == Todo then Done else Todo;
    task.(status := newStatus,
      doneDateTime := if newStatus == Done then Some(now) else None,
      hasDoneTime := c.doneTime,
      originalStatusCharacter := if newStatus == Done then "x" else " ")
  }

  /** `dtStart`: the end of the due day, or of today when there is no due date. */
  function RecurrenceStart(task: Task, now: Moment): Moment {
    EndOfDay(if task.dueDateTime.Some? then task.dueDateTime.value else now)
  }

  /** The moment after which the next occurrence is looked for: the later of the end of today and `dtStart`. */
  function RecurrenceBoundary(task: Task, now: Moment): (b: Moment)
    ensures b >= EndOfDay(now) && b >= RecurrenceStart(task, now)
    ensures b == EndOfDay(now) || b == RecurrenceStart(task, now)
  {
    var today := EndOfDay(now);
    var dtStart := RecurrenceStart(task, now);
    if today > dtStart then today else dtStart
  }

  /** `rrule.after(after, false)` for a task that becomes done and recurs, else None. */
  function NextOccurrence(task: Task, rt: Runtime, now: Moment): Option<Moment> {
    if task.status == Todo && task.recurrenceRule.Some? then
      rt.rrule.after(task.recurrenceRule.value, RecurrenceStart(task, now), RecurrenceBoundary(task, now))
    else None
  }

  /** The next occurrence, at the clock time of the old due date when there is one. */
  function NextDue(task: Task, next: Moment): Moment {
    if task.dueDateTime.Some? then SetTime(next, Hours(task.dueDateTime.value), Minutes(task.dueDateTime.value))
    else next
  }

  /** The new task for the next occurrence: the old one with the new due date and no block link. */
  function NextTask(task: Task, next: Moment): Task {
    task.(dueDateTime := Some(NextDue(task, next)), blockLink := "")
  }

  /**
   * `task.toggle()` at time `now`: `[toggled]`, or `[next, toggled]` when a recurring task
   * becomes done and its rule has a further occurrence.
   */
  method Toggle(task: Task, c: Config, rt: Runtime, now: Moment) returns (newTasks: seq<Task>)
    ensures 1 <= |newTasks| <= 2
    ensures newTasks[|newTasks| - 1] == Toggled(task, c, now)
    ensures |newTasks| == 2 <==> NextOccurrence(task, rt, now).Some?
    ensures |newTasks| == 2 <==> (task.status == Todo && task.recurrenceRule.Some?
      && rt.rrule.after(task.recurrenceRule.value, RecurrenceStart(task, now), RecurrenceBoundary(task, now)).Some?)
    ensures |newTasks| == 2 ==> newTasks[0] == NextTask(task, NextOccurrence(task, rt, now).value)
  {
    var newStatus := if task.status == Todo then Done else Todo;
    var newDoneDateTime: Option<Moment> := None;
    var nextOccurrence: Option<Moment> := None;
    if newStatus != Todo {
      newDoneDateTime := Some(now);
      if task.recurrenceRule.Some? {
        var dtStart := EndOfDay(if task.dueDateTime.Some? then task.dueDateTime.value else now);
        var today := EndOfDay(now);
        var after := if today > dtStart then today else dtStart;
        var next := rt.rrule.after(task.recurrenceRule.value, dtStart, after);
        if next.Some? {
          nextOccurrence := next;
          if task.dueDateTime.Some? {
            var prevHours := Hours(task.dueDateTime.value);
            var prevMinutes := Minutes(task.dueDateTime.value);
            nextOccurrence := Some(SetTime(next.value, prevHours, prevMinutes));
          }
        }
      }
    }

    var toggledTask := task.(status := newStatus, doneDateTime := newDoneDateTime, hasDoneTime := c.doneTime,
      originalStatusCharacter := if newStatus == Done then "x" else " ");

    newTasks := [];
    if nextOccurrence.Some? {
      var nextTask := task.(dueDateTime := nextOccurrence, blockLink := "");
      newTasks := newTasks + [nextTask];
    }
    newTasks := newTasks + [toggledTask];
  }

  /**
   * The next occurrence falls on a later day than both today and the old due date, keeps the
   * old due date's clock time, and is strictly after the moment it was looked for from.
   */
  lemma NextOccurrenceIsLater(task: Task, rt: Runtime, now: Moment)
    requires AfterIsStrict(rt.rrule)
    requires NextOccurrence(task, rt, now).Some?
    ensures var due := NextDue(task, NextOccurrence(task, rt, now).value);
      due > RecurrenceBoundary(task, now) && Day(due) > Day(now)
      && (task.dueDateTime.Some? ==> (Day(due) > Day(task.dueDateTime.value)
        && Hours(due) == Hours(task.dueDateTime.value) && Minutes(due) == Minutes(task.dueDateTime.value)))
  {
    var next := NextOccurrence(task, rt, now).value;
    var b := RecurrenceBoundary(task, now);
    assert next > b;
    AfterEndOfDay(next, now);
    if task.dueDateTime.Some? {
      AfterEndOfDay(next, task.dueDateTime.value);
      var due := NextDue(task, next);
      AfterEndOfDay(b, now);
      AfterEndOfDay(due, b);
    }
  }

  /** Toggling twice gives back the status; the done date, its time flag and the marker are rewritten. */
  lemma ToggleTwice(task: Task, c: Config, now: Moment, later: Moment)
    ensures Toggled(Toggled(task, c, now), c, later).status == task.status
    ensures Toggled(Toggled(task, c, now), c, later)
      == task.(doneDateTime := if task.status == Done then Some(later) else None, hasDoneTime := c.doneTime,
        originalStatusCharacter := if task.status == Done then "x" else " ")
  {
  }

  // ---------------------------------------------------------------------------------------
  // What `fromLine` promises

  /** `fromLine` returns null exactly when the line is no checklist item or its trimmed body lacks the global filter. */
  lemma FromLineNull(line: string, path: string, sectionStart: nat, sectionIndex: nat,
                     precedingHeader: Option<string>, c: Config, rt: Runtime)
    ensures FromLineSpec(line, path, sectionStart, sectionIndex, precedingHeader, c, rt).None?
      <==> (MatchTaskLine(line).None? || !Contains(Trim(MatchTaskLine(line).value.body), c.globalFilter))
  {
  }

  /** The empty global filter lets every checklist item through. */
  lemma EmptyFilterKeepsAll(line: string, path: string, sectionStart: nat, sectionIndex: nat,
                            precedingHeader: Option<string>, c: Config, rt: Runtime)
    requires c.globalFilter == ""
    ensures FromLineSpec(line, path, sectionStart, sectionIndex, precedingHeader, c, rt).Some?
      <==> MatchTaskLine(line).Some?
  {
    if MatchTaskLine(line).Some? {
      IndexOfIs(Trim(MatchTaskLine(line).value.body), "", 0);
    }
  }

  /** The marker is the lower-cased bracket character, and the task is to do exactly when it is a space. */
  lemma FromLineStatus(line: string, path: string, sectionStart: nat, sectionIndex: nat,
                       precedingHeader: Option<string>, c: Config, rt: Runtime)
    requires FromLineSpec(line, path, sectionStart, sectionIndex, precedingHeader, c, rt).Some?
    ensures var t := FromLineSpec(line, path, sectionStart, sectionIndex, precedingHeader, c, rt).value;
      t.originalStatusCharacter == rt.locale.lowerCase([MatchTaskLine(line).value.statusCharacter])
      && (t.status == Todo <==> t.originalStatusCharacter == " ")
      && t.indentation == MatchTaskLine(line).value.indentation
      && t.path == path && t.sectionStart == sectionStart && t.sectionIndex == sectionIndex
      && t.precedingHeader == precedingHeader
  {
  }

  /**
   * The block link of the task is the one `BlockLinkOf` takes from the trimmed body, and the
   * loop starts from that body without its block link (see `StartDescriptionIs`).
   */
  lemma FromLineBlockLink(line: string, path: string, sectionStart: nat, sectionIndex: nat,
                          precedingHeader: Option<string>, c: Config, rt: Runtime)
    requires FromLineSpec(line, path, sectionStart, sectionIndex, precedingHeader, c, rt).Some?
    ensures var body := Trim(MatchTaskLine(line).value.body);
      var t := FromLineSpec(line, path, sectionStart, sectionIndex, precedingHeader, c, rt).value;
      t.blockLink == BlockLinkOf(body)
      && FromLoop(t, Loop(Extracted(StartDescription(body), None, false, None, false, None), c, rt))
  {
  }

  /** The task carries the description, dates, time flags and rule the loop ended with. */
  predicate FromLoop(t: Task, e: Extracted) {
    t.description == e.description && t.dueDateTime == e.dueDateTime && t.hasDueTime == e.hasDueTime
    && t.doneDateTime == e.doneDateTime && t.hasDoneTime == e.hasDoneTime && t.recurrenceRule == e.recurrenceRule
  }

  /**
   * When the text the loop starts from (the trimmed body without its block link, see
   * `StartDescriptionIs`) holds no signifier, that text is the description, and the task has
   * no dates, no time flags and no rule.
   */
  lemma FromLineDescription(line: string, path: string, sectionStart: nat, sectionIndex: nat,
                            precedingHeader: Option<string>, c: Config, rt: Runtime)
    requires FromLineSpec(line, path, sectionStart, sectionIndex, precedingHeader, c, rt).Some?
    requires var d := StartDescription(Trim(MatchTaskLine(line).value.body));
      NoSignifier(d, c.doneDateSignifiers, DateTail) && NoSignifier(d, c.dueDateSignifiers, DateTail)
      && NoSignifier(d, c.recurrenceSignifiers, RecurrenceTail)
    ensures var t := FromLineSpec(line, path, sectionStart, sectionIndex, precedingHeader, c, rt).value;
      t.description == StartDescription(Trim(MatchTaskLine(line).value.body))
      && t.dueDateTime.None? && !t.hasDueTime && t.doneDateTime.None? && !t.hasDoneTime && t.recurrenceRule.None?
  {
    var m := MatchTaskLine(line).value;
    var e := Extracted(StartDescription(Trim(m.body)), None, false, None, false, None);
    LoopQuiet(e, c, rt);
  }

  /** The loop starts from the body with its block link cut off and the rest trimmed, or from the whole body. */
  lemma StartDescriptionIs(body: string)
    ensures var b := BlockLinkOf(body);
      |b| <= |body| && StartDescription(body) == (if b != "" then Trim(body[..|body| - |b|]) else body)
  {
    BlockLinkStartUnique(body);
  }

  /**
   * A trailing block link of the body is taken verbatim, its leading space included; without
   * one the block link is empty.
   */
  lemma BlockLinkOfIs(body: string)
    ensures var b := BlockLinkOf(body);
      (forall j :: 0 <= j <= |body| && IsBlockLink(body[j..]) ==> b == body[j..])
      && ((forall j :: 0 <= j <= |body| ==> !IsBlockLink(body[j..])) ==> b == "")
      && (b != "" ==> (IsBlockLink(b) && |b| <= |body| && body[|body| - |b|..] == b))
  {
    BlockLinkStartUnique(body);
  }

  /** Every step keeps the description trimmed. */
  lemma PassKeepsTrimmed(e: Extracted, c: Config, rt: Runtime)
    requires IsTrimmed(e.description)
    ensures IsTrimmed(Pass(e, c, rt).after.description)
  {
    var done := DateStep(e, DoneField, c, rt);
    var due := DateStep(done.after, DueField, c, rt);
    var rec := RecurrenceStep(due.after, c, rt);
    DateStepDescription(e, DoneField, c, rt);
    DateStepDescription(done.after, DueField, c, rt);
    RecurrenceStepDescription(due.after, c, rt);
  }

  /**
   * A date signifier that matches is cut off with everything after it, whether or not the
   * text after it parses; when it does not parse the dates are left as they were.
   */
  lemma DateStepDescription(e: Extracted, f: DateField, c: Config, rt: Runtime)
    ensures var m := FindSignifier(e.description, Alternatives(Signifiers(c, f)), DateTail, 0);
      var r := DateStep(e, f, c, rt);
      (m.None? ==> r == Step(e, false))
      && (m.Some? ==> r.matched && r.after.description == Trim(e.description[..m.value.pos]))
    ensures IsTrimmed(e.description) ==> IsTrimmed(DateStep(e, f, c, rt).after.description)
  {
    var m := FindSignifier(e.description, Alternatives(Signifiers(c, f)), DateTail, 0);
    if m.Some? {
      TrimIsTrimmed(e.description[..m.value.pos]);
    }
  }

  /** When the text after a matching date signifier does not parse, only the description changes. */
  lemma DateStepParseFailure(e: Extracted, f: DateField, c: Config, rt: Runtime)
    requires FindSignifier(e.description, Alternatives(Signifiers(c, f)), DateTail, 0).Some?
    ensures var alts := Alternatives(Signifiers(c, f));
      var m := FindSignifier(e.description, alts, DateTail, 0).value;
      ParseDate(Captured(DateTail, e.description[m.pos + |alts[m.alt]|..]), c, rt).None? ==>
        DateStep(e, f, c, rt).after == e.(description := Trim(e.description[..m.pos]))
  {
  }

  /** What moment.js makes of the text after the leftmost signifier for `f` in `s`, when one matches. */
  function ParsedDate(s: string, f: DateField, c: Config, rt: Runtime): Option<Parsed> {
    var alts := Alternatives(Signifiers(c, f));
    match FindSignifier(s, alts, DateTail, 0)
    case None => None
    case Some(m) => rt.moment.parse(Captured(DateTail, s[m.pos + |alts[m.alt]|..]), c.dateTimeFormats + c.dateFormats)
  }

  /**
   * When the text after a date signifier parses, the date becomes the parsed moment, moved to
   * 00:00 unless a date-time format matched; the time flag is set when a date-time format
   * matched and is never cleared.
   */
  lemma DateStepParsed(e: Extracted, f: DateField, c: Config, rt: Runtime)
    ensures var p := ParsedDate(e.description, f, c, rt);
      var r := DateStep(e, f, c, rt).after;
      p.Some? ==>
        DateOf(r, f) == Some(if p.value.format in c.dateTimeFormats then p.value.moment else SetTime(p.value.moment, 0, 0))
        && (HasTimeOf(r, f) <==> HasTimeOf(e, f) || p.value.format in c.dateTimeFormats)
  {
  }

  /**
   * In the first pass, where both dates start unset, a date is set exactly when the text
   * after its signifier parses, and its time flag exactly when a date-time format matched.
   * The due date is looked for in what the done block left of the description.
   */
  lemma FirstPassTimeFlags(d: string, c: Config, rt: Runtime)
    ensures var e := Extracted(d, None, false, None, false, None);
      var done := DateStep(e, DoneField, c, rt).after;
      var pDone := ParsedDate(d, DoneField, c, rt);
      var pDue := ParsedDate(done.description, DueField, c, rt);
      var r := Pass(e, c, rt).after;
      (r.doneDateTime.Some? <==> pDone.Some?)
      && (r.hasDoneTime <==> pDone.Some? && pDone.value.format in c.dateTimeFormats)
      && (r.dueDateTime.Some? <==> pDue.Some?)
      && (r.hasDueTime <==> pDue.Some? && pDue.value.format in c.dateTimeFormats)
  {
    var e := Extracted(d, None, false, None, false, None);
    var done := DateStep(e, DoneField, c, rt);
    var due := DateStep(done.after, DueField, c, rt);
    DateStepFromUnset(e, DoneField, c, rt);
    DateStepFromUnset(done.after, DueField, c, rt);
  }

  /** A date block on a date not yet set sets it exactly when its text parses, with a time exactly for a date-time format. */
  lemma DateStepFromUnset(e: Extracted, f: DateField, c: Config, rt: Runtime)
    requires DateOf(e, f).None? && !HasTimeOf(e, f)
    ensures var p := ParsedDate(e.description, f, c, rt);
      var r := DateStep(e, f, c, rt).after;
      (DateOf(r, f).Some? <==> p.Some?) && (HasTimeOf(r, f) <==> p.Some? && p.value.format in c.dateTimeFormats)
  {
    DateStepParsed(e, f, c, rt);
    DateStepDescription(e, f, c, rt);
    if FindSignifier(e.description, Alternatives(Signifiers(c, f)), DateTail, 0).Some? {
      DateStepParseFailure(e, f, c, rt);
    }
  }

  /** A recurrence signifier that matches is cut off with everything after it; an unreadable rule changes nothing else. */
  lemma RecurrenceStepDescription(e: Extracted, c: Config, rt: Runtime)
    ensures var alts := Alternatives(c.recurrenceSignifiers);
      var m := FindSignifier(e.description, alts, RecurrenceTail, 0);
      var r := RecurrenceStep(e, c, rt);
      (m.None? ==> r == Step(e, false))
      && (m.Some? ==> (r.matched && r.after.description == Trim(e.description[..m.value.pos])
        && (rt.rrule.fromText(Trim(e.description[m.value.pos + |alts[m.value.alt]|..])).None? ==>
          r.after == e.(description := Trim(e.description[..m.value.pos])))))
    ensures IsTrimmed(e.description) ==> IsTrimmed(RecurrenceStep(e, c, rt).after.description)
  {
    var alts := Alternatives(c.recurrenceSignifiers);
    var m := FindSignifier(e.description, alts, RecurrenceTail, 0);
    if m.Some? {
      TrimIsTrimmed(e.description[..m.value.pos]);
    }
  }

  /** What the loop keeps: a trimmed description, and date and time flags that agree. */
  predicate ExtractedOk(e: Extracted) {
    IsTrimmed(e.description) && TimesConsistent(e)
  }

  /** The loop keeps the description trimmed and the date and time flags in agreement. */
  lemma LoopKeepsOk(e: Extracted, c: Config, rt: Runtime)
    requires ExtractedOk(e)
    ensures ExtractedOk(Loop(e, c, rt))
  {
    forall x | ExtractedOk(x)
      ensures ExtractedOk(PassOf(c, rt)(x).after)
    {
      PassKeepsTimesConsistent(x, c, rt);
      PassKeepsTrimmed(x, c, rt);
    }
    DoWhileKeeps(e, 0, PassOf(c, rt), ExtractedOk);
  }

  lemma StartDescriptionTrimmed(body: string)
    requires IsTrimmed(body)
    ensures IsTrimmed(StartDescription(body))
  {
    var start := BlockLinkStart(body);
    if start.Some? {
      TrimIsTrimmed(body[..start.value]);
    }
  }

  /**
   * The task `fromLine` returns has a trimmed description, a time flag only with its date, and
   * a date without a time at 00:00.
   */
  lemma FromLineConsistent(line: string, path: string, sectionStart: nat, sectionIndex: nat,
                           precedingHeader: Option<string>, c: Config, rt: Runtime)
    requires FromLineSpec(line, path, sectionStart, sectionIndex, precedingHeader, c, rt).Some?
    ensures var t := FromLineSpec(line, path, sectionStart, sectionIndex, precedingHeader, c, rt).value;
      IsTrimmed(t.description)
      && (t.hasDueTime ==> t.dueDateTime.Some?) && (t.hasDoneTime ==> t.doneDateTime.Some?)
      && (t.dueDateTime.Some? && !t.hasDueTime ==> MinuteOfDay(t.dueDateTime.value) == 0)
      && (t.doneDateTime.Some? && !t.hasDoneTime ==> MinuteOfDay(t.doneDateTime.value) == 0)
  {
    var body := Trim(MatchTaskLine(line).value.body);
    TrimIsTrimmed(MatchTaskLine(line).value.body);
    StartDescriptionTrimmed(body);
    LoopKeepsOk(Extracted(StartDescription(body), None, false, None, false, None), c, rt);
  }

  // ---------------------------------------------------------------------------------------
  // Dates are read in the first pass only

  /** A date signifier that matches in a slice of `s` matches in `s` too, before the end of the slice. */
  lemma SliceDateMatch(s: string, a: nat, b: nat, alts: seq<string>, q: int, k: int)
    requires a <= b <= |s| && All(s, NotLineTerminator)
    ensures MatchAt(s[a..b], alts, DateTail, q, k) ==> MatchAt(s, alts, DateTail, a + q, k) && a + q < b
  {
    if MatchAt(s[a..b], alts, DateTail, q, k) {
      var x := s[a..b];
      var j := a + q + |alts[k]|;
      assert 0 <= q && q + |alts[k]| <= |x| && j <= b;
      forall i | 0 <= i < |alts[k]|
        ensures s[a + q..j][i] == alts[k][i]
      {
        assert s[a + q..j][i] == x[q + i] == x[q..q + |alts[k]|][i];
      }
      assert x[q + |alts[k]|..] == s[j..b];
      forall i | 0 <= i < |s[j..]|
        ensures NotLineTerminator(s[j..][i])
      {
        assert s[j..][i] == s[j + i];
      }
    }
  }

  /**
   * Cutting `s` before `p` and trimming leaves text on one line, in which no date signifier
   * matches that matched nowhere in `s` before `p`.
   */
  lemma CutKeepsNoDate(s: string, p: nat, sigs: seq<string>)
    requires p <= |s| && All(s, NotLineTerminator)
    ensures All(Trim(s[..p]), NotLineTerminator)
    ensures NoMatchBefore(s, sigs, DateTail, p) ==> NoSignifier(Trim(s[..p]), sigs, DateTail)
  {
    var x := s[..p];
    TrimIsSlice(x);
    var a := TrimStart(x);
    var b := TrimEnd(x);
    assert Trim(x) == s[a..b];
    forall q, k
      ensures NoMatchBefore(s, sigs, DateTail, p) ==> !MatchAt(s[a..b], Alternatives(sigs), DateTail, q, k)
    {
      SliceDateMatch(s, a, b, Alternatives(sigs), q, k);
    }
  }

  /**
   * After a date block the description is still on one line, the block's own signifiers no
   * longer match in it, and neither do signifiers that did not match before.
   */
  lemma DateStepClears(e: Extracted, f: DateField, sigs: seq<string>, c: Config, rt: Runtime)
    requires All(e.description, NotLineTerminator)
    ensures var d := DateStep(e, f, c, rt).after.description;
      All(d, NotLineTerminator) && NoSignifier(d, Signifiers(c, f), DateTail)
      && (NoSignifier(e.description, sigs, DateTail) ==> NoSignifier(d, sigs, DateTail))
  {
    var s := e.description;
    var alts := Alternatives(Signifiers(c, f));
    DateStepDescription(e, f, c, rt);
    FindSignifierLeftmost(s, alts, DateTail, 0);
    match FindSignifier(s, alts, DateTail, 0)
    case None =>
    case Some(m) =>
      CutKeepsNoDate(s, m.pos, Signifiers(c, f));
      CutKeepsNoDate(s, m.pos, sigs);
  }

  /** After the recurrence block the description is still on one line, and no date signifier matches in it that did not before. */
  lemma RecurrenceStepKeepsNoDate(e: Extracted, sigs: seq<string>, c: Config, rt: Runtime)
    requires All(e.description, NotLineTerminator)
    ensures var d := RecurrenceStep(e, c, rt).after.description;
      All(d, NotLineTerminator) && (NoSignifier(e.description, sigs, DateTail) ==> NoSignifier(d, sigs, DateTail))
  {
    var s := e.description;
    RecurrenceStepDescription(e, c, rt);
    match FindSignifier(s, Alternatives(c.recurrenceSignifiers), RecurrenceTail, 0)
    case None =>
    case Some(m) =>
      CutKeepsNoDate(s, m.pos, sigs);
  }

  /** A description on one line in which neither date signifier matches. */
  ghost predicate DatesRead(e: Extracted, c: Config) {
    All(e.description, NotLineTerminator)
    && NoSignifier(e.description, c.doneDateSignifiers, DateTail)
    && NoSignifier(e.description, c.dueDateSignifiers, DateTail)
  }

  /** The two dates and their time flags agree. */
  predicate SameDates(x: Extracted, y: Extracted) {
    x.dueDateTime == y.dueDateTime && x.hasDueTime == y.hasDueTime
    && x.doneDateTime == y.doneDateTime && x.hasDoneTime == y.hasDoneTime
  }

  /**
   * After one pass over a description on one line, neither date signifier matches in what is
   * left: each date block keeps only text before its leftmost match.
   */
  lemma PassClearsDates(e: Extracted, c: Config, rt: Runtime)
    requires All(e.description, NotLineTerminator)
    ensures DatesRead(Pass(e, c, rt).after, c)
  {
    var done := DateStep(e, DoneField, c, rt).after;
    DateStepClears(e, DoneField, c.dueDateSignifiers, c, rt);
    var due := DateStep(done, DueField, c, rt).after;
    DateStepClears(done, DueField, c.doneDateSignifiers, c, rt);
    RecurrenceStepKeepsNoDate(due, c.doneDateSignifiers, c, rt);
    RecurrenceStepKeepsNoDate(due, c.dueDateSignifiers, c, rt);
  }

  /** A pass over a description in which no date signifier matches changes no date and no time flag. */
  lemma PassKeepsDates(e: Extracted, c: Config, rt: Runtime)
    requires DatesRead(e, c)
    ensures DatesRead(Pass(e, c, rt).after, c) && SameDates(Pass(e, c, rt).after, e)
  {
    NoSignifierNotFound(e.description, c.doneDateSignifiers, DateTail);
    NoSignifierNotFound(e.description, c.dueDateSignifiers, DateTail);
    DateStepDescription(e, DoneField, c, rt);
    DateStepDescription(e, DueField, c, rt);
    RecurrenceStepKeepsNoDate(e, c.doneDateSignifiers, c, rt);
    RecurrenceStepKeepsNoDate(e, c.dueDateSignifiers, c, rt);
  }

  /** On a description on one line, the loop ends with the dates and time flags of its first pass. */
  lemma LoopDatesFromFirstPass(e: Extracted, c: Config, rt: Runtime)
    requires All(e.description, NotLineTerminator)
    ensures SameDates(Loop(e, c, rt), Pass(e, c, rt).after)
  {
    var first := Pass(e, c, rt);
    PassClearsDates(e, c, rt);
    if first.matched {
      assert Loop(e, c, rt) == DoWhile(first.after, 1, PassOf(c, rt));
      var inv := x => DatesRead(x, c) && SameDates(x, first.after);
      forall x | inv(x)
        ensures inv(PassOf(c, rt)(x).after)
      {
        PassKeepsDates(x, c, rt);
      }
      DoWhileKeeps(first.after, 1, PassOf(c, rt), inv);
    }
  }

  /** The text the loop of `fromLine` starts from is on one line. */
  lemma StartDescriptionOneLine(line: string)
    requires MatchTaskLine(line).Some?
    ensures All(StartDescription(Trim(MatchTaskLine(line).value.body)), NotLineTerminator)
  {
    MatchTaskLineWellFormed(line);
    StartDescriptionKeepsOneLine(MatchTaskLine(line).value.body);
  }

  /** Trimming the body and cutting off its block link keeps it on one line. */
  lemma StartDescriptionKeepsOneLine(b: string)
    requires All(b, NotLineTerminator)
    ensures All(StartDescription(Trim(b)), NotLineTerminator)
  {
    CutKeepsNoDate(b, |b|, []);
    assert b[..|b|] == b;
    var body := Trim(b);
    var start := BlockLinkStart(body);
    if start.Some? {
      CutKeepsNoDate(body, start.value, []);
    }
  }

  /**
   * The dates and time flags of the task `fromLine` returns are those of the loop's first
   * pass, since no later pass finds a date signifier. So the done date is set exactly when the
   * text after the leftmost done signifier parses, and `hasDoneTime` exactly when it parsed
   * with a date-time format; the same holds for the due date, looked for in what the done
   * block left.
   */
  lemma FromLineTimeFlags(line: string, path: string, sectionStart: nat, sectionIndex: nat,
                          precedingHeader: Option<string>, c: Config, rt: Runtime)
    requires FromLineSpec(line, path, sectionStart, sectionIndex, precedingHeader, c, rt).Some?
    ensures var d := StartDescription(Trim(MatchTaskLine(line).value.body));
      var e := Extracted(d, None, false, None, false, None);
      var pDone := ParsedDate(d, DoneField, c, rt);
      var pDue := ParsedDate(DateStep(e, DoneField, c, rt).after.description, DueField, c, rt);
      var t := FromLineSpec(line, path, sectionStart, sectionIndex, precedingHeader, c, rt).value;
      t.doneDateTime == Pass(e, c, rt).after.doneDateTime && t.dueDateTime == Pass(e, c, rt).after.dueDateTime
      && (t.doneDateTime.Some? <==> pDone.Some?)
      && (t.hasDoneTime <==> pDone.Some? && pDone.value.format in c.dateTimeFormats)
      && (t.dueDateTime.Some? <==> pDue.Some?)
      && (t.hasDueTime <==> pDue.Some? && pDue.value.format in c.dateTimeFormats)
  {
    var d := StartDescription(Trim(MatchTaskLine(line).value.body));
    var e := Extracted(d, None, false, None, false, None);
    FromLineBlockLink(line, path, sectionStart, sectionIndex, precedingHeader, c, rt);
    StartDescriptionOneLine(line);
    LoopDatesFromFirstPass(e, c, rt);
    FirstPassTimeFlags(d, c, rt);
  }

  // ---------------------------------------------------------------------------------------
  // Writing a task and reading it back

  /** No block link ends `s`. */
  predicate NoBlockLinkIn(s: string) {
    forall j :: 0 <= j <= |s| ==> !IsBlockLink(s[j..])
  }

  /** No signifier of the list matches anywhere in `s`. */
  ghost predicate NoSignifier(s: string, signifiers: seq<string>, kind: TailKind) {
    forall p, k :: !MatchAt(s, Alternatives(signifiers), kind, p, k)
  }

  lemma {:induction false} NoSignifierNotFound(s: string, signifiers: seq<string>, kind: TailKind)
    requires NoSignifier(s, signifiers, kind)
    ensures FindSignifier(s, Alternatives(signifiers), kind, 0).None?
  {
    FindSignifierLeftmost(s, Alternatives(signifiers), kind, 0);
  }

  /** A description without signifiers passes the loop unchanged. */
  lemma LoopQuiet(e: Extracted, c: Config, rt: Runtime)
    requires NoSignifier(e.description, c.doneDateSignifiers, DateTail)
    requires NoSignifier(e.description, c.dueDateSignifiers, DateTail)
    requires NoSignifier(e.description, c.recurrenceSignifiers, RecurrenceTail)
    ensures Loop(e, c, rt) == e
  {
    PassQuiet(e, c, rt);
  }

  /** A description without signifiers makes a pass match nothing. */
  lemma PassQuiet(e: Extracted, c: Config, rt: Runtime)
    requires NoSignifier(e.description, c.doneDateSignifiers, DateTail)
    requires NoSignifier(e.description, c.dueDateSignifiers, DateTail)
    requires NoSignifier(e.description, c.recurrenceSignifiers, RecurrenceTail)
    ensures !Pass(e, c, rt).matched
  {
    NoSignifierNotFound(e.description, c.doneDateSignifiers, DateTail);
    NoSignifierNotFound(e.description, c.dueDateSignifiers, DateTail);
    NoSignifierNotFound(e.description, c.recurrenceSignifiers, RecurrenceTail);
    DateStepDescription(e, DoneField, c, rt);
    DateStepDescription(e, DueField, c, rt);
    RecurrenceStepDescription(e, c, rt);
  }

  /** When the second pass matches nothing, the loop yields what the first pass left. */
  lemma LoopOnePass(e: Extracted, c: Config, rt: Runtime)
    requires !Pass(Pass(e, c, rt).after, c, rt).matched
    ensures Loop(e, c, rt) == Pass(e, c, rt).after
  {
    var first := Pass(e, c, rt);
    if first.matched {
      assert DoWhile(e, 0, PassOf(c, rt)) == DoWhile(first.after, 1, PassOf(c, rt));
    }
  }

  /** The line `toFileLineString` writes, as the pieces the checklist pattern splits it into. */
  lemma WrittenLineMatches(t: Task, o: char, c: Config, rt: Runtime)
    requires t.originalStatusCharacter == [o]
    ensures ToFileLineString(t, c, rt) == Assemble(TaskLineMatch(t.indentation, '-', " ", o, " ", Render(t, DefaultLayout, c, rt), ""))
  {
    var d := Render(t, DefaultLayout, c, rt);
    assert "- [" + [o] + "] " + d == ['-'] + (" " + (['[', o, ']'] + (" " + (d + ""))));
  }

  /**
   * A task without dates and rule, written by `toFileLineString` and read back by `fromLine`
   * at the same place, is the same task without its block link, provided the line it writes
   * is one that `fromLine` reads that way.
   */
  lemma PlainTaskRoundTrip(t: Task, c: Config, rt: Runtime)
    requires t.dueDateTime.None? && !t.hasDueTime && t.doneDateTime.None? && !t.hasDoneTime
    requires t.recurrenceRule.None?
    requires All(t.indentation, IsWhitespace)
    requires |t.originalStatusCharacter| == 1 && !IsLineTerminator(t.originalStatusCharacter[0])
    requires rt.locale.lowerCase(t.originalStatusCharacter) == t.originalStatusCharacter
    requires t.status == (if t.originalStatusCharacter == " " then Todo else Done)
    requires IsTrimmed(t.description) && All(t.description, NotLineTerminator)
    requires Contains(t.description, c.globalFilter)
    requires NoBlockLinkIn(t.description)
    requires NoSignifier(t.description, c.doneDateSignifiers, DateTail)
    requires NoSignifier(t.description, c.dueDateSignifiers, DateTail)
    requires NoSignifier(t.description, c.recurrenceSignifiers, RecurrenceTail)
    ensures FromLineSpec(ToFileLineString(t, c, rt), t.path, t.sectionStart, t.sectionIndex, t.precedingHeader, c, rt)
      == Some(t.(blockLink := ""))
  {
    var o := t.originalStatusCharacter[0];
    assert t.originalStatusCharacter == [o];
    var m := TaskLineMatch(t.indentation, '-', " ", o, " ", t.description, "");
    assert WellFormed(m);
    RenderBare(t, DefaultLayout, c, rt);
    WrittenLineMatches(t, o, c, rt);
    MatchTaskLineComplete(m);
    PlainFromMatch(t, m, c, rt);
  }

  lemma PlainFromMatch(t: Task, m: TaskLineMatch, c: Config, rt: Runtime)
    requires t.dueDateTime.None? && !t.hasDueTime && t.doneDateTime.None? && !t.hasDoneTime
    requires t.recurrenceRule.None?
    requires t.originalStatusCharacter == [m.statusCharacter]
    requires m.body == t.description && m.indentation == t.indentation
    requires rt.locale.lowerCase(t.originalStatusCharacter) == t.originalStatusCharacter
    requires t.status == (if t.originalStatusCharacter == " " then Todo else Done)
    requires IsTrimmed(t.description)
    requires Contains(t.description, c.globalFilter)
    requires NoBlockLinkIn(t.description)
    requires NoSignifier(t.description, c.doneDateSignifiers, DateTail)
    requires NoSignifier(t.description, c.dueDateSignifiers, DateTail)
    requires NoSignifier(t.description, c.recurrenceSignifiers, RecurrenceTail)
    ensures FromMatch(m, t.path, t.sectionStart, t.sectionIndex, t.precedingHeader, c, rt) == Some(t.(blockLink := ""))
  {
    TrimTrimmed(t.description);
    BlockLinkStartUnique(t.description);
    LoopQuiet(Extracted(t.description, None, false, None, false, None), c, rt);
  }

  // ---------------------------------------------------------------------------------------
  // Reading back a task with dates and a rule

  /** Date text that reads back: not empty, on one line, without `^`, and not blank at its end. */
  predicate IsDateText(s: string) {
    |s| >= 1 && All(s, NotLineTerminator) && !IsWhitespace(s[|s| - 1]) && forall i :: 0 <= i < |s| ==> s[i] != '^'
  }

  /**
   * What the round trip needs of moment.js under the formats of `c`. A moment written with
   * the first date-time format, and a moment at 00:00 written with the first date format,
   * is date text that strict parsing against the date-time formats and then the date formats
   * reads back as that moment, with that format; the first date format is no date-time format.
   */
  ghost predicate FormatsReadBack(c: Config, lib: MomentLib) {
    |c.dateTimeFormats| >= 1 && |c.dateFormats| >= 1 && c.dateFormats[0] !in c.dateTimeFormats
    && (forall t ::
          IsDateText(lib.format(t, Some(c.dateTimeFormats[0])))
          && lib.parse(lib.format(t, Some(c.dateTimeFormats[0])), c.dateTimeFormats + c.dateFormats)
            == Some(Parsed(t, c.dateTimeFormats[0])))
    && (forall t :: MinuteOfDay(t) == 0 ==>
          IsDateText(lib.format(t, Some(c.dateFormats[0])))
          && lib.parse(lib.format(t, Some(c.dateFormats[0])), c.dateTimeFormats + c.dateFormats)
            == Some(Parsed(t, c.dateFormats[0])))
  }

  /**
   * What the round trip needs of rrule: `fromText` reads back what `toText` writes, and
   * `toText` writes a trimmed, non-empty run of the characters the recurrence pattern takes.
   */
  ghost predicate RulesReadBack(lib: RRuleLib) {
    forall r :: lib.fromText(lib.toText(r)) == Some(r)
      && |lib.toText(r)| >= 1 && All(lib.toText(r), IsRecurrenceChar) && IsTrimmed(lib.toText(r))
  }

  /** Each signifier list has a first entry for `toString` to write, and it is on one line. */
  predicate SignifiersWritable(c: Config) {
    |c.dueDateSignifiers| >= 1 && All(c.dueDateSignifiers[0], NotLineTerminator)
    && |c.doneDateSignifiers| >= 1 && All(c.doneDateSignifiers[0], NotLineTerminator)
    && |c.recurrenceSignifiers| >= 1 && All(c.recurrenceSignifiers[0], NotLineTerminator)
  }

  /** A time flag only with its date, and a date without a time at 00:00. */
  predicate DateWritable(t: Option<Moment>, hasTime: bool) {
    (hasTime ==> t.Some?) && (t.Some? && !hasTime ==> MinuteOfDay(t.value) == 0)
  }

  /** No alternative of `signifiers` matches `s` at an index before `p`. */
  ghost predicate NoMatchBefore(s: string, signifiers: seq<string>, kind: TailKind, p: int) {
    forall q, k :: 0 <= q < p ==> !MatchAt(s, Alternatives(signifiers), kind, q, k)
  }

  /** The phrases `toFileLineString` writes after the description: the rule, the due date and the done date. */
  function RulePart(t: Task, c: Config, rt: Runtime): string {
    RecurrencePhrase(t, DefaultLayout, c, rt)
  }

  function DuePart(t: Task, c: Config, rt: Runtime): string {
    DatePhrase(c.dueDateSignifiers, t.dueDateTime, t.hasDueTime, false, false, c, rt)
  }

  function DonePart(t: Task, c: Config, rt: Runtime): string {
    DatePhrase(c.doneDateSignifiers, t.doneDateTime, t.hasDoneTime, false, false, c, rt)
  }

  /**
   * Each signifier `toFileLineString` writes is the leftmost match in the text the block of
   * `fromLine` that looks for it searches, and the description holds no signifier.
   */
  ghost predicate SignifiersReadFirst(t: Task, c: Config, rt: Runtime) {
    var d := t.description;
    var r := RulePart(t, c, rt);
    var u := DuePart(t, c, rt);
    var n := DonePart(t, c, rt);
    NoMatchBefore(d + r + u + n, c.doneDateSignifiers, DateTail, |d + r + u| + 1)
    && NoMatchBefore(d + r + u, c.dueDateSignifiers, DateTail, |d + r| + 1)
    && NoMatchBefore(d + r, c.recurrenceSignifiers, RecurrenceTail, |d| + 1)
    && NoSignifier(d, c.doneDateSignifiers, DateTail)
    && NoSignifier(d, c.dueDateSignifiers, DateTail)
    && NoSignifier(d, c.recurrenceSignifiers, RecurrenceTail)
  }

  lemma RenderParts(t: Task, c: Config, rt: Runtime)
    ensures Render(t, DefaultLayout, c, rt) == t.description + RulePart(t, c, rt) + DuePart(t, c, rt) + DonePart(t, c, rt)
  {
  }

  /** A match at `p` with the first alternative, and none before `p`, is the match found. */
  lemma FoundAt(s: string, alts: seq<string>, kind: TailKind, p: nat)
    requires MatchAt(s, alts, kind, p, 0)
    requires forall q, k :: 0 <= q < p ==> !MatchAt(s, alts, kind, q, k)
    ensures FindSignifier(s, alts, kind, 0) == Some(SignifierMatch(p, 0))
  {
    FindSignifierLeftmost(s, alts, kind, 0);
  }

  /** No match before an index past the end is no match at all. */
  lemma NoMatchNotFound(s: string, signifiers: seq<string>, kind: TailKind)
    requires NoMatchBefore(s, signifiers, kind, |s| + 1)
    ensures FindSignifier(s, Alternatives(signifiers), kind, 0).None?
  {
    FindSignifierLeftmost(s, Alternatives(signifiers), kind, 0);
  }

  /** Where the signifier and the text of a phrase ` <signifier> <text>` lie after `pre`. */
  lemma PhraseSlices(pre: string, sig: string, text: string)
    ensures var s := pre + (" " + sig + " " + text);
      var p := |pre| + 1;
      p + |sig| <= |s| && s[..p] == pre + " " && s[p..p + |sig|] == sig && s[p + |sig|..] == " " + text
  {
    var s := pre + (" " + sig + " " + text);
    assert s == (pre + " ") + sig + (" " + text);
  }

  /** Text whose last word follows a space and holds no `^` ends in no block link. */
  lemma EndsInNoBlockLink(x: string, y: string)
    requires |y| >= 1 && forall i :: 0 <= i < |y| ==> y[i] != '^'
    ensures NoBlockLinkIn(x + " " + y)
  {
    var s := x + " " + y;
    forall j | 0 <= j <= |s|
      ensures !IsBlockLink(s[j..])
    {
      var b := s[j..];
      if |b| >= 3 && j < |x| && |x| - j >= 2 {
        assert b[2..][|x| - j - 2] == ' ';
      } else if |b| >= 3 && j < |x| {
        assert b[1] == ' ';
      } else if |b| >= 3 {
        assert b[1] == y[j - |x|];
      }
    }
  }

  lemma TrimmedAppend(x: string, y: string)
    requires x != [] && IsTrimmed(x)
    requires y == [] || !IsWhitespace(y[|y| - 1])
    ensures x + y != [] && IsTrimmed(x + y) && (x + y)[0] == x[0]
  {
    if y != [] {
      assert (x + y)[|x + y| - 1] == y[|y| - 1];
    }
  }

  lemma AllAppend(x: string, y: string, p: char -> bool)
    requires All(x, p) && All(y, p)
    ensures All(x + y, p)
  {
    forall i | 0 <= i < |x + y|
      ensures p((x + y)[i])
    {
      if i >= |x| {
        assert (x + y)[i] == y[i - |x|];
      }
    }
  }

  /** The text `toString` writes for a date under the default layout. */
  function DateText(t: Moment, hasTime: bool, c: Config, rt: Runtime): string
    requires |c.dateTimeFormats| >= 1 && |c.dateFormats| >= 1
  {
    rt.moment.format(t, Some(if hasTime then c.dateTimeFormats[0] else c.dateFormats[0]))
  }

  /** Date text written for a date that is at 00:00 when it has no time reads back as that date, with its time flag. */
  lemma DateTextReadsBack(t: Moment, hasTime: bool, c: Config, rt: Runtime)
    requires FormatsReadBack(c, rt.moment)
    requires !hasTime ==> MinuteOfDay(t) == 0
    ensures IsDateText(DateText(t, hasTime, c, rt))
    ensures ParseDate(DateText(t, hasTime, c, rt), c, rt) == Some((t, hasTime))
  {
    if hasTime {
      assert DateText(t, hasTime, c, rt) == rt.moment.format(t, Some(c.dateTimeFormats[0]));
    } else {
      assert DateText(t, hasTime, c, rt) == rt.moment.format(t, Some(c.dateFormats[0]));
      SetTimeMidnight(t);
    }
  }

  /**
   * In `pre` followed by the phrase ` <first signifier> <text>`, with a tail the pattern
   * accepts and no match before the phrase, the match found is the signifier of the phrase.
   */
  lemma PhraseFound(s: string, pre: string, sigs: seq<string>, kind: TailKind, text: string)
    requires |sigs| >= 1
    requires s == pre + (" " + sigs[0] + " " + text)
    requires TailOk(kind, " " + text)
    requires NoMatchBefore(s, sigs, kind, |pre| + 1)
    ensures FindSignifier(s, Alternatives(sigs), kind, 0) == Some(SignifierMatch(|pre| + 1, 0))
    ensures s[..|pre| + 1] == pre + " " && s[|pre| + 1 + |sigs[0]|..] == " " + text
  {
    PhraseSlices(pre, sigs[0], text);
    assert MatchAt(s, Alternatives(sigs), kind, |pre| + 1, 0);
    FoundAt(s, Alternatives(sigs), kind, |pre| + 1);
  }

  /** A date phrase is on one line, empty or not blank at its end, and ends in no block link. */
  lemma DatePhraseShape(pre: string, sigs: seq<string>, t: Option<Moment>, hasTime: bool, c: Config, rt: Runtime)
    requires |sigs| >= 1 && All(sigs[0], NotLineTerminator)
    requires FormatsReadBack(c, rt.moment) && DateWritable(t, hasTime)
    ensures var s := DatePhrase(sigs, t, hasTime, false, false, c, rt);
      All(s, NotLineTerminator) && (s == [] || !IsWhitespace(s[|s| - 1])) && (s != [] ==> NoBlockLinkIn(pre + s))
  {
    if t.Some? {
      var text := DateText(t.value, hasTime, c, rt);
      DateTextReadsBack(t.value, hasTime, c, rt);
      assert DatePhrase(sigs, t, hasTime, false, false, c, rt) == " " + sigs[0] + " " + text;
      AllAppend(" ", sigs[0], NotLineTerminator);
      AllAppend(" " + sigs[0], " ", NotLineTerminator);
      AllAppend(" " + sigs[0] + " ", text, NotLineTerminator);
      EndsInNoBlockLink(pre + " " + sigs[0], text);
      assert pre + (" " + sigs[0] + " " + text) == pre + " " + sigs[0] + " " + text;
    }
  }

  /** The rule phrase is on one line, empty or not blank at its end, and ends in no block link. */
  lemma RulePhraseShape(pre: string, t: Task, c: Config, rt: Runtime)
    requires SignifiersWritable(c) && RulesReadBack(rt.rrule)
    ensures var s := RulePart(t, c, rt);
      All(s, NotLineTerminator) && (s == [] || !IsWhitespace(s[|s| - 1])) && (s != [] ==> NoBlockLinkIn(pre + s))
  {
    if t.recurrenceRule.Some? {
      var sig := c.recurrenceSignifiers[0];
      var text := rt.rrule.toText(t.recurrenceRule.value);
      assert RulePart(t, c, rt) == " " + sig + " " + text;
      assert All(text, IsRecurrenceChar) && IsTrimmed(text) && |text| >= 1;
      assert All(text, NotLineTerminator);
      AllAppend(" ", sig, NotLineTerminator);
      AllAppend(" " + sig, " ", NotLineTerminator);
      AllAppend(" " + sig + " ", text, NotLineTerminator);
      assert forall i :: 0 <= i < |text| ==> text[i] != '^';
      EndsInNoBlockLink(pre + " " + sig, text);
      assert pre + (" " + sig + " " + text) == pre + " " + sig + " " + text;
    }
  }

  /**
   * The text `toString` writes for a task with a non-empty trimmed description starts with
   * the description, is trimmed, lies on one line and ends in no block link.
   */
  lemma WrittenTextShape(t: Task, c: Config, rt: Runtime)
    requires SignifiersWritable(c) && FormatsReadBack(c, rt.moment) && RulesReadBack(rt.rrule)
    requires DateWritable(t.dueDateTime, t.hasDueTime) && DateWritable(t.doneDateTime, t.hasDoneTime)
    requires t.description != "" && IsTrimmed(t.description) && All(t.description, NotLineTerminator)
    requires NoBlockLinkIn(t.description)
    ensures var w := Render(t, DefaultLayout, c, rt);
      |t.description| <= |w| && w[..|t.description|] == t.description && w[0] == t.description[0]
      && IsTrimmed(w) && All(w, NotLineTerminator) && NoBlockLinkIn(w)
  {
    var d := t.description;
    var r := RulePart(t, c, rt);
    var u := DuePart(t, c, rt);
    var n := DonePart(t, c, rt);
    RenderParts(t, c, rt);
    RenderStartsWithDescription(t, DefaultLayout, c, rt);
    RulePhraseShape(d, t, c, rt);
    DatePhraseShape(d + r, c.dueDateSignifiers, t.dueDateTime, t.hasDueTime, c, rt);
    DatePhraseShape(d + r + u, c.doneDateSignifiers, t.doneDateTime, t.hasDoneTime, c, rt);
    TrimmedAppend(d, r);
    TrimmedAppend(d + r, u);
    TrimmedAppend(d + r + u, n);
    AllAppend(d, r, NotLineTerminator);
    AllAppend(d + r, u, NotLineTerminator);
    AllAppend(d + r + u, n, NotLineTerminator);
    if n == [] {
      assert d + r + u + n == d + r + u;
      if u == [] {
        assert d + r + u == d + r;
        if r == [] {
          assert d + r == d;
        }
      }
    }
  }

  /**
   * A date block that meets the phrase `toString` wrote for date `t` at the end of the
   * description, with no match before it, reads back the date and its time flag and cuts the
   * phrase off.
   */
  lemma DateStepReadsBack(e: Extracted, pre: string, f: DateField, t: Option<Moment>, hasTime: bool, c: Config, rt: Runtime)
    requires |Signifiers(c, f)| >= 1
    requires FormatsReadBack(c, rt.moment) && DateWritable(t, hasTime)
    requires DateOf(e, f).None? && !HasTimeOf(e, f)
    requires IsTrimmed(pre)
    requires e.description == pre + DatePhrase(Signifiers(c, f), t, hasTime, false, false, c, rt)
    requires NoMatchBefore(e.description, Signifiers(c, f), DateTail, |pre| + 1)
    requires All(e.description, NotLineTerminator)
    ensures DateStep(e, f, c, rt).after == WithDate(e, f, t, hasTime).(description := pre)
  {
    var sigs := Signifiers(c, f);
    var alts := Alternatives(sigs);
    if t.None? {
      assert e.description == pre;
      NoMatchNotFound(e.description, sigs, DateTail);
    } else {
      var text := DateText(t.value, hasTime, c, rt);
      DatePhraseFound(e.description, pre, sigs, t.value, hasTime, c, rt);
      DateStepAt(e, f, c, rt, pre, text, t.value, hasTime);
    }
  }

  /** Where the date phrase after `pre` lies, that its signifier is the match found, and that its text parses back. */
  lemma DatePhraseFound(s: string, pre: string, sigs: seq<string>, t: Moment, hasTime: bool, c: Config, rt: Runtime)
    requires |sigs| >= 1
    requires FormatsReadBack(c, rt.moment) && (!hasTime ==> MinuteOfDay(t) == 0)
    requires IsTrimmed(pre)
    requires s == pre + DatePhrase(sigs, Some(t), hasTime, false, false, c, rt)
    requires NoMatchBefore(s, sigs, DateTail, |pre| + 1)
    ensures var text := DateText(t, hasTime, c, rt);
      FindSignifier(s, Alternatives(sigs), DateTail, 0) == Some(SignifierMatch(|pre| + 1, 0))
      && s[|pre| + 1 + |sigs[0]|..] == " " + text && |text| >= 1
      && s[..|pre| + 1] == pre + " " && Trim(pre + " ") == pre
      && ParseDate(text, c, rt) == Some((t, hasTime))
  {
    var text := DateText(t, hasTime, c, rt);
    DateTextReadsBack(t, hasTime, c, rt);
    assert DatePhrase(sigs, Some(t), hasTime, false, false, c, rt) == " " + sigs[0] + " " + text;
    AllAppend(" ", text, NotLineTerminator);
    PhraseFound(s, pre, sigs, DateTail, text);
    TrimPadded([], pre, " ");
    assert [] + pre + " " == pre + " ";
  }

  /** A date block whose match is the first alternative at `p`, followed by a space and date text that parses. */
  lemma DateStepAt(e: Extracted, f: DateField, c: Config, rt: Runtime, pre: string, text: string, t: Moment, hasTime: bool)
    requires |Signifiers(c, f)| >= 1 && !HasTimeOf(e, f)
    requires FindSignifier(e.description, Alternatives(Signifiers(c, f)), DateTail, 0) == Some(SignifierMatch(|pre| + 1, 0))
    requires e.description[|pre| + 1 + |Signifiers(c, f)[0]|..] == " " + text && |text| >= 1
    requires e.description[..|pre| + 1] == pre + " " && Trim(pre + " ") == pre
    requires ParseDate(text, c, rt) == Some((t, hasTime))
    ensures DateStep(e, f, c, rt).after == WithDate(e, f, Some(t), hasTime).(description := pre)
  {
    assert Captured(DateTail, " " + text) == text;
  }

  /**
   * The recurrence block that meets the phrase `toString` wrote for the rule of `task` at the
   * end of the description, with no match before it, reads the rule back and cuts the phrase off.
   */
  lemma RecurrenceStepReadsBack(e: Extracted, pre: string, task: Task, c: Config, rt: Runtime)
    requires SignifiersWritable(c) && RulesReadBack(rt.rrule)
    requires e.recurrenceRule.None?
    requires IsTrimmed(pre)
    requires e.description == pre + RulePart(task, c, rt)
    requires NoMatchBefore(e.description, c.recurrenceSignifiers, RecurrenceTail, |pre| + 1)
    ensures RecurrenceStep(e, c, rt).after == e.(description := pre, recurrenceRule := task.recurrenceRule)
  {
    var alts := Alternatives(c.recurrenceSignifiers);
    if task.recurrenceRule.None? {
      assert e.description == pre;
      NoMatchNotFound(e.description, c.recurrenceSignifiers, RecurrenceTail);
    } else {
      var text := rt.rrule.toText(task.recurrenceRule.value);
      RulePhraseFound(e.description, pre, task, c, rt);
      RecurrenceStepAt(e, c, rt, pre, text, task.recurrenceRule.value);
    }
  }

  /** Where the rule phrase after `pre` lies, and that its signifier is the match found. */
  lemma RulePhraseFound(s: string, pre: string, task: Task, c: Config, rt: Runtime)
    requires SignifiersWritable(c) && RulesReadBack(rt.rrule)
    requires task.recurrenceRule.Some?
    requires IsTrimmed(pre)
    requires s == pre + RulePart(task, c, rt)
    requires NoMatchBefore(s, c.recurrenceSignifiers, RecurrenceTail, |pre| + 1)
    ensures var text := rt.rrule.toText(task.recurrenceRule.value);
      FindSignifier(s, Alternatives(c.recurrenceSignifiers), RecurrenceTail, 0) == Some(SignifierMatch(|pre| + 1, 0))
      && s[|pre| + 1 + |c.recurrenceSignifiers[0]|..] == " " + text && Trim(" " + text) == text
      && s[..|pre| + 1] == pre + " " && Trim(pre + " ") == pre
      && rt.rrule.fromText(text) == Some(task.recurrenceRule.value)
  {
    var sig := c.recurrenceSignifiers[0];
    var text := rt.rrule.toText(task.recurrenceRule.value);
    assert RulePart(task, c, rt) == " " + sig + " " + text;
    assert All(text, IsRecurrenceChar) && IsTrimmed(text) && |text| >= 1;
    AllAppend(" ", text, IsRecurrenceChar);
    PhraseFound(s, pre, c.recurrenceSignifiers, RecurrenceTail, text);
    SpacedTrims(pre, text);
  }

  /** Trimming drops the single space before a trimmed text, and the one after a trimmed text. */
  lemma SpacedTrims(pre: string, text: string)
    requires IsTrimmed(pre) && IsTrimmed(text)
    ensures Trim(" " + text) == text && Trim(pre + " ") == pre
  {
    TrimPadded(" ", text, []);
    assert " " + text + [] == " " + text;
    TrimPadded([], pre, " ");
    assert [] + pre + " " == pre + " ";
  }

  /** The recurrence block whose match is the first alternative after `pre` and a space, followed by a rule that reads. */
  lemma RecurrenceStepAt(e: Extracted, c: Config, rt: Runtime, pre: string, text: string, rule: RRule)
    requires |c.recurrenceSignifiers| >= 1
    requires FindSignifier(e.description, Alternatives(c.recurrenceSignifiers), RecurrenceTail, 0) == Some(SignifierMatch(|pre| + 1, 0))
    requires e.description[|pre| + 1 + |c.recurrenceSignifiers[0]|..] == " " + text && Trim(" " + text) == text
    requires e.description[..|pre| + 1] == pre + " " && Trim(pre + " ") == pre
    requires rt.rrule.fromText(text) == Some(rule)
    ensures RecurrenceStep(e, c, rt).after == e.(description := pre, recurrenceRule := Some(rule))
  {
  }

  // ---------------------------------------------------------------------------------------
  // Reading back a task with an empty description

  /** The first signifier of the list is not empty and does not start with white space. */
  predicate Leads(signifiers: seq<string>) {
    |signifiers| >= 1 && |signifiers[0]| >= 1 && !IsWhitespace(signifiers[0][0])
  }

  /**
   * The signifiers `toString` writes survive the trim of a body that starts with one of them:
   * what the round trip of a task with an empty description needs.
   */
  predicate SignifiersLead(c: Config) {
    Leads(c.dueDateSignifiers) && Leads(c.doneDateSignifiers) && Leads(c.recurrenceSignifiers)
  }

  /** No match before `p` in `s` is no match before `p - 1` once the first character of `s` is dropped. */
  lemma ShiftNoMatch(s: string, signifiers: seq<string>, kind: TailKind, p: int)
    requires |s| >= 1 && NoMatchBefore(s, signifiers, kind, p)
    ensures NoMatchBefore(s[1..], signifiers, kind, p - 1)
  {
    var alts := Alternatives(signifiers);
    forall q, k | 0 <= q < p - 1
      ensures !MatchAt(s[1..], alts, kind, q, k)
    {
      if 0 <= k < |alts| && OccursAt(s[1..], alts[k], q) {
        var j := q + 1 + |alts[k]|;
        forall i | 0 <= i < |alts[k]|
          ensures s[q + 1..j][i] == alts[k][i]
        {
          assert s[q + 1..j][i] == s[1..][q + i] == s[1..][q..q + |alts[k]|][i];
        }
        assert s[j..] == s[1..][q + |alts[k]|..];
        assert OccursAt(s, alts[k], q + 1);
        assert MatchAt(s[1..], alts, kind, q, k) ==> MatchAt(s, alts, kind, q + 1, k);
      }
    }
  }

  /** Text that is empty, or a space followed by trimmed text that is not empty: how each phrase is written. */
  predicate LeadPhrase(s: string) {
    s == [] || (s[0] == ' ' && s[1..] != [] && IsTrimmed(s[1..]))
  }

  /** Such phrases in a row are one such phrase. */
  lemma LeadPhrasesJoin(x: string, y: string)
    requires LeadPhrase(x) && LeadPhrase(y)
    ensures LeadPhrase(x + y)
    ensures x != [] ==> (x + y)[1..] == x[1..] + y
    ensures y == [] || !IsWhitespace(y[|y| - 1])
  {
    if y != [] {
      assert y[|y| - 1] == y[1..][|y[1..]| - 1];
    }
    if x != [] && y != [] {
      var z := x + y;
      assert z[1..] == x[1..] + y;
      assert z[1..][|z[1..]| - 1] == y[|y| - 1];
    } else if x == [] {
      assert x + y == y;
    } else {
      assert x + y == x;
    }
  }

  /** A date phrase is written as a space followed by trimmed text, or not at all. */
  lemma DateLeadShape(sigs: seq<string>, t: Option<Moment>, hasTime: bool, c: Config, rt: Runtime)
    requires Leads(sigs) && FormatsReadBack(c, rt.moment) && DateWritable(t, hasTime)
    ensures LeadPhrase(DatePhrase(sigs, t, hasTime, false, false, c, rt))
  {
    if t.Some? {
      var text := DateText(t.value, hasTime, c, rt);
      DateTextReadsBack(t.value, hasTime, c, rt);
      var s := DatePhrase(sigs, t, hasTime, false, false, c, rt);
      assert s == " " + sigs[0] + " " + text;
      assert s[1..][0] == sigs[0][0];
      assert s[1..][|s[1..]| - 1] == text[|text| - 1];
    }
  }

  /** The rule phrase is written as a space followed by trimmed text, or not at all. */
  lemma RuleLeadShape(t: Task, c: Config, rt: Runtime)
    requires Leads(c.recurrenceSignifiers) && RulesReadBack(rt.rrule)
    ensures LeadPhrase(RulePart(t, c, rt))
  {
    if t.recurrenceRule.Some? {
      var sig := c.recurrenceSignifiers[0];
      var text := rt.rrule.toText(t.recurrenceRule.value);
      var s := RulePart(t, c, rt);
      assert s == " " + sig + " " + text;
      assert IsTrimmed(text) && |text| >= 1;
      assert s[1..][0] == sig[0];
      assert s[1..][|s[1..]| - 1] == text[|text| - 1];
    }
  }

  /** The phrases written after an empty description are each a space followed by trimmed text, or nothing. */
  lemma PartsLead(t: Task, c: Config, rt: Runtime)
    requires SignifiersLead(c) && FormatsReadBack(c, rt.moment) && RulesReadBack(rt.rrule)
    requires DateWritable(t.dueDateTime, t.hasDueTime) && DateWritable(t.doneDateTime, t.hasDoneTime)
    ensures LeadPhrase(RulePart(t, c, rt)) && LeadPhrase(DuePart(t, c, rt)) && LeadPhrase(DonePart(t, c, rt))
  {
    RuleLeadShape(t, c, rt);
    DateLeadShape(c.dueDateSignifiers, t.dueDateTime, t.hasDueTime, c, rt);
    DateLeadShape(c.doneDateSignifiers, t.doneDateTime, t.hasDoneTime, c, rt);
  }

  /** The phrases are on one line. */
  lemma PartsOneLine(t: Task, c: Config, rt: Runtime)
    requires SignifiersWritable(c) && FormatsReadBack(c, rt.moment) && RulesReadBack(rt.rrule)
    requires DateWritable(t.dueDateTime, t.hasDueTime) && DateWritable(t.doneDateTime, t.hasDoneTime)
    ensures var r := RulePart(t, c, rt);
      var u := DuePart(t, c, rt);
      All(r, NotLineTerminator) && All(u, NotLineTerminator) && All(DonePart(t, c, rt), NotLineTerminator)
  {
    var r := RulePart(t, c, rt);
    RulePhraseShape([], t, c, rt);
    DatePhraseShape(r, c.dueDateSignifiers, t.dueDateTime, t.hasDueTime, c, rt);
    DatePhraseShape(r + DuePart(t, c, rt), c.doneDateSignifiers, t.doneDateTime, t.hasDoneTime, c, rt);
  }

  /**
   * A date block on the date phrase without its leading space, which is what `fromLine` meets
   * first after an empty description, reads back the date and its time flag and leaves an
   * empty description.
   */
  lemma LeadDateStepReadsBack(e: Extracted, f: DateField, t: Moment, hasTime: bool, c: Config, rt: Runtime)
    requires |Signifiers(c, f)| >= 1
    requires FormatsReadBack(c, rt.moment) && (!hasTime ==> MinuteOfDay(t) == 0)
    requires DateOf(e, f).None? && !HasTimeOf(e, f)
    requires e.description == DatePhrase(Signifiers(c, f), Some(t), hasTime, false, false, c, rt)[1..]
    ensures DateStep(e, f, c, rt).after == WithDate(e, f, Some(t), hasTime).(description := "")
  {
    var sigs := Signifiers(c, f);
    var alts := Alternatives(sigs);
    var text := DateText(t, hasTime, c, rt);
    DateTextReadsBack(t, hasTime, c, rt);
    assert DatePhrase(sigs, Some(t), hasTime, false, false, c, rt) == " " + sigs[0] + " " + text;
    var s := e.description;
    assert s == sigs[0] + (" " + text);
    assert s[0..|sigs[0]|] == sigs[0] && s[|sigs[0]|..] == " " + text;
    AllAppend(" ", text, NotLineTerminator);
    assert MatchAt(s, alts, DateTail, 0, 0);
    FoundAt(s, alts, DateTail, 0);
    assert Captured(DateTail, " " + text) == text;
  }

  /**
   * The recurrence block on the rule phrase without its leading space reads the rule back and
   * leaves an empty description.
   */
  lemma LeadRecurrenceStepReadsBack(e: Extracted, task: Task, c: Config, rt: Runtime)
    requires SignifiersWritable(c) && RulesReadBack(rt.rrule)
    requires task.recurrenceRule.Some? && e.recurrenceRule.None?
    requires e.description == RulePart(task, c, rt)[1..]
    ensures RecurrenceStep(e, c, rt).after == e.(description := "", recurrenceRule := task.recurrenceRule)
  {
    var sig := c.recurrenceSignifiers[0];
    var alts := Alternatives(c.recurrenceSignifiers);
    var text := rt.rrule.toText(task.recurrenceRule.value);
    assert RulePart(task, c, rt) == " " + sig + " " + text;
    assert All(text, IsRecurrenceChar) && IsTrimmed(text) && |text| >= 1;
    var s := e.description;
    assert s == sig + (" " + text);
    assert s[0..|sig|] == sig && s[|sig|..] == " " + text;
    AllAppend(" ", text, IsRecurrenceChar);
    assert MatchAt(s, alts, RecurrenceTail, 0, 0);
    FoundAt(s, alts, RecurrenceTail, 0);
    SpacedTrims([], text);
  }

  /** The conditions under which the first pass reads back a task with an empty description. */
  ghost predicate EmptyReadable(t: Task, c: Config, rt: Runtime) {
    SignifiersWritable(c) && SignifiersLead(c) && FormatsReadBack(c, rt.moment) && RulesReadBack(rt.rrule)
    && DateWritable(t.dueDateTime, t.hasDueTime) && DateWritable(t.doneDateTime, t.hasDoneTime)
    && t.description == "" && SignifiersReadFirst(t, c, rt)
  }

  /** An empty description followed by a rule: the body starts with the recurrence signifier. */
  lemma EmptyFirstPassFromRule(t: Task, c: Config, rt: Runtime)
    requires EmptyReadable(t, c, rt) && RulePart(t, c, rt) != ""
    ensures Pass(Extracted(Render(t, DefaultLayout, c, rt)[1..], None, false, None, false, None), c, rt).after
      == Extracted("", t.dueDateTime, t.hasDueTime, t.doneDateTime, t.hasDoneTime, t.recurrenceRule)
  {
    var r := RulePart(t, c, rt);
    var u := DuePart(t, c, rt);
    var n := DonePart(t, c, rt);
    RuleFirstTexts(t, c, rt);
    var e0 := Extracted(r[1..] + u + n, None, false, None, false, None);
    DateStepReadsBack(e0, r[1..] + u, DoneField, t.doneDateTime, t.hasDoneTime, c, rt);
    var e1 := Extracted(r[1..] + u, None, false, t.doneDateTime, t.hasDoneTime, None);
    DateStepReadsBack(e1, r[1..], DueField, t.dueDateTime, t.hasDueTime, c, rt);
    var e2 := Extracted(r[1..], t.dueDateTime, t.hasDueTime, t.doneDateTime, t.hasDoneTime, None);
    LeadRecurrenceStepReadsBack(e2, t, c, rt);
  }

  /** The texts the three blocks meet when the rule comes first after an empty description. */
  lemma RuleFirstTexts(t: Task, c: Config, rt: Runtime)
    requires SignifiersWritable(c) && SignifiersLead(c) && FormatsReadBack(c, rt.moment) && RulesReadBack(rt.rrule)
    requires DateWritable(t.dueDateTime, t.hasDueTime) && DateWritable(t.doneDateTime, t.hasDoneTime)
    requires t.description == "" && SignifiersReadFirst(t, c, rt) && RulePart(t, c, rt) != ""
    ensures var r := RulePart(t, c, rt);
      var u := DuePart(t, c, rt);
      var n := DonePart(t, c, rt);
      Render(t, DefaultLayout, c, rt)[1..] == r[1..] + u + n
      && IsTrimmed(r[1..]) && IsTrimmed(r[1..] + u)
      && All(r[1..] + u, NotLineTerminator) && All(r[1..] + u + n, NotLineTerminator)
      && NoMatchBefore(r[1..] + u + n, c.doneDateSignifiers, DateTail, |r[1..] + u| + 1)
      && NoMatchBefore(r[1..] + u, c.dueDateSignifiers, DateTail, |r[1..]| + 1)
  {
    var r := RulePart(t, c, rt);
    var u := DuePart(t, c, rt);
    var n := DonePart(t, c, rt);
    EmptyReadFirst(t, c, rt);
    PartsLead(t, c, rt);
    PartsOneLine(t, c, rt);
    RuleFirstStrings(r, u, n, c.dueDateSignifiers, c.doneDateSignifiers);
  }

  /** After an empty description the text written is the three phrases, none of them matched early. */
  lemma EmptyReadFirst(t: Task, c: Config, rt: Runtime)
    requires t.description == "" && SignifiersReadFirst(t, c, rt)
    ensures var r := RulePart(t, c, rt);
      var u := DuePart(t, c, rt);
      var n := DonePart(t, c, rt);
      Render(t, DefaultLayout, c, rt) == r + u + n
      && NoMatchBefore(r + u + n, c.doneDateSignifiers, DateTail, |r + u| + 1)
      && NoMatchBefore(r + u, c.dueDateSignifiers, DateTail, |r| + 1)
  {
    var r := RulePart(t, c, rt);
    var u := DuePart(t, c, rt);
    var n := DonePart(t, c, rt);
    RenderParts(t, c, rt);
    assert t.description + r + u + n == r + u + n && t.description + r + u == r + u;
  }

  /** The same, for any three phrases on one line, the first of them not empty. */
  lemma RuleFirstStrings(r: string, u: string, n: string, due: seq<string>, done: seq<string>)
    requires r != [] && LeadPhrase(r) && LeadPhrase(u) && LeadPhrase(n)
    requires All(r, NotLineTerminator) && All(u, NotLineTerminator) && All(n, NotLineTerminator)
    requires NoMatchBefore(r + u + n, done, DateTail, |r + u| + 1)
    requires NoMatchBefore(r + u, due, DateTail, |r| + 1)
    ensures (r + u + n)[1..] == r[1..] + u + n
    ensures IsTrimmed(r[1..]) && IsTrimmed(r[1..] + u)
    ensures All(r[1..] + u, NotLineTerminator) && All(r[1..] + u + n, NotLineTerminator)
    ensures NoMatchBefore(r[1..] + u + n, done, DateTail, |r[1..] + u| + 1)
    ensures NoMatchBefore(r[1..] + u, due, DateTail, |r[1..]| + 1)
  {
    FirstPhraseTexts(r, u);
    LeadPhrasesJoin(r, u);
    AllAppend(r, u, NotLineTerminator);
    FirstPhraseTexts(r + u, n);
    ShiftNoMatch(r + u + n, done, DateTail, |r + u| + 1);
    ShiftNoMatch(r + u, due, DateTail, |r| + 1);
    assert (r + u + n)[1..] == r[1..] + u + n;
    assert (r + u)[1..] == r[1..] + u;
  }

  /** How a written phrase followed by more text reads once the space before it is dropped. */
  lemma FirstPhraseTexts(x: string, y: string)
    requires x != [] && LeadPhrase(x) && LeadPhrase(y)
    requires All(x, NotLineTerminator) && All(y, NotLineTerminator)
    ensures IsTrimmed(x[1..]) && IsTrimmed(x[1..] + y) && All(x[1..] + y, NotLineTerminator)
    ensures (x + y)[1..] == x[1..] + y
  {
    LeadPhrasesJoin(x, y);
    TrimmedAppend(x[1..], y);
    AllAppend(x[1..], y, NotLineTerminator);
  }

  /** An empty description and no rule, followed by a due date: the body starts with the due signifier. */
  lemma EmptyFirstPassFromDue(t: Task, c: Config, rt: Runtime)
    requires EmptyReadable(t, c, rt) && RulePart(t, c, rt) == "" && DuePart(t, c, rt) != ""
    ensures Pass(Extracted(Render(t, DefaultLayout, c, rt)[1..], None, false, None, false, None), c, rt).after
      == Extracted("", t.dueDateTime, t.hasDueTime, t.doneDateTime, t.hasDoneTime, t.recurrenceRule)
  {
    var d := t.description;
    var r := RulePart(t, c, rt);
    var u := DuePart(t, c, rt);
    var n := DonePart(t, c, rt);
    RenderParts(t, c, rt);
    assert d + r + u + n == u + n && d + r + u == u && d + r == "";
    PartsLead(t, c, rt);
    PartsOneLine(t, c, rt);
    FirstPhraseTexts(u, n);
    ShiftNoMatch(u + n, c.doneDateSignifiers, DateTail, |u| + 1);
    var e0 := Extracted((u + n)[1..], None, false, None, false, None);
    DateStepReadsBack(e0, u[1..], DoneField, t.doneDateTime, t.hasDoneTime, c, rt);
    var e1 := Extracted(u[1..], None, false, t.doneDateTime, t.hasDoneTime, None);
    LeadDateStepReadsBack(e1, DueField, t.dueDateTime.value, t.hasDueTime, c, rt);
    var e2 := Extracted("", t.dueDateTime, t.hasDueTime, t.doneDateTime, t.hasDoneTime, None);
    RecurrenceStepReadsBack(e2, "", t, c, rt);
  }

  /** An empty description, no rule and no due date, followed by a done date. */
  lemma EmptyFirstPassFromDone(t: Task, c: Config, rt: Runtime)
    requires EmptyReadable(t, c, rt) && RulePart(t, c, rt) == "" && DuePart(t, c, rt) == "" && DonePart(t, c, rt) != ""
    ensures Pass(Extracted(Render(t, DefaultLayout, c, rt)[1..], None, false, None, false, None), c, rt).after
      == Extracted("", t.dueDateTime, t.hasDueTime, t.doneDateTime, t.hasDoneTime, t.recurrenceRule)
  {
    var d := t.description;
    var r := RulePart(t, c, rt);
    var u := DuePart(t, c, rt);
    var n := DonePart(t, c, rt);
    RenderParts(t, c, rt);
    assert d + r + u + n == n && d + r + u == "" && d + r == "";
    var e0 := Extracted(n[1..], None, false, None, false, None);
    LeadDateStepReadsBack(e0, DoneField, t.doneDateTime.value, t.hasDoneTime, c, rt);
    var e1 := Extracted("", None, false, t.doneDateTime, t.hasDoneTime, None);
    DateStepReadsBack(e1, "", DueField, t.dueDateTime, t.hasDueTime, c, rt);
    var e2 := Extracted("", t.dueDateTime, t.hasDueTime, t.doneDateTime, t.hasDoneTime, None);
    RecurrenceStepReadsBack(e2, "", t, c, rt);
  }

  /**
   * The text written for a task with an empty description and something after it: a space,
   * then trimmed text on one line that ends in no block link.
   */
  lemma EmptyWrittenTextShape(t: Task, c: Config, rt: Runtime)
    requires SignifiersWritable(c) && SignifiersLead(c) && FormatsReadBack(c, rt.moment) && RulesReadBack(rt.rrule)
    requires DateWritable(t.dueDateTime, t.hasDueTime) && DateWritable(t.doneDateTime, t.hasDoneTime)
    requires t.description == "" && Render(t, DefaultLayout, c, rt) != ""
    ensures var w := Render(t, DefaultLayout, c, rt);
      w[0] == ' ' && w[1..] != [] && IsTrimmed(w[1..]) && All(w[1..], NotLineTerminator) && NoBlockLinkIn(w[1..])
  {
    var d := t.description;
    var r := RulePart(t, c, rt);
    var u := DuePart(t, c, rt);
    var n := DonePart(t, c, rt);
    RenderParts(t, c, rt);
    var w := r + u + n;
    assert d + r + u + n == w;
    PartsLead(t, c, rt);
    PartsOneLine(t, c, rt);
    PhrasesJoin(r, u, n);
    EmptyWrittenNoBlockLink(t, c, rt);
    NoBlockLinkDropFirst(w);
  }

  /** Three phrases in a row, on one line, are one phrase on one line. */
  lemma PhrasesJoin(r: string, u: string, n: string)
    requires LeadPhrase(r) && LeadPhrase(u) && LeadPhrase(n)
    requires All(r, NotLineTerminator) && All(u, NotLineTerminator) && All(n, NotLineTerminator)
    ensures LeadPhrase(r + u + n) && All(r + u + n, NotLineTerminator)
  {
    LeadPhrasesJoin(r, u);
    LeadPhrasesJoin(r + u, n);
    AllAppend(r, u, NotLineTerminator);
    AllAppend(r + u, n, NotLineTerminator);
  }

  /** The text written after an empty description ends in no block link. */
  lemma EmptyWrittenNoBlockLink(t: Task, c: Config, rt: Runtime)
    requires SignifiersWritable(c) && FormatsReadBack(c, rt.moment) && RulesReadBack(rt.rrule)
    requires DateWritable(t.dueDateTime, t.hasDueTime) && DateWritable(t.doneDateTime, t.hasDoneTime)
    requires t.description == ""
    ensures NoBlockLinkIn(Render(t, DefaultLayout, c, rt))
  {
    var r := RulePart(t, c, rt);
    var u := DuePart(t, c, rt);
    var n := DonePart(t, c, rt);
    RenderParts(t, c, rt);
    assert t.description + r + u + n == r + u + n;
    RulePhraseShape([], t, c, rt);
    DatePhraseShape(r, c.dueDateSignifiers, t.dueDateTime, t.hasDueTime, c, rt);
    DatePhraseShape(r + u, c.doneDateSignifiers, t.doneDateTime, t.hasDoneTime, c, rt);
    if n == [] {
      assert r + u + n == r + u;
      if u == [] {
        assert r + u == [] + r;
        assert r == [] ==> !IsBlockLink(r[0..]);
      }
    }
  }

  lemma NoBlockLinkDropFirst(s: string)
    requires s != [] && NoBlockLinkIn(s)
    ensures NoBlockLinkIn(s[1..])
  {
    forall j | 0 <= j <= |s[1..]|
      ensures !IsBlockLink(s[1..][j..])
    {
      assert s[1..][j..] == s[j + 1..];
    }
  }

  /**
   * The first pass over a task with an empty description, as `fromLine` sees the text
   * `toString` wrote (without the space it starts with), reads back the dates and the rule.
   */
  lemma EmptyFirstPassReadsBack(t: Task, c: Config, rt: Runtime)
    requires EmptyReadable(t, c, rt) && Render(t, DefaultLayout, c, rt) != ""
    ensures Pass(Extracted(Render(t, DefaultLayout, c, rt)[1..], None, false, None, false, None), c, rt).after
      == Extracted("", t.dueDateTime, t.hasDueTime, t.doneDateTime, t.hasDoneTime, t.recurrenceRule)
  {
    RenderParts(t, c, rt);
    if RulePart(t, c, rt) != "" {
      EmptyFirstPassFromRule(t, c, rt);
    } else if DuePart(t, c, rt) != "" {
      EmptyFirstPassFromDue(t, c, rt);
    } else {
      EmptyFirstPassFromDone(t, c, rt);
    }
  }

  /**
   * The first pass over the text `toString` wrote, trimmed as `fromLine` trims the body, reads
   * back the description, the done date, the due date and the rule. After an empty
   * description the trim drops the space the first phrase starts with, so the signifiers
   * written must start with a character the trim keeps.
   */
  lemma FirstPassReadsBack(t: Task, c: Config, rt: Runtime)
    requires SignifiersWritable(c) && FormatsReadBack(c, rt.moment) && RulesReadBack(rt.rrule)
    requires DateWritable(t.dueDateTime, t.hasDueTime) && DateWritable(t.doneDateTime, t.hasDoneTime)
    requires IsTrimmed(t.description) && All(t.description, NotLineTerminator)
    requires t.description == "" ==> SignifiersLead(c)
    requires NoBlockLinkIn(t.description)
    requires SignifiersReadFirst(t, c, rt)
    ensures Pass(Extracted(Trim(Render(t, DefaultLayout, c, rt)), None, false, None, false, None), c, rt).after
      == Extracted(t.description, t.dueDateTime, t.hasDueTime, t.doneDateTime, t.hasDoneTime, t.recurrenceRule)
  {
    var w := Render(t, DefaultLayout, c, rt);
    if t.description != "" {
      WrittenTextShape(t, c, rt);
      TrimTrimmed(w);
      DescribedFirstPassReadsBack(t, c, rt);
    } else if w == "" {
      WrittenNothing(t, c, rt);
      PassQuiet(Extracted("", None, false, None, false, None), c, rt);
    } else {
      EmptyWrittenTextShape(t, c, rt);
      TrimPadded(" ", w[1..], []);
      assert " " + w[1..] + [] == w;
      EmptyFirstPassReadsBack(t, c, rt);
    }
  }

  /** A task for which `toString` writes nothing has an empty description, no dates and no rule. */
  lemma WrittenNothing(t: Task, c: Config, rt: Runtime)
    requires DateWritable(t.dueDateTime, t.hasDueTime) && DateWritable(t.doneDateTime, t.hasDoneTime)
    requires Render(t, DefaultLayout, c, rt) == ""
    ensures t.description == "" && t.recurrenceRule.None?
    ensures t.dueDateTime.None? && !t.hasDueTime && t.doneDateTime.None? && !t.hasDoneTime
  {
    RenderParts(t, c, rt);
  }

  /** The first pass over the text written for a task with a description. */
  lemma DescribedFirstPassReadsBack(t: Task, c: Config, rt: Runtime)
    requires SignifiersWritable(c) && FormatsReadBack(c, rt.moment) && RulesReadBack(rt.rrule)
    requires DateWritable(t.dueDateTime, t.hasDueTime) && DateWritable(t.doneDateTime, t.hasDoneTime)
    requires t.description != "" && IsTrimmed(t.description) && All(t.description, NotLineTerminator)
    requires NoBlockLinkIn(t.description)
    requires SignifiersReadFirst(t, c, rt)
    ensures Pass(Extracted(Render(t, DefaultLayout, c, rt), None, false, None, false, None), c, rt).after
      == Extracted(t.description, t.dueDateTime, t.hasDueTime, t.doneDateTime, t.hasDoneTime, t.recurrenceRule)
  {
    var d := t.description;
    var r := RulePart(t, c, rt);
    var u := DuePart(t, c, rt);
    var n := DonePart(t, c, rt);
    RenderParts(t, c, rt);
    WrittenTextShape(t, c, rt);
    RulePhraseShape(d, t, c, rt);
    DatePhraseShape(d + r, c.dueDateSignifiers, t.dueDateTime, t.hasDueTime, c, rt);
    TrimmedAppend(d, r);
    TrimmedAppend(d + r, u);
    AllAppend(d, r, NotLineTerminator);
    AllAppend(d + r, u, NotLineTerminator);
    var e0 := Extracted(d + r + u + n, None, false, None, false, None);
    DateStepReadsBack(e0, d + r + u, DoneField, t.doneDateTime, t.hasDoneTime, c, rt);
    var e1 := Extracted(d + r + u, None, false, t.doneDateTime, t.hasDoneTime, None);
    DateStepReadsBack(e1, d + r, DueField, t.dueDateTime, t.hasDueTime, c, rt);
    var e2 := Extracted(d + r, t.dueDateTime, t.hasDueTime, t.doneDateTime, t.hasDoneTime, None);
    RecurrenceStepReadsBack(e2, d, t, c, rt);
  }

  /**
   * A task written by `toFileLineString` and read back by `fromLine` at the same place is the
   * same task without its block link, its dates, time flags and rule included. This holds
   * provided moment.js and rrule read back what they write, each signifier written is the
   * first match `fromLine` meets, and, for an empty description, the signifiers written start
   * with a character `trim` keeps.
   */
  lemma TaskRoundTrip(t: Task, c: Config, rt: Runtime)
    requires SignifiersWritable(c) && FormatsReadBack(c, rt.moment) && RulesReadBack(rt.rrule)
    requires DateWritable(t.dueDateTime, t.hasDueTime) && DateWritable(t.doneDateTime, t.hasDoneTime)
    requires All(t.indentation, IsWhitespace)
    requires |t.originalStatusCharacter| == 1 && !IsLineTerminator(t.originalStatusCharacter[0])
    requires rt.locale.lowerCase(t.originalStatusCharacter) == t.originalStatusCharacter
    requires t.status == (if t.originalStatusCharacter == " " then Todo else Done)
    requires IsTrimmed(t.description) && All(t.description, NotLineTerminator)
    requires t.description == "" ==> SignifiersLead(c)
    requires Contains(t.description, c.globalFilter)
    requires NoBlockLinkIn(t.description)
    requires SignifiersReadFirst(t, c, rt)
    ensures FromLineSpec(ToFileLineString(t, c, rt), t.path, t.sectionStart, t.sectionIndex, t.precedingHeader, c, rt)
      == Some(t.(blockLink := ""))
  {
    if t.description != "" {
      DescribedRoundTrip(t, c, rt);
    } else if Render(t, DefaultLayout, c, rt) == "" {
      WrittenNothing(t, c, rt);
      PlainTaskRoundTrip(t, c, rt);
    } else {
      EmptyRoundTrip(t, c, rt);
    }
  }

  /** The round trip of a task with a description. */
  lemma DescribedRoundTrip(t: Task, c: Config, rt: Runtime)
    requires SignifiersWritable(c) && FormatsReadBack(c, rt.moment) && RulesReadBack(rt.rrule)
    requires DateWritable(t.dueDateTime, t.hasDueTime) && DateWritable(t.doneDateTime, t.hasDoneTime)
    requires All(t.indentation, IsWhitespace)
    requires |t.originalStatusCharacter| == 1 && !IsLineTerminator(t.originalStatusCharacter[0])
    requires rt.locale.lowerCase(t.originalStatusCharacter) == t.originalStatusCharacter
    requires t.status == (if t.originalStatusCharacter == " " then Todo else Done)
    requires t.description != "" && IsTrimmed(t.description) && All(t.description, NotLineTerminator)
    requires Contains(t.description, c.globalFilter)
    requires NoBlockLinkIn(t.description)
    requires SignifiersReadFirst(t, c, rt)
    ensures FromLineSpec(ToFileLineString(t, c, rt), t.path, t.sectionStart, t.sectionIndex, t.precedingHeader, c, rt)
      == Some(t.(blockLink := ""))
  {
    var o := t.originalStatusCharacter[0];
    assert t.originalStatusCharacter == [o];
    var w := Render(t, DefaultLayout, c, rt);
    WrittenLineMatches(t, o, c, rt);
    WrittenTextShape(t, c, rt);
    var m := TaskLineMatch(t.indentation, '-', " ", o, " ", w, "");
    assert WellFormed(m);
    MatchTaskLineComplete(m);
    WrittenFromMatch(t, m, c, rt);
  }

  /**
   * The round trip of a task with an empty description and something after it: the pad of
   * the checklist pattern takes the space the first phrase starts with.
   */
  lemma EmptyRoundTrip(t: Task, c: Config, rt: Runtime)
    requires SignifiersWritable(c) && FormatsReadBack(c, rt.moment) && RulesReadBack(rt.rrule)
    requires DateWritable(t.dueDateTime, t.hasDueTime) && DateWritable(t.doneDateTime, t.hasDoneTime)
    requires All(t.indentation, IsWhitespace)
    requires |t.originalStatusCharacter| == 1 && !IsLineTerminator(t.originalStatusCharacter[0])
    requires rt.locale.lowerCase(t.originalStatusCharacter) == t.originalStatusCharacter
    requires t.status == (if t.originalStatusCharacter == " " then Todo else Done)
    requires t.description == "" && SignifiersLead(c) && Render(t, DefaultLayout, c, rt) != ""
    requires Contains(t.description, c.globalFilter)
    requires NoBlockLinkIn(t.description)
    requires SignifiersReadFirst(t, c, rt)
    ensures FromLineSpec(ToFileLineString(t, c, rt), t.path, t.sectionStart, t.sectionIndex, t.precedingHeader, c, rt)
      == Some(t.(blockLink := ""))
  {
    var o := t.originalStatusCharacter[0];
    assert t.originalStatusCharacter == [o];
    var m := TaskLineMatch(t.indentation, '-', " ", o, "  ", Render(t, DefaultLayout, c, rt)[1..], "");
    EmptyLineMatches(t, o, c, rt);
    MatchTaskLineComplete(m);
    EmptyFromMatch(t, m, c, rt);
  }

  /** The line written for a task with an empty description, as the checklist pattern splits it. */
  lemma EmptyLineMatches(t: Task, o: char, c: Config, rt: Runtime)
    requires SignifiersWritable(c) && SignifiersLead(c) && FormatsReadBack(c, rt.moment) && RulesReadBack(rt.rrule)
    requires DateWritable(t.dueDateTime, t.hasDueTime) && DateWritable(t.doneDateTime, t.hasDoneTime)
    requires t.description == "" && Render(t, DefaultLayout, c, rt) != ""
    requires All(t.indentation, IsWhitespace) && t.originalStatusCharacter == [o] && !IsLineTerminator(o)
    ensures var m := TaskLineMatch(t.indentation, '-', " ", o, "  ", Render(t, DefaultLayout, c, rt)[1..], "");
      WellFormed(m) && ToFileLineString(t, c, rt) == Assemble(m)
  {
    WrittenLineMatches(t, o, c, rt);
    EmptyWrittenTextShape(t, c, rt);
    PaddedLine(t.indentation, o, Render(t, DefaultLayout, c, rt));
  }

  /** A body that starts with a space reads as one more space of padding before the rest. */
  lemma PaddedLine(indentation: string, o: char, w: string)
    requires All(indentation, IsWhitespace) && !IsLineTerminator(o)
    requires |w| >= 2 && w[0] == ' ' && IsTrimmed(w[1..]) && All(w[1..], NotLineTerminator)
    ensures var m := TaskLineMatch(indentation, '-', " ", o, "  ", w[1..], "");
      WellFormed(m) && Assemble(TaskLineMatch(indentation, '-', " ", o, " ", w, "")) == Assemble(m)
  {
    assert " " + (w + "") == "  " + (w[1..] + "");
  }

  /** `fromLine` on the pieces of the line written for a task with an empty description and something after it. */
  lemma EmptyFromMatch(t: Task, m: TaskLineMatch, c: Config, rt: Runtime)
    requires EmptyReadable(t, c, rt) && Render(t, DefaultLayout, c, rt) != ""
    requires t.originalStatusCharacter == [m.statusCharacter]
    requires m.body == Render(t, DefaultLayout, c, rt)[1..] && m.indentation == t.indentation
    requires rt.locale.lowerCase(t.originalStatusCharacter) == t.originalStatusCharacter
    requires t.status == (if t.originalStatusCharacter == " " then Todo else Done)
    requires Contains(t.description, c.globalFilter)
    ensures FromMatch(m, t.path, t.sectionStart, t.sectionIndex, t.precedingHeader, c, rt) == Some(t.(blockLink := ""))
  {
    var b := m.body;
    EmptyWrittenTextShape(t, c, rt);
    TrimTrimmed(b);
    assert b[0..0] == t.description;
    ContainsSlice(b, 0, 0, c.globalFilter);
    BlockLinkStartUnique(b);
    assert BlockLinkOf(b) == "" && StartDescription(b) == b;
    var e := Extracted(b, None, false, None, false, None);
    EmptyFirstPassReadsBack(t, c, rt);
    PassQuiet(Pass(e, c, rt).after, c, rt);
    LoopOnePass(e, c, rt);
  }

  lemma WrittenFromMatch(t: Task, m: TaskLineMatch, c: Config, rt: Runtime)
    requires SignifiersWritable(c) && FormatsReadBack(c, rt.moment) && RulesReadBack(rt.rrule)
    requires DateWritable(t.dueDateTime, t.hasDueTime) && DateWritable(t.doneDateTime, t.hasDoneTime)
    requires t.originalStatusCharacter == [m.statusCharacter]
    requires m.body == Render(t, DefaultLayout, c, rt) && m.indentation == t.indentation
    requires rt.locale.lowerCase(t.originalStatusCharacter) == t.originalStatusCharacter
    requires t.status == (if t.originalStatusCharacter == " " then Todo else Done)
    requires t.description != "" && IsTrimmed(t.description) && All(t.description, NotLineTerminator)
    requires Contains(t.description, c.globalFilter)
    requires NoBlockLinkIn(t.description)
    requires SignifiersReadFirst(t, c, rt)
    ensures FromMatch(m, t.path, t.sectionStart, t.sectionIndex, t.precedingHeader, c, rt) == Some(t.(blockLink := ""))
  {
    var w := m.body;
    var d := t.description;
    WrittenTextShape(t, c, rt);
    TrimTrimmed(w);
    assert w[0..|d|] == d;
    ContainsSlice(w, 0, |d|, c.globalFilter);
    BlockLinkStartUnique(w);
    assert BlockLinkOf(w) == "" && StartDescription(w) == w;
    var e := Extracted(w, None, false, None, false, None);
    DescribedFirstPassReadsBack(t, c, rt);
    PassQuiet(Pass(e, c, rt).after, c, rt);
    LoopOnePass(e, c, rt);
  }
}
