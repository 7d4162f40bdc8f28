/**
 * The sort engine (src/Sort.ts): `Sort.by` puts the query's sort keys in front of the default
 * keys status, due and path, folds their comparators into one that returns the first
 * non-zero result, and sorts the tasks in place with it.
 */
module Sort {
  import opened Wrappers
  import opened JsStrings
  import opened Moments
  import opened Libraries
  import T = Tasks
  import Q = Queries

  // ---------------------------------------------------------------------------------------
  // The comparators

  /** `compareByStatus`: the enum values are the strings `Todo` and `Done`, compared with `<`. */
  function CompareByStatus(a: T.Task, b: T.Task): (r: int)
    ensures -1 <= r <= 1
  {
    if StringLess(T.StatusName(a.status), T.StatusName(b.status)) then 1
    else if StringLess(T.StatusName(b.status), T.StatusName(a.status)) then -1
    else 0
  }

  /** Done tasks come after open ones, and tasks with the same status tie. */
  lemma StatusOrder(a: T.Task, b: T.Task)
    ensures CompareByStatus(a, b) == 1 <==> a.status == T.Done && b.status == T.Todo
    ensures CompareByStatus(a, b) == -1 <==> a.status == T.Todo && b.status == T.Done
    ensures CompareByStatus(a, b) == 0 <==> a.status == b.status
  {
    assert StringLess("Done", "Todo") && !StringLess("Todo", "Done");
    StringLessIrreflexive("Done");
    StringLessIrreflexive("Todo");
  }

  /** `compareByMoment`, with `null` as None: a date before no date, two absent dates tie. */
  function CompareByMoment(a: Option<Moment>, b: Option<Moment>): (r: int)
    ensures -1 <= r <= 1
  {
    if a.Some? && b.None? then -1
    else if a.None? && b.Some? then 1
    else if a.Some? && b.Some? then
      if a.value > b.value then 1
      else if a.value < b.value then -1
      else 0
    else 0
  }

  lemma MomentOrder(a: Option<Moment>, b: Option<Moment>)
    ensures a.Some? && b.None? ==> CompareByMoment(a, b) == -1
    ensures a.None? && b.None? ==> CompareByMoment(a, b) == 0
    ensures a.Some? && b.Some? ==> CompareByMoment(a, b) == (if a.value < b.value then -1 else if a.value == b.value then 0 else 1)
    ensures CompareByMoment(a, b) == 0 <==> a == b
  {
  }

  /** The date part of a stored date: its day, at midnight. */
  function DatePart(t: Option<Moment>): (r: Option<Moment>)
    ensures r.Some? == t.Some? && (t.Some? ==> Day(r.value) == Day(t.value) && MinuteOfDay(r.value) == 0)
  {
    match t
    case None => None
    case Some(m) => Some(StartOfDay(m))
  }

  /** The time part of a stored date: its minute of the day (0 for a date without a time). */
  function TimePart(t: Option<Moment>): (r: Option<Moment>)
    ensures r.Some? == t.Some? && (t.Some? ==> r.value == MinuteOfDay(t.value))
  {
    match t
    case None => None
    case Some(m) => Some(MinuteOfDay(m) as Moment)
  }

  /** The date parts first, the time parts only on a tie. */
  function CompareDateThenTime(a: Option<Moment>, b: Option<Moment>): int {
    var result := CompareByMoment(DatePart(a), DatePart(b));
    if result == 0 then CompareByMoment(TimePart(a), TimePart(b)) else result
  }

  /** Comparing the day first and then the minute of the day is comparing the moments. */
  lemma {:induction false} DateThenTimeIsChronological(a: Option<Moment>, b: Option<Moment>)
    ensures CompareDateThenTime(a, b) == CompareByMoment(a, b)
  {
    if a.Some? && b.Some? {
      DayAndMinute(a.value);
      DayAndMinute(b.value);
      if Day(a.value) < Day(b.value) {
        assert StartOfDay(a.value) < StartOfDay(b.value);
      } else if Day(a.value) > Day(b.value) {
        assert StartOfDay(a.value) > StartOfDay(b.value);
      }
    }
  }

  /** `compareByDueDateTime`, with the date and time parts of `dueDateTime`. */
  function CompareByDueDateTime(a: T.Task, b: T.Task): (r: int)
    ensures -1 <= r <= 1
  {
    CompareDateThenTime(a.dueDateTime, b.dueDateTime)
  }

  /** `compareByDoneDateTime`, with the date and time parts of `doneDateTime`. */
  function CompareByDoneDateTime(a: T.Task, b: T.Task): (r: int)
    ensures -1 <= r <= 1
  {
    CompareDateThenTime(a.doneDateTime, b.doneDateTime)
  }

  /**
   * On one day, a date without a time (stored at midnight) comes before a date with a later
   * time, and dates order chronologically otherwise; a task without the date comes last.
   */
  lemma DueAndDoneOrder(a: T.Task, b: T.Task)
    ensures CompareByDueDateTime(a, b) == CompareByMoment(a.dueDateTime, b.dueDateTime)
    ensures CompareByDoneDateTime(a, b) == CompareByMoment(a.doneDateTime, b.doneDateTime)
    ensures (a.doneDateTime.Some? && b.doneDateTime.Some? && Day(a.doneDateTime.value) == Day(b.doneDateTime.value)
      && MinuteOfDay(a.doneDateTime.value) == 0 && MinuteOfDay(b.doneDateTime.value) > 0)
      ==> CompareByDoneDateTime(a, b) == -1
    ensures a.dueDateTime.Some? && b.dueDateTime.None? ==> CompareByDueDateTime(a, b) == -1
  {
    DateThenTimeIsChronological(a.dueDateTime, b.dueDateTime);
    DateThenTimeIsChronological(a.doneDateTime, b.doneDateTime);
    if a.doneDateTime.Some? && b.doneDateTime.Some? {
      DayAndMinute(a.doneDateTime.value);
      DayAndMinute(b.doneDateTime.value);
    }
  }

  // ---------------------------------------------------------------------------------------
  // The due and done comparators as written, on the JavaScript values they read

  /** A property read that yields a moment, `null`, or `undefined` for an undeclared name. */
  datatype JsValue = JsUndefined | JsNull | JsMoment(moment: Moment)

  function OfOption(t: Option<Moment>): JsValue {
    match t
    case None => JsNull
    case Some(m) => JsMoment(m)
  }

  /** `task[name]` for the moment-valued names: only `dueDateTime` and `doneDateTime` exist. */
  function Property(task: T.Task, name: string): (v: JsValue)
    ensures v.JsUndefined? <==> name != "dueDateTime" && name != "doneDateTime"
  {
    if name == "dueDateTime" then OfOption(task.dueDateTime)
    else if name == "doneDateTime" then OfOption(task.doneDateTime)
    else JsUndefined
  }

  /**
   * `compareByMoment` on JavaScript values: `undefined` passes both `!== null` tests, so
   * `a.isAfter` on an undefined `a` throws a TypeError; moment.js reads `isAfter(undefined)`
   * as a comparison with the current time `now`.
   */
  function CompareByMomentAsWritten(a: JsValue, b: JsValue, now: Moment): Result<int, string> {
    if a != JsNull && b == JsNull then Success(-1)
    else if a == JsNull && b != JsNull then Success(1)
    else if a != JsNull && b != JsNull then
      if a.JsUndefined? then Failure("TypeError")
      else
        var other := if b.JsUndefined? then now else b.moment;
        Success(if a.moment > other then 1 else if a.moment < other then -1 else 0)
    else Success(0)
  }

  /** `compareByDueDateTime` and `compareByDoneDateTime` as written, reading `<field>Date` and `<field>Time`. */
  function CompareDateTimeAsWritten(a: T.Task, b: T.Task, field: string, now: Moment): Result<int, string> {
    var result := CompareByMomentAsWritten(Property(a, field + "Date"), Property(b, field + "Date"), now);
    if result.Success? && result.value == 0 then
      CompareByMomentAsWritten(Property(a, field + "Time"), Property(b, field + "Time"), now)
    else result
  }

  /** As written, every due or done comparison throws, whatever the tasks hold. */
  lemma {:induction false} DateTimeComparisonAsWrittenThrows(a: T.Task, b: T.Task, now: Moment)
    ensures CompareDateTimeAsWritten(a, b, "due", now) == Failure("TypeError")
    ensures CompareDateTimeAsWritten(a, b, "done", now) == Failure("TypeError")
  {
    assert ("due" + "Date")[3] == 'D' && ("done" + "Date")[4] == 'D';
    assert Property(a, "due" + "Date") == JsUndefined;
    assert Property(b, "due" + "Date") == JsUndefined;
    assert Property(a, "done" + "Date") == JsUndefined;
    assert Property(b, "done" + "Date") == JsUndefined;
  }

  /** `compareByPath`: JavaScript `<` on the paths. */
  function CompareByPath(a: T.Task, b: T.Task): (r: int)
    ensures -1 <= r <= 1
  {
    if StringLess(a.path, b.path) then -1
    else if StringLess(b.path, a.path) then 1
    else 0
  }

  lemma PathOrder(a: T.Task, b: T.Task)
    ensures CompareByPath(a, b) == -1 <==> StringLess(a.path, b.path)
    ensures CompareByPath(a, b) == 1 <==> StringLess(b.path, a.path)
    ensures CompareByPath(a, b) == 0 <==> a.path == b.path
  {
    if StringLess(a.path, b.path) {
      StringLessAsymmetric(a.path, b.path);
    }
    if a.path != b.path {
      StringLessTotal(a.path, b.path);
    } else {
      StringLessIrreflexive(a.path);
    }
  }

  /** Lexicographic comparison of collation keys, a proper prefix first. */
  function CompareKeys(x: seq<int>, y: seq<int>): (r: int)
    ensures -1 <= r <= 1
    decreases |x|
  {
    if x == [] then (if y == [] then 0 else -1)
    else if y == [] then 1
    else if x[0] < y[0] then -1
    else if x[0] > y[0] then 1
    else CompareKeys(x[1..], y[1..])
  }

  /** `a.description.localeCompare(b.description)`. */
  function CompareByDescription(a: T.Task, b: T.Task, locale: Locale): (r: int)
    ensures -1 <= r <= 1
  {
    CompareKeys(locale.collationKey(a.description), locale.collationKey(b.description))
  }

  lemma {:induction false} CompareKeysZero(x: seq<int>, y: seq<int>)
    ensures CompareKeys(x, y) == 0 <==> x == y
    decreases |x|
  {
    if x != [] && y != [] && x[0] == y[0] {
      CompareKeysZero(x[1..], y[1..]);
      assert x == [x[0]] + x[1..] && y == [y[0]] + y[1..];
    }
  }

  lemma {:induction false} CompareKeysAntisymmetric(x: seq<int>, y: seq<int>)
    ensures CompareKeys(x, y) == -CompareKeys(y, x)
    decreases |x|
  {
    if x != [] && y != [] && x[0] == y[0] {
      CompareKeysAntisymmetric(x[1..], y[1..]);
    }
  }

  lemma {:induction false} CompareKeysTransitive(x: seq<int>, y: seq<int>, z: seq<int>)
    requires CompareKeys(x, y) < 0 && CompareKeys(y, z) < 0
    ensures CompareKeys(x, z) < 0
    decreases |x|
  {
    if x != [] && y != [] && z != [] && x[0] == y[0] && y[0] == z[0] {
      CompareKeysTransitive(x[1..], y[1..], z[1..]);
    }
  }

  // ---------------------------------------------------------------------------------------
  // Sort keys and the composite comparator

  /** The comparator a sort key selects (the `switch` of `Sort.by`). */
  function Compare(key: Q.Sorting, a: T.Task, b: T.Task, locale: Locale): (r: int)
    ensures -1 <= r <= 1
  {
    match key
    case SortStatus => CompareByStatus(a, b)
    case SortDue => CompareByDueDateTime(a, b)
    case SortDone => CompareByDoneDateTime(a, b)
    case SortPath => CompareByPath(a, b)
    case SortDescription => CompareByDescription(a, b, locale)
  }

  /**
   * Every comparator is a total three-way comparison: swapping the tasks negates the result,
   * a tie compares like its partner with every third task, and `<` is transitive.
   */
  lemma CompareIsTotalOrder(key: Q.Sorting, a: T.Task, b: T.Task, c: T.Task, locale: Locale)
    ensures Compare(key, a, b, locale) == -Compare(key, b, a, locale)
    ensures Compare(key, a, b, locale) == 0 ==> Compare(key, a, c, locale) == Compare(key, b, c, locale)
    ensures Compare(key, a, b, locale) < 0 && Compare(key, b, c, locale) < 0 ==> Compare(key, a, c, locale) < 0
  {
    match key
    case SortStatus =>
      StatusOrder(a, b);
      StatusOrder(b, a);
      StatusOrder(a, c);
      StatusOrder(b, c);
    case SortDue =>
      DueAndDoneOrder(a, b);
      DueAndDoneOrder(b, a);
      DueAndDoneOrder(a, c);
      DueAndDoneOrder(b, c);
    case SortDone =>
      DueAndDoneOrder(a, b);
      DueAndDoneOrder(b, a);
      DueAndDoneOrder(a, c);
      DueAndDoneOrder(b, c);
    case SortPath =>
      PathOrder(a, b);
      PathOrder(b, a);
      PathOrder(a, c);
      PathOrder(b, c);
      if StringLess(a.path, b.path) && StringLess(b.path, c.path) {
        StringLessTransitive(a.path, b.path, c.path);
      }
    case SortDescription =>
      var x, y, z := locale.collationKey(a.description), locale.collationKey(b.description), locale.collationKey(c.description);
      CompareKeysAntisymmetric(x, y);
      CompareKeysZero(x, y);
      if CompareKeys(x, y) < 0 && CompareKeys(y, z) < 0 {
        CompareKeysTransitive(x, y, z);
      }
  }

  /** The closure of `makeCompositeComparator`: the first non-zero result, or 0. */
  function Composite(keys: seq<Q.Sorting>, a: T.Task, b: T.Task, locale: Locale): (r: int)
    ensures -1 <= r <= 1
    decreases |keys|
  {
    if keys == [] then 0
    else
      var result := Compare(keys[0], a, b, locale);
      if result != 0 then result else Composite(keys[1..], a, b, locale)
  }

  /** The composite result is that of the first comparator that does not tie, or 0 when all tie. */
  lemma {:induction false} CompositeIsFirstNonZero(keys: seq<Q.Sorting>, a: T.Task, b: T.Task, locale: Locale)
    ensures Composite(keys, a, b, locale) == 0 <==> forall i :: 0 <= i < |keys| ==> Compare(keys[i], a, b, locale) == 0
    ensures Composite(keys, a, b, locale) != 0 ==>
      exists i :: 0 <= i < |keys| && Composite(keys, a, b, locale) == Compare(keys[i], a, b, locale)
        && forall j :: 0 <= j < i ==> Compare(keys[j], a, b, locale) == 0
    decreases |keys|
  {
    if keys != [] {
      CompositeIsFirstNonZero(keys[1..], a, b, locale);
      if Compare(keys[0], a, b, locale) != 0 {
        assert Composite(keys, a, b, locale) == Compare(keys[0], a, b, locale);
      } else if Composite(keys, a, b, locale) != 0 {
        var i :| 0 <= i < |keys[1..]| && Composite(keys[1..], a, b, locale) == Compare(keys[1..][i], a, b, locale)
          && forall j :: 0 <= j < i ==> Compare(keys[1..][j], a, b, locale) == 0;
        assert forall j :: 0 <= j < i + 1 ==> Compare(keys[j], a, b, locale) == 0 by {
          forall j | 0 <= j < i + 1
            ensures Compare(keys[j], a, b, locale) == 0
          {
            if j > 0 {
              assert keys[j] == keys[1..][j - 1];
            }
          }
        }
      }
      assert forall i :: 1 <= i < |keys| ==> keys[i] == keys[1..][i - 1];
    }
  }

  /** The composite comparator is a total three-way comparison too. */
  lemma {:induction false} CompositeIsTotalOrder(keys: seq<Q.Sorting>, a: T.Task, b: T.Task, c: T.Task, locale: Locale)
    ensures Composite(keys, a, b, locale) == -Composite(keys, b, a, locale)
    ensures Composite(keys, a, b, locale) <= 0 && Composite(keys, b, c, locale) <= 0 ==> Composite(keys, a, c, locale) <= 0
    decreases |keys|
  {
    if keys != [] {
      CompareIsTotalOrder(keys[0], a, b, c, locale);
      CompareIsTotalOrder(keys[0], b, c, a, locale);
      CompareIsTotalOrder(keys[0], c, a, b, locale);
      CompositeIsTotalOrder(keys[1..], a, b, c, locale);
    }
  }

  /** The composite comparator as the closure runs it: a loop over the comparators. */
  method CompareComposite(comparators: seq<Q.Sorting>, a: T.Task, b: T.Task, locale: Locale) returns (r: int)
    ensures r == Composite(comparators, a, b, locale)
  {
    for i := 0 to |comparators|
      invariant Composite(comparators, a, b, locale) == Composite(comparators[i..], a, b, locale)
    {
      assert comparators[i..][1..] == comparators[i + 1..];
      var result := Compare(comparators[i], a, b, locale);
      if result != 0 {
        return result;
      }
    }
    return 0;
  }

  // ---------------------------------------------------------------------------------------
  // `Sort.by`

  const DefaultPriorities: seq<Q.Sorting> := [Q.SortStatus, Q.SortDue, Q.SortPath]

  /** `s` back to front. */
  function Reversed<X>(s: seq<X>): (r: seq<X>)
    ensures |r| == |s| && forall k :: 0 <= k < |s| ==> r[k] == s[|s| - 1 - k]
    decreases |s|
  {
    if s == [] then [] else [s[|s| - 1]] + Reversed(s[..|s| - 1])
  }

  lemma ReversedTwice<X>(s: seq<X>)
    ensures Reversed(Reversed(s)) == s
  {
  }

  /**
   * The priority list: `query.sorting.reverse()` reverses the keys in place, and unshifting
   * each reversed key in turn leaves the keys in written order in front of the defaults.
   */
  method Priorities(query: Q.Query) returns (priorities: seq<Q.Sorting>)
    modifies query
    ensures priorities == old(query.sorting) + DefaultPriorities
    ensures query.State() == old(query.State()).(sorting := Reversed(old(query.sorting)))
  {
    priorities := DefaultPriorities;
    query.sorting := Reversed(query.sorting);
    var reversed := query.sorting;
    for i := 0 to |reversed|
      invariant priorities == Reversed(reversed[..i]) + DefaultPriorities
    {
      assert reversed[..i + 1][..i] == reversed[..i];
      priorities := [reversed[i]] + priorities;
    }
    assert reversed[..|reversed|] == reversed;
    ReversedTwice(old(query.sorting));
  }

  /** Each task in `s[lo..hi]` compares at most 0 with the next one. */
  ghost predicate AdjacentSorted(s: seq<T.Task>, lo: nat, hi: nat, keys: seq<Q.Sorting>, locale: Locale)
    requires hi <= |s|
  {
    forall k :: lo < k < hi ==> Composite(keys, s[k - 1], s[k], locale) <= 0
  }

  /** Each task compares at most 0 with every later one. */
  ghost predicate Sorted(s: seq<T.Task>, keys: seq<Q.Sorting>, locale: Locale) {
    forall i, j :: 0 <= i < j < |s| ==> Composite(keys, s[i], s[j], locale) <= 0
  }

  /** A task compares 0 with itself. */
  lemma CompositeReflexive(keys: seq<Q.Sorting>, a: T.Task, locale: Locale)
    ensures Composite(keys, a, a, locale) == 0
  {
    CompositeIsTotalOrder(keys, a, a, a, locale);
  }

  lemma {:induction false} Ascends(s: seq<T.Task>, keys: seq<Q.Sorting>, i: nat, j: nat, locale: Locale)
    requires i <= j < |s| && AdjacentSorted(s, 0, |s|, keys, locale)
    ensures Composite(keys, s[i], s[j], locale) <= 0
    decreases j - i
  {
    if i < j {
      Ascends(s, keys, i + 1, j, locale);
      CompositeIsTotalOrder(keys, s[i], s[i + 1], s[j], locale);
    } else {
      CompositeReflexive(keys, s[i], locale);
    }
  }

  /** Since the composite comparator is transitive, sorted neighbours make a sorted sequence. */
  lemma AdjacentSortedIsSorted(s: seq<T.Task>, keys: seq<Q.Sorting>, locale: Locale)
    requires AdjacentSorted(s, 0, |s|, keys, locale)
    ensures Sorted(s, keys, locale)
  {
    forall i, j | 0 <= i < j < |s|
      ensures Composite(keys, s[i], s[j], locale) <= 0
    {
      Ascends(s, keys, i, j, locale);
    }
  }

  /** Exchanges two elements. */
  method Swap(a: array<T.Task>, i: nat, j: nat)
    requires i < a.Length && j < a.Length
    modifies a
    ensures a[..] == old(a[..])[i := old(a[j])][j := old(a[i])]
    ensures multiset(a[..]) == multiset(old(a[..]))
  {
    a[i], a[j] := a[j], a[i];
  }

  /**
   * `tasks.sort(comparator)`, as an insertion sort by swaps of neighbours: each task in turn
   * moves left past the tasks that compare greater than it.
   */
  method SortInPlace(tasks: array<T.Task>, comparators: seq<Q.Sorting>, locale: Locale)
    modifies tasks
    ensures multiset(tasks[..]) == multiset(old(tasks[..]))
    ensures Sorted(tasks[..], comparators, locale)
  {
    if tasks.Length < 2 {
      return;
    }
    for i := 1 to tasks.Length
      invariant multiset(tasks[..]) == multiset(old(tasks[..]))
      invariant AdjacentSorted(tasks[..], 0, i, comparators, locale)
    {
      Insert(tasks, i, comparators, locale);
    }
    AdjacentSortedIsSorted(tasks[..], comparators, locale);
  }

  /**
   * While `s[i]` moves left, it sits at `j`: the run before it and the run after it are
   * sorted, it compares below its right neighbour, and its left neighbour compares at most 0
   * with its right one.
   */
  ghost predicate Inserting(s: seq<T.Task>, j: nat, i: nat, keys: seq<Q.Sorting>, locale: Locale)
    requires j <= i < |s|
  {
    && AdjacentSorted(s, 0, j, keys, locale)
    && AdjacentSorted(s, j + 1, i + 1, keys, locale)
    && (j < i ==> Composite(keys, s[j], s[j + 1], locale) < 0)
    && (0 < j < i ==> Composite(keys, s[j - 1], s[j + 1], locale) <= 0)
  }

  /** Swapping the moving task with a left neighbour that compares above it keeps `Inserting`. */
  lemma SwapLeft(s: seq<T.Task>, j: nat, i: nat, keys: seq<Q.Sorting>, locale: Locale)
    requires 0 < j <= i < |s| && Inserting(s, j, i, keys, locale)
    requires Composite(keys, s[j - 1], s[j], locale) > 0
    ensures Inserting(s[j - 1 := s[j]][j := s[j - 1]], j - 1, i, keys, locale)
  {
    var t := s[j - 1 := s[j]][j := s[j - 1]];
    CompositeIsTotalOrder(keys, s[j - 1], s[j], s[j], locale);
    assert AdjacentSorted(t, 0, j - 1, keys, locale) by {
      forall k | 0 < k < j - 1
        ensures Composite(keys, t[k - 1], t[k], locale) <= 0
      {
        assert t[k - 1] == s[k - 1] && t[k] == s[k];
      }
    }
    assert AdjacentSorted(t, j, i + 1, keys, locale) by {
      forall k | j < k < i + 1
        ensures Composite(keys, t[k - 1], t[k], locale) <= 0
      {
        if k > j + 1 {
          assert t[k - 1] == s[k - 1] && t[k] == s[k];
        }
      }
    }
    assert 1 < j ==> Composite(keys, t[j - 2], t[j], locale) <= 0 by {
      if 1 < j {
        assert t[j - 2] == s[j - 2] && t[j] == s[j - 1];
      }
    }
  }

  /** Once the left neighbour compares at most 0 with the moving task, the run is sorted. */
  lemma Inserted(s: seq<T.Task>, j: nat, i: nat, keys: seq<Q.Sorting>, locale: Locale)
    requires j <= i < |s| && Inserting(s, j, i, keys, locale)
    requires j > 0 ==> Composite(keys, s[j - 1], s[j], locale) <= 0
    ensures AdjacentSorted(s, 0, i + 1, keys, locale)
  {
  }

  /** Moves `tasks[i]` left into the sorted run `tasks[..i]` before it. */
  method Insert(tasks: array<T.Task>, i: nat, comparators: seq<Q.Sorting>, locale: Locale)
    requires 0 < i < tasks.Length && AdjacentSorted(tasks[..], 0, i, comparators, locale)
    modifies tasks
    ensures multiset(tasks[..]) == multiset(old(tasks[..]))
    ensures AdjacentSorted(tasks[..], 0, i + 1, comparators, locale)
  {
    var j := i;
    var c := CompareComposite(comparators, tasks[j - 1], tasks[j], locale);
    while j > 0 && c > 0
      invariant 0 <= j <= i
      invariant multiset(tasks[..]) == multiset(old(tasks[..]))
      invariant Inserting(tasks[..], j, i, comparators, locale)
      invariant j > 0 ==> c == Composite(comparators, tasks[j - 1], tasks[j], locale)
      decreases j
    {
      SwapLeft(tasks[..], j, i, comparators, locale);
      Swap(tasks, j - 1, j);
      j := j - 1;
      if j > 0 {
        c := CompareComposite(comparators, tasks[j - 1], tasks[j], locale);
      }
    }
    Inserted(tasks[..], j, i, comparators, locale);
  }

  /**
   * `Sort.by`: the tasks, sorted in place under the query's keys followed by status, due and
   * path, and a permutation of what they were; the query's keys are left reversed.
   */
  method By(query: Q.Query, tasks: array<T.Task>, locale: Locale) returns (r: array<T.Task>)
    modifies query, tasks
    ensures r == tasks
    ensures multiset(tasks[..]) == multiset(old(tasks[..]))
    ensures Sorted(tasks[..], old(query.sorting) + DefaultPriorities, locale)
    ensures query.State() == old(query.State()).(sorting := Reversed(old(query.sorting)))
  {
    var priorities := Priorities(query);
    SortInPlace(tasks, priorities, locale);
    r := tasks;
  }
}
