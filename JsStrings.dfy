/**
 * The JavaScript string operations the plugin relies on, over strings of code points:
 * `trim`, `includes`, `split` and `join` with a literal separator, and the `<` ordering.
 */
module JsStrings {
  import opened Wrappers

  /** The ECMAScript WhiteSpace and LineTerminator code points: what `trim` removes and `\s` matches. */
  predicate IsWhitespace(c: char) {
    c == '\t' || c == '\n' || c == '\U{000B}' || c == '\U{000C}' || c == '\r' || c == ' '
    || c == '\U{00A0}' || c == '\U{1680}' || ('\U{2000}' <= c <= '\U{200A}')
    || c == '\U{2028}' || c == '\U{2029}' || c == '\U{202F}' || c == '\U{205F}'
    || c == '\U{3000}' || c == '\U{FEFF}'
  }

  /** The code points a regular expression `.` does not match. */
  predicate IsLineTerminator(c: char) {
    c == '\n' || c == '\r' || c == '\U{2028}' || c == '\U{2029}'
  }

  predicate NotLineTerminator(c: char) {
    !IsLineTerminator(c)
  }

  predicate IsSpace(c: char) {
    c == ' '
  }

  predicate All(s: string, p: char -> bool) {
    forall i :: 0 <= i < |s| ==> p(s[i])
  }

  lemma SplitAt(s: string, k: nat)
    requires k <= |s|
    ensures s[..k] + s[k..] == s
  {
  }

  lemma ConcatParts(x: string, y: string)
    ensures (x + y)[..|x|] == x && (x + y)[|x|..] == y
  {
  }

  /** Length of the longest prefix of `s` whose characters satisfy `p` (a greedy `[p]*`). */
  function Span(s: string, p: char -> bool): (n: nat)
    ensures n <= |s|
    ensures forall i :: 0 <= i < n ==> p(s[i])
    ensures n < |s| ==> !p(s[n])
    decreases |s|
  {
    if s != [] && p(s[0]) then 1 + Span(s[1..], p) else 0
  }

  /** Length of the longest suffix of `s` whose characters satisfy `p`. */
  function TrailingSpan(s: string, p: char -> bool): (n: nat)
    ensures n <= |s|
    ensures forall i :: |s| - n <= i < |s| ==> p(s[i])
    ensures n < |s| ==> !p(s[|s| - n - 1])
    decreases |s|
  {
    if s != [] && p(s[|s| - 1]) then 1 + TrailingSpan(s[..|s| - 1], p) else 0
  }

  lemma {:induction false} SpanConcat(a: string, b: string, p: char -> bool)
    requires All(a, p)
    requires b == [] || !p(b[0])
    ensures Span(a + b, p) == |a|
  {
    if a != [] {
      assert (a + b)[1..] == a[1..] + b;
      SpanConcat(a[1..], b, p);
    }
  }

  lemma {:induction false} TrailingSpanConcat(a: string, b: string, p: char -> bool)
    requires All(b, p)
    requires a == [] || !p(a[|a| - 1])
    ensures TrailingSpan(a + b, p) == |b|
  {
    if b != [] {
      assert (a + b)[..|a + b| - 1] == a + b[..|b| - 1];
      TrailingSpanConcat(a, b[..|b| - 1], p);
    }
  }

  predicate IsTrimmed(s: string) {
    s == [] || (!IsWhitespace(s[0]) && !IsWhitespace(s[|s| - 1]))
  }

  /** Index of the first character `trim` keeps. */
  function TrimStart(s: string): nat {
    Span(s, IsWhitespace)
  }

  /** Index just past the last character `trim` keeps. */
  function TrimEnd(s: string): (b: nat)
    ensures TrimStart(s) <= b <= |s|
  {
    |s| - TrailingSpan(s[TrimStart(s)..], IsWhitespace)
  }

  /** `String.prototype.trimStart`. */
  function TrimLeft(s: string): string
    decreases |s|
  {
    if s != [] && IsWhitespace(s[0]) then TrimLeft(s[1..]) else s
  }

  /** `String.prototype.trimEnd`. */
  function TrimRight(s: string): string
    decreases |s|
  {
    if s != [] && IsWhitespace(s[|s| - 1]) then TrimRight(s[..|s| - 1]) else s
  }

  /** `String.prototype.trim`. */
  function Trim(s: string): string {
    TrimRight(TrimLeft(s))
  }

  lemma {:induction false} TrimLeftIs(s: string)
    ensures TrimLeft(s) == s[TrimStart(s)..]
    decreases |s|
  {
    if s != [] && IsWhitespace(s[0]) {
      TrimLeftIs(s[1..]);
      assert s[1..][TrimStart(s[1..])..] == s[TrimStart(s)..];
    }
  }

  lemma {:induction false} TrimRightIs(s: string)
    ensures TrimRight(s) == s[..|s| - TrailingSpan(s, IsWhitespace)]
    decreases |s|
  {
    if s != [] && IsWhitespace(s[|s| - 1]) {
      TrimRightIs(s[..|s| - 1]);
    }
  }

  lemma TrimIsSlice(s: string)
    ensures Trim(s) == s[TrimStart(s)..TrimEnd(s)]
  {
    var a := TrimStart(s);
    var t := s[a..];
    TrimLeftIs(s);
    TrimRightIs(t);
    assert t[..|t| - TrailingSpan(t, IsWhitespace)] == s[a..TrimEnd(s)];
  }

  /** `trim` keeps the middle of `s` between two runs of whitespace, and the result is trimmed. */
  lemma TrimShape(s: string)
    ensures Trim(s) == s[TrimStart(s)..TrimEnd(s)]
    ensures IsTrimmed(Trim(s))
    ensures All(s[..TrimStart(s)], IsWhitespace) && All(s[TrimEnd(s)..], IsWhitespace)
  {
    TrimIsSlice(s);
    var a := TrimStart(s);
    var t := s[a..];
    var n := TrailingSpan(t, IsWhitespace);
    assert forall i :: a + |t| - n <= i < |s| ==> s[i] == t[i - a];
  }

  /** The result of `trim` is trimmed. */
  lemma TrimIsTrimmed(s: string)
    ensures IsTrimmed(Trim(s))
  {
    TrimShape(s);
  }

  /** Trimming removes exactly the whitespace padding around a trimmed string. */
  lemma TrimPadded(a: string, x: string, b: string)
    requires All(a, IsWhitespace) && All(b, IsWhitespace) && IsTrimmed(x)
    ensures Trim(a + x + b) == x
  {
    var s := a + x + b;
    TrimShape(s);
    if x == [] {
      assert s == a + b;
      SpanConcat(a + b, [], IsWhitespace);
      assert TrimStart(s) == |s|;
    } else {
      assert s == a + (x + b);
      SpanConcat(a, x + b, IsWhitespace);
      assert s[|a|..] == x + b;
      TrailingSpanConcat(x, b, IsWhitespace);
      assert s[|a|..|a| + |x|] == x;
    }
  }

  lemma TrimTrimmed(x: string)
    requires IsTrimmed(x)
    ensures Trim(x) == x
  {
    TrimPadded([], x, []);
    assert [] + x + [] == x;
  }

  /** `needle` occurs in `haystack` starting at index `i`. */
  predicate OccursAt(haystack: string, needle: string, i: int) {
    0 <= i && i + |needle| <= |haystack| && haystack[i..i + |needle|] == needle
  }

  /** The first index at or after `from` where `needle` occurs (`indexOf`). */
  function IndexFrom(haystack: string, needle: string, from: nat): (r: Option<nat>)
    ensures r.Some? ==> from <= r.value && OccursAt(haystack, needle, r.value)
    ensures r.Some? ==> forall j :: from <= j < r.value ==> !OccursAt(haystack, needle, j)
    ensures r.None? ==> forall j :: from <= j ==> !OccursAt(haystack, needle, j)
    decreases |haystack| - from
  {
    if from + |needle| > |haystack| then None
    else if OccursAt(haystack, needle, from) then Some(from)
    else IndexFrom(haystack, needle, from + 1)
  }

  function IndexOf(haystack: string, needle: string): Option<nat> {
    IndexFrom(haystack, needle, 0)
  }

  lemma IndexOfIs(haystack: string, needle: string, i: nat)
    requires OccursAt(haystack, needle, i)
    requires forall j :: 0 <= j < i ==> !OccursAt(haystack, needle, j)
    ensures IndexOf(haystack, needle) == Some(i)
  {
  }

  lemma IndexOfNone(haystack: string, needle: string)
    requires forall j :: 0 <= j ==> !OccursAt(haystack, needle, j)
    ensures IndexOf(haystack, needle) == None
  {
  }

  /** `String.prototype.includes`. */
  predicate Contains(haystack: string, needle: string) {
    IndexOf(haystack, needle).Some?
  }

  lemma {:induction false} ContainsIff(haystack: string, needle: string)
    ensures Contains(haystack, needle) <==> exists i :: OccursAt(haystack, needle, i)
  {
    if Contains(haystack, needle) {
      assert OccursAt(haystack, needle, IndexOf(haystack, needle).value);
    }
  }

  lemma OccursInSlice(s: string, a: nat, b: nat, needle: string, i: nat)
    requires a <= b <= |s|
    requires OccursAt(s[a..b], needle, i)
    ensures OccursAt(s, needle, a + i)
  {
    forall k | 0 <= k < |needle|
      ensures s[a + i..a + i + |needle|][k] == needle[k]
    {
      assert s[a..b][i..i + |needle|][k] == needle[k];
    }
  }

  /** Whatever a piece of a string contains, the string contains. */
  lemma ContainsSlice(s: string, a: nat, b: nat, needle: string)
    requires a <= b <= |s|
    requires Contains(s[a..b], needle)
    ensures Contains(s, needle)
  {
    var i := IndexOf(s[a..b], needle).value;
    OccursInSlice(s, a, b, needle, i);
  }

  /** `String.prototype.split` with a non-empty literal separator. */
  function Split(s: string, sep: string): (r: seq<string>)
    requires sep != []
    ensures |r| >= 1
    decreases |s|
  {
    match IndexOf(s, sep)
    case None => [s]
    case Some(i) => [s[..i]] + Split(s[i + |sep|..], sep)
  }

  /** Joining the pieces with the separator gives the string back. */
  lemma {:induction false} SplitJoin(s: string, sep: string)
    requires sep != []
    ensures Join(Split(s, sep), sep) == s
    decreases |s|
  {
    match IndexOf(s, sep)
    case None =>
    case Some(i) =>
      var rest := s[i + |sep|..];
      var tail := Split(rest, sep);
      SplitJoin(rest, sep);
      var xs := [s[..i]] + tail;
      assert Split(s, sep) == xs;
      assert xs[0] == s[..i] && xs[1..] == tail;
      assert Join(xs, sep) == s[..i] + sep + rest;
      assert s == s[..i] + sep + rest;
  }

  /** No piece holds the separator. */
  lemma {:induction false} SplitPiecesFree(s: string, sep: string)
    requires sep != []
    ensures forall k :: 0 <= k < |Split(s, sep)| ==> !Contains(Split(s, sep)[k], sep)
    decreases |s|
  {
    match IndexOf(s, sep)
    case None =>
    case Some(i) =>
      var head := s[..i];
      var rest := s[i + |sep|..];
      SplitPiecesFree(rest, sep);
      assert !Contains(head, sep) by {
        if Contains(head, sep) {
          var j := IndexOf(head, sep).value;
          OccursInSlice(s, 0, i, sep, j);
          assert false;
        }
      }
      assert Split(s, sep) == [head] + Split(rest, sep);
  }

  /** Splitting at the first occurrence of the separator. */
  lemma SplitFirst(s: string, sep: string, i: nat)
    requires sep != [] && IndexOf(s, sep) == Some(i)
    ensures i + |sep| <= |s|
    ensures Split(s, sep) == [s[..i]] + Split(s[i + |sep|..], sep)
  {
  }

  lemma SplitNone(s: string, sep: string)
    requires sep != [] && IndexOf(s, sep) == None
    ensures Split(s, sep) == [s]
  {
  }

  /** `Array.prototype.join` with separator `sep`. */
  function Join(xs: seq<string>, sep: string): string
    decreases |xs|
  {
    if |xs| == 0 then ""
    else if |xs| == 1 then xs[0]
    else xs[0] + sep + Join(xs[1..], sep)
  }

  /** Number of non-overlapping occurrences of `sep`, counted from the left. */
  function Occurrences(s: string, sep: string): nat
    requires sep != []
    decreases |s|
  {
    match IndexOf(s, sep)
    case None => 0
    case Some(i) => 1 + Occurrences(s[i + |sep|..], sep)
  }

  lemma {:induction false} SplitLength(s: string, sep: string)
    requires sep != []
    ensures |Split(s, sep)| == Occurrences(s, sep) + 1
    decreases |s|
  {
    match IndexOf(s, sep)
    case None =>
    case Some(i) => SplitLength(s[i + |sep|..], sep);
  }

  function MapTrim(xs: seq<string>): (r: seq<string>)
    ensures |r| == |xs|
    ensures forall k :: 0 <= k < |xs| ==> r[k] == Trim(xs[k])
  {
    seq(|xs|, k requires 0 <= k < |xs| => Trim(xs[k]))
  }

  /** The `<` relation of JavaScript on strings: lexicographic, a proper prefix first. */
  predicate StringLess(a: string, b: string)
    decreases |a|
  {
    if a == [] then b != []
    else if b == [] then false
    else if a[0] != b[0] then a[0] < b[0]
    else StringLess(a[1..], b[1..])
  }

  lemma {:induction false} StringLessIrreflexive(a: string)
    ensures !StringLess(a, a)
    decreases |a|
  {
    if a != [] {
      StringLessIrreflexive(a[1..]);
    }
  }

  lemma {:induction false} StringLessAsymmetric(a: string, b: string)
    requires StringLess(a, b)
    ensures !StringLess(b, a)
    decreases |a|
  {
    if a != [] && b != [] && a[0] == b[0] {
      StringLessAsymmetric(a[1..], b[1..]);
    }
  }

  lemma {:induction false} StringLessTotal(a: string, b: string)
    requires a != b
    ensures StringLess(a, b) || StringLess(b, a)
    decreases |a|
  {
    if a != [] && b != [] && a[0] == b[0] {
      StringLessTotal(a[1..], b[1..]);
    }
  }

  lemma {:induction false} StringLessTransitive(a: string, b: string, c: string)
    requires StringLess(a, b) && StringLess(b, c)
    ensures StringLess(a, c)
    decreases |a|
  {
    if a != [] && b != [] && c != [] && a[0] == b[0] && b[0] == c[0] {
      StringLessTransitive(a[1..], b[1..], c[1..]);
    }
  }
}
