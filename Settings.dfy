/**
 * The plugin settings (src/Settings.ts): the settings record and its defaults, the module
 * variable that `getSettings`/`updateSettings` read and merge into, and the helpers for
 * `&&`-separated format lists and for escaping text for a regular expression.
 */
module Settings {
  import opened Wrappers
  import opened JsStrings

  datatype Settings = Settings(
    globalFilter: string,
    removeGlobalFilter: bool,
    doneTime: bool,
    dateFormats: seq<string>,
    timeFormat: string,
    dateTimeFormats: seq<string>,
    dueDateSignifier: string,
    doneDateSignifier: string)

  const DueSignifier: string := "\U{1F5D3}"
  const DoneSignifier: string := "\U{2705}"

  const Defaults: Settings := Settings(
    "", false, false, ["YYYY-MM-DD"], "HH:mm", ["YYYY-MM-DD HH:mm"], DueSignifier, DoneSignifier)

  /** `Partial<Settings>`: the fields a caller of `updateSettings` chose to set. */
  datatype SettingsPatch = SettingsPatch(
    globalFilter: Option<string>,
    removeGlobalFilter: Option<bool>,
    doneTime: Option<bool>,
    dateFormats: Option<seq<string>>,
    timeFormat: Option<string>,
    dateTimeFormats: Option<seq<string>>,
    dueDateSignifier: Option<string>,
    doneDateSignifier: Option<string>)

  const EmptyPatch: SettingsPatch := SettingsPatch(None, None, None, None, None, None, None, None)

  function Pick<T>(patched: Option<T>, current: T): T {
    if patched.Some? then patched.value else current
  }

  /** `{ ...s, ...p }`. */
  function Merge(s: Settings, p: SettingsPatch): Settings {
    Settings(
      Pick(p.globalFilter, s.globalFilter),
      Pick(p.removeGlobalFilter, s.removeGlobalFilter),
      Pick(p.doneTime, s.doneTime),
      Pick(p.dateFormats, s.dateFormats),
      Pick(p.timeFormat, s.timeFormat),
      Pick(p.dateTimeFormats, s.dateTimeFormats),
      Pick(p.dueDateSignifier, s.dueDateSignifier),
      Pick(p.doneDateSignifier, s.doneDateSignifier))
  }

  /** `{ ...p, ...q }`: the patch that applies `p` and then `q`. */
  function Then(p: SettingsPatch, q: SettingsPatch): SettingsPatch {
    SettingsPatch(
      if q.globalFilter.Some? then q.globalFilter else p.globalFilter,
      if q.removeGlobalFilter.Some? then q.removeGlobalFilter else p.removeGlobalFilter,
      if q.doneTime.Some? then q.doneTime else p.doneTime,
      if q.dateFormats.Some? then q.dateFormats else p.dateFormats,
      if q.timeFormat.Some? then q.timeFormat else p.timeFormat,
      if q.dateTimeFormats.Some? then q.dateTimeFormats else p.dateTimeFormats,
      if q.dueDateSignifier.Some? then q.dueDateSignifier else p.dueDateSignifier,
      if q.doneDateSignifier.Some? then q.doneDateSignifier else p.doneDateSignifier)
  }

  /** Every field of `s`, set. */
  function Full(s: Settings): SettingsPatch {
    SettingsPatch(
      Some(s.globalFilter), Some(s.removeGlobalFilter), Some(s.doneTime), Some(s.dateFormats),
      Some(s.timeFormat), Some(s.dateTimeFormats), Some(s.dueDateSignifier), Some(s.doneDateSignifier))
  }

  /** A patch that sets no field leaves the settings as they are. */
  lemma MergeEmpty(s: Settings)
    ensures Merge(s, EmptyPatch) == s
  {
  }

  /**
   * The global filter takes the patch's value when the patch sets it and keeps its value
   * otherwise; no other field depends on the patch's global filter.
   */
  lemma MergeGlobalFilter(s: Settings, p: SettingsPatch)
    ensures p.globalFilter.Some? ==> Merge(s, p).globalFilter == p.globalFilter.value
    ensures p.globalFilter.None? ==> Merge(s, p).globalFilter == s.globalFilter
    ensures Merge(s, p).(globalFilter := s.globalFilter) == Merge(s, p.(globalFilter := None))
  {
  }

  /** Applying the same patch twice is applying it once. */
  lemma MergeIdempotent(s: Settings, p: SettingsPatch)
    ensures Merge(Merge(s, p), p) == Merge(s, p)
  {
  }

  /** Two updates in a row are one update with the later patch winning. */
  lemma MergeThen(s: Settings, p: SettingsPatch, q: SettingsPatch)
    ensures Merge(Merge(s, p), q) == Merge(s, Then(p, q))
  {
  }

  /** A patch that sets every field replaces the settings outright. */
  lemma MergeFull(s: Settings, t: Settings)
    ensures Merge(s, Full(t)) == t
  {
  }

  /** The module variable `settings` of src/Settings.ts. */
  class SettingsStore {
    var settings: Settings

    constructor ()
      ensures settings == Defaults
    {
      settings := Defaults;
    }

    /** `getSettings`: a copy of the current settings. */
    method GetSettings() returns (r: Settings)
      ensures r == settings
    {
      r := settings;
    }

    /** `updateSettings`: merge the patch in and return the new settings. */
    method UpdateSettings(p: SettingsPatch) returns (r: Settings)
      modifies this
      ensures settings == Merge(old(settings), p)
      ensures r == settings
    {
      settings := Merge(settings, p);
      r := settings;
    }
  }

  const FormatSeparator: string := "&&"
  const FormatJoiner: string := " && "

  /** `splitFormatArray`. */
  function SplitFormatArray(input: string): seq<string> {
    MapTrim(Split(input, FormatSeparator))
  }

  /** One trimmed entry per `&&`-separated segment, none of them containing `&&`. */
  lemma SplitFormatArrayShape(input: string)
    ensures |SplitFormatArray(input)| == Occurrences(input, FormatSeparator) + 1
    ensures forall k :: 0 <= k < |SplitFormatArray(input)| ==>
      IsTrimmed(SplitFormatArray(input)[k]) && !Contains(SplitFormatArray(input)[k], FormatSeparator)
  {
    SplitLength(input, FormatSeparator);
    var pieces := Split(input, FormatSeparator);
    SplitPiecesFree(input, FormatSeparator);
    forall k | 0 <= k < |pieces|
      ensures IsTrimmed(Trim(pieces[k])) && !Contains(Trim(pieces[k]), FormatSeparator)
    {
      TrimShape(pieces[k]);
      if Contains(Trim(pieces[k]), FormatSeparator) {
        ContainsSlice(pieces[k], TrimStart(pieces[k]), TrimEnd(pieces[k]), FormatSeparator);
      }
    }
  }

  /** `joinFormatArray`. */
  function JoinFormatArray(input: seq<string>): string {
    Join(input, FormatJoiner)
  }

  /** A format list survives a join and a split when no entry has padding or contains `&&`. */
  lemma SplitJoinFormatArray(xs: seq<string>)
    requires |xs| >= 1
    requires forall k :: 0 <= k < |xs| ==> IsTrimmed(xs[k]) && !Contains(xs[k], FormatSeparator)
    ensures SplitFormatArray(JoinFormatArray(xs)) == xs
  {
    var joined := JoinFormatArray(xs);
    assert "" + joined == joined;
    var pieces := SplitJoined("", xs);
    TrimPieces(pieces, xs);
  }

  lemma TrimPieces(pieces: seq<string>, xs: seq<string>)
    requires |pieces| == |xs|
    requires forall k :: 0 <= k < |xs| ==> IsTrimmed(xs[k])
    requires forall k :: 0 <= k < |xs| ==>
      pieces[k] == (if k == 0 then "" else " ") + xs[k] + (if k < |xs| - 1 then " " else "")
    ensures MapTrim(pieces) == xs
  {
    forall k | 0 <= k < |xs|
      ensures Trim(pieces[k]) == xs[k]
    {
      TrimPadded(if k == 0 then "" else " ", xs[k], if k < |xs| - 1 then " " else "");
    }
  }

  /** A space before an entry without `&&` still leaves no `&&`. */
  lemma LeadNoSeparator(lead: string, x: string)
    requires lead == "" || lead == " "
    requires !Contains(x, FormatSeparator)
    ensures forall j :: !OccursAt(lead + x, FormatSeparator, j)
  {
    var h := lead + x;
    forall j | OccursAt(h, FormatSeparator, j)
      ensures false
    {
      assert h[j] == '&';
      assert j >= |lead|;
      assert h[j..j + 2] == x[j - |lead|..j - |lead| + 2];
      assert OccursAt(x, FormatSeparator, j - |lead|);
      ContainsIff(x, FormatSeparator);
    }
  }

  /** In `h + ' && ' + rest`, when `h` holds no `&&`, the first `&&` is the joiner's. */
  lemma JoinerFirst(h: string, rest: string)
    requires forall j :: !OccursAt(h, FormatSeparator, j)
    ensures IndexOf(h + FormatJoiner + rest, FormatSeparator) == Some(|h| + 1)
  {
    var s := h + FormatJoiner + rest;
    assert s[..|h|] == h;
    assert s[|h|] == ' ' && s[|h| + 1] == '&' && s[|h| + 2] == '&';
    assert s[|h| + 1..|h| + 3] == FormatSeparator;
    forall j | 0 <= j < |h| + 1
      ensures !OccursAt(s, FormatSeparator, j)
    {
      if j + 2 <= |h| {
        assert h[j..j + 2] == s[j..j + 2];
        assert !OccursAt(h, FormatSeparator, j);
      } else if j == |h| {
        assert s[j..j + 2][0] == ' ';
      } else {
        assert s[j..j + 2][1] == ' ';
      }
    }
    IndexOfIs(s, FormatSeparator, |h| + 1);
  }

  /** Joining two or more entries: `split` cuts at the first joiner. */
  lemma SplitJoinedStep(lead: string, xs: seq<string>)
    requires lead == "" || lead == " "
    requires |xs| >= 2 && !Contains(xs[0], FormatSeparator)
    ensures Split(lead + Join(xs, FormatJoiner), FormatSeparator)
      == [lead + xs[0] + " "] + Split(" " + Join(xs[1..], FormatJoiner), FormatSeparator)
  {
    var h := lead + xs[0];
    LeadNoSeparator(lead, xs[0]);
    var rest := Join(xs[1..], FormatJoiner);
    var s := h + FormatJoiner + rest;
    assert Join(xs, FormatJoiner) == xs[0] + FormatJoiner + rest;
    assert lead + Join(xs, FormatJoiner) == s;
    JoinerFirst(h, rest);
    SplitFirst(s, FormatSeparator, |h| + 1);
    JoinerSlices(h, rest);
  }

  /** Around the joiner's `&&`: the entry with its space before, and the rest with its space after. */
  lemma JoinerSlices(h: string, rest: string)
    ensures var s := h + FormatJoiner + rest;
      |h| + 3 <= |s| && s[..|h| + 1] == h + " " && s[|h| + 3..] == " " + rest
  {
    var s := h + FormatJoiner + rest;
    assert s == (h + " ") + FormatSeparator + (" " + rest);
  }

  /** The pieces `split('&&')` makes of `lead + xs.join(' && ')`: each entry with its spaces. */
  lemma {:induction false} SplitJoined(lead: string, xs: seq<string>) returns (pieces: seq<string>)
    requires lead == "" || lead == " "
    requires |xs| >= 1
    requires forall k :: 0 <= k < |xs| ==> !Contains(xs[k], FormatSeparator)
    ensures pieces == Split(lead + Join(xs, FormatJoiner), FormatSeparator)
    ensures |pieces| == |xs|
    ensures forall k :: 0 <= k < |xs| ==>
      pieces[k] == (if k == 0 then lead else " ") + xs[k] + (if k < |xs| - 1 then " " else "")
    decreases |xs|
  {
    if |xs| == 1 {
      var h := lead + xs[0];
      LeadNoSeparator(lead, xs[0]);
      assert lead + Join(xs, FormatJoiner) == h;
      IndexOfNone(h, FormatSeparator);
      SplitNone(h, FormatSeparator);
      pieces := [h];
    } else {
      SplitJoinedStep(lead, xs);
      var tail := SplitJoined(" ", xs[1..]);
      pieces := [lead + xs[0] + " "] + tail;
    }
  }

  /** The characters `escapeRegExp` escapes. */
  predicate IsRegExpSpecial(c: char) {
    c == '.' || c == '*' || c == '+' || c == '?' || c == '^' || c == '$' || c == '{' || c == '}'
    || c == '(' || c == ')' || c == '|' || c == '[' || c == ']' || c == '\\'
  }

  function CountSpecial(s: string): nat {
    if s == [] then 0 else (if IsRegExpSpecial(s[0]) then 1 else 0) + CountSpecial(s[1..])
  }

  /** A pattern made only of ordinary characters and escaped special characters. */
  predicate IsLiteralPattern(r: string)
    decreases |r|
  {
    if r == [] then true
    else if r[0] == '\\' then |r| >= 2 && IsRegExpSpecial(r[1]) && IsLiteralPattern(r[2..])
    else !IsRegExpSpecial(r[0]) && IsLiteralPattern(r[1..])
  }

  /** The text a literal pattern matches: each escape stands for the character after it. */
  function LiteralText(r: string): string
    requires IsLiteralPattern(r)
    decreases |r|
  {
    if r == [] then []
    else if r[0] == '\\' then [r[1]] + LiteralText(r[2..])
    else [r[0]] + LiteralText(r[1..])
  }

  /** `escapeRegExp`: a backslash before every special character. */
  function EscapeRegExp(s: string): (r: string)
    ensures |r| == |s| + CountSpecial(s)
    ensures IsLiteralPattern(r) && LiteralText(r) == s
  {
    if s == [] then []
    else
      var rest := EscapeRegExp(s[1..]);
      if IsRegExpSpecial(s[0]) then
        assert (['\\', s[0]] + rest)[2..] == rest;
        ['\\', s[0]] + rest
      else
        assert ([s[0]] + rest)[1..] == rest;
        assert s == [s[0]] + s[1..];
        [s[0]] + rest
  }

  /** Text without special characters is its own pattern. */
  lemma {:induction false} EscapeOrdinary(s: string)
    requires forall i :: 0 <= i < |s| ==> !IsRegExpSpecial(s[i])
    ensures EscapeRegExp(s) == s
  {
    if s != [] {
      EscapeOrdinary(s[1..]);
    }
  }
}
