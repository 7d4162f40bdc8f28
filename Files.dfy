/**
 * The parts of src/File.ts that do not touch the vault: `expandSubtags`, and the search for
 * the list item of a task and the splice of replacement lines that `tryRepetitive` performs
 * once it has read the file.
 */
module Files {
  import opened Wrappers
  import opened JsStrings
  import opened Libraries
  import T = Tasks

  // ---------------------------------------------------------------------------------------
  // Subtags

  /** The part of `tag` before each `/` among its first `n` characters, in order. */
  function SlashPrefixes(tag: string, n: nat): seq<string>
    requires n <= |tag|
  {
    if n == 0 then []
    else SlashPrefixes(tag, n - 1) + (if tag[n - 1] == '/' then [tag[..n - 1]] else [])
  }

  /** One prefix per `/`. */
  lemma {:induction false} SlashPrefixesCount(tag: string, n: nat)
    requires n <= |tag|
    ensures |SlashPrefixes(tag, n)| == multiset(tag[..n])['/']
  {
    if n > 0 {
      SlashPrefixesCount(tag, n - 1);
      assert tag[..n] == tag[..n - 1] + [tag[n - 1]];
    }
  }

  /** Each prefix ends just before a `/`, and they grow strictly. */
  lemma {:induction false} SlashPrefixesShape(tag: string, n: nat)
    requires n <= |tag|
    ensures forall k :: 0 <= k < |SlashPrefixes(tag, n)| ==>
      var p := SlashPrefixes(tag, n)[k]; |p| < n && tag[|p|] == '/' && p == tag[..|p|]
    ensures forall k :: 0 <= k < |SlashPrefixes(tag, n)| - 1 ==>
      |SlashPrefixes(tag, n)[k]| < |SlashPrefixes(tag, n)[k + 1]|
  {
    if n > 0 {
      SlashPrefixesShape(tag, n - 1);
    }
  }

  /** Every `/` gives its prefix. */
  lemma {:induction false} SlashPrefixesComplete(tag: string, n: nat)
    requires n <= |tag|
    ensures forall i :: 0 <= i < n && tag[i] == '/' ==> tag[..i] in SlashPrefixes(tag, n)
  {
    if n > 0 {
      SlashPrefixesComplete(tag, n - 1);
    }
  }

  /**
   * `expandSubtags`: the tag itself, then for each `/` in it, in order, the part of the tag
   * before that `/` (so `#project/a` gives `#project/a` and `#project`).
   */
  method ExpandSubtags(tag: string) returns (allTags: seq<string>)
    ensures allTags == [tag] + SlashPrefixes(tag, |tag|)
    ensures |allTags| == 1 + multiset(tag)['/']
    ensures allTags[0] == tag
    ensures forall k :: 1 <= k < |allTags| ==>
      |allTags[k]| < |tag| && tag[|allTags[k]|] == '/' && allTags[k] == tag[..|allTags[k]|]
    ensures forall k :: 1 <= k < |allTags| - 1 ==> |allTags[k]| < |allTags[k + 1]|
    ensures forall i :: 0 <= i < |tag| && tag[i] == '/' ==> tag[..i] in allTags[1..]
  {
    allTags := [tag];
    for i := 0 to |tag|
      invariant allTags == [tag] + SlashPrefixes(tag, i)
    {
      if tag[i] == '/' {
        allTags := allTags + [tag[..i]];
      }
    }
    SlashPrefixesCount(tag, |tag|);
    SlashPrefixesShape(tag, |tag|);
    SlashPrefixesComplete(tag, |tag|);
    assert tag[..|tag|] == tag;
    assert allTags[1..] == SlashPrefixes(tag, |tag|);
  }

  // ---------------------------------------------------------------------------------------
  // Finding the task's list item

  /** What `tryRepetitive` reads of an item of the metadata cache's `listItems`. */
  datatype ListItem = ListItem(line: nat, isTask: bool)

  /** The loop looks at the item's line: it is a task at or after the section start. */
  predicate Considered(item: ListItem, sectionStart: nat) {
    item.line >= sectionStart && item.isTask
  }

  /** A considered item whose line exists and holds the global filter: one the loop counts. */
  predicate Counted(item: ListItem, fileLines: seq<string>, sectionStart: nat, globalFilter: string) {
    Considered(item, sectionStart) && item.line < |fileLines| && Contains(fileLines[item.line], globalFilter)
  }

  /** How many of `items` the loop counts. */
  function CountCounted(items: seq<ListItem>, fileLines: seq<string>, sectionStart: nat, globalFilter: string): (n: nat)
    ensures n <= |items|
    decreases |items|
  {
    if items == [] then 0
    else
      var last := if Counted(items[|items| - 1], fileLines, sectionStart, globalFilter) then 1 else 0;
      CountCounted(items[..|items| - 1], fileLines, sectionStart, globalFilter) + last
  }

  /** Every considered item among `items` has its line in the file. */
  predicate LinesExist(items: seq<ListItem>, fileLines: seq<string>, sectionStart: nat) {
    forall k :: 0 <= k < |items| && Considered(items[k], sectionStart) ==> items[k].line < |fileLines|
  }

  /**
   * The lookup loop of `tryRepetitive`: the index of the item which is counted when
   * `sectionIndex` items have been counted before it; None when there are too few; a
   * TypeError when a considered item's line is past the end of the file, as
   * `undefined.includes` throws.
   */
  method FindListItem(items: seq<ListItem>, fileLines: seq<string>, sectionStart: nat, sectionIndex: nat, globalFilter: string)
    returns (r: Result<Option<nat>, string>)
    ensures r.Success? && r.value.Some? ==>
      var k := r.value.value;
      && k < |items|
      && Counted(items[k], fileLines, sectionStart, globalFilter)
      && CountCounted(items[..k], fileLines, sectionStart, globalFilter) == sectionIndex
      && LinesExist(items[..k], fileLines, sectionStart)
    ensures r.Success? && r.value.None? ==>
      CountCounted(items, fileLines, sectionStart, globalFilter) <= sectionIndex
      && LinesExist(items, fileLines, sectionStart)
    ensures r.Failure? ==> r.error == "TypeError"
    ensures r.Failure? ==>
      exists k :: 0 <= k < |items| && Considered(items[k], sectionStart) && items[k].line >= |fileLines|
        && CountCounted(items[..k], fileLines, sectionStart, globalFilter) <= sectionIndex
        && LinesExist(items[..k], fileLines, sectionStart)
  {
    var count := 0;
    for k := 0 to |items|
      invariant count == CountCounted(items[..k], fileLines, sectionStart, globalFilter) <= sectionIndex
      invariant LinesExist(items[..k], fileLines, sectionStart)
    {
      assert items[..k + 1][..k] == items[..k];
      var item := items[k];
      if item.line < sectionStart {
        continue;
      }
      if !item.isTask {
        continue;
      }
      if item.line >= |fileLines| {
        return Failure("TypeError");
      }
      var line := fileLines[item.line];
      if Contains(line, globalFilter) {
        if count == sectionIndex {
          return Success(Some(k));
        }
        count := count + 1;
      }
    }
    assert items[..|items|] == items;
    return Success(None);
  }

  /** Counting more items never counts fewer. */
  lemma {:induction false} CountCountedMonotone(items: seq<ListItem>, n: nat, fileLines: seq<string>, sectionStart: nat, globalFilter: string)
    requires n <= |items|
    ensures CountCounted(items[..n], fileLines, sectionStart, globalFilter) <= CountCounted(items, fileLines, sectionStart, globalFilter)
    decreases |items| - n
  {
    if n < |items| {
      CountCountedMonotone(items[..|items| - 1], n, fileLines, sectionStart, globalFilter);
      assert items[..|items| - 1][..n] == items[..n];
    } else {
      assert items[..n] == items;
    }
  }

  /**
   * A counted item raises the count for every later item, so at most one item has exactly
   * `sectionIndex` counted items before it and is counted itself.
   */
  lemma {:induction false} FoundItemIsUnique(items: seq<ListItem>, j: nat, k: nat, fileLines: seq<string>, sectionStart: nat, globalFilter: string)
    requires j < k < |items|
    requires Counted(items[j], fileLines, sectionStart, globalFilter)
    ensures CountCounted(items[..j], fileLines, sectionStart, globalFilter) < CountCounted(items[..k], fileLines, sectionStart, globalFilter)
  {
    var prefix := items[..k];
    assert prefix[..j + 1] == items[..j + 1];
    assert items[..j + 1][..j] == items[..j];
    CountCountedMonotone(prefix, j + 1, fileLines, sectionStart, globalFilter);
  }

  /**
   * The lookup's three outcomes exclude each other: an item past the end of the file that the
   * loop reaches rules out finding an item and rules out running out of items.
   */
  lemma LookupFailureIsExclusive(items: seq<ListItem>, j: nat, k: nat, fileLines: seq<string>, sectionStart: nat, sectionIndex: nat, globalFilter: string)
    requires j < |items| && Considered(items[j], sectionStart) && items[j].line >= |fileLines|
    requires CountCounted(items[..j], fileLines, sectionStart, globalFilter) <= sectionIndex
    requires LinesExist(items[..j], fileLines, sectionStart)
    ensures !LinesExist(items, fileLines, sectionStart)
    ensures !(k < |items| && Counted(items[k], fileLines, sectionStart, globalFilter)
      && CountCounted(items[..k], fileLines, sectionStart, globalFilter) == sectionIndex
      && LinesExist(items[..k], fileLines, sectionStart))
  {
    if j < k <= |items| {
      assert items[..k][j] == items[j];
    } else if k < j && Counted(items[k], fileLines, sectionStart, globalFilter) {
      FoundItemIsUnique(items, k, j, fileLines, sectionStart, globalFilter);
    }
  }

  // ---------------------------------------------------------------------------------------
  // Replacing the line

  /** The file's lines with line `target` replaced by `newLines` (src/File.ts:158-162). */
  function Splice(fileLines: seq<string>, target: nat, newLines: seq<string>): (r: seq<string>)
    requires target < |fileLines|
    ensures |r| == |fileLines| - 1 + |newLines|
    ensures r[..target] == fileLines[..target]
    ensures r[target..target + |newLines|] == newLines
    ensures r[target + |newLines|..] == fileLines[target + 1..]
  {
    fileLines[..target] + newLines + fileLines[target + 1..]
  }

  /** Replacing a line by one line is an update of that line; by none, its deletion. */
  lemma SpliceOneOrNone(fileLines: seq<string>, target: nat, line: string)
    requires target < |fileLines|
    ensures Splice(fileLines, target, [line]) == fileLines[target := line]
    ensures Splice(fileLines, target, []) == fileLines[..target] + fileLines[target + 1..]
  {
  }

  /** `newTasks.map((task) => task.toFileLineString())`. */
  function TaskLines(newTasks: seq<T.Task>, c: T.Config, rt: Runtime): (r: seq<string>)
    ensures |r| == |newTasks| && forall k :: 0 <= k < |newTasks| ==> r[k] == T.ToFileLineString(newTasks[k], c, rt)
  {
    seq(|newTasks|, k requires 0 <= k < |newTasks| => T.ToFileLineString(newTasks[k], c, rt))
  }

  /**
   * What `tryRepetitive` does once the file is read: success with the content handed to
   * `vault.modify`, success with None when no item matches (the file is left alone), or the
   * TypeError of the lookup.
   */
  method ReplaceTaskLines(fileContent: string, items: seq<ListItem>, originalTask: T.Task, newTasks: seq<T.Task>, c: T.Config, rt: Runtime)
    returns (r: Result<Option<string>, string>)
    ensures r.Success? && r.value.Some? ==>
      exists k :: 0 <= k < |items| && items[k].line < |Split(fileContent, "\n")|
        && Counted(items[k], Split(fileContent, "\n"), originalTask.sectionStart, c.globalFilter)
        && CountCounted(items[..k], Split(fileContent, "\n"), originalTask.sectionStart, c.globalFilter) == originalTask.sectionIndex
        && LinesExist(items[..k], Split(fileContent, "\n"), originalTask.sectionStart)
        && r.value.value == Join(Splice(Split(fileContent, "\n"), items[k].line, TaskLines(newTasks, c, rt)), "\n")
    ensures r.Success? && r.value.None? ==>
      CountCounted(items, Split(fileContent, "\n"), originalTask.sectionStart, c.globalFilter) <= originalTask.sectionIndex
      && LinesExist(items, Split(fileContent, "\n"), originalTask.sectionStart)
    ensures r.Failure? ==> r.error == "TypeError"
    ensures r.Failure? ==>
      exists k :: 0 <= k < |items| && Considered(items[k], originalTask.sectionStart)
        && items[k].line >= |Split(fileContent, "\n")|
        && CountCounted(items[..k], Split(fileContent, "\n"), originalTask.sectionStart, c.globalFilter) <= originalTask.sectionIndex
        && LinesExist(items[..k], Split(fileContent, "\n"), originalTask.sectionStart)
  {
    var fileLines := Split(fileContent, "\n");
    var found := FindListItem(items, fileLines, originalTask.sectionStart, originalTask.sectionIndex, c.globalFilter);
    if found.Failure? {
      return Failure(found.error);
    }
    if found.value.None? {
      return Success(None);
    }
    var item := items[found.value.value];
    var updatedFileLines := Splice(fileLines, item.line, TaskLines(newTasks, c, rt));
    return Success(Some(Join(updatedFileLines, "\n")));
  }

  /** Writing the lines back unchanged gives the file content back (`split` then `join`). */
  lemma UnchangedLinesRoundTrip(fileContent: string)
    ensures Join(Split(fileContent, "\n"), "\n") == fileContent
  {
    SplitJoin(fileContent, "\n");
  }
}
