/**
 * The collection step of `onComplete`: for every file of the working directory,
 * in listing order, record its suite id once and append the records of its
 * JSON array.
 *
 * A file whose name has no digit makes `getSuiteId` throw inside the async
 * `forEach` callback, before the `try`: the callback's promise rejects, the
 * file gives neither an id nor records, and the loop goes on. A file that
 * cannot be read or parsed, or whose JSON is not an array (so `data.forEach`
 * throws), is caught: its id is kept and it adds no records.
 *
 * The functions are stated on the first `n` files of a listing, which is what
 * the loop has seen after `n` passes.
 */
module Collection {
  import opened Wrappers
  import opened JsValues
  import opened SuiteId

  /** A directory entry: its name and its parsed JSON, `None` when reading or parsing failed. */
  datatype FileEntry = FileEntry(name: string, contents: Option<JsValue>)

  /** The records one file adds to `results`. */
  function FileRecords(f: FileEntry): seq<JsValue> {
    if GetSuiteId(f.name).None? then []
    else
      match f.contents
      case Some(Arr(items)) => items
      case _ => []
  }

  /** The suite id of each of the first `n` files that has one, in file order, repeats included. */
  function ExtractedIds(files: seq<FileEntry>, n: nat): seq<nat>
    requires n <= |files|
  {
    if n == 0 then []
    else
      var id := GetSuiteId(files[n - 1].name);
      ExtractedIds(files, n - 1) + (if id.Some? then [id.value] else [])
  }

  /** `s` without its repeats: each element is kept at its first occurrence. */
  function Dedup(s: seq<nat>): seq<nat> {
    if s == [] then []
    else
      var d := Dedup(s[..|s| - 1]);
      if s[|s| - 1] in d then d else d + [s[|s| - 1]]
  }

  /** The `suites` list the loop has built after the first `n` files. */
  function SuiteIdsUpTo(files: seq<FileEntry>, n: nat): seq<nat>
    requires n <= |files|
  {
    Dedup(ExtractedIds(files, n))
  }

  /** The `suites` list after the whole listing. */
  function SuiteIds(files: seq<FileEntry>): seq<nat> {
    SuiteIdsUpTo(files, |files|)
  }

  /** The records the loop has appended to `results` after the first `n` files. */
  function CollectedUpTo(files: seq<FileEntry>, n: nat): seq<JsValue>
    requires n <= |files|
  {
    if n == 0 then [] else CollectedUpTo(files, n - 1) + FileRecords(files[n - 1])
  }

  /** The records the loop appends to `results` for the whole listing, in file order. */
  function CollectedRecords(files: seq<FileEntry>): seq<JsValue> {
    CollectedUpTo(files, |files|)
  }

  predicate NoDuplicates(s: seq<nat>) {
    forall i, j :: 0 <= i < j < |s| ==> s[i] != s[j]
  }

  /** The index of the first occurrence of `x` in `s`. */
  function FirstIndex(s: seq<nat>, x: nat): (k: nat)
    requires x in s
    ensures k < |s| && s[k] == x && x !in s[..k]
  {
    if s[0] == x then 0 else 1 + FirstIndex(s[1..], x)
  }

  /** Adding one element at the end keeps it only when it is new. */
  lemma DedupSnoc(s: seq<nat>, x: nat)
    ensures Dedup(s + [x]) == if x in Dedup(s) then Dedup(s) else Dedup(s) + [x]
  {
    assert (s + [x])[..|s|] == s;
  }

  /** `Dedup(s)` has no repeats and holds exactly the elements of `s`. */
  lemma {:induction false} DedupMembers(s: seq<nat>)
    ensures NoDuplicates(Dedup(s))
    ensures forall x :: x in Dedup(s) <==> x in s
  {
    if s != [] {
      var init := s[..|s| - 1];
      DedupMembers(init);
      assert s == init + [s[|s| - 1]];
    }
  }

  /** The elements of `Dedup(s)` stand in the order of their first occurrence in `s`. */
  lemma {:induction false} DedupFirstSeenOrder(s: seq<nat>, i: nat, j: nat)
    requires i < j < |Dedup(s)|
    ensures Dedup(s)[i] in s && Dedup(s)[j] in s
    ensures FirstIndex(s, Dedup(s)[i]) < FirstIndex(s, Dedup(s)[j])
  {
    DedupMembers(s);
    var init := s[..|s| - 1];
    var d := Dedup(init);
    DedupMembers(init);
    assert s == init + [s[|s| - 1]];
    if j < |d| {
      DedupFirstSeenOrder(init, i, j);
      FirstIndexOfPrefix(init, s, d[i]);
      FirstIndexOfPrefix(init, s, d[j]);
    } else {
      // d[j] is the last element of s, first seen there
      assert Dedup(s)[j] == s[|s| - 1] && s[|s| - 1] !in init;
      FirstIndexOfPrefix(init, s, d[i]);
      assert FirstIndex(s, s[|s| - 1]) == |s| - 1;
    }
  }

  /** Extending a sequence does not move the first occurrence of an element it already has. */
  lemma FirstIndexOfPrefix(init: seq<nat>, s: seq<nat>, x: nat)
    requires init <= s && x in init
    ensures x in s && FirstIndex(s, x) == FirstIndex(init, x)
  {
    var k := FirstIndex(init, x);
    assert s[k] == x;
  }

  /** The loop's step for `suites`: the next file's id is pushed when it has one not yet listed. */
  lemma SuiteIdsStep(files: seq<FileEntry>, i: nat)
    requires i < |files|
    ensures var before, id := SuiteIdsUpTo(files, i), GetSuiteId(files[i].name);
            SuiteIdsUpTo(files, i + 1) == if id.Some? && id.value !in before then before + [id.value] else before
  {
    var id := GetSuiteId(files[i].name);
    if id.Some? {
      DedupSnoc(ExtractedIds(files, i), id.value);
    } else {
      assert ExtractedIds(files, i + 1) == ExtractedIds(files, i);
    }
  }

  /** The loop's step for `results`: the next file's records go after everything collected so far. */
  lemma CollectedStep(files: seq<FileEntry>, i: nat, base: seq<JsValue>)
    requires i < |files|
    ensures base + CollectedUpTo(files, i + 1) == base + CollectedUpTo(files, i) + FileRecords(files[i])
  {
  }

  /** The records of a file whose name has an id and whose JSON is an array are that array. */
  lemma FileRecordsOfArray(f: FileEntry, items: seq<JsValue>)
    requires GetSuiteId(f.name).Some? && f.contents == Some(Arr(items))
    ensures FileRecords(f) == items
  {
  }

  /** After the loop `suites` has no repeats. */
  lemma SuiteIdsNoDuplicates(files: seq<FileEntry>)
    ensures NoDuplicates(SuiteIds(files))
  {
    DedupMembers(ExtractedIds(files, |files|));
  }

  /** An id is in `suites` exactly when some file name yields it. */
  lemma SuiteIdsMembers(files: seq<FileEntry>, x: nat)
    ensures x in SuiteIds(files) <==> exists k :: 0 <= k < |files| && GetSuiteId(files[k].name) == Some(x)
  {
    DedupMembers(ExtractedIds(files, |files|));
    ExtractedIdsMembers(files, |files|, x);
  }

  lemma {:induction false} ExtractedIdsMembers(files: seq<FileEntry>, n: nat, x: nat)
    requires n <= |files|
    ensures x in ExtractedIds(files, n) <==> exists k :: 0 <= k < n && GetSuiteId(files[k].name) == Some(x)
  {
    if n > 0 {
      ExtractedIdsMembers(files, n - 1, x);
    }
  }

  /**
   * `suites` depends on the file names only: a file whose contents failed to
   * parse still has its id recorded, because the push happens before the `try`.
   */
  lemma SuiteIdsIgnoreContents(files: seq<FileEntry>, other: seq<FileEntry>)
    requires |files| == |other|
    requires forall k :: 0 <= k < |files| ==> files[k].name == other[k].name
    ensures SuiteIds(files) == SuiteIds(other)
  {
    ExtractedIdsIgnoreContents(files, other, |files|);
  }

  lemma {:induction false} ExtractedIdsIgnoreContents(files: seq<FileEntry>, other: seq<FileEntry>, n: nat)
    requires n <= |files| == |other|
    requires forall k :: 0 <= k < |files| ==> files[k].name == other[k].name
    ensures ExtractedIds(files, n) == ExtractedIds(other, n)
  {
    if n > 0 {
      ExtractedIdsIgnoreContents(files, other, n - 1);
    }
  }

  /** What the loop collects from the first `n` files does not depend on the files after them. */
  lemma {:induction false} CollectedUpToPrefix(a: seq<FileEntry>, b: seq<FileEntry>, n: nat)
    requires n <= |a|
    ensures CollectedUpTo(a + b, n) == CollectedUpTo(a, n)
  {
    if n > 0 {
      CollectedUpToPrefix(a, b, n - 1);
      assert (a + b)[n - 1] == a[n - 1];
    }
  }

  lemma {:induction false} CollectedUpToAppend(a: seq<FileEntry>, b: seq<FileEntry>, n: nat)
    requires n <= |b|
    ensures CollectedUpTo(a + b, |a| + n) == CollectedRecords(a) + CollectedUpTo(b, n)
  {
    if n == 0 {
      CollectedUpToPrefix(a, b, |a|);
    } else {
      CollectedUpToAppend(a, b, n - 1);
      assert (a + b)[|a| + n - 1] == b[n - 1];
    }
  }

  /** Collecting a concatenated listing collects each part in turn. */
  lemma CollectedRecordsAppend(a: seq<FileEntry>, b: seq<FileEntry>)
    ensures CollectedRecords(a + b) == CollectedRecords(a) + CollectedRecords(b)
  {
    CollectedUpToAppend(a, b, |b|);
  }

  /**
   * A file that fails to parse, or whose JSON is not an array, contributes no
   * records and does not stop the files after it.
   */
  lemma FailedFileContributesNothing(before: seq<FileEntry>, bad: FileEntry, after: seq<FileEntry>)
    requires bad.contents.None? || !bad.contents.value.Arr?
    ensures CollectedRecords(before + [bad] + after) == CollectedRecords(before) + CollectedRecords(after)
  {
    var withBad := before + [bad];
    CollectedRecordsAppend(withBad, after);
    CollectedRecordsAppend(before, [bad]);
    assert FileRecords(bad) == [];
    assert CollectedUpTo([bad], 1) == CollectedUpTo([bad], 0) + FileRecords([bad][0]);
    assert CollectedRecords(withBad) == CollectedRecords(before);
  }

  function Sum(s: seq<nat>): nat {
    if s == [] then 0 else Sum(s[..|s| - 1]) + s[|s| - 1]
  }

  /** The number of records each file adds, in file order. */
  function RecordCounts(files: seq<FileEntry>): (r: seq<nat>)
    ensures |r| == |files|
    ensures forall k :: 0 <= k < |files| ==> r[k] == |FileRecords(files[k])|
  {
    seq(|files|, k requires 0 <= k < |files| => |FileRecords(files[k])|)
  }

  lemma {:induction false} CollectedUpToLength(files: seq<FileEntry>, n: nat)
    requires n <= |files|
    ensures |CollectedUpTo(files, n)| == Sum(RecordCounts(files)[..n])
  {
    if n > 0 {
      CollectedUpToLength(files, n - 1);
      assert RecordCounts(files)[..n][..n - 1] == RecordCounts(files)[..n - 1];
    }
  }

  /** `results` grows by the sum of the array lengths of the files that parsed. */
  lemma CollectedRecordsLength(files: seq<FileEntry>)
    ensures |CollectedRecords(files)| == Sum(RecordCounts(files))
  {
    CollectedUpToLength(files, |files|);
    assert RecordCounts(files)[..|files|] == RecordCounts(files);
  }

  /**
   * Two files of the same suite, the second one unreadable: the suite is listed
   * once and only the first file's records are collected.
   */
  lemma SameSuiteWithUnreadableFile(good: FileEntry, bad: FileEntry, id: nat, items: seq<JsValue>)
    requires GetSuiteId(good.name) == Some(id) && GetSuiteId(bad.name) == Some(id)
    requires good.contents == Some(Arr(items)) && bad.contents.None?
    ensures SuiteIds([good, bad]) == [id]
    ensures CollectedRecords([good, bad]) == items
  {
    var files := [good, bad];
    SuiteIdsStep(files, 0);
    SuiteIdsStep(files, 1);
    FileRecordsOfArray(good, items);
    assert FileRecords(bad) == [];
    assert CollectedUpTo(files, 1) == [] + FileRecords(files[0]);
    assert CollectedUpTo(files, 2) == CollectedUpTo(files, 1) + FileRecords(files[1]);
  }
}
