/**
 * The migration selector: `files.OrderByDescending(file => file.Name).First()`.
 * LINQ's OrderByDescending is a stable sort, so its first element is the
 * earliest file, in listing order, among those with the greatest name.
 */
module Selection {
  import opened Ordinal
  import opened Scripts

  /** `files[i]` has a name no other file sorts after, and every file listed
      before it has a strictly smaller name. */
  ghost predicate IsLatest(files: seq<FileEntry>, i: int)
  {
    && 0 <= i < |files|
    && (forall j {:trigger NameLess(files[i].name, files[j].name)} ::
          0 <= j < |files| ==> !NameLess(files[i].name, files[j].name))
    && (forall j {:trigger NameLess(files[j].name, files[i].name)} ::
          0 <= j < i ==> NameLess(files[j].name, files[i].name))
  }

  /** Picking the latest of a non-empty listing from its first element and
      the latest of the rest. */
  lemma LatestExtend(files: seq<FileEntry>, k: int)
    requires |files| > 1 && IsLatest(files[1..], k - 1)
    ensures IsLatest(files, if NameLess(files[0].name, files[k].name) then k else 0)
  {
    var rest := files[1..];
    assert forall j :: 1 <= j < |files| ==> files[j] == rest[j - 1];
    if NameLess(files[0].name, files[k].name) {
      NameLessAsymmetric(files[0].name, files[k].name);
    } else {
      forall j | 0 <= j < |files|
        ensures !NameLess(files[0].name, files[j].name)
      {
        if j == 0 {
          NameLessIrreflexive(files[0].name);
        } else if NameLess(files[0].name, files[j].name) {
          assert !NameLess(rest[k - 1].name, rest[j - 1].name);
          NameLessNotLess(files[0].name, files[j].name, files[k].name);
        }
      }
    }
  }

  /** The index of the file `OrderByDescending(Name).First()` returns. */
  function SelectLatest(files: seq<FileEntry>): (i: nat)
    requires |files| > 0
    ensures IsLatest(files, i)
    decreases |files|
  {
    if |files| == 1 then
      NameLessIrreflexive(files[0].name);
      0
    else
      var k := 1 + SelectLatest(files[1..]);
      LatestExtend(files, k);
      if NameLess(files[0].name, files[k].name) then k else 0
  }

  /** Only one index is the latest one: the selection is determined. */
  lemma LatestUnique(files: seq<FileEntry>, i: int, j: int)
    requires IsLatest(files, i) && IsLatest(files, j)
    ensures i == j
  {
    // Naming both comparisons of the two names brings the quantified facts
    // of both IsLatest conditions into play.
    ghost var x, y := files[i].name, files[j].name;
    ghost var before, after := NameLess(x, y), NameLess(y, x);
  }

  /** Inserts `x` before the first element whose name does not sort after
      `x`, so `x` precedes the equal names that were listed after it. */
  function InsertDescending(x: FileEntry, sorted: seq<FileEntry>): (r: seq<FileEntry>)
    ensures multiset(r) == multiset(sorted) + multiset{x}
  {
    if sorted == [] || !NameLess(x.name, sorted[0].name) then [x] + sorted
    else
      assert sorted == [sorted[0]] + sorted[1..];
      [sorted[0]] + InsertDescending(x, sorted[1..])
  }

  /** A stable descending sort by name (insertion sort), the reference
      definition of `OrderByDescending(file => file.Name)`. */
  function OrderByNameDescending(files: seq<FileEntry>): (r: seq<FileEntry>)
  {
    if files == [] then [] else InsertDescending(files[0], OrderByNameDescending(files[1..]))
  }

  ghost predicate SortedDescending(s: seq<FileEntry>)
  {
    forall i, j :: 0 <= i < j < |s| ==> !NameLess(s[i].name, s[j].name)
  }

  lemma {:induction false} InsertDescendingSorted(x: FileEntry, sorted: seq<FileEntry>)
    requires SortedDescending(sorted)
    ensures SortedDescending(InsertDescending(x, sorted))
  {
    var r := InsertDescending(x, sorted);
    if sorted == [] || !NameLess(x.name, sorted[0].name) {
      forall j | 1 <= j < |r| ensures !NameLess(x.name, r[j].name) {
        if j > 1 {
          NotNameLessTransitive(x.name, sorted[0].name, sorted[j - 1].name);
        }
      }
    } else {
      var tail := InsertDescending(x, sorted[1..]);
      InsertDescendingSorted(x, sorted[1..]);
      forall j | 0 <= j < |tail| ensures !NameLess(sorted[0].name, tail[j].name) {
        assert tail[j] in multiset(tail);
        if tail[j] == x {
          NameLessAsymmetric(x.name, sorted[0].name);
        } else {
          assert tail[j] in sorted[1..];
        }
      }
    }
  }

  /** OrderByNameDescending sorts: no file sorts after one placed before it. */
  lemma {:induction false} OrderByNameDescendingSorted(files: seq<FileEntry>)
    ensures SortedDescending(OrderByNameDescending(files))
  {
    if files != [] {
      OrderByNameDescendingSorted(files[1..]);
      InsertDescendingSorted(files[0], OrderByNameDescending(files[1..]));
    }
  }

  /** OrderByNameDescending only reorders: it keeps every file, duplicates included. */
  lemma {:induction false} OrderByNameDescendingPermutes(files: seq<FileEntry>)
    ensures multiset(OrderByNameDescending(files)) == multiset(files)
  {
    if files != [] {
      OrderByNameDescendingPermutes(files[1..]);
      assert files == [files[0]] + files[1..];
    }
  }

  /** The first element of the stable descending sort is the selected file. */
  lemma {:induction false} FirstOfOrderByNameDescending(files: seq<FileEntry>)
    requires |files| > 0
    ensures |OrderByNameDescending(files)| == |files|
    ensures OrderByNameDescending(files)[0] == files[SelectLatest(files)]
  {
    OrderByNameDescendingPermutes(files);
    assert |multiset(OrderByNameDescending(files))| == |files|;
    if |files| > 1 {
      FirstOfOrderByNameDescending(files[1..]);
    }
  }
}
