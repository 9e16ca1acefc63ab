/**
 * `filter_file_by_size`, the built-in preprocessing callback: keep the task
 * files whose size lies in an inclusive byte range.
 */
module SizeFilter {
  import opened Resources

  /** 500 MiB, the default lower bound. */
  const DefaultMinSize: int := 500 * 1024 * 1024
  /** 40 GiB, the default upper bound. */
  const DefaultMaxSize: int := 40 * 1024 * 1024 * 1024

  predicate InRange(f: TaskFile, minSize: int, maxSize: int)
  {
    minSize <= f.fileSize <= maxSize
  }

  /** The files of `files` whose size is within `[minSize, maxSize]`; an empty
      list gives an empty list. */
  function FilterBySize(files: seq<TaskFile>, minSize: int, maxSize: int): (kept: seq<TaskFile>)
    ensures forall f :: f in kept <==> f in files && InRange(f, minSize, maxSize)
    ensures |kept| <= |files|
    ensures files == [] ==> kept == []
  {
    if files == [] then []
    else (if InRange(files[0], minSize, maxSize) then [files[0]] else [])
         + FilterBySize(files[1..], minSize, maxSize)
  }

  predicate StrictlyIncreasingIndices(files: seq<TaskFile>)
  {
    forall i, j :: 0 <= i < j < |files| ==> files[i].index < files[j].index
  }

  /** The filter keeps order: filtering a concatenation is concatenating the
      filtered parts (with the behaviour on one file, this determines the result). */
  lemma {:induction false} FilterAppend(a: seq<TaskFile>, b: seq<TaskFile>, minSize: int, maxSize: int)
    ensures FilterBySize(a + b, minSize, maxSize) == FilterBySize(a, minSize, maxSize) + FilterBySize(b, minSize, maxSize)
    decreases a
  {
    if a == [] {
      assert a + b == b;
    } else {
      assert (a + b)[0] == a[0];
      assert (a + b)[1..] == a[1..] + b;
      FilterAppend(a[1..], b, minSize, maxSize);
    }
  }

  /** Filtering twice with the same bounds changes nothing. */
  lemma {:induction false} FilterIdempotent(files: seq<TaskFile>, minSize: int, maxSize: int)
    ensures FilterBySize(FilterBySize(files, minSize, maxSize), minSize, maxSize) == FilterBySize(files, minSize, maxSize)
    decreases files
  {
    if files != [] {
      var head := if InRange(files[0], minSize, maxSize) then [files[0]] else [];
      FilterIdempotent(files[1..], minSize, maxSize);
      FilterAppend(head, FilterBySize(files[1..], minSize, maxSize), minSize, maxSize);
    }
  }

  /** The kept files stay in their original order, so indices that were
      increasing are still increasing. */
  lemma {:induction false} FilterKeepsIndexOrder(files: seq<TaskFile>, minSize: int, maxSize: int)
    requires StrictlyIncreasingIndices(files)
    ensures StrictlyIncreasingIndices(FilterBySize(files, minSize, maxSize))
    decreases files
  {
    if files != [] {
      var rest := FilterBySize(files[1..], minSize, maxSize);
      FilterKeepsIndexOrder(files[1..], minSize, maxSize);
      forall f | f in rest ensures files[0].index < f.index {
        var k :| 1 <= k < |files| && files[k] == f;
      }
    }
  }

  /** After flattening and the size filter, the selection is exactly the files
      of the tree whose size is in range, each under its pre-order number, in
      increasing number order. */
  lemma SizeFilteredSelection(rs: seq<Resource>, minSize: int, maxSize: int)
    ensures var kept := FilterBySize(Flatten(rs), minSize, maxSize);
      && StrictlyIncreasingIndices(kept)
      && (forall f :: f in kept <==>
            exists i :: 0 <= i < |FileLeaves(rs)| && minSize <= FileLeaves(rs)[i].size <= maxSize
                     && f == TaskFile(i, FileLeaves(rs)[i].name, FileLeaves(rs)[i].size))
  {
    FlattenNumbersLeaves(rs, 0);
    FilterKeepsIndexOrder(Flatten(rs), minSize, maxSize);
  }

  /** A resolved tree `{A: [f1 (1 MiB), f2 (600 MiB)], f3 (50 GiB)}` numbers
      f1, f2, f3 as 0, 1, 2, and the default bounds keep only f2. */
  lemma DefaultBoundsExample()
    ensures var tree := [Dir("A", [File("f1", 1024 * 1024), File("f2", 600 * 1024 * 1024)]),
                         File("f3", 50 * 1024 * 1024 * 1024)];
      && Flatten(tree) == [TaskFile(0, "f1", 1024 * 1024), TaskFile(1, "f2", 600 * 1024 * 1024),
                           TaskFile(2, "f3", 50 * 1024 * 1024 * 1024)]
      && FilterBySize(Flatten(tree), DefaultMinSize, DefaultMaxSize) == [TaskFile(1, "f2", 600 * 1024 * 1024)]
  {
  }
}
