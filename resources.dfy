/**
 * The resource tree that the vendor's resource-listing call returns for a magnet
 * link, and its flattening into numbered task files.
 */
module Resources {

  /** One entry of `list.resources`: a file, or a directory (`is_dir`) whose
      `dir.resources` are its children. */
  datatype Resource =
    | File(name: string, size: int)
    | Dir(name: string, children: seq<Resource>)

  /** A file of the resource together with its position in the flattening. */
  datatype TaskFile = TaskFile(index: int, fileName: string, fileSize: int)

  /** Reference definition: the non-directory resources of a listing, each
      directory's contents in place of the directory, in listed order. */
  function FileLeaves(rs: seq<Resource>): (leaves: seq<Resource>)
    ensures forall i :: 0 <= i < |leaves| ==> leaves[i].File?
    decreases rs
  {
    if rs == [] then []
    else match rs[0]
      case File(_, _) => [rs[0]] + FileLeaves(rs[1..])
      case Dir(_, cs) => FileLeaves(cs) + FileLeaves(rs[1..])
  }

  /** Reference definition: the summed size of every file in the listing. */
  function TreeSize(rs: seq<Resource>): int
    decreases rs
  {
    if rs == [] then 0
    else match rs[0]
      case File(_, size) => size + TreeSize(rs[1..])
      case Dir(_, cs) => TreeSize(cs) + TreeSize(rs[1..])
  }

  /** The task files the client's recursive helper appends when its counter
      starts at `next`: a file takes the counter and advances it by one, a
      directory is walked in place and advances it by what it appended. */
  function FlattenFrom(rs: seq<Resource>, next: int): (files: seq<TaskFile>)
    decreases rs
  {
    if rs == [] then []
    else match rs[0]
      case File(name, size) => [TaskFile(next, name, size)] + FlattenFrom(rs[1..], next + 1)
      case Dir(_, cs) =>
        var inner := FlattenFrom(cs, next);
        inner + FlattenFrom(rs[1..], next + |inner|)
  }

  /** The flattening of a whole resolution: the counter starts at 0. */
  function Flatten(rs: seq<Resource>): seq<TaskFile>
  {
    FlattenFrom(rs, 0)
  }

  /** The summed size of a list of task files (`sum(i.file_size for i in ...)`). */
  function TotalSize(files: seq<TaskFile>): int
  {
    if files == [] then 0 else files[0].fileSize + TotalSize(files[1..])
  }

  /** The indices of a list of task files, in list order. */
  function Indices(files: seq<TaskFile>): (ixs: seq<int>)
    ensures |ixs| == |files|
  {
    seq(|files|, i requires 0 <= i < |files| => files[i].index)
  }

  /** The walk appends one task file per file of the tree. */
  lemma {:induction false} FlattenLength(rs: seq<Resource>, next: int)
    ensures |FlattenFrom(rs, next)| == |FileLeaves(rs)|
    decreases rs
  {
    if rs != [] {
      match rs[0]
      case File(_, _) =>
        FlattenLength(rs[1..], next + 1);
      case Dir(_, cs) =>
        FlattenLength(cs, next);
        FlattenLength(rs[1..], next + |FlattenFrom(cs, next)|);
    }
  }

  /** The i-th task file of the walk is the i-th file leaf, numbered `next + i`. */
  lemma {:induction false} FlattenAt(rs: seq<Resource>, next: int, i: int)
    requires 0 <= i < |FileLeaves(rs)|
    ensures |FlattenFrom(rs, next)| == |FileLeaves(rs)|
    ensures FlattenFrom(rs, next)[i] == TaskFile(next + i, FileLeaves(rs)[i].name, FileLeaves(rs)[i].size)
    decreases rs
  {
    FlattenLength(rs, next);
    match rs[0]
    case File(name, size) =>
      if i > 0 {
        FlattenAt(rs[1..], next + 1, i - 1);
        assert FlattenFrom(rs, next)[i] == FlattenFrom(rs[1..], next + 1)[i - 1];
        assert FileLeaves(rs)[i] == FileLeaves(rs[1..])[i - 1];
      }
    case Dir(_, cs) =>
      var inner := FlattenFrom(cs, next);
      FlattenLength(cs, next);
      if i < |inner| {
        FlattenAt(cs, next, i);
        assert FlattenFrom(rs, next)[i] == inner[i];
        assert FileLeaves(rs)[i] == FileLeaves(cs)[i];
      } else {
        FlattenAt(rs[1..], next + |inner|, i - |inner|);
        assert FlattenFrom(rs, next)[i] == FlattenFrom(rs[1..], next + |inner|)[i - |inner|];
        assert FileLeaves(rs)[i] == FileLeaves(rs[1..])[i - |inner|];
      }
  }

  /** Every file of the tree gets exactly one task file: the i-th task file is
      the i-th file leaf, numbered `next + i`; directories contribute none. */
  lemma {:induction false} FlattenNumbersLeaves(rs: seq<Resource>, next: int)
    ensures |FlattenFrom(rs, next)| == |FileLeaves(rs)|
    ensures forall i :: 0 <= i < |FileLeaves(rs)| ==>
      FlattenFrom(rs, next)[i] == TaskFile(next + i, FileLeaves(rs)[i].name, FileLeaves(rs)[i].size)
  {
    FlattenLength(rs, next);
    forall i | 0 <= i < |FileLeaves(rs)|
      ensures FlattenFrom(rs, next)[i] == TaskFile(next + i, FileLeaves(rs)[i].name, FileLeaves(rs)[i].size)
    {
      FlattenAt(rs, next, i);
    }
  }

  /** The indices of a whole resolution are exactly 0, 1, ..., n - 1, where n is
      the number of files in the tree. */
  lemma FlattenIndicesContiguous(rs: seq<Resource>)
    ensures Indices(Flatten(rs)) == seq(|FileLeaves(rs)|, i => i)
  {
    FlattenNumbersLeaves(rs, 0);
  }

  /** Walking two consecutive runs of siblings is walking the first, then the
      second with the counter advanced by what the first appended. */
  lemma {:induction false} FlattenAppend(a: seq<Resource>, b: seq<Resource>, next: int)
    ensures FlattenFrom(a + b, next) == FlattenFrom(a, next) + FlattenFrom(b, next + |FlattenFrom(a, next)|)
    decreases a
  {
    if a == [] {
      assert a + b == b;
    } else {
      assert (a + b)[0] == a[0];
      assert (a + b)[1..] == a[1..] + b;
      match a[0]
      case File(_, _) =>
        FlattenAppend(a[1..], b, next + 1);
      case Dir(_, cs) =>
        FlattenAppend(a[1..], b, next + |FlattenFrom(cs, next)|);
    }
  }

  /** Pre-order: the files of a run of siblings are those of the first run,
      then those of the second. */
  lemma {:induction false} FileLeavesAppend(a: seq<Resource>, b: seq<Resource>)
    ensures FileLeaves(a + b) == FileLeaves(a) + FileLeaves(b)
    decreases a
  {
    if a == [] {
      assert a + b == b;
    } else {
      assert (a + b)[0] == a[0];
      assert (a + b)[1..] == a[1..] + b;
      FileLeavesAppend(a[1..], b);
    }
  }

  /** Pre-order: a directory takes no number; its files take the numbers
      `next` .. `next + m - 1`, where m is how many files it holds, and its
      later siblings' files follow from `next + m` on. */
  lemma DirectoryBeforeSiblings(name: string, cs: seq<Resource>, rest: seq<Resource>, next: int)
    ensures var out, m := FlattenFrom([Dir(name, cs)] + rest, next), |FileLeaves(cs)|;
      && |out| == m + |FileLeaves(rest)|
      && (forall i :: 0 <= i < m ==>
            out[i] == TaskFile(next + i, FileLeaves(cs)[i].name, FileLeaves(cs)[i].size))
      && (forall i :: m <= i < |out| ==>
            out[i] == TaskFile(next + i, FileLeaves(rest)[i - m].name, FileLeaves(rest)[i - m].size))
  {
    assert ([Dir(name, cs)] + rest)[1..] == rest;
    FlattenNumbersLeaves(cs, next);
    FlattenNumbersLeaves(rest, next + |FileLeaves(cs)|);
  }

  lemma {:induction false} TotalSizeAppend(a: seq<TaskFile>, b: seq<TaskFile>)
    ensures TotalSize(a + b) == TotalSize(a) + TotalSize(b)
    decreases a
  {
    if a == [] {
      assert a + b == b;
    } else {
      assert (a + b)[1..] == a[1..] + b;
      TotalSizeAppend(a[1..], b);
    }
  }

  /** Without a filter, the size submitted for a resolution is the size of
      every file in the tree. */
  lemma {:induction false} FlattenTotalSize(rs: seq<Resource>, next: int)
    ensures TotalSize(FlattenFrom(rs, next)) == TreeSize(rs)
    decreases rs
  {
    if rs != [] {
      match rs[0]
      case File(name, size) =>
        FlattenTotalSize(rs[1..], next + 1);
        TotalSizeAppend([TaskFile(next, name, size)], FlattenFrom(rs[1..], next + 1));
      case Dir(_, cs) =>
        var inner := FlattenFrom(cs, next);
        FlattenTotalSize(cs, next);
        FlattenTotalSize(rs[1..], next + |inner|);
        TotalSizeAppend(inner, FlattenFrom(rs[1..], next + |inner|));
    }
  }
}
