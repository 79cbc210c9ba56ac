/** Source files as the adapter lists them, and the sequence operations its discovery is made of. */
module Files {
  datatype Option<+T> = None | Some(value: T)

  /** One listed source file. Modification times are integers: milliseconds since the epoch. */
  datatype FileInfo = FileInfo(path: string, modificationTime: int, length: nat, estimatedBytes: Option<nat>) {
    function Bytes(): nat {
      if estimatedBytes.Some? then estimatedBytes.value else length
    }
  }

  function TotalBytes(files: seq<FileInfo>): nat {
    if files == [] then 0 else TotalBytes(files[..|files| - 1]) + files[|files| - 1].Bytes()
  }

  /** A file counts with its estimate where it has one, and with its own length otherwise. */
  lemma AppendedBytes(files: seq<FileInfo>, f: FileInfo)
    ensures TotalBytes([]) == 0
    ensures f.estimatedBytes.Some? ==> TotalBytes(files + [f]) == TotalBytes(files) + f.estimatedBytes.value
    ensures f.estimatedBytes.None? ==> TotalBytes(files + [f]) == TotalBytes(files) + f.length
  {
    assert (files + [f])[..|files|] == files;
  }

  function PathsOf(files: seq<FileInfo>): set<string> {
    set f | f in files :: f.path
  }

  /** Python's `max(f.modification_time for f in files)`. */
  function MaxTime(files: seq<FileInfo>): int
    requires files != []
  {
    var last := files[|files| - 1].modificationTime;
    if |files| == 1 then last
    else
      var rest := MaxTime(files[..|files| - 1]);
      if last > rest then last else rest
  }

  lemma {:induction false} MaxTimeIsMaximum(files: seq<FileInfo>)
    requires files != []
    ensures forall f :: f in files ==> f.modificationTime <= MaxTime(files)
    ensures exists f :: f in files && f.modificationTime == MaxTime(files)
  {
    var n := |files| - 1;
    assert files == files[..n] + [files[n]];
    if n == 0 {
      assert files[0] in files;
    } else {
      MaxTimeIsMaximum(files[..n]);
      assert files[n] in files;
    }
  }

  ghost predicate Sorted(files: seq<FileInfo>) {
    forall i, j :: 0 <= i < j < |files| ==> files[i].modificationTime <= files[j].modificationTime
  }

  /** No two entries name the same path. */
  ghost predicate DistinctPaths(files: seq<FileInfo>) {
    forall i, j :: 0 <= i < j < |files| ==> files[i].path != files[j].path
  }

  ghost predicate DistinctTimes(files: seq<FileInfo>) {
    forall i, j :: 0 <= i < j < |files| ==> files[i].modificationTime != files[j].modificationTime
  }

  lemma SortedMaxIsLast(files: seq<FileInfo>)
    requires files != [] && Sorted(files)
    ensures MaxTime(files) == files[|files| - 1].modificationTime
  {
    MaxTimeIsMaximum(files);
    assert files[|files| - 1] in files;
    var f :| f in files && f.modificationTime == MaxTime(files);
    var i :| 0 <= i < |files| && files[i] == f;
  }

  // ---- Stable sort by modification time ---------------------------------------------------

  function InsertByTime(f: FileInfo, files: seq<FileInfo>): (r: seq<FileInfo>)
    ensures multiset(r) == multiset{f} + multiset(files)
  {
    if files == [] then [f]
    else if f.modificationTime <= files[0].modificationTime then [f] + files
    else
      assert files == [files[0]] + files[1..];
      [files[0]] + InsertByTime(f, files[1..])
  }

  /** Python's stable `sort(key=lambda f: f.modification_time)`. */
  function SortByTime(files: seq<FileInfo>): seq<FileInfo> {
    if files == [] then [] else InsertByTime(files[0], SortByTime(files[1..]))
  }

  lemma {:induction false} InsertKeepsSorted(f: FileInfo, files: seq<FileInfo>)
    requires Sorted(files)
    ensures Sorted(InsertByTime(f, files))
  {
    if files != [] && f.modificationTime > files[0].modificationTime {
      InsertKeepsSorted(f, files[1..]);
      var rest := InsertByTime(f, files[1..]);
      forall x | x in rest ensures files[0].modificationTime <= x.modificationTime {
        assert x in multiset(rest);
        if x != f { assert x in files[1..]; }
      }
    }
  }

  lemma {:induction false} SortIsSorted(files: seq<FileInfo>)
    ensures Sorted(SortByTime(files))
    ensures multiset(SortByTime(files)) == multiset(files)
  {
    if files != [] {
      SortIsSorted(files[1..]);
      assert files == [files[0]] + files[1..];
      InsertKeepsSorted(files[0], SortByTime(files[1..]));
    }
  }

  /** The files of one time, in order. */
  function OfTime(files: seq<FileInfo>, t: int): seq<FileInfo> {
    if files == [] then []
    else (if files[0].modificationTime == t then [files[0]] else []) + OfTime(files[1..], t)
  }

  lemma {:induction false} InsertGoesFirst(f: FileInfo, files: seq<FileInfo>, t: int)
    requires Sorted(files)
    ensures OfTime(InsertByTime(f, files), t) == (if f.modificationTime == t then [f] else []) + OfTime(files, t)
  {
    if files == [] {
      assert [f][1..] == [];
    } else if f.modificationTime <= files[0].modificationTime {
      assert ([f] + files)[1..] == files;
    } else {
      InsertGoesFirst(f, files[1..], t);
      var inserted := InsertByTime(f, files);
      assert inserted[1..] == InsertByTime(f, files[1..]);
    }
  }

  /** Files of equal time keep their order. */
  lemma {:induction false} SortIsStable(files: seq<FileInfo>, t: int)
    ensures OfTime(SortByTime(files), t) == OfTime(files, t)
  {
    if files != [] {
      SortIsStable(files[1..], t);
      SortIsSorted(files[1..]);
      InsertGoesFirst(files[0], SortByTime(files[1..]), t);
    }
  }

  lemma SortMembers(files: seq<FileInfo>)
    ensures forall f :: f in SortByTime(files) <==> f in files
    ensures |SortByTime(files)| == |files|
  {
    SortIsSorted(files);
    forall f ensures f in SortByTime(files) <==> f in files {
      assert f in multiset(SortByTime(files)) <==> f in multiset(files);
    }
    assert |multiset(SortByTime(files))| == |multiset(files)|;
  }

  lemma DistinctMultiplicity(files: seq<FileInfo>, x: FileInfo)
    requires DistinctPaths(files)
    ensures multiset(files)[x] <= 1
  {
    if x in files {
      var p :| 0 <= p < |files| && files[p] == x;
      assert files == files[..p] + [x] + files[p + 1..];
    }
  }

  lemma RepeatMultiplicity(files: seq<FileInfo>, i: nat, j: nat)
    requires i < j < |files| && files[i] == files[j]
    ensures multiset(files)[files[i]] >= 2
  {
    assert files == files[..i] + [files[i]] + files[i + 1..j] + [files[j]] + files[j + 1..];
  }

  /** Reordering a list without repeated paths keeps it without repeated paths. */
  lemma PermutationKeepsDistinctPaths(a: seq<FileInfo>, b: seq<FileInfo>)
    requires multiset(a) == multiset(b) && DistinctPaths(a)
    ensures DistinctPaths(b)
  {
    forall i, j | 0 <= i < j < |b| ensures b[i].path != b[j].path {
      var x, y := b[i], b[j];
      assert x in multiset(b) && y in multiset(b);
      if x == y {
        RepeatMultiplicity(b, i, j);
        DistinctMultiplicity(a, x);
      }
      var p :| 0 <= p < |a| && a[p] == x;
      var q :| 0 <= q < |a| && a[q] == y;
    }
  }
}
