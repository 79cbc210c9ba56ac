/** `adls_gen1_client.py`: directory worklists whose result does not depend on the order of completion. */
module Walk {
  import opened Files

  // ---- Directory trees ------------------------------------------------------------------------

  /** What listing a directory yields. A directory that is missing or cannot be listed is skipped. */
  datatype Entry = FileEntry(name: string, length: nat) | DirEntry(dir: Dir)
  datatype Dir = Dir(path: string, readable: bool, entries: seq<Entry>)

  /** Every file of a tree, counted with multiplicity. */
  function FilesUnder(d: Dir): multiset<Entry>
    decreases d, |d.entries| + 1
  {
    if d.readable then FilesAmong(d, |d.entries|) else multiset{}
  }

  /** The files under the first `n` entries. */
  function FilesAmong(d: Dir, n: nat): multiset<Entry>
    requires n <= |d.entries|
    decreases d, n
  {
    if n == 0 then multiset{}
    else
      FilesAmong(d, n - 1) +
      (match d.entries[n - 1]
       case FileEntry(_, _) => multiset{d.entries[n - 1]}
       case DirEntry(child) => FilesUnder(child))
  }

  /** The file that a trail of entry numbers leads to through directories that can be listed. */
  function FileAt(d: Dir, trail: seq<nat>): Option<Entry>
    decreases |trail|
  {
    if !d.readable || trail == [] || trail[0] >= |d.entries| then None
    else
      match d.entries[trail[0]]
      case FileEntry(_, _) => if |trail| == 1 then Some(d.entries[trail[0]]) else None
      case DirEntry(child) => FileAt(child, trail[1..])
  }

  /** The trail leads to `e` through one of the first `n` entries. */
  ghost predicate LeadsTo(d: Dir, n: nat, trail: seq<nat>, e: Entry) {
    trail != [] && trail[0] < n && FileAt(d, trail) == Some(e)
  }

  /** A tree's files are exactly those some trail leads to. */
  lemma {:induction false} FilesAreAtTrails(d: Dir, e: Entry)
    ensures e in FilesUnder(d) <==> exists trail :: LeadsTo(d, |d.entries|, trail, e)
    decreases d, |d.entries| + 1
  {
    if d.readable {
      FilesAmongAreAtTrails(d, |d.entries|, e);
    }
  }

  lemma {:induction false} FilesAmongAreAtTrails(d: Dir, n: nat, e: Entry)
    requires d.readable && n <= |d.entries|
    ensures e in FilesAmong(d, n) <==> exists trail :: LeadsTo(d, n, trail, e)
    decreases d, n
  {
    if n > 0 {
      var m := n - 1;
      FilesAmongAreAtTrails(d, m, e);
      match d.entries[m]
      case FileEntry(_, _) => FileTrail(d, n, m, e);
      case DirEntry(child) =>
        FilesAreAtTrails(child, e);
        DirTrail(d, n, m, child, e);
    }
  }

  lemma FileTrail(d: Dir, n: nat, m: nat, e: Entry)
    requires d.readable && m < |d.entries| && d.entries[m].FileEntry? && n == m + 1
    ensures (exists trail :: LeadsTo(d, n, trail, e)) <==> e == d.entries[m] || exists trail :: LeadsTo(d, m, trail, e)
  {
    if trail :| LeadsTo(d, n, trail, e) {
      assert trail[0] < m ==> LeadsTo(d, m, trail, e);
    }
    if e == d.entries[m] {
      assert LeadsTo(d, n, [m], e);
    }
    if trail :| LeadsTo(d, m, trail, e) {
      assert LeadsTo(d, n, trail, e);
    }
  }

  lemma DirTrail(d: Dir, n: nat, m: nat, child: Dir, e: Entry)
    requires d.readable && m < |d.entries| && d.entries[m] == DirEntry(child) && n == m + 1
    ensures (exists trail :: LeadsTo(d, n, trail, e)) <==>
      (exists trail :: LeadsTo(d, m, trail, e)) || exists trail :: LeadsTo(child, |child.entries|, trail, e)
  {
    if trail :| LeadsTo(d, n, trail, e) {
      if trail[0] < m {
        assert LeadsTo(d, m, trail, e);
      } else {
        assert FileAt(child, trail[1..]) == Some(e);
        assert LeadsTo(child, |child.entries|, trail[1..], e);
      }
    }
    if trail :| LeadsTo(d, m, trail, e) {
      assert LeadsTo(d, n, trail, e);
    }
    if trail :| LeadsTo(child, |child.entries|, trail, e) {
      ThroughChild(d, n, m, child, trail, e);
    }
  }

  lemma ThroughChild(d: Dir, n: nat, m: nat, child: Dir, trail: seq<nat>, e: Entry)
    requires d.readable && m < |d.entries| && d.entries[m] == DirEntry(child) && n == m + 1
    requires LeadsTo(child, |child.entries|, trail, e)
    ensures LeadsTo(d, n, [m] + trail, e)
  {
    assert ([m] + trail)[1..] == trail;
  }

  /** Only one trail through the first `n` entries leads to `e`. */
  ghost predicate OneTrail(d: Dir, n: nat, e: Entry) {
    forall s, t :: LeadsTo(d, n, s, e) && LeadsTo(d, n, t, e) ==> s == t
  }

  lemma OneTrailOfFewer(d: Dir, n: nat, m: nat, e: Entry)
    requires OneTrail(d, n, e) && m <= n
    ensures OneTrail(d, m, e)
  {
    forall s, t | LeadsTo(d, m, s, e) && LeadsTo(d, m, t, e) ensures s == t {
      assert LeadsTo(d, n, s, e) && LeadsTo(d, n, t, e);
    }
  }

  /** A file that only one trail leads to is counted once. */
  lemma {:induction false} OneTrailIsOnce(d: Dir, e: Entry)
    requires OneTrail(d, |d.entries|, e)
    ensures FilesUnder(d)[e] <= 1
    decreases d, |d.entries| + 1
  {
    if d.readable {
      OneTrailAmongIsOnce(d, |d.entries|, e);
    }
  }

  lemma {:induction false} OneTrailAmongIsOnce(d: Dir, n: nat, e: Entry)
    requires d.readable && n <= |d.entries| && OneTrail(d, n, e)
    ensures FilesAmong(d, n)[e] <= 1
    decreases d, n
  {
    if n > 0 {
      hide LeadsTo, OneTrail;
      var m := n - 1;
      OneTrailOfFewer(d, n, m, e);
      OneTrailAmongIsOnce(d, m, e);
      FilesAmongAreAtTrails(d, m, e);
      match d.entries[m]
      case FileEntry(_, _) => OnlyFileTrail(d, n, m, e);
      case DirEntry(child) =>
        ChildTrails(d, n, m, child, e);
        OneTrailIsOnce(child, e);
        FilesAreAtTrails(child, e);
    }
  }

  lemma OnlyFileTrail(d: Dir, n: nat, m: nat, e: Entry)
    requires d.readable && m < |d.entries| && d.entries[m].FileEntry? && n == m + 1 && OneTrail(d, n, e)
    ensures e == d.entries[m] ==> forall t :: !LeadsTo(d, m, t, e)
  {
    forall t | e == d.entries[m] ensures !LeadsTo(d, m, t, e) {
      assert LeadsTo(d, n, [m], e);
      assert LeadsTo(d, m, t, e) ==> LeadsTo(d, n, t, e);
    }
  }

  /** The trails through the last entry are those of its directory, and no other leads to the same file. */
  lemma ChildTrails(d: Dir, n: nat, m: nat, child: Dir, e: Entry)
    requires d.readable && m < |d.entries| && d.entries[m] == DirEntry(child) && n == m + 1 && OneTrail(d, n, e)
    ensures OneTrail(child, |child.entries|, e)
    ensures (exists t :: LeadsTo(child, |child.entries|, t, e)) ==> forall t :: !LeadsTo(d, m, t, e)
  {
    forall s, t | LeadsTo(child, |child.entries|, s, e) && LeadsTo(child, |child.entries|, t, e) ensures s == t {
      ThroughChild(d, n, m, child, s, e);
      ThroughChild(d, n, m, child, t, e);
      assert ([m] + s)[1..] == s && ([m] + t)[1..] == t;
    }
    if s :| LeadsTo(child, |child.entries|, s, e) {
      ThroughChild(d, n, m, child, s, e);
      forall t ensures !LeadsTo(d, m, t, e) {
        assert LeadsTo(d, m, t, e) ==> LeadsTo(d, n, t, e);
      }
    }
  }

  /** The number of directories of a tree. */
  function DirCount(d: Dir): (n: nat)
    ensures n > 0
    decreases d, |d.entries| + 1
  {
    1 + DirsAmong(d, |d.entries|)
  }

  function DirsAmong(d: Dir, n: nat): nat
    requires n <= |d.entries|
    decreases d, n
  {
    if n == 0 then 0
    else
      DirsAmong(d, n - 1) + (if d.entries[n - 1].DirEntry? then DirCount(d.entries[n - 1].dir) else 0)
  }

  // ---- Worklists ------------------------------------------------------------------------------

  function PendingFiles(dirs: seq<Dir>): multiset<Entry> {
    if dirs == [] then multiset{} else PendingFiles(dirs[..|dirs| - 1]) + FilesUnder(dirs[|dirs| - 1])
  }

  function PendingDirs(dirs: seq<Dir>): nat {
    if dirs == [] then 0 else PendingDirs(dirs[..|dirs| - 1]) + DirCount(dirs[|dirs| - 1])
  }

  lemma PendingSnoc(dirs: seq<Dir>, d: Dir)
    ensures PendingFiles(dirs + [d]) == PendingFiles(dirs) + FilesUnder(d)
    ensures PendingDirs(dirs + [d]) == PendingDirs(dirs) + DirCount(d)
  {
    assert (dirs + [d])[..|dirs|] == dirs;
  }

  lemma {:induction false} PendingWithout(dirs: seq<Dir>, i: nat)
    requires i < |dirs|
    ensures PendingFiles(dirs) == PendingFiles(dirs[..i] + dirs[i + 1..]) + FilesUnder(dirs[i])
    ensures PendingDirs(dirs) == PendingDirs(dirs[..i] + dirs[i + 1..]) + DirCount(dirs[i])
    decreases |dirs|
  {
    hide *;
    var n := |dirs| - 1;
    assert dirs == dirs[..n] + [dirs[n]];
    PendingSnoc(dirs[..n], dirs[n]);
    if i == n {
      assert dirs[..i] + dirs[i + 1..] == dirs[..n];
    } else {
      PendingWithout(dirs[..n], i);
      var rest := dirs[..n][..i] + dirs[..n][i + 1..];
      PendingSnoc(rest, dirs[n]);
      assert dirs[..i] + dirs[i + 1..] == rest + [dirs[n]];
    }
  }

  lemma PendingOne(root: Dir)
    ensures PendingFiles([root]) == FilesUnder(root)
  {
    assert [root][..0] == [];
  }

  lemma AmongStep(d: Dir, i: nat)
    requires i < |d.entries|
    ensures d.entries[i].FileEntry? ==>
      FilesAmong(d, i + 1) == FilesAmong(d, i) + multiset{d.entries[i]} && DirsAmong(d, i + 1) == DirsAmong(d, i)
    ensures d.entries[i].DirEntry? ==>
      && FilesAmong(d, i + 1) == FilesAmong(d, i) + FilesUnder(d.entries[i].dir)
      && DirsAmong(d, i + 1) == DirsAmong(d, i) + DirCount(d.entries[i].dir)
  {}

  /** One more entry of a listed directory is either found or pending. */
  lemma EntryIsAccounted(d: Dir, i: nat, found: seq<Entry>, pending: seq<Dir>, base: multiset<Entry>)
    requires i < |d.entries| && multiset(found) + PendingFiles(pending) == base + FilesAmong(d, i)
    ensures d.entries[i].FileEntry? ==>
      && multiset(found + [d.entries[i]]) + PendingFiles(pending) == base + FilesAmong(d, i + 1)
      && DirsAmong(d, i + 1) == DirsAmong(d, i)
    ensures d.entries[i].DirEntry? ==>
      && multiset(found) + PendingFiles(pending + [d.entries[i].dir]) == base + FilesAmong(d, i + 1)
      && PendingDirs(pending + [d.entries[i].dir]) + DirsAmong(d, i) == PendingDirs(pending) + DirsAmong(d, i + 1)
  {
    hide *;
    AmongStep(d, i);
    var before := FilesAmong(d, i);
    if d.entries[i].DirEntry? {
      var dir := d.entries[i].dir;
      PendingSnoc(pending, dir);
      Regroup(multiset(found), PendingFiles(pending), FilesUnder(dir));
      Regroup(base, before, FilesUnder(dir));
    } else {
      var one := multiset{d.entries[i]};
      assert multiset(found + [d.entries[i]]) == multiset(found) + one;
      Regroup(multiset(found), PendingFiles(pending), one);
      Regroup(base, before, one);
    }
  }

  lemma Regroup<T>(a: multiset<T>, b: multiset<T>, c: multiset<T>)
    ensures a + (b + c) == (a + b) + c
    ensures (a + c) + b == (a + b) + c
  {}

  /** The first `i` entries of a listing are found or pending. */
  ghost predicate Sifted(d: Dir, i: nat, found: seq<Entry>, pending: seq<Dir>, base: multiset<Entry>)
    requires i <= |d.entries|
  {
    multiset(found) + PendingFiles(pending) == base + FilesAmong(d, i)
  }

  lemma SiftingStarts(d: Dir, found: seq<Entry>, pending: seq<Dir>)
    ensures Sifted(d, 0, found, pending, multiset(found) + PendingFiles(pending)) && DirsAmong(d, 0) == 0
  {}

  lemma SiftingEnds(d: Dir, found: seq<Entry>, pending: seq<Dir>, base: multiset<Entry>)
    requires d.readable && Sifted(d, |d.entries|, found, pending, base)
    ensures multiset(found) + PendingFiles(pending) == base + FilesUnder(d)
    ensures DirCount(d) == 1 + DirsAmong(d, |d.entries|)
  {
    AllAmong(d);
  }

  lemma SiftOne(d: Dir, i: nat, found: seq<Entry>, pending: seq<Dir>, base: multiset<Entry>)
    requires i < |d.entries| && Sifted(d, i, found, pending, base)
    ensures d.entries[i].FileEntry? ==>
      Sifted(d, i + 1, found + [d.entries[i]], pending, base) && DirsAmong(d, i + 1) == DirsAmong(d, i)
    ensures d.entries[i].DirEntry? ==>
      && Sifted(d, i + 1, found, pending + [d.entries[i].dir], base)
      && PendingDirs(pending + [d.entries[i].dir]) + DirsAmong(d, i) == PendingDirs(pending) + DirsAmong(d, i + 1)
  {
    hide PendingFiles, FilesAmong, PendingDirs, DirsAmong;
    EntryIsAccounted(d, i, found, pending, base);
  }

  /** The loop over one listing: files are kept, directories go on the worklist. */
  method Sift(d: Dir, found: seq<Entry>, pending: seq<Dir>) returns (files: seq<Entry>, dirs: seq<Dir>)
    requires d.readable
    ensures multiset(files) + PendingFiles(dirs) == multiset(found) + PendingFiles(pending) + FilesUnder(d)
    ensures PendingDirs(dirs) < PendingDirs(pending) + DirCount(d)
  {
    hide *;
    files, dirs := found, pending;
    ghost var base := multiset(found) + PendingFiles(pending);
    SiftingStarts(d, found, pending);
    for i := 0 to |d.entries|
      invariant Sifted(d, i, files, dirs, base)
      invariant PendingDirs(dirs) == PendingDirs(pending) + DirsAmong(d, i)
    {
      SiftOne(d, i, files, dirs, base);
      match d.entries[i]
      case FileEntry(_, _) => files := files + [d.entries[i]];
      case DirEntry(child) => dirs := dirs + [child];
    }
    SiftingEnds(d, files, dirs, base);
  }

  lemma NothingAmong(d: Dir)
    ensures FilesAmong(d, 0) == multiset{} && DirsAmong(d, 0) == 0
  {}

  lemma AllAmong(d: Dir)
    requires d.readable
    ensures FilesUnder(d) == FilesAmong(d, |d.entries|) && DirCount(d) == 1 + DirsAmong(d, |d.entries|)
  {}

  lemma SkippedIsEmpty(d: Dir)
    requires !d.readable
    ensures FilesUnder(d) == multiset{} && DirCount(d) > 0
  {}

  lemma NothingPending()
    ensures PendingFiles([]) == multiset{}
  {}

  /** `_walk`: listings run in parallel and complete in any order. */
  method WalkTree(root: Dir) returns (found: seq<Entry>)
    ensures multiset(found) == FilesUnder(root)
  {
    found := [];
    var futures := [root];
    PendingOne(root);
    NothingPending();
    hide *;
    while futures != []
      invariant multiset(found) + PendingFiles(futures) == FilesUnder(root)
      decreases PendingDirs(futures)
    {
      var i :| 0 <= i < |futures|;
      var completed := futures[i];
      PendingWithout(futures, i);
      futures := futures[..i] + futures[i + 1..];
      if completed.readable {
        found, futures := Sift(completed, found, futures);
      } else {
        SkippedIsEmpty(completed);
      }
    }
  }

  /** `_list_directory_files`: last in, first out. */
  method ListDirectoryFiles(root: Dir) returns (found: seq<Entry>)
    ensures multiset(found) == FilesUnder(root)
  {
    found := [];
    var dirsToVisit := [root];
    PendingOne(root);
    NothingPending();
    hide *;
    while dirsToVisit != []
      invariant multiset(found) + PendingFiles(dirsToVisit) == FilesUnder(root)
      decreases PendingDirs(dirsToVisit)
    {
      var n := |dirsToVisit| - 1;
      var current := dirsToVisit[n];
      PendingWithout(dirsToVisit, n);
      assert dirsToVisit[..n] + dirsToVisit[n + 1..] == dirsToVisit[..n];
      dirsToVisit := dirsToVisit[..n];
      if current.readable {
        found, dirsToVisit := Sift(current, found, dirsToVisit);
      } else {
        SkippedIsEmpty(current);
      }
    }
  }

  // ---- Byte estimates -------------------------------------------------------------------------

  function TreeBytes(d: Dir): nat
    decreases d, |d.entries| + 1
  {
    if d.readable then BytesAmong(d, |d.entries|) else 0
  }

  function BytesAmong(d: Dir, n: nat): nat
    requires n <= |d.entries|
    decreases d, n
  {
    if n == 0 then 0
    else
      BytesAmong(d, n - 1) +
      (match d.entries[n - 1]
       case FileEntry(_, length) => length
       case DirEntry(child) => TreeBytes(child))
  }

  function Length(e: Entry): nat {
    if e.FileEntry? then e.length else 0
  }

  function TotalLength(entries: seq<Entry>): nat {
    if entries == [] then 0 else TotalLength(entries[..|entries| - 1]) + Length(entries[|entries| - 1])
  }

  /** A file adds its length to the total, and nothing else does. */
  lemma AppendedLength(entries: seq<Entry>, e: Entry)
    ensures TotalLength([]) == 0
    ensures e.FileEntry? ==> TotalLength(entries + [e]) == TotalLength(entries) + e.length
    ensures e.DirEntry? ==> TotalLength(entries + [e]) == TotalLength(entries)
  {
    assert (entries + [e])[..|entries|] == entries;
  }

  lemma {:induction false} TotalLengthConcat(a: seq<Entry>, b: seq<Entry>)
    ensures TotalLength(a + b) == TotalLength(a) + TotalLength(b)
  {
    if b == [] {
      assert a + b == a;
    } else {
      var n := |b| - 1;
      TotalLengthConcat(a, b[..n]);
      assert (a + b)[..|a + b| - 1] == a + b[..n];
    }
  }

  lemma WithoutOne<T>(a: seq<T>, i: nat)
    requires i < |a|
    ensures multiset(a[..i] + a[i + 1..]) == multiset(a) - multiset{a[i]}
  {
    assert a == a[..i] + [a[i]] + a[i + 1..];
  }

  lemma RemoveFromBoth<T>(a: seq<T>, b: seq<T>, i: nat, j: nat)
    requires i < |a| && j < |b| && a[i] == b[j] && multiset(a) == multiset(b)
    ensures multiset(a[..i] + a[i + 1..]) == multiset(b[..j] + b[j + 1..])
  {
    WithoutOne(a, i);
    WithoutOne(b, j);
  }

  lemma OneLength(e: Entry)
    ensures TotalLength([e]) == Length(e)
  {
    assert [e][..0] == [];
  }

  lemma TotalLengthWithout(b: seq<Entry>, i: nat)
    requires i < |b|
    ensures TotalLength(b) == TotalLength(b[..i] + b[i + 1..]) + Length(b[i])
  {
    hide *;
    assert b == (b[..i] + [b[i]]) + b[i + 1..];
    TotalLengthConcat(b[..i], b[i + 1..]);
    TotalLengthConcat(b[..i] + [b[i]], b[i + 1..]);
    TotalLengthConcat(b[..i], [b[i]]);
    OneLength(b[i]);
  }

  /** A sum does not depend on the order. */
  lemma {:induction false} TotalLengthOfPermutation(a: seq<Entry>, b: seq<Entry>)
    requires multiset(a) == multiset(b)
    ensures TotalLength(a) == TotalLength(b)
    decreases |a|
  {
    if a == [] {
      assert |multiset(b)| == |multiset(a)| == 0;
    } else {
      hide TotalLength;
      assert a[0] in multiset(a) && a[0] in multiset(b);
      var i :| 0 <= i < |b| && b[i] == a[0];
      RemoveFromBoth(a, b, 0, i);
      TotalLengthOfPermutation(a[..0] + a[1..], b[..i] + b[i + 1..]);
      TotalLengthWithout(a, 0);
      TotalLengthWithout(b, i);
    }
  }

  lemma BytesStep(d: Dir, n: nat)
    requires n < |d.entries|
    ensures BytesAmong(d, n + 1) == BytesAmong(d, n) +
      if d.entries[n].FileEntry? then d.entries[n].length else TreeBytes(d.entries[n].dir)
  {}

  lemma AllBytes(d: Dir)
    ensures TreeBytes(d) == if d.readable then BytesAmong(d, |d.entries|) else 0
  {}

  lemma NoBytes(d: Dir)
    ensures BytesAmong(d, 0) == 0 && TotalLength([]) == 0
  {}

  lemma ConcatCounts(a: seq<Entry>, b: seq<Entry>)
    ensures multiset(a + b) == multiset(a) + multiset(b) && TotalLength(a + b) == TotalLength(a) + TotalLength(b)
  {
    TotalLengthConcat(a, b);
  }

  /** The files of a tree in depth-first order add up to its bytes. */
  lemma {:induction false} InOrder(d: Dir) returns (files: seq<Entry>)
    ensures multiset(files) == FilesUnder(d) && TotalLength(files) == TreeBytes(d)
    decreases d, |d.entries| + 1
  {
    hide *;
    AllBytes(d);
    if d.readable {
      AllAmong(d);
      files := InOrderAmong(d, |d.entries|);
    } else {
      SkippedIsEmpty(d);
      NoBytes(d);
      files := [];
    }
  }

  lemma {:induction false} InOrderAmong(d: Dir, n: nat) returns (files: seq<Entry>)
    requires n <= |d.entries|
    ensures multiset(files) == FilesAmong(d, n) && TotalLength(files) == BytesAmong(d, n)
    decreases d, n
  {
    hide *;
    if n == 0 {
      NothingAmong(d);
      NoBytes(d);
      files := [];
    } else {
      var before := InOrderAmong(d, n - 1);
      AmongStep(d, n - 1);
      BytesStep(d, n - 1);
      var below := [d.entries[n - 1]];
      if d.entries[n - 1].FileEntry? {
        OneFile(d.entries[n - 1]);
      } else {
        below := InOrder(d.entries[n - 1].dir);
      }
      ConcatCounts(before, below);
      files := before + below;
    }
  }

  lemma OneFile(e: Entry)
    requires e.FileEntry?
    ensures multiset([e]) == multiset{e} && TotalLength([e]) == e.length
  {
    assert [e][..0] == [];
  }

  /** The sums of `estimate_bytes`. */
  method SumFiles(files: seq<Entry>) returns (total: nat, names: seq<string>)
    ensures total == TotalLength(files)
    ensures forall name :: name in names <==> exists e :: e in files && e.FileEntry? && e.name == name
  {
    total, names := 0, [];
    for i := 0 to |files|
      invariant total == TotalLength(files[..i])
      invariant forall name :: name in names <==> exists e :: e in files[..i] && e.FileEntry? && e.name == name
    {
      assert files[..i + 1][..i] == files[..i];
      assert files[..i + 1] == files[..i] + [files[i]];
      total := total + Length(files[i]);
      if files[i].FileEntry? {
        names := names + [files[i].name];
      }
    }
    assert files[..|files|] == files;
  }

  /** `estimate_bytes`: the manifest and, when there is a sibling folder, every file under it. */
  method EstimateBytes(length: nat, sibling: Option<Dir>) returns (total: nat, contributing: seq<string>)
    ensures total == length + if sibling.Some? then TreeBytes(sibling.value) else 0
    ensures sibling.None? ==> contributing == []
    ensures sibling.Some? ==>
      forall name :: name in contributing <==> exists e :: e in FilesUnder(sibling.value) && e.FileEntry? && e.name == name
  {
    if sibling.None? {
      return length, [];
    }
    var files := ListDirectoryFiles(sibling.value);
    ghost var ordered := InOrder(sibling.value);
    TotalLengthOfPermutation(files, ordered);
    total, contributing := SumFiles(files);
    assert forall e :: e in files <==> e in multiset(files);
    total := length + total;
  }

  // ---- `list_files` ---------------------------------------------------------------------------

  /** Non-empty files whose name matches. */
  function Kept(files: seq<FileInfo>, matches: FileInfo -> bool): seq<FileInfo> {
    if files == [] then []
    else
      var n := |files| - 1;
      Kept(files[..n], matches) + (if files[n].length != 0 && matches(files[n]) then [files[n]] else [])
  }

  lemma CountSnoc(files: seq<FileInfo>, last: FileInfo, f: FileInfo)
    ensures multiset(files + [last])[f] == multiset(files)[f] + if last == f then 1 else 0
  {}

  lemma {:induction false} KeptCount(files: seq<FileInfo>, matches: FileInfo -> bool, f: FileInfo)
    ensures multiset(Kept(files, matches))[f] == if f.length != 0 && matches(f) then multiset(files)[f] else 0
  {
    if files != [] {
      var n := |files| - 1;
      KeptCount(files[..n], matches, f);
      assert files == files[..n] + [files[n]];
      CountSnoc(files[..n], files[n], f);
      CountSnoc(Kept(files[..n], matches), files[n], f);
    }
  }

  lemma KeptOfPermutation(a: seq<FileInfo>, b: seq<FileInfo>, matches: FileInfo -> bool)
    requires multiset(a) == multiset(b)
    ensures multiset(Kept(a, matches)) == multiset(Kept(b, matches))
  {
    forall f ensures multiset(Kept(a, matches))[f] == multiset(Kept(b, matches))[f] {
      KeptCount(a, matches, f);
      KeptCount(b, matches, f);
    }
  }

  /** The filter loop and the sort of `list_files`. */
  method ListFiles(found: seq<FileInfo>, matches: FileInfo -> bool) returns (files: seq<FileInfo>)
    ensures files == SortByTime(Kept(found, matches))
  {
    files := [];
    for i := 0 to |found|
      invariant files == Kept(found[..i], matches)
    {
      assert found[..i + 1][..i] == found[..i];
      if found[i].length == 0 {
        continue;
      }
      if !matches(found[i]) {
        continue;
      }
      files := files + [found[i]];
    }
    assert found[..|found|] == found;
    files := SortByTime(files);
  }

  /** No two different files have the same time. */
  ghost predicate TimesAreKeys(files: seq<FileInfo>) {
    forall f, g :: f in files && g in files && f.modificationTime == g.modificationTime ==> f == g
  }

  lemma SameHead(a: seq<FileInfo>, b: seq<FileInfo>)
    requires Sorted(a) && Sorted(b) && multiset(a) == multiset(b) && a != []
    requires TimesAreKeys(a)
    ensures b != [] && a[0] == b[0]
  {
    assert a[0] in multiset(b);
    assert b[0] in multiset(a);
    var i :| 0 <= i < |b| && b[i] == a[0];
    var j :| 0 <= j < |a| && a[j] == b[0];
    assert a[0].modificationTime == b[0].modificationTime;
    assert a[0] in a && b[0] in a;
  }

  lemma TailsAgree(a: seq<FileInfo>, b: seq<FileInfo>)
    requires a != [] && b != [] && a[0] == b[0] && multiset(a) == multiset(b)
    ensures multiset(a[1..]) == multiset(b[1..])
  {
    RemoveFromBoth(a, b, 0, 0);
    assert a[..0] + a[1..] == a[1..] && b[..0] + b[1..] == b[1..];
  }

  lemma TailKeeps(a: seq<FileInfo>)
    requires Sorted(a) && a != []
    ensures Sorted(a[1..]) && (TimesAreKeys(a) ==> TimesAreKeys(a[1..]))
    ensures a == [a[0]] + a[1..]
  {}

  lemma {:induction false} SortedIsUnique(a: seq<FileInfo>, b: seq<FileInfo>)
    requires Sorted(a) && Sorted(b) && multiset(a) == multiset(b)
    requires TimesAreKeys(a)
    ensures a == b
    decreases |a|
  {
    hide *;
    if a == [] {
      assert |multiset(b)| == |multiset(a)| == 0;
    } else {
      SameHead(a, b);
      TailsAgree(a, b);
      TailKeeps(a);
      TailKeeps(b);
      SortedIsUnique(a[1..], b[1..]);
    }
  }

  /** With distinct times, the list does not depend on the order in which the walk found the files. */
  lemma ListingIsOrderIndependent(a: seq<FileInfo>, b: seq<FileInfo>, matches: FileInfo -> bool)
    requires multiset(a) == multiset(b)
    requires TimesAreKeys(a)
    ensures SortByTime(Kept(a, matches)) == SortByTime(Kept(b, matches))
  {
    hide SortByTime, Kept;
    KeptOfPermutation(a, b, matches);
    var x, y := Kept(a, matches), Kept(b, matches);
    SortIsSorted(x);
    SortIsSorted(y);
    forall f | f in SortByTime(x) ensures f in a {
      assert f in multiset(SortByTime(x));
      KeptCount(a, matches, f);
      assert f in multiset(a);
    }
    SortedIsUnique(SortByTime(x), SortByTime(y));
  }
}
