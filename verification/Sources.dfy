/** `_checkpoint/sources/`: per-batch records, snapshots that compact them, and retention. */
module Sources {
  import opened Owner

  // ---- The directory --------------------------------------------------------------------------

  /** `Diff` is a JSON-lines file named by its batch id, `Snapshot` a `.parquet` file; `Other` is anything else. */
  datatype SourceName = Diff(id: nat) | Snapshot(id: nat) | Other(name: string)

  datatype SourceRecord = SourceRecord(path: string, modificationTime: int, batchId: nat, processingTime: int)

  type Directory = map<SourceName, seq<SourceRecord>>

  type Interval = n: int | n > 0 witness 1

  predicate IsCompaction(batchId: nat, interval: Interval) {
    batchId > 0 && batchId % interval == 0
  }

  /** A directory listing names every file once, in any order. */
  ghost predicate Lists(listing: seq<SourceName>, dir: Directory) {
    && (forall i, j :: 0 <= i < j < |listing| ==> listing[i] != listing[j])
    && (forall name :: name in listing <==> name in dir)
  }

  // ---- Writing a batch ------------------------------------------------------------------------

  /** The highest snapshot id listed, or -1. */
  function LatestSnapshot(listing: seq<SourceName>): int {
    if listing == [] then -1
    else
      var n := |listing| - 1;
      var rest := LatestSnapshot(listing[..n]);
      if listing[n].Snapshot? && listing[n].id > rest then listing[n].id else rest
  }

  /** The records of the listed diffs newer than `after`, in listing order. */
  function DiffRecords(dir: Directory, listing: seq<SourceName>, after: int): seq<SourceRecord> {
    if listing == [] then []
    else
      var n := |listing| - 1;
      DiffRecords(dir, listing[..n], after) +
      (if listing[n].Diff? && listing[n].id > after && listing[n] in dir then dir[listing[n]] else [])
  }

  lemma LatestOfNone()
    ensures LatestSnapshot([]) == -1
  {}

  lemma LatestStep(listing: seq<SourceName>, i: nat)
    requires i < |listing|
    ensures
      var latest := LatestSnapshot(listing[..i]);
      LatestSnapshot(listing[..i + 1]) == if listing[i].Snapshot? && listing[i].id > latest then listing[i].id else latest
  {
    assert listing[..i + 1][..i] == listing[..i];
  }

  lemma DiffsOfNone(dir: Directory, after: int)
    ensures DiffRecords(dir, [], after) == []
  {}

  lemma DiffStep(dir: Directory, listing: seq<SourceName>, i: nat, after: int)
    requires i < |listing|
    ensures DiffRecords(dir, listing[..i + 1], after) == DiffRecords(dir, listing[..i], after) +
      (if listing[i].Diff? && listing[i].id > after && listing[i] in dir then dir[listing[i]] else [])
  {
    assert listing[..i + 1][..i] == listing[..i];
  }

  lemma {:induction false} LatestIsListed(listing: seq<SourceName>)
    ensures LatestSnapshot(listing) >= -1
    ensures LatestSnapshot(listing) >= 0 ==> Snapshot(LatestSnapshot(listing)) in listing
    ensures forall name :: name in listing && name.Snapshot? ==> name.id <= LatestSnapshot(listing)
  {
    if listing != [] {
      var n := |listing| - 1;
      LatestIsListed(listing[..n]);
      assert listing == listing[..n] + [listing[n]];
    }
  }

  function BaseRecords(dir: Directory, listing: seq<SourceName>): seq<SourceRecord> {
    var latest := LatestSnapshot(listing);
    if latest >= 0 && Snapshot(latest) in dir then dir[Snapshot(latest)] else []
  }

  function SnapshotRecords(dir: Directory, listing: seq<SourceName>, records: seq<SourceRecord>): seq<SourceRecord> {
    BaseRecords(dir, listing) + DiffRecords(dir, listing, LatestSnapshot(listing)) + records
  }

  /** The directory after `write_batch_sources`; reading a file of `unreadable` raises, and the file is skipped. */
  function Written(
    dir: Directory, listing: seq<SourceName>, unreadable: set<SourceName>,
    batchId: nat, records: seq<SourceRecord>, interval: Interval): Directory
  {
    if IsCompaction(batchId, interval)
    then dir[Snapshot(batchId) := SnapshotRecords(dir - unreadable, listing, records)]
    else dir[Diff(batchId) := records]
  }

  // ---- Retention ------------------------------------------------------------------------------

  function Digit(d: nat): char
    requires d < 10
  {
    '0' + d as char
  }

  function Decimal(n: nat): (text: string)
    ensures |text| >= 1
  {
    if n < 10 then [Digit(n)] else Decimal(n / 10) + [Digit(n % 10)]
  }

  function Zeros(n: nat): (text: string)
    ensures |text| == n
  {
    seq(n, _ => '0')
  }

  /** Python's `f"{n:020d}"`. */
  function Padded(n: nat): string {
    var text := Decimal(n);
    if |text| < 20 then Zeros(20 - |text|) + text else text
  }

  /** `sort_key`: integers first, zero-padded, then other names as text. */
  function SortKey(name: SourceName): (int, string) {
    match name
    case Diff(id) => (0, Padded(id))
    case Snapshot(id) => (1, Decimal(id) + ".parquet")
    case Other(text) => (1, text)
  }

  predicate KeyLess(a: (int, string), b: (int, string)) {
    a.0 < b.0 || (a.0 == b.0 && StringLess(a.1, b.1))
  }

  function InsertByKey(name: SourceName, sorted: seq<SourceName>): (r: seq<SourceName>)
    ensures multiset(r) == multiset{name} + multiset(sorted)
  {
    if sorted == [] then [name]
    else if !KeyLess(SortKey(sorted[0]), SortKey(name)) then [name] + sorted
    else
      assert sorted == [sorted[0]] + sorted[1..];
      [sorted[0]] + InsertByKey(name, sorted[1..])
  }

  /** Python's `sort(key=sort_key)`. */
  function SortByKey(names: seq<SourceName>): (r: seq<SourceName>)
    ensures multiset(r) == multiset(names)
  {
    if names == [] then []
    else
      assert names == [names[0]] + names[1..];
      InsertByKey(names[0], SortByKey(names[1..]))
  }

  lemma SortKeepsListing(listing: seq<SourceName>, dir: Directory)
    requires Lists(listing, dir)
    ensures Lists(SortByKey(listing), dir)
    ensures |SortByKey(listing)| == |listing|
  {
    hide SortByKey;
    var sorted := SortByKey(listing);
    assert |sorted| == |multiset(sorted)| == |multiset(listing)| == |listing|;
    forall name ensures name in sorted <==> name in dir {
      assert name in multiset(sorted) <==> name in multiset(listing);
    }
    forall i, j | 0 <= i < j < |sorted| ensures sorted[i] != sorted[j] {
      if sorted[i] == sorted[j] {
        assert sorted == sorted[..i] + [sorted[i]] + sorted[i + 1..j] + [sorted[i]] + sorted[j + 1..];
        assert multiset(listing)[sorted[i]] >= 2;
        OccursOnce(listing, sorted[i]);
      }
    }
  }

  lemma {:induction false} OccursOnce(names: seq<SourceName>, name: SourceName)
    requires forall i, j :: 0 <= i < j < |names| ==> names[i] != names[j]
    ensures multiset(names)[name] <= 1
  {
    if names != [] {
      var n := |names| - 1;
      assert names == names[..n] + [names[n]];
      assert names[n] !in names[..n];
      OccursOnce(names[..n], name);
    }
  }

  /** The names retention tries to delete. */
  function Oldest(listing: seq<SourceName>, maxFiles: nat): (names: seq<SourceName>)
  {
    var sorted := SortByKey(listing);
    if |sorted| <= maxFiles then [] else sorted[..|sorted| - maxFiles]
  }

  /** Deleting may fail for any file; such a file stays. */
  function DeleteAll(dir: Directory, names: seq<SourceName>, failed: set<SourceName>): Directory {
    if names == [] then dir
    else
      var n := |names| - 1;
      var rest := DeleteAll(dir, names[..n], failed);
      if names[n] in failed then rest else rest - {names[n]}
  }

  function Cleaned(dir: Directory, listing: seq<SourceName>, maxFiles: nat, failed: set<SourceName>): Directory {
    DeleteAll(dir, Oldest(listing, maxFiles), failed)
  }

  lemma DeletingNone(dir: Directory, failed: set<SourceName>)
    ensures DeleteAll(dir, [], failed) == dir
  {}

  lemma RemovingOne(dir: Directory, name: SourceName)
    requires name in dir
    ensures |dir - {name}| == |dir| - 1
  {
    var rest := dir - {name};
    assert rest.Keys == dir.Keys - {name};
    assert |rest| == |rest.Keys| && |dir| == |dir.Keys|;
  }

  lemma DeleteOneMore(dir: Directory, names: seq<SourceName>, i: nat, failed: set<SourceName>)
    requires i < |names|
    ensures
      var before := DeleteAll(dir, names[..i], failed);
      DeleteAll(dir, names[..i + 1], failed) == if names[i] in failed then before else before - {names[i]}
  {
    assert names[..i + 1][..i] == names[..i];
  }

  lemma DeleteStep(dir: Directory, names: seq<SourceName>, i: nat, failed: set<SourceName>)
    requires Lists(names, dir) && i < |names|
    ensures
      var before := DeleteAll(dir, names[..i], failed);
      && DeleteAll(dir, names[..i + 1], failed) == (if names[i] in failed then before else before - {names[i]})
      && |before - {names[i]}| == |before| - 1
  {
    hide DeleteAll;
    DeleteOneMore(dir, names, i, failed);
    DeletesExactly(dir, names[..i], failed);
    assert names[i] in dir && names[i] !in names[..i];
    RemovingOne(DeleteAll(dir, names[..i], failed), names[i]);
  }

  lemma {:induction false} DeletesExactly(dir: Directory, names: seq<SourceName>, failed: set<SourceName>)
    ensures forall name :: name in DeleteAll(dir, names, failed) <==> name in dir && (name !in names || name in failed)
    ensures forall name :: name in DeleteAll(dir, names, failed) ==> DeleteAll(dir, names, failed)[name] == dir[name]
  {
    if names != [] {
      var n := |names| - 1;
      DeletesExactly(dir, names[..n], failed);
      assert names == names[..n] + [names[n]];
    }
  }

  // ---- Reading a batch ------------------------------------------------------------------------

  function OfBatch(records: seq<SourceRecord>, batchId: nat): seq<SourceRecord> {
    if records == [] then []
    else
      var n := |records| - 1;
      OfBatch(records[..n], batchId) + (if records[n].batchId == batchId then [records[n]] else [])
  }

  function BatchSource(dir: Directory, batchId: nat): seq<SourceRecord> {
    if Diff(batchId) in dir then dir[Diff(batchId)]
    else if Snapshot(batchId) in dir then OfBatch(dir[Snapshot(batchId)], batchId)
    else []
  }

  /** The part of `CheckpointManager` that keeps `_checkpoint/sources/`. */
  class CheckpointManager {
    var sources: Directory

    constructor ()
      ensures sources == map[]
    {
      sources := map[];
    }

    /** `_build_source_records`. */
    method BuildSourceRecords(files: seq<(string, int)>, batchId: nat, now: int) returns (records: seq<SourceRecord>)
      ensures |records| == |files|
      ensures forall i :: 0 <= i < |files| ==> records[i] == SourceRecord(files[i].0, files[i].1, batchId, now)
    {
      records := [];
      for i := 0 to |files|
        invariant |records| == i
        invariant forall k :: 0 <= k < i ==> records[k] == SourceRecord(files[k].0, files[k].1, batchId, now)
      {
        records := records + [SourceRecord(files[i].0, files[i].1, batchId, now)];
      }
    }

    /** `write_batch_sources`; `listing` is what the directory listing returns, when it is read. */
    method WriteBatchSources(
      batchId: nat, files: seq<(string, int)>, now: int, interval: Interval,
      listing: seq<SourceName>, unreadable: set<SourceName>)
      returns (records: seq<SourceRecord>)
      requires Lists(listing, sources)
      modifies this
      ensures |records| == |files|
      ensures forall i :: 0 <= i < |files| ==> records[i] == SourceRecord(files[i].0, files[i].1, batchId, now)
      ensures sources == Written(old(sources), listing, unreadable, batchId, records, interval)
      ensures
        if batchId > 0 && batchId % interval == 0
        then sources == old(sources)[Snapshot(batchId) := SnapshotRecords(old(sources) - unreadable, listing, records)]
        else sources == old(sources)[Diff(batchId) := records]
    {
      records := BuildSourceRecords(files, batchId, now);
      if batchId > 0 && batchId % interval == 0 {
        WriteSnapshot(batchId, records, listing, unreadable);
      } else {
        sources := sources[Diff(batchId) := records];
      }
    }

    /**
     * `_write_snapshot_parquet`: the latest snapshot, the diffs since, and the current batch. A file that
     * cannot be read is skipped with a warning.
     */
    method WriteSnapshot(batchId: nat, records: seq<SourceRecord>, listing: seq<SourceName>, unreadable: set<SourceName>)
      requires Lists(listing, sources)
      modifies this
      ensures sources ==
        old(sources)[Snapshot(batchId) := SnapshotRecords(old(sources) - unreadable, listing, records)]
    {
      hide DiffRecords, LatestSnapshot;
      var latest: int := -1;
      LatestOfNone();
      for i := 0 to |listing|
        invariant latest == LatestSnapshot(listing[..i])
        invariant sources == old(sources)
      {
        LatestStep(listing, i);
        if listing[i].Snapshot? && listing[i].id > latest {
          latest := listing[i].id;
        }
      }
      assert listing[..|listing|] == listing;
      LatestIsListed(listing);
      var all := [];
      if latest >= 0 && Snapshot(latest) !in unreadable {
        all := sources[Snapshot(latest)];
      }
      var base := all;
      ghost var readable := sources - unreadable;
      DiffsOfNone(readable, latest);
      for i := 0 to |listing|
        invariant all == base + DiffRecords(readable, listing[..i], latest)
        invariant sources == old(sources)
      {
        DiffStep(readable, listing, i, latest);
        if listing[i].Diff? && listing[i].id > latest && listing[i] !in unreadable {
          all := all + sources[listing[i]];
        }
      }
      all := all + records;
      sources := sources[Snapshot(batchId) := all];
    }

    /** `cleanup_sources`; the deletes of `failed` raise. */
    method CleanupSources(maxFiles: nat, listing: seq<SourceName>, failed: set<SourceName>) returns (deleted: nat)
      requires Lists(listing, sources)
      modifies this
      ensures sources == Cleaned(old(sources), listing, maxFiles, failed)
      ensures deleted == |old(sources)| - |sources|
    {
      hide SortByKey, DeleteAll;
      deleted := 0;
      SortKeepsListing(listing, sources);
      DeletingNone(sources, failed);
      var sorted := SortByKey(listing);
      if |listing| <= maxFiles {
        return;
      }
      var toDelete := |listing| - maxFiles;
      for i := 0 to toDelete
        invariant sources == DeleteAll(old(sources), sorted[..i], failed)
        invariant deleted + |sources| == |old(sources)|
      {
        DeleteStep(old(sources), sorted, i, failed);
        if sorted[i] !in failed {
          sources := sources - {sorted[i]};
          deleted := deleted + 1;
        }
      }
    }

    /** `read_batch_source`: the diff if it can be read, else the batch's rows of its snapshot. */
    method ReadBatchSource(batchId: nat, unreadable: set<SourceName>) returns (records: seq<SourceRecord>)
      ensures records == BatchSource(sources - unreadable, batchId)
    {
      if Diff(batchId) in sources && Diff(batchId) !in unreadable {
        return sources[Diff(batchId)];
      }
      if Snapshot(batchId) in sources && Snapshot(batchId) !in unreadable {
        var all := sources[Snapshot(batchId)];
        records := [];
        for i := 0 to |all|
          invariant records == OfBatch(all[..i], batchId)
        {
          assert all[..i + 1][..i] == all[..i];
          if all[i].batchId == batchId {
            records := records + [all[i]];
          }
        }
        assert all[..|all|] == all;
        return;
      }
      records := [];
    }
  }
}
