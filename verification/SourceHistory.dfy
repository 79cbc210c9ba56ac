/** What `_checkpoint/sources/` keeps over whole sequences of batches, compaction and retention included. */
module SourceHistory {
  import opened Owner
  import opened Sources

  // ---- Complete history -----------------------------------------------------------------------

  type History = map<nat, seq<SourceRecord>>

  /** How often a snapshot of batches up to `b` must hold `x`: as often as its batch recorded it. */
  function Expected(written: History, b: int, x: SourceRecord): nat {
    if x.batchId <= b && x.batchId in written then multiset(written[x.batchId])[x] else 0
  }

  ghost predicate HoldsUpTo(records: seq<SourceRecord>, written: History, b: int) {
    forall x :: multiset(records)[x] == Expected(written, b, x)
  }

  ghost predicate Tagged(records: seq<SourceRecord>, id: nat) {
    forall r :: r in records ==> r.batchId == id
  }

  /** A file the next snapshot reads: the latest snapshot, or a diff newer than every snapshot. */
  ghost predicate Needed(dir: Directory, name: SourceName) {
    && name in dir
    && ((name.Diff? && forall s: nat :: Snapshot(s) in dir ==> s < name.id)
        || (name.Snapshot? && forall s: nat :: Snapshot(s) in dir ==> s <= name.id))
  }

  ghost predicate DiffsAreWritten(dir: Directory, written: History) {
    forall i: nat :: Diff(i) in dir ==> i in written && dir[Diff(i)] == written[i]
  }

  ghost predicate NoneAbove(records: seq<SourceRecord>, b: int) {
    forall r :: r in records ==> r.batchId <= b
  }

  /** A snapshot holds its own batch as written, and nothing newer. */
  ghost predicate SnapshotsAreSound(dir: Directory, written: History) {
    forall b: nat :: Snapshot(b) in dir ==>
      b in written && OfBatch(dir[Snapshot(b)], b) == written[b] && NoneAbove(dir[Snapshot(b)], b)
  }

  ghost predicate Sound(dir: Directory, written: History) {
    && (forall i :: i in written ==> Tagged(written[i], i))
    && DiffsAreWritten(dir, written)
    && SnapshotsAreSound(dir, written)
  }

  ghost predicate NewestAreDiffs(dir: Directory, written: History) {
    forall i :: i in written && (forall s: nat :: Snapshot(s) in dir ==> s < i) ==> Diff(i) in dir
  }

  ghost predicate SnapshotsHoldAll(dir: Directory, written: History) {
    forall b: nat :: Snapshot(b) in dir ==> HoldsUpTo(dir[Snapshot(b)], written, b)
  }

  ghost predicate Complete(dir: Directory, written: History) {
    Sound(dir, written) && NewestAreDiffs(dir, written) && SnapshotsHoldAll(dir, written)
  }

  // ---- One snapshot ---------------------------------------------------------------------------

  lemma NotTaggedIsAbsent(records: seq<SourceRecord>, id: nat, x: SourceRecord)
    requires Tagged(records, id) && x.batchId != id
    ensures multiset(records)[x] == 0
  {
    assert x !in records;
  }

  /** A diff's records occur in the collected diffs exactly as often as in the diff. */
  lemma {:induction false} DiffCount(dir: Directory, listing: seq<SourceName>, after: int, x: SourceRecord)
    requires forall i, j :: 0 <= i < j < |listing| ==> listing[i] != listing[j]
    requires forall i: nat :: Diff(i) in dir ==> Tagged(dir[Diff(i)], i)
    ensures
      var diff := Diff(x.batchId);
      multiset(DiffRecords(dir, listing, after))[x] ==
        if diff in listing && diff in dir && x.batchId > after then multiset(dir[diff])[x] else 0
  {
    if listing != [] {
      var n := |listing| - 1;
      DiffCount(dir, listing[..n], after, x);
      assert listing == listing[..n] + [listing[n]];
      var last := listing[n];
      if last.Diff? && last in dir && last.id != x.batchId {
        NotTaggedIsAbsent(dir[last], last.id, x);
      }
    }
  }

  /** Every file the next snapshot reads can be read. */
  ghost predicate NeededAreReadable(dir: Directory, unreadable: set<SourceName>) {
    forall name :: Needed(dir, name) ==> name !in unreadable
  }

  lemma LatestIsNeeded(dir: Directory, listing: seq<SourceName>)
    requires Lists(listing, dir) && LatestSnapshot(listing) >= 0
    ensures Needed(dir, Snapshot(LatestSnapshot(listing)))
  {
    hide LatestSnapshot;
    LatestIsListed(listing);
  }

  lemma NewerDiffIsNeeded(dir: Directory, listing: seq<SourceName>, i: nat)
    requires Lists(listing, dir) && LatestSnapshot(listing) < i && Diff(i) in dir
    ensures Needed(dir, Diff(i))
  {
    hide LatestSnapshot;
    LatestIsListed(listing);
  }

  /** The records of a new snapshot: every recorded file of every batch so far, as often as recorded. */
  lemma NewSnapshotHoldsAll(
    dir: Directory, written: History, listing: seq<SourceName>, unreadable: set<SourceName>, id: nat, records: seq<SourceRecord>)
    requires Complete(dir, written) && Lists(listing, dir) && NeededAreReadable(dir, unreadable)
    requires Tagged(records, id) && forall i :: i in written ==> i < id
    ensures HoldsUpTo(SnapshotRecords(dir - unreadable, listing, records), written[id := records], id)
  {
    hide DiffRecords, LatestSnapshot, Needed, OfBatch;
    var latest, readable := LatestSnapshot(listing), dir - unreadable;
    LatestIsListed(listing);
    if latest >= 0 {
      LatestIsNeeded(dir, listing);
    }
    forall x: SourceRecord
      ensures multiset(SnapshotRecords(readable, listing, records))[x] == Expected(written[id := records], id, x)
    {
      DiffCount(readable, listing, latest, x);
      assert multiset(BaseRecords(readable, listing))[x] == Expected(written, latest, x);
      if x.batchId in written && x.batchId > latest {
        assert Diff(x.batchId) in dir;
        NewerDiffIsNeeded(dir, listing, x.batchId);
      }
      if x.batchId != id {
        NotTaggedIsAbsent(records, id, x);
      }
    }
  }

  lemma {:induction false} OfBatchConcat(a: seq<SourceRecord>, b: seq<SourceRecord>, id: nat)
    ensures OfBatch(a + b, id) == OfBatch(a, id) + OfBatch(b, id)
  {
    if b == [] {
      assert a + b == a;
    } else {
      var n := |b| - 1;
      OfBatchConcat(a, b[..n], id);
      assert (a + b)[..|a + b| - 1] == a + b[..n];
    }
  }

  lemma {:induction false} OfBatchAll(a: seq<SourceRecord>, id: nat)
    requires Tagged(a, id)
    ensures OfBatch(a, id) == a
  {
    if a != [] {
      OfBatchAll(a[..|a| - 1], id);
    }
  }

  lemma {:induction false} OfBatchNone(a: seq<SourceRecord>, id: nat)
    requires forall r :: r in a ==> r.batchId != id
    ensures OfBatch(a, id) == []
  {
    if a != [] {
      OfBatchNone(a[..|a| - 1], id);
    }
  }

  lemma ReadableIsSound(dir: Directory, written: History, unreadable: set<SourceName>)
    requires Sound(dir, written)
    ensures Sound(dir - unreadable, written)
  {
    hide OfBatch, Tagged, NoneAbove;
  }

  /** Collected diffs come from diffs there are. */
  lemma CollectedDiffs(dir: Directory, listing: seq<SourceName>, after: int, r: SourceRecord)
    requires forall i, j :: 0 <= i < j < |listing| ==> listing[i] != listing[j]
    requires forall i: nat :: Diff(i) in dir ==> Tagged(dir[Diff(i)], i)
    requires r in DiffRecords(dir, listing, after)
    ensures Diff(r.batchId) in dir && r.batchId > after
  {
    DiffCount(dir, listing, after, r);
    assert multiset(DiffRecords(dir, listing, after))[r] > 0;
  }

  lemma DiffsAreTagged(dir: Directory, written: History)
    requires Sound(dir, written)
    ensures forall i: nat :: Diff(i) in dir ==> Tagged(dir[Diff(i)], i)
  {
    hide Tagged, OfBatch, NoneAbove;
  }

  lemma OlderRecordsAreOlder(dir: Directory, written: History, listing: seq<SourceName>, id: nat)
    requires Sound(dir, written) && (forall i :: i in written ==> i < id)
    requires forall i, j :: 0 <= i < j < |listing| ==> listing[i] != listing[j]
    ensures forall r :: r in BaseRecords(dir, listing) + DiffRecords(dir, listing, LatestSnapshot(listing)) ==> r.batchId < id
  {
    hide DiffRecords, LatestSnapshot, OfBatch;
    var latest := LatestSnapshot(listing);
    DiffsAreTagged(dir, written);
    forall r | r in BaseRecords(dir, listing) + DiffRecords(dir, listing, latest) ensures r.batchId < id {
      if r in DiffRecords(dir, listing, latest) {
        CollectedDiffs(dir, listing, latest, r);
      }
    }
  }

  /** Whatever could be read, a new snapshot holds its own batch as written and nothing newer. */
  lemma NewSnapshotIsSound(
    dir: Directory, written: History, listing: seq<SourceName>, id: nat, records: seq<SourceRecord>)
    requires Sound(dir, written) && forall i :: i in written ==> i < id
    requires forall i, j :: 0 <= i < j < |listing| ==> listing[i] != listing[j]
    requires Tagged(records, id)
    ensures
      var snapshot := SnapshotRecords(dir, listing, records);
      OfBatch(snapshot, id) == records && NoneAbove(snapshot, id)
  {
    hide DiffRecords, LatestSnapshot, BaseRecords, OfBatch, Sound;
    var older := BaseRecords(dir, listing) + DiffRecords(dir, listing, LatestSnapshot(listing));
    OlderRecordsAreOlder(dir, written, listing, id);
    OfBatchConcat(older, records, id);
    OfBatchNone(older, id);
    OfBatchAll(records, id);
  }

  lemma HoldsIgnoresLater(records: seq<SourceRecord>, written: History, b: int, id: nat, later: seq<SourceRecord>)
    requires HoldsUpTo(records, written, b) && b < id
    ensures HoldsUpTo(records, written[id := later], b)
  {
    forall x ensures multiset(records)[x] == Expected(written[id := later], b, x) {
      assert multiset(records)[x] == Expected(written, b, x);
    }
  }

  /** Writing a newer batch, at any interval and whatever could be read, keeps the directory sound. */
  lemma WriteKeepsSound(
    dir: Directory, written: History, listing: seq<SourceName>, unreadable: set<SourceName>,
    id: nat, records: seq<SourceRecord>, interval: Interval)
    requires Sound(dir, written) && Lists(listing, dir)
    requires Tagged(records, id) && forall i :: i in written ==> i < id
    ensures Sound(Written(dir, listing, unreadable, id, records, interval), written[id := records])
  {
    hide SnapshotRecords, OfBatch, Tagged, NoneAbove;
    ReadableIsSound(dir, written, unreadable);
    NewSnapshotIsSound(dir - unreadable, written, listing, id, records);
  }

  /** Writing a newer batch keeps the history complete when a snapshot can read what it needs. */
  lemma WriteKeepsComplete(
    dir: Directory, written: History, listing: seq<SourceName>, unreadable: set<SourceName>,
    id: nat, records: seq<SourceRecord>, interval: Interval)
    requires Complete(dir, written) && Lists(listing, dir)
    requires IsCompaction(id, interval) ==> NeededAreReadable(dir, unreadable)
    requires Tagged(records, id) && forall i :: i in written ==> i < id
    ensures Complete(Written(dir, listing, unreadable, id, records, interval), written[id := records])
  {
    hide SnapshotRecords, HoldsUpTo, OfBatch, Tagged, NoneAbove, NeededAreReadable;
    var after := Written(dir, listing, unreadable, id, records, interval);
    WriteKeepsSound(dir, written, listing, unreadable, id, records, interval);
    if IsCompaction(id, interval) {
      NewSnapshotHoldsAll(dir, written, listing, unreadable, id, records);
    }
    forall b: nat | Snapshot(b) in after && b != id ensures HoldsUpTo(after[Snapshot(b)], written[id := records], b) {
      HoldsIgnoresLater(dir[Snapshot(b)], written, b, id, records);
    }
  }

  /** Removing files keeps the directory sound, and the history complete if the next snapshot needs none of them. */
  lemma CleanupKeepsComplete(dir: Directory, after: Directory, listing: seq<SourceName>, written: History)
    requires Sound(dir, written) && Lists(listing, dir)
    requires forall name :: name in after ==> name in dir && after[name] == dir[name]
    ensures Sound(after, written)
    ensures Complete(dir, written) && (forall name :: Needed(dir, name) ==> name in after) ==> Complete(after, written)
  {
    hide HoldsUpTo, OfBatch, Tagged, LatestSnapshot, NoneAbove;
    if Complete(dir, written) && forall name :: Needed(dir, name) ==> name in after {
      LatestIsListed(listing);
      var latest := LatestSnapshot(listing);
      if latest >= 0 {
        assert Needed(dir, Snapshot(latest));
      }
      forall i | i in written && (forall s: nat :: Snapshot(s) in after ==> s < i) ensures Diff(i) in after {
        assert Needed(dir, Diff(i));
      }
    }
  }

  // ---- Sequences of batches -------------------------------------------------------------------

  /**
   * One batch: its records are written, then retention runs. Listings come in any order, a snapshot may be
   * unable to read some files, and deletes may fail.
   */
  datatype BatchStep = BatchStep(
    id: nat, records: seq<SourceRecord>, interval: Interval, listing: seq<SourceName>, unreadable: set<SourceName>,
    maxFiles: nat, relisting: seq<SourceName>, failed: set<SourceName>)

  function AfterWrite(dir: Directory, step: BatchStep): Directory {
    Written(dir, step.listing, step.unreadable, step.id, step.records, step.interval)
  }

  function After(steps: seq<BatchStep>): Directory {
    if steps == [] then map[]
    else
      var n := |steps| - 1;
      Cleaned(AfterWrite(After(steps[..n]), steps[n]), steps[n].relisting, steps[n].maxFiles, steps[n].failed)
  }

  function Recorded(steps: seq<BatchStep>): History {
    if steps == [] then map[]
    else
      var n := |steps| - 1;
      Recorded(steps[..n])[steps[n].id := steps[n].records]
  }

  /** Ids only grow, records name their batch, and each listing names the files there are. */
  ghost predicate Valid(steps: seq<BatchStep>) {
    steps == [] ||
      var n, step := |steps| - 1, steps[|steps| - 1];
      && Valid(steps[..n])
      && (forall i :: i in Recorded(steps[..n]) ==> i < step.id)
      && Tagged(step.records, step.id)
      && Lists(step.listing, After(steps[..n]))
      && Lists(step.relisting, AfterWrite(After(steps[..n]), step))
  }

  ghost predicate NeededStay(before: Directory, after: Directory) {
    forall name :: Needed(before, name) ==> name in after
  }

  /** No cleanup removed a file the next snapshot needs. */
  ghost predicate KeepsNeeded(steps: seq<BatchStep>) {
    steps == [] ||
      var n := |steps| - 1;
      && KeepsNeeded(steps[..n])
      && NeededStay(AfterWrite(After(steps[..n]), steps[n]), After(steps))
  }

  /** Each snapshot could read every file it needed. */
  ghost predicate ReadsNeeded(steps: seq<BatchStep>) {
    steps == [] ||
      var n := |steps| - 1;
      && ReadsNeeded(steps[..n])
      && (IsCompaction(steps[n].id, steps[n].interval) ==> NeededAreReadable(After(steps[..n]), steps[n].unreadable))
  }

  lemma LastStep(steps: seq<BatchStep>)
    requires Valid(steps) && steps != []
    ensures
      var n, step := |steps| - 1, steps[|steps| - 1];
      && Valid(steps[..n]) && (forall i :: i in Recorded(steps[..n]) ==> i < step.id) && Tagged(step.records, step.id)
      && Lists(step.listing, After(steps[..n])) && Lists(step.relisting, AfterWrite(After(steps[..n]), step))
      && After(steps) == Cleaned(AfterWrite(After(steps[..n]), step), step.relisting, step.maxFiles, step.failed)
      && Recorded(steps) == Recorded(steps[..n])[step.id := step.records]
  {}

  lemma {:induction false} HistoryStaysSound(steps: seq<BatchStep>)
    requires Valid(steps)
    ensures Sound(After(steps), Recorded(steps))
    decreases |steps|
  {
    if steps != [] {
      hide Written, Sound, Complete, Needed, DeleteAll, Oldest, Valid, After, Recorded;
      var n, step := |steps| - 1, steps[|steps| - 1];
      LastStep(steps);
      HistoryStaysSound(steps[..n]);
      var mid := AfterWrite(After(steps[..n]), step);
      WriteKeepsSound(
        After(steps[..n]), Recorded(steps[..n]), step.listing, step.unreadable, step.id, step.records, step.interval);
      DeletesExactly(mid, Oldest(step.relisting, step.maxFiles), step.failed);
      CleanupKeepsComplete(mid, After(steps), step.relisting, Recorded(steps));
    }
  }

  lemma {:induction false} HistoryStaysComplete(steps: seq<BatchStep>)
    requires Valid(steps) && KeepsNeeded(steps) && ReadsNeeded(steps)
    ensures Complete(After(steps), Recorded(steps))
    decreases |steps|
  {
    if steps != [] {
      hide Written, Sound, Complete, Needed, DeleteAll, Oldest, Valid, After, Recorded, NeededAreReadable;
      var n, step := |steps| - 1, steps[|steps| - 1];
      LastStep(steps);
      HistoryStaysComplete(steps[..n]);
      HistoryStaysSound(steps[..n]);
      var mid := AfterWrite(After(steps[..n]), step);
      WriteKeepsSound(
        After(steps[..n]), Recorded(steps[..n]), step.listing, step.unreadable, step.id, step.records, step.interval);
      WriteKeepsComplete(
        After(steps[..n]), Recorded(steps[..n]), step.listing, step.unreadable, step.id, step.records, step.interval);
      DeletesExactly(mid, Oldest(step.relisting, step.maxFiles), step.failed);
      CleanupKeepsComplete(mid, After(steps), step.relisting, Recorded(steps));
    }
  }

  /** Every snapshot holds each recorded file of every batch up to its own, exactly as often as recorded. */
  lemma SnapshotsHoldHistory(steps: seq<BatchStep>, b: nat, x: SourceRecord)
    requires Valid(steps) && KeepsNeeded(steps) && ReadsNeeded(steps) && Snapshot(b) in After(steps)
    ensures b in Recorded(steps)
    ensures multiset(After(steps)[Snapshot(b)])[x] ==
            if x.batchId <= b && x.batchId in Recorded(steps) then multiset(Recorded(steps)[x.batchId])[x] else 0
  {
    hide After, Recorded, Valid, KeepsNeeded, ReadsNeeded, OfBatch;
    HistoryStaysComplete(steps);
    assert HoldsUpTo(After(steps)[Snapshot(b)], Recorded(steps), b);
  }

  /**
   * Reading a batch returns exactly the records written for it, in order, while its file is there and can be
   * read, and nothing otherwise - whatever earlier snapshots could read and retention removed.
   */
  lemma ReadReturnsWritten(steps: seq<BatchStep>, id: nat, unreadable: set<SourceName>)
    requires Valid(steps)
    ensures
      var dir := After(steps) - unreadable;
      if Diff(id) in dir || Snapshot(id) in dir
      then id in Recorded(steps) && BatchSource(dir, id) == Recorded(steps)[id]
      else BatchSource(dir, id) == []
  {
    hide After, Recorded, Valid, OfBatch;
    HistoryStaysSound(steps);
  }

  // ---- A batch that is lost -------------------------------------------------------------------

  ghost predicate Lacks(records: seq<SourceRecord>, batchId: nat) {
    forall x :: x in records ==> x.batchId != batchId
  }

  /** No file holds a record of the batch. */
  ghost predicate Lost(dir: Directory, batchId: nat) {
    Diff(batchId) !in dir && forall s: nat :: Snapshot(s) in dir ==> Lacks(dir[Snapshot(s)], batchId)
  }

  lemma NewSnapshotLacks(dir: Directory, written: History, listing: seq<SourceName>, id: nat, records: seq<SourceRecord>, i: nat)
    requires Sound(dir, written) && Lost(dir, i) && i != id && Tagged(records, id)
    requires forall a, b :: 0 <= a < b < |listing| ==> listing[a] != listing[b]
    ensures Lacks(SnapshotRecords(dir, listing, records), i)
  {
    hide DiffRecords, LatestSnapshot, OfBatch;
    var latest := LatestSnapshot(listing);
    DiffsAreTagged(dir, written);
    forall x | x in SnapshotRecords(dir, listing, records) ensures x.batchId != i {
      if x in DiffRecords(dir, listing, latest) {
        CollectedDiffs(dir, listing, latest, x);
      }
    }
  }

  lemma StepKeepsLost(dir: Directory, written: History, step: BatchStep, after: Directory, i: nat)
    requires Sound(dir, written) && Lost(dir, i) && Lists(step.listing, dir)
    requires Tagged(step.records, step.id) && i < step.id
    requires forall name :: name in after ==> name in AfterWrite(dir, step) && after[name] == AfterWrite(dir, step)[name]
    ensures Lost(after, i)
  {
    hide SnapshotRecords, OfBatch, Tagged, Sound, Lacks;
    ReadableIsSound(dir, written, step.unreadable);
    NewSnapshotLacks(dir - step.unreadable, written, step.listing, step.id, step.records, i);
  }

  /** A batch that no file holds is in no file ever again, whatever comes after. */
  lemma {:induction false} LostStaysLost(steps: seq<BatchStep>, m: nat, i: nat)
    requires Valid(steps) && m <= |steps| && i in Recorded(steps[..m]) && Lost(After(steps[..m]), i)
    ensures i in Recorded(steps) && Lost(After(steps), i)
    decreases |steps|
  {
    if m == |steps| {
      assert steps[..m] == steps;
    } else {
      hide Written, Sound, DeleteAll, Oldest, Valid, After, Recorded, Lost;
      var n, step := |steps| - 1, steps[|steps| - 1];
      LastStep(steps);
      assert steps[..n][..m] == steps[..m];
      LostStaysLost(steps[..n], m, i);
      HistoryStaysSound(steps[..n]);
      var mid := AfterWrite(After(steps[..n]), step);
      DeletesExactly(mid, Oldest(step.relisting, step.maxFiles), step.failed);
      StepKeepsLost(After(steps[..n]), Recorded(steps[..n]), step, After(steps), i);
    }
  }

  /** Once retention removes a diff that no snapshot holds yet, its batch is lost. */
  lemma RemovedBatchIsLost(mid: Directory, written: History, after: Directory, i: nat)
    requires Sound(mid, written) && Needed(mid, Diff(i)) && Diff(i) !in after
    requires forall name :: name in after ==> name in mid && after[name] == mid[name]
    ensures i in written && Lost(after, i)
  {
    hide OfBatch;
  }

  lemma {:induction false} FewFiles(steps: seq<BatchStep>)
    ensures |After(steps)| <= |steps|
  {
    if steps != [] {
      var n, step := |steps| - 1, steps[|steps| - 1];
      FewFiles(steps[..n]);
      var mid := AfterWrite(After(steps[..n]), step);
      OneMoreFile(After(steps[..n]), step);
      DeletesExactly(mid, Oldest(step.relisting, step.maxFiles), step.failed);
      SubsetSize(After(steps).Keys, mid.Keys);
    }
  }

  lemma {:induction false} SubsetSize<T>(a: set<T>, b: set<T>)
    requires a <= b
    ensures |a| <= |b|
    decreases a
  {
    if a != {} {
      var x :| x in a;
      SubsetSize(a - {x}, b - {x});
    }
  }

  /** While the files are few enough for retention, any sequence of intervals keeps the history. */
  lemma {:induction false} EnoughRetentionKeepsNeeded(steps: seq<BatchStep>)
    requires Valid(steps) && forall i :: 0 <= i < |steps| ==> steps[i].maxFiles >= |steps|
    ensures KeepsNeeded(steps)
    decreases |steps|
  {
    if steps != [] {
      hide SortByKey;
      var n, step := |steps| - 1, steps[|steps| - 1];
      EnoughRetentionKeepsNeeded(steps[..n]);
      FewFiles(steps[..n]);
      var mid := AfterWrite(After(steps[..n]), step);
      OneMoreFile(After(steps[..n]), step);
      SortKeepsListing(step.relisting, mid);
      ListingSize(step.relisting, mid);
      DeletesExactly(mid, Oldest(step.relisting, step.maxFiles), step.failed);
    }
  }

  lemma OneMoreFile(dir: Directory, step: BatchStep)
    ensures |AfterWrite(dir, step)| <= |dir| + 1
  {
    var name := if IsCompaction(step.id, step.interval) then Snapshot(step.id) else Diff(step.id);
    assert AfterWrite(dir, step).Keys == dir.Keys + {name};
  }

  lemma {:induction false} NamesSize(listing: seq<SourceName>, names: set<SourceName>)
    requires forall i, j :: 0 <= i < j < |listing| ==> listing[i] != listing[j]
    requires forall name :: name in listing <==> name in names
    ensures |listing| == |names|
    decreases |listing|
  {
    if listing == [] {
      assert names == {};
    } else {
      var n := |listing| - 1;
      assert listing == listing[..n] + [listing[n]];
      NamesSize(listing[..n], names - {listing[n]});
    }
  }

  lemma ListingSize(listing: seq<SourceName>, dir: Directory)
    requires Lists(listing, dir)
    ensures |listing| == |dir|
  {
    NamesSize(listing, dir.Keys);
  }
}
