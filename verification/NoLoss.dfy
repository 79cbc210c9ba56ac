/**
 * No file is ever lost: in every interleaving of any number of runs, crashes, adoption and failed log
 * reads, each file at or below the persisted watermark is in some commit, even when a superseded run
 * moves the watermark backwards.
 */
module NoLoss {
  import opened Files
  import opened CheckpointRecords
  import opened FileTracker
  import opened Adoption
  import opened DeltaLog
  import opened Owner
  import opened Protocol

  // ---- Coverage -------------------------------------------------------------------------------

  ghost predicate InLog(log: Log, f: FileInfo) {
    exists i :: 0 <= i < |log.history| && f in log.history[i].files
  }

  /** Every file at or below `time` is in some commit. */
  ghost predicate Covered(universe: set<FileInfo>, log: Log, time: Option<int>) {
    forall f :: f in universe && time.Some? && f.modificationTime <= time.value ==> InLog(log, f)
  }

  /** Every file up to the latest of `batch` is in the batch or in some commit. */
  ghost predicate Closed(universe: set<FileInfo>, log: Log, batch: seq<FileInfo>) {
    && batch != []
    && (forall f :: f in batch ==> f in universe)
    && forall f :: f in universe && f.modificationTime <= MaxTime(batch) ==> f in batch || InLog(log, f)
  }

  ghost predicate BatchCommitted(log: Log, token: nat) {
    exists i :: 0 <= i < |log.history| && log.history[i].batch == Some(token)
  }

  /** A pending record names a batch that was written, with that batch's files. */
  ghost predicate Minted(table: Table, p: PendingBatch) {
    p.token in table.batches && p.files == Entries(table.batches[p.token])
  }

  // ---- What the storage keeps -----------------------------------------------------------------

  ghost predicate CommitsAreBatches(table: Table) {
    forall i :: 0 <= i < |table.log.history| ==>
      && (table.log.history[i].batch == None ==> table.log.history[i].files == [])
      && (forall t :: table.log.history[i].batch == Some(t) ==>
            t in table.batches && table.log.history[i].files == table.batches[t])
      && (forall t :: table.log.history[i].Carries(t) ==> BatchCommitted(table.log, t))
  }

  ghost predicate JobsAreBatches(table: Table) {
    forall j :: j in table.jobs ==>
      && table.jobs[j].token in table.batches
      && table.jobs[j].files == table.batches[table.jobs[j].token]
      && (table.jobs[j].state.Succeeded? ==> BatchCommitted(table.log, table.jobs[j].token))
  }

  ghost predicate BatchesAreClosed(universe: set<FileInfo>, table: Table) {
    forall t :: t in table.batches ==> Closed(universe, table.log, table.batches[t])
  }

  /** A recorded entry names a file of the universe that some commit ingested. */
  ghost predicate EntryIngested(log: Log, entry: (string, int)) {
    exists f :: InLog(log, f) && (f.path, f.modificationTime) == entry
  }

  ghost predicate EntriesIngested(log: Log, entries: seq<(string, int)>) {
    forall e :: e in entries ==> EntryIngested(log, e)
  }

  ghost predicate SourcesAreIngested(table: Table) {
    forall b :: b in table.sources ==> EntriesIngested(table.log, table.sources[b])
  }

  ghost predicate TableOk(universe: set<FileInfo>, table: Table) {
    && Covered(universe, table.log, TimeOf(table.watermark))
    && (table.pending.Some? ==> Minted(table, table.pending.value))
    && BatchesAreClosed(universe, table)
    && CommitsAreBatches(table)
    && JobsAreBatches(table)
    && SourcesAreIngested(table)
  }

  // ---- What a run holds -----------------------------------------------------------------------

  /** The position a run read or is about to write. */
  ghost function TimeHeld(pc: Pc): Option<int> {
    match pc
    case ListingLog(current) => TimeOf(current)
    case ReadingPending(current, _) => TimeOf(current)
    case Adopting(current, _) => current.modifiedTime
    case WritingFinal(current, _) => current.modifiedTime
    case WritingWatermark(record) => record.next.modifiedTime
    case WritingSources(record) => record.next.modifiedTime
    case CleaningSources(record) => record.next.modifiedTime
    case DeletingPending(current, _) => TimeOf(current)
    case _ => None
  }

  /** The position adoption falls back to. */
  ghost function TimeBefore(pc: Pc): Option<int> {
    if (pc.WritingWatermark? || pc.WritingSources? || pc.CleaningSources?) && pc.record.after.Final?
    then pc.record.after.before.modifiedTime
    else None
  }

  ghost function EntriesHeld(pc: Pc): seq<(string, int)> {
    match pc
    case WritingWatermark(record) => record.entries
    case WritingSources(record) => record.entries
    case CleaningSources(record) => record.entries
    case _ => []
  }

  ghost function SnapshotOf(after: After): Option<Log> {
    if after.Loop? then None else Some(after.snapshot)
  }

  ghost function SnapshotHeld(pc: Pc): Option<Log> {
    match pc
    case ReadingPending(_, snapshot) => Some(snapshot)
    case Adopting(_, snapshot) => Some(snapshot)
    case WritingFinal(_, snapshot) => Some(snapshot)
    case WritingWatermark(record) => SnapshotOf(record.after)
    case WritingSources(record) => SnapshotOf(record.after)
    case CleaningSources(record) => SnapshotOf(record.after)
    case DeletingPending(_, after) => SnapshotOf(after)
    case _ => None
  }

  ghost function BatchHeld(pc: Pc): Option<seq<FileInfo>> {
    match pc
    case BatchChosen(batch) => Some(batch)
    case BatchOwned(batch) => Some(batch)
    case BatchRead(batch, _) => Some(batch)
    case BatchVersioned(batch, _, _) => Some(batch)
    case _ => None
  }

  ghost function PendingHeld(pc: Pc): Option<PendingBatch> {
    match pc
    case Submitting(p) => Some(p)
    case SubmitOwned(p) => Some(p)
    case Submitted(p, _) => Some(p)
    case Polling(p, _) => Some(p)
    case Cancelling(p, _, _) => Some(p)
    case Updating(p) => Some(p)
    case UpdateOwned(p) => Some(p)
    case UpdateRead(p, _) => Some(p)
    case _ => None
  }

  ghost function JobHeld(pc: Pc): Option<nat> {
    match pc
    case Submitted(_, job) => Some(job)
    case Polling(_, job) => Some(job)
    case Cancelling(_, job, _) => Some(job)
    case _ => None
  }

  /** The local values of a run are backed by the storage. */
  ghost predicate PcOk(universe: set<FileInfo>, table: Table, pc: Pc) {
    && Covered(universe, table.log, TimeHeld(pc))
    && Covered(universe, table.log, TimeBefore(pc))
    && EntriesIngested(table.log, EntriesHeld(pc))
    && (SnapshotHeld(pc).Some? ==> SnapshotHeld(pc).value.history <= table.log.history)
    && (BatchHeld(pc).Some? ==> Closed(universe, table.log, BatchHeld(pc).value))
    && (PendingHeld(pc).Some? ==> Minted(table, PendingHeld(pc).value))
    && (JobHeld(pc).Some? ==>
          JobHeld(pc).value in table.jobs && table.jobs[JobHeld(pc).value].token == PendingHeld(pc).value.token)
    && (pc.Updating? || pc.UpdateOwned? || pc.UpdateRead? ==> BatchCommitted(table.log, pc.pending.token))
  }

  ghost predicate Safe(universe: set<FileInfo>, s: State) {
    && TableOk(universe, s.table)
    && forall r :: r in s.runs ==> PcOk(universe, s.table, s.runs[r].pc)
  }

  // ---- Storage only grows ---------------------------------------------------------------------

  /** Later storage keeps every commit, batch and job. */
  ghost predicate Extends(a: Table, b: Table) {
    && a.log.history <= b.log.history
    && (forall t :: t in a.batches ==> t in b.batches && b.batches[t] == a.batches[t])
    && (forall j :: j in a.jobs ==> j in b.jobs && b.jobs[j].token == a.jobs[j].token)
  }

  lemma InLogGrows(a: Log, b: Log, f: FileInfo)
    requires a.history <= b.history && InLog(a, f)
    ensures InLog(b, f)
  {
    var i :| 0 <= i < |a.history| && f in a.history[i].files;
    assert b.history[i] == a.history[i];
  }

  lemma CoveredGrows(universe: set<FileInfo>, a: Log, b: Log, time: Option<int>)
    requires a.history <= b.history && Covered(universe, a, time)
    ensures Covered(universe, b, time)
  {
    hide InLog;
    forall f | f in universe && time.Some? && f.modificationTime <= time.value ensures InLog(b, f) {
      InLogGrows(a, b, f);
    }
  }

  lemma ClosedGrows(universe: set<FileInfo>, a: Log, b: Log, batch: seq<FileInfo>)
    requires a.history <= b.history && Closed(universe, a, batch)
    ensures Closed(universe, b, batch)
  {
    hide InLog, MaxTime;
    forall f | f in universe && f.modificationTime <= MaxTime(batch) ensures f in batch || InLog(b, f) {
      if InLog(a, f) {
        InLogGrows(a, b, f);
      }
    }
  }

  lemma EntriesGrow(a: Log, b: Log, entries: seq<(string, int)>)
    requires a.history <= b.history && EntriesIngested(a, entries)
    ensures EntriesIngested(b, entries)
  {
    hide InLog;
    forall e | e in entries ensures EntryIngested(b, e) {
      assert EntryIngested(a, e);
      var f :| InLog(a, f) && (f.path, f.modificationTime) == e;
      InLogGrows(a, b, f);
    }
  }

  lemma CommittedGrows(a: Log, b: Log, token: nat)
    requires a.history <= b.history && BatchCommitted(a, token)
    ensures BatchCommitted(b, token)
  {
    var i :| 0 <= i < |a.history| && a.history[i].batch == Some(token);
    assert b.history[i] == a.history[i];
  }

  lemma PcGrows(universe: set<FileInfo>, a: Table, b: Table, pc: Pc)
    requires Extends(a, b) && PcOk(universe, a, pc)
    ensures PcOk(universe, b, pc)
  {
    hide Covered, Closed, BatchCommitted, EntriesIngested, TimeHeld, TimeBefore, EntriesHeld, SnapshotHeld, BatchHeld, PendingHeld, JobHeld;
    CoveredGrows(universe, a.log, b.log, TimeHeld(pc));
    CoveredGrows(universe, a.log, b.log, TimeBefore(pc));
    EntriesGrow(a.log, b.log, EntriesHeld(pc));
    if BatchHeld(pc).Some? {
      ClosedGrows(universe, a.log, b.log, BatchHeld(pc).value);
    }
    if pc.Updating? || pc.UpdateOwned? || pc.UpdateRead? {
      CommittedGrows(a.log, b.log, pc.pending.token);
    }
  }

  /** One run's step keeps safety when the storage grows and the run's new values are backed. */
  lemma RunStepIsSafe(universe: set<FileInfo>, s: State, t: State, r: TableOwner)
    requires Safe(universe, s) && Extends(s.table, t.table) && TableOk(universe, t.table)
    requires forall q :: q in t.runs && q != r ==> q in s.runs && t.runs[q].pc == s.runs[q].pc
    requires r in t.runs ==> PcOk(universe, t.table, t.runs[r].pc)
    ensures Safe(universe, t)
  {
    hide PcOk, TableOk, Extends;
    forall q | q in t.runs ensures PcOk(universe, t.table, t.runs[q].pc) {
      if q != r {
        PcGrows(universe, s.table, t.table, s.runs[q].pc);
      }
    }
  }

  // ---- Advancing the watermark ----------------------------------------------------------------

  lemma ClosedAndCommittedIsCovered(universe: set<FileInfo>, log: Log, batch: seq<FileInfo>)
    requires Closed(universe, log, batch)
    requires forall f :: f in batch ==> InLog(log, f)
    ensures Covered(universe, log, Some(MaxTime(batch)))
  {}

  lemma CommittedBatchIsInLog(table: Table, token: nat)
    requires CommitsAreBatches(table) && BatchCommitted(table.log, token)
    ensures token in table.batches
    ensures forall f :: f in table.batches[token] ==> InLog(table.log, f)
    ensures EntriesIngested(table.log, Entries(table.batches[token]))
  {
    var i :| 0 <= i < |table.log.history| && table.log.history[i].batch == Some(token);
    var batch := table.batches[token];
    forall f | f in batch ensures InLog(table.log, f) {
      assert f in table.log.history[i].files;
    }
    forall e | e in Entries(batch) ensures EntryIngested(table.log, e) {
      var k :| 0 <= k < |batch| && Entries(batch)[k] == e;
      assert InLog(table.log, batch[k]);
    }
  }

  /** A batch and its stored entries give the same position and the same records. */
  lemma StoredBatchRecordsTheSame(batch: seq<FileInfo>, files: seq<FileInfo>, current: Option<Watermark>)
    requires batch != [] && (files == batch || files == Recovered(Entries(batch)))
    ensures ComputeNewWatermark(files, current) == ComputeNewWatermark(batch, current)
    ensures Entries(files) == Entries(batch)
    ensures ComputeNewWatermark(batch, current).modifiedTime == Some(MaxTime(batch))
  {
    hide MaxTime;
    RecoveredKeepsMaxTime(batch);
    RecoveredKeepsEntries(batch);
  }

  /** Recording a committed batch, from its files or from its stored entries, writes a covered position. */
  lemma RecordingCommittedBatchIsOk(
    universe: set<FileInfo>, table: Table, token: nat, files: seq<FileInfo>,
    current: Option<Watermark>, version: Option<int>, after: After)
    requires TableOk(universe, table) && BatchCommitted(table.log, token)
    requires token in table.batches
    requires files == table.batches[token] || files == Recovered(Entries(table.batches[token]))
    requires after.Loop? || after.snapshot.history <= table.log.history
    requires !after.Final?
    ensures PcOk(universe, table, Recording(files, current, version, after))
  {
    hide Covered, Closed, InLog, EntriesIngested, MaxTime, Entries, Recovered, CommitsAreBatches, JobsAreBatches,
         ComputeNewWatermark, BatchCommitted;
    var batch := table.batches[token];
    NothingHeldIsOk(universe, table);
    CommittedBatchIsInLog(table, token);
    ClosedIsNonempty(universe, table.log, batch);
    StoredBatchRecordsTheSame(batch, files, current);
    ClosedAndCommittedIsCovered(universe, table.log, batch);
  }

  lemma ClosedIsNonempty(universe: set<FileInfo>, log: Log, batch: seq<FileInfo>)
    requires Closed(universe, log, batch)
    ensures batch != []
  {}

  /** Files an adoption names by path are the files the commits ingested. */
  lemma AdoptedFilesAreInLog(universe: set<FileInfo>, table: Table, snapshot: Log, baseline: int, f: FileInfo)
    requires PathKeyed(universe) && f in universe && IngestedAfter(snapshot, baseline, f.path)
    requires snapshot.history <= table.log.history
    requires forall i, g :: 0 <= i < |table.log.history| && g in table.log.history[i].files ==> g in universe
    ensures InLog(table.log, f)
  {
    var v, g :| baseline < v < |snapshot.history| && IsListed(snapshot, v) && snapshot.history[v].scopeEngine
      && snapshot.history[v].addsData && g in snapshot.history[v].files && g.path == f.path;
    assert table.log.history[v] == snapshot.history[v];
    assert g == f;
  }

  /** The adopted prefix reaches exactly as far as every listed file is in some commit. */
  lemma AdoptionIsCovered(
    universe: set<FileInfo>, table: Table, listing: seq<FileInfo>, cutoff: int, adopted: set<string>,
    current: Watermark, snapshot: Log, baseline: int)
    requires PathKeyed(universe) && CompleteListing(universe, listing)
    requires Covered(universe, table.log, current.modifiedTime) && snapshot.history <= table.log.history
    requires forall i, g :: 0 <= i < |table.log.history| && g in table.log.history[i].files ==> g in universe
    requires forall path :: path in adopted ==> IngestedAfter(snapshot, baseline, path)
    requires AdoptablePrefix(UnprocessedBy(listing, Some(current), cutoff), adopted) != []
    ensures
      var prefix := AdoptablePrefix(UnprocessedBy(listing, Some(current), cutoff), adopted);
      && Covered(universe, table.log, Some(MaxTime(prefix)))
      && EntriesIngested(table.log, Entries(prefix))
  {
    hide AdoptablePrefix, MaxTime, InLog, IngestedAfter, FileTracker.Discover;
    var files := UnprocessedBy(listing, Some(current), cutoff);
    var prefix := AdoptablePrefix(files, adopted);
    DiscoverMembers(listing, current.modifiedTime, cutoff);
    AdoptionIsLargestSafeCut(files, adopted, MaxTime(prefix));
    MaxTimeIsMaximum(prefix);
    var last :| last in prefix && last.modificationTime == MaxTime(prefix);
    forall f | f in prefix ensures InLog(table.log, f) {
      AdoptedFilesAreInLog(universe, table, snapshot, baseline, f);
    }
    forall f | f in universe && f.modificationTime <= MaxTime(prefix) ensures InLog(table.log, f) {
      if current.modifiedTime.Some? && f.modificationTime <= current.modifiedTime.value {
      } else {
        assert f in listing;
        assert f in files;
      }
    }
    forall e | e in Entries(prefix) ensures EntryIngested(table.log, e) {
      var k :| 0 <= k < |prefix| && Entries(prefix)[k] == e;
      assert InLog(table.log, prefix[k]);
    }
  }

  // ---- Actions that leave the storage alone ---------------------------------------------------

  lemma CommittedFilesAreInUniverse(universe: set<FileInfo>, table: Table)
    requires TableOk(universe, table)
    ensures forall i, g :: 0 <= i < |table.log.history| && g in table.log.history[i].files ==> g in universe
  {
    hide Covered, InLog, MaxTime, JobsAreBatches, SourcesAreIngested;
    forall i, g | 0 <= i < |table.log.history| && g in table.log.history[i].files ensures g in universe {
      var batch := table.log.history[i].batch;
      if batch.Some? {
        assert Closed(universe, table.log, table.batches[batch.value]);
      }
    }
  }

  lemma FoundTokenMeansCommitted(universe: set<FileInfo>, table: Table, snapshot: Log, token: nat, after: int)
    requires TableOk(universe, table) && snapshot.history <= table.log.history
    requires FindTokenVersion(snapshot, token, after).Some?
    ensures BatchCommitted(table.log, token)
  {
    FoundTokenWasCommitted(snapshot, token, after);
    var v :| 0 <= v < |snapshot.history| && snapshot.history[v].Carries(token);
    assert table.log.history[v] == snapshot.history[v];
  }

  lemma ReadPendingIsOk(universe: set<FileInfo>, table: Table, current: Option<Watermark>, snapshot: Log)
    requires TableOk(universe, table) && PcOk(universe, table, ReadingPending(current, snapshot))
    ensures PcOk(universe, table, ActReadPending(table, current, snapshot))
  {
    hide FindTokenVersion, Recording;
    if table.pending.Some? && table.pending.value.AppliesTo(current) {
      var p := table.pending.value;
      var version := FindTokenVersion(snapshot, p.token, p.deltaVersionBefore);
      if version.Some? {
        FoundTokenMeansCommitted(universe, table, snapshot, p.token, p.deltaVersionBefore);
        RecordingCommittedBatchIsOk(universe, table, p.token, Recovered(p.files), current, version, Resume(snapshot));
      }
    }
  }

  lemma AdoptIsOk(
    universe: set<FileInfo>, table: Table, listing: seq<FileInfo>, cutoff: int, adopted: set<string>,
    current: Watermark, snapshot: Log, baseline: int)
    requires PathKeyed(universe) && CompleteListing(universe, listing)
    requires TableOk(universe, table) && PcOk(universe, table, Adopting(current, snapshot))
    requires forall path :: path in adopted ==> IngestedAfter(snapshot, baseline, path)
    ensures PcOk(universe, table, ActAdopt(listing, cutoff, adopted, current, snapshot))
  {
    hide AdoptablePrefix, MaxTime, InLog, IngestedAfter, FileTracker.Discover, Covered, EntriesIngested, Entries;
    CommittedFilesAreInUniverse(universe, table);
    if AdoptablePrefix(UnprocessedBy(listing, Some(current), cutoff), adopted) != [] {
      AdoptionIsCovered(universe, table, listing, cutoff, adopted, current, snapshot, baseline);
    }
  }

  lemma DiscoverIsOk(
    universe: set<FileInfo>, table: Table, listing: seq<FileInfo>, cutoff: int, maxFiles: int, maxBytes: int, again: bool)
    requires TableOk(universe, table)
    requires GoodDiscovery(universe, table, listing, cutoff, maxFiles, maxBytes)
    ensures PcOk(universe, table, ActDiscover(table, listing, cutoff, maxFiles, maxBytes, again))
  {
    hide FileTracker.Discover, NextBatch, MaxTime, InLog;
    var files := UnprocessedBy(listing, table.watermark, cutoff);
    var batch := NextBatch(files, maxFiles, maxBytes);
    NextBatchIsMaximal(files, maxFiles, maxBytes);
    if batch != [] {
      UncutPrefixIsWindow(universe, listing, TimeOf(table.watermark), cutoff, |batch|);
      assert Closed(universe, table.log, batch);
    }
  }

  /** Actions of a run that only read. */
  predicate OnlyReads(a: Action) {
    match a
    case WriteFinal => false
    case WriteWatermark => false
    case WriteSources => false
    case CleanSources(_) => false
    case DeletePending(_) => false
    case WritePending(_) => false
    case Submit(_) => false
    case _ => true
  }

  lemma SettlingIsOk(universe: set<FileInfo>, table: Table, file: OwnerFile, r: TableOwner, run: Run, a: Action)
    requires TableOk(universe, table) && PcOk(universe, table, run.pc) && CanAct(universe, table, run, a)
    requires a.ListOrphans? || a.Settle? || a.ListLog? || a.SkipAdoption? || a.SwallowFailure?
    ensures
      var o := Act(universe, table, file, r, run, a);
      o.table == table && PcOk(universe, table, o.run.pc)
  {
    hide Covered, Closed, BatchCommitted, EntriesIngested, Minted, TableOk, OwnsTable, Recording, CommittedVersion;
    NothingHeldIsOk(universe, table);
  }

  lemma ReadingWatermarkIsOk(universe: set<FileInfo>, table: Table, file: OwnerFile, r: TableOwner, run: Run, a: Action)
    requires TableOk(universe, table) && PcOk(universe, table, run.pc) && CanAct(universe, table, run, a)
    requires a.ReadWatermark? || a.BeginReadWatermark? || a.UpdateReadWatermark?
    ensures
      var o := Act(universe, table, file, r, run, a);
      o.table == table && PcOk(universe, table, o.run.pc)
  {
    hide Covered, Closed, BatchCommitted, EntriesIngested, Minted, OwnsTable, Recording, CommittedVersion;
    NothingHeldIsOk(universe, table);
  }

  lemma ReadingPendingIsOk(universe: set<FileInfo>, table: Table, file: OwnerFile, r: TableOwner, run: Run, a: Action)
    requires TableOk(universe, table) && PcOk(universe, table, run.pc) && CanAct(universe, table, run, a)
    requires a.ReadPending?
    ensures
      var o := Act(universe, table, file, r, run, a);
      o.table == table && PcOk(universe, table, o.run.pc)
  {
    hide Covered, Closed, BatchCommitted, EntriesIngested, Minted, TableOk, OwnsTable, Recording, CommittedVersion;
    hide ActReadPending;
    NothingHeldIsOk(universe, table);
    ReadPendingIsOk(universe, table, run.pc.current, run.pc.snapshot);
  }

  lemma AdoptingIsOk(universe: set<FileInfo>, table: Table, file: OwnerFile, r: TableOwner, run: Run, a: Action)
    requires TableOk(universe, table) && PcOk(universe, table, run.pc) && CanAct(universe, table, run, a)
    requires PathKeyed(universe)
    requires a.Adopt?
    ensures
      var o := Act(universe, table, file, r, run, a);
      o.table == table && PcOk(universe, table, o.run.pc)
  {
    hide Covered, EntriesIngested, IngestedAfter, CompleteListing, TableOk, ActAdopt, PcOk;
    AdoptIsOk(universe, table, a.adoptListing, a.adoptCutoff, a.adopted, run.pc.adoptFrom, run.pc.snapshot,
              Baseline(run.pc.adoptFrom, a.legacyBaseline));
  }

  lemma DiscoveringIsOk(universe: set<FileInfo>, table: Table, file: OwnerFile, r: TableOwner, run: Run, a: Action)
    requires TableOk(universe, table) && PcOk(universe, table, run.pc) && CanAct(universe, table, run, a)
    requires a.Discover?
    ensures
      var o := Act(universe, table, file, r, run, a);
      o.table == table && PcOk(universe, table, o.run.pc)
  {
    hide GoodDiscovery, TableOk, ActDiscover, PcOk;
    DiscoverIsOk(universe, table, a.listing, a.cutoff, a.maxFiles, a.maxBytes, a.again);
  }

  lemma BeginningIsOk(universe: set<FileInfo>, table: Table, file: OwnerFile, r: TableOwner, run: Run, a: Action)
    requires TableOk(universe, table) && PcOk(universe, table, run.pc) && CanAct(universe, table, run, a)
    requires a.BeginCheck? || a.BeginReadVersion?
    ensures
      var o := Act(universe, table, file, r, run, a);
      o.table == table && PcOk(universe, table, o.run.pc)
  {
    hide Covered, Closed, BatchCommitted, EntriesIngested, Minted, TableOk, OwnsTable, Recording, CommittedVersion;
    NothingHeldIsOk(universe, table);
  }

  lemma CheckingIsOk(universe: set<FileInfo>, table: Table, file: OwnerFile, r: TableOwner, run: Run, a: Action)
    requires TableOk(universe, table) && PcOk(universe, table, run.pc) && CanAct(universe, table, run, a)
    requires a.SubmitCheck? || a.UpdateCheck?
    ensures
      var o := Act(universe, table, file, r, run, a);
      o.table == table && PcOk(universe, table, o.run.pc)
  {
    hide Covered, Closed, BatchCommitted, EntriesIngested, Minted, TableOk, OwnsTable, Recording, CommittedVersion;
    NothingHeldIsOk(universe, table);
  }

  lemma WaitingIsOk(universe: set<FileInfo>, table: Table, file: OwnerFile, r: TableOwner, run: Run, a: Action)
    requires TableOk(universe, table) && PcOk(universe, table, run.pc) && CanAct(universe, table, run, a)
    requires a.SecondCheck? || a.GiveUp?
    ensures
      var o := Act(universe, table, file, r, run, a);
      o.table == table && PcOk(universe, table, o.run.pc)
  {
    hide Covered, Closed, BatchCommitted, EntriesIngested, Minted, TableOk, OwnsTable, Recording, CommittedVersion;
    NothingHeldIsOk(universe, table);
  }

  lemma SucceededIsCommitted(universe: set<FileInfo>, table: Table, job: nat)
    requires TableOk(universe, table) && job in table.jobs && table.jobs[job].state.Succeeded?
    ensures BatchCommitted(table.log, table.jobs[job].token)
  {
    hide Covered, Closed, BatchCommitted, EntriesIngested, Minted, CommitsAreBatches, SourcesAreIngested, BatchesAreClosed;
  }

  /** What a run waiting for its job holds. */
  lemma WaitingHolds(universe: set<FileInfo>, table: Table, pc: Pc)
    requires PcOk(universe, table, pc) && (pc.Polling? || pc.Cancelling?)
    ensures Minted(table, pc.pending) && pc.job in table.jobs && table.jobs[pc.job].token == pc.pending.token
  {
    hide Covered, Closed, BatchCommitted, EntriesIngested, Minted;
  }

  lemma EndedPcIsOk(universe: set<FileInfo>, table: Table, p: PendingBatch)
    requires Minted(table, p)
    ensures PcOk(universe, table, Submitting(p)) && PcOk(universe, table, Stopped)
    ensures BatchCommitted(table.log, p.token) ==> PcOk(universe, table, Updating(p))
  {
    hide Covered, Closed, BatchCommitted, EntriesIngested, Minted;
    NothingHeldIsOk(universe, table);
  }

  lemma EndedJobIsOk(universe: set<FileInfo>, table: Table, file: OwnerFile, r: TableOwner, run: Run, a: Action)
    requires TableOk(universe, table) && PcOk(universe, table, run.pc) && CanAct(universe, table, run, a)
    requires a.Poll? || a.CancelOutcome?
    ensures
      var o := Act(universe, table, file, r, run, a);
      o.table == table && PcOk(universe, table, o.run.pc)
  {
    hide PcOk, TableOk, BatchCommitted, Minted;
    WaitingHolds(universe, table, run.pc);
    EndedPcIsOk(universe, table, run.pc.pending);
    if table.jobs[run.pc.job].state.Succeeded? {
      SucceededIsCommitted(universe, table, run.pc.job);
    }
  }

  lemma UpdatingIsOk(universe: set<FileInfo>, table: Table, file: OwnerFile, r: TableOwner, run: Run, a: Action)
    requires TableOk(universe, table) && PcOk(universe, table, run.pc) && CanAct(universe, table, run, a)
    requires a.UpdateReadVersion?
    ensures
      var o := Act(universe, table, file, r, run, a);
      o.table == table && PcOk(universe, table, o.run.pc)
  {
    hide Covered, Closed, EntriesIngested, TableOk, Recording, CommittedVersion;
    RecordingCommittedBatchIsOk(
      universe, table, run.pc.pending.token, table.batches[run.pc.pending.token], run.pc.current,
      CommittedVersion(table.log, run.pc.pending, a.readable), Loop);
  }

  lemma ReadingActionIsOk(universe: set<FileInfo>, table: Table, file: OwnerFile, r: TableOwner, run: Run, a: Action)
    requires TableOk(universe, table) && PcOk(universe, table, run.pc) && CanAct(universe, table, run, a)
    requires PathKeyed(universe)
    requires OnlyReads(a)
    ensures
      var o := Act(universe, table, file, r, run, a);
      o.table == table && PcOk(universe, table, o.run.pc)
  {
    hide PcOk, TableOk, Act, CanAct, PathKeyed;
    if a.ListOrphans? || a.Settle? || a.ListLog? || a.SkipAdoption? || a.SwallowFailure? {
      SettlingIsOk(universe, table, file, r, run, a);
    } else if a.ReadWatermark? || a.BeginReadWatermark? || a.UpdateReadWatermark? {
      ReadingWatermarkIsOk(universe, table, file, r, run, a);
    } else if a.ReadPending? {
      ReadingPendingIsOk(universe, table, file, r, run, a);
    } else if a.Adopt? {
      AdoptingIsOk(universe, table, file, r, run, a);
    } else if a.Discover? {
      DiscoveringIsOk(universe, table, file, r, run, a);
    } else if a.BeginCheck? || a.BeginReadVersion? {
      BeginningIsOk(universe, table, file, r, run, a);
    } else if a.SubmitCheck? || a.UpdateCheck? {
      CheckingIsOk(universe, table, file, r, run, a);
    } else if a.SecondCheck? || a.GiveUp? {
      WaitingIsOk(universe, table, file, r, run, a);
    } else if a.Poll? || a.CancelOutcome? {
      EndedJobIsOk(universe, table, file, r, run, a);
    } else {
      UpdatingIsOk(universe, table, file, r, run, a);
    }
  }

  lemma NothingHeldIsOk(universe: set<FileInfo>, table: Table)
    ensures Covered(universe, table.log, None)
    ensures EntriesIngested(table.log, [])
  {}

  // ---- Actions that write the storage ---------------------------------------------------------

  /** Writing a position or deleting the pending record keeps everything else. */
  lemma WatermarkWriteIsOk(universe: set<FileInfo>, table: Table, w: Watermark)
    requires TableOk(universe, table) && Covered(universe, table.log, w.modifiedTime)
    ensures
      var t := table.(watermark := Some(w));
      TableOk(universe, t) && Extends(table, t)
  {
    hide Covered, Closed, BatchCommitted, EntriesIngested;
  }

  lemma SourcesWriteIsOk(universe: set<FileInfo>, table: Table, sources: map<int, seq<(string, int)>>)
    requires TableOk(universe, table)
    requires forall b :: b in sources ==> EntriesIngested(table.log, sources[b])
    ensures
      var t := table.(sources := sources);
      TableOk(universe, t) && Extends(table, t)
  {
    hide Covered, Closed, BatchCommitted, EntriesIngested;
  }

  lemma PendingWriteIsOk(universe: set<FileInfo>, table: Table, p: PendingBatch, batch: seq<FileInfo>)
    requires TableOk(universe, table) && Closed(universe, table.log, batch)
    requires p.token !in table.batches && p.files == Entries(batch)
    ensures
      var t := table.(pending := Some(p), batches := table.batches[p.token := batch]);
      TableOk(universe, t) && Extends(table, t) && Minted(t, p)
  {
    hide Covered, Closed, BatchCommitted, EntriesIngested, Entries;
  }

  lemma SubmitIsOk(universe: set<FileInfo>, table: Table, r: TableOwner, p: PendingBatch, job: nat)
    requires TableOk(universe, table) && p.token in table.batches && job !in table.jobs
    ensures
      var t := table.(jobs := table.jobs[job := Job(r, p.token, table.batches[p.token], Running)]);
      TableOk(universe, t) && Extends(table, t)
  {
    hide Covered, Closed, BatchCommitted, EntriesIngested;
  }

  lemma PendingDeleteIsOk(universe: set<FileInfo>, table: Table)
    requires TableOk(universe, table)
    ensures TableOk(universe, table.(pending := None)) && Extends(table, table.(pending := None))
    ensures Extends(table, table)
  {
    hide Covered, Closed, BatchCommitted, EntriesIngested;
  }

  lemma StoringIsOk(universe: set<FileInfo>, table: Table, file: OwnerFile, r: TableOwner, run: Run, a: Action)
    requires TableOk(universe, table) && PcOk(universe, table, run.pc) && CanAct(universe, table, run, a)
    requires a.WriteFinal? || a.WriteWatermark? || a.DeletePending?
    ensures
      var o := Act(universe, table, file, r, run, a);
      TableOk(universe, o.table) && Extends(table, o.table) && PcOk(universe, table, o.run.pc)
  {
    hide Covered, Closed, BatchCommitted, EntriesIngested, TableOk, Extends, Minted;
    NothingHeldIsOk(universe, table);
    PendingDeleteIsOk(universe, table);
    var pc := run.pc;
    if a.WriteFinal? {
      WatermarkWriteIsOk(universe, table, pc.adoptFrom.(deltaVersion := Some(|pc.snapshot.history| - 1)));
    } else if a.WriteWatermark? {
      WatermarkWriteIsOk(universe, table, pc.record.next);
    }
  }

  lemma RecordingSourcesIsOk(universe: set<FileInfo>, table: Table, file: OwnerFile, r: TableOwner, run: Run, a: Action)
    requires TableOk(universe, table) && PcOk(universe, table, run.pc) && CanAct(universe, table, run, a)
    requires a.WriteSources? || a.CleanSources?
    ensures
      var o := Act(universe, table, file, r, run, a);
      TableOk(universe, o.table) && Extends(table, o.table) && PcOk(universe, table, o.run.pc)
  {
    hide Covered, Closed, BatchCommitted, EntriesIngested, CommitsAreBatches, JobsAreBatches,
         BatchesAreClosed, Minted, Extends;
    NothingHeldIsOk(universe, table);
    SourcesWriteIsOk(universe, table, Act(universe, table, file, r, run, a).table.sources);
  }

  lemma OpeningBatchIsOk(universe: set<FileInfo>, table: Table, file: OwnerFile, r: TableOwner, run: Run, a: Action)
    requires TableOk(universe, table) && PcOk(universe, table, run.pc) && CanAct(universe, table, run, a)
    requires a.WritePending? || a.Submit?
    ensures
      var o := Act(universe, table, file, r, run, a);
      TableOk(universe, o.table) && Extends(table, o.table) && PcOk(universe, o.table, o.run.pc)
  {
    hide Covered, Closed, BatchCommitted, EntriesIngested, TableOk, Extends, Minted;
    var o := Act(universe, table, file, r, run, a);
    NothingHeldIsOk(universe, o.table);
    if a.WritePending? {
      PendingWriteIsOk(universe, table, NewPending(a.token, run.pc), run.pc.batch);
    } else {
      SubmitIsOk(universe, table, r, run.pc.pending, a.job);
      MintedKeptBySubmit(table, o.table, run.pc.pending);
    }
  }

  lemma MintedKeptBySubmit(a: Table, b: Table, p: PendingBatch)
    requires a.batches == b.batches && Minted(a, p)
    ensures Minted(b, p)
  {}

  lemma ActionIsOk(universe: set<FileInfo>, table: Table, file: OwnerFile, r: TableOwner, run: Run, a: Action)
    requires PathKeyed(universe)
    requires TableOk(universe, table) && PcOk(universe, table, run.pc) && CanAct(universe, table, run, a)
    ensures
      var o := Act(universe, table, file, r, run, a);
      TableOk(universe, o.table) && Extends(table, o.table) && PcOk(universe, o.table, o.run.pc)
  {
    hide PcOk, TableOk, Act, CanAct, PathKeyed;
    var o := Act(universe, table, file, r, run, a);
    if OnlyReads(a) {
      ReadingActionIsOk(universe, table, file, r, run, a);
    } else if a.WritePending? || a.Submit? {
      OpeningBatchIsOk(universe, table, file, r, run, a);
    } else {
      if a.WriteSources? || a.CleanSources? {
        RecordingSourcesIsOk(universe, table, file, r, run, a);
      } else {
        StoringIsOk(universe, table, file, r, run, a);
      }
      PcGrows(universe, table, o.table, o.run.pc);
    }
  }

  // ---- The environment ------------------------------------------------------------------------

  lemma CommitKeepsTable(universe: set<FileInfo>, a: Table, b: Table, c: Commit)
    requires TableOk(universe, a)
    requires b == a.(log := a.log.(history := a.log.history + [c]), jobs := b.jobs)
    requires c.batch == None ==> c.files == []
    requires forall t :: c.batch == Some(t) ==> t in a.batches && c.files == a.batches[t]
    requires forall t :: c.Carries(t) ==> BatchCommitted(b.log, t)
    requires forall j :: j in b.jobs <==> j in a.jobs
    requires forall j :: j in a.jobs ==> b.jobs[j].token == a.jobs[j].token && b.jobs[j].files == a.jobs[j].files
    requires forall j :: j in a.jobs && b.jobs[j].state.Succeeded? ==>
      a.jobs[j].state.Succeeded? || c.batch == Some(a.jobs[j].token)
    ensures TableOk(universe, b) && Extends(a, b)
  {
    hide Covered, Closed, EntriesIngested;
    CoveredGrows(universe, a.log, b.log, TimeOf(a.watermark));
    forall t | t in b.batches ensures Closed(universe, b.log, b.batches[t]) {
      ClosedGrows(universe, a.log, b.log, a.batches[t]);
    }
    forall s | s in b.sources ensures EntriesIngested(b.log, b.sources[s]) {
      EntriesGrow(a.log, b.log, a.sources[s]);
    }
    assert b.log.history[|a.log.history|] == c;
    CommitsStayBatches(a, b, c);
    JobsStayBatches(a, b, c);
  }

  lemma CommitsStayBatches(a: Table, b: Table, c: Commit)
    requires CommitsAreBatches(a)
    requires b == a.(log := a.log.(history := a.log.history + [c]), jobs := b.jobs)
    requires c.batch == None ==> c.files == []
    requires forall t :: c.batch == Some(t) ==> t in a.batches && c.files == a.batches[t]
    requires forall t :: c.Carries(t) ==> BatchCommitted(b.log, t)
    ensures CommitsAreBatches(b)
  {
    hide BatchCommitted;
    forall i, t | 0 <= i < |b.log.history| && b.log.history[i].Carries(t) ensures BatchCommitted(b.log, t) {
      if i < |a.log.history| {
        assert a.log.history[i].Carries(t);
        CommittedGrows(a.log, b.log, t);
      }
    }
  }

  lemma JobsStayBatches(a: Table, b: Table, c: Commit)
    requires JobsAreBatches(a) && a.batches == b.batches
    requires b.log.history == a.log.history + [c]
    requires forall j :: j in b.jobs <==> j in a.jobs
    requires forall j :: j in a.jobs ==> b.jobs[j].token == a.jobs[j].token && b.jobs[j].files == a.jobs[j].files
    requires forall j :: j in a.jobs && b.jobs[j].state.Succeeded? ==>
      a.jobs[j].state.Succeeded? || c.batch == Some(a.jobs[j].token)
    ensures JobsAreBatches(b)
  {
    forall j | j in b.jobs && b.jobs[j].state.Succeeded? ensures BatchCommitted(b.log, b.jobs[j].token) {
      if a.jobs[j].state.Succeeded? {
        CommittedGrows(a.log, b.log, a.jobs[j].token);
      } else {
        assert b.log.history[|a.log.history|] == c;
      }
    }
  }

  /** Carried-forward configuration names a token some batch committed. */
  lemma ForeignCarriesCommittedToken(table: Table, c: Commit, t: nat)
    requires CommitsAreBatches(table)
    requires c.parameterToken == None
    requires c.metadata == TableConfiguration(table.log.history, |table.log.history|) && c.Carries(t)
    ensures BatchCommitted(table.log, t)
  {
    var v := ConfigurationHasSource(table.log.history, |table.log.history|);
    assert table.log.history[v].Carries(t);
  }

  lemma EnvIsOk(universe: set<FileInfo>, table: Table, e: Env)
    requires TableOk(universe, table) && CanHappen(table, e)
    ensures TableOk(universe, Happen(table, e)) && Extends(table, Happen(table, e))
  {
    hide Covered, Closed, EntriesIngested, TableConfiguration;
    var b := Happen(table, e);
    match e
    case JobCommits(job, addsData, namesToken) =>
      var c := BatchCommit(table.jobs[job], addsData, namesToken);
      assert b.log.history[|table.log.history|] == c;
      CommitKeepsTable(universe, table, b, c);
    case OtherCommit(setsMetadata, scopeEngine, addsData) =>
      var c := ForeignCommit(table.log, setsMetadata, scopeEngine, addsData);
      forall t | c.Carries(t) ensures BatchCommitted(b.log, t) {
        ForeignCarriesCommittedToken(table, c, t);
        CommittedGrows(table.log, b.log, t);
      }
      CommitKeepsTable(universe, table, b, c);
    case JobFails(_) =>
    case TakeCheckpoint => SameHistoryIsOk(universe, table, b);
    case CleanLog(_) => SameHistoryIsOk(universe, table, b);
  }

  lemma SameHistoryIsOk(universe: set<FileInfo>, a: Table, b: Table)
    requires TableOk(universe, a) && b == a.(log := b.log) && b.log.history == a.log.history
    ensures TableOk(universe, b) && Extends(a, b)
  {
    hide Covered, Closed, EntriesIngested, BatchCommitted;
    CoveredGrows(universe, a.log, b.log, TimeOf(a.watermark));
    forall t | t in b.batches ensures Closed(universe, b.log, b.batches[t]) {
      ClosedGrows(universe, a.log, b.log, a.batches[t]);
    }
    forall s | s in b.sources ensures EntriesIngested(b.log, b.sources[s]) {
      EntriesGrow(a.log, b.log, a.sources[s]);
    }
    forall t | BatchCommitted(a.log, t) ensures BatchCommitted(b.log, t) {
      CommittedGrows(a.log, b.log, t);
    }
  }

  // ---- Every run of the system ----------------------------------------------------------------

  lemma StepIsSafe(universe: set<FileInfo>, s: State, e: Protocol.Event)
    requires PathKeyed(universe) && Safe(universe, s) && Protocol.Enabled(universe, s, e)
    ensures Safe(universe, Protocol.Step(universe, s, e))
  {
    hide PcOk, TableOk, Act, CanAct, PathKeyed, Happen, CanHappen, Extends, Owner.Step;
    var t := Protocol.Step(universe, s, e);
    NoStorageChange(universe, s.table);
    match e
    case RunActs(run, action) =>
      ActionIsOk(universe, s.table, s.claims.file, run, s.runs[run], action);
      RunStepIsSafe(universe, s, t, run);
    case Happens(env) =>
      EnvIsOk(universe, s.table, env);
      forall q | q in t.runs ensures PcOk(universe, t.table, t.runs[q].pc) {
        PcGrows(universe, s.table, t.table, s.runs[q].pc);
      }
    case ClaimEvent(_, _) =>
    case StartRun(run) => RunStepIsSafe(universe, s, t, run);
    case ClaimDone(run) => RunStepIsSafe(universe, s, t, run);
    case Crash(run) => RunStepIsSafe(universe, s, t, run);
  }

  lemma NoStorageChange(universe: set<FileInfo>, table: Table)
    ensures Extends(table, table)
    ensures PcOk(universe, table, Claiming) && PcOk(universe, table, ListingOrphans)
    ensures PcOk(universe, table, Stopped) && PcOk(universe, table, Crashed)
  {}

  lemma InitialIsSafe(universe: set<FileInfo>, s: State)
    requires InitialState(s)
    ensures Safe(universe, s)
  {}

  lemma {:induction false} EveryStateIsSafe(universe: set<FileInfo>, init: State, events: seq<Protocol.Event>, s: State)
    requires PathKeyed(universe) && InitialState(init) && Protocol.Reaches(universe, init, events, s)
    ensures Safe(universe, s)
    decreases |events|
  {
    hide Safe, InitialState, Protocol.Enabled, Protocol.Step, PathKeyed;
    if events == [] {
      InitialIsSafe(universe, s);
    } else {
      var n := |events| - 1;
      var u :| Protocol.Reaches(universe, init, events[..n], u) && Protocol.Enabled(universe, u, events[n])
               && Protocol.Step(universe, u, events[n]) == s;
      EveryStateIsSafe(universe, init, events[..n], u);
      StepIsSafe(universe, u, events[n]);
    }
  }

  /** Every file at or below the persisted watermark is in some commit, whatever the interleaving. */
  lemma NoFileIsLost(universe: set<FileInfo>, init: State, events: seq<Protocol.Event>, s: State, f: FileInfo)
    requires PathKeyed(universe) && InitialState(init) && Protocol.Reaches(universe, init, events, s)
    requires f in universe && s.table.watermark.Some? && s.table.watermark.value.modifiedTime.Some?
    requires f.modificationTime <= s.table.watermark.value.modifiedTime.value
    ensures exists i :: 0 <= i < |s.table.log.history| && f in s.table.log.history[i].files
  {
    EveryStateIsSafe(universe, init, events, s);
    assert InLog(s.table.log, f);
  }

  /** Every file recorded under `_checkpoint/sources/` is in some commit. */
  lemma AuditTrailIsIngested(
    universe: set<FileInfo>, init: State, events: seq<Protocol.Event>, s: State, batchId: int, entry: (string, int))
    requires PathKeyed(universe) && InitialState(init) && Protocol.Reaches(universe, init, events, s)
    requires batchId in s.table.sources && entry in s.table.sources[batchId]
    ensures exists i, f :: 0 <= i < |s.table.log.history| && f in s.table.log.history[i].files
                           && (f.path, f.modificationTime) == entry
  {
    EveryStateIsSafe(universe, init, events, s);
    assert EntryIngested(s.table.log, entry);
    var f :| InLog(s.table.log, f) && (f.path, f.modificationTime) == entry;
  }
}
