/**
 * With one live run at a time, crashes after any step included: every file at or below the watermark is
 * in exactly one commit, and whenever a run is about to discover, no file above it is in any.
 */
module ExactlyOnce {
  import opened Files
  import opened CheckpointRecords
  import opened FileTracker
  import opened Adoption
  import opened DeltaLog
  import opened Owner
  import opened Protocol
  import opened NoLoss

  // ---- Schedules ------------------------------------------------------------------------------

  ghost predicate NoneLive(s: State) {
    forall r :: r in s.runs ==> !s.runs[r].Live()
  }

  /** `s` is reached by events that start a run only while none is live. */
  ghost predicate SoloReaches(universe: set<FileInfo>, init: State, events: seq<Protocol.Event>, s: State) {
    if events == [] then s == init
    else
      var n := |events| - 1;
      exists u :: SoloReaches(universe, init, events[..n], u) && Protocol.Enabled(universe, u, events[n])
                  && (events[n].StartRun? ==> NoneLive(u)) && Protocol.Step(universe, u, events[n]) == s
  }

  lemma {:induction false} SoloIsReachable(universe: set<FileInfo>, init: State, events: seq<Protocol.Event>, s: State)
    requires SoloReaches(universe, init, events, s)
    ensures Protocol.Reaches(universe, init, events, s)
    decreases |events|
  {
    hide Protocol.Enabled, Protocol.Step;
    if events != [] {
      var n := |events| - 1;
      var u :| SoloReaches(universe, init, events[..n], u) && Protocol.Enabled(universe, u, events[n])
               && (events[n].StartRun? ==> NoneLive(u)) && Protocol.Step(universe, u, events[n]) == s;
      SoloIsReachable(universe, init, events[..n], u);
    }
  }

  // ---- What the storage keeps -----------------------------------------------------------------

  /** The stored pending batch starts from the stored watermark. */
  predicate Open(table: Table) {
    table.pending.Some? && table.pending.value.AppliesTo(table.watermark)
  }

  predicate Recorded(table: Table, f: FileInfo) {
    TimeOf(table.watermark).Some? && f.modificationTime <= TimeOf(table.watermark).value
  }

  ghost predicate NoRunning(table: Table) {
    forall j :: j in table.jobs ==> !table.jobs[j].state.Running?
  }

  /** No commit holds a file above the watermark. */
  ghost predicate Clean(table: Table) {
    forall i, f :: 0 <= i < |table.log.history| && f in table.log.history[i].files ==> Recorded(table, f)
  }

  ghost predicate CommitsAreDisjoint(log: Log) {
    && (forall i :: 0 <= i < |log.history| ==> DistinctPaths(log.history[i].files))
    && (forall i, j, f :: 0 <= i < j < |log.history| && f in log.history[i].files ==> f !in log.history[j].files)
  }

  /** Only the open batch's commit may hold files above the watermark. */
  ghost predicate OnlyOpenIsUnrecorded(table: Table) {
    forall i, f :: 0 <= i < |table.log.history| && f in table.log.history[i].files ==>
      Recorded(table, f) || (Open(table) && table.log.history[i].batch == Some(table.pending.value.token))
  }

  ghost predicate OpenIsWindow(universe: set<FileInfo>, table: Table) {
    Open(table) ==>
      && table.pending.value.token in table.batches
      && IsWindow(universe, TimeOf(table.watermark), table.batches[table.pending.value.token])
  }

  /** The one running job belongs to the open batch, which has not committed. */
  ghost predicate RunningIsOpen(table: Table) {
    && (forall j :: j in table.jobs && table.jobs[j].state.Running? ==>
          Open(table) && table.jobs[j].token == table.pending.value.token
          && !BatchCommitted(table.log, table.pending.value.token))
    && (forall j, k :: j in table.jobs && k in table.jobs && table.jobs[j].state.Running? && table.jobs[k].state.Running? ==>
          j == k)
  }

  /** The open batch commits after the version it recorded, and no batch commits after it. */
  ghost predicate OpenCommitsLast(table: Table) {
    Open(table) ==>
      && -1 <= table.pending.value.deltaVersionBefore < |table.log.history|
      && (forall v :: 0 <= v <= table.pending.value.deltaVersionBefore ==>
            table.log.history[v].batch != Some(table.pending.value.token))
      && (forall i, j :: 0 <= i < j < |table.log.history| && table.log.history[i].batch == Some(table.pending.value.token) ==>
            table.log.history[j].batch == None)
  }

  /** Batch commits set their token, other commits carry the configuration forward. */
  ghost predicate LogShape(history: seq<Commit>) {
    forall i :: 0 <= i < |history| ==> CommitShape(history, i)
  }

  ghost predicate CommitShape(history: seq<Commit>, i: nat)
    requires i < |history|
  {
    var c := history[i];
    if c.batch.Some?
    then c.metadata == Some(Some(c.batch.value)) && (c.parameterToken == None || c.parameterToken == c.batch)
    else c.parameterToken == None && (c.metadata.Some? ==>
      c.metadata == if TableConfiguration(history, i).Some? then TableConfiguration(history, i) else Some(None))
  }

  ghost predicate Ledger(universe: set<FileInfo>, table: Table) {
    && CommitsAreDisjoint(table.log)
    && OnlyOpenIsUnrecorded(table)
    && OpenIsWindow(universe, table)
    && RunningIsOpen(table)
    && OpenCommitsLast(table)
    && LogShape(table.log.history)
    && ValidLog(table.log)
  }

  // ---- What the live run holds ----------------------------------------------------------------

  /** Between settling the orphans and submitting, and after its job ended, a live run knows of no running job. */
  predicate KnowsNoRunning(pc: Pc) {
    && !pc.Claiming? && !pc.ListingOrphans? && !pc.Settling? && !pc.Submitted? && !pc.Polling? && !pc.Cancelling?
    && !pc.Stopped? && !pc.Crashed?
  }

  predicate KnowsClean(pc: Pc) {
    || pc.Adopting? || pc.WritingFinal? || pc.WritingSources? || pc.CleaningSources? || pc.DeletingPending?
    || pc.Discovering? || pc.BatchChosen? || pc.BatchOwned? || pc.BatchRead? || pc.BatchVersioned?
  }

  /** The watermark a run believes is stored. */
  function Believed(pc: Pc): Option<Option<Watermark>> {
    match pc
    case ListingLog(current) => Some(current)
    case ReadingPending(current, _) => Some(current)
    case Adopting(current, _) => Some(Some(current))
    case WritingFinal(current, _) => Some(Some(current))
    case WritingSources(record) => Some(Some(record.next))
    case CleaningSources(record) => Some(Some(record.next))
    case DeletingPending(current, _) => Some(current)
    case BatchRead(_, current) => Some(current)
    case BatchVersioned(_, current, _) => Some(current)
    case UpdateRead(_, current) => Some(current)
    case _ => None
  }

  ghost predicate NoOwnJobs(table: Table, r: TableOwner) {
    forall j :: j in table.jobs ==> table.jobs[j].run != r
  }

  ghost predicate OrphansListed(table: Table, run: Run) {
    run.listing.Some? && forall j :: j in table.jobs && table.jobs[j].state.Running? ==> j in run.listing.value.orphans
  }

  /** The listed log already holds every batch commit. */
  ghost predicate SnapshotIsCurrent(table: Table, snapshot: Log) {
    ValidLog(snapshot) && forall t :: BatchCommitted(table.log, t) ==> BatchCommitted(snapshot, t)
  }

  /** The record about to be written is the open, committed batch. */
  ghost predicate RecordsOpen(table: Table, record: Record) {
    && Open(table) && table.pending.value.token in table.batches
    && table.batches[table.pending.value.token] != []
    && BatchCommitted(table.log, table.pending.value.token)
    && record.next.modifiedTime == Some(MaxTime(table.batches[table.pending.value.token]))
    && !record.next.SamePosition(table.watermark)
    && !record.after.Final?
  }

  ghost predicate OwnJob(table: Table, token: nat, job: nat) {
    && job in table.jobs && table.jobs[job].token == token
    && (forall k :: k in table.jobs && table.jobs[k].state.Running? ==> k == job)
    && (BatchCommitted(table.log, token) <==> table.jobs[job].state.Succeeded?)
  }

  ghost predicate LiveOk(universe: set<FileInfo>, table: Table, r: TableOwner, run: Run) {
    var pc := run.pc;
    && (pc.Claiming? || pc.ListingOrphans? ==> NoOwnJobs(table, r))
    && (pc.Settling? ==> OrphansListed(table, run))
    && (KnowsNoRunning(pc) ==> NoRunning(table))
    && (KnowsClean(pc) ==> Clean(table))
    && (Believed(pc).Some? ==> Believed(pc).value == table.watermark)
    && (pc.ReadingPending? ==> SnapshotIsCurrent(table, pc.snapshot))
    && (pc.WritingWatermark? ==> RecordsOpen(table, pc.record))
    && (pc.WritingSources? || pc.CleaningSources? ==> !pc.record.after.Final?)
    && (BatchHeld(pc).Some? ==> IsWindow(universe, TimeOf(table.watermark), BatchHeld(pc).value))
    && (pc.BatchVersioned? ==> -1 <= pc.version < |table.log.history|)
    && (PendingHeld(pc).Some? ==> Open(table) && table.pending == PendingHeld(pc))
    && (pc.Submitting? || pc.SubmitOwned? ==> !BatchCommitted(table.log, pc.pending.token))
    && (JobHeld(pc).Some? ==> OwnJob(table, PendingHeld(pc).value.token, JobHeld(pc).value))
  }

  ghost predicate Solo(universe: set<FileInfo>, s: State) {
    && Safe(universe, s)
    && Ledger(universe, s.table)
    && (forall j :: j in s.table.jobs ==> s.table.jobs[j].run in s.runs)
    && (forall q, r :: q in s.runs && r in s.runs && s.runs[q].Live() && s.runs[r].Live() ==> q == r)
    && (forall r :: r in s.runs && s.runs[r].Live() ==> LiveOk(universe, s.table, r, s.runs[r]))
  }

  // ---- The token search decides whether the open batch committed -------------------------------

  lemma {:induction false} CarriedTokenHasBatch(history: seq<Commit>, i: nat, t: nat) returns (k: nat)
    requires LogShape(history) && i < |history| && history[i].Carries(t)
    ensures k <= i && history[k].batch == Some(t)
    decreases i
  {
    assert CommitShape(history, i);
    if history[i].batch.Some? {
      k := i;
    } else {
      var v := ConfigurationHasSource(history, i);
      k := CarriedTokenHasBatch(history, v, t);
    }
  }

  lemma {:induction false} ConfigurationStays(history: seq<Commit>, k: nat, n: nat, t: nat)
    requires LogShape(history) && k < n <= |history| && history[k].batch == Some(t)
    requires forall j :: k < j < n ==> history[j].batch == None
    ensures TableConfiguration(history, n) == Some(Some(t))
    decreases n
  {
    assert CommitShape(history, n - 1);
    if n - 1 > k {
      ConfigurationStays(history, k, n - 1, t);
    }
  }

  lemma OpenTokenIsKept(universe: set<FileInfo>, table: Table)
    requires Ledger(universe, table) && Open(table)
    ensures TokenKept(table.log.history, table.pending.value.token)
    ensures forall v :: 0 <= v <= table.pending.value.deltaVersionBefore && v < |table.log.history| ==>
      !table.log.history[v].Carries(table.pending.value.token)
  {
    hide CommitsAreDisjoint, OnlyOpenIsUnrecorded, OpenIsWindow, RunningIsOpen;
    var history, t := table.log.history, table.pending.value.token;
    forall i, j | 0 <= i <= j < |history| && history[i].Carries(t)
      ensures history[i].metadata.Some?
      ensures history[j].metadata.Some? ==> history[j].metadata == Some(Some(t))
    {
      var k := CarriedTokenHasBatch(history, i, t);
      assert CommitShape(history, i) && CommitShape(history, j);
      if j > k {
        ConfigurationStays(history, k, j, t);
      }
    }
    forall v | 0 <= v <= table.pending.value.deltaVersionBefore && v < |history| ensures !history[v].Carries(t) {
      if history[v].Carries(t) {
        var k := CarriedTokenHasBatch(history, v, t);
      }
    }
  }

  lemma SearchDecidesOpenBatch(universe: set<FileInfo>, table: Table, snapshot: Log)
    requires Ledger(universe, table) && Open(table)
    requires snapshot.history <= table.log.history && SnapshotIsCurrent(table, snapshot)
    ensures
      var p := table.pending.value;
      FindTokenVersion(snapshot, p.token, p.deltaVersionBefore).Some? <==> BatchCommitted(table.log, p.token)
  {
    hide FindTokenVersion, TableConfiguration, CommitsAreDisjoint, OnlyOpenIsUnrecorded, OpenIsWindow, RunningIsOpen, ValidLog;
    var p := table.pending.value;
    OpenTokenIsKept(universe, table);
    assert TokenKept(snapshot.history, p.token);
    TokenSearchIsExact(snapshot, p.token, p.deltaVersionBefore);
    if BatchCommitted(table.log, p.token) {
      assert BatchCommitted(snapshot, p.token);
      var k :| 0 <= k < |snapshot.history| && snapshot.history[k].batch == Some(p.token);
      assert table.log.history[k] == snapshot.history[k];
      assert CommitShape(table.log.history, k);
      assert snapshot.history[k].Carries(p.token);
    }
    if CarriedAfter(snapshot.history, p.token, p.deltaVersionBefore) {
      var v :| p.deltaVersionBefore < v < |snapshot.history| && v >= 0 && snapshot.history[v].Carries(p.token);
      assert table.log.history[v].Carries(p.token);
      var k := CarriedTokenHasBatch(table.log.history, v, p.token);
    }
  }

  lemma UncommittedMeansClean(universe: set<FileInfo>, table: Table)
    requires Ledger(universe, table)
    requires Open(table) ==> !BatchCommitted(table.log, table.pending.value.token)
    ensures Clean(table)
  {
    hide LogShape, CommitsAreDisjoint, OpenIsWindow, RunningIsOpen, OpenCommitsLast;
  }

  // ---- Reading steps of the live run -----------------------------------------------------------

  lemma SettlingKeepsSolo(universe: set<FileInfo>, table: Table, file: OwnerFile, r: TableOwner, run: Run, a: Action)
    requires Ledger(universe, table) && LiveOk(universe, table, r, run) && CanAct(universe, table, run, a)
    requires a.ListOrphans? || a.Settle? || a.ReadWatermark?
    ensures
      var o := Act(universe, table, file, r, run, a);
      o.table == table && LiveOk(universe, table, r, o.run)
  {
    hide Ledger, Clean, RecordsOpen, SnapshotIsCurrent, IsWindow, Open, BatchCommitted, OwnJob;
  }

  lemma ListingLogKeepsSolo(universe: set<FileInfo>, table: Table, file: OwnerFile, r: TableOwner, run: Run, a: Action)
    requires Ledger(universe, table) && LiveOk(universe, table, r, run) && CanAct(universe, table, run, a)
    requires a.ListLog? || a.SkipAdoption?
    ensures
      var o := Act(universe, table, file, r, run, a);
      o.table == table && LiveOk(universe, table, r, o.run)
  {
    hide Clean, RecordsOpen, IsWindow, Open, BatchCommitted, OwnJob, NoRunning, OrphansListed, NoOwnJobs,
         CommitsAreDisjoint, OnlyOpenIsUnrecorded, OpenIsWindow, RunningIsOpen, OpenCommitsLast, LogShape, ValidLog;
  }

  lemma BeginningKeepsSolo(universe: set<FileInfo>, table: Table, file: OwnerFile, r: TableOwner, run: Run, a: Action)
    requires Ledger(universe, table) && LiveOk(universe, table, r, run) && CanAct(universe, table, run, a)
    requires a.BeginCheck? || a.BeginReadWatermark? || a.BeginReadVersion?
    ensures
      var o := Act(universe, table, file, r, run, a);
      o.table == table && LiveOk(universe, table, r, o.run)
  {
    hide Ledger, Clean, RecordsOpen, IsWindow, Open, BatchCommitted, OwnJob, NoRunning, OrphansListed, NoOwnJobs,
         SnapshotIsCurrent;
  }

  lemma CheckingKeepsSolo(universe: set<FileInfo>, table: Table, file: OwnerFile, r: TableOwner, run: Run, a: Action)
    requires Ledger(universe, table) && LiveOk(universe, table, r, run) && CanAct(universe, table, run, a)
    requires a.SubmitCheck? || a.UpdateCheck? || a.UpdateReadWatermark?
    ensures
      var o := Act(universe, table, file, r, run, a);
      o.table == table && LiveOk(universe, table, r, o.run)
  {
    hide Ledger, Clean, RecordsOpen, IsWindow, Open, BatchCommitted, OwnJob, NoRunning, OrphansListed, NoOwnJobs,
         SnapshotIsCurrent;
  }

  lemma WaitingKeepsSolo(universe: set<FileInfo>, table: Table, file: OwnerFile, r: TableOwner, run: Run, a: Action)
    requires Ledger(universe, table) && LiveOk(universe, table, r, run) && CanAct(universe, table, run, a)
    requires a.SecondCheck? || a.GiveUp?
    ensures
      var o := Act(universe, table, file, r, run, a);
      o.table == table && LiveOk(universe, table, r, o.run)
  {
    hide Ledger, Clean, RecordsOpen, IsWindow, Open, BatchCommitted, OwnJob, NoRunning, OrphansListed, NoOwnJobs,
         SnapshotIsCurrent;
  }

  lemma EndedJobKeepsSolo(universe: set<FileInfo>, table: Table, file: OwnerFile, r: TableOwner, run: Run, a: Action)
    requires Ledger(universe, table) && LiveOk(universe, table, r, run) && CanAct(universe, table, run, a)
    requires a.Poll? || a.CancelOutcome?
    ensures
      var o := Act(universe, table, file, r, run, a);
      o.table == table && LiveOk(universe, table, r, o.run)
  {
    hide Ledger, Clean, RecordsOpen, IsWindow, Open, BatchCommitted, OrphansListed, NoOwnJobs, SnapshotIsCurrent;
  }

  lemma UpdatingKeepsSolo(universe: set<FileInfo>, table: Table, file: OwnerFile, r: TableOwner, run: Run, a: Action)
    requires TableOk(universe, table) && PcOk(universe, table, run.pc)
    requires Ledger(universe, table) && LiveOk(universe, table, r, run) && CanAct(universe, table, run, a)
    requires a.UpdateReadVersion?
    ensures
      var o := Act(universe, table, file, r, run, a);
      o.table == table && LiveOk(universe, table, r, o.run)
  {
    hide Ledger, Clean, IsWindow, BatchCommitted, OwnJob, NoRunning, OrphansListed, NoOwnJobs,
         SnapshotIsCurrent, ComputeNewWatermark, CommittedVersion, MaxTime, Covered, EntriesIngested, InLog,
         CommitsAreBatches, JobsAreBatches, SourcesAreIngested, Entries, FindTokenVersion;
    var t := run.pc.pending.token;
    ClosedIsNonempty(universe, table.log, table.batches[t]);
    StoredBatchRecordsTheSame(table.batches[t], table.batches[t], run.pc.current);
  }

  lemma DiscoveringKeepsSolo(universe: set<FileInfo>, table: Table, file: OwnerFile, r: TableOwner, run: Run, a: Action)
    requires Ledger(universe, table) && LiveOk(universe, table, r, run) && CanAct(universe, table, run, a)
    requires a.Discover?
    ensures
      var o := Act(universe, table, file, r, run, a);
      o.table == table && LiveOk(universe, table, r, o.run)
  {
    hide Ledger, Clean, RecordsOpen, IsWindow, Open, BatchCommitted, OwnJob, NoRunning, OrphansListed, NoOwnJobs,
         SnapshotIsCurrent, NextBatch, FileTracker.Discover, CutKeepsTies, CompleteListing;
    var files := UnprocessedBy(a.listing, table.watermark, a.cutoff);
    var batch := NextBatch(files, a.maxFiles, a.maxBytes);
    NextBatchIsMaximal(files, a.maxFiles, a.maxBytes);
    if batch != [] {
      UncutPrefixIsWindow(universe, a.listing, TimeOf(table.watermark), a.cutoff, |batch|);
    }
  }

  lemma FoundPendingRecordsOpen(
    universe: set<FileInfo>, table: Table, snapshot: Log, version: Option<int>)
    requires TableOk(universe, table) && Ledger(universe, table) && Open(table)
    requires BatchCommitted(table.log, table.pending.value.token)
    ensures
      var record := Recording(Recovered(table.pending.value.files), table.watermark, version, Resume(snapshot)).record;
      RecordsOpen(table, record)
  {
    hide Ledger, BatchCommitted, ComputeNewWatermark, MaxTime, Covered, InLog, Recovered, CommitsAreBatches, JobsAreBatches;
    var p := table.pending.value;
    var batch := table.batches[p.token];
    ClosedIsNonempty(universe, table.log, batch);
    StoredBatchRecordsTheSame(batch, Recovered(p.files), table.watermark);
  }

  /** The search found the batch exactly when it committed; otherwise nothing above the watermark is in a commit. */
  lemma ReadingPendingKeepsSolo(universe: set<FileInfo>, table: Table, file: OwnerFile, r: TableOwner, run: Run, a: Action)
    requires TableOk(universe, table) && PcOk(universe, table, run.pc)
    requires Ledger(universe, table) && LiveOk(universe, table, r, run) && CanAct(universe, table, run, a)
    requires a.ReadPending?
    ensures
      var o := Act(universe, table, file, r, run, a);
      o.table == table && LiveOk(universe, table, r, o.run)
  {
    hide Ledger, Clean, RecordsOpen, IsWindow, BatchCommitted, OwnJob, NoRunning, OrphansListed, NoOwnJobs,
         SnapshotIsCurrent, FindTokenVersion, TableOk, Recovered, ComputeNewWatermark, Covered, EntriesIngested;
    var snapshot := run.pc.snapshot;
    if Open(table) {
      SearchDecidesOpenBatch(universe, table, snapshot);
      var p := table.pending.value;
      var version := FindTokenVersion(snapshot, p.token, p.deltaVersionBefore);
      if version.Some? {
        FoundPendingRecordsOpen(universe, table, snapshot, version);
      } else {
        UncommittedMeansClean(universe, table);
      }
    } else {
      UncommittedMeansClean(universe, table);
    }
  }

  lemma CleanMeansRecorded(table: Table, f: FileInfo)
    requires Clean(table) && InLog(table.log, f)
    ensures Recorded(table, f)
  {}

  /** With one run at a time, adoption finds nothing above the watermark to adopt. */
  lemma NothingToAdopt(
    universe: set<FileInfo>, table: Table, listing: seq<FileInfo>, cutoff: int, adopted: set<string>,
    current: Watermark, snapshot: Log, baseline: int)
    requires PathKeyed(universe) && CompleteListing(universe, listing)
    requires TableOk(universe, table) && Clean(table) && table.watermark == Some(current)
    requires snapshot.history <= table.log.history
    requires forall path :: path in adopted ==> IngestedAfter(snapshot, baseline, path)
    ensures AdoptablePrefix(UnprocessedBy(listing, Some(current), cutoff), adopted) == []
  {
    hide AdoptablePrefix, IngestedAfter, FileTracker.Discover, TableOk;
    var files := UnprocessedBy(listing, Some(current), cutoff);
    var prefix := AdoptablePrefix(files, adopted);
    DiscoverMembers(listing, current.modifiedTime, cutoff);
    if prefix != [] {
      AdoptedPrefixIsAdopted(files, adopted);
      CommittedFilesAreInUniverse(universe, table);
      var f := prefix[0];
      assert f in files && f.path in adopted;
      AdoptedFilesAreInLog(universe, table, snapshot, baseline, f);
      CleanMeansRecorded(table, f);
    }
  }

  lemma AdoptedPrefixIsAdopted(files: seq<FileInfo>, adopted: set<string>)
    requires Sorted(files)
    ensures forall f :: f in AdoptablePrefix(files, adopted) ==> f in files && f.path in adopted
  {
    hide AdoptablePrefix, MaxTime;
    var prefix := AdoptablePrefix(files, adopted);
    if prefix != [] {
      AdoptionIsLargestSafeCut(files, adopted, MaxTime(prefix));
    }
  }

  lemma AdoptingKeepsSolo(universe: set<FileInfo>, table: Table, file: OwnerFile, r: TableOwner, run: Run, a: Action)
    requires PathKeyed(universe) && TableOk(universe, table) && PcOk(universe, table, run.pc)
    requires Ledger(universe, table) && LiveOk(universe, table, r, run) && CanAct(universe, table, run, a)
    requires a.Adopt?
    ensures
      var o := Act(universe, table, file, r, run, a);
      o.table == table && LiveOk(universe, table, r, o.run)
  {
    hide Ledger, Clean, RecordsOpen, IsWindow, Open, BatchCommitted, OwnJob, NoRunning, OrphansListed, NoOwnJobs,
         SnapshotIsCurrent, AdoptablePrefix, FileTracker.Discover, IngestedAfter, TableOk, PathKeyed, CompleteListing;
    NothingToAdopt(universe, table, a.adoptListing, a.adoptCutoff, a.adopted, run.pc.adoptFrom, run.pc.snapshot,
                   Baseline(run.pc.adoptFrom, a.legacyBaseline));
  }

  /** With one run at a time adoption records nothing, so none of its recordings can raise. */
  lemma NothingIsSwallowed(universe: set<FileInfo>, table: Table, r: TableOwner, run: Run)
    requires LiveOk(universe, table, r, run)
    ensures !CanAct(universe, table, run, SwallowFailure)
  {
    hide Clean, IsWindow, Open, BatchCommitted, OwnJob, NoRunning, OrphansListed, NoOwnJobs, SnapshotIsCurrent;
  }

  // ---- Writing steps of the live run -----------------------------------------------------------

  lemma RecordingClosesBatch(universe: set<FileInfo>, table: Table, record: Record)
    requires TableOk(universe, table) && Ledger(universe, table) && RecordsOpen(table, record) && NoRunning(table)
    ensures
      var t := table.(watermark := Some(record.next));
      !Open(t) && Clean(t) && Ledger(universe, t)
  {
    hide LogShape, ValidLog, CommitsAreDisjoint, MaxTime, Covered, Closed, JobsAreBatches, BatchesAreClosed, SourcesAreIngested;
    var batch := table.batches[table.pending.value.token];
    var t := table.(watermark := Some(record.next));
    MaxTimeIsMaximum(batch);
    forall i, f | 0 <= i < |t.log.history| && f in t.log.history[i].files ensures Recorded(t, f) {
      if Recorded(table, f) {
        assert Eligible(batch[0], TimeOf(table.watermark), MaxTime(batch)) by { assert batch[0] in batch; }
      } else {
        assert f in batch;
      }
    }
  }

  lemma WritingWatermarkKeepsSolo(universe: set<FileInfo>, table: Table, file: OwnerFile, r: TableOwner, run: Run, a: Action)
    requires TableOk(universe, table)
    requires Ledger(universe, table) && LiveOk(universe, table, r, run) && CanAct(universe, table, run, a)
    requires a.WriteWatermark?
    ensures
      var o := Act(universe, table, file, r, run, a);
      Ledger(universe, o.table) && LiveOk(universe, o.table, r, o.run)
  {
    hide Ledger, Clean, IsWindow, Open, BatchCommitted, OwnJob, OrphansListed, NoOwnJobs, SnapshotIsCurrent, TableOk;
    RecordingClosesBatch(universe, table, run.pc.record);
  }

  lemma SameTimeKeepsClean(a: Table, b: Table)
    requires Clean(a) && b.log == a.log && TimeOf(b.watermark) == TimeOf(a.watermark)
    ensures Clean(b)
  {
    forall i, f | 0 <= i < |b.log.history| && f in b.log.history[i].files ensures Recorded(b, f) {
      assert Recorded(a, f);
    }
  }

  lemma SameTimeKeepsOnlyOpen(a: Table, b: Table)
    requires OnlyOpenIsUnrecorded(a) && b.log == a.log && TimeOf(b.watermark) == TimeOf(a.watermark)
    requires b.pending == a.pending && Open(b) == Open(a)
    ensures OnlyOpenIsUnrecorded(b)
  {
    forall i, f | 0 <= i < |b.log.history| && f in b.log.history[i].files && !Recorded(b, f)
      ensures Open(b) && b.log.history[i].batch == Some(b.pending.value.token)
    {
      assert !Recorded(a, f);
    }
  }

  lemma SamePositionKeepsLedger(universe: set<FileInfo>, table: Table, w: Watermark)
    requires Ledger(universe, table) && w.SamePosition(table.watermark)
    ensures
      var t := table.(watermark := Some(w));
      Ledger(universe, t) && (Clean(table) ==> Clean(t))
  {
    hide LogShape, ValidLog, CommitsAreDisjoint, IsWindow, BatchCommitted, Clean;
    var t := table.(watermark := Some(w));
    SameTimeKeepsOnlyOpen(table, t);
    if Clean(table) {
      SameTimeKeepsClean(table, t);
    }
  }

  lemma WritingFinalKeepsSolo(universe: set<FileInfo>, table: Table, file: OwnerFile, r: TableOwner, run: Run, a: Action)
    requires Ledger(universe, table) && LiveOk(universe, table, r, run) && CanAct(universe, table, run, a)
    requires a.WriteFinal?
    ensures
      var o := Act(universe, table, file, r, run, a);
      Ledger(universe, o.table) && LiveOk(universe, o.table, r, o.run)
  {
    hide Ledger, Clean, IsWindow, Open, BatchCommitted, OwnJob, OrphansListed, NoOwnJobs, SnapshotIsCurrent;
    SamePositionKeepsLedger(universe, table, run.pc.adoptFrom.(deltaVersion := Some(|run.pc.snapshot.history| - 1)));
  }

  lemma DroppingPendingKeepsLedger(universe: set<FileInfo>, table: Table)
    requires Ledger(universe, table) && Clean(table) && NoRunning(table)
    ensures
      var t := table.(pending := None);
      Ledger(universe, t) && Clean(t)
  {
    hide LogShape, ValidLog, CommitsAreDisjoint, IsWindow, BatchCommitted, Clean;
    SameTimeKeepsClean(table, table.(pending := None));
    CleanMeansOnlyOpen(table.(pending := None));
  }

  lemma CleanMeansOnlyOpen(table: Table)
    requires Clean(table)
    ensures OnlyOpenIsUnrecorded(table)
  {}

  lemma SourcesKeepLedger(universe: set<FileInfo>, table: Table, sources: map<int, seq<(string, int)>>)
    requires Ledger(universe, table) && Clean(table)
    ensures
      var t := table.(sources := sources);
      Ledger(universe, t) && Clean(t)
  {
    hide LogShape, ValidLog, CommitsAreDisjoint, IsWindow, BatchCommitted, Clean;
    SameTimeKeepsClean(table, table.(sources := sources));
    CleanMeansOnlyOpen(table.(sources := sources));
  }

  lemma StoringKeepsSolo(universe: set<FileInfo>, table: Table, file: OwnerFile, r: TableOwner, run: Run, a: Action)
    requires Ledger(universe, table) && LiveOk(universe, table, r, run) && CanAct(universe, table, run, a)
    requires a.WriteSources? || a.CleanSources?
    ensures
      var o := Act(universe, table, file, r, run, a);
      Ledger(universe, o.table) && LiveOk(universe, o.table, r, o.run)
  {
    hide Ledger, Clean, IsWindow, Open, BatchCommitted, OwnJob, OrphansListed, NoOwnJobs, SnapshotIsCurrent;
    SourcesKeepLedger(universe, table, Act(universe, table, file, r, run, a).table.sources);
  }

  lemma DeletingPendingKeepsSolo(universe: set<FileInfo>, table: Table, file: OwnerFile, r: TableOwner, run: Run, a: Action)
    requires Ledger(universe, table) && LiveOk(universe, table, r, run) && CanAct(universe, table, run, a)
    requires a.DeletePending?
    ensures
      var o := Act(universe, table, file, r, run, a);
      Ledger(universe, o.table) && LiveOk(universe, o.table, r, o.run)
  {
    hide Ledger, Clean, IsWindow, Open, BatchCommitted, OwnJob, OrphansListed, NoOwnJobs, SnapshotIsCurrent;
    DroppingPendingKeepsLedger(universe, table);
  }

  lemma FreshTokenIsUncommitted(table: Table, token: nat)
    requires CommitsAreBatches(table) && token !in table.batches
    ensures !BatchCommitted(table.log, token)
  {}

  lemma OpeningKeepsLedger(universe: set<FileInfo>, table: Table, p: PendingBatch, batch: seq<FileInfo>)
    requires CommitsAreBatches(table) && p.token !in table.batches
    requires Ledger(universe, table) && Clean(table) && NoRunning(table)
    requires IsWindow(universe, TimeOf(table.watermark), batch)
    requires p.watermarkBefore == table.watermark && -1 <= p.deltaVersionBefore < |table.log.history|
    ensures
      var t := table.(pending := Some(p), batches := table.batches[p.token := batch]);
      Open(t) && Ledger(universe, t) && !BatchCommitted(t.log, p.token)
  {
    hide LogShape, ValidLog, CommitsAreDisjoint, IsWindow, Clean;
    var t := table.(pending := Some(p), batches := table.batches[p.token := batch]);
    SameTimeKeepsClean(table, t);
    CleanMeansOnlyOpen(t);
    FreshTokenIsUncommitted(table, p.token);
  }

  lemma WritingPendingKeepsSolo(universe: set<FileInfo>, table: Table, file: OwnerFile, r: TableOwner, run: Run, a: Action)
    requires TableOk(universe, table)
    requires Ledger(universe, table) && LiveOk(universe, table, r, run) && CanAct(universe, table, run, a)
    requires a.WritePending?
    ensures
      var o := Act(universe, table, file, r, run, a);
      Ledger(universe, o.table) && LiveOk(universe, o.table, r, o.run)
  {
    hide Ledger, Clean, IsWindow, Open, BatchCommitted, OwnJob, OrphansListed, NoOwnJobs, SnapshotIsCurrent,
         CommitsAreBatches, JobsAreBatches, BatchesAreClosed, SourcesAreIngested, Covered, Entries;
    OpeningKeepsLedger(universe, table, NewPending(a.token, run.pc), run.pc.batch);
  }

  lemma SubmittingKeepsLedger(universe: set<FileInfo>, table: Table, job: nat, j: Job)
    requires Ledger(universe, table) && NoRunning(table) && job !in table.jobs && j.state.Running?
    requires Open(table) && j.token == table.pending.value.token && !BatchCommitted(table.log, j.token)
    ensures
      var t := table.(jobs := table.jobs[job := j]);
      Open(t) && Ledger(universe, t) && OwnJob(t, j.token, job)
  {
    hide LogShape, ValidLog, CommitsAreDisjoint, IsWindow, BatchCommitted;
    SameTimeKeepsOnlyOpen(table, table.(jobs := table.jobs[job := j]));
  }

  lemma SubmittingKeepsSolo(universe: set<FileInfo>, table: Table, file: OwnerFile, r: TableOwner, run: Run, a: Action)
    requires Ledger(universe, table) && LiveOk(universe, table, r, run) && CanAct(universe, table, run, a)
    requires a.Submit?
    ensures
      var o := Act(universe, table, file, r, run, a);
      Ledger(universe, o.table) && LiveOk(universe, o.table, r, o.run)
  {
    hide Ledger, Clean, IsWindow, Open, BatchCommitted, OwnJob, OrphansListed, NoOwnJobs, SnapshotIsCurrent;
    var p := run.pc.pending;
    SubmittingKeepsLedger(universe, table, a.job, Job(r, p.token, table.batches[p.token], Running));
  }

  lemma LiveActionKeepsSolo(universe: set<FileInfo>, table: Table, file: OwnerFile, r: TableOwner, run: Run, a: Action)
    requires PathKeyed(universe) && TableOk(universe, table) && PcOk(universe, table, run.pc)
    requires Ledger(universe, table) && LiveOk(universe, table, r, run) && CanAct(universe, table, run, a)
    ensures
      var o := Act(universe, table, file, r, run, a);
      Ledger(universe, o.table) && LiveOk(universe, o.table, r, o.run)
  {
    hide *;
    match a
    case ListOrphans => SettlingKeepsSolo(universe, table, file, r, run, a);
    case Settle => SettlingKeepsSolo(universe, table, file, r, run, a);
    case ReadWatermark => SettlingKeepsSolo(universe, table, file, r, run, a);
    case ListLog => ListingLogKeepsSolo(universe, table, file, r, run, a);
    case SkipAdoption => ListingLogKeepsSolo(universe, table, file, r, run, a);
    case SwallowFailure => NothingIsSwallowed(universe, table, r, run);
    case ReadPending => ReadingPendingKeepsSolo(universe, table, file, r, run, a);
    case Adopt(_, _, _, _) => AdoptingKeepsSolo(universe, table, file, r, run, a);
    case WriteFinal => WritingFinalKeepsSolo(universe, table, file, r, run, a);
    case WriteWatermark => WritingWatermarkKeepsSolo(universe, table, file, r, run, a);
    case WriteSources => StoringKeepsSolo(universe, table, file, r, run, a);
    case CleanSources(_) => StoringKeepsSolo(universe, table, file, r, run, a);
    case DeletePending(_) => DeletingPendingKeepsSolo(universe, table, file, r, run, a);
    case Discover(_, _, _, _, _) => DiscoveringKeepsSolo(universe, table, file, r, run, a);
    case BeginCheck => BeginningKeepsSolo(universe, table, file, r, run, a);
    case BeginReadWatermark => BeginningKeepsSolo(universe, table, file, r, run, a);
    case BeginReadVersion => BeginningKeepsSolo(universe, table, file, r, run, a);
    case WritePending(_) => WritingPendingKeepsSolo(universe, table, file, r, run, a);
    case Submit(_) => SubmittingKeepsSolo(universe, table, file, r, run, a);
    case SecondCheck => WaitingKeepsSolo(universe, table, file, r, run, a);
    case GiveUp => WaitingKeepsSolo(universe, table, file, r, run, a);
    case Poll(_) => EndedJobKeepsSolo(universe, table, file, r, run, a);
    case CancelOutcome(_, _) => EndedJobKeepsSolo(universe, table, file, r, run, a);
    case UpdateReadVersion(_) => UpdatingKeepsSolo(universe, table, file, r, run, a);
    case _ => CheckingKeepsSolo(universe, table, file, r, run, a);
  }

  // ---- The environment -------------------------------------------------------------------------

  lemma {:induction false} ConfigurationIgnoresLater(a: seq<Commit>, b: seq<Commit>, n: nat)
    requires a <= b && n <= |a|
    ensures TableConfiguration(b, n) == TableConfiguration(a, n)
    decreases n
  {
    if n > 0 {
      ConfigurationIgnoresLater(a, b, n - 1);
    }
  }

  lemma ShapeGrows(history: seq<Commit>, c: Commit)
    requires LogShape(history) && CommitShape(history + [c], |history|)
    ensures LogShape(history + [c])
  {
    hide TableConfiguration;
    forall i | 0 <= i < |history + [c]| ensures CommitShape(history + [c], i) {
      if i < |history| {
        ConfigurationIgnoresLater(history, history + [c], i);
        assert CommitShape(history, i);
      }
    }
  }

  lemma ForeignShape(log: Log, setsMetadata: bool, scopeEngine: bool, addsData: bool)
    ensures
      var c := ForeignCommit(log, setsMetadata, scopeEngine, addsData);
      CommitShape(log.history + [c], |log.history|)
  {
    hide TableConfiguration;
    var c := ForeignCommit(log, setsMetadata, scopeEngine, addsData);
    ConfigurationIgnoresLater(log.history, log.history + [c], |log.history|);
  }

  lemma GrownLogIsValid(log: Log, c: Commit)
    requires ValidLog(log)
    ensures ValidLog(log.(history := log.history + [c]))
  {}

  /** A commit without files of another writer keeps the ledger. */
  lemma ForeignCommitKeepsLedger(universe: set<FileInfo>, table: Table, c: Commit)
    requires Ledger(universe, table) && c.batch == None && c.files == []
    requires CommitShape(table.log.history + [c], |table.log.history|)
    ensures
      var t := table.(log := table.log.(history := table.log.history + [c]));
      Ledger(universe, t) && (Clean(table) ==> Clean(t))
  {
    hide LogShape, ValidLog, IsWindow, CommitShape;
    var t := table.(log := table.log.(history := table.log.history + [c]));
    ShapeGrows(table.log.history, c);
    GrownLogIsValid(table.log, c);
    forall i, f | 0 <= i < |t.log.history| && f in t.log.history[i].files && !Recorded(t, f)
      ensures Open(t) && t.log.history[i].batch == Some(t.pending.value.token)
    {
      assert table.log.history[i] == t.log.history[i];
      assert !Recorded(table, f);
    }
    if Clean(table) {
      forall i, f | 0 <= i < |t.log.history| && f in t.log.history[i].files ensures Recorded(t, f) {
        assert table.log.history[i] == t.log.history[i];
        assert Recorded(table, f);
      }
    }
    SameBatchesCommitted(table.log, t.log);
  }

  lemma SameBatchesCommitted(a: Log, b: Log)
    requires a.history <= b.history
    requires forall i :: |a.history| <= i < |b.history| ==> b.history[i].batch == None
    ensures forall t: nat :: BatchCommitted(b, t) <==> BatchCommitted(a, t)
  {
    forall t: nat ensures BatchCommitted(b, t) <==> BatchCommitted(a, t) {
      if BatchCommitted(a, t) {
        CommittedGrows(a, b, t);
      }
      if BatchCommitted(b, t) {
        var i :| 0 <= i < |b.history| && b.history[i].batch == Some(t);
        assert a.history[i] == b.history[i];
      }
    }
  }

  lemma NewFilesAreDisjoint(universe: set<FileInfo>, table: Table, c: Commit)
    requires Ledger(universe, table) && Open(table) && !BatchCommitted(table.log, table.pending.value.token)
    requires c.files == table.batches[table.pending.value.token]
    ensures CommitsAreDisjoint(table.log.(history := table.log.history + [c]))
  {
    hide LogShape, ValidLog, RunningIsOpen, OpenCommitsLast, MaxTime;
    var history := table.log.history + [c];
    UncommittedMeansClean(universe, table);
    forall i, j, f | 0 <= i < j < |history| && f in history[i].files ensures f !in history[j].files {
      if j == |table.log.history| {
        assert Recorded(table, f);
      }
    }
  }

  /** The open batch's job commits: its files are above the watermark, so in no other commit. */
  lemma JobCommitKeepsLedger(universe: set<FileInfo>, table: Table, job: nat, addsData: bool, namesToken: bool)
    requires TableOk(universe, table) && Ledger(universe, table)
    requires job in table.jobs && table.jobs[job].state.Running?
    ensures Ledger(universe, Happen(table, JobCommits(job, addsData, namesToken)))
  {
    hide LogShape, ValidLog, IsWindow, CommitsAreDisjoint, TableConfiguration, Covered, CommitsAreBatches, BatchesAreClosed,
         SourcesAreIngested;
    var c := BatchCommit(table.jobs[job], addsData, namesToken);
    var t := Happen(table, JobCommits(job, addsData, namesToken));
    assert c.files == table.batches[table.pending.value.token];
    ShapeGrows(table.log.history, c);
    GrownLogIsValid(table.log, c);
    NewFilesAreDisjoint(universe, table, c);
    forall i, f | 0 <= i < |t.log.history| && f in t.log.history[i].files && !Recorded(t, f)
      ensures Open(t) && t.log.history[i].batch == Some(t.pending.value.token)
    {
      if i < |table.log.history| {
        assert !Recorded(table, f);
      }
    }
  }

  lemma JobFailsKeepsLedger(universe: set<FileInfo>, table: Table, job: nat)
    requires Ledger(universe, table) && job in table.jobs && table.jobs[job].state.Running?
    ensures Ledger(universe, Happen(table, JobFails(job)))
  {
    hide LogShape, ValidLog, IsWindow, CommitsAreDisjoint, BatchCommitted;
    SameTimeKeepsOnlyOpen(table, Happen(table, JobFails(job)));
  }

  lemma MaintainedLogIsValid(table: Table, e: Env)
    requires ValidLog(table.log) && (e.TakeCheckpoint? || e.CleanLog?) && CanHappen(table, e)
    ensures ValidLog(Happen(table, e).log) && Happen(table, e).log.history == table.log.history
  {
    hide MaxOf;
    var checkpoints := table.log.checkpoints;
    MaxOfIsMaximum(checkpoints, -1);
    MaxOfIsMaximum(Happen(table, e).log.checkpoints, -1);
    if e.TakeCheckpoint? {
      assert |table.log.history| - 1 in checkpoints + [|table.log.history| - 1];
    }
  }

  lemma MaintenanceKeepsLedger(universe: set<FileInfo>, table: Table, log: Log)
    requires Ledger(universe, table) && ValidLog(log) && log.history == table.log.history
    ensures
      var t := table.(log := log);
      Ledger(universe, t) && (Clean(table) ==> Clean(t))
  {
    hide LogShape, ValidLog, IsWindow;
    var t := table.(log := log);
    forall i, f | 0 <= i < |t.log.history| && f in t.log.history[i].files && !Recorded(t, f)
      ensures Open(t) && t.log.history[i].batch == Some(t.pending.value.token)
    {
      assert !Recorded(table, f);
    }
    if Clean(table) {
      forall i, f | 0 <= i < |t.log.history| && f in t.log.history[i].files ensures Recorded(t, f) {
        assert Recorded(table, f);
      }
    }
    SameBatchesCommitted(table.log, log);
  }

  /** A job that ends belongs to the live run, or no live run has reached its own submission. */
  lemma EndingJobKeepsLive(universe: set<FileInfo>, table: Table, r: TableOwner, run: Run, e: Env)
    requires Ledger(universe, table) && LiveOk(universe, table, r, run) && CanHappen(table, e)
    requires e.JobCommits? || e.JobFails?
    ensures LiveOk(universe, Happen(table, e), r, run)
  {
    hide CommitsAreDisjoint, OnlyOpenIsUnrecorded, OpenIsWindow, OpenCommitsLast, LogShape, ValidLog, Clean, IsWindow,
         RecordsOpen, SnapshotIsCurrent;
    var t := Happen(table, e);
    if JobHeld(run.pc).Some? {
      var token := PendingHeld(run.pc).value.token;
      if e.JobCommits? {
        assert t.log.history[|table.log.history|].batch == Some(token);
      }
    }
  }

  lemma SnapshotStaysCurrent(a: Table, b: Table, snapshot: Log)
    requires SnapshotIsCurrent(a, snapshot)
    requires forall t: nat :: BatchCommitted(b.log, t) <==> BatchCommitted(a.log, t)
    ensures SnapshotIsCurrent(b, snapshot)
  {
    hide BatchCommitted;
  }

  lemma LogChangeKeepsLive(universe: set<FileInfo>, a: Table, b: Table, r: TableOwner, run: Run)
    requires LiveOk(universe, a, r, run)
    requires b == a.(log := b.log) && |a.log.history| <= |b.log.history|
    requires forall t: nat :: BatchCommitted(b.log, t) <==> BatchCommitted(a.log, t)
    requires Clean(a) ==> Clean(b)
    ensures LiveOk(universe, b, r, run)
  {
    hide BatchCommitted, Clean, IsWindow, MaxTime, SnapshotIsCurrent;
    if run.pc.ReadingPending? {
      SnapshotStaysCurrent(a, b, run.pc.snapshot);
    }
  }

  lemma EnvKeepsSolo(universe: set<FileInfo>, table: Table, e: Env)
    requires TableOk(universe, table) && Ledger(universe, table) && CanHappen(table, e)
    ensures Ledger(universe, Happen(table, e))
    ensures forall r, run :: LiveOk(universe, table, r, run) ==> LiveOk(universe, Happen(table, e), r, run)
  {
    hide TableOk, LiveOk, Clean, BatchCommitted, LogShape, CommitShape, CommitsAreDisjoint, OnlyOpenIsUnrecorded, OpenIsWindow,
         RunningIsOpen, OpenCommitsLast, ValidLog, TableConfiguration, MaxOf;
    var t := Happen(table, e);
    match e
    case JobCommits(job, addsData, namesToken) =>
      JobCommitKeepsLedger(universe, table, job, addsData, namesToken);
      forall r, run | LiveOk(universe, table, r, run) ensures LiveOk(universe, t, r, run) {
        EndingJobKeepsLive(universe, table, r, run, e);
      }
    case JobFails(job) =>
      JobFailsKeepsLedger(universe, table, job);
      forall r, run | LiveOk(universe, table, r, run) ensures LiveOk(universe, t, r, run) {
        EndingJobKeepsLive(universe, table, r, run, e);
      }
    case OtherCommit(setsMetadata, scopeEngine, addsData) =>
      ForeignShape(table.log, setsMetadata, scopeEngine, addsData);
      ForeignCommitKeepsLedger(universe, table, ForeignCommit(table.log, setsMetadata, scopeEngine, addsData));
      SameBatchesCommitted(table.log, t.log);
      forall r, run | LiveOk(universe, table, r, run) ensures LiveOk(universe, t, r, run) {
        LogChangeKeepsLive(universe, table, t, r, run);
      }
    case _ =>
      MaintainedLogIsValid(table, e);
      MaintenanceKeepsLedger(universe, table, t.log);
      SameBatchesCommitted(table.log, t.log);
      forall r, run | LiveOk(universe, table, r, run) ensures LiveOk(universe, t, r, run) {
        LogChangeKeepsLive(universe, table, t, r, run);
      }
  }

  // ---- Every single-run schedule ---------------------------------------------------------------

  lemma LiveRunStays(universe: set<FileInfo>, table: Table, r: TableOwner, run: Run, next: Pc)
    requires LiveOk(universe, table, r, run) && run.pc.Claiming?
    requires next.ListingOrphans? || next.Stopped? || next.Crashed?
    ensures LiveOk(universe, table, r, run.At(next))
  {}

  lemma CrashedIsOk(universe: set<FileInfo>, table: Table, r: TableOwner, run: Run)
    ensures LiveOk(universe, table, r, run.At(Crashed))
  {}

  lemma FreshRunIsOk(universe: set<FileInfo>, table: Table, r: TableOwner)
    requires forall j :: j in table.jobs ==> table.jobs[j].run != r
    ensures LiveOk(universe, table, r, Run(Claiming, None, false))
  {}

  lemma ActingRunIsLive(universe: set<FileInfo>, table: Table, run: Run, a: Action)
    requires CanAct(universe, table, run, a)
    ensures run.Live()
  {}

  lemma JobsKeepTheirRun(universe: set<FileInfo>, table: Table, file: OwnerFile, r: TableOwner, run: Run, a: Action)
    requires CanAct(universe, table, run, a)
    ensures
      var o := Act(universe, table, file, r, run, a);
      forall j :: j in o.table.jobs ==>
        (j in table.jobs && o.table.jobs[j].run == table.jobs[j].run) || o.table.jobs[j].run == r
  {
    hide OwnsTable, ActReadPending, ActAdopt, ActDiscover, NewPending, Recording, CommittedVersion, AfterResolve, CanAct;
  }

  lemma EventsKeepTheirJobs(table: Table, e: Env)
    requires CanHappen(table, e)
    ensures forall j :: j in Happen(table, e).jobs ==> j in table.jobs && Happen(table, e).jobs[j].run == table.jobs[j].run
  {
    hide MaxOf, TableConfiguration;
  }

  lemma StepIsSolo(universe: set<FileInfo>, s: State, e: Protocol.Event)
    requires PathKeyed(universe) && Solo(universe, s) && Protocol.Enabled(universe, s, e)
    requires e.StartRun? ==> NoneLive(s)
    ensures Solo(universe, Protocol.Step(universe, s, e))
  {
    hide TableOk, PcOk, Ledger, LiveOk, Act, CanAct, Happen, CanHappen, PathKeyed, Owner.Step;
    StepIsSafe(universe, s, e);
    match e
    case StartRun(run) => FreshRunIsOk(universe, s.table, run);
    case ClaimEvent(_, _) =>
    case ClaimDone(run) =>
      var won := s.claims.claims[run] == Returned(run);
      LiveRunStays(universe, s.table, run, s.runs[run], if won then ListingOrphans else Stopped);
    case RunActs(run, action) =>
      ActingRunIsLive(universe, s.table, s.runs[run], action);
      LiveActionKeepsSolo(universe, s.table, s.claims.file, run, s.runs[run], action);
      JobsKeepTheirRun(universe, s.table, s.claims.file, run, s.runs[run], action);
    case Crash(run) => CrashedIsOk(universe, s.table, run, s.runs[run]);
    case Happens(env) =>
      EnvKeepsSolo(universe, s.table, env);
      EventsKeepTheirJobs(s.table, env);
  }

  lemma {:induction false} PlainConfiguration(history: seq<Commit>, n: nat)
    requires n <= |history|
    requires forall i :: 0 <= i < n ==> history[i].metadata == None || history[i].metadata == Some(None)
    ensures TableConfiguration(history, n) == None || TableConfiguration(history, n) == Some(None)
  {
    if n > 0 {
      PlainConfiguration(history, n - 1);
    }
  }

  lemma InitialIsSolo(universe: set<FileInfo>, s: State)
    requires InitialState(s)
    ensures Solo(universe, s)
  {
    hide TableConfiguration, ValidLog;
    InitialIsSafe(universe, s);
    forall i | 0 <= i < |s.table.log.history| ensures CommitShape(s.table.log.history, i) {
      PlainConfiguration(s.table.log.history, i);
    }
  }

  lemma {:induction false} EverySoloStateIsSolo(
    universe: set<FileInfo>, init: State, events: seq<Protocol.Event>, s: State)
    requires PathKeyed(universe) && InitialState(init) && SoloReaches(universe, init, events, s)
    ensures Solo(universe, s)
    decreases |events|
  {
    hide Solo, InitialState, Protocol.Enabled, Protocol.Step, PathKeyed, NoneLive;
    if events == [] {
      InitialIsSolo(universe, s);
    } else {
      var n := |events| - 1;
      var u :| SoloReaches(universe, init, events[..n], u) && Protocol.Enabled(universe, u, events[n])
               && (events[n].StartRun? ==> NoneLive(u)) && Protocol.Step(universe, u, events[n]) == s;
      EverySoloStateIsSolo(universe, init, events[..n], u);
      StepIsSolo(universe, u, events[n]);
    }
  }

  /** No file is ingested twice: a file of two commits, or twice of one, does not occur. */
  lemma NoFileIsIngestedTwice(
    universe: set<FileInfo>, init: State, events: seq<Protocol.Event>, s: State, i: nat, j: nat, f: FileInfo)
    requires PathKeyed(universe) && InitialState(init) && SoloReaches(universe, init, events, s)
    requires i < |s.table.log.history| && j < |s.table.log.history|
    requires f in s.table.log.history[i].files && f in s.table.log.history[j].files
    ensures i == j && multiset(s.table.log.history[i].files)[f] == 1
  {
    hide Safe, LiveOk, SoloReaches;
    EverySoloStateIsSolo(universe, init, events, s);
    DistinctMultiplicity(s.table.log.history[i].files, f);
    assert f in multiset(s.table.log.history[i].files);
  }

  /** Every file at or below the watermark is in exactly one commit, once. */
  lemma EveryRecordedFileIsInOneCommit(
    universe: set<FileInfo>, init: State, events: seq<Protocol.Event>, s: State, f: FileInfo)
    requires PathKeyed(universe) && InitialState(init) && SoloReaches(universe, init, events, s)
    requires f in universe && Recorded(s.table, f)
    ensures exists i :: 0 <= i < |s.table.log.history| && multiset(s.table.log.history[i].files)[f] == 1
              && forall j :: 0 <= j < |s.table.log.history| && j != i ==> f !in s.table.log.history[j].files
  {
    hide Protocol.Reaches, SoloReaches, InitialState;
    SoloIsReachable(universe, init, events, s);
    NoFileIsLost(universe, init, events, s, f);
    var i :| 0 <= i < |s.table.log.history| && f in s.table.log.history[i].files;
    NoFileIsIngestedTwice(universe, init, events, s, i, i, f);
    forall j | 0 <= j < |s.table.log.history| && j != i ensures f !in s.table.log.history[j].files {
      if f in s.table.log.history[j].files {
        NoFileIsIngestedTwice(universe, init, events, s, i, j, f);
      }
    }
  }

  /**
   * Whenever a run is about to discover - its reconcile returned, or its last batch was checkpointed -
   * the files in commits are exactly the files at or below the watermark.
   */
  lemma DiscoveryStartsFromCommits(
    universe: set<FileInfo>, init: State, events: seq<Protocol.Event>, s: State, r: TableOwner, f: FileInfo)
    requires PathKeyed(universe) && InitialState(init) && SoloReaches(universe, init, events, s)
    requires r in s.runs && s.runs[r].pc.Discovering? && f in universe
    ensures (exists i :: 0 <= i < |s.table.log.history| && f in s.table.log.history[i].files) <==> Recorded(s.table, f)
  {
    hide Protocol.Reaches, SoloReaches, InitialState, Safe;
    EverySoloStateIsSolo(universe, init, events, s);
    assert Clean(s.table);
    SoloIsReachable(universe, init, events, s);
    if Recorded(s.table, f) {
      NoFileIsLost(universe, init, events, s, f);
    }
  }
}
