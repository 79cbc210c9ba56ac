/**
 * The step machine and the adapter agree: when nothing else happens in between, the steps of a run leave
 * the watermark and the pending record that the adapter's methods leave.
 */
module Undisturbed {
  import opened Files
  import opened CheckpointRecords
  import opened FileTracker
  import opened Adoption
  import opened DeltaLog
  import opened Owner
  import opened Protocol
  import Adapter
  import IncrementalLoop

  /** The actions lead one run and its table from one state to the other, with nothing in between. */
  ghost predicate Performs(
    universe: set<FileInfo>, file: OwnerFile, r: TableOwner,
    table: Table, run: Run, actions: seq<Action>, endTable: Table, endRun: Run)
    decreases |actions|
  {
    if actions == [] then endTable == table && endRun == run
    else
      && CanAct(universe, table, run, actions[0])
      && (var o := Act(universe, table, file, r, run, actions[0]);
          Performs(universe, file, r, o.table, o.run, actions[1..], endTable, endRun))
  }

  lemma FirstThen(
    universe: set<FileInfo>, file: OwnerFile, r: TableOwner,
    table: Table, run: Run, a: Action, rest: seq<Action>, endTable: Table, endRun: Run)
    requires CanAct(universe, table, run, a)
    requires
      var o := Act(universe, table, file, r, run, a);
      Performs(universe, file, r, o.table, o.run, rest, endTable, endRun)
    ensures Performs(universe, file, r, table, run, [a] + rest, endTable, endRun)
  {
    assert ([a] + rest)[1..] == rest;
  }

  lemma NoActions(universe: set<FileInfo>, file: OwnerFile, r: TableOwner, table: Table, run: Run)
    ensures Performs(universe, file, r, table, run, [], table, run)
  {}

  lemma {:induction false} Concatenated(
    universe: set<FileInfo>, file: OwnerFile, r: TableOwner, table: Table, run: Run, first: seq<Action>, midTable: Table, midRun: Run,
    second: seq<Action>, endTable: Table, endRun: Run)
    requires Performs(universe, file, r, table, run, first, midTable, midRun)
    requires Performs(universe, file, r, midTable, midRun, second, endTable, endRun)
    ensures Performs(universe, file, r, table, run, first + second, endTable, endRun)
    decreases |first|
  {
    hide CanAct, Act;
    if first == [] {
      assert first + second == second;
    } else {
      var o := Act(universe, table, file, r, run, first[0]);
      Concatenated(universe, file, r, o.table, o.run, first[1..], midTable, midRun, second, endTable, endRun);
      assert first + second == [first[0]] + (first[1..] + second);
      FirstThen(universe, file, r, table, run, first[0], first[1..] + second, endTable, endRun);
    }
  }

  /** The stored records that both models have. */
  ghost predicate SameRecords(table: Table, cp: Adapter.Checkpoint) {
    table.watermark == cp.watermark && table.pending == cp.pending
  }

  /** Both models record the same entries under the same batch id, or neither records any. */
  ghost predicate SameSources(table: Table, endTable: Table, cp: Adapter.Checkpoint, endCp: Adapter.Checkpoint, up: Adapter.Upkeep) {
    || (endTable.sources == table.sources && endCp.sources == cp.sources)
    || exists id: nat, entries: seq<(string, int)> :: RecordsBatch(table, endTable, cp, endCp, up, id, entries)
  }

  ghost predicate RecordsBatch(
    table: Table, endTable: Table, cp: Adapter.Checkpoint, endCp: Adapter.Checkpoint, up: Adapter.Upkeep,
    id: nat, entries: seq<(string, int)>)
  {
    endTable.sources == table.sources[id := entries]
    && endCp.sources == Adapter.RecordedSources(cp.sources, entries, id, up)
  }

  /** `_record_batch` and the deletion of the pending record, step by step. */
  lemma RecordingSteps(universe: set<FileInfo>, file: OwnerFile, r: TableOwner, table: Table, run: Run, deleted: bool)
    returns (actions: seq<Action>, endTable: Table, endRun: Run)
    requires run.pc.WritingWatermark? && !run.pc.record.after.Final?
    ensures Performs(universe, file, r, table, run, actions, endTable, endRun)
    ensures endTable.watermark == Some(run.pc.record.next)
    ensures endTable.pending == if deleted then None else table.pending
    ensures endTable.sources == table.sources[run.pc.record.next.batchId := run.pc.record.entries]
    ensures endTable.log == table.log && endTable.jobs == table.jobs && endTable.batches == table.batches
    ensures actions ==
      [WriteWatermark, WriteSources, CleanSources(table.sources.Keys + {run.pc.record.next.batchId}), DeletePending(deleted)]
    ensures endRun == run.At(
      if run.pc.record.after.Resume? then AfterResolve(Some(run.pc.record.next), run.pc.record.after.snapshot) else Discovering)
  {
    hide Performs, AfterResolve;
    var record := run.pc.record;
    var keepAll := CleanSources(table.sources.Keys + {record.next.batchId});
    var o1 := Act(universe, table, file, r, run, WriteWatermark);
    var o2 := Act(universe, o1.table, file, r, o1.run, WriteSources);
    var o3 := Act(universe, o2.table, file, r, o2.run, keepAll);
    var o4 := Act(universe, o3.table, file, r, o3.run, DeletePending(deleted));
    endTable, endRun := o4.table, o4.run;
    assert o3.table.sources == o2.table.sources;
    NoActions(universe, file, r, endTable, endRun);
    FirstThen(universe, file, r, o3.table, o3.run, DeletePending(deleted), [], endTable, endRun);
    var last := [DeletePending(deleted)] + [];
    FirstThen(universe, file, r, o2.table, o2.run, keepAll, last, endTable, endRun);
    FirstThen(universe, file, r, o1.table, o1.run, WriteSources, [keepAll] + last, endTable, endRun);
    FirstThen(universe, file, r, table, run, WriteWatermark, [WriteSources] + ([keepAll] + last), endTable, endRun);
    actions := [WriteWatermark] + ([WriteSources] + ([keepAll] + last));
  }

  /** The pending batch committed: it is recorded. */
  lemma ResolveByRecording(
    universe: set<FileInfo>, file: OwnerFile, r: TableOwner, table: Table, run: Run, cp: Adapter.Checkpoint,
    deleted: bool, up: Adapter.Upkeep)
    returns (actions: seq<Action>, endTable: Table, endRun: Run)
    requires SameRecords(table, cp) && Adapter.ValidRecords(cp.watermark, cp.pending) && up.fault.NoFault?
    requires run.pc == ReadingPending(table.watermark, table.log) && Adapter.RecordsPending(cp, table.log)
    ensures Performs(universe, file, r, table, run, actions, endTable, endRun)
    ensures SameRecords(endTable, Adapter.AfterResolve(cp, table.log, deleted, up))
    ensures SameSources(table, endTable, cp, Adapter.AfterResolve(cp, table.log, deleted, up), up)
    ensures endRun == run.At(AfterResolve(endTable.watermark, table.log))
  {
    hide Performs, FindTokenVersion, ComputeNewWatermark, Recovered, Entries, Adapter.RecordedSources;
    var o := Act(universe, table, file, r, run, ReadPending);
    var rest;
    rest, endTable, endRun := RecordingSteps(universe, file, r, o.table, o.run, deleted);
    FirstThen(universe, file, r, table, run, ReadPending, rest, endTable, endRun);
    actions := [ReadPending] + rest;
    var files := Recovered(cp.pending.value.files);
    assert RecordsBatch(table, endTable, cp, Adapter.AfterResolve(cp, table.log, deleted, up), up,
                        Adapter.NextId(files, cp.watermark), Entries(files));
  }

  /** There is none, or it is stale or did not commit: it is dropped. */
  lemma ResolveByDropping(
    universe: set<FileInfo>, file: OwnerFile, r: TableOwner, table: Table, run: Run, cp: Adapter.Checkpoint,
    deleted: bool, up: Adapter.Upkeep)
    returns (actions: seq<Action>, endTable: Table, endRun: Run)
    requires SameRecords(table, cp) && Adapter.ValidRecords(cp.watermark, cp.pending)
    requires run.pc == ReadingPending(table.watermark, table.log) && !Adapter.RecordsPending(cp, table.log)
    ensures Performs(universe, file, r, table, run, actions, endTable, endRun)
    ensures SameRecords(endTable, Adapter.AfterResolve(cp, table.log, deleted, up))
    ensures SameSources(table, endTable, cp, Adapter.AfterResolve(cp, table.log, deleted, up), up)
    ensures endRun == run.At(AfterResolve(endTable.watermark, table.log))
  {
    hide Performs, FindTokenVersion, Adapter.AfterRecord;
    var o := Act(universe, table, file, r, run, ReadPending);
    if o.run.pc.DeletingPending? {
      var o2 := Act(universe, o.table, file, r, o.run, DeletePending(deleted));
      endTable, endRun := o2.table, o2.run;
      NoActions(universe, file, r, endTable, endRun);
      FirstThen(universe, file, r, o.table, o.run, DeletePending(deleted), [], endTable, endRun);
      FirstThen(universe, file, r, table, run, ReadPending, [DeletePending(deleted)] + [], endTable, endRun);
      actions := [ReadPending] + ([DeletePending(deleted)] + []);
    } else {
      endTable, endRun := o.table, o.run;
      NoActions(universe, file, r, endTable, endRun);
      FirstThen(universe, file, r, table, run, ReadPending, [], endTable, endRun);
      actions := [ReadPending] + [];
    }
  }

  /** `_resolve_pending`: read and, as the case may be, record or drop the pending batch. */
  lemma UndisturbedResolve(
    universe: set<FileInfo>, file: OwnerFile, r: TableOwner, table: Table, run: Run, cp: Adapter.Checkpoint,
    deleted: bool, up: Adapter.Upkeep)
    returns (actions: seq<Action>, endTable: Table, endRun: Run)
    requires SameRecords(table, cp) && Adapter.ValidRecords(cp.watermark, cp.pending) && up.fault.NoFault?
    requires run.pc == ReadingPending(table.watermark, table.log)
    ensures Performs(universe, file, r, table, run, actions, endTable, endRun)
    ensures SameRecords(endTable, Adapter.AfterResolve(cp, table.log, deleted, up))
    ensures SameSources(table, endTable, cp, Adapter.AfterResolve(cp, table.log, deleted, up), up)
    ensures endRun == run.At(AfterResolve(endTable.watermark, table.log))
  {
    hide Performs, SameRecords, SameSources, Adapter.RecordsPending, Adapter.AfterResolve, AfterResolve;
    if Adapter.RecordsPending(cp, table.log) {
      actions, endTable, endRun := ResolveByRecording(universe, file, r, table, run, cp, deleted, up);
    } else {
      actions, endTable, endRun := ResolveByDropping(universe, file, r, table, run, cp, deleted, up);
    }
  }

  lemma BeginReads(universe: set<FileInfo>, file: OwnerFile, r: TableOwner, table: Table, run: Run)
    returns (actions: seq<Action>, endRun: Run)
    requires run.pc.BatchChosen? && OwnsTable(file, r)
    ensures Performs(universe, file, r, table, run, actions, table, endRun)
    ensures endRun == run.At(BatchVersioned(run.pc.batch, table.watermark, |table.log.history| - 1))
    ensures actions == [BeginCheck, BeginReadWatermark, BeginReadVersion]
  {
    hide Performs;
    var o1 := Act(universe, table, file, r, run, BeginCheck);
    var o2 := Act(universe, table, file, r, o1.run, BeginReadWatermark);
    endRun := Act(universe, table, file, r, o2.run, BeginReadVersion).run;
    NoActions(universe, file, r, table, endRun);
    FirstThen(universe, file, r, table, o2.run, BeginReadVersion, [], table, endRun);
    var last := [BeginReadVersion] + [];
    FirstThen(universe, file, r, table, o1.run, BeginReadWatermark, last, table, endRun);
    FirstThen(universe, file, r, table, run, BeginCheck, [BeginReadWatermark] + last, table, endRun);
    actions := [BeginCheck] + ([BeginReadWatermark] + last);
  }

  /** `begin_batch` for the chosen batch, while the run owns the table. */
  lemma UndisturbedBegin(
    universe: set<FileInfo>, file: OwnerFile, r: TableOwner, table: Table, run: Run, token: nat)
    returns (actions: seq<Action>, endTable: Table, endRun: Run)
    requires run.pc.BatchChosen? && OwnsTable(file, r) && token !in table.batches
    ensures Performs(universe, file, r, table, run, actions, endTable, endRun)
    ensures
      var p := Adapter.NewPending(token, run.pc.batch, table.watermark, |table.log.history| - 1);
      endTable.watermark == table.watermark && endTable.pending == Some(p) && endRun == run.At(Submitting(p))
  {
    hide Performs, Entries;
    var begin, versioned := BeginReads(universe, file, r, table, run);
    var o := Act(universe, table, file, r, versioned, WritePending(token));
    endTable, endRun := o.table, o.run;
    NoActions(universe, file, r, endTable, endRun);
    FirstThen(universe, file, r, table, versioned, WritePending(token), [], endTable, endRun);
    actions := begin + ([WritePending(token)] + []);
    Concatenated(universe, file, r, table, run, begin, table, versioned, [WritePending(token)] + [], endTable, endRun);
  }

  lemma UpdateReads(universe: set<FileInfo>, file: OwnerFile, r: TableOwner, table: Table, run: Run, readable: bool)
    returns (actions: seq<Action>, endRun: Run)
    requires run.pc.Updating? && OwnsTable(file, r) && run.pc.pending.token in table.batches
    ensures Performs(universe, file, r, table, run, actions, table, endRun)
    ensures actions == [UpdateCheck, UpdateReadWatermark, UpdateReadVersion(readable)]
    ensures
      var p := run.pc.pending;
      endRun == run.At(Recording(table.batches[p.token], table.watermark, CommittedVersion(table.log, p, readable), Loop))
  {
    hide Performs, CommittedVersion, Recording;
    var o1 := Act(universe, table, file, r, run, UpdateCheck);
    var o2 := Act(universe, table, file, r, o1.run, UpdateReadWatermark);
    endRun := Act(universe, table, file, r, o2.run, UpdateReadVersion(readable)).run;
    NoActions(universe, file, r, table, endRun);
    FirstThen(universe, file, r, table, o2.run, UpdateReadVersion(readable), [], table, endRun);
    var last := [UpdateReadVersion(readable)] + [];
    FirstThen(universe, file, r, table, o1.run, UpdateReadWatermark, last, table, endRun);
    FirstThen(universe, file, r, table, run, UpdateCheck, [UpdateReadWatermark] + last, table, endRun);
    actions := [UpdateCheck] + ([UpdateReadWatermark] + last);
  }

  /** `update_checkpoint` for the batch the run began, while it owns the table. */
  lemma UndisturbedUpdate(
    universe: set<FileInfo>, file: OwnerFile, r: TableOwner, table: Table, run: Run, cp: Adapter.Checkpoint,
    readable: bool, deleted: bool, up: Adapter.Upkeep)
    returns (actions: seq<Action>, endTable: Table, endRun: Run)
    requires SameRecords(table, cp) && Adapter.ValidRecords(cp.watermark, cp.pending) && up.fault.NoFault?
    requires run.pc.Updating? && OwnsTable(file, r)
    requires run.pc.pending.token in table.batches && table.batches[run.pc.pending.token] != []
    ensures Performs(universe, file, r, table, run, actions, endTable, endRun)
    ensures
      var files := table.batches[run.pc.pending.token];
      var endCp := Adapter.AfterUpdate(cp, files, Some(run.pc.pending), table.log, readable, deleted, up);
      SameRecords(endTable, endCp) && SameSources(table, endTable, cp, endCp, up)
    ensures endRun == run.At(Discovering)
  {
    hide Performs, Act, CanAct, CommittedVersion, ComputeNewWatermark, Entries, Adapter.RecordedSources;
    var begin, recording := UpdateReads(universe, file, r, table, run, readable);
    var rest;
    rest, endTable, endRun := RecordingSteps(universe, file, r, table, recording, deleted);
    Concatenated(universe, file, r, table, run, begin, table, recording, rest, endTable, endRun);
    actions := begin + rest;
    var files := table.batches[run.pc.pending.token];
    assert RecordsBatch(
      table, endTable, cp, Adapter.AfterUpdate(cp, files, Some(run.pc.pending), table.log, readable, deleted, up), up,
      Adapter.NextId(files, cp.watermark), Entries(files));
  }

  // ---- `reconcile_checkpoint` -----------------------------------------------------------------

  function Concat(listings: seq<seq<FileInfo>>): seq<FileInfo> {
    if listings == [] then [] else Concat(listings[..|listings| - 1]) + listings[|listings| - 1]
  }

  lemma {:induction false} UnprocessedConcat(a: seq<FileInfo>, b: seq<FileInfo>, watermark: Option<int>, cutoff: int)
    ensures Unprocessed(a + b, watermark, cutoff) == Unprocessed(a, watermark, cutoff) + Unprocessed(b, watermark, cutoff)
  {
    if a == [] {
      assert a + b == b;
    } else {
      assert (a + b)[1..] == a[1..] + b;
      UnprocessedConcat(a[1..], b, watermark, cutoff);
    }
  }

  /** With one clock reading, filtering each listing is filtering them together. */
  lemma {:induction false} UnionIsFilter(listings: seq<seq<FileInfo>>, watermark: Option<int>, cutoffs: seq<int>, cutoff: int)
    requires |listings| == |cutoffs| && forall i :: 0 <= i < |cutoffs| ==> cutoffs[i] == cutoff
    ensures IncrementalLoop.UnionUnprocessed(listings, watermark, cutoffs) == Unprocessed(Concat(listings), watermark, cutoff)
  {
    if listings != [] {
      var n := |listings| - 1;
      assert cutoffs[n] == cutoff;
      UnionIsFilter(listings[..n], watermark, cutoffs[..n], cutoff);
      UnprocessedConcat(Concat(listings[..n]), listings[n], watermark, cutoff);
    }
  }

  lemma SamePathIsSameFile(universe: set<FileInfo>, files: seq<FileInfo>, f: FileInfo, watermark: Option<int>, cutoff: int)
    requires PathKeyed(universe) && f in universe && forall g :: g in files ==> g in universe
    requires Eligible(f, watermark, cutoff)
    ensures f.path in PathsOf(files) <==> f.path in PathsOf(Unprocessed(files, watermark, cutoff))
  {
    hide Unprocessed;
    UnprocessedMembers(files, watermark, cutoff);
    if f.path in PathsOf(files) {
      var g :| g in files && g.path == f.path;
      assert g == f;
    }
  }

  /** One more file, kept or dropped by each of the two. */
  lemma FilterStep(
    universe: set<FileInfo>, before: seq<FileInfo>, f: FileInfo, watermark: Option<int>, cutoff: int)
    requires PathKeyed(universe) && f in universe && forall g :: g in before ==> g in universe
    requires IncrementalLoop.FirstByPath(Unprocessed(before, watermark, cutoff)) ==
             Unprocessed(IncrementalLoop.FirstByPath(before), watermark, cutoff)
    ensures IncrementalLoop.FirstByPath(Unprocessed(before + [f], watermark, cutoff)) ==
            Unprocessed(IncrementalLoop.FirstByPath(before + [f]), watermark, cutoff)
  {
    hide *;
    var kept, first := Unprocessed(before, watermark, cutoff), IncrementalLoop.FirstByPath(before);
    UnprocessedSnoc(before, f, watermark, cutoff);
    UnprocessedSnoc(first, f, watermark, cutoff);
    IncrementalLoop.FirstByPathSnoc(before, f);
    IncrementalLoop.FirstByPathKeepsPaths(before);
    if Eligible(f, watermark, cutoff) {
      SamePathIsSameFile(universe, before, f, watermark, cutoff);
      IncrementalLoop.FirstByPathSnoc(kept, f);
      IncrementalLoop.FirstByPathKeepsPaths(kept);
    } else {
      assert kept + [] == kept;
      assert Unprocessed(first, watermark, cutoff) + [] == Unprocessed(first, watermark, cutoff);
    }
  }

  /** Where a path names one file, dropping repeated paths and filtering by time commute. */
  lemma {:induction false} FirstByPathThenFilter(
    universe: set<FileInfo>, files: seq<FileInfo>, watermark: Option<int>, cutoff: int)
    requires PathKeyed(universe) && forall f :: f in files ==> f in universe
    ensures IncrementalLoop.FirstByPath(Unprocessed(files, watermark, cutoff)) ==
            Unprocessed(IncrementalLoop.FirstByPath(files), watermark, cutoff)
    decreases |files|
  {
    if files == [] {
      assert Unprocessed(files, watermark, cutoff) == [] == IncrementalLoop.FirstByPath(files);
    } else {
      hide *;
      var n := |files| - 1;
      assert files == files[..n] + [files[n]];
      FirstByPathThenFilter(universe, files[..n], watermark, cutoff);
      FilterStep(universe, files[..n], files[n], watermark, cutoff);
    }
  }

  /** What the adapter's listings of every (root, pattern) name, read at one time, is one complete listing. */
  ghost predicate ListsUniverse(universe: set<FileInfo>, u: Adapter.Unrecorded, cutoff: int) {
    && |u.listings| == |u.cutoffs| && (forall i :: 0 <= i < |u.cutoffs| ==> u.cutoffs[i] == cutoff)
    && (forall f :: f in Concat(u.listings) ==> f in universe)
    && CompleteListing(universe, IncrementalLoop.FirstByPath(Concat(u.listings)))
  }

  /** Both models discover the same files. */
  lemma SameDiscovery(universe: set<FileInfo>, cutoff: int, watermark: Option<Watermark>, u: Adapter.Unrecorded)
    requires PathKeyed(universe) && ListsUniverse(universe, u, cutoff)
    ensures Adapter.UnprocessedFiles(watermark, u) ==
            UnprocessedBy(IncrementalLoop.FirstByPath(Concat(u.listings)), watermark, cutoff)
  {
    hide Unprocessed, IncrementalLoop.FirstByPath, IncrementalLoop.UnionUnprocessed, SortByTime, Concat, CompleteListing;
    UnionIsFilter(u.listings, TimeOf(watermark), u.cutoffs, cutoff);
    FirstByPathThenFilter(universe, Concat(u.listings), TimeOf(watermark), cutoff);
  }

  /** Suffix matching names only files whose own path a commit ingested. */
  ghost predicate MatchesAreExact(log: Log, baseline: int, unprocessed: seq<FileInfo>) {
    NaiveMatches(Adapter.IngestedPaths(log, baseline), unprocessed) <= Adapter.IngestedPaths(log, baseline)
  }

  lemma IngestedPathsAreIngested(log: Log, baseline: int)
    ensures forall path :: path in Adapter.IngestedPaths(log, baseline) ==> IngestedAfter(log, baseline, path)
  {}

  /** The baseline from which the adapter looks for unrecorded commits. */
  function AdapterBaseline(current: Watermark, log: Log, u: Adapter.Unrecorded): int {
    Baseline(current, Adapter.LegacyBaseline(log, u.writtenAt, u.timestamps))
  }

  lemma FinalSteps(universe: set<FileInfo>, file: OwnerFile, r: TableOwner, table: Table, run: Run)
    returns (actions: seq<Action>, endTable: Table, endRun: Run)
    requires run.pc.WritingFinal?
    requires table.watermark == Some(run.pc.adoptFrom) || run.pc.adoptFrom.deltaVersion != Some(|run.pc.snapshot.history| - 1)
    ensures Performs(universe, file, r, table, run, actions, endTable, endRun)
    ensures endTable.watermark == Some(run.pc.adoptFrom.(deltaVersion := Some(|run.pc.snapshot.history| - 1)))
    ensures endTable.pending == table.pending && endTable.sources == table.sources && endRun == run.At(Discovering)
  {
    hide Performs;
    var o := Act(universe, table, file, r, run, WriteFinal);
    endTable, endRun := o.table, o.run;
    NoActions(universe, file, r, endTable, endRun);
    FirstThen(universe, file, r, table, run, WriteFinal, [], endTable, endRun);
    actions := [WriteFinal] + [];
  }

  /** Recording the adopted files, and the last write. */
  lemma AdoptedSteps(universe: set<FileInfo>, file: OwnerFile, r: TableOwner, table: Table, run: Run)
    returns (actions: seq<Action>, endTable: Table, endRun: Run)
    requires run.pc.WritingWatermark? && run.pc.record.after.Final?
    ensures Performs(universe, file, r, table, run, actions, endTable, endRun)
    ensures
      endTable.watermark == Some(run.pc.record.next.(deltaVersion := Some(|run.pc.record.after.snapshot.history| - 1)))
    ensures endTable.sources == table.sources[run.pc.record.next.batchId := run.pc.record.entries]
    ensures endTable.pending == table.pending && endRun == run.At(Discovering)
  {
    hide Performs;
    var keepAll := CleanSources(table.sources.Keys + {run.pc.record.next.batchId});
    var o1 := Act(universe, table, file, r, run, WriteWatermark);
    var o2 := Act(universe, o1.table, file, r, o1.run, WriteSources);
    var o3 := Act(universe, o2.table, file, r, o2.run, keepAll);
    assert o3.table.sources == o2.table.sources;
    var rest;
    rest, endTable, endRun := FinalSteps(universe, file, r, o3.table, o3.run);
    FirstThen(universe, file, r, o2.table, o2.run, keepAll, rest, endTable, endRun);
    FirstThen(universe, file, r, o1.table, o1.run, WriteSources, [keepAll] + rest, endTable, endRun);
    FirstThen(universe, file, r, table, run, WriteWatermark, [WriteSources] + ([keepAll] + rest), endTable, endRun);
    actions := [WriteWatermark] + ([WriteSources] + ([keepAll] + rest));
  }

  /** Recording the adopted files raises: as far as the writes landed, and the last write of the old watermark. */
  lemma SwallowedSteps(
    universe: set<FileInfo>, file: OwnerFile, r: TableOwner, table: Table, run: Run, fault: Adapter.Fault)
    returns (actions: seq<Action>, endTable: Table, endRun: Run)
    requires run.pc.WritingWatermark? && run.pc.record.after.Final? && !fault.NoFault?
    requires run.pc.record.after.before.deltaVersion != Some(|run.pc.record.after.snapshot.history| - 1)
    ensures Performs(universe, file, r, table, run, actions, endTable, endRun)
    ensures
      endTable.watermark ==
      Some(run.pc.record.after.before.(deltaVersion := Some(|run.pc.record.after.snapshot.history| - 1)))
    ensures endTable.sources ==
      if fault == Adapter.SourcesFault(true) then table.sources[run.pc.record.next.batchId := run.pc.record.entries]
      else table.sources
    ensures endTable.pending == table.pending && endRun == run.At(Discovering)
  {
    hide Performs;
    var rest;
    if fault == Adapter.WatermarkFault(false) {
      var o := Act(universe, table, file, r, run, SwallowFailure);
      rest, endTable, endRun := FinalSteps(universe, file, r, o.table, o.run);
      FirstThen(universe, file, r, table, run, SwallowFailure, rest, endTable, endRun);
      actions := [SwallowFailure] + rest;
    } else {
      var o1 := Act(universe, table, file, r, run, WriteWatermark);
      if fault == Adapter.SourcesFault(true) {
        var o2 := Act(universe, o1.table, file, r, o1.run, WriteSources);
        var o3 := Act(universe, o2.table, file, r, o2.run, SwallowFailure);
        rest, endTable, endRun := FinalSteps(universe, file, r, o3.table, o3.run);
        FirstThen(universe, file, r, o2.table, o2.run, SwallowFailure, rest, endTable, endRun);
        rest := [SwallowFailure] + rest;
        FirstThen(universe, file, r, o1.table, o1.run, WriteSources, rest, endTable, endRun);
        rest := [WriteSources] + rest;
      } else {
        var o2 := Act(universe, o1.table, file, r, o1.run, SwallowFailure);
        rest, endTable, endRun := FinalSteps(universe, file, r, o2.table, o2.run);
        FirstThen(universe, file, r, o1.table, o1.run, SwallowFailure, rest, endTable, endRun);
        rest := [SwallowFailure] + rest;
      }
      FirstThen(universe, file, r, table, run, WriteWatermark, rest, endTable, endRun);
      actions := [WriteWatermark] + rest;
    }
  }

  /** The search for unrecorded commits and the final write, whatever fault the recording meets. */
  lemma UndisturbedAdoption(
    universe: set<FileInfo>, file: OwnerFile, r: TableOwner, table: Table, run: Run, cp: Adapter.Checkpoint, log: Log,
    cutoff: int, u: Adapter.Unrecorded, up: Adapter.Upkeep)
    returns (actions: seq<Action>, endTable: Table, endRun: Run)
    requires cp.watermark.Some? && SameRecords(table, cp) && Adapter.ValidRecords(cp.watermark, cp.pending)
    requires run.pc == Adopting(cp.watermark.value, log)
    requires PathKeyed(universe) && ListsUniverse(universe, u, cutoff) && u.Valid(log)
    requires MatchesAreExact(
      log, AdapterBaseline(cp.watermark.value, log, u), Adapter.UnprocessedFiles(cp.watermark, u))
    ensures Performs(universe, file, r, table, run, actions, endTable, endRun)
    ensures
      var adopted, held := Adapter.AfterAdoption(cp, log, u, up), Adapter.HeldAfterAdoption(cp, log, u, up);
      && held.Some? && endTable.pending == adopted.pending
      && endTable.watermark == Some(held.value.(deltaVersion := Some(|log.history| - 1)))
      && SameSources(table, endTable, cp, adopted, up)
    ensures endRun == run.At(Discovering)
  {
    hide Performs, AdoptablePrefix, NaiveMatches, Adapter.IngestedPaths, IngestedAfter, FileTracker.Discover, ComputeNewWatermark,
         Adapter.UnprocessedFiles, Adapter.WrittenSources, Adapter.LegacyBaseline, Entries, CompleteListing, PathKeyed, Concat,
         IncrementalLoop.FirstByPath;
    var current := cp.watermark.value;
    var baseline := AdapterBaseline(current, log, u);
    var unprocessed := Adapter.UnprocessedFiles(cp.watermark, u);
    var listing := IncrementalLoop.FirstByPath(Concat(u.listings));
    SameDiscovery(universe, cutoff, cp.watermark, u);
    IngestedPathsAreIngested(log, baseline);
    var prefix := Adapter.AdoptedFiles(current, log, u);
    var a := if u.readable && baseline < |log.history| - 1 && u.hasColumn
      then Adopt(listing, cutoff, NaiveMatches(Adapter.IngestedPaths(log, baseline), unprocessed),
                 Adapter.LegacyBaseline(log, u.writtenAt, u.timestamps))
      else SkipAdoption;
    assert CanAct(universe, table, run, a);
    var o := Act(universe, table, file, r, run, a);
    var rest;
    if prefix == [] {
      rest, endTable, endRun := FinalSteps(universe, file, r, o.table, o.run);
    } else {
      if up.fault.NoFault? {
        rest, endTable, endRun := AdoptedSteps(universe, file, r, o.table, o.run);
      } else {
        rest, endTable, endRun := SwallowedSteps(universe, file, r, o.table, o.run, up.fault);
      }
      if up.fault.NoFault? || up.fault == Adapter.SourcesFault(true) {
        assert RecordsBatch(table, endTable, cp, Adapter.AfterAdoption(cp, log, u, up), up,
                            Adapter.NextId(prefix, cp.watermark), Entries(prefix));
      }
    }
    FirstThen(universe, file, r, table, run, a, rest, endTable, endRun);
    actions := [a] + rest;
  }

  /**
   * `reconcile_checkpoint` after the claim, when every read succeeds and nothing but adoption's recording
   * raises. `midTable` is the storage once the pending batch is resolved.
   */
  lemma UndisturbedReconcile(
    universe: set<FileInfo>, file: OwnerFile, r: TableOwner, table: Table, run: Run, cp: Adapter.Checkpoint,
    cutoff: int, around: Adapter.Surroundings)
    returns (actions: seq<Action>, midTable: Table, endTable: Table, endRun: Run)
    requires SameRecords(table, cp) && Adapter.ValidRecords(cp.watermark, cp.pending)
    requires run.pc == ReadingWatermark
    requires around.readable && around.resolving.fault.NoFault? && around.finalFault == None
    requires around.unrecorded.Valid(table.log)
    requires PathKeyed(universe) && ListsUniverse(universe, around.unrecorded, cutoff)
    requires
      var resolved := Adapter.AfterResolve(cp, table.log, around.deletes, around.resolving);
      resolved.watermark.Some? ==> MatchesAreExact(
        table.log, AdapterBaseline(resolved.watermark.value, table.log, around.unrecorded),
        Adapter.UnprocessedFiles(resolved.watermark, around.unrecorded))
    ensures Performs(universe, file, r, table, run, actions, endTable, endRun)
    ensures
      var resolved := Adapter.AfterResolve(cp, table.log, around.deletes, around.resolving);
      var reconciled := Adapter.AfterReconcile(cp, table.log, around);
      && SameRecords(endTable, reconciled)
      && SameSources(table, midTable, cp, resolved, around.resolving)
      && SameSources(midTable, endTable, resolved, reconciled, around.adopting)
    ensures endRun.pc == Discovering && endRun.readLog
  {
    hide Performs, Adapter.AfterResolve, Adapter.AfterAdoption, Adapter.HeldAfterAdoption, Adapter.LegacyBaseline, MatchesAreExact,
         ListsUniverse, PathKeyed, Adapter.UnprocessedFiles, Adapter.RecordedSources, SameSources, Adapter.RecordsPending;
    var resolved := Adapter.AfterResolve(cp, table.log, around.deletes, around.resolving);
    var o1 := Act(universe, table, file, r, run, ReadWatermark);
    var o2 := Act(universe, o1.table, file, r, o1.run, ListLog);
    var first, midRun;
    first, midTable, midRun :=
      UndisturbedResolve(universe, file, r, o2.table, o2.run, cp, around.deletes, around.resolving);
    var second := [];
    endTable, endRun := midTable, midRun;
    NoActions(universe, file, r, midTable, midRun);
    NothingRecorded(midTable, resolved, around.adopting);
    Adapter.ResolvedRecords(cp, table.log, around.deletes, around.resolving);
    if midRun.pc.Adopting? {
      second, endTable, endRun := UndisturbedAdoption(
        universe, file, r, midTable, midRun, resolved, table.log, cutoff, around.unrecorded, around.adopting);
      ReconciledIsFinal(resolved, table.log, around);
      SourcesOnly(midTable, endTable, resolved,
                  Adapter.AfterAdoption(resolved, table.log, around.unrecorded, around.adopting),
                  Adapter.AfterReconcile(cp, table.log, around), around.adopting);
    }
    Concatenated(universe, file, r, o2.table, o2.run, first, midTable, midRun, second, endTable, endRun);
    FirstThen(universe, file, r, o1.table, o1.run, ListLog, first + second, endTable, endRun);
    FirstThen(universe, file, r, table, run, ReadWatermark, [ListLog] + (first + second), endTable, endRun);
    actions := [ReadWatermark] + ([ListLog] + (first + second));
  }

  lemma NothingRecorded(table: Table, cp: Adapter.Checkpoint, up: Adapter.Upkeep)
    ensures SameSources(table, table, cp, cp, up)
  {}

  lemma SourcesOnly(
    table: Table, endTable: Table, cp: Adapter.Checkpoint, a: Adapter.Checkpoint, b: Adapter.Checkpoint, up: Adapter.Upkeep)
    requires SameSources(table, endTable, cp, a, up) && a.sources == b.sources
    ensures SameSources(table, endTable, cp, b, up)
  {
    hide Adapter.RecordedSources;
    if !(endTable.sources == table.sources && a.sources == cp.sources) {
      var id: nat, entries: seq<(string, int)> :| RecordsBatch(table, endTable, cp, a, up, id, entries);
      assert RecordsBatch(table, endTable, cp, b, up, id, entries);
    }
  }

  /** Without a fault of the last write, the stored watermark is the held one at the latest version. */
  lemma ReconciledIsFinal(resolved: Adapter.Checkpoint, log: Log, around: Adapter.Surroundings)
    requires resolved.watermark.Some? && Adapter.ValidRecords(resolved.watermark, resolved.pending)
    requires around.unrecorded.Valid(log) && around.finalFault == None
    ensures
      var adopted := Adapter.AfterAdoption(resolved, log, around.unrecorded, around.adopting);
      var held := Adapter.HeldAfterAdoption(resolved, log, around.unrecorded, around.adopting);
      && held.Some?
      && Adapter.AfterFinal(adopted, held.value, |log.history| - 1, None).watermark
         == Some(held.value.(deltaVersion := Some(|log.history| - 1)))
  {
    hide Adapter.AfterAdoption, Adapter.HeldAfterAdoption, Adapter.AdoptedFiles;
    Adapter.AdoptionRecords(resolved, log, around.unrecorded, around.adopting);
    if Adapter.HeldAfterAdoption(resolved, log, around.unrecorded, around.adopting).value.deltaVersion == Some(|log.history| - 1) {
      Adapter.CoveringWatermarkIsStored(resolved, log, around.unrecorded, around.adopting);
    }
  }
}
