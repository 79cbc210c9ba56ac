/**
 * Why exactly-once is claimed for one live run at a time: an owner check and the write behind it are two steps, and a
 * run that is superseded in between still submits a job, which may commit before it is cancelled.
 */
module TakeoverWindow {
  import opened Files
  import opened CheckpointRecords
  import opened FileTracker
  import opened DeltaLog
  import opened Owner
  import opened Protocol
  import opened Progress
  import Undisturbed

  /** No job is running, nothing was checkpointed, and the pending batch, if there is one, did not commit. */
  ghost predicate Untouched(table: Table) {
    && (forall j :: j in table.jobs ==> !table.jobs[j].state.Running?)
    && table.watermark == None
    && (table.pending.Some? ==>
          && table.pending.value.AppliesTo(None)
          && FindTokenVersion(table.log, table.pending.value.token, table.pending.value.deltaVersionBefore) == None)
  }

  lemma ListsAndSettles(universe: set<FileInfo>, s: State, r: TableOwner) returns (t: State)
    requires r in s.runs && s.runs[r].pc == ListingOrphans && Untouched(s.table)
    ensures Leads(universe, s, ByRun(r, [ListOrphans, Settle]), t)
    ensures r in t.runs && t == With(s, r, s.table, t.runs[r]) && t.runs[r].pc == ReadingWatermark
  {
    hide Leads, FindTokenVersion;
    PlainStep(universe, s, r, ListOrphans);
    var u := Protocol.Step(universe, s, RunActs(r, ListOrphans));
    PlainStep(universe, u, r, Settle);
    t := Protocol.Step(universe, u, RunActs(r, Settle));
    TwoMoves(universe, s, RunActs(r, ListOrphans), u, RunActs(r, Settle), t);
    assert ByRun(r, [ListOrphans, Settle]) == [RunActs(r, ListOrphans), RunActs(r, Settle)];
  }

  /** Reconciling finds nothing to record: a pending batch is dropped. */
  lemma FindsNothing(universe: set<FileInfo>, s: State, r: TableOwner) returns (actions: seq<Action>, t: State)
    requires r in s.runs && s.runs[r].pc == ReadingWatermark && Untouched(s.table)
    ensures Leads(universe, s, ByRun(r, actions), t)
    ensures r in t.runs && t == With(s, r, s.table.(pending := None), t.runs[r]) && t.runs[r].pc == Discovering
  {
    hide Undisturbed.Performs, Leads, FindTokenVersion, PendingBatch.AppliesTo;
    var file, table, run := s.claims.file, s.table, s.runs[r];
    var listing := run.At(ListingLog(None));
    var reading := Run(ReadingPending(None, table.log), run.listing, true);
    assert Act(universe, table, file, r, run, ReadWatermark) == Quiet(table, listing);
    assert Act(universe, table, file, r, listing, ListLog) == Quiet(table, reading);
    var endTable, endRun := table.(pending := None), reading.At(Discovering);
    var rest;
    if table.pending.None? {
      assert Act(universe, table, file, r, reading, ReadPending) == Quiet(endTable, endRun);
      Undisturbed.NoActions(universe, file, r, endTable, endRun);
      Undisturbed.FirstThen(universe, file, r, table, reading, ReadPending, [], endTable, endRun);
      rest := [ReadPending] + [];
    } else {
      var deleting := reading.At(DeletingPending(None, Resume(table.log)));
      assert Act(universe, table, file, r, reading, ReadPending) == Quiet(table, deleting);
      assert Act(universe, table, file, r, deleting, DeletePending(true)) == Quiet(endTable, endRun);
      Undisturbed.NoActions(universe, file, r, endTable, endRun);
      Undisturbed.FirstThen(universe, file, r, table, deleting, DeletePending(true), [], endTable, endRun);
      Undisturbed.FirstThen(universe, file, r, table, reading, ReadPending, [DeletePending(true)] + [], endTable, endRun);
      rest := [ReadPending] + ([DeletePending(true)] + []);
    }
    Undisturbed.FirstThen(universe, file, r, table, listing, ListLog, rest, endTable, endRun);
    Undisturbed.FirstThen(universe, file, r, table, run, ReadWatermark, [ListLog] + rest, endTable, endRun);
    actions := [ReadWatermark] + ([ListLog] + rest);
    PerformedIsLed(universe, s, r, actions, endTable, endRun);
    t := With(s, r, endTable, endRun);
  }

  /** A run that starts later than any owner takes an untouched table and comes to its first discovery. */
  lemma ComesToDiscovery(universe: set<FileInfo>, s: State, r: TableOwner) returns (events: seq<Protocol.Event>, t: State)
    requires r !in s.runs && r !in s.claims.claims && !Keeps(s.claims.file, r) && Untouched(s.table)
    ensures Leads(universe, s, events, t)
    ensures t.table == s.table.(pending := None) && OwnsTable(t.claims.file, r)
    ensures t.runs.Keys == s.runs.Keys + {r} && t.runs[r].pc == Discovering
    ensures forall q :: q in s.runs ==> t.runs[q] == s.runs[q]
    ensures t.claims.file == Stored(Readable(r), s.claims.nextEtag) && t.claims.claims.Keys == s.claims.claims.Keys + {r}
  {
    hide Leads, Keeps, Untouched;
    var first, u := RunTakesTable(universe, s, r);
    var v := ListsAndSettles(universe, u, r);
    var actions;
    actions, t := FindsNothing(universe, v, r);
    LeadsThen(universe, s, first, u, ByRun(r, [ListOrphans, Settle]), v);
    LeadsThen(universe, s, first + ByRun(r, [ListOrphans, Settle]), v, ByRun(r, actions), t);
    events := first + ByRun(r, [ListOrphans, Settle]) + ByRun(r, actions);
  }

  /** What a discovery finds depends on the stored watermark only. */
  lemma SameDiscovery(
    universe: set<FileInfo>, a: Table, b: Table, listing: seq<FileInfo>, cutoff: int, maxFiles: int, maxBytes: int)
    requires a.watermark == b.watermark && GoodDiscovery(universe, a, listing, cutoff, maxFiles, maxBytes)
    ensures GoodDiscovery(universe, b, listing, cutoff, maxFiles, maxBytes)
  {
    hide UnprocessedBy, NextBatch, CompleteListing;
  }

  /** A run begins its first batch and passes the owner check in front of the submission. */
  lemma ComesToSubmission(
    universe: set<FileInfo>, s: State, r: TableOwner, listing: seq<FileInfo>, cutoff: int, maxFiles: int, maxBytes: int,
    token: nat, batch: seq<FileInfo>)
    returns (events: seq<Protocol.Event>, t: State)
    requires r in s.runs && s.runs[r].pc == Discovering && OwnsTable(s.claims.file, r) && token !in s.table.batches
    requires GoodDiscovery(universe, s.table, listing, cutoff, maxFiles, maxBytes)
    requires batch != [] && batch == NextBatch(UnprocessedBy(listing, s.table.watermark, cutoff), maxFiles, maxBytes)
    ensures Leads(universe, s, events, t)
    ensures
      var p := PendingOf(s.table, batch, token);
      t == With(s, r, s.table.(pending := Some(p), batches := s.table.batches[token := batch]), s.runs[r].At(SubmitOwned(p)))
  {
    hide Leads, GoodDiscovery, UnprocessedBy, NextBatch, OwnsTable, ByRun, BeginActions, PendingOf;
    var p := PendingOf(s.table, batch, token);
    var u := With(s, r, s.table.(pending := Some(p), batches := s.table.batches[token := batch]), s.runs[r].At(Submitting(p)));
    Begins(universe, s, r, listing, cutoff, maxFiles, maxBytes, false, token, batch);
    SubmitCheckMoves(universe, u, r, p);
    t := With(s, r, u.table, s.runs[r].At(SubmitOwned(p)));
    assert t.runs == u.runs[r := t.runs[r]];
    OneMove(universe, u, RunActs(r, SubmitCheck), t);
    var begin := ByRun(r, BeginActions(listing, cutoff, maxFiles, maxBytes, false, token));
    LeadsThen(universe, s, begin, u, [RunActs(r, SubmitCheck)], t);
    events := begin + [RunActs(r, SubmitCheck)];
  }

  /** Two running jobs commit. */
  lemma BothCommit(universe: set<FileInfo>, s: State, i: nat, j: nat) returns (events: seq<Protocol.Event>, t: State)
    requires i != j && i in s.table.jobs && j in s.table.jobs
    requires s.table.jobs[i].state.Running? && s.table.jobs[j].state.Running?
    ensures Leads(universe, s, events, t)
    ensures |t.table.log.history| == |s.table.log.history| + 2
    ensures t.table.log.history[|s.table.log.history|].files == s.table.jobs[i].files
    ensures t.table.log.history[|s.table.log.history| + 1].files == s.table.jobs[j].files
  {
    hide Leads;
    var u := Protocol.Step(universe, s, Happens(JobCommits(i, true, true)));
    t := Protocol.Step(universe, u, Happens(JobCommits(j, true, true)));
    TwoMoves(universe, s, Happens(JobCommits(i, true, true)), u, Happens(JobCommits(j, true, true)), t);
    events := [Happens(JobCommits(i, true, true)), Happens(JobCommits(j, true, true))];
  }

  /** A batch that was just begun has not committed. */
  lemma BegunIsUntouched(table: Table, begun: Table, batch: seq<FileInfo>, token: nat)
    requires Untouched(table) && table.log.cleaned <= |table.log.history|
    requires begun == table.(pending := Some(PendingOf(table, batch, token)), batches := begun.batches)
    ensures Untouched(begun)
  {
    hide Entries, LatestMetadata;
    var p := PendingOf(table, batch, token);
    assert FirstCandidate(table.log, p.deltaVersionBefore) == |table.log.history|;
  }

  /** From an empty table to the owner check in front of the first submission. */
  lemma EarlyRunPassesCheck(
    universe: set<FileInfo>, init: State, r: TableOwner, listing: seq<FileInfo>, cutoff: int, maxFiles: int, maxBytes: int,
    batch: seq<FileInfo>, token: nat)
    returns (events: seq<Protocol.Event>, t: State, p: PendingBatch)
    requires InitialState(init) && init.claims.file.Absent?
    requires GoodDiscovery(universe, init.table, listing, cutoff, maxFiles, maxBytes)
    requires batch != [] && batch == NextBatch(UnprocessedBy(listing, None, cutoff), maxFiles, maxBytes)
    ensures Leads(universe, init, events, t)
    ensures t.table == init.table.(pending := Some(p), batches := map[token := batch]) && Untouched(t.table)
    ensures p.token == token
    ensures t.runs.Keys == {r} && t.runs[r].pc == SubmitOwned(p) && t.claims.claims.Keys == {r}
    ensures t.claims.file.Stored? && t.claims.file.content == Readable(r)
  {
    hide Leads, GoodDiscovery, UnprocessedBy, NextBatch, PendingOf, FindTokenVersion;
    var e1, s1 := ComesToDiscovery(universe, init, r);
    SameDiscovery(universe, init.table, s1.table, listing, cutoff, maxFiles, maxBytes);
    var e2;
    e2, t := ComesToSubmission(universe, s1, r, listing, cutoff, maxFiles, maxBytes, token, batch);
    p := PendingOf(s1.table, batch, token);
    PendingHasToken(s1.table, batch, token);
    BegunIsUntouched(s1.table, t.table, batch, token);
    LeadsThen(universe, init, e1, s1, e2, t);
    events := e1 + e2;
  }

  /** The later run takes the table, drops the pending batch and submits the same files. */
  lemma LateRunSubmits(
    universe: set<FileInfo>, s: State, r: TableOwner, listing: seq<FileInfo>, cutoff: int, maxFiles: int, maxBytes: int,
    batch: seq<FileInfo>, token: nat, job: nat)
    returns (events: seq<Protocol.Event>, t: State, p: PendingBatch)
    requires r !in s.runs && r !in s.claims.claims && !Keeps(s.claims.file, r) && Untouched(s.table)
    requires token !in s.table.batches && job !in s.table.jobs
    requires GoodDiscovery(universe, s.table, listing, cutoff, maxFiles, maxBytes)
    requires batch != [] && batch == NextBatch(UnprocessedBy(listing, s.table.watermark, cutoff), maxFiles, maxBytes)
    ensures Leads(universe, s, events, t)
    ensures t.table == s.table.(pending := Some(p), batches := s.table.batches[token := batch],
                                jobs := s.table.jobs[job := Job(r, token, batch, Running)])
    ensures t.runs.Keys == s.runs.Keys + {r} && t.runs[r].pc == Polling(p, job)
    ensures forall q :: q in s.runs ==> t.runs[q] == s.runs[q]
    ensures t.claims.file.Stored? && t.claims.file.content == Readable(r)
  {
    hide Leads, GoodDiscovery, UnprocessedBy, NextBatch, PendingOf, Untouched, Keeps, BeginActions, ByRun;
    var e1, u := ComesToDiscovery(universe, s, r);
    SameDiscovery(universe, s.table, u.table, listing, cutoff, maxFiles, maxBytes);
    p := PendingOf(u.table, batch, token);
    PendingHasToken(u.table, batch, token);
    Begins(universe, u, r, listing, cutoff, maxFiles, maxBytes, false, token, batch);
    var v := With(u, r, u.table.(pending := Some(p), batches := u.table.batches[token := batch]), u.runs[r].At(Submitting(p)));
    Submits(universe, v, r, p, job);
    t := Submission(v, r, p, job);
    var begin := ByRun(r, BeginActions(listing, cutoff, maxFiles, maxBytes, false, token));
    var submit := [RunActs(r, SubmitCheck), RunActs(r, Submit(job)), RunActs(r, SecondCheck)];
    LeadsThen(universe, s, e1, u, begin, v);
    LeadsThen(universe, s, e1 + begin, v, submit, t);
    events := e1 + begin + submit;
  }

  /**
   * A run passes its owner check, a later run takes the table over, finds no job to wait for, and begins and submits
   * the same files; then the earlier run submits its job as well. If both commit before the earlier run makes its
   * second check, every one of these files is ingested twice.
   */
  lemma SupersededJobMayCommitToo(
    universe: set<FileInfo>, init: State, early: TableOwner, late: TableOwner, listing: seq<FileInfo>, cutoff: int,
    maxFiles: int, maxBytes: int, batch: seq<FileInfo>, tokens: (nat, nat), jobs: (nat, nat))
    returns (events: seq<Protocol.Event>, t: State)
    requires InitialState(init) && init.claims.file.Absent? && late.startedAt > early.startedAt
    requires GoodDiscovery(universe, init.table, listing, cutoff, maxFiles, maxBytes)
    requires batch != [] && batch == NextBatch(UnprocessedBy(listing, None, cutoff), maxFiles, maxBytes)
    requires tokens.0 != tokens.1 && jobs.0 != jobs.1
    ensures Protocol.Reaches(universe, init, events, t)
    ensures |t.table.log.history| == |init.table.log.history| + 2
    ensures t.table.log.history[|init.table.log.history|].files == batch
    ensures t.table.log.history[|init.table.log.history| + 1].files == batch
  {
    hide Leads, GoodDiscovery, UnprocessedBy, NextBatch, Untouched, Protocol.Reaches;
    var e1, s, p := EarlyRunPassesCheck(universe, init, early, listing, cutoff, maxFiles, maxBytes, batch, tokens.0);
    SameDiscovery(universe, init.table, s.table, listing, cutoff, maxFiles, maxBytes);
    var e2, u, later := LateRunSubmits(universe, s, late, listing, cutoff, maxFiles, maxBytes, batch, tokens.1, jobs.1);
    var v := With(u, early, u.table.(jobs := u.table.jobs[jobs.0 := Job(early, tokens.0, batch, Running)]),
                  u.runs[early].At(Submitted(p, jobs.0)));
    SubmitMoves(universe, u, early, p, jobs.0);
    OneMove(universe, u, RunActs(early, Submit(jobs.0)), v);
    var e3;
    e3, t := BothCommit(universe, v, jobs.0, jobs.1);
    LeadsThen(universe, init, e1, s, e2, u);
    LeadsThen(universe, init, e1 + e2, u, [RunActs(early, Submit(jobs.0))], v);
    LeadsThen(universe, init, e1 + e2 + [RunActs(early, Submit(jobs.0))], v, e3, t);
    NowhereIsReached(universe, init);
    events := [] + (e1 + e2 + [RunActs(early, Submit(jobs.0))] + e3);
    LeadsIsReached(universe, init, [], init, e1 + e2 + [RunActs(early, Submit(jobs.0))] + e3, t);
  }

  lemma NowhereIsReached(universe: set<FileInfo>, init: State)
    ensures Protocol.Reaches(universe, init, [], init)
  {}
}
