/**
 * What a run gets done while it owns its table, and what it can no longer do once it lost it: a discovered batch
 * is begun, submitted - again after each failure - committed and recorded; a superseded run leaves no trace.
 */
module Progress {
  import opened Files
  import opened CheckpointRecords
  import opened FileTracker
  import opened DeltaLog
  import opened Owner
  import opened Protocol
  import Takeover
  import Undisturbed
  import IncrementalLoop

  // ---- Schedules ------------------------------------------------------------------------------

  /** The events, one after the other, lead from `s` to `t`. */
  ghost predicate Leads(universe: set<FileInfo>, s: State, events: seq<Protocol.Event>, t: State)
    decreases |events|
  {
    if events == [] then t == s
    else
      Protocol.Enabled(universe, s, events[0]) && Leads(universe, Protocol.Step(universe, s, events[0]), events[1..], t)
  }

  lemma LeadsFirst(universe: set<FileInfo>, s: State, e: Protocol.Event, rest: seq<Protocol.Event>, t: State)
    requires Protocol.Enabled(universe, s, e) && Leads(universe, Protocol.Step(universe, s, e), rest, t)
    ensures Leads(universe, s, [e] + rest, t)
  {
    assert ([e] + rest)[1..] == rest;
  }

  lemma LeadsNowhere(universe: set<FileInfo>, s: State)
    ensures Leads(universe, s, [], s)
  {}

  lemma {:induction false} LeadsThen(
    universe: set<FileInfo>, s: State, first: seq<Protocol.Event>, u: State, second: seq<Protocol.Event>, t: State)
    requires Leads(universe, s, first, u) && Leads(universe, u, second, t)
    ensures Leads(universe, s, first + second, t)
    decreases |first|
  {
    hide Protocol.Enabled, Protocol.Step;
    if first == [] {
      assert first + second == second;
    } else {
      LeadsThen(universe, Protocol.Step(universe, s, first[0]), first[1..], u, second, t);
      LeadsFirst(universe, s, first[0], first[1..] + second, t);
      assert first + second == [first[0]] + (first[1..] + second);
    }
  }

  lemma OneMore(universe: set<FileInfo>, init: State, before: seq<Protocol.Event>, s: State, e: Protocol.Event)
    requires Protocol.Reaches(universe, init, before, s) && Protocol.Enabled(universe, s, e)
    ensures Protocol.Reaches(universe, init, before + [e], Protocol.Step(universe, s, e))
  {
    hide Protocol.Enabled, Protocol.Step;
    assert (before + [e])[..|before|] == before;
  }

  lemma LeadsUnfolds(universe: set<FileInfo>, s: State, events: seq<Protocol.Event>, t: State)
    requires Leads(universe, s, events, t)
    ensures events == [] ==> t == s
    ensures events != [] ==>
      Protocol.Enabled(universe, s, events[0]) && Leads(universe, Protocol.Step(universe, s, events[0]), events[1..], t)
  {}

  /** What a schedule leads to from a state that events reach is reached too. */
  lemma {:induction false} LeadsIsReached(
    universe: set<FileInfo>, init: State, before: seq<Protocol.Event>, s: State, events: seq<Protocol.Event>, t: State)
    requires Protocol.Reaches(universe, init, before, s) && Leads(universe, s, events, t)
    ensures Protocol.Reaches(universe, init, before + events, t)
    decreases |events|
  {
    hide *;
    LeadsUnfolds(universe, s, events, t);
    if events == [] {
      assert before + events == before;
    } else {
      OneMore(universe, init, before, s, events[0]);
      LeadsIsReached(universe, init, before + [events[0]], Protocol.Step(universe, s, events[0]), events[1..], t);
      assert before + events == before + [events[0]] + events[1..];
    }
  }

  function ByRun(r: TableOwner, actions: seq<Action>): (events: seq<Protocol.Event>)
    ensures |events| == |actions|
  {
    seq(|actions|, i requires 0 <= i < |actions| => RunActs(r, actions[i]))
  }

  /** A state in which only the table and the run `r` may differ. */
  function With(s: State, r: TableOwner, table: Table, run: Run): State {
    s.(table := table, runs := s.runs[r := run])
  }

  /** An action that neither cancels nor checks a job. */
  predicate IsPlain(a: Action) { !a.SecondCheck? && !a.GiveUp? }

  lemma PlainStep(universe: set<FileInfo>, s: State, r: TableOwner, a: Action)
    requires r in s.runs && CanAct(universe, s.table, s.runs[r], a) && IsPlain(a)
    ensures Protocol.Enabled(universe, s, RunActs(r, a))
    ensures
      var o := Act(universe, s.table, s.claims.file, r, s.runs[r], a);
      Protocol.Step(universe, s, RunActs(r, a)) == With(s, r, o.table, o.run)
  {
    hide CanAct, OwnsTable, ActReadPending, ActAdopt, ActDiscover, Recording, Protocol.NewPending, AfterResolve;
  }

  /** The steps of one run with nothing in between are a schedule of the whole system. */
  lemma {:induction false} PerformedIsLed(
    universe: set<FileInfo>, s: State, r: TableOwner, actions: seq<Action>, endTable: Table, endRun: Run)
    requires r in s.runs && forall i :: 0 <= i < |actions| ==> IsPlain(actions[i])
    requires Undisturbed.Performs(universe, s.claims.file, r, s.table, s.runs[r], actions, endTable, endRun)
    ensures Leads(universe, s, ByRun(r, actions), With(s, r, endTable, endRun))
    decreases |actions|
  {
    hide CanAct, Act, Protocol.Enabled, Protocol.Step, IsPlain;
    if actions == [] {
      assert s.runs[r := s.runs[r]] == s.runs;
      LeadsNowhere(universe, s);
    } else {
      var o := Act(universe, s.table, s.claims.file, r, s.runs[r], actions[0]);
      var next := With(s, r, o.table, o.run);
      PlainStep(universe, s, r, actions[0]);
      PerformedIsLed(universe, next, r, actions[1..], endTable, endRun);
      assert With(next, r, endTable, endRun) == With(s, r, endTable, endRun);
      LeadsFirst(universe, s, RunActs(r, actions[0]), ByRun(r, actions[1..]), With(s, r, endTable, endRun));
      assert ByRun(r, actions) == [RunActs(r, actions[0])] + ByRun(r, actions[1..]);
    }
  }

  // ---- One submission -------------------------------------------------------------------------

  /** One attempt: the first owner check, the submission, the second check, the job's end and the poll. */
  function Attempt(r: TableOwner, job: nat, end: Env, retry: bool): seq<Protocol.Event> {
    [RunActs(r, SubmitCheck), RunActs(r, Submit(job)), RunActs(r, SecondCheck), Happens(end), RunActs(r, Poll(retry))]
  }

  function Submission(s: State, r: TableOwner, p: PendingBatch, job: nat): State
    requires r in s.runs && p.token in s.table.batches
  {
    With(s, r, s.table.(jobs := s.table.jobs[job := Job(r, p.token, s.table.batches[p.token], Running)]),
         s.runs[r].At(Polling(p, job))).(secondChecks := s.secondChecks + map[job := true])
  }

  /** `e` leads from `s` to `t`. */
  ghost predicate Moves(universe: set<FileInfo>, s: State, e: Protocol.Event, t: State) {
    Protocol.Enabled(universe, s, e) && Protocol.Step(universe, s, e) == t
  }

  lemma TwoMoves(universe: set<FileInfo>, s: State, e: Protocol.Event, u: State, f: Protocol.Event, t: State)
    requires Moves(universe, s, e, u) && Moves(universe, u, f, t)
    ensures Leads(universe, s, [e, f], t)
  {
    hide Protocol.Enabled, Protocol.Step, Leads;
    LeadsNowhere(universe, t);
    LeadsFirst(universe, u, f, [], t);
    LeadsFirst(universe, s, e, [f] + [], t);
    assert [e] + ([f] + []) == [e, f];
  }

  lemma SubmitCheckMoves(universe: set<FileInfo>, s: State, r: TableOwner, p: PendingBatch)
    requires r in s.runs && s.runs[r].pc == Submitting(p) && OwnsTable(s.claims.file, r)
    ensures Moves(universe, s, RunActs(r, SubmitCheck), With(s, r, s.table, s.runs[r].At(SubmitOwned(p))))
  {
    PlainStep(universe, s, r, SubmitCheck);
  }

  lemma SubmitMoves(universe: set<FileInfo>, s: State, r: TableOwner, p: PendingBatch, job: nat)
    requires r in s.runs && s.runs[r].pc == SubmitOwned(p) && p.token in s.table.batches && job !in s.table.jobs
    ensures Moves(universe, s, RunActs(r, Submit(job)),
                  With(s, r, s.table.(jobs := s.table.jobs[job := Job(r, p.token, s.table.batches[p.token], Running)]),
                       s.runs[r].At(Submitted(p, job))))
  {
    PlainStep(universe, s, r, Submit(job));
  }

  lemma SecondCheckMoves(universe: set<FileInfo>, s: State, r: TableOwner, p: PendingBatch, job: nat)
    requires r in s.runs && s.runs[r].pc == Submitted(p, job) && OwnsTable(s.claims.file, r)
    ensures Moves(universe, s, RunActs(r, SecondCheck),
                  With(s, r, s.table, s.runs[r].At(Polling(p, job))).(secondChecks := s.secondChecks + map[job := true]))
  {
    assert s.cancelRequested + {} == s.cancelRequested;
  }

  /** A run that owns its table submits the job of its pending batch and passes both checks. */
  lemma Submits(universe: set<FileInfo>, s: State, r: TableOwner, p: PendingBatch, job: nat)
    requires r in s.runs && s.runs[r].pc == Submitting(p) && OwnsTable(s.claims.file, r)
    requires p.token in s.table.batches && job !in s.table.jobs
    ensures Leads(universe, s, [RunActs(r, SubmitCheck), RunActs(r, Submit(job)), RunActs(r, SecondCheck)],
                  Submission(s, r, p, job))
  {
    hide OwnsTable, Leads, Protocol.Enabled, Protocol.Step;
    SubmitCheckMoves(universe, s, r, p);
    var owned := With(s, r, s.table, s.runs[r].At(SubmitOwned(p)));
    SubmitMoves(universe, owned, r, p, job);
    var t := Submission(s, r, p, job);
    var submitted := With(owned, r, t.table, s.runs[r].At(Submitted(p, job)));
    SecondCheckMoves(universe, submitted, r, p, job);
    assert submitted.runs[r := t.runs[r]] == t.runs;
    TwoMoves(universe, owned, RunActs(r, Submit(job)), submitted, RunActs(r, SecondCheck), t);
    LeadsFirst(universe, s, RunActs(r, SubmitCheck), [RunActs(r, Submit(job)), RunActs(r, SecondCheck)], t);
    assert [RunActs(r, SubmitCheck)] + [RunActs(r, Submit(job)), RunActs(r, SecondCheck)] ==
           [RunActs(r, SubmitCheck), RunActs(r, Submit(job)), RunActs(r, SecondCheck)];
  }

  /** The job fails: the batch is submitted again, or the run ends, and nothing else changed. */
  lemma FailedJobIsPolled(universe: set<FileInfo>, s: State, r: TableOwner, p: PendingBatch, job: nat, retry: bool)
    requires r in s.runs && s.runs[r].pc == Polling(p, job)
    requires job in s.table.jobs && s.table.jobs[job].state.Running?
    ensures
      var failed := s.table.jobs[job].(state := Failed);
      Leads(universe, s, [Happens(JobFails(job)), RunActs(r, Poll(retry))],
            With(s, r, s.table.(jobs := s.table.jobs[job := failed]), s.runs[r].At(if retry then Submitting(p) else Stopped)))
  {
    hide Leads;
    var t := Protocol.Step(universe, s, Happens(JobFails(job)));
    PlainStep(universe, t, r, Poll(retry));
    TwoMoves(universe, s, Happens(JobFails(job)), t, RunActs(r, Poll(retry)),
             Protocol.Step(universe, t, RunActs(r, Poll(retry))));
  }

  /** The job commits: whether or not retries are left, the run goes on to record the batch. */
  lemma CommittedJobIsPolled(
    universe: set<FileInfo>, s: State, r: TableOwner, p: PendingBatch, job: nat, retry: bool, addsData: bool, namesToken: bool)
    requires r in s.runs && s.runs[r].pc == Polling(p, job)
    requires job in s.table.jobs && s.table.jobs[job].state.Running?
    ensures
      var j := s.table.jobs[job];
      var commit := Commit(Some(Some(j.token)), if namesToken then Some(j.token) else None, true, addsData, Some(j.token), j.files);
      Leads(universe, s, [Happens(JobCommits(job, addsData, namesToken)), RunActs(r, Poll(retry))],
            With(s, r,
                 s.table.(jobs := s.table.jobs[job := j.(state := Succeeded)],
                          log := s.table.log.(history := s.table.log.history + [commit])),
                 s.runs[r].At(Updating(p))))
  {
    hide Leads;
    var e := Happens(JobCommits(job, addsData, namesToken));
    var t := Protocol.Step(universe, s, e);
    PlainStep(universe, t, r, Poll(retry));
    TwoMoves(universe, s, e, t, RunActs(r, Poll(retry)), Protocol.Step(universe, t, RunActs(r, Poll(retry))));
  }

  // ---- Any number of attempts -----------------------------------------------------------------

  /** The events of attempts that failed, one after the other. */
  function FailedAttempts(r: TableOwner, failed: seq<nat>): seq<Protocol.Event> {
    if failed == [] then [] else Attempt(r, failed[0], JobFails(failed[0]), true) + FailedAttempts(r, failed[1..])
  }

  /** Nothing but jobs and their second checks differs, and every job of `s` is as it was. */
  ghost predicate OnlyJobsDiffer(s: State, t: State, jobs: set<nat>) {
    && t == s.(table := s.table.(jobs := t.table.jobs), secondChecks := t.secondChecks)
    && t.table.jobs.Keys == s.table.jobs.Keys + jobs
    && forall j :: j in s.table.jobs && j !in jobs ==> t.table.jobs[j] == s.table.jobs[j]
  }

  lemma AttemptSplits(r: TableOwner, job: nat, end: Env, retry: bool)
    ensures Attempt(r, job, end, retry) ==
      [RunActs(r, SubmitCheck), RunActs(r, Submit(job)), RunActs(r, SecondCheck)] + [Happens(end), RunActs(r, Poll(retry))]
  {}

  /** One failed attempt, after which the run is about to submit again. */
  lemma OneFailure(universe: set<FileInfo>, s: State, r: TableOwner, p: PendingBatch, job: nat) returns (t: State)
    requires r in s.runs && s.runs[r].pc == Submitting(p) && OwnsTable(s.claims.file, r)
    requires p.token in s.table.batches && job !in s.table.jobs
    ensures Leads(universe, s, Attempt(r, job, JobFails(job), true), t) && OnlyJobsDiffer(s, t, {job})
  {
    hide OwnsTable, Leads, Attempt;
    var u := Submission(s, r, p, job);
    Submits(universe, s, r, p, job);
    FailedJobIsPolled(universe, u, r, p, job, true);
    AttemptSplits(r, job, JobFails(job), true);
    t := With(u, r, u.table.(jobs := u.table.jobs[job := u.table.jobs[job].(state := Failed)]), s.runs[r]);
    assert u.runs[r].At(Submitting(p)) == s.runs[r];
    assert t.runs == s.runs;
    LeadsThen(universe, s, [RunActs(r, SubmitCheck), RunActs(r, Submit(job)), RunActs(r, SecondCheck)], u,
              [Happens(JobFails(job)), RunActs(r, Poll(true))], t);
  }

  lemma OnlyJobsDifferTwice(s: State, u: State, t: State, job: nat, jobs: set<nat>)
    requires OnlyJobsDiffer(s, u, {job}) && OnlyJobsDiffer(u, t, jobs)
    ensures OnlyJobsDiffer(s, t, {job} + jobs)
  {
    assert t.table.jobs.Keys == s.table.jobs.Keys + ({job} + jobs);
  }

  /** New job ids, none of them twice. */
  ghost predicate FreshJobs(table: Table, jobs: seq<nat>) {
    && (forall i :: 0 <= i < |jobs| ==> jobs[i] !in table.jobs)
    && forall i, k :: 0 <= i < k < |jobs| ==> jobs[i] != jobs[k]
  }

  function JobSet(jobs: seq<nat>): set<nat> { set j | j in jobs }

  lemma RestIsFresh(s: State, u: State, jobs: seq<nat>)
    requires jobs != [] && FreshJobs(s.table, jobs) && OnlyJobsDiffer(s, u, {jobs[0]})
    ensures FreshJobs(u.table, jobs[1..])
    ensures JobSet(jobs) == {jobs[0]} + JobSet(jobs[1..])
  {
    assert jobs == [jobs[0]] + jobs[1..];
  }

  lemma OnlyJobsDifferKeeps(s: State, t: State, jobs: set<nat>)
    requires OnlyJobsDiffer(s, t, jobs)
    ensures t.claims == s.claims && t.runs == s.runs && t.cancelRequested == s.cancelRequested
    ensures t.table.batches == s.table.batches && t.table.log == s.table.log && t.table.watermark == s.table.watermark
    ensures t.table.sources == s.table.sources && t.table.pending == s.table.pending
  {}

  lemma NothingDiffers(s: State)
    ensures OnlyJobsDiffer(s, s, {})
  {}

  lemma {:induction false} ManyFailures(universe: set<FileInfo>, s: State, r: TableOwner, p: PendingBatch, failed: seq<nat>)
    returns (t: State)
    requires r in s.runs && s.runs[r].pc == Submitting(p) && OwnsTable(s.claims.file, r) && p.token in s.table.batches
    requires FreshJobs(s.table, failed)
    ensures Leads(universe, s, FailedAttempts(r, failed), t)
    ensures OnlyJobsDiffer(s, t, JobSet(failed))
    decreases |failed|
  {
    hide OwnsTable, Leads, Attempt, OnlyJobsDiffer;
    if failed == [] {
      t := s;
      LeadsNowhere(universe, s);
      NothingDiffers(s);
      assert JobSet(failed) == {};
    } else {
      var u := OneFailure(universe, s, r, p, failed[0]);
      OnlyJobsDifferKeeps(s, u, {failed[0]});
      RestIsFresh(s, u, failed);
      hide FreshJobs;
      t := ManyFailures(universe, u, r, p, failed[1..]);
      OnlyJobsDifferTwice(s, u, t, failed[0], JobSet(failed[1..]));
      LeadsThen(universe, s, Attempt(r, failed[0], JobFails(failed[0]), true), u, FailedAttempts(r, failed[1..]), t);
    }
  }

  // ---- A batch from discovery to checkpoint ---------------------------------------------------

  /** The batch is chosen and `begin_batch` records it as pending. */
  function BeginActions(listing: seq<FileInfo>, cutoff: int, maxFiles: int, maxBytes: int, again: bool, token: nat): seq<Action> {
    [Discover(listing, cutoff, maxFiles, maxBytes, again)] + ([BeginCheck, BeginReadWatermark, BeginReadVersion] + [WritePending(token)])
  }

  /** `update_checkpoint`, keeping the sources `kept`. */
  function UpdateActions(kept: set<int>): seq<Action> {
    [UpdateCheck, UpdateReadWatermark, UpdateReadVersion(true)]
    + [WriteWatermark, WriteSources, CleanSources(kept), DeletePending(true)]
  }

  /** What is stored for a batch before its job is submitted. */
  function PendingOf(table: Table, batch: seq<FileInfo>, token: nat): PendingBatch {
    PendingBatch(token, if table.watermark.Some? then table.watermark.value.batchId + 1 else 0, Entries(batch),
                 table.watermark, |table.log.history| - 1)
  }

  lemma Begins(
    universe: set<FileInfo>, s: State, r: TableOwner, listing: seq<FileInfo>, cutoff: int, maxFiles: int, maxBytes: int,
    again: bool, token: nat, batch: seq<FileInfo>)
    requires r in s.runs && s.runs[r].pc == Discovering && OwnsTable(s.claims.file, r) && token !in s.table.batches
    requires GoodDiscovery(universe, s.table, listing, cutoff, maxFiles, maxBytes)
    requires batch != [] && batch == NextBatch(UnprocessedBy(listing, s.table.watermark, cutoff), maxFiles, maxBytes)
    ensures
      var p := PendingOf(s.table, batch, token);
      Leads(universe, s, ByRun(r, BeginActions(listing, cutoff, maxFiles, maxBytes, again, token)),
            With(s, r, s.table.(pending := Some(p), batches := s.table.batches[token := batch]), s.runs[r].At(Submitting(p))))
  {
    hide Undisturbed.Performs, Leads, GoodDiscovery, UnprocessedBy, NextBatch, Entries, OwnsTable;
    var file, table, run := s.claims.file, s.table, s.runs[r];
    var discover := Discover(listing, cutoff, maxFiles, maxBytes, again);
    var chosen := run.At(BatchChosen(batch));
    assert Act(universe, table, file, r, run, discover) == Quiet(table, chosen);
    var begin, versioned := Undisturbed.BeginReads(universe, file, r, table, chosen);
    var p := PendingOf(table, batch, token);
    var endTable, endRun := table.(pending := Some(p), batches := table.batches[token := batch]), run.At(Submitting(p));
    assert Act(universe, table, file, r, versioned, WritePending(token)) == Quiet(endTable, endRun);
    Undisturbed.NoActions(universe, file, r, endTable, endRun);
    Undisturbed.FirstThen(universe, file, r, table, versioned, WritePending(token), [], endTable, endRun);
    Undisturbed.Concatenated(universe, file, r, table, chosen, begin, table, versioned, [WritePending(token)] + [], endTable, endRun);
    assert begin + ([WritePending(token)] + []) == begin + [WritePending(token)];
    Undisturbed.FirstThen(universe, file, r, table, run, discover, begin + [WritePending(token)], endTable, endRun);
    PerformedIsLed(universe, s, r, BeginActions(listing, cutoff, maxFiles, maxBytes, again, token), endTable, endRun);
  }

  function Recorded(table: Table, batch: seq<FileInfo>, version: Option<int>): Table {
    var next := ComputeNewWatermark(batch, table.watermark).(deltaVersion := version);
    table.(watermark := Some(next), pending := None, sources := table.sources[next.batchId := Entries(batch)])
  }

  lemma Updates(universe: set<FileInfo>, s: State, r: TableOwner, p: PendingBatch, batch: seq<FileInfo>, kept: set<int>)
    requires r in s.runs && s.runs[r].pc == Updating(p) && OwnsTable(s.claims.file, r)
    requires p.token in s.table.batches && batch == s.table.batches[p.token]
    requires kept == s.table.sources.Keys + {ComputeNewWatermark(batch, s.table.watermark).batchId}
    ensures Leads(universe, s, ByRun(r, UpdateActions(kept)),
                  With(s, r, Recorded(s.table, batch, CommittedVersion(s.table.log, p, true)), s.runs[r].At(Discovering)))
  {
    hide Undisturbed.Performs, Leads, CommittedVersion, ComputeNewWatermark, Entries, OwnsTable;
    var file, table, run := s.claims.file, s.table, s.runs[r];
    var begin, recording := Undisturbed.UpdateReads(universe, file, r, table, run, true);
    var rest, endTable, endRun := Undisturbed.RecordingSteps(universe, file, r, table, recording, true);
    Undisturbed.Concatenated(universe, file, r, table, run, begin, table, recording, rest, endTable, endRun);
    assert begin + rest == UpdateActions(kept);
    PerformedIsLed(universe, s, r, UpdateActions(kept), endTable, endRun);
    assert endTable == Recorded(table, batch, CommittedVersion(table.log, p, true));
  }

  /** The commit right after the version a batch recorded is found. */
  lemma OwnCommitIsFound(log: Log, commit: Commit, p: PendingBatch)
    requires log.cleaned <= |log.history| && p.deltaVersionBefore == |log.history| - 1
    requires commit.metadata == Some(Some(p.token))
    ensures CommittedVersion(log.(history := log.history + [commit]), p, true) == Some(|log.history|)
  {
    assert commit.Carries(p.token);
    assert FirstCandidate(log.(history := log.history + [commit]), p.deltaVersionBefore) == |log.history|;
  }

  /** Begin, any number of failed attempts, one that commits, and the update of the checkpoint. */
  function BatchEvents(r: TableOwner, begin: seq<Action>, failed: seq<nat>, job: nat, end: Env, retry: bool, kept: set<int>)
    : seq<Protocol.Event>
  {
    ((ByRun(r, begin) + FailedAttempts(r, failed)) + Attempt(r, job, end, retry)) + ByRun(r, UpdateActions(kept))
  }

  function CommitOf(p: PendingBatch, batch: seq<FileInfo>, addsData: bool, namesToken: bool): Commit {
    Commit(Some(Some(p.token)), if namesToken then Some(p.token) else None, true, addsData, Some(p.token), batch)
  }

  /** The state once the job of `p` committed and was polled. */
  function Committed(s: State, r: TableOwner, p: PendingBatch, job: nat, commit: Commit): State
    requires r in s.runs && p.token in s.table.batches
  {
    With(s, r,
         s.table.(jobs := s.table.jobs[job := Job(r, p.token, s.table.batches[p.token], Succeeded)],
                  log := s.table.log.(history := s.table.log.history + [commit])),
         s.runs[r].At(Updating(p))).(secondChecks := s.secondChecks + map[job := true])
  }

  lemma LastAttempt(
    universe: set<FileInfo>, s: State, r: TableOwner, p: PendingBatch, job: nat, retry: bool, addsData: bool, namesToken: bool)
    requires r in s.runs && s.runs[r].pc == Submitting(p) && OwnsTable(s.claims.file, r)
    requires p.token in s.table.batches && job !in s.table.jobs
    ensures Leads(universe, s, Attempt(r, job, JobCommits(job, addsData, namesToken), retry),
                  Committed(s, r, p, job, CommitOf(p, s.table.batches[p.token], addsData, namesToken)))
  {
    hide OwnsTable, Leads, Attempt;
    var end := JobCommits(job, addsData, namesToken);
    var v := Submission(s, r, p, job);
    Submits(universe, s, r, p, job);
    CommittedJobIsPolled(universe, v, r, p, job, retry, addsData, namesToken);
    AttemptSplits(r, job, end, retry);
    var t := Committed(s, r, p, job, CommitOf(p, s.table.batches[p.token], addsData, namesToken));
    assert t.table.jobs == v.table.jobs[job := v.table.jobs[job].(state := Succeeded)];
    assert t.runs == v.runs[r := v.runs[r].At(Updating(p))];
    LeadsThen(universe, s, [RunActs(r, SubmitCheck), RunActs(r, Submit(job)), RunActs(r, SecondCheck)], v,
              [Happens(end), RunActs(r, Poll(retry))], t);
  }

  /** The batch's job commits at last, and the run goes on to update the checkpoint. */
  lemma CommitsAtLast(
    universe: set<FileInfo>, s: State, r: TableOwner, p: PendingBatch, failed: seq<nat>, job: nat, retry: bool,
    addsData: bool, namesToken: bool)
    returns (t: State, jobs: map<nat, Job>)
    requires r in s.runs && s.runs[r].pc == Submitting(p) && OwnsTable(s.claims.file, r) && p.token in s.table.batches
    requires FreshJobs(s.table, failed + [job])
    ensures Leads(
      universe, s, FailedAttempts(r, failed) + Attempt(r, job, JobCommits(job, addsData, namesToken), retry), t)
    ensures t.table == s.table.(
      jobs := jobs,
      log := s.table.log.(history := s.table.log.history + [CommitOf(p, s.table.batches[p.token], addsData, namesToken)]))
    ensures jobs.Keys == s.table.jobs.Keys + JobSet(failed) + {job} && jobs[job].state.Succeeded?
    ensures forall j :: j in s.table.jobs ==> jobs[j] == s.table.jobs[j]
    ensures t.runs == s.runs[r := s.runs[r].At(Updating(p))]
    ensures t.claims == s.claims && t.cancelRequested == s.cancelRequested
  {
    hide OwnsTable, Leads, Attempt, OnlyJobsDiffer, CommitOf;
    JobsSplit(s.table, failed, job);
    var u := ManyFailures(universe, s, r, p, failed);
    OnlyJobsDifferKeeps(s, u, JobSet(failed));
    OnlyJobsAre(s, u, JobSet(failed));
    hide FreshJobs, JobSet;
    LastAttempt(universe, u, r, p, job, retry, addsData, namesToken);
    t := Committed(u, r, p, job, CommitOf(p, s.table.batches[p.token], addsData, namesToken));
    jobs := t.table.jobs;
    LeadsThen(universe, s, FailedAttempts(r, failed), u, Attempt(r, job, JobCommits(job, addsData, namesToken), retry), t);
  }

  lemma JobsSplit(table: Table, failed: seq<nat>, job: nat)
    requires FreshJobs(table, failed + [job])
    ensures FreshJobs(table, failed) && job !in table.jobs && job !in JobSet(failed)
    ensures forall j :: j in JobSet(failed) ==> j !in table.jobs
  {
    var all := failed + [job];
    assert all[|failed|] == job;
    assert forall i :: 0 <= i < |failed| ==> failed[i] == all[i];
  }

  lemma OnlyJobsAre(s: State, t: State, jobs: set<nat>)
    requires OnlyJobsDiffer(s, t, jobs) && forall j :: j in jobs ==> j !in s.table.jobs
    ensures t.table == s.table.(jobs := t.table.jobs) && t.table.jobs.Keys == s.table.jobs.Keys + jobs
    ensures forall j :: j in s.table.jobs ==> t.table.jobs[j] == s.table.jobs[j]
  {}

  lemma SameJobsStayFresh(a: Table, b: Table, jobs: seq<nat>)
    requires FreshJobs(a, jobs) && a.jobs == b.jobs
    ensures FreshJobs(b, jobs)
  {}

  /** The batch is begun and, after the failed attempts, committed. */
  lemma BatchIsCommitted(
    universe: set<FileInfo>, s: State, r: TableOwner, listing: seq<FileInfo>, cutoff: int, maxFiles: int, maxBytes: int,
    again: bool, token: nat, batch: seq<FileInfo>, failed: seq<nat>, job: nat, retry: bool, addsData: bool, namesToken: bool)
    returns (t: State, jobs: map<nat, Job>)
    requires r in s.runs && s.runs[r].pc == Discovering && OwnsTable(s.claims.file, r)
    requires GoodDiscovery(universe, s.table, listing, cutoff, maxFiles, maxBytes)
    requires batch != [] && batch == NextBatch(UnprocessedBy(listing, s.table.watermark, cutoff), maxFiles, maxBytes)
    requires token !in s.table.batches && FreshJobs(s.table, failed + [job])
    ensures Leads(
      universe, s,
      ByRun(r, BeginActions(listing, cutoff, maxFiles, maxBytes, again, token))
      + (FailedAttempts(r, failed) + Attempt(r, job, JobCommits(job, addsData, namesToken), retry)),
      t)
    ensures
      var p := PendingOf(s.table, batch, token);
      && t.table == s.table.(
           pending := Some(p), batches := s.table.batches[token := batch], jobs := jobs,
           log := s.table.log.(history := s.table.log.history + [CommitOf(p, batch, addsData, namesToken)]))
      && t.runs == s.runs[r := s.runs[r].At(Updating(p))]
    ensures t.claims == s.claims && t.cancelRequested == s.cancelRequested
    ensures jobs.Keys == s.table.jobs.Keys + JobSet(failed) + {job} && jobs[job].state.Succeeded?
    ensures forall j :: j in s.table.jobs ==> jobs[j] == s.table.jobs[j]
  {
    hide OwnsTable, Leads, Attempt, GoodDiscovery, UnprocessedBy, NextBatch, Entries, FreshJobs, ByRun, JobSet, CommitOf, PendingOf;
    var p := PendingOf(s.table, batch, token);
    PendingHasToken(s.table, batch, token);
    var begin := ByRun(r, BeginActions(listing, cutoff, maxFiles, maxBytes, again, token));
    Begins(universe, s, r, listing, cutoff, maxFiles, maxBytes, again, token, batch);
    var u := With(s, r, s.table.(pending := Some(p), batches := s.table.batches[token := batch]), s.runs[r].At(Submitting(p)));
    SameJobsStayFresh(s.table, u.table, failed + [job]);
    t, jobs := CommitsAtLast(universe, u, r, p, failed, job, retry, addsData, namesToken);
    LeadsThen(universe, s, begin, u,
              FailedAttempts(r, failed) + Attempt(r, job, JobCommits(job, addsData, namesToken), retry), t);
  }

  lemma PendingHasToken(table: Table, batch: seq<FileInfo>, token: nat)
    ensures PendingOf(table, batch, token).token == token
    ensures PendingOf(table, batch, token).deltaVersionBefore == |table.log.history| - 1
  {}

  lemma RecordedForgetsPending(table: Table, pending: Option<PendingBatch>, batch: seq<FileInfo>, version: Option<int>)
    ensures Recorded(table.(pending := pending), batch, version) == Recorded(table, batch, version)
  {}

  /** It is then recorded. */
  lemma BatchIsLed(
    universe: set<FileInfo>, s: State, r: TableOwner, listing: seq<FileInfo>, cutoff: int, maxFiles: int, maxBytes: int,
    again: bool, token: nat, batch: seq<FileInfo>, failed: seq<nat>, job: nat, retry: bool, addsData: bool, namesToken: bool)
    returns (t: State, jobs: map<nat, Job>, kept: set<int>)
    requires r in s.runs && s.runs[r].pc == Discovering && OwnsTable(s.claims.file, r)
    requires GoodDiscovery(universe, s.table, listing, cutoff, maxFiles, maxBytes)
    requires batch != [] && batch == NextBatch(UnprocessedBy(listing, s.table.watermark, cutoff), maxFiles, maxBytes)
    requires token !in s.table.batches && FreshJobs(s.table, failed + [job]) && s.table.log.cleaned <= |s.table.log.history|
    ensures Leads(
      universe, s,
      BatchEvents(r, BeginActions(listing, cutoff, maxFiles, maxBytes, again, token), failed, job,
                  JobCommits(job, addsData, namesToken), retry, kept),
      t)
    ensures t.runs == s.runs && t.claims == s.claims && t.cancelRequested == s.cancelRequested
    ensures
      var commit := CommitOf(PendingOf(s.table, batch, token), batch, addsData, namesToken);
      t.table == Recorded(
        s.table.(batches := s.table.batches[token := batch], jobs := jobs,
                 log := s.table.log.(history := s.table.log.history + [commit])),
        batch, Some(|s.table.log.history|))
    ensures jobs.Keys == s.table.jobs.Keys + JobSet(failed) + {job} && jobs[job].state.Succeeded?
    ensures forall j :: j in s.table.jobs ==> jobs[j] == s.table.jobs[j]
  {
    hide OwnsTable, Leads, Attempt, GoodDiscovery, UnprocessedBy, NextBatch, Entries, FreshJobs, CommittedVersion, ByRun, MaxTime,
         ComputeNewWatermark, JobSet, Recorded, BeginActions, FailedAttempts, PendingOf, UpdateActions;
    var p := PendingOf(s.table, batch, token);
    PendingHasToken(s.table, batch, token);
    var begin := BeginActions(listing, cutoff, maxFiles, maxBytes, again, token);
    var v;
    v, jobs := BatchIsCommitted(universe, s, r, listing, cutoff, maxFiles, maxBytes, again, token, batch, failed, job, retry,
                                addsData, namesToken);
    OwnCommitIsFound(s.table.log, CommitOf(p, batch, addsData, namesToken), p);
    hide CommitOf;
    kept := s.table.sources.Keys + {ComputeNewWatermark(batch, s.table.watermark).batchId};
    Updates(universe, v, r, p, batch, kept);
    t := With(v, r, Recorded(v.table, batch, Some(|s.table.log.history|)), v.runs[r].At(Discovering));
    RecordedForgetsPending(v.table, s.table.pending, batch, Some(|s.table.log.history|));
    assert s.runs[r].At(Discovering) == s.runs[r];
    assert t.runs == s.runs;
    JoinBatchEvents(universe, s, r, begin, failed, job, JobCommits(job, addsData, namesToken), retry, v, kept, t);
  }

  lemma JoinBatchEvents(
    universe: set<FileInfo>, s: State, r: TableOwner, begin: seq<Action>, failed: seq<nat>, job: nat, end: Env,
    retry: bool, v: State, kept: set<int>, t: State)
    requires Leads(universe, s, ByRun(r, begin) + (FailedAttempts(r, failed) + Attempt(r, job, end, retry)), v)
    requires Leads(universe, v, ByRun(r, UpdateActions(kept)), t)
    ensures Leads(universe, s, BatchEvents(r, begin, failed, job, end, retry, kept), t)
  {
    hide Leads, ByRun, FailedAttempts, Attempt;
    var attempts := FailedAttempts(r, failed) + Attempt(r, job, end, retry);
    LeadsThen(universe, s, ByRun(r, begin) + attempts, v, ByRun(r, UpdateActions(kept)), t);
    assert ByRun(r, begin) + attempts == (ByRun(r, begin) + FailedAttempts(r, failed)) + Attempt(r, job, end, retry);
  }

  /**
   * A run that owns its table and discovers a batch gets it recorded, whatever number of its jobs fails first and
   * whether or not a retry is left for the one that commits: the log grows by one commit of exactly the batch, and
   * the watermark is at the batch's latest time and names that commit's version.
   */
  lemma BatchIsRecorded(
    universe: set<FileInfo>, s: State, r: TableOwner, listing: seq<FileInfo>, cutoff: int, maxFiles: int, maxBytes: int,
    again: bool, token: nat, batch: seq<FileInfo>, failed: seq<nat>, job: nat, retry: bool, addsData: bool, namesToken: bool)
    returns (t: State, kept: set<int>)
    requires r in s.runs && s.runs[r].pc == Discovering && OwnsTable(s.claims.file, r)
    requires GoodDiscovery(universe, s.table, listing, cutoff, maxFiles, maxBytes)
    requires batch != [] && batch == NextBatch(UnprocessedBy(listing, s.table.watermark, cutoff), maxFiles, maxBytes)
    requires token !in s.table.batches && FreshJobs(s.table, failed + [job]) && s.table.log.cleaned <= |s.table.log.history|
    ensures Leads(
      universe, s,
      BatchEvents(r, BeginActions(listing, cutoff, maxFiles, maxBytes, again, token), failed, job,
                  JobCommits(job, addsData, namesToken), retry, kept),
      t)
    ensures t.runs == s.runs && t.claims == s.claims && t.cancelRequested == s.cancelRequested
    ensures t.table.watermark.Some?
    ensures
      var w := t.table.watermark.value;
      && w.modifiedTime == Some(MaxTime(batch)) && w.deltaVersion == Some(|s.table.log.history|)
      && w.version == (if s.table.watermark.Some? then s.table.watermark.value.version + 1 else 0)
      && w.batchId == (if s.table.watermark.Some? then s.table.watermark.value.batchId + 1 else 0)
      && t.table.sources == s.table.sources[w.batchId := Entries(batch)]
    ensures t.table.pending == None && t.table.batches == s.table.batches[token := batch]
    ensures |t.table.log.history| == |s.table.log.history| + 1
    ensures
      var commit := t.table.log.history[|s.table.log.history|];
      && commit.files == batch && commit.batch == Some(token) && commit.metadata == Some(Some(token))
      && commit.scopeEngine && commit.addsData == addsData
      && t.table.log == s.table.log.(history := s.table.log.history + [commit])
    ensures t.table.jobs.Keys == s.table.jobs.Keys + JobSet(failed) + {job} && t.table.jobs[job].state.Succeeded?
    ensures forall j :: j in s.table.jobs ==> t.table.jobs[j] == s.table.jobs[j]
  {
    hide OwnsTable, Leads, BatchEvents, BeginActions, GoodDiscovery, UnprocessedBy, NextBatch, Entries, FreshJobs, MaxTime, JobSet;
    var jobs;
    t, jobs, kept := BatchIsLed(universe, s, r, listing, cutoff, maxFiles, maxBytes, again, token, batch, failed, job, retry,
                                addsData, namesToken);
  }

  // ---- Draining a listing ---------------------------------------------------------------------

  /** The files that commits ingest, in order. */
  function FilesOf(commits: seq<Commit>): seq<FileInfo> {
    if commits == [] then [] else commits[0].files + FilesOf(commits[1..])
  }

  /** A discovery that finds nothing ends the run, or waits for the next one. */
  lemma NothingIsDiscovered(
    universe: set<FileInfo>, s: State, r: TableOwner, listing: seq<FileInfo>, cutoff: int, maxFiles: int, maxBytes: int,
    again: bool)
    requires r in s.runs && s.runs[r].pc == Discovering && CompleteListing(universe, listing)
    requires UnprocessedBy(listing, s.table.watermark, cutoff) == []
    ensures Leads(universe, s, [RunActs(r, Discover(listing, cutoff, maxFiles, maxBytes, again))],
                  With(s, r, s.table, s.runs[r].At(if again then Discovering else Stopped)))
  {
    hide Leads, UnprocessedBy, CompleteListing;
    var a := Discover(listing, cutoff, maxFiles, maxBytes, again);
    assert NextBatch([], maxFiles, maxBytes) == [];
    PlainStep(universe, s, r, a);
    LeadsNowhere(universe, Protocol.Step(universe, s, RunActs(r, a)));
    LeadsFirst(universe, s, RunActs(r, a), [], Protocol.Step(universe, s, RunActs(r, a)));
    assert [RunActs(r, a)] + [] == [RunActs(r, a)];
  }

  /** New tokens, none of them twice. */
  ghost predicate FreshTokens(table: Table, tokens: seq<nat>) {
    && (forall i :: 0 <= i < |tokens| ==> tokens[i] !in table.batches)
    && forall i, k :: 0 <= i < k < |tokens| ==> tokens[i] != tokens[k]
  }

  lemma FreshRest(a: Table, b: Table, tokens: seq<nat>, jobs: seq<nat>)
    requires tokens != [] && jobs != [] && FreshTokens(a, tokens) && FreshJobs(a, jobs)
    requires b.batches.Keys == a.batches.Keys + {tokens[0]} && b.jobs.Keys == a.jobs.Keys + JobSet([]) + {jobs[0]}
    ensures FreshTokens(b, tokens[1..]) && FreshJobs(b, jobs[1..])
  {}

  lemma FirstIsFresh(table: Table, tokens: seq<nat>, jobs: seq<nat>)
    requires tokens != [] && jobs != [] && FreshTokens(table, tokens) && FreshJobs(table, jobs)
    ensures tokens[0] !in table.batches && FreshJobs(table, [] + [jobs[0]])
  {}

  /** The first batch of a tie-free list, and what is left after its checkpoint. */
  lemma NextOfTieFree(
    universe: set<FileInfo>, table: Table, later: Table, listing: seq<FileInfo>, cutoff: int, maxFiles: int, maxBytes: int)
    requires CompleteListing(universe, listing)
    requires UnprocessedBy(listing, table.watermark, cutoff) != []
    requires IncrementalLoop.TieFree(UnprocessedBy(listing, table.watermark, cutoff), maxFiles, maxBytes)
    ensures
      var files := UnprocessedBy(listing, table.watermark, cutoff);
      var batch := NextBatch(files, maxFiles, maxBytes);
      && 0 < |batch| <= |files| && files == batch + files[|batch|..]
      && GoodDiscovery(universe, table, listing, cutoff, maxFiles, maxBytes)
      && IncrementalLoop.TieFree(files[|batch|..], maxFiles, maxBytes)
      && NumBatches(files, maxFiles, maxBytes) == 1 + NumBatches(files[|batch|..], maxFiles, maxBytes)
      && (TimeOf(later.watermark) == Some(MaxTime(batch)) ==>
            UnprocessedBy(listing, later.watermark, cutoff) == files[|batch|..])
      && Sorted(files)
  {
    hide FileTracker.Discover, CompleteListing, MaxTime;
    var files := UnprocessedBy(listing, table.watermark, cutoff);
    NextBatchIsMaximal(files, maxFiles, maxBytes);
    var n := |NextBatch(files, maxFiles, maxBytes)|;
    RediscoverIsSliceIffTiesKept(listing, TimeOf(table.watermark), cutoff, n);
    DiscoverMembers(listing, TimeOf(table.watermark), cutoff);
  }

  lemma MaxTimeOfRest(files: seq<FileInfo>, n: nat)
    requires Sorted(files) && 0 < n <= |files|
    ensures n < |files| ==> MaxTime(files[n..]) == MaxTime(files)
    ensures n == |files| ==> MaxTime(files[..n]) == MaxTime(files)
  {
    hide MaxTime;
    SortedMaxIsLast(files);
    if n < |files| {
      SortedMaxIsLast(files[n..]);
    } else {
      assert files[..n] == files;
    }
  }

  /**
   * A run that keeps its table, and whose jobs commit, drains a complete listing without split ties: one commit per
   * batch, together exactly the unprocessed files in order; then it discovers nothing more and stops.
   */
  lemma {:induction false} RunDrainsListing(
    universe: set<FileInfo>, s: State, r: TableOwner, listing: seq<FileInfo>, cutoff: int, maxFiles: int, maxBytes: int,
    files: seq<FileInfo>, tokens: seq<nat>, jobs: seq<nat>)
    returns (events: seq<Protocol.Event>, t: State, commits: seq<Commit>)
    requires r in s.runs && s.runs[r].pc == Discovering && OwnsTable(s.claims.file, r)
    requires CompleteListing(universe, listing) && s.table.log.cleaned <= |s.table.log.history|
    requires files == UnprocessedBy(listing, s.table.watermark, cutoff) && IncrementalLoop.TieFree(files, maxFiles, maxBytes)
    requires |tokens| == |jobs| == NumBatches(files, maxFiles, maxBytes)
    requires FreshTokens(s.table, tokens) && FreshJobs(s.table, jobs)
    ensures Leads(universe, s, events, t)
    ensures t.runs == s.runs[r := s.runs[r].At(Stopped)] && t.claims == s.claims
    ensures t.table.log == s.table.log.(history := s.table.log.history + commits)
    ensures FilesOf(commits) == files && |commits| == |tokens|
    ensures files != [] ==> TimeOf(t.table.watermark) == Some(MaxTime(files)) && t.table.pending == None
    ensures files == [] ==> t.table == s.table
    ensures UnprocessedBy(listing, t.table.watermark, cutoff) == []
    decreases |tokens|
  {
    hide Leads, UnprocessedBy, CompleteListing, OwnsTable, GoodDiscovery, NextBatch, MaxTime, Entries, Sorted, JobSet;
    if files == [] {
      NothingIsDiscovered(universe, s, r, listing, cutoff, maxFiles, maxBytes, false);
      events, commits := [RunActs(r, Discover(listing, cutoff, maxFiles, maxBytes, false))], [];
      t := With(s, r, s.table, s.runs[r].At(Stopped));
      assert s.table.log.history + [] == s.table.log.history;
    } else {
      var batch := NextBatch(files, maxFiles, maxBytes);
      NextOfTieFree(universe, s.table, s.table, listing, cutoff, maxFiles, maxBytes);
      FirstIsFresh(s.table, tokens, jobs);
      var u, kept := BatchIsRecorded(universe, s, r, listing, cutoff, maxFiles, maxBytes, false, tokens[0], batch, [], jobs[0],
                                     false, true, true);
      NextOfTieFree(universe, s.table, u.table, listing, cutoff, maxFiles, maxBytes);
      FreshRest(s.table, u.table, tokens, jobs);
      hide FreshTokens, FreshJobs, IncrementalLoop.TieFree, NumBatches;
      var rest, later;
      rest, t, later := RunDrainsListing(universe, u, r, listing, cutoff, maxFiles, maxBytes, files[|batch|..], tokens[1..], jobs[1..]);
      var first := BatchEvents(r, BeginActions(listing, cutoff, maxFiles, maxBytes, false, tokens[0]), [], jobs[0],
                               JobCommits(jobs[0], true, true), false, kept);
      LeadsThen(universe, s, first, u, rest, t);
      events := first + rest;
      var commit := u.table.log.history[|s.table.log.history|];
      commits := [commit] + later;
      assert commits[1..] == later;
      assert s.table.log.history + [commit] + later == s.table.log.history + commits;
      MaxTimeOfRest(files, |batch|);
      assert files[..|batch|] == batch;
    }
  }

  /** A listing of all files is good for a batch whatever the limits are, when no two files have the same time. */
  lemma FullListingIsGood(
    universe: set<FileInfo>, table: Table, listing: seq<FileInfo>, cutoff: int, maxFiles: int, maxBytes: int)
    requires DistinctPaths(listing) && forall f :: f in listing <==> f in universe
    requires forall f, g :: f in universe && g in universe && f.modificationTime == g.modificationTime ==> f == g
    ensures GoodDiscovery(universe, table, listing, cutoff, maxFiles, maxBytes)
  {
    hide FileTracker.Discover, NextBatch;
    var files := UnprocessedBy(listing, table.watermark, cutoff);
    DiscoverMembers(listing, TimeOf(table.watermark), cutoff);
    DiscoverKeepsDistinctPaths(listing, TimeOf(table.watermark), cutoff);
    NextBatchIsMaximal(files, maxFiles, maxBytes);
    var n := |NextBatch(files, maxFiles, maxBytes)|;
    if 0 < n < |files| {
      assert files[n - 1] in files && files[n] in files;
    }
  }

  // ---- Taking the table -----------------------------------------------------------------------

  /** The stored owner keeps the table from `r`: it is `r`, or started later, or then has a greater id. */
  ghost predicate Keeps(file: OwnerFile, r: TableOwner) {
    && file.Stored? && file.content.Readable?
    && (file.content.owner == r || file.content.owner.startedAt > r.startedAt
        || (file.content.owner.startedAt == r.startedAt && StringLess(r.runId, file.content.owner.runId)))
  }

  lemma StartMoves(universe: set<FileInfo>, s: State, r: TableOwner)
    requires r !in s.runs && r !in s.claims.claims
    ensures
      var started := s.(runs := s.runs[r := Run(Claiming, None, false)], claims := Owner.Step(s.claims, Owner.Start(r)));
      Moves(universe, s, StartRun(r), started)
  {}

  lemma ClaimMoves(universe: set<FileInfo>, s: State, r: TableOwner, claim: Owner.Event)
    requires r in s.runs && s.runs[r].pc.Claiming? && claim.run == r && !claim.Start? && Owner.Enabled(s.claims, claim)
    ensures Moves(universe, s, ClaimEvent(r, claim), s.(claims := Owner.Step(s.claims, claim)))
  {}

  lemma DoneMoves(universe: set<FileInfo>, s: State, r: TableOwner, owner: TableOwner)
    requires r in s.runs && s.runs[r].pc.Claiming? && r in s.claims.claims && s.claims.claims[r] == Returned(owner)
    ensures Moves(universe, s, ClaimDone(r),
                  s.(runs := s.runs[r := s.runs[r].At(if owner == r then ListingOrphans else Stopped)]))
  {}

  /**
   * A run that starts undisturbed ends at once when a later run keeps the table, without a write; otherwise it owns
   * the table and goes on to list the jobs of other runs.
   */
  lemma RunTakesTable(universe: set<FileInfo>, s: State, r: TableOwner) returns (events: seq<Protocol.Event>, t: State)
    requires r !in s.runs && r !in s.claims.claims
    ensures Leads(universe, s, events, t) && t.table == s.table
    ensures t.runs.Keys == s.runs.Keys + {r} && forall q :: q in s.runs ==> t.runs[q] == s.runs[q]
    ensures t.claims.claims.Keys == s.claims.claims.Keys + {r}
    ensures Keeps(s.claims.file, r) && s.claims.file.content.owner != r ==>
      t.runs[r].pc == Stopped && t.claims.file == s.claims.file
    ensures !Keeps(s.claims.file, r) ==>
      t.claims.file == Stored(Readable(r), s.claims.nextEtag)
    ensures !Keeps(s.claims.file, r) || s.claims.file.content.owner == r ==>
      t.runs[r] == Run(ListingOrphans, None, false) && OwnsTable(t.claims.file, r)
  {
    hide Leads, Protocol.Enabled, Protocol.Step;
    UndisturbedClaim(s.claims, r);
    OwnerIsTotal(s.claims.file, r);
    var started := s.(runs := s.runs[r := Run(Claiming, None, false)], claims := Owner.Step(s.claims, Owner.Start(r)));
    StartMoves(universe, s, r);
    var u := started.(claims := Owner.Step(started.claims, Owner.Read(r)));
    ClaimMoves(universe, started, r, Owner.Read(r));
    TwoMoves(universe, s, StartRun(r), started, ClaimEvent(r, Owner.Read(r)), u);
    events := [StartRun(r), ClaimEvent(r, Owner.Read(r))];
    if !Keeps(s.claims.file, r) {
      var v := u.(claims := Owner.Step(u.claims, Owner.Write(r)));
      ClaimMoves(universe, u, r, Owner.Write(r));
      OneMove(universe, u, ClaimEvent(r, Owner.Write(r)), v);
      LeadsThen(universe, s, events, u, [ClaimEvent(r, Owner.Write(r))], v);
      events, u := events + [ClaimEvent(r, Owner.Write(r))], v;
    }
    t := u.(runs := u.runs[r := u.runs[r].At(if u.claims.claims[r].owner == r then ListingOrphans else Stopped)]);
    DoneMoves(universe, u, r, u.claims.claims[r].owner);
    OneMove(universe, u, ClaimDone(r), t);
    LeadsThen(universe, s, events, u, [ClaimDone(r)], t);
    events := events + [ClaimDone(r)];
  }

  lemma OneMove(universe: set<FileInfo>, s: State, e: Protocol.Event, t: State)
    requires Moves(universe, s, e, t)
    ensures Leads(universe, s, [e], t)
  {
    hide Protocol.Enabled, Protocol.Step, Leads;
    LeadsNowhere(universe, t);
    LeadsFirst(universe, s, e, [], t);
    assert [e] + [] == [e];
  }

  lemma OwnerIsTotal(file: OwnerFile, r: TableOwner)
    ensures Keeps(file, r) <==>
      && file.Stored? && file.content.Readable?
      && (file.content.owner.startedAt > r.startedAt
          || (file.content.owner.startedAt == r.startedAt && !StringLess(file.content.owner.runId, r.runId)))
  {
    if file.Stored? && file.content.Readable? {
      StringLessIsStrictTotal(file.content.owner.runId, r.runId);
    }
  }

  /** After the listing, a run reads its watermark exactly once every job of another run that was running has ended. */
  lemma SettlesIff(universe: set<FileInfo>, table: Table, later: Table, file: OwnerFile, r: TableOwner, run: Run)
    requires run.pc == ListingOrphans
    ensures
      var listed := Act(universe, table, file, r, run, ListOrphans);
      && listed.table == table
      && (CanAct(universe, later, listed.run, Settle) <==>
            forall j :: j in table.jobs && table.jobs[j].run != r && table.jobs[j].state.Running? ==>
              j in later.jobs && !later.jobs[j].state.Running?)
      && (CanAct(universe, later, listed.run, Settle) ==>
            var settled := Act(universe, later, file, r, listed.run, Settle);
            settled.table == later && settled.run.pc == ReadingWatermark)
  {}

  /** How a cancellation ends: only a confirmed failure is tried again, and never by a superseded run. */
  lemma CancelMoves(
    universe: set<FileInfo>, s: State, r: TableOwner, p: PendingBatch, job: nat, superseded: bool, confirmed: bool, retry: bool)
    requires r in s.runs && s.runs[r].pc == Cancelling(p, job, superseded) && job in s.table.jobs
    requires confirmed ==> !s.table.jobs[job].state.Running?
    ensures
      var next :=
        if !confirmed then Stopped
        else if s.table.jobs[job].state.Succeeded? then Updating(p)
        else if retry && !superseded then Submitting(p) else Stopped;
      Moves(universe, s, RunActs(r, CancelOutcome(confirmed, retry)), With(s, r, s.table, s.runs[r].At(next)))
  {
    PlainStep(universe, s, r, CancelOutcome(confirmed, retry));
  }

  /** A run that finds at its second check that it lost the table asks for its job's cancellation, and for nothing else. */
  lemma LostCheckMoves(universe: set<FileInfo>, s: State, r: TableOwner, p: PendingBatch, job: nat)
    requires r in s.runs && s.runs[r].pc == Submitted(p, job) && !OwnsTable(s.claims.file, r)
    ensures
      Moves(universe, s, RunActs(r, SecondCheck),
            s.(runs := s.runs[r := s.runs[r].At(Cancelling(p, job, true))],
               cancelRequested := s.cancelRequested + {job}, secondChecks := s.secondChecks + map[job := false]))
  {
    hide OwnsTable;
  }

  /** So does a run that stops waiting for its job. */
  lemma GiveUpMoves(universe: set<FileInfo>, s: State, r: TableOwner, p: PendingBatch, job: nat)
    requires r in s.runs && s.runs[r].pc == Polling(p, job)
    ensures
      Moves(universe, s, RunActs(r, GiveUp),
            s.(runs := s.runs[r := s.runs[r].At(Cancelling(p, job, false))], cancelRequested := s.cancelRequested + {job}))
  {
    assert s.secondChecks + map[] == s.secondChecks;
  }

  // ---- What may happen at any time ------------------------------------------------------------

  /** A live run may die before any of its steps; nothing else changes. */
  lemma CrashMoves(universe: set<FileInfo>, s: State, r: TableOwner)
    requires r in s.runs && !s.runs[r].pc.Stopped? && !s.runs[r].pc.Crashed?
    ensures Moves(universe, s, Crash(r), s.(runs := s.runs[r := s.runs[r].At(Crashed)]))
  {}

  /**
   * Another writer may commit at any time: one commit without source files or a batch, which names a token in its
   * metadata only if the table's configuration does.
   */
  lemma OtherWriterMoves(universe: set<FileInfo>, s: State, setsMetadata: bool, scopeEngine: bool, addsData: bool)
    ensures Protocol.Enabled(universe, s, Happens(OtherCommit(setsMetadata, scopeEngine, addsData)))
    ensures
      var log := s.table.log;
      var t := Protocol.Step(universe, s, Happens(OtherCommit(setsMetadata, scopeEngine, addsData)));
      && t == s.(table := s.table.(log := t.table.log))
      && |t.table.log.history| == |log.history| + 1
      && (var c := t.table.log.history[|log.history|];
          && t.table.log == log.(history := log.history + [c])
          && c.files == [] && c.batch == None && c.parameterToken == None
          && c.scopeEngine == scopeEngine && c.addsData == addsData && c.metadata.Some? == setsMetadata
          && (c.metadata.Some? && c.metadata.value.Some? ==>
                TableConfiguration(log.history, |log.history|) == c.metadata))
  {}

  /** The log may be checkpointed at its latest version, and cleaned up as far as a checkpoint covers it. */
  lemma LogUpkeepMoves(universe: set<FileInfo>, s: State, v: int, cleaned: nat)
    requires v in s.table.log.checkpoints && s.table.log.cleaned <= cleaned <= v + 1 && cleaned <= |s.table.log.history|
    ensures Moves(universe, s, Happens(CleanLog(cleaned)), s.(table := s.table.(log := s.table.log.(cleaned := cleaned))))
    ensures
      s.table.log.history != [] ==>
        Moves(universe, s, Happens(TakeCheckpoint),
              s.(table := s.table.(log := s.table.log.(
                checkpoints := s.table.log.checkpoints + [|s.table.log.history| - 1]))))
  {
    MaxOfIsMaximum(s.table.log.checkpoints, -1);
  }
}
