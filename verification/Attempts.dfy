/** The jobs of a batch: in every interleaving a run tries again only after a failure, and a batch commits at most once. */
module Attempts {
  import opened Files
  import opened CheckpointRecords
  import opened FileTracker
  import opened DeltaLog
  import opened Owner
  import opened Protocol

  /** The job a run waits for or cancels. */
  function CurrentJob(pc: Pc): Option<nat> {
    if pc.Submitted? || pc.Polling? || pc.Cancelling? then Some(pc.job) else None
  }

  /** The token of the batch a run has begun. */
  function BegunToken(pc: Pc): Option<nat> {
    if pc.Submitting? || pc.SubmitOwned? || pc.Submitted? || pc.Polling? || pc.Cancelling? || pc.Updating? || pc.UpdateOwned?
       || pc.UpdateRead?
    then Some(pc.pending.token) else None
  }

  /** The run has yet to see a job of its batch succeed. */
  predicate IsTrying(pc: Pc) {
    pc.Submitting? || pc.SubmitOwned? || pc.Submitted? || pc.Polling? || pc.Cancelling?
  }

  /** Jobs belong to started runs and begun batches; two jobs of one batch have one run, and one of them failed. */
  ghost predicate JobsOk(s: State) {
    && (forall j :: j in s.table.jobs ==> s.table.jobs[j].run in s.runs && s.table.jobs[j].token in s.table.batches)
    && forall i, j :: i in s.table.jobs && j in s.table.jobs && s.table.jobs[i].token == s.table.jobs[j].token ==>
         && s.table.jobs[i].run == s.table.jobs[j].run
         && (i == j || s.table.jobs[i].state.Failed? || s.table.jobs[j].state.Failed?)
  }

  predicate IsLive(pc: Pc) { !pc.Stopped? && !pc.Crashed? }

  /** The other jobs of a live run have ended, those of its batch without success, and only it runs that batch. */
  ghost predicate RunOk(jobs: map<nat, Job>, batches: set<nat>, r: TableOwner, pc: Pc) {
    && (IsLive(pc) ==> forall j :: j in jobs && jobs[j].run == r && CurrentJob(pc) != Some(j) ==> !jobs[j].state.Running?)
    && (IsTrying(pc) ==> forall j :: j in jobs && jobs[j].token == pc.pending.token && CurrentJob(pc) != Some(j) ==>
          jobs[j].state.Failed?)
    && (BegunToken(pc).Some? ==>
          && BegunToken(pc).value in batches
          && forall j :: j in jobs && jobs[j].token == BegunToken(pc).value ==> jobs[j].run == r)
    && (CurrentJob(pc).Some? ==>
          var j := CurrentJob(pc).value;
          j in jobs && jobs[j].run == r && Some(jobs[j].token) == BegunToken(pc))
  }

  /** No two runs have begun the same batch. */
  ghost predicate TokensDiffer(s: State) {
    forall q, r :: q in s.runs && r in s.runs && q != r && BegunToken(s.runs[q].pc).Some? ==>
      BegunToken(s.runs[q].pc) != BegunToken(s.runs[r].pc)
  }

  ghost predicate AttemptsOk(s: State) {
    && JobsOk(s) && TokensDiffer(s)
    && forall r :: r in s.runs ==> RunOk(s.table.jobs, s.table.batches.Keys, r, s.runs[r].pc)
  }

  // ---- Steps ----------------------------------------------------------------------------------

  /** A step that submits nothing keeps the job it waits for, or leaves it once it ended: unless it failed, for good. */
  predicate Continues(jobs: map<nat, Job>, pc: Pc, next: Pc) {
    && (BegunToken(next).Some? ==> BegunToken(next) == BegunToken(pc))
    && (IsLive(next) ==> IsLive(pc))
    && (CurrentJob(next) == CurrentJob(pc)
        || (CurrentJob(next) == None
            && (IsLive(next) ==> CurrentJob(pc).value in jobs && !jobs[CurrentJob(pc).value].state.Running?)))
    && (IsTrying(next) ==>
          && IsTrying(pc)
          && (CurrentJob(next) == CurrentJob(pc)
              || (CurrentJob(pc).value in jobs && jobs[CurrentJob(pc).value].state.Failed?)))
  }

  /** Actions of a run that has begun a batch. */
  predicate OfBatch(a: Action) {
    || a.SubmitCheck? || a.SecondCheck? || a.Poll? || a.GiveUp? || a.CancelOutcome? || a.UpdateCheck? || a.UpdateReadWatermark?
    || a.UpdateReadVersion?
  }

  lemma BatchStep(universe: set<FileInfo>, table: Table, file: OwnerFile, r: TableOwner, run: Run, a: Action)
    requires CanAct(universe, table, run, a) && OfBatch(a)
    ensures
      var o := Act(universe, table, file, r, run, a);
      o.table == table && Continues(table.jobs, run.pc, o.run.pc)
  {
    hide OwnsTable, CommittedVersion, ComputeNewWatermark, Entries;
  }

  lemma OtherStep(universe: set<FileInfo>, table: Table, file: OwnerFile, r: TableOwner, run: Run, a: Action)
    requires CanAct(universe, table, run, a) && !a.Submit? && !a.WritePending? && !OfBatch(a)
    ensures
      var o := Act(universe, table, file, r, run, a);
      && o.table.jobs == table.jobs && o.table.batches == table.batches
      && IsLive(run.pc) && BegunToken(o.run.pc) == None == CurrentJob(run.pc) && CurrentJob(o.run.pc) == None
      && !IsTrying(o.run.pc)
  {
    hide OwnsTable, NewPending, CommittedVersion, IngestedAfter, GoodDiscovery, UnprocessedBy, NextBatch;
  }

  lemma ActionContinues(universe: set<FileInfo>, table: Table, file: OwnerFile, r: TableOwner, run: Run, a: Action)
    requires CanAct(universe, table, run, a) && !a.Submit? && !a.WritePending?
    ensures
      var o := Act(universe, table, file, r, run, a);
      && o.table.jobs == table.jobs && o.table.batches == table.batches
      && Continues(table.jobs, run.pc, o.run.pc)
  {
    hide Act, CanAct, CurrentJob, BegunToken, IsTrying, IsLive;
    if OfBatch(a) {
      BatchStep(universe, table, file, r, run, a);
    } else {
      OtherStep(universe, table, file, r, run, a);
    }
  }

  lemma ContinuingIsOk(jobs: map<nat, Job>, batches: set<nat>, r: TableOwner, pc: Pc, next: Pc)
    requires RunOk(jobs, batches, r, pc) && Continues(jobs, pc, next)
    ensures RunOk(jobs, batches, r, next)
  {}

  /** One run moves on without submitting or beginning a batch. */
  lemma MoveKeepsAttempts(s: State, t: State, r: TableOwner)
    requires AttemptsOk(s) && r in s.runs && r in t.runs && t.runs == s.runs[r := t.runs[r]]
    requires t.table.jobs == s.table.jobs && t.table.batches == s.table.batches
    requires Continues(s.table.jobs, s.runs[r].pc, t.runs[r].pc)
    ensures AttemptsOk(t)
  {
    hide RunOk, CurrentJob, IsTrying, IsLive, BegunToken;
    ContinuingIsOk(s.table.jobs, s.table.batches.Keys, r, s.runs[r].pc, t.runs[r].pc);
    ContinuesToken(s.table.jobs, s.runs[r].pc, t.runs[r].pc);
    hide Continues;
    SameTokensDiffer(s, t, r);
  }

  lemma ContinuesToken(jobs: map<nat, Job>, pc: Pc, next: Pc)
    requires Continues(jobs, pc, next)
    ensures BegunToken(next).Some? ==> BegunToken(next) == BegunToken(pc)
  {}

  lemma StartKeepsAttempts(s: State, t: State, r: TableOwner)
    requires AttemptsOk(s) && r !in s.runs && t.runs == s.runs[r := Run(Claiming, None, false)] && t.table == s.table
    ensures AttemptsOk(t)
  {
    assert RunOk(t.table.jobs, t.table.batches.Keys, r, Claiming);
    hide RunOk, CurrentJob, IsTrying, IsLive;
  }

  lemma BeginningIsOk(jobs: map<nat, Job>, batches: set<nat>, more: set<nat>, r: TableOwner, pc: Pc, p: PendingBatch)
    requires RunOk(jobs, batches, r, pc) && pc.BatchVersioned? && p.token !in batches && more == batches + {p.token}
    requires forall j :: j in jobs ==> jobs[j].token in batches
    ensures RunOk(jobs, more, r, Submitting(p))
  {}

  lemma MoreBatchesAreOk(jobs: map<nat, Job>, batches: set<nat>, more: set<nat>, r: TableOwner, pc: Pc)
    requires RunOk(jobs, batches, r, pc) && batches <= more
    ensures RunOk(jobs, more, r, pc)
    ensures BegunToken(pc).Some? ==> BegunToken(pc).value in batches
  {}

  /** A run begins a batch under a token no batch had. */
  lemma BeginKeepsAttempts(s: State, t: State, r: TableOwner, p: PendingBatch, batch: seq<FileInfo>)
    requires AttemptsOk(s) && r in s.runs && s.runs[r].pc.BatchVersioned? && p.token !in s.table.batches
    requires t.table.jobs == s.table.jobs && t.table.batches == s.table.batches[p.token := batch]
    requires t.runs == s.runs[r := s.runs[r].At(Submitting(p))]
    ensures AttemptsOk(t)
  {
    var more := t.table.batches.Keys;
    assert more == s.table.batches.Keys + {p.token};
    forall q | q in s.runs
      ensures q != r ==> RunOk(t.table.jobs, more, q, t.runs[q].pc)
      ensures BegunToken(s.runs[q].pc) != Some(p.token)
    {
      MoreBatchesAreOk(s.table.jobs, s.table.batches.Keys, more, q, s.runs[q].pc);
    }
    BeginningIsOk(s.table.jobs, s.table.batches.Keys, more, r, s.runs[r].pc, p);
    assert BegunToken(Submitting(p)) == Some(p.token);
    hide RunOk, CurrentJob, IsTrying, IsLive, BegunToken;
    forall q | q in t.runs ensures RunOk(t.table.jobs, more, q, t.runs[q].pc) {}
    assert JobsOk(t);
  }

  lemma SubmittingIsOk(jobs: map<nat, Job>, batches: set<nat>, r: TableOwner, p: PendingBatch, job: nat, j: Job)
    requires RunOk(jobs, batches, r, SubmitOwned(p)) && job !in jobs && j.run == r && j.token == p.token
    ensures RunOk(jobs[job := j], batches, r, Submitted(p, job))
  {}

  lemma OtherRunsJobIsOk(jobs: map<nat, Job>, batches: set<nat>, q: TableOwner, pc: Pc, job: nat, j: Job)
    requires RunOk(jobs, batches, q, pc) && job !in jobs && j.run != q && BegunToken(pc) != Some(j.token)
    ensures RunOk(jobs[job := j], batches, q, pc)
  {}

  lemma OwnTokenJobs(jobs: map<nat, Job>, batches: set<nat>, r: TableOwner, p: PendingBatch)
    requires RunOk(jobs, batches, r, SubmitOwned(p))
    ensures p.token in batches
    ensures forall j :: j in jobs && jobs[j].token == p.token ==> jobs[j].run == r && jobs[j].state.Failed?
  {}

  lemma SameTokensDiffer(s: State, t: State, r: TableOwner)
    requires TokensDiffer(s) && r in s.runs && r in t.runs && t.runs == s.runs[r := t.runs[r]]
    requires BegunToken(t.runs[r].pc).Some? ==> BegunToken(t.runs[r].pc) == BegunToken(s.runs[r].pc)
    ensures TokensDiffer(t)
  {
    hide BegunToken;
  }

  lemma OtherRunHasOtherToken(s: State, q: TableOwner, r: TableOwner, token: nat)
    requires TokensDiffer(s) && q in s.runs && r in s.runs && q != r && BegunToken(s.runs[r].pc) == Some(token)
    ensures BegunToken(s.runs[q].pc) != Some(token)
  {}

  lemma NewJobIsOk(s: State, t: State, r: TableOwner, job: nat, j: Job)
    requires JobsOk(s) && r in s.runs && job !in s.table.jobs && j.run == r && j.token in s.table.batches
    requires t.table.jobs == s.table.jobs[job := j] && t.table.batches == s.table.batches && t.runs.Keys == s.runs.Keys
    requires forall k :: k in s.table.jobs && s.table.jobs[k].token == j.token ==>
      s.table.jobs[k].run == r && s.table.jobs[k].state.Failed?
    ensures JobsOk(t)
  {}

  /** A run submits a job for the batch it has begun. */
  lemma SubmitKeepsAttempts(s: State, t: State, r: TableOwner, p: PendingBatch, job: nat, j: Job)
    requires AttemptsOk(s) && r in s.runs && s.runs[r].pc == SubmitOwned(p) && job !in s.table.jobs
    requires j.run == r && j.token == p.token
    requires t.table.jobs == s.table.jobs[job := j] && t.table.batches == s.table.batches
    requires t.runs == s.runs[r := s.runs[r].At(Submitted(p, job))]
    ensures AttemptsOk(t)
  {
    SubmittingIsOk(s.table.jobs, s.table.batches.Keys, r, p, job, j);
    OwnTokenJobs(s.table.jobs, s.table.batches.Keys, r, p);
    assert BegunToken(s.runs[r].pc) == Some(p.token) == BegunToken(t.runs[r].pc);
    hide RunOk, CurrentJob, IsTrying, IsLive, BegunToken;
    NewJobIsOk(s, t, r, job, j);
    SameTokensDiffer(s, t, r);
    forall q | q in t.runs ensures RunOk(t.table.jobs, t.table.batches.Keys, q, t.runs[q].pc) {
      if q != r {
        OtherRunHasOtherToken(s, q, r, p.token);
        OtherRunsJobIsOk(s.table.jobs, s.table.batches.Keys, q, s.runs[q].pc, job, j);
      }
    }
  }

  lemma EndedIsOk(jobs: map<nat, Job>, batches: set<nat>, r: TableOwner, pc: Pc, job: nat, end: JobState)
    requires RunOk(jobs, batches, r, pc) && job in jobs && jobs[job].state.Running? && !end.Running?
    ensures RunOk(jobs[job := jobs[job].(state := end)], batches, r, pc)
  {}

  /** A running job ends. */
  lemma EndKeepsAttempts(s: State, t: State, job: nat, end: JobState)
    requires AttemptsOk(s) && job in s.table.jobs && s.table.jobs[job].state.Running? && !end.Running?
    requires t.runs == s.runs && t.table.batches == s.table.batches
    requires t.table.jobs == s.table.jobs[job := s.table.jobs[job].(state := end)]
    ensures AttemptsOk(t)
  {
    hide RunOk, BegunToken;
    forall q | q in t.runs ensures RunOk(t.table.jobs, t.table.batches.Keys, q, t.runs[q].pc) {
      EndedIsOk(s.table.jobs, s.table.batches.Keys, q, s.runs[q].pc, job, end);
    }
  }

  lemma NothingMoves(s: State, t: State)
    requires AttemptsOk(s) && t.runs == s.runs && t.table.batches == s.table.batches && t.table.jobs == s.table.jobs
    ensures AttemptsOk(t)
  {
    hide RunOk, BegunToken;
  }

  lemma ActKeepsAttempts(universe: set<FileInfo>, s: State, r: TableOwner, a: Action)
    requires AttemptsOk(s) && r in s.runs && CanAct(universe, s.table, s.runs[r], a)
    ensures AttemptsOk(Protocol.Step(universe, s, RunActs(r, a)))
  {
    hide AttemptsOk, Continues;
    var t := Protocol.Step(universe, s, RunActs(r, a));
    if a.Submit? {
      hide CanAct;
      var p := s.runs[r].pc.pending;
      SubmitKeepsAttempts(s, t, r, p, a.job, t.table.jobs[a.job]);
    } else if a.WritePending? {
      BeginKeepsAttempts(s, t, r, t.runs[r].pc.pending, s.runs[r].pc.batch);
    } else {
      ActionContinues(universe, s.table, s.claims.file, r, s.runs[r], a);
      hide CanAct, Act;
      MoveKeepsAttempts(s, t, r);
    }
  }

  lemma StepKeepsAttempts(universe: set<FileInfo>, s: State, e: Protocol.Event)
    requires AttemptsOk(s) && Protocol.Enabled(universe, s, e)
    ensures AttemptsOk(Protocol.Step(universe, s, e))
  {
    hide AttemptsOk, CanAct, Act, Owner.Step, Owner.Enabled;
    var t := Protocol.Step(universe, s, e);
    match e
    case RunActs(r, a) => ActKeepsAttempts(universe, s, r, a);
    case StartRun(r) => StartKeepsAttempts(s, t, r);
    case ClaimEvent(_, _) => NothingMoves(s, t);
    case ClaimDone(r) => MoveKeepsAttempts(s, t, r);
    case Crash(r) => MoveKeepsAttempts(s, t, r);
    case Happens(env) =>
      if env.JobCommits? {
        EndKeepsAttempts(s, t, env.job, Succeeded);
      } else if env.JobFails? {
        EndKeepsAttempts(s, t, env.job, Failed);
      } else {
        NothingMoves(s, t);
      }
  }

  lemma {:induction false} EveryStateIsOk(universe: set<FileInfo>, init: State, events: seq<Protocol.Event>, s: State)
    requires InitialState(init) && Protocol.Reaches(universe, init, events, s)
    ensures AttemptsOk(s)
    decreases |events|
  {
    if events != [] {
      hide AttemptsOk, InitialState, Protocol.Enabled, Protocol.Step;
      var n := |events| - 1;
      var u :| Protocol.Reaches(universe, init, events[..n], u) && Protocol.Enabled(universe, u, events[n])
               && Protocol.Step(universe, u, events[n]) == s;
      EveryStateIsOk(universe, init, events[..n], u);
      StepKeepsAttempts(universe, u, events[n]);
    }
  }

  // ---- Over every run of the system -----------------------------------------------------------

  /** Whatever runs there are, of the jobs submitted for one batch at most one commits, and all are of one run. */
  lemma BatchCommitsAtMostOnce(
    universe: set<FileInfo>, init: State, events: seq<Protocol.Event>, s: State, i: nat, j: nat)
    requires InitialState(init) && Protocol.Reaches(universe, init, events, s)
    requires i in s.table.jobs && j in s.table.jobs && s.table.jobs[i].token == s.table.jobs[j].token
    ensures s.table.jobs[i].run == s.table.jobs[j].run
    ensures i != j ==> s.table.jobs[i].state.Failed? || s.table.jobs[j].state.Failed?
  {
    hide Protocol.Reaches, InitialState, RunOk;
    EveryStateIsOk(universe, init, events, s);
  }

  /** A run about to submit has no job running, and every job of the batch it submits again has failed. */
  lemma ResubmittedOnlyAfterFailure(
    universe: set<FileInfo>, init: State, events: seq<Protocol.Event>, s: State, r: TableOwner, job: nat, j: nat)
    requires InitialState(init) && Protocol.Reaches(universe, init, events, s)
    requires r in s.runs && CanAct(universe, s.table, s.runs[r], Submit(job)) && j in s.table.jobs
    ensures s.table.jobs[j].run == r ==> !s.table.jobs[j].state.Running?
    ensures s.table.jobs[j].token == s.runs[r].pc.pending.token ==> s.table.jobs[j].run == r && s.table.jobs[j].state.Failed?
  {
    hide Protocol.Reaches, InitialState, JobsOk, TokensDiffer;
    EveryStateIsOk(universe, init, events, s);
  }

  /** No live run ever has two jobs running. */
  lemma OneJobAtATime(
    universe: set<FileInfo>, init: State, events: seq<Protocol.Event>, s: State, r: TableOwner, i: nat, j: nat)
    requires InitialState(init) && Protocol.Reaches(universe, init, events, s)
    requires r in s.runs && s.runs[r].Live() && i in s.table.jobs && j in s.table.jobs
    requires s.table.jobs[i].run == r && s.table.jobs[i].state.Running?
    requires s.table.jobs[j].run == r && s.table.jobs[j].state.Running?
    ensures i == j
  {
    hide Protocol.Reaches, InitialState;
    EveryStateIsOk(universe, init, events, s);
  }
}
