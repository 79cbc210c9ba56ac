/**
 * Taking a table over: each job of an earlier run was either seen by the newer run's orphan listing, and
 * ended before that run read the Delta log, or its submitter's second owner check finds the takeover.
 */
module Takeover {
  import opened Files
  import opened CheckpointRecords
  import opened Owner
  import opened Protocol

  predicate Won(claims: Claims, r: TableOwner) {
    r in claims.claims && claims.claims[r] == Returned(r)
  }

  /** Only a run that won its claim gets past it. */
  ghost predicate ClaimsAreWon(s: State) {
    forall r :: r in s.runs ==>
      (s.runs[r].listing.Some? || (s.runs[r].Live() && !s.runs[r].pc.Claiming?) ==> Won(s.claims, r))
  }

  /** A job belongs to a started run; one just submitted has had no second check. */
  ghost predicate JobsAreOwned(s: State) {
    && (forall j :: j in s.table.jobs ==> s.table.jobs[j].run in s.runs)
    && (forall j :: j in s.secondChecks ==> j in s.table.jobs)
    && (forall r :: r in s.runs && s.runs[r].pc.Submitted? ==>
          var j := s.runs[r].pc.job;
          j in s.table.jobs && s.table.jobs[j].run == r && j !in s.secondChecks)
  }

  ghost predicate OrphansEnded(table: Table, listing: Option<Orphans>) {
    listing.Some? && forall j :: j in listing.value.orphans && j in table.jobs ==> !table.jobs[j].state.Running?
  }

  /** A listing saw only jobs that exist. */
  ghost predicate ListingsAreOld(s: State) {
    forall n :: n in s.runs && s.runs[n].listing.Some? ==>
      s.runs[n].listing.value.orphans <= s.runs[n].listing.value.seen <= s.table.jobs.Keys
  }

  /** A run reads the log only after every orphan it listed has ended. */
  ghost predicate RunIsSettled(table: Table, run: Run) {
    && (run.pc.Claiming? || run.pc.ListingOrphans? || run.pc.Settling? ==> !run.readLog)
    && (run.readLog || run.pc.ReadingWatermark? || run.pc.ListingLog? ==> OrphansEnded(table, run.listing))
  }

  ghost predicate SettledBeforeReading(s: State) {
    forall r :: r in s.runs ==> RunIsSettled(s.table, s.runs[r])
  }

  /** The submitter of `j` has not made its second check yet, died before it, or found the takeover and cancelled. */
  ghost predicate CheckFindsTakeover(s: State, j: nat)
    requires j in s.table.jobs && s.table.jobs[j].run in s.runs
  {
    var submitter := s.runs[s.table.jobs[j].run].pc;
    || (submitter.Submitted? && submitter.job == j)
    || (submitter.Crashed? && j !in s.secondChecks)
    || (j in s.secondChecks && !s.secondChecks[j] && j in s.cancelRequested)
  }

  ghost predicate SeenOrFound(s: State, listing: Orphans, j: nat)
    requires j in s.table.jobs && s.table.jobs[j].run in s.runs
  {
    if j in listing.seen then j in listing.orphans || !s.table.jobs[j].state.Running? else CheckFindsTakeover(s, j)
  }

  ghost predicate Dichotomy(s: State)
    requires JobsAreOwned(s)
  {
    forall n, j :: n in s.runs && s.runs[n].listing.Some? && j in s.table.jobs && n.Outranks(s.table.jobs[j].run) ==>
      SeenOrFound(s, s.runs[n].listing.value, j)
  }

  ghost predicate Backed(init: State, s: State) {
    && Owner.Invariant(init.claims, s.claims)
    && ClaimsAreWon(s)
    && JobsAreOwned(s)
    && ListingsAreOld(s)
    && SettledBeforeReading(s)
  }

  ghost predicate Ordered(init: State, s: State) {
    Backed(init, s) && Dichotomy(s)
  }

  /** A run outranked by a winner never again passes an owner check. */
  lemma OutrankedRunFailsCheck(init: State, s: State, n: TableOwner, q: TableOwner)
    requires Owner.Invariant(init.claims, s.claims) && Won(s.claims, n) && n.Outranks(q)
    ensures !OwnsTable(s.claims.file, q)
  {
    assert ClaimOk(init.claims, s.claims, n, s.claims.claims[n]);
    OutranksTransitive(s.claims.file.content.owner, n, q);
    OutranksIsStrictTotal(q, q);
  }

  // ---- What each step changes ------------------------------------------------------------------

  /** Steps that matter here: the listing, the wait, the log read, the submission and the second check. */
  predicate Relevant(a: Action) {
    a.ListOrphans? || a.Settle? || a.ReadWatermark? || a.ListLog? || a.Submit? || a.SecondCheck?
  }

  predicate BeforeLog(pc: Pc) {
    pc.Claiming? || pc.ListingOrphans? || pc.Settling? || pc.ReadingWatermark? || pc.ListingLog?
  }

  lemma OtherStepsKeepAll(universe: set<FileInfo>, table: Table, file: OwnerFile, r: TableOwner, run: Run, a: Action)
    requires CanAct(universe, table, run, a) && !Relevant(a)
    ensures
      var o := Act(universe, table, file, r, run, a);
      && o.table.jobs == table.jobs && o.checks == map[]
      && o.run.listing == run.listing && o.run.readLog == run.readLog
      && run.Live() && !BeforeLog(run.pc) && !run.pc.Submitted?
      && !BeforeLog(o.run.pc) && !o.run.pc.Submitted?
  {
    hide OwnsTable, NewPending, CommittedVersion, IngestedAfter, GoodDiscovery;
  }

  /** A run moves on, leaving jobs and checks alone. */
  lemma PlainStepIsOrdered(init: State, s: State, t: State, r: TableOwner)
    requires Ordered(init, s) && r in s.runs && r in t.runs && t.claims == s.claims
    requires t.runs == s.runs[r := t.runs[r]] && t.table.jobs == s.table.jobs
    requires t.secondChecks == s.secondChecks && s.cancelRequested <= t.cancelRequested
    requires t.runs[r].listing == s.runs[r].listing && RunIsSettled(t.table, t.runs[r])
    requires s.runs[r].Live() && !s.runs[r].pc.Claiming?
    requires !s.runs[r].pc.Submitted? && !t.runs[r].pc.Submitted?
    ensures Ordered(init, t)
  {
    hide Owner.Invariant, Won;
  }

  lemma WaitingStepSettles(universe: set<FileInfo>, table: Table, file: OwnerFile, r: TableOwner, run: Run, a: Action)
    requires CanAct(universe, table, run, a) && RunIsSettled(table, run)
    requires a.Settle? || a.ReadWatermark? || a.ListLog?
    ensures
      var o := Act(universe, table, file, r, run, a);
      && o.table == table && o.checks == map[] && o.cancels == {}
      && o.run.listing == run.listing && RunIsSettled(table, o.run)
      && run.Live() && !run.pc.Claiming? && !run.pc.Submitted? && !o.run.pc.Submitted?
  {}

  /** A new listing sees every job so far. */
  lemma ListingStepIsOrdered(init: State, s: State, t: State, r: TableOwner, seen: Orphans)
    requires Ordered(init, s) && r in s.runs && s.runs[r].pc.ListingOrphans?
    requires t == s.(runs := s.runs[r := Run(Settling, Some(seen), s.runs[r].readLog)])
    requires seen.orphans <= seen.seen == s.table.jobs.Keys
    requires forall j :: j in s.table.jobs && s.table.jobs[j].state.Running? && s.table.jobs[j].run != r ==> j in seen.orphans
    ensures Ordered(init, t)
  {
    hide Owner.Invariant, Won;
    forall j | j in s.table.jobs && r.Outranks(s.table.jobs[j].run) ensures s.table.jobs[j].run != r {
      OutranksIsStrictTotal(r, r);
    }
  }

  lemma SubmittingStepIsOrdered(init: State, s: State, t: State, r: TableOwner, p: PendingBatch, job: nat, j: Job)
    requires Ordered(init, s) && r in s.runs && s.runs[r].pc.SubmitOwned?
    requires job !in s.table.jobs && j.run == r
    requires t == s.(runs := s.runs[r := s.runs[r].At(Submitted(p, job))], table := s.table.(jobs := s.table.jobs[job := j]))
    ensures Ordered(init, t)
  {
    hide Owner.Invariant, Won, SeenOrFound;
    forall n | n in t.runs ensures RunIsSettled(t.table, t.runs[n]) {
      assert RunIsSettled(s.table, s.runs[n]);
    }
    forall n, k | n in t.runs && t.runs[n].listing.Some? && k in t.table.jobs && n.Outranks(t.table.jobs[k].run)
      ensures SeenOrFound(t, t.runs[n].listing.value, k)
    {
      if k == job {
        JustSubmitted(t, t.runs[n].listing.value, r, p, job);
      } else {
        OthersKeepTheirSide(s, t, t.runs[n].listing.value, r, k);
      }
    }
  }

  lemma JustSubmitted(t: State, listing: Orphans, r: TableOwner, p: PendingBatch, job: nat)
    requires job in t.table.jobs && t.table.jobs[job].run == r && r in t.runs
    requires t.runs[r].pc == Submitted(p, job) && job !in listing.seen
    ensures SeenOrFound(t, listing, job)
  {}

  /** A step of run `r` at its submission or second check leaves every other job on its side. */
  lemma OthersKeepTheirSide(s: State, t: State, listing: Orphans, r: TableOwner, k: nat)
    requires k in s.table.jobs && s.table.jobs[k].run in s.runs && SeenOrFound(s, listing, k)
    requires k in t.table.jobs && t.table.jobs[k] == s.table.jobs[k]
    requires s.runs.Keys <= t.runs.Keys && s.cancelRequested <= t.cancelRequested
    requires forall q :: q in s.runs && q != r ==> t.runs[q] == s.runs[q]
    requires k in s.secondChecks ==> k in t.secondChecks && t.secondChecks[k] == s.secondChecks[k]
    requires k in t.secondChecks ==> k in s.secondChecks
    requires s.table.jobs[k].run == r ==> !s.runs[r].pc.Crashed? && (s.runs[r].pc.Submitted? ==> s.runs[r].pc.job != k)
    ensures SeenOrFound(t, listing, k)
  {}

  lemma OutrankedRunsFailCheck(init: State, s: State, r: TableOwner)
    requires Owner.Invariant(init.claims, s.claims) && ClaimsAreWon(s)
    ensures forall n :: n in s.runs && s.runs[n].listing.Some? && n.Outranks(r) ==> !OwnsTable(s.claims.file, r)
  {
    hide Owner.Invariant, OwnsTable, Won;
    forall n | n in s.runs && s.runs[n].listing.Some? && n.Outranks(r) ensures !OwnsTable(s.claims.file, r) {
      OutrankedRunFailsCheck(init, s, n, r);
    }
  }

  /** A run moves on without submitting; only its own job may have been checked. */
  lemma MovingRunIsBacked(init: State, s: State, t: State, r: TableOwner, next: Pc)
    requires Backed(init, s) && r in s.runs && s.runs[r].Live()
    requires t.table == s.table && t.claims == s.claims && t.runs == s.runs[r := s.runs[r].At(next)]
    requires !next.Submitted? && RunIsSettled(t.table, t.runs[r])
    requires next.Stopped? || next.Crashed? || !s.runs[r].pc.Claiming? || Won(s.claims, r)
    requires forall j :: j in t.secondChecks ==>
      j in s.secondChecks || (s.runs[r].pc.Submitted? && s.runs[r].pc.job == j)
    ensures Backed(init, t)
  {
    hide Owner.Invariant, Won, RunIsSettled;
  }

  /** The second check of a submitter fails once an outranking run has claimed the table. */
  lemma CheckingStepIsOrdered(init: State, s: State, t: State, r: TableOwner, next: Pc)
    requires Ordered(init, s) && r in s.runs && s.runs[r].pc.Submitted?
    requires next.Polling? || next.Cancelling?
    requires
      var j, owns := s.runs[r].pc.job, OwnsTable(s.claims.file, r);
      t == s.(runs := s.runs[r := s.runs[r].At(next)],
              secondChecks := s.secondChecks + map[j := owns],
              cancelRequested := s.cancelRequested + if owns then {} else {j})
    ensures Ordered(init, t)
  {
    hide Owner.Invariant, OwnsTable, Won, SeenOrFound, RunIsSettled;
    var job := s.runs[r].pc.job;
    OutrankedRunsFailCheck(init, s, r);
    SettledDependsOnJobs(s.table, t.table, s.runs[r], t.runs[r]);
    MovingRunIsBacked(init, s, t, r, next);
    forall n, k | n in t.runs && t.runs[n].listing.Some? && k in t.table.jobs && n.Outranks(t.table.jobs[k].run)
      ensures SeenOrFound(t, t.runs[n].listing.value, k)
    {
      assert SeenOrFound(s, s.runs[n].listing.value, k);
      if k == job {
        CheckFound(s, t, t.runs[n].listing.value, job);
      } else {
        OthersKeepTheirSide(s, t, t.runs[n].listing.value, r, k);
      }
    }
  }

  lemma CheckFound(s: State, t: State, listing: Orphans, job: nat)
    requires job in t.table.jobs && t.table.jobs[job].run in t.runs
    requires t.table == s.table && t.runs.Keys == s.runs.Keys && SeenOrFound(s, listing, job)
    requires job in t.secondChecks && !t.secondChecks[job] && job in t.cancelRequested
    ensures SeenOrFound(t, listing, job)
  {}

  lemma WonStays(claims: Claims, e: Owner.Event, r: TableOwner)
    requires Owner.Enabled(claims, e) && Won(claims, r)
    ensures Won(Owner.Step(claims, e), r)
  {}

  lemma ClaimStepKeepsWon(init: State, claims: Claims, claim: Owner.Event)
    requires Owner.Invariant(init.claims, claims) && Owner.Enabled(claims, claim)
    ensures Owner.Invariant(init.claims, Owner.Step(claims, claim))
    ensures forall r :: Won(claims, r) ==> Won(Owner.Step(claims, claim), r)
  {
    hide Owner.Invariant, Won, Owner.Step, Owner.Enabled;
    StepKeepsInvariant(init.claims, claims, claim);
    forall r | Won(claims, r) ensures Won(Owner.Step(claims, claim), r) {
      WonStays(claims, claim, r);
    }
  }

  lemma NewClaimsAreOrdered(init: State, s: State, claims: Claims)
    requires Ordered(init, s) && Owner.Invariant(init.claims, claims)
    requires forall r :: Won(s.claims, r) ==> Won(claims, r)
    ensures Ordered(init, s.(claims := claims))
  {
    hide Owner.Invariant, Won, OrphansEnded;
  }

  lemma FreshRunIsOrdered(init: State, s: State, r: TableOwner)
    requires Ordered(init, s) && r !in s.runs
    ensures Ordered(init, s.(runs := s.runs[r := Run(Claiming, None, false)]))
  {
    hide Owner.Invariant, Won, OrphansEnded;
  }

  lemma ClaimingStepIsOrdered(universe: set<FileInfo>, init: State, s: State, e: Protocol.Event)
    requires Ordered(init, s) && Protocol.Enabled(universe, s, e)
    requires e.StartRun? || e.ClaimEvent?
    ensures Ordered(init, Protocol.Step(universe, s, e))
  {
    hide Owner.Invariant, Won, Owner.Step, ClaimsAreWon, JobsAreOwned, ListingsAreOld, SettledBeforeReading, Dichotomy;
    var claim := if e.StartRun? then Owner.Start(e.run) else e.claim;
    ClaimStepKeepsWon(init, s.claims, claim);
    var claimed := s.(claims := Owner.Step(s.claims, claim));
    NewClaimsAreOrdered(init, s, claimed.claims);
    if e.StartRun? {
      FreshRunIsOrdered(init, claimed, e.run);
      assert Protocol.Step(universe, s, e) == claimed.(runs := claimed.runs[e.run := Run(Claiming, None, false)]);
    }
  }

  /** A claim that returned, or a process that died. */
  lemma LeavingStepIsOrdered(universe: set<FileInfo>, init: State, s: State, e: Protocol.Event)
    requires Ordered(init, s) && Protocol.Enabled(universe, s, e)
    requires e.ClaimDone? || e.Crash?
    ensures Ordered(init, Protocol.Step(universe, s, e))
  {
    hide Owner.Invariant, SeenOrFound, Protocol.Enabled, ClaimsAreWon, ListingsAreOld;
    var t := Protocol.Step(universe, s, e);
    LeavingRun(universe, s, e);
    MovingRunIsBacked(init, s, t, e.run, t.runs[e.run].pc);
    forall n, k | n in t.runs && t.runs[n].listing.Some? && k in t.table.jobs && n.Outranks(t.table.jobs[k].run)
      ensures SeenOrFound(t, t.runs[n].listing.value, k)
    {
      assert SeenOrFound(s, s.runs[n].listing.value, k);
      CrashKeepsSide(s, t, e.run, t.runs[n].listing.value, k);
    }
  }

  lemma LeavingRun(universe: set<FileInfo>, s: State, e: Protocol.Event)
    requires Protocol.Enabled(universe, s, e)
    requires e.ClaimDone? || e.Crash?
    ensures e.run in s.runs && s.runs[e.run].Live()
    ensures e.ClaimDone? ==> e.run in s.claims.claims && s.runs[e.run].pc.Claiming?
  {}

  lemma CrashKeepsSide(s: State, t: State, r: TableOwner, listing: Orphans, k: nat)
    requires JobsAreOwned(s) && k in s.table.jobs && SeenOrFound(s, listing, k) && r in s.runs && s.runs[r].Live()
    requires r in t.runs && t == s.(runs := s.runs[r := t.runs[r]])
    requires t.runs[r].pc.Crashed? || s.runs[r].pc.Claiming?
    ensures SeenOrFound(t, listing, k)
  {}

  /** Jobs that end, and anything else in the storage, leave the ordering as it is. */
  lemma EndedJobsAreOrdered(init: State, s: State, t: State)
    requires Ordered(init, s) && t == s.(table := t.table)
    requires forall j :: (j in t.table.jobs <==> j in s.table.jobs) && (j in s.table.jobs ==>
      t.table.jobs[j].run == s.table.jobs[j].run && (t.table.jobs[j].state.Running? ==> s.table.jobs[j].state.Running?))
    ensures Ordered(init, t)
  {
    hide Owner.Invariant, Won;
  }

  lemma EventIsOrdered(universe: set<FileInfo>, init: State, s: State, env: Env)
    requires Ordered(init, s) && Protocol.Enabled(universe, s, Happens(env))
    ensures Ordered(init, Protocol.Step(universe, s, Happens(env)))
  {
    hide Ordered, Happen, CanHappen;
    JobsOnlyEnd(s.table, env);
    EndedJobsAreOrdered(init, s, Protocol.Step(universe, s, Happens(env)));
  }

  lemma JobsOnlyEnd(table: Table, e: Env)
    requires CanHappen(table, e)
    ensures
      var t := Happen(table, e);
      forall j :: (j in t.jobs <==> j in table.jobs) && (j in table.jobs ==>
        t.jobs[j].run == table.jobs[j].run && (t.jobs[j].state.Running? ==> table.jobs[j].state.Running?))
  {
    hide ForeignCommit, BatchCommit;
  }

  lemma ActionIsOrdered(universe: set<FileInfo>, init: State, s: State, r: TableOwner, a: Action)
    requires Ordered(init, s) && Protocol.Enabled(universe, s, RunActs(r, a))
    requires a.ListOrphans? || a.Submit? || a.SecondCheck?
    ensures Ordered(init, Protocol.Step(universe, s, RunActs(r, a)))
  {
    hide Ordered, OwnsTable;
    var t := Protocol.Step(universe, s, RunActs(r, a));
    if a.ListOrphans? {
      ListingStepIsOrdered(init, s, t, r, t.runs[r].listing.value);
    } else if a.Submit? {
      SubmittingStepIsOrdered(init, s, t, r, s.runs[r].pc.pending, a.job, t.table.jobs[a.job]);
    } else {
      CheckingStepIsOrdered(init, s, t, r, t.runs[r].pc);
    }
  }

  lemma RunsAreSettled(init: State, s: State, r: TableOwner)
    requires Ordered(init, s) && r in s.runs
    ensures RunIsSettled(s.table, s.runs[r])
  {}

  lemma SettledDependsOnJobs(a: Table, b: Table, run: Run, next: Run)
    requires RunIsSettled(a, run) && a.jobs == b.jobs
    requires next.listing == run.listing && next.readLog == run.readLog && !BeforeLog(next.pc)
    ensures RunIsSettled(b, next)
  {}

  lemma StepIsOrdered(universe: set<FileInfo>, init: State, s: State, e: Protocol.Event)
    requires Ordered(init, s) && Protocol.Enabled(universe, s, e)
    ensures Ordered(init, Protocol.Step(universe, s, e))
  {
    hide Ordered, Act, CanAct, RunIsSettled;
    match e
    case RunActs(r, a) =>
      var t := Protocol.Step(universe, s, e);
      RunsAreSettled(init, s, r);
      if a.ListOrphans? || a.Submit? || a.SecondCheck? {
        ActionIsOrdered(universe, init, s, r, a);
      } else if Relevant(a) {
        WaitingStepSettles(universe, s.table, s.claims.file, r, s.runs[r], a);
        PlainStepIsOrdered(init, s, t, r);
      } else {
        OtherStepsKeepAll(universe, s.table, s.claims.file, r, s.runs[r], a);
        SettledDependsOnJobs(s.table, t.table, s.runs[r], t.runs[r]);
        PlainStepIsOrdered(init, s, t, r);
      }
    case Happens(env) => EventIsOrdered(universe, init, s, env);
    case StartRun(_) => ClaimingStepIsOrdered(universe, init, s, e);
    case ClaimEvent(_, _) => ClaimingStepIsOrdered(universe, init, s, e);
    case _ => LeavingStepIsOrdered(universe, init, s, e);
  }

  lemma InitialIsOrdered(init: State)
    requires InitialState(init)
    ensures Ordered(init, init)
  {}

  lemma {:induction false} EveryStateIsOrdered(
    universe: set<FileInfo>, init: State, events: seq<Protocol.Event>, s: State)
    requires InitialState(init) && Protocol.Reaches(universe, init, events, s)
    ensures Ordered(init, s)
    decreases |events|
  {
    hide Ordered, InitialState, Protocol.Enabled, Protocol.Step;
    if events == [] {
      InitialIsOrdered(init);
    } else {
      var n := |events| - 1;
      var u :| Protocol.Reaches(universe, init, events[..n], u) && Protocol.Enabled(universe, u, events[n])
               && Protocol.Step(universe, u, events[n]) == s;
      EveryStateIsOrdered(universe, init, events[..n], u);
      StepIsOrdered(universe, init, u, events[n]);
    }
  }

  /**
   * A job of a run that `n` outranks, once `n` has listed its orphans: either the listing saw it, and it
   * has ended or is awaited, and has ended once `n` read the log; or its submitter has yet to make its
   * second check, died before it, or found the takeover and requested the job's cancellation.
   */
  lemma TakeoverDichotomy(
    universe: set<FileInfo>, init: State, events: seq<Protocol.Event>, s: State, n: TableOwner, j: nat)
    requires InitialState(init) && Protocol.Reaches(universe, init, events, s)
    requires n in s.runs && s.runs[n].listing.Some? && j in s.table.jobs && n.Outranks(s.table.jobs[j].run)
    ensures s.table.jobs[j].run in s.runs
    ensures
      var listing := s.runs[n].listing.value;
      if j in listing.seen
      then (j in listing.orphans || !s.table.jobs[j].state.Running?)
           && (s.runs[n].readLog ==> !s.table.jobs[j].state.Running?)
      else
        var submitter := s.runs[s.table.jobs[j].run].pc;
        || (submitter.Submitted? && submitter.job == j)
        || (submitter.Crashed? && j !in s.secondChecks)
        || (j in s.secondChecks && !s.secondChecks[j] && j in s.cancelRequested)
  {
    hide Protocol.Reaches, InitialState, Owner.Invariant;
    EveryStateIsOrdered(universe, init, events, s);
  }

  /** A job that passed its second check has ended by the time any run outranking its submitter reads the log. */
  lemma CheckedJobsEndBeforeTakeover(
    universe: set<FileInfo>, init: State, events: seq<Protocol.Event>, s: State, n: TableOwner, j: nat)
    requires InitialState(init) && Protocol.Reaches(universe, init, events, s)
    requires n in s.runs && s.runs[n].readLog && j in s.table.jobs && n.Outranks(s.table.jobs[j].run)
    requires j in s.secondChecks && s.secondChecks[j]
    ensures !s.table.jobs[j].state.Running?
  {
    hide Protocol.Reaches, InitialState, Owner.Invariant;
    EveryStateIsOrdered(universe, init, events, s);
  }
}
