/** A run that lost its table to a later run, and is not in the middle of its writes, leaves no trace any more. */
module Superseded {
  import opened Files
  import opened CheckpointRecords
  import opened FileTracker
  import opened DeltaLog
  import opened Owner
  import opened Protocol
  import opened Progress
  import Takeover

  // ---- What a run without its table can still do ----------------------------------------------

  /** Between the writes of `begin_batch` and those of `update_checkpoint`, each behind an owner check. */
  predicate BetweenWrites(pc: Pc) {
    || pc.Discovering? || pc.BatchChosen? || pc.Submitting? || pc.Submitted? || pc.Polling? || pc.Cancelling? || pc.Updating?
    || pc.Stopped? || pc.Crashed?
  }

  /** Without the table, a run between its writes changes nothing in storage and stays there. */
  lemma StepWithoutTable(universe: set<FileInfo>, table: Table, file: OwnerFile, r: TableOwner, run: Run, a: Action)
    requires CanAct(universe, table, run, a) && !OwnsTable(file, r) && BetweenWrites(run.pc)
    ensures
      var o := Act(universe, table, file, r, run, a);
      o.table == table && BetweenWrites(o.run.pc)
  {
    hide OwnsTable, NewPending, CommittedVersion, IngestedAfter, GoodDiscovery, UnprocessedBy, NextBatch;
  }

  /** The event is a step of `r`, or its crash. */
  predicate IsOf(e: Protocol.Event, r: TableOwner) {
    (e.RunActs? || e.Crash?) && e.run == r
  }

  function Without(events: seq<Protocol.Event>, r: TableOwner): seq<Protocol.Event> {
    if events == [] then []
    else if IsOf(events[0], r) then Without(events[1..], r)
    else [events[0]] + Without(events[1..], r)
  }

  /** The states differ in nothing but the run `r`, and in the jobs it asked to cancel or checked. */
  ghost predicate Alike(s: State, v: State, r: TableOwner) {
    && r in s.runs && r in v.runs && s.table == v.table && s.claims == v.claims
    && v.runs == s.runs[r := v.runs[r]]
  }

  /** The run lost its table for good: one that outranks it has won its claim. */
  ghost predicate Lost(init: State, s: State, n: TableOwner, r: TableOwner) {
    && Takeover.Ordered(init, s) && Takeover.Won(s.claims, n) && n.Outranks(r)
    && r in s.runs && BetweenWrites(s.runs[r].pc)
  }

  lemma OwnStepLeavesNoTrace(universe: set<FileInfo>, init: State, s: State, v: State, n: TableOwner, r: TableOwner, e: Protocol.Event)
    requires Lost(init, s, n, r) && Alike(s, v, r) && Protocol.Enabled(universe, s, e) && IsOf(e, r)
    ensures
      var t := Protocol.Step(universe, s, e);
      && Alike(t, v, r) && r in t.runs && BetweenWrites(t.runs[r].pc) && t.claims == s.claims
  {
    hide OwnsTable, Takeover.Ordered;
    LostTable(init, s, n, r);
    if e.RunActs? {
      StepWithoutTable(universe, s.table, s.claims.file, r, s.runs[r], e.action);
      hide Act, CanAct;
      assert Protocol.Step(universe, s, e).runs[r := v.runs[r]] == s.runs[r := v.runs[r]];
    } else {
      assert Protocol.Step(universe, s, e).runs[r := v.runs[r]] == s.runs[r := v.runs[r]];
    }
  }

  lemma LostTable(init: State, s: State, n: TableOwner, r: TableOwner)
    requires Takeover.Ordered(init, s) && Takeover.Won(s.claims, n) && n.Outranks(r)
    ensures !OwnsTable(s.claims.file, r)
  {
    Takeover.OutrankedRunFailsCheck(init, s, n, r);
  }

  lemma SwapRuns(runs: map<TableOwner, Run>, r: TableOwner, mine: Run, q: TableOwner, other: Run)
    requires q != r
    ensures runs[q := other][r := mine] == runs[r := mine][q := other]
  {}

  /** The steps of other runs and of the surroundings do not see the difference. */
  lemma OtherStepIsAlike(universe: set<FileInfo>, s: State, v: State, r: TableOwner, e: Protocol.Event)
    requires Alike(s, v, r) && Protocol.Enabled(universe, s, e) && !IsOf(e, r)
    requires BetweenWrites(s.runs[r].pc)
    ensures Protocol.Enabled(universe, v, e)
    ensures
      var t := Protocol.Step(universe, s, e);
      Alike(t, Protocol.Step(universe, v, e), r) && t.runs[r] == s.runs[r] && Protocol.Step(universe, v, e).runs[r] == v.runs[r]
  {
    hide CanAct, Act, CanHappen, Happen, Owner.Enabled, Owner.Step;
    var t, w := Protocol.Step(universe, s, e), Protocol.Step(universe, v, e);
    if !e.Happens? {
      assert e.run != r;
      if e.run in t.runs {
        SwapRuns(s.runs, r, v.runs[r], e.run, t.runs[e.run]);
      }
    }
  }

  lemma StillLost(universe: set<FileInfo>, init: State, s: State, n: TableOwner, r: TableOwner, e: Protocol.Event)
    requires Lost(init, s, n, r) && Protocol.Enabled(universe, s, e)
    requires r in Protocol.Step(universe, s, e).runs && BetweenWrites(Protocol.Step(universe, s, e).runs[r].pc)
    ensures Lost(init, Protocol.Step(universe, s, e), n, r)
  {
    hide Takeover.Ordered, CanAct, Act, CanHappen, Happen, Takeover.Won, Owner.Enabled, Owner.Step;
    Takeover.StepIsOrdered(universe, init, s, e);
    if e.StartRun? {
      Takeover.WonStays(s.claims, Owner.Start(e.run), n);
    } else if e.ClaimEvent? {
      Takeover.WonStays(s.claims, e.claim, n);
    }
  }

  lemma {:induction false} Erase(
    universe: set<FileInfo>, init: State, s: State, v: State, n: TableOwner, r: TableOwner, events: seq<Protocol.Event>, t: State)
    returns (w: State)
    requires Lost(init, s, n, r) && Alike(s, v, r) && Leads(universe, s, events, t)
    ensures Leads(universe, v, Without(events, r), w)
    ensures Alike(t, w, r) && w.runs[r] == v.runs[r]
    ensures BetweenWrites(t.runs[r].pc)
    decreases |events|
  {
    LeadsUnfolds(universe, s, events, t);
    if events == [] {
      w := v;
      LeadsNowhere(universe, v);
    } else {
      hide Leads, Alike, Protocol.Enabled, Protocol.Step, IsOf;
      var e := events[0];
      var u := Protocol.Step(universe, s, e);
      AlikeHasRun(s, v, r);
      if IsOf(e, r) {
        OwnStepLeavesNoTrace(universe, init, s, v, n, r, e);
        StillLost(universe, init, s, n, r, e);
        w := Erase(universe, init, u, v, n, r, events[1..], t);
      } else {
        OtherStepIsAlike(universe, s, v, r, e);
        AlikeHasRun(u, Protocol.Step(universe, v, e), r);
        StillLost(universe, init, s, n, r, e);
        w := Erase(universe, init, u, Protocol.Step(universe, v, e), n, r, events[1..], t);
        LeadsFirst(universe, v, e, Without(events[1..], r), w);
      }
    }
    AlikeHasRun(t, w, r);
  }

  lemma AlikeHasRun(s: State, v: State, r: TableOwner)
    requires Alike(s, v, r)
    ensures r in s.runs && r in v.runs
  {}

  /**
   * A run that a later one superseded while it was between its writes changes nothing any more, whatever happens
   * next: leaving its steps out of any continuation leads to the same storage, the same claims and the same
   * states of all other runs.
   */
  lemma SupersededRunLeavesNoTrace(
    universe: set<FileInfo>, init: State, before: seq<Protocol.Event>, s: State, n: TableOwner, r: TableOwner,
    events: seq<Protocol.Event>, t: State)
    returns (w: State)
    requires InitialState(init) && Protocol.Reaches(universe, init, before, s)
    requires n in s.claims.claims && s.claims.claims[n] == Returned(n)
    requires n.startedAt > r.startedAt || (n.startedAt == r.startedAt && StringLess(r.runId, n.runId))
    requires r in s.runs && BetweenWrites(s.runs[r].pc)
    requires Leads(universe, s, events, t)
    ensures Leads(universe, s, Without(events, r), w)
    ensures t.table == w.table && t.claims == w.claims && t.runs.Keys == w.runs.Keys
    ensures forall q :: q in t.runs && q != r ==> t.runs[q] == w.runs[q]
    ensures r in t.runs && BetweenWrites(t.runs[r].pc) && w.runs[r] == s.runs[r]
  {
    hide Protocol.Reaches, InitialState, Takeover.Ordered, Leads, Without;
    Takeover.EveryStateIsOrdered(universe, init, before, s);
    assert s.runs == s.runs[r := s.runs[r]];
    w := Erase(universe, init, s, s, n, r, events, t);
  }
}
