/** One ADLA job from submission to its outcome: `submit_and_wait`, cancellation and settling of orphans. */
module Jobs {
  import opened Files

  // ---- What the service and the other threads answer ------------------------------------------

  /** A response's fields, or the kind of exception the request raises. */
  datatype Reply = Answer(state: Option<string>, result: Option<string>) | ConnectionError | OtherError

  datatype JobView = JobView(state: string, result: Option<string>) {
    predicate Terminal() { state == "Ended" }

    predicate Succeeded() { state == "Ended" && result == Some("Succeeded") }

    /** `update_from_response`: absent fields keep their value. */
    function Updated(reply: Reply): JobView
      requires reply.Answer?
    {
      JobView(if reply.state.Some? then reply.state.value else state,
              if reply.result.Some? then reply.result else result)
    }
  }

  predicate SaysEnded(reply: Reply) {
    reply.Answer? && reply.state == Some("Ended")
  }

  datatype OwnerCheck = Passes | TakenOver | ReadRaises

  /** Ids that other threads asked to cancel, and ids they saw ended after asking. */
  datatype Others = Others(cancels: set<nat>, confirms: set<nat>)

  /** Everything the handle does not control, by the number of interactions so far. */
  datatype Environment = Environment(
    reply: nat -> Reply, delay: nat -> nat, owner: nat -> OwnerCheck, shutdown: nat -> bool, others: nat -> Others)

  datatype Reason =
    | Superseded | OwnerUnreadable | ShutDown | TimedOut | PollFailed | Abandoned | ResultUnknown | JobFailed | JobCancelled

  datatype Outcome = Returned(job: nat, view: JobView) | NotSubmitted(reason: Reason) | Raised(job: nat, view: JobView, reason: Reason)

  const MAX_CONSECUTIVE_POLL_FAILURES: nat := 5

  /** The reply to poll `k` of a wait that starts at interaction `from`: each round asks for a shutdown, sleeps and polls. */
  function PollReply(env: Environment, from: nat, k: nat): Reply { env.reply(from + 3 * k + 2) }

  /** What the job looks like after `n` polls; a poll that raises leaves the view as it was. */
  function ViewAfter(env: Environment, start: JobView, from: nat, n: nat): JobView {
    if n == 0 then start
    else
      var before := ViewAfter(env, start, from, n - 1);
      var reply := PollReply(env, from, n - 1);
      if reply.Answer? then before.Updated(reply) else before
  }

  /** How many polls, up to the `n`th, failed to connect in a row. */
  function LostInARow(env: Environment, from: nat, n: nat): nat {
    if n > 0 && PollReply(env, from, n - 1).ConnectionError? then 1 + LostInARow(env, from, n - 1) else 0
  }

  predicate NamesState(env: Environment, from: nat, k: nat) {
    PollReply(env, from, k).Answer? && PollReply(env, from, k).state.Some?
  }

  /** The state is the one the latest answer named, and the first one while no answer named any. */
  lemma {:induction false} StateIsLatestAnswer(env: Environment, start: JobView, from: nat, n: nat, k: nat)
    requires k <= n && forall j :: k <= j < n ==> !NamesState(env, from, j)
    ensures k > 0 && NamesState(env, from, k - 1) ==>
      ViewAfter(env, start, from, n).state == env.reply(from + 3 * k - 1).state.value
    ensures k == 0 ==> ViewAfter(env, start, from, n).state == start.state
    decreases n
  {
    if k < n {
      assert !NamesState(env, from, n - 1);
      StateIsLatestAnswer(env, start, from, n - 1, k);
    }
  }

  predicate NamesResult(env: Environment, from: nat, k: nat) {
    PollReply(env, from, k).Answer? && PollReply(env, from, k).result.Some?
  }

  /** So is the result. */
  lemma {:induction false} ResultIsLatestAnswer(env: Environment, start: JobView, from: nat, n: nat, k: nat)
    requires k <= n && forall j :: k <= j < n ==> !NamesResult(env, from, j)
    ensures k > 0 && NamesResult(env, from, k - 1) ==>
      ViewAfter(env, start, from, n).result == env.reply(from + 3 * k - 1).result
    ensures k == 0 ==> ViewAfter(env, start, from, n).result == start.result
    decreases n
  {
    if k < n {
      assert !NamesResult(env, from, n - 1);
      ResultIsLatestAnswer(env, start, from, n - 1, k);
    }
  }

  /** The loop has made `n` polls: before each the job had not ended, and neither a shutdown nor a poll ended the wait. */
  ghost predicate KeptPolling(env: Environment, start: JobView, from: nat, n: nat) {
    n > 0 ==>
      && KeptPolling(env, start, from, n - 1) && LostInARow(env, from, n - 1) < 5
      && ViewAfter(env, start, from, n - 1).state != "Ended" && !env.shutdown(from + 3 * (n - 1))
      && (n > 1 ==> !PollReply(env, from, n - 2).OtherError?)
  }

  /** The loop goes on after `n` polls. */
  ghost predicate Polled(env: Environment, start: JobView, from: nat, n: nat, view: JobView, failures: nat) {
    && view == ViewAfter(env, start, from, n) && KeptPolling(env, start, from, n)
    && failures == LostInARow(env, from, n) < 5 && (n > 0 ==> !PollReply(env, from, n - 1).OtherError?)
  }

  /** The loop ends after `n` polls: the job has ended, or this is why not. */
  ghost predicate PollsEnd(env: Environment, start: JobView, from: nat, n: nat, view: JobView, failure: Option<Reason>) {
    && view == ViewAfter(env, start, from, n) && KeptPolling(env, start, from, n)
    && (failure == None <==> view.state == "Ended")
    && (failure == Some(ShutDown) ==> env.shutdown(from + 3 * n))
    && (failure == Some(PollFailed) <==>
          n > 0 && view.state != "Ended" && (PollReply(env, from, n - 1).OtherError? || LostInARow(env, from, n) >= 5))
  }

  lemma BeforePolling(env: Environment, start: JobView, from: nat)
    ensures Polled(env, start, from, 0, start, 0)
  {}

  /** One more poll, made at interaction `now + 2`. */
  lemma PollMore(
    env: Environment, start: JobView, now: nat, from: nat, n: nat, before: JobView, failures: nat, view: JobView, lost: nat,
    failure: Option<Reason>)
    requires Polled(env, start, from, n, before, failures) && now == from + 3 * n
    requires before.state != "Ended" && !env.shutdown(now)
    requires
      var reply := env.reply(now + 2);
      && view == (if reply.Answer? then before.Updated(reply) else before)
      && lost == (if reply.ConnectionError? then failures + 1 else 0)
      && failure == if reply.OtherError? || lost >= 5 then Some(PollFailed) else None
    ensures failure == None ==> Polled(env, start, from, n + 1, view, lost)
    ensures failure.Some? ==> PollsEnd(env, start, from, n + 1, view, failure)
  {
    assert env.reply(now + 2) == PollReply(env, from, n);
    hide PollReply;
  }

  lemma StopPolling(
    env: Environment, start: JobView, now: nat, from: nat, n: nat, view: JobView, failures: nat, failure: Option<Reason>)
    requires Polled(env, start, from, n, view, failures) && now == from + 3 * n
    requires failure == None <==> view.state == "Ended"
    requires failure.Some? ==> failure.value.TimedOut? || (failure.value.ShutDown? && env.shutdown(now))
    ensures PollsEnd(env, start, from, n, view, failure)
  {
    hide PollReply, ViewAfter;
  }

  class ScopeConnectionHandle {
    const env: Environment
    var step: nat
    var clock: int
    /** The process-wide registries: `_active_jobs`, `_cancelled_job_ids`, `_confirmed_cancelled_job_ids`. */
    var active: set<nat>
    var cancelled: set<nat>
    var confirmed: set<nat>
    /** The jobs some response said had ended. */
    ghost var ended: set<nat>
    /** How many status requests `SubmitAndWait` has made in its wait loop. */
    ghost var polls: nat

    constructor (environment: Environment)
      ensures env == environment && active == {} && Valid()
    {
      env, step, clock, active, cancelled, confirmed, ended, polls := environment, 0, 0, {}, {}, {}, {}, 0;
    }

    /** Confirmed ids are ids asked to cancel and since observed ended. */
    ghost predicate Valid()
      reads this
    {
      confirmed <= cancelled && confirmed <= ended
    }

    /** Registries and observations only grow, and time does not go back. */
    twostate predicate Grew()
      reads this
    {
      && Valid() && old(cancelled) <= cancelled && old(confirmed) <= confirmed && old(ended) <= ended
      && active == old(active) && clock >= old(clock) && step > old(step)
    }

    /** One interaction, during which other threads and the clock move on. */
    method Interact(seconds: nat)
      requires Valid()
      modifies this`step, this`clock, this`cancelled, this`confirmed, this`ended
      ensures Grew() && clock >= old(clock) + seconds && step == old(step) + 1
    {
      var others := env.others(step);
      cancelled := cancelled + others.cancels + others.confirms;
      confirmed := confirmed + others.confirms;
      ended := ended + others.confirms;
      clock := clock + seconds + env.delay(step);
      step := step + 1;
    }

    method Get(job: nat) returns (reply: Reply)
      requires Valid()
      modifies this`step, this`clock, this`cancelled, this`confirmed, this`ended
      ensures Grew() && (reply.Answer? && reply.state == Some("Ended") ==> job in ended)
      ensures reply == env.reply(old(step)) && step == old(step) + 1
    {
      reply := env.reply(step);
      Interact(0);
      if reply.Answer? && reply.state == Some("Ended") {
        ended := ended + {job};
      }
    }

    /** The reply of interaction `i` says the job has ended. */
    predicate EndedAt(i: nat) {
      env.reply(i).Answer? && env.reply(i).state == Some("Ended")
    }

    /** None of the `rounds` replies from interaction `first` on, one sleep apart, says the job has ended. */
    ghost predicate NeverEnded(first: nat, rounds: nat) {
      rounds > 0 ==> NeverEnded(first, rounds - 1) && !EndedAt(first + 2 * rounds - 2)
    }

    lemma {:induction false} FirstRoundNotEnded(first: nat, rounds: nat)
      requires rounds > 0 && NeverEnded(first, rounds)
      ensures !EndedAt(first)
    {
      if rounds > 1 {
        FirstRoundNotEnded(first, rounds - 1);
      }
    }

    method IsShuttingDown() returns (down: bool)
      requires Valid()
      modifies this`step, this`clock, this`cancelled, this`confirmed, this`ended
      ensures Grew() && down == env.shutdown(old(step)) && step == old(step) + 1
    {
      down := env.shutdown(step);
      Interact(0);
    }

    method EnsureTableOwner() returns (check: OwnerCheck)
      requires Valid()
      modifies this`step, this`clock, this`cancelled, this`confirmed, this`ended
      ensures Grew() && check == env.owner(old(step)) && step == old(step) + 1
    {
      check := env.owner(step);
      Interact(0);
    }

    /** The loop of `cancel_job`: poll after every sleep until the job is seen ended or the time is up. */
    method AwaitCancelled(job: nat, pollInterval: nat, maxWait: nat) returns (isEnded: bool, ghost rounds: nat)
      requires Valid() && pollInterval > 0 && job in cancelled
      modifies this`step, this`clock, this`cancelled, this`confirmed, this`ended
      ensures Valid() && active == old(active) && clock >= old(clock)
      ensures old(cancelled) <= cancelled && old(confirmed) <= confirmed && old(ended) <= ended
      ensures NeverEnded(old(step) + 1, rounds)
      ensures isEnded ==> step == old(step) + 2 * rounds + 2 && job in confirmed && EndedAt(step - 1)
      ensures !isEnded ==> clock >= old(clock) + maxWait && step == old(step) + 2 * rounds
      ensures !isEnded && maxWait > 0 ==> rounds > 0
    {
      isEnded, rounds := false, 0;
      var start := clock;
      while true
        invariant Valid() && active == old(active) && start == old(clock) <= clock && !isEnded
        invariant old(cancelled) <= cancelled && old(confirmed) <= confirmed && old(ended) <= ended
        invariant step == old(step) + 2 * rounds && NeverEnded(old(step) + 1, rounds)
        invariant rounds == 0 ==> clock == start
        decreases start + maxWait - clock
      {
        if clock - start >= maxWait {
          return;
        }
        Interact(pollInterval);
        var reply := Get(job);
        if SaysEnded(reply) {
          confirmed := confirmed + {job};
          isEnded := true;
          return;
        }
        rounds := rounds + 1;
      }
    }

    /**
     * `cancel_job`: `Some(true)` only when the job was observed ended, `Some(false)` only after the whole wait,
     * and `None`, for a raise, exactly when the request raises and the job is not seen ended right after.
     */
    method CancelJob(job: nat, pollInterval: nat, maxWait: nat) returns (result: Option<bool>, ghost rounds: nat)
      requires Valid() && pollInterval > 0
      modifies this`step, this`clock, this`cancelled, this`confirmed, this`ended
      ensures Grew() && job in cancelled
      ensures result == Some(true) ==> job in confirmed && EndedAt(step - 1)
      ensures result == Some(false) ==>
        && clock >= old(clock) + maxWait && step == old(step) + 1 + 2 * rounds && NeverEnded(old(step) + 2, rounds)
      ensures env.reply(old(step)).Answer? && maxWait > 0 && EndedAt(old(step) + 2) ==>
        result == Some(true) && step == old(step) + 3
      ensures !env.reply(old(step)).Answer? ==> result == if EndedAt(old(step) + 1) then Some(true) else None
      ensures result == None ==> !env.reply(old(step)).Answer?
    {
      hide NeverEnded;
      rounds := 0;
      cancelled := cancelled + {job};
      var posted := Get(job);
      if !posted.Answer? {
        var reply := Get(job);
        if !SaysEnded(reply) {
          return None, 0;
        }
        confirmed := confirmed + {job};
        return Some(true), 0;
      }
      var isEnded;
      isEnded, rounds := AwaitCancelled(job, pollInterval, maxWait);
      if rounds > 0 {
        FirstRoundNotEnded(old(step) + 2, rounds);
      }
      result := Some(isEnded);
    }

    /** `_cancel_own_job`. */
    method CancelOwnJob(job: nat, waitSeconds: nat) returns (isConfirmed: bool, ghost rounds: nat)
      requires Valid()
      modifies this`step, this`clock, this`cancelled, this`confirmed, this`ended
      ensures Grew() && job in cancelled
      ensures isConfirmed ==> job in confirmed && EndedAt(step - 1)
      ensures !isConfirmed && env.reply(old(step)).Answer? ==>
        && clock >= old(clock) + waitSeconds && step == old(step) + 1 + 2 * rounds && NeverEnded(old(step) + 2, rounds)
      ensures env.reply(old(step)).Answer? && waitSeconds > 0 && EndedAt(old(step) + 2) ==>
        isConfirmed && step == old(step) + 3
      ensures !env.reply(old(step)).Answer? ==> isConfirmed == EndedAt(old(step) + 1)
    {
      hide NeverEnded;
      cancelled := cancelled + {job};
      var result;
      result, rounds := CancelJob(job, 2, waitSeconds);
      if result.None? {
        return false, rounds;
      }
      isConfirmed := result.value;
      if isConfirmed {
        confirmed := confirmed + {job};
      }
    }

    /** `poll_job`: a response updates the view, a raising request leaves it. */
    method PollJob(job: nat, before: JobView) returns (view: JobView, reply: Reply)
      requires Valid()
      modifies this`step, this`clock, this`cancelled, this`confirmed, this`ended
      ensures Grew() && reply == env.reply(old(step)) && step == old(step) + 1
      ensures view == if reply.Answer? then before.Updated(reply) else before
      ensures view.state == "Ended" ==> before.state == "Ended" || job in ended
    {
      view := before;
      reply := Get(job);
      if reply.Answer? {
        view := before.Updated(reply);
      }
    }

    /** One round of the poll loop: its shutdown check, its timeout, the sleep and the poll. */
    method PollRound(job: nat, before: JobView, began: int, failures: nat, pollInterval: nat, maxWait: nat, waitOnCancel: nat)
      returns (view: JobView, lost: nat, failure: Option<Reason>)
      requires Valid() && pollInterval > 0 && (before.state == "Ended" ==> job in ended)
      modifies this`step, this`clock, this`cancelled, this`confirmed, this`ended
      ensures Grew() && (view.state == "Ended" ==> job in ended)
      ensures failure.Some? ==> failure.value.ShutDown? || failure.value.TimedOut? || failure.value.PollFailed?
      ensures env.shutdown(old(step)) <==> failure == Some(ShutDown)
      ensures failure == Some(ShutDown) ==> view == before && job in cancelled
      ensures failure == Some(TimedOut) ==> view == before && clock - began >= maxWait
      ensures failure != Some(ShutDown) && failure != Some(TimedOut) ==>
        var reply := env.reply(old(step) + 2);
        && step == old(step) + 3 && clock >= old(clock) + pollInterval && old(clock) - began < maxWait
        && view == (if reply.Answer? then before.Updated(reply) else before)
        && lost == (if reply.ConnectionError? then failures + 1 else 0)
        && (failure == Some(PollFailed) <==> reply.OtherError? || lost >= 5)
    {
      view, lost := before, failures;
      var down := IsShuttingDown();
      if down {
        if job !in cancelled {
          var isConfirmed, rounds := CancelOwnJob(job, waitOnCancel);
        }
        return view, lost, Some(ShutDown);
      }
      if clock - began >= maxWait {
        return view, lost, Some(TimedOut);
      }
      Interact(pollInterval);
      var reply;
      view, reply := PollJob(job, before);
      lost := if reply.ConnectionError? then failures + 1 else 0;
      failure := if reply.OtherError? || lost >= MAX_CONSECUTIVE_POLL_FAILURES then Some(PollFailed) else None;
    }

    /**
     * The poll loop: `None` once the job is terminal, else why the run gives up. Status requests are
     * bounded by the timeout: the last one was made before `maxWait` seconds had passed.
     */
    method WaitForJob(job: nat, start: JobView, pollInterval: nat, maxWait: nat, waitOnCancel: nat)
      returns (view: JobView, failure: Option<Reason>)
      requires Valid() && pollInterval > 0 && (start.Terminal() ==> job in ended)
      modifies this`step, this`clock, this`cancelled, this`confirmed, this`ended, this`polls
      ensures Valid() && active == old(active)
      ensures old(cancelled) <= cancelled && old(confirmed) <= confirmed && old(ended) <= ended
      ensures view.state == "Ended" ==> job in ended
      ensures PollsEnd(env, start, old(step), polls, view, failure)
      ensures failure.Some? ==> failure.value.ShutDown? || failure.value.TimedOut? || failure.value.PollFailed?
      ensures failure == Some(ShutDown) ==> job in cancelled
      ensures failure == Some(TimedOut) ==> clock >= old(clock) + maxWait
      ensures PolledInTime(polls, pollInterval, maxWait)
    {
      NextPoll(0, pollInterval, maxWait, 0, 0);
      hide Polled, PollsEnd, EndedAt, PolledInTime, Elapsed, JobView.Updated;
      BeforePolling(env, start, step);
      view, failure, polls := start, None, 0;
      var began := clock;
      var failures := 0;
      while !view.Terminal()
        invariant Valid() && active == old(active) && failure == None
        invariant old(cancelled) <= cancelled && old(confirmed) <= confirmed && old(ended) <= ended
        invariant view.state == "Ended" ==> job in ended
        invariant began == old(clock) && clock >= began && step == old(step) + 3 * polls
        invariant Polled(env, start, old(step), polls, view, failures)
        invariant Elapsed(polls, pollInterval, clock - began) && PolledInTime(polls, pollInterval, maxWait)
        decreases began + maxWait - clock
      {
        ghost var now, before, last, lost := step, clock - began, view, failures;
        view, failures, failure := PollRound(job, view, began, failures, pollInterval, maxWait, waitOnCancel);
        if failure == Some(ShutDown) || failure == Some(TimedOut) {
          StopPolling(env, start, now, old(step), polls, view, lost, failure);
          return;
        }
        NextPoll(polls, pollInterval, maxWait, before, clock - began);
        PollMore(env, start, now, old(step), polls, last, lost, view, failures, failure);
        polls := polls + 1;
        if failure.Some? {
          return;
        }
      }
      StopPolling(env, start, step, old(step), polls, view, failures, None);
    }

    /** What happens to a job this run stops waiting for: `None` if it succeeded after all. */
    method GiveUp(job: nat, before: JobView, failure: Reason, waitOnCancel: nat) returns (view: JobView, raised: Option<Reason>)
      requires Valid() && (before.Terminal() ==> job in ended)
      modifies this`step, this`clock, this`cancelled, this`confirmed, this`ended
      ensures Valid() && active == old(active)
      ensures old(cancelled) <= cancelled && old(confirmed) <= confirmed && old(ended) <= ended
      ensures job in cancelled && (view.state == "Ended" ==> job in ended)
      ensures raised == None ==> view.state == "Ended" && view.result == Some("Succeeded") && job in confirmed
      ensures raised.Some? ==> raised.value == failure || raised.value.Abandoned? || raised.value.ResultUnknown?
      ensures view.state == "Ended" && view.result == Some("Succeeded") && before.state != "Ended" ==> raised == None
      ensures job in old(cancelled) ==> raised == Some(failure) && view == before
      ensures
        && job !in old(cancelled) && waitOnCancel > 0 && env.reply(old(step)).Answer?
        && EndedAt(old(step) + 2) && env.reply(old(step) + 3).Answer? ==>
          && view == before.Updated(env.reply(old(step) + 3))
          && (raised == if view.state == "Ended" && view.result == Some("Succeeded") then None else Some(failure))
    {
      view := before;
      if job in cancelled {
        return view, Some(failure);
      }
      var isConfirmed, rounds := CancelOwnJob(job, waitOnCancel);
      if !isConfirmed {
        return view, Some(Abandoned);
      }
      var reply;
      view, reply := PollJob(job, before);
      if !reply.Answer? {
        return view, Some(ResultUnknown);
      }
      if !view.Succeeded() {
        return view, Some(failure);
      }
      return view, None;
    }

    /** The first owner check and `submit_job`: the view of a submitted job, or why nothing was submitted. */
    method TrySubmit(job: nat) returns (view: JobView, refusal: Option<Reason>)
      requires Valid()
      modifies this`step, this`clock, this`cancelled, this`confirmed, this`ended
      ensures Grew() && (view.state == "Ended" ==> job in ended)
      ensures refusal ==
        if env.owner(old(step)).TakenOver? then Some(Superseded)
        else if env.owner(old(step)).ReadRaises? then Some(OwnerUnreadable)
        else if env.shutdown(old(step) + 1) then Some(ShutDown)
        else if !env.reply(old(step) + 2).Answer? then Some(PollFailed)
        else None
      ensures refusal.None? ==>
        step == old(step) + 3 && view == JobView("Preparing", None).Updated(env.reply(old(step) + 2))
    {
      view := JobView("Preparing", None);
      var check := EnsureTableOwner();
      if !check.Passes? {
        return view, Some(if check.TakenOver? then Superseded else OwnerUnreadable);
      }
      var down := IsShuttingDown();
      if down {
        return view, Some(ShutDown);
      }
      var put := Get(job);
      if !put.Answer? {
        return view, Some(PollFailed);
      }
      return view.Updated(put), None;
    }

    /** The second owner check and, when it passes, the poll loop. */
    method CheckAndWait(job: nat, start: JobView, pollInterval: nat, maxWait: nat, waitOnCancel: nat)
      returns (view: JobView, failure: Option<Reason>)
      requires Valid() && pollInterval > 0 && (start.Terminal() ==> job in ended)
      modifies this`step, this`clock, this`cancelled, this`confirmed, this`ended, this`polls
      ensures Valid() && active == old(active)
      ensures old(cancelled) <= cancelled && old(confirmed) <= confirmed && old(ended) <= ended
      ensures view.state == "Ended" ==> job in ended
      ensures env.owner(old(step)).Passes? ==>
        PollsEnd(env, start, old(step) + 1, polls, view, failure)
      ensures !env.owner(old(step)).Passes? ==>
        view == start && failure == Some(if env.owner(old(step)).TakenOver? then Superseded else OwnerUnreadable)
      ensures failure.Some? ==> !failure.value.JobFailed? && !failure.value.JobCancelled?
      ensures PolledInTime(polls, pollInterval, maxWait)
    {
      hide ViewAfter, KeptPolling, LostInARow, EndedAt, NeverEnded, PolledInTime;
      NextPoll(0, pollInterval, maxWait, 0, 0);
      polls := 0;
      var check := EnsureTableOwner();
      if !check.Passes? {
        return start, Some(if check.TakenOver? then Superseded else OwnerUnreadable);
      }
      view, failure := WaitForJob(job, start, pollInterval, maxWait, waitOnCancel);
    }

    /**
     * `submit_and_wait`. A returned job was observed ended and succeeded. Any raise after the submission
     * leaves the job observed ended without success, or among the ids asked to cancel, and a job whose
     * second owner check did not pass is always among them. Nothing is submitted exactly when the first
     * check does not pass, the run is aborting or the submission raises. The job is no longer registered.
     */
    method SubmitAndWait(job: nat, pollInterval: nat, maxWait: nat, waitOnCancel: nat) returns (outcome: Outcome)
      requires Valid() && pollInterval > 0 && job !in active && job !in cancelled
      modifies this
      ensures Valid() && active == old(active)
      ensures old(cancelled) <= cancelled && old(confirmed) <= confirmed && old(ended) <= ended
      ensures outcome.NotSubmitted? <==>
        !env.owner(old(step)).Passes? || env.shutdown(old(step) + 1) || !env.reply(old(step) + 2).Answer?
      ensures !outcome.NotSubmitted? ==> outcome.job == job
      ensures !outcome.NotSubmitted? && !env.owner(old(step) + 3).Passes? ==> job in cancelled
      ensures outcome.Returned? ==>
        outcome.view.state == "Ended" && outcome.view.result == Some("Succeeded") && job in ended
      ensures outcome.Raised? ==>
        job in cancelled || (job in ended && outcome.view.state == "Ended" && outcome.view.result != Some("Succeeded"))
      ensures outcome.Raised? && outcome.reason.JobFailed? ==>
        job !in cancelled && job in ended && outcome.view.state == "Ended" && outcome.view.result != Some("Succeeded")
      ensures !outcome.NotSubmitted? && env.owner(old(step) + 3).Passes? ==>
        var seen := ViewAfter(env, JobView("Preparing", None).Updated(env.reply(old(step) + 2)), old(step) + 4, polls);
        && (seen.state == "Ended" && seen.result == Some("Succeeded") ==> outcome == Returned(job, seen))
        && (seen.state == "Ended" && seen.result != Some("Succeeded") ==>
              outcome == Raised(job, seen, if job in cancelled then JobCancelled else JobFailed))
      ensures outcome.Raised? && outcome.reason.JobCancelled? ==> job in cancelled && job in ended
      ensures PolledInTime(polls, pollInterval, maxWait)
    {
      hide ViewAfter, KeptPolling, LostInARow, EndedAt, NeverEnded, PolledInTime;
      NextPoll(0, pollInterval, maxWait, 0, 0);
      polls := 0;
      var view, refusal := TrySubmit(job);
      if refusal.Some? {
        return NotSubmitted(refusal.value);
      }
      active := active + {job};
      var failure: Option<Reason>, raised: Option<Reason> := None, None;
      view, failure := CheckAndWait(job, view, pollInterval, maxWait, waitOnCancel);
      if failure.Some? {
        view, raised := GiveUp(job, view, failure.value, waitOnCancel);
      }
      if raised.Some? {
        outcome := Raised(job, view, raised.value);
      } else if view.Succeeded() {
        outcome := Returned(job, view);
      } else {
        outcome := Raised(job, view, if job in cancelled then JobCancelled else JobFailed);
      }
      active := active - {job};
    }

    /**
     * `settle_orphaned_jobs` for the listed ids: every one is asked to cancel, and the call succeeds only
     * when every one was observed ended; `false` stands for the raise that leaves the checkpoint untouched.
     */
    method SettleOrphanedJobs(orphans: seq<nat>, pollInterval: nat, maxWait: nat) returns (settled: bool)
      requires Valid() && pollInterval > 0
      modifies this`step, this`clock, this`cancelled, this`confirmed, this`ended
      ensures Valid() && active == old(active)
      ensures forall j :: j in orphans ==> j in cancelled
      ensures settled ==> forall j :: j in orphans ==> j in ended && j in confirmed
      ensures !settled ==> clock >= old(clock) + maxWait
      ensures
        (forall i :: old(step) + |orphans| <= i < old(step) + 2 * |orphans| ==> EndedAt(i)) ==> settled
      ensures !settled ==> exists i :: old(step) <= i < step && !EndedAt(i)
    {
      RequestCancels(orphans);
      var pending := orphans;
      var deadline := clock + maxWait;
      ghost var began := clock;
      ghost var first, running := step, step;
      while pending != []
        invariant Valid() && active == old(active) && clock >= began >= old(clock) && step >= first
        invariant pending == [] || (step == first && pending == orphans) ||
          (first <= running < first + |orphans| && running < step && !EndedAt(running))
        invariant forall j :: j in orphans ==> j in cancelled
        invariant forall j :: j in orphans && j !in pending ==> j in ended && j in confirmed
        invariant forall j :: j in pending ==> j in orphans
        decreases deadline - clock, |pending|
      {
        ghost var pass, awaited := step, pending;
        pending := PollPending(orphans, pending);
        if pending == [] {
          break;
        }
        if pass == first {
          assert pending[0] in pending;
          ghost var i :| 0 <= i < |awaited| && awaited[i] == pending[0] && !EndedAt(pass + i);
          running := pass + i;
        }
        if clock >= deadline {
          return false;
        }
        Interact(pollInterval);
      }
      return true;
    }

    /** `CancelJob` is posted for each orphan; a post that raises only warns. */
    method RequestCancels(orphans: seq<nat>)
      requires Valid()
      modifies this`step, this`clock, this`cancelled, this`confirmed, this`ended
      ensures Valid() && active == old(active) && clock >= old(clock)
      ensures step == old(step) + |orphans|
      ensures forall j :: j in orphans ==> j in cancelled
    {
      for i := 0 to |orphans|
        invariant Valid() && active == old(active) && clock >= old(clock) && step == old(step) + i
        invariant forall k :: 0 <= k < i ==> orphans[k] in cancelled
      {
        cancelled := cancelled + {orphans[i]};
        var posted := Get(orphans[i]);
      }
    }

    /** One pass over the jobs still awaited. */
    method PollPending(orphans: seq<nat>, pending: seq<nat>) returns (rest: seq<nat>)
      requires Valid() && forall j :: j in pending ==> j in orphans && j in cancelled
      modifies this`step, this`clock, this`cancelled, this`confirmed, this`ended
      ensures Valid() && active == old(active) && clock >= old(clock)
      ensures old(cancelled) <= cancelled && old(confirmed) <= confirmed && old(ended) <= ended
      ensures forall j :: j in pending && j !in rest ==> j in ended && j in confirmed
      ensures step == old(step) + |pending|
      ensures forall j :: j in rest <==> exists i :: 0 <= i < |pending| && pending[i] == j && !EndedAt(old(step) + i)
    {
      rest := [];
      for i := 0 to |pending|
        invariant Valid() && active == old(active) && clock >= old(clock) && step == old(step) + i
        invariant old(cancelled) <= cancelled && old(confirmed) <= confirmed && old(ended) <= ended
        invariant forall k :: 0 <= k < i && pending[k] !in rest ==> pending[k] in ended && pending[k] in confirmed
        invariant forall j :: j in rest <==> exists k :: 0 <= k < i && pending[k] == j && !EndedAt(old(step) + k)
      {
        var job := pending[i];
        var reply := Get(job);
        if SaysEnded(reply) {
          confirmed := confirmed + {job};
        } else {
          rest := rest + [job];
        }
      }
    }
  }

  /** The last of `polls` status requests, one interval apart, began before the timeout. */
  ghost predicate PolledInTime(polls: nat, pollInterval: nat, maxWait: nat) {
    polls == 0 || (polls - 1) * pollInterval < maxWait
  }

  ghost predicate Elapsed(polls: nat, pollInterval: nat, seconds: int) {
    polls * pollInterval <= seconds
  }

  lemma NextPoll(polls: nat, pollInterval: nat, maxWait: nat, before: int, after: int)
    ensures PolledInTime(0, pollInterval, maxWait) && Elapsed(0, pollInterval, 0)
    ensures Elapsed(polls, pollInterval, before) && before < maxWait ==> PolledInTime(polls + 1, pollInterval, maxWait)
    ensures Elapsed(polls, pollInterval, before) && before + pollInterval <= after ==> Elapsed(polls + 1, pollInterval, after)
  {
    assert (polls + 1) * pollInterval == polls * pollInterval + pollInterval;
  }
}
