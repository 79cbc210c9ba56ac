/**
 * The incremental materialization as a state machine: any number of runs, each a sequence of small
 * non-atomic steps over shared storage, with jobs, the Delta log and other writers in between.
 */
module Protocol {
  import opened Files
  import opened CheckpointRecords
  import opened FileTracker
  import opened Adoption
  import opened DeltaLog
  import opened Owner

  // ---- State ----------------------------------------------------------------------------------

  datatype JobState = Running | Succeeded | Failed

  /** An ADLA job: who submitted it, the batch it ingests, and whether it ended. */
  datatype Job = Job(run: TableOwner, token: nat, files: seq<FileInfo>, state: JobState)

  /**
   * Shared storage and services. `batches` is the history of every batch written to `pending.json`,
   * by token; `sources` the per-batch records under `_checkpoint/sources/`.
   */
  datatype Table = Table(
    log: Log,
    watermark: Option<Watermark>,
    pending: Option<PendingBatch>,
    sources: map<int, seq<(string, int)>>,
    batches: map<nat, seq<FileInfo>>,
    jobs: map<nat, Job>)

  /**
   * What to do once a batch is recorded: finish reconciling, record the Delta version, or discover again.
   * Adoption still holds the watermark from before, for the case that recording raises.
   */
  datatype After = Resume(snapshot: Log) | Final(snapshot: Log, before: Watermark) | Loop

  /** Arguments of one `_record_batch` in progress. */
  datatype Record = Record(next: Watermark, entries: seq<(string, int)>, after: After)

  /** The next step of a run, with the local values it holds. */
  datatype Pc =
    // claim_table
    | Claiming
    | ListingOrphans
    | Settling
    // reconcile_checkpoint
    | ReadingWatermark
    | ListingLog(current: Option<Watermark>)
    | ReadingPending(current: Option<Watermark>, snapshot: Log)
    | Adopting(adoptFrom: Watermark, snapshot: Log)
    | WritingFinal(adoptFrom: Watermark, snapshot: Log)
    // _record_batch
    | WritingWatermark(record: Record)
    | WritingSources(record: Record)
    | CleaningSources(record: Record)
    | DeletingPending(current: Option<Watermark>, after: After)
    // discover_files and begin_batch
    | Discovering
    | BatchChosen(batch: seq<FileInfo>)
    | BatchOwned(batch: seq<FileInfo>)
    | BatchRead(batch: seq<FileInfo>, current: Option<Watermark>)
    | BatchVersioned(batch: seq<FileInfo>, current: Option<Watermark>, version: int)
    // submit_and_wait
    | Submitting(pending: PendingBatch)
    | SubmitOwned(pending: PendingBatch)
    | Submitted(pending: PendingBatch, job: nat)
    | Polling(pending: PendingBatch, job: nat)
    | Cancelling(pending: PendingBatch, job: nat, superseded: bool)
    // update_checkpoint
    | Updating(pending: PendingBatch)
    | UpdateOwned(pending: PendingBatch)
    | UpdateRead(pending: PendingBatch, current: Option<Watermark>)
    // the process ended the model, or died
    | Stopped
    | Crashed

  /** What `_list_orphaned_jobs` saw: every job submitted so far, and the unfinished ones of other runs. */
  datatype Orphans = Orphans(seen: set<nat>, orphans: set<nat>)

  /** `readLog` records that the run has read the Delta log. */
  datatype Run = Run(pc: Pc, listing: Option<Orphans>, readLog: bool) {
    function At(next: Pc): Run { this.(pc := next) }

    predicate Live() { !pc.Stopped? && !pc.Crashed? }
  }

  /** `secondChecks` records, per job, whether the owner check made once it existed passed. */
  datatype State = State(
    table: Table,
    cancelRequested: set<nat>,
    secondChecks: map<nat, bool>,
    claims: Claims,
    runs: map<TableOwner, Run>)

  // ---- Actions of a run -----------------------------------------------------------------------

  datatype Action =
    | ListOrphans
    | Settle
    | ReadWatermark
    | ListLog
    | ReadPending
    | Adopt(adoptListing: seq<FileInfo>, adoptCutoff: int, adopted: set<string>, legacyBaseline: int)
    | SkipAdoption
    | SwallowFailure
    | WriteFinal
    | WriteWatermark
    | WriteSources
    | CleanSources(kept: set<int>)
    | DeletePending(deleted: bool)
    | Discover(listing: seq<FileInfo>, cutoff: int, maxFiles: int, maxBytes: int, again: bool)
    | BeginCheck
    | BeginReadWatermark
    | BeginReadVersion
    | WritePending(token: nat)
    | SubmitCheck
    | Submit(job: nat)
    | SecondCheck
    | Poll(retry: bool)
    | GiveUp
    | CancelOutcome(confirmed: bool, retry: bool)
    | UpdateCheck
    | UpdateReadWatermark
    | UpdateReadVersion(readable: bool)

  /** The Delta version adoption starts after: the recorded one, or the inferred one when none is recorded. */
  function Baseline(current: Watermark, legacyBaseline: int): int {
    if current.deltaVersion.Some? then current.deltaVersion.value else legacyBaseline
  }

  /** The path of a file that a listed ScopeEngine commit after `baseline` ingested. */
  ghost predicate IngestedAfter(log: Log, baseline: int, path: string) {
    exists v, f :: baseline < v < |log.history| && IsListed(log, v) && log.history[v].scopeEngine
      && log.history[v].addsData && f in log.history[v].files && f.path == path
  }

  function UnprocessedBy(listing: seq<FileInfo>, watermark: Option<Watermark>, cutoff: int): seq<FileInfo> {
    FileTracker.Discover(listing, TimeOf(watermark), cutoff)
  }

  /** Listings are complete, and the cut of a batch separates no files of equal time. */
  ghost predicate GoodDiscovery(
    universe: set<FileInfo>, table: Table, listing: seq<FileInfo>, cutoff: int, maxFiles: int, maxBytes: int)
  {
    var files := UnprocessedBy(listing, table.watermark, cutoff);
    CompleteListing(universe, listing) && CutKeepsTies(files, |NextBatch(files, maxFiles, maxBytes)|)
  }

  ghost predicate CanAct(universe: set<FileInfo>, table: Table, run: Run, a: Action) {
    var pc := run.pc;
    match a
    case ListOrphans => pc.ListingOrphans?
    case Settle =>
      && pc.Settling? && run.listing.Some?
      && forall j :: j in run.listing.value.orphans ==> j in table.jobs && !table.jobs[j].state.Running?
    case ReadWatermark => pc.ReadingWatermark?
    case ListLog => pc.ListingLog?
    case ReadPending => pc.ReadingPending?
    case Adopt(listing, cutoff, adopted, legacy) =>
      && pc.Adopting? && CompleteListing(universe, listing)
      && Baseline(pc.adoptFrom, legacy) < |pc.snapshot.history| - 1
      && forall path :: path in adopted ==> IngestedAfter(pc.snapshot, Baseline(pc.adoptFrom, legacy), path)
    case SkipAdoption => pc.Adopting?
    case SwallowFailure =>
      (pc.WritingWatermark? || pc.WritingSources? || pc.CleaningSources?) && pc.record.after.Final?
    case WriteFinal => pc.WritingFinal?
    case WriteWatermark => pc.WritingWatermark?
    case WriteSources => pc.WritingSources?
    case CleanSources(_) => pc.CleaningSources?
    case DeletePending(_) => pc.DeletingPending?
    case Discover(listing, cutoff, maxFiles, maxBytes, _) =>
      pc.Discovering? && GoodDiscovery(universe, table, listing, cutoff, maxFiles, maxBytes)
    case BeginCheck => pc.BatchChosen?
    case BeginReadWatermark => pc.BatchOwned?
    case BeginReadVersion => pc.BatchRead?
    case WritePending(token) => pc.BatchVersioned? && token !in table.batches
    case SubmitCheck => pc.Submitting?
    case Submit(job) => pc.SubmitOwned? && job !in table.jobs && pc.pending.token in table.batches
    case SecondCheck => pc.Submitted?
    case Poll(_) => pc.Polling? && pc.job in table.jobs && !table.jobs[pc.job].state.Running?
    case GiveUp => pc.Polling?
    case CancelOutcome(confirmed, _) =>
      pc.Cancelling? && pc.job in table.jobs && (confirmed ==> !table.jobs[pc.job].state.Running?)
    case UpdateCheck => pc.Updating?
    case UpdateReadWatermark => pc.UpdateOwned?
    case UpdateReadVersion(_) => pc.UpdateRead? && pc.pending.token in table.batches
  }

  /** What an action leaves: the table, the run, jobs it asked to cancel and second checks it made. */
  datatype Outcome = Outcome(table: Table, run: Run, cancels: set<nat>, checks: map<nat, bool>)

  function Quiet(table: Table, run: Run): Outcome { Outcome(table, run, {}, map[]) }

  /** The end of `_resolve_pending`: return early without a checkpoint or a log, else look for unrecorded commits. */
  function AfterResolve(current: Option<Watermark>, snapshot: Log): Pc {
    if current.None? || snapshot.history == [] then Discovering else Adopting(current.value, snapshot)
  }

  function Recording(
    files: seq<FileInfo>, current: Option<Watermark>, version: Option<int>, after: After): Pc
  {
    WritingWatermark(Record(ComputeNewWatermark(files, current).(deltaVersion := version), Entries(files), after))
  }

  function ActReadPending(table: Table, current: Option<Watermark>, snapshot: Log): Pc {
    if table.pending.None? then AfterResolve(current, snapshot)
    else if !table.pending.value.AppliesTo(current) then DeletingPending(current, Resume(snapshot))
    else
      var p := table.pending.value;
      var version := FindTokenVersion(snapshot, p.token, p.deltaVersionBefore);
      if version.None? then DeletingPending(current, Resume(snapshot))
      else Recording(Recovered(p.files), current, version, Resume(snapshot))
  }

  function ActAdopt(listing: seq<FileInfo>, cutoff: int, adopted: set<string>, current: Watermark, snapshot: Log): Pc {
    var prefix := AdoptablePrefix(UnprocessedBy(listing, Some(current), cutoff), adopted);
    if prefix == [] then WritingFinal(current, snapshot)
    else Recording(prefix, Some(current), Some(|snapshot.history| - 1), Final(snapshot, current))
  }

  function ActDiscover(table: Table, listing: seq<FileInfo>, cutoff: int, maxFiles: int, maxBytes: int, again: bool): Pc {
    var batch := NextBatch(UnprocessedBy(listing, table.watermark, cutoff), maxFiles, maxBytes);
    if batch != [] then BatchChosen(batch) else if again then Discovering else Stopped
  }

  function NewPending(token: nat, pc: Pc): PendingBatch
    requires pc.BatchVersioned?
  {
    PendingBatch(token, if pc.current.Some? then pc.current.value.batchId + 1 else 0,
                 Entries(pc.batch), pc.current, pc.version)
  }

  /** `_committed_delta_version`. */
  function CommittedVersion(log: Log, p: PendingBatch, readable: bool): Option<int> {
    if !readable then None
    else
      var version := FindTokenVersion(log, p.token, p.deltaVersionBefore);
      if version.Some? then version else if log.history != [] then Some(|log.history| - 1) else None
  }

  function Act(ghost universe: set<FileInfo>, table: Table, file: OwnerFile, r: TableOwner, run: Run, a: Action): Outcome
    requires CanAct(universe, table, run, a)
  {
    var pc := run.pc;
    match a
    case ListOrphans =>
      var unfinished := set j | j in table.jobs && table.jobs[j].state.Running? && table.jobs[j].run != r;
      Quiet(table, Run(Settling, Some(Orphans(table.jobs.Keys, unfinished)), run.readLog))
    case Settle => Quiet(table, run.At(ReadingWatermark))
    case ReadWatermark => Quiet(table, run.At(ListingLog(table.watermark)))
    case ListLog => Quiet(table, Run(ReadingPending(pc.current, table.log), run.listing, true))
    case ReadPending => Quiet(table, run.At(ActReadPending(table, pc.current, pc.snapshot)))
    case Adopt(listing, cutoff, adopted, _) =>
      Quiet(table, run.At(ActAdopt(listing, cutoff, adopted, pc.adoptFrom, pc.snapshot)))
    case SkipAdoption => Quiet(table, run.At(WritingFinal(pc.adoptFrom, pc.snapshot)))
    // recording raised, before or after its writes landed: the old watermark is final
    case SwallowFailure => Quiet(table, run.At(WritingFinal(pc.record.after.before, pc.record.after.snapshot)))
    case WriteFinal =>
      var latest := Some(|pc.snapshot.history| - 1);
      Quiet(if pc.adoptFrom.deltaVersion != latest then table.(watermark := Some(pc.adoptFrom.(deltaVersion := latest))) else table,
            run.At(Discovering))
    case WriteWatermark => Quiet(table.(watermark := Some(pc.record.next)), run.At(WritingSources(pc.record)))
    case WriteSources =>
      Quiet(table.(sources := table.sources[pc.record.next.batchId := pc.record.entries]), run.At(CleaningSources(pc.record)))
    case CleanSources(kept) =>
      Quiet(table.(sources := map b | b in table.sources && b in kept :: table.sources[b]),
            run.At(if pc.record.after.Final? then WritingFinal(pc.record.next, pc.record.after.snapshot)
                   else DeletingPending(Some(pc.record.next), pc.record.after)))
    case DeletePending(deleted) =>
      Quiet(if deleted then table.(pending := None) else table,
            run.At(if pc.after.Resume? then AfterResolve(pc.current, pc.after.snapshot) else Discovering))
    case Discover(listing, cutoff, maxFiles, maxBytes, again) =>
      Quiet(table, run.At(ActDiscover(table, listing, cutoff, maxFiles, maxBytes, again)))
    case BeginCheck => Quiet(table, run.At(if OwnsTable(file, r) then BatchOwned(pc.batch) else Stopped))
    case BeginReadWatermark => Quiet(table, run.At(BatchRead(pc.batch, table.watermark)))
    case BeginReadVersion => Quiet(table, run.At(BatchVersioned(pc.batch, pc.current, |table.log.history| - 1)))
    case WritePending(token) =>
      var p := NewPending(token, pc);
      Quiet(table.(pending := Some(p), batches := table.batches[token := pc.batch]), run.At(Submitting(p)))
    case SubmitCheck => Quiet(table, run.At(if OwnsTable(file, r) then SubmitOwned(pc.pending) else Stopped))
    case Submit(job) =>
      var p := pc.pending;
      Quiet(table.(jobs := table.jobs[job := Job(r, p.token, table.batches[p.token], Running)]), run.At(Submitted(p, job)))
    case SecondCheck =>
      if OwnsTable(file, r)
      then Outcome(table, run.At(Polling(pc.pending, pc.job)), {}, map[pc.job := true])
      else Outcome(table, run.At(Cancelling(pc.pending, pc.job, true)), {pc.job}, map[pc.job := false])
    case Poll(retry) =>
      Quiet(table, run.At(
        if table.jobs[pc.job].state.Succeeded? then Updating(pc.pending)
        else if retry then Submitting(pc.pending) else Stopped))
    case GiveUp => Outcome(table, run.At(Cancelling(pc.pending, pc.job, false)), {pc.job}, map[])
    case CancelOutcome(confirmed, retry) =>
      Quiet(table, run.At(
        if confirmed && table.jobs[pc.job].state.Succeeded? then Updating(pc.pending)
        else if confirmed && retry && !pc.superseded then Submitting(pc.pending) else Stopped))
    case UpdateCheck => Quiet(table, run.At(if OwnsTable(file, r) then UpdateOwned(pc.pending) else Stopped))
    case UpdateReadWatermark => Quiet(table, run.At(UpdateRead(pc.pending, table.watermark)))
    case UpdateReadVersion(readable) =>
      Quiet(table, run.At(Recording(
        table.batches[pc.pending.token], pc.current, CommittedVersion(table.log, pc.pending, readable), Loop)))
  }

  // ---- The environment ------------------------------------------------------------------------

  datatype Env =
    | JobCommits(job: nat, addsData: bool, namesToken: bool)
    | JobFails(job: nat)
    | OtherCommit(setsMetadata: bool, scopeEngine: bool, addsData: bool)
    | TakeCheckpoint
    | CleanLog(cleaned: nat)

  predicate CanHappen(table: Table, e: Env) {
    match e
    case JobCommits(job, _, _) => job in table.jobs && table.jobs[job].state.Running?
    case JobFails(job) => job in table.jobs && table.jobs[job].state.Running?
    case OtherCommit(_, _, _) => true
    case TakeCheckpoint => table.log.history != []
    case CleanLog(cleaned) => table.log.cleaned <= cleaned <= LatestCheckpoint(table.log) + 1 && cleaned <= |table.log.history|
  }

  /** A batch's commit sets its token and ingests its files atomically. */
  function BatchCommit(job: Job, addsData: bool, namesToken: bool): Commit {
    Commit(Some(Some(job.token)), if namesToken then Some(job.token) else None, true, addsData, Some(job.token), job.files)
  }

  /** A commit of another writer ingests no source file and carries the configuration forward. */
  function ForeignCommit(log: Log, setsMetadata: bool, scopeEngine: bool, addsData: bool): Commit {
    var configuration := TableConfiguration(log.history, |log.history|);
    var metadata := if !setsMetadata then None else if configuration.Some? then configuration else Some(None);
    Commit(metadata, None, scopeEngine, addsData, None, [])
  }

  function Happen(table: Table, e: Env): Table
    requires CanHappen(table, e)
  {
    match e
    case JobCommits(job, addsData, namesToken) =>
      var j := table.jobs[job];
      table.(jobs := table.jobs[job := j.(state := Succeeded)],
             log := table.log.(history := table.log.history + [BatchCommit(j, addsData, namesToken)]))
    case JobFails(job) => table.(jobs := table.jobs[job := table.jobs[job].(state := Failed)])
    case OtherCommit(setsMetadata, scopeEngine, addsData) =>
      table.(log := table.log.(history := table.log.history + [ForeignCommit(table.log, setsMetadata, scopeEngine, addsData)]))
    case TakeCheckpoint => table.(log := table.log.(checkpoints := table.log.checkpoints + [|table.log.history| - 1]))
    case CleanLog(cleaned) => table.(log := table.log.(cleaned := cleaned))
  }

  // ---- Events of the whole system -------------------------------------------------------------

  datatype Event =
    | StartRun(run: TableOwner)
    | ClaimEvent(run: TableOwner, claim: Owner.Event)
    | ClaimDone(run: TableOwner)
    | RunActs(run: TableOwner, action: Action)
    | Crash(run: TableOwner)
    | Happens(env: Env)

  ghost predicate Enabled(universe: set<FileInfo>, s: State, e: Event) {
    match e
    case StartRun(run) => run !in s.runs && run !in s.claims.claims
    case ClaimEvent(run, claim) =>
      && run in s.runs && s.runs[run].pc.Claiming? && claim.run == run && !claim.Start?
      && Owner.Enabled(s.claims, claim)
    case ClaimDone(run) =>
      && run in s.runs && s.runs[run].pc.Claiming?
      && run in s.claims.claims && (s.claims.claims[run].Returned? || s.claims.claims[run].GaveUp?)
    case RunActs(run, action) => run in s.runs && CanAct(universe, s.table, s.runs[run], action)
    case Crash(run) => run in s.runs && s.runs[run].Live()
    case Happens(env) => CanHappen(s.table, env)
  }

  function Step(ghost universe: set<FileInfo>, s: State, e: Event): State
    requires Enabled(universe, s, e)
  {
    match e
    case StartRun(run) =>
      s.(runs := s.runs[run := Run(Claiming, None, false)], claims := Owner.Step(s.claims, Owner.Start(run)))
    case ClaimEvent(run, claim) => s.(claims := Owner.Step(s.claims, claim))
    case ClaimDone(run) =>
      var won := s.claims.claims[run] == Returned(run);
      s.(runs := s.runs[run := s.runs[run].At(if won then ListingOrphans else Stopped)])
    case RunActs(run, action) =>
      var o := Act(universe, s.table, s.claims.file, run, s.runs[run], action);
      State(o.table, s.cancelRequested + o.cancels, s.secondChecks + o.checks, s.claims, s.runs[run := o.run])
    case Crash(run) => s.(runs := s.runs[run := s.runs[run].At(Crashed)])
    case Happens(env) => s.(table := Happen(s.table, env))
  }

  /** A new table: no checkpoint, no jobs, no runs; the log may hold commits of other writers. */
  ghost predicate InitialTable(table: Table) {
    && table.watermark == None && table.pending == None
    && table.sources == map[] && table.batches == map[] && table.jobs == map[]
    && ValidLog(table.log)
    && forall i :: 0 <= i < |table.log.history| ==>
         var c := table.log.history[i];
         (c.metadata == None || c.metadata == Some(None)) && c.parameterToken == None && c.batch == None && c.files == []
  }

  ghost predicate InitialState(s: State) {
    && InitialTable(s.table)
    && s.cancelRequested == {} && s.secondChecks == map[] && s.runs == map[]
    && Owner.Initial(s.claims)
  }

  /** `s` is reached from `init` by the events in order. */
  ghost predicate Reaches(universe: set<FileInfo>, init: State, events: seq<Event>, s: State) {
    if events == [] then s == init
    else
      var n := |events| - 1;
      exists u :: Reaches(universe, init, events[..n], u) && Enabled(universe, u, events[n])
                  && Step(universe, u, events[n]) == s
  }

  /** A path names one file. */
  ghost predicate PathKeyed(universe: set<FileInfo>) {
    forall f, g :: f in universe && g in universe && f.path == g.path ==> f == g
  }
}
