# Checkpoint and crash recovery of the incremental materialization

This project models how dbt-scope's incremental materialization keeps its promise that every source file is ingested
exactly once although its checkpoint consists of many small writes: `watermark.json`, `pending.json`, `owner.json`,
`_checkpoint/sources/`, ADLA jobs and the Delta log, with a crash possible between any two of them and several runs
possible at once. It proves what those steps keep over every run of the system, and the algorithms around them.

## How it is organised

- `Files`, `CheckpointRecords`: listed files and the stored records.
- `FileTracker`, `IncrementalLoop`: discovery, greedy batching under two limits, the next watermark, and the capped
  discover/submit/checkpoint loop, which is proved to refine slicing a fixed list.
- `Adoption`: the indexed path matcher, against the quadratic comparison, and the adoptable prefix.
- `DeltaLog`: the log as the adapter reads it after cleanup, and the token search.
- `Owner`: `claim_owner` under races. Claims, reads and conditional writes of any number of runs interleave freely.
- `Protocol`: the materialization as a state machine. A run is a program counter with the local values it holds; every
  read, check and write of the storage is a step of its own. Jobs, other writers, log checkpoints and log cleanup act in
  between, and a run may crash before any step (which also stands for a step that raises and ends the model). A recording
  that raises inside adoption is swallowed, and the old watermark is written back.
- `NoLoss`, `ExactlyOnce`, `Takeover`, `Attempts`: what every sequence of events of that machine keeps.
- `Progress`, `Superseded`: what a run gets done while it owns its table, and that it leaves no trace once it lost it.
- `TakeoverWindow`: the one step after an owner check for which that is not so.
- `Sources`, `SourceHistory`, `Retention`, `SnapshotRetention`: `_checkpoint/sources/`, snapshot compaction, and when
  retention loses history.
- `Adapter`: the methods of `ScopeAdapter` that read and write the checkpoint, against specification functions; any of
  their writes may raise, whether or not it landed.
- `Undisturbed`: the steps of `Protocol`, taken without anything in between, leave what the methods of `Adapter` leave.
- `Jobs`: `submit_and_wait`, cancelling and settling, with every answer of the service and every action of other threads
  arbitrary.
- `Walk`, `Schema`: directory worklists in any order of completion; schema evolution.

Loops and objects that the Python code updates in place are methods and classes, each proved against a function or a
quantified postcondition; the theorems are lemmas about those functions and about whole sequences of events.

## Assumptions

They are parameters, preconditions or guards of steps, not established by the code:

- A batch's cut separates no two files of equal modification time (`FileTracker.CutKeepsTies`; distinct times suffice).
  Without it the promise fails: `FileTracker.SplitTieLosesFile`, and `IncrementalLoop.LoopDrainsIffTieFree` says exactly when.
- A listing holds every file up to the latest time it returns (`FileTracker.CompleteListing`), and a path names one file.
- A job commits its files, its token and the end of its transaction in one commit; a job that fails commits nothing;
  tokens and job ids are new. Other writers ingest no source file and carry the table configuration forward.
- In `NoLoss`, a path that adoption matched is the path of a file some listed commit ingested.
- Conditional uploads of `owner.json` are atomic (If-Match and If-None-Match, sections 13.1.1 and 13.1.2 of RFC 9110);
  the file may start absent or unreadable and is never deleted.
- The orphan listing shows every job submitted before it.

## Where the code and its documentation part

- The repository's `README.md` (lines 66 to 84) promises no data loss; two files of the same millisecond that fall into
  different batches lose one (`FileTracker.SplitTieLosesFile`; `FileTracker.FileIsLostIff` says exactly which files are lost).
- Its line 61 says a snapshot holds all history. With the default interval 10 and retention 100 that is so through
  batch 928 and no longer (`Retention.DefaultsKeepHistoryThrough928`, `Retention.Snapshot930LacksABatch`): from batch 929
  on some batch is in no file any more (`Retention.DefaultsLoseABatch`).
- `latest_metadata_commit` promises the newest metadata but stops after 100 commits (`DeltaLog.OutdatedMetadata`;
  `DeltaLog.LatestMetadataIsTableConfigurationIff` says exactly when it is right). On one snapshot of the log the
  token search is exact regardless.
- Its line 73 finds a committed batch by its token even when its commit was checkpointed away. A commit that is cleaned up
  after the log was listed and before it was read is missed (`DeltaLog.CommitCleanedAwayIsMissed`;
  `DeltaLog.SearchAcrossCleanupIff` says exactly when).
- Its line 82 says that a superseded run cannot commit a batch the newer run is also processing. A run that passed its
  check before the takeover still submits, and that job may commit before the second check cancels it
  (`TakeoverWindow.SupersededJobMayCommitToo`). `Takeover.TakeoverDichotomy` says which jobs that can happen to: those
  whose submitter is yet to make its second check, died before it, or found the takeover and asked for cancellation.
- A second reconcile is a no-op except when the first could not delete a stale `pending.json` whose token is in the log
  and adopted files up to exactly the position that record starts from (`Adapter.ReconcileIsIdempotentIff`, with such a
  checkpoint in `Adapter.SecondReconcileRecordsLeftPending`).

## Model

| member | source | states |
|---|---|---|
| NoLoss.NoFileIsLost | dbt/adapters/scope/impl.py:844-1204 | In every interleaving of any number of runs, crashes, adoptions (also those whose recording raises and is swallowed) and failed log reads, each file at or below the stored watermark is in some commit, even after a superseded run moved the watermark backwards |
| NoLoss.AuditTrailIsIngested | dbt/adapters/scope/impl.py:926-942 | In every such interleaving each entry recorded under `_checkpoint/sources/` names a file some commit ingested |
| NoLoss.EveryStateIsSafe | dbt/adapters/scope/impl.py:806-1204 | The safety invariant of storage and of every run's local values holds in every reachable state |
| NoLoss.StepIsSafe | dbt/adapters/scope/impl.py:806-1204 | Every event - a step of a run, a claim, a crash, a job's end, another writer's commit, log cleanup - keeps that invariant |
| NoLoss.EnvIsOk | README.md:70-84 | Commits of jobs and other writers, failures, log checkpoints and cleanup keep every file of a batch that was or may be recorded covered |
| NoLoss.AdoptionIsCovered | dbt/adapters/scope/impl.py:1136-1204 | The watermark that adoption writes, and the entries it records, cover committed files only |
| NoLoss.RecordingCommittedBatchIsOk | dbt/adapters/scope/impl.py:911-942 | Recording a committed batch, from its files or from the pairs stored in `pending.json`, writes a watermark below which every file is committed |
| NoLoss.ReadPendingIsOk | dbt/adapters/scope/impl.py:1064-1111 | Whatever resolving the pending batch decides, on a possibly outdated log, it holds only values backed by commits |
| ExactlyOnce.EveryRecordedFileIsInOneCommit | dbt/adapters/scope/impl.py:806-1111 | With one live run at a time and a crash after any step, every file at or below the watermark is in exactly one commit, once |
| ExactlyOnce.NoFileIsIngestedTwice | README.md:66-76 | In every such schedule, at every moment, no file is in two commits or twice in one |
| ExactlyOnce.DiscoveryStartsFromCommits | dbt/adapters/scope/impl.py:994-1062 | Whenever reconcile has returned or a batch was checkpointed, a file is in some commit if and only if it is at or below the watermark |
| ExactlyOnce.EverySoloStateIsSolo | dbt/adapters/scope/impl.py:806-1111 | The ledger of commits, pending batch, jobs and watermark is consistent, and the live run's beliefs hold, in every such state |
| ExactlyOnce.SearchDecidesOpenBatch | dbt/adapters/scope/impl.py:966-991 | On the log a settled run listed, the token search finds the open pending batch if and only if it committed |
| ExactlyOnce.NothingToAdopt | dbt/adapters/scope/impl.py:1136-1204 | With one run at a time adoption has nothing left to adopt once the pending batch is resolved |
| ExactlyOnce.RecordingClosesBatch | dbt/adapters/scope/impl.py:911-942 | Writing the watermark of the committed batch leaves no committed file above the watermark and makes the pending record stale |
| ExactlyOnce.JobCommitKeepsLedger | README.md:72-76 | The commit of the open batch's job adds only files no commit holds, after the recorded version |
| ExactlyOnce.LiveActionKeepsSolo | dbt/adapters/scope/impl.py:806-1204 | Every step of the live run keeps the ledger and the run's beliefs about it |
| ExactlyOnce.EnvKeepsSolo | README.md:70-84 | So does everything that happens around it |
| Takeover.TakeoverDichotomy | dbt/adapters/scope/connections.py:526-542 | Once a run has listed its orphans, each job of a run it outranks was either listed or already ended, and has ended before the run reads the Delta log; or its submitter is yet to make its second check, died before it, or found the takeover and requested cancellation |
| Takeover.CheckedJobsEndBeforeTakeover | dbt/adapters/scope/connections.py:544-608 | A job whose submitter passed its second owner check has ended by the time any run outranking it reads the log |
| Takeover.OutrankedRunFailsCheck | dbt/adapters/scope/connections.py:544-565 | After a run's claim succeeds, no lower-ranked run ever passes an owner check again |
| Takeover.EveryStateIsOrdered | dbt/adapters/scope/connections.py:463-608 | The ordering of claims, listings, submissions and checks behind the dichotomy is kept by every event |
| Progress.BatchIsRecorded | dbt/include/scope/macros/materializations/incremental.sql:139-183 | From discovery: a run that owns its table gets its batch recorded, whatever number of its jobs fails first and whether or not a retry is left for the one that commits. The log grows by one commit of exactly the batch; the watermark is at the batch's latest time, one version and one batch further, and names that commit's version; the sources gain the batch and the pending record is gone |
| Progress.RunDrainsListing | dbt/include/scope/macros/materializations/incremental.sql:97-205 | A run that keeps its table and whose jobs commit drains a complete listing without split ties: one commit per predicted batch, together exactly the unprocessed files in order, the watermark at the latest of them; then it discovers nothing and stops |
| Progress.CommittedJobIsPolled | dbt/adapters/scope/connections.py:603-685 | A run that polls a job which committed goes on to record the batch, with retries left or without |
| Progress.FailedJobIsPolled | dbt/adapters/scope/connections.py:672-683 | A run that polls a failed job submits the same batch again while a retry is left and ends otherwise; the checkpoint is not touched |
| Progress.Submits | dbt/adapters/scope/connections.py:591-612 | A run that owns its table submits one job for exactly the files of its pending batch and passes both checks |
| Progress.Begins | dbt/adapters/scope/impl.py:806-842 | The first batch of a discovery is written as pending with the watermark and the version before it |
| Progress.Updates | dbt/adapters/scope/impl.py:844-909 | A run whose job succeeded and that owns its table records the batch and drops the pending record |
| Progress.OwnCommitIsFound | dbt/adapters/scope/impl.py:944-991 | The version recorded is that of the commit right after the version the batch began with |
| Progress.NothingIsDiscovered | dbt/include/scope/macros/materializations/incremental.sql:105-133 | A discovery that finds nothing ends an available-now run and lets a processing-time run discover again |
| Progress.FullListingIsGood | dbt/adapters/scope/impl.py:782-804 | A listing of all files, no two of the same time, meets what these results ask of a discovery, whatever the limits are |
| Progress.RunTakesTable | dbt/adapters/scope/connections.py:526-542 | A run that starts undisturbed ends without a write exactly when the stored owner is another run that started later, or at the same time with a greater id; otherwise it owns the table and goes on to settle jobs |
| Progress.SettlesIff | dbt/adapters/scope/connections.py:463-524 | A run gets past settling exactly once every job of another run that was running when it listed them has ended |
| Progress.CancelMoves | dbt/adapters/scope/connections.py:649-669 | Only a confirmed failure is submitted again, never by a superseded run; a job that succeeded all the same is recorded |
| Progress.LostCheckMoves | dbt/adapters/scope/connections.py:603-612 | A run that finds at its second check that it lost the table asks for its job's cancellation and for nothing else |
| Progress.GiveUpMoves | dbt/adapters/scope/connections.py:649-656 | So does a run that stops waiting for its job |
| Progress.LeadsIsReached | dbt/include/scope/macros/materializations/incremental.sql:97-205 | These schedules are runs of the same machine that the safety results are about |
| Progress.CrashMoves | README.md:70-84 | A live run may die before any of its steps, and nothing else changes |
| Progress.OtherWriterMoves | README.md:70-84 | Other writers may commit at any time: one commit without source files that names a token only if the configuration does |
| Progress.LogUpkeepMoves | README.md:70-84 | The log may be checkpointed at its latest version, and cleaned up as far as a checkpoint covers it, at any time |
| Superseded.SupersededRunLeavesNoTrace | README.md:78-84 | Once a later run has won the table, an earlier one that is not in the middle of its writes changes nothing any more: leaving its steps out of any continuation, with any number of other runs, leads to the same storage, claims and other runs |
| Superseded.StepWithoutTable | dbt/adapters/scope/connections.py:544-612 | Each step of a run that lost its table and is between its writes leaves storage as it was and the run between its writes |
| Superseded.Erase | dbt/adapters/scope/connections.py:544-565 | The two continuations run in step, whatever is interleaved |
| TakeoverWindow.SupersededJobMayCommitToo | README.md:80-82 | From any new table, a schedule of two runs in which an earlier run passes its owner check, a later one takes the table over with no job to wait for, and both submit the same files: both commits land, although every write stood behind a passed check |
| TakeoverWindow.ComesToDiscovery | dbt/adapters/scope/connections.py:526-542 | A run that starts later than any owner takes an untouched table, drops a pending batch that did not commit, and comes to its first discovery |
| Attempts.BatchCommitsAtMostOnce | dbt/adapters/scope/connections.py:567-685 | In every interleaving of any number of runs, of the jobs submitted for one batch all but at most one have failed, and all are of one run |
| Attempts.ResubmittedOnlyAfterFailure | dbt/adapters/scope/connections.py:649-685 | A run about to submit has no job running, and every earlier job of the batch has failed |
| Attempts.OneJobAtATime | dbt/adapters/scope/connections.py:567-685 | No live run ever has two jobs running |
| Attempts.EveryStateIsOk | dbt/adapters/scope/connections.py:567-685 | The invariant of jobs, batches and runs behind these holds in every reachable state |
| Owner.EachWriteOutranksEarlierOnes | dbt/adapters/scope/checkpoint.py:507-554 | Two runs claiming at once cannot both win: each successful write is by a run that started later than the last (at the same time: with a greater id), so each run writes at most once |
| Owner.ReturnedOwnerIsAtLeastClaimant | dbt/adapters/scope/checkpoint.py:507-554 | A claim returns the claimant or a run that started no earlier (at the same time: with a greater id), and the file never again names an earlier one |
| Owner.FinalOwnerIsHighest | dbt/adapters/scope/checkpoint.py:507-554 | When every claim has returned, the owner outranks all other claimants and the initial file, and started no earlier than any of them |
| Owner.FewClaimantsNeverGiveUp | dbt/adapters/scope/checkpoint.py:523-552 | With fewer than five other claimants the five attempts never run out |
| Owner.EveryInterleavingKeepsInvariant | dbt/adapters/scope/checkpoint.py:507-554 | The invariant of reads and conditional writes holds in every interleaving |
| Owner.WriteRaisesRank | dbt/adapters/scope/checkpoint.py:531-552 | A write whose ETag still matches replaces the very owner that was read, which it outranks |
| Owner.OutranksIsStrictTotal | dbt/adapters/scope/checkpoint.py:227-228 | Runs are ranked by start time, the later the higher, then by run id: a strict total order |
| Owner.OutranksTransitive | dbt/adapters/scope/checkpoint.py:227-228 | and transitive |
| Owner.StringLessIff | dbt/adapters/scope/checkpoint.py:227-228 | Of two run ids the lesser is a proper prefix of the other, or less at the first character where they differ |
| Owner.UndisturbedClaim | dbt/adapters/scope/checkpoint.py:507-554 | A claim that nothing disturbs returns the stored owner exactly when that is the claimant or started later (at the same time: has the greater id), and writes the claimant otherwise, also over an absent or unreadable file |
| Owner.WinnerOwnsTableIff | dbt/adapters/scope/connections.py:544-565 | The winner of a claim passes the owner check exactly while no run that started later (at the same time: has the greater id) has written |
| Owner.FiveAttempts | dbt/adapters/scope/checkpoint.py:523-552 | A claim gives up exactly at its fifth failed write, and then five others were made |
| DeltaLog.TokenSearchIsExact | dbt/adapters/scope/impl.py:966-991 | With any checkpointed prefix of the log cleaned up, a version is found if and only if a commit after the recorded version carries the token; it lies between that commit and the latest, and is that commit while its JSON remains |
| DeltaLog.FoundTokenWasCommitted | dbt/adapters/scope/impl.py:966-991 | A version is only ever found for a token some commit carries |
| DeltaLog.FindToken | dbt/adapters/scope/impl.py:966-991 | The loop over the listed commits and the fallback to the table configuration compute the specified version, with commits and cleanup between the listing, the reading and the second listing |
| DeltaLog.SearchAcrossCleanupIff | dbt/adapters/scope/impl.py:966-991 | With commits and cleanup between those looks, a version is only found for a committed token, and a token committed by the first listing is found if and only if its listed commits were not all cleaned away before they were read, or the listing no longer reached back to the recorded version |
| DeltaLog.CommitCleanedAwayIsMissed | dbt/adapters/scope/impl.py:979-991 | Such a commit, listed and then cleaned away, is missed |
| DeltaLog.ReadableOfConsecutive | dbt/adapters/scope/delta_lake.py:825-832 | Of consecutive candidates exactly those not cleaned up in between are read |
| DeltaLog.CheckpointedTokenIsRead | dbt/adapters/scope/delta_lake.py:834-855 | When the token's commit was cleaned up, the reverse scan or the checkpoint still names the token |
| DeltaLog.LatestMetadataIsTableConfigurationIff | dbt/adapters/scope/delta_lake.py:834-855 | The reader returns the newest metadata if and only if the commits between the checkpoint and the newest 100 hide nothing |
| DeltaLog.OutdatedMetadata | dbt/adapters/scope/delta_lake.py:834-855 | A log of more than 100 commits after its checkpoint for which it returns outdated metadata |
| DeltaLog.LatestMetadataCommit | dbt/adapters/scope/delta_lake.py:834-855 | The reverse scan with its two stops computes the specified configuration |
| DeltaLog.LogVersions | dbt/adapters/scope/delta_lake.py:792-802 | The latest version is that of the last commit whichever of its traces cleanup left |
| DeltaLog.ReadCommits | dbt/adapters/scope/delta_lake.py:825-832 | Exactly the versions that still exist are read, in order |
| DeltaLog.SearchFinds | dbt/adapters/scope/impl.py:966-991 | On one snapshot: the first listed commit after the recorded version whose metadata sets the token or whose operation parameters name it; with none the latest version, exactly when commits after the recorded one were cleaned up and the readable metadata names the token |
| DeltaLog.LatestMetadataIs | dbt/adapters/scope/delta_lake.py:834-855 | The newest metadata among the newest 100 listed commits after the checkpoint; with none there, the checkpoint's |
| DeltaLog.ConfigurationIsNewest | dbt/adapters/scope/delta_lake.py:834-855 | The configuration after some commits is what the newest of them with metadata says |
| Adapter.RecoveryIsTheInterruptedUpdate | dbt/adapters/scope/impl.py:1064-1111 | Resolving a committed pending batch leaves the position, recorded files and pending record the interrupted update would have left, at whatever time and from whatever log, and the very same checkpoint for the same log and clock |
| Adapter.SourcesIgnoreClock | dbt/adapters/scope/checkpoint.py:594-641 | The clock shows in the processing time of the recorded batch and in nothing else under `_checkpoint/sources/` |
| Adapter.ReconcileIsIdempotentIff | dbt/adapters/scope/impl.py:993-1062 | After any reconcile that returned, a second one without new commits and in any surroundings changes neither watermark nor sources, exactly unless before the first one the pending record was stale, its token in the log, its deletion about to fail, and the adopted prefix about to end at the position it starts from; then every second reconcile that gets to write the watermark changes it |
| Adapter.PendingMatchesAfterwardsIff | dbt/adapters/scope/impl.py:993-1111 | Whether a reconcile leaves a pending record that the next one records is decided by that condition on the checkpoint before it |
| Adapter.SecondReconcileRecordsLeftPending | dbt/adapters/scope/impl.py:993-1111 | A checkpoint and a log for which every second reconcile that gets to write changes the watermark |
| Adapter.ReconciledCoversLog | dbt/adapters/scope/impl.py:1060-1062 | A reconcile that returns leaves the latest Delta version in every watermark, and the pending record only if deleting it failed |
| Adapter.ReconciledPosition | dbt/adapters/scope/impl.py:993-1062 | and its position is the resolved one, or the adopted prefix's unless recording it raised |
| Adapter.LegacyBaselineSplitsLog | dbt/adapters/scope/impl.py:1113-1134 | Of the newest 100 listed commits, exactly the unbroken run of newest ones made after the watermark file lies after the inferred baseline; without a watermark file it is the latest version |
| Adapter.ScopeAdapter.RecordBatch | dbt/adapters/scope/impl.py:911-942 | Watermark, sources and retention after one recorded batch, as far as it got when a write raises |
| Adapter.ScopeAdapter.BeginBatch | dbt/adapters/scope/impl.py:806-842 | The error cases in order, and the pending record of exactly the cached files with the watermark and version before them |
| Adapter.ScopeAdapter.UpdateCheckpoint | dbt/adapters/scope/impl.py:844-909 | Nothing changes for a superseded run or when no file is found; otherwise the looked-up files are recorded and the batch's pending record is dropped, unless a write raises |
| Adapter.ScopeAdapter.LookUp | dbt/adapters/scope/impl.py:868-894 | Cached files in the order of the paths, then the first listed file of each path not cached, and no other file |
| Adapter.ScopeAdapter.CommittedDeltaVersion | dbt/adapters/scope/impl.py:944-964 | The token's version, else the latest, else none when the log is unreadable or empty |
| Adapter.ScopeAdapter.ResolvePending | dbt/adapters/scope/impl.py:1064-1111 | Absent, stale, uncommitted and committed pending batches; a raising write leaves the pending record |
| Adapter.ScopeAdapter.InferBaseline | dbt/adapters/scope/impl.py:1113-1134 | The reverse loop over at most 100 commits computes the specified baseline |
| Adapter.ScopeAdapter.AdoptUnrecordedCommits | dbt/adapters/scope/impl.py:1136-1204 | The files of listed ScopeEngine commits after the baseline are recorded as far as they are the oldest unprocessed ones; when recording raises, reconcile goes on with the old watermark |
| Adapter.ScopeAdapter.ReconcileCheckpoint | dbt/adapters/scope/impl.py:994-1062 | The checkpoint after all four stages, for every combination of missing, stale and unreadable state and of raising reads and writes, and exactly when it raises |
| Adapter.UrisAreIngestedPaths | dbt/adapters/scope/impl.py:1150-1178 | The collected values are those of data files that listed ScopeEngine commits after the baseline added, and no others |
| Adapter.LookedUpFiles | dbt/adapters/scope/impl.py:868-894 | For a cache keyed by path: every looked-up file has one of the paths, each path that is cached or listed is represented, and of a path that is not cached it is the first listed file, once |
| Adapter.FallbackMembers | dbt/adapters/scope/impl.py:884-894 | The fallback takes exactly the first listed file of each path that is not cached |
| Adapter.UpdateReachesLatest | dbt/adapters/scope/impl.py:896-909 | After the update the watermark is at the latest time of the looked-up files, one version and one batch further, and the pending record of the batch is gone unless deleting it failed |
| Adapter.RecordedVersionIs | dbt/adapters/scope/impl.py:944-964 | The version recorded is the first listed commit after the recorded one that names the token; without such a commit there is one all the same, unless the log is empty or unreadable |
| Adapter.ScopeAdapter.DiscoverFiles | dbt/adapters/scope/impl.py:612-731 | The paths of the next batch; every listed file is cached under its path and no other entry changes; the batches to come are counted |
| Adapter.DiscoveredFilesAre | dbt/adapters/scope/impl.py:658-713 | What is discovered: the files of the listings above the watermark and within the cutoff with their estimates, each path once, in order of time |
| Adapter.DiscoveredBatchIsLookedUp | dbt/adapters/scope/impl.py:806-894 | The paths of a discovered batch lead back to exactly its files: beginning it misses none, and the update needs no listing |
| Adapter.AdoptionMovesAsFarAsItMay | dbt/adapters/scope/impl.py:1136-1204 | Adoption moves the watermark only to a time up to which every unprocessed file is matched by an unrecorded commit, as far as that is possible, and to the latest version; without the source-file column or a readable log it changes nothing |
| Adapter.PendingIdIsRecorded | dbt/adapters/scope/impl.py:826-942 | The batch id stored before the job is the one the batch is recorded under |
| Adapter.LastWrite | dbt/adapters/scope/impl.py:1060-1062 | The last write fails without a trace, or leaves the held watermark at the latest version |
| Undisturbed.UndisturbedReconcile | dbt/adapters/scope/impl.py:994-1062 | The single steps of a reconcile over any number of (root, pattern) listings read at one time leave the watermark and pending record of the whole method and record the same batches, also when recording the adopted files raises |
| Undisturbed.UndisturbedResolve | dbt/adapters/scope/impl.py:1064-1111 | Likewise for resolving the pending batch |
| Undisturbed.UndisturbedBegin | dbt/adapters/scope/impl.py:806-842 | Likewise for beginning a batch |
| Undisturbed.UndisturbedUpdate | dbt/adapters/scope/impl.py:844-909 | Likewise for checkpointing it |
| Undisturbed.UndisturbedAdoption | dbt/adapters/scope/impl.py:1035-1062 | Likewise for adoption with any raising write, and the final write |
| Undisturbed.SameDiscovery | dbt/adapters/scope/impl.py:782-804 | The union of the filtered listings is the filtered union, where a path names one file and the clock is read once |
| Files.AppendedBytes | dbt/adapters/scope/file_tracker.py:109 | A file counts with its estimate where it has one and with its own length otherwise |
| Files.SortIsStable | dbt/adapters/scope/impl.py:694-695 | Files of equal time keep their order |
| FileTracker.GreedyIsOptimal | dbt/adapters/scope/file_tracker.py:91-128 | No order-preserving partition into blocks a job may take has fewer blocks than repeated `get_next_batch` |
| FileTracker.GreedyBlocksPartition | dbt/adapters/scope/file_tracker.py:91-128 | The greedy batches are such a partition, of the counted size |
| FileTracker.NextBatchIsMaximal | dbt/adapters/scope/file_tracker.py:91-128 | A batch is a non-empty prefix within both limits (or one file), and one more file would break a limit |
| FileTracker.GetNextBatch | dbt/adapters/scope/file_tracker.py:91-128 | The loop with its running total computes that batch |
| FileTracker.CountBatches | dbt/adapters/scope/impl.py:298-312 | The simulated count is the number of greedy batches |
| FileTracker.DiscoverUnprocessedFiles | dbt/adapters/scope/file_tracker.py:51-89 | Exactly the files above the watermark and not after the cutoff, in listing order |
| FileTracker.RediscoverIsSliceIffTiesKept | dbt/adapters/scope/file_tracker.py:74-82 | Discovering again after a batch yields the rest of the list if and only if the cut separated no tie |
| FileTracker.UncutPrefixIsWindow | dbt/adapters/scope/file_tracker.py:74-128 | Such a batch is exactly the files of the source after the watermark and up to its latest time |
| FileTracker.SplitTieLosesFile | dbt/adapters/scope/file_tracker.py:79-82 | Two files of the same millisecond in different batches: the second is discovered from no listing, with no cutoff, under no later watermark |
| FileTracker.TiedFileIsNeverDiscovered | dbt/adapters/scope/file_tracker.py:74-82 | In general, a file outside a batch that holds one of its time or later is discovered from no listing while the watermark stays at or above that batch |
| FileTracker.FileIsLostIff | dbt/adapters/scope/file_tracker.py:74-128 | A discovered file left out of the batch is missed by the next discovery if and only if it has the time of the last file in it |
| FileTracker.NextBatchLimits | dbt/adapters/scope/file_tracker.py:91-128 | A batch of several files is within both limits, in the files' own estimates and lengths, and ends early only where one more file would exceed a limit |
| FileTracker.NewWatermarkIsLatest | dbt/adapters/scope/file_tracker.py:142-150 | The next watermark is at the latest time of the batch, whatever its order |
| IncrementalLoop.RunAvailableNow | dbt/include/scope/macros/materializations/incremental.sql:97-205 | The capped loop takes the specified batches, counts their files and leaves the watermark after the last |
| IncrementalLoop.LoopRefinesSlicing | dbt/include/scope/macros/materializations/incremental.sql:97-205 | With a fixed listing and no split ties the loop's batches are those of slicing the discovered list, in order |
| IncrementalLoop.LoopTakesPredictedBatches | dbt/include/scope/macros/materializations/incremental.sql:113-205 | It takes exactly the predicted `total_batches` when that is within the cap of 1000 |
| IncrementalLoop.LoopProcessesNoMore | dbt/include/scope/macros/materializations/incremental.sql:97-205 | It never processes more files than were discovered |
| IncrementalLoop.LoopDrainsIffTieFree | dbt/include/scope/macros/materializations/incremental.sql:97-205 | It processes every discovered file if and only if no cut separates a tie |
| IncrementalLoop.ListUnprocessed | dbt/adapters/scope/impl.py:782-804 | The union of the filtered listings, unique by path |
| IncrementalLoop.UnionNamesEligiblePaths | dbt/adapters/scope/impl.py:782-804 | A path is listed if and only if some (root, pattern) lists it above the watermark and within its own cutoff |
| Adoption.MatchSourceFiles | dbt/adapters/scope/impl.py:326-342 | Bucketing by last path segment matches exactly the files the quadratic comparison matches |
| Adoption.RelatedPathsShareLastSegment | dbt/adapters/scope/impl.py:320-342 | Suffix-related normalized paths are in the same bucket |
| Adoption.NormalizedShape | dbt/adapters/scope/impl.py:317-323 | A normalized path starts with one slash and has no double slash |
| Adoption.ComputeAdoptablePrefix | dbt/adapters/scope/impl.py:345-356 | The loop with its early return computes the specified prefix |
| Adoption.AdoptablePrefixIsOlderThanGap | dbt/adapters/scope/impl.py:345-356 | On a sorted list it is exactly the files older than every file that was not adopted |
| Adoption.AdoptionIsLargestSafeCut | dbt/adapters/scope/impl.py:345-356 | Its watermark skips adopted files only, and no watermark that does so skips a file outside it |
| Adoption.SchemeAndHostAreDropped | dbt/adapters/scope/impl.py:317-323 | A URI has the normal form of the path after its scheme and host |
| Adoption.RelativeIsRooted | dbt/adapters/scope/impl.py:320-323 | Without a scheme nothing but the leading slash is added |
| Adoption.QueryIsDropped | dbt/adapters/scope/impl.py:320-323 | What follows the first question mark changes nothing |
| Adoption.RepeatedSlashIsOne | dbt/adapters/scope/impl.py:320-323 | Slashes in a row count as one |
| Adoption.RootedPathIsNormal | dbt/adapters/scope/impl.py:320-323 | A rooted path without question marks and double slashes is its own normal form |
| Adoption.LocatedFileIsMatched | dbt/adapters/scope/impl.py:326-342 | A listed file is matched by every URI that names its path after scheme, host and any leading directories, with a query or without |
| Adoption.MatchedIff | dbt/adapters/scope/impl.py:326-342 | A path is matched exactly when a file has it and its normal form and that of some URI end one in the other |
| Adoption.LastSegmentIs | dbt/adapters/scope/impl.py:332-338 | The bucket of a path is what follows its last slash |
| SourceHistory.SnapshotsHoldHistory | dbt/adapters/scope/checkpoint.py:558-784 | While retention kept and snapshots could read the needed files, each snapshot holds every recorded file of every batch up to its own exactly as often as recorded, with intervals that may change from batch to batch |
| SourceHistory.ReadReturnsWritten | dbt/adapters/scope/checkpoint.py:895-957 | Reading a batch returns exactly the records written for it, in order, while its file is there and readable, and nothing otherwise, whatever was removed or unreadable before |
| SourceHistory.WriteKeepsComplete | dbt/adapters/scope/checkpoint.py:558-784 | Writing a newer batch, as a diff or as a snapshot that can read what it needs, keeps the history complete |
| SourceHistory.CleanupKeepsComplete | dbt/adapters/scope/checkpoint.py:786-842 | So does removing files the next snapshot does not read, and removing any file keeps what is left true |
| SourceHistory.HistoryStaysSound | dbt/adapters/scope/checkpoint.py:558-842 | Always, each diff and each snapshot holds its own batch as written, and no snapshot holds a newer one |
| SourceHistory.LostStaysLost | dbt/adapters/scope/checkpoint.py:558-842 | A batch that no file holds is in no file ever again |
| SourceHistory.EnoughRetentionKeepsNeeded | dbt/adapters/scope/checkpoint.py:786-842 | While no more batches than the limit were written, nothing needed is removed |
| Retention.RetentionIsExact | dbt/adapters/scope/checkpoint.py:786-842 | With a fixed interval of at least two and successful deletes, cleanup never removes a needed file if and only if the snapshots and the diffs since the last one fit the limit after every batch |
| Retention.BoundedLoadKeepsShape | dbt/adapters/scope/checkpoint.py:786-842 | Within that bound nothing needed is removed for any interval, whichever deletes fail |
| Retention.DefaultsKeepHistoryThrough928 | dbt/adapters/scope/checkpoint.py:786-842 | With the defaults 10 and 100 nothing needed is removed if and only if no batch after 928 was written |
| Retention.Snapshot930LacksABatch | dbt/adapters/scope/checkpoint.py:650-842 | In particular snapshot 930 has no record of some earlier batch |
| Retention.OverloadLosesBatch | dbt/adapters/scope/checkpoint.py:650-842 | In general, the first overload loses a batch for good: no file holds any of its records then or after any later batches |
| Retention.DefaultsLoseABatch | dbt/adapters/scope/checkpoint.py:786-842 | With the defaults, once batch 929 was written some batch is in no file any more, whatever follows |
| Retention.UniformBatchesExist | dbt/adapters/scope/checkpoint.py:558-842 | Sequences of batches as these results are about exist in any length, for any interval and limit |
| Retention.LastFilesStay | dbt/adapters/scope/checkpoint.py:786-842 | When every delete succeeds, as many files as the limit stay, unchanged, and none of them goes before one that went: diffs go by batch id, before everything else, and the rest by name as text |
| Retention.DecimalReads | dbt/adapters/scope/checkpoint.py:814-819 | The text of a batch id reads as that number |
| SnapshotRetention.RetentionOfSnapshotsIsExact | dbt/adapters/scope/checkpoint.py:786-842 | With interval one and successful deletes, cleanup never removes a needed file if and only if after every batch fewer earlier snapshots sort textually after the new one than the limit allows |
| SnapshotRetention.TenSortsBeforeTwo | dbt/adapters/scope/checkpoint.py:814-821 | Snapshots sort as text: 10 before 2 |
| SnapshotRetention.NewestIsDeletedIff | dbt/adapters/scope/checkpoint.py:821-832 | A full directory loses the newest snapshot exactly when enough older ones sort after it |
| Retention.DiffKeysOrderById | dbt/adapters/scope/checkpoint.py:814-819 | Zero-padded keys order diffs by batch id, up to twenty digits |
| Sources.CheckpointManager.WriteBatchSources | dbt/adapters/scope/checkpoint.py:558-641 | A diff, or a snapshot at positive multiples of the interval |
| Sources.CheckpointManager.WriteSnapshot | dbt/adapters/scope/checkpoint.py:650-784 | The two passes collect the latest snapshot, the newer diffs and the batch, whatever order the directory lists, skipping files that cannot be read |
| Sources.CheckpointManager.CleanupSources | dbt/adapters/scope/checkpoint.py:786-842 | Exactly the files beyond the limit that come first by key are deleted, save those whose delete fails, and are counted |
| Sources.CheckpointManager.ReadBatchSource | dbt/adapters/scope/checkpoint.py:895-957 | The diff if it can be read, else the batch's rows of its snapshot, else nothing |
| Jobs.ScopeConnectionHandle.SubmitAndWait | dbt/adapters/scope/connections.py:567-685 | A returned job was answered Ended with the result Succeeded, and a job whose wait ends in that answer is returned, one with any other result raises; any raise after the submission leaves it observed ended without success or asked to cancel; a job whose second owner check did not pass is asked to cancel; nothing is submitted exactly when the first check fails, the run is aborting or the submission raises; the job is deregistered; polls are bounded by the timeout |
| Jobs.ScopeConnectionHandle.TrySubmit | dbt/adapters/scope/connections.py:591-602 | Nothing is submitted exactly when the first check does not pass, the run is aborting or the submission raises, for the first of these reasons |
| Jobs.ScopeConnectionHandle.CheckAndWait | dbt/adapters/scope/connections.py:603-648 | Without the table the wait does not begin; with it, it ends as the poll loop does |
| Jobs.ScopeConnectionHandle.WaitForJob | dbt/adapters/scope/connections.py:603-648 | The poll loop sees exactly the replies to its polls: it ends without a reason exactly when they say Ended, and gives up exactly on a shutdown, after five lost polls in a row, on any other exception, or after the timeout, past which it makes no poll |
| Jobs.ScopeConnectionHandle.GiveUp | dbt/adapters/scope/connections.py:649-669 | An abandoned job is asked to cancel; the run only goes on with a job answered Ended and Succeeded after its cancellation was confirmed, and does go on with such a job |
| Jobs.ScopeConnectionHandle.CancelJob | dbt/adapters/scope/connections.py:317-370 | True only if the last reply says Ended, false only after the whole wait without such a reply, a raise exactly when the request raises and the next reply does not say Ended; the id is always registered as cancelled |
| Jobs.ScopeConnectionHandle.CancelOwnJob | dbt/adapters/scope/connections.py:687-700 | Confirmed exactly when a reply said Ended in time; an exception means unconfirmed |
| Jobs.ScopeConnectionHandle.SettleOrphanedJobs | dbt/adapters/scope/connections.py:463-524 | Success means every orphan was asked to cancel and answered Ended; replies that all say so at the first pass suffice, and failure comes only after the whole wait |
| Jobs.StateIsLatestAnswer | dbt/adapters/scope/connections.py:193-197 | After any number of polls the job's state is the one the latest answer named |
| Jobs.ResultIsLatestAnswer | dbt/adapters/scope/connections.py:193-197 | and so is its result |
| Jobs.ScopeConnectionHandle.PollRound | dbt/adapters/scope/connections.py:609-645 | One round: a shutdown, the timeout, or a poll; an answer resets the count of lost polls, the fifth in a row gives up, and so does any other exception at once |
| Jobs.ScopeConnectionHandle.AwaitCancelled | dbt/adapters/scope/connections.py:346-370 | The wait ends at the first reply that says the job has ended, or after the whole time without one |
| Walk.WalkTree | dbt/adapters/scope/adls_gen1_client.py:324-383 | For any finite tree and any order of completion the walk ends with each file of the readable part exactly once |
| Walk.ListDirectoryFiles | dbt/adapters/scope/adls_gen1_client.py:494-525 | So does the last-in-first-out worklist |
| Walk.EstimateBytes | dbt/adapters/scope/adls_gen1_client.py:389-423 | The estimate is the manifest plus the bytes of the tree, and its contributors are the files of the tree, so neither depends on the order of listing |
| Walk.TotalLengthOfPermutation | dbt/adapters/scope/adls_gen1_client.py:414-423 | Listings that differ in order have the same total |
| Walk.ListFiles | dbt/adapters/scope/adls_gen1_client.py:280-306 | Non-empty matching files, sorted by time |
| Walk.ListingIsOrderIndependent | dbt/adapters/scope/adls_gen1_client.py:254-306 | With distinct times the list does not depend on the order in which the walk found the files |
| Walk.FilesAreAtTrails | dbt/adapters/scope/adls_gen1_client.py:324-383 | The files of a tree are exactly those that some trail of entries through listable directories leads to |
| Walk.OneTrailIsOnce | dbt/adapters/scope/adls_gen1_client.py:324-383 | A file that only one trail leads to is counted once |
| Walk.AppendedLength | dbt/adapters/scope/adls_gen1_client.py:414-423 | A file adds its length to the estimate |
| Schema.DiffSchemaForEvolution | dbt/adapters/scope/delta_lake.py:142-220 | It succeeds if and only if every table column outside the partition columns is declared with a type that agrees; otherwise it names exactly the undeclared columns and those declared with another type |
| Schema.AddedMembers | dbt/adapters/scope/delta_lake.py:172-188 | It adds exactly the declared columns, partition columns excepted, that the table lacks |
| Schema.DiffConverges | dbt/adapters/scope/delta_lake.py:142-220 | After the additions, in whatever agreeing spelling the table reports them, a second diff succeeds and adds nothing |
| Schema.NullabilityIsIgnored | dbt/adapters/scope/delta_lake.py:115-131 | A nullable spelling names the same canonical type |
| Schema.QuestionMarkIsStrippedIff | dbt/adapters/scope/delta_lake.py:115-131 | A trailing question mark is stripped without trace exactly unless blanks separate it from another one |
| Schema.CaseIsIgnored | dbt/adapters/scope/delta_lake.py:115-131 | So does any mix of upper and lower case |
| Schema.IndexByLower | dbt/adapters/scope/delta_lake.py:166-168 | Columns by lower-case name: the last of equal names, in the order of the first |
| Schema.SpellingsAgreeIff | dbt/adapters/scope/delta_lake.py:75-131 | Two known spellings agree exactly when they stand in one group |
| Schema.UnknownAgrees | dbt/adapters/scope/delta_lake.py:115-131 | A spelling in no group agrees with every type |
| Schema.ParametersAreIgnored | dbt/adapters/scope/delta_lake.py:115-131 | Parameters in parentheses make no difference |
| Schema.PrefixedTypes | dbt/adapters/scope/delta_lake.py:124-127 | Every name that begins with timestamp, decimal or numeric is of that type |
| Schema.LettersAreLowered | dbt/adapters/scope/delta_lake.py:123 | Letters change to the small letter of the same place, and nothing else changes |
| Schema.StripIs | dbt/adapters/scope/delta_lake.py:123 | Exactly the blanks around a name are stripped |
| Schema.BlanksAreIgnored | dbt/adapters/scope/delta_lake.py:123 | Spaces, tabs and line breaks around a name make no difference |
| Schema.LastColumnCounts | dbt/adapters/scope/delta_lake.py:166-168 | Of columns with equal names the last counts |
| Schema.KeysByFirstColumn | dbt/adapters/scope/delta_lake.py:166-168 | Names come in the order of their first columns |
| CheckpointRecords.RecoveredKeepsMaxTime | dbt/adapters/scope/impl.py:1098-1101 | The files rebuilt from `pending.json` have the latest time of the batch |
| CheckpointRecords.AppliesToIff | dbt/adapters/scope/checkpoint.py:114-171 | A pending batch belongs to the stored watermark exactly when neither existed before, or they are equal but for the Delta version |
| FileTracker.ComputeNewWatermark | dbt/adapters/scope/file_tracker.py:130-150 | An empty batch keeps the watermark; any other moves it one version and one batch further |
| FileTracker.DiscoverMembers | dbt/adapters/scope/file_tracker.py:74-82 | Discovery is the sorted list of exactly the listed files at or before the cutoff and after the watermark, if there is one |
| FileTracker.SuffixNeedsNoMore | dbt/adapters/scope/file_tracker.py:91-128 | Batching a later part of a list never takes more batches |
| IncrementalLoop.AppendUnseen | dbt/adapters/scope/impl.py:790-804 | Only paths not seen in an earlier listing are appended |
| IncrementalLoop.FirstByPathKeepsPaths | dbt/adapters/scope/impl.py:790-804 | Dropping repeated paths loses no path and leaves each once |
| Adoption.IndexByName | dbt/adapters/scope/impl.py:332-335 | Every file is in the bucket of its last segment and buckets hold nothing else |
| Adoption.MatchBucket | dbt/adapters/scope/impl.py:337-341 | Exactly the bucket's files suffix-related to one URI |
| Adoption.SuffixSharesLastSegment | dbt/adapters/scope/impl.py:326-342 | A slash-aligned suffix ends in the same segment |
| Adapter.CollectUris | dbt/adapters/scope/impl.py:1150-1178 | The values of all data-adding ScopeEngine commits, and whether there was one |
| Sources.CheckpointManager.BuildSourceRecords | dbt/adapters/scope/checkpoint.py:623-641 | One record per file, tagged with the batch |
| Sources.DeletesExactly | dbt/adapters/scope/checkpoint.py:824-832 | The deletion loop removes the chosen files whose delete succeeds and keeps the rest unchanged |
| SourceHistory.NewSnapshotHoldsAll | dbt/adapters/scope/checkpoint.py:650-784 | The snapshot about to be written counts every record of every batch so far exactly as often as recorded |
| Retention.SortByKeyIsSorted | dbt/adapters/scope/checkpoint.py:814-821 | Files are sorted by key before the oldest are chosen |
| Jobs.ScopeConnectionHandle.RequestCancels | dbt/adapters/scope/connections.py:491-497 | Every orphan is registered as cancelled, whether or not the request raises |
| Jobs.ScopeConnectionHandle.PollPending | dbt/adapters/scope/connections.py:501-511 | Exactly the jobs whose reply does not say Ended are awaited further |
| Walk.Sift | dbt/adapters/scope/adls_gen1_client.py:516-521 | Each entry of a listing is either found or pending, and fewer directories are pending than before it was listed |
| Walk.KeptOfPermutation | dbt/adapters/scope/adls_gen1_client.py:286-299 | Filtering listings that differ in order keeps the same files |
| Schema.CompareDeclared | dbt/adapters/scope/delta_lake.py:172-188 | The columns to add, and exactly the declared columns whose type differs from the table's |
| Schema.MissingColumns | dbt/adapters/scope/delta_lake.py:190-194 | Exactly the table's columns that the model does not declare |

## Left out

- Full refresh and `starting_timestamp`: both skip or redo files on purpose, and a crash between deleting the checkpoint and the first commit changes what the next plain run means.
- Processing-time triggers: the sleep between cycles and its larger loop cap; a cycle is the loop that is modelled.
- `Protocol` records sources by batch id without compaction and keeps an arbitrary part of them; compaction and retention are modelled in `Sources`.
- In `Protocol` the baseline of a watermark without a Delta version is arbitrary, and reading the log for adoption may fail at will; `Adapter` has the actual rule.
- `Protocol` and `Adapter` read a log as one snapshot; `DeltaLog` has what commits and cleanup in between change.
- In `Protocol` a watermark that cannot be read stops the run (a crash); the lenient read used by discovery is taken to succeed.
- SourceHistory.SnapshotsHoldHistory: each batch id is written once; the repetition of a snapshot write whose upload had landed is not modelled.
- Retention.RetentionIsExact: batch ids have at most twenty digits; interval one is SnapshotRetention.RetentionOfSnapshotsIsExact.
- Adapter.ReconcileIsIdempotentIff: a pending record without files, which the materialization never writes because it begins only non-empty batches, is excluded.
- Undisturbed.UndisturbedReconcile: path matches are exact, and the clock is read once for all listings.
- Adoption.NormalizedShape: trimming and percent-decoding happen before the modelled function.
- Adapter.ScopeAdapter.DiscoverFiles: byte estimates are a function of the file, and listings and estimates are not cached across calls.
- Jobs.ScopeConnectionHandle.SubmitAndWait: quota eviction and request retries inside one request are part of its answer, and other threads appear as arbitrary additions to the registries; a submission that raises is not registered, as in the code.
- `_cancel_active_jobs` with its thread pool, signal handlers, job-name patterns and the limit of 100 listed jobs.
- Schema.DiffSchemaForEvolution: error texts; lower-casing knows the letters A to Z only.
- JSON and parquet encodings, time zones and rounding: stored records are values and times are integer milliseconds.
- Script generation, SQL inspection, credentials, HTTP retry and logging.
