/**
 * The checkpoint methods of `ScopeAdapter`: recording a batch before and after its job, and bringing the
 * checkpoint in line with the Delta table. One adapter here serves one table.
 */
module Adapter {
  import opened Files
  import opened CheckpointRecords
  import opened FileTracker
  import opened Adoption
  import opened DeltaLog
  import opened Owner
  import opened Sources
  import IncrementalLoop
  import Protocol

  // ---- Stored state and surroundings ----------------------------------------------------------

  /** Everything under `_checkpoint/` but the owner. */
  datatype Checkpoint = Checkpoint(watermark: Option<Watermark>, pending: Option<PendingBatch>, sources: Directory)

  /** How one `_record_batch` ends: which write raises, if any, and whether that write landed all the same. */
  datatype Fault = NoFault | WatermarkFault(landed: bool) | SourcesFault(landed: bool)

  /**
   * What one `_record_batch` meets: the clock, the two settings, the order of listings, unreadable files,
   * failing deletes and a raising write.
   */
  datatype Upkeep = Upkeep(
    now: int, interval: Interval, maxFiles: nat, lister: set<SourceName> -> seq<SourceName>,
    unreadable: set<SourceName>, failed: set<SourceName>, fault: Fault)
  {
    ghost predicate Valid() {
      forall dir: Directory :: Lists(lister(dir.Keys), dir)
    }
  }

  /**
   * What the search for unrecorded commits meets. `readable` is false when any of its reads raises;
   * `hasColumn` says whether the table has a source-file column; `timestamps` are the commits' times.
   */
  datatype Unrecorded = Unrecorded(
    readable: bool, hasColumn: bool, listings: seq<seq<FileInfo>>, cutoffs: seq<int>,
    writtenAt: Option<int>, timestamps: seq<Option<int>>)
  {
    ghost predicate Valid(log: Log) {
      |listings| == |cutoffs| && |timestamps| == |log.history|
    }
  }

  ghost predicate ValidRecords(watermark: Option<Watermark>, pending: Option<PendingBatch>) {
    && (watermark.Some? ==> watermark.value.batchId >= 0)
    && (pending.Some? ==> pending.value.deltaVersionBefore >= -1)
  }

  // ---- `_record_batch` ------------------------------------------------------------------------

  function NextId(files: seq<FileInfo>, current: Option<Watermark>): (id: nat)
    requires current.Some? ==> current.value.batchId >= 0
  {
    ComputeNewWatermark(files, current).batchId
  }

  function Tag(entries: seq<(string, int)>, batchId: nat, now: int): seq<SourceRecord> {
    seq(|entries|, i requires 0 <= i < |entries| => SourceRecord(entries[i].0, entries[i].1, batchId, now))
  }

  function WrittenSources(sources: Directory, entries: seq<(string, int)>, batchId: nat, up: Upkeep): Directory {
    Written(sources, up.lister(sources.Keys), up.unreadable, batchId, Tag(entries, batchId, up.now), up.interval)
  }

  /** The sources after one batch, as far as the recording got. */
  function RecordedSources(sources: Directory, entries: seq<(string, int)>, batchId: nat, up: Upkeep): Directory {
    if up.fault.WatermarkFault? || up.fault == SourcesFault(false) then sources
    else
      var written := WrittenSources(sources, entries, batchId, up);
      if up.fault.SourcesFault? then written else Cleaned(written, up.lister(written.Keys), up.maxFiles, up.failed)
  }

  /** The checkpoint after `_record_batch`, which raises unless its fault is `NoFault`. */
  function AfterRecord(cp: Checkpoint, files: seq<FileInfo>, version: Option<int>, up: Upkeep): Checkpoint
    requires cp.watermark.Some? ==> cp.watermark.value.batchId >= 0
  {
    var next := Some(ComputeNewWatermark(files, cp.watermark).(deltaVersion := version));
    cp.(watermark := if up.fault == WatermarkFault(false) then cp.watermark else next,
        sources := RecordedSources(cp.sources, Entries(files), NextId(files, cp.watermark), up))
  }

  // ---- `begin_batch` and `update_checkpoint` --------------------------------------------------

  function NewPending(token: nat, files: seq<FileInfo>, watermark: Option<Watermark>, latest: int): PendingBatch {
    PendingBatch(token, if watermark.Some? then watermark.value.batchId + 1 else 0, Entries(files), watermark, latest)
  }

  /** `_committed_delta_version`. */
  function CommittedDelta(log: Log, pending: Option<PendingBatch>, readable: bool): Option<int> {
    if pending.Some? then Protocol.CommittedVersion(log, pending.value, readable)
    else if readable && log.history != [] then Some(|log.history| - 1)
    else None
  }

  /** The checkpoint after `update_checkpoint` for the batch this process began, if it began one. */
  function AfterUpdate(
    cp: Checkpoint, files: seq<FileInfo>, begun: Option<PendingBatch>, log: Log, readable: bool, deletes: bool, up: Upkeep)
    : Checkpoint
    requires cp.watermark.Some? ==> cp.watermark.value.batchId >= 0
  {
    if files == [] then cp
    else
      var next := AfterRecord(cp, files, CommittedDelta(log, begun, readable), up);
      if begun.Some? && deletes && up.fault.NoFault? then next.(pending := None) else next
  }

  /**
   * The version recorded with a batch: its own commit while that is listed; without such a commit some version all the
   * same, unless the log cannot be read or is empty.
   */
  lemma RecordedVersionIs(log: Log, pending: Option<PendingBatch>, readable: bool)
    requires ValidLog(log) && (pending.Some? ==> pending.value.deltaVersionBefore >= -1)
    ensures CommittedDelta(log, pending, readable) == None <==> !readable || log.history == []
    ensures
      readable && log.history != [] ==>
        var version := CommittedDelta(log, pending, readable).value;
        && 0 <= version < |log.history|
        && (version != |log.history| - 1 ==>
              && pending.Some? && version > pending.value.deltaVersionBefore && IsListed(log, version)
              && NamesToken(log.history[version], pending.value.token))
        && (pending.Some? ==>
              forall v ::
                IsListed(log, v) && v > pending.value.deltaVersionBefore && NamesToken(log.history[v], pending.value.token) ==>
                  version <= v)
  {
    hide LatestMetadata, FindTokenVersion, NamesToken;
    if pending.Some? {
      SearchFinds(log, pending.value.token, pending.value.deltaVersionBefore);
    }
  }

  /** Cached infos in the order of the paths. */
  function CachedInfos(cache: map<string, FileInfo>, paths: seq<string>): seq<FileInfo> {
    if paths == [] then []
    else
      var n := |paths| - 1;
      CachedInfos(cache, paths[..n]) + (if paths[n] in cache then [cache[paths[n]]] else [])
  }

  function UncachedPaths(cache: map<string, FileInfo>, paths: seq<string>): set<string> {
    set p | p in paths && p !in cache
  }

  /** The first listed file of each wanted path. */
  function FallbackInfos(listed: seq<FileInfo>, wanted: set<string>): seq<FileInfo> {
    if listed == [] then []
    else
      var n := |listed| - 1;
      var rest := FallbackInfos(listed[..n], wanted);
      if listed[n].path in wanted && listed[n].path !in PathsOf(rest) then rest + [listed[n]] else rest
  }

  /** A cache keyed by path, as `discover_files` fills it. */
  ghost predicate KeyedByPath(cache: map<string, FileInfo>) {
    forall p :: p in cache ==> cache[p].path == p
  }

  lemma {:induction false} CachedMembers(cache: map<string, FileInfo>, paths: seq<string>, f: FileInfo)
    ensures f in CachedInfos(cache, paths) <==> exists p :: p in paths && p in cache && cache[p] == f
  {
    if paths != [] {
      var n := |paths| - 1;
      CachedMembers(cache, paths[..n], f);
      assert paths == paths[..n] + [paths[n]];
    }
  }

  /** Where every path is cached, the infos are those of the paths, one by one. */
  lemma {:induction false} CachedInOrder(cache: map<string, FileInfo>, paths: seq<string>)
    requires forall p :: p in paths ==> p in cache
    ensures |CachedInfos(cache, paths)| == |paths|
    ensures forall i :: 0 <= i < |paths| ==> CachedInfos(cache, paths)[i] == cache[paths[i]]
  {
    if paths != [] {
      CachedInOrder(cache, paths[..|paths| - 1]);
    }
  }

  /** `f` is the first of the listed files that has its path. */
  ghost predicate FirstListed(listed: seq<FileInfo>, f: FileInfo) {
    exists i :: 0 <= i < |listed| && listed[i] == f && forall j :: 0 <= j < i ==> listed[j].path != f.path
  }

  lemma FallbackSnoc(listed: seq<FileInfo>, last: FileInfo, wanted: set<string>)
    ensures
      var rest := FallbackInfos(listed, wanted);
      FallbackInfos(listed + [last], wanted) ==
      if last.path in wanted && last.path !in PathsOf(rest) then rest + [last] else rest
  {
    assert (listed + [last])[..|listed|] == listed;
  }

  /** The fallback names each wanted path that is listed, once. */
  lemma {:induction false} FallbackPaths(listed: seq<FileInfo>, wanted: set<string>)
    ensures DistinctPaths(FallbackInfos(listed, wanted))
    ensures PathsOf(FallbackInfos(listed, wanted)) == PathsOf(listed) * wanted
    decreases |listed|
  {
    if listed != [] {
      hide *;
      var n := |listed| - 1;
      var rest := FallbackInfos(listed[..n], wanted);
      assert listed == listed[..n] + [listed[n]];
      FallbackPaths(listed[..n], wanted);
      FallbackSnoc(listed[..n], listed[n], wanted);
      IncrementalLoop.PathsSnoc(listed[..n], listed[n]);
      IncrementalLoop.PathsSnoc(rest, listed[n]);
      if listed[n].path !in PathsOf(rest) {
        NewPathIsDistinct(rest, listed[n]);
      }
    }
  }

  lemma NewPathIsDistinct(files: seq<FileInfo>, f: FileInfo)
    requires DistinctPaths(files) && f.path !in PathsOf(files)
    ensures DistinctPaths(files + [f])
  {
    assert forall i :: 0 <= i < |files| ==> files[i].path in PathsOf(files);
  }

  /** The fallback takes, for each wanted path, its first listed file and no other. */
  lemma {:induction false} FallbackMembers(listed: seq<FileInfo>, wanted: set<string>, f: FileInfo)
    ensures f in FallbackInfos(listed, wanted) <==> f.path in wanted && FirstListed(listed, f)
    decreases |listed|
  {
    NothingListed(f);
    if listed != [] {
      hide *;
      var n := |listed| - 1;
      assert listed == listed[..n] + [listed[n]];
      FallbackMembers(listed[..n], wanted, f);
      FallbackPaths(listed[..n], wanted);
      FallbackSnoc(listed[..n], listed[n], wanted);
      FirstListedSnoc(listed[..n], listed[n], f);
    }
  }

  lemma NothingListed(f: FileInfo)
    ensures !FirstListed([], f)
  {}

  lemma FirstListedSnoc(listed: seq<FileInfo>, last: FileInfo, f: FileInfo)
    ensures FirstListed(listed + [last], f) <==> FirstListed(listed, f) || (f == last && f.path !in PathsOf(listed))
  {
    var more := listed + [last];
    if i :| 0 <= i < |listed| && listed[i] == f && forall j :: 0 <= j < i ==> listed[j].path != f.path {
      assert more[i] == f && forall j :: 0 <= j < i ==> more[j] == listed[j];
    }
    if i :| 0 <= i < |more| && more[i] == f && forall j :: 0 <= j < i ==> more[j].path != f.path {
      assert forall j :: 0 <= j < i ==> listed[j] == more[j];
      forall g | i == |listed| && g in listed ensures g.path != f.path {
        var k :| 0 <= k < |listed| && listed[k] == g;
        assert more[k] == g;
      }
    }
    if f == last && f.path !in PathsOf(listed) {
      assert more[|listed|] == f;
    }
  }

  /** The file has one of the paths, and is the cached one or, if none is, the first listed one of its path. */
  ghost predicate IsLookedUp(cache: map<string, FileInfo>, paths: seq<string>, listed: seq<FileInfo>, f: FileInfo) {
    f.path in paths && (if f.path in cache then f == cache[f.path] else FirstListed(listed, f))
  }

  /**
   * What `update_checkpoint` looks up: only files of the given paths, cached or listed; each such path; and of an
   * uncached path the first listed file, once.
   */
  lemma LookedUpFiles(cache: map<string, FileInfo>, paths: seq<string>, listed: seq<FileInfo>)
    requires KeyedByPath(cache)
    ensures
      var files := CachedInfos(cache, paths) + FallbackInfos(listed, UncachedPaths(cache, paths));
      && (forall f :: f in files <==> IsLookedUp(cache, paths, listed, f))
      && PathsOf(files) == (set p | p in paths && (p in cache || p in PathsOf(listed)))
      && (forall i, j :: 0 <= i < j < |files| && files[i].path == files[j].path ==> files[i].path in cache)
      && ((forall p :: p in paths ==> p in cache) ==>
            |files| == |paths| && forall i :: 0 <= i < |paths| ==> files[i] == cache[paths[i]])
  {
    hide CachedInfos, FallbackInfos, FirstListed;
    var cached := CachedInfos(cache, paths);
    var found := FallbackInfos(listed, UncachedPaths(cache, paths));
    forall f ensures f in cached <==> f.path in paths && f.path in cache && f == cache[f.path] {
      CachedMembers(cache, paths, f);
    }
    forall f ensures f in found <==> f.path in paths && f.path !in cache && FirstListed(listed, f) {
      FallbackMembers(listed, UncachedPaths(cache, paths), f);
    }
    FallbackPaths(listed, UncachedPaths(cache, paths));
    forall p | p in paths && p in cache ensures p in PathsOf(cached) {
      assert cache[p] in cached;
    }
    assert PathsOf(cached + found) == PathsOf(cached) + PathsOf(found);
    if forall p :: p in paths ==> p in cache {
      CachedInOrder(cache, paths);
      assert UncachedPaths(cache, paths) == {};
      NoFallback(listed);
    }
  }

  /**
   * The checkpoint that `update_checkpoint` leaves: its watermark is at the latest time of the looked-up files, one
   * version and one batch further, and the pending record of a batch this process began is gone.
   */
  lemma UpdateReachesLatest(
    cp: Checkpoint, files: seq<FileInfo>, begun: Option<PendingBatch>, log: Log, readable: bool, deletes: bool, up: Upkeep)
    requires ValidRecords(cp.watermark, cp.pending) && files != [] && up.fault != WatermarkFault(false)
    ensures
      var r := AfterUpdate(cp, files, begun, log, readable, deletes, up);
      && r.watermark.Some? && r.watermark.value.modifiedTime.Some?
      && (forall f :: f in files ==> f.modificationTime <= r.watermark.value.modifiedTime.value)
      && (exists f :: f in files && f.modificationTime == r.watermark.value.modifiedTime.value)
      && r.watermark.value.version == (if cp.watermark.Some? then cp.watermark.value.version + 1 else 0)
      && r.watermark.value.batchId == (if cp.watermark.Some? then cp.watermark.value.batchId + 1 else 0)
      && r.pending == if begun.Some? && deletes && up.fault.NoFault? then None else cp.pending
  {
    hide RecordedSources, MaxTime, CommittedDelta;
    NewWatermarkIsLatest(files, cp.watermark);
  }

  lemma RecordedIsAtNewTime(cp: Checkpoint, files: seq<FileInfo>, version: Option<int>, up: Upkeep)
    requires ValidRecords(cp.watermark, cp.pending) && up.fault.NoFault?
    ensures TimeOf(AfterRecord(cp, files, version, up).watermark) == ComputeNewWatermark(files, cp.watermark).modifiedTime
    ensures AfterRecord(cp, files, version, up).watermark.Some?
  {}

  // ---- `_resolve_pending` ---------------------------------------------------------------------

  /** The stored pending batch starts from the stored watermark and its token is in the log. */
  predicate RecordsPending(cp: Checkpoint, log: Log) {
    && cp.pending.Some? && cp.pending.value.AppliesTo(cp.watermark)
    && FindTokenVersion(log, cp.pending.value.token, cp.pending.value.deltaVersionBefore).Some?
  }

  predicate ResolveRaises(cp: Checkpoint, log: Log, up: Upkeep) {
    RecordsPending(cp, log) && !up.fault.NoFault?
  }

  /** The checkpoint after `_resolve_pending`. */
  function AfterResolve(cp: Checkpoint, log: Log, deletes: bool, up: Upkeep): Checkpoint
    requires cp.watermark.Some? ==> cp.watermark.value.batchId >= 0
  {
    if cp.pending.None? then cp
    else
      var p := cp.pending.value;
      var version := if p.AppliesTo(cp.watermark) then FindTokenVersion(log, p.token, p.deltaVersionBefore) else None;
      var next := if version.Some? then AfterRecord(cp, Recovered(p.files), version, up) else cp;
      if deletes && !ResolveRaises(cp, log, up) then next.(pending := None) else next
  }

  // ---- `_legacy_baseline` ---------------------------------------------------------------------

  const LEGACY_BASELINE_MAX_COMMITS: nat := 100

  /** Whether a commit is known to be newer than the watermark file. */
  predicate IsNewer(timestamps: seq<Option<int>>, version: int, writtenAt: int) {
    0 <= version < |timestamps| && timestamps[version].Some? && timestamps[version].value > writtenAt
  }

  function BaselineAmong(timestamps: seq<Option<int>>, versions: seq<int>, writtenAt: int, baseline: int): int {
    if versions == [] then baseline
    else
      var n := |versions| - 1;
      if !IsNewer(timestamps, versions[n], writtenAt) then baseline
      else BaselineAmong(timestamps, versions[..n], writtenAt, versions[n] - 1)
  }

  function NewestVersions(versions: seq<int>): seq<int> {
    if |versions| > LEGACY_BASELINE_MAX_COMMITS then versions[|versions| - LEGACY_BASELINE_MAX_COMMITS..] else versions
  }

  function LegacyBaseline(log: Log, writtenAt: Option<int>, timestamps: seq<Option<int>>): int {
    var latest := |log.history| - 1;
    if writtenAt.None? then latest
    else BaselineAmong(timestamps, NewestVersions(Versions(log)), writtenAt.value, latest)
  }

  // ---- `_adopt_unrecorded_commits` ------------------------------------------------------------

  /** The source files that listed ScopeEngine commits after `baseline` ingested, by path. */
  ghost function IngestedPaths(log: Log, baseline: int): set<string> {
    set v, f | baseline < v < |log.history| && IsListed(log, v) && log.history[v].scopeEngine && log.history[v].addsData
               && f in log.history[v].files :: f.path
  }

  function UnprocessedFiles(watermark: Option<Watermark>, u: Unrecorded): seq<FileInfo>
    requires |u.listings| == |u.cutoffs|
  {
    SortByTime(IncrementalLoop.FirstByPath(IncrementalLoop.UnionUnprocessed(u.listings, TimeOf(watermark), u.cutoffs)))
  }

  /** The files to adopt from the listed commits after `baseline`. */
  ghost function PrefixToAdopt(watermark: Option<Watermark>, log: Log, baseline: int, u: Unrecorded): seq<FileInfo>
    requires |u.listings| == |u.cutoffs|
  {
    var unprocessed := UnprocessedFiles(watermark, u);
    if u.hasColumn then AdoptablePrefix(unprocessed, NaiveMatches(IngestedPaths(log, baseline), unprocessed)) else []
  }

  ghost function AfterAdopt(cp: Checkpoint, log: Log, baseline: int, u: Unrecorded, up: Upkeep): Checkpoint
    requires cp.watermark.Some? && cp.watermark.value.batchId >= 0
    requires |u.listings| == |u.cutoffs|
  {
    var prefix := PrefixToAdopt(cp.watermark, log, baseline, u);
    if prefix != [] then AfterRecord(cp, prefix, Some(|log.history| - 1), up) else cp
  }

  // ---- `reconcile_checkpoint` -----------------------------------------------------------------

  /**
   * What one reconcile meets. `readable` is false when a read before the first write raises; `deletes` when
   * deleting `pending.json` only warns; `finalFault` is set when the last write raises, to whether it landed.
   */
  datatype Surroundings = Surroundings(
    readable: bool, deletes: bool, unrecorded: Unrecorded, resolving: Upkeep, adopting: Upkeep, finalFault: Option<bool>)

  /** The version after which commits may be missing from the checkpoint: the recorded one, or else an inferred one. */
  function BaselineOf(watermark: Watermark, log: Log, u: Unrecorded): int {
    if watermark.deltaVersion.Some? then watermark.deltaVersion.value else LegacyBaseline(log, u.writtenAt, u.timestamps)
  }

  /** The prefix adopted from a resolved checkpoint; empty when the search is not made or raises. */
  ghost function AdoptedFiles(watermark: Watermark, log: Log, u: Unrecorded): seq<FileInfo>
    requires |u.listings| == |u.cutoffs|
  {
    var baseline := BaselineOf(watermark, log, u);
    if u.readable && baseline < |log.history| - 1 then PrefixToAdopt(Some(watermark), log, baseline, u) else []
  }

  ghost function AfterAdoption(cp: Checkpoint, log: Log, u: Unrecorded, up: Upkeep): Checkpoint
    requires cp.watermark.Some? && cp.watermark.value.batchId >= 0
    requires |u.listings| == |u.cutoffs|
  {
    var baseline := BaselineOf(cp.watermark.value, log, u);
    if u.readable && baseline < |log.history| - 1 then AfterAdopt(cp, log, baseline, u, up) else cp
  }

  /** The watermark reconcile goes on with: a recording that raises inside adoption is swallowed. */
  ghost function HeldAfterAdoption(cp: Checkpoint, log: Log, u: Unrecorded, up: Upkeep): Option<Watermark>
    requires cp.watermark.Some? && cp.watermark.value.batchId >= 0
    requires |u.listings| == |u.cutoffs|
  {
    if up.fault.NoFault? then AfterAdoption(cp, log, u, up).watermark else cp.watermark
  }

  /** The last write, made unless the held watermark already covers the latest version. */
  function AfterFinal(cp: Checkpoint, held: Watermark, latest: int, finalFault: Option<bool>): Checkpoint {
    if held.deltaVersion == Some(latest) || finalFault == Some(false) then cp
    else cp.(watermark := Some(held.(deltaVersion := Some(latest))))
  }

  ghost function AfterReconcile(cp: Checkpoint, log: Log, around: Surroundings): Checkpoint
    requires cp.watermark.Some? ==> cp.watermark.value.batchId >= 0
    requires |around.unrecorded.listings| == |around.unrecorded.cutoffs|
  {
    if !around.readable then cp
    else
      var resolved := AfterResolve(cp, log, around.deletes, around.resolving);
      if ResolveRaises(cp, log, around.resolving) || resolved.watermark.None? || log.history == [] then resolved
      else
        AfterFinal(AfterAdoption(resolved, log, around.unrecorded, around.adopting),
                   HeldAfterAdoption(resolved, log, around.unrecorded, around.adopting).value,
                   |log.history| - 1, around.finalFault)
  }

  /** The reconcile does not return. */
  ghost predicate ReconcileRaises(cp: Checkpoint, log: Log, around: Surroundings)
    requires cp.watermark.Some? ==> cp.watermark.value.batchId >= 0
    requires |around.unrecorded.listings| == |around.unrecorded.cutoffs|
  {
    if !around.readable || ResolveRaises(cp, log, around.resolving) then true
    else
      var resolved := AfterResolve(cp, log, around.deletes, around.resolving);
      && resolved.watermark.Some? && log.history != []
      && HeldAfterAdoption(resolved, log, around.unrecorded, around.adopting).value.deltaVersion != Some(|log.history| - 1)
      && around.finalFault.Some?
  }

  // ---- Recovery equivalence -------------------------------------------------------------------

  lemma RecoveredRecordsTheSame(files: seq<FileInfo>, current: Option<Watermark>)
    requires files != []
    ensures ComputeNewWatermark(Recovered(Entries(files)), current) == ComputeNewWatermark(files, current)
    ensures Entries(Recovered(Entries(files))) == Entries(files)
  {
    hide MaxTime;
    RecoveredKeepsMaxTime(files);
    RecoveredKeepsEntries(files);
  }

  /** The same records, but for the time they were processed at. */
  ghost predicate SameRecords(a: seq<SourceRecord>, b: seq<SourceRecord>) {
    && |a| == |b|
    && forall i :: 0 <= i < |a| ==>
         a[i].path == b[i].path && a[i].modificationTime == b[i].modificationTime && a[i].batchId == b[i].batchId
  }

  ghost predicate SameButForClock(a: Directory, b: Directory) {
    a.Keys == b.Keys && forall name :: name in a ==> SameRecords(a[name], b[name])
  }

  lemma SameRecordsAfter(older: seq<SourceRecord>, a: seq<SourceRecord>, b: seq<SourceRecord>)
    requires SameRecords(a, b)
    ensures SameRecords(older + a, older + b)
  {}

  /** The clock shows in nothing but the processing time of the recorded batch. */
  lemma SourcesIgnoreClock(sources: Directory, entries: seq<(string, int)>, batchId: nat, up: Upkeep, later: int)
    ensures
      var a := RecordedSources(sources, entries, batchId, up);
      var b := RecordedSources(sources, entries, batchId, up.(now := later));
      SameButForClock(a, b)
  {
    hide SnapshotRecords, DeleteAll, Oldest, Tag, SameRecords;
    WrittenIgnoresClock(sources, entries, batchId, up, later);
    var a := WrittenSources(sources, entries, batchId, up);
    var b := WrittenSources(sources, entries, batchId, up.(now := later));
    DeletesExactly(a, Oldest(up.lister(a.Keys), up.maxFiles), up.failed);
    DeletesExactly(b, Oldest(up.lister(b.Keys), up.maxFiles), up.failed);
    DirectoryIsItself(sources);
  }

  lemma DirectoryIsItself(dir: Directory)
    ensures SameButForClock(dir, dir)
  {}

  lemma WrittenIgnoresClock(sources: Directory, entries: seq<(string, int)>, batchId: nat, up: Upkeep, later: int)
    ensures
      var a := WrittenSources(sources, entries, batchId, up);
      var b := WrittenSources(sources, entries, batchId, up.(now := later));
      SameButForClock(a, b)
  {
    hide BaseRecords, DiffRecords;
    var listing := up.lister(sources.Keys);
    var readable := sources - up.unreadable;
    var older := BaseRecords(readable, listing) + DiffRecords(readable, listing, LatestSnapshot(listing));
    var a, b := Tag(entries, batchId, up.now), Tag(entries, batchId, later);
    assert SameRecords(a, b);
    SameRecordsAfter(older, a, b);
    DirectoryIsItself(sources);
  }

  /** Two watermarks of the same position, or none. */
  predicate SamePlace(a: Option<Watermark>, b: Option<Watermark>) {
    if a.None? then b.None? else a.value.SamePosition(b)
  }

  lemma RecordingTheSame(
    cp: Checkpoint, files: seq<FileInfo>, again: seq<FileInfo>, version: Option<int>, other: Option<int>, up: Upkeep, later: int)
    requires ValidRecords(cp.watermark, cp.pending)
    requires ComputeNewWatermark(again, cp.watermark) == ComputeNewWatermark(files, cp.watermark)
    requires Entries(again) == Entries(files)
    ensures
      var a, b := AfterRecord(cp, files, version, up), AfterRecord(cp, again, other, up.(now := later));
      && SameButForClock(a.sources, b.sources) && a.pending == b.pending
      && SamePlace(a.watermark, b.watermark)
      && (version == other && later == up.now ==> a == b)
  {
    hide RecordedSources, ComputeNewWatermark, Entries, SameButForClock;
    SourcesIgnoreClock(cp.sources, Entries(files), NextId(files, cp.watermark), up, later);
  }

  /**
   * A batch that began and committed, and whose process died, is recovered to the very checkpoint that the
   * interrupted update would have written: position, recorded files and pending record are equal whatever
   * log each of them reads and whenever it happens, and all of it is equal for the same log and clock.
   */
  lemma RecoveryIsTheInterruptedUpdate(
    cp: Checkpoint, token: nat, files: seq<FileInfo>, latest: int,
    log: Log, laterLog: Log, readable: bool, deletes: bool, up: Upkeep, later: int)
    requires files != [] && ValidRecords(cp.watermark, cp.pending) && latest >= -1
    requires FindTokenVersion(log, token, latest).Some?
    ensures
      var p := NewPending(token, files, cp.watermark, latest);
      var begun := cp.(pending := Some(p));
      var recovered := AfterResolve(begun, log, deletes, up.(now := later));
      var updated := AfterUpdate(begun, files, Some(p), laterLog, readable, deletes, up);
      && SameButForClock(updated.sources, recovered.sources) && recovered.pending == updated.pending
      && SamePlace(updated.watermark, recovered.watermark)
      && (readable && laterLog == log && later == up.now ==> recovered == updated)
  {
    hide RecordedSources, ComputeNewWatermark, Entries, FindTokenVersion, AfterRecord, SameButForClock, SamePlace;
    var p := NewPending(token, files, cp.watermark, latest);
    var begun := cp.(pending := Some(p));
    RecoveredRecordsTheSame(files, cp.watermark);
    RecordingTheSame(begun, files, Recovered(p.files), CommittedDelta(laterLog, Some(p), readable),
                     FindTokenVersion(log, token, latest), up, later);
  }

  /** What recording does to the watermark. */
  lemma RecordedHasWatermark(cp: Checkpoint, files: seq<FileInfo>, version: Option<int>, up: Upkeep)
    requires ValidRecords(cp.watermark, cp.pending)
    ensures
      var r := AfterRecord(cp, files, version, up);
      && r.pending == cp.pending && ValidRecords(r.watermark, r.pending)
      && (if up.fault == WatermarkFault(false) then r.watermark == cp.watermark
          else r.watermark.Some? && r.watermark.value.deltaVersion == version
               && (files != [] && cp.watermark.Some? ==>
                     && r.watermark.value.version == cp.watermark.value.version + 1
                     && r.watermark.value.modifiedTime == Some(MaxTime(files))
                     && r.watermark.value.batchId == cp.watermark.value.batchId + 1))
  {
    hide RecordedSources;
  }

  /** The batch id stored before the job is the one it is recorded under. */
  lemma PendingIdIsRecorded(cp: Checkpoint, token: nat, files: seq<FileInfo>, latest: int, version: Option<int>, up: Upkeep)
    requires files != [] && ValidRecords(cp.watermark, cp.pending) && up.fault != WatermarkFault(false)
    ensures
      var p := NewPending(token, files, cp.watermark, latest);
      AfterRecord(cp, files, version, up).watermark.Some?
      && p.batchId == AfterRecord(cp, files, version, up).watermark.value.batchId
  {
    hide RecordedSources, MaxTime;
  }

  /** A file has a time up to `t`, and some listed commit after `baseline` ingested the path it matches. */
  ghost predicate SkippedUpTo(files: seq<FileInfo>, ingested: set<string>, t: int) {
    forall f :: f in files && f.modificationTime <= t ==> f.path in NaiveMatches(ingested, files)
  }

  /**
   * What adoption makes of a checkpoint: it moves the watermark only to a time up to which every unprocessed file is
   * matched by a commit that was not recorded, as far as that is possible, and to the latest version; without the
   * source-file column, a readable log or such a file it changes nothing.
   */
  lemma AdoptionMovesAsFarAsItMay(cp: Checkpoint, log: Log, u: Unrecorded, up: Upkeep, t: int)
    requires cp.watermark.Some? && ValidRecords(cp.watermark, cp.pending) && u.Valid(log) && up.fault.NoFault?
    ensures
      var files := UnprocessedFiles(cp.watermark, u);
      var ingested := IngestedPaths(log, BaselineOf(cp.watermark.value, log, u));
      var r := AfterAdoption(cp, log, u, up);
      if !u.readable || !u.hasColumn then r == cp
      else
        && (r != cp ==>
              && r.watermark.Some? && r.watermark.value.modifiedTime.Some?
              && r.watermark.value.deltaVersion == Some(|log.history| - 1)
              && r.watermark.value.batchId == cp.watermark.value.batchId + 1
              && SkippedUpTo(files, ingested, r.watermark.value.modifiedTime.value))
        && (SkippedUpTo(files, ingested, t) && (exists f :: f in files && f.modificationTime <= t) ==>
              && r.watermark.Some? && r.watermark.value.modifiedTime.Some?
              && forall f :: f in files && f.modificationTime <= t ==>
                   f.modificationTime <= r.watermark.value.modifiedTime.value)
  {
    hide UnprocessedFiles, AdoptablePrefix, NaiveMatches, RecordedSources, MaxTime, LegacyBaseline, IngestedPaths, BaselineOf;
    var files := UnprocessedFiles(cp.watermark, u);
    var baseline := BaselineOf(cp.watermark.value, log, u);
    var ingested := IngestedPaths(log, baseline);
    var adopted := NaiveMatches(ingested, files);
    UnprocessedIsSorted(cp.watermark, u);
    AdoptionIsLargestSafeCut(files, adopted, t);
    if baseline >= |log.history| - 1 {
      NothingAfter(log, baseline);
      NoMatchNoPrefix(files);
    }
    var prefix := AdoptablePrefix(files, adopted);
    if prefix != [] {
      MaxTimeIsMaximum(prefix);
      AdoptionIsLargestSafeCut(files, adopted, MaxTime(prefix));
    }
  }

  lemma NothingAfter(log: Log, baseline: int)
    requires baseline >= |log.history| - 1
    ensures IngestedPaths(log, baseline) == {}
  {}

  lemma UnprocessedIsSorted(watermark: Option<Watermark>, u: Unrecorded)
    requires |u.listings| == |u.cutoffs|
    ensures Sorted(UnprocessedFiles(watermark, u))
  {
    hide IncrementalLoop.FirstByPath, IncrementalLoop.UnionUnprocessed, SortByTime;
    SortIsSorted(IncrementalLoop.FirstByPath(IncrementalLoop.UnionUnprocessed(u.listings, TimeOf(watermark), u.cutoffs)));
  }

  /** The last write fails, lands or is not needed: then the held watermark already covers the latest version. */
  lemma LastWrite(cp: Checkpoint, held: Watermark, latest: int, finalFault: Option<bool>)
    ensures
      var r := AfterFinal(cp, held, latest, finalFault);
      && r.pending == cp.pending && r.sources == cp.sources
      && (r.watermark == cp.watermark || r.watermark == Some(held.(deltaVersion := Some(latest))))
      && (finalFault == Some(false) ==> r == cp)
      && (finalFault != Some(false) && cp.watermark == Some(held) ==> r.watermark == Some(held.(deltaVersion := Some(latest))))
  {}

  // ---- Idempotence ----------------------------------------------------------------------------

  /** The watermark and pending record that a reconcile leaves resolved. */
  lemma ResolvedRecords(cp: Checkpoint, log: Log, deletes: bool, up: Upkeep)
    requires ValidRecords(cp.watermark, cp.pending) && !ResolveRaises(cp, log, up)
    ensures
      var r := AfterResolve(cp, log, deletes, up);
      && ValidRecords(r.watermark, r.pending)
      && r.pending == (if deletes then None else cp.pending)
      && (!RecordsPending(cp, log) ==> r.watermark == cp.watermark && r.sources == cp.sources)
      && (RecordsPending(cp, log) ==> r.watermark.Some?)
      && (RecordsPending(cp, log) && cp.watermark.Some? && cp.pending.value.files != [] ==>
            r.watermark.value.version == cp.watermark.value.version + 1)
  {
    hide AfterRecord, FindTokenVersion;
    if RecordsPending(cp, log) {
      var p := cp.pending.value;
      RecordedHasWatermark(cp, Recovered(p.files), FindTokenVersion(log, p.token, p.deltaVersionBefore), up);
    }
  }

  lemma AdoptionRecordsPrefix(cp: Checkpoint, log: Log, u: Unrecorded, up: Upkeep)
    requires cp.watermark.Some? && ValidRecords(cp.watermark, cp.pending) && u.Valid(log)
    ensures
      var prefix := AdoptedFiles(cp.watermark.value, log, u);
      AfterAdoption(cp, log, u, up) == if prefix != [] then AfterRecord(cp, prefix, Some(|log.history| - 1), up) else cp
  {
    hide AfterRecord, PrefixToAdopt, BaselineOf;
  }

  /** Adoption keeps the watermark it held, or moves it to the adopted prefix. */
  lemma AdoptionRecords(cp: Checkpoint, log: Log, u: Unrecorded, up: Upkeep)
    requires cp.watermark.Some? && ValidRecords(cp.watermark, cp.pending) && u.Valid(log)
    ensures
      var a, held := AfterAdoption(cp, log, u, up), HeldAfterAdoption(cp, log, u, up);
      var prefix := AdoptedFiles(cp.watermark.value, log, u);
      && a.pending == cp.pending && a.watermark.Some? && a.watermark.value.batchId >= 0
      && held.Some? && held.value.batchId >= 0
      && (if prefix == [] || !up.fault.NoFault? then held == cp.watermark
          else
            && held == a.watermark && held.value.version == cp.watermark.value.version + 1
            && held.value.modifiedTime == Some(MaxTime(prefix)) && held.value.batchId == cp.watermark.value.batchId + 1)
  {
    hide AfterRecord, AdoptedFiles, MaxTime, AfterAdoption;
    AdoptionRecordsPrefix(cp, log, u, up);
    RecordedHasWatermark(cp, AdoptedFiles(cp.watermark.value, log, u), Some(|log.history| - 1), up);
  }

  /** A held watermark that covers the latest version already is the stored one: nothing else was written since. */
  lemma CoveringWatermarkIsStored(cp: Checkpoint, log: Log, u: Unrecorded, up: Upkeep)
    requires cp.watermark.Some? && ValidRecords(cp.watermark, cp.pending) && u.Valid(log)
    requires HeldAfterAdoption(cp, log, u, up).value.deltaVersion == Some(|log.history| - 1)
    ensures AfterAdoption(cp, log, u, up).watermark == HeldAfterAdoption(cp, log, u, up)
  {
    hide AfterRecord, PrefixToAdopt, LegacyBaseline, MaxTime;
    AdoptionRecords(cp, log, u, up);
  }

  /** A reconcile that returns covers the latest version, and keeps the pending record only if deleting it failed. */
  lemma ReconciledCoversLog(cp: Checkpoint, log: Log, around: Surroundings)
    requires ValidRecords(cp.watermark, cp.pending) && around.unrecorded.Valid(log)
    requires !ReconcileRaises(cp, log, around)
    ensures
      var r := AfterReconcile(cp, log, around);
      && ValidRecords(r.watermark, r.pending)
      && (r.watermark.Some? && log.history != [] ==> r.watermark.value.deltaVersion == Some(|log.history| - 1))
      && r.pending == (if around.deletes then None else cp.pending)
  {
    hide AfterResolve, AfterAdoption, HeldAfterAdoption, ResolveRaises, AdoptedFiles, RecordsPending;
    ResolvedRecords(cp, log, around.deletes, around.resolving);
    var resolved := AfterResolve(cp, log, around.deletes, around.resolving);
    if resolved.watermark.Some? && log.history != [] {
      AdoptionRecords(resolved, log, around.unrecorded, around.adopting);
      if HeldAfterAdoption(resolved, log, around.unrecorded, around.adopting).value.deltaVersion == Some(|log.history| - 1) {
        CoveringWatermarkIsStored(resolved, log, around.unrecorded, around.adopting);
      }
    }
  }

  /** The position of a reconciled watermark: the resolved one, or the adopted prefix's. */
  lemma ReconciledPosition(cp: Checkpoint, log: Log, around: Surroundings)
    requires ValidRecords(cp.watermark, cp.pending) && around.unrecorded.Valid(log)
    requires !ReconcileRaises(cp, log, around)
    ensures
      var resolved := AfterResolve(cp, log, around.deletes, around.resolving);
      var r := AfterReconcile(cp, log, around);
      if resolved.watermark.None? || log.history == [] then r.watermark == resolved.watermark
      else
        var prefix := AdoptedFiles(resolved.watermark.value, log, around.unrecorded);
        && r.watermark.Some?
        && (if prefix == [] || !around.adopting.fault.NoFault? then r.watermark.value.SamePosition(resolved.watermark)
            else
              && r.watermark.value.version == resolved.watermark.value.version + 1
              && r.watermark.value.modifiedTime == Some(MaxTime(prefix))
              && r.watermark.value.batchId == resolved.watermark.value.batchId + 1)
  {
    hide AfterResolve, AfterAdoption, HeldAfterAdoption, ResolveRaises, AdoptedFiles, RecordsPending, MaxTime;
    ResolvedRecords(cp, log, around.deletes, around.resolving);
    var resolved := AfterResolve(cp, log, around.deletes, around.resolving);
    if resolved.watermark.Some? && log.history != [] {
      AdoptionRecords(resolved, log, around.unrecorded, around.adopting);
      if HeldAfterAdoption(resolved, log, around.unrecorded, around.adopting).value.deltaVersion == Some(|log.history| - 1) {
        CoveringWatermarkIsStored(resolved, log, around.unrecorded, around.adopting);
      }
    }
  }

  /**
   * The first reconcile leaves behind a pending record that a second one will take for its own: deleting it
   * failed, it was stale although its token is in the log, and adoption moves the watermark to exactly the
   * position it starts from.
   */
  ghost predicate LeavesMatchingPending(cp: Checkpoint, log: Log, first: Surroundings)
    requires |first.unrecorded.listings| == |first.unrecorded.cutoffs|
  {
    && !first.deletes && cp.pending.Some? && cp.watermark.Some? && log.history != []
    && (var p, w := cp.pending.value, cp.watermark.value;
        var prefix := AdoptedFiles(w, log, first.unrecorded);
        && !p.AppliesTo(cp.watermark)
        && FindTokenVersion(log, p.token, p.deltaVersionBefore).Some?
        && first.adopting.fault.NoFault? && prefix != []
        && p.watermarkBefore.Some?
        && p.watermarkBefore.value.version == w.version + 1
        && p.watermarkBefore.value.modifiedTime == Some(MaxTime(prefix))
        && p.watermarkBefore.value.batchId == w.batchId + 1)
  }

  /** What a second reconcile finds pending is decided before the first. */
  lemma PendingMatchesAfterwardsIff(cp: Checkpoint, log: Log, first: Surroundings)
    requires ValidRecords(cp.watermark, cp.pending) && first.unrecorded.Valid(log)
    requires cp.pending.Some? ==> cp.pending.value.files != []
    requires !ReconcileRaises(cp, log, first)
    ensures RecordsPending(AfterReconcile(cp, log, first), log) <==> LeavesMatchingPending(cp, log, first)
  {
    hide AfterResolve, AfterReconcile, FindTokenVersion, AdoptedFiles, MaxTime, HeldAfterAdoption;
    ReconciledCoversLog(cp, log, first);
    ReconciledPosition(cp, log, first);
    ResolvedRecords(cp, log, first.deletes, first.resolving);
  }

  /** With its version up to date, a checkpoint without a pending commit to record is left alone. */
  lemma NothingLeftToReconcile(cp: Checkpoint, log: Log, around: Surroundings)
    requires ValidRecords(cp.watermark, cp.pending) && around.unrecorded.Valid(log)
    requires cp.watermark.Some? && log.history != [] ==> cp.watermark.value.deltaVersion == Some(|log.history| - 1)
    requires !RecordsPending(cp, log)
    ensures
      var r := AfterReconcile(cp, log, around);
      r.watermark == cp.watermark && r.sources == cp.sources
  {
    hide AfterRecord, FindTokenVersion, LegacyBaseline, PrefixToAdopt;
  }

  lemma RecordingPendingAdvances(cp: Checkpoint, log: Log, around: Surroundings)
    requires ValidRecords(cp.watermark, cp.pending) && around.unrecorded.Valid(log)
    requires RecordsPending(cp, log) && cp.pending.value.files != []
    requires around.readable && around.resolving.fault != WatermarkFault(false)
    ensures AfterReconcile(cp, log, around).watermark != cp.watermark
  {
    hide AfterRecord, FindTokenVersion, LegacyBaseline, PrefixToAdopt, MaxTime, AfterAdoption, HeldAfterAdoption, AdoptedFiles;
    var p := cp.pending.value;
    RecordedHasWatermark(cp, Recovered(p.files), FindTokenVersion(log, p.token, p.deltaVersionBefore), around.resolving);
    var resolved := AfterResolve(cp, log, around.deletes, around.resolving);
    AdoptionRecords(resolved, log, around.unrecorded, around.adopting);
    SwallowedAdoptionAdvances(resolved, log, around.unrecorded, around.adopting);
  }

  /** Whatever adoption wrote, its version is not below the one it held. */
  lemma SwallowedAdoptionAdvances(cp: Checkpoint, log: Log, u: Unrecorded, up: Upkeep)
    requires cp.watermark.Some? && ValidRecords(cp.watermark, cp.pending) && u.Valid(log)
    ensures AfterAdoption(cp, log, u, up).watermark.Some?
    ensures AfterAdoption(cp, log, u, up).watermark.value.version >= cp.watermark.value.version
  {
    hide AfterRecord, AdoptedFiles, MaxTime, AfterAdoption;
    AdoptionRecordsPrefix(cp, log, u, up);
    RecordedHasWatermark(cp, AdoptedFiles(cp.watermark.value, log, u), Some(|log.history| - 1), up);
  }

  /**
   * After a reconcile that returned, and without new commits, a second one in any surroundings changes
   * neither the watermark nor the sources, exactly unless the first left behind a matching pending record;
   * when it did, every second reconcile that gets to write the watermark changes it.
   */
  lemma ReconcileIsIdempotentIff(cp: Checkpoint, log: Log, first: Surroundings, second: Surroundings)
    requires ValidRecords(cp.watermark, cp.pending) && first.unrecorded.Valid(log) && second.unrecorded.Valid(log)
    requires cp.pending.Some? ==> cp.pending.value.files != []
    requires !ReconcileRaises(cp, log, first)
    ensures ValidRecords(AfterReconcile(cp, log, first).watermark, AfterReconcile(cp, log, first).pending)
    ensures
      var once := AfterReconcile(cp, log, first);
      var twice := AfterReconcile(once, log, second);
      !LeavesMatchingPending(cp, log, first) ==> twice.watermark == once.watermark && twice.sources == once.sources
    ensures
      var once := AfterReconcile(cp, log, first);
      var twice := AfterReconcile(once, log, second);
      LeavesMatchingPending(cp, log, first) && second.readable && second.resolving.fault != WatermarkFault(false) ==>
        twice.watermark != once.watermark
  {
    hide AfterReconcile, FindTokenVersion, ReconcileRaises, LeavesMatchingPending, RecordsPending;
    ReconciledCoversLog(cp, log, first);
    PendingMatchesAfterwardsIff(cp, log, first);
    var once := AfterReconcile(cp, log, first);
    PendingKept(cp, log, first);
    if LeavesMatchingPending(cp, log, first) {
      if second.readable && second.resolving.fault != WatermarkFault(false) {
        RecordingPendingAdvances(once, log, second);
      }
    } else {
      NothingLeftToReconcile(once, log, second);
    }
  }

  lemma PendingKept(cp: Checkpoint, log: Log, first: Surroundings)
    requires ValidRecords(cp.watermark, cp.pending) && first.unrecorded.Valid(log)
    requires cp.pending.Some? ==> cp.pending.value.files != []
    requires !ReconcileRaises(cp, log, first)
    ensures
      var once := AfterReconcile(cp, log, first);
      RecordsPending(once, log) ==> once.pending.Some? && once.pending.value.files != []
  {
    hide AfterReconcile, FindTokenVersion, ReconcileRaises;
    ReconciledCoversLog(cp, log, first);
  }

  const LEFT_FILE := FileInfo("/a", 20, 1, None)

  function LeftCheckpoint(): Checkpoint {
    Checkpoint(Some(Watermark(0, Some(10), 0, Some(0))),
               Some(PendingBatch(7, 2, [("/x", 30)], Some(Watermark(1, Some(20), 1, Some(1))), 1)), map[])
  }

  function LeftLog(): Log {
    Log([Commit(None, None, true, true, None, []), Commit(None, None, true, true, None, [LEFT_FILE]),
         Commit(Some(Some(7)), None, true, true, Some(7), [])], 0, [])
  }

  function LeftSurroundings(up: Upkeep): Surroundings {
    Surroundings(true, false, Unrecorded(true, true, [[LEFT_FILE]], [100], None, [None, None, None]), up, up, None)
  }

  lemma LeftPendingMatches(up: Upkeep)
    requires up.fault.NoFault?
    ensures LeavesMatchingPending(LeftCheckpoint(), LeftLog(), LeftSurroundings(up))
    ensures !ReconcileRaises(LeftCheckpoint(), LeftLog(), LeftSurroundings(up))
  {
    hide AfterRecord, NormalizeSourcePath, LatestMetadata;
    var cp, log, u := LeftCheckpoint(), LeftLog(), LeftSurroundings(up).unrecorded;
    LeftFilesAreAdopted(up);
    assert [LEFT_FILE][..0] == [];
    assert MaxTime([LEFT_FILE]) == 20;
    FirstCarryingIs(log.history, 2, 7);
    assert log.history[2].Carries(7);
    assert FindTokenVersion(log, 7, 1).Some?;
  }

  lemma LeftFileIsUnprocessed(up: Upkeep)
    ensures UnprocessedFiles(LeftCheckpoint().watermark, LeftSurroundings(up).unrecorded) == [LEFT_FILE]
  {
    assert [LEFT_FILE][1..] == [] && [LEFT_FILE][..0] == [];
    var kept := Unprocessed([LEFT_FILE], Some(10), 100);
    assert Eligible(LEFT_FILE, Some(10), 100);
    assert Unprocessed([LEFT_FILE][1..], Some(10), 100) == [];
    assert kept == [LEFT_FILE];
    assert [[LEFT_FILE]][..0] == [] && [100][..0] == [];
    assert IncrementalLoop.UnionUnprocessed([], Some(10), []) == [];
    assert IncrementalLoop.UnionUnprocessed([[LEFT_FILE]], Some(10), [100]) == [] + kept == kept;
    assert IncrementalLoop.FirstByPath([]) == [];
    assert PathsOf(IncrementalLoop.FirstByPath([])) == {};
    assert IncrementalLoop.FirstByPath(kept) == [] + [LEFT_FILE] == [LEFT_FILE];
    assert SortByTime([]) == [];
  }

  lemma LeftFilesAreAdopted(up: Upkeep)
    ensures AdoptedFiles(LeftCheckpoint().watermark.value, LeftLog(), LeftSurroundings(up).unrecorded) == [LEFT_FILE]
  {
    hide NormalizeSourcePath, UnprocessedFiles;
    var log := LeftLog();
    LeftFileIsUnprocessed(up);
    assert [LEFT_FILE][1..] == [];
    assert LEFT_FILE in log.history[1].files && IsListed(log, 1);
    assert "/a" in IngestedPaths(log, 0);
    EveryPathIsRelated(NormalizeSourcePath("/a"));
    var adopted := NaiveMatches(IngestedPaths(log, 0), [LEFT_FILE]);
    assert "/a" in adopted;
    assert AdoptedRun([], adopted) == 0;
    assert AdoptedRun([LEFT_FILE], adopted) == 1;
  }

  lemma EveryPathIsRelated(path: string)
    ensures SuffixRelated(path, path)
  {
    assert path[|path| - |path|..] == path;
  }

  /**
   * A checkpoint whose second reconcile is no repetition: a superseded run left a record of a batch that
   * starts where adoption will end, its token is in the log, and deleting the record failed.
   */
  lemma SecondReconcileRecordsLeftPending(up: Upkeep, second: Surroundings)
    requires up.fault.NoFault? && second.unrecorded.Valid(LeftLog())
    requires second.readable && second.resolving.fault != WatermarkFault(false)
    ensures LeavesMatchingPending(LeftCheckpoint(), LeftLog(), LeftSurroundings(up))
    ensures ValidRecords(LeftCheckpoint().watermark, LeftCheckpoint().pending)
    ensures !ReconcileRaises(LeftCheckpoint(), LeftLog(), LeftSurroundings(up))
    ensures
      var once := AfterReconcile(LeftCheckpoint(), LeftLog(), LeftSurroundings(up));
      ValidRecords(once.watermark, once.pending) && AfterReconcile(once, LeftLog(), second).watermark != once.watermark
  {
    LeftPendingMatches(up);
    assert LeftSurroundings(up).unrecorded.Valid(LeftLog());
    ReconcileIsIdempotentIff(LeftCheckpoint(), LeftLog(), LeftSurroundings(up), second);
  }

  // ---- The inferred baseline ------------------------------------------------------------------

  /**
   * Commits after the inferred baseline are all newer than the watermark file, and the baseline itself is
   * a commit not known to be newer, or precedes the oldest commit looked at.
   */
  lemma {:induction false} BaselineSplitsLog(timestamps: seq<Option<int>>, versions: seq<int>, writtenAt: int, baseline: int)
    requires forall i, j :: 0 <= i < j < |versions| ==> versions[i] + (j - i) == versions[j]
    requires versions != [] ==> versions[|versions| - 1] == baseline
    ensures
      var b := BaselineAmong(timestamps, versions, writtenAt, baseline);
      && b <= baseline
      && (forall v :: b < v <= baseline && v in versions ==> IsNewer(timestamps, v, writtenAt))
      && (if versions == [] then b == baseline
          else b == versions[0] - 1 || (b in versions && !IsNewer(timestamps, b, writtenAt)))
  {
    hide IsNewer;
    if versions != [] {
      var n := |versions| - 1;
      if IsNewer(timestamps, versions[n], writtenAt) {
        if n > 0 {
          assert versions[..n][n - 1] == versions[n] - 1;
        }
        BaselineSplitsLog(timestamps, versions[..n], writtenAt, versions[n] - 1);
        assert versions == versions[..n] + [versions[n]];
      }
    }
  }

  /** The commit is known to have been made after the watermark file was written. */
  ghost predicate MadeAfter(timestamps: seq<Option<int>>, version: int, writtenAt: int) {
    0 <= version < |timestamps| && exists t :: timestamps[version] == Some(t) && t > writtenAt
  }

  lemma MadeAfterIsNewer(timestamps: seq<Option<int>>, version: int, writtenAt: int)
    ensures MadeAfter(timestamps, version, writtenAt) <==> IsNewer(timestamps, version, writtenAt)
  {
    if IsNewer(timestamps, version, writtenAt) {
      assert timestamps[version] == Some(timestamps[version].value);
    }
  }

  lemma LegacyBaselineSplitsLog(log: Log, writtenAt: int, timestamps: seq<Option<int>>)
    requires log.cleaned <= |log.history|
    ensures
      var b := LegacyBaseline(log, Some(writtenAt), timestamps);
      var oldest := if |log.history| - 100 > log.cleaned then |log.history| - 100 else log.cleaned;
      && oldest - 1 <= b < |log.history|
      && (forall v :: b < v < |log.history| ==> MadeAfter(timestamps, v, writtenAt))
      && (b == oldest - 1 || !MadeAfter(timestamps, b, writtenAt))
    ensures LegacyBaseline(log, None, timestamps) == |log.history| - 1
  {
    hide IsNewer, BaselineAmong, MadeAfter;
    var looked := NewestVersions(Versions(log));
    BaselineSplitsLog(timestamps, looked, writtenAt, |log.history| - 1);
    var b := LegacyBaseline(log, Some(writtenAt), timestamps);
    assert forall i :: 0 <= i < |looked| ==> looked[i] == |log.history| - |looked| + i;
    assert looked != [] ==> looked[0] == |log.history| - |looked|;
    if b in looked {
      var i :| 0 <= i < |looked| && looked[i] == b;
      assert b == |log.history| - |looked| + i;
    }
    forall v | b < v < |log.history| ensures MadeAfter(timestamps, v, writtenAt) {
      assert looked[v - (|log.history| - |looked|)] == v;
      MadeAfterIsNewer(timestamps, v, writtenAt);
    }
    MadeAfterIsNewer(timestamps, b, writtenAt);
  }

  // ---- The adapter ----------------------------------------------------------------------------

  datatype Result = Done | Superseded | NotDiscovered(missing: seq<string>) | Raised

  function MissingPaths(cache: map<string, FileInfo>, paths: seq<string>): seq<string> {
    if paths == [] then []
    else
      var n := |paths| - 1;
      MissingPaths(cache, paths[..n]) + (if paths[n] !in cache then [paths[n]] else [])
  }

  lemma {:induction false} NothingMissing(cache: map<string, FileInfo>, paths: seq<string>)
    ensures forall p :: p in MissingPaths(cache, paths) <==> p in paths && p !in cache
    ensures MissingPaths(cache, paths) == [] <==> forall p :: p in paths ==> p in cache
    ensures MissingPaths(cache, paths) == [] ==> |CachedInfos(cache, paths)| == |paths|
    ensures MissingPaths(cache, paths) == [] ==> UncachedPaths(cache, paths) == {}
  {
    if paths != [] {
      var n := |paths| - 1;
      NothingMissing(cache, paths[..n]);
      assert paths == paths[..n] + [paths[n]];
      if MissingPaths(cache, paths) == [] {
        assert forall p :: p in paths ==> p in cache;
      }
    }
  }

  /** `enrich_with_estimates`: every file with its byte estimate. */
  function Enriched(files: seq<FileInfo>, estimate: FileInfo -> nat): (r: seq<FileInfo>)
    ensures |r| == |files|
  {
    seq(|files|, i requires 0 <= i < |files| => files[i].(estimatedBytes := Some(estimate(files[i]))))
  }

  function NamesOf(files: seq<FileInfo>): (names: seq<string>)
    ensures |names| == |files|
  {
    seq(|files|, i requires 0 <= i < |files| => files[i].path)
  }

  /** What one discovery lists: the unprocessed files of every (root, pattern), oldest first, with their estimates. */
  function Discovered(
    listings: seq<seq<FileInfo>>, watermark: Option<Watermark>, cutoffs: seq<int>, estimate: FileInfo -> nat): seq<FileInfo>
    requires |listings| == |cutoffs|
  {
    Enriched(SortByTime(IncrementalLoop.FirstByPath(
      IncrementalLoop.UnionUnprocessed(listings, TimeOf(watermark), cutoffs))), estimate)
  }

  /** Every file of `files` is cached under its path, and no other path changed. */
  ghost predicate CachedAll(before: map<string, FileInfo>, cache: map<string, FileInfo>, files: seq<FileInfo>) {
    && cache.Keys == before.Keys + PathsOf(files)
    && (forall f :: f in files ==> f.path in cache && cache[f.path] == f)
    && (forall p :: p in before && p !in PathsOf(files) ==> cache[p] == before[p])
  }

  lemma CacheOneMore(before: map<string, FileInfo>, cache: map<string, FileInfo>, files: seq<FileInfo>, f: FileInfo)
    requires CachedAll(before, cache, files) && f.path !in PathsOf(files)
    ensures CachedAll(before, cache[f.path := f], files + [f])
  {
    IncrementalLoop.PathsSnoc(files, f);
  }

  lemma CachingStarts(before: map<string, FileInfo>, files: seq<FileInfo>)
    ensures CachedAll(before, before, files[..0])
  {}

  lemma NextPathIsNew(files: seq<FileInfo>, i: nat)
    requires DistinctPaths(files) && i < |files|
    ensures files[i].path !in PathsOf(files[..i])
  {}

  lemma CachingKeepsKeys(before: map<string, FileInfo>, cache: map<string, FileInfo>, files: seq<FileInfo>)
    requires KeyedByPath(before) && CachedAll(before, cache, files)
    ensures KeyedByPath(cache)
  {
    forall p | p in cache ensures cache[p].path == p {
      if p in PathsOf(files) {
        var f :| f in files && f.path == p;
      }
    }
  }

  /** A discovery lists each path once. */
  lemma DiscoveredDistinctPaths(
    listings: seq<seq<FileInfo>>, watermark: Option<Watermark>, cutoffs: seq<int>, estimate: FileInfo -> nat)
    requires |listings| == |cutoffs|
    ensures DistinctPaths(Discovered(listings, watermark, cutoffs, estimate))
  {
    hide IncrementalLoop.FirstByPath, IncrementalLoop.UnionUnprocessed, SortByTime;
    var united := IncrementalLoop.FirstByPath(IncrementalLoop.UnionUnprocessed(listings, TimeOf(watermark), cutoffs));
    IncrementalLoop.FirstByPathKeepsPaths(IncrementalLoop.UnionUnprocessed(listings, TimeOf(watermark), cutoffs));
    SortIsSorted(united);
    PermutationKeepsDistinctPaths(united, SortByTime(united));
  }

  /** The discovered files are the eligible ones of the listings with their estimates, each path once, in order of time. */
  lemma DiscoveredFilesAre(
    listings: seq<seq<FileInfo>>, watermark: Option<Watermark>, cutoffs: seq<int>, estimate: FileInfo -> nat)
    requires |listings| == |cutoffs|
    ensures
      var files := Discovered(listings, watermark, cutoffs, estimate);
      && Sorted(files) && DistinctPaths(files)
      && (forall f :: f in files ==> exists i, g ::
            && 0 <= i < |listings| && g in listings[i] && Eligible(g, TimeOf(watermark), cutoffs[i])
            && f == FileInfo(g.path, g.modificationTime, g.length, Some(estimate(g))))
      && (forall i, g ::
            0 <= i < |listings| && g in listings[i] && Eligible(g, TimeOf(watermark), cutoffs[i]) ==> g.path in PathsOf(files))
  {
    hide IncrementalLoop.FirstByPath, IncrementalLoop.UnionUnprocessed, SortByTime, Eligible;
    var united := IncrementalLoop.UnionUnprocessed(listings, TimeOf(watermark), cutoffs);
    var first := IncrementalLoop.FirstByPath(united);
    var sorted := SortByTime(first);
    var files := Discovered(listings, watermark, cutoffs, estimate);
    DiscoveredDistinctPaths(listings, watermark, cutoffs, estimate);
    IncrementalLoop.FirstByPathKeepsPaths(united);
    SortIsSorted(first);
    SortMembers(first);
    assert PathsOf(sorted) == PathsOf(files) by {
      assert forall i :: 0 <= i < |files| ==> files[i].path == sorted[i].path && sorted[i] in sorted && files[i] in files;
    }
    forall f | f in files ensures exists i, g ::
        && 0 <= i < |listings| && g in listings[i] && Eligible(g, TimeOf(watermark), cutoffs[i])
        && f == FileInfo(g.path, g.modificationTime, g.length, Some(estimate(g)))
    {
      var k :| 0 <= k < |files| && files[k] == f;
      var g := sorted[k];
      assert g in united;
      IncrementalLoop.UnionMembers(listings, TimeOf(watermark), cutoffs, g);
    }
    forall i, g | 0 <= i < |listings| && g in listings[i] && Eligible(g, TimeOf(watermark), cutoffs[i])
      ensures g.path in PathsOf(files)
    {
      IncrementalLoop.UnionNamesEligiblePaths(listings, TimeOf(watermark), cutoffs, g.path);
    }
  }

  /** The paths of a discovered batch lead back to its files: none is missing, and the lookup lists nothing. */
  lemma DiscoveredBatchIsLookedUp(
    before: map<string, FileInfo>, cache: map<string, FileInfo>, files: seq<FileInfo>, n: nat, listed: seq<FileInfo>)
    requires CachedAll(before, cache, files) && n <= |files|
    ensures MissingPaths(cache, NamesOf(files[..n])) == []
    ensures CachedInfos(cache, NamesOf(files[..n])) == files[..n]
    ensures FallbackInfos(listed, UncachedPaths(cache, NamesOf(files[..n]))) == []
  {
    hide CachedInfos, MissingPaths, FallbackInfos;
    var paths := NamesOf(files[..n]);
    forall p | p in paths ensures p in cache {
      var i :| 0 <= i < n && paths[i] == p;
      assert files[i] in files;
    }
    NothingMissing(cache, paths);
    CachedInOrder(cache, paths);
    forall i | 0 <= i < n ensures CachedInfos(cache, paths)[i] == files[i] {
      assert paths[i] == files[i].path && files[i] in files;
    }
    NoFallback(listed);
  }

  class ScopeAdapter {
    const self: TableOwner
    const manager: CheckpointManager
    var watermark: Option<Watermark>
    var pending: Option<PendingBatch>
    /** `_discovered_file_infos`. */
    var discovered: map<string, FileInfo>
    /** `_last_total_batches`. */
    var totalBatches: nat
    /** This table's entry of `_pending_batches`. */
    var begun: Option<PendingBatch>

    constructor (run: TableOwner)
      ensures self == run && fresh(manager)
      ensures Stored() == Checkpoint(None, None, map[]) && discovered == map[] && begun == None && totalBatches == 0
      ensures Valid()
    {
      self := run;
      manager := new CheckpointManager();
      watermark, pending, discovered, begun, totalBatches := None, None, map[], None, 0;
    }

    function Stored(): Checkpoint
      reads this, manager
    {
      Checkpoint(watermark, pending, manager.sources)
    }

    ghost predicate Valid()
      reads this
    {
      && ValidRecords(watermark, pending) && (begun.Some? ==> begun.value.deltaVersionBefore >= -1)
      && KeyedByPath(discovered)
    }

    /** `discover_files`: the paths of the next batch; every listed file is cached and the batches to come are counted. */
    method DiscoverFiles(
      listings: seq<seq<FileInfo>>, cutoffs: seq<int>, maxFiles: int, maxBytes: int, estimate: FileInfo -> nat)
      returns (paths: seq<string>)
      requires Valid() && |listings| == |cutoffs|
      modifies this`discovered, this`totalBatches
      ensures
        var files := Discovered(listings, watermark, cutoffs, estimate);
        && CachedAll(old(discovered), discovered, files)
        && totalBatches == NumBatches(files, maxFiles, maxBytes)
        && paths == NamesOf(NextBatch(files, maxFiles, maxBytes))
      ensures Valid()
    {
      hide IncrementalLoop.FirstByPath, IncrementalLoop.UnionUnprocessed, SortByTime, CachedAll, KeyedByPath, Enriched, NextBatch,
           NumBatches;
      var listed := IncrementalLoop.ListUnprocessed(listings, TimeOf(watermark), cutoffs);
      var files := Enriched(SortByTime(listed), estimate);
      DiscoveredDistinctPaths(listings, watermark, cutoffs, estimate);
      CachingStarts(discovered, files);
      for i := 0 to |files|
        invariant CachedAll(old(discovered), discovered, files[..i])
        invariant watermark == old(watermark) && pending == old(pending) && begun == old(begun)
      {
        NextPathIsNew(files, i);
        CacheOneMore(old(discovered), discovered, files[..i], files[i]);
        assert files[..i + 1] == files[..i] + [files[i]];
        discovered := discovered[files[i].path := files[i]];
      }
      assert files[..|files|] == files;
      CachingKeepsKeys(old(discovered), discovered, files);
      totalBatches := CountBatches(files, maxFiles, maxBytes);
      var batch := GetNextBatch(files, maxFiles, maxBytes);
      paths := NamesOf(batch);
    }

    /** `clear_file_discovery_cache`. */
    method ClearFileDiscoveryCache()
      requires Valid()
      modifies this`discovered
      ensures discovered == map[] && Valid()
    {
      discovered := map[];
    }

    /** `_record_batch`: the watermark, the batch's sources, then retention. */
    method RecordBatch(files: seq<FileInfo>, version: Option<int>, up: Upkeep) returns (raised: bool)
      requires Valid() && up.Valid()
      modifies this`watermark, manager
      ensures Stored() == AfterRecord(old(Stored()), files, version, up)
      ensures raised == !up.fault.NoFault?
      ensures up.fault == WatermarkFault(false) ==> Stored() == old(Stored())
      ensures up.fault.WatermarkFault? || up.fault == SourcesFault(false) ==> manager.sources == old(manager.sources)
      ensures up.fault.NoFault? || up.fault == SourcesFault(true) ==>
        var id := if old(watermark).Some? && files == [] then old(watermark).value.batchId
                  else if old(watermark).Some? then old(watermark).value.batchId + 1 else 0;
        var written := WrittenSources(old(manager.sources), Entries(files), id, up);
        manager.sources ==
          if up.fault.NoFault? then Cleaned(written, up.lister(written.Keys), up.maxFiles, up.failed) else written
      ensures Valid()
    {
      hide Written, Cleaned;
      var next := ComputeNewWatermark(files, watermark);
      if up.fault == WatermarkFault(false) {
        return true;
      }
      watermark := Some(next.(deltaVersion := version));
      if up.fault.WatermarkFault? || up.fault == SourcesFault(false) {
        return true;
      }
      var records := manager.WriteBatchSources(
        next.batchId, Entries(files), up.now, up.interval, up.lister(manager.sources.Keys), up.unreadable);
      assert records == Tag(Entries(files), next.batchId, up.now);
      if up.fault.SourcesFault? {
        return true;
      }
      var deleted := manager.CleanupSources(up.maxFiles, up.lister(manager.sources.Keys), up.failed);
      return false;
    }

    /** `begin_batch`: the pending record is written before the batch's job is submitted. */
    method BeginBatch(paths: seq<string>, token: nat, owner: OwnerFile, log: Log) returns (result: Result)
      requires Valid() && ValidLog(log)
      modifies this`pending, this`begun
      ensures result ==
        if MissingPaths(discovered, paths) != [] then NotDiscovered(MissingPaths(discovered, paths))
        else if !OwnsTable(owner, self) then Superseded
        else Done
      ensures result.Done? ==>
        var p := NewPending(token, CachedInfos(discovered, paths), watermark, |log.history| - 1);
        pending == Some(p) && begun == Some(p)
      ensures result.Done? ==>
        && pending.Some? && pending == begun && pending.value.token == token && pending.value.watermarkBefore == watermark
        && pending.value.deltaVersionBefore == |log.history| - 1 && |pending.value.files| == |paths|
        && forall i :: 0 <= i < |paths| ==>
             paths[i] in discovered && pending.value.files[i] == (paths[i], discovered[paths[i]].modificationTime)
      ensures !result.Done? ==> pending == old(pending) && begun == old(begun)
      ensures Valid()
    {
      hide KeyedByPath, Versions, MissingPaths, CachedInfos, Entries;
      var missing := FindMissing(paths);
      if missing != [] {
        return NotDiscovered(missing);
      }
      if !OwnsTable(owner, self) {
        return Superseded;
      }
      var entries := CollectEntries(paths);
      var versions, latest := LogVersions(log);
      var p := PendingBatch(token, if watermark.Some? then watermark.value.batchId + 1 else 0, entries, watermark, latest);
      pending := Some(p);
      begun := Some(p);
      return Done;
    }

    /** The paths that no discovery returned. */
    method FindMissing(paths: seq<string>) returns (missing: seq<string>)
      ensures missing == MissingPaths(discovered, paths)
    {
      missing := [];
      for i := 0 to |paths|
        invariant missing == MissingPaths(discovered, paths[..i])
      {
        assert paths[..i + 1][..i] == paths[..i];
        if paths[i] !in discovered {
          missing := missing + [paths[i]];
        }
      }
      assert paths[..|paths|] == paths;
    }

    /** The pairs to store for paths that are all cached. */
    method CollectEntries(paths: seq<string>) returns (entries: seq<(string, int)>)
      requires MissingPaths(discovered, paths) == [] && KeyedByPath(discovered)
      ensures entries == Entries(CachedInfos(discovered, paths))
      ensures |entries| == |paths|
      ensures forall i :: 0 <= i < |paths| ==>
        paths[i] in discovered && entries[i] == (paths[i], discovered[paths[i]].modificationTime)
    {
      NothingMissing(discovered, paths);
      CachedInOrder(discovered, paths);
      entries := [];
      for i := 0 to |paths|
        invariant entries == Entries(CachedInfos(discovered, paths[..i])) && |entries| == i
        invariant forall k :: 0 <= k < i ==> entries[k] == (paths[k], discovered[paths[k]].modificationTime)
      {
        assert paths[..i + 1][..i] == paths[..i];
        assert paths[i] in discovered;
        entries := entries + [(discovered[paths[i]].path, discovered[paths[i]].modificationTime)];
      }
      assert paths[..|paths|] == paths;
    }

    /** `_committed_delta_version`; `readable` is false when reading the log raises. */
    method CommittedDeltaVersion(log: Log, batch: Option<PendingBatch>, readable: bool) returns (version: Option<int>)
      requires ValidLog(log) && (batch.Some? ==> batch.value.deltaVersionBefore >= -1)
      ensures version == CommittedDelta(log, batch, readable)
    {
      hide FindTokenVersion, FindTokenAcross, Versions;
      if !readable {
        return None;
      }
      var versions, latest := LogVersions(log);
      if batch.Some? {
        SearchOfOneSnapshot(log, batch.value.token, batch.value.deltaVersionBefore);
        version := FindToken(log, log, log, batch.value.token, batch.value.deltaVersionBefore);
        if version.Some? {
          return version;
        }
      }
      return if latest >= 0 then Some(latest) else None;
    }

    method LookUpCached(paths: seq<string>) returns (processed: seq<FileInfo>, uncached: set<string>)
      ensures processed == CachedInfos(discovered, paths) && uncached == UncachedPaths(discovered, paths)
    {
      processed, uncached := [], {};
      for i := 0 to |paths|
        invariant processed == CachedInfos(discovered, paths[..i])
        invariant uncached == UncachedPaths(discovered, paths[..i])
      {
        assert paths[..i + 1][..i] == paths[..i];
        UncachedStep(discovered, paths[..i], paths[i]);
        assert paths[..i + 1] == paths[..i] + [paths[i]];
        if paths[i] in discovered {
          processed := processed + [discovered[paths[i]]];
        } else {
          uncached := uncached + {paths[i]};
        }
      }
      assert paths[..|paths|] == paths;
    }

    /** The lookup of `update_checkpoint`: the discovery cache first, one listing for paths not in it. */
    method LookUp(paths: seq<string>, listed: seq<FileInfo>) returns (processed: seq<FileInfo>)
      requires Valid()
      ensures processed == CachedInfos(discovered, paths) + FallbackInfos(listed, UncachedPaths(discovered, paths))
      ensures forall f :: f in processed <==> IsLookedUp(discovered, paths, listed, f)
    {
      hide CachedInfos, UncachedPaths, IsLookedUp;
      LookedUpFiles(discovered, paths, listed);
      var uncached;
      processed, uncached := LookUpCached(paths);
      if uncached == {} {
        NoFallback(listed);
        return;
      }
      var seen: set<string> := {};
      var found := [];
      for i := 0 to |listed|
        invariant found == FallbackInfos(listed[..i], uncached) && seen == PathsOf(found)
      {
        assert listed[..i + 1][..i] == listed[..i];
        if listed[i].path in uncached && listed[i].path !in seen {
          IncrementalLoop.PathsSnoc(found, listed[i]);
          seen := seen + {listed[i].path};
          found := found + [listed[i]];
        }
      }
      assert listed[..|listed|] == listed;
      processed := processed + found;
    }

    /** `update_checkpoint`. */
    method UpdateCheckpoint(
      paths: seq<string>, listed: seq<FileInfo>, owner: OwnerFile, log: Log, readable: bool, deletes: bool, up: Upkeep)
      returns (result: Result)
      requires Valid() && ValidLog(log) && up.Valid()
      modifies this`watermark, this`pending, this`begun, manager
      ensures Valid()
      ensures
        var files := CachedInfos(discovered, paths) + FallbackInfos(listed, UncachedPaths(discovered, paths));
        && result == (if !OwnsTable(owner, self) then Superseded else if files != [] && !up.fault.NoFault? then Raised else Done)
        && Stored() == (if result.Superseded? then old(Stored())
                        else AfterUpdate(old(Stored()), files, old(begun), log, readable, deletes, up))
        && begun == (if result.Superseded? || files == [] then old(begun) else None)
      ensures result.Done? ==>
        forall f :: IsLookedUp(discovered, paths, listed, f) ==>
          watermark.Some? && watermark.value.modifiedTime.Some? && f.modificationTime <= watermark.value.modifiedTime.value
      ensures result.Done? && watermark != old(watermark) ==>
        exists f :: IsLookedUp(discovered, paths, listed, f) && TimeOf(watermark) == Some(f.modificationTime)
    {
      hide CachedInfos, FallbackInfos, UncachedPaths, AfterRecord, CommittedDelta, IsLookedUp;
      if !OwnsTable(owner, self) {
        return Superseded;
      }
      var processed := LookUp(paths, listed);
      if processed == [] {
        return Done;
      }
      var batch := begun;
      begun := None;
      var version := CommittedDeltaVersion(log, batch, readable);
      NewWatermarkIsLatest(processed, watermark);
      var raised := RecordBatch(processed, version, up);
      if raised {
        return Raised;
      }
      RecordedIsAtNewTime(old(Stored()), processed, version, up);
      if batch.Some? && deletes {
        pending := None;
      }
      return Done;
    }

    /** `_resolve_pending`; `deletes` is false when deleting `pending.json` only warns. */
    method ResolvePending(log: Log, deletes: bool, up: Upkeep) returns (raised: bool)
      requires Valid() && ValidLog(log) && up.Valid()
      modifies this`watermark, this`pending, manager
      ensures Stored() == AfterResolve(old(Stored()), log, deletes, up)
      ensures raised == ResolveRaises(old(Stored()), log, up)
      ensures Valid()
    {
      hide AfterRecord, FindTokenVersion, FindTokenAcross;
      if pending.None? {
        return false;
      }
      var p := pending.value;
      if p.AppliesTo(watermark) {
        SearchOfOneSnapshot(log, p.token, p.deltaVersionBefore);
        var version := FindToken(log, log, log, p.token, p.deltaVersionBefore);
        if version.Some? {
          raised := RecordBatch(Recovered(p.files), version, up);
          if raised {
            return true;
          }
        }
      }
      if deletes {
        pending := None;
      }
      return false;
    }

    /** `_legacy_baseline`: commits newer than the watermark file are not covered by it. */
    method InferBaseline(log: Log, writtenAt: Option<int>, timestamps: seq<Option<int>>) returns (baseline: int)
      requires ValidLog(log) && |timestamps| == |log.history|
      ensures baseline == LegacyBaseline(log, writtenAt, timestamps)
    {
      hide IsNewer, Versions;
      var versions, latest := LogVersions(log);
      if writtenAt.None? {
        return latest;
      }
      baseline := latest;
      var looked := NewestVersions(versions);
      assert looked[..|looked|] == looked;
      var i := |looked|;
      while i > 0
        invariant 0 <= i <= |looked|
        invariant BaselineAmong(timestamps, looked, writtenAt.value, latest) ==
                  BaselineAmong(timestamps, looked[..i], writtenAt.value, baseline)
      {
        var version := looked[i - 1];
        assert looked[..i][..i - 1] == looked[..i - 1];
        if !IsNewer(timestamps, version, writtenAt.value) {
          break;
        }
        baseline := version - 1;
        i := i - 1;
      }
    }

    /**
     * `_adopt_unrecorded_commits`: the files of listed ScopeEngine commits after `baseline`, as far as they form
     * a prefix. It returns the watermark to go on with, which is the old one when recording raised.
     */
    method AdoptUnrecordedCommits(log: Log, baseline: int, u: Unrecorded, up: Upkeep) returns (held: Watermark)
      requires Valid() && ValidLog(log) && u.Valid(log) && up.Valid() && watermark.Some?
      modifies this`watermark, manager
      ensures Stored() == AfterAdopt(old(Stored()), log, baseline, u, up)
      ensures Valid() && watermark.Some?
      ensures Some(held) == if up.fault.NoFault? then watermark else old(watermark)
    {
      hide AfterRecord, NaiveMatches, IngestedPaths, AdoptablePrefix, ReadableCommits, Versions, VersionsAfter, UrisOf, AnyUnrecorded,
           IncrementalLoop.FirstByPath, IncrementalLoop.UnionUnprocessed, SortByTime;
      ghost var before := Stored();
      held := watermark.value;
      var versions, latest := LogVersions(log);
      var candidates := FilterVersions(versions, baseline);
      var commits := ReadCommits(log, candidates);
      var any, uris := CollectUris(commits);
      UrisAreIngestedPaths(log, baseline);
      if !any {
        NothingIngested(log, baseline);
        NoMatchNoPrefix(UnprocessedFiles(watermark, u));
        return;
      }
      if !u.hasColumn {
        return;
      }
      var listed := IncrementalLoop.ListUnprocessed(u.listings, TimeOf(watermark), u.cutoffs);
      var unprocessed := SortByTime(listed);
      var adopted := MatchSourceFiles(uris, unprocessed);
      var prefix := ComputeAdoptablePrefix(unprocessed, adopted);
      if prefix == [] {
        return;
      }
      RecordedHasWatermark(before, prefix, Some(latest), up);
      var raised := RecordBatch(prefix, Some(latest), up);
      if !raised {
        held := watermark.value;
      }
    }

    /** `reconcile_checkpoint`, once the claim has been decided. */
    method ReconcileCheckpoint(claimed: bool, log: Log, around: Surroundings) returns (result: Result)
      requires Valid() && ValidLog(log) && around.unrecorded.Valid(log) && around.resolving.Valid() && around.adopting.Valid()
      modifies this`watermark, this`pending, manager
      ensures
        result == if !claimed then Superseded else if ReconcileRaises(old(Stored()), log, around) then Raised else Done
      ensures Stored() == if claimed then AfterReconcile(old(Stored()), log, around) else old(Stored())
      ensures Valid()
    {
      hide AfterResolve, AfterRecord, ResolveRaises, PrefixToAdopt, LegacyBaseline, Versions;
      if !claimed {
        return Superseded;
      }
      if !around.readable {
        return Raised;
      }
      var versions, latest := LogVersions(log);
      var raised := ResolvePending(log, around.deletes, around.resolving);
      if raised {
        return Raised;
      }
      if watermark.None? || latest < 0 {
        return Done;
      }
      var held := watermark.value;
      var u := around.unrecorded;
      if u.readable {
        var baseline;
        if held.deltaVersion.Some? {
          baseline := held.deltaVersion.value;
        } else {
          baseline := InferBaseline(log, u.writtenAt, u.timestamps);
        }
        if baseline < latest {
          held := AdoptUnrecordedCommits(log, baseline, u, around.adopting);
        }
      }
      if held.deltaVersion != Some(latest) {
        if around.finalFault == Some(false) {
          return Raised;
        }
        watermark := Some(held.(deltaVersion := Some(latest)));
        if around.finalFault.Some? {
          return Raised;
        }
      }
      return Done;
    }
  }

  // ---- The commits an adoption looks at -------------------------------------------------------

  function VersionsAfter(versions: seq<int>, baseline: int): seq<int> {
    if versions == [] then []
    else
      var n := |versions| - 1;
      VersionsAfter(versions[..n], baseline) + (if versions[n] > baseline then [versions[n]] else [])
  }

  method FilterVersions(versions: seq<int>, baseline: int) returns (kept: seq<int>)
    ensures kept == VersionsAfter(versions, baseline)
  {
    kept := [];
    for i := 0 to |versions|
      invariant kept == VersionsAfter(versions[..i], baseline)
    {
      assert versions[..i + 1][..i] == versions[..i];
      if versions[i] > baseline {
        kept := kept + [versions[i]];
      }
    }
    assert versions[..|versions|] == versions;
  }

  predicate AddsScopeData(c: Commit) {
    c.scopeEngine && c.addsData
  }

  ghost predicate AnyUnrecorded(commits: seq<(int, Commit)>) {
    exists i :: 0 <= i < |commits| && AddsScopeData(commits[i].1)
  }

  /** The distinct source-file values of the data that the commits added. */
  function UrisOf(commits: seq<(int, Commit)>): set<string> {
    if commits == [] then {}
    else
      var n := |commits| - 1;
      UrisOf(commits[..n]) + (if AddsScopeData(commits[n].1) then PathsOf(commits[n].1.files) else {})
  }

  method CollectUris(commits: seq<(int, Commit)>) returns (any: bool, uris: set<string>)
    ensures any == AnyUnrecorded(commits) && uris == UrisOf(commits)
  {
    any, uris := false, {};
    for i := 0 to |commits|
      invariant any == AnyUnrecorded(commits[..i]) && uris == UrisOf(commits[..i])
    {
      assert commits[..i + 1][..i] == commits[..i];
      assert forall k :: 0 <= k < i ==> commits[..i + 1][k] == commits[..i][k];
      if AddsScopeData(commits[i].1) {
        assert AddsScopeData(commits[..i + 1][i].1);
        any := true;
        uris := uris + PathsOf(commits[i].1.files);
      }
    }
    assert commits[..|commits|] == commits;
  }

  lemma {:induction false} VersionsAfterMembers(versions: seq<int>, baseline: int)
    ensures forall v :: v in VersionsAfter(versions, baseline) <==> v in versions && v > baseline
  {
    if versions != [] {
      var n := |versions| - 1;
      VersionsAfterMembers(versions[..n], baseline);
      assert versions == versions[..n] + [versions[n]];
    }
  }

  lemma {:induction false} UrisMembers(commits: seq<(int, Commit)>, path: string)
    ensures path in UrisOf(commits) <==>
      exists i :: 0 <= i < |commits| && AddsScopeData(commits[i].1) && path in PathsOf(commits[i].1.files)
  {
    if commits != [] {
      var n := |commits| - 1;
      UrisMembers(commits[..n], path);
      if i :| 0 <= i < |commits| && AddsScopeData(commits[i].1) && path in PathsOf(commits[i].1.files) {
        if i < n {
          assert AddsScopeData(commits[..n][i].1) && path in PathsOf(commits[..n][i].1.files);
        }
      }
      if i :| 0 <= i < n && AddsScopeData(commits[..n][i].1) && path in PathsOf(commits[..n][i].1.files) {
        assert AddsScopeData(commits[i].1) && path in PathsOf(commits[i].1.files);
      }
    }
  }

  /** Reading the commits after the baseline yields the commits that are listed after it. */
  lemma CandidateCommits(log: Log, baseline: int)
    requires ValidLog(log)
    ensures
      var versions := VersionsAfter(Versions(log), baseline);
      var commits := ReadableCommits(log, versions);
      && |commits| == |versions|
      && (forall v :: v in versions <==> IsListed(log, v) && v > baseline)
      && forall i :: 0 <= i < |commits| ==> IsListed(log, versions[i]) && commits[i] == (versions[i], log.history[versions[i]])
  {
    hide ReadableCommits;
    VersionsAfterMembers(Versions(log), baseline);
    var versions := VersionsAfter(Versions(log), baseline);
    forall v ensures v in Versions(log) <==> IsListed(log, v) {
      if IsListed(log, v) {
        assert Versions(log)[v - log.cleaned] == v;
      }
    }
    ListedCommitsAreReadable(log, versions);
  }

  lemma UrisAreIngestedPaths(log: Log, baseline: int)
    requires ValidLog(log)
    ensures UrisOf(ReadableCommits(log, VersionsAfter(Versions(log), baseline))) == IngestedPaths(log, baseline)
  {
    hide ReadableCommits, VersionsAfter, Versions, UrisOf, ValidLog;
    CandidateCommits(log, baseline);
    var versions := VersionsAfter(Versions(log), baseline);
    var commits := ReadableCommits(log, versions);
    forall path ensures path in UrisOf(commits) <==> path in IngestedPaths(log, baseline) {
      UrisMembers(commits, path);
      if path in IngestedPaths(log, baseline) {
        var v, f :| baseline < v < |log.history| && IsListed(log, v) && log.history[v].scopeEngine && log.history[v].addsData
                    && f in log.history[v].files && f.path == path;
        var i :| 0 <= i < |versions| && versions[i] == v;
        assert AddsScopeData(commits[i].1) && path in PathsOf(commits[i].1.files);
      }
    }
  }

  lemma NothingIngested(log: Log, baseline: int)
    requires ValidLog(log)
    requires !AnyUnrecorded(ReadableCommits(log, VersionsAfter(Versions(log), baseline)))
    ensures IngestedPaths(log, baseline) == {}
  {
    hide ReadableCommits, VersionsAfter, Versions, UrisOf, ValidLog, IngestedPaths;
    var commits := ReadableCommits(log, VersionsAfter(Versions(log), baseline));
    UrisAreIngestedPaths(log, baseline);
    forall path ensures path !in UrisOf(commits) {
      UrisMembers(commits, path);
    }
  }

  lemma NoMatchNoPrefix(files: seq<FileInfo>)
    ensures AdoptablePrefix(files, NaiveMatches({}, files)) == []
  {}

  lemma UncachedStep(cache: map<string, FileInfo>, paths: seq<string>, path: string)
    ensures UncachedPaths(cache, paths + [path]) ==
            if path in cache then UncachedPaths(cache, paths) else UncachedPaths(cache, paths) + {path}
  {}

  lemma {:induction false} NoFallback(listed: seq<FileInfo>)
    ensures FallbackInfos(listed, {}) == []
  {
    if listed != [] {
      NoFallback(listed[..|listed| - 1]);
    }
  }
}
