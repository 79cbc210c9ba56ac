/** The Delta log as the adapter reads it, and the search for the commit that carries a batch token. */
module DeltaLog {
  import opened Files

  /**
   * One commit. `metadata` is the batch-token entry of the table configuration when the commit has a
   * metaData action; `parameterToken` the token its operation parameters name. `batch` is the token
   * of the job that wrote it and `files` the source files that job ingested.
   */
  datatype Commit = Commit(
    metadata: Option<Option<nat>>,
    parameterToken: Option<nat>,
    scopeEngine: bool,
    addsData: bool,
    batch: Option<nat>,
    files: seq<FileInfo>)
  {
    /** `carries_property` for the batch-token key. */
    predicate Carries(token: nat) {
      metadata == Some(Some(token)) || parameterToken == Some(token)
    }
  }

  /** Every commit ever made, by version. JSON files remain from version `cleaned` on. */
  datatype Log = Log(history: seq<Commit>, cleaned: nat, checkpoints: seq<int>)

  /** Python's `max([default, *values])`. */
  function MaxOf(values: seq<int>, default: int): int {
    if values == [] then default
    else
      var n := |values| - 1;
      var rest := MaxOf(values[..n], default);
      if values[n] > rest then values[n] else rest
  }

  lemma {:induction false} MaxOfIsMaximum(values: seq<int>, default: int)
    ensures MaxOf(values, default) >= default
    ensures forall v :: v in values ==> v <= MaxOf(values, default)
    ensures MaxOf(values, default) == default || MaxOf(values, default) in values
  {
    if values != [] {
      var n := |values| - 1;
      MaxOfIsMaximum(values[..n], default);
      assert values == values[..n] + [values[n]];
    }
  }

  function LatestCheckpoint(log: Log): int { MaxOf(log.checkpoints, -1) }

  /** Log cleanup removes only commits that a checkpoint covers. */
  ghost predicate ValidLog(log: Log) {
    && log.cleaned <= |log.history|
    && (forall v :: v in log.checkpoints ==> 0 <= v < |log.history|)
    && log.cleaned <= LatestCheckpoint(log) + 1
  }

  /** The versions whose JSON commit is listed, ascending. */
  function Versions(log: Log): (versions: seq<int>)
    ensures |versions| == if log.cleaned <= |log.history| then |log.history| - log.cleaned else 0
    ensures forall i :: 0 <= i < |versions| ==> versions[i] == log.cleaned + i
  {
    if log.cleaned <= |log.history|
    then seq(|log.history| - log.cleaned, i => log.cleaned + i)
    else []
  }

  /** `log_versions`: the listed commits, and the latest version among commits and checkpoints. */
  method LogVersions(log: Log) returns (versions: seq<int>, latest: int)
    requires ValidLog(log)
    ensures versions == Versions(log)
    ensures latest == |log.history| - 1
  {
    versions := Versions(log);
    latest := MaxOf(versions + log.checkpoints, -1);
    MaxOfIsMaximum(versions + log.checkpoints, -1);
    MaxOfIsMaximum(log.checkpoints, -1);
    if log.cleaned < |log.history| {
      assert versions[|versions| - 1] in versions + log.checkpoints;
    } else if log.history != [] {
      assert LatestCheckpoint(log) in versions + log.checkpoints;
    }
    forall v | v in versions + log.checkpoints ensures v < |log.history| {}
  }

  predicate IsListed(log: Log, version: int) {
    log.cleaned <= version < |log.history|
  }

  function ReadableCommits(log: Log, versions: seq<int>): seq<(int, Commit)> {
    if versions == [] then []
    else
      var n := |versions| - 1;
      ReadableCommits(log, versions[..n]) +
      (if IsListed(log, versions[n]) then [(versions[n], log.history[versions[n]])] else [])
  }

  /** `read_commits` over ascending versions, skipping commits that no longer exist. */
  method ReadCommits(log: Log, versions: seq<int>) returns (commits: seq<(int, Commit)>)
    ensures commits == ReadableCommits(log, versions)
  {
    commits := [];
    for k := 0 to |versions|
      invariant commits == ReadableCommits(log, versions[..k])
    {
      assert versions[..k + 1][..k] == versions[..k];
      if IsListed(log, versions[k]) {
        commits := commits + [(versions[k], log.history[versions[k]])];
      }
    }
    assert versions[..|versions|] == versions;
  }

  lemma {:induction false} ListedCommitsAreReadable(log: Log, versions: seq<int>)
    requires forall v :: v in versions ==> IsListed(log, v)
    ensures |ReadableCommits(log, versions)| == |versions|
    ensures forall i :: 0 <= i < |versions| ==>
      IsListed(log, versions[i]) && ReadableCommits(log, versions)[i] == (versions[i], log.history[versions[i]])
  {
    if versions != [] {
      ListedCommitsAreReadable(log, versions[..|versions| - 1]);
    }
  }

  // ---- `latest_metadata_commit` ---------------------------------------------------------------

  /** The table configuration's token entry after the first `n` commits; `None` without metadata. */
  function TableConfiguration(history: seq<Commit>, n: nat): Option<Option<nat>>
    requires n <= |history|
  {
    if n == 0 then None
    else if history[n - 1].metadata.Some? then history[n - 1].metadata
    else TableConfiguration(history, n - 1)
  }

  const MAX_METADATA_COMMITS := 100

  /** The newest metadata among commits `low..high`, if any. */
  function NewestMetadata(history: seq<Commit>, low: nat, high: nat): Option<Option<nat>>
    requires low <= high <= |history|
    decreases high
  {
    if low == high then None
    else if history[high - 1].metadata.Some? then history[high - 1].metadata
    else NewestMetadata(history, low, high - 1)
  }

  /** The oldest commit `latest_metadata_commit` reads before it falls back to the checkpoint. */
  function ScanStart(log: Log): (start: nat)
    ensures start <= |log.history|
  {
    var newest := |log.history| - MAX_METADATA_COMMITS;
    var afterCheckpoint := LatestCheckpoint(log) + 1;
    var start := if newest > log.cleaned then newest else log.cleaned;
    var low := if afterCheckpoint > start then afterCheckpoint else start;
    if low > |log.history| then |log.history| else low
  }

  function LatestMetadata(log: Log): Option<Option<nat>> {
    var scanned := NewestMetadata(log.history, ScanStart(log), |log.history|);
    var checkpoint := LatestCheckpoint(log);
    if scanned.Some? then scanned
    else if 0 <= checkpoint < |log.history| then TableConfiguration(log.history, checkpoint + 1)
    else None
  }

  /** The reverse scan over the newest 100 listed commits, then the checkpoint's own metadata. */
  method LatestMetadataCommit(log: Log) returns (configuration: Option<Option<nat>>)
    requires ValidLog(log)
    ensures configuration == LatestMetadata(log)
  {
    var versions := Versions(log);
    var checkpointVersion := MaxOf(log.checkpoints, -1);
    MaxOfIsMaximum(log.checkpoints, -1);
    var newest := if |versions| > MAX_METADATA_COMMITS then versions[|versions| - MAX_METADATA_COMMITS..] else versions;
    var i := |newest|;
    while i > 0
      invariant 0 <= i <= |newest|
      invariant ScanStart(log) <= |log.history| - (|newest| - i)
      invariant NewestMetadata(log.history, ScanStart(log), |log.history|) ==
                NewestMetadata(log.history, ScanStart(log), |log.history| - (|newest| - i))
    {
      var version := newest[i - 1];
      assert version == |log.history| - (|newest| - i) - 1;
      if version <= checkpointVersion {
        break;
      }
      if log.history[version].metadata.Some? {
        return log.history[version].metadata;
      }
      i := i - 1;
    }
    assert ScanStart(log) == |log.history| - (|newest| - i);
    if checkpointVersion < 0 {
      return None;
    }
    configuration := TableConfiguration(log.history, checkpointVersion + 1);
  }

  lemma {:induction false} NewestOrOlder(history: seq<Commit>, low: nat, high: nat)
    requires low <= high <= |history|
    ensures TableConfiguration(history, high) ==
            if NewestMetadata(history, low, high).Some? then NewestMetadata(history, low, high)
            else TableConfiguration(history, low)
    decreases high
  {
    if low < high {
      NewestOrOlder(history, low, high - 1);
    }
  }

  /**
   * The reader returns the table's newest metadata iff the commits between the checkpoint and the
   * newest 100 hide nothing: they set no metadata, or newer metadata was read, or it says the same.
   */
  lemma LatestMetadataIsTableConfigurationIff(log: Log)
    requires ValidLog(log)
    ensures
      var afterCheckpoint := LatestCheckpoint(log) + 1;
      && 0 <= afterCheckpoint <= ScanStart(log)
      && (var skipped := NewestMetadata(log.history, afterCheckpoint, ScanStart(log));
          LatestMetadata(log) == TableConfiguration(log.history, |log.history|) <==>
          || skipped == None
          || NewestMetadata(log.history, ScanStart(log), |log.history|).Some?
          || skipped == TableConfiguration(log.history, afterCheckpoint))
  {
    MaxOfIsMaximum(log.checkpoints, -1);
    NewestOrOlder(log.history, ScanStart(log), |log.history|);
    NewestOrOlder(log.history, LatestCheckpoint(log) + 1, ScanStart(log));
  }

  lemma {:induction false} ConfigurationHasSource(history: seq<Commit>, n: nat) returns (v: nat)
    requires n <= |history| && TableConfiguration(history, n).Some?
    ensures v < n && history[v].metadata == TableConfiguration(history, n)
    ensures forall i :: v < i < n ==> history[i].metadata == None
  {
    if history[n - 1].metadata.Some? {
      v := n - 1;
    } else {
      v := ConfigurationHasSource(history, n - 1);
    }
  }

  /** The configuration is that of the newest commit with metadata. */
  lemma {:induction false} ConfigurationIsNewest(history: seq<Commit>, n: nat, v: nat)
    requires v < n <= |history| && history[v].metadata.Some?
    requires forall i :: v < i < n ==> history[i].metadata == None
    ensures TableConfiguration(history, n) == history[v].metadata
  {
    if v < n - 1 {
      ConfigurationIsNewest(history, n - 1, v);
    }
  }

  /** Without any metadata there is none. */
  lemma {:induction false} NoConfiguration(history: seq<Commit>, n: nat)
    requires n <= |history| && forall i :: 0 <= i < n ==> history[i].metadata == None
    ensures TableConfiguration(history, n) == None
  {
    if n > 0 {
      NoConfiguration(history, n - 1);
    }
  }

  lemma {:induction false} NewestMetadataIs(history: seq<Commit>, low: nat, high: nat, v: nat)
    requires low <= v < high <= |history| && history[v].metadata.Some?
    requires forall i :: v < i < high ==> history[i].metadata == None
    ensures NewestMetadata(history, low, high) == history[v].metadata
    decreases high
  {
    if v < high - 1 {
      NewestMetadataIs(history, low, high - 1, v);
    }
  }

  /**
   * What `latest_metadata_commit` reads: the newest metadata among the newest 100 listed commits that follow the
   * checkpoint, and the checkpoint's configuration, if there is one, when none of those has metadata.
   */
  lemma LatestMetadataIs(log: Log, v: int)
    requires ValidLog(log)
    ensures
      && 0 <= v < |log.history| && v >= |log.history| - 100 && v >= log.cleaned && v > LatestCheckpoint(log)
      && log.history[v].metadata.Some? && (forall i :: v < i < |log.history| ==> log.history[i].metadata == None) ==>
        LatestMetadata(log) == log.history[v].metadata
    ensures
      (forall i :: 0 <= i < |log.history| && i >= |log.history| - 100 && i >= log.cleaned && i > LatestCheckpoint(log) ==>
         log.history[i].metadata == None) ==>
        if log.checkpoints == [] then LatestMetadata(log) == None
        else
          && 0 <= LatestCheckpoint(log) < |log.history|
          && LatestMetadata(log) == TableConfiguration(log.history, LatestCheckpoint(log) + 1)
  {
    hide NewestMetadata, TableConfiguration;
    MaxOfIsMaximum(log.checkpoints, -1);
    var low := ScanStart(log);
    if 0 <= v < |log.history| && v >= low && log.history[v].metadata.Some?
       && (forall i :: v < i < |log.history| ==> log.history[i].metadata == None) {
      NewestMetadataIs(log.history, low, |log.history|, v);
    }
    if forall i :: low <= i < |log.history| ==> log.history[i].metadata == None {
      QuietTail(log.history, low, |log.history|);
    }
    if log.checkpoints != [] {
      assert log.checkpoints[0] in log.checkpoints && log.checkpoints[0] >= 0;
      assert LatestCheckpoint(log) in log.checkpoints;
    }
  }

  /** Whatever the scan returns is the metadata of some commit. */
  lemma LatestMetadataHasSource(log: Log) returns (v: nat)
    requires LatestMetadata(log).Some?
    ensures v < |log.history| && log.history[v].metadata == LatestMetadata(log)
  {
    var low := ScanStart(log);
    if NewestMetadata(log.history, low, |log.history|).Some? {
      NewestOrOlder(log.history, low, |log.history|);
      v := ConfigurationHasSource(log.history, |log.history|);
    } else {
      v := ConfigurationHasSource(log.history, LatestCheckpoint(log) + 1);
    }
  }

  // ---- `_find_token_version` ------------------------------------------------------------------

  /** The first of the listed commits from version `from` on that carries the token. */
  function FirstCarrying(history: seq<Commit>, from: nat, token: nat): Option<int>
    decreases |history| - from
  {
    if from >= |history| then None
    else if history[from].Carries(token) then Some(from)
    else FirstCarrying(history, from + 1, token)
  }

  function FirstCandidate(log: Log, after: int): (v: nat)
  {
    if after + 1 > log.cleaned then after + 1 else log.cleaned
  }

  /** The version reported for a batch: its listed commit, else the latest if the configuration still names it. */
  function FindTokenVersion(log: Log, token: nat, after: int): Option<int> {
    var listed := FirstCarrying(log.history, FirstCandidate(log, after), token);
    var latest := |log.history| - 1;
    if listed.Some? then listed
    else if latest > after && log.cleaned > after + 1 && LatestMetadata(log) == Some(Some(token)) then Some(latest)
    else None
  }

  lemma {:induction false} FirstCarryingIs(history: seq<Commit>, from: nat, token: nat)
    ensures
      var v := FirstCarrying(history, from, token);
      && (v.Some? ==> from <= v.value < |history| && history[v.value].Carries(token)
                      && forall i :: from <= i < v.value ==> !history[i].Carries(token))
      && (v.None? ==> forall i :: from <= i < |history| ==> !history[i].Carries(token))
    decreases |history| - from
  {
    if from < |history| && !history[from].Carries(token) {
      FirstCarryingIs(history, from + 1, token);
    }
  }

  /** The commit names the token: as the value its metadata sets, or among its operation parameters. */
  ghost predicate NamesToken(c: Commit, token: nat) {
    c.metadata == Some(Some(token)) || c.parameterToken == Some(token)
  }

  /**
   * What the search finds on one snapshot: the first listed commit after the recorded version that names the token;
   * with none, the latest version - and that only if commits after the recorded one were cleaned up and the newest
   * metadata that can still be read names the token.
   */
  lemma SearchFinds(log: Log, token: nat, after: int)
    requires ValidLog(log) && after >= -1
    ensures
      var found := FindTokenVersion(log, token, after);
      if exists v :: IsListed(log, v) && v > after && NamesToken(log.history[v], token) then
        && found.Some? && IsListed(log, found.value) && found.value > after && NamesToken(log.history[found.value], token)
        && forall v :: IsListed(log, v) && after < v < found.value ==> !NamesToken(log.history[v], token)
      else
        found == if after + 1 < log.cleaned && |log.history| - 1 > after && LatestMetadata(log) == Some(Some(token))
                 then Some(|log.history| - 1) else None
  {
    hide LatestMetadata;
    var first := FirstCandidate(log, after);
    FirstCarryingIs(log.history, first, token);
    assert forall c: Commit :: c.Carries(token) <==> NamesToken(c, token);
  }

  /** `later` is `earlier` after more commits, checkpoints and cleanup. */
  ghost predicate Follows(earlier: Log, later: Log) {
    earlier.history <= later.history && earlier.cleaned <= later.cleaned
  }

  /**
   * `_find_token_version` with its three looks at the log: the listing it is given, the commits it then
   * reads, and the new listing that `latest_metadata_commit` makes.
   */
  function FindTokenAcross(listed: Log, read: Log, relisted: Log, token: nat, after: int): Option<int> {
    var first := FirstCandidate(listed, after);
    var found := FirstCarrying(listed.history, if read.cleaned > first then read.cleaned else first, token);
    var latest := |listed.history| - 1;
    if found.Some? then found
    else if latest > after && listed.cleaned > after + 1 && LatestMetadata(relisted) == Some(Some(token)) then Some(latest)
    else None
  }

  /** On one snapshot the three looks are one. */
  lemma SearchOfOneSnapshot(log: Log, token: nat, after: int)
    ensures FindTokenAcross(log, log, log, token, after) == FindTokenVersion(log, token, after)
  {}

  /** The listed versions after `after`. */
  function Candidates(log: Log, after: int): (candidates: seq<int>)
    requires after >= -1
    ensures forall i :: 0 <= i < |candidates| ==> candidates[i] == FirstCandidate(log, after) + i
    ensures candidates != [] ==> FirstCandidate(log, after) + |candidates| == |log.history|
    ensures candidates == [] ==> FirstCandidate(log, after) >= |log.history|
  {
    var first := FirstCandidate(log, after);
    if first < |log.history| then seq(|log.history| - first, i => first + i) else []
  }

  /** Of consecutive versions, exactly those not cleaned up are read. */
  lemma {:induction false} ReadableOfConsecutive(log: Log, versions: seq<int>, low: nat)
    requires forall i :: 0 <= i < |versions| ==> versions[i] == low + i
    requires versions != [] ==> low + |versions| <= |log.history|
    ensures
      var first := if log.cleaned > low then log.cleaned else low;
      var commits := ReadableCommits(log, versions);
      && |commits| == (if first < low + |versions| then low + |versions| - first else 0)
      && forall i :: 0 <= i < |commits| ==> first + i < |log.history| && commits[i] == (first + i, log.history[first + i])
  {
    if versions != [] {
      var n := |versions| - 1;
      assert forall i :: 0 <= i < n ==> versions[..n][i] == versions[i];
      ReadableOfConsecutive(log, versions[..n], low);
    }
  }

  /** `_find_token_version`, while other writers commit and clean up the log. */
  method FindToken(listed: Log, read: Log, relisted: Log, token: nat, after: int) returns (version: Option<int>)
    requires ValidLog(listed) && ValidLog(relisted) && after >= -1
    requires Follows(listed, read) && Follows(read, relisted)
    ensures version == FindTokenAcross(listed, read, relisted, token, after)
  {
    hide LatestMetadata, Versions, ReadableCommits;
    var versions, latest := LogVersions(listed);
    var candidates := Candidates(listed, after);
    var commits := ReadCommits(read, candidates);
    var low := FirstCandidate(listed, after);
    ReadableOfConsecutive(read, candidates, low);
    ghost var first := if read.cleaned > low then read.cleaned else low;
    for i := 0 to |commits|
      invariant FirstCarrying(listed.history, first, token) == FirstCarrying(listed.history, first + i, token)
    {
      assert commits[i] == (first + i, listed.history[first + i]);
      if commits[i].1.Carries(token) {
        return Some(commits[i].0);
      }
    }
    if latest > after && (candidates == [] || candidates[0] > after + 1) {
      var configuration := LatestMetadataCommit(relisted);
      if configuration == Some(Some(token)) {
        return Some(latest);
      }
    }
    return None;
  }

  /** The commit that names a token sets metadata, and later metadata keep naming it. */
  ghost predicate TokenKept(history: seq<Commit>, token: nat) {
    forall i, j :: 0 <= i <= j < |history| && history[i].Carries(token) ==>
      && history[i].metadata.Some?
      && (history[j].metadata.Some? ==> history[j].metadata == Some(Some(token)))
  }

  ghost predicate CarriedAfter(history: seq<Commit>, token: nat, after: int) {
    exists v :: after < v < |history| && v >= 0 && history[v].Carries(token)
  }

  /** No false positive: a version is only found for a token some commit carries. */
  lemma FoundTokenWasCommitted(log: Log, token: nat, after: int)
    requires FindTokenVersion(log, token, after).Some?
    ensures exists v :: 0 <= v < |log.history| && log.history[v].Carries(token)
  {
    FirstCarryingIs(log.history, FirstCandidate(log, after), token);
    if FirstCarrying(log.history, FirstCandidate(log, after), token).None? {
      var v := LatestMetadataHasSource(log);
      assert log.history[v].Carries(token);
    }
  }

  /**
   * The search is exact under log cleanup: it finds a version iff a commit after the recorded one
   * carries the token, and that version lies between the true commit and the latest version,
   * being the true commit itself while its JSON file remains.
   */
  lemma TokenSearchIsExact(log: Log, token: nat, after: int)
    requires ValidLog(log) && after >= -1
    requires TokenKept(log.history, token)
    requires forall v :: 0 <= v <= after && v < |log.history| ==> !log.history[v].Carries(token)
    ensures FindTokenVersion(log, token, after).Some? <==> CarriedAfter(log.history, token, after)
    ensures
      var committed := FirstCarrying(log.history, 0, token);
      FindTokenVersion(log, token, after).Some? ==>
        && committed.Some?
        && committed.value <= FindTokenVersion(log, token, after).value < |log.history|
        && (log.cleaned <= committed.value ==> FindTokenVersion(log, token, after) == committed)
  {
    hide LatestMetadata;
    var first := FirstCandidate(log, after);
    FirstCarryingIs(log.history, first, token);
    FirstCarryingIs(log.history, 0, token);
    if CarriedAfter(log.history, token, after) {
      var c := FirstCarrying(log.history, 0, token).value;
      if FirstCarrying(log.history, first, token).None? {
        assert log.cleaned > c;
        CheckpointedTokenIsRead(log, c, token);
      }
    } else {
      if FindTokenVersion(log, token, after).Some? {
        FoundTokenWasCommitted(log, token, after);
      }
    }
  }

  lemma {:induction false} ConfigurationNames(history: seq<Commit>, c: nat, n: nat, token: nat)
    requires c < n <= |history| && history[c].Carries(token) && TokenKept(history, token)
    ensures TableConfiguration(history, n) == Some(Some(token))
    decreases n
  {
    if history[n - 1].metadata.None? {
      assert c < n - 1;
      ConfigurationNames(history, c, n - 1, token);
    }
  }

  /** A token whose commit a checkpoint covers is in the configuration read. */
  lemma CheckpointedTokenIsRead(log: Log, c: nat, token: nat)
    requires ValidLog(log) && c < log.cleaned && log.history[c].Carries(token) && TokenKept(log.history, token)
    ensures LatestMetadata(log) == Some(Some(token))
  {
    MaxOfIsMaximum(log.checkpoints, -1);
    ConfigurationNames(log.history, c, LatestCheckpoint(log) + 1, token);
    if NewestMetadata(log.history, ScanStart(log), |log.history|).Some? {
      NewestOrOlder(log.history, ScanStart(log), |log.history|);
      ConfigurationNames(log.history, c, |log.history|, token);
    }
  }

  /**
   * The listing reaches back to the recorded version, so no fallback is made, and cleanup removed every
   * commit that carries the token between the listing and the reading.
   */
  ghost predicate CleanedAway(listed: Log, read: Log, token: nat, after: int) {
    && listed.cleaned <= after + 1
    && forall v :: read.cleaned <= v < |listed.history| && after < v ==> !listed.history[v].Carries(token)
  }

  /**
   * With commits and cleanup between the three looks, a version is only found for a committed token, and a
   * token committed by the time of the listing is found exactly unless its commits were cleaned away in
   * between; the version found then lies between the true commit and the latest one listed.
   */
  lemma SearchAcrossCleanupIff(listed: Log, read: Log, relisted: Log, token: nat, after: int)
    requires ValidLog(listed) && ValidLog(relisted) && after >= -1
    requires Follows(listed, read) && Follows(read, relisted)
    requires TokenKept(relisted.history, token)
    requires forall v :: 0 <= v <= after && v < |relisted.history| ==> !relisted.history[v].Carries(token)
    ensures FindTokenAcross(listed, read, relisted, token, after).Some? ==> CarriedAfter(relisted.history, token, after)
    ensures CarriedAfter(listed.history, token, after) ==>
      && (FindTokenAcross(listed, read, relisted, token, after).Some? <==> !CleanedAway(listed, read, token, after))
      && (FindTokenAcross(listed, read, relisted, token, after).Some? ==>
            exists c :: after < c <= FindTokenAcross(listed, read, relisted, token, after).value < |listed.history|
                        && c >= 0 && listed.history[c].Carries(token))
  {
    hide LatestMetadata;
    var low := FirstCandidate(listed, after);
    var first := if read.cleaned > low then read.cleaned else low;
    FirstCarryingIs(listed.history, first, token);
    var found := FindTokenAcross(listed, read, relisted, token, after);
    if found.Some? && FirstCarrying(listed.history, first, token).None? {
      var v := LatestMetadataHasSource(relisted);
      assert relisted.history[v].Carries(token);
    }
    if CarriedAfter(listed.history, token, after) {
      var c :| after < c < |listed.history| && c >= 0 && listed.history[c].Carries(token);
      assert relisted.history[c].Carries(token);
      if FirstCarrying(listed.history, first, token).None? && listed.cleaned > after + 1 {
        assert c < first;
        CheckpointedTokenIsRead(relisted, c, token);
      }
    }
  }

  /** A batch that committed and is not found, because its commit was cleaned up after it was listed. */
  lemma CommitCleanedAwayIsMissed()
    ensures
      var plain := Commit(None, None, false, false, None, []);
      var batch := Commit(Some(Some(7)), None, true, true, Some(7), []);
      var listed, read := Log([plain, batch], 0, []), Log([plain, batch], 2, [1]);
      && ValidLog(listed) && ValidLog(read) && Follows(listed, read) && TokenKept(read.history, 7)
      && CarriedAfter(listed.history, 7, 0) && FindTokenAcross(listed, read, read, 7, 0) == None
  {
    var plain := Commit(None, None, false, false, None, []);
    var batch := Commit(Some(Some(7)), None, true, true, Some(7), []);
    var listed := Log([plain, batch], 0, []);
    assert [1][..0] == [];
    assert listed.history[1].Carries(7);
    FirstCarryingIs(listed.history, 2, 7);
  }

  /** With more than 100 commits after the checkpoint the reader can return outdated metadata. */
  lemma OutdatedMetadata()
    ensures
      var plain := Commit(None, None, false, false, None, []);
      var before := Commit(Some(None), None, false, false, None, []);
      var batch := Commit(Some(Some(7)), None, true, true, Some(7), []);
      var log := Log([before, batch] + seq(100, i => plain), 0, [0]);
      ValidLog(log) && LatestMetadata(log) != TableConfiguration(log.history, |log.history|)
  {
    var plain := Commit(None, None, false, false, None, []);
    var before := Commit(Some(None), None, false, false, None, []);
    var batch := Commit(Some(Some(7)), None, true, true, Some(7), []);
    var log := Log([before, batch] + seq(100, i => plain), 0, [0]);
    assert [0][..0] == [];
    QuietTail(log.history, 2, 102);
    LatestMetadataIsTableConfigurationIff(log);
  }

  lemma {:induction false} QuietTail(history: seq<Commit>, low: nat, high: nat)
    requires low <= high <= |history|
    requires forall i :: low <= i < high ==> history[i].metadata == None
    ensures NewestMetadata(history, low, high) == None
    decreases high
  {
    if low < high {
      QuietTail(history, low, high - 1);
    }
  }
}
