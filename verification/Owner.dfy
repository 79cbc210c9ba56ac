/** `owner.json`: ranked runs, and the conditional-write loop of `claim_owner` under races. */
module Owner {
  import opened Files

  // ---- Rank -----------------------------------------------------------------------------------

  /** Python's `a < b` on strings. */
  predicate StringLess(a: string, b: string) {
    b != "" && (a == "" || a[0] < b[0] || (a[0] == b[0] && StringLess(a[1..], b[1..])))
  }

  lemma {:induction false} StringLessIsStrictTotal(a: string, b: string)
    ensures !(StringLess(a, b) && StringLess(b, a))
    ensures a == b <==> !StringLess(a, b) && !StringLess(b, a)
  {
    if a != "" && b != "" && a[0] == b[0] {
      StringLessIsStrictTotal(a[1..], b[1..]);
      assert a == [a[0]] + a[1..] && b == [b[0]] + b[1..];
    }
  }

  lemma {:induction false} StringLessTransitive(a: string, b: string, c: string)
    requires StringLess(a, b) && StringLess(b, c)
    ensures StringLess(a, c)
  {
    if a != "" && a[0] == b[0] == c[0] {
      StringLessTransitive(a[1..], b[1..], c[1..]);
    }
  }

  /** One string is less than another exactly when it is a proper prefix, or the first differing character is less. */
  lemma {:induction false} StringLessIff(a: string, b: string)
    ensures StringLess(a, b) <==>
      exists k :: 0 <= k <= |a| && k < |b| && a[..k] == b[..k] && (k == |a| || a[k] < b[k])
  {
    if StringLess(a, b) {
      var k := FirstDifference(a, b);
    }
    if k :| 0 <= k <= |a| && k < |b| && a[..k] == b[..k] && (k == |a| || a[k] < b[k]) {
      DifferenceDecides(a, b, k);
    }
  }

  lemma {:induction false} FirstDifference(a: string, b: string) returns (k: nat)
    requires StringLess(a, b)
    ensures k <= |a| && k < |b| && a[..k] == b[..k] && (k == |a| || a[k] < b[k])
  {
    if a == "" || a[0] < b[0] {
      k := 0;
    } else {
      var rest := FirstDifference(a[1..], b[1..]);
      k := rest + 1;
      assert a[..k] == [a[0]] + a[1..][..rest] && b[..k] == [b[0]] + b[1..][..rest];
    }
  }

  lemma {:induction false} DifferenceDecides(a: string, b: string, k: nat)
    requires k <= |a| && k < |b| && a[..k] == b[..k] && (k == |a| || a[k] < b[k])
    ensures StringLess(a, b)
    decreases k
  {
    if k > 0 {
      assert a[0] == a[..k][0] == b[..k][0] == b[0];
      assert a[1..][..k - 1] == a[..k][1..] == b[..k][1..] == b[1..][..k - 1];
      DifferenceDecides(a[1..], b[1..], k - 1);
    }
  }

  datatype TableOwner = TableOwner(startedAt: int, runId: string) {
    /** `(run_started_at, run_id)` compared as tuples. */
    predicate Outranks(other: TableOwner) {
      startedAt > other.startedAt || (startedAt == other.startedAt && StringLess(other.runId, runId))
    }

    predicate AtLeast(other: TableOwner) {
      this == other || Outranks(other)
    }
  }

  lemma OutranksIsStrictTotal(a: TableOwner, b: TableOwner)
    ensures !(a.Outranks(b) && b.Outranks(a))
    ensures a == b <==> !a.Outranks(b) && !b.Outranks(a)
    ensures a.startedAt > b.startedAt ==> a.Outranks(b)
    ensures a.startedAt == b.startedAt && StringLess(b.runId, a.runId) ==> a.Outranks(b)
  {
    StringLessIsStrictTotal(a.runId, b.runId);
  }

  lemma OutranksTransitive(a: TableOwner, b: TableOwner, c: TableOwner)
    requires a.AtLeast(b) && b.AtLeast(c)
    ensures a.AtLeast(c)
    ensures a.Outranks(b) || b.Outranks(c) ==> a.Outranks(c)
  {
    if a.Outranks(b) && b.Outranks(c) && a.startedAt == c.startedAt {
      StringLessTransitive(c.runId, b.runId, a.runId);
    }
  }

  // ---- The stored file and the claim loop -----------------------------------------------------

  datatype Content = Unreadable | Readable(owner: TableOwner)

  /** `owner.json` with its ETag; conditional writes compare ETags as in sections 13.1.1 and 13.1.2 of RFC 9110. */
  datatype OwnerFile = Absent | Stored(content: Content, etag: nat) {
    function ETag(): Option<nat> {
      if Absent? then None else Some(etag)
    }

    predicate NamesAtLeast(run: TableOwner) {
      Stored? && content.Readable? && content.owner.AtLeast(run)
    }
  }

  /** `ensure_table_owner`: passes while no owner is stored or the stored one is this run. */
  predicate OwnsTable(file: OwnerFile, r: TableOwner) {
    file.Absent? || file.content == Readable(r)
  }

  const OWNER_CLAIM_ATTEMPTS: nat := 5

  /** Where one `claim_owner` call is: about to read, about to write with the ETag it read, or finished. */
  datatype Claim =
    | Reading(failures: nat)
    | Writing(failures: nat, etag: Option<nat>)
    | Returned(owner: TableOwner)
    | GaveUp

  /** `written` is the history of successful writes, `nextEtag` the ETag of the next one. */
  datatype Claims = Claims(file: OwnerFile, nextEtag: nat, claims: map<TableOwner, Claim>, written: seq<TableOwner>)

  datatype Event = Start(run: TableOwner) | Read(run: TableOwner) | Write(run: TableOwner)

  predicate Enabled(s: Claims, e: Event) {
    match e
    case Start(run) => run !in s.claims
    case Read(run) => run in s.claims && s.claims[run].Reading?
    case Write(run) => run in s.claims && s.claims[run].Writing?
  }

  function Step(s: Claims, e: Event): Claims
    requires Enabled(s, e)
  {
    match e
    case Start(run) => s.(claims := s.claims[run := Reading(0)])
    case Read(run) =>
      if s.file.NamesAtLeast(run)
      then s.(claims := s.claims[run := Returned(s.file.content.owner)])
      else s.(claims := s.claims[run := Writing(s.claims[run].failures, s.file.ETag())])
    case Write(run) =>
      var failures := s.claims[run].failures + 1;
      if s.file.ETag() == s.claims[run].etag
      then Claims(Stored(Readable(run), s.nextEtag), s.nextEtag + 1, s.claims[run := Returned(run)], s.written + [run])
      else s.(claims := s.claims[run := if failures == OWNER_CLAIM_ATTEMPTS then GaveUp else Reading(failures)])
  }

  /** Before any claim the file may be absent, unreadable, or name an owner. */
  ghost predicate Initial(s: Claims) {
    && s.claims == map[] && s.written == []
    && (s.file.Stored? ==> s.file.etag < s.nextEtag)
  }

  ghost predicate Reaches(s: Claims, events: seq<Event>, t: Claims) {
    if events == [] then s == t
    else
      var n := |events| - 1;
      exists u :: Reaches(s, events[..n], u) && Enabled(u, events[n]) && Step(u, events[n]) == t
  }

  // ---- What every interleaving keeps ----------------------------------------------------------

  /** Each write raised the rank, the file holds the last one, and only finished claimants wrote. */
  ghost predicate WritesRise(init: Claims, s: Claims) {
    && (forall i, j :: 0 <= i < j < |s.written| ==> s.written[j].Outranks(s.written[i]))
    && (forall i :: 0 <= i < |s.written| && init.file.Stored? && init.file.content.Readable? ==>
          s.written[i].Outranks(init.file.content.owner))
    && (if s.written == [] then s.file == init.file && s.nextEtag == init.nextEtag
        else s.nextEtag == init.nextEtag + |s.written|
             && s.file == Stored(Readable(s.written[|s.written| - 1]), s.nextEtag - 1))
    && (forall run :: run in s.written ==> run in s.claims && s.claims[run] == Returned(run))
  }

  /** How many writes had happened when a claimant read this ETag. */
  function WritesSeen(init: Claims, etag: Option<nat>): int {
    if etag.Some? && etag.value >= init.nextEtag then etag.value - init.nextEtag + 1 else 0
  }

  ghost predicate ClaimOk(init: Claims, s: Claims, run: TableOwner, claim: Claim) {
    match claim
    case Reading(failures) => failures < OWNER_CLAIM_ATTEMPTS && failures <= |s.written|
    case Writing(failures, etag) =>
      && failures < OWNER_CLAIM_ATTEMPTS && failures <= WritesSeen(init, etag) <= |s.written|
      && (etag == s.file.ETag() ==> !s.file.NamesAtLeast(run))
      && (WritesSeen(init, etag) == 0 ==> etag == init.file.ETag())
    case Returned(owner) =>
      && owner.AtLeast(run) && s.file.NamesAtLeast(owner)
      && (owner in s.written || (init.file.Stored? && init.file.content == Readable(owner)))
    case GaveUp => |s.written| >= OWNER_CLAIM_ATTEMPTS
  }

  ghost predicate Invariant(init: Claims, s: Claims) {
    && Initial(init)
    && WritesRise(init, s)
    && forall run :: run in s.claims ==> ClaimOk(init, s, run, s.claims[run])
  }

  /** A successful conditional write puts a higher-ranked run in place of the one it read. */
  lemma WriteRaisesRank(init: Claims, s: Claims, run: TableOwner)
    requires Invariant(init, s) && Enabled(s, Write(run)) && s.file.ETag() == s.claims[run].etag
    ensures s.file.Stored? && s.file.content.Readable? ==> run.Outranks(s.file.content.owner)
    ensures run !in s.written
    ensures forall i :: 0 <= i < |s.written| ==> run.Outranks(s.written[i])
    ensures init.file.Stored? && init.file.content.Readable? ==> run.Outranks(init.file.content.owner)
  {
    assert ClaimOk(init, s, run, s.claims[run]);
    if s.file.Stored? && s.file.content.Readable? {
      OutranksIsStrictTotal(run, s.file.content.owner);
    }
    if s.written != [] {
      var last := s.written[|s.written| - 1];
      forall i | 0 <= i < |s.written| ensures run.Outranks(s.written[i]) {
        OutranksTransitive(run, last, s.written[i]);
      }
      if init.file.Stored? && init.file.content.Readable? {
        OutranksTransitive(run, last, init.file.content.owner);
      }
    }
  }

  /** Starting or reading changes neither the file nor the writes. */
  lemma QuietStepKeepsInvariant(init: Claims, s: Claims, run: TableOwner, claim: Claim)
    requires Invariant(init, s) && !claim.Returned? && !claim.GaveUp?
    requires run in s.claims ==> s.claims[run].Reading? || s.claims[run].Writing?
    requires ClaimOk(init, s, run, claim)
    ensures Invariant(init, s.(claims := s.claims[run := claim]))
  {
    var t := s.(claims := s.claims[run := claim]);
    forall r | r in t.claims ensures ClaimOk(init, t, r, t.claims[r]) {
      if r != run { assert ClaimOk(init, s, r, s.claims[r]); }
    }
    assert WritesRise(init, t);
  }

  lemma FinishKeepsInvariant(init: Claims, s: Claims, run: TableOwner, claim: Claim)
    requires Invariant(init, s) && run in s.claims && !s.claims[run].Returned?
    requires ClaimOk(init, s, run, claim)
    ensures Invariant(init, s.(claims := s.claims[run := claim]))
  {
    var t := s.(claims := s.claims[run := claim]);
    forall r | r in t.claims ensures ClaimOk(init, t, r, t.claims[r]) {
      if r != run { assert ClaimOk(init, s, r, s.claims[r]); }
    }
    assert WritesRise(init, t);
  }

  lemma OtherClaimSurvivesWrite(init: Claims, s: Claims, run: TableOwner, r: TableOwner)
    requires Invariant(init, s) && Enabled(s, Write(run)) && s.file.ETag() == s.claims[run].etag
    requires r in s.claims && r != run
    ensures ClaimOk(init, Step(s, Write(run)), r, s.claims[r])
  {
    assert ClaimOk(init, s, r, s.claims[r]);
    assert WritesRise(init, s);
    if s.claims[r].Returned? {
      WriteRaisesRank(init, s, run);
      OutranksTransitive(run, s.file.content.owner, s.claims[r].owner);
    }
  }

  lemma WriteKeepsInvariant(init: Claims, s: Claims, run: TableOwner)
    requires Invariant(init, s) && Enabled(s, Write(run)) && s.file.ETag() == s.claims[run].etag
    ensures Invariant(init, Step(s, Write(run)))
  {
    hide ClaimOk;
    var t := Step(s, Write(run));
    WriteRaisesRank(init, s, run);
    assert WritesRise(init, t);
    forall r | r in t.claims ensures ClaimOk(init, t, r, t.claims[r]) {
      if r == run {
        JustWritten(init, t, run);
      } else {
        OtherClaimSurvivesWrite(init, s, run, r);
      }
    }
  }

  lemma JustWritten(init: Claims, t: Claims, run: TableOwner)
    requires t.file.Stored? && t.file.content == Readable(run) && run in t.written
    ensures ClaimOk(init, t, run, Returned(run))
  {}

  lemma StepKeepsInvariant(init: Claims, s: Claims, e: Event)
    requires Invariant(init, s) && Enabled(s, e)
    ensures Invariant(init, Step(s, e))
  {
    match e
    case Start(run) =>
      QuietStepKeepsInvariant(init, s, run, Reading(0));
    case Read(run) =>
      assert ClaimOk(init, s, run, s.claims[run]);
      if s.file.NamesAtLeast(run) {
        FinishKeepsInvariant(init, s, run, Returned(s.file.content.owner));
      } else {
        ReadIsOk(init, s, run);
        QuietStepKeepsInvariant(init, s, run, Writing(s.claims[run].failures, s.file.ETag()));
      }
    case Write(run) =>
      if s.file.ETag() == s.claims[run].etag {
        WriteKeepsInvariant(init, s, run);
      } else {
        assert ClaimOk(init, s, run, s.claims[run]);
        FailedWriteCounts(init, s, run);
        var failures := s.claims[run].failures + 1;
        FinishKeepsInvariant(init, s, run, if failures == OWNER_CLAIM_ATTEMPTS then GaveUp else Reading(failures));
      }
  }

  lemma ReadIsOk(init: Claims, s: Claims, run: TableOwner)
    requires Invariant(init, s) && Enabled(s, Read(run)) && !s.file.NamesAtLeast(run)
    ensures ClaimOk(init, s, run, Writing(s.claims[run].failures, s.file.ETag()))
  {
    assert ClaimOk(init, s, run, s.claims[run]);
    assert WritesRise(init, s);
  }

  /** A conditional write fails only if another run wrote since the read. */
  lemma FailedWriteCounts(init: Claims, s: Claims, run: TableOwner)
    requires Invariant(init, s) && Enabled(s, Write(run)) && s.file.ETag() != s.claims[run].etag
    ensures s.claims[run].failures + 1 <= |s.written|
  {
    assert ClaimOk(init, s, run, s.claims[run]);
    assert WritesRise(init, s);
  }

  lemma {:induction false} EveryInterleavingKeepsInvariant(init: Claims, events: seq<Event>, s: Claims)
    requires Initial(init) && Reaches(init, events, s)
    ensures Invariant(init, s)
    decreases |events|
  {
    if events != [] {
      var n := |events| - 1;
      var u :| Reaches(init, events[..n], u) && Enabled(u, events[n]) && Step(u, events[n]) == s;
      EveryInterleavingKeepsInvariant(init, events[..n], u);
      StepKeepsInvariant(init, u, events[n]);
    }
  }

  // ---- Consequences ---------------------------------------------------------------------------

  lemma {:induction false} IncreasingWritesAreDistinct(written: seq<TableOwner>, runs: set<TableOwner>)
    requires forall i, j :: 0 <= i < j < |written| ==> written[j].Outranks(written[i])
    requires forall run :: run in written ==> run in runs
    ensures |written| <= |runs|
  {
    if written != [] {
      var n := |written| - 1;
      var last := written[n];
      forall run | run in written[..n] ensures run in runs - {last} {
        var i :| 0 <= i < n && written[i] == run;
        OutranksIsStrictTotal(last, run);
      }
      IncreasingWritesAreDistinct(written[..n], runs - {last});
    }
  }

  /** Two runs claiming at once cannot both win: every write strictly raises the rank, so each run writes at most once. */
  lemma EachWriteOutranksEarlierOnes(init: Claims, events: seq<Event>, s: Claims, i: nat, j: nat)
    requires Initial(init) && Reaches(init, events, s)
    requires i < j < |s.written|
    ensures s.written[j].Outranks(s.written[i]) && s.written[i] != s.written[j]
    ensures init.file.Stored? && init.file.content.Readable? ==> s.written[i].Outranks(init.file.content.owner)
    ensures
      || s.written[i].startedAt < s.written[j].startedAt
      || (s.written[i].startedAt == s.written[j].startedAt && StringLess(s.written[i].runId, s.written[j].runId))
    ensures init.file.Stored? && init.file.content.Readable? ==> init.file.content.owner.startedAt <= s.written[i].startedAt
  {
    EveryInterleavingKeepsInvariant(init, events, s);
    OutranksIsStrictTotal(s.written[j], s.written[i]);
  }

  /** The run a claim returns is the claimant or outranks it, and the file never again names a lower one. */
  lemma ReturnedOwnerIsAtLeastClaimant(init: Claims, events: seq<Event>, s: Claims, run: TableOwner)
    requires Initial(init) && Reaches(init, events, s)
    requires run in s.claims && s.claims[run].Returned?
    ensures s.claims[run].owner.AtLeast(run)
    ensures s.file.NamesAtLeast(s.claims[run].owner) && s.file.NamesAtLeast(run)
    ensures
      var owner := s.claims[run].owner;
      && owner.startedAt >= run.startedAt
      && (owner.startedAt == run.startedAt ==> owner.runId == run.runId || StringLess(run.runId, owner.runId))
      && s.file.content.owner.startedAt >= owner.startedAt
  {
    EveryInterleavingKeepsInvariant(init, events, s);
    assert ClaimOk(init, s, run, s.claims[run]);
    OutranksTransitive(s.file.content.owner, s.claims[run].owner, run);
  }

  /** A winner passes the owner check exactly while no run that started later, or then has a greater id, has written. */
  lemma WinnerOwnsTableIff(init: Claims, events: seq<Event>, s: Claims, run: TableOwner)
    requires Initial(init) && Reaches(init, events, s)
    requires run in s.claims && s.claims[run] == Returned(run)
    ensures OwnsTable(s.file, run) <==>
      forall w :: w in s.written ==>
        w.startedAt < run.startedAt || (w.startedAt == run.startedAt && !StringLess(run.runId, w.runId))
  {
    EveryInterleavingKeepsInvariant(init, events, s);
    assert ClaimOk(init, s, run, s.claims[run]);
    if s.written != [] {
      var last := s.written[|s.written| - 1];
      OutranksIsStrictTotal(last, run);
      forall w | w in s.written && last == run
        ensures w.startedAt < run.startedAt || (w.startedAt == run.startedAt && !StringLess(run.runId, w.runId))
      {
        OutranksIsStrictTotal(last, w);
      }
    }
  }

  /** Once every claim has returned, the owner is the highest-ranked run seen. */
  lemma FinalOwnerIsHighest(init: Claims, events: seq<Event>, s: Claims)
    requires Initial(init) && Reaches(init, events, s)
    requires s.claims != map[] && forall run :: run in s.claims ==> s.claims[run].Returned?
    ensures s.file.Stored? && s.file.content.Readable?
    ensures forall run :: run in s.claims ==> s.file.content.owner.AtLeast(run)
    ensures
      || s.file.content.owner in s.claims
      || (init.file.Stored? && init.file.content == Readable(s.file.content.owner))
    ensures init.file.Stored? && init.file.content.Readable? ==> s.file.content.owner.AtLeast(init.file.content.owner)
    ensures forall run :: run in s.claims ==> s.file.content.owner.startedAt >= run.startedAt
    ensures init.file.Stored? && init.file.content.Readable? ==>
      s.file.content.owner.startedAt >= init.file.content.owner.startedAt
  {
    EveryInterleavingKeepsInvariant(init, events, s);
    forall run | run in s.claims ensures s.file.NamesAtLeast(run) {
      ReturnedOwnerIsAtLeastClaimant(init, events, s, run);
    }
    var some :| some in s.claims;
    assert s.file.NamesAtLeast(some);
    if s.written != [] {
      assert s.written[|s.written| - 1] in s.written;
    }
  }

  /** A claim that goes on has failed at most four times, and one that gave up saw five other writes. */
  lemma FiveAttempts(init: Claims, events: seq<Event>, s: Claims, run: TableOwner)
    requires Initial(init) && Reaches(init, events, s) && run in s.claims
    ensures s.claims[run].Reading? || s.claims[run].Writing? ==> s.claims[run].failures <= 4
    ensures s.claims[run].GaveUp? ==> |s.written| >= 5 && run !in s.written
    ensures s.claims[run].Writing? && s.file.ETag() != s.claims[run].etag ==>
      Step(s, Write(run)).claims[run] ==
        if s.claims[run].failures == 4 then GaveUp else Reading(s.claims[run].failures + 1)
  {
    EveryInterleavingKeepsInvariant(init, events, s);
    assert ClaimOk(init, s, run, s.claims[run]);
  }

  /**
   * A claim that nothing disturbs: it returns the stored owner if that is the claimant or started later - or at
   * the same time with a greater id - and takes the table otherwise, also from an absent or unreadable file.
   */
  lemma UndisturbedClaim(s: Claims, run: TableOwner)
    requires run !in s.claims
    ensures Enabled(s, Start(run)) && Enabled(Step(s, Start(run)), Read(run))
    ensures
      var read := Step(Step(s, Start(run)), Read(run));
      if s.file.Stored? && s.file.content.Readable? &&
         (var o := s.file.content.owner;
          o.startedAt > run.startedAt || (o.startedAt == run.startedAt && !StringLess(o.runId, run.runId)))
      then read.claims[run] == Returned(s.file.content.owner) && read.file == s.file
      else
        && Enabled(read, Write(run))
        && (var won := Step(read, Write(run));
            && won.claims[run] == Returned(run) && won.file == Stored(Readable(run), s.nextEtag)
            && won.written == s.written + [run] && OwnsTable(won.file, run))
  {
    if s.file.Stored? && s.file.content.Readable? {
      StringLessIsStrictTotal(s.file.content.owner.runId, run.runId);
    }
  }

  /** With fewer than five other claimants, nobody runs out of attempts. */
  lemma FewClaimantsNeverGiveUp(init: Claims, events: seq<Event>, s: Claims, run: TableOwner)
    requires Initial(init) && Reaches(init, events, s)
    requires run in s.claims && |s.claims.Keys - {run}| < 5
    ensures !s.claims[run].GaveUp?
  {
    EveryInterleavingKeepsInvariant(init, events, s);
    assert ClaimOk(init, s, run, s.claims[run]);
    if s.claims[run].GaveUp? {
      assert run !in s.written;
      IncreasingWritesAreDistinct(s.written, s.claims.Keys - {run});
    }
  }
}
