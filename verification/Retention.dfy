/** When retention keeps the full history: the order `cleanup_sources` deletes in, and the exact bound. */
module Retention {
  import opened Owner
  import opened Sources
  import opened SourceHistory

  // ---- Zero-padded keys order ids numerically --------------------------------------------------

  function Pow10(w: nat): nat {
    if w == 0 then 1 else 10 * Pow10(w - 1)
  }

  /** The last `w` decimal digits of `n`. */
  function Fixed(n: nat, w: nat): (text: string)
    ensures |text| == w
  {
    if w == 0 then "" else Fixed(n / 10, w - 1) + [Digit(n % 10)]
  }

  lemma {:induction false} FixedOfZero(w: nat)
    ensures Fixed(0, w) == Zeros(w)
  {
    if w > 0 {
      FixedOfZero(w - 1);
    }
  }

  lemma {:induction false} PaddedDecimal(n: nat, w: nat)
    requires w > 0 && n < Pow10(w)
    ensures |Decimal(n)| <= w && Zeros(w - |Decimal(n)|) + Decimal(n) == Fixed(n, w)
  {
    if n < 10 {
      FixedOfZero(w - 1);
    } else {
      PaddedDecimal(n / 10, w - 1);
    }
  }

  lemma {:induction false} StringLessSnoc(p: string, q: string, x: char, y: char)
    requires |p| == |q|
    ensures StringLess(p + [x], q + [y]) <==> StringLess(p, q) || (p == q && x < y)
  {
    if p != "" {
      StringLessSnoc(p[1..], q[1..], x, y);
      assert (p + [x])[1..] == p[1..] + [x] && (q + [y])[1..] == q[1..] + [y];
      assert p == [p[0]] + p[1..] && q == [q[0]] + q[1..];
    }
  }

  lemma {:induction false} FixedOrder(a: nat, b: nat, w: nat)
    requires a < Pow10(w) && b < Pow10(w)
    ensures StringLess(Fixed(a, w), Fixed(b, w)) <==> a < b
    decreases w
  {
    if w > 0 {
      FixedOrder(a / 10, b / 10, w - 1);
      FixedOrder(b / 10, a / 10, w - 1);
      StringLessIsStrictTotal(Fixed(a / 10, w - 1), Fixed(b / 10, w - 1));
      StringLessSnoc(Fixed(a / 10, w - 1), Fixed(b / 10, w - 1), Digit(a % 10), Digit(b % 10));
    }
  }

  const ID_LIMIT: nat := Pow10(20)

  /** Up to twenty digits, diffs sort by batch id. */
  lemma DiffKeysOrderById(a: nat, b: nat)
    requires a < ID_LIMIT && b < ID_LIMIT
    ensures KeyLess(SortKey(Diff(a)), SortKey(Diff(b))) <==> a < b
  {
    hide Pow10, Fixed, Decimal, StringLess;
    PaddedDecimal(a, 20);
    PaddedDecimal(b, 20);
    assert Zeros(0) == "";
    assert Padded(a) == Fixed(a, 20) && Padded(b) == Fixed(b, 20);
    FixedOrder(a, b, 20);
  }

  lemma DiffsSortFirst(diff: nat, snapshot: nat)
    ensures KeyLess(SortKey(Diff(diff)), SortKey(Snapshot(snapshot)))
  {}

  // ---- The deletion order ----------------------------------------------------------------------

  ghost predicate KeySorted(names: seq<SourceName>) {
    forall i, j :: 0 <= i < j < |names| ==> !KeyLess(SortKey(names[j]), SortKey(names[i]))
  }

  lemma KeyOrder(a: (int, string), b: (int, string), c: (int, string))
    ensures !(KeyLess(a, b) && KeyLess(b, a))
    ensures !KeyLess(a, b) && !KeyLess(b, c) ==> !KeyLess(a, c)
  {
    StringLessIsStrictTotal(a.1, b.1);
    StringLessIsStrictTotal(b.1, c.1);
    StringLessIsStrictTotal(a.1, c.1);
    if StringLess(b.1, a.1) && StringLess(c.1, b.1) {
      StringLessTransitive(c.1, b.1, a.1);
    }
  }

  lemma {:induction false} InsertKeepsKeySorted(name: SourceName, sorted: seq<SourceName>)
    requires KeySorted(sorted)
    ensures KeySorted(InsertByKey(name, sorted))
  {
    hide KeyLess, SortKey;
    if sorted == [] {
    } else if !KeyLess(SortKey(sorted[0]), SortKey(name)) {
      forall j | 0 <= j < |sorted| ensures !KeyLess(SortKey(sorted[j]), SortKey(name)) {
        if j > 0 { KeyOrder(SortKey(sorted[j]), SortKey(sorted[0]), SortKey(name)); }
      }
    } else {
      InsertKeepsKeySorted(name, sorted[1..]);
      var rest := InsertByKey(name, sorted[1..]);
      forall x | x in rest ensures !KeyLess(SortKey(x), SortKey(sorted[0])) {
        assert x in multiset(rest);
        if x == name { KeyOrder(SortKey(sorted[0]), SortKey(name), SortKey(name)); }
        else { assert x in sorted[1..]; }
      }
    }
  }

  lemma {:induction false} SortByKeyIsSorted(names: seq<SourceName>)
    ensures KeySorted(SortByKey(names))
  {
    if names != [] {
      SortByKeyIsSorted(names[1..]);
      InsertKeepsKeySorted(names[0], SortByKey(names[1..]));
    }
  }

  /** Reading a decimal text. */
  function Read(text: string): nat {
    if text == "" then 0
    else
      var last := text[|text| - 1];
      10 * Read(text[..|text| - 1]) + if '0' <= last <= '9' then last as nat - '0' as nat else 0
  }

  /** The text of a number is its decimal text. */
  lemma {:induction false} DecimalReads(n: nat)
    ensures Read(Decimal(n)) == n
  {
    if n < 10 {
      assert [Digit(n)][..0] == "";
    } else {
      DecimalReads(n / 10);
      assert Decimal(n)[..|Decimal(n)| - 1] == Decimal(n / 10);
    }
  }

  /** The order of deletion: diffs by id before everything else, and the rest by name as text. */
  ghost predicate GoesFirst(x: SourceName, y: SourceName) {
    match x
    case Diff(a) => !y.Diff? || a < y.id
    case Snapshot(a) =>
      || (y.Snapshot? && StringLess(Decimal(a) + ".parquet", Decimal(y.id) + ".parquet"))
      || (y.Other? && StringLess(Decimal(a) + ".parquet", y.name))
    case Other(text) =>
      || (y.Snapshot? && StringLess(text, Decimal(y.id) + ".parquet"))
      || (y.Other? && StringLess(text, y.name))
  }

  lemma KeysGoFirst(x: SourceName, y: SourceName)
    requires x.Diff? ==> x.id < ID_LIMIT
    requires y.Diff? ==> y.id < ID_LIMIT
    ensures KeyLess(SortKey(x), SortKey(y)) <==> GoesFirst(x, y)
  {
    hide Padded, Decimal, StringLess;
    if x.Diff? && y.Diff? {
      DiffKeysOrderById(x.id, y.id);
    }
  }

  /** When every delete succeeds, the limit of files stays, and no file that stays goes before one that went. */
  lemma LastFilesStay(dir: Directory, listing: seq<SourceName>, maxFiles: nat, gone: SourceName, kept: SourceName)
    requires Lists(listing, dir) && forall name :: name in dir && name.Diff? ==> name.id < ID_LIMIT
    ensures
      var rest := Cleaned(dir, listing, maxFiles, {});
      && |rest| == (if |dir| <= maxFiles then |dir| else maxFiles)
      && rest.Keys <= dir.Keys && (forall name :: name in rest ==> rest[name] == dir[name])
      && (gone in dir && gone !in rest && kept in rest ==> !GoesFirst(kept, gone))
  {
    hide SortByKey, KeySorted, GoesFirst, DeleteAll;
    var sorted := SortByKey(listing);
    SortKeepsListing(listing, dir);
    SortByKeyIsSorted(listing);
    ListingSize(sorted, dir);
    var oldest := Oldest(listing, maxFiles);
    DeletesExactly(dir, oldest, {});
    var rest := Cleaned(dir, listing, maxFiles, {});
    if |sorted| > maxFiles {
      var n := |sorted| - maxFiles;
      SuffixStays(dir, sorted, n, rest);
      if gone in dir && gone !in rest && kept in rest {
        var i :| 0 <= i < |sorted| && sorted[i] == gone;
        var j :| 0 <= j < |sorted| && sorted[j] == kept;
        assert i < n <= j;
        KeysOfSorted(sorted, i, j);
        KeysGoFirst(kept, gone);
      }
    } else {
      assert rest == dir;
    }
  }

  lemma KeysOfSorted(sorted: seq<SourceName>, i: nat, j: nat)
    requires KeySorted(sorted) && i < j < |sorted|
    ensures !KeyLess(SortKey(sorted[j]), SortKey(sorted[i]))
  {}

  lemma SuffixStays(dir: Directory, sorted: seq<SourceName>, n: nat, rest: Directory)
    requires Lists(sorted, dir) && n <= |sorted|
    requires forall name :: name in rest <==> name in dir && name !in sorted[..n]
    ensures |rest| == |sorted| - n
    ensures forall i :: 0 <= i < |sorted| ==> (sorted[i] in rest <==> n <= i)
  {
    forall i | 0 <= i < |sorted| ensures sorted[i] in rest <==> n <= i {
      if i < n {
        assert sorted[..n][i] == sorted[i];
      }
    }
    assert Lists(sorted[n..], rest) by {
      forall name ensures name in sorted[n..] <==> name in rest {
        if name in sorted[n..] {
          var i :| 0 <= i < |sorted[n..]| && sorted[n..][i] == name;
          assert sorted[n + i] == name;
        }
        if name in rest {
          var i :| 0 <= i < |sorted| && sorted[i] == name;
          assert sorted[n..][i - n] == name;
        }
      }
    }
    ListingSize(sorted[n..], rest);
  }

  /** The names of `low` all precede every other name, so they are what gets deleted first. */
  ghost predicate Precede(low: set<SourceName>, names: seq<SourceName>) {
    forall a, b :: a in low && b in names && b !in low ==> KeyLess(SortKey(a), SortKey(b))
  }

  lemma LowComeFirst(sorted: seq<SourceName>, dir: Directory, low: set<SourceName>)
    requires Lists(sorted, dir) && KeySorted(sorted) && low <= dir.Keys && Precede(low, sorted)
    ensures |low| <= |sorted|
    ensures forall k :: 0 <= k < |sorted| ==> (sorted[k] in low <==> k < |low|)
  {
    hide KeyLess, SortKey;
    ListingSize(sorted, dir);
    SubsetSize(low, dir.Keys);
    forall i, j | 0 <= i < |sorted| && 0 <= j < |sorted| && sorted[i] in low && sorted[j] !in low ensures i < j {
      KeyOrder(SortKey(sorted[i]), SortKey(sorted[j]), SortKey(sorted[i]));
    }
    var k := 0;
    while k < |sorted| && sorted[k] in low
      invariant k <= |sorted|
      invariant forall i :: 0 <= i < k ==> sorted[i] in low
    {
      k := k + 1;
    }
    var names := sorted[..k];
    forall name ensures name in names <==> name in low {
      if name in low {
        var i :| 0 <= i < |sorted| && sorted[i] == name;
        assert i < k;
        assert names[i] == name;
      }
    }
    NamesSize(names, low);
  }

  // ---- A fixed interval and limit --------------------------------------------------------------

  /** Consecutive batches under one interval and one retention limit. */
  ghost predicate Uniform(steps: seq<BatchStep>, c: Interval, limit: nat) {
    forall i :: 0 <= i < |steps| ==> steps[i].id == i && steps[i].interval == c && steps[i].maxFiles == limit
  }

  /** The latest snapshot after batch `b`, or -1. */
  function LastSnapshot(b: nat, c: Interval): (id: int)
    ensures id >= -1
  {
    if b < c then -1 else b - b % c
  }

  /** The files that must stay after batch `b`: every snapshot, as diffs are deleted before them, and the newest diffs. */
  function Load(b: nat, c: Interval): int {
    b / c + (if b < c then b + 1 else b % c)
  }

  function SnapshotsTo(m: nat, c: Interval): set<SourceName> {
    if m == 0 then {} else SnapshotsTo(m - 1, c) + {Snapshot(c * m)}
  }

  function DiffsUpTo(low: int, b: nat): set<SourceName>
    requires -1 <= low
    decreases b
  {
    if b <= low then {}
    else (if b == 0 then {} else DiffsUpTo(low, b - 1)) + {Diff(b)}
  }

  lemma {:induction false} SnapshotsToAre(m: nat, c: Interval)
    ensures |SnapshotsTo(m, c)| == m
    ensures forall name :: name in SnapshotsTo(m, c) ==> name.Snapshot? && name.id <= c * m
    ensures m > 0 ==> Snapshot(c * m) in SnapshotsTo(m, c)
  {
    if m > 0 {
      SnapshotsToAre(m - 1, c);
      assert c * m == c * (m - 1) + c;
    }
  }

  lemma {:induction false} DiffsUpToAre(low: int, b: nat)
    requires -1 <= low
    ensures forall name :: name in DiffsUpTo(low, b) <==> name.Diff? && low < name.id <= b
    ensures |DiffsUpTo(low, b)| == if b > low then b - low else 0
    decreases b
  {
    if 0 < b && low < b {
      DiffsUpToAre(low, b - 1);
    }
  }

  function Protected(b: nat, c: Interval): set<SourceName> {
    QuotientFacts(b, c);
    SnapshotsTo(b / c, c) + DiffsUpTo(LastSnapshot(b, c), b)
  }

  lemma QuotientFacts(b: nat, c: Interval)
    ensures b / c >= 0 && 0 <= b % c < c && b == c * (b / c) + b % c
    ensures b < c ==> b / c == 0
    ensures b >= c ==> b / c >= 1
  {
    if b < c {
      assert b / c == 0;
    }
  }

  lemma ProtectedSize(b: nat, c: Interval)
    ensures |Protected(b, c)| == Load(b, c)
  {
    QuotientFacts(b, c);
    SnapshotsToAre(b / c, c);
    DiffsUpToAre(LastSnapshot(b, c), b);
    var snapshots, diffs := SnapshotsTo(b / c, c), DiffsUpTo(LastSnapshot(b, c), b);
    assert snapshots !! diffs;
  }

  lemma NextQuotient(b: nat, c: Interval)
    requires b > 0
    ensures b % c == 0 ==> b / c == (b - 1) / c + 1 && (b - 1) % c == c - 1
    ensures b % c != 0 ==> b / c == (b - 1) / c && (b - 1) % c == b % c - 1
  {
    var q, r := (b - 1) / c, (b - 1) % c;
    assert b == c * q + (r + 1);
    if r + 1 == c {
      assert b == c * (q + 1);
      DivisionIsUnique(b, c, q + 1, 0);
    } else {
      DivisionIsUnique(b, c, q, r + 1);
    }
  }

  lemma DivisionIsUnique(b: nat, c: Interval, q: int, r: int)
    requires b == c * q + r && 0 <= r < c
    ensures b / c == q && b % c == r
  {
    var d := b / c - q;
    assert c * d == r - b % c;
    MultipleIsFar(c, d);
  }

  lemma {:induction false} MultipleIsFar(c: Interval, d: int)
    ensures d > 0 ==> c * d >= c
    ensures d < 0 ==> c * d <= 0 - c
    decreases if d < 0 then -d else d
  {
    if d > 1 {
      MultipleIsFar(c, d - 1);
      assert c * d == c * (d - 1) + c;
    } else if d < -1 {
      MultipleIsFar(c, d + 1);
      assert c * d == c * (d + 1) - c;
    }
  }

  /** The directory after batch `b`: the protected files, and diffs a snapshot already holds. */
  ghost predicate Shape(names: set<SourceName>, b: nat, c: Interval) {
    && Protected(b, c) <= names
    && forall name :: name in names - Protected(b, c) ==> name.Diff? && name.id < LastSnapshot(b, c)
  }

  lemma LastSnapshotSteps(b: nat, c: Interval)
    requires b > 0
    ensures b % c == 0 ==> LastSnapshot(b, c) == b && LastSnapshot(b - 1, c) < b
    ensures b % c != 0 ==> LastSnapshot(b, c) == LastSnapshot(b - 1, c) < b
  {
    QuotientFacts(b, c);
    QuotientFacts(b - 1, c);
    NextQuotient(b, c);
    if b < c {
      DivisionIsUnique(b, c, 0, b);
    }
  }

  /** A plain batch adds its diff to what must stay. */
  lemma PlainProtected(b: nat, c: Interval)
    requires b > 0 && b % c != 0
    ensures Protected(b, c) == Protected(b - 1, c) + {Diff(b)}
    ensures LastSnapshot(b, c) == LastSnapshot(b - 1, c)
  {
    hide LastSnapshot, SnapshotsTo;
    NextQuotient(b, c);
    LastSnapshotSteps(b, c);
  }

  /** A snapshot replaces the diffs that had to stay. */
  lemma SnapshotProtected(b: nat, c: Interval)
    requires b > 0 && b % c == 0
    ensures Protected(b, c) <= Protected(b - 1, c) + {Snapshot(b)}
    ensures Snapshot(b) in Protected(b, c) && LastSnapshot(b - 1, c) < LastSnapshot(b, c) == b
    ensures forall name :: name in Protected(b - 1, c) - Protected(b, c) ==> name.Diff? && name.id < b
  {
    hide LastSnapshot, SnapshotsTo, DiffsUpTo;
    QuotientFacts(b, c);
    NextQuotient(b, c);
    LastSnapshotSteps(b, c);
    SnapshotsStep(b / c, c);
    DiffsUpToAre(LastSnapshot(b, c), b);
    DiffsUpToAre(LastSnapshot(b - 1, c), b - 1);
  }

  /** Batch `b` adds its diff, or its snapshot that makes the diffs so far superfluous. */
  lemma WriteKeepsShape(names: set<SourceName>, b: nat, c: Interval)
    requires if b == 0 then names == {} else Shape(names, b - 1, c)
    ensures Shape(names + {if IsCompaction(b, c) then Snapshot(b) else Diff(b)}, b, c)
  {
    if b == 0 {
      FirstBatch(c);
    } else {
      hide LastSnapshot, Protected;
      if b % c == 0 {
        SnapshotProtected(b, c);
      } else {
        PlainProtected(b, c);
      }
    }
  }

  lemma FirstBatch(c: Interval)
    ensures 0 / c == 0 && LastSnapshot(0, c) == -1
    ensures SnapshotsTo(0, c) == {} && DiffsUpTo(-1, 0) == {Diff(0)}
  {}

  lemma SnapshotsStep(m: nat, c: Interval)
    requires m > 0
    ensures SnapshotsTo(m, c) == SnapshotsTo(m - 1, c) + {Snapshot(c * m)}
  {}

  /** After batch `b` the next snapshot needs protected files only, and every protected diff. */
  lemma NeededAreProtected(dir: Directory, b: nat, c: Interval)
    requires Shape(dir.Keys, b, c)
    ensures forall name :: Needed(dir, name) ==> name in Protected(b, c)
    ensures forall i: nat :: Diff(i) in Protected(b, c) ==> Needed(dir, Diff(i))
  {
    hide SnapshotsTo, DiffsUpTo;
    QuotientFacts(b, c);
    SnapshotsToAre(b / c, c);
    DiffsUpToAre(LastSnapshot(b, c), b);
    if b >= c {
      assert Snapshot(c * (b / c)) in dir;
    }
  }

  lemma SuperfluousPrecede(dir: Directory, names: seq<SourceName>, b: nat, c: Interval)
    requires b < ID_LIMIT && Shape(dir.Keys, b, c) && Lists(names, dir)
    ensures Precede(dir.Keys - Protected(b, c), names)
  {
    hide LastSnapshot, SnapshotsTo, DiffsUpTo, Pow10, Padded, Decimal, StringLess;
    LastIsOld(b, c);
    SnapshotsToAre(b / c, c);
    DiffsUpToAre(LastSnapshot(b, c), b);
    forall x, y | x in dir.Keys - Protected(b, c) && y in names && y !in dir.Keys - Protected(b, c)
      ensures KeyLess(SortKey(x), SortKey(y))
    {
      if y.Diff? {
        DiffKeysOrderById(x.id, y.id);
      }
    }
  }

  lemma LastIsOld(b: nat, c: Interval)
    ensures -1 <= LastSnapshot(b, c) <= b && b / c >= 0
    ensures b < c || b % c != 0 ==> LastSnapshot(b, c) < b
  {
    QuotientFacts(b, c);
  }

  /** Which entries of the sorted directory are superfluous, and how many. */
  lemma SuperfluousComeFirst(dir: Directory, listing: seq<SourceName>, b: nat, c: Interval)
    requires b < ID_LIMIT && Shape(dir.Keys, b, c) && Lists(listing, dir)
    ensures
      var sorted := SortByKey(listing);
      && Lists(sorted, dir) && KeySorted(sorted) && |sorted| >= Load(b, c)
      && forall k :: 0 <= k < |sorted| ==> (sorted[k] !in Protected(b, c) <==> k < |sorted| - Load(b, c))
  {
    hide LastSnapshot, Protected, Load, SortByKey, KeySorted, Precede;
    var sorted, low := SortByKey(listing), dir.Keys - Protected(b, c);
    SortKeepsListing(listing, dir);
    SortByKeyIsSorted(listing);
    SuperfluousPrecede(dir, sorted, b, c);
    LowComeFirst(sorted, dir, low);
    ProtectedSize(b, c);
    ListingSize(sorted, dir);
    assert dir.Keys == low + Protected(b, c);
  }

  /** Within the bound, retention deletes diffs that the latest snapshot already holds, and nothing else. */
  lemma CleanupKeepsShape(
    dir: Directory, listing: seq<SourceName>, limit: nat, failed: set<SourceName>, b: nat, c: Interval)
    requires b < ID_LIMIT && Shape(dir.Keys, b, c) && Lists(listing, dir)
    requires Load(b, c) <= limit
    ensures Shape(Cleaned(dir, listing, limit, failed).Keys, b, c)
  {
    hide LastSnapshot, Protected, Load, SortByKey, KeySorted;
    SuperfluousComeFirst(dir, listing, b, c);
    DeletesExactly(dir, Oldest(listing, limit), failed);
  }

  /** The oldest protected file is a diff while there is a protected diff. */
  lemma OldestProtectedIsDiff(dir: Directory, sorted: seq<SourceName>, b: nat, c: Interval)
    requires Shape(dir.Keys, b, c) && Lists(sorted, dir) && KeySorted(sorted)
    requires b < c || b % c != 0
    requires 0 < Load(b, c) <= |sorted|
    requires forall k :: 0 <= k < |sorted| ==> (sorted[k] !in Protected(b, c) <==> k < |sorted| - Load(b, c))
    ensures sorted[|sorted| - Load(b, c)].Diff?
  {
    hide LastSnapshot, Load, SnapshotsTo, DiffsUpTo, SortKey, KeyLess;
    var first := |sorted| - Load(b, c);
    LastIsOld(b, c);
    DiffsUpToAre(LastSnapshot(b, c), b);
    SnapshotsToAre(b / c, c);
    assert Diff(b) in Protected(b, c);
    var j :| 0 <= j < |sorted| && sorted[j] == Diff(b);
    if sorted[first].Snapshot? {
      DiffsSortFirst(sorted[j].id, sorted[first].id);
    }
  }

  lemma ProtectedDiffIsNeeded(dir: Directory, name: SourceName, b: nat, c: Interval)
    requires Shape(dir.Keys, b, c) && name in Protected(b, c) && name.Diff?
    ensures Needed(dir, Diff(name.id))
  {
    hide Needed, Shape, Protected, LastSnapshot;
    NeededAreProtected(dir, b, c);
  }

  /** Beyond it, while some batch is only in a diff, retention deletes such a diff. */
  lemma CleanupRemovesNeeded(dir: Directory, listing: seq<SourceName>, limit: nat, b: nat, c: Interval) returns (i: nat)
    requires b < ID_LIMIT && Shape(dir.Keys, b, c) && Lists(listing, dir)
    requires Load(b, c) > limit && (b < c || b % c != 0)
    ensures Needed(dir, Diff(i)) && Diff(i) !in Cleaned(dir, listing, limit, {})
  {
    hide LastSnapshot, Load, SortByKey, Protected, Shape, KeySorted, Needed, DeleteAll, Pow10;
    SuperfluousComeFirst(dir, listing, b, c);
    var sorted := SortByKey(listing);
    var first := |sorted| - Load(b, c);
    OldestProtectedIsDiff(dir, sorted, b, c);
    DeletesExactly(dir, Oldest(listing, limit), {});
    assert sorted[first] in Oldest(listing, limit);
    i := sorted[first].id;
    ProtectedDiffIsNeeded(dir, sorted[first], b, c);
  }

  // ---- The bound -------------------------------------------------------------------------------

  lemma NeededKeptByLast(steps: seq<BatchStep>)
    requires steps != []
    ensures
      var n := |steps| - 1;
      KeepsNeeded(steps) <==> KeepsNeeded(steps[..n]) && NeededStay(AfterWrite(After(steps[..n]), steps[n]), After(steps))
  {}

  lemma UniformLast(steps: seq<BatchStep>, c: Interval, limit: nat)
    requires Uniform(steps, c, limit) && steps != []
    ensures
      var n, step := |steps| - 1, steps[|steps| - 1];
      Uniform(steps[..n], c, limit) && step.id == n && step.interval == c && step.maxFiles == limit
  {}

  lemma WriteAddsName(dir: Directory, step: BatchStep)
    ensures AfterWrite(dir, step).Keys ==
            dir.Keys + {if IsCompaction(step.id, step.interval) then Snapshot(step.id) else Diff(step.id)}
  {}

  /** The directory right after a batch is written, before its cleanup. */
  lemma MidShape(steps: seq<BatchStep>, c: Interval, limit: nat)
    requires steps != [] && Uniform(steps, c, limit)
    requires |steps| > 1 ==> Shape(After(steps[..|steps| - 1]).Keys, |steps| - 2, c)
    ensures Shape(AfterWrite(After(steps[..|steps| - 1]), steps[|steps| - 1]).Keys, |steps| - 1, c)
  {
    hide Shape, LastSnapshot, AfterWrite;
    var n := |steps| - 1;
    WriteAddsName(After(steps[..n]), steps[n]);
    WriteKeepsShape(After(steps[..n]).Keys, n, c);
  }

  lemma {:induction false} BoundedLoadKeepsShape(steps: seq<BatchStep>, c: Interval, limit: nat)
    requires Valid(steps) && Uniform(steps, c, limit) && |steps| <= ID_LIMIT
    requires forall b :: 0 <= b < |steps| ==> Load(b, c) <= limit
    ensures KeepsNeeded(steps)
    ensures steps != [] ==> Shape(After(steps).Keys, |steps| - 1, c)
    decreases |steps|
  {
    if steps != [] {
      hide After, Shape, LastSnapshot, Load, Pow10, Valid, AfterWrite, Needed, KeepsNeeded, NeededStay, Recorded, Cleaned, Uniform;
      var n, step := |steps| - 1, steps[|steps| - 1];
      LastStep(steps);
      UniformLast(steps, c, limit);
      BoundedLoadKeepsShape(steps[..n], c, limit);
      LastIsOld(n, c);
      MidShape(steps, c, limit);
      var mid := AfterWrite(After(steps[..n]), step);
      CleanupKeepsShape(mid, step.relisting, limit, step.failed, n, c);
      ProtectedStays(mid, After(steps), n, c);
      NeededKeptByLast(steps);
    } else {
      NoSteps(steps);
    }
  }

  lemma NoSteps(steps: seq<BatchStep>)
    requires steps == []
    ensures KeepsNeeded(steps)
  {}

  lemma ProtectedStays(mid: Directory, after: Directory, b: nat, c: Interval)
    requires Shape(mid.Keys, b, c) && Shape(after.Keys, b, c)
    ensures NeededStay(mid, after)
  {
    hide Needed;
    NeededAreProtected(mid, b, c);
  }

  /** The load never exceeds a limit for the first time at a snapshot. */
  lemma SnapshotLoadIsNoHigher(b: nat, c: Interval)
    requires c >= 2 && b > 0 && b >= c && b % c == 0
    ensures Load(b, c) <= Load(b - 1, c)
  {
    NextQuotient(b, c);
    QuotientFacts(b - 1, c);
    QuotientFacts(b, c);
    MultipleIsFar(c, b / c - 1);
  }

  /**
   * With consecutive batches, a fixed interval of at least two and every delete succeeding, cleanup never
   * removes a file the next snapshot needs exactly while the snapshots and the diffs since the last one
   * fit the limit after every batch.
   */
  lemma {:induction false} RetentionIsExact(steps: seq<BatchStep>, c: Interval, limit: nat)
    requires Valid(steps) && Uniform(steps, c, limit) && |steps| <= ID_LIMIT && c >= 2
    requires forall i :: 0 <= i < |steps| ==> steps[i].failed == {}
    ensures KeepsNeeded(steps) <==> forall b :: 0 <= b < |steps| ==> Load(b, c) <= limit
    decreases |steps|
  {
    hide After, Shape, LastSnapshot, Load, Pow10, Valid, AfterWrite, Needed, KeepsNeeded, NeededStay, Recorded, Cleaned;
    if steps == [] {
      NoSteps(steps);
    } else {
      var n := |steps| - 1;
      LastStep(steps);
      RetentionIsExact(steps[..n], c, limit);
      NeededKeptByLast(steps);
      if forall b :: 0 <= b < |steps| ==> Load(b, c) <= limit {
        BoundedLoadKeepsShape(steps, c, limit);
      } else if KeepsNeeded(steps[..n]) {
        var i := OverloadRemovesNeeded(steps, c, limit);
        RemovedIsNotKept(AfterWrite(After(steps[..n]), steps[n]), After(steps), Diff(i));
      }
    }
  }

  lemma RemovedIsNotKept(before: Directory, after: Directory, name: SourceName)
    requires Needed(before, name) && name !in after
    ensures !NeededStay(before, after)
  {}

  /** The first overload removes a diff that no snapshot holds. */
  lemma OverloadRemovesNeeded(steps: seq<BatchStep>, c: Interval, limit: nat) returns (i: nat)
    requires Valid(steps) && Uniform(steps, c, limit) && 0 < |steps| <= ID_LIMIT && c >= 2
    requires steps[|steps| - 1].failed == {}
    requires forall b :: 0 <= b < |steps| - 1 ==> Load(b, c) <= limit
    requires Load(|steps| - 1, c) > limit
    ensures Needed(AfterWrite(After(steps[..|steps| - 1]), steps[|steps| - 1]), Diff(i)) && Diff(i) !in After(steps)
  {
    hide After, Shape, LastSnapshot, Load, Pow10, Valid, AfterWrite, Needed, KeepsNeeded, NeededStay, Recorded, Cleaned;
    var n := |steps| - 1;
    LastStep(steps);
    BoundedLoadKeepsShape(steps[..n], c, limit);
    LastIsOld(n, c);
    MidShape(steps, c, limit);
    if n >= c && n % c == 0 {
      SnapshotLoadIsNoHigher(n, c);
    }
    i := CleanupRemovesNeeded(AfterWrite(After(steps[..n]), steps[n]), steps[n].relisting, limit, n, c);
  }

  const DEFAULT_INTERVAL: Interval := 10
  const DEFAULT_RETENTION: nat := 100

  lemma DefaultLoad(b: nat)
    ensures b <= 928 ==> Load(b, DEFAULT_INTERVAL) <= DEFAULT_RETENTION
    ensures Load(929, DEFAULT_INTERVAL) > DEFAULT_RETENTION
  {}

  lemma TwentyDigits()
    ensures ID_LIMIT >= 1000
  {
    assert Pow10(3) == 1000;
    PowersGrow(3, 20);
  }

  lemma {:induction false} PowersGrow(a: nat, b: nat)
    requires a <= b
    ensures Pow10(a) <= Pow10(b)
    decreases b
  {
    if a < b {
      PowersGrow(a, b - 1);
    }
  }

  /** With the default interval 10 and retention 100 the history is kept through batch 928 and no longer. */
  lemma DefaultsKeepHistoryThrough928(steps: seq<BatchStep>)
    requires Valid(steps) && Uniform(steps, DEFAULT_INTERVAL, DEFAULT_RETENTION) && |steps| <= ID_LIMIT
    requires forall i :: 0 <= i < |steps| ==> steps[i].failed == {}
    ensures KeepsNeeded(steps) <==> |steps| <= 929
  {
    hide Load, Pow10, Valid, KeepsNeeded;
    RetentionIsExact(steps, DEFAULT_INTERVAL, DEFAULT_RETENTION);
    forall b | 0 <= b < |steps| && |steps| <= 929 ensures Load(b, DEFAULT_INTERVAL) <= DEFAULT_RETENTION {
      DefaultLoad(b);
    }
    DefaultLoad(929);
  }

  // ---- What is lost beyond it ------------------------------------------------------------------

  /** The first overload loses a batch for good: no file holds it then, or after any later batches. */
  lemma OverloadLosesBatch(steps: seq<BatchStep>, m: nat, c: Interval, limit: nat) returns (i: nat)
    requires Valid(steps) && m < |steps| && Uniform(steps[..m + 1], c, limit) && m < ID_LIMIT && c >= 2
    requires steps[m].failed == {}
    requires forall b :: 0 <= b < m ==> Load(b, c) <= limit
    requires Load(m, c) > limit
    ensures i <= m && i in Recorded(steps) && Lost(After(steps), i)
  {
    hide After, Shape, Load, LastSnapshot, Pow10, Valid, Needed, KeepsNeeded, Sound, Recorded, Tagged, Written, DeleteAll,
         Oldest, Lost;
    var upTo, step := steps[..m + 1], steps[m];
    PrefixIsValid(steps, m + 1);
    LastStep(upTo);
    assert upTo[..m] == steps[..m];
    HistoryStaysSound(steps[..m]);
    i := OverloadRemovesNeeded(upTo, c, limit);
    var before, written := After(steps[..m]), Recorded(steps[..m]);
    var mid := AfterWrite(before, step);
    WriteKeepsSound(before, written, step.listing, step.unreadable, step.id, step.records, step.interval);
    DeletesExactly(mid, Oldest(step.relisting, step.maxFiles), step.failed);
    RemovedBatchIsLost(mid, written[step.id := step.records], After(upTo), i);
    LostStaysLost(steps, m + 1, i);
  }

  lemma {:induction false} PrefixIsValid(steps: seq<BatchStep>, m: nat)
    requires Valid(steps) && m <= |steps|
    ensures Valid(steps[..m])
    decreases |steps|
  {
    if m == |steps| {
      assert steps[..m] == steps;
    } else {
      hide After, Recorded, AfterWrite, Tagged;
      var n := |steps| - 1;
      PrefixIsValid(steps[..n], m);
      assert steps[..n][..m] == steps[..m];
    }
  }

  /** With the defaults, once batch 929 was written some batch up to it is lost from every file for good. */
  lemma DefaultsLoseABatch(steps: seq<BatchStep>) returns (i: nat)
    requires |steps| >= 930 && Valid(steps) && Uniform(steps[..930], DEFAULT_INTERVAL, DEFAULT_RETENTION)
    requires steps[929].failed == {}
    ensures i <= 929 && i in Recorded(steps) && Lost(After(steps), i)
  {
    hide After, Load, Pow10, Valid, Lost, Recorded;
    TwentyDigits();
    forall b | 0 <= b < 929 ensures Load(b, DEFAULT_INTERVAL) <= DEFAULT_RETENTION {
      DefaultLoad(b);
    }
    DefaultLoad(929);
    i := OverloadLosesBatch(steps, 929, DEFAULT_INTERVAL, DEFAULT_RETENTION);
  }

  /** In particular snapshot 930 has no record of some earlier batch. */
  lemma Snapshot930LacksABatch(steps: seq<BatchStep>)
    requires |steps| == 931 && Valid(steps) && Uniform(steps, DEFAULT_INTERVAL, DEFAULT_RETENTION)
    requires forall i :: 0 <= i < |steps| ==> steps[i].failed == {}
    ensures
      var dir := AfterWrite(After(steps[..930]), steps[930]);
      Snapshot(930) in dir && exists i: nat :: i < 930 && Lacks(dir[Snapshot(930)], i)
  {
    hide After, Valid, Lost, Recorded, Sound, SnapshotRecords, Lacks, Tagged;
    var before, step := steps[..930], steps[930];
    LastStep(steps);
    assert before[..930] == before;
    var i := DefaultsLoseABatch(before);
    HistoryStaysSound(before);
    ReadableIsSound(After(before), Recorded(before), step.unreadable);
    LostIsUnreadable(After(before), step.unreadable, i);
    NewSnapshotLacks(After(before) - step.unreadable, Recorded(before), step.listing, 930, step.records, i);
  }

  lemma LostIsUnreadable(dir: Directory, unreadable: set<SourceName>, i: nat)
    requires Lost(dir, i)
    ensures Lost(dir - unreadable, i)
  {
    hide Lacks;
  }

  // ---- Such sequences of batches exist ---------------------------------------------------------

  lemma {:induction false} SomeListing(names: set<SourceName>) returns (listing: seq<SourceName>)
    ensures forall i, j :: 0 <= i < j < |listing| ==> listing[i] != listing[j]
    ensures forall name :: name in listing <==> name in names
    decreases names
  {
    if names == {} {
      listing := [];
    } else {
      var name :| name in names;
      var rest := SomeListing(names - {name});
      listing := rest + [name];
    }
  }

  lemma {:induction false} RecordedIds(steps: seq<BatchStep>, c: Interval, limit: nat)
    requires Uniform(steps, c, limit)
    ensures forall i :: i in Recorded(steps) ==> i < |steps|
    decreases |steps|
  {
    if steps != [] {
      RecordedIds(steps[..|steps| - 1], c, limit);
    }
  }

  lemma ValidSnoc(before: seq<BatchStep>, step: BatchStep)
    requires Valid(before) && Tagged(step.records, step.id)
    requires forall i :: i in Recorded(before) ==> i < step.id
    requires Lists(step.listing, After(before)) && Lists(step.relisting, AfterWrite(After(before), step))
    ensures Valid(before + [step])
  {
    hide After, AfterWrite, Recorded, Lists;
    assert (before + [step])[..|before|] == before;
  }

  /** The next one-file batch after the given ones. */
  lemma NextBatchExists(before: seq<BatchStep>, c: Interval, limit: nat) returns (step: BatchStep)
    requires Valid(before) && Uniform(before, c, limit)
    ensures Valid(before + [step])
    ensures step.id == |before| && step.interval == c && step.maxFiles == limit
    ensures step.failed == {} && step.unreadable == {} && |step.records| == 1
  {
    hide After, AfterWrite, Recorded, Valid, Uniform;
    var n := |before|;
    RecordedIds(before, c, limit);
    var listing := SomeListing(After(before).Keys);
    var records := [SourceRecord("/a.ss", n, n, n)];
    var draft := BatchStep(n, records, c, listing, {}, limit, [], {});
    var relisting := SomeListing(AfterWrite(After(before), draft).Keys);
    step := draft.(relisting := relisting);
    SameWrite(After(before), draft, step);
    ValidSnoc(before, step);
  }

  lemma SameWrite(dir: Directory, a: BatchStep, b: BatchStep)
    requires b == a.(relisting := b.relisting)
    ensures AfterWrite(dir, a) == AfterWrite(dir, b)
  {}

  /** Any number of consecutive one-file batches, under any interval and limit, with every read and delete succeeding. */
  lemma {:induction false} UniformBatchesExist(n: nat, c: Interval, limit: nat) returns (steps: seq<BatchStep>)
    ensures |steps| == n && Valid(steps) && Uniform(steps, c, limit)
    ensures forall i :: 0 <= i < n ==> steps[i].failed == {} && steps[i].unreadable == {} && |steps[i].records| == 1
  {
    if n == 0 {
      steps := [];
    } else {
      hide Valid;
      var before := UniformBatchesExist(n - 1, c, limit);
      var step := NextBatchExists(before, c, limit);
      steps := before + [step];
    }
  }
}
