/** Retention when every batch after the first is a snapshot: which ones it keeps, in the textual order of their names. */
module SnapshotRetention {
  import opened Owner
  import opened Sources
  import opened SourceHistory
  import opened Retention

  // ---- Snapshot keys are a strict total order ---------------------------------------------------

  lemma {:induction false} DecimalIsInjective(a: nat, b: nat)
    requires Decimal(a) == Decimal(b)
    ensures a == b
  {
    assert Decimal(a)[|Decimal(a)| - 1] == Digit(a % 10) && Decimal(b)[|Decimal(b)| - 1] == Digit(b % 10);
    if a >= 10 && b >= 10 {
      assert Decimal(a)[..|Decimal(a)| - 1] == Decimal(a / 10) && Decimal(b)[..|Decimal(b)| - 1] == Decimal(b / 10);
      DecimalIsInjective(a / 10, b / 10);
    }
  }

  predicate Before(x: SourceName, y: SourceName) {
    KeyLess(SortKey(x), SortKey(y))
  }

  /** The file of batch `b` when the interval is one. */
  function FileOf(b: nat): SourceName {
    if b == 0 then Diff(0) else Snapshot(b)
  }

  lemma FilesAreOrdered(a: nat, b: nat)
    requires a != b
    ensures Before(FileOf(a), FileOf(b)) || Before(FileOf(b), FileOf(a))
  {
    if a != 0 && b != 0 {
      var x, y := Decimal(a) + ".parquet", Decimal(b) + ".parquet";
      StringLessIsStrictTotal(x, y);
      if x == y {
        assert x[..|x| - 8] == Decimal(a) && y[..|y| - 8] == Decimal(b);
        DecimalIsInjective(a, b);
      }
    }
  }

  lemma BeforeIsStrict(x: SourceName, y: SourceName, z: SourceName)
    ensures !(Before(x, y) && Before(y, x))
    ensures Before(x, y) && Before(y, z) ==> Before(x, z)
  {
    KeyOrder(SortKey(x), SortKey(y), SortKey(z));
    StringLessIsStrictTotal(SortKey(x).1, SortKey(y).1);
    if StringLess(SortKey(x).1, SortKey(y).1) && StringLess(SortKey(y).1, SortKey(z).1) {
      StringLessTransitive(SortKey(x).1, SortKey(y).1, SortKey(z).1);
    }
  }

  /** The order is textual: the tenth snapshot comes before the second. */
  lemma TenSortsBeforeTwo()
    ensures Before(Snapshot(10), Snapshot(2)) && Before(Snapshot(1), Snapshot(10))
  {
    assert Decimal(10) == "10" && Decimal(2) == "2" && Decimal(1) == "1";
    assert SortKey(Snapshot(10)).1 == "10.parquet" && SortKey(Snapshot(2)).1 == "2.parquet";
    assert SortKey(Snapshot(1)).1 == "1.parquet";
    assert "1.parquet"[1..] == ".parquet" && "10.parquet"[1..] == "0.parquet";
  }

  // ---- The files retention keeps ---------------------------------------------------------------

  function FilesTo(b: nat): set<SourceName> {
    if b == 0 then {FileOf(0)} else FilesTo(b - 1) + {FileOf(b)}
  }

  lemma {:induction false} FilesToAre(b: nat)
    ensures |FilesTo(b)| == b + 1
    ensures forall name :: name in FilesTo(b) <==> exists a: nat :: a <= b && name == FileOf(a)
  {
    if b > 0 {
      FilesToAre(b - 1);
      assert FileOf(b) !in FilesTo(b - 1);
      forall name ensures name in FilesTo(b) <==> exists a: nat :: a <= b && name == FileOf(a) {
        if name == FileOf(b) {
          assert b <= b && name == FileOf(b);
        }
      }
    }
  }

  lemma FilesToSize(b: nat)
    ensures |FilesTo(b)| == b + 1
  {
    FilesToAre(b);
  }

  /** The earlier snapshots whose names sort after that of batch `b`. */
  function SortedAfter(b: nat): set<SourceName> {
    set s | 1 <= s < b && Before(Snapshot(b), Snapshot(s)) :: Snapshot(s)
  }

  /** The files are the last ones by key among all written so far, as many as the limit allows. */
  ghost predicate Last(names: set<SourceName>, b: nat, limit: nat) {
    && names <= FilesTo(b) && |names| <= limit
    && (names == FilesTo(b) || |names| == limit)
    && forall x, y :: x in FilesTo(b) - names && y in names ==> Before(x, y)
  }

  lemma FilesAreTotal(b: nat, x: SourceName, y: SourceName)
    requires x in FilesTo(b) && y in FilesTo(b) && x != y
    ensures Before(x, y) || Before(y, x)
  {
    hide Before;
    FilesToAre(b);
    var i: nat :| i <= b && x == FileOf(i);
    var j: nat :| j <= b && y == FileOf(j);
    FilesAreOrdered(i, j);
  }

  /** The first of the sorted names precedes all others. */
  lemma FirstPrecedes(sorted: seq<SourceName>, dir: Directory, b: nat)
    requires Lists(sorted, dir) && KeySorted(sorted) && sorted != [] && dir.Keys <= FilesTo(b)
    ensures forall y :: y in dir && y != sorted[0] ==> Before(sorted[0], y)
  {
    forall y | y in dir && y != sorted[0] ensures Before(sorted[0], y) {
      var j :| 0 <= j < |sorted| && sorted[j] == y;
      FilesAreTotal(b, sorted[0], y);
    }
  }

  lemma FirstIsDeleted(dir: Directory, listing: seq<SourceName>, limit: nat)
    requires Lists(listing, dir) && |dir| == limit + 1
    ensures SortByKey(listing) != []
    ensures Cleaned(dir, listing, limit, {}).Keys == dir.Keys - {SortByKey(listing)[0]}
  {
    hide SortByKey, DeleteAll;
    SortKeepsListing(listing, dir);
    ListingSize(listing, dir);
    var sorted := SortByKey(listing);
    assert Oldest(listing, limit) == sorted[..1] == [sorted[0]];
    DeletesExactly(dir, Oldest(listing, limit), {});
  }

  lemma NothingIsDeleted(dir: Directory, listing: seq<SourceName>, limit: nat)
    requires Lists(listing, dir) && |dir| <= limit
    ensures Cleaned(dir, listing, limit, {}).Keys == dir.Keys
  {
    hide SortByKey, DeleteAll;
    SortKeepsListing(listing, dir);
    ListingSize(listing, dir);
    DeletesExactly(dir, Oldest(listing, limit), {});
  }

  /** What the next snapshot needs is the file just written, and nothing else. */
  lemma OnlyNewestIsNeeded(dir: Directory, b: nat)
    requires FileOf(b) in dir && dir.Keys <= FilesTo(b)
    ensures forall name :: Needed(dir, name) <==> name == FileOf(b)
  {
    FilesToAre(b);
    forall name ensures Needed(dir, name) <==> name == FileOf(b) {
      if name in dir {
        var a: nat :| a <= b && name == FileOf(a);
      }
      forall s: nat | Snapshot(s) in dir ensures s <= b {
        var a: nat :| a <= b && Snapshot(s) == FileOf(a);
      }
    }
  }

  lemma NewFile(names: set<SourceName>, b: nat)
    requires b > 0 && names <= FilesTo(b - 1)
    ensures FileOf(b) !in names && FilesTo(b) == FilesTo(b - 1) + {FileOf(b)}
  {
    FilesToAre(b - 1);
    forall a: nat | a <= b - 1 ensures FileOf(a) != FileOf(b) {}
  }

  /** The new file takes the place of the first one. */
  lemma ReplacingFirstKeepsLast(names: set<SourceName>, b: nat, limit: nat, first: SourceName)
    requires b > 0 && Last(names, b - 1, limit) && |names| == limit && first in names
    requires forall y :: y in names + {FileOf(b)} && y != first ==> Before(first, y)
    ensures Last(names - {first} + {FileOf(b)}, b, limit)
  {
    hide Before, FilesTo;
    NewFile(names, b);
    var rest := names - {first};
    var kept := rest + {FileOf(b)};
    assert names == rest + {first};
    assert |kept| == |rest| + 1 == |names|;
    forall x, y | x in FilesTo(b) - kept && y in kept ensures Before(x, y) {
      if x != first {
        assert x in FilesTo(b - 1) - names;
        if y == FileOf(b) {
          assert Before(x, first) && Before(first, y);
          BeforeIsStrict(x, first, y);
        }
      }
    }
  }

  /** How one cleanup decides: the deleted name is the new one exactly when enough older ones sort after it. */
  lemma NewestIsDeletedIff(names: set<SourceName>, b: nat, limit: nat, first: SourceName)
    requires b > 0 && Last(names, b - 1, limit) && |names| == limit
    requires first in names + {FileOf(b)}
    requires forall y :: y in names + {FileOf(b)} && y != first ==> Before(first, y)
    ensures first == FileOf(b) <==> |SortedAfter(b)| >= limit
  {
    hide Before, SortedAfter, FilesTo;
    NewFile(names, b);
    if first == FileOf(b) {
      AllSortAfter(names, b);
      SubsetSize(names, SortedAfter(b));
    } else {
      LaterSortBefore(names, b, limit, first);
      SubsetSize(SortedAfter(b), names - {first});
    }
  }

  lemma AllSortAfter(names: set<SourceName>, b: nat)
    requires b > 0 && names <= FilesTo(b - 1)
    requires forall y :: y in names ==> Before(FileOf(b), y)
    ensures names <= SortedAfter(b)
  {
    FilesToAre(b - 1);
    forall y | y in names ensures y in SortedAfter(b) {
      var a: nat :| a <= b - 1 && y == FileOf(a);
    }
  }

  lemma LaterSortBefore(names: set<SourceName>, b: nat, limit: nat, first: SourceName)
    requires b > 0 && Last(names, b - 1, limit) && first in names && Before(first, FileOf(b))
    ensures SortedAfter(b) <= names - {first}
  {
    FilesToAre(b - 1);
    forall y | y in SortedAfter(b) ensures y in names - {first} {
      var s: nat :| 1 <= s < b && y == Snapshot(s) && Before(Snapshot(b), y);
      assert y == FileOf(s);
      BeforeIsStrict(first, FileOf(b), y);
      BeforeIsStrict(y, first, FileOf(b));
    }
  }

  /** The files before batch `b`. */
  ghost predicate LastBefore(before: set<SourceName>, b: nat, limit: nat) {
    if b == 0 then before == {} else Last(before, b - 1, limit)
  }

  lemma MidFiles(before: set<SourceName>, b: nat, limit: nat)
    requires LastBefore(before, b, limit)
    ensures FileOf(b) !in before && before + {FileOf(b)} <= FilesTo(b)
    ensures |before + {FileOf(b)}| == |before| + 1 <= limit + 1
    ensures |before| < limit ==> before + {FileOf(b)} == FilesTo(b)
  {
    hide Before;
    FilesToAre(b);
    if b > 0 {
      NewFile(before, b);
    } else {
      assert FilesTo(0) == {FileOf(0)};
    }
  }

  /** There is room for the new file. */
  lemma RoomKeepsLast(before: set<SourceName>, mid: Directory, listing: seq<SourceName>, b: nat, limit: nat)
    requires LastBefore(before, b, limit) && |before| < limit
    requires mid.Keys == before + {FileOf(b)} && Lists(listing, mid)
    ensures
      var after := Cleaned(mid, listing, limit, {});
      NeededStay(mid, after) && |SortedAfter(b)| < limit && Last(after.Keys, b, limit)
  {
    hide Cleaned, Needed, Before, SortedAfter, FilesTo;
    MidFiles(before, b, limit);
    FilesToSize(b);
    assert |mid| == |mid.Keys|;
    OnlyNewestIsNeeded(mid, b);
    NothingIsDeleted(mid, listing, limit);
    SomeSortAfter(b);
  }

  /** There is none: the first name by key goes. */
  lemma FullKeepsLast(before: set<SourceName>, mid: Directory, listing: seq<SourceName>, b: nat, limit: nat)
    requires b > 0 && Last(before, b - 1, limit) && |before| == limit
    requires mid.Keys == before + {FileOf(b)} && Lists(listing, mid)
    ensures
      var after := Cleaned(mid, listing, limit, {});
      && (NeededStay(mid, after) <==> |SortedAfter(b)| < limit)
      && (NeededStay(mid, after) ==> Last(after.Keys, b, limit))
  {
    hide Cleaned, Needed, Before, SortedAfter, SortByKey, KeySorted, Last;
    MidFiles(before, b, limit);
    assert |mid| == |mid.Keys|;
    OnlyNewestIsNeeded(mid, b);
    FirstIsDeleted(mid, listing, limit);
    var sorted := SortByKey(listing);
    SortKeepsListing(listing, mid);
    SortByKeyIsSorted(listing);
    FirstPrecedes(sorted, mid, b);
    assert sorted[0] in mid;
    NewestIsDeletedIff(before, b, limit, sorted[0]);
    if sorted[0] != FileOf(b) {
      ReplacingFirstKeepsLast(before, b, limit, sorted[0]);
      assert mid.Keys - {sorted[0]} == before - {sorted[0]} + {FileOf(b)};
    }
  }

  /** The files after batch `b` and its cleanup, when every cleanup so far kept the newest file. */
  lemma CleanupKeepsLast(before: set<SourceName>, mid: Directory, listing: seq<SourceName>, b: nat, limit: nat)
    requires LastBefore(before, b, limit)
    requires mid.Keys == before + {FileOf(b)} && Lists(listing, mid)
    ensures
      var after := Cleaned(mid, listing, limit, {});
      && (NeededStay(mid, after) <==> |SortedAfter(b)| < limit)
      && (NeededStay(mid, after) ==> Last(after.Keys, b, limit))
  {
    hide Cleaned, Needed, Before, SortedAfter, NeededStay;
    if |before| < limit {
      RoomKeepsLast(before, mid, listing, b, limit);
    } else if b > 0 {
      FullKeepsLast(before, mid, listing, b, limit);
    } else {
      NoRoomAtAll(mid, listing);
      SomeSortAfter(0);
    }
  }

  lemma NoRoomAtAll(mid: Directory, listing: seq<SourceName>)
    requires mid.Keys == {FileOf(0)} && Lists(listing, mid)
    ensures !NeededStay(mid, Cleaned(mid, listing, 0, {}))
  {
    hide Cleaned, Needed, SortByKey;
    assert |mid| == |mid.Keys| == 1;
    assert FilesTo(0) == {FileOf(0)};
    OnlyNewestIsNeeded(mid, 0);
    FirstIsDeleted(mid, listing, 0);
    SortKeepsListing(listing, mid);
    assert SortByKey(listing)[0] in mid;
  }

  lemma SomeSortAfter(b: nat)
    ensures |SortedAfter(b)| <= if b == 0 then 0 else b - 1
  {
    if b > 0 {
      FilesToAre(b - 1);
      forall y | y in SortedAfter(b) ensures y in FilesTo(b - 1) - {FileOf(0)} {
        var s: nat :| 1 <= s < b && y == Snapshot(s);
        assert y == FileOf(s);
      }
      SubsetSize(SortedAfter(b), FilesTo(b - 1) - {FileOf(0)});
      assert FileOf(0) in FilesTo(b - 1);
    } else {
      assert SortedAfter(b) == {};
    }
  }

  lemma WriteAddsFile(steps: seq<BatchStep>, limit: nat)
    requires steps != [] && Uniform(steps, 1, limit)
    ensures
      var n := |steps| - 1;
      AfterWrite(After(steps[..n]), steps[n]).Keys == After(steps[..n]).Keys + {FileOf(n)}
  {
    hide After;
    WriteAddsName(After(steps[..|steps| - 1]), steps[|steps| - 1]);
  }

  /**
   * With interval one and every delete succeeding, cleanup never removes a file the next snapshot needs
   * exactly while, after every batch, fewer earlier snapshots sort after the new one than the limit allows.
   */
  lemma {:induction false} RetentionOfSnapshotsIsExact(steps: seq<BatchStep>, limit: nat)
    requires Valid(steps) && Uniform(steps, 1, limit)
    requires forall i :: 0 <= i < |steps| ==> steps[i].failed == {}
    ensures KeepsNeeded(steps) <==> forall b :: 0 <= b < |steps| ==> |SortedAfter(b)| < limit
    ensures KeepsNeeded(steps) && steps != [] ==> Last(After(steps).Keys, |steps| - 1, limit)
    decreases |steps|
  {
    hide After, AfterWrite, Valid, KeepsNeeded, NeededStay, SortedAfter, Last, Recorded, Cleaned;
    if steps == [] {
      NoSteps(steps);
    } else {
      var n := |steps| - 1;
      LastStep(steps);
      RetentionOfSnapshotsIsExact(steps[..n], limit);
      NeededKeptByLast(steps);
      if KeepsNeeded(steps[..n]) {
        WriteAddsFile(steps, limit);
        NoFilesAtFirst(steps[..n]);
        CleanupKeepsLast(
          After(steps[..n]).Keys, AfterWrite(After(steps[..n]), steps[n]), steps[n].relisting, n, limit);
      }
    }
  }

  lemma NoFilesAtFirst(steps: seq<BatchStep>)
    ensures steps == [] ==> After(steps) == map[]
  {}
}
