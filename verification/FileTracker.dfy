/** `file_tracker.py`: discovery, greedy batching under two limits, and the next watermark. */
module FileTracker {
  import opened Files
  import opened CheckpointRecords

  // ---- Discovery --------------------------------------------------------------------------

  predicate Eligible(f: FileInfo, watermark: Option<int>, cutoff: int) {
    f.modificationTime <= cutoff && (watermark.Some? ==> f.modificationTime > watermark.value)
  }

  function Unprocessed(files: seq<FileInfo>, watermark: Option<int>, cutoff: int): seq<FileInfo> {
    if files == [] then []
    else
      var rest := Unprocessed(files[1..], watermark, cutoff);
      if Eligible(files[0], watermark, cutoff) then [files[0]] + rest else rest
  }

  lemma {:induction false} UnprocessedMembers(files: seq<FileInfo>, watermark: Option<int>, cutoff: int)
    ensures forall f :: f in Unprocessed(files, watermark, cutoff) <==> f in files && Eligible(f, watermark, cutoff)
  {
    if files != [] {
      UnprocessedMembers(files[1..], watermark, cutoff);
      assert files == [files[0]] + files[1..];
    }
  }

  lemma UnprocessedSnoc(files: seq<FileInfo>, f: FileInfo, watermark: Option<int>, cutoff: int)
    ensures Unprocessed(files + [f], watermark, cutoff) ==
            Unprocessed(files, watermark, cutoff) + (if Eligible(f, watermark, cutoff) then [f] else [])
  {
    if files == [] {
      assert [f][1..] == [];
    } else {
      assert (files + [f])[1..] == files[1..] + [f];
    }
  }

  /** The filter loop of one (root, pattern), with its two early `continue`s. */
  method DiscoverUnprocessedFiles(listing: seq<FileInfo>, watermark: Option<int>, cutoff: int)
    returns (unprocessed: seq<FileInfo>)
    ensures unprocessed == Unprocessed(listing, watermark, cutoff)
  {
    unprocessed := [];
    for i := 0 to |listing|
      invariant unprocessed == Unprocessed(listing[..i], watermark, cutoff)
    {
      var f := listing[i];
      assert listing[..i + 1] == listing[..i] + [f];
      UnprocessedSnoc(listing[..i], f, watermark, cutoff);
      if f.modificationTime > cutoff {
        continue;
      }
      if watermark.Some? && f.modificationTime <= watermark.value {
        continue;
      }
      unprocessed := unprocessed + [f];
    }
    assert listing[..|listing|] == listing;
  }

  /** Sorted discovery over an already united listing: what `discover_files` batches from. */
  function Discover(listing: seq<FileInfo>, watermark: Option<int>, cutoff: int): seq<FileInfo> {
    SortByTime(Unprocessed(listing, watermark, cutoff))
  }

  lemma DiscoverMembers(listing: seq<FileInfo>, watermark: Option<int>, cutoff: int)
    ensures forall f :: f in Discover(listing, watermark, cutoff) <==> f in listing && Eligible(f, watermark, cutoff)
    ensures Sorted(Discover(listing, watermark, cutoff))
    ensures forall f :: f in Discover(listing, watermark, cutoff) <==>
      f in listing && f.modificationTime <= cutoff && (watermark == None || watermark.value < f.modificationTime)
  {
    SortIsSorted(Unprocessed(listing, watermark, cutoff));
    UnprocessedMembers(listing, watermark, cutoff);
    SortMembers(Unprocessed(listing, watermark, cutoff));
  }

  lemma UnprocessedKeepsDistinctPaths(listing: seq<FileInfo>, watermark: Option<int>, cutoff: int)
    requires DistinctPaths(listing)
    ensures DistinctPaths(Unprocessed(listing, watermark, cutoff))
  {
    if listing != [] {
      UnprocessedKeepsDistinctPaths(listing[1..], watermark, cutoff);
      UnprocessedMembers(listing[1..], watermark, cutoff);
      forall f | f in Unprocessed(listing[1..], watermark, cutoff) ensures f.path != listing[0].path {
        var j :| 0 <= j < |listing[1..]| && listing[1..][j] == f;
        assert listing[j + 1] == f;
      }
    }
  }

  lemma DiscoverKeepsDistinctPaths(listing: seq<FileInfo>, watermark: Option<int>, cutoff: int)
    requires DistinctPaths(listing)
    ensures DistinctPaths(Discover(listing, watermark, cutoff))
  {
    UnprocessedKeepsDistinctPaths(listing, watermark, cutoff);
    SortIsSorted(Unprocessed(listing, watermark, cutoff));
    PermutationKeepsDistinctPaths(Unprocessed(listing, watermark, cutoff), Discover(listing, watermark, cutoff));
  }

  // ---- Greedy batching --------------------------------------------------------------------

  /** A block one job may take: a single file, or several within both limits. */
  predicate Fits(block: seq<FileInfo>, maxFiles: int, maxBytes: int) {
    |block| <= 1 || (|block| <= maxFiles && TotalBytes(block) <= maxBytes)
  }

  function GrowBatch(files: seq<FileInfo>, n: nat, maxFiles: int, maxBytes: int): (len: nat)
    requires n <= |files|
    ensures n <= len <= |files|
    decreases |files| - n
  {
    if n < |files| && Fits(files[..n + 1], maxFiles, maxBytes)
    then GrowBatch(files, n + 1, maxFiles, maxBytes)
    else n
  }

  function NextBatch(files: seq<FileInfo>, maxFiles: int, maxBytes: int): (batch: seq<FileInfo>)
    ensures |batch| <= |files| && batch == files[..|batch|]
  {
    files[..GrowBatch(files, 0, maxFiles, maxBytes)]
  }

  lemma {:induction false} GrowBatchIsMaximal(files: seq<FileInfo>, n: nat, maxFiles: int, maxBytes: int)
    requires n <= |files| && Fits(files[..n], maxFiles, maxBytes)
    ensures
      var len := GrowBatch(files, n, maxFiles, maxBytes);
      && Fits(files[..len], maxFiles, maxBytes)
      && (len < |files| ==> !Fits(files[..len + 1], maxFiles, maxBytes))
    decreases |files| - n
  {
    hide Fits;
    if n < |files| && Fits(files[..n + 1], maxFiles, maxBytes) {
      GrowBatchIsMaximal(files, n + 1, maxFiles, maxBytes);
    }
  }

  /** A batch is the longest prefix a job may take, and never empty while files remain. */
  lemma NextBatchIsMaximal(files: seq<FileInfo>, maxFiles: int, maxBytes: int)
    ensures
      var batch := NextBatch(files, maxFiles, maxBytes);
      && |batch| <= |files| && batch == files[..|batch|]
      && (files != [] <==> batch != [])
      && Fits(batch, maxFiles, maxBytes)
      && (|batch| < |files| ==> !Fits(files[..|batch| + 1], maxFiles, maxBytes))
  {
    GrowBatchIsMaximal(files, 0, maxFiles, maxBytes);
  }

  /**
   * Both limits in the files' own terms. `sums[i]` is what the first `i` files count for: a batch of several files
   * is within both limits, and it ends early only where one more file would exceed one of them.
   */
  lemma NextBatchLimits(files: seq<FileInfo>, sums: seq<int>, maxFiles: int, maxBytes: int)
    requires |sums| == |files| + 1 && sums[0] == 0
    requires forall i :: 0 <= i < |files| ==>
      sums[i + 1] == sums[i] + (match files[i].estimatedBytes case Some(n) => n case None => files[i].length)
    ensures
      var n := |NextBatch(files, maxFiles, maxBytes)|;
      && n <= |files| && NextBatch(files, maxFiles, maxBytes) == files[..n]
      && (files != [] ==> n > 0)
      && (n > 1 ==> n <= maxFiles && sums[n] <= maxBytes)
      && (0 < n < |files| ==> n >= maxFiles || sums[n + 1] > maxBytes)
  {
    hide NextBatch, TotalBytes;
    NextBatchIsMaximal(files, maxFiles, maxBytes);
    var n := |NextBatch(files, maxFiles, maxBytes)|;
    SumsAreTotals(files, sums, n);
    if n < |files| {
      SumsAreTotals(files, sums, n + 1);
    }
  }

  lemma {:induction false} SumsAreTotals(files: seq<FileInfo>, sums: seq<int>, n: nat)
    requires |sums| == |files| + 1 && sums[0] == 0 && n <= |files|
    requires forall i :: 0 <= i < |files| ==>
      sums[i + 1] == sums[i] + (match files[i].estimatedBytes case Some(n) => n case None => files[i].length)
    ensures TotalBytes(files[..n]) == sums[n]
  {
    hide TotalBytes;
    if n == 0 {
      AppendedBytes([], FileInfo("", 0, 0, None));
      assert files[..0] == [];
    } else {
      SumsAreTotals(files, sums, n - 1);
      AppendedBytes(files[..n - 1], files[n - 1]);
      assert files[..n] == files[..n - 1] + [files[n - 1]];
      assert sums[(n - 1) + 1] == sums[n];
    }
  }

  /** The accumulation loop with its two limits; the first file is taken unconditionally. */
  method GetNextBatch(files: seq<FileInfo>, maxFiles: int, maxBytes: int) returns (batch: seq<FileInfo>)
    ensures batch == NextBatch(files, maxFiles, maxBytes)
  {
    batch := [];
    var cumulativeBytes := 0;
    assert files[..0] == [] && TotalBytes([]) == 0;
    hide TotalBytes;
    for i := 0 to |files|
      invariant batch == files[..i]
      invariant cumulativeBytes == TotalBytes(files[..i])
      invariant GrowBatch(files, 0, maxFiles, maxBytes) == GrowBatch(files, i, maxFiles, maxBytes)
    {
      var fileBytes := files[i].Bytes();
      TotalBytesNext(files, i);
      if batch != [] {
        if |batch| >= maxFiles {
          return;
        }
        if cumulativeBytes + fileBytes > maxBytes {
          return;
        }
      }
      batch := batch + [files[i]];
      cumulativeBytes := cumulativeBytes + fileBytes;
    }
  }

  lemma TotalBytesNext(files: seq<FileInfo>, i: nat)
    requires i < |files|
    ensures TotalBytes(files[..i + 1]) == TotalBytes(files[..i]) + files[i].Bytes()
  {
    assert files[..i + 1][..i] == files[..i];
  }

  lemma TotalBytesConcat(a: seq<FileInfo>, b: seq<FileInfo>)
    ensures TotalBytes(a + b) == TotalBytes(a) + TotalBytes(b)
  {
    if b == [] {
      assert a + b == a;
    } else {
      assert (a + b)[..|a + b| - 1] == a + b[..|b| - 1];
      TotalBytesConcat(a, b[..|b| - 1]);
    }
  }

  /** A contiguous part of a block that fits, fits. */
  lemma FitsSlice(block: seq<FileInfo>, lo: nat, hi: nat, maxFiles: int, maxBytes: int)
    requires lo <= hi <= |block| && Fits(block, maxFiles, maxBytes)
    ensures Fits(block[lo..hi], maxFiles, maxBytes)
  {
    assert block == block[..lo] + block[lo..hi] + block[hi..];
    TotalBytesConcat(block[..lo], block[lo..hi]);
    TotalBytesConcat(block[..lo] + block[lo..hi], block[hi..]);
  }

  lemma GreedyIsLongest(files: seq<FileInfo>, n: nat, maxFiles: int, maxBytes: int)
    requires n <= |files| && Fits(files[..n], maxFiles, maxBytes)
    ensures n <= |NextBatch(files, maxFiles, maxBytes)|
  {
    hide Fits, NextBatch;
    NextBatchIsMaximal(files, maxFiles, maxBytes);
    var g := |NextBatch(files, maxFiles, maxBytes)|;
    if g < n {
      assert files[..n][0..g + 1] == files[..g + 1];
      FitsSlice(files[..n], 0, g + 1, maxFiles, maxBytes);
    }
  }

  function NumBatches(files: seq<FileInfo>, maxFiles: int, maxBytes: int): nat {
    if files == [] then 0
    else
      NextBatchIsMaximal(files, maxFiles, maxBytes);
      1 + NumBatches(files[|NextBatch(files, maxFiles, maxBytes)|..], maxFiles, maxBytes)
  }

  /** `_count_batches`: simulate batching without consuming the list. */
  method CountBatches(files: seq<FileInfo>, maxFiles: int, maxBytes: int) returns (count: nat)
    ensures count == NumBatches(files, maxFiles, maxBytes)
  {
    var remaining := files;
    count := 0;
    hide NextBatch;
    while remaining != []
      invariant count + NumBatches(remaining, maxFiles, maxBytes) == NumBatches(files, maxFiles, maxBytes)
      decreases |remaining|
    {
      NextBatchIsMaximal(remaining, maxFiles, maxBytes);
      var batch := GetNextBatch(remaining, maxFiles, maxBytes);
      if batch == [] {
        break;
      }
      count := count + 1;
      remaining := remaining[|batch|..];
    }
  }

  // ---- Greedy batching uses the fewest batches ---------------------------------------------

  function Flatten(blocks: seq<seq<FileInfo>>): seq<FileInfo> {
    if blocks == [] then [] else blocks[0] + Flatten(blocks[1..])
  }

  /** An order-preserving partition of `files` into blocks a job may take. */
  ghost predicate IsPartition(files: seq<FileInfo>, blocks: seq<seq<FileInfo>>, maxFiles: int, maxBytes: int) {
    && Flatten(blocks) == files
    && forall i :: 0 <= i < |blocks| ==> blocks[i] != [] && Fits(blocks[i], maxFiles, maxBytes)
  }

  function GreedyBlocks(files: seq<FileInfo>, maxFiles: int, maxBytes: int): seq<seq<FileInfo>> {
    if files == [] then []
    else
      var batch := NextBatch(files, maxFiles, maxBytes);
      NextBatchIsMaximal(files, maxFiles, maxBytes);
      [batch] + GreedyBlocks(files[|batch|..], maxFiles, maxBytes)
  }

  lemma {:induction false} GreedyBlocksPartition(files: seq<FileInfo>, maxFiles: int, maxBytes: int)
    ensures IsPartition(files, GreedyBlocks(files, maxFiles, maxBytes), maxFiles, maxBytes)
    ensures |GreedyBlocks(files, maxFiles, maxBytes)| == NumBatches(files, maxFiles, maxBytes)
  {
    hide NextBatch, Fits;
    if files != [] {
      var batch := NextBatch(files, maxFiles, maxBytes);
      NextBatchIsMaximal(files, maxFiles, maxBytes);
      GreedyBlocksPartition(files[|batch|..], maxFiles, maxBytes);
      assert files == batch + files[|batch|..];
    }
  }

  /** Batching a later part of the list never takes more batches. */
  lemma {:induction false} SuffixNeedsNoMore(files: seq<FileInfo>, k: nat, maxFiles: int, maxBytes: int)
    requires k <= |files|
    ensures NumBatches(files[k..], maxFiles, maxBytes) <= NumBatches(files, maxFiles, maxBytes)
    decreases |files|
  {
    hide NextBatch, Fits;
    if files == [] || k == 0 {
      assert files[k..] == files;
    } else if k < |files| {
      NextBatchIsMaximal(files, maxFiles, maxBytes);
      var g := |NextBatch(files, maxFiles, maxBytes)|;
      if k >= g {
        SuffixNeedsNoMore(files[g..], k - g, maxFiles, maxBytes);
        assert files[g..][k - g..] == files[k..];
      } else {
        FitsSlice(files[..g], k, g, maxFiles, maxBytes);
        assert files[..g][k..g] == files[k..][..g - k];
        GreedyIsLongest(files[k..], g - k, maxFiles, maxBytes);
        NextBatchIsMaximal(files[k..], maxFiles, maxBytes);
        var h := |NextBatch(files[k..], maxFiles, maxBytes)|;
        SuffixNeedsNoMore(files[g..], k + h - g, maxFiles, maxBytes);
        assert files[g..][k + h - g..] == files[k..][h..];
      }
    }
  }

  lemma NumBatchesStep(files: seq<FileInfo>, g: nat, maxFiles: int, maxBytes: int)
    requires files != [] && g == |NextBatch(files, maxFiles, maxBytes)|
    ensures g <= |files| && NumBatches(files, maxFiles, maxBytes) == 1 + NumBatches(files[g..], maxFiles, maxBytes)
  {}

  lemma PartitionTail(files: seq<FileInfo>, blocks: seq<seq<FileInfo>>, maxFiles: int, maxBytes: int)
    requires files != [] && IsPartition(files, blocks, maxFiles, maxBytes)
    ensures
      && blocks != [] && 0 < |blocks[0]| <= |files| && files[..|blocks[0]|] == blocks[0]
      && Fits(blocks[0], maxFiles, maxBytes)
      && IsPartition(files[|blocks[0]|..], blocks[1..], maxFiles, maxBytes)
  {
    assert files == blocks[0] + Flatten(blocks[1..]);
  }

  /** No order-preserving partition has fewer blocks than repeated `get_next_batch`. */
  lemma {:induction false} GreedyIsOptimal(
    files: seq<FileInfo>, blocks: seq<seq<FileInfo>>, maxFiles: int, maxBytes: int)
    requires IsPartition(files, blocks, maxFiles, maxBytes)
    ensures NumBatches(files, maxFiles, maxBytes) <= |blocks|
    decreases |blocks|
  {
    assert files == [] ==> NumBatches(files, maxFiles, maxBytes) == 0;
    hide *;
    if files != [] {
      PartitionTail(files, blocks, maxFiles, maxBytes);
      var first := |blocks[0]|;
      GreedyIsLongest(files, first, maxFiles, maxBytes);
      var g := |NextBatch(files, maxFiles, maxBytes)|;
      NumBatchesStep(files, g, maxFiles, maxBytes);
      assert files[first..][g - first..] == files[g..];
      SuffixNeedsNoMore(files[first..], g - first, maxFiles, maxBytes);
      GreedyIsOptimal(files[first..], blocks[1..], maxFiles, maxBytes);
    }
  }

  // ---- The next watermark -----------------------------------------------------------------

  function ComputeNewWatermark(batch: seq<FileInfo>, current: Option<Watermark>): (w: Watermark)
    ensures batch == [] && current.Some? ==> w == current.value
    ensures batch != [] ==> w.modifiedTime.Some? && !w.SamePosition(current)
    ensures batch != [] && current.Some? ==>
      w.version == current.value.version + 1 && w.batchId == current.value.batchId + 1
    ensures batch != [] && current.None? ==> w.version == 0 && w.batchId == 0
    ensures batch == [] && current.None? ==> w == Watermark(0, None, 0, None)
  {
    if batch == [] then
      if current.Some? then current.value else Watermark(0, None, 0, None)
    else
      Watermark(
        if current.Some? then current.value.version + 1 else 0,
        Some(MaxTime(batch)),
        if current.Some? then current.value.batchId + 1 else 0,
        None)
  }

  /** The next watermark is at the latest time of the batch, whatever its order, and names no Delta version yet. */
  lemma NewWatermarkIsLatest(batch: seq<FileInfo>, current: Option<Watermark>)
    requires batch != []
    ensures
      var w := ComputeNewWatermark(batch, current);
      && w.modifiedTime.Some? && w.deltaVersion == None
      && (forall f :: f in batch ==> f.modificationTime <= w.modifiedTime.value)
      && (exists f :: f in batch && f.modificationTime == w.modifiedTime.value)
  {
    hide MaxTime;
    MaxTimeIsMaximum(batch);
  }

  // ---- Rediscovery after a checkpoint -----------------------------------------------------

  /** A cut after the first `n` files does not separate files of equal modification time. */
  predicate CutKeepsTies(files: seq<FileInfo>, n: nat) {
    0 < n < |files| ==> files[n - 1].modificationTime < files[n].modificationTime
  }

  lemma {:induction false} InsertThenFilter(f: FileInfo, files: seq<FileInfo>, watermark: Option<int>, cutoff: int)
    requires Sorted(files)
    ensures Unprocessed(InsertByTime(f, files), watermark, cutoff) ==
            if Eligible(f, watermark, cutoff) then InsertByTime(f, Unprocessed(files, watermark, cutoff))
            else Unprocessed(files, watermark, cutoff)
  {
    if files != [] {
      if f.modificationTime <= files[0].modificationTime {
        assert ([f] + files)[1..] == files;
        var kept := Unprocessed(files, watermark, cutoff);
        UnprocessedMembers(files, watermark, cutoff);
        if kept != [] {
          assert kept[0] in files;
        }
      } else {
        var inserted := InsertByTime(f, files);
        assert inserted[1..] == InsertByTime(f, files[1..]);
        InsertThenFilter(f, files[1..], watermark, cutoff);
        var rest := Unprocessed(files[1..], watermark, cutoff);
        if Eligible(files[0], watermark, cutoff) {
          assert ([files[0]] + rest)[1..] == rest;
        }
      }
    }
  }

  /** Filtering by time commutes with the stable sort. */
  lemma {:induction false} SortThenFilter(files: seq<FileInfo>, watermark: Option<int>, cutoff: int)
    ensures Unprocessed(SortByTime(files), watermark, cutoff) == SortByTime(Unprocessed(files, watermark, cutoff))
  {
    if files != [] {
      SortThenFilter(files[1..], watermark, cutoff);
      SortIsSorted(files[1..]);
      InsertThenFilter(files[0], SortByTime(files[1..]), watermark, cutoff);
      var rest := Unprocessed(files[1..], watermark, cutoff);
      assert ([files[0]] + rest)[1..] == rest;
    }
  }

  /** Filtering again with a later watermark is filtering once with it. */
  lemma {:induction false} FilterTwice(files: seq<FileInfo>, early: Option<int>, late: int, cutoff: int)
    requires early.Some? ==> early.value <= late
    ensures Unprocessed(Unprocessed(files, early, cutoff), Some(late), cutoff) == Unprocessed(files, Some(late), cutoff)
  {
    if files != [] {
      FilterTwice(files[1..], early, late, cutoff);
      var rest := Unprocessed(files[1..], early, cutoff);
      assert ([files[0]] + rest)[1..] == rest;
    }
  }

  lemma {:induction false} FilterAll(files: seq<FileInfo>, watermark: Option<int>, cutoff: int)
    requires forall f :: f in files ==> Eligible(f, watermark, cutoff)
    ensures Unprocessed(files, watermark, cutoff) == files
  {
    if files != [] {
      FilterAll(files[1..], watermark, cutoff);
    }
  }

  lemma {:induction false} FilterDropsPrefix(files: seq<FileInfo>, n: nat, watermark: Option<int>, cutoff: int)
    requires n <= |files|
    requires forall i :: 0 <= i < n ==> !Eligible(files[i], watermark, cutoff)
    ensures Unprocessed(files, watermark, cutoff) == Unprocessed(files[n..], watermark, cutoff)
    decreases n
  {
    if n == 0 {
      assert files[0..] == files;
    } else {
      FilterDropsPrefix(files[1..], n - 1, watermark, cutoff);
      assert files[1..][n - 1..] == files[n..];
    }
  }

  lemma FilterNoLonger(files: seq<FileInfo>, watermark: Option<int>, cutoff: int)
    ensures |Unprocessed(files, watermark, cutoff)| <= |files|
  {}

  lemma LastOfPrefix(files: seq<FileInfo>, n: nat, watermark: Option<int>, cutoff: int)
    requires Sorted(files) && 0 < n <= |files|
    requires forall f :: f in files ==> Eligible(f, watermark, cutoff)
    ensures MaxTime(files[..n]) == files[n - 1].modificationTime
    ensures watermark.Some? ==> watermark.value <= files[n - 1].modificationTime
    ensures forall i :: 0 <= i < n ==> !Eligible(files[i], Some(files[n - 1].modificationTime), cutoff)
  {
    hide MaxTime;
    assert files[n - 1] in files;
    SortedMaxIsLast(files[..n]);
  }

  /** Rediscovering after a batch filters the discovered list by the time of the batch's last file. */
  lemma RediscoverFilters(listing: seq<FileInfo>, watermark: Option<int>, cutoff: int, n: nat)
    requires 0 < n <= |Discover(listing, watermark, cutoff)|
    ensures
      var files := Discover(listing, watermark, cutoff);
      var t := files[n - 1].modificationTime;
      && MaxTime(files[..n]) == t
      && Discover(listing, Some(t), cutoff) == Unprocessed(files[n..], Some(t), cutoff)
  {
    hide Unprocessed, SortByTime, MaxTime, Eligible, Sorted;
    var files := Discover(listing, watermark, cutoff);
    DiscoverMembers(listing, watermark, cutoff);
    LastOfPrefix(files, n, watermark, cutoff);
    var t := files[n - 1].modificationTime;
    FilterTwice(listing, watermark, t, cutoff);
    SortThenFilter(Unprocessed(listing, watermark, cutoff), Some(t), cutoff);
    FilterDropsPrefix(files, n, Some(t), cutoff);
  }

  /** With a fixed listing and cutoff, rediscovery is the rest of the list exactly when no tie was cut. */
  lemma RediscoverIsSliceIffTiesKept(listing: seq<FileInfo>, watermark: Option<int>, cutoff: int, n: nat)
    requires 0 < n <= |Discover(listing, watermark, cutoff)|
    ensures
      var files := Discover(listing, watermark, cutoff);
      Discover(listing, Some(MaxTime(files[..n])), cutoff) == files[n..] <==> CutKeepsTies(files, n)
  {
    hide Discover, Unprocessed, MaxTime;
    var files := Discover(listing, watermark, cutoff);
    var t, rest := files[n - 1].modificationTime, files[n..];
    RediscoverFilters(listing, watermark, cutoff, n);
    DiscoverMembers(listing, watermark, cutoff);
    if CutKeepsTies(files, n) {
      forall f | f in rest ensures Eligible(f, Some(t), cutoff) {
        assert f in files;
      }
      FilterAll(rest, Some(t), cutoff);
    } else {
      FilterDropsPrefix(rest, 1, Some(t), cutoff);
      FilterNoLonger(rest[1..], Some(t), cutoff);
    }
  }

  // ---- Batches of a complete listing are windows of time -------------------------------------

  /** `listing` names files of `universe` once each, and every one up to the latest time it returns. */
  ghost predicate CompleteListing(universe: set<FileInfo>, listing: seq<FileInfo>) {
    && DistinctPaths(listing)
    && (forall f :: f in listing ==> f in universe)
    && (forall f, g :: f in universe && g in listing && f.modificationTime <= g.modificationTime ==> f in listing)
  }

  /** `files` are exactly the files of `universe` after `low` and up to their own latest time. */
  ghost predicate IsWindow(universe: set<FileInfo>, low: Option<int>, files: seq<FileInfo>) {
    && files != []
    && DistinctPaths(files)
    && forall f :: f in files <==> f in universe && Eligible(f, low, MaxTime(files))
  }

  /** A prefix of a sorted discovery that cuts no tie is a window of the universe. */
  lemma UncutPrefixIsWindow(
    universe: set<FileInfo>, listing: seq<FileInfo>, watermark: Option<int>, cutoff: int, n: nat)
    requires CompleteListing(universe, listing)
    requires 0 < n <= |Discover(listing, watermark, cutoff)|
    requires CutKeepsTies(Discover(listing, watermark, cutoff), n)
    ensures IsWindow(universe, watermark, Discover(listing, watermark, cutoff)[..n])
  {
    hide Discover, MaxTime, Unprocessed;
    var files := Discover(listing, watermark, cutoff);
    var batch := files[..n];
    DiscoverMembers(listing, watermark, cutoff);
    DiscoverKeepsDistinctPaths(listing, watermark, cutoff);
    RediscoverFilters(listing, watermark, cutoff, n);
    var last := files[n - 1];
    assert last in files;
    forall f ensures f in batch <==> f in universe && Eligible(f, watermark, last.modificationTime) {
      if f in batch {
        var i :| 0 <= i < n && files[i] == f;
        assert f in files;
      }
      if f in universe && Eligible(f, watermark, last.modificationTime) {
        assert f in files;
        var i :| 0 <= i < |files| && files[i] == f;
        assert i < n;
        assert batch[i] == f;
      }
    }
  }

  /**
   * A file left out of a batch that holds a file of its own time or a later one is never discovered again,
   * from whatever listing and with whatever cutoff, while the watermark stays at or above that batch.
   */
  lemma TiedFileIsNeverDiscovered(
    batch: seq<FileInfo>, current: Option<Watermark>, f: FileInfo, g: FileInfo,
    later: int, listing: seq<FileInfo>, cutoff: int)
    requires f in batch && g.modificationTime <= f.modificationTime
    requires ComputeNewWatermark(batch, current).modifiedTime.value <= later
    ensures g !in Unprocessed(listing, Some(later), cutoff)
    ensures g !in Discover(listing, Some(later), cutoff)
  {
    hide Discover, Unprocessed;
    MaxTimeIsMaximum(batch);
    UnprocessedMembers(listing, Some(later), cutoff);
    DiscoverMembers(listing, Some(later), cutoff);
  }

  /**
   * A discovered file that the batch leaves out is skipped by the watermark exactly when the cut falls into
   * a run of files of its time: the next discovery misses it, and so does every later one.
   */
  lemma FileIsLostIff(
    listing: seq<FileInfo>, watermark: Option<int>, cutoff: int, n: nat, k: nat, later: seq<FileInfo>, laterCutoff: int)
    requires 0 < n <= k < |Discover(listing, watermark, cutoff)|
    requires Discover(listing, watermark, cutoff)[k] in later
    requires Discover(listing, watermark, cutoff)[k].modificationTime <= laterCutoff
    ensures
      var files := Discover(listing, watermark, cutoff);
      files[k] !in Discover(later, Some(MaxTime(files[..n])), laterCutoff) <==>
      files[k].modificationTime == files[n - 1].modificationTime
  {
    hide Discover, Unprocessed, MaxTime;
    var files := Discover(listing, watermark, cutoff);
    DiscoverMembers(listing, watermark, cutoff);
    RediscoverFilters(listing, watermark, cutoff, n);
    DiscoverMembers(later, Some(MaxTime(files[..n])), laterCutoff);
  }

  /** Two files written in the same millisecond: batching one of them hides the other for good. */
  lemma SplitTieLosesFile(later: int, listing: seq<FileInfo>, cutoff: int)
    requires later >= 1000
    ensures
      var a := FileInfo("/a.ss", 1000, 1, None);
      var b := FileInfo("/b.ss", 1000, 1, None);
      var batch := NextBatch(Discover([a, b], None, 5000), 1, 100);
      && batch == [a] && ComputeNewWatermark(batch, None).modifiedTime == Some(1000)
      && b !in Discover(listing, Some(later), cutoff)
  {
    var a := FileInfo("/a.ss", 1000, 1, None);
    var b := FileInfo("/b.ss", 1000, 1, None);
    assert [a, b][1..] == [b] && [b][1..] == [];
    assert Unprocessed([b], None, 5000) == [b];
    assert Unprocessed([a, b], None, 5000) == [a, b];
    assert SortByTime([b]) == [b];
    assert SortByTime([a, b]) == [a, b];
    assert GrowBatch([a, b], 1, 1, 100) == 1;
    TiedFileIsNeverDiscovered([a], None, a, b, later, listing, cutoff);
  }
}
