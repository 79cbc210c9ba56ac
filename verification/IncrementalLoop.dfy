/** The listing union of `impl.py` and the capped discover/submit/checkpoint loop of `incremental.sql`. */
module IncrementalLoop {
  import opened Files
  import opened CheckpointRecords
  import opened FileTracker

  // ---- Union over (root, pattern) listings, unique by path -----------------------------------

  function UnionUnprocessed(listings: seq<seq<FileInfo>>, watermark: Option<int>, cutoffs: seq<int>): seq<FileInfo>
    requires |listings| == |cutoffs|
  {
    if listings == [] then []
    else
      var n := |listings| - 1;
      UnionUnprocessed(listings[..n], watermark, cutoffs[..n]) + Unprocessed(listings[n], watermark, cutoffs[n])
  }

  /** The entries whose path does not occur earlier. */
  function FirstByPath(files: seq<FileInfo>): seq<FileInfo> {
    if files == [] then []
    else
      var n := |files| - 1;
      var rest := FirstByPath(files[..n]);
      if files[n].path in PathsOf(rest) then rest else rest + [files[n]]
  }

  lemma {:induction false} FirstByPathKeepsPaths(files: seq<FileInfo>)
    ensures PathsOf(FirstByPath(files)) == PathsOf(files)
    ensures DistinctPaths(FirstByPath(files))
    ensures forall f :: f in FirstByPath(files) ==> f in files
  {
    if files != [] {
      var n := |files| - 1;
      var rest := FirstByPath(files[..n]);
      FirstByPathKeepsPaths(files[..n]);
      assert files == files[..n] + [files[n]];
      PathsSnoc(files[..n], files[n]);
      PathsSnoc(rest, files[n]);
      if files[n].path !in PathsOf(rest) {
        forall i | 0 <= i < |rest| ensures rest[i].path != files[n].path {
          assert rest[i].path in PathsOf(rest);
        }
      }
    }
  }

  lemma PathsSnoc(files: seq<FileInfo>, f: FileInfo)
    ensures PathsOf(files + [f]) == PathsOf(files) + {f.path}
  {}

  lemma FirstByPathSnoc(files: seq<FileInfo>, f: FileInfo)
    ensures FirstByPath(files + [f]) ==
            if f.path in PathsOf(FirstByPath(files)) then FirstByPath(files) else FirstByPath(files) + [f]
  {
    assert (files + [f])[..|files|] == files;
  }

  lemma UnionSnoc(listings: seq<seq<FileInfo>>, watermark: Option<int>, cutoffs: seq<int>, i: nat)
    requires |listings| == |cutoffs| && i < |listings|
    ensures UnionUnprocessed(listings[..i + 1], watermark, cutoffs[..i + 1]) ==
            UnionUnprocessed(listings[..i], watermark, cutoffs[..i]) + Unprocessed(listings[i], watermark, cutoffs[i])
  {
    assert listings[..i + 1][..i] == listings[..i] && cutoffs[..i + 1][..i] == cutoffs[..i];
  }

  lemma AppendUnseenStep(united: seq<FileInfo>, more: seq<FileInfo>, j: nat, kept: seq<FileInfo>)
    requires j < |more| && kept == FirstByPath(united + more[..j])
    ensures
      FirstByPath(united + more[..j + 1]) == if more[j].path in PathsOf(kept) then kept else kept + [more[j]]
    ensures PathsOf(kept + [more[j]]) == PathsOf(kept) + {more[j].path}
  {
    FirstByPathSnoc(united + more[..j], more[j]);
    PathsSnoc(kept, more[j]);
    assert united + more[..j + 1] == united + more[..j] + [more[j]];
  }

  /** The inner loop of `_list_unprocessed`: keep the paths not seen in an earlier listing. */
  method AppendUnseen(ghost united: seq<FileInfo>, seen: set<string>, files: seq<FileInfo>, more: seq<FileInfo>)
    returns (seenPaths: set<string>, kept: seq<FileInfo>)
    requires files == FirstByPath(united) && seen == PathsOf(files)
    ensures kept == FirstByPath(united + more) && seenPaths == PathsOf(kept)
  {
    seenPaths, kept := seen, files;
    assert united + more[..0] == united;
    hide *;
    for j := 0 to |more|
      invariant kept == FirstByPath(united + more[..j]) && seenPaths == PathsOf(kept)
    {
      AppendUnseenStep(united, more, j, kept);
      if more[j].path !in seenPaths {
        seenPaths := seenPaths + {more[j].path};
        kept := kept + [more[j]];
      }
    }
    assert more[..|more|] == more;
  }

  /** `_list_unprocessed`: one filtered listing per (root, pattern), each with its own clock reading. */
  method ListUnprocessed(listings: seq<seq<FileInfo>>, watermark: Option<int>, cutoffs: seq<int>)
    returns (files: seq<FileInfo>)
    requires |listings| == |cutoffs|
    ensures files == FirstByPath(UnionUnprocessed(listings, watermark, cutoffs))
  {
    var seenPaths: set<string> := {};
    files := [];
    for i := 0 to |listings|
      invariant files == FirstByPath(UnionUnprocessed(listings[..i], watermark, cutoffs[..i]))
      invariant seenPaths == PathsOf(files)
    {
      var unprocessed := DiscoverUnprocessedFiles(listings[i], watermark, cutoffs[i]);
      UnionSnoc(listings, watermark, cutoffs, i);
      seenPaths, files :=
        AppendUnseen(UnionUnprocessed(listings[..i], watermark, cutoffs[..i]), seenPaths, files, unprocessed);
    }
    assert listings[..|listings|] == listings && cutoffs[..|cutoffs|] == cutoffs;
  }

  lemma {:induction false} UnionMembers(listings: seq<seq<FileInfo>>, watermark: Option<int>, cutoffs: seq<int>, f: FileInfo)
    requires |listings| == |cutoffs|
    ensures f in UnionUnprocessed(listings, watermark, cutoffs) <==>
            exists i :: 0 <= i < |listings| && f in listings[i] && Eligible(f, watermark, cutoffs[i])
  {
    if listings != [] {
      var n := |listings| - 1;
      UnionMembers(listings[..n], watermark, cutoffs[..n], f);
      UnprocessedMembers(listings[n], watermark, cutoffs[n]);
      if f in UnionUnprocessed(listings[..n], watermark, cutoffs[..n]) {
        var i :| 0 <= i < n && f in listings[..n][i] && Eligible(f, watermark, cutoffs[..n][i]);
        assert f in listings[i] && Eligible(f, watermark, cutoffs[i]);
      }
      if i :| 0 <= i < |listings| && f in listings[i] && Eligible(f, watermark, cutoffs[i]) {
        if i < n {
          assert f in listings[..n][i] && Eligible(f, watermark, cutoffs[..n][i]);
        }
      }
    }
  }

  /** The union names exactly the paths eligible in some listing, each once. */
  lemma UnionNamesEligiblePaths(listings: seq<seq<FileInfo>>, watermark: Option<int>, cutoffs: seq<int>, path: string)
    requires |listings| == |cutoffs|
    ensures
      var files := FirstByPath(UnionUnprocessed(listings, watermark, cutoffs));
      && DistinctPaths(files)
      && (path in PathsOf(files) <==>
          exists i, f :: 0 <= i < |listings| && f in listings[i] && f.path == path && Eligible(f, watermark, cutoffs[i]))
  {
    var united := UnionUnprocessed(listings, watermark, cutoffs);
    FirstByPathKeepsPaths(united);
    if path in PathsOf(united) {
      var f :| f in united && f.path == path;
      UnionMembers(listings, watermark, cutoffs, f);
    }
    if i, f :| 0 <= i < |listings| && f in listings[i] && f.path == path && Eligible(f, watermark, cutoffs[i]) {
      UnionMembers(listings, watermark, cutoffs, f);
    }
  }

  // ---- The batching loop ---------------------------------------------------------------------

  /** No greedy cut separates files of equal modification time. */
  predicate TieFree(files: seq<FileInfo>, maxFiles: int, maxBytes: int) {
    files != [] ==>
      var n := |NextBatch(files, maxFiles, maxBytes)|;
      NextBatchIsMaximal(files, maxFiles, maxBytes);
      CutKeepsTies(files, n) && TieFree(files[n..], maxFiles, maxBytes)
  }

  lemma {:induction false} DistinctTimesAreTieFree(files: seq<FileInfo>, maxFiles: int, maxBytes: int)
    requires Sorted(files) && DistinctTimes(files)
    ensures TieFree(files, maxFiles, maxBytes)
    decreases |files|
  {
    if files != [] {
      var n := |NextBatch(files, maxFiles, maxBytes)|;
      NextBatchIsMaximal(files, maxFiles, maxBytes);
      DistinctTimesAreTieFree(files[n..], maxFiles, maxBytes);
    }
  }

  /** What `cap` iterations process when every job succeeds: rediscovery after each checkpoint. */
  function LoopBatches(
    listing: seq<FileInfo>, watermark: Option<Watermark>, cutoff: int, maxFiles: int, maxBytes: int, cap: nat)
    : seq<seq<FileInfo>>
    decreases cap
  {
    var batch := NextBatch(Discover(listing, TimeOf(watermark), cutoff), maxFiles, maxBytes);
    if cap == 0 || batch == [] then []
    else [batch] + LoopBatches(listing, Some(ComputeNewWatermark(batch, watermark)), cutoff, maxFiles, maxBytes, cap - 1)
  }

  /** One iteration: a prefix of the discovered list, then the later files of the rest of it. */
  lemma LoopStep(
    listing: seq<FileInfo>, start: Option<Watermark>, cutoff: int, maxFiles: int, maxBytes: int, cap: nat,
    files: seq<FileInfo>, batch: seq<FileInfo>, next: Option<Watermark>)
    requires files == Discover(listing, TimeOf(start), cutoff) && files != [] && cap > 0
    requires batch == NextBatch(files, maxFiles, maxBytes) && next == Some(ComputeNewWatermark(batch, start))
    ensures batch != [] && batch == files[..|batch|]
    ensures LoopBatches(listing, start, cutoff, maxFiles, maxBytes, cap) ==
            [batch] + LoopBatches(listing, next, cutoff, maxFiles, maxBytes, cap - 1)
    ensures Discover(listing, TimeOf(next), cutoff) == Unprocessed(files[|batch|..], TimeOf(next), cutoff)
    ensures Discover(listing, TimeOf(next), cutoff) == files[|batch|..] <==> CutKeepsTies(files, |batch|)
  {
    NextBatchIsMaximal(files, maxFiles, maxBytes);
    assert TimeOf(next) == Some(MaxTime(batch));
    RediscoverFilters(listing, TimeOf(start), cutoff, |batch|);
    RediscoverIsSliceIffTiesKept(listing, TimeOf(start), cutoff, |batch|);
  }

  /** The watermark once each batch in turn has been checkpointed. */
  function WatermarkAfter(batches: seq<seq<FileInfo>>, start: Option<Watermark>): Option<Watermark> {
    if batches == [] then start
    else
      var n := |batches| - 1;
      Some(ComputeNewWatermark(batches[n], WatermarkAfter(batches[..n], start)))
  }

  function Min(a: nat, b: nat): nat { if a < b then a else b }

  /** After `done` iterations: the batches so far, and what the remaining iterations will add. */
  ghost predicate LoopInvariant(
    listing: seq<FileInfo>, start: Option<Watermark>, cutoff: int, maxFiles: int, maxBytes: int, cap: nat, left: nat,
    batches: seq<seq<FileInfo>>, watermark: Option<Watermark>)
  {
    && watermark == WatermarkAfter(batches, start)
    && LoopBatches(listing, start, cutoff, maxFiles, maxBytes, cap) ==
       batches + LoopBatches(listing, watermark, cutoff, maxFiles, maxBytes, left)
  }

  lemma LoopInvariantStart(
    listing: seq<FileInfo>, start: Option<Watermark>, cutoff: int, maxFiles: int, maxBytes: int, cap: nat)
    ensures LoopInvariant(listing, start, cutoff, maxFiles, maxBytes, cap, cap, [], start)
    ensures Flatten([]) == []
  {}

  lemma LoopInvariantStep(
    listing: seq<FileInfo>, start: Option<Watermark>, cutoff: int, maxFiles: int, maxBytes: int, cap: nat, left: nat,
    batches: seq<seq<FileInfo>>, watermark: Option<Watermark>, batch: seq<FileInfo>)
    requires left > 0 && LoopInvariant(listing, start, cutoff, maxFiles, maxBytes, cap, left, batches, watermark)
    requires batch == NextBatch(Discover(listing, TimeOf(watermark), cutoff), maxFiles, maxBytes)
    ensures batch == [] ==> LoopInvariant(listing, start, cutoff, maxFiles, maxBytes, cap, left - 1, batches, watermark)
    ensures batch != [] ==>
      LoopInvariant(listing, start, cutoff, maxFiles, maxBytes, cap, left - 1, batches + [batch],
                    Some(ComputeNewWatermark(batch, watermark)))
  {
    hide Discover, NextBatch, ComputeNewWatermark;
    if batch != [] {
      assert (batches + [batch])[..|batches|] == batches;
      var later := LoopBatches(
        listing, Some(ComputeNewWatermark(batch, watermark)), cutoff, maxFiles, maxBytes, left - 1);
      assert batches + ([batch] + later) == (batches + [batch]) + later;
    }
  }

  /**
   * The `available_now` loop over a listing that stays cached, with its iteration cap. The
   * iterations after the last file run their empty branch.
   */
  method RunAvailableNow(
    listing: seq<FileInfo>, start: Option<Watermark>, cutoff: int, maxFiles: int, maxBytes: int, loopCap: nat)
    returns (batches: seq<seq<FileInfo>>, totalBatches: nat, batchNum: nat, totalFiles: nat, watermark: Option<Watermark>)
    ensures batches == LoopBatches(listing, start, cutoff, maxFiles, maxBytes, loopCap)
    ensures totalBatches == NumBatches(Discover(listing, TimeOf(start), cutoff), maxFiles, maxBytes)
    ensures batchNum == |batches| && totalFiles == |Flatten(batches)|
    ensures watermark == WatermarkAfter(batches, start)
  {
    hide *;
    batches, batchNum, totalFiles, watermark := [], 0, 0, start;
    var files := Discover(listing, TimeOf(watermark), cutoff);
    totalBatches := CountBatches(files, maxFiles, maxBytes);
    var fileBatch := GetNextBatch(files, maxFiles, maxBytes);
    LoopInvariantStart(listing, start, cutoff, maxFiles, maxBytes, loopCap);
    for i := 0 to loopCap
      invariant fileBatch == NextBatch(Discover(listing, TimeOf(watermark), cutoff), maxFiles, maxBytes)
      invariant LoopInvariant(listing, start, cutoff, maxFiles, maxBytes, loopCap, loopCap - i, batches, watermark)
      invariant batchNum == |batches| && totalFiles == |Flatten(batches)|
    {
      LoopInvariantStep(
        listing, start, cutoff, maxFiles, maxBytes, loopCap, loopCap - i, batches, watermark, fileBatch);
      if fileBatch == [] {
      } else {
        batchNum := batchNum + 1;
        totalFiles := totalFiles + |fileBatch|;
        FlattenSnoc(batches, fileBatch);
        batches := batches + [fileBatch];
        watermark := Some(ComputeNewWatermark(fileBatch, watermark));
        files := Discover(listing, TimeOf(watermark), cutoff);
        fileBatch := GetNextBatch(files, maxFiles, maxBytes);
      }
    }
    LoopInvariantEnd(listing, start, cutoff, maxFiles, maxBytes, loopCap, batches, watermark);
  }

  lemma LoopInvariantEnd(
    listing: seq<FileInfo>, start: Option<Watermark>, cutoff: int, maxFiles: int, maxBytes: int, cap: nat,
    batches: seq<seq<FileInfo>>, watermark: Option<Watermark>)
    requires LoopInvariant(listing, start, cutoff, maxFiles, maxBytes, cap, 0, batches, watermark)
    ensures batches == LoopBatches(listing, start, cutoff, maxFiles, maxBytes, cap)
    ensures watermark == WatermarkAfter(batches, start)
  {}

  lemma {:induction false} FlattenSnoc(blocks: seq<seq<FileInfo>>, block: seq<FileInfo>)
    ensures Flatten(blocks + [block]) == Flatten(blocks) + block
  {
    if blocks == [] {
      assert [block][1..] == [];
    } else {
      assert (blocks + [block])[1..] == blocks[1..] + [block];
      FlattenSnoc(blocks[1..], block);
    }
  }

  /** Without split ties, rediscovering after each checkpoint is slicing the first discovery, up to the cap. */
  lemma {:induction false} LoopRefinesSlicing(
    listing: seq<FileInfo>, start: Option<Watermark>, cutoff: int, maxFiles: int, maxBytes: int, cap: nat,
    files: seq<FileInfo>)
    requires files == Discover(listing, TimeOf(start), cutoff)
    requires TieFree(files, maxFiles, maxBytes)
    ensures
      var blocks := GreedyBlocks(files, maxFiles, maxBytes);
      LoopBatches(listing, start, cutoff, maxFiles, maxBytes, cap) == blocks[..Min(cap, |blocks|)]
    decreases cap
  {
    hide Discover, NextBatch, Unprocessed, ComputeNewWatermark, CutKeepsTies;
    if cap > 0 && files != [] {
      var batch := NextBatch(files, maxFiles, maxBytes);
      var next := Some(ComputeNewWatermark(batch, start));
      LoopStep(listing, start, cutoff, maxFiles, maxBytes, cap, files, batch, next);
      LoopRefinesSlicing(listing, next, cutoff, maxFiles, maxBytes, cap - 1, files[|batch|..]);
    }
  }

  /** Without split ties the loop takes exactly the predicted number of batches, or its cap. */
  lemma LoopTakesPredictedBatches(
    listing: seq<FileInfo>, start: Option<Watermark>, cutoff: int, maxFiles: int, maxBytes: int, cap: nat,
    files: seq<FileInfo>)
    requires files == Discover(listing, TimeOf(start), cutoff)
    requires TieFree(files, maxFiles, maxBytes)
    ensures |LoopBatches(listing, start, cutoff, maxFiles, maxBytes, cap)| ==
            Min(cap, NumBatches(files, maxFiles, maxBytes))
  {
    LoopRefinesSlicing(listing, start, cutoff, maxFiles, maxBytes, cap, files);
    GreedyBlocksPartition(files, maxFiles, maxBytes);
  }

  lemma {:induction false} SameLengthFilter(files: seq<FileInfo>, watermark: Option<int>, cutoff: int)
    requires |Unprocessed(files, watermark, cutoff)| == |files|
    ensures Unprocessed(files, watermark, cutoff) == files
  {
    if files != [] {
      FilterNoLonger(files[1..], watermark, cutoff);
      SameLengthFilter(files[1..], watermark, cutoff);
    }
  }

  /** The loop never processes more files than it discovered at first. */
  lemma {:induction false} LoopProcessesNoMore(
    listing: seq<FileInfo>, start: Option<Watermark>, cutoff: int, maxFiles: int, maxBytes: int, cap: nat,
    files: seq<FileInfo>)
    requires files == Discover(listing, TimeOf(start), cutoff)
    ensures |Flatten(LoopBatches(listing, start, cutoff, maxFiles, maxBytes, cap))| <= |files|
    decreases cap
  {
    hide Discover, NextBatch, Unprocessed, ComputeNewWatermark, CutKeepsTies;
    if cap > 0 && files != [] {
      var batch := NextBatch(files, maxFiles, maxBytes);
      var next := Some(ComputeNewWatermark(batch, start));
      LoopStep(listing, start, cutoff, maxFiles, maxBytes, cap, files, batch, next);
      FilterNoLonger(files[|batch|..], TimeOf(next), cutoff);
      LoopProcessesNoMore(listing, next, cutoff, maxFiles, maxBytes, cap - 1, Discover(listing, TimeOf(next), cutoff));
    }
  }

  /** Given enough iterations, every discovered file is processed once and in order iff no tie is split. */
  lemma {:induction false} LoopDrainsIffTieFree(
    listing: seq<FileInfo>, start: Option<Watermark>, cutoff: int, maxFiles: int, maxBytes: int, cap: nat,
    files: seq<FileInfo>)
    requires files == Discover(listing, TimeOf(start), cutoff)
    requires cap >= NumBatches(files, maxFiles, maxBytes)
    ensures Flatten(LoopBatches(listing, start, cutoff, maxFiles, maxBytes, cap)) == files <==>
            TieFree(files, maxFiles, maxBytes)
    decreases cap
  {
    hide Discover, NextBatch, Unprocessed, ComputeNewWatermark, CutKeepsTies;
    if TieFree(files, maxFiles, maxBytes) {
      LoopRefinesSlicing(listing, start, cutoff, maxFiles, maxBytes, cap, files);
      GreedyBlocksPartition(files, maxFiles, maxBytes);
      var blocks := GreedyBlocks(files, maxFiles, maxBytes);
      assert blocks[..|blocks|] == blocks;
    } else if Flatten(LoopBatches(listing, start, cutoff, maxFiles, maxBytes, cap)) == files {
      var batch := NextBatch(files, maxFiles, maxBytes);
      var next := Some(ComputeNewWatermark(batch, start));
      var rest := files[|batch|..];
      LoopStep(listing, start, cutoff, maxFiles, maxBytes, cap, files, batch, next);
      var later := LoopBatches(listing, next, cutoff, maxFiles, maxBytes, cap - 1);
      assert Flatten([batch] + later) == batch + Flatten(later);
      LoopProcessesNoMore(listing, next, cutoff, maxFiles, maxBytes, cap - 1, Discover(listing, TimeOf(next), cutoff));
      FilterNoLonger(rest, TimeOf(next), cutoff);
      SameLengthFilter(rest, TimeOf(next), cutoff);
      LoopDrainsIffTieFree(listing, next, cutoff, maxFiles, maxBytes, cap - 1, rest);
    }
  }
}
