/** The records stored under `_checkpoint/`: the watermark and the pending batch. */
module CheckpointRecords {
  import opened Files

  /** `modifiedTime` is `None` for the empty string of a default record. */
  datatype Watermark = Watermark(version: int, modifiedTime: Option<int>, batchId: int, deltaVersion: Option<int>) {
    predicate SamePosition(other: Option<Watermark>) {
      && other.Some?
      && version == other.value.version
      && modifiedTime == other.value.modifiedTime
      && batchId == other.value.batchId
    }
  }

  /** A batch recorded before its job is submitted. `deltaVersionBefore` is -1 when there is no table yet. */
  datatype PendingBatch = PendingBatch(
    token: nat,
    batchId: int,
    files: seq<(string, int)>,
    watermarkBefore: Option<Watermark>,
    deltaVersionBefore: int)
  {
    predicate AppliesTo(watermark: Option<Watermark>) {
      if watermarkBefore == None then watermark == None
      else watermarkBefore.value.SamePosition(watermark)
    }
  }

  /**
   * A pending batch is that of the stored watermark exactly when neither existed, or both are the same but for the
   * Delta version they cover.
   */
  lemma AppliesToIff(p: PendingBatch, watermark: Option<Watermark>)
    ensures p.AppliesTo(watermark) <==>
      || (p.watermarkBefore == None && watermark == None)
      || exists before, version :: p.watermarkBefore == Some(before) && watermark == Some(before.(deltaVersion := version))
  {
    if p.AppliesTo(watermark) && watermark.Some? {
      var before := p.watermarkBefore.value;
      assert watermark == Some(before.(deltaVersion := watermark.value.deltaVersion));
    }
  }

  /** The time of a position; `None` before the first checkpoint. */
  function TimeOf(watermark: Option<Watermark>): Option<int> {
    if watermark == None then None else watermark.value.modifiedTime
  }

  /** The `(path, modificationTime)` pairs stored for a batch. */
  function Entries(files: seq<FileInfo>): (entries: seq<(string, int)>)
    ensures |entries| == |files|
  {
    seq(|files|, i requires 0 <= i < |files| => (files[i].path, files[i].modificationTime))
  }

  /** The files a recovery rebuilds from stored pairs: only path and time survive. */
  function Recovered(entries: seq<(string, int)>): (files: seq<FileInfo>)
    ensures |files| == |entries|
  {
    seq(|entries|, i requires 0 <= i < |entries| => FileInfo(entries[i].0, entries[i].1, 0, None))
  }

  lemma RecoveredKeepsEntries(files: seq<FileInfo>)
    ensures Entries(Recovered(Entries(files))) == Entries(files)
  {}

  lemma {:induction false} RecoveredKeepsMaxTime(files: seq<FileInfo>)
    requires files != []
    ensures MaxTime(Recovered(Entries(files))) == MaxTime(files)
  {
    var n := |files| - 1;
    var again := Recovered(Entries(files));
    if n > 0 {
      assert again[..n] == Recovered(Entries(files[..n]));
      RecoveredKeepsMaxTime(files[..n]);
    }
  }
}
