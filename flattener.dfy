/** The flattening loop itself: nested loops over documents and samples that push
    onto a working series, then keep its tail. */
module Flattener {
  import opened SensorConfig
  import opened Coercion
  import opened Scoring
  import opened Series
  import opened Chunks

  /** Flattens a batch taken at instant `now`. The batch is only read: the method
      may modify nothing, so `packetDocs` is unchanged afterwards. */
  method FlattenPacketDocs(cfg: Config, now: int, packetDocs: array<Packet>) returns (series: seq<Point>)
    ensures series == Flatten(cfg, now, packetDocs[..])
    ensures cfg.maxPoints > 0 ==> |series| <= cfg.maxPoints
    ensures forall p :: p in series ==> WellFormed(now, p)
  {
    if packetDocs.Length == 0 {
      return [];
    }
    var docs := packetDocs[..];
    var work: seq<Point> := [];
    var docsCount := |docs|;
    ghost var blocks := Blocks(cfg, now, docs);
    for dIdx := 0 to docsCount
      invariant work == Concat(blocks, 0, dIdx)
    {
      var samples := ToNumArr(FieldOf(docs[dIdx], cfg.scoreChannel));
      var len := |samples|;
      ghost var done := work;
      ghost var block := blocks[dIdx];
      assert block == Block(cfg, now, docs, dIdx);
      if len == 0 {
        assert Concat(blocks, 0, dIdx + 1) == done + block;
        continue;
      }
      for i := 0 to len
        invariant work == done + block[..i]
      {
        var raw := samples[i];
        var score := Normalize(cfg.scoreRange, raw);
        var samplesFromEnd := (docsCount - 1 - dIdx) * len + (len - 1 - i);
        var ts := now - samplesFromEnd * cfg.intraPacketIntervalMs;
        assert block[i] == Point(ts, score, RiskFromScore(score));
        assert block[..i + 1] == block[..i] + [block[i]];
        work := work + [Point(ts, score, RiskFromScore(score))];
      }
      assert block[..len] == block;
    }
    series := SliceFromEnd(work, cfg.maxPoints);
    FlattenWellFormed(cfg, now, docs);
  }
}
