/** The time series that a batch of packet documents flattens to, as functions,
    and what is proved about it. */
module Series {
  import opened SensorConfig
  import opened Options
  import opened Coercion
  import opened Scoring
  import opened Chunks

  /** A stored document; `data` is None when the document yields no payload. */
  datatype Packet = Packet(data: Option<map<string, Field>>)

  /** One point of the series: timestamp in integer milliseconds, score, risk. */
  datatype Point = Point(timestamp: int, score: real, risk: Risk)

  /** A named field of a document; a missing payload reads as the empty record. */
  function FieldOf(p: Packet, name: string): Field
  {
    if p.data.Some? && name in p.data.value then p.data.value[name] else NotArray
  }

  /** The coerced samples of a document's scored channel. */
  function Samples(cfg: Config, p: Packet): seq<real>
  {
    ToNumArr(FieldOf(p, cfg.scoreChannel))
  }

  /** A document without payload reads exactly like a document whose payload is the
      empty record. */
  lemma MissingPayloadReadsEmpty(name: string)
    ensures FieldOf(Packet(None), name) == FieldOf(Packet(Some(map[])), name)
    ensures FieldOf(Packet(None), name) == NotArray
  {
  }

  /** A document yields no samples exactly when it has no payload, lacks the scored
      channel, stores something other than an array there, or stores an empty array. */
  lemma NoSamplesIff(cfg: Config, p: Packet)
    ensures var ch := cfg.scoreChannel;
            Samples(cfg, p) == [] <==>
              (p.data.None? || ch !in p.data.value ||
               p.data.value[ch].NotArray? || p.data.value[ch].elems == [])
  {
  }

  /** Number of sample slots between sample `i` of document `dIdx` and the newest
      slot of the batch, counting every document as if it held `len` samples. */
  function SamplesFromEnd(docsCount: nat, dIdx: nat, len: nat, i: nat): (k: nat)
    requires dIdx < docsCount && i < len
    ensures dIdx == docsCount - 1 ==> k == len - 1 - i
    ensures k == 0 <==> dIdx == docsCount - 1 && i == len - 1
  {
    var older := docsCount - 1 - dIdx;
    AtLeastOnce(older, len);
    older * len + (len - 1 - i)
  }

  lemma AtLeastOnce(a: nat, b: nat)
    ensures a > 0 ==> a * b >= b
  {
  }

  /** The point made from one raw sample that lies `offset` slots before `now`. */
  function ScoredPoint(cfg: Config, now: int, offset: nat, raw: real): Point
  {
    var s := Normalize(cfg.scoreRange, raw);
    Point(now - offset * cfg.intraPacketIntervalMs, s, RiskFromScore(s))
  }

  /** The points contributed by document `d` of the batch. */
  function Block(cfg: Config, now: int, docs: seq<Packet>, d: nat): seq<Point>
    requires d < |docs|
  {
    var samples := Samples(cfg, docs[d]);
    seq(|samples|, i requires 0 <= i < |samples| =>
      ScoredPoint(cfg, now, SamplesFromEnd(|docs|, d, |samples|, i), samples[i]))
  }

  /** The blocks of all documents, in batch order. */
  function Blocks(cfg: Config, now: int, docs: seq<Packet>): seq<seq<Point>>
  {
    seq(|docs|, d requires 0 <= d < |docs| => Block(cfg, now, docs, d))
  }

  /** The points of documents lo .. hi-1, in document order. */
  function SeriesRange(cfg: Config, now: int, docs: seq<Packet>, lo: nat, hi: nat): seq<Point>
    requires lo <= hi <= |docs|
  {
    Concat(Blocks(cfg, now, docs), lo, hi)
  }

  /** Every point of the batch, before the cap is applied. */
  function Untruncated(cfg: Config, now: int, docs: seq<Packet>): seq<Point>
  {
    SeriesRange(cfg, now, docs, 0, |docs|)
  }

  /** Number of samples in documents lo .. hi-1. */
  function TotalSamples(cfg: Config, docs: seq<Packet>, lo: nat, hi: nat): nat
    requires lo <= hi <= |docs|
    decreases hi - lo
  {
    if hi == lo then 0 else TotalSamples(cfg, docs, lo, hi - 1) + |Samples(cfg, docs[hi - 1])|
  }

  /** `s.slice(-m)`: the last m elements; `-0` is 0, so a cap of 0 keeps everything. */
  function SliceFromEnd<T>(s: seq<T>, m: nat): (r: seq<T>)
    ensures m == 0 ==> r == s
    ensures m > 0 ==> |r| == (if |s| <= m then |s| else m)
    ensures r == s[|s| - |r|..]
  {
    if m == 0 || |s| <= m then s else s[|s| - m..]
  }

  /** The series a batch flattens to: the last maxPoints points. */
  function Flatten(cfg: Config, now: int, docs: seq<Packet>): (r: seq<Point>)
    ensures |docs| == 0 ==> r == []
    ensures cfg.maxPoints > 0 ==> |r| <= cfg.maxPoints
    ensures var u := Untruncated(cfg, now, docs); |r| <= |u| && r == u[|u| - |r|..]
  {
    if |docs| == 0 then [] else SliceFromEnd(Untruncated(cfg, now, docs), cfg.maxPoints)
  }

  // ---------------------------------------------------------------- lengths

  lemma {:induction false} SeriesRangeLength(cfg: Config, now: int, docs: seq<Packet>, lo: nat, hi: nat)
    requires lo <= hi <= |docs|
    ensures |SeriesRange(cfg, now, docs, lo, hi)| == TotalSamples(cfg, docs, lo, hi)
    decreases hi - lo
  {
    if hi > lo {
      SeriesRangeLength(cfg, now, docs, lo, hi - 1);
      assert Blocks(cfg, now, docs)[hi - 1] == Block(cfg, now, docs, hi - 1);
    }
  }

  /** The output holds min(total samples, maxPoints) points and is the tail of the
      untruncated series, in the same order. */
  lemma FlattenIsCappedTail(cfg: Config, now: int, docs: seq<Packet>)
    requires cfg.maxPoints > 0
    ensures var total := TotalSamples(cfg, docs, 0, |docs|);
            |Flatten(cfg, now, docs)| == (if total <= cfg.maxPoints then total else cfg.maxPoints)
    ensures var u := Untruncated(cfg, now, docs);
            Flatten(cfg, now, docs) == u[|u| - |Flatten(cfg, now, docs)|..]
  {
    SeriesRangeLength(cfg, now, docs, 0, |docs|);
  }

  /** With a cap of 0, `slice(-0)` returns the whole series. */
  lemma FlattenZeroCapKeepsAll(cfg: Config, now: int, docs: seq<Packet>)
    requires cfg.maxPoints == 0
    ensures Flatten(cfg, now, docs) == Untruncated(cfg, now, docs)
  {
  }

  // ---------------------------------------------------------------- empty input

  lemma FlattenEmptyBatch(cfg: Config, now: int)
    ensures Flatten(cfg, now, []) == []
  {
  }

  /** A batch whose documents all have an empty or missing scored channel yields no points. */
  lemma FlattenAllEmpty(cfg: Config, now: int, docs: seq<Packet>)
    requires forall d :: 0 <= d < |docs| ==> Samples(cfg, docs[d]) == []
    ensures Flatten(cfg, now, docs) == []
  {
    var bs := Blocks(cfg, now, docs);
    forall d | 0 <= d < |docs| ensures bs[d] == [] {
      assert |bs[d]| == |Samples(cfg, docs[d])|;
    }
    ConcatAllEmpty(bs, 0, |docs|);
  }

  // ---------------------------------------------------------------- points

  /** Sample i of document d is element TotalSamples(0, d) + i of the untruncated series. */
  lemma PositionOfSample(cfg: Config, now: int, docs: seq<Packet>, d: nat, i: nat)
    requires d < |docs| && i < |Samples(cfg, docs[d])|
    ensures var u := Untruncated(cfg, now, docs);
            var k := TotalSamples(cfg, docs, 0, d) + i;
            k < |u| && u[k] == Block(cfg, now, docs, d)[i]
  {
    var bs := Blocks(cfg, now, docs);
    assert bs[d] == Block(cfg, now, docs, d);
    ConcatIndex(bs, d, i);
    SeriesRangeLength(cfg, now, docs, 0, d);
  }

  /** Sample i of document d sits at position TotalSamples(0, d) + i of the untruncated
      series, with its synthetic timestamp, its normalised score and that score's risk. */
  lemma PointOfSample(cfg: Config, now: int, docs: seq<Packet>, d: nat, i: nat)
    requires d < |docs| && i < |Samples(cfg, docs[d])|
    ensures var u := Untruncated(cfg, now, docs);
            var samples := Samples(cfg, docs[d]);
            var len := |samples|;
            var k := TotalSamples(cfg, docs, 0, d) + i;
            k < |u| &&
            u[k].timestamp == now - ((|docs| - 1 - d) * len + (len - 1 - i)) * cfg.intraPacketIntervalMs &&
            u[k].score == Normalize(cfg.scoreRange, samples[i]) &&
            u[k].risk == RiskFromScore(u[k].score)
  {
    var samples := Samples(cfg, docs[d]);
    PositionOfSample(cfg, now, docs, d, i);
    var off := SamplesFromEnd(|docs|, d, |samples|, i);
    assert off == (|docs| - 1 - d) * |samples| + (|samples| - 1 - i);
    assert Block(cfg, now, docs, d)[i] == ScoredPoint(cfg, now, off, samples[i]);
  }

  /** The series invariant of one point: score in [0, 1], risk determined by the score,
      timestamp not after the reference instant. */
  predicate WellFormed(now: int, p: Point)
  {
    0.0 <= p.score <= 1.0 && p.risk == RiskFromScore(p.score) && p.timestamp <= now
  }

  lemma ScoredPointWellFormed(cfg: Config, now: int, offset: nat, raw: real)
    ensures WellFormed(now, ScoredPoint(cfg, now, offset, raw))
  {
    assert offset * cfg.intraPacketIntervalMs >= 0;
  }

  lemma BlockWellFormed(cfg: Config, now: int, docs: seq<Packet>, d: nat)
    requires d < |docs|
    ensures forall p :: p in Blocks(cfg, now, docs)[d] ==> WellFormed(now, p)
  {
    var b := Blocks(cfg, now, docs)[d];
    assert b == Block(cfg, now, docs, d);
    var samples := Samples(cfg, docs[d]);
    forall p | p in b ensures WellFormed(now, p) {
      var i :| 0 <= i < |b| && b[i] == p;
      ScoredPointWellFormed(cfg, now, SamplesFromEnd(|docs|, d, |samples|, i), samples[i]);
    }
  }

  /** Every point of the output has a score in [0, 1], the risk of that score and a
      timestamp no later than `now`. */
  lemma FlattenWellFormed(cfg: Config, now: int, docs: seq<Packet>)
    ensures forall p :: p in Flatten(cfg, now, docs) ==> WellFormed(now, p)
  {
    var bs := Blocks(cfg, now, docs);
    forall p | p in Untruncated(cfg, now, docs) ensures WellFormed(now, p) {
      ConcatMember(bs, 0, |docs|, p);
      var d :| 0 <= d < |docs| && p in bs[d];
      BlockWellFormed(cfg, now, docs, d);
    }
  }

  /** The newest sample of a non-empty last document is stamped `now` and ends the series. */
  lemma LastPointIsNow(cfg: Config, now: int, docs: seq<Packet>)
    requires cfg.maxPoints > 0
    requires |docs| > 0 && Samples(cfg, docs[|docs| - 1]) != []
    ensures var f := Flatten(cfg, now, docs);
            var samples := Samples(cfg, docs[|docs| - 1]);
            f != [] &&
            f[|f| - 1].timestamp == now &&
            f[|f| - 1].score == Normalize(cfg.scoreRange, samples[|samples| - 1])
  {
    var n := |docs|;
    var u := Untruncated(cfg, now, docs);
    var b := Block(cfg, now, docs, n - 1);
    assert Blocks(cfg, now, docs)[n - 1] == b;
    assert u == SeriesRange(cfg, now, docs, 0, n - 1) + b;
    assert u[|u| - 1] == b[|b| - 1];
  }

  /** One document with samples [a, b] at an interval of 200 ms gives the points
      at now - 200 and now, newest last. */
  lemma SinglePacketExample(cfg: Config, now: int, p: Packet, a: real, b: real)
    requires cfg.intraPacketIntervalMs == 200 && cfg.maxPoints >= 2
    requires Samples(cfg, p) == [a, b]
    ensures Flatten(cfg, now, [p]) ==
      [Point(now - 200, Normalize(cfg.scoreRange, a), RiskFromScore(Normalize(cfg.scoreRange, a))),
       Point(now, Normalize(cfg.scoreRange, b), RiskFromScore(Normalize(cfg.scoreRange, b)))]
  {
  }

  // ---------------------------------------------------------------- skipping is local

  /** Replacing document j by one without samples removes exactly j's points: every
      other document keeps its points and their timestamps. */
  lemma EmptyPacketIsLocal(cfg: Config, now: int, docs: seq<Packet>, j: nat, empty: Packet)
    requires j < |docs| && Samples(cfg, empty) == []
    ensures Untruncated(cfg, now, docs[j := empty])
         == SeriesRange(cfg, now, docs, 0, j) + SeriesRange(cfg, now, docs, j + 1, |docs|)
  {
    var docs' := docs[j := empty];
    var n := |docs|;
    var bs := Blocks(cfg, now, docs);
    var bs' := Blocks(cfg, now, docs');
    forall d | 0 <= d < n && d != j ensures bs[d] == bs'[d] {
      assert docs[d] == docs'[d];
    }
    assert |bs'[j]| == 0;
    ConcatSplit(bs', 0, j, n);
    ConcatSplit(bs', j, j + 1, n);
    ConcatOne(bs', j);
    ConcatUnchanged(bs, bs', 0, j);
    ConcatUnchanged(bs, bs', j + 1, n);
  }

  // ---------------------------------------------------------------- ordering

  predicate StrictlyIncreasing(s: seq<Point>)
  {
    forall j, k :: 0 <= j < k < |s| ==> s[j].timestamp < s[k].timestamp
  }

  /** Every non-empty document holds exactly `len` samples. */
  predicate UniformLength(cfg: Config, docs: seq<Packet>, len: nat)
  {
    forall d :: 0 <= d < |docs| ==> Samples(cfg, docs[d]) == [] || |Samples(cfg, docs[d])| == len
  }

  /** Stamps of offsets in [lo, hi) lie in (now - hi * iv, now - lo * iv]. */
  lemma StampBetween(now: int, off: nat, lo: nat, hi: nat, iv: nat)
    requires lo <= off < hi && iv > 0
    ensures now - hi * iv < now - off * iv <= now - lo * iv
  {
  }

  lemma SlotsOfNext(m: nat, len: nat)
    ensures (m + 1) * len == m * len + len
  {
  }

  /** The timestamp after which all points of documents d and later lie, when every
      non-empty document holds `len` samples: `now` for d = n, one document's span of
      `len` samples earlier for each document before that. */
  function Horizon(cfg: Config, now: int, n: nat, d: nat, len: nat): int
    requires d <= n
    decreases n - d
  {
    if d == n then now else Horizon(cfg, now, n, d + 1, len) - Span(cfg, len)
  }

  /** The time covered by one document of `len` samples. */
  function Span(cfg: Config, len: nat): (w: int)
    ensures w >= 0
  {
    len * cfg.intraPacketIntervalMs
  }

  lemma HorizonStep(cfg: Config, now: int, n: nat, d: nat, len: nat)
    requires d < n
    ensures Horizon(cfg, now, n, d, len) <= Horizon(cfg, now, n, d + 1, len)
  {
  }

  lemma Distrib(a: int, b: int, c: int)
    ensures (a + b) * c == a * c + b * c
  {
  }

  lemma {:induction false} HorizonClosed(cfg: Config, now: int, n: nat, d: nat, len: nat)
    requires d <= n
    ensures Horizon(cfg, now, n, d, len) == now - ((n - d) * len) * cfg.intraPacketIntervalMs
    decreases n - d
  {
    if d < n {
      HorizonClosed(cfg, now, n, d + 1, len);
      SlotsOfNext(n - d - 1, len);
      Distrib((n - d - 1) * len, len, cfg.intraPacketIntervalMs);
    }
  }

  /** The timestamps of block d strictly increase and lie in
      (Horizon(d), Horizon(d + 1)]. */
  lemma BlockBounds(cfg: Config, now: int, docs: seq<Packet>, d: nat, len: nat)
    requires d < |docs| && |Samples(cfg, docs[d])| == len && cfg.intraPacketIntervalMs > 0
    ensures var b := Block(cfg, now, docs, d);
            StrictlyIncreasing(b) &&
            forall i :: 0 <= i < |b| ==>
              Horizon(cfg, now, |docs|, d, len) < b[i].timestamp <= Horizon(cfg, now, |docs|, d + 1, len)
  {
    var b := Block(cfg, now, docs, d);
    var iv := cfg.intraPacketIntervalMs;
    var n := |docs|;
    var lo := (n - d - 1) * len;
    var hi := (n - d) * len;
    SlotsOfNext(n - d - 1, len);
    assert hi == lo + len;
    HorizonClosed(cfg, now, n, d, len);
    HorizonClosed(cfg, now, n, d + 1, len);
    forall i | 0 <= i < |b|
      ensures now - hi * iv < b[i].timestamp <= now - lo * iv
    {
      var off := SamplesFromEnd(n, d, len, i);
      assert off == lo + (len - 1 - i);
      assert b[i].timestamp == now - off * iv;
      StampBetween(now, off, lo, hi, iv);
    }
    forall j, k | 0 <= j < k < |b| ensures b[j].timestamp < b[k].timestamp {
      var offJ := SamplesFromEnd(n, d, len, j);
      var offK := SamplesFromEnd(n, d, len, k);
      assert offJ == lo + (len - 1 - j) && offK == lo + (len - 1 - k);
      assert b[j].timestamp == now - offJ * iv && b[k].timestamp == now - offK * iv;
      StampBetween(now, offK, offK, offJ, iv);
    }
  }

  /** Every timestamp of s is at most t. */
  predicate StampsAtMost(s: seq<Point>, t: int)
  {
    forall k :: 0 <= k < |s| ==> s[k].timestamp <= t
  }

  lemma ConcatIncreasing(s: seq<Point>, b: seq<Point>, t: int)
    requires StrictlyIncreasing(s) && StrictlyIncreasing(b) && StampsAtMost(s, t)
    requires forall k :: 0 <= k < |b| ==> t < b[k].timestamp
    ensures StrictlyIncreasing(s + b)
  {
  }

  /** Chunks that each increase strictly and lie in consecutive windows (hs[d], hs[d + 1]]
      of non-decreasing bounds join into a strictly increasing sequence. */
  lemma {:induction false} ConcatOrdered(bs: seq<seq<Point>>, hs: seq<int>, hi: nat)
    requires hi <= |bs| && |hs| == |bs| + 1
    requires forall d :: 0 <= d < |bs| ==> hs[d] <= hs[d + 1]
    requires forall d :: 0 <= d < |bs| ==> StrictlyIncreasing(bs[d])
    requires forall d, k :: 0 <= d < |bs| && 0 <= k < |bs[d]| ==> hs[d] < bs[d][k].timestamp <= hs[d + 1]
    ensures StrictlyIncreasing(Concat(bs, 0, hi)) && StampsAtMost(Concat(bs, 0, hi), hs[hi])
    decreases hi
  {
    if hi > 0 {
      ConcatOrdered(bs, hs, hi - 1);
      var s := Concat(bs, 0, hi - 1);
      var b := bs[hi - 1];
      assert Concat(bs, 0, hi) == s + b;
      assert StampsAtMost(s, hs[hi]);
      ConcatIncreasing(s, b, hs[hi - 1]);
    }
  }

  /** Under uniform lengths, the block of document d increases strictly and lies in
      (Horizon(d), Horizon(d + 1)]; an empty block does so trivially. */
  lemma BlockWindow(cfg: Config, now: int, docs: seq<Packet>, d: nat, len: nat)
    requires d < |docs| && cfg.intraPacketIntervalMs > 0 && UniformLength(cfg, docs, len)
    ensures var b := Blocks(cfg, now, docs)[d];
            StrictlyIncreasing(b) &&
            forall k :: 0 <= k < |b| ==>
              Horizon(cfg, now, |docs|, d, len) < b[k].timestamp <= Horizon(cfg, now, |docs|, d + 1, len)
  {
    assert Blocks(cfg, now, docs)[d] == Block(cfg, now, docs, d);
    if Samples(cfg, docs[d]) != [] {
      BlockBounds(cfg, now, docs, d, len);
    }
  }

  /** Under uniform lengths the blocks and the horizons, given as sequences, meet the
      requirements of ConcatOrdered. */
  lemma UniformWindows(cfg: Config, now: int, docs: seq<Packet>, len: nat,
                       bs: seq<seq<Point>>, hs: seq<int>)
    requires cfg.intraPacketIntervalMs > 0 && UniformLength(cfg, docs, len)
    requires bs == Blocks(cfg, now, docs) && |hs| == |bs| + 1
    requires forall d :: 0 <= d <= |docs| ==> hs[d] == Horizon(cfg, now, |docs|, d, len)
    ensures forall d :: 0 <= d < |bs| ==> hs[d] <= hs[d + 1]
    ensures forall d :: 0 <= d < |bs| ==> StrictlyIncreasing(bs[d])
    ensures forall d, k :: 0 <= d < |bs| && 0 <= k < |bs[d]| ==> hs[d] < bs[d][k].timestamp <= hs[d + 1]
  {
    forall d | 0 <= d < |bs|
      ensures hs[d] <= hs[d + 1] && StrictlyIncreasing(bs[d])
    {
      HorizonStep(cfg, now, |docs|, d, len);
      BlockWindow(cfg, now, docs, d, len);
    }
    forall d, k | 0 <= d < |bs| && 0 <= k < |bs[d]|
      ensures hs[d] < bs[d][k].timestamp <= hs[d + 1]
    {
      assert hs[d] == Horizon(cfg, now, |docs|, d, len);
      assert hs[d + 1] == Horizon(cfg, now, |docs|, d + 1, len);
      BlockWindow(cfg, now, docs, d, len);
    }
  }

  lemma {:induction false} UntruncatedOrdered(cfg: Config, now: int, docs: seq<Packet>, len: nat)
    requires cfg.intraPacketIntervalMs > 0 && UniformLength(cfg, docs, len)
    ensures StrictlyIncreasing(Untruncated(cfg, now, docs))
  {
    var n := |docs|;
    var bs := Blocks(cfg, now, docs);
    var hs := seq(n + 1, d requires 0 <= d <= n => Horizon(cfg, now, n, d, len));
    UniformWindows(cfg, now, docs, len, bs, hs);
    ConcatOrdered(bs, hs, n);
  }

  lemma SuffixIncreasing(s: seq<Point>, m: nat)
    requires StrictlyIncreasing(s) && m <= |s|
    ensures StrictlyIncreasing(s[m..])
  {
    forall j, k | 0 <= j < k < |s| - m ensures s[m..][j].timestamp < s[m..][k].timestamp {
      assert s[m..][j] == s[m + j] && s[m..][k] == s[m + k];
    }
  }

  /** When every non-empty document holds the same number of samples and the interval
      is positive, the timestamps of the output strictly increase. */
  lemma FlattenOrderedWhenUniform(cfg: Config, now: int, docs: seq<Packet>, len: nat)
    requires cfg.intraPacketIntervalMs > 0 && UniformLength(cfg, docs, len)
    ensures StrictlyIncreasing(Flatten(cfg, now, docs))
  {
    var u := Untruncated(cfg, now, docs);
    var r := Flatten(cfg, now, docs);
    UntruncatedOrdered(cfg, now, docs, len);
    SuffixIncreasing(u, |u| - |r|);
  }

  /** A document that holds only the configured scored channel. */
  function OnlyScored(vs: seq<Value>): Packet
  {
    Packet(Some(map[Default.scoreChannel := ArrayOf(vs)]))
  }

  /** With documents of different lengths the order can break: a one-sample document
      followed by a three-sample one puts `now - 200` before `now - 400`. */
  lemma UnequalLengthsCanReorder(now: int)
    ensures var u := Flatten(Default, now,
                      [OnlyScored([Finite(2700.0)]),
                       OnlyScored([Finite(2700.0), Finite(2700.0), Finite(2700.0)])]);
            |u| == 4 && u[0].timestamp == now - 200 && u[1].timestamp == now - 400
  {
    var docs := [OnlyScored([Finite(2700.0)]), OnlyScored([Finite(2700.0), Finite(2700.0), Finite(2700.0)])];
    assert Samples(Default, docs[0]) == [2700.0];
    assert Samples(Default, docs[1]) == [2700.0, 2700.0, 2700.0];
    var bs := Blocks(Default, now, docs);
    ConcatOne(bs, 0);
    var u := Untruncated(Default, now, docs);
    assert u == Block(Default, now, docs, 0) + Block(Default, now, docs, 1);
    assert u[0] == Block(Default, now, docs, 0)[0];
    assert u[1] == Block(Default, now, docs, 1)[0];
  }
}
