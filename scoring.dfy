/** Score normalisation and risk classification. */
module Scoring {
  import opened SensorConfig

  function Min(a: real, b: real): real { if a <= b then a else b }
  function Max(a: real, b: real): real { if a >= b then a else b }

  /** Clamps a value into [0, 1]. */
  function Clamp01(x: real): (r: real)
    ensures 0.0 <= r <= 1.0
    ensures 0.0 <= x <= 1.0 ==> r == x
    ensures x < 0.0 ==> r == 0.0
    ensures x > 1.0 ==> r == 1.0
  {
    Max(0.0, Min(1.0, x))
  }

  /** The floor under the width of the range, so that the division is always defined. */
  const Epsilon: real := 0.000000001

  /** The width of the range, never below Epsilon. */
  function Width(range: ScoreRange): (w: real)
    ensures w >= Epsilon > 0.0
    ensures range.max - range.min >= Epsilon ==> w == range.max - range.min
    ensures range.max - range.min < Epsilon ==> w == Epsilon
  {
    Max(Epsilon, range.max - range.min)
  }

  /** Maps a raw reading affinely onto the range and clamps the result into [0, 1]. */
  function Normalize(range: ScoreRange, v: real): (s: real)
    ensures 0.0 <= s <= 1.0
  {
    Clamp01((v - range.min) / Width(range))
  }

  lemma DivMonotone(a: real, b: real, d: real)
    requires a <= b && d > 0.0
    ensures a / d <= b / d
  {
  }

  /** A larger reading never yields a smaller score. */
  lemma NormalizeMonotone(range: ScoreRange, v: real, w: real)
    requires v <= w
    ensures Normalize(range, v) <= Normalize(range, w)
  {
  }

  /** Inside a proper range the score is the affine position of the reading;
      at or below the minimum it is 0, at or above the maximum it is 1. */
  lemma NormalizeInRange(range: ScoreRange, v: real)
    requires range.max - range.min >= Epsilon
    ensures range.min <= v <= range.max ==>
              Normalize(range, v) == (v - range.min) / (range.max - range.min)
    ensures v <= range.min ==> Normalize(range, v) == 0.0
    ensures v >= range.max ==> Normalize(range, v) == 1.0
  {
    var d := range.max - range.min;
    assert d / d == 1.0;
    if v <= range.min {
      DivMonotone(v - range.min, 0.0, d);
    }
    if v >= range.max {
      DivMonotone(d, v - range.min, d);
    }
    if range.min <= v <= range.max {
      DivMonotone(0.0, v - range.min, d);
      DivMonotone(v - range.min, d, d);
    }
  }

  datatype Risk = Low | Moderate | High

  const HighThreshold: real := 0.6
  const ModerateThreshold: real := 0.3

  /** Classifies a score; each band includes its lower bound. */
  function RiskFromScore(s: real): (r: Risk)
    ensures r == High <==> s >= HighThreshold
    ensures r == Moderate <==> ModerateThreshold <= s < HighThreshold
    ensures r == Low <==> s < ModerateThreshold
  {
    if s >= HighThreshold then High
    else if s >= ModerateThreshold then Moderate
    else Low
  }

  /** The ordinal position of a risk level. */
  function Rank(r: Risk): nat
  {
    match r
    case Low => 0
    case Moderate => 1
    case High => 2
  }

  /** A higher score never yields a lower risk level. */
  lemma RiskMonotone(s: real, t: real)
    requires s <= t
    ensures Rank(RiskFromScore(s)) <= Rank(RiskFromScore(t))
  {
  }

  /** The worked values of the configured range 2600..3200. */
  lemma ConfiguredExamples()
    ensures Normalize(Default.scoreRange, 2900.0) == 0.5
    ensures RiskFromScore(Normalize(Default.scoreRange, 2900.0)) == Moderate
    ensures Normalize(Default.scoreRange, 3200.0) == 1.0
    ensures RiskFromScore(Normalize(Default.scoreRange, 3200.0)) == High
    ensures Normalize(Default.scoreRange, 2000.0) == 0.0
    ensures RiskFromScore(Normalize(Default.scoreRange, 2000.0)) == Low
  {
    NormalizeInRange(Default.scoreRange, 2900.0);
    NormalizeInRange(Default.scoreRange, 3200.0);
    NormalizeInRange(Default.scoreRange, 2000.0);
  }
}
