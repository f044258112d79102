/**
 * The final-amplitude predictor. From the history it computes, once, the
 * mean, the variance and a percentile table of the positive candle ranges;
 * for a candle still forming it blends three estimates of the final range,
 * derives a confidence, an expansion probability and a percentile bucket,
 * and runs two first-match rule cascades: the expected movement, then the
 * entry strategy.
 */
module Amplitude {
  import opened Market
  import opened Statistics

  // ---------------------------------------------------------------------
  // Statistics of the history

  /** The percentile levels the table holds, in the order they are computed. */
  const PercentileLevels: seq<int> := [10, 25, 50, 75, 90, 95]

  /** The same levels from the highest down, the order in which a bucket is searched. */
  const DescendingLevels: seq<int> := [95, 90, 75, 50, 25, 10]

  predicate IsLevel(p: int) {
    p == 10 || p == 25 || p == 50 || p == 75 || p == 90 || p == 95
  }

  /** The levels are exactly the entries of both lists. */
  lemma LevelsListed()
    ensures forall p :: IsLevel(p) <==> p in PercentileLevels
    ensures forall p :: IsLevel(p) <==> p in DescendingLevels
  {
  }

  /** The ranges high - low of the candles, in order, keeping only the positive ones. */
  function PositiveAmplitudes(candles: seq<Candle>): (amps: seq<real>)
    ensures |amps| <= |candles|
    ensures forall i :: 0 <= i < |amps| ==> amps[i] > 0.0
  {
    if |candles| == 0 then []
    else
      var last := candles[|candles| - 1];
      var amp := last.high - last.low;
      PositiveAmplitudes(candles[..|candles| - 1]) + (if amp > 0.0 then [amp] else [])
  }

  /** The range high - low of every candle, in order. */
  function Ranges(candles: seq<Candle>): (r: seq<real>)
    ensures |r| == |candles|
    ensures forall i :: 0 <= i < |candles| ==> r[i] == candles[i].high - candles[i].low
  {
    if |candles| == 0 then []
    else
      var last := candles[|candles| - 1];
      Ranges(candles[..|candles| - 1]) + [last.high - last.low]
  }

  /** Exactly the positive ranges enter the sample. */
  lemma {:induction false} SampleIsThePositiveRanges(candles: seq<Candle>)
    ensures forall a :: a in PositiveAmplitudes(candles) <==> a > 0.0 && a in Ranges(candles)
  {
    if |candles| > 0 {
      var prefix := candles[..|candles| - 1];
      SampleIsThePositiveRanges(prefix);
      var last := candles[|candles| - 1];
      assert Ranges(candles) == Ranges(prefix) + [last.high - last.low];
      assert PositiveAmplitudes(candles) ==
             PositiveAmplitudes(prefix) + (if last.high - last.low > 0.0 then [last.high - last.low] else []);
    }
  }

  /** The mean of the sample, or 0 when there is none. */
  function MeanAmplitudeOf(amps: seq<real>): (m: real)
    requires forall i :: 0 <= i < |amps| ==> amps[i] > 0.0
    ensures m >= 0.0
    ensures m == 0.0 <==> |amps| == 0
  {
    if |amps| == 0 then 0.0
    else
      MeanPositive(amps);
      Mean(amps)
  }

  /** The sample variance, or 0 for no sample or a single value. */
  function VarianceAmplitudeOf(amps: seq<real>): (v: real)
    ensures v >= 0.0
    ensures |amps| <= 1 ==> v == 0.0
  {
    if |amps| <= 1 then 0.0 else Variance(amps)
  }

  /** The table mapping each of the given levels to the sample's percentile at that level. */
  function TableOf(amps: seq<real>, levels: seq<int>): map<int, real>
    requires |amps| > 0
  {
    map p | p in levels && 0 <= p <= 100 :: Percentile(amps, p)
  }

  /** Every listed level is a percentage. */
  lemma LevelsInRange()
    ensures forall i :: 0 <= i < |PercentileLevels| ==> 0 <= PercentileLevels[i] <= 100
  {
  }

  /** A prefix one longer is the prefix followed by the next element. */
  lemma PrefixExtend(s: seq<int>, j: int)
    requires 0 <= j < |s|
    ensures s[..j + 1] == s[..j] + [s[j]]
  {
  }

  /** Storing one more level's percentile extends the table by that level. */
  lemma TableOfExtend(amps: seq<real>, levels: seq<int>, p: int)
    requires |amps| > 0 && 0 <= p <= 100
    ensures TableOf(amps, levels + [p]) == TableOf(amps, levels)[p := Percentile(amps, p)]
    ensures p in TableOf(amps, levels + [p])
  {
    var extended := levels + [p];
    assert forall q :: q in extended <==> q in levels || q == p;
  }

  /** The percentile table: empty without a sample, otherwise one entry per level. */
  function PercentileTable(amps: seq<real>): (t: map<int, real>)
    ensures |amps| == 0 <==> t == map[]
  {
    if |amps| == 0 then map[]
    else
      var t := TableOf(amps, PercentileLevels);
      assert PercentileLevels[0] in t;
      t
  }

  /** With a sample, the table holds every level and only levels, each with its percentile. */
  lemma PercentileTableContents(amps: seq<real>)
    requires |amps| > 0
    ensures forall p :: p in PercentileTable(amps) <==> IsLevel(p)
    ensures forall p :: p in PercentileTable(amps) ==> 0 <= p <= 100 && PercentileTable(amps)[p] == Percentile(amps, p)
  {
    LevelsListed();
  }

  /** A higher level never holds a smaller value. */
  lemma PercentileTableOrdered(amps: seq<real>, p: int, q: int)
    requires p in PercentileTable(amps) && q in PercentileTable(amps) && p <= q
    ensures PercentileTable(amps)[p] <= PercentileTable(amps)[q]
  {
    PercentileTableContents(amps);
    PercentileMonotone(amps, p, q);
  }

  /** A mean of 0 and an empty table go together: both mean that no range was positive. */
  lemma MeanZeroIffTableEmpty(candles: seq<Candle>)
    ensures var amps := PositiveAmplitudes(candles);
            MeanAmplitudeOf(amps) == 0.0 <==> PercentileTable(amps) == map[]
  {
  }

  // ---------------------------------------------------------------------
  // Percentile bucket

  /** The first of the descending levels, from position i on, whose stored value the amplitude reaches; 10 if none. */
  function FirstLevelReached(table: map<int, real>, amp: real, i: nat): (p: int)
    requires i <= |DescendingLevels|
    ensures IsLevel(p)
    decreases |DescendingLevels| - i
  {
    if i == |DescendingLevels| then 10
    else
      var level := DescendingLevels[i];
      if level in table && amp >= table[level] then level
      else FirstLevelReached(table, amp, i + 1)
  }

  /**
   * The percentile bucket of an amplitude: 50 for an empty table, otherwise
   * the first level reached. The search runs over the six levels rather than
   * over the table's own keys; the two agree because a stored table is
   * either empty or holds exactly the six levels (PercentileTableContents).
   */
  function PercentilePosition(table: map<int, real>, amp: real): (p: int)
    ensures IsLevel(p)
    ensures |table| == 0 ==> p == 50
  {
    if |table| == 0 then 50 else FirstLevelReached(table, amp, 0)
  }

  /**
   * The first-match meaning of the search from position i: the result is
   * reached (or is the fallback 10 with nothing reached), and no level
   * searched before it is reached.
   */
  lemma {:induction false} FirstLevelReachedIsFirst(table: map<int, real>, amp: real, i: nat)
    requires i <= |DescendingLevels|
    ensures var p := FirstLevelReached(table, amp, i);
            (p in table && amp >= table[p]) ||
            (p == 10 && forall j :: i <= j < |DescendingLevels| && DescendingLevels[j] in table ==>
                                      amp < table[DescendingLevels[j]])
    ensures var p := FirstLevelReached(table, amp, i);
            forall j :: i <= j < |DescendingLevels| && DescendingLevels[j] > p && DescendingLevels[j] in table ==>
              amp < table[DescendingLevels[j]]
    decreases |DescendingLevels| - i
  {
    if i < |DescendingLevels| {
      FirstLevelReachedIsFirst(table, amp, i + 1);
    }
  }

  /** Over a full table the bucket is the highest level whose value the amplitude reaches, else 10. */
  lemma PercentilePositionIsHighestReached(table: map<int, real>, amp: real)
    requires |table| > 0
    ensures var p := PercentilePosition(table, amp);
            (p in table && amp >= table[p]) ||
            (p == 10 && forall q :: q in table && IsLevel(q) ==> amp < table[q])
    ensures var p := PercentilePosition(table, amp);
            forall q :: q in table && IsLevel(q) && q > p ==> amp < table[q]
  {
    FirstLevelReachedIsFirst(table, amp, 0);
    var p := PercentilePosition(table, amp);
    forall q | q in table && IsLevel(q)
      ensures exists j :: 0 <= j < |DescendingLevels| && DescendingLevels[j] == q
    {
      if q == 95 { assert DescendingLevels[0] == q; }
      else if q == 90 { assert DescendingLevels[1] == q; }
      else if q == 75 { assert DescendingLevels[2] == q; }
      else if q == 50 { assert DescendingLevels[3] == q; }
      else if q == 25 { assert DescendingLevels[4] == q; }
      else { assert DescendingLevels[5] == q; }
    }
  }

  /** A larger amplitude never falls into a lower bucket. */
  lemma {:induction false} FirstLevelReachedMonotone(table: map<int, real>, a1: real, a2: real, i: nat)
    requires i <= |DescendingLevels| && a1 <= a2
    ensures FirstLevelReached(table, a1, i) <= FirstLevelReached(table, a2, i)
    decreases |DescendingLevels| - i
  {
    if i < |DescendingLevels| {
      FirstLevelReachedMonotone(table, a1, a2, i + 1);
      assert forall j :: i <= j < |DescendingLevels| ==> DescendingLevels[j] <= DescendingLevels[i];
      FirstLevelReachedBelow(table, a1, i + 1);
    }
  }

  /** The search from position i + 1 finds at most the level at position i. */
  lemma {:induction false} FirstLevelReachedBelow(table: map<int, real>, amp: real, i: nat)
    requires 1 <= i <= |DescendingLevels|
    ensures FirstLevelReached(table, amp, i) <= DescendingLevels[i - 1]
    decreases |DescendingLevels| - i
  {
    if i < |DescendingLevels| {
      FirstLevelReachedBelow(table, amp, i + 1);
    }
  }

  lemma PercentilePositionMonotone(table: map<int, real>, a1: real, a2: real)
    requires a1 <= a2
    ensures PercentilePosition(table, a1) <= PercentilePosition(table, a2)
  {
    if |table| > 0 {
      FirstLevelReachedMonotone(table, a1, a2, 0);
    }
  }

  // ---------------------------------------------------------------------
  // Amplitude estimates

  /** The current range; a zero range is replaced by 0.01 so that it can divide. */
  function CurrentAmplitude(high: real, low: real): (a: real)
    ensures a != 0.0
    ensures high - low != 0.0 ==> a == high - low
    ensures high - low == 0.0 ==> a == 0.01
  {
    if high - low == 0.0 then 0.01 else high - low
  }

  /** The fraction of the 15-minute candle that has elapsed. */
  function TimeRatio(elapsedMinutes: real): real {
    elapsedMinutes / 15.0
  }

  /** The growth factor of the linear extrapolation: the earlier in the candle, the more growth is left. */
  function GrowthFactor(timeRatio: real): (g: real)
    ensures 1.15 <= g <= 1.8
  {
    if timeRatio < 0.33 then 1.8
    else if timeRatio < 0.67 then 1.4
    else if timeRatio < 0.83 then 1.2
    else 1.15
  }

  lemma GrowthFactorNonIncreasing(t1: real, t2: real)
    requires t1 <= t2
    ensures GrowthFactor(t1) >= GrowthFactor(t2)
  {
  }

  /** In minutes the bands end at 4.95, 10.05 and 12.45. */
  lemma GrowthFactorBands(elapsedMinutes: real)
    ensures elapsedMinutes < 4.95 ==> GrowthFactor(TimeRatio(elapsedMinutes)) == 1.8
    ensures 4.95 <= elapsedMinutes < 10.05 ==> GrowthFactor(TimeRatio(elapsedMinutes)) == 1.4
    ensures 10.05 <= elapsedMinutes < 12.45 ==> GrowthFactor(TimeRatio(elapsedMinutes)) == 1.2
    ensures 12.45 <= elapsedMinutes ==> GrowthFactor(TimeRatio(elapsedMinutes)) == 1.15
  {
  }

  /** Method 1: the current range extrapolated by the growth factor. */
  function LinearEstimate(currentAmplitude: real, timeRatio: real): (e: real)
    ensures currentAmplitude > 0.0 ==> 1.15 * currentAmplitude <= e <= 1.8 * currentAmplitude
  {
    currentAmplitude * GrowthFactor(timeRatio)
  }

  /**
   * Method 2: from the historical mean. A very volatile candle (over 1.5
   * means) grows 5%, a calm one (under half a mean) gets 0.8 means, any
   * other the mean; without a mean it is the linear estimate.
   */
  function MeanEstimate(currentAmplitude: real, meanAmplitude: real, linear: real): (e: real)
    ensures meanAmplitude <= 0.0 ==> e == linear
  {
    if meanAmplitude > 0.0 then
      var ratio := currentAmplitude / meanAmplitude;
      if ratio > 1.5 then currentAmplitude * 1.05
      else if ratio < 0.5 then meanAmplitude * 0.8
      else meanAmplitude
    else linear
  }

  /** With a mean, the estimate is at least 0.8 means and at most the larger of 1.05 ranges and one mean. */
  lemma MeanEstimateBounds(currentAmplitude: real, meanAmplitude: real, linear: real)
    requires meanAmplitude > 0.0
    ensures 0.8 * meanAmplitude <= MeanEstimate(currentAmplitude, meanAmplitude, linear)
    ensures MeanEstimate(currentAmplitude, meanAmplitude, linear) <= Max(1.05 * currentAmplitude, meanAmplitude)
  {
    var ratio := currentAmplitude / meanAmplitude;
    if ratio > 1.5 {
      assert currentAmplitude == ratio * meanAmplitude;
      assert currentAmplitude > 1.5 * meanAmplitude;
    }
  }

  /** Method 3: a predicted close outside the range stretches it to the close plus 10%; inside, 5% growth. */
  function CloseEstimate(currentAmplitude: real, high: real, low: real, predictedClose: real): (e: real)
    ensures low <= predictedClose <= high ==> e == currentAmplitude * 1.05
    ensures predictedClose > high ==> e == (predictedClose - low) * 1.1
    ensures predictedClose < low <= high ==> e == (high - predictedClose) * 1.1
  {
    if predictedClose > high then (predictedClose - low) * 1.1
    else if predictedClose < low then (high - predictedClose) * 1.1
    else currentAmplitude * 1.05
  }

  /** A close predicted outside an ordered range gives more than 1.1 times the range. */
  lemma BreakoutStretchesRange(high: real, low: real, predictedClose: real)
    requires low <= high
    requires predictedClose > high || predictedClose < low
    ensures CloseEstimate(CurrentAmplitude(high, low), high, low, predictedClose) > 1.1 * (high - low)
  {
  }

  /** The blend 0.3 / 0.3 / 0.4 of the three estimates; it lies between the smallest and the largest. */
  function BlendedAmplitude(linear: real, mean: real, close: real): (a: real)
    ensures Min(linear, Min(mean, close)) <= a <= Max(linear, Max(mean, close))
  {
    0.3 * linear + 0.3 * mean + 0.4 * close
  }

  /** The confidence grows with elapsed time from 40 and is capped at 95. */
  function Confidence(timeRatio: real): (c: real)
    ensures c <= 95.0
    ensures timeRatio >= 0.0 ==> c >= 40.0
  {
    Min(95.0, 40.0 + timeRatio * 60.0)
  }

  lemma ConfidenceProfile(e1: real, e2: real)
    requires e1 <= e2
    ensures Confidence(TimeRatio(0.0)) == 40.0
    ensures Confidence(TimeRatio(15.0)) == 95.0
    ensures e1 >= 13.75 ==> Confidence(TimeRatio(e1)) == 95.0
    ensures Confidence(TimeRatio(e1)) <= Confidence(TimeRatio(e2))
  {
  }

  /** The relative growth still expected: (predicted - current) / current, or 0 for a negative range. */
  function GrowthPotential(currentAmplitude: real, predictedAmplitude: real): (g: real)
    ensures currentAmplitude > 0.0 && predictedAmplitude >= currentAmplitude ==> g >= 0.0
    ensures currentAmplitude <= 0.0 ==> g == 0.0
  {
    if currentAmplitude > 0.0 then (predictedAmplitude - currentAmplitude) / currentAmplitude else 0.0
  }

  /** Where a price sits in the range, 0 at the low and 1 at the high; 0.5 for a negative range. */
  function RangePosition(price: real, low: real, currentAmplitude: real): (pos: real)
    ensures currentAmplitude > 0.0 && low <= price <= low + currentAmplitude ==> 0.0 <= pos <= 1.0
    ensures currentAmplitude <= 0.0 ==> pos == 0.5
  {
    if currentAmplitude > 0.0 then
      var pos := (price - low) / currentAmplitude;
      assert pos * currentAmplitude == price - low;
      pos
    else 0.5
  }

  datatype PriceLabel = Top | Bottom | Middle

  /** TOP above 0.7 of the range, BOTTOM below 0.3, MIDDLE otherwise. */
  function PriceLabelOf(position: real): (l: PriceLabel)
    ensures l == Top <==> position > 0.7
    ensures l == Bottom <==> position < 0.3
  {
    if position > 0.7 then Top else if position < 0.3 then Bottom else Middle
  }

  // ---------------------------------------------------------------------
  // Expansion probability

  function TimeFactor(timeRatio: real): (f: real)
    ensures 0.45 <= f <= 0.85
  {
    if timeRatio > 0.83 then 0.85 else if timeRatio > 0.67 then 0.65 else 0.45
  }

  function PredictionFactor(high: real, low: real, predictedClose: real): (f: real)
    ensures f == 0.9 <==> predictedClose > high || predictedClose < low
    ensures f == 0.5 <==> low <= predictedClose <= high
  {
    if predictedClose > high || predictedClose < low then 0.9 else 0.5
  }

  /** The weighted factors before clamping. */
  function RawExpansion(currentAmplitude: real, predictedAmplitude: real, elapsedMinutes: real,
                        price: real, high: real, low: real, predictedClose: real): real
  {
    var growth := Min(1.0, Max(0.0, GrowthPotential(currentAmplitude, predictedAmplitude)));
    var position := RangePosition(price, low, currentAmplitude);
    var positionFactor := 1.0 - Abs(position - 0.5) * 2.0;
    growth * 0.25 + positionFactor * 0.20 + TimeFactor(TimeRatio(elapsedMinutes)) * 0.30 +
    PredictionFactor(high, low, predictedClose) * 0.25
  }

  /**
   * The probability that the candle keeps expanding: growth potential,
   * centrality of the price, elapsed time and a breakout of the predicted
   * close, weighted 0.25 / 0.20 / 0.30 / 0.25 and clamped to [0, 1].
   */
  function ExpansionProbability(currentAmplitude: real, predictedAmplitude: real, elapsedMinutes: real,
                                price: real, high: real, low: real, predictedClose: real): (prob: real)
    ensures 0.0 <= prob <= 1.0
  {
    Max(0.0, Min(1.0, RawExpansion(currentAmplitude, predictedAmplitude, elapsedMinutes, price, high, low, predictedClose)))
  }

  /** With the price inside a positive range no clamping happens: the probability lies in [0.26, 0.93]. */
  lemma ExpansionWithinRangeBounds(currentAmplitude: real, predictedAmplitude: real, elapsedMinutes: real,
                                   price: real, high: real, low: real, predictedClose: real)
    requires currentAmplitude > 0.0 && low <= price <= low + currentAmplitude
    ensures var prob := ExpansionProbability(currentAmplitude, predictedAmplitude, elapsedMinutes, price, high, low, predictedClose);
            0.26 <= prob <= 0.93
  {
    var position := RangePosition(price, low, currentAmplitude);
    assert 0.0 <= 1.0 - Abs(position - 0.5) * 2.0 <= 1.0;
  }

  /** A predicted close outside the range never gives a lower probability than one inside. */
  lemma BreakoutNeverLowersExpansion(currentAmplitude: real, predictedAmplitude: real, elapsedMinutes: real,
                                     price: real, high: real, low: real, outside: real, inside: real)
    requires outside > high || outside < low
    requires low <= inside <= high
    ensures ExpansionProbability(currentAmplitude, predictedAmplitude, elapsedMinutes, price, high, low, inside)
            <= ExpansionProbability(currentAmplitude, predictedAmplitude, elapsedMinutes, price, high, low, outside)
  {
  }

  /** Later in the candle the probability never drops, all else equal. */
  lemma LaterNeverLowersExpansion(currentAmplitude: real, predictedAmplitude: real, e1: real, e2: real,
                                  price: real, high: real, low: real, predictedClose: real)
    requires e1 <= e2
    ensures ExpansionProbability(currentAmplitude, predictedAmplitude, e1, price, high, low, predictedClose)
            <= ExpansionProbability(currentAmplitude, predictedAmplitude, e2, price, high, low, predictedClose)
  {
    assert TimeFactor(TimeRatio(e1)) <= TimeFactor(TimeRatio(e2));
  }

  // ---------------------------------------------------------------------
  // Movement expectation

  datatype Expectation = Pullback | GainStrength | Consolidate | ReverseColor | NeutralMove

  datatype MovementAnalysis = MovementAnalysis(
    expectation: Expectation,
    confidence: real,
    willPullback: bool,
    willGainStrength: bool,
    willConsolidate: bool,
    willReverseColor: bool)

  /** The confidence attached to each expectation. */
  function ExpectationConfidence(e: Expectation): (c: real)
    ensures 0.5 <= c <= 0.8
    ensures c > 0.75 <==> e == GainStrength
  {
    match e
    case Pullback => 0.75
    case GainStrength => 0.80
    case Consolidate => 0.70
    case ReverseColor => 0.65
    case NeutralMove => 0.50
  }

  /** A price near one end of the range with the predicted close back towards the middle. */
  predicate WillPullback(pricePosition: real, predictedPosition: real) {
    (pricePosition > 0.75 && predictedPosition < 0.6) || (pricePosition < 0.25 && predictedPosition > 0.4)
  }

  /** The distance from the price to the predicted close in ranges; 0 for a range that is not positive. */
  function DistanceRatio(price: real, high: real, low: real, predictedClose: real): (d: real)
    ensures d >= 0.0
  {
    var range := high - low;
    if range > 0.0 then Abs(predictedClose - price) / range else 0.0
  }

  /** The colour read from the price against the midpoint, and the one the direction "compra" (buy) predicts. */
  predicate WillReverseColor(price: real, high: real, low: real, direction: string, probability: real) {
    var currentGreen := price > (high + low) / 2.0;
    var predictedGreen := direction == "compra";
    currentGreen != predictedGreen && probability > 0.6
  }

  /**
   * The expected movement: the first of pullback, gaining strength,
   * consolidating and reversing colour whose condition holds, else neutral;
   * all four conditions are reported as well.
   */
  function AnalyzeMovement(price: real, high: real, low: real, predictedClose: real, direction: string,
                           pricePosition: real, predictedPosition: real, probability: real): (m: MovementAnalysis)
    ensures m.willPullback == WillPullback(pricePosition, predictedPosition)
    ensures m.willGainStrength == (probability > 0.7 && DistanceRatio(price, high, low, predictedClose) > 0.3)
    ensures m.willConsolidate == (probability < 0.4 && DistanceRatio(price, high, low, predictedClose) < 0.2)
    ensures m.willReverseColor == WillReverseColor(price, high, low, direction, probability)
    ensures m.expectation == Pullback <==> m.willPullback
    ensures m.expectation == GainStrength <==> !m.willPullback && m.willGainStrength
    ensures m.expectation == Consolidate <==> !m.willPullback && m.willConsolidate
    ensures m.expectation == ReverseColor <==>
              !m.willPullback && !m.willGainStrength && !m.willConsolidate && m.willReverseColor
    ensures m.confidence == ExpectationConfidence(m.expectation)
  {
    var ratio := DistanceRatio(price, high, low, predictedClose);
    var pullback := WillPullback(pricePosition, predictedPosition);
    var gain := probability > 0.7 && ratio > 0.3;
    var consolidate := probability < 0.4 && ratio < 0.2;
    var reverse := WillReverseColor(price, high, low, direction, probability);
    var e :=
      if pullback then Pullback
      else if gain then GainStrength
      else if consolidate then Consolidate
      else if reverse then ReverseColor
      else NeutralMove;
    MovementAnalysis(e, ExpectationConfidence(e), pullback, gain, consolidate, reverse)
  }

  /** A price at 0.9 of the range with the close predicted at 0.5 is a pullback whatever the probability. */
  lemma PullbackWinsExample(price: real, high: real, low: real, predictedClose: real, direction: string, probability: real)
    ensures AnalyzeMovement(price, high, low, predictedClose, direction, 0.9, 0.5, probability).expectation == Pullback
  {
  }

  /** Neutral exactly when no condition holds. */
  lemma NeutralWhenNothingHolds(price: real, high: real, low: real, predictedClose: real, direction: string,
                                pricePosition: real, predictedPosition: real, probability: real)
    ensures var m := AnalyzeMovement(price, high, low, predictedClose, direction, pricePosition, predictedPosition, probability);
            m.expectation == NeutralMove <==>
              !m.willPullback && !m.willGainStrength && !m.willConsolidate && !m.willReverseColor
  {
  }

  // ---------------------------------------------------------------------
  // Entry strategy

  datatype EntryStrategy = HighConfidence | Defense | Wait | Hedge | NeutralEntry

  datatype StakeType = HighStake | LowStake | NoStake | NormalStake

  datatype RiskLevel = MediumRisk | HighRisk

  datatype EntryPlan = EntryPlan(strategy: EntryStrategy, confidenceModifier: int, stake: StakeType, risk: RiskLevel)

  /** The confidence modifier, stake and risk that go with each strategy. */
  function PlanFor(s: EntryStrategy): (plan: EntryPlan)
    ensures plan.strategy == s
    ensures plan.confidenceModifier > 0 <==> s == HighConfidence
    ensures plan.risk == HighRisk <==> s == Defense || s == Wait
  {
    match s
    case HighConfidence => EntryPlan(HighConfidence, 25, HighStake, MediumRisk)
    case Defense => EntryPlan(Defense, -20, LowStake, HighRisk)
    case Wait => EntryPlan(Wait, -30, NoStake, HighRisk)
    case Hedge => EntryPlan(Hedge, 0, NormalStake, MediumRisk)
    case NeutralEntry => EntryPlan(NeutralEntry, 0, NormalStake, MediumRisk)
  }

  /**
   * The entry strategy, first match wins: high confidence for a strong
   * move late in the candle, defence against a pullback or reversal, wait
   * through a consolidation, hedge a moderate probability, else neutral.
   */
  function DetermineEntry(expectation: Expectation, movementConfidence: real, probability: real,
                          elapsedMinutes: real): (plan: EntryPlan)
    ensures plan == PlanFor(plan.strategy)
    ensures plan.strategy == HighConfidence <==>
              expectation == GainStrength && probability > 0.75 && movementConfidence > 0.75 && elapsedMinutes > 12.5
    ensures plan.strategy == Defense <==> expectation == Pullback || expectation == ReverseColor
    ensures plan.strategy == Wait <==> expectation == Consolidate
    ensures plan.strategy == Hedge <==>
              expectation !in {Pullback, ReverseColor, Consolidate} && 0.5 < probability < 0.75
    ensures plan.strategy == NeutralEntry <==>
              expectation !in {Pullback, ReverseColor, Consolidate} && !(0.5 < probability < 0.75) &&
              !(expectation == GainStrength && probability > 0.75 && movementConfidence > 0.75 && elapsedMinutes > 12.5)
  {
    if expectation == GainStrength && probability > 0.75 && movementConfidence > 0.75 && elapsedMinutes > 12.5 then
      PlanFor(HighConfidence)
    else if expectation == Pullback || expectation == ReverseColor then PlanFor(Defense)
    else if expectation == Consolidate then PlanFor(Wait)
    else if probability > 0.5 && probability < 0.75 then PlanFor(Hedge)
    else PlanFor(NeutralEntry)
  }

  datatype Recommendation = Recommendation(movement: MovementAnalysis, entry: EntryPlan)

  /** The movement analysis and the entry strategy chained. */
  function Recommend(price: real, high: real, low: real, predictedClose: real, direction: string,
                     probability: real, elapsedMinutes: real, pricePosition: real, predictedPosition: real): (r: Recommendation)
    ensures r.movement == AnalyzeMovement(price, high, low, predictedClose, direction, pricePosition, predictedPosition, probability)
    ensures r.entry == DetermineEntry(r.movement.expectation, r.movement.confidence, probability, elapsedMinutes)
  {
    var movement := AnalyzeMovement(price, high, low, predictedClose, direction, pricePosition, predictedPosition, probability);
    Recommendation(movement, DetermineEntry(movement.expectation, movement.confidence, probability, elapsedMinutes))
  }

  /**
   * Chained after the movement analysis, the movement-confidence test is
   * redundant: high confidence is exactly a strong move with probability
   * over 0.75 after 12.5 minutes, and a hedge never follows a pullback,
   * a consolidation or a reversal.
   */
  lemma RecommendationCascade(price: real, high: real, low: real, predictedClose: real, direction: string,
                              probability: real, elapsedMinutes: real, pricePosition: real, predictedPosition: real)
    ensures var r := Recommend(price, high, low, predictedClose, direction, probability, elapsedMinutes, pricePosition, predictedPosition);
            (r.entry.strategy == HighConfidence <==>
               r.movement.expectation == GainStrength && probability > 0.75 && elapsedMinutes > 12.5) &&
            (r.entry.strategy == Hedge ==>
               r.movement.expectation != Pullback && r.movement.expectation != Consolidate &&
               r.movement.expectation != ReverseColor) &&
            (r.entry.confidenceModifier > 0 ==> elapsedMinutes > 12.5)
  {
  }

  // ---------------------------------------------------------------------
  // The forecast

  datatype AmplitudeForecast = AmplitudeForecast(
    predictedAmplitude: real,
    currentAmplitude: real,
    confidence: real,
    expansionProbability: real,
    willExpand: bool,
    growthPotential: real,
    pricePosition: real,
    priceLabel: PriceLabel,
    predictedPricePosition: real,
    percentilePosition: int,
    recommendation: Recommendation)

  /** The forecast for the forming candle, given the history's mean and percentile table. */
  function Forecast(meanAmplitude: real, table: map<int, real>, high: real, low: real, price: real,
                    elapsedMinutes: real, predictedClose: real, direction: string): (f: AmplitudeForecast)
    ensures f.currentAmplitude == CurrentAmplitude(high, low)
    ensures f.predictedAmplitude == BlendedAmplitude(
              LinearEstimate(f.currentAmplitude, TimeRatio(elapsedMinutes)),
              MeanEstimate(f.currentAmplitude, meanAmplitude, LinearEstimate(f.currentAmplitude, TimeRatio(elapsedMinutes))),
              CloseEstimate(f.currentAmplitude, high, low, predictedClose))
    ensures f.confidence == Confidence(TimeRatio(elapsedMinutes))
    ensures f.expansionProbability == ExpansionProbability(f.currentAmplitude, f.predictedAmplitude, elapsedMinutes,
                                                           price, high, low, predictedClose)
    ensures 0.0 <= f.expansionProbability <= 1.0
    ensures f.willExpand <==> f.expansionProbability > 0.6
    ensures f.percentilePosition == PercentilePosition(table, f.predictedAmplitude)
    ensures IsLevel(f.percentilePosition)
    ensures f.growthPotential == GrowthPotential(f.currentAmplitude, f.predictedAmplitude)
    ensures f.pricePosition == RangePosition(price, low, f.currentAmplitude)
    ensures f.predictedPricePosition == RangePosition(predictedClose, low, f.currentAmplitude)
    ensures f.priceLabel == PriceLabelOf(f.pricePosition)
    ensures f.recommendation == Recommend(price, high, low, predictedClose, direction, f.expansionProbability,
                                          elapsedMinutes, f.pricePosition, f.predictedPricePosition)
  {
    var current := CurrentAmplitude(high, low);
    var ratio := TimeRatio(elapsedMinutes);
    var linear := LinearEstimate(current, ratio);
    var predicted := BlendedAmplitude(linear, MeanEstimate(current, meanAmplitude, linear),
                                      CloseEstimate(current, high, low, predictedClose));
    var probability := ExpansionProbability(current, predicted, elapsedMinutes, price, high, low, predictedClose);
    var position := RangePosition(price, low, current);
    var predictedPosition := RangePosition(predictedClose, low, current);
    AmplitudeForecast(
      predicted, current, Confidence(ratio), probability, probability > 0.6,
      GrowthPotential(current, predicted), position, PriceLabelOf(position), predictedPosition,
      PercentilePosition(table, predicted),
      Recommend(price, high, low, predictedClose, direction, probability, elapsedMinutes, position, predictedPosition))
  }

  /**
   * Without a positive range in the history the forecast falls back: the
   * mean-based estimate is the linear one and the bucket is 50.
   */
  lemma ForecastWithoutHistory(candles: seq<Candle>, high: real, low: real, price: real,
                               elapsedMinutes: real, predictedClose: real, direction: string)
    requires PositiveAmplitudes(candles) == []
    ensures var amps := PositiveAmplitudes(candles);
            var f := Forecast(MeanAmplitudeOf(amps), PercentileTable(amps), high, low, price,
                              elapsedMinutes, predictedClose, direction);
            var linear := LinearEstimate(f.currentAmplitude, TimeRatio(elapsedMinutes));
            f.percentilePosition == 50 &&
            f.predictedAmplitude == 0.6 * linear + 0.4 * CloseEstimate(f.currentAmplitude, high, low, predictedClose)
  {
  }

  /** With the close predicted inside the range, the close-based estimate is 1.05 ranges. */
  lemma ForecastInsideRange(meanAmplitude: real, table: map<int, real>, high: real, low: real, price: real,
                            elapsedMinutes: real, predictedClose: real, direction: string)
    requires low <= predictedClose <= high
    ensures var f := Forecast(meanAmplitude, table, high, low, price, elapsedMinutes, predictedClose, direction);
            var linear := LinearEstimate(f.currentAmplitude, TimeRatio(elapsedMinutes));
            f.predictedAmplitude ==
              0.3 * linear + 0.3 * MeanEstimate(f.currentAmplitude, meanAmplitude, linear) + 0.4 * (1.05 * f.currentAmplitude)
  {
  }

  // ---------------------------------------------------------------------
  // The predictor object

  /** Storing into a merged table is storing into the table merged last. */
  lemma MergeThenUpdate(m: map<int, real>, t: map<int, real>, k: int, v: real)
    ensures (m + t)[k := v] == m + t[k := v]
  {
  }

  /** Statistics calculated over zeros and an empty table are the statistics of the sample. */
  lemma StatisticsFromScratch(amps: seq<real>)
    requires forall i :: 0 <= i < |amps| ==> amps[i] > 0.0
    ensures amps == [] ==> MeanAmplitudeOf(amps) == 0.0 && VarianceAmplitudeOf(amps) == 0.0 && PercentileTable(amps) == map[]
    ensures amps != [] ==> MeanAmplitudeOf(amps) == Mean(amps) && map[] + PercentileTable(amps) == PercentileTable(amps)
  {
  }

  class AmplitudePredictor {
    var historicalCandles: seq<Candle>
    var meanAmplitude: real
    /** The square of the standard deviation the predictor keeps. */
    var varianceAmplitude: real
    var amplitudePercentiles: map<int, real>

    /** The statistics agree with the stored history. */
    ghost predicate Valid()
      reads this
    {
      var amps := PositiveAmplitudes(historicalCandles);
      meanAmplitude == MeanAmplitudeOf(amps) &&
      varianceAmplitude == VarianceAmplitudeOf(amps) &&
      amplitudePercentiles == PercentileTable(amps)
    }

    constructor (candles: seq<Candle>)
      ensures historicalCandles == candles
      ensures Valid()
    {
      historicalCandles := candles;
      meanAmplitude := 0.0;
      varianceAmplitude := 0.0;
      amplitudePercentiles := map[];
      new;
      CalculateStatistics();
      StatisticsFromScratch(PositiveAmplitudes(candles));
    }

    /**
     * Collects the positive ranges; with none, nothing changes. Otherwise
     * it sets the mean and the variance and stores the six percentiles in
     * the table.
     */
    method CalculateStatistics()
      modifies this`meanAmplitude, this`varianceAmplitude, this`amplitudePercentiles
      ensures PositiveAmplitudes(old(historicalCandles)) == [] ==>
                meanAmplitude == old(meanAmplitude) && varianceAmplitude == old(varianceAmplitude) &&
                amplitudePercentiles == old(amplitudePercentiles)
      ensures var amps := PositiveAmplitudes(old(historicalCandles));
              amps != [] ==>
                meanAmplitude == Mean(amps) && varianceAmplitude == VarianceAmplitudeOf(amps) &&
                amplitudePercentiles == old(amplitudePercentiles) + PercentileTable(amps)
    {
      if |historicalCandles| == 0 {
        return;
      }
      var amplitudes := CollectAmplitudes();
      if |amplitudes| == 0 {
        return;
      }
      meanAmplitude := Mean(amplitudes);
      varianceAmplitude := if |amplitudes| > 1 then Variance(amplitudes) else 0.0;
      StorePercentiles(amplitudes);
    }

    /** The loop over the history that keeps the positive ranges. */
    method CollectAmplitudes() returns (amplitudes: seq<real>)
      ensures amplitudes == PositiveAmplitudes(historicalCandles)
    {
      amplitudes := [];
      for i := 0 to |historicalCandles|
        invariant amplitudes == PositiveAmplitudes(historicalCandles[..i])
      {
        var c := historicalCandles[i];
        var amp := c.high - c.low;
        assert historicalCandles[..i + 1][..i] == historicalCandles[..i];
        if amp > 0.0 {
          amplitudes := amplitudes + [amp];
        }
      }
      assert historicalCandles[..|historicalCandles|] == historicalCandles;
    }

    /** The loop over the six levels that stores each percentile in the table. */
    method StorePercentiles(amplitudes: seq<real>)
      requires |amplitudes| > 0
      modifies this`amplitudePercentiles
      ensures amplitudePercentiles == old(amplitudePercentiles) + PercentileTable(amplitudes)
    {
      LevelsInRange();
      for j := 0 to |PercentileLevels|
        invariant amplitudePercentiles == old(amplitudePercentiles) + TableOf(amplitudes, PercentileLevels[..j])
      {
        var p := PercentileLevels[j];
        var value := Percentile(amplitudes, p);
        PrefixExtend(PercentileLevels, j);
        TableOfExtend(amplitudes, PercentileLevels[..j], p);
        MergeThenUpdate(old(amplitudePercentiles), TableOf(amplitudes, PercentileLevels[..j]), p, value);
        amplitudePercentiles := amplitudePercentiles[p := value];
      }
      assert PercentileLevels[..|PercentileLevels|] == PercentileLevels;
    }

    /**
     * The bucket search over the stored table, highest level first. It walks
     * the six levels, which are the table's keys whenever the statistics
     * agree with the history (Valid).
     */
    method GetPercentilePosition(amplitude: real) returns (position: int)
      ensures position == PercentilePosition(amplitudePercentiles, amplitude)
    {
      if |amplitudePercentiles| == 0 {
        return 50;
      }
      for i := 0 to |DescendingLevels|
        invariant FirstLevelReached(amplitudePercentiles, amplitude, i) ==
                  FirstLevelReached(amplitudePercentiles, amplitude, 0)
      {
        var p := DescendingLevels[i];
        if p in amplitudePercentiles && amplitude >= amplitudePercentiles[p] {
          return p;
        }
      }
      return 10;
    }

    /** The forecast for the forming candle; it reads the statistics and changes nothing. */
    method PredictFinalAmplitude(high: real, low: real, price: real, elapsedMinutes: real,
                                 predictedClose: real, direction: string) returns (f: AmplitudeForecast)
      ensures f == Forecast(meanAmplitude, amplitudePercentiles, high, low, price, elapsedMinutes, predictedClose, direction)
    {
      var current := CurrentAmplitude(high, low);
      var ratio := TimeRatio(elapsedMinutes);
      var linear := LinearEstimate(current, ratio);
      var predicted := BlendedAmplitude(linear, MeanEstimate(current, meanAmplitude, linear),
                                        CloseEstimate(current, high, low, predictedClose));
      var probability := ExpansionProbability(current, predicted, elapsedMinutes, price, high, low, predictedClose);
      var position := RangePosition(price, low, current);
      var predictedPosition := RangePosition(predictedClose, low, current);
      var bucket := GetPercentilePosition(predicted);
      f := AmplitudeForecast(
        predicted, current, Confidence(ratio), probability, probability > 0.6,
        GrowthPotential(current, predicted), position, PriceLabelOf(position), predictedPosition, bucket,
        Recommend(price, high, low, predictedClose, direction, probability, elapsedMinutes, position, predictedPosition));
    }
  }

  /** A freshly built predictor buckets a larger amplitude no lower, and an empty history gives bucket 50. */
  method BucketsOfFreshPredictor(candles: seq<Candle>, a1: real, a2: real) returns (b1: int, b2: int)
    requires a1 <= a2
    ensures b1 <= b2 && IsLevel(b1) && IsLevel(b2)
    ensures PositiveAmplitudes(candles) == [] ==> b1 == 50 && b2 == 50
  {
    var predictor := new AmplitudePredictor(candles);
    b1 := predictor.GetPercentilePosition(a1);
    b2 := predictor.GetPercentilePosition(a2);
    PercentilePositionMonotone(predictor.amplitudePercentiles, a1, a2);
  }
}
