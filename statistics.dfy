/**
 * Sample statistics used by the amplitude predictor: the mean, the sample
 * variance (the square of the standard deviation the predictor keeps), an
 * ascending sort and the hand-written interpolating percentile.
 */
module Statistics {

  function Sum(s: seq<real>): real {
    if |s| == 0 then 0.0 else Sum(s[..|s| - 1]) + s[|s| - 1]
  }

  /** Bounds on every element bound the sum. */
  lemma {:induction false} SumBounds(s: seq<real>, lo: real, hi: real)
    requires forall i :: 0 <= i < |s| ==> lo <= s[i] <= hi
    ensures lo * (|s| as real) <= Sum(s) <= hi * (|s| as real)
  {
    if |s| > 0 {
      SumBounds(s[..|s| - 1], lo, hi);
      assert lo <= s[|s| - 1] <= hi;
      assert (|s| as real) == ((|s| - 1) as real) + 1.0;
    }
  }

  /** A sum of positive values is positive. */
  lemma {:induction false} SumPositive(s: seq<real>)
    requires |s| > 0
    requires forall i :: 0 <= i < |s| ==> s[i] > 0.0
    ensures Sum(s) > 0.0
  {
    if |s| > 1 {
      SumPositive(s[..|s| - 1]);
    }
  }

  /** The arithmetic mean. */
  function Mean(s: seq<real>): real
    requires |s| > 0
  {
    Sum(s) / (|s| as real)
  }

  /** The mean of positive values is positive. */
  lemma MeanPositive(s: seq<real>)
    requires |s| > 0
    requires forall i :: 0 <= i < |s| ==> s[i] > 0.0
    ensures Mean(s) > 0.0
  {
    SumPositive(s);
    assert Mean(s) * (|s| as real) == Sum(s);
  }

  /** The mean is bounded by any common bounds of the elements. */
  lemma MeanBounds(s: seq<real>, lo: real, hi: real)
    requires |s| > 0
    requires forall i :: 0 <= i < |s| ==> lo <= s[i] <= hi
    ensures lo <= Mean(s) <= hi
  {
    SumBounds(s, lo, hi);
    var n := |s| as real;
    assert Mean(s) * n == Sum(s);
  }

  function SquaredDeviations(s: seq<real>, m: real): (r: real)
    ensures r >= 0.0
  {
    if |s| == 0 then 0.0
    else
      var d := s[|s| - 1] - m;
      SquaredDeviations(s[..|s| - 1], m) + d * d
  }

  /** Every element equal to the centre gives no deviation. */
  lemma {:induction false} NoDeviationAtCentre(s: seq<real>, m: real)
    requires forall i :: 0 <= i < |s| ==> s[i] == m
    ensures SquaredDeviations(s, m) == 0.0
  {
    if |s| > 0 {
      NoDeviationAtCentre(s[..|s| - 1], m);
    }
  }

  /**
   * The sample variance (divisor n - 1); a single value has variance 0, as
   * the predictor sets its deviation to 0 for a one-element sample.
   */
  function Variance(s: seq<real>): (v: real)
    requires |s| > 0
    ensures v >= 0.0
    ensures |s| == 1 ==> v == 0.0
  {
    if |s| == 1 then 0.0 else SquaredDeviations(s, Mean(s)) / ((|s| - 1) as real)
  }

  /** A constant sample has mean the constant and variance 0. */
  lemma ConstantSample(s: seq<real>, c: real)
    requires |s| > 0
    requires forall i :: 0 <= i < |s| ==> s[i] == c
    ensures Mean(s) == c
    ensures Variance(s) == 0.0
  {
    MeanBounds(s, c, c);
    NoDeviationAtCentre(s, c);
  }

  // ---------------------------------------------------------------------
  // Sorting

  predicate IsSorted(s: seq<real>) {
    forall i, j :: 0 <= i <= j < |s| ==> s[i] <= s[j]
  }

  /** Inserts into a sorted sequence, keeping it sorted; the first element is the smaller of x and the old first. */
  function Insert(x: real, s: seq<real>): (r: seq<real>)
    requires IsSorted(s)
    ensures |r| == |s| + 1
    ensures r[0] == if |s| == 0 || x <= s[0] then x else s[0]
    ensures IsSorted(r)
    ensures multiset(r) == multiset(s) + multiset{x}
  {
    if |s| == 0 then [x]
    else if x <= s[0] then [x] + s
    else
      var rest := Insert(x, s[1..]);
      assert s == [s[0]] + s[1..];
      [s[0]] + rest
  }

  /** The ascending rearrangement of a sequence. */
  function Sort(s: seq<real>): (r: seq<real>)
    ensures |r| == |s|
    ensures IsSorted(r)
    ensures multiset(r) == multiset(s)
  {
    if |s| == 0 then []
    else
      assert s == s[..|s| - 1] + [s[|s| - 1]];
      Insert(s[|s| - 1], Sort(s[..|s| - 1]))
  }

  /** Inserting a value no smaller than every element appends it. */
  lemma {:induction false} InsertLargest(x: real, s: seq<real>)
    requires IsSorted(s)
    requires forall i :: 0 <= i < |s| ==> s[i] <= x
    ensures Insert(x, s) == s + [x]
  {
    if |s| == 0 {
    } else if x <= s[0] {
      assert s[0] == x;
      assert forall i :: 0 <= i < |s| ==> s[i] == x;
      assert [x] + s == s + [x];
    } else {
      InsertLargest(x, s[1..]);
      assert [s[0]] + (s[1..] + [x]) == s + [x];
    }
  }

  /** Sorting an already sorted sequence leaves it as it is. */
  lemma {:induction false} SortOfSorted(s: seq<real>)
    requires IsSorted(s)
    ensures Sort(s) == s
  {
    if |s| > 0 {
      var prefix, last := s[..|s| - 1], s[|s| - 1];
      SortOfSorted(prefix);
      InsertLargest(last, prefix);
      assert prefix + [last] == s;
    }
  }

  // ---------------------------------------------------------------------
  // Percentile

  /** The least integer not below x (Python's math.ceil). */
  function Ceiling(x: real): (n: int)
    ensures x <= n as real < x + 1.0
  {
    -((-x).Floor)
  }

  /** The fractional rank p / 100 * (n - 1) of the p-th percentile in a sample of n. */
  function Rank(n: nat, p: int): (idx: real)
    requires n > 0 && 0 <= p <= 100
    ensures 0.0 <= idx <= (n - 1) as real
  {
    RankBound(n, p);
    Share(p as real, (n - 1) as real)
  }

  /** The share x / 100 of an amount m. */
  function Share(x: real, m: real): real {
    (x / 100.0) * m
  }

  lemma RankBound(n: nat, p: int)
    requires n > 0 && 0 <= p <= 100
    ensures 0.0 <= (p as real / 100.0) * ((n - 1) as real) <= (n - 1) as real
  {
    var f := p as real / 100.0;
    var m := (n - 1) as real;
    assert 0.0 <= f <= 1.0;
    ProductBounds(m, f);
  }

  /** 0 <= d * w <= d for d >= 0 and w in [0, 1]. */
  lemma ProductBounds(d: real, w: real)
    requires d >= 0.0 && 0.0 <= w <= 1.0
    ensures 0.0 <= d * w <= d
  {
    assert d * w <= d * 1.0;
  }

  /**
   * The value at fractional position idx of a sequence: the element itself
   * at a whole position, otherwise the linear interpolation between the two
   * neighbouring elements.
   */
  function Interpolate(s: seq<real>, idx: real): real
    requires 0.0 <= idx <= (|s| - 1) as real
  {
    var lower := idx.Floor;
    var upper := Ceiling(idx);
    if lower == upper then s[lower]
    else s[lower] * (upper as real - idx) + s[upper] * (idx - lower as real)
  }

  /** At a whole position the interpolation is the element there. */
  lemma InterpolateAtWhole(s: seq<real>, k: int)
    requires 0 <= k < |s|
    ensures Interpolate(s, k as real) == s[k]
  {
    assert (k as real).Floor == k;
    assert Ceiling(k as real) == k;
  }

  /**
   * In a sorted sequence it is the element at a whole position, and between
   * whole positions it lies between the two neighbours.
   */
  lemma InterpolateBetween(s: seq<real>, idx: real)
    requires IsSorted(s)
    requires 0.0 <= idx <= (|s| - 1) as real
    ensures var k := idx.Floor;
            0 <= k < |s| &&
            (k as real == idx ==> Interpolate(s, idx) == s[k]) &&
            (k as real != idx ==> k + 1 < |s| && s[k] <= Interpolate(s, idx) <= s[k + 1])
  {
    var lower := idx.Floor;
    var upper := Ceiling(idx);
    if lower != upper {
      assert upper == lower + 1;
      var w := idx - lower as real;
      var d := s[upper] - s[lower];
      ProductBounds(d, w);
      assert s[lower] * (upper as real - idx) + s[upper] * (idx - lower as real) == s[lower] + d * w;
    }
  }

  /** Between two whole positions the interpolation is linear in the position. */
  lemma InterpolateLinear(s: seq<real>, idx: real)
    requires 0.0 <= idx <= (|s| - 1) as real
    requires idx.Floor as real != idx
    ensures var k := idx.Floor;
            k + 1 < |s| && Interpolate(s, idx) == s[k] + (s[k + 1] - s[k]) * (idx - k as real)
  {
    var k := idx.Floor;
    assert Ceiling(idx) == k + 1;
  }

  /** The point a fraction t of the way from a to b. */
  function Lerp(a: real, b: real, t: real): real
  {
    a + (b - a) * t
  }

  /** The same, for a caller that already knows the floor of the position. */
  lemma InterpolateLinearAt(s: seq<real>, idx: real, k: int)
    requires 0.0 <= idx <= (|s| - 1) as real
    requires idx.Floor == k && k as real != idx
    ensures k + 1 < |s| && Interpolate(s, idx) == Lerp(s[k], s[k + 1], idx - k as real)
  {
    InterpolateLinear(s, idx);
  }

  /** In a sorted sequence the interpolation does not decrease with the position. */
  lemma InterpolateMonotone(s: seq<real>, i1: real, i2: real)
    requires IsSorted(s)
    requires 0.0 <= i1 <= i2 <= (|s| - 1) as real
    ensures Interpolate(s, i1) <= Interpolate(s, i2)
  {
    var l1, l2 := i1.Floor, i2.Floor;
    InterpolateBetween(s, i1);
    InterpolateBetween(s, i2);
    if l1 < l2 {
      // The first value is at most the element after its whole part, which is at most the second's.
      var above1 := if l1 as real == i1 then l1 else l1 + 1;
      assert Interpolate(s, i1) <= s[above1];
      assert above1 <= l2;
      assert s[above1] <= s[l2];
      assert s[l2] <= Interpolate(s, i2);
      assert Interpolate(s, i1) <= Interpolate(s, i2);
    } else if l1 as real != i1 {
      // Both lie on the same segment, where the interpolation grows with the position.
      assert l2 == l1;
      SameSegmentMonotone(s, i1, i2);
    } else {
      // The first is the element at its whole position, where the second's segment starts.
      assert l2 == l1 && Interpolate(s, i1) == s[l1];
      assert s[l1] <= Interpolate(s, i2);
    }
  }

  /** Between the same two whole positions the interpolation grows with the position. */
  lemma SameSegmentMonotone(s: seq<real>, i1: real, i2: real)
    requires IsSorted(s)
    requires 0.0 <= i1 <= i2 <= (|s| - 1) as real
    requires i1.Floor == i2.Floor && i1.Floor as real != i1
    ensures Interpolate(s, i1) <= Interpolate(s, i2)
  {
    var k := i1.Floor;
    assert Ceiling(i1) == k + 1 && Ceiling(i2) == k + 1;
    assert s[k] <= s[k + 1];
    WeightedMonotone(s[k], s[k + 1], (k + 1) as real, k as real, i1, i2);
  }

  /** Moving the weight from the lower value a to the higher value b does not decrease the blend. */
  lemma WeightedMonotone(a: real, b: real, upper: real, lower: real, i1: real, i2: real)
    requires a <= b && i1 <= i2
    ensures a * (upper - i1) + b * (i1 - lower) <= a * (upper - i2) + b * (i2 - lower)
  {
    ProductMonotone(0.0, i2 - i1, b - a);
  }

  /**
   * The p-th percentile of a nonempty sample: the sample sorted ascending,
   * read at the fractional rank p / 100 * (n - 1). It lies between the
   * smallest and the largest sample value.
   */
  function Percentile(data: seq<real>, p: int): (r: real)
    requires |data| > 0 && 0 <= p <= 100
    ensures Sort(data)[0] <= r <= Sort(data)[|data| - 1]
  {
    var sorted := Sort(data);
    var idx := Rank(|data|, p);
    InterpolateBetween(sorted, idx);
    Interpolate(sorted, idx)
  }

  /** The first and last sorted values are the sample's minimum and maximum. */
  lemma SortedEnds(data: seq<real>)
    requires |data| > 0
    ensures Sort(data)[0] in data && Sort(data)[|data| - 1] in data
    ensures forall i :: 0 <= i < |data| ==> Sort(data)[0] <= data[i] <= Sort(data)[|data| - 1]
  {
    var sorted := Sort(data);
    assert sorted[0] in multiset(data) && sorted[|data| - 1] in multiset(data);
    forall i | 0 <= i < |data|
      ensures sorted[0] <= data[i] <= sorted[|data| - 1]
    {
      assert data[i] in multiset(sorted);
    }
  }

  /** The percentile lies between the smallest and the largest sample value. */
  lemma PercentileWithinSample(data: seq<real>, p: int)
    requires |data| > 0 && 0 <= p <= 100
    ensures exists i :: 0 <= i < |data| && data[i] <= Percentile(data, p)
    ensures exists j :: 0 <= j < |data| && Percentile(data, p) <= data[j]
  {
    SortedEnds(data);
    var r := Percentile(data, p);
    var lo :| 0 <= lo < |data| && data[lo] == Sort(data)[0];
    var hi :| 0 <= hi < |data| && data[hi] == Sort(data)[|data| - 1];
  }

  /** Common bounds of the sample bound every percentile. */
  lemma PercentileBounds(data: seq<real>, p: int, lo: real, hi: real)
    requires |data| > 0 && 0 <= p <= 100
    requires forall i :: 0 <= i < |data| ==> lo <= data[i] <= hi
    ensures lo <= Percentile(data, p) <= hi
  {
    SortedEnds(data);
    var a :| 0 <= a < |data| && data[a] == Sort(data)[0];
    var b :| 0 <= b < |data| && data[b] == Sort(data)[|data| - 1];
  }

  /** The rank p / 100 * (n - 1) is the integer ratio p * (n - 1) / 100. */
  lemma RankAsRatio(n: nat, p: int)
    requires n > 0 && 0 <= p <= 100
    ensures Rank(n, p) == (p * (n - 1)) as real / 100.0
  {
  }

  /** The whole part of the rank, p * (n - 1) divided by 100 rounded down: a position in the sample. */
  function RankIndex(n: nat, p: int): (k: nat)
    requires n > 0 && 0 <= p <= 100
    ensures k < n
    ensures k * 100 <= p * (n - 1) < k * 100 + 100
  {
    ProductBound(p, n - 1);
    p * (n - 1) / 100
  }

  /** A percentage of a count is between 0 and 100 times the count. */
  lemma {:induction false} ProductBound(p: int, d: nat)
    requires 0 <= p <= 100
    ensures 0 <= p * d <= 100 * d
  {
    if d > 0 {
      ProductBound(p, d - 1);
      assert p * d == p * (d - 1) + p;
    }
  }

  /**
   * When the rank p * (n - 1) / 100 is a whole number k, the percentile is
   * the k-th smallest sample value.
   */
  lemma PercentileAtWholeRank(data: seq<real>, p: int)
    requires |data| > 0 && 0 <= p <= 100
    requires (p * (|data| - 1)) % 100 == 0
    ensures Percentile(data, p) == Sort(data)[RankIndex(|data|, p)]
  {
    var k := RankIndex(|data|, p);
    assert k * 100 == p * (|data| - 1);
    RankAsRatio(|data|, p);
    assert Rank(|data|, p) == k as real;
    InterpolateAtWhole(Sort(data), k);
  }

  /**
   * Otherwise the percentile lies between the k-th and (k+1)-th smallest
   * values, k being the whole part of the rank.
   */
  lemma PercentileBetweenOrderStatistics(data: seq<real>, p: int)
    requires |data| > 0 && 0 <= p <= 100
    requires (p * (|data| - 1)) % 100 != 0
    ensures var k := RankIndex(|data|, p);
            k + 1 < |data| &&
            Sort(data)[k] <= Percentile(data, p) <= Sort(data)[k + 1]
  {
    var k := RankIndex(|data|, p);
    var idx := Rank(|data|, p);
    var sorted := Sort(data);
    RankFloor(|data|, p);
    assert idx.Floor == k && idx != k as real;
    InterpolateBetween(sorted, idx);
    assert k + 1 < |sorted|;
    assert sorted[k] <= Interpolate(sorted, idx) <= sorted[k + 1];
  }

  /**
   * At a fractional rank the percentile is the linear interpolation between
   * the k-th and (k+1)-th smallest values, weighted by the rank's fractional part.
   */
  lemma PercentileInterpolates(data: seq<real>, p: int)
    requires |data| > 0 && 0 <= p <= 100
    requires (p * (|data| - 1)) % 100 != 0
    ensures var k := RankIndex(|data|, p);
            k + 1 < |data| &&
            Percentile(data, p) == Lerp(Sort(data)[k], Sort(data)[k + 1], Rank(|data|, p) - k as real)
  {
    RankFloor(|data|, p);
    InterpolateLinearAt(Sort(data), Rank(|data|, p), RankIndex(|data|, p));
  }


  /** The whole part of m / 100 as a real is the integer quotient. */
  lemma RatioFloor(m: int)
    requires m >= 0
    ensures (m / 100) as real <= m as real / 100.0 < (m / 100 + 1) as real
    ensures m % 100 != 0 ==> (m / 100) as real < m as real / 100.0
  {
    var k := m / 100;
    assert k * 100 <= m < (k + 1) * 100;
    assert m % 100 != 0 ==> k * 100 < m;
    assert (k * 100) as real == k as real * 100.0;
    assert ((k + 1) * 100) as real == (k + 1) as real * 100.0;
  }

  /** The whole part of the rank, and whether the rank is whole. */
  lemma RankFloor(n: nat, p: int)
    requires n > 0 && 0 <= p <= 100
    ensures Rank(n, p).Floor == p * (n - 1) / 100
    ensures (p * (n - 1)) % 100 != 0 ==> Rank(n, p) != (p * (n - 1) / 100) as real
  {
    RankAsRatio(n, p);
    RatioFloor(p * (n - 1));
  }

  /** The percentile does not decrease as p grows. */
  lemma PercentileMonotone(data: seq<real>, p: int, q: int)
    requires |data| > 0 && 0 <= p <= q <= 100
    ensures Percentile(data, p) <= Percentile(data, q)
  {
    var n := |data|;
    var ip, iq := Rank(n, p), Rank(n, q);
    RankMonotone(n, p, q);
    InterpolateMonotone(Sort(data), ip, iq);
  }

  /** A higher level has a rank no lower. */
  lemma RankMonotone(n: nat, p: int, q: int)
    requires n > 0 && 0 <= p <= q <= 100
    ensures Rank(n, p) <= Rank(n, q)
  {
    ShareMonotone(p as real, q as real, (n - 1) as real);
  }

  /** A larger share of the same nonnegative amount is no smaller. */
  lemma ShareMonotone(x: real, y: real, m: real)
    requires x <= y && m >= 0.0
    ensures Share(x, m) <= Share(y, m)
  {
    ProductMonotone(x / 100.0, y / 100.0, m);
  }

  lemma ProductMonotone(a: real, b: real, m: real)
    requires a <= b && m >= 0.0
    ensures a * m <= b * m && m * a <= m * b
  {
  }

  /** The sample 1, 2, 3, 4, 5 is already in order. */
  lemma OneToFiveSorted(s: seq<real>)
    requires s == [1.0, 2.0, 3.0, 4.0, 5.0]
    ensures Sort(s) == s
  {
    SortOfSorted(s);
  }

  /** At whole ranks the percentiles of 1, 2, 3, 4, 5 are sample values: the median is 3, the 75th percentile 4. */
  lemma PercentileWholeRankExamples(s: seq<real>)
    requires s == [1.0, 2.0, 3.0, 4.0, 5.0]
    ensures Percentile(s, 50) == 3.0
    ensures Percentile(s, 75) == 4.0
  {
    OneToFiveSorted(s);
    assert Rank(5, 50) == 2.0;
    InterpolateAtWhole(s, 2);
    assert Rank(5, 75) == 3.0;
    InterpolateAtWhole(s, 3);
  }

  /** Between ranks they interpolate: the 90th percentile of 1, 2, 3, 4, 5 is 4.6. */
  lemma PercentileInterpolatedExample(s: seq<real>)
    requires s == [1.0, 2.0, 3.0, 4.0, 5.0]
    ensures Percentile(s, 90) == 4.6
  {
    OneToFiveSorted(s);
    assert Rank(5, 90) == 3.6;
    assert (3.6).Floor == 3;
    InterpolateLinear(s, 3.6);
  }

  /** Its 10th percentile is 1.4. */
  lemma PercentileLowExample(s: seq<real>)
    requires s == [1.0, 2.0, 3.0, 4.0, 5.0]
    ensures Percentile(s, 10) == 1.4
  {
    OneToFiveSorted(s);
    assert Rank(5, 10) == 0.4;
    assert (0.4).Floor == 0;
    InterpolateLinear(s, 0.4);
  }
}
