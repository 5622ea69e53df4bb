// Calibration bins and the expected calibration error.

module Calibration {
  import opened Arithmetic
  import opened Basics

  /** A predicted probability and the observed outcome, 1 or 0. */
  type Point = (real, real)

  datatype CalibrationBin = CalibrationBin(
    lowerBound: real, upperBound: real, samples: nat,
    meanConfidence: real, observedSuccessRate: real, absoluteGap: real)

  predicate IsProbability(p: real) {
    0.0 <= p <= 1.0
  }

  predicate AreProbabilities(points: seq<Point>) {
    forall i :: 0 <= i < |points| ==> IsProbability(points[i].0)
  }

  function Scaled(p: real, count: int): real {
    p * count as real
  }

  function BinIndex(p: real, count: int): int
    requires count > 0
  {
    MinInt(count - 1, Scaled(p, count).Floor)
  }

  function InBin(count: int, i: int): Point -> bool
    requires count > 0
  {
    (x: Point) => BinIndex(x.0, count) == i
  }

  function Group(points: seq<Point>, count: int, i: int): seq<Point>
    requires count > 0
  {
    Filter(points, InBin(count, i))
  }

  function SumConfidence(points: seq<Point>): real {
    if points == [] then 0.0 else SumConfidence(points[..|points| - 1]) + points[|points| - 1].0
  }

  function SumObserved(points: seq<Point>): real {
    if points == [] then 0.0 else SumObserved(points[..|points| - 1]) + points[|points| - 1].1
  }

  function BinOf(group: seq<Point>, count: int, i: int): CalibrationBin
    requires group != [] && count > 0
  {
    var confidence, observed := SumConfidence(group) / |group| as real, SumObserved(group) / |group| as real;
    CalibrationBin(i as real * (1.0 / count as real), (i + 1) as real * (1.0 / count as real), |group|,
                   confidence, observed, AbsReal(confidence - observed))
  }

  /** The bins of the first `k` intervals; empty intervals get none. */
  function BinsUpTo(points: seq<Point>, count: int, k: nat): seq<CalibrationBin>
    requires count > 0
  {
    if k == 0 then []
    else
      var group := Group(points, count, k - 1);
      if group == [] then BinsUpTo(points, count, k - 1)
      else BinsUpTo(points, count, k - 1) + [BinOf(group, count, k - 1)]
  }

  function Bins(points: seq<Point>, count: int): seq<CalibrationBin>
    requires count > 0
  {
    BinsUpTo(points, count, count)
  }

  function WeightedGaps(bins: seq<CalibrationBin>): real {
    if bins == [] then 0.0
    else
      var last := bins[|bins| - 1];
      WeightedGaps(bins[..|bins| - 1]) + last.samples as real * last.absoluteGap
  }

  function Ece(points: seq<Point>, count: int): real
    requires count > 0 && points != []
  {
    WeightedGaps(Bins(points, count)) / |points| as real
  }

  method CalibrationBins(points: seq<Point>, count: int) returns (r: Option<seq<CalibrationBin>>)
    requires count > 0
    ensures r == if AreProbabilities(points) then Some(Bins(points, count)) else None
  {
    hide BinOf, IsProbability;
    var grouped: seq<seq<Point>> := seq(count, i => []);
    for i := 0 to |points|
      invariant |grouped| == count && AreProbabilities(points[..i])
      invariant forall b :: 0 <= b < count ==> grouped[b] == Group(points[..i], count, b)
    {
      var p := points[i].0;
      if !IsProbability(p) {
        return None;
      }
      BinIndexInRange(p, count);
      var index := BinIndex(p, count);
      assert points[..i + 1][..i] == points[..i];
      grouped := grouped[index := grouped[index] + [points[i]]];
    }
    assert points[..|points|] == points;
    var bins := [];
    for b := 0 to count
      invariant bins == BinsUpTo(points, count, b)
    {
      if grouped[b] != [] {
        bins := bins + [BinOf(grouped[b], count, b)];
      }
    }
    r := Some(bins);
  }

  lemma BinIndexInRange(p: real, count: int)
    requires count > 0 && IsProbability(p)
    ensures 0 <= BinIndex(p, count) < count
  {
    ScaleKeepsOrder(count as real, 0.0, p);
  }

  // ---- Sums of differences ----

  function SumGap(points: seq<Point>): real {
    if points == [] then 0.0
    else
      var last := points[|points| - 1];
      SumGap(points[..|points| - 1]) + (last.0 - last.1)
  }

  function SumAbsolute(points: seq<Point>): real {
    if points == [] then 0.0
    else
      var last := points[|points| - 1];
      SumAbsolute(points[..|points| - 1]) + AbsReal(last.0 - last.1)
  }

  function SumSquares(points: seq<Point>): real {
    if points == [] then 0.0
    else
      var last := points[|points| - 1];
      SumSquares(points[..|points| - 1]) + (last.0 - last.1) * (last.0 - last.1)
  }

  lemma {:induction false} GapIsDifference(points: seq<Point>)
    ensures SumGap(points) == SumConfidence(points) - SumObserved(points)
  {
    if points != [] {
      GapIsDifference(points[..|points| - 1]);
    }
  }

  lemma BinWeight(group: seq<Point>, count: int, i: int)
    requires group != [] && count > 0
    ensures var bin := BinOf(group, count, i); bin.samples as real * bin.absoluteGap == AbsReal(SumGap(group))
  {
    GapIsDifference(group);
    var n, c, o := |group| as real, SumConfidence(group), SumObserved(group);
    assert n * (c / n) == c && n * (o / n) == o;
    ScaledGap(n, c / n, o / n);
  }

  lemma ScaledGap(n: real, c: real, o: real)
    requires n > 0.0
    ensures n * AbsReal(c - o) == AbsReal(n * c - n * o)
  {
    assert n * (c - o) == n * c - n * o;
    if c - o < 0.0 {
      assert n * (o - c) > 0.0;
    } else {
      assert n * (c - o) >= 0.0;
    }
  }

  /** The absolute gaps of the first `k` groups, each weighted by its size. */
  function GroupGaps(points: seq<Point>, count: int, k: nat): real
    requires count > 0
  {
    if k == 0 then 0.0 else GroupGaps(points, count, k - 1) + AbsReal(SumGap(Group(points, count, k - 1)))
  }

  lemma {:induction false} GapsAreWeighted(points: seq<Point>, count: int, k: nat)
    requires count > 0
    ensures WeightedGaps(BinsUpTo(points, count, k)) == GroupGaps(points, count, k)
  {
    hide BinOf, Group, AbsReal, SumGap;
    if k > 0 {
      GapsAreWeighted(points, count, k - 1);
      var group := Group(points, count, k - 1);
      if group != [] {
        BinWeight(group, count, k - 1);
        var bins := BinsUpTo(points, count, k);
        assert bins[..|bins| - 1] == BinsUpTo(points, count, k - 1);
        assert WeightedGaps(bins) == WeightedGaps(BinsUpTo(points, count, k - 1)) + AbsReal(SumGap(group));
      } else {
        NothingToSum();
      }
    }
  }

  // ---- Splitting by bin index ----

  function Between(count: int, a: int, b: int): Point -> bool
    requires count > 0
  {
    (x: Point) => a <= BinIndex(x.0, count) < b
  }

  lemma SumsAppend(points: seq<Point>, x: Point)
    ensures SumGap(points + [x]) == SumGap(points) + (x.0 - x.1)
    ensures SumAbsolute(points + [x]) == SumAbsolute(points) + AbsReal(x.0 - x.1)
  {
    assert (points + [x])[..|points + [x]| - 1] == points;
  }

  /** Sums over two disjoint selections add up to the sum over both. */
  lemma {:induction false} SumsSplit(points: seq<Point>, p: Point -> bool, q: Point -> bool, r: Point -> bool)
    requires forall x :: (r(x) <==> p(x) || q(x)) && !(p(x) && q(x))
    ensures |Filter(points, r)| == |Filter(points, p)| + |Filter(points, q)|
    ensures SumGap(Filter(points, r)) == SumGap(Filter(points, p)) + SumGap(Filter(points, q))
    ensures SumAbsolute(Filter(points, r)) == SumAbsolute(Filter(points, p)) + SumAbsolute(Filter(points, q))
  {
    hide AbsReal, SumGap, SumAbsolute;
    if points == [] {
      NothingToSum();
    } else {
      var front, last := points[..|points| - 1], points[|points| - 1];
      SumsSplit(front, p, q, r);
      SumsAppend(Filter(front, p), last);
      SumsAppend(Filter(front, q), last);
      SumsAppend(Filter(front, r), last);
    }
  }

  lemma NothingToSum()
    ensures SumGap([]) == 0.0 && SumAbsolute([]) == 0.0 && AbsReal(SumGap([])) == 0.0
  {
  }

  lemma SplitAt(points: seq<Point>, count: int, a: int, b: int)
    requires count > 0 && a <= b
    ensures var wide, narrow, last := Filter(points, Between(count, a, b + 1)), Filter(points, Between(count, a, b)),
                Group(points, count, b);
            && |wide| == |narrow| + |last| && SumGap(wide) == SumGap(narrow) + SumGap(last)
            && SumAbsolute(wide) == SumAbsolute(narrow) + SumAbsolute(last)
  {
    hide BinIndex, SumGap, SumAbsolute, Filter;
    SumsSplit(points, Between(count, a, b), InBin(count, b), Between(count, a, b + 1));
  }

  lemma {:induction false} RangeGap(points: seq<Point>, count: int, a: nat, b: nat)
    requires count > 0 && a <= b
    ensures AbsReal(SumGap(Filter(points, Between(count, a, b))))
            <= GroupGaps(points, count, b) - GroupGaps(points, count, a)
  {
    hide Filter, SumGap, Group;
    if a == b {
      hide BinIndex;
      FilterNone(points, Between(count, a, b));
      NothingToSum();
    } else {
      RangeGap(points, count, a, b - 1);
      SplitAt(points, count, a, b - 1);
    }
  }

  function BinSizes(bins: seq<CalibrationBin>): int {
    if bins == [] then 0 else BinSizes(bins[..|bins| - 1]) + bins[|bins| - 1].samples
  }

  lemma {:induction false} SizesAddUp(points: seq<Point>, count: int, k: nat)
    requires count > 0
    ensures BinSizes(BinsUpTo(points, count, k)) == |Filter(points, Between(count, 0, k))|
  {
    hide BinOf, BinIndex, Filter, SumGap, SumAbsolute;
    if k == 0 {
      FilterNone(points, Between(count, 0, 0));
    } else {
      SizesAddUp(points, count, k - 1);
      SplitAt(points, count, 0, k - 1);
      var group := Group(points, count, k - 1);
      if group != [] {
        BinHolds(group, count, k - 1);
        var bins := BinsUpTo(points, count, k);
        assert bins[..|bins| - 1] == BinsUpTo(points, count, k - 1);
      }
    }
  }

  lemma BinHolds(group: seq<Point>, count: int, i: int)
    requires group != [] && count > 0
    ensures BinOf(group, count, i).samples == |group|
  {
  }

  lemma AllBetween(points: seq<Point>, count: int)
    requires count > 0 && AreProbabilities(points)
    ensures Filter(points, Between(count, 0, count)) == points
  {
    hide BinIndex, IsProbability;
    forall x | x in points ensures Between(count, 0, count)(x) {
      BinIndexInRange(x.0, count);
    }
    FilterAll(points, Between(count, 0, count));
  }

  /** Every sample lands in exactly one bin. */
  lemma BinCountsAddUp(points: seq<Point>, count: int)
    requires count > 0 && AreProbabilities(points)
    ensures BinSizes(Bins(points, count)) == |points|
  {
    SizesAddUp(points, count, count);
    AllBetween(points, count);
  }

  lemma EceIsMeanGap(points: seq<Point>, count: int)
    requires count > 0 && points != []
    ensures Ece(points, count) == GroupGaps(points, count, count) / |points| as real
  {
    GapsAreWeighted(points, count, count);
  }

  // ---- Inequalities ----

  lemma MeanDifference(c: real, o: real, n: real)
    requires n > 0.0
    ensures AbsReal(c / n - o / n) == AbsReal(c - o) / n
  {
    assert n * (c / n) == c && n * (o / n) == o;
    ScaledGap(n, c / n, o / n);
    CancelFactor(n, AbsReal(c / n - o / n));
  }

  lemma CancelFactor(n: real, x: real)
    requires n > 0.0
    ensures n * x / n == x
  {
  }

  lemma MeanGap(points: seq<Point>)
    requires points != []
    ensures var n := |points| as real;
            AbsReal(SumConfidence(points) / n - SumObserved(points) / n) == AbsReal(SumGap(points)) / n
  {
    hide AbsReal;
    GapIsDifference(points);
    MeanDifference(SumConfidence(points), SumObserved(points), |points| as real);
  }

  /** The calibration error is at least the gap between the overall means. */
  lemma EceCoversMeanGap(points: seq<Point>, count: int)
    requires count > 0 && points != [] && AreProbabilities(points)
    ensures var n := |points| as real;
            Ece(points, count) >= AbsReal(SumConfidence(points) / n - SumObserved(points) / n)
  {
    GapsAreWeighted(points, count, count);
    RangeGap(points, count, 0, count);
    AllBetween(points, count);
    MeanGap(points);
    DivideKeepsOrder(AbsReal(SumGap(points)), GroupGaps(points, count, count), |points| as real);
  }

  /** Finer bins nest in coarser ones. */
  lemma IndexNests(p: real, count: int, m: int, fine: int)
    requires count > 0 && m > 0 && fine == m * count > 0 && IsProbability(p)
    ensures m * BinIndex(p, count) <= BinIndex(p, fine) < m * BinIndex(p, count) + m
  {
    ScaledNests(p, count, m, fine);
    ScaledIsBounded(p, count);
    hide Scaled;
    FloorNests(Scaled(p, count), m);
    ClampNests(Scaled(p, count).Floor, Scaled(p, fine).Floor, count, m);
  }

  lemma ScaledNests(p: real, count: int, m: int, fine: int)
    requires fine == m * count
    ensures Scaled(p, fine) == m as real * Scaled(p, count)
  {
    assert fine as real == m as real * count as real;
  }

  lemma ScaledIsBounded(p: real, count: int)
    requires count > 0 && IsProbability(p)
    ensures Scaled(p, count).Floor <= count
  {
    ScaleKeepsOrder(count as real, p, 1.0);
  }

  /** Cutting both indices off at their last bin keeps them nested. */
  lemma ClampNests(coarse: int, fine: int, count: int, m: int)
    requires m > 0 && coarse <= count && m * coarse <= fine < m * coarse + m
    ensures m * MinInt(count - 1, coarse) <= MinInt(m * count - 1, fine) < m * MinInt(count - 1, coarse) + m
  {
    NextMultiple(m, count - 1);
    if coarse < count {
      NextMultiple(m, coarse);
      MultiplesAreOrdered(m, coarse + 1, count);
    }
  }

  lemma NextMultiple(m: int, x: int)
    ensures m * (x + 1) == m * x + m
  {
  }

  lemma MultiplesAreOrdered(m: int, x: int, y: int)
    requires m > 0 && x <= y
    ensures m * x <= m * y
  {
  }

  lemma FloorNests(x: real, m: int)
    requires m > 0
    ensures m * x.Floor <= (m as real * x).Floor < m * x.Floor + m
  {
    var low, scale := x.Floor as real, m as real;
    ScaleKeepsOrder(scale, low, x);
    ScaleKeepsStrictOrder(scale, x, low + 1.0);
    NextProduct(scale, low);
    ProductAsReal(m, x.Floor);
    var start := m * x.Floor;
    assert start as real == scale * low && (start + m) as real == scale * low + scale;
    FloorBetween(scale * x, start, start + m);
  }

  lemma NextProduct(scale: real, low: real)
    ensures scale * (low + 1.0) == scale * low + scale
  {
  }

  lemma ProductAsReal(m: int, n: int)
    ensures (m * n) as real == m as real * n as real
  {
  }

  lemma FloorBetween(y: real, a: int, b: int)
    requires a as real <= y < b as real
    ensures a <= y.Floor < b
  {
  }

  lemma CoarseIsRange(points: seq<Point>, count: int, m: int, i: nat, fine: int, low: int)
    requires count > 0 && m > 0 && i < count && AreProbabilities(points) && fine == m * count > 0 && low == m * i
    ensures Group(points, count, i) == Filter(points, Between(fine, low, low + m))
  {
    hide BinIndex, IsProbability, Filter;
    forall x | x in points ensures InBin(count, i)(x) == Between(fine, low, low + m)(x) {
      IndexNests(x.0, count, m, fine);
      SameMultiple(m, i, BinIndex(x.0, count), BinIndex(x.0, fine));
    }
    FilterSame(points, InBin(count, i), Between(fine, low, low + m));
  }

  lemma SameMultiple(m: int, i: int, j: int, fine: int)
    requires m > 0 && m * j <= fine < m * j + m
    ensures i == j <==> m * i <= fine < m * i + m
  {
    NextMultiple(m, i);
    NextMultiple(m, j);
    if i < j {
      MultiplesAreOrdered(m, i + 1, j);
    } else if i > j {
      MultiplesAreOrdered(m, j + 1, i);
    }
  }

  lemma {:induction false} RefiningRaisesGaps(points: seq<Point>, count: int, m: int, k: nat, fine: int, top: nat)
    requires count > 0 && m > 0 && k <= count && AreProbabilities(points) && fine == m * count > 0 && top == m * k
    ensures GroupGaps(points, count, k) <= GroupGaps(points, fine, top)
  {
    hide Group, Filter, AreProbabilities;
    if k > 0 {
      NextMultiple(m, k - 1);
      MultiplesAreOrdered(m, 0, k - 1);
      var low := top - m;
      RefiningRaisesGaps(points, count, m, k - 1, fine, low);
      CoarseIsRange(points, count, m, k - 1, fine, low);
      RangeGap(points, fine, low, top);
    }
  }

  /** Splitting every bin into the same number of parts never lowers the calibration error. */
  lemma EceRisesUnderRefinement(points: seq<Point>, count: int, m: int)
    requires count > 0 && m > 0 && points != [] && AreProbabilities(points)
    ensures m * count > 0 && Ece(points, count) <= Ece(points, m * count)
  {
    assert m * count > 0;
    GapsAreWeighted(points, count, count);
    GapsAreWeighted(points, m * count, m * count);
    RefiningRaisesGaps(points, count, m, count, m * count, m * count);
    DivideKeepsOrder(GroupGaps(points, count, count), GroupGaps(points, m * count, m * count), |points| as real);
  }

  lemma {:induction false} GapBelowAbsolute(points: seq<Point>)
    ensures AbsReal(SumGap(points)) <= SumAbsolute(points)
  {
    if points != [] {
      GapBelowAbsolute(points[..|points| - 1]);
    }
  }

  lemma {:induction false} GapsBelowAbsolute(points: seq<Point>, count: int, k: nat)
    requires count > 0
    ensures GroupGaps(points, count, k) <= SumAbsolute(Filter(points, Between(count, 0, k)))
  {
    hide Filter, SumGap, SumAbsolute, Group, AbsReal, BinIndex;
    if k == 0 {
      NothingToSum();
      FilterNone(points, Between(count, 0, 0));
    } else {
      GapsBelowAbsolute(points, count, k - 1);
      SplitAt(points, count, 0, k - 1);
      GapBelowAbsolute(Group(points, count, k - 1));
    }
  }

  lemma {:induction false} SumsAreNonNegative(points: seq<Point>)
    ensures SumAbsolute(points) >= 0.0 && SumSquares(points) >= 0.0
  {
    if points != [] {
      SumsAreNonNegative(points[..|points| - 1]);
      SquareIsNonNegative(points[|points| - 1].0 - points[|points| - 1].1);
    }
  }

  lemma SquareIsNonNegative(x: real)
    ensures x * x >= 0.0
  {
  }

  /** One step of the inequality between a mean and a root mean square. */
  lemma MeanSquareStep(n: real, a: real, q: real, d: real)
    requires n >= 0.0 && a >= 0.0 && q >= 0.0 && d >= 0.0 && a * a <= n * q
    ensures (a + d) * (a + d) <= (n + 1.0) * (q + d * d)
  {
    assert (a + d) * (a + d) == a * a + 2.0 * a * d + d * d;
    assert (n + 1.0) * (q + d * d) == n * q + q + n * (d * d) + d * d;
    if n == 0.0 {
      assert n * q == 0.0;
      ZeroSquare(a);
    } else {
      var slack := q + n * (d * d) - 2.0 * a * d;
      SquareIsNonNegative(a - n * d);
      assert (a - n * d) * (a - n * d) == a * a - 2.0 * (n * (a * d)) + n * (n * (d * d));
      assert n * slack == n * q + n * (n * (d * d)) - 2.0 * (n * (a * d));
      assert n * slack >= 0.0;
      FactorIsNonNegative(n, slack);
    }
  }

  lemma ZeroSquare(a: real)
    requires a >= 0.0 && a * a <= 0.0
    ensures a == 0.0
  {
    if a > 0.0 {
      ProductIsPositive(a, a);
    }
  }

  lemma SquareOfAbs(x: real)
    ensures AbsReal(x) >= 0.0 && AbsReal(x) * AbsReal(x) == x * x
  {
  }

  lemma {:induction false} MeanSquare(points: seq<Point>)
    ensures SumAbsolute(points) * SumAbsolute(points) <= |points| as real * SumSquares(points)
  {
    if points != [] {
      var front, last := points[..|points| - 1], points[|points| - 1];
      MeanSquare(front);
      SumsAreNonNegative(front);
      SquareOfAbs(last.0 - last.1);
      hide AbsReal;
      MeanSquareStep(|front| as real, SumAbsolute(front), SumSquares(front), AbsReal(last.0 - last.1));
    }
  }

  function Brier(points: seq<Point>): real
    requires points != []
  {
    SumSquares(points) / |points| as real
  }

  lemma GroupGapsAreNonNegative(points: seq<Point>, count: int, k: nat)
    requires count > 0
    ensures GroupGaps(points, count, k) >= 0.0
  {
  }

  lemma SquareOfMean(e: real, n: real, q: real)
    requires n > 0.0 && e * e <= n * q
    ensures (e / n) * (e / n) <= q / n
  {
    var f, g := e / n, q / n;
    assert f * n == e && g * n == q;
    assert (n * n) * (g - f * f) == n * (g * n) - (f * n) * (f * n);
    ProductIsPositive(n, n);
    FactorIsNonNegative(n * n, g - f * f);
  }

  /** The squared calibration error never exceeds the Brier score. */
  lemma EceSquaredBelowBrier(points: seq<Point>, count: int)
    requires count > 0 && points != [] && AreProbabilities(points)
    ensures Ece(points, count) * Ece(points, count) <= Brier(points)
    ensures Ece(points, count) <= SumAbsolute(points) / |points| as real
  {
    hide GroupGaps, SumAbsolute, SumSquares, IsProbability, Ece, Filter;
    var gaps, total, n := GroupGaps(points, count, count), SumAbsolute(points), |points| as real;
    EceIsMeanGap(points, count);
    GapsBelowAbsolute(points, count, count);
    AllBetween(points, count);
    MeanSquare(points);
    GroupGapsAreNonNegative(points, count, count);
    DivideKeepsOrder(gaps, total, n);
    SquareKeepsOrder(gaps, total);
    SquareOfMean(gaps, n, SumSquares(points));
  }

  lemma SquareKeepsOrder(a: real, b: real)
    requires 0.0 <= a <= b
    ensures a * a <= b * b
  {
    assert a * a <= a * b && a * b <= b * b;
  }
}
