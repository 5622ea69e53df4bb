// What the figures of an evaluation report are, in terms of the samples it was made from.

module ReportLaws {
  import opened Arithmetic
  import opened Basics
  import opened ControlTypes
  import opened Calibration
  import opened Evaluation

  // ---- Sums and counts over the samples ----

  ghost function SumKnown(samples: seq<Sample>, measure: Sample -> Option<real>): real {
    if samples == [] then 0.0
    else
      var x := measure(samples[0]);
      (if x.Some? then x.value else 0.0) + SumKnown(samples[1..], measure)
  }

  ghost function HowMany<T>(items: seq<T>, test: T -> bool): nat {
    if items == [] then 0 else (if test(items[0]) then 1 else 0) + HowMany(items[1..], test)
  }

  ghost function Known<T(!new)>(measure: Sample -> Option<T>): Sample -> bool {
    (s: Sample) => measure(s).Some?
  }

  lemma {:induction false} SumKnownLast(samples: seq<Sample>, measure: Sample -> Option<real>)
    requires samples != []
    ensures var x := measure(samples[|samples| - 1]);
            SumKnown(samples, measure)
            == SumKnown(samples[..|samples| - 1], measure) + if x.Some? then x.value else 0.0
  {
    if |samples| > 1 {
      var front, rest := samples[..|samples| - 1], samples[1..];
      SumKnownLast(rest, measure);
      assert rest[..|rest| - 1] == front[1..];
    }
  }

  lemma {:induction false} HowManyLast<T>(items: seq<T>, test: T -> bool)
    requires items != []
    ensures HowMany(items, test) == HowMany(items[..|items| - 1], test) + if test(items[|items| - 1]) then 1 else 0
  {
    if |items| > 1 {
      var front, rest := items[..|items| - 1], items[1..];
      HowManyLast(rest, test);
      assert rest[..|rest| - 1] == front[1..];
    }
  }

  lemma {:induction false} CollectedAreKnown(samples: seq<Sample>, measure: Sample -> Option<real>)
    ensures |Collect(samples, measure)| == HowMany(samples, Known(measure))
    ensures Sum(Collect(samples, measure)) == SumKnown(samples, measure)
  {
    if samples != [] {
      CollectedAreKnown(samples[..|samples| - 1], measure);
      SumKnownLast(samples, measure);
      HowManyLast(samples, Known(measure));
      var front := Collect(samples[..|samples| - 1], measure);
      var x := measure(samples[|samples| - 1]);
      if x.Some? {
        assert (front + [x.value])[..|front|] == front;
      }
    }
  }

  /** The mean of the known values of a measure, if there are any. */
  ghost predicate IsMeanOf(mean: Option<real>, count: nat, samples: seq<Sample>, measure: Sample -> Option<real>) {
    && count == HowMany(samples, Known(measure))
    && (mean.Some? <==> count > 0)
    && (mean.Some? ==> Product(mean.value, count as real) == SumKnown(samples, measure))
  }

  lemma MeanIsMeanOf(samples: seq<Sample>, measure: Sample -> Option<real>)
    ensures IsMeanOf(Mean(Collect(samples, measure)), |Collect(samples, measure)|, samples, measure)
  {
    hide Sum;
    CollectedAreKnown(samples, measure);
    var values := Collect(samples, measure);
    if values != [] {
      QuotientUndone(Sum(values), |values| as real);
    }
  }

  lemma QuotientUndone(a: real, b: real)
    requires b != 0.0
    ensures Product(a / b, b) == a
  {
  }

  // ---- Counts ----

  lemma {:induction false} CountIsHowMany(samples: seq<Sample>, weight: Sample -> nat, test: Sample -> bool)
    requires forall s :: weight(s) == if test(s) then 1 else 0
    ensures Count(samples, weight) == HowMany(samples, test)
  {
    if samples != [] {
      CountIsHowMany(samples[..|samples| - 1], weight, test);
      HowManyLast(samples, test);
    }
  }

  lemma {:induction false} CountIsSum(
      samples: seq<Sample>, weight: Sample -> nat, a: Sample -> bool, b: Sample -> bool, c: Sample -> bool)
    requires forall s :: weight(s) == (if a(s) then 1 else 0) + (if b(s) then 1 else 0) + if c(s) then 1 else 0
    ensures Count(samples, weight) == HowMany(samples, a) + HowMany(samples, b) + HowMany(samples, c)
  {
    if samples != [] {
      CountIsSum(samples[..|samples| - 1], weight, a, b, c);
      HowManyLast(samples, a);
      HowManyLast(samples, b);
      HowManyLast(samples, c);
    }
  }

  ghost function LatencyObserved(): Sample -> bool {
    (s: Sample) => s.1.outcome.actualLatencySeconds.Some?
  }

  ghost function CostObserved(): Sample -> bool {
    (s: Sample) => s.1.outcome.actualCost.Some?
  }

  ghost function SuccessObserved(): Sample -> bool {
    (s: Sample) => s.1.outcome.actualSuccess.Some?
  }

  ghost function LatencyForeseen(): Sample -> bool {
    (s: Sample) => LatencyObserved()(s) && s.0.performance.e2eSeconds.Some?
  }

  ghost function CostForeseen(): Sample -> bool {
    (s: Sample) => CostObserved()(s) && s.0.cost.monetaryCost.Some?
  }

  ghost function SuccessForeseen(): Sample -> bool {
    (s: Sample) => SuccessObserved()(s) && s.0.reliability.successProbability.Some?
  }

  ghost function IsFallback(): Sample -> bool {
    (s: Sample) => s.0.fallback != "none"
  }

  /** A share of a whole, or 0 of nothing. */
  ghost predicate IsShareOf(share: real, part: nat, whole: nat) {
    (whole == 0 ==> share == 0.0) && (whole > 0 ==> Product(share, whole as real) == part as real)
  }

  lemma SharesAreShares(part: nat, whole: nat)
    ensures IsShareOf(ShareOf(part, whole), part, whole)
  {
    if whole > 0 {
      QuotientUndone(part as real, whole as real);
    }
  }

  /** The counts of a report: what was observed, how much of it had been predicted, and how many predictions were
      fallbacks. */
  lemma ReportCounts(samples: seq<Sample>, count: int)
    requires ReportOf(samples, count).Ok?
    ensures var r := ReportOf(samples, count).value;
            && r.samples == |samples|
            && r.observedFields == HowMany(samples, LatencyObserved()) + HowMany(samples, CostObserved())
                                   + HowMany(samples, SuccessObserved())
            && r.predictedFields == HowMany(samples, LatencyForeseen()) + HowMany(samples, CostForeseen())
                                    + HowMany(samples, SuccessForeseen())
            && IsShareOf(r.coverage, r.predictedFields, r.observedFields)
            && IsShareOf(r.fallbackRate, HowMany(samples, IsFallback()), |samples|)
  {
    hide Bins, Brier, Ece, Mean, AreProbabilities, Collect, ShareOf, Count, IsShareOf;
    CountIsSum(samples, ObservedIn, LatencyObserved(), CostObserved(), SuccessObserved());
    CountIsSum(samples, PredictedIn, LatencyForeseen(), CostForeseen(), SuccessForeseen());
    CountIsHowMany(samples, FellBack, IsFallback());
    SharesAreShares(Count(samples, PredictedIn), Count(samples, ObservedIn));
    SharesAreShares(Count(samples, FellBack), |samples|);
  }

  /** The errors of a report are the means of the errors in the feedback, wherever they are known. */
  lemma ReportErrors(samples: seq<Sample>, count: int)
    requires ReportOf(samples, count).Ok?
    ensures var r := ReportOf(samples, count).value;
            && IsMeanOf(r.latencyMae, r.latencySamples, samples, (s: Sample) => s.1.errors.latencyAbsolute)
            && IsMeanOf(r.latencyMape, r.latencyMapeSamples, samples, (s: Sample) => s.1.errors.latencyPercentage)
            && IsMeanOf(r.costMae, r.costSamples, samples, (s: Sample) => s.1.errors.costAbsolute)
            && IsMeanOf(r.costMape, r.costMapeSamples, samples, (s: Sample) => s.1.errors.costPercentage)
  {
    hide Bins, Brier, Ece, Mean, AreProbabilities, Collect, ShareOf, Count, IsMeanOf;
    var latency, latencyPct := (s: Sample) => s.1.errors.latencyAbsolute, (s: Sample) => s.1.errors.latencyPercentage;
    var cost, costPct := (s: Sample) => s.1.errors.costAbsolute, (s: Sample) => s.1.errors.costPercentage;
    CollectsSame(samples, LatencyError(), latency);
    CollectsSame(samples, LatencyPercentage(), latencyPct);
    CollectsSame(samples, CostError(), cost);
    CollectsSame(samples, CostPercentage(), costPct);
    MeanIsMeanOf(samples, latency);
    MeanIsMeanOf(samples, latencyPct);
    MeanIsMeanOf(samples, cost);
    MeanIsMeanOf(samples, costPct);
  }

  lemma {:induction false} CollectsSame(samples: seq<Sample>, a: Sample -> Option<real>, b: Sample -> Option<real>)
    requires forall s :: a(s) == b(s)
    ensures Collect(samples, a) == Collect(samples, b)
  {
    if samples != [] {
      CollectsSame(samples[..|samples| - 1], a, b);
    }
  }

  // ---- Calibration ----

  /** The square of what a prediction of success missed by, wherever both are known. */
  ghost function SquaredMiss(): Sample -> Option<real> {
    (s: Sample) =>
      match s.1.calibration
      case None => None
      case Some(c) =>
        Some(Product(c.observedSuccess - c.predictedProbability, c.observedSuccess - c.predictedProbability))
  }

  lemma {:induction false} SquaresAreMisses(samples: seq<Sample>)
    ensures |Collect(samples, PointOf())| == HowMany(samples, Known(SquaredMiss()))
    ensures SumSquares(Collect(samples, PointOf())) == SumKnown(samples, SquaredMiss())
  {
    if samples != [] {
      var front, last := samples[..|samples| - 1], samples[|samples| - 1];
      SquaresAreMisses(front);
      SumKnownLast(samples, SquaredMiss());
      HowManyLast(samples, Known(SquaredMiss()));
      var points, x := Collect(front, PointOf()), PointOf()(last);
      if x.Some? {
        assert (points + [x.value])[..|points|] == points;
        SquareOfNegation(x.value.0 - x.value.1);
      }
    }
  }

  lemma SquareOfNegation(a: real)
    ensures a * a == Product(-a, -a)
  {
  }

  /** The Brier score is the mean squared miss of the predictions of success. */
  lemma ReportBrier(samples: seq<Sample>, count: int)
    requires ReportOf(samples, count).Ok?
    ensures var r := ReportOf(samples, count).value;
            IsMeanOf(r.brier, r.successSamples, samples, SquaredMiss())
  {
    hide Bins, Ece, Mean, AreProbabilities, Collect, ShareOf, Count, SumSquares, SumKnown, HowMany, SquaredMiss;
    SquaresAreMisses(samples);
    var points := Collect(samples, PointOf());
    if points != [] {
      QuotientUndone(SumSquares(points), |points| as real);
    }
  }

  /** A report is refused for a bin count below 1, and else exactly for a calibration sample whose prediction is no
      probability. */
  lemma ReportRefusedExactlyWhen(samples: seq<Sample>, count: int)
    ensures var r := ReportOf(samples, count);
            var impossible := exists x :: x in Collect(samples, PointOf()) && (x.0 < 0.0 || x.0 > 1.0);
            && (r == Err(BinCountNotPositive) <==> count < 1)
            && (r == Err(ProbabilityOutOfRange) <==> count >= 1 && impossible)
  {
    hide Bins, Brier, Ece, Mean, Collect, ShareOf, Count;
    var points := Collect(samples, PointOf());
    if x :| x in points && (x.0 < 0.0 || x.0 > 1.0) {
      var i :| 0 <= i < |points| && points[i] == x;
    }
    if i :| 0 <= i < |points| && !IsProbability(points[i].0) {
      assert points[i] in points;
    }
  }

  // ---- Bins ----

  /** The interval of a share: the `i`-th of `count` equal ones, the last one closed above. */
  ghost predicate InInterval(x: Point, count: int, i: int) {
    var scaled := x.0 * count as real;
    i as real <= scaled && (i < count - 1 ==> scaled < i as real + 1.0)
  }

  ghost function Inside(count: int, i: int): Point -> bool {
    (x: Point) => InInterval(x, count, i)
  }

  ghost function SumOf(points: seq<Point>, test: Point -> bool, figure: Point -> real): real {
    if points == [] then 0.0
    else (if test(points[0]) then figure(points[0]) else 0.0) + SumOf(points[1..], test, figure)
  }

  lemma {:induction false} SumOfLast(points: seq<Point>, test: Point -> bool, figure: Point -> real)
    requires points != []
    ensures var last := points[|points| - 1];
            SumOf(points, test, figure)
            == SumOf(points[..|points| - 1], test, figure) + if test(last) then figure(last) else 0.0
  {
    if |points| > 1 {
      var front, rest := points[..|points| - 1], points[1..];
      SumOfLast(rest, test, figure);
      assert rest[..|rest| - 1] == front[1..];
    }
  }

  lemma IndexIsInterval(x: Point, count: int, i: int)
    requires count > 0 && IsProbability(x.0) && 0 <= i < count
    ensures InBin(count, i)(x) <==> InInterval(x, count, i)
  {
    var scaled := Scaled(x.0, count);
    ScaleKeepsOrder(count as real, x.0, 1.0);
    assert scaled.Floor as real <= scaled < scaled.Floor as real + 1.0;
  }

  ghost function First(): Point -> real {
    (x: Point) => x.0
  }

  ghost function Second(): Point -> real {
    (x: Point) => x.1
  }

  lemma {:induction false} GroupSums(points: seq<Point>, count: int, i: int)
    requires count > 0 && AreProbabilities(points) && 0 <= i < count
    ensures var group := Group(points, count, i);
            && |group| == HowMany(points, Inside(count, i))
            && SumConfidence(group) == SumOf(points, Inside(count, i), First())
            && SumObserved(group) == SumOf(points, Inside(count, i), Second())
  {
    hide BinIndex, IsProbability, InInterval;
    if points != [] {
      var front, last := points[..|points| - 1], points[|points| - 1];
      GroupSums(front, count, i);
      HowManyLast(points, Inside(count, i));
      SumOfLast(points, Inside(count, i), First());
      SumOfLast(points, Inside(count, i), Second());
      IndexIsInterval(last, count, i);
      var group := Group(front, count, i);
      assert (group + [last])[..|group|] == group;
    }
  }

  /** A bin says of its interval how many predictions fell into it, what they said and what happened on average, and how
      far apart these are. */
  ghost predicate Summarises(bin: CalibrationBin, points: seq<Point>, count: int, i: int) {
    && Product(bin.lowerBound, count as real) == i as real
    && Product(bin.upperBound, count as real) == i as real + 1.0
    && bin.samples > 0 && bin.samples == HowMany(points, Inside(count, i))
    && Product(bin.meanConfidence, bin.samples as real) == SumOf(points, Inside(count, i), First())
    && Product(bin.observedSuccessRate, bin.samples as real) == SumOf(points, Inside(count, i), Second())
    && bin.absoluteGap >= 0.0
    && bin.absoluteGap in {bin.meanConfidence - bin.observedSuccessRate, bin.observedSuccessRate - bin.meanConfidence}
  }

  lemma BinSummarises(points: seq<Point>, count: int, i: int)
    requires count > 0 && AreProbabilities(points) && 0 <= i < count && Group(points, count, i) != []
    ensures Summarises(BinOf(Group(points, count, i), count, i), points, count, i)
  {
    hide Group, SumConfidence, SumObserved, HowMany, SumOf, Inside, AreProbabilities;
    GroupSums(points, count, i);
    var group := Group(points, count, i);
    var n := |group| as real;
    QuotientUndone(SumConfidence(group), n);
    QuotientUndone(SumObserved(group), n);
    BoundScales(i, count);
    BoundScales(i + 1, count);
  }

  lemma BoundScales(i: int, count: int)
    requires count > 0
    ensures Product(i as real * (1.0 / count as real), count as real) == i as real
  {
    var n := count as real;
    assert (1.0 / n) * n == 1.0;
    assert (i as real * (1.0 / n)) * n == i as real * ((1.0 / n) * n);
  }

  /** The interval that each bin stands for, in ascending order, and none that something fell into is left out. */
  lemma {:induction false} BinsSummariseIntervals(points: seq<Point>, count: int, k: nat) returns (places: seq<nat>)
    requires count > 0 && AreProbabilities(points) && k <= count
    ensures var bins := BinsUpTo(points, count, k);
            && |places| == |bins|
            && (forall j :: 0 <= j < |bins| ==> places[j] < k && Summarises(bins[j], points, count, places[j]))
            && (forall j, l :: 0 <= j < l < |bins| ==> places[j] < places[l])
            && (forall i: nat :: i < k && HowMany(points, Inside(count, i)) > 0 ==> i in places)
  {
    hide Group, Summarises, HowMany, Inside, AreProbabilities, BinOf;
    if k == 0 {
      places := [];
    } else {
      places := BinsSummariseIntervals(points, count, k - 1);
      GroupSums(points, count, k - 1);
      if Group(points, count, k - 1) != [] {
        BinSummarises(points, count, k - 1);
        places := places + [k - 1];
      }
    }
  }

  /** A point pairs what was said of some success with what happened. */
  ghost predicate IsPointOf(x: Point, samples: seq<Sample>) {
    exists s :: s in samples && s.1.calibration.Some?
                && s.1.calibration.value.predictedProbability == x.0 && s.1.calibration.value.observedSuccess == x.1
  }

  lemma {:induction false} PointsArePairs(samples: seq<Sample>)
    ensures forall x :: x in Collect(samples, PointOf()) ==> IsPointOf(x, samples)
  {
    if samples != [] {
      var front, last := samples[..|samples| - 1], samples[|samples| - 1];
      PointsArePairs(front);
      assert samples == front + [last];
      forall x | x in Collect(samples, PointOf()) ensures IsPointOf(x, samples) {
        if x in Collect(front, PointOf()) {
          var s :| s in front && s.1.calibration.Some?
                   && s.1.calibration.value.predictedProbability == x.0 && s.1.calibration.value.observedSuccess == x.1;
          assert s in samples;
        } else {
          assert last in samples;
        }
      }
    }
  }

  /** The bins of a report, and its expected calibration error: the mean gap of the predictions, bin by bin. */
  lemma ReportBins(samples: seq<Sample>, count: int) returns (places: seq<nat>, points: seq<Point>)
    requires ReportOf(samples, count).Ok?
    ensures |points| == HowMany(samples, Known(SquaredMiss())) && forall x :: x in points ==> IsPointOf(x, samples)
    ensures var r := ReportOf(samples, count).value;
            && |places| == |r.bins| && |points| == r.successSamples
            && (forall j :: 0 <= j < |r.bins| ==> places[j] < count && Summarises(r.bins[j], points, count, places[j]))
            && (forall j, l :: 0 <= j < l < |r.bins| ==> places[j] < places[l])
            && (forall i: nat :: i < count && HowMany(points, Inside(count, i)) > 0 ==> i in places)
            && (r.ece.Some? <==> points != [])
            && (r.ece.Some? ==> Product(r.ece.value, |points| as real) == GapsOf(r.bins))
  {
    hide Brier, Mean, AreProbabilities, Collect, ShareOf, Count, Summarises, BinsUpTo, HowMany, WeightedGaps, Inside, GapsOf,
         IsPointOf, SquaredMiss, Known;
    SquaresAreMisses(samples);
    PointsArePairs(samples);
    points := Collect(samples, PointOf());
    places := BinsSummariseIntervals(points, count, count);
    GapsAreSummed(Bins(points, count));
    if points != [] {
      QuotientUndone(WeightedGaps(Bins(points, count)), |points| as real);
    }
  }

  ghost function GapsOf(bins: seq<CalibrationBin>): real {
    if bins == [] then 0.0 else Product(bins[0].absoluteGap, bins[0].samples as real) + GapsOf(bins[1..])
  }

  lemma {:induction false} GapsOfLast(bins: seq<CalibrationBin>)
    requires bins != []
    ensures var last := bins[|bins| - 1];
            GapsOf(bins) == GapsOf(bins[..|bins| - 1]) + Product(last.absoluteGap, last.samples as real)
  {
    if |bins| > 1 {
      var front, rest := bins[..|bins| - 1], bins[1..];
      GapsOfLast(rest);
      assert rest[..|rest| - 1] == front[1..];
    }
  }

  lemma {:induction false} GapsAreSummed(bins: seq<CalibrationBin>)
    ensures WeightedGaps(bins) == GapsOf(bins)
  {
    if bins != [] {
      GapsAreSummed(bins[..|bins| - 1]);
      GapsOfLast(bins);
    }
  }
}
