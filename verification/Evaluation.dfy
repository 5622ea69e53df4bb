// Joining predictions to outcomes, and the evaluation report over the joined samples.

module Evaluation {
  import opened Arithmetic
  import opened Basics
  import opened ControlTypes
  import opened Calibration

  datatype FeedbackError = ActionMismatch | ForeignPrediction | NegativeActual | NegativePredicted | BadProbability

  datatype ContinuousError = ContinuousError(absolute: Option<real>, percentage: Option<real>, kpi: Option<real>)

  function ContinuousErrorOf(predicted: Option<real>, actual: Option<real>): Result<ContinuousError, FeedbackError> {
    if actual.None? then Ok(ContinuousError(None, None, None))
    else if actual.value < 0.0 then Err(NegativeActual)
    else if predicted.None? then Ok(ContinuousError(None, None, actual))
    else if predicted.value < 0.0 then Err(NegativePredicted)
    else
      var absolute := AbsReal(predicted.value - actual.value);
      Ok(ContinuousError(Some(absolute), if actual.value > 0.0 then Some(absolute / actual.value) else None, actual))
  }

  datatype SuccessError = SuccessError(
    absolute: Option<real>, brier: Option<real>, kpi: Option<real>, observed: Option<real>)

  function SuccessErrorOf(probability: Option<real>, actual: Option<bool>): Result<SuccessError, FeedbackError> {
    if actual.None? then Ok(SuccessError(None, None, None, None))
    else
      var observed := if actual.value then 1.0 else 0.0;
      if probability.None? then Ok(SuccessError(None, None, Some(observed), None))
      else if !IsProbability(probability.value) then Err(BadProbability)
      else
        var gap := probability.value - observed;
        Ok(SuccessError(Some(AbsReal(gap)), Some(gap * gap), Some(observed), Some(observed)))
  }

  /** Joins the selected prediction of a decision to its outcome. */
  function BuildFeedback(
      decision: DecisionRecord, prediction: Prediction, outcome: Outcome, pointer: string, feedbackId: string, at: int)
    : Result<Feedback, FeedbackError>
  {
    if outcome.actionId != decision.selectedAction.actionId then Err(ActionMismatch)
    else if prediction.predictionId !in decision.predictionIds then Err(ForeignPrediction)
    else
      match ContinuousErrorOf(prediction.performance.e2eSeconds, outcome.actualLatencySeconds)
      case Err(e) => Err(e)
      case Ok(latency) =>
        match ContinuousErrorOf(prediction.cost.monetaryCost, outcome.actualCost)
        case Err(e) => Err(e)
        case Ok(cost) =>
          match SuccessErrorOf(prediction.reliability.successProbability, outcome.actualSuccess)
          case Err(e) => Err(e)
          case Ok(success) =>
            Ok(Feedback(
                 feedbackId, at, decision.decisionId, outcome.actionId, prediction.predictionId, outcome,
                 PredictionError(latency.absolute, latency.percentage, cost.absolute, cost.percentage,
                                 success.absolute, success.brier),
                 Kpis(latency.kpi, cost.kpi, success.kpi),
                 if success.observed.None? then None
                 else Some(CalibrationSample(prediction.reliability.successProbability.value, success.observed.value,
                                             prediction.modelVersion, prediction.applicability)),
                 pointer))
  }

  /** A measurement that makes the builder raise. */
  predicate BadMeasure(predicted: Option<real>, actual: Option<real>) {
    actual.Some? && (actual.value < 0.0 || (predicted.Some? && predicted.value < 0.0))
  }

  /** Feedback is refused exactly for foreign ids, a negative measurement, or an impossible probability. */
  lemma FeedbackRefusedExactlyWhen(
      decision: DecisionRecord, p: Prediction, outcome: Outcome, pointer: string, feedbackId: string, at: int)
    ensures BuildFeedback(decision, p, outcome, pointer, feedbackId, at).Err? <==>
            || outcome.actionId != decision.selectedAction.actionId
            || p.predictionId !in decision.predictionIds
            || BadMeasure(p.performance.e2eSeconds, outcome.actualLatencySeconds)
            || BadMeasure(p.cost.monetaryCost, outcome.actualCost)
            || (outcome.actualSuccess.Some? && p.reliability.successProbability.Some?
                && (p.reliability.successProbability.value < 0.0 || p.reliability.successProbability.value > 1.0))
  {
  }

  /** The distance between a prediction and what happened, if both are known. */
  ghost predicate Distance(x: Option<real>, predicted: Option<real>, actual: Option<real>) {
    if predicted.None? || actual.None? then x == None
    else
      && x.Some? && x.value >= 0.0
      && (predicted.value == actual.value + x.value || actual.value == predicted.value + x.value)
  }

  /** A share of the actual value, if that is positive. */
  ghost predicate ShareOfActual(x: Option<real>, distance: Option<real>, actual: Option<real>) {
    if distance.None? || actual.None? || actual.value <= 0.0 then x == None
    else x.Some? && Product(x.value, actual.value) == distance.value
  }

  lemma ContinuousMeasures(predicted: Option<real>, actual: Option<real>)
    requires ContinuousErrorOf(predicted, actual).Ok?
    ensures var e := ContinuousErrorOf(predicted, actual).value;
            Distance(e.absolute, predicted, actual) && ShareOfActual(e.percentage, e.absolute, actual) && e.kpi == actual
  {
  }

  /** What happened, as a number. */
  function AsNumber(actual: Option<bool>): Option<real> {
    match actual
    case None => None
    case Some(true) => Some(1.0)
    case Some(false) => Some(0.0)
  }

  lemma SuccessMeasures(probability: Option<real>, actual: Option<bool>)
    requires SuccessErrorOf(probability, actual).Ok?
    ensures var e := SuccessErrorOf(probability, actual).value;
            && Distance(e.absolute, probability, AsNumber(actual)) && e.kpi == AsNumber(actual)
            && (e.brier.Some? <==> e.absolute.Some?)
            && (e.brier.Some? ==> e.absolute.value <= 1.0 && e.brier.value == Product(e.absolute.value, e.absolute.value))
            && e.observed == if probability.Some? then AsNumber(actual) else None
  {
  }

  /** The errors in feedback: each is the distance of the prediction from what happened, also as a share of a positive
      actual value, and squared for success; the indicators are what happened, and the calibration sample pairs both. */
  lemma FeedbackMeasuresError(
      decision: DecisionRecord, p: Prediction, outcome: Outcome, pointer: string, feedbackId: string, at: int)
    requires BuildFeedback(decision, p, outcome, pointer, feedbackId, at).Ok?
    ensures var f, o := BuildFeedback(decision, p, outcome, pointer, feedbackId, at).value, outcome;
            var e, success := f.errors, p.reliability.successProbability;
            && Distance(e.latencyAbsolute, p.performance.e2eSeconds, o.actualLatencySeconds)
            && ShareOfActual(e.latencyPercentage, e.latencyAbsolute, o.actualLatencySeconds)
            && Distance(e.costAbsolute, p.cost.monetaryCost, o.actualCost)
            && ShareOfActual(e.costPercentage, e.costAbsolute, o.actualCost)
            && Distance(e.successAbsolute, success, AsNumber(o.actualSuccess))
            && (e.successBrier.Some? <==> e.successAbsolute.Some?)
            && (e.successBrier.Some? ==>
                  && e.successAbsolute.value <= 1.0
                  && e.successBrier.value == Product(e.successAbsolute.value, e.successAbsolute.value))
            && f.kpis == Kpis(o.actualLatencySeconds, o.actualCost, AsNumber(o.actualSuccess))
            && (f.calibration.Some? <==> success.Some? && o.actualSuccess.Some?)
            && (f.calibration.Some? ==>
                  && Some(f.calibration.value.predictedProbability) == success
                  && Some(f.calibration.value.observedSuccess) == AsNumber(o.actualSuccess)
                  && f.calibration.value.modelVersion == p.modelVersion
                  && f.calibration.value.applicability == p.applicability)
  {
    ContinuousMeasures(p.performance.e2eSeconds, outcome.actualLatencySeconds);
    ContinuousMeasures(p.cost.monetaryCost, outcome.actualCost);
    SuccessMeasures(p.reliability.successProbability, outcome.actualSuccess);
    hide ContinuousErrorOf, SuccessErrorOf, Product, Distance, ShareOfActual;
  }

  /** Feedback names the decision, the action and the prediction that it joins. */
  lemma FeedbackNamesItsParts(
      decision: DecisionRecord, p: Prediction, outcome: Outcome, pointer: string, feedbackId: string, at: int)
    requires BuildFeedback(decision, p, outcome, pointer, feedbackId, at).Ok?
    ensures var f := BuildFeedback(decision, p, outcome, pointer, feedbackId, at).value;
            && f.decisionId == decision.decisionId && f.actionId == decision.selectedAction.actionId == outcome.actionId
            && f.predictionId == p.predictionId && f.predictionId in decision.predictionIds
            && f.outcome == outcome && f.replayPointer == pointer && f.feedbackId == feedbackId && f.timestamp == at
  {
    hide ContinuousErrorOf, SuccessErrorOf;
  }

  // ---- The report ----

  type Sample = (Prediction, Feedback)

  datatype ReportError = BinCountNotPositive | ProbabilityOutOfRange

  datatype Report = Report(
    samples: nat, observedFields: nat, predictedFields: nat, coverage: real,
    latencySamples: nat, latencyMae: Option<real>, latencyMapeSamples: nat, latencyMape: Option<real>,
    costSamples: nat, costMae: Option<real>, costMapeSamples: nat, costMape: Option<real>,
    successSamples: nat, brier: Option<real>, ece: Option<real>, fallbackRate: real,
    bins: seq<CalibrationBin>)

  function Collect<T>(samples: seq<Sample>, pick: Sample -> Option<T>): seq<T> {
    if samples == [] then []
    else
      var front := Collect(samples[..|samples| - 1], pick);
      match pick(samples[|samples| - 1])
      case None => front
      case Some(x) => front + [x]
  }

  function LatencyError(): Sample -> Option<real> {
    (s: Sample) => s.1.errors.latencyAbsolute
  }

  function LatencyPercentage(): Sample -> Option<real> {
    (s: Sample) => s.1.errors.latencyPercentage
  }

  function CostError(): Sample -> Option<real> {
    (s: Sample) => s.1.errors.costAbsolute
  }

  function CostPercentage(): Sample -> Option<real> {
    (s: Sample) => s.1.errors.costPercentage
  }

  function PointOf(): Sample -> Option<Point> {
    (s: Sample) =>
      match s.1.calibration
      case None => None
      case Some(c) => Some((c.predictedProbability, c.observedSuccess))
  }

  function One(condition: bool): nat {
    if condition then 1 else 0
  }

  function ObservedIn(s: Sample): nat {
    var o := s.1.outcome;
    One(o.actualLatencySeconds.Some?) + One(o.actualCost.Some?) + One(o.actualSuccess.Some?)
  }

  function PredictedIn(s: Sample): nat {
    var o, p := s.1.outcome, s.0;
    One(o.actualLatencySeconds.Some? && p.performance.e2eSeconds.Some?)
    + One(o.actualCost.Some? && p.cost.monetaryCost.Some?)
    + One(o.actualSuccess.Some? && p.reliability.successProbability.Some?)
  }

  function FellBack(s: Sample): nat {
    One(s.0.fallback != "none")
  }

  function Count(samples: seq<Sample>, weight: Sample -> nat): nat {
    if samples == [] then 0 else Count(samples[..|samples| - 1], weight) + weight(samples[|samples| - 1])
  }

  function Sum(values: seq<real>): real {
    if values == [] then 0.0 else Sum(values[..|values| - 1]) + values[|values| - 1]
  }

  function Mean(values: seq<real>): Option<real> {
    if values == [] then None else Some(Sum(values) / |values| as real)
  }

  function ShareOf(part: nat, whole: nat): real {
    if whole == 0 then 0.0 else part as real / whole as real
  }

  /** What one pass over the samples collects and counts. */
  datatype Tally = Tally(
    latency: seq<real>, latencyPct: seq<real>, cost: seq<real>, costPct: seq<real>, points: seq<Point>,
    observed: nat, predicted: nat, fallbacks: nat)

  function TallyOf(samples: seq<Sample>): Tally {
    Tally(Collect(samples, LatencyError()), Collect(samples, LatencyPercentage()),
          Collect(samples, CostError()), Collect(samples, CostPercentage()), Collect(samples, PointOf()),
          Count(samples, ObservedIn), Count(samples, PredictedIn), Count(samples, FellBack))
  }

  function ReportFrom(samples: nat, t: Tally, count: int): Report
    requires count > 0
  {
    var bins := Bins(t.points, count);
    Report(
      samples, t.observed, t.predicted, ShareOf(t.predicted, t.observed),
      |t.latency|, Mean(t.latency), |t.latencyPct|, Mean(t.latencyPct),
      |t.cost|, Mean(t.cost), |t.costPct|, Mean(t.costPct),
      |t.points|, if t.points == [] then None else Some(Brier(t.points)),
      if t.points == [] then None else Some(Ece(t.points, count)),
      ShareOf(t.fallbacks, samples), bins)
  }

  function ReportOf(samples: seq<Sample>, count: int): Result<Report, ReportError> {
    if count <= 0 then Err(BinCountNotPositive)
    else if !AreProbabilities(TallyOf(samples).points) then Err(ProbabilityOutOfRange)
    else Ok(ReportFrom(|samples|, TallyOf(samples), count))
  }

  lemma CollectStep<T>(samples: seq<Sample>, i: nat, pick: Sample -> Option<T>)
    requires i < |samples|
    ensures Collect(samples[..i + 1], pick)
            == match pick(samples[i])
               case None => Collect(samples[..i], pick)
               case Some(x) => Collect(samples[..i], pick) + [x]
  {
    assert samples[..i + 1][..i] == samples[..i];
  }

  lemma CountStep(samples: seq<Sample>, i: nat, weight: Sample -> nat)
    requires i < |samples|
    ensures Count(samples[..i + 1], weight) == Count(samples[..i], weight) + weight(samples[i])
  {
    assert samples[..i + 1][..i] == samples[..i];
  }

  lemma NothingToTally()
    ensures TallyOf([]) == Tally([], [], [], [], [], 0, 0, 0)
  {
  }

  lemma TallyStep(samples: seq<Sample>, i: nat)
    requires i < |samples|
    ensures var t, s := TallyOf(samples[..i]), samples[i];
            TallyOf(samples[..i + 1]) == Tally(
              Appended(t.latency, s.1.errors.latencyAbsolute), Appended(t.latencyPct, s.1.errors.latencyPercentage),
              Appended(t.cost, s.1.errors.costAbsolute), Appended(t.costPct, s.1.errors.costPercentage),
              Appended(t.points, PointOf()(s)),
              t.observed + ObservedIn(s), t.predicted + PredictedIn(s), t.fallbacks + FellBack(s))
  {
    hide Collect, Count;
    CollectStep(samples, i, LatencyError());
    CollectStep(samples, i, LatencyPercentage());
    CollectStep(samples, i, CostError());
    CollectStep(samples, i, CostPercentage());
    CollectStep(samples, i, PointOf());
    CountStep(samples, i, ObservedIn);
    CountStep(samples, i, PredictedIn);
    CountStep(samples, i, FellBack);
  }

  function Appended<T>(values: seq<T>, x: Option<T>): seq<T> {
    if x.Some? then values + [x.value] else values
  }

  method TallySamples(samples: seq<Sample>) returns (t: Tally)
    ensures t == TallyOf(samples)
  {
    hide TallyOf, ObservedIn, PredictedIn, FellBack;
    NothingToTally();
    var latency, latencyPct, cost, costPct := [], [], [], [];
    var points: seq<Point> := [];
    var observed: nat, predicted: nat, fallbacks: nat := 0, 0, 0;
    assert samples[..0] == [];
    for i := 0 to |samples|
      invariant Tally(latency, latencyPct, cost, costPct, points, observed, predicted, fallbacks) == TallyOf(samples[..i])
    {
      var s := samples[i];
      TallyStep(samples, i);
      fallbacks := fallbacks + FellBack(s);
      observed, predicted := observed + ObservedIn(s), predicted + PredictedIn(s);
      latency := AppendKnown(latency, s.1.errors.latencyAbsolute);
      latencyPct := AppendKnown(latencyPct, s.1.errors.latencyPercentage);
      cost := AppendKnown(cost, s.1.errors.costAbsolute);
      costPct := AppendKnown(costPct, s.1.errors.costPercentage);
      if s.1.calibration.Some? {
        points := points + [(s.1.calibration.value.predictedProbability, s.1.calibration.value.observedSuccess)];
      }
    }
    assert samples[..|samples|] == samples;
    t := Tally(latency, latencyPct, cost, costPct, points, observed, predicted, fallbacks);
  }

  method MaterializeReport(samples: seq<Sample>, count: int) returns (r: Result<Report, ReportError>)
    ensures r == ReportOf(samples, count)
  {
    hide Bins, Brier, Mean, AreProbabilities, TallyOf, ShareOf, WeightedGaps;
    if count <= 0 {
      return Err(BinCountNotPositive);
    }
    var t := TallySamples(samples);
    var bins := CalibrationBins(t.points, count);
    if bins.None? {
      return Err(ProbabilityOutOfRange);
    }
    r := Ok(Report(
      |samples|, t.observed, t.predicted, ShareOf(t.predicted, t.observed),
      |t.latency|, Mean(t.latency), |t.latencyPct|, Mean(t.latencyPct),
      |t.cost|, Mean(t.cost), |t.costPct|, Mean(t.costPct),
      |t.points|, if t.points == [] then None else Some(Brier(t.points)),
      if t.points == [] then None else Some(WeightedGaps(bins.value) / |t.points| as real),
      ShareOf(t.fallbacks, |samples|), bins.value));
  }

  method AppendKnown(values: seq<real>, x: Option<real>) returns (r: seq<real>)
    ensures r == Appended(values, x)
  {
    r := values;
    if x.Some? {
      r := r + [x.value];
    }
  }

  // ---- The report agrees with the feedback ----

  /** Feedback that was built from this very prediction. */
  ghost predicate Built(s: Sample) {
    exists decision, pointer, id, at ::
      BuildFeedback(decision, s.0, s.1.outcome, pointer, id, at) == Ok(s.1)
  }

  lemma BuiltSample(s: Sample)
    requires Built(s)
    ensures One(s.1.errors.latencyAbsolute.Some?) + One(s.1.errors.costAbsolute.Some?) + One(s.1.calibration.Some?)
            == PredictedIn(s)
    ensures PredictedIn(s) <= ObservedIn(s)
    ensures s.1.calibration.Some? ==>
              IsProbability(s.1.calibration.value.predictedProbability)
              && (s.1.calibration.value.observedSuccess == 1.0 || s.1.calibration.value.observedSuccess == 0.0)
  {
    var decision, pointer, id, at :| BuildFeedback(decision, s.0, s.1.outcome, pointer, id, at) == Ok(s.1);
  }

  lemma {:induction false} BuiltSamples(samples: seq<Sample>)
    requires forall s :: s in samples ==> Built(s)
    ensures Count(samples, PredictedIn)
            == |Collect(samples, LatencyError())| + |Collect(samples, CostError())| + |Collect(samples, PointOf())|
    ensures Count(samples, PredictedIn) <= Count(samples, ObservedIn)
    ensures AreProbabilities(Collect(samples, PointOf()))
  {
    hide PredictedIn, ObservedIn, Built;
    if samples != [] {
      BuiltSamples(samples[..|samples| - 1]);
      BuiltSample(samples[|samples| - 1]);
    }
  }

  /** Every count of the report is accounted for, and its calibration figures obey the known inequalities. */
  lemma ReportIsCoherent(samples: seq<Sample>, count: int)
    requires count > 0 && forall s :: s in samples ==> Built(s)
    ensures ReportOf(samples, count).Ok?
    ensures var r := ReportOf(samples, count).value;
            && r.predictedFields == r.latencySamples + r.costSamples + r.successSamples
            && r.predictedFields <= r.observedFields && 0.0 <= r.coverage <= 1.0
            && BinSizes(r.bins) == r.successSamples
            && (r.successSamples > 0 ==> r.brier.Some? && r.ece.Some? && r.ece.value * r.ece.value <= r.brier.value)
  {
    hide Built, Count, Collect, Bins, Ece, Brier, Mean;
    BuiltSamples(samples);
    var points := Collect(samples, PointOf());
    BinCountsAddUp(points, count);
    if points != [] {
      EceSquaredBelowBrier(points, count);
    }
    ShareIsFraction(Count(samples, PredictedIn), Count(samples, ObservedIn));
  }

  lemma ShareIsFraction(part: nat, whole: nat)
    requires part <= whole
    ensures 0.0 <= ShareOf(part, whole) <= 1.0
    ensures whole > 0 ==> (ShareOf(part, whole) == 1.0 <==> part == whole)
  {
    if whole > 0 {
      ShareOfWhole(part as real, whole as real);
    }
  }
}
