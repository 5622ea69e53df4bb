// Controlled replay: lexicographic elimination over recorded predictions, with tolerances.

module Replay {
  import opened Arithmetic
  import opened Basics
  import opened ControlTypes

  datatype Objective = Success | Latency | MoneyCost | Throughput | Energy

  datatype Limit = LatencyLimit | CostLimit | SuccessLimit

  datatype Rejection =
    | ConfidenceBelowMinimum
    | ModelVersionMismatch
    | FallbackPrediction
    | MissingConstraint(limit: Limit)
    | AboveMaximum(limit: Limit)
    | SuccessBelowMinimum
    | MissingObjective(objective: Objective)
    | ObjectiveGate(objective: Objective)

  datatype ReplayError =
    | NoObjectives
    | NoPredictions
    | DuplicateCandidates
    | InvalidPrediction
    | AllRejected
    | ObjectiveUnavailable(objective: Objective)
    | NoUniqueBaseline

  datatype Constraints = Constraints(
    minConfidence: real, minSuccess: Option<real>, maxLatency: Option<real>, maxCost: Option<real>,
    modelVersion: string, allowFallback: bool)

  datatype Tolerances = Tolerances(success: real, latency: real, cost: real, throughput: real) {
    predicate Valid() {
      0.0 <= success <= 1.0 && 0.0 <= latency <= 1.0 && 0.0 <= cost <= 1.0 && 0.0 <= throughput <= 1.0
    }
  }

  type Config = c: Tolerances | c.Valid() witness Tolerances(0.0, 0.0, 0.0, 0.0)

  const ZERO: Config := Tolerances(0.0, 0.0, 0.0, 0.0)

  datatype StageTrace = StageTrace(objective: Objective, best: real, survivors: seq<string>)

  datatype Gain = Gain(success: Option<real>, latency: Option<real>, cost: Option<real>, throughput: Option<real>)

  datatype ReplayDecision = ReplayDecision(
    baseline: string, selected: string, selectedPrediction: string,
    candidates: seq<string>, eligible: seq<string>,
    objectiveValues: map<Objective, real>, gain: Gain,
    rejections: map<string, seq<Rejection>>, trace: seq<StageTrace>, changed: bool)

  // ---- Constraints ----

  predicate OutOfRange(value: Option<real>, maximum: Option<real>) {
    maximum.Some? && value.Some? && value.value < 0.0
  }

  function MaximumReasons(value: Option<real>, maximum: Option<real>, limit: Limit): seq<Rejection> {
    if maximum.None? then []
    else if value.None? then [MissingConstraint(limit)]
    else if value.value > maximum.value then [AboveMaximum(limit)]
    else []
  }

  function SuccessReasons(value: Option<real>, minimum: Option<real>): seq<Rejection> {
    if minimum.None? then []
    else if value.None? then [MissingConstraint(SuccessLimit)]
    else if value.value < minimum.value then [SuccessBelowMinimum]
    else []
  }

  /** Whether checking the constraints of a prediction raises. */
  predicate Malformed(p: Prediction, c: Constraints) {
    || OutOfRange(p.performance.e2eSeconds, c.maxLatency)
    || OutOfRange(p.cost.monetaryCost, c.maxCost)
    || (c.minSuccess.Some? && p.reliability.successProbability.Some?
        && !(0.0 <= p.reliability.successProbability.value <= 1.0))
  }

  function ConstraintReasons(p: Prediction, c: Constraints): seq<Rejection> {
    (if p.confidence < c.minConfidence then [ConfidenceBelowMinimum] else [])
    + (if c.modelVersion != "" && p.modelVersion != c.modelVersion then [ModelVersionMismatch] else [])
    + (if !c.allowFallback && p.fallback != "none" then [FallbackPrediction] else [])
    + MaximumReasons(p.performance.e2eSeconds, c.maxLatency, LatencyLimit)
    + MaximumReasons(p.cost.monetaryCost, c.maxCost, CostLimit)
    + SuccessReasons(p.reliability.successProbability, c.minSuccess)
  }

  function Passing(predictions: seq<Prediction>, c: Constraints): seq<Prediction> {
    Filter(predictions, Passes(c))
  }

  function Passes(c: Constraints): Prediction -> bool {
    (p: Prediction) => ConstraintReasons(p, c) == []
  }

  // ---- Objectives ----

  function RawValue(p: Prediction, o: Objective): Option<real> {
    match o
    case Success => p.reliability.successProbability
    case Latency => p.performance.e2eSeconds
    case MoneyCost => p.cost.monetaryCost
    case Throughput => p.performance.throughput
    case Energy => None
  }

  predicate WellValued(p: Prediction, o: Objective) {
    RawValue(p, o).Some? ==> 0.0 <= RawValue(p, o).value && (o == Success ==> RawValue(p, o).value <= 1.0)
  }

  predicate Maximized(o: Objective) {
    o == Success || o == Throughput
  }

  function Known(eligible: seq<Prediction>, o: Objective): (r: seq<Prediction>)
    ensures forall i :: 0 <= i < |r| ==> RawValue(r[i], o).Some?
  {
    var r := Filter(eligible, (p: Prediction) => RawValue(p, o).Some?);
    assert forall i :: 0 <= i < |r| ==> r[i] in r;
    r
  }

  function BestValue(known: seq<Prediction>, o: Objective): (best: real)
    requires known != [] && forall i :: 0 <= i < |known| ==> RawValue(known[i], o).Some?
    ensures exists p :: p in known && RawValue(p, o) == Some(best)
    ensures forall p :: p in known ==>
              RawValue(p, o).Some?
              && if Maximized(o) then RawValue(p, o).value <= best else best <= RawValue(p, o).value
  {
    var last := known[|known| - 1];
    if |known| == 1 then
      assert last in known;
      RawValue(last, o).value
    else
      var front := BestValue(known[..|known| - 1], o);
      var here := RawValue(last, o).value;
      assert last in known && forall p :: p in known ==> p in known[..|known| - 1] || p == last;
      if Maximized(o) then MaxReal(front, here) else MinReal(front, here)
  }

  function Tolerance(config: Config, o: Objective, best: real): real {
    match o
    case Success => config.success
    case Latency => AbsReal(best) * config.latency
    case MoneyCost => AbsReal(best) * config.cost
    case Throughput => AbsReal(best) * config.throughput
    case Energy => 0.0
  }

  predicate Survives(config: Config, o: Objective, best: real, p: Prediction) {
    var value := RawValue(p, o);
    && value.Some?
    && if Maximized(o) then value.value >= best - Tolerance(config, o, best)
       else value.value <= best + Tolerance(config, o, best)
  }

  function Survivors(config: Config, o: Objective, best: real, eligible: seq<Prediction>): seq<Prediction> {
    Filter(eligible, Survivor(config, o, best))
  }

  function Survivor(config: Config, o: Objective, best: real): Prediction -> bool {
    (p: Prediction) => Survives(config, o, best, p)
  }

  function LossReasons(config: Config, o: Objective, best: real, p: Prediction): seq<Rejection> {
    if RawValue(p, o).None? then [MissingObjective(o)]
    else if !Survives(config, o, best, p) then [ObjectiveGate(o)]
    else []
  }

  // ---- Elimination ----

  datatype Staged = Staged(eligible: seq<Prediction>, trace: seq<StageTrace>)

  /** Elimination stops early, after at least one stage, once a single candidate is left. */
  predicate Stopped(x: Staged) {
    x.trace != [] && |x.eligible| == 1
  }

  function RunStage(config: Config, o: Objective, x: Staged): Result<Staged, ReplayError> {
    if Stopped(x) then Ok(x)
    else if exists p :: p in x.eligible && !WellValued(p, o) then Err(InvalidPrediction)
    else if Known(x.eligible, o) == [] then Err(ObjectiveUnavailable(o))
    else
      var best := BestValue(Known(x.eligible, o), o);
      var survivors := Survivors(config, o, best, x.eligible);
      Ok(Staged(survivors, x.trace + [StageTrace(o, best, CandidateIds(survivors))]))
  }

  /** The first `k` objectives applied in policy order. */
  function Eliminate(config: Config, objectives: seq<Objective>, k: nat, passing: seq<Prediction>)
    : Result<Staged, ReplayError>
    requires k <= |objectives|
  {
    if k == 0 then Ok(Staged(passing, []))
    else
      match Eliminate(config, objectives, k - 1, passing)
      case Err(e) => Err(e)
      case Ok(x) => RunStage(config, objectives[k - 1], x)
  }

  /** Why the first `k` objectives eliminated `p`. */
  function StageReasons(config: Config, objectives: seq<Objective>, k: nat, passing: seq<Prediction>, p: Prediction)
    : seq<Rejection>
    requires k <= |objectives|
  {
    if k == 0 then []
    else
      var earlier := StageReasons(config, objectives, k - 1, passing, p);
      match Eliminate(config, objectives, k - 1, passing)
      case Err(_) => earlier
      case Ok(x) =>
        var o := objectives[k - 1];
        if Stopped(x) || p !in x.eligible || Known(x.eligible, o) == [] then earlier
        else earlier + LossReasons(config, o, BestValue(Known(x.eligible, o), o), p)
  }

  function AllReasons(
      c: Constraints, config: Config, objectives: seq<Objective>, predictions: seq<Prediction>, p: Prediction)
    : seq<Rejection>
  {
    ConstraintReasons(p, c) + StageReasons(config, objectives, |objectives|, Passing(predictions, c), p)
  }

  function CollectReasons(predictions: seq<Prediction>, reasonsOf: Prediction -> seq<Rejection>)
    : map<string, seq<Rejection>>
  {
    if predictions == [] then map[]
    else
      var last := predictions[|predictions| - 1];
      var front := CollectReasons(predictions[..|predictions| - 1], reasonsOf);
      if reasonsOf(last) == [] then front else front[last.candidateId := reasonsOf(last)]
  }

  function Difference(a: Option<real>, b: Option<real>): Option<real> {
    if a.Some? && b.Some? then Some(a.value - b.value) else None
  }

  function PotentialGain(selected: Prediction, baseline: Prediction): Gain {
    Gain(Difference(RawValue(selected, Success), RawValue(baseline, Success)),
         Difference(RawValue(baseline, Latency), RawValue(selected, Latency)),
         Difference(RawValue(baseline, MoneyCost), RawValue(selected, MoneyCost)),
         Difference(RawValue(selected, Throughput), RawValue(baseline, Throughput)))
  }

  function KnownValues(objectives: seq<Objective>, p: Prediction): map<Objective, real> {
    map o | o in objectives && RawValue(p, o).Some? :: RawValue(p, o).value
  }

  predicate WellValuedFor(objectives: seq<Objective>, p: Prediction) {
    forall o :: o in objectives ==> WellValued(p, o)
  }

  /** What the action of the record names, its raw text even when empty, or the only prediction if it names nothing. */
  function Baseline(action: Action, predictions: seq<Prediction>): Option<Prediction> {
    if NamedCandidate(action).None? && |predictions| == 1 then Some(predictions[0])
    else if CandidateId !in action.parameters then None
    else
      var matches := ForCandidate(predictions, action.parameters[CandidateId]);
      if |matches| == 1 then Some(matches[0]) else None
  }

  /** An action that selects a prediction for the journal has that prediction as its baseline. */
  lemma BaselineIsSelection(action: Action, predictions: seq<Prediction>)
    requires ChosenPrediction(action, predictions).Some?
    ensures Baseline(action, predictions) == ChosenPrediction(action, predictions)
  {
  }

  function Replay(record: JoinedRecord, objectives: seq<Objective>, c: Constraints, config: Config)
    : Result<ReplayDecision, ReplayError>
  {
    var predictions := record.predictions;
    var passing := Passing(predictions, c);
    if objectives == [] then Err(NoObjectives)
    else if predictions == [] then Err(NoPredictions)
    else if !DistinctCandidates(predictions) then Err(DuplicateCandidates)
    else if exists p :: p in predictions && Malformed(p, c) then Err(InvalidPrediction)
    else if passing == [] then Err(AllRejected)
    else
      match Eliminate(config, objectives, |objectives|, passing)
      case Err(e) => Err(e)
      case Ok(final) =>
        SomeoneSurvives(config, objectives, |objectives|, passing);
        var selected := final.eligible[0];
        match Baseline(record.decision.selectedAction, predictions)
        case None => Err(NoUniqueBaseline)
        case Some(baseline) =>
          if !WellValuedFor(objectives, selected) then Err(InvalidPrediction)
          else
            Ok(ReplayDecision(
                 baseline.candidateId, selected.candidateId, selected.predictionId,
                 CandidateIds(predictions), CandidateIds(passing),
                 KnownValues(objectives, selected), PotentialGain(selected, baseline),
                 CollectReasons(predictions, ReasonsOf(record, objectives, c, config)),
                 final.trace, selected.candidateId != baseline.candidateId))
  }

  // ---- What elimination keeps ----

  lemma ToleranceIsNonNegative(config: Config, o: Objective, best: real)
    ensures Tolerance(config, o, best) >= 0.0
  {
    ProductIsNonNegative(AbsReal(best), config.latency);
    ProductIsNonNegative(AbsReal(best), config.cost);
    ProductIsNonNegative(AbsReal(best), config.throughput);
  }

  /** Whoever attains the best value survives its stage. */
  lemma BestSurvives(config: Config, o: Objective, eligible: seq<Prediction>, p: Prediction)
    requires Known(eligible, o) != [] && p in eligible
    requires RawValue(p, o) == Some(BestValue(Known(eligible, o), o))
    ensures p in Survivors(config, o, BestValue(Known(eligible, o), o), eligible)
  {
    hide Tolerance, BestValue;
    ToleranceIsNonNegative(config, o, BestValue(Known(eligible, o), o));
  }

  lemma StageKeepsSomeone(config: Config, o: Objective, x: Staged)
    requires x.eligible != [] && RunStage(config, o, x).Ok?
    ensures RunStage(config, o, x).value.eligible != []
    ensures forall p :: p in RunStage(config, o, x).value.eligible ==> p in x.eligible
  {
    hide BestValue, Survives;
    if !Stopped(x) {
      var known := Known(x.eligible, o);
      var p :| p in known && RawValue(p, o) == Some(BestValue(known, o));
      BestSurvives(config, o, x.eligible, p);
    }
  }

  lemma {:induction false} SomeoneSurvives(config: Config, objectives: seq<Objective>, k: nat, passing: seq<Prediction>)
    requires k <= |objectives| && passing != [] && Eliminate(config, objectives, k, passing).Ok?
    ensures Eliminate(config, objectives, k, passing).value.eligible != []
    ensures forall p :: p in Eliminate(config, objectives, k, passing).value.eligible ==> p in passing
  {
    hide RunStage;
    if k > 0 {
      SomeoneSurvives(config, objectives, k - 1, passing);
      StageKeepsSomeone(config, objectives[k - 1], Eliminate(config, objectives, k - 1, passing).value);
    }
  }

  // ---- Zero tolerance is the lexicographic order ----

  /** Known beats missing; otherwise the better value wins. */
  predicate Beats(q: Prediction, p: Prediction, o: Objective) {
    var a, b := RawValue(q, o), RawValue(p, o);
    a.Some? && (b.None? || if Maximized(o) then a.value > b.value else a.value < b.value)
  }

  ghost predicate TiedOn(q: Prediction, p: Prediction, objectives: seq<Objective>, k: nat)
    requires k <= |objectives|
  {
    forall i :: 0 <= i < k ==> RawValue(q, objectives[i]) == RawValue(p, objectives[i])
  }

  ghost predicate BetterAt(q: Prediction, p: Prediction, objectives: seq<Objective>, i: nat)
    requires i < |objectives|
  {
    TiedOn(q, p, objectives, i) && Beats(q, p, objectives[i])
  }

  /** `q` is lexicographically better than `p` on the first `k` objectives. */
  ghost predicate LexBetter(q: Prediction, p: Prediction, objectives: seq<Objective>, k: nat)
    requires k <= |objectives|
  {
    exists i :: 0 <= i < k && BetterAt(q, p, objectives, i)
  }

  ghost predicate Optimal(p: Prediction, passing: seq<Prediction>, objectives: seq<Objective>, k: nat)
    requires k <= |objectives|
  {
    p in passing && forall q :: q in passing ==> !LexBetter(q, p, objectives, k)
  }

  lemma {:induction false} TiedOrBetter(q: Prediction, p: Prediction, objectives: seq<Objective>, k: nat)
    requires k <= |objectives|
    ensures TiedOn(q, p, objectives, k) || LexBetter(q, p, objectives, k) || LexBetter(p, q, objectives, k)
  {
    if k > 0 {
      TiedOrBetter(q, p, objectives, k - 1);
      if TiedOn(q, p, objectives, k - 1) && RawValue(q, objectives[k - 1]) != RawValue(p, objectives[k - 1]) {
        assert BetterAt(q, p, objectives, k - 1) || BetterAt(p, q, objectives, k - 1);
      } else if i :| 0 <= i < k - 1 && (BetterAt(q, p, objectives, i) || BetterAt(p, q, objectives, i)) {
      }
    }
  }

  lemma TiesShareBetters(r: Prediction, q: Prediction, p: Prediction, objectives: seq<Objective>, k: nat)
    requires k <= |objectives| && TiedOn(q, p, objectives, k) && LexBetter(r, q, objectives, k)
    ensures LexBetter(r, p, objectives, k)
  {
    var i :| 0 <= i < k && BetterAt(r, q, objectives, i);
    assert BetterAt(r, p, objectives, i);
  }

  lemma LexSplits(q: Prediction, p: Prediction, objectives: seq<Objective>, k: nat)
    requires k < |objectives|
    ensures LexBetter(q, p, objectives, k + 1) <==> LexBetter(q, p, objectives, k) || BetterAt(q, p, objectives, k)
  {
    hide BetterAt;
    if i :| 0 <= i < k && BetterAt(q, p, objectives, i) {
      assert 0 <= i < k + 1;
    }
  }

  lemma TiesAreOptimal(
      q: Prediction, p: Prediction, passing: seq<Prediction>, objectives: seq<Objective>, k: nat)
    requires k <= |objectives| && Optimal(p, passing, objectives, k) && q in passing && TiedOn(q, p, objectives, k)
    ensures Optimal(q, passing, objectives, k)
  {
    hide TiedOn, LexBetter;
    forall r | r in passing ensures !LexBetter(r, q, objectives, k) {
      if LexBetter(r, q, objectives, k) {
        TiesShareBetters(r, q, p, objectives, k);
      }
    }
  }

  /** One more objective keeps the optima that no other optimum beats on it. */
  lemma OptimalExtends(p: Prediction, passing: seq<Prediction>, objectives: seq<Objective>, k: nat)
    requires k < |objectives|
    ensures Optimal(p, passing, objectives, k + 1) <==>
            && Optimal(p, passing, objectives, k)
            && forall q :: Optimal(q, passing, objectives, k) ==> !Beats(q, p, objectives[k])
  {
    hide Beats, LexBetter, TiedOn;
    forall q ensures LexBetter(q, p, objectives, k + 1) <==>
                     LexBetter(q, p, objectives, k) || BetterAt(q, p, objectives, k)
    {
      LexSplits(q, p, objectives, k);
    }
    if Optimal(p, passing, objectives, k) {
      forall q | q in passing
        ensures BetterAt(q, p, objectives, k) <==> Optimal(q, passing, objectives, k) && Beats(q, p, objectives[k])
      {
        TiedOrBetter(q, p, objectives, k);
        if BetterAt(q, p, objectives, k) {
          TiesAreOptimal(q, p, passing, objectives, k);
        }
      }
    }
  }

  /** At zero tolerance a stage keeps exactly those that nobody in it beats. */
  lemma ZeroToleranceKeepsUnbeaten(o: Objective, eligible: seq<Prediction>, p: Prediction)
    requires Known(eligible, o) != [] && p in eligible
    ensures Survives(ZERO, o, BestValue(Known(eligible, o), o), p) <==> forall q :: q in eligible ==> !Beats(q, p, o)
  {
    hide BestValue;
    var known := Known(eligible, o);
    var best := BestValue(known, o);
    assert Tolerance(ZERO, o, best) == 0.0;
    var top :| top in known && RawValue(top, o) == Some(best);
    assert top in eligible;
    forall q | q in eligible && Beats(q, p, o) ensures q in known {
    }
  }

  ghost predicate SurvivorsAreOptimal(x: Staged, passing: seq<Prediction>, objectives: seq<Objective>, k: nat)
    requires k <= |objectives|
  {
    forall p :: p in x.eligible <==> Optimal(p, passing, objectives, k)
  }

  lemma StageFindsOptima(x: Staged, passing: seq<Prediction>, objectives: seq<Objective>, k: nat)
    requires k < |objectives| && SurvivorsAreOptimal(x, passing, objectives, k) && x.eligible != []
    requires RunStage(ZERO, objectives[k], x).Ok?
    ensures SurvivorsAreOptimal(RunStage(ZERO, objectives[k], x).value, passing, objectives, k + 1)
  {
    hide BestValue, Survives, Beats, Optimal, Known, WellValued;
    var o, next := objectives[k], RunStage(ZERO, objectives[k], x).value;
    forall p ensures p in next.eligible <==> Optimal(p, passing, objectives, k + 1) {
      OptimalExtends(p, passing, objectives, k);
      if p in x.eligible {
        if Stopped(x) {
          NobodyBeatsItself(p, o);
        } else {
          ZeroToleranceKeepsUnbeaten(o, x.eligible, p);
        }
      }
    }
  }

  /** The candidates left after `k` objectives are the lexicographic optima on them, early stop or not. */
  lemma {:induction false} EliminationFindsOptima(objectives: seq<Objective>, k: nat, passing: seq<Prediction>)
    requires k <= |objectives| && passing != [] && Eliminate(ZERO, objectives, k, passing).Ok?
    ensures SurvivorsAreOptimal(Eliminate(ZERO, objectives, k, passing).value, passing, objectives, k)
  {
    hide RunStage, Optimal;
    if k == 0 {
      forall p ensures Optimal(p, passing, objectives, 0) <==> p in passing {
        EverythingIsOptimalAtFirst(p, passing, objectives);
      }
    } else {
      EliminationFindsOptima(objectives, k - 1, passing);
      SomeoneSurvives(ZERO, objectives, k - 1, passing);
      StageFindsOptima(Eliminate(ZERO, objectives, k - 1, passing).value, passing, objectives, k - 1);
    }
  }

  lemma EverythingIsOptimalAtFirst(p: Prediction, passing: seq<Prediction>, objectives: seq<Objective>)
    ensures Optimal(p, passing, objectives, 0) <==> p in passing
  {
  }

  lemma NobodyBeatsItself(p: Prediction, o: Objective)
    ensures !Beats(p, p, o)
  {
  }

  function OneOf(s: seq<Prediction>): Prediction -> bool {
    (p: Prediction) => p in s
  }

  lemma {:induction false} EliminationKeepsOrder(
      config: Config, objectives: seq<Objective>, k: nat, passing: seq<Prediction>)
    requires k <= |objectives| && Eliminate(config, objectives, k, passing).Ok?
    ensures var left := Eliminate(config, objectives, k, passing).value.eligible;
            left == Filter(passing, OneOf(left))
  {
    hide RunStage;
    var left := Eliminate(config, objectives, k, passing).value.eligible;
    if k == 0 {
      FilterAll(passing, OneOf(left));
    } else {
      EliminationKeepsOrder(config, objectives, k - 1, passing);
      StageKeepsOrder(config, objectives[k - 1], Eliminate(config, objectives, k - 1, passing).value, passing);
    }
  }

  lemma StageKeepsOrder(config: Config, o: Objective, x: Staged, passing: seq<Prediction>)
    requires RunStage(config, o, x).Ok? && x.eligible == Filter(passing, OneOf(x.eligible))
    ensures var left := RunStage(config, o, x).value.eligible; left == Filter(passing, OneOf(left))
  {
    hide BestValue, Survives, WellValued, Known, Filter;
    var left := RunStage(config, o, x).value.eligible;
    if !Stopped(x) {
      var survives := Survivor(config, o, BestValue(Known(x.eligible, o), o));
      FilterTwice(passing, OneOf(x.eligible), survives);
      FilterSame(passing, Both(OneOf(x.eligible), survives), OneOf(left));
    }
  }

  /** At zero tolerance replay selects a lexicographic optimum of what passed the constraints, and the first one. */
  lemma ReplaySelectsOptimum(record: JoinedRecord, objectives: seq<Objective>, c: Constraints)
    returns (i: nat)
    requires Replay(record, objectives, c, ZERO).Ok?
    ensures var passing, d := Passing(record.predictions, c), Replay(record, objectives, c, ZERO).value;
            && i < |passing| && passing[i].candidateId == d.selected
            && Optimal(passing[i], passing, objectives, |objectives|)
            && forall j :: 0 <= j < i ==> !Optimal(passing[j], passing, objectives, |objectives|)
  {
    hide RunStage, Passing, Optimal, AllReasons, KnownValues, Filter;
    var passing := Passing(record.predictions, c);
    SomeoneSurvives(ZERO, objectives, |objectives|, passing);
    EliminationFindsOptima(objectives, |objectives|, passing);
    EliminationKeepsOrder(ZERO, objectives, |objectives|, passing);
    var left := Eliminate(ZERO, objectives, |objectives|, passing).value.eligible;
    i := FilterFirst(passing, OneOf(left));
  }

  lemma {:induction false} EliminationShrinks(
      config: Config, objectives: seq<Objective>, k: nat, n: nat, passing: seq<Prediction>)
    requires k <= n <= |objectives| && Eliminate(config, objectives, n, passing).Ok? && passing != []
    ensures Eliminate(config, objectives, k, passing).Ok?
    ensures forall p :: p in Eliminate(config, objectives, n, passing).value.eligible ==>
              p in Eliminate(config, objectives, k, passing).value.eligible
  {
    hide RunStage;
    if k < n {
      EliminationShrinks(config, objectives, k, n - 1, passing);
      SomeoneSurvives(config, objectives, n - 1, passing);
      StageKeepsSomeone(config, objectives[n - 1], Eliminate(config, objectives, n - 1, passing).value);
    }
  }

  lemma EliminateStep(config: Config, objectives: seq<Objective>, k: nat, passing: seq<Prediction>)
    requires k < |objectives| && Eliminate(config, objectives, k + 1, passing).Ok?
    ensures Eliminate(config, objectives, k, passing).Ok?
    ensures Eliminate(config, objectives, k + 1, passing)
            == RunStage(config, objectives[k], Eliminate(config, objectives, k, passing).value)
  {
  }

  // ---- What the constraints mean ----

  ghost predicate Exceeds(value: Option<real>, maximum: Option<real>) {
    maximum.Some? && value.Some? && maximum.value < value.value
  }

  ghost predicate FallsShort(value: Option<real>, minimum: Option<real>) {
    minimum.Some? && value.Some? && minimum.value > value.value
  }

  ghost predicate Unknown(value: Option<real>, limit: Option<real>) {
    limit.Some? && value.None?
  }

  /** What each constraint reason says about a prediction. */
  ghost predicate Violates(p: Prediction, c: Constraints, reason: Rejection) {
    match reason
    case ConfidenceBelowMinimum => c.minConfidence > p.confidence
    case ModelVersionMismatch => c.modelVersion != "" && c.modelVersion != p.modelVersion
    case FallbackPrediction => p.fallback != "none" && !c.allowFallback
    case AboveMaximum(LatencyLimit) => Exceeds(p.performance.e2eSeconds, c.maxLatency)
    case AboveMaximum(CostLimit) => Exceeds(p.cost.monetaryCost, c.maxCost)
    case SuccessBelowMinimum => FallsShort(p.reliability.successProbability, c.minSuccess)
    case MissingConstraint(LatencyLimit) => Unknown(p.performance.e2eSeconds, c.maxLatency)
    case MissingConstraint(CostLimit) => Unknown(p.cost.monetaryCost, c.maxCost)
    case MissingConstraint(SuccessLimit) => Unknown(p.reliability.successProbability, c.minSuccess)
    case _ => false
  }

  /** Meets every limit that is given, by known figures. */
  ghost predicate Admissible(p: Prediction, c: Constraints) {
    && p.confidence >= c.minConfidence
    && (c.modelVersion == "" || c.modelVersion == p.modelVersion)
    && (c.allowFallback || p.fallback == "none")
    && (c.maxLatency.Some? ==> p.performance.e2eSeconds.Some? && p.performance.e2eSeconds.value <= c.maxLatency.value)
    && (c.maxCost.Some? ==> p.cost.monetaryCost.Some? && p.cost.monetaryCost.value <= c.maxCost.value)
    && (c.minSuccess.Some? ==>
          && p.reliability.successProbability.Some?
          && c.minSuccess.value <= p.reliability.successProbability.value)
  }

  /** A constraint reason is given exactly if it is true of the prediction, and none exactly if all limits are met. */
  lemma ReasonsAreViolations(p: Prediction, c: Constraints, reason: Rejection)
    ensures reason in ConstraintReasons(p, c) <==> Violates(p, c, reason)
    ensures ConstraintReasons(p, c) == [] <==> Admissible(p, c)
  {
    hide MaximumReasons, SuccessReasons;
    MaximumReasonsMean(p.performance.e2eSeconds, c.maxLatency, LatencyLimit, reason);
    MaximumReasonsMean(p.cost.monetaryCost, c.maxCost, CostLimit, reason);
    SuccessReasonsMean(p.reliability.successProbability, c.minSuccess, reason);
  }

  lemma MaximumReasonsMean(value: Option<real>, maximum: Option<real>, limit: Limit, reason: Rejection)
    ensures var reasons := MaximumReasons(value, maximum, limit);
            && (reason in reasons <==>
                  || (reason == MissingConstraint(limit) && Unknown(value, maximum))
                  || (reason == AboveMaximum(limit) && Exceeds(value, maximum)))
            && (reasons == [] <==> !Unknown(value, maximum) && !Exceeds(value, maximum))
  {
  }

  lemma SuccessReasonsMean(value: Option<real>, minimum: Option<real>, reason: Rejection)
    ensures var reasons := SuccessReasons(value, minimum);
            && (reason in reasons <==>
                  || (reason == MissingConstraint(SuccessLimit) && Unknown(value, minimum))
                  || (reason == SuccessBelowMinimum && FallsShort(value, minimum)))
            && (reasons == [] <==> !Unknown(value, minimum) && !FallsShort(value, minimum))
  {
  }

  /** The eligible candidates are exactly those that meet every limit, in record order, and the selection is one of them. */
  lemma EligibleExactlyWhenAdmissible(record: JoinedRecord, objectives: seq<Objective>, c: Constraints, config: Config)
    returns (selected: Prediction)
    requires Replay(record, objectives, c, config).Ok?
    ensures var d := Replay(record, objectives, c, config).value;
            && (forall id :: id in d.eligible <==>
                  exists p :: p in record.predictions && p.candidateId == id && Admissible(p, c))
            && selected in record.predictions && Admissible(selected, c)
            && selected.candidateId == d.selected && selected.predictionId == d.selectedPrediction
            && d.selected in d.eligible && d.candidates == CandidateIds(record.predictions)
  {
    hide Eliminate, ConstraintReasons, Admissible, KnownValues, WellValuedFor, AllReasons, Malformed, Baseline, Violates,
         DistinctCandidates, CollectReasons, PotentialGain;
    var passing := Passing(record.predictions, c);
    forall p ensures p in passing <==> p in record.predictions && Admissible(p, c) {
      ReasonsAreViolations(p, c, FallbackPrediction);
    }
    SomeoneSurvives(config, objectives, |objectives|, passing);
    selected := Eliminate(config, objectives, |objectives|, passing).value.eligible[0];
    assert selected in Eliminate(config, objectives, |objectives|, passing).value.eligible;
    forall id
      ensures id in CandidateIds(passing) <==>
              exists p :: p in record.predictions && p.candidateId == id && Admissible(p, c)
    {
      IdsAreOfMembers(passing, id);
    }
    IdsAreOfMembers(passing, selected.candidateId);
  }

  lemma IdsAreOfMembers(s: seq<Prediction>, id: string)
    ensures id in CandidateIds(s) <==> exists p :: p in s && p.candidateId == id
  {
    if p :| p in s && p.candidateId == id {
      var i :| 0 <= i < |s| && s[i] == p;
      assert CandidateIds(s)[i] == id;
    }
    if id in CandidateIds(s) {
      var i :| 0 <= i < |s| && CandidateIds(s)[i] == id;
      assert s[i] in s;
    }
  }

  /** The gain is an improvement on each field that both know: positive exactly if the selection is better there. */
  lemma GainIsImprovement(record: JoinedRecord, objectives: seq<Objective>, c: Constraints, config: Config)
    returns (selected: Prediction, baseline: Prediction)
    requires Replay(record, objectives, c, config).Ok?
    ensures var d := Replay(record, objectives, c, config).value;
            && selected in record.predictions && selected.candidateId == d.selected
            && baseline in record.predictions && baseline.candidateId == d.baseline
            && Improves(d.gain.success, selected.reliability.successProbability, baseline.reliability.successProbability)
            && Improves(d.gain.throughput, selected.performance.throughput, baseline.performance.throughput)
            && Improves(d.gain.latency, baseline.performance.e2eSeconds, selected.performance.e2eSeconds)
            && Improves(d.gain.cost, baseline.cost.monetaryCost, selected.cost.monetaryCost)
            && (d.changed <==> d.selected != d.baseline)
  {
    hide Eliminate, ConstraintReasons, KnownValues, WellValuedFor, AllReasons, Malformed, CollectReasons,
         DistinctCandidates, Passing;
    var passing := Passing(record.predictions, c);
    SomeoneSurvives(config, objectives, |objectives|, passing);
    selected := Eliminate(config, objectives, |objectives|, passing).value.eligible[0];
    assert selected in Eliminate(config, objectives, |objectives|, passing).value.eligible;
    PassingMembers(record.predictions, c, selected);
    baseline := Baseline(record.decision.selectedAction, record.predictions).value;
    BaselineIsMember(record.decision.selectedAction, record.predictions);
  }

  /** Known if both figures are, and then what brings the worse one up to the better one. */
  ghost predicate Improves(gain: Option<real>, higher: Option<real>, lower: Option<real>) {
    if higher.None? || lower.None? then gain == None else gain.Some? && lower.value + gain.value == higher.value
  }

  lemma PassingMembers(predictions: seq<Prediction>, c: Constraints, p: Prediction)
    requires p in Passing(predictions, c)
    ensures p in predictions
  {
    hide ConstraintReasons;
  }

  lemma BaselineIsMember(action: Action, predictions: seq<Prediction>)
    requires Baseline(action, predictions).Some?
    ensures Baseline(action, predictions).value in predictions
  {
    if CandidateId in action.parameters {
      var matches := ForCandidate(predictions, action.parameters[CandidateId]);
      if |matches| == 1 {
        assert matches[0] in matches;
      }
    }
  }

  // ---- Replay explains itself ----

  lemma StageLeavesOneReason(config: Config, o: Objective, x: Staged, p: Prediction)
    requires RunStage(config, o, x).Ok? && !Stopped(x) && p in x.eligible
    ensures Known(x.eligible, o) != []
    ensures |LossReasons(config, o, BestValue(Known(x.eligible, o), o), p)|
            == if p in RunStage(config, o, x).value.eligible then 0 else 1
  {
    hide BestValue, WellValued, Tolerance, Filter;
  }

  /** A candidate that passed the constraints has no stage reason while it survives, and one afterwards. */
  lemma {:induction false} OneStageEliminates(
      config: Config, objectives: seq<Objective>, k: nat, passing: seq<Prediction>, p: Prediction)
    requires k <= |objectives| && p in passing && Eliminate(config, objectives, k, passing).Ok?
    ensures |StageReasons(config, objectives, k, passing, p)|
            == if p in Eliminate(config, objectives, k, passing).value.eligible then 0 else 1
  {
    hide RunStage, LossReasons, Known;
    if k > 0 {
      EliminateStep(config, objectives, k - 1, passing);
      OneStageEliminates(config, objectives, k - 1, passing, p);
      var x := Eliminate(config, objectives, k - 1, passing).value;
      if Stopped(x) {
        StoppedStays(config, objectives[k - 1], x);
      } else if p in x.eligible {
        StageLeavesOneReason(config, objectives[k - 1], x, p);
      } else {
        SomeoneSurvives(config, objectives, k - 1, passing);
        StageKeepsSomeone(config, objectives[k - 1], x);
      }
    }
  }

  lemma StoppedStays(config: Config, o: Objective, x: Staged)
    requires Stopped(x)
    ensures RunStage(config, o, x) == Ok(x)
  {
  }

  lemma {:induction false} CollectedReasons(
      predictions: seq<Prediction>, reasonsOf: Prediction -> seq<Rejection>, p: Prediction)
    requires DistinctCandidates(predictions)
    ensures forall id :: id in CollectReasons(predictions, reasonsOf) ==>
              exists i :: 0 <= i < |predictions| && predictions[i].candidateId == id
    ensures p in predictions ==>
              && (p.candidateId in CollectReasons(predictions, reasonsOf) <==> reasonsOf(p) != [])
              && (reasonsOf(p) != [] ==> CollectReasons(predictions, reasonsOf)[p.candidateId] == reasonsOf(p))
  {
    if predictions != [] {
      var front, last := predictions[..|predictions| - 1], predictions[|predictions| - 1];
      CollectedReasons(front, reasonsOf, p);
      assert forall i :: 0 <= i < |front| ==> front[i].candidateId != last.candidateId;
      forall id | id in CollectReasons(predictions, reasonsOf)
        ensures exists i :: 0 <= i < |predictions| && predictions[i].candidateId == id
      {
        if id in CollectReasons(front, reasonsOf) {
          var i :| 0 <= i < |front| && front[i].candidateId == id;
          assert predictions[i].candidateId == id;
        } else {
          assert predictions[|predictions| - 1].candidateId == id;
        }
      }
    }
  }

  function ReasonsOf(record: JoinedRecord, objectives: seq<Objective>, c: Constraints, config: Config)
    : Prediction -> seq<Rejection>
  {
    (p: Prediction) => AllReasons(c, config, objectives, record.predictions, p)
  }

  /** What a successful replay has established. */
  lemma ReplayOutcome(record: JoinedRecord, objectives: seq<Objective>, c: Constraints, config: Config)
    requires Replay(record, objectives, c, config).Ok?
    ensures DistinctCandidates(record.predictions) && Passing(record.predictions, c) != []
    ensures Eliminate(config, objectives, |objectives|, Passing(record.predictions, c)).Ok?
    ensures Replay(record, objectives, c, config).value.rejections
            == CollectReasons(record.predictions, ReasonsOf(record, objectives, c, config))
  {
    hide Eliminate, Baseline, CandidateIds, CollectReasons, Malformed, WellValuedFor, Passing, KnownValues,
         AllReasons, DistinctCandidates, PotentialGain;
  }

  /** A reason is given exactly for the candidates not left at the end; a passing one is eliminated at one stage. */
  lemma RejectedExactlyWhenEliminated(
      record: JoinedRecord, objectives: seq<Objective>, c: Constraints, config: Config, p: Prediction)
    requires Replay(record, objectives, c, config).Ok? && p in record.predictions
    requires Eliminate(config, objectives, |objectives|, Passing(record.predictions, c)).Ok?
    ensures var d, passing := Replay(record, objectives, c, config).value, Passing(record.predictions, c);
            var left := Eliminate(config, objectives, |objectives|, passing).value.eligible;
            && (p.candidateId in d.rejections <==> p !in left)
            && (p in passing && p !in left ==> |d.rejections[p.candidateId]| == 1)
            && (p !in passing ==> p.candidateId in d.rejections
                                  && [] < ConstraintReasons(p, c) <= d.rejections[p.candidateId])
  {
    hide Replay, Eliminate, StageReasons, ConstraintReasons, CollectReasons, DistinctCandidates;
    ReplayOutcome(record, objectives, c, config);
    CollectedReasons(record.predictions, ReasonsOf(record, objectives, c, config), p);
    var passing := Passing(record.predictions, c);
    SomeoneSurvives(config, objectives, |objectives|, passing);
    if p in passing {
      OneStageEliminates(config, objectives, |objectives|, passing, p);
    }
  }

  /** The selection loses at most the first objective's tolerance against any passing candidate where it is known. */
  lemma SelectionLosesAtMostTolerance(
      record: JoinedRecord, objectives: seq<Objective>, c: Constraints, config: Config, q: Prediction)
    returns (selected: Prediction)
    requires Replay(record, objectives, c, config).Ok?
    requires q in Passing(record.predictions, c) && RawValue(q, objectives[0]).Some?
    ensures var d := Replay(record, objectives, c, config).value;
            && selected in record.predictions && selected.candidateId == d.selected
            && selected.predictionId == d.selectedPrediction
    ensures var o, passing := objectives[0], Passing(record.predictions, c);
            && Known(passing, o) != [] && RawValue(selected, o).Some?
            && var tolerance := Tolerance(config, o, BestValue(Known(passing, o), o));
               if Maximized(o) then RawValue(selected, o).value >= RawValue(q, o).value - tolerance
               else RawValue(selected, o).value <= RawValue(q, o).value + tolerance
  {
    hide BestValue, WellValued, AllReasons, KnownValues, ConstraintReasons, Eliminate, Tolerance;
    var n, passing := |objectives|, Passing(record.predictions, c);
    SomeoneSurvives(config, objectives, n, passing);
    selected := Eliminate(config, objectives, n, passing).value.eligible[0];
    assert selected in Eliminate(config, objectives, n, passing).value.eligible;
    EliminationShrinks(config, objectives, 1, n, passing);
    EliminateStep(config, objectives, 0, passing);
    NothingEliminatedAtFirst(config, objectives, passing);
    assert q in Known(passing, objectives[0]);
  }

  lemma NothingEliminatedAtFirst(config: Config, objectives: seq<Objective>, passing: seq<Prediction>)
    ensures Eliminate(config, objectives, 0, passing) == Ok(Staged(passing, []))
  {
  }

  // ---- Replay as it runs ----

  method CheckMaximum(value: Option<real>, maximum: Option<real>, limit: Limit, reasons: seq<Rejection>)
    returns (r: Result<seq<Rejection>, ReplayError>)
    ensures r == if OutOfRange(value, maximum) then Err(InvalidPrediction)
                 else Ok(reasons + MaximumReasons(value, maximum, limit))
  {
    assert reasons + [] == reasons;
    if maximum.None? {
      return Ok(reasons);
    }
    if value.None? {
      return Ok(reasons + [MissingConstraint(limit)]);
    }
    if value.value < 0.0 {
      return Err(InvalidPrediction);
    }
    r := Ok(if value.value > maximum.value then reasons + [AboveMaximum(limit)] else reasons);
  }

  method CheckConstraints(p: Prediction, c: Constraints) returns (r: Result<seq<Rejection>, ReplayError>)
    ensures r == if Malformed(p, c) then Err(InvalidPrediction) else Ok(ConstraintReasons(p, c))
  {
    hide MaximumReasons, SuccessReasons;
    var reasons := [];
    if p.confidence < c.minConfidence {
      reasons := reasons + [ConfidenceBelowMinimum];
    }
    if c.modelVersion != "" && p.modelVersion != c.modelVersion {
      reasons := reasons + [ModelVersionMismatch];
    }
    if !c.allowFallback && p.fallback != "none" {
      reasons := reasons + [FallbackPrediction];
    }
    assert reasons == (if p.confidence < c.minConfidence then [ConfidenceBelowMinimum] else [])
                      + (if c.modelVersion != "" && p.modelVersion != c.modelVersion then [ModelVersionMismatch] else [])
                      + (if !c.allowFallback && p.fallback != "none" then [FallbackPrediction] else []);
    reasons :- CheckMaximum(p.performance.e2eSeconds, c.maxLatency, LatencyLimit, reasons);
    reasons :- CheckMaximum(p.cost.monetaryCost, c.maxCost, CostLimit, reasons);
    var value := p.reliability.successProbability;
    if c.minSuccess.Some? && value.Some? && !(0.0 <= value.value <= 1.0) {
      return Err(InvalidPrediction);
    }
    r := Ok(reasons + SuccessReasons(value, c.minSuccess));
  }

  /** The rejection dictionary holds, for each prediction, the reasons found so far. */
  ghost predicate Lists(
      rejections: map<string, seq<Rejection>>, predictions: seq<Prediction>, reasonsOf: Prediction -> seq<Rejection>)
  {
    forall p :: p in predictions ==> p.candidateId in rejections && rejections[p.candidateId] == reasonsOf(p)
  }

  ghost function ReasonsUpTo(c: Constraints, config: Config, objectives: seq<Objective>, k: nat, passing: seq<Prediction>)
    : Prediction -> seq<Rejection>
    requires k <= |objectives|
  {
    (p: Prediction) => ConstraintReasons(p, c) + StageReasons(config, objectives, k, passing, p)
  }

  method Screen(predictions: seq<Prediction>, c: Constraints)
    returns (r: Result<seq<Prediction>, ReplayError>, rejections: map<string, seq<Rejection>>)
    requires DistinctCandidates(predictions)
    ensures r == if exists p :: p in predictions && Malformed(p, c) then Err(InvalidPrediction)
                 else Ok(Passing(predictions, c))
    ensures r.Ok? ==> Lists(rejections, predictions, (p: Prediction) => ConstraintReasons(p, c))
  {
    hide ConstraintReasons, Malformed;
    var passing := [];
    rejections := map[];
    for i := 0 to |predictions|
      invariant passing == Passing(predictions[..i], c)
      invariant forall j :: 0 <= j < i ==> !Malformed(predictions[j], c)
      invariant forall j :: 0 <= j < i ==>
        predictions[j].candidateId in rejections
        && rejections[predictions[j].candidateId] == ConstraintReasons(predictions[j], c)
    {
      assert predictions[..i + 1][..i] == predictions[..i];
      var reasons := CheckConstraints(predictions[i], c);
      if reasons.Err? {
        assert predictions[i] in predictions;
        return Err(InvalidPrediction), rejections;
      }
      rejections := rejections[predictions[i].candidateId := reasons.value];
      if reasons.value == [] {
        passing := passing + [predictions[i]];
      }
    }
    assert predictions[..|predictions|] == predictions;
    r := Ok(passing);
  }

  /** Appends to the dictionary why each eligible candidate leaves at this stage. */
  method RejectLosers(
      config: Config, o: Objective, best: real, eligible: seq<Prediction>, before: map<string, seq<Rejection>>)
    returns (rejections: map<string, seq<Rejection>>)
    requires DistinctCandidates(eligible) && forall p :: p in eligible ==> p.candidateId in before
    ensures rejections.Keys == before.Keys
    ensures forall p :: p in eligible ==>
              rejections[p.candidateId] == before[p.candidateId] + LossReasons(config, o, best, p)
    ensures forall id :: id in before && (forall p :: p in eligible ==> p.candidateId != id) ==>
              rejections[id] == before[id]
  {
    hide Survives;
    rejections := before;
    for i := 0 to |eligible|
      invariant rejections.Keys == before.Keys
      invariant forall j :: 0 <= j < i ==>
        rejections[eligible[j].candidateId] == before[eligible[j].candidateId] + LossReasons(config, o, best, eligible[j])
      invariant forall id :: id in before && (forall j :: 0 <= j < i ==> eligible[j].candidateId != id) ==>
        rejections[id] == before[id]
    {
      var id := eligible[i].candidateId;
      assert eligible[i] in eligible;
      if RawValue(eligible[i], o).None? {
        rejections := rejections[id := rejections[id] + [MissingObjective(o)]];
      } else if !Survives(config, o, best, eligible[i]) {
        rejections := rejections[id := rejections[id] + [ObjectiveGate(o)]];
      }
    }
  }

  lemma {:induction false} ErrorsStay(
      config: Config, objectives: seq<Objective>, k: nat, n: nat, passing: seq<Prediction>)
    requires k <= n <= |objectives| && Eliminate(config, objectives, k, passing).Err?
    ensures Eliminate(config, objectives, n, passing) == Eliminate(config, objectives, k, passing)
  {
    if k < n {
      ErrorsStay(config, objectives, k, n - 1, passing);
    }
  }

  lemma {:induction false} StoppedForever(
      config: Config, objectives: seq<Objective>, k: nat, n: nat, passing: seq<Prediction>)
    requires k <= n <= |objectives| && Eliminate(config, objectives, k, passing).Ok?
    requires Stopped(Eliminate(config, objectives, k, passing).value)
    ensures Eliminate(config, objectives, n, passing) == Eliminate(config, objectives, k, passing)
    ensures forall p :: StageReasons(config, objectives, n, passing, p) == StageReasons(config, objectives, k, passing, p)
  {
    hide RunStage, LossReasons, Known;
    if k < n {
      StoppedForever(config, objectives, k, n - 1, passing);
      StoppedStays(config, objectives[n - 1], Eliminate(config, objectives, k, passing).value);
    }
  }

  lemma {:induction false} FilterStaysDistinct(s: seq<Prediction>, keep: Prediction -> bool)
    requires DistinctCandidates(s)
    ensures DistinctCandidates(Filter(s, keep))
  {
    if s != [] {
      var front := s[..|s| - 1];
      FilterStaysDistinct(front, keep);
      forall p | p in Filter(front, keep) ensures p.candidateId != s[|s| - 1].candidateId {
        var i :| 0 <= i < |front| && front[i] == p;
      }
    }
  }

  /** The dictionary after one more stage. */
  lemma StageIsListed(
      c: Constraints, config: Config, objectives: seq<Objective>, k: nat, predictions: seq<Prediction>,
      before: map<string, seq<Rejection>>, after: map<string, seq<Rejection>>)
    requires DistinctCandidates(predictions) && k < |objectives|
    requires var passing := Passing(predictions, c);
             && passing != [] && Lists(before, predictions, ReasonsUpTo(c, config, objectives, k, passing))
             && Eliminate(config, objectives, k, passing).Ok?
             && var x, o := Eliminate(config, objectives, k, passing).value, objectives[k];
                !Stopped(x) && Known(x.eligible, o) != []
                && after.Keys == before.Keys
                && (forall p :: p in x.eligible && p.candidateId in before ==>
                      after[p.candidateId]
                      == before[p.candidateId] + LossReasons(config, o, BestValue(Known(x.eligible, o), o), p))
                && forall id :: id in before && (forall p :: p in x.eligible ==> p.candidateId != id) ==>
                     after[id] == before[id]
    ensures Lists(after, predictions, ReasonsUpTo(c, config, objectives, k + 1, Passing(predictions, c)))
  {
    hide RunStage, BestValue, LossReasons, ConstraintReasons, Known, Eliminate;
    var passing := Passing(predictions, c);
    SomeoneSurvives(config, objectives, k, passing);
    var x := Eliminate(config, objectives, k, passing).value;
    forall p | p in predictions
      ensures p.candidateId in after
      ensures after[p.candidateId] == ReasonsUpTo(c, config, objectives, k + 1, passing)(p)
    {
      if p !in x.eligible {
        forall q | q in x.eligible ensures q.candidateId != p.candidateId {
          var i, j :| 0 <= i < |predictions| && 0 <= j < |predictions| && predictions[i] == p && predictions[j] == q;
        }
      }
    }
  }

  lemma StageRuns(config: Config, o: Objective, x: Staged)
    requires !Stopped(x)
    ensures var known := Known(x.eligible, o);
            RunStage(config, o, x) ==
            if exists p :: p in x.eligible && !WellValued(p, o) then Err(InvalidPrediction)
            else if known == [] then Err(ObjectiveUnavailable(o))
            else
              var survivors := Survivors(config, o, BestValue(known, o), x.eligible);
              Ok(Staged(survivors, x.trace + [StageTrace(o, BestValue(known, o), CandidateIds(survivors))]))
  {
  }

  lemma EliminateForward(config: Config, objectives: seq<Objective>, k: nat, passing: seq<Prediction>)
    requires k < |objectives| && Eliminate(config, objectives, k, passing).Ok?
    ensures Eliminate(config, objectives, k + 1, passing)
            == RunStage(config, objectives[k], Eliminate(config, objectives, k, passing).value)
  {
    hide RunStage;
  }

  method RunObjectives(
      predictions: seq<Prediction>, passing: seq<Prediction>, objectives: seq<Objective>, c: Constraints, config: Config,
      screened: map<string, seq<Rejection>>)
    returns (r: Result<Staged, ReplayError>, rejections: map<string, seq<Rejection>>)
    requires DistinctCandidates(predictions) && passing == Passing(predictions, c) && passing != []
    requires Lists(screened, predictions, ReasonsUpTo(c, config, objectives, 0, passing))
    ensures r == Eliminate(config, objectives, |objectives|, passing)
    ensures r.Ok? ==>
              Lists(rejections, predictions, ReasonsUpTo(c, config, objectives, |objectives|, passing))
  {
    hide ConstraintReasons, LossReasons, DistinctCandidates, RunStage, Eliminate, Lists, ReasonsUpTo, Passing, Passes,
         Survivors, Survivor, Known, BestValue, WellValued;
    rejections := screened;
    PassingIsDistinct(predictions, c);
    NothingEliminatedAtFirst(config, objectives, passing);
    var k, eligible, trace := 0, passing, [];
    while k < |objectives| && !(trace != [] && |eligible| == 1)
      invariant k <= |objectives|
      invariant Eliminate(config, objectives, k, passing) == Ok(Staged(eligible, trace))
      invariant DistinctCandidates(eligible)
      invariant Lists(rejections, predictions, ReasonsUpTo(c, config, objectives, k, passing))
    {
      var o := objectives[k];
      var known := Known(eligible, o);
      StageRuns(config, o, Staged(eligible, trace));
      EliminateForward(config, objectives, k, passing);
      if exists p :: p in eligible && !WellValued(p, o) {
        ErrorsStay(config, objectives, k + 1, |objectives|, passing);
        return Err(InvalidPrediction), rejections;
      }
      if known == [] {
        ErrorsStay(config, objectives, k + 1, |objectives|, passing);
        return Err(ObjectiveUnavailable(o)), rejections;
      }
      var best := BestValue(known, o);
      var survivors := Survivors(config, o, best, eligible);
      var before := rejections;
      EligibleIsListed(config, objectives, k, predictions, c, rejections);
      rejections := RejectLosers(config, o, best, eligible, before);
      StageIsListed(c, config, objectives, k, predictions, before, rejections);
      SurvivorsAreDistinct(config, o, best, eligible);
      eligible, trace := survivors, trace + [StageTrace(o, best, CandidateIds(survivors))];
      k := k + 1;
    }
    if k < |objectives| {
      StoppedIsListed(c, config, objectives, k, predictions, rejections);
    }
    r := Ok(Staged(eligible, trace));
  }

  lemma PassingIsDistinct(predictions: seq<Prediction>, c: Constraints)
    requires DistinctCandidates(predictions)
    ensures DistinctCandidates(Passing(predictions, c))
  {
    FilterStaysDistinct(predictions, Passes(c));
  }

  lemma SurvivorsAreDistinct(config: Config, o: Objective, best: real, eligible: seq<Prediction>)
    requires DistinctCandidates(eligible)
    ensures DistinctCandidates(Survivors(config, o, best, eligible))
  {
    FilterStaysDistinct(eligible, Survivor(config, o, best));
  }

  lemma EligibleIsListed(
      config: Config, objectives: seq<Objective>, k: nat, predictions: seq<Prediction>, c: Constraints,
      rejections: map<string, seq<Rejection>>)
    requires k <= |objectives| && Passing(predictions, c) != []
    requires Eliminate(config, objectives, k, Passing(predictions, c)).Ok?
    requires Lists(rejections, predictions, ReasonsUpTo(c, config, objectives, k, Passing(predictions, c)))
    ensures forall p :: p in Eliminate(config, objectives, k, Passing(predictions, c)).value.eligible ==>
              p.candidateId in rejections
  {
    hide Eliminate, ReasonsUpTo, ConstraintReasons;
    SomeoneSurvives(config, objectives, k, Passing(predictions, c));
  }

  lemma StoppedIsListed(
      c: Constraints, config: Config, objectives: seq<Objective>, k: nat, predictions: seq<Prediction>,
      rejections: map<string, seq<Rejection>>)
    requires k <= |objectives| && Eliminate(config, objectives, k, Passing(predictions, c)).Ok?
    requires Stopped(Eliminate(config, objectives, k, Passing(predictions, c)).value)
    requires Lists(rejections, predictions, ReasonsUpTo(c, config, objectives, k, Passing(predictions, c)))
    ensures Eliminate(config, objectives, |objectives|, Passing(predictions, c))
            == Eliminate(config, objectives, k, Passing(predictions, c))
    ensures Lists(rejections, predictions, ReasonsUpTo(c, config, objectives, |objectives|, Passing(predictions, c)))
  {
    hide Eliminate, ConstraintReasons, Stopped, Passing;
    var passing := Passing(predictions, c);
    StoppedForever(config, objectives, k, |objectives|, passing);
  }

  lemma {:induction false} CollectSame(
      predictions: seq<Prediction>, f: Prediction -> seq<Rejection>, g: Prediction -> seq<Rejection>)
    requires forall p :: p in predictions ==> f(p) == g(p)
    ensures CollectReasons(predictions, f) == CollectReasons(predictions, g)
  {
    if predictions != [] {
      CollectSame(predictions[..|predictions| - 1], f, g);
    }
  }

  method DropEmpty(
      predictions: seq<Prediction>, rejections: map<string, seq<Rejection>>, ghost reasonsOf: Prediction -> seq<Rejection>)
    returns (kept: map<string, seq<Rejection>>)
    requires Lists(rejections, predictions, reasonsOf)
    ensures kept == CollectReasons(predictions, reasonsOf)
  {
    kept := map[];
    for i := 0 to |predictions|
      invariant kept == CollectReasons(predictions[..i], reasonsOf)
    {
      assert predictions[..i + 1][..i] == predictions[..i];
      assert predictions[i] in predictions;
      var reasons := rejections[predictions[i].candidateId];
      if reasons != [] {
        kept := kept[predictions[i].candidateId := reasons];
      }
    }
    assert predictions[..|predictions|] == predictions;
  }

  method ControlledReplay(record: JoinedRecord, objectives: seq<Objective>, c: Constraints, config: Config)
    returns (r: Result<ReplayDecision, ReplayError>)
    ensures r == Replay(record, objectives, c, config)
  {
    hide Eliminate, ConstraintReasons, Malformed, DistinctCandidates, CollectReasons, KnownValues, PotentialGain,
         Baseline, WellValuedFor;
    var predictions := record.predictions;
    if objectives == [] {
      return Err(NoObjectives);
    }
    if predictions == [] {
      return Err(NoPredictions);
    }
    if !DistinctCandidates(predictions) {
      return Err(DuplicateCandidates);
    }
    var screened, found := Screen(predictions, c);
    var passing :- screened;
    if passing == [] {
      return Err(AllRejected);
    }
    assert Lists(found, predictions, ReasonsUpTo(c, config, objectives, 0, passing));
    var eliminated, rejections := RunObjectives(predictions, passing, objectives, c, config, found);
    var final :- eliminated;
    SomeoneSurvives(config, objectives, |objectives|, passing);
    var selected := final.eligible[0];
    var baseline := Baseline(record.decision.selectedAction, predictions);
    if baseline.None? {
      return Err(NoUniqueBaseline);
    }
    if !WellValuedFor(objectives, selected) {
      return Err(InvalidPrediction);
    }
    var kept := DropEmpty(predictions, rejections, ReasonsUpTo(c, config, objectives, |objectives|, passing));
    CollectSame(predictions, ReasonsUpTo(c, config, objectives, |objectives|, passing),
                ReasonsOf(record, objectives, c, config));
    r := Ok(ReplayDecision(
      baseline.value.candidateId, selected.candidateId, selected.predictionId,
      CandidateIds(predictions), CandidateIds(passing),
      KnownValues(objectives, selected), PotentialGain(selected, baseline.value),
      kept, final.trace, selected.candidateId != baseline.value.candidateId));
  }
}
