// What a controlled replay answers and why: its refusals, its stages, its reasons and its figures.

module ReplayLaws {
  import opened Arithmetic
  import opened Basics
  import opened ControlTypes
  import opened R = Replay

  // ---- Figures ----

  /** The figure of a prediction that an objective is about; none is recorded of energy. */
  ghost predicate IsFigure(p: Prediction, o: Objective, x: Option<real>) {
    match o
    case Success => x == p.reliability.successProbability
    case Latency => x == p.performance.e2eSeconds
    case MoneyCost => x == p.cost.monetaryCost
    case Throughput => x == p.performance.throughput
    case Energy => x == None
  }

  lemma RawIsFigure(p: Prediction, o: Objective, x: Option<real>)
    ensures x == RawValue(p, o) <==> IsFigure(p, o, x)
  {
  }

  /** A figure makes sense: it is not negative, and a probability is at most 1. */
  ghost predicate MakesSense(p: Prediction, o: Objective) {
    forall x: real :: IsFigure(p, o, Some(x)) ==> x >= 0.0 && (o.Success? ==> x <= 1.0)
  }

  lemma WellValuedMakesSense(p: Prediction, o: Objective)
    ensures WellValued(p, o) <==> MakesSense(p, o)
  {
    if RawValue(p, o).Some? {
      assert IsFigure(p, o, Some(RawValue(p, o).value));
    }
  }

  lemma TolerancesAreChecked(t: Tolerances)
    ensures t.Valid() <==> forall x :: x in [t.success, t.latency, t.cost, t.throughput] ==> IsFraction(x)
  {
    var all := [t.success, t.latency, t.cost, t.throughput];
    assert all[0] in all && all[1] in all && all[2] in all && all[3] in all;
  }

  ghost predicate IsFraction(x: real) {
    x >= 0.0 && 1.0 >= x
  }

  // ---- Stages ----

  /** `x` is at least as good a figure as `y`: more success or throughput, less latency or cost. */
  ghost predicate AsGood(o: Objective, x: real, y: real) {
    match o
    case Success | Throughput => x >= y
    case Latency | MoneyCost | Energy => x <= y
  }

  /** The best figure of a stage, which some candidate has. */
  ghost predicate IsBest(eligible: seq<Prediction>, o: Objective, best: real) {
    && (exists p :: p in eligible && IsFigure(p, o, Some(best)))
    && forall p, x :: p in eligible && IsFigure(p, o, Some(x)) ==> AsGood(o, best, x)
  }

  /** Close enough to the best: by an absolute tolerance for success, and a share of the best for the others. */
  ghost predicate CloseTo(config: Config, o: Objective, best: real, x: real) {
    var size := if best >= 0.0 then best else -best;
    match o
    case Success => best - x <= config.success
    case Throughput => best - x <= Product(config.throughput, size)
    case Latency => x - best <= Product(config.latency, size)
    case MoneyCost => x - best <= Product(config.cost, size)
    case Energy => x <= best
  }

  ghost predicate Stays(config: Config, o: Objective, best: real, p: Prediction) {
    exists x: real :: IsFigure(p, o, Some(x)) && CloseTo(config, o, best, x)
  }

  lemma SurvivesMeansStays(config: Config, o: Objective, best: real, p: Prediction)
    ensures Survives(config, o, best, p) <==> Stays(config, o, best, p)
  {
    if RawValue(p, o).Some? {
      assert IsFigure(p, o, Some(RawValue(p, o).value));
      ToleranceIsShare(config, o, best);
    }
  }

  lemma ToleranceIsShare(config: Config, o: Objective, best: real)
    ensures var size := if best >= 0.0 then best else -best;
            Tolerance(config, o, best) ==
            match o
            case Success => config.success
            case Throughput => Product(config.throughput, size)
            case Latency => Product(config.latency, size)
            case MoneyCost => Product(config.cost, size)
            case Energy => 0.0
  {
  }

  lemma BestIsBest(eligible: seq<Prediction>, o: Objective)
    requires Known(eligible, o) != []
    ensures IsBest(eligible, o, BestValue(Known(eligible, o), o))
  {
    var known := Known(eligible, o);
    var best := BestValue(known, o);
    var p :| p in known && RawValue(p, o) == Some(best);
    assert p in eligible && IsFigure(p, o, Some(best));
    forall q, x | q in eligible && IsFigure(q, o, Some(x)) ensures AsGood(o, best, x) {
      assert q in known && RawValue(q, o) == Some(x);
    }
  }

  /** A stage keeps exactly the candidates that are close to the best, and records its objective, that best and them; it
      does nothing once a single candidate is left after some stage. */
  lemma StageKeepsClose(config: Config, o: Objective, x: Staged)
    requires RunStage(config, o, x).Ok?
    ensures var y := RunStage(config, o, x).value;
            && (|x.trace| > 0 && |x.eligible| == 1 ==> y == x)
            && (|x.trace| == 0 || |x.eligible| != 1 ==>
                  && |y.trace| == |x.trace| + 1 && y.trace[..|x.trace|] == x.trace
                  && y.trace[|x.trace|].objective == o && y.trace[|x.trace|].survivors == CandidateIds(y.eligible)
                  && IsBest(x.eligible, o, y.trace[|x.trace|].best)
                  && forall p :: p in y.eligible <==> p in x.eligible && Stays(config, o, y.trace[|x.trace|].best, p))
  {
    hide BestValue, Survives, IsBest, Stays, WellValued;
    if !Stopped(x) {
      BestIsBest(x.eligible, o);
      var best := BestValue(Known(x.eligible, o), o);
      forall p: Prediction ensures Survives(config, o, best, p) <==> Stays(config, o, best, p) {
        SurvivesMeansStays(config, o, best, p);
      }
    }
  }

  /** A stage fails for a senseless figure of a candidate that is left, and else if none of them has one. */
  lemma StageFailsExactlyWhen(config: Config, o: Objective, x: Staged)
    ensures var runs := |x.trace| == 0 || |x.eligible| != 1;
            var senseless := exists p :: p in x.eligible && !MakesSense(p, o);
            && (RunStage(config, o, x) == Err(InvalidPrediction) <==> runs && senseless)
            && (RunStage(config, o, x) == Err(ObjectiveUnavailable(o)) <==>
                  runs && !senseless && forall p :: p in x.eligible ==> IsFigure(p, o, None))
            && (RunStage(config, o, x).Err? ==>
                  RunStage(config, o, x).error in {InvalidPrediction, ObjectiveUnavailable(o)})
  {
    hide BestValue, Survives, WellValued, MakesSense;
    forall p: Prediction ensures WellValued(p, o) <==> MakesSense(p, o) {
      WellValuedMakesSense(p, o);
    }
    var known := Known(x.eligible, o);
    if known != [] {
      assert known[0] in known && known[0] in x.eligible;
    }
    if p :| p in x.eligible && !IsFigure(p, o, None) {
      assert p in known;
    }
  }

  // ---- Reasons ----

  /** What stage `j` says of a candidate it eliminates: its figure is missing, or not close enough to the best. */
  ghost predicate EliminatedAt(
      config: Config, objectives: seq<Objective>, passing: seq<Prediction>, p: Prediction, j: nat, reason: Rejection)
  {
    && j < |objectives| && Eliminate(config, objectives, j, passing).Ok? && Eliminate(config, objectives, j + 1, passing).Ok?
    && p in Eliminate(config, objectives, j, passing).value.eligible
    && p !in Eliminate(config, objectives, j + 1, passing).value.eligible
    && reason == if IsFigure(p, objectives[j], None) then MissingObjective(objectives[j]) else ObjectiveGate(objectives[j])
  }

  /** The one stage that eliminates a candidate gives the one reason. */
  ghost predicate SaysOnce(
      config: Config, objectives: seq<Objective>, passing: seq<Prediction>, p: Prediction, reasons: seq<Rejection>)
  {
    exists j: nat, reason :: EliminatedAt(config, objectives, passing, p, j, reason) && reasons == [reason]
  }

  lemma {:induction false} StageReasonsSay(
      config: Config, objectives: seq<Objective>, k: nat, passing: seq<Prediction>, p: Prediction)
    requires k <= |objectives| && p in passing && Eliminate(config, objectives, k, passing).Ok?
    ensures p in Eliminate(config, objectives, k, passing).value.eligible ==>
              StageReasons(config, objectives, k, passing, p) == []
    ensures p !in Eliminate(config, objectives, k, passing).value.eligible ==>
              SaysOnce(config, objectives, passing, p, StageReasons(config, objectives, k, passing, p))
  {
    hide EliminatedAt, Eliminate, StageReasons, SaysOnce;
    if k == 0 {
      NothingSaidAtFirst(config, objectives, passing, p);
    } else {
      StageReasonsStep(config, objectives, k - 1, passing, p);
      StageReasonsSay(config, objectives, k - 1, passing, p);
      var x, y := Eliminate(config, objectives, k - 1, passing).value, Eliminate(config, objectives, k, passing).value;
      if p in x.eligible && p !in y.eligible {
        var reason :| EliminatedAt(config, objectives, passing, p, k - 1, reason)
                      && StageReasons(config, objectives, k, passing, p) == [] + [reason];
        SaysReason(config, objectives, passing, p, k - 1, reason);
      }
    }
  }

  lemma NothingSaidAtFirst(config: Config, objectives: seq<Objective>, passing: seq<Prediction>, p: Prediction)
    ensures Eliminate(config, objectives, 0, passing) == Ok(Staged(passing, []))
    ensures StageReasons(config, objectives, 0, passing, p) == []
  {
  }

  lemma SaysReason(
      config: Config, objectives: seq<Objective>, passing: seq<Prediction>, p: Prediction, j: nat, reason: Rejection)
    requires EliminatedAt(config, objectives, passing, p, j, reason)
    ensures SaysOnce(config, objectives, passing, p, [] + [reason])
  {
    hide EliminatedAt;
  }

  lemma StageReasonsStep(config: Config, objectives: seq<Objective>, k: nat, passing: seq<Prediction>, p: Prediction)
    requires k < |objectives| && Eliminate(config, objectives, k + 1, passing).Ok?
    ensures Eliminate(config, objectives, k, passing).Ok?
    ensures var x, y := Eliminate(config, objectives, k, passing).value, Eliminate(config, objectives, k + 1, passing).value;
            var before, after := StageReasons(config, objectives, k, passing, p),
                                 StageReasons(config, objectives, k + 1, passing, p);
            && (p in y.eligible ==> p in x.eligible)
            && (p !in x.eligible || p in y.eligible ==> after == before)
            && (p in x.eligible && p !in y.eligible ==>
                  exists reason :: EliminatedAt(config, objectives, passing, p, k, reason) && after == before + [reason])
  {
    hide Eliminate, BestValue, Survives, StageReasons, WellValued;
    EliminateStep(config, objectives, k, passing);
    var x := Eliminate(config, objectives, k, passing).value;
    StageReasonsUnfold(config, objectives, k, passing, p);
    if !Stopped(x) && p in x.eligible {
      var o := objectives[k];
      var best := BestValue(Known(x.eligible, o), o);
      MissingOrFar(config, o, best, p);
      if p !in Eliminate(config, objectives, k + 1, passing).value.eligible {
        var reason := if IsFigure(p, o, None) then MissingObjective(o) else ObjectiveGate(o);
        assert EliminatedAt(config, objectives, passing, p, k, reason);
      }
    }
  }

  lemma StageReasonsUnfold(config: Config, objectives: seq<Objective>, k: nat, passing: seq<Prediction>, p: Prediction)
    requires k < |objectives| && Eliminate(config, objectives, k, passing).Ok?
    ensures var x, o := Eliminate(config, objectives, k, passing).value, objectives[k];
            var earlier := StageReasons(config, objectives, k, passing, p);
            StageReasons(config, objectives, k + 1, passing, p) ==
            if Stopped(x) || p !in x.eligible || Known(x.eligible, o) == [] then earlier
            else earlier + LossReasons(config, o, BestValue(Known(x.eligible, o), o), p)
  {
    hide LossReasons, BestValue, Eliminate;
  }

  lemma MissingOrFar(config: Config, o: Objective, best: real, p: Prediction)
    ensures LossReasons(config, o, best, p) ==
            if Survives(config, o, best, p) then []
            else [if IsFigure(p, o, None) then MissingObjective(o) else ObjectiveGate(o)]
  {
    hide Tolerance;
    RawIsFigure(p, o, None);
  }

  /** A candidate that meets the constraints but is not left at the end is rejected by the one stage that eliminates it. */
  lemma RejectedByItsStage(
      record: JoinedRecord, objectives: seq<Objective>, c: Constraints, config: Config, p: Prediction)
    returns (j: nat, reason: Rejection)
    requires Replay(record, objectives, c, config).Ok? && p in record.predictions && Admissible(p, c)
    requires p.candidateId in Replay(record, objectives, c, config).value.rejections
    ensures Replay(record, objectives, c, config).value.rejections[p.candidateId] == [reason]
    ensures EliminatedAt(config, objectives, Passing(record.predictions, c), p, j, reason)
  {
    hide Replay, Eliminate, StageReasons, ConstraintReasons, CollectReasons, DistinctCandidates, EliminatedAt, Admissible;
    ReasonsAreViolations(p, c, FallbackPrediction);
    ReplayOutcome(record, objectives, c, config);
    CollectedReasons(record.predictions, ReasonsOf(record, objectives, c, config), p);
    var passing := Passing(record.predictions, c);
    StageReasonsSay(config, objectives, |objectives|, passing, p);
    j, reason :| EliminatedAt(config, objectives, passing, p, j, reason)
                 && StageReasons(config, objectives, |objectives|, passing, p) == [reason];
  }

  /** The order in which the constraints are checked. */
  ghost function CheckedAs(reason: Rejection): nat {
    match reason
    case ConfidenceBelowMinimum => 0
    case ModelVersionMismatch => 1
    case FallbackPrediction => 2
    case MissingConstraint(LatencyLimit) | AboveMaximum(LatencyLimit) => 3
    case MissingConstraint(CostLimit) | AboveMaximum(CostLimit) => 4
    case _ => 5
  }

  /** The reasons that are true of a prediction, each once, in the order of the checks. */
  ghost predicate ListsViolations(p: Prediction, c: Constraints, reasons: seq<Rejection>) {
    && (forall r :: r in reasons <==> Violates(p, c, r))
    && forall i, j :: 0 <= i < j < |reasons| ==> CheckedAs(reasons[i]) < CheckedAs(reasons[j])
  }

  lemma ConstraintReasonsAreOrdered(p: Prediction, c: Constraints)
    ensures ListsViolations(p, c, ConstraintReasons(p, c))
  {
    hide ConstraintReasons, Violates, CheckedAs;
    forall r: Rejection ensures r in ConstraintReasons(p, c) <==> Violates(p, c, r) {
      ReasonsAreViolations(p, c, r);
    }
    var reasons := ConstraintReasons(p, c);
    var front, latency, cost, success := ReasonParts(p, c);
    assert reasons == front + latency + cost + success;
    PartsInOrder(front, latency, cost, success);
  }

  lemma ReasonParts(p: Prediction, c: Constraints)
    returns (front: seq<Rejection>, latency: seq<Rejection>, cost: seq<Rejection>, success: seq<Rejection>)
    ensures ConstraintReasons(p, c) == front + latency + cost + success && InOrder(front, 3)
    ensures IsPart(latency, 3) && IsPart(cost, 4) && IsPart(success, 5)
  {
    var a := if p.confidence < c.minConfidence then [ConfidenceBelowMinimum] else [];
    var b := if c.modelVersion != "" && p.modelVersion != c.modelVersion then [ModelVersionMismatch] else [];
    var d := if !c.allowFallback && p.fallback != "none" then [FallbackPrediction] else [];
    front := a + b + d;
    latency := MaximumReasons(p.performance.e2eSeconds, c.maxLatency, LatencyLimit);
    cost := MaximumReasons(p.cost.monetaryCost, c.maxCost, CostLimit);
    success := SuccessReasons(p.reliability.successProbability, c.minSuccess);
    hide MaximumReasons, SuccessReasons;
    AtMostOneReason(p.performance.e2eSeconds, c.maxLatency, LatencyLimit);
    AtMostOneReason(p.cost.monetaryCost, c.maxCost, CostLimit);
    AtMostOneShortfall(p.reliability.successProbability, c.minSuccess);
  }

  lemma PartsInOrder(front: seq<Rejection>, latency: seq<Rejection>, cost: seq<Rejection>, success: seq<Rejection>)
    requires InOrder(front, 3) && IsPart(latency, 3) && IsPart(cost, 4) && IsPart(success, 5)
    ensures InOrder(front + latency + cost + success, 6)
  {
    hide InOrder, IsPart;
    ReasonsJoin(front, latency, 3);
    ReasonsJoin(front + latency, cost, 4);
    ReasonsJoin(front + latency + cost, success, 5);
  }

  ghost predicate IsPart(reasons: seq<Rejection>, n: nat) {
    |reasons| <= 1 && (|reasons| == 1 ==> CheckedAs(reasons[0]) == n)
  }

  ghost predicate InOrder(reasons: seq<Rejection>, n: nat) {
    && (forall i :: 0 <= i < |reasons| ==> CheckedAs(reasons[i]) < n)
    && forall i, j :: 0 <= i < j < |reasons| ==> CheckedAs(reasons[i]) < CheckedAs(reasons[j])
  }

  lemma ReasonsJoin(front: seq<Rejection>, next: seq<Rejection>, n: nat)
    requires InOrder(front, n) && IsPart(next, n)
    ensures InOrder(front + next, n + 1)
  {
    hide CheckedAs;
  }

  lemma AtMostOneReason(value: Option<real>, maximum: Option<real>, limit: Limit)
    requires limit != SuccessLimit
    ensures IsPart(MaximumReasons(value, maximum, limit), if limit == LatencyLimit then 3 else 4)
  {
  }

  lemma AtMostOneShortfall(value: Option<real>, minimum: Option<real>)
    ensures IsPart(SuccessReasons(value, minimum), 5)
  {
  }

  /** A candidate that does not meet the constraints is rejected for exactly the limits that it violates. */
  lemma RejectedByConstraints(
      record: JoinedRecord, objectives: seq<Objective>, c: Constraints, config: Config, p: Prediction)
    requires Replay(record, objectives, c, config).Ok? && p in record.predictions && !Admissible(p, c)
    ensures var d := Replay(record, objectives, c, config).value;
            p.candidateId in d.rejections && ListsViolations(p, c, d.rejections[p.candidateId])
  {
    hide Replay, Eliminate, StageReasons, ConstraintReasons, CollectReasons, DistinctCandidates, ListsViolations, Admissible;
    ReasonsAreViolations(p, c, FallbackPrediction);
    ConstraintReasonsAreOrdered(p, c);
    ReplayOutcome(record, objectives, c, config);
    var passing := Passing(record.predictions, c);
    assert p !in passing;
    NoStageForOthers(config, objectives, |objectives|, passing, p);
    CollectedReasons(record.predictions, ReasonsOf(record, objectives, c, config), p);
    assert ConstraintReasons(p, c) + [] == ConstraintReasons(p, c);
  }

  lemma StageShrinks(config: Config, o: Objective, x: Staged, p: Prediction)
    requires RunStage(config, o, x).Ok? && p !in x.eligible
    ensures p !in RunStage(config, o, x).value.eligible
  {
    hide BestValue, Survives, WellValued, Known;
  }

  lemma {:induction false} NoStageForOthers(
      config: Config, objectives: seq<Objective>, k: nat, passing: seq<Prediction>, p: Prediction)
    requires k <= |objectives| && p !in passing
    ensures StageReasons(config, objectives, k, passing, p) == []
    ensures Eliminate(config, objectives, k, passing).Ok? ==> p !in Eliminate(config, objectives, k, passing).value.eligible
  {
    hide BestValue, RunStage, LossReasons, Known;
    if k > 0 {
      NoStageForOthers(config, objectives, k - 1, passing, p);
      var earlier := Eliminate(config, objectives, k - 1, passing);
      if earlier.Ok? && RunStage(config, objectives[k - 1], earlier.value).Ok? {
        StageShrinks(config, objectives[k - 1], earlier.value, p);
      }
    }
  }

  // ---- Refusals and figures of the whole replay ----

  /** A figure that a limit is set for makes no sense. */
  ghost predicate Senseless(p: Prediction, c: Constraints) {
    || (c.maxLatency.Some? && !MakesSense(p, Latency))
    || (c.maxCost.Some? && !MakesSense(p, MoneyCost))
    || (c.minSuccess.Some? && !MakesSense(p, Success))
  }

  lemma MalformedMeansSenseless(p: Prediction, c: Constraints)
    ensures Malformed(p, c) <==> Senseless(p, c)
  {
    hide MakesSense;
    WellValuedMakesSense(p, Latency);
    WellValuedMakesSense(p, MoneyCost);
    WellValuedMakesSense(p, Success);
  }

  ghost predicate SharedCandidate(predictions: seq<Prediction>) {
    exists i, j :: 0 <= i < j < |predictions| && predictions[i].candidateId == predictions[j].candidateId
  }

  /** Replay refuses, in this order: a policy without objectives, a record without predictions or with two for one
      candidate, a senseless limited figure, and constraints that nobody meets. Then the stages decide; what is left after
      them fails only without a unique baseline or for a senseless figure of the selection. */
  lemma ReplayRefusesExactlyWhen(record: JoinedRecord, objectives: seq<Objective>, c: Constraints, config: Config)
    ensures var r, ps := Replay(record, objectives, c, config), record.predictions;
            var usable := objectives != [] && ps != [] && !SharedCandidate(ps);
            var senseless := exists p :: p in ps && Senseless(p, c);
            var passing := Passing(ps, c);
            && (r == Err(NoObjectives) <==> objectives == [])
            && (r == Err(NoPredictions) <==> objectives != [] && ps == [])
            && (r == Err(DuplicateCandidates) <==> objectives != [] && SharedCandidate(ps))
            && (usable && senseless ==> r == Err(InvalidPrediction))
            && (usable && !senseless && (forall p :: p in ps ==> !Admissible(p, c)) ==> r == Err(AllRejected))
            && (usable && !senseless && (exists p :: p in ps && Admissible(p, c)) ==>
                  match Eliminate(config, objectives, |objectives|, passing)
                  case Err(e) => r == Err(e)
                  case Ok(left) =>
                    && left.eligible != []
                    && var names, sound := Baseline(record.decision.selectedAction, ps),
                                           forall o :: o in objectives ==> MakesSense(left.eligible[0], o);
                       && (names.None? ==> r == Err(NoUniqueBaseline))
                       && (names.Some? && !sound ==> r == Err(InvalidPrediction))
                       && (r.Ok? <==> names.Some? && sound))
  {
    hide Eliminate, Malformed, Senseless, Baseline, AllReasons, CollectReasons, PotentialGain, KnownValues, MakesSense,
         WellValued, ConstraintReasons, Admissible;
    var ps, passing := record.predictions, Passing(record.predictions, c);
    forall p: Prediction ensures Malformed(p, c) <==> Senseless(p, c) {
      MalformedMeansSenseless(p, c);
    }
    forall p: Prediction ensures p in passing <==> p in ps && Admissible(p, c) {
      ReasonsAreViolations(p, c, FallbackPrediction);
    }
    forall p: Prediction, o: Objective ensures WellValued(p, o) <==> MakesSense(p, o) {
      WellValuedMakesSense(p, o);
    }
    if passing != [] {
      assert passing[0] in passing;
      if Eliminate(config, objectives, |objectives|, passing).Ok? {
        SomeoneSurvives(config, objectives, |objectives|, passing);
      }
    }
    StageErrorsAreOwn(config, objectives, |objectives|, passing);
  }

  lemma {:induction false} StageErrorsAreOwn(config: Config, objectives: seq<Objective>, k: nat, passing: seq<Prediction>)
    requires k <= |objectives|
    ensures var r := Eliminate(config, objectives, k, passing);
            r.Err? ==> r.error.InvalidPrediction? || r.error.ObjectiveUnavailable?
  {
    hide BestValue, Survivors, WellValued, Known;
    if k > 0 {
      StageErrorsAreOwn(config, objectives, k - 1, passing);
    }
  }

  /** The objective values of a decision are the figures of the selection, where they are known. */
  lemma ValuesAreFigures(record: JoinedRecord, objectives: seq<Objective>, c: Constraints, config: Config)
    returns (selected: Prediction)
    requires Replay(record, objectives, c, config).Ok?
    ensures var d := Replay(record, objectives, c, config).value;
            && selected in record.predictions && selected.candidateId == d.selected
            && (forall o :: o in d.objectiveValues <==> o in objectives && !IsFigure(selected, o, None))
            && (forall o :: o in d.objectiveValues ==> IsFigure(selected, o, Some(d.objectiveValues[o])))
            && |d.trace| > 0 && (forall o :: o in objectives ==> MakesSense(selected, o))
  {
    hide Eliminate, ConstraintReasons, WellValued, AllReasons, Malformed, CollectReasons, DistinctCandidates, Passing,
         Baseline, PotentialGain, MakesSense;
    var passing := Passing(record.predictions, c);
    SomeoneSurvives(config, objectives, |objectives|, passing);
    var final := Eliminate(config, objectives, |objectives|, passing).value;
    selected := final.eligible[0];
    assert selected in final.eligible;
    PassingMembers(record.predictions, c, selected);
    forall o: Objective ensures WellValued(selected, o) <==> MakesSense(selected, o) {
      WellValuedMakesSense(selected, o);
    }
    StagesAreTraced(config, objectives, |objectives|, passing);
  }

  // ---- The trace ----

  /** Each entry of the trace is for the objective of its stage, in policy order, and the stages it does not mention come
      after a single candidate was left. */
  lemma {:induction false} StagesAreTraced(config: Config, objectives: seq<Objective>, k: nat, passing: seq<Prediction>)
    requires k <= |objectives| && Eliminate(config, objectives, k, passing).Ok?
    ensures var x := Eliminate(config, objectives, k, passing).value;
            && |x.trace| <= k && (k > 0 ==> |x.trace| > 0)
            && (|x.trace| < k ==> |x.eligible| == 1)
            && (forall j :: 0 <= j < |x.trace| ==> x.trace[j].objective == objectives[j])
            && (|x.trace| > 0 ==> x.trace[|x.trace| - 1].survivors == CandidateIds(x.eligible))
  {
    hide RunStage, IsBest, Stays;
    if k > 0 {
      StagesAreTraced(config, objectives, k - 1, passing);
      StageKeepsClose(config, objectives[k - 1], Eliminate(config, objectives, k - 1, passing).value);
    }
  }

  // ---- The baseline ----

  ghost predicate NamesNothing(action: Action) {
    CandidateId !in action.parameters || action.parameters[CandidateId] in {Text(""), Num(0.0)}
  }

  /** The baseline: the only prediction there is, if the action names nothing, or else the only one for what it names. */
  ghost predicate IsBaseline(action: Action, predictions: seq<Prediction>, p: Prediction) {
    if NamesNothing(action) && |predictions| == 1 then p == predictions[0]
    else
      && CandidateId in action.parameters
      && exists i: nat ::
           i < |predictions| && predictions[i] == p && OnlyMatch(predictions, action.parameters[CandidateId], i)
  }

  lemma BaselineIsUnique(action: Action, predictions: seq<Prediction>, p: Prediction)
    ensures Baseline(action, predictions) == Some(p) <==> IsBaseline(action, predictions, p)
  {
    hide ForCandidate, OnlyMatch;
    if CandidateId in action.parameters {
      SingleMatch(predictions, action.parameters[CandidateId]);
    }
  }
}
