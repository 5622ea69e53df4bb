// The Success-First scheduler: success, then cost, then latency and placement, with asymmetric hysteresis.

module Scheduler {
  import opened Arithmetic
  import opened Basics
  import opened SchedulerTypes
  import opened Gates

  // ---- Estimates and policy ----

  function EstimateOrUnknown(env: Environment, view: SchedulingView, t: TargetCandidate): SuccessEstimate {
    match env.predict(view, t)
    case Ok(estimate) => estimate
    case Err(name) => SuccessEstimate(0.0, 1.0, 0.0, ["predictor_error:" + name])
  }

  /** One estimate per model, taken from its first target. */
  function Estimates(env: Environment, view: SchedulingView, targets: seq<TargetCandidate>)
    : (m: map<string, SuccessEstimate>)
    ensures forall i :: 0 <= i < |targets| ==> targets[i].modelId in m
  {
    if targets == [] then map[]
    else
      var last := targets[|targets| - 1];
      var front := Estimates(env, view, targets[..|targets| - 1]);
      assert forall i :: 0 <= i < |targets| - 1 ==> targets[i] == targets[..|targets| - 1][i];
      if last.modelId in front then front else front[last.modelId := EstimateOrUnknown(env, view, last)]
  }

  predicate Mentions(note: string, word: string) {
    exists i :: 0 <= i <= |note| && word <= note[i..]
  }

  predicate Unsafe(config: SchedulerConfig, e: SuccessEstimate) {
    || e.uncertainty >= MaxReal(0.0, config.predictorUncertaintyOverride)
    || exists i :: 0 <= i < |e.notes| && ("predictor_error:" <= e.notes[i] || Mentions(e.notes[i], "out_of_distribution"))
  }

  predicate NeedsSafeMode(config: SchedulerConfig, estimates: map<string, SuccessEstimate>) {
    exists m :: m in estimates && Unsafe(config, estimates[m])
  }

  datatype Policy = Policy(
    targets: seq<TargetCandidate>,
    estimates: map<string, SuccessEstimate>,
    overrides: seq<OverrideReason>)

  function PolicyOf(env: Environment, view: SchedulingView, eligible: seq<TargetCandidate>): (p: Policy)
    ensures forall i :: 0 <= i < |p.targets| ==> p.targets[i].modelId in p.estimates
    ensures p.targets == eligible || p.targets == CapableOnly(eligible)
  {
    var overrides := OverrideReasons(view, env.config);
    var capable := CapableOnly(eligible);
    if overrides != [] then Policy(capable, Estimates(env, view, capable), overrides)
    else
      var estimates := Estimates(env, view, eligible);
      if NeedsSafeMode(env.config, estimates) then
        Policy(capable, Estimates(env, view, capable), [PredictorUncertaintyOrOod])
      else Policy(eligible, estimates, [])
  }

  // ---- Stages ----

  function NewItem(config: SchedulerConfig, t: TargetCandidate, e: SuccessEstimate): Item {
    Item(t, t.tier, e, e.Lcb(config.beta), 0.0, 0, 0.0)
  }

  function EvaluateAll(config: SchedulerConfig, p: Policy): (items: seq<Item>)
    requires forall i :: 0 <= i < |p.targets| ==> p.targets[i].modelId in p.estimates
    ensures |items| == |p.targets|
  {
    seq(|p.targets|, i requires 0 <= i < |p.targets| =>
          NewItem(config, p.targets[i], p.estimates[p.targets[i].modelId]))
  }

  function Priced(env: Environment, view: SchedulingView, x: Item): Item {
    x.(effectiveCost := EffectiveCost(env, view, x.target, x.estimate), localKvTokens := KvSplit(view, x.target).local)
  }

  function PriceAll(env: Environment, view: SchedulingView, items: seq<Item>): seq<Item> {
    seq(|items|, i requires 0 <= i < |items| => Priced(env, view, items[i]))
  }

  predicate WithinBudget(view: SchedulingView, x: Item) {
    view.costBudget.Some? ==> x.effectiveCost <= view.costBudget.value + TINY
  }

  function KeepInBudget(view: SchedulingView, items: seq<Item>): seq<Item> {
    Filter(items, (x: Item) => WithinBudget(view, x))
  }

  /** Dictionaries built by key keep the last entry. */
  function LastWithKey(items: seq<Item>, key: TargetKey): (r: Option<Item>)
    ensures r.Some? ==> r.value in items && r.value.target.Key() == key
    ensures r.None? ==> forall i :: 0 <= i < |items| ==> items[i].target.Key() != key
  {
    if items == [] then None
    else if items[|items| - 1].target.Key() == key then Some(items[|items| - 1])
    else LastWithKey(items[..|items| - 1], key)
  }

  function Timed(view: SchedulingView, inBudget: seq<Item>, x: Item): Item {
    match LastWithKey(inBudget, x.target.Key())
    case None => x
    case Some(owner) => x.(target := owner.target, latencySeconds := PredictedLatency(view, owner.target))
  }

  function TimeAll(view: SchedulingView, inBudget: seq<Item>, items: seq<Item>): seq<Item> {
    seq(|items|, i requires 0 <= i < |items| => Timed(view, inBudget, items[i]))
  }

  datatype Stages = Stages(
    policy: Policy,
    evaluated: seq<Item>,
    gate: SuccessGateResult,
    successful: seq<Item>,
    inBudget: seq<Item>,
    placeable: seq<Item>)

  function StagesOf(env: Environment, view: SchedulingView, eligible: seq<TargetCandidate>): Stages {
    var policy := PolicyOf(env, view, eligible);
    var evaluated := EvaluateAll(env.config, policy);
    var gate := GateOf(evaluated, env.config.sMin, env.config.epsilonSuccess);
    var passed := Filter(evaluated, (x: Item) => x.target.modelId in gate.models);
    var successful := PriceAll(env, view, passed);
    var inBudget := KeepInBudget(view, successful);
    Stages(policy, evaluated, gate, successful, inBudget,
           TimeAll(view, inBudget, CostGate(inBudget, env.config.epsilonCost)))
  }

  // ---- Hysteresis and the decision ----

  predicate ShouldHoldTier(view: SchedulingView, config: SchedulerConfig, selected: Item, placeable: seq<Item>) {
    && view.currentTier != "" && view.currentModel != ""
    && TierRank(view.currentTier) > TierRank(selected.tier)
    && view.stableSteps < config.deescalationStableSteps
    && exists i :: 0 <= i < |placeable| && placeable[i].target.modelId == view.currentModel
  }

  function CurrentModelOnly(view: SchedulingView, items: seq<Item>): seq<Item> {
    Filter(items, (x: Item) => x.target.modelId == view.currentModel)
  }

  function Models(items: seq<Item>): set<string> {
    set i | 0 <= i < |items| :: items[i].target.modelId
  }

  function ReasonFor(s: Stages, placed: DecisionReason): DecisionReason {
    if s.policy.overrides != [] then CriticalOverride
    else if s.gate.fallback then Fallback
    else if |Models(s.inBudget)| == 1 then SuccessDominant
    else if placed == KvAffinity then KvAffinity
    else if placed == LoadBalance then LoadBalance
    else if |s.placeable| < |s.inBudget| then CostDominant
    else LatencyTiebreak
  }

  predicate Held(env: Environment, view: SchedulingView, s: Stages)
    requires s.placeable != []
  {
    && s.policy.overrides == []
    && ShouldHoldTier(view, env.config, ChoosePlacement(view, s.placeable).item, s.placeable)
  }

  function SelectedItem(env: Environment, view: SchedulingView, s: Stages): Item
    requires s.placeable != []
  {
    var current := CurrentModelOnly(view, s.placeable);
    if Held(env, view, s) && current != [] then ChoosePlacement(view, current).item
    else ChoosePlacement(view, s.placeable).item
  }

  function SelectedReason(env: Environment, view: SchedulingView, s: Stages): DecisionReason
    requires s.placeable != []
  {
    if Held(env, view, s) && CurrentModelOnly(view, s.placeable) != [] then HysteresisHold
    else ReasonFor(s, ChoosePlacement(view, s.placeable).reason)
  }

  function LastRejection(rejections: seq<FilterRejection>, key: TargetKey): Option<FilterRejection> {
    if rejections == [] then None
    else if rejections[|rejections| - 1].key == key then Some(rejections[|rejections| - 1])
    else LastRejection(rejections[..|rejections| - 1], key)
  }

  function TraceOf(s: Stages, rejections: seq<FilterRejection>, t: TargetCandidate): (e: TraceEntry)
    ensures e.key == t.Key()
  {
    match LastWithKey(s.evaluated, t.Key())
    case Some(x) => TraceEntry(t.Key(), x.tier, Evaluated(x.successLcb, x.target.modelId in s.gate.models))
    case None =>
      match LastRejection(rejections, t.Key())
      case Some(r) => TraceEntry(t.Key(), t.tier, FilteredOut(r.reasons))
      case None => TraceEntry(t.Key(), t.tier, CriticalOverrideCapableOnly)
  }

  function TraceAll(s: Stages, rejections: seq<FilterRejection>, targets: seq<TargetCandidate>): seq<TraceEntry> {
    seq(|targets|, i requires 0 <= i < |targets| => TraceOf(s, rejections, targets[i]))
  }

  function DecisionOf(
      env: Environment, view: SchedulingView, targets: seq<TargetCandidate>, s: Stages): RoutingDecision
    requires s.placeable != []
  {
    var x := SelectedItem(env, view, s);
    RoutingDecision(x.target.Key(), x.successLcb, x.effectiveCost, x.latencySeconds, SelectedReason(env, view, s),
                    TraceAll(s, Rejections(view, targets), targets), s.policy.overrides, s.gate.fallback)
  }

  function KeysOf(items: seq<Item>): seq<TargetKey> {
    seq(|items|, i requires 0 <= i < |items| => items[i].target.Key())
  }

  function Schedule(env: Environment, view: SchedulingView, targets: seq<TargetCandidate>)
    : Result<RoutingDecision, NoFeasibleTarget>
  {
    if targets == [] then Err(NoTargets)
    else if Eligible(view, targets) == [] then Err(AllFiltered(Rejections(view, targets)))
    else
      var s := StagesOf(env, view, Eligible(view, targets));
      if s.successful == [] then Err(NoUsableCandidate)
      else if s.inBudget == [] then Err(AllOverBudget(KeysOf(s.successful)))
      else
        StagesReachPlacement(env, view, Eligible(view, targets));
        Ok(DecisionOf(env, view, targets, s))
  }

  // ---- What the stages keep ----

  lemma EffectiveCostNonNegative(env: Environment, view: SchedulingView, t: TargetCandidate, e: SuccessEstimate)
    ensures EffectiveCost(env, view, t, e) >= 0.0
  {
    hide ServiceCost, ExpectedRetry, FutureKvValue;
  }

  /** A candidate within the budget always leaves something to place. */
  lemma StagesReachPlacement(env: Environment, view: SchedulingView, eligible: seq<TargetCandidate>)
    ensures var s := StagesOf(env, view, eligible); s.inBudget != [] ==> s.placeable != []
  {
    hide PolicyOf, GateOf, EffectiveCost, CostLimit, WithinBudget, PredictedLatency;
    var s := StagesOf(env, view, eligible);
    if s.inBudget != [] {
      forall i | 0 <= i < |s.inBudget| ensures s.inBudget[i].effectiveCost >= 0.0 {
        assert s.inBudget[i] in s.successful;
        var j :| 0 <= j < |s.successful| && s.successful[j] == s.inBudget[i];
        EffectiveCostNonNegative(env, view, s.successful[j].target, s.successful[j].estimate);
      }
      CheapestPassesCostGate(s.inBudget, env.config.epsilonCost);
    }
  }

  // ---- Stage membership in terms of targets ----

  function LcbOf(env: Environment, p: Policy, t: TargetCandidate): real
    requires t.modelId in p.estimates
  {
    p.estimates[t.modelId].Lcb(env.config.beta)
  }

  function CostOf(env: Environment, view: SchedulingView, p: Policy, t: TargetCandidate): real
    requires t.modelId in p.estimates
  {
    EffectiveCost(env, view, t, p.estimates[t.modelId])
  }

  /** Passed the success gate and fits the budget. */
  ghost predicate Affordable(env: Environment, view: SchedulingView, s: Stages, t: TargetCandidate) {
    && t in s.policy.targets && t.modelId in s.policy.estimates
    && t.modelId in s.gate.models
    && (view.costBudget.Some? ==> CostOf(env, view, s.policy, t) <= view.costBudget.value + TINY)
  }

  function PricedItem(env: Environment, view: SchedulingView, p: Policy, t: TargetCandidate): Item
    requires t.modelId in p.estimates
  {
    Priced(env, view, NewItem(env.config, t, p.estimates[t.modelId]))
  }

  lemma SuccessfulMembers(env: Environment, view: SchedulingView, eligible: seq<TargetCandidate>, x: Item)
    ensures var s := StagesOf(env, view, eligible);
            x in s.successful <==>
            exists t :: t in s.policy.targets && t.modelId in s.policy.estimates && t.modelId in s.gate.models
                        && x == PricedItem(env, view, s.policy, t)
  {
    hide PolicyOf, GateOf, Priced, EvaluateAll, KeepInBudget, TimeAll, CostGate;
    var s := StagesOf(env, view, eligible);
    var passed := Filter(s.evaluated, (y: Item) => y.target.modelId in s.gate.models);
    if x in s.successful {
      var i :| 0 <= i < |passed| && x == Priced(env, view, passed[i]);
      assert passed[i] in passed;
      var t := EvaluatedTarget(env.config, s.policy, passed[i]);
      assert x == PricedItem(env, view, s.policy, t);
    }
    if t :| t in s.policy.targets && t.modelId in s.policy.estimates && t.modelId in s.gate.models
            && x == PricedItem(env, view, s.policy, t)
    {
      TargetIsEvaluated(env.config, s.policy, t);
      var item := NewItem(env.config, t, s.policy.estimates[t.modelId]);
      assert item in passed;
      var i :| 0 <= i < |passed| && passed[i] == item;
      assert x == s.successful[i];
    }
  }

  lemma EvaluatedTarget(config: SchedulerConfig, p: Policy, x: Item) returns (t: TargetCandidate)
    requires forall i :: 0 <= i < |p.targets| ==> p.targets[i].modelId in p.estimates
    requires x in EvaluateAll(config, p)
    ensures t in p.targets && t.modelId in p.estimates && x == NewItem(config, t, p.estimates[t.modelId])
    ensures x.target == t
  {
    var items := EvaluateAll(config, p);
    var j :| 0 <= j < |items| && items[j] == x;
    t := p.targets[j];
  }

  lemma TargetIsEvaluated(config: SchedulerConfig, p: Policy, t: TargetCandidate)
    requires forall i :: 0 <= i < |p.targets| ==> p.targets[i].modelId in p.estimates
    requires t in p.targets
    ensures NewItem(config, t, p.estimates[t.modelId]) in EvaluateAll(config, p)
  {
    var j :| 0 <= j < |p.targets| && p.targets[j] == t;
    assert EvaluateAll(config, p)[j] == NewItem(config, t, p.estimates[t.modelId]);
  }

  lemma InBudgetMembers(env: Environment, view: SchedulingView, eligible: seq<TargetCandidate>, x: Item)
    ensures var s := StagesOf(env, view, eligible);
            x in s.inBudget <==> exists t :: Affordable(env, view, s, t) && x == PricedItem(env, view, s.policy, t)
  {
    hide PolicyOf, GateOf, EffectiveCost, KvSplit, SuccessEstimate.Lcb;
    SuccessfulMembers(env, view, eligible, x);
    var s := StagesOf(env, view, eligible);
    assert x in s.inBudget <==> x in s.successful && WithinBudget(view, x);
    if x in s.inBudget {
      var t :| t in s.policy.targets && t.modelId in s.policy.estimates && t.modelId in s.gate.models
               && x == PricedItem(env, view, s.policy, t);
      assert Affordable(env, view, s, t);
    }
  }

  /** What is placed: an affordable target, priced as itself, near the cheapest, timed as its key's owner. */
  lemma PlaceableMembers(env: Environment, view: SchedulingView, eligible: seq<TargetCandidate>, x: Item)
    returns (t: TargetCandidate)
    requires var s := StagesOf(env, view, eligible); s.inBudget != [] && x in s.placeable
    ensures var s := StagesOf(env, view, eligible);
            && Affordable(env, view, s, t) && t.Key() == x.target.Key()
            && x.successLcb == LcbOf(env, s.policy, t) && x.effectiveCost == CostOf(env, view, s.policy, t)
            && x.tier == t.tier
            && x.effectiveCost <= CostLimit(s.inBudget, env.config.epsilonCost)
            && Affordable(env, view, s, x.target)
            && x.latencySeconds == PredictedLatency(view, x.target)
  {
    hide PolicyOf, GateOf, EffectiveCost, KvSplit, SuccessEstimate.Lcb, CostLimit, PredictedLatency;
    var s := StagesOf(env, view, eligible);
    var cheap := CostGate(s.inBudget, env.config.epsilonCost);
    var i :| 0 <= i < |cheap| && x == Timed(view, s.inBudget, cheap[i]);
    assert cheap[i] in cheap;
    InBudgetMembers(env, view, eligible, cheap[i]);
    t :| Affordable(env, view, s, t) && cheap[i] == PricedItem(env, view, s.policy, t);
    var owner := LastWithKey(s.inBudget, cheap[i].target.Key());
    assert owner.Some? by {
      var j :| 0 <= j < |s.inBudget| && s.inBudget[j] == cheap[i];
    }
    InBudgetMembers(env, view, eligible, owner.value);
  }

  // ---- When a decision is made ----

  lemma GatePassesSomeone(items: seq<Item>, sMin: real, epsilon: real)
    requires items != []
    ensures exists i :: 0 <= i < |items| && items[i].target.modelId in GateOf(items, sMin, epsilon).models
  {
    BestLcbIsMaximum(items);
    var values, best := ByModel(items), BestLcb(items);
    var gate := GateOf(items, sMin, epsilon);
    var m := if Accepted(values, best, sMin, epsilon) != {} then
               var a :| a in Accepted(values, best, sMin, epsilon); a
             else var b :| b in values && values[b] == best; b;
    assert m in gate.models && m in values;
  }

  lemma PolicyKeepsSomeone(env: Environment, view: SchedulingView, eligible: seq<TargetCandidate>)
    requires eligible != []
    ensures PolicyOf(env, view, eligible).targets != []
  {
    hide OverrideReasons, NeedsSafeMode, Estimates, Capable;
  }

  lemma SuccessGateNeverEmpties(env: Environment, view: SchedulingView, eligible: seq<TargetCandidate>)
    requires eligible != []
    ensures StagesOf(env, view, eligible).successful != []
  {
    hide PolicyOf, GateOf, KeepInBudget, TimeAll, Priced, SuccessEstimate.Lcb;
    var s := StagesOf(env, view, eligible);
    PolicyKeepsSomeone(env, view, eligible);
    GatePassesSomeone(s.evaluated, env.config.sMin, env.config.epsilonSuccess);
    var i :| 0 <= i < |s.evaluated| && s.evaluated[i].target.modelId in s.gate.models;
    assert s.evaluated[i] in Filter(s.evaluated, (x: Item) => x.target.modelId in s.gate.models);
  }

  /** A decision is withheld exactly for no targets, no target that may serve, or no survivor within the budget. */
  lemma DecidesExactlyWhen(env: Environment, view: SchedulingView, targets: seq<TargetCandidate>)
    ensures Schedule(env, view, targets) == Err(NoTargets) <==> targets == []
    ensures Schedule(env, view, targets) == Err(AllFiltered(Rejections(view, targets))) <==>
            targets != [] && forall t :: t in targets ==> !Serves(view, t)
    ensures Schedule(env, view, targets).Ok? <==>
            && (exists t :: t in targets && Serves(view, t))
            && exists t :: Affordable(env, view, StagesOf(env, view, Eligible(view, targets)), t)
    ensures Schedule(env, view, targets) != Err(NoUsableCandidate)
  {
    hide Serves, Rejections, DecisionOf, StagesOf, Affordable;
    var eligible := Eligible(view, targets);
    assert eligible == [] <==> forall t :: t in targets ==> !Serves(view, t) by {
      if eligible != [] {
        assert eligible[0] in eligible;
      }
    }
    if eligible != [] {
      SuccessGateNeverEmpties(env, view, eligible);
      var s := StagesOf(env, view, eligible);
      if s.inBudget != [] {
        InBudgetMembers(env, view, eligible, s.inBudget[0]);
      }
      if t :| Affordable(env, view, s, t) {
        AffordableHasEstimate(env, view, s, t);
        InBudgetMembers(env, view, eligible, PricedItem(env, view, s.policy, t));
      }
    }
  }

  lemma AffordableHasEstimate(env: Environment, view: SchedulingView, s: Stages, t: TargetCandidate)
    requires Affordable(env, view, s, t)
    ensures t.modelId in s.policy.estimates && t in s.policy.targets
  {
  }

  // ---- Near-lexicographic optimality, end to end ----

  /** Every model's bound is its own estimate's, since its targets share one estimate. */
  lemma {:induction false} ModelBoundIsShared(config: SchedulerConfig, p: Policy, n: nat, t: TargetCandidate)
    requires forall i :: 0 <= i < |p.targets| ==> p.targets[i].modelId in p.estimates
    requires n <= |p.targets| && t in p.targets[..n]
    ensures var items := EvaluateAll(config, p)[..n];
            t.modelId in ByModel(items) && ByModel(items)[t.modelId] == p.estimates[t.modelId].Lcb(config.beta)
  {
    hide EvaluateAll, SuccessEstimate.Lcb, ByModel;
    var front, last := EvaluateAll(config, p)[..n - 1], p.targets[n - 1];
    EvaluatedPrefix(config, p, n);
    ByModelExtends(front, NewItem(config, last, p.estimates[last.modelId]));
    if last.modelId != t.modelId {
      assert t in p.targets[..n - 1] by {
        InFront(p.targets, n, t);
      }
      ModelBoundIsShared(config, p, n - 1, t);
    } else if last.modelId in ByModel(front) {
      var j :| 0 <= j < n - 1 && front[j].target.modelId == last.modelId;
      assert p.targets[..n - 1][j] == p.targets[j];
      ModelBoundIsShared(config, p, n - 1, p.targets[j]);
    }
  }

  lemma InFront(targets: seq<TargetCandidate>, n: nat, t: TargetCandidate)
    requires 0 < n <= |targets| && t in targets[..n]
    ensures t in targets[..n - 1] || t == targets[n - 1]
  {
    assert targets[..n] == targets[..n - 1] + [targets[n - 1]];
  }

  lemma EvaluatedPrefix(config: SchedulerConfig, p: Policy, n: nat)
    requires forall i :: 0 <= i < |p.targets| ==> p.targets[i].modelId in p.estimates
    requires 0 < n <= |p.targets|
    ensures var items, last := EvaluateAll(config, p), p.targets[n - 1];
            && items[..n] == items[..n - 1] + [NewItem(config, last, p.estimates[last.modelId])]
            && forall j :: 0 <= j < n - 1 ==> items[..n - 1][j].target == p.targets[j]
  {
    hide SuccessEstimate.Lcb;
  }

  lemma ByModelExtends(front: seq<Item>, x: Item)
    ensures var known := if x.target.modelId in ByModel(front) then ByModel(front)[x.target.modelId] else 0.0;
            ByModel(front + [x]) == ByModel(front)[x.target.modelId := MaxReal(known, x.successLcb)]
  {
    assert (front + [x])[..|front|] == front;
  }

  /** What passing the gate means for a target's own bound. */
  lemma GateMeansNearBest(env: Environment, view: SchedulingView, eligible: seq<TargetCandidate>, t: TargetCandidate,
                          other: TargetCandidate)
    requires var s := StagesOf(env, view, eligible);
             t in s.policy.targets && other in s.policy.targets && t.modelId in s.gate.models
    ensures var s := StagesOf(env, view, eligible);
            && t.modelId in s.policy.estimates && other.modelId in s.policy.estimates
            && LcbOf(env, s.policy, t) >= LcbOf(env, s.policy, other)
               - (if s.gate.fallback then TINY else MaxReal(0.0, env.config.epsilonSuccess))
            && (if s.gate.fallback then LcbOf(env, s.policy, other) < env.config.sMin
                else LcbOf(env, s.policy, t) >= env.config.sMin)
  {
    hide PolicyOf, KeepInBudget, TimeAll, PriceAll, SuccessEstimate.Lcb, CostGate, EvaluateAll, ByModel, BestLcb;
    var s := StagesOf(env, view, eligible);
    var items := s.evaluated;
    assert items[..|items|] == items && s.policy.targets[..|items|] == s.policy.targets;
    ModelBoundIsShared(env.config, s.policy, |items|, t);
    ModelBoundIsShared(env.config, s.policy, |items|, other);
    BestLcbIsMaximum(items);
    var values, best := ByModel(items), BestLcb(items);
    if s.gate.fallback {
      var m :| m in values && values[m] == best;
      assert m !in Accepted(values, best, env.config.sMin, env.config.epsilonSuccess);
      assert values[other.modelId] <= best;
    }
  }

  lemma SelectedIsPlaceable(env: Environment, view: SchedulingView, s: Stages)
    requires s.placeable != []
    ensures SelectedItem(env, view, s) in s.placeable
    ensures SelectedReason(env, view, s) == HysteresisHold ==>
              && CurrentModelOnly(view, s.placeable) != []
              && SelectedItem(env, view, s) == ChoosePlacement(view, CurrentModelOnly(view, s.placeable)).item
              && SelectedItem(env, view, s).target.modelId == view.currentModel
    ensures SelectedReason(env, view, s) != HysteresisHold ==>
              SelectedItem(env, view, s) == ChoosePlacement(view, s.placeable).item
  {
    hide ChoosePlacement, ShouldHoldTier;
    PlacementIsNearFastest(view, s.placeable);
    var current := CurrentModelOnly(view, s.placeable);
    if current != [] {
      PlacementIsNearFastest(view, current);
    }
    PlacementReasonIsNotHold(view, s.placeable);
  }

  lemma PlacementReasonIsNotHold(view: SchedulingView, items: seq<Item>)
    requires items != []
    ensures ChoosePlacement(view, items).reason != HysteresisHold
  {
    hide IsLocal, FirstBest;
  }

  /** Success first: the selected bound is near the best of all policy targets, and above the floor unless none is. */
  lemma SelectedIsNearMostSuccessful(env: Environment, view: SchedulingView, targets: seq<TargetCandidate>)
    requires Schedule(env, view, targets).Ok?
    ensures var d, s := Schedule(env, view, targets).value, StagesOf(env, view, Eligible(view, targets));
            forall t :: t in s.policy.targets ==>
              && t.modelId in s.policy.estimates
              && d.successLcb >= LcbOf(env, s.policy, t)
                 - (if d.fallback then TINY else MaxReal(0.0, env.config.epsilonSuccess))
              && (if d.fallback then LcbOf(env, s.policy, t) < env.config.sMin else d.successLcb >= env.config.sMin)
  {
    hide StagesOf, LcbOf, Affordable, SelectedItem, SelectedReason, TraceAll;
    var eligible := Eligible(view, targets);
    var s := StagesOf(env, view, eligible);
    StagesReachPlacement(env, view, eligible);
    SelectedIsPlaceable(env, view, s);
    var own := PlaceableMembers(env, view, eligible, SelectedItem(env, view, s));
    AffordableIsGated(env, view, s, own);
    forall t | t in s.policy.targets
      ensures t.modelId in s.policy.estimates
      ensures LcbOf(env, s.policy, own) >= LcbOf(env, s.policy, t)
              - (if s.gate.fallback then TINY else MaxReal(0.0, env.config.epsilonSuccess))
      ensures if s.gate.fallback then LcbOf(env, s.policy, t) < env.config.sMin
              else LcbOf(env, s.policy, own) >= env.config.sMin
    {
      GateMeansNearBest(env, view, eligible, own, t);
    }
  }

  lemma AffordableIsGated(env: Environment, view: SchedulingView, s: Stages, t: TargetCandidate)
    requires Affordable(env, view, s, t)
    ensures t in s.policy.targets && t.modelId in s.gate.models && t.modelId in s.policy.estimates
    ensures view.costBudget.Some? ==> CostOf(env, view, s.policy, t) <= view.costBudget.value + TINY
  {
  }

  /** Then cost: within the relative tolerance of every affordable target, and within the budget. */
  lemma SelectedIsNearCheapest(env: Environment, view: SchedulingView, targets: seq<TargetCandidate>)
    requires Schedule(env, view, targets).Ok?
    ensures var d, s := Schedule(env, view, targets).value, StagesOf(env, view, Eligible(view, targets));
            && (view.costBudget.Some? ==> d.predictedCost <= view.costBudget.value + TINY)
            && forall t :: Affordable(env, view, s, t) ==>
                 d.predictedCost <= CostOf(env, view, s.policy, t) * (1.0 + MaxReal(0.0, env.config.epsilonCost)) + TINY
  {
    hide StagesOf, Affordable, CostOf, CostLimit, Eligible, Schedule;
    SelectedPassesCostGate(env, view, targets);
    var eligible := Eligible(view, targets);
    var s := StagesOf(env, view, eligible);
    forall t | Affordable(env, view, s, t)
      ensures t.modelId in s.policy.estimates
      ensures CostLimit(s.inBudget, env.config.epsilonCost)
              <= CostOf(env, view, s.policy, t) * (1.0 + MaxReal(0.0, env.config.epsilonCost)) + TINY
    {
      LimitIsNearAffordable(env, view, eligible, t);
    }
  }

  lemma SelectedPassesCostGate(env: Environment, view: SchedulingView, targets: seq<TargetCandidate>)
    requires Schedule(env, view, targets).Ok?
    ensures var d, s := Schedule(env, view, targets).value, StagesOf(env, view, Eligible(view, targets));
            && s.inBudget != [] && d.predictedCost <= CostLimit(s.inBudget, env.config.epsilonCost)
            && (view.costBudget.Some? ==> d.predictedCost <= view.costBudget.value + TINY)
  {
    hide StagesOf, LcbOf, Affordable, SelectedItem, SelectedReason, TraceAll, CostOf, CostLimit, Eligible, PredictedLatency;
    var eligible := Eligible(view, targets);
    var s := StagesOf(env, view, eligible);
    StagesReachPlacement(env, view, eligible);
    SelectedIsPlaceable(env, view, s);
    var own := PlaceableMembers(env, view, eligible, SelectedItem(env, view, s));
    AffordableIsGated(env, view, s, own);
  }

  /** The cost gate's limit is within the tolerance of every affordable target's cost. */
  lemma LimitIsNearAffordable(
      env: Environment, view: SchedulingView, eligible: seq<TargetCandidate>, t: TargetCandidate)
    requires Affordable(env, view, StagesOf(env, view, eligible), t)
    ensures var s := StagesOf(env, view, eligible);
            && s.inBudget != [] && t.modelId in s.policy.estimates
            && CostLimit(s.inBudget, env.config.epsilonCost)
               <= CostOf(env, view, s.policy, t) * (1.0 + MaxReal(0.0, env.config.epsilonCost)) + TINY
  {
    hide StagesOf, Affordable, CostOf, PricedItem, CostLimit;
    var s := StagesOf(env, view, eligible);
    AffordableIsGated(env, view, s, t);
    var item := PricedItem(env, view, s.policy, t);
    InBudgetMembers(env, view, eligible, item);
    PricedAsItself(env, view, s.policy, t);
    LimitIsNearMember(s.inBudget, env.config.epsilonCost, item);
  }

  lemma LimitIsNearMember(items: seq<Item>, epsilon: real, x: Item)
    requires x in items
    ensures CostLimit(items, epsilon) <= x.effectiveCost * (1.0 + MaxReal(0.0, epsilon)) + TINY
  {
    hide MinCost;
    var i :| 0 <= i < |items| && items[i] == x;
    var best, factor := MinCost(items), 1.0 + MaxReal(0.0, epsilon);
    assert best <= items[i].effectiveCost;
    ScaleKeepsOrder(factor, best, x.effectiveCost);
    assert CostLimit(items, epsilon) == factor * best + TINY && x.effectiveCost * factor == factor * x.effectiveCost;
  }

  lemma PricedAsItself(env: Environment, view: SchedulingView, p: Policy, t: TargetCandidate)
    requires t.modelId in p.estimates
    ensures PricedItem(env, view, p, t).effectiveCost == CostOf(env, view, p, t)
  {
  }

  /** Then latency and placement, among the current model's candidates when hysteresis holds it. */
  lemma SelectedIsNearFastest(env: Environment, view: SchedulingView, targets: seq<TargetCandidate>)
    returns (selected: TargetCandidate)
    requires Schedule(env, view, targets).Ok?
    ensures var d, s := Schedule(env, view, targets).value, StagesOf(env, view, Eligible(view, targets));
            && selected in targets && selected.Key() == d.selected && Serves(view, selected)
            && d.predictedLatencySeconds == PredictedLatency(view, selected)
            && (d.reason == HysteresisHold ==> d.selected.0 == view.currentModel)
            && forall x :: x in s.placeable && (d.reason == HysteresisHold ==> x.target.modelId == view.currentModel) ==>
                 if view.sessionTurn > 0 then
                   d.predictedLatencySeconds <= x.latencySeconds + MaxReal(0.0, view.migrationPenalty)
                 else x.target.loadBalanceScore <= selected.loadBalanceScore
  {
    hide StagesOf, LcbOf, Affordable, SelectedItem, SelectedReason, TraceAll, CostOf, Serves, PredictedLatency;
    var eligible := Eligible(view, targets);
    var s := StagesOf(env, view, eligible);
    StagesReachPlacement(env, view, eligible);
    SelectedIsPlaceable(env, view, s);
    var x := SelectedItem(env, view, s);
    var own := PlaceableMembers(env, view, eligible, x);
    selected := x.target;
    AffordableIsGated(env, view, s, selected);
    PolicyTargetsServe(env, view, targets, selected);
    PlacementIsNearFastest(view, s.placeable);
    var current := CurrentModelOnly(view, s.placeable);
    if current != [] {
      PlacementIsNearFastest(view, current);
    }
    forall y | y in s.placeable && !BetterCold(y, x) ensures y.target.loadBalanceScore <= selected.loadBalanceScore {
    }
  }

  lemma PolicyTargetsServe(env: Environment, view: SchedulingView, targets: seq<TargetCandidate>, t: TargetCandidate)
    requires t in StagesOf(env, view, Eligible(view, targets)).policy.targets
    ensures t in targets && Serves(view, t)
  {
    hide Serves, OverrideReasons, NeedsSafeMode, Estimates, Capable;
  }

  /** With distinct keys, every placed candidate is timed and priced as its own target. */
  lemma DistinctKeysPlaceThemselves(
      env: Environment, view: SchedulingView, targets: seq<TargetCandidate>, x: Item)
    requires forall a, b :: a in targets && b in targets && a.Key() == b.Key() ==> a == b
    requires var s := StagesOf(env, view, Eligible(view, targets)); s.inBudget != [] && x in s.placeable
    ensures var s := StagesOf(env, view, Eligible(view, targets));
            && x.target.modelId in s.policy.estimates
            && x.effectiveCost == CostOf(env, view, s.policy, x.target)
            && x.successLcb == LcbOf(env, s.policy, x.target)
            && x.tier == x.target.tier
  {
    hide StagesOf, LcbOf, Affordable, CostOf, Serves, PredictedLatency;
    var eligible := Eligible(view, targets);
    var s := StagesOf(env, view, eligible);
    var own := PlaceableMembers(env, view, eligible, x);
    AffordableIsGated(env, view, s, own);
    AffordableIsGated(env, view, s, x.target);
    PolicyTargetsServe(env, view, targets, own);
    PolicyTargetsServe(env, view, targets, x.target);
  }

  /** The target a budgeted item stands for. */
  lemma BudgetedTarget(env: Environment, view: SchedulingView, eligible: seq<TargetCandidate>, x: Item)
    returns (u: TargetCandidate)
    requires x in StagesOf(env, view, eligible).inBudget
    ensures var s := StagesOf(env, view, eligible);
            && Affordable(env, view, s, u) && u.modelId in s.policy.estimates && u in s.policy.targets
            && x.target == u && x.effectiveCost == CostOf(env, view, s.policy, u)
  {
    hide StagesOf, Affordable;
    var s := StagesOf(env, view, eligible);
    InBudgetMembers(env, view, eligible, x);
    u :| Affordable(env, view, s, u) && (AffordableIsGated(env, view, s, u); x == PricedItem(env, view, s.policy, u));
    AffordableIsGated(env, view, s, u);
    PricedAsItself(env, view, s.policy, u);
    PricedTarget(env, view, s.policy, u);
  }

  /** The cost gate keeps exactly what is within the limit, so near-cheapest targets pass it. */
  lemma NearCheapestPassesCostGate(
      env: Environment, view: SchedulingView, eligible: seq<TargetCandidate>, t: TargetCandidate)
    requires NearCheapest(env, view, StagesOf(env, view, eligible), t)
    ensures var s := StagesOf(env, view, eligible);
            && t.modelId in s.policy.estimates
            && PricedItem(env, view, s.policy, t) in s.inBudget
            && PricedItem(env, view, s.policy, t) in CostGate(s.inBudget, env.config.epsilonCost)
  {
    hide StagesOf, Affordable, CostOf, PricedItem, NearCheapest, CostLimit;
    var s := StagesOf(env, view, eligible);
    NearCheapestIsAffordable(env, view, s, t);
    AffordableIsGated(env, view, s, t);
    var item := PricedItem(env, view, s.policy, t);
    PricedAsItself(env, view, s.policy, t);
    InBudgetMembers(env, view, eligible, item);
    var i :| 0 <= i < |s.inBudget| && MinCost(s.inBudget) == s.inBudget[i].effectiveCost;
    var u := BudgetedTarget(env, view, eligible, s.inBudget[i]);
    NearCheapestAgainst(env, view, s, t, u);
  }

  lemma NearCheapestIsAffordable(env: Environment, view: SchedulingView, s: Stages, t: TargetCandidate)
    requires NearCheapest(env, view, s, t)
    ensures Affordable(env, view, s, t)
  {
  }

  lemma NearCheapestAgainst(
      env: Environment, view: SchedulingView, s: Stages, t: TargetCandidate, u: TargetCandidate)
    requires NearCheapest(env, view, s, t) && Affordable(env, view, s, u)
    requires t.modelId in s.policy.estimates && u.modelId in s.policy.estimates
    requires s.inBudget != [] && CostOf(env, view, s.policy, u) == MinCost(s.inBudget)
    ensures CostOf(env, view, s.policy, t) <= CostLimit(s.inBudget, env.config.epsilonCost)
  {
    hide Affordable, CostOf, MinCost;
  }

  /** With distinct keys, a budgeted item is the owner of its key. */
  lemma OwnerIsItself(
      env: Environment, view: SchedulingView, targets: seq<TargetCandidate>, t: TargetCandidate)
    requires forall a, b :: a in targets && b in targets && a.Key() == b.Key() ==> a == b
    requires var s := StagesOf(env, view, Eligible(view, targets));
             t.modelId in s.policy.estimates && t in targets && PricedItem(env, view, s.policy, t) in s.inBudget
    ensures var s := StagesOf(env, view, Eligible(view, targets));
            var owner := LastWithKey(s.inBudget, t.Key());
            owner.Some? && owner.value.target == t
  {
    hide StagesOf, Affordable, CostOf, Eligible, Priced;
    var eligible := Eligible(view, targets);
    var s := StagesOf(env, view, eligible);
    var item := PricedItem(env, view, s.policy, t);
    PricedTarget(env, view, s.policy, t);
    var owner := LastWithKey(s.inBudget, t.Key());
    var k :| 0 <= k < |s.inBudget| && s.inBudget[k] == item;
    assert owner.Some?;
    var u := BudgetedTarget(env, view, eligible, owner.value);
    PolicyTargetsServe(env, view, targets, u);
  }

  lemma PricedTarget(env: Environment, view: SchedulingView, p: Policy, t: TargetCandidate)
    requires t.modelId in p.estimates
    ensures PricedItem(env, view, p, t).target == t
  {
  }

  /** A target that can be afforded at a near-minimal cost is placed, when keys are distinct. */
  lemma NearCheapestIsPlaced(
      env: Environment, view: SchedulingView, targets: seq<TargetCandidate>, t: TargetCandidate)
    returns (x: Item)
    requires forall a, b :: a in targets && b in targets && a.Key() == b.Key() ==> a == b
    requires NearCheapest(env, view, StagesOf(env, view, Eligible(view, targets)), t)
    ensures x in StagesOf(env, view, Eligible(view, targets)).placeable
    ensures x.target == t && x.latencySeconds == PredictedLatency(view, t)
  {
    hide PolicyOf, EvaluateAll, GateOf, KeepInBudget, PriceAll, PricedItem, Affordable, Eligible, CostGate,
         LastWithKey, PredictedLatency;
    var eligible := Eligible(view, targets);
    var s := StagesOf(env, view, eligible);
    NearCheapestPassesCostGate(env, view, eligible, t);
    AffordableIsGated(env, view, s, t);
    PolicyTargetsServe(env, view, targets, t);
    OwnerIsItself(env, view, targets, t);
    PricedTarget(env, view, s.policy, t);
    var item, cheap := PricedItem(env, view, s.policy, t), CostGate(s.inBudget, env.config.epsilonCost);
    var j :| 0 <= j < |cheap| && cheap[j] == item;
    x := s.placeable[j];
    assert x == Timed(view, s.inBudget, item);
  }

  /** Affordable, and within the relative cost tolerance of everything affordable. */
  ghost predicate NearCheapest(env: Environment, view: SchedulingView, s: Stages, t: TargetCandidate) {
    && Affordable(env, view, s, t)
    && forall u :: Affordable(env, view, s, u) ==>
         CostOf(env, view, s.policy, t)
         <= CostOf(env, view, s.policy, u) * (1.0 + MaxReal(0.0, env.config.epsilonCost)) + TINY
  }

  /** The whole lexicographic claim for a warm session: no near-cheapest target is faster by more than the penalty. */
  lemma SelectedBeatsEveryNearCheapest(
      env: Environment, view: SchedulingView, targets: seq<TargetCandidate>, t: TargetCandidate)
    requires forall a, b :: a in targets && b in targets && a.Key() == b.Key() ==> a == b
    requires Schedule(env, view, targets).Ok? && view.sessionTurn > 0
    requires Schedule(env, view, targets).value.reason != HysteresisHold
    requires NearCheapest(env, view, StagesOf(env, view, Eligible(view, targets)), t)
    ensures Schedule(env, view, targets).value.predictedLatencySeconds
            <= PredictedLatency(view, t) + MaxReal(0.0, view.migrationPenalty)
  {
    hide StagesOf, Schedule, NearCheapest, PredictedLatency, Serves;
    var selected := SelectedIsNearFastest(env, view, targets);
    var x := NearCheapestIsPlaced(env, view, targets, t);
  }

  // ---- The trace ----

  lemma {:induction false} RejectionLookup(view: SchedulingView, targets: seq<TargetCandidate>, key: TargetKey)
    ensures var r := LastRejection(Rejections(view, targets), key);
            && (r.None? ==> forall t :: t in targets && t.Key() == key ==> Serves(view, t))
            && (r.Some? ==> exists t :: t in targets && t.Key() == key && !Serves(view, t)
                                        && r.value == FilterRejection(key, FilterReasons(view, t)))
  {
    hide Serves, FilterReasons;
    if targets != [] {
      var front, last := targets[..|targets| - 1], targets[|targets| - 1];
      RejectionLookup(view, front, key);
      assert targets == front + [last];
      var earlier := Rejections(view, front);
      if Serves(view, last) {
        assert Rejections(view, targets) == earlier;
      } else {
        var all := Rejections(view, targets);
        assert all[..|all| - 1] == earlier;
      }
    }
  }

  /** With distinct keys, the trace says of every target, in order, what became of it and why. */
  lemma TraceExplainsEveryTarget(env: Environment, view: SchedulingView, targets: seq<TargetCandidate>, i: nat)
    requires forall a, b :: a in targets && b in targets && a.Key() == b.Key() ==> a == b
    requires i < |targets| && Schedule(env, view, targets).Ok?
    ensures var s, t := StagesOf(env, view, Eligible(view, targets)), targets[i];
            var trace := Schedule(env, view, targets).value.trace;
            && |trace| == |targets| && trace[i].key == t.Key() && (t in s.policy.targets ==> t.modelId in s.policy.estimates)
            && trace[i].verdict ==
                 if !Serves(view, t) then FilteredOut(FilterReasons(view, t))
                 else if t in s.policy.targets then Evaluated(LcbOf(env, s.policy, t), t.modelId in s.gate.models)
                 else CriticalOverrideCapableOnly
  {
    hide PolicyOf, GateOf, KeepInBudget, TimeAll, PriceAll, CostGate, Serves, FilterReasons, Eligible,
         SelectedItem, SelectedReason, Rejections, LastRejection, SuccessEstimate.Lcb;
    var s, t := StagesOf(env, view, Eligible(view, targets)), targets[i];
    RejectionLookup(view, targets, t.Key());
    var own := LastWithKey(s.evaluated, t.Key());
    if own.Some? {
      var u := EvaluatedTarget(env.config, s.policy, own.value);
      PolicyTargetsServe(env, view, targets, u);
    } else if t in s.policy.targets {
      TargetIsEvaluated(env.config, s.policy, t);
    }
  }

  /** The first target of its model. */
  ghost predicate IsFirst(targets: seq<TargetCandidate>, i: nat) {
    i < |targets| && forall j :: 0 <= j < i ==> targets[j].modelId != targets[i].modelId
  }

  lemma {:induction false} FirstIsEstimated(env: Environment, view: SchedulingView, targets: seq<TargetCandidate>, i: nat)
    requires IsFirst(targets, i)
    ensures Estimates(env, view, targets)[targets[i].modelId] == EstimateOrUnknown(env, view, targets[i])
  {
    hide EstimateOrUnknown;
    var front := targets[..|targets| - 1];
    if i < |front| {
      FirstIsEstimated(env, view, front, i);
    } else if targets[i].modelId in Estimates(env, view, front) {
      var j := OnlyTheirModels(env, view, front, targets[i].modelId);
    }
  }

  lemma {:induction false} OnlyTheirModels(
      env: Environment, view: SchedulingView, targets: seq<TargetCandidate>, model: string)
    returns (i: nat)
    requires model in Estimates(env, view, targets)
    ensures i < |targets| && targets[i].modelId == model
  {
    hide EstimateOrUnknown;
    var front := targets[..|targets| - 1];
    if model in Estimates(env, view, front) {
      i := OnlyTheirModels(env, view, front, model);
    } else {
      i := |targets| - 1;
    }
  }

  // ---- The critical override, end to end ----

  /** The tiers an override insists on, by name or by declared rank. */
  ghost predicate OfHighTier(t: TargetCandidate) {
    var tier := Lower(t.tier);
    tier == "capable" || tier == "frontier" || tier == "strong" || tier == "premium" || t.capabilityRank >= 2
  }

  ghost predicate HighTierServes(view: SchedulingView, targets: seq<TargetCandidate>) {
    exists t :: t in targets && Serves(view, t) && OfHighTier(t)
  }

  lemma CapableMeansHighTier(t: TargetCandidate)
    ensures Capable(t) <==> OfHighTier(t)
  {
  }

  /** An override considers the high tiers among the serving targets, if there are any, and nothing else changes it. */
  lemma PolicyTargetsExactly(env: Environment, view: SchedulingView, targets: seq<TargetCandidate>, t: TargetCandidate)
    ensures var p := PolicyOf(env, view, Eligible(view, targets));
            t in p.targets <==>
            t in targets && Serves(view, t) && (p.overrides == [] || !HighTierServes(view, targets) || OfHighTier(t))
  {
    hide Serves, OverrideReasons, NeedsSafeMode, Estimates, Capable, OfHighTier;
    var eligible := Eligible(view, targets);
    forall u: TargetCandidate ensures Capable(u) <==> OfHighTier(u) {
      CapableMeansHighTier(u);
    }
    var capable := Filter(eligible, (u: TargetCandidate) => Capable(u));
    if u :| u in targets && Serves(view, u) && OfHighTier(u) {
      assert u in eligible && u in capable;
    }
    if capable != [] {
      assert capable[0] in capable;
    }
  }

  /** An overridden decision selects a high tier whenever one may serve. */
  lemma OverrideSelectsHighTier(env: Environment, view: SchedulingView, targets: seq<TargetCandidate>)
    returns (selected: TargetCandidate)
    requires Schedule(env, view, targets).Ok?
    ensures var d := Schedule(env, view, targets).value;
            && selected in targets && selected.Key() == d.selected
            && (d.overrideReasons != [] && HighTierServes(view, targets) ==> OfHighTier(selected))
  {
    hide StagesOf, LcbOf, Affordable, SelectedItem, SelectedReason, TraceAll, CostOf, Serves, PredictedLatency, OfHighTier,
         HighTierServes;
    var eligible := Eligible(view, targets);
    var s := StagesOf(env, view, eligible);
    StagesReachPlacement(env, view, eligible);
    SelectedIsPlaceable(env, view, s);
    var x := SelectedItem(env, view, s);
    var own := PlaceableMembers(env, view, eligible, x);
    selected := x.target;
    AffordableIsGated(env, view, s, selected);
    StagesKeepPolicy(env, view, eligible);
    PolicyTargetsExactly(env, view, targets, selected);
  }

  lemma StagesKeepPolicy(env: Environment, view: SchedulingView, eligible: seq<TargetCandidate>)
    ensures StagesOf(env, view, eligible).policy == PolicyOf(env, view, eligible)
  {
    hide PolicyOf, EvaluateAll, GateOf, PriceAll, KeepInBudget, TimeAll, CostGate;
  }

  lemma DecisionNamesOverrides(env: Environment, view: SchedulingView, targets: seq<TargetCandidate>)
    requires Schedule(env, view, targets).Ok?
    ensures Schedule(env, view, targets).value.overrideReasons
            == PolicyOf(env, view, Eligible(view, targets)).overrides
  {
    hide PolicyOf, EvaluateAll, GateOf, PriceAll, KeepInBudget, TimeAll, CostGate, TraceAll, SelectedItem, SelectedReason,
         Eligible, Rejections;
  }

  /** With distinct keys: an override passes over exactly the lower tiers that might serve, unless no high tier does, and
      all other serving targets are evaluated. */
  lemma OverridePassesOverLowTiers(env: Environment, view: SchedulingView, targets: seq<TargetCandidate>, i: nat)
    requires forall a, b :: a in targets && b in targets && a.Key() == b.Key() ==> a == b
    requires i < |targets| && Schedule(env, view, targets).Ok?
    ensures var d, t := Schedule(env, view, targets).value, targets[i];
            && |d.trace| == |targets|
            && (d.trace[i].verdict == CriticalOverrideCapableOnly <==>
                  d.overrideReasons != [] && Serves(view, t) && HighTierServes(view, targets) && !OfHighTier(t))
            && (d.trace[i].verdict.Evaluated? <==>
                  Serves(view, t) && (d.overrideReasons == [] || !HighTierServes(view, targets) || OfHighTier(t)))
  {
    hide Schedule, StagesOf, Serves, OfHighTier, HighTierServes, PolicyOf, LcbOf, FilterReasons;
    TraceExplainsEveryTarget(env, view, targets, i);
    DecisionNamesOverrides(env, view, targets);
    StagesKeepPolicy(env, view, Eligible(view, targets));
    PolicyTargetsExactly(env, view, targets, targets[i]);
  }

  /** The predictor forces the override exactly if nothing else does and, for the first serving target of some model, it
      fails, is too uncertain, or reports an input unlike what it knows. */
  ghost predicate Doubted(env: Environment, view: SchedulingView, t: TargetCandidate) {
    match env.predict(view, t)
    case Err(_) => true
    case Ok(e) =>
      || (e.uncertainty >= env.config.predictorUncertaintyOverride && e.uncertainty >= 0.0)
      || exists i :: 0 <= i < |e.notes|
                     && ("predictor_error:" <= e.notes[i] || Mentions(e.notes[i], "out_of_distribution"))
  }

  lemma DoubtedMeansUnsafe(env: Environment, view: SchedulingView, t: TargetCandidate)
    ensures Doubted(env, view, t) <==> Unsafe(env.config, EstimateOrUnknown(env, view, t))
  {
    hide Mentions;
    if env.predict(view, t).Err? {
      var note := "predictor_error:" + env.predict(view, t).error;
      assert "predictor_error:" <= note;
      assert EstimateOrUnknown(env, view, t).notes == [note];
      assert [note][0] == note;
    }
  }

  lemma SafeModeExactlyWhen(env: Environment, view: SchedulingView, targets: seq<TargetCandidate>)
    requires Schedule(env, view, targets).Ok?
    ensures var d, eligible := Schedule(env, view, targets).value, Eligible(view, targets);
            && (forall r :: Triggered(view, env.config, r) ==> r in d.overrideReasons)
            && (forall r :: r in d.overrideReasons && r != PredictorUncertaintyOrOod ==> Triggered(view, env.config, r))
            && (PredictorUncertaintyOrOod in d.overrideReasons <==>
                  && (forall r :: !Triggered(view, env.config, r))
                  && exists i: nat :: IsFirst(eligible, i) && Doubted(env, view, eligible[i]))
  {
    hide Schedule, PolicyOf, Triggered, Doubted, IsFirst;
    DecisionNamesOverrides(env, view, targets);
    OverridesExactly(env, view, Eligible(view, targets));
  }

  lemma OverridesExactly(env: Environment, view: SchedulingView, eligible: seq<TargetCandidate>)
    ensures var overrides := PolicyOf(env, view, eligible).overrides;
            && (forall r :: Triggered(view, env.config, r) ==> r in overrides)
            && (forall r :: r in overrides && r != PredictorUncertaintyOrOod ==> Triggered(view, env.config, r))
            && (PredictorUncertaintyOrOod in overrides <==>
                  && (forall r :: !Triggered(view, env.config, r))
                  && exists i: nat :: IsFirst(eligible, i) && Doubted(env, view, eligible[i]))
  {
    hide OverrideReasons, CapableOnly, Estimates, Doubted, IsFirst, NeedsSafeMode, Triggered;
    OverrideReasonsAreTriggers(view, env.config);
    SafeModeMeansDoubt(env, view, eligible);
    var reasons := OverrideReasons(view, env.config);
    OnlyTriggersOverride(view, env.config);
    if reasons != [] {
      assert reasons[0] in reasons;
    }
  }

  lemma OnlyTriggersOverride(view: SchedulingView, config: SchedulerConfig)
    ensures forall r :: r in OverrideReasons(view, config) <==> Triggered(view, config, r)
    ensures !Triggered(view, config, PredictorUncertaintyOrOod)
  {
    hide OverrideReasons;
    OverrideReasonsAreTriggers(view, config);
    RanksEnd(view, config);
  }

  lemma SafeModeMeansDoubt(env: Environment, view: SchedulingView, targets: seq<TargetCandidate>)
    ensures NeedsSafeMode(env.config, Estimates(env, view, targets)) <==>
            exists i: nat :: IsFirst(targets, i) && Doubted(env, view, targets[i])
  {
    hide Estimates, Unsafe, Doubted, EstimateOrUnknown;
    var estimates := Estimates(env, view, targets);
    if m :| m in estimates && Unsafe(env.config, estimates[m]) {
      var i := OnlyTheirModels(env, view, targets, m);
      i := FirstOfModel(targets, i);
      FirstIsEstimated(env, view, targets, i);
      DoubtedMeansUnsafe(env, view, targets[i]);
    }
    if i: nat :| IsFirst(targets, i) && Doubted(env, view, targets[i]) {
      FirstIsEstimated(env, view, targets, i);
      DoubtedMeansUnsafe(env, view, targets[i]);
      assert targets[i].modelId in estimates;
    }
  }

  lemma {:induction false} FirstOfModel(targets: seq<TargetCandidate>, k: nat) returns (i: nat)
    requires k < |targets|
    ensures IsFirst(targets, i) && i <= k && targets[i].modelId == targets[k].modelId
    decreases k
  {
    if j :| 0 <= j < k && targets[j].modelId == targets[k].modelId {
      i := FirstOfModel(targets, j);
    } else {
      i := k;
    }
  }

  // ---- The scheduler as it runs ----

  method EstimateByModel(env: Environment, view: SchedulingView, targets: seq<TargetCandidate>)
    returns (estimates: map<string, SuccessEstimate>)
    ensures estimates == Estimates(env, view, targets)
    ensures forall m :: m in estimates <==> exists i :: 0 <= i < |targets| && targets[i].modelId == m
    ensures forall i: nat :: IsFirst(targets, i) ==>
              && targets[i].modelId in estimates
              && estimates[targets[i].modelId] ==
                   match env.predict(view, targets[i])
                   case Ok(estimate) => estimate
                   case Err(name) => SuccessEstimate(0.0, 1.0, 0.0, ["predictor_error:" + name])
  {
    estimates := map[];
    for i := 0 to |targets|
      invariant estimates == Estimates(env, view, targets[..i])
    {
      assert targets[..i + 1][..i] == targets[..i];
      if targets[i].modelId !in estimates {
        estimates := estimates[targets[i].modelId := EstimateOrUnknown(env, view, targets[i])];
      }
    }
    assert targets[..|targets|] == targets;
    forall i: nat | IsFirst(targets, i) ensures estimates[targets[i].modelId] == EstimateOrUnknown(env, view, targets[i]) {
      FirstIsEstimated(env, view, targets, i);
    }
    forall m | m in estimates ensures exists i :: 0 <= i < |targets| && targets[i].modelId == m {
      var i := OnlyTheirModels(env, view, targets, m);
    }
  }


  method ChoosePolicy(env: Environment, view: SchedulingView, eligible: seq<TargetCandidate>) returns (p: Policy)
    ensures p == PolicyOf(env, view, eligible)
  {
    hide OverrideReasons, NeedsSafeMode, CapableOnly;
    var overrides := CriticalOverrideReasons(view, env.config);
    var policyTargets := if overrides != [] then CapableOnly(eligible) else eligible;
    var estimates := EstimateByModel(env, view, policyTargets);
    if overrides == [] && NeedsSafeMode(env.config, estimates) {
      overrides := [PredictorUncertaintyOrOod];
      policyTargets := CapableOnly(eligible);
      estimates := EstimateByModel(env, view, policyTargets);
    }
    p := Policy(policyTargets, estimates, overrides);
  }

  method Evaluate(config: SchedulerConfig, p: Policy) returns (evaluated: seq<Item>)
    requires forall i :: 0 <= i < |p.targets| ==> p.targets[i].modelId in p.estimates
    ensures evaluated == EvaluateAll(config, p)
  {
    hide NewItem;
    evaluated := [];
    for i := 0 to |p.targets|
      invariant evaluated == EvaluateAll(config, p)[..i]
    {
      evaluated := evaluated + [NewItem(config, p.targets[i], p.estimates[p.targets[i].modelId])];
    }
  }

  method Price(env: Environment, view: SchedulingView, passed: seq<Item>) returns (items: seq<Item>)
    ensures items == PriceAll(env, view, passed)
  {
    hide Priced;
    items := passed;
    for i := 0 to |passed|
      invariant |items| == |passed|
      invariant forall j :: 0 <= j < |passed| ==> items[j] == if j < i then Priced(env, view, passed[j]) else passed[j]
    {
      items := items[i := Priced(env, view, items[i])];
    }
  }

  method IndexByKey(items: seq<Item>) returns (byKey: map<TargetKey, Item>)
    ensures forall key :: LastWithKey(items, key) == if key in byKey then Some(byKey[key]) else None
  {
    byKey := map[];
    for i := 0 to |items|
      invariant forall key :: LastWithKey(items[..i], key) == if key in byKey then Some(byKey[key]) else None
    {
      assert items[..i + 1][..i] == items[..i];
      byKey := byKey[items[i].target.Key() := items[i]];
    }
    assert items[..|items|] == items;
  }

  method TimeItems(view: SchedulingView, inBudget: seq<Item>, cheap: seq<Item>) returns (items: seq<Item>)
    ensures items == TimeAll(view, inBudget, cheap)
  {
    hide PredictedLatency, LastWithKey;
    var byKey := IndexByKey(inBudget);
    items := cheap;
    for i := 0 to |cheap|
      invariant |items| == |cheap|
      invariant forall j :: 0 <= j < |cheap| ==> items[j] == if j < i then Timed(view, inBudget, cheap[j]) else cheap[j]
    {
      var key := items[i].target.Key();
      if key in byKey {
        var owner := byKey[key].target;
        items := items[i := items[i].(target := owner, latencySeconds := PredictedLatency(view, owner))];
      }
      assert items[i] == Timed(view, inBudget, cheap[i]);
    }
  }

  method Trace(s: Stages, rejections: seq<FilterRejection>, targets: seq<TargetCandidate>)
    returns (trace: seq<TraceEntry>)
    ensures trace == TraceAll(s, rejections, targets)
  {
    hide TraceOf;
    trace := [];
    for i := 0 to |targets|
      invariant trace == TraceAll(s, rejections, targets)[..i]
    {
      trace := trace + [TraceOf(s, rejections, targets[i])];
    }
  }

  method RunStages(env: Environment, view: SchedulingView, eligible: seq<TargetCandidate>) returns (s: Stages)
    ensures s == StagesOf(env, view, eligible)
  {
    hide PolicyOf, EvaluateAll, GateOf, PriceAll, TimeAll, CostGate, KeepInBudget;
    var policy := ChoosePolicy(env, view, eligible);
    var evaluated := Evaluate(env.config, policy);
    var gate := SuccessGate(evaluated, env.config.sMin, env.config.epsilonSuccess);
    var passed := Filter(evaluated, (x: Item) => x.target.modelId in gate.models);
    var successful := Price(env, view, passed);
    var inBudget := KeepInBudget(view, successful);
    var placeable := TimeItems(view, inBudget, CostGate(inBudget, env.config.epsilonCost));
    s := Stages(policy, evaluated, gate, successful, inBudget, placeable);
  }

  method ScheduleRequest(env: Environment, view: SchedulingView, targets: seq<TargetCandidate>)
    returns (r: Result<RoutingDecision, NoFeasibleTarget>)
    ensures r == Schedule(env, view, targets)
  {
    hide StagesOf, Eligible, Rejections, KeysOf, ChoosePlacement, ReasonFor, TraceAll, ShouldHoldTier;
    if targets == [] {
      return Err(NoTargets);
    }
    var eligible, rejected := HardFilter(view, targets);
    if eligible == [] {
      return Err(AllFiltered(rejected));
    }
    var s := RunStages(env, view, eligible);
    if s.successful == [] {
      return Err(NoUsableCandidate);
    }
    if s.inBudget == [] {
      return Err(AllOverBudget(KeysOf(s.successful)));
    }
    StagesReachPlacement(env, view, eligible);
    var placed := ChoosePlacement(view, s.placeable);
    var selected, reason := placed.item, ReasonFor(s, placed.reason);
    if s.policy.overrides == [] && ShouldHoldTier(view, env.config, selected, s.placeable) {
      var current := CurrentModelOnly(view, s.placeable);
      if current != [] {
        selected, reason := ChoosePlacement(view, current).item, HysteresisHold;
      }
    }
    var trace := Trace(s, rejected, targets);
    r := Ok(RoutingDecision(selected.target.Key(), selected.successLcb, selected.effectiveCost,
                            selected.latencySeconds, reason, trace, s.policy.overrides, s.gate.fallback));
  }
}
