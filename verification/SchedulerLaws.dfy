// What the scheduler's figures, gates and choices mean, each in terms of its inputs.

module SchedulerLaws {
  import opened Arithmetic
  import opened Basics
  import opened SchedulerTypes
  import opened Gates
  import opened Scheduler

  // ---- Figures ----

  /** A price or a duration counts from zero upwards. */
  ghost predicate Counted(r: real, given: real) {
    r >= 0.0 && r >= given && (r == 0.0 || r == given)
  }

  /** A charge for so many tokens: nothing for a price below zero, and in proportion to the tokens otherwise. */
  ghost predicate ChargedFor(r: real, tokens: int, price: real) {
    (price <= 0.0 ==> r == 0.0) && (price >= 0.0 ==> r == tokens as real * price)
  }

  /** The service cost is a bill of six items: each token read, written, fetched or recomputed is charged once. */
  lemma ServiceCostIsBill(view: SchedulingView, t: TargetCandidate, kv: KvBreakdown)
    returns (flat: real, read: real, written: real, fetched: real, recomputed: real, overhead: real)
    requires IsGreedySplit(view, t, kv)
    ensures ServiceCost(view, t) == flat + read + written + fetched + recomputed + overhead
    ensures Counted(flat, t.inferenceCost) && Counted(overhead, t.routingOverheadCost)
    ensures ChargedFor(read, MaxInt(0, view.promptTokens), t.inputCostPerToken)
    ensures ChargedFor(written, MaxInt(0, view.predictedOutputTokens), t.outputCostPerToken)
    ensures ChargedFor(fetched, kv.remote, t.kvFetchCostPerToken)
    ensures ChargedFor(recomputed, kv.miss, t.kvRecomputeCostPerToken)
  {
    hide KvSplit, Charge, ChargedFor, IsGreedySplit;
    SplitIsGreedy(view, t, kv);
    flat, overhead := MaxReal(0.0, t.inferenceCost), MaxReal(0.0, t.routingOverheadCost);
    read := ChargeIsProportional(MaxInt(0, view.promptTokens), t.inputCostPerToken);
    written := ChargeIsProportional(MaxInt(0, view.predictedOutputTokens), t.outputCostPerToken);
    fetched := ChargeIsProportional(kv.remote, t.kvFetchCostPerToken);
    recomputed := ChargeIsProportional(kv.miss, t.kvRecomputeCostPerToken);
  }

  lemma ChargeIsProportional(tokens: int, price: real) returns (r: real)
    ensures r == Charge(tokens, price) && ChargedFor(r, tokens, price)
  {
    r := Charge(tokens, price);
    NothingIsCharged(tokens, price);
  }

  /** The latency is the wait, the moving and recomputing of KV, and the work of both phases at their rates. */
  lemma LatencyIsWorkAtRates(view: SchedulingView, t: TargetCandidate, kv: KvBreakdown)
    returns (queued: real, fetching: real, recomputing: real, prefilling: real, decoding: real)
    requires IsGreedySplit(view, t, kv)
    ensures PredictedLatency(view, t) == queued + fetching + recomputing + prefilling + decoding
    ensures Counted(queued, t.queueLatencySeconds)
    ensures ChargedFor(fetching, kv.remote, t.kvFetchLatencyPerToken)
    ensures ChargedFor(recomputing, kv.miss, t.kvRecomputeLatencyPerToken)
    ensures prefilling * MaxReal(0.000000001, t.prefillTokensPerSecond) == kv.miss as real
    ensures decoding * MaxReal(0.000000001, t.decodeTokensPerSecond) == MaxInt(0, view.predictedOutputTokens) as real
  {
    hide KvSplit, Charge, ChargedFor, Duration, IsGreedySplit;
    SplitIsGreedy(view, t, kv);
    queued := MaxReal(0.0, t.queueLatencySeconds);
    fetching := ChargeIsProportional(kv.remote, t.kvFetchLatencyPerToken);
    recomputing := ChargeIsProportional(kv.miss, t.kvRecomputeLatencyPerToken);
    prefilling := DurationIsWork(kv.miss, t.prefillTokensPerSecond);
    decoding := DurationIsWork(MaxInt(0, view.predictedOutputTokens), t.decodeTokensPerSecond);
  }

  lemma DurationIsWork(tokens: int, perSecond: real) returns (r: real)
    ensures r == Duration(tokens, perSecond) && r * MaxReal(0.000000001, perSecond) == tokens as real
  {
    r := Duration(tokens, perSecond);
  }

  /** A retry is paid in proportion to the chance of failing: not at all for a sure success, in full for a sure failure. */
  lemma RetryIsProportional(t: TargetCandidate, e: SuccessEstimate)
    ensures e.predictedSuccess >= 1.0 || t.fallbackPathCost <= 0.0 ==> ExpectedRetry(t, e) == 0.0
    ensures e.predictedSuccess <= 1.0 && t.fallbackPathCost >= 0.0 ==>
              ExpectedRetry(t, e) + e.predictedSuccess * t.fallbackPathCost == t.fallbackPathCost
  {
    if e.predictedSuccess <= 1.0 && t.fallbackPathCost >= 0.0 {
      assert (1.0 - e.predictedSuccess) * t.fallbackPathCost
             == t.fallbackPathCost - e.predictedSuccess * t.fallbackPathCost;
    }
  }

  /** The credit for kept KV comes off the bill and the retry, and stops at nothing left to pay. */
  lemma CreditComesOff(env: Environment, view: SchedulingView, t: TargetCandidate, e: SuccessEstimate, kv: KvBreakdown)
    returns (credit: real)
    requires IsGreedySplit(view, t, kv)
    ensures Counted(credit, env.futureKvValue(view, t, kv.local, kv.remote))
    ensures var due := ServiceCost(view, t) + ExpectedRetry(t, e) - env.config.lambdaFuture * credit;
            Counted(EffectiveCost(env, view, t, e), due)
  {
    hide ServiceCost, ExpectedRetry, KvSplit, IsGreedySplit;
    SplitIsGreedy(view, t, kv);
    credit := FutureKvValue(env, view, t);
  }

  /** The lower bound is the number between 0 and 1 nearest to the prediction less `beta` times its uncertainty. */
  lemma BoundIsNearest(e: SuccessEstimate, beta: real, z: real)
    requires 0.0 <= z <= 1.0
    ensures var discounted := e.predictedSuccess - beta * e.uncertainty;
            AbsReal(e.Lcb(beta) - discounted) <= AbsReal(z - discounted) && 0.0 <= e.Lcb(beta) <= 1.0
  {
  }

  // ---- Words ----

  lemma MentionsMeansContains(note: string, word: string)
    ensures Mentions(note, word) <==> exists before, after :: note == before + word + after
  {
    if Mentions(note, word) {
      var i :| 0 <= i <= |note| && word <= note[i..];
      assert note == note[..i] + word + note[i + |word|..];
    }
    if before, after :| note == before + word + after {
      assert note[|before|..] == word + after;
    }
  }

  /** Tier names are compared in any case: two names are the same exactly if they differ in case alone. */
  lemma LowerIgnoresCase(a: string, b: string)
    ensures Lower(a) == Lower(b) <==>
            && |a| == |b|
            && forall i :: 0 <= i < |a| ==>
                 || a[i] == b[i]
                 || ('A' <= a[i] <= 'Z' && b[i] as int == a[i] as int + 32)
                 || ('A' <= b[i] <= 'Z' && a[i] as int == b[i] as int + 32)
    ensures (forall i :: 0 <= i < |a| ==> !('A' <= a[i] <= 'Z')) ==> Lower(a) == a
  {
    if Lower(a) == Lower(b) {
      assert |a| == |Lower(a)| == |Lower(b)| == |b|;
      forall i | 0 <= i < |a|
        ensures || a[i] == b[i]
                || ('A' <= a[i] <= 'Z' && b[i] as int == a[i] as int + 32)
                || ('A' <= b[i] <= 'Z' && a[i] as int == b[i] as int + 32)
      {
        assert Lower(a)[i] == Lower(b)[i];
      }
    }
  }

  // ---- Why a target may not serve ----

  ghost predicate SpeaksAgainst(view: SchedulingView, t: TargetCandidate, reason: FilterReason) {
    match reason
    case EndpointUnavailable => !t.available
    case EndpointUnhealthy => !t.healthy
    case Incompatible => !t.compatible
    case ContextWindowExceeded =>
      t.contextWindowTokens < MaxInt(0, view.promptTokens) + MaxInt(0, view.predictedOutputTokens)
    case MissingCapabilities(missing) => missing != {} && missing == view.requiredCapabilities - t.capabilities
    case ModelNotAllowed => view.allowedModels != {} && t.modelId !in view.allowedModels
    case RegionNotAllowed => view.allowedRegions != {} && t.region !in view.allowedRegions
    case CacheDomainNotAllowed => view.allowedCacheDomains != {} && t.cacheDomain !in view.allowedCacheDomains
    case SecurityDomainMismatch => view.securityDomain != "" && view.securityDomain != t.securityDomain
    case RemoteKvRequiredButForbidden => t.requiresRemoteKv && !view.remoteKvAllowed
    case HardCostBudgetExceeded => view.costBudget.Some? && view.costBudget.value < ServiceCost(view, t)
  }

  ghost function Place(reason: FilterReason): nat {
    match reason
    case EndpointUnavailable => 0
    case EndpointUnhealthy => 1
    case Incompatible => 2
    case ContextWindowExceeded => 3
    case MissingCapabilities(_) => 4
    case ModelNotAllowed => 5
    case RegionNotAllowed => 6
    case CacheDomainNotAllowed => 7
    case SecurityDomainMismatch => 8
    case RemoteKvRequiredButForbidden => 9
    case HardCostBudgetExceeded => 10
  }

  /** The reasons against the target among the first `n` kinds, one of each kind at most, in their order. */
  ghost predicate ListsReasons(reasons: seq<FilterReason>, view: SchedulingView, t: TargetCandidate, n: nat) {
    && (forall r :: r in reasons <==> SpeaksAgainst(view, t, r) && Place(r) < n)
    && forall i, j :: 0 <= i < j < |reasons| ==> Place(reasons[i]) < Place(reasons[j])
  }

  lemma ListsNextReason(
      reasons: seq<FilterReason>, view: SchedulingView, t: TargetCandidate, condition: bool, reason: FilterReason)
    requires ListsReasons(reasons, view, t, Place(reason)) && condition == SpeaksAgainst(view, t, reason)
    requires forall r :: Place(r) == Place(reason) && SpeaksAgainst(view, t, r) ==> r == reason
    ensures ListsReasons(AddWhen(reasons, condition, reason), view, t, Place(reason) + 1)
  {
    hide SpeaksAgainst, Place;
    assert forall i :: 0 <= i < |reasons| ==> reasons[i] in reasons;
  }

  lemma OneReasonOfItsKind(view: SchedulingView, t: TargetCandidate, reason: FilterReason)
    requires reason.MissingCapabilities? ==> reason.missing == view.requiredCapabilities - t.capabilities
    ensures forall r :: Place(r) == Place(reason) && SpeaksAgainst(view, t, r) ==> r == reason
  {
    hide ServiceCost;
  }

  lemma ListsOneReason(
      reasons: seq<FilterReason>, view: SchedulingView, t: TargetCandidate, condition: bool, reason: FilterReason)
    requires ListsReasons(reasons, view, t, Place(reason)) && condition == SpeaksAgainst(view, t, reason)
    requires reason.MissingCapabilities? ==> reason.missing == view.requiredCapabilities - t.capabilities
    ensures ListsReasons(AddWhen(reasons, condition, reason), view, t, Place(reason) + 1)
  {
    hide SpeaksAgainst, Place, ListsReasons, AddWhen;
    OneReasonOfItsKind(view, t, reason);
    ListsNextReason(reasons, view, t, condition, reason);
  }

  lemma CapabilityReasonsAreListed(view: SchedulingView, t: TargetCandidate)
    ensures ListsReasons(CapabilityReasons(view, t), view, t, 5)
  {
    hide ListsReasons, AddWhen, ServiceCost;
    assert ListsReasons([], view, t, 0) by {
      NoReasonListed(view, t);
    }
    var missing := view.requiredCapabilities - t.capabilities;
    var a := AddWhen([], !t.available, EndpointUnavailable);
    ListsOneReason([], view, t, !t.available, EndpointUnavailable);
    var b := AddWhen(a, !t.healthy, EndpointUnhealthy);
    ListsOneReason(a, view, t, !t.healthy, EndpointUnhealthy);
    var c := AddWhen(b, !t.compatible, Incompatible);
    ListsOneReason(b, view, t, !t.compatible, Incompatible);
    var d := AddWhen(c, RequiredTokens(view) > t.contextWindowTokens, ContextWindowExceeded);
    ListsOneReason(c, view, t, RequiredTokens(view) > t.contextWindowTokens, ContextWindowExceeded);
    ListsOneReason(d, view, t, missing != {}, MissingCapabilities(missing));
  }

  lemma NoReasonListed(view: SchedulingView, t: TargetCandidate)
    ensures ListsReasons([], view, t, 0)
  {
  }

  lemma PolicyPlaces()
    ensures Place(ModelNotAllowed) == 5 && Place(RegionNotAllowed) == 6 && Place(CacheDomainNotAllowed) == 7
    ensures Place(SecurityDomainMismatch) == 8 && Place(RemoteKvRequiredButForbidden) == 9
    ensures Place(HardCostBudgetExceeded) == 10
  {
  }

  lemma PolicyConditions(view: SchedulingView, t: TargetCandidate)
    ensures SpeaksAgainst(view, t, ModelNotAllowed) == (view.allowedModels != {} && t.modelId !in view.allowedModels)
    ensures SpeaksAgainst(view, t, RegionNotAllowed) == (view.allowedRegions != {} && t.region !in view.allowedRegions)
    ensures SpeaksAgainst(view, t, CacheDomainNotAllowed)
            == (view.allowedCacheDomains != {} && t.cacheDomain !in view.allowedCacheDomains)
    ensures SpeaksAgainst(view, t, SecurityDomainMismatch)
            == (view.securityDomain != "" && t.securityDomain != view.securityDomain)
    ensures SpeaksAgainst(view, t, RemoteKvRequiredButForbidden) == (t.requiresRemoteKv && !view.remoteKvAllowed)
    ensures SpeaksAgainst(view, t, HardCostBudgetExceeded)
            == (view.costBudget.Some? && ServiceCost(view, t) > view.costBudget.value)
  {
    hide ServiceCost;
  }

  lemma PolicyReasonsAreListed(view: SchedulingView, t: TargetCandidate, found: seq<FilterReason>)
    requires ListsReasons(found, view, t, 5)
    ensures ListsReasons(PolicyReasons(view, t, found), view, t, 11)
  {
    hide ListsReasons, AddWhen, ServiceCost, SpeaksAgainst, Place;
    PolicyPlaces();
    PolicyConditions(view, t);
    var models := view.allowedModels != {} && t.modelId !in view.allowedModels;
    var regions := view.allowedRegions != {} && t.region !in view.allowedRegions;
    var domains := view.allowedCacheDomains != {} && t.cacheDomain !in view.allowedCacheDomains;
    var security := view.securityDomain != "" && t.securityDomain != view.securityDomain;
    var remote := t.requiresRemoteKv && !view.remoteKvAllowed;
    var budget := view.costBudget.Some? && ServiceCost(view, t) > view.costBudget.value;
    var a := AddWhen(found, models, ModelNotAllowed);
    ListsOneReason(found, view, t, models, ModelNotAllowed);
    var b := AddWhen(a, regions, RegionNotAllowed);
    ListsOneReason(a, view, t, regions, RegionNotAllowed);
    var c := AddWhen(b, domains, CacheDomainNotAllowed);
    ListsOneReason(b, view, t, domains, CacheDomainNotAllowed);
    var d := AddWhen(c, security, SecurityDomainMismatch);
    ListsOneReason(c, view, t, security, SecurityDomainMismatch);
    var e := AddWhen(d, remote, RemoteKvRequiredButForbidden);
    ListsOneReason(d, view, t, remote, RemoteKvRequiredButForbidden);
    ListsOneReason(e, view, t, budget, HardCostBudgetExceeded);
  }

  lemma PlacesEnd(reason: FilterReason)
    ensures Place(reason) < 11
  {
  }

  /** A refused target is listed with exactly the reasons against it, each once, in a fixed order. */
  lemma ReasonsSpeakAgainst(view: SchedulingView, t: TargetCandidate)
    ensures var reasons := FilterReasons(view, t);
            && (forall r :: r in reasons <==> SpeaksAgainst(view, t, r))
            && (forall i, j :: 0 <= i < j < |reasons| ==> Place(reasons[i]) < Place(reasons[j]))
  {
    hide SpeaksAgainst, Place, CapabilityReasons, PolicyReasons;
    CapabilityReasonsAreListed(view, t);
    PolicyReasonsAreListed(view, t, CapabilityReasons(view, t));
    forall r: FilterReason ensures Place(r) < 11 {
      PlacesEnd(r);
    }
  }

  // ---- The success gate ----

  /** No policy target's bound is higher by more than the tolerance. */
  ghost predicate NearBest(env: Environment, p: Policy, t: TargetCandidate, tolerance: real) {
    && t in p.targets && t.modelId in p.estimates
    && forall u :: u in p.targets && u.modelId in p.estimates ==> LcbOf(env, p, t) >= LcbOf(env, p, u) - tolerance
  }

  ghost predicate Clears(env: Environment, p: Policy, t: TargetCandidate) {
    NearBest(env, p, t, MaxReal(0.0, env.config.epsilonSuccess)) && LcbOf(env, p, t) >= env.config.sMin
  }

  ghost predicate Estimated(p: Policy) {
    forall i :: 0 <= i < |p.targets| ==> p.targets[i].modelId in p.estimates
  }

  lemma EveryModelHasTarget(config: SchedulerConfig, p: Policy, m: string) returns (t: TargetCandidate)
    requires Estimated(p) && m in ByModel(EvaluateAll(config, p))
    ensures t in p.targets && t.modelId == m && m in p.estimates
  {
    var items := EvaluateAll(config, p);
    var i :| 0 <= i < |items| && items[i].target.modelId == m;
    t := p.targets[i];
  }

  /** A model's bound at the gate is that of each of its targets. */
  lemma GateBounds(env: Environment, p: Policy)
    requires Estimated(p)
    ensures var values := ByModel(EvaluateAll(env.config, p));
            && (forall u :: u in p.targets ==> u.modelId in values && u.modelId in p.estimates
                                               && values[u.modelId] == LcbOf(env, p, u))
            && (forall m :: m in values ==> exists u :: u in p.targets && u.modelId == m)
  {
    hide ByModel, LcbOf;
    var items := EvaluateAll(env.config, p);
    var values := ByModel(items);
    assert items[..|items|] == items && p.targets[..|items|] == p.targets;
    forall u | u in p.targets
      ensures u.modelId in values && u.modelId in p.estimates && values[u.modelId] == LcbOf(env, p, u)
    {
      ModelBoundIsShared(env.config, p, |items|, u);
      LcbIsBound(env, p, u);
    }
    forall m | m in values ensures exists u :: u in p.targets && u.modelId == m {
      var u := EveryModelHasTarget(env.config, p, m);
    }
  }

  lemma LcbIsBound(env: Environment, p: Policy, t: TargetCandidate)
    requires t in p.targets && Estimated(p)
    ensures t.modelId in p.estimates && LcbOf(env, p, t) == p.estimates[t.modelId].Lcb(env.config.beta)
  {
  }

  lemma NearBestMeansNearMaximum(
      env: Environment, p: Policy, values: map<string, real>, best: real, t: TargetCandidate, tolerance: real)
    requires IsMaximum(values, best) && t in p.targets
    requires forall u :: u in p.targets ==>
               u.modelId in values && u.modelId in p.estimates && values[u.modelId] == LcbOf(env, p, u)
    requires forall m :: m in values ==> exists u :: u in p.targets && u.modelId == m
    ensures NearBest(env, p, t, tolerance) <==> values[t.modelId] >= best - tolerance
  {
    hide LcbOf;
    var m :| m in values && values[m] == best;
    var top :| top in p.targets && top.modelId == m;
    if NearBest(env, p, t, tolerance) {
      assert LcbOf(env, p, t) >= LcbOf(env, p, top) - tolerance;
    }
  }

  /** A target passes the success gate exactly if it clears the floor and is near the best; if none does so, exactly the
      best pass, and the decision is a fallback. */
  lemma PassesGateExactlyWhen(env: Environment, view: SchedulingView, eligible: seq<TargetCandidate>, t: TargetCandidate)
    requires t in StagesOf(env, view, eligible).policy.targets
    ensures var s := StagesOf(env, view, eligible);
            && (s.gate.fallback <==> forall u :: !Clears(env, s.policy, u))
            && (t.modelId in s.gate.models <==>
                  if s.gate.fallback then NearBest(env, s.policy, t, TINY) else Clears(env, s.policy, t))
  {
    hide PolicyOf, LcbOf, EvaluateAll, ByModel, BestLcb, NearBest, IsMaximum, KeepInBudget, PriceAll, TimeAll, CostGate;
    var s := StagesOf(env, view, eligible);
    var p, items, tolerance := s.policy, s.evaluated, MaxReal(0.0, env.config.epsilonSuccess);
    var values, best := ByModel(items), BestLcb(items);
    assert items != [] by {
      TargetIsEvaluated(env.config, p, t);
    }
    BestLcbIsMaximum(items);
    GateBounds(env, p);
    forall u | u in p.targets
      ensures NearBest(env, p, u, tolerance) <==> values[u.modelId] >= best - tolerance
      ensures NearBest(env, p, u, TINY) <==> values[u.modelId] >= best - TINY
    {
      NearBestMeansNearMaximum(env, p, values, best, u, tolerance);
      NearBestMeansNearMaximum(env, p, values, best, u, TINY);
    }
    forall u ensures Clears(env, p, u) ==> u in p.targets {
      ClearsIsTarget(env, p, u);
    }
    var accepted := Accepted(values, best, env.config.sMin, env.config.epsilonSuccess);
    assert forall u :: u in p.targets ==> (Clears(env, p, u) <==> u.modelId in accepted);
    if m :| m in accepted {
      var u :| u in p.targets && u.modelId == m;
      assert Clears(env, p, u);
    }
  }

  lemma ClearsIsTarget(env: Environment, p: Policy, u: TargetCandidate)
    ensures Clears(env, p, u) ==> u in p.targets
  {
  }

  // ---- Placement ----

  /** Where the session already runs: on the replica or the endpoint it prefers, if it prefers one. */
  ghost predicate AtHome(view: SchedulingView, t: TargetCandidate) {
    || t.sessionLocal
    || (|view.preferredReplica| > 0 && view.preferredReplica == t.replicaId)
    || (|view.preferredEndpoint| > 0 && view.preferredEndpoint == t.endpointId)
  }

  /** The first of the fastest among the candidates at home, or among the others. */
  ghost predicate LeadsGroup(view: SchedulingView, items: seq<Item>, i: nat, home: bool) {
    && i < |items| && AtHome(view, items[i].target) == home
    && forall j :: 0 <= j < |items| && AtHome(view, items[j].target) == home ==>
         && items[i].latencySeconds <= items[j].latencySeconds
         && (j < i ==> items[i].latencySeconds < items[j].latencySeconds)
  }

  /** A warm session stays at home unless moving gains more than its penalty. */
  ghost predicate WarmChoice(view: SchedulingView, items: seq<Item>, i: nat) {
    var penalty := MaxReal(0.0, view.migrationPenalty);
    || (LeadsGroup(view, items, i, true)
        && forall j :: 0 <= j < |items| && !AtHome(view, items[j].target) ==>
             items[i].latencySeconds <= items[j].latencySeconds + penalty)
    || (LeadsGroup(view, items, i, false)
        && forall j :: 0 <= j < |items| && AtHome(view, items[j].target) ==>
             items[i].latencySeconds + penalty < items[j].latencySeconds)
  }

  /** The least loaded; among equals the fastest, then the one with most local KV, then the first by its ids. */
  ghost predicate ColdNotAfter(x: Item, y: Item) {
    && y.target.loadBalanceScore <= x.target.loadBalanceScore
    && (y.target.loadBalanceScore == x.target.loadBalanceScore ==>
          && x.latencySeconds <= y.latencySeconds
          && (x.latencySeconds == y.latencySeconds ==>
                && y.localKvTokens <= x.localKvTokens
                && (y.localKvTokens == x.localKvTokens ==>
                      && !StringLess(y.target.endpointId, x.target.endpointId)
                      && (y.target.endpointId == x.target.endpointId ==>
                            !StringLess(y.target.replicaId, x.target.replicaId)))))
  }

  ghost predicate ColdChoice(items: seq<Item>, i: nat) {
    && i < |items|
    && forall j :: 0 <= j < |items| ==> ColdNotAfter(items[i], items[j]) && (j < i ==> !ColdNotAfter(items[j], items[i]))
  }

  ghost predicate FastestOfAll(items: seq<Item>, i: nat) {
    && i < |items|
    && forall j :: 0 <= j < |items| ==>
         && items[i].latencySeconds <= items[j].latencySeconds
         && (j < i ==> items[i].latencySeconds < items[j].latencySeconds)
  }

  /** The candidate that placement picks, and what it says for it. */
  ghost predicate Picks(view: SchedulingView, items: seq<Item>, i: nat, reason: DecisionReason) {
    if view.sessionTurn > 0 then
      WarmChoice(view, items, i) && reason == if AtHome(view, items[i].target) then KvAffinity else LatencyTiebreak
    else
      ColdChoice(items, i) && reason == if FastestOfAll(items, i) then LatencyTiebreak else LoadBalance
  }

  lemma LocalMeansAtHome(view: SchedulingView, t: TargetCandidate)
    ensures IsLocal(view, t) <==> AtHome(view, t)
  {
  }

  lemma ColdMeansNotAfter(x: Item, y: Item)
    ensures BetterCold(y, x) <==> !ColdNotAfter(x, y)
  {
    StringLessTotal(x.target.endpointId, y.target.endpointId);
    StringLessTotal(x.target.replicaId, y.target.replicaId);
  }

  lemma FirstFastest(items: seq<Item>)
    requires items != []
    ensures FastestOfAll(items, FirstBest(items, FasterOrder()))
    ensures forall i: nat :: FastestOfAll(items, i) ==> i == FirstBest(items, FasterOrder())
  {
    FasterIsOrder();
    FirstBestIsUnbeaten(items, FasterOrder());
    var best := FirstBest(items, FasterOrder());
    forall j | 0 <= j < |items|
      ensures items[best].latencySeconds <= items[j].latencySeconds
      ensures j < best ==> items[best].latencySeconds < items[j].latencySeconds
    {
      assert !FasterOrder()(items[j], items[best]);
      assert j < best ==> FasterOrder()(items[best], items[j]);
    }
  }

  lemma ColdIsPicked(view: SchedulingView, items: seq<Item>) returns (i: nat)
    requires items != [] && view.sessionTurn <= 0
    ensures var placed := ChoosePlacement(view, items);
            i < |items| && placed.item == items[i] && Picks(view, items, i, placed.reason)
  {
    hide BetterCold, ColdNotAfter, FastestOfAll;
    ColdIsOrder();
    FirstBestIsUnbeaten(items, ColdOrder());
    FirstFastest(items);
    i := FirstBest(items, ColdOrder());
    forall j | 0 <= j < |items|
      ensures ColdNotAfter(items[i], items[j]) && (j < i ==> !ColdNotAfter(items[j], items[i]))
    {
      assert !ColdOrder()(items[j], items[i]);
      assert j < i ==> ColdOrder()(items[i], items[j]);
      ColdMeansNotAfter(items[i], items[j]);
      ColdMeansNotAfter(items[j], items[i]);
    }
  }

  lemma LeaderExtends(view: SchedulingView, front: seq<Item>, last: Item, home: bool, i: nat)
    requires LeadsGroup(view, front, i, home)
    ensures i < |front|
    ensures var overtaken := AtHome(view, last.target) == home && last.latencySeconds < front[i].latencySeconds;
            LeadsGroup(view, front + [last], if overtaken then |front| else i, home)
  {
    hide AtHome;
  }

  lemma OnlyMemberLeads(view: SchedulingView, front: seq<Item>, last: Item, home: bool)
    requires AtHome(view, last.target) == home && forall j :: 0 <= j < |front| ==> AtHome(view, front[j].target) != home
    ensures LeadsGroup(view, front + [last], |front|, home)
  {
    hide AtHome;
  }

  lemma {:induction false} FilteredLeader(
      view: SchedulingView, items: seq<Item>, home: bool, keep: Item -> bool) returns (i: nat)
    requires forall x :: keep(x) == (AtHome(view, x.target) == home)
    requires Filter(items, keep) != []
    ensures i < |items| && LeadsGroup(view, items, i, home) && items[i] == Fastest(Filter(items, keep))
  {
    hide AtHome, LeadsGroup, Fastest;
    var n := |items| - 1;
    var front, last := items[..n], items[n];
    assert items == front + [last];
    var kept := Filter(front, keep);
    assert Filter(items, keep) == if keep(last) then kept + [last] else kept;
    if kept == [] {
      i := n;
      forall j | 0 <= j < n ensures AtHome(view, front[j].target) != home {
        assert front[j] in front;
      }
      OnlyMemberLeads(view, front, last, home);
      assert kept + [last] == [last];
      OnlyOneIsFastest(last);
    } else {
      i := FilteredLeader(view, front, home, keep);
      FastestExtends(kept, last);
      LeaderExtends(view, front, last, home, i);
      if keep(last) && last.latencySeconds < front[i].latencySeconds {
        i := n;
      }
    }
  }

  lemma OnlyOneIsFastest(x: Item)
    ensures Fastest([x]) == x
  {
  }

  lemma FastestExtends(front: seq<Item>, last: Item)
    requires front != []
    ensures Fastest(front + [last]) == if last.latencySeconds < Fastest(front).latencySeconds then last else Fastest(front)
  {
    assert (front + [last])[..|front|] == front;
  }

  lemma LeaderIsFast(view: SchedulingView, items: seq<Item>, i: nat, home: bool)
    requires LeadsGroup(view, items, i, home)
    ensures i < |items| && AtHome(view, items[i].target) == home
    ensures forall j :: 0 <= j < |items| && AtHome(view, items[j].target) == home ==>
              items[i].latencySeconds <= items[j].latencySeconds
  {
    hide AtHome;
  }

  lemma StayingIsChosen(view: SchedulingView, items: seq<Item>, a: nat, b: nat)
    requires LeadsGroup(view, items, a, true)
    requires || (forall j :: 0 <= j < |items| ==> AtHome(view, items[j].target))
             || (LeadsGroup(view, items, b, false)
                 && items[a].latencySeconds <= items[b].latencySeconds + MaxReal(0.0, view.migrationPenalty))
    ensures a < |items| && AtHome(view, items[a].target) && WarmChoice(view, items, a)
  {
    hide AtHome, LeadsGroup;
    LeaderIsFast(view, items, a, true);
    if LeadsGroup(view, items, b, false) {
      LeaderIsFast(view, items, b, false);
    }
  }

  lemma MovingIsChosen(view: SchedulingView, items: seq<Item>, a: nat, b: nat)
    requires LeadsGroup(view, items, b, false)
    requires || (forall j :: 0 <= j < |items| ==> !AtHome(view, items[j].target))
             || (LeadsGroup(view, items, a, true)
                 && items[b].latencySeconds + MaxReal(0.0, view.migrationPenalty) < items[a].latencySeconds)
    ensures b < |items| && !AtHome(view, items[b].target) && WarmChoice(view, items, b)
  {
    hide AtHome, LeadsGroup;
    LeaderIsFast(view, items, b, false);
    if LeadsGroup(view, items, a, true) {
      LeaderIsFast(view, items, a, true);
    }
  }

  lemma WarmIsPicked(view: SchedulingView, items: seq<Item>) returns (i: nat)
    requires items != [] && view.sessionTurn > 0
    ensures var placed := ChoosePlacement(view, items);
            i < |items| && placed.item == items[i] && Picks(view, items, i, placed.reason)
  {
    hide IsLocal, AtHome, LeadsGroup, Fastest, WarmChoice;
    var here, there := (x: Item) => IsLocal(view, x.target), (x: Item) => !IsLocal(view, x.target);
    var local, remote := Filter(items, here), Filter(items, there);
    forall x: Item ensures here(x) == AtHome(view, x.target) && there(x) == !AtHome(view, x.target) {
      LocalMeansAtHome(view, x.target);
    }
    var a, b := 0, 0;
    if local != [] {
      a := FilteredLeader(view, items, true, here);
    } else {
      forall j | 0 <= j < |items| ensures there(items[j]) {
        assert items[j] !in local;
      }
      FilterAll(items, there);
    }
    if remote != [] {
      b := FilteredLeader(view, items, false, there);
    } else {
      forall j | 0 <= j < |items| ensures here(items[j]) {
        assert items[j] !in remote;
      }
    }
    if ChoosePlacement(view, items).reason == KvAffinity {
      i := a;
      StayingIsChosen(view, items, a, b);
    } else {
      i := b;
      MovingIsChosen(view, items, a, b);
    }
  }

  /** Placement picks the one candidate that the rules single out, and says why. */
  lemma PlacementPicks(view: SchedulingView, items: seq<Item>) returns (i: nat)
    requires items != []
    ensures var placed := ChoosePlacement(view, items);
            i < |items| && placed.item == items[i] && Picks(view, items, i, placed.reason)
    ensures forall j: nat, reason :: Picks(view, items, j, reason) ==>
              j == i && reason == ChoosePlacement(view, items).reason
  {
    hide ChoosePlacement, Picks;
    if view.sessionTurn > 0 {
      i := WarmIsPicked(view, items);
    } else {
      i := ColdIsPicked(view, items);
    }
    var placed := ChoosePlacement(view, items).reason;
    forall j: nat, reason | Picks(view, items, j, reason) ensures j == i && reason == placed {
      OnlyOneIsPicked(view, items, i, placed, j, reason);
    }
  }

  lemma OnlyOneIsPicked(
      view: SchedulingView, items: seq<Item>, i: nat, reason: DecisionReason, j: nat, other: DecisionReason)
    requires Picks(view, items, i, reason) && Picks(view, items, j, other)
    ensures i == j && reason == other
  {
    hide AtHome, ColdNotAfter, FastestOfAll;
  }

  // ---- Hysteresis and reasons, end to end ----

  /** What the decision would be without hysteresis: the candidate placed freely. */
  ghost predicate FreeChoice(view: SchedulingView, s: Stages, x: Item, reason: DecisionReason) {
    exists i: nat :: i < |s.placeable| && x == s.placeable[i] && Picks(view, s.placeable, i, reason)
  }

  ghost predicate CurrentModelIsPlaceable(view: SchedulingView, s: Stages) {
    exists x :: x in s.placeable && x.target.modelId == view.currentModel
  }

  /** A tier's height, by its name in any case. */
  ghost predicate Above(tier: string, other: string) {
    || (Lower(tier) in {"frontier", "premium"} && Lower(other) !in {"frontier", "premium"})
    || (Lower(tier) in {"capable", "strong"} && Lower(other) !in {"capable", "strong", "frontier", "premium"})
  }

  lemma HigherRankIsAbove(tier: string, other: string)
    ensures TierRank(tier) > TierRank(other) <==> Above(tier, other)
  {
  }

  /** Hysteresis holds the current model exactly if nothing overrides, the free choice would lower the tier before the
      window of stable steps is complete, and the current model could be placed. */
  lemma HoldsExactlyWhen(env: Environment, view: SchedulingView, targets: seq<TargetCandidate>)
    returns (free: Item, reason: DecisionReason)
    requires Schedule(env, view, targets).Ok?
    ensures var d, s := Schedule(env, view, targets).value, StagesOf(env, view, Eligible(view, targets));
            && FreeChoice(view, s, free, reason)
            && (d.reason == HysteresisHold <==>
                  && d.overrideReasons == [] && view.currentTier != "" && view.currentModel != ""
                  && Above(view.currentTier, free.tier) && view.stableSteps < env.config.deescalationStableSteps
                  && CurrentModelIsPlaceable(view, s))
            && (d.reason != HysteresisHold ==> d.selected == free.target.Key())
  {
    hide StagesOf, ChoosePlacement, Picks, TraceAll, Above, TierRank, ReasonFor, Models;
    var s := StagesOf(env, view, Eligible(view, targets));
    StagesReachPlacement(env, view, Eligible(view, targets));
    var i := PlacementPicks(view, s.placeable);
    free, reason := s.placeable[i], ChoosePlacement(view, s.placeable).reason;
    HigherRankIsAbove(view.currentTier, free.tier);
    CurrentMeansPlaceable(view, s);
    FreeReasonIsNotHold(view, s, reason);
  }

  lemma CurrentMeansPlaceable(view: SchedulingView, s: Stages)
    ensures CurrentModelOnly(view, s.placeable) != [] <==> CurrentModelIsPlaceable(view, s)
    ensures (exists i :: 0 <= i < |s.placeable| && s.placeable[i].target.modelId == view.currentModel)
            <==> CurrentModelIsPlaceable(view, s)
  {
    var current := CurrentModelOnly(view, s.placeable);
    if current != [] {
      assert current[0] in current;
    }
    if x :| x in s.placeable && x.target.modelId == view.currentModel {
      assert x in current;
    }
    if i :| 0 <= i < |s.placeable| && s.placeable[i].target.modelId == view.currentModel {
      assert s.placeable[i] in s.placeable;
    }
  }

  lemma FreeReasonIsNotHold(view: SchedulingView, s: Stages, placed: DecisionReason)
    requires s.placeable != [] && placed == ChoosePlacement(view, s.placeable).reason
    ensures ReasonFor(s, placed) != HysteresisHold
  {
    hide ChoosePlacement, Models;
    PlacementReasonIsNotHold(view, s.placeable);
  }

  /** Everything affordable belongs to one model. */
  ghost predicate OneModelLeft(s: Stages) {
    && s.inBudget != []
    && forall x, y :: x in s.inBudget && y in s.inBudget ==> x.target.modelId == y.target.modelId
  }

  lemma OneModelMeansOne(s: Stages)
    requires s.inBudget != []
    ensures |Models(s.inBudget)| == 1 <==> OneModelLeft(s)
  {
    var models, first := Models(s.inBudget), s.inBudget[0].target.modelId;
    assert first in models;
    if OneModelLeft(s) {
      assert s.inBudget[0] in s.inBudget;
      assert models == {first};
    }
    if |models| == 1 {
      OnlyElement(models, first);
      forall x, y | x in s.inBudget && y in s.inBudget ensures x.target.modelId == y.target.modelId {
        var i :| 0 <= i < |s.inBudget| && s.inBudget[i] == x;
        var j :| 0 <= j < |s.inBudget| && s.inBudget[j] == y;
        assert s.inBudget[i].target.modelId in models && s.inBudget[j].target.modelId in models;
      }
    }
  }

  lemma OnlyElement(models: set<string>, first: string)
    requires |models| == 1 && first in models
    ensures models == {first}
  {
    assert |models - {first}| == 0;
  }

  /** Some affordable candidate is too dear to be placed. */
  ghost predicate CostDecided(env: Environment, s: Stages) {
    && s.inBudget != []
    && exists x :: x in s.inBudget && x.effectiveCost > CostLimit(s.inBudget, env.config.epsilonCost)
  }

  lemma {:induction false} FilterDrops<T>(s: seq<T>, keep: T -> bool)
    ensures |Filter(s, keep)| < |s| <==> exists x :: x in s && !keep(x)
  {
    if x :| x in s && !keep(x) {
      if |Filter(s, keep)| == |s| {
        FilterFull(s, keep);
      }
    } else {
      FilterAll(s, keep);
    }
  }

  lemma {:induction false} FilterFull<T>(s: seq<T>, keep: T -> bool)
    requires |Filter(s, keep)| == |s|
    ensures forall x | x in s :: keep(x)
  {
    if s != [] {
      var front := s[..|s| - 1];
      FilterFull(front, keep);
      assert s == front + [s[|s| - 1]];
    }
  }

  lemma FewerPlaceableMeansCost(env: Environment, view: SchedulingView, eligible: seq<TargetCandidate>)
    requires StagesOf(env, view, eligible).inBudget != []
    ensures var s := StagesOf(env, view, eligible);
            |s.placeable| < |s.inBudget| <==> CostDecided(env, s)
  {
    hide PolicyOf, EvaluateAll, GateOf, KeepInBudget, PriceAll, CostLimit, Timed;
    var s := StagesOf(env, view, eligible);
    FilterDrops(s.inBudget, (x: Item) => x.effectiveCost <= CostLimit(s.inBudget, env.config.epsilonCost));
  }

  /** The reason given is the first that applies: an override, a hold, a fallback, only one model left, staying at home,
      less load, a lower cost, and otherwise speed. */
  lemma ReasonIsFirstThatApplies(env: Environment, view: SchedulingView, targets: seq<TargetCandidate>)
    returns (free: Item, placed: DecisionReason)
    requires Schedule(env, view, targets).Ok?
    ensures var d, s := Schedule(env, view, targets).value, StagesOf(env, view, Eligible(view, targets));
            && FreeChoice(view, s, free, placed)
            && (d.reason == CriticalOverride <==> d.overrideReasons != [])
            && (d.reason !in {CriticalOverride, HysteresisHold} ==>
                  && (d.reason == Fallback <==> d.fallback)
                  && (d.reason == SuccessDominant <==> !d.fallback && OneModelLeft(s))
                  && (d.reason in {KvAffinity, LoadBalance} <==>
                        !d.fallback && !OneModelLeft(s) && placed != LatencyTiebreak)
                  && (d.reason in {KvAffinity, LoadBalance} ==> d.reason == placed)
                  && (d.reason == CostDominant <==>
                        !d.fallback && !OneModelLeft(s) && placed == LatencyTiebreak && CostDecided(env, s)))
  {
    hide StagesOf, ChoosePlacement, Picks, TraceAll, Models, ShouldHoldTier, OneModelLeft, CostDecided;
    var s := StagesOf(env, view, Eligible(view, targets));
    StagesReachPlacement(env, view, Eligible(view, targets));
    var i := PlacementPicks(view, s.placeable);
    free, placed := s.placeable[i], ChoosePlacement(view, s.placeable).reason;
    PickedReasons(view, s.placeable, i, placed);
    OneModelMeansOne(s);
    FewerPlaceableMeansCost(env, view, Eligible(view, targets));
  }

  lemma PickedReasons(view: SchedulingView, items: seq<Item>, i: nat, reason: DecisionReason)
    requires Picks(view, items, i, reason)
    ensures reason in {KvAffinity, LoadBalance, LatencyTiebreak}
  {
    hide WarmChoice, ColdChoice, AtHome, FastestOfAll;
  }

  // ---- Estimates, refusals and tiers, end to end ----

  /** What the predictor says about a target, a failure being the least that can be said. */
  ghost predicate IsEstimate(env: Environment, view: SchedulingView, t: TargetCandidate, e: SuccessEstimate) {
    match env.predict(view, t)
    case Ok(said) => e == said
    case Err(name) =>
      && e.predictedSuccess == 0.0 && e.uncertainty == 1.0 && e.confidence == 0.0 && e.notes == ["predictor_error:" + name]
  }

  /** A decision is made on the estimates for the first policy target of each model, and on no others. */
  lemma PolicyEstimatesAreFirst(env: Environment, view: SchedulingView, eligible: seq<TargetCandidate>)
    ensures var p := PolicyOf(env, view, eligible);
            && (forall i: nat :: IsFirst(p.targets, i) ==>
                  && p.targets[i].modelId in p.estimates
                  && IsEstimate(env, view, p.targets[i], p.estimates[p.targets[i].modelId]))
            && (forall m :: m in p.estimates ==> exists t :: t in p.targets && t.modelId == m)
  {
    hide OverrideReasons, CapableOnly, NeedsSafeMode, Estimates, IsFirst, IsEstimate;
    var p := PolicyOf(env, view, eligible);
    assert p.estimates == Estimates(env, view, p.targets);
    EstimatesAreOfTargets(env, view, p.targets);
    forall m | m in p.estimates ensures exists t :: t in p.targets && t.modelId == m {
      assert m in Estimates(env, view, p.targets);
    }
  }

  lemma EstimatesAreOfTargets(env: Environment, view: SchedulingView, targets: seq<TargetCandidate>)
    ensures var estimates := Estimates(env, view, targets);
            && (forall i: nat :: IsFirst(targets, i) ==>
                  && i < |targets| && targets[i].modelId in estimates
                  && IsEstimate(env, view, targets[i], estimates[targets[i].modelId]))
            && (forall m :: m in estimates ==> exists t :: t in targets && t.modelId == m)
  {
    hide Estimates;
    var estimates := Estimates(env, view, targets);
    forall i: nat | IsFirst(targets, i) ensures IsEstimate(env, view, targets[i], estimates[targets[i].modelId]) {
      FirstIsEstimated(env, view, targets, i);
    }
    forall m | m in estimates ensures exists t :: t in targets && t.modelId == m {
      var i := OnlyTheirModels(env, view, targets, m);
      assert targets[i] in targets;
    }
  }

  /** A refusal over the budget names exactly the targets that passed the success gate, none of which is affordable. */
  lemma OverBudgetNamesSurvivors(env: Environment, view: SchedulingView, targets: seq<TargetCandidate>, key: TargetKey)
    requires Schedule(env, view, targets).Err? && Schedule(env, view, targets).error.AllOverBudget?
    ensures var s := StagesOf(env, view, Eligible(view, targets));
            && (key in Schedule(env, view, targets).error.overBudget <==>
                  exists t :: t in s.policy.targets && t.modelId in s.policy.estimates && t.modelId in s.gate.models
                              && t.Key() == key)
            && forall t :: !Affordable(env, view, s, t)
  {
    hide StagesOf, DecisionOf, Affordable, PricedItem;
    var eligible := Eligible(view, targets);
    var s := StagesOf(env, view, eligible);
    forall t ensures !Affordable(env, view, s, t) {
      if Affordable(env, view, s, t) {
        AffordableHasEstimate(env, view, s, t);
        InBudgetMembers(env, view, eligible, PricedItem(env, view, s.policy, t));
      }
    }
    if key in KeysOf(s.successful) {
      var i :| 0 <= i < |s.successful| && KeysOf(s.successful)[i] == key;
      SuccessfulMembers(env, view, eligible, s.successful[i]);
      var t :| t in s.policy.targets && t.modelId in s.policy.estimates && t.modelId in s.gate.models
               && s.successful[i] == PricedItem(env, view, s.policy, t);
      PricedTarget(env, view, s.policy, t);
    }
    if t :| t in s.policy.targets && t.modelId in s.policy.estimates && t.modelId in s.gate.models && t.Key() == key {
      var x := PricedItem(env, view, s.policy, t);
      PricedTarget(env, view, s.policy, t);
      SuccessfulMembers(env, view, eligible, x);
      var i :| 0 <= i < |s.successful| && s.successful[i] == x;
      assert KeysOf(s.successful)[i] == key;
    }
  }

  /** With distinct keys the trace gives the tier of every target. */
  lemma TraceNamesTiers(env: Environment, view: SchedulingView, targets: seq<TargetCandidate>, i: nat)
    requires forall a, b :: a in targets && b in targets && a.Key() == b.Key() ==> a == b
    requires i < |targets| && Schedule(env, view, targets).Ok?
    ensures |Schedule(env, view, targets).value.trace| == |targets|
    ensures Schedule(env, view, targets).value.trace[i].tier == targets[i].tier
  {
    hide PolicyOf, GateOf, KeepInBudget, TimeAll, PriceAll, CostGate, Serves, Eligible,
         SelectedItem, SelectedReason, Rejections, LastRejection, SuccessEstimate.Lcb;
    var s, t := StagesOf(env, view, Eligible(view, targets)), targets[i];
    var own := LastWithKey(s.evaluated, t.Key());
    if own.Some? {
      var u := EvaluatedTarget(env.config, s.policy, own.value);
      PolicyTargetsServe(env, view, targets, u);
    }
  }
}
