// The scheduler's stages: hard filter, critical override, success gate, cost gate, latency and placement.

module Gates {
  import opened Arithmetic
  import opened Basics
  import opened SchedulerTypes

  const TINY := 0.000000000001

  // ---- Costs and latencies ----

  function KvSplit(view: SchedulingView, t: TargetCandidate): KvBreakdown {
    var prompt := MaxInt(0, view.promptTokens);
    var local := MinInt(prompt, MaxInt(0, t.localKvTokens));
    var remote := if !view.remoteKvAllowed || !t.supportsRemoteKv then 0
                  else MinInt(prompt - local, MaxInt(0, t.remoteKvTokens));
    KvBreakdown(local, remote, MaxInt(0, prompt - local - remote))
  }

  /** So many tokens at a price that is never taken below zero. */
  function Charge(tokens: int, price: real): real {
    tokens as real * MaxReal(0.0, price)
  }

  /** Inference, KV movement, recompute and overhead: the part of the cost that is certain. */
  function ServiceCost(view: SchedulingView, t: TargetCandidate): real {
    var kv := KvSplit(view, t);
    MaxReal(0.0, t.inferenceCost)
    + Charge(MaxInt(0, view.promptTokens), t.inputCostPerToken)
    + Charge(MaxInt(0, view.predictedOutputTokens), t.outputCostPerToken)
    + Charge(kv.remote, t.kvFetchCostPerToken)
    + Charge(kv.miss, t.kvRecomputeCostPerToken)
    + MaxReal(0.0, t.routingOverheadCost)
  }

  function ExpectedRetry(t: TargetCandidate, estimate: SuccessEstimate): real {
    MaxReal(0.0, 1.0 - estimate.predictedSuccess) * MaxReal(0.0, t.fallbackPathCost)
  }

  function FutureKvValue(env: Environment, view: SchedulingView, t: TargetCandidate): real {
    var kv := KvSplit(view, t);
    MaxReal(0.0, env.futureKvValue(view, t, kv.local, kv.remote))
  }

  function EffectiveCost(env: Environment, view: SchedulingView, t: TargetCandidate, estimate: SuccessEstimate): real {
    MaxReal(0.0, ServiceCost(view, t) + ExpectedRetry(t, estimate)
                 - env.config.lambdaFuture * FutureKvValue(env, view, t))
  }

  /** How long so many tokens take at a rate that is never taken as zero. */
  function Duration(tokens: int, perSecond: real): real {
    tokens as real / MaxReal(0.000000001, perSecond)
  }

  function PredictedLatency(view: SchedulingView, t: TargetCandidate): real {
    var kv := KvSplit(view, t);
    MaxReal(0.0, t.queueLatencySeconds)
    + (Charge(kv.remote, t.kvFetchLatencyPerToken) + Charge(kv.miss, t.kvRecomputeLatencyPerToken))
    + Duration(kv.miss, t.prefillTokensPerSecond)
    + Duration(MaxInt(0, view.predictedOutputTokens), t.decodeTokensPerSecond)
  }

  lemma ServiceCostIsNonNegative(view: SchedulingView, t: TargetCandidate)
    ensures ServiceCost(view, t) >= 0.0
  {
    hide Charge, KvSplit;
    var kv := KvSplit(view, t);
    KvSplitIsNonNegative(view, t);
    ChargeIsNonNegative(MaxInt(0, view.promptTokens), t.inputCostPerToken);
    ChargeIsNonNegative(MaxInt(0, view.predictedOutputTokens), t.outputCostPerToken);
    ChargeIsNonNegative(kv.remote, t.kvFetchCostPerToken);
    ChargeIsNonNegative(kv.miss, t.kvRecomputeCostPerToken);
  }

  lemma KvSplitIsNonNegative(view: SchedulingView, t: TargetCandidate)
    ensures var kv := KvSplit(view, t); kv.local >= 0 && kv.remote >= 0 && kv.miss >= 0
  {
  }

  /** Local KV is used before remote KV, and nothing is recomputed that could have been reused. */
  ghost predicate IsGreedySplit(view: SchedulingView, t: TargetCandidate, kv: KvBreakdown) {
    var held := if view.remoteKvAllowed && t.supportsRemoteKv then MaxInt(0, t.remoteKvTokens) else 0;
    && kv.local >= 0 && kv.remote >= 0 && kv.miss >= 0
    && kv.local + kv.remote + kv.miss == MaxInt(0, view.promptTokens)
    && kv.local <= MaxInt(0, t.localKvTokens) && kv.remote <= held
    && (kv.remote + kv.miss > 0 ==> kv.local == MaxInt(0, t.localKvTokens))
    && (kv.miss > 0 ==> kv.remote == held)
  }

  /** The prompt is split greedily, and there is only one way to do so. */
  lemma SplitIsGreedy(view: SchedulingView, t: TargetCandidate, kv: KvBreakdown)
    ensures kv == KvSplit(view, t) <==> IsGreedySplit(view, t, kv)
  {
  }

  /** Holding more of the prompt locally never makes a target dearer or slower. */
  lemma MoreLocalKvNeverHurts(view: SchedulingView, t: TargetCandidate, more: int)
    requires more >= t.localKvTokens
    ensures var u := t.(localKvTokens := more);
            ServiceCost(view, u) <= ServiceCost(view, t) && PredictedLatency(view, u) <= PredictedLatency(view, t)
  {
    var u := t.(localKvTokens := more);
    var a, b := KvSplit(view, t), KvSplit(view, u);
    KvSplitIsNonNegative(view, u);
    assert b.remote <= a.remote && b.miss <= a.miss;
    hide KvSplit, Charge, Duration;
    ChargeKeepsOrder(b.remote, a.remote, t.kvFetchCostPerToken);
    ChargeKeepsOrder(b.miss, a.miss, t.kvRecomputeCostPerToken);
    ChargeKeepsOrder(b.remote, a.remote, t.kvFetchLatencyPerToken);
    ChargeKeepsOrder(b.miss, a.miss, t.kvRecomputeLatencyPerToken);
    DurationKeepsOrder(b.miss, a.miss, t.prefillTokensPerSecond);
  }

  lemma ChargeKeepsOrder(fewer: int, tokens: int, price: real)
    requires 0 <= fewer <= tokens
    ensures Charge(fewer, price) <= Charge(tokens, price)
  {
    ScaleKeepsOrder(MaxReal(0.0, price), fewer as real, tokens as real);
  }

  lemma DurationKeepsOrder(fewer: int, tokens: int, perSecond: real)
    requires 0 <= fewer <= tokens
    ensures Duration(fewer, perSecond) <= Duration(tokens, perSecond)
  {
    DivideKeepsOrder(fewer as real, tokens as real, MaxReal(0.000000001, perSecond));
  }

  lemma ChargeIsNonNegative(tokens: int, price: real)
    requires tokens >= 0
    ensures Charge(tokens, price) >= 0.0
  {
    ProductIsNonNegative(tokens as real, MaxReal(0.0, price));
  }

  /** The filter's budget bound is below the effective cost exactly when the credit stays within the retry term. */
  lemma FilterBoundsCostExactlyWhen(env: Environment, view: SchedulingView, t: TargetCandidate, e: SuccessEstimate)
    ensures ServiceCost(view, t) <= EffectiveCost(env, view, t, e) <==>
            || env.config.lambdaFuture * FutureKvValue(env, view, t) <= ExpectedRetry(t, e)
            || ServiceCost(view, t) == 0.0
  {
    hide ServiceCost, ExpectedRetry, FutureKvValue;
    ServiceCostIsNonNegative(view, t);
  }

  // ---- Hard filter ----

  function RequiredTokens(view: SchedulingView): int {
    MaxInt(0, view.promptTokens) + MaxInt(0, view.predictedOutputTokens)
  }

  function AddWhen<T>(reasons: seq<T>, condition: bool, reason: T): (r: seq<T>)
    ensures r == [] <==> reasons == [] && !condition
  {
    if condition then reasons + [reason] else reasons
  }

  function CapabilityReasons(view: SchedulingView, t: TargetCandidate): seq<FilterReason> {
    var missing := view.requiredCapabilities - t.capabilities;
    var a := AddWhen([], !t.available, EndpointUnavailable);
    var b := AddWhen(a, !t.healthy, EndpointUnhealthy);
    var c := AddWhen(b, !t.compatible, Incompatible);
    var d := AddWhen(c, RequiredTokens(view) > t.contextWindowTokens, ContextWindowExceeded);
    AddWhen(d, missing != {}, MissingCapabilities(missing))
  }

  function PolicyReasons(view: SchedulingView, t: TargetCandidate, found: seq<FilterReason>): seq<FilterReason> {
    var a := AddWhen(found, view.allowedModels != {} && t.modelId !in view.allowedModels, ModelNotAllowed);
    var b := AddWhen(a, view.allowedRegions != {} && t.region !in view.allowedRegions, RegionNotAllowed);
    var c := AddWhen(b, view.allowedCacheDomains != {} && t.cacheDomain !in view.allowedCacheDomains,
                     CacheDomainNotAllowed);
    var d := AddWhen(c, view.securityDomain != "" && t.securityDomain != view.securityDomain, SecurityDomainMismatch);
    var e := AddWhen(d, t.requiresRemoteKv && !view.remoteKvAllowed, RemoteKvRequiredButForbidden);
    AddWhen(e, view.costBudget.Some? && ServiceCost(view, t) > view.costBudget.value, HardCostBudgetExceeded)
  }

  function FilterReasons(view: SchedulingView, t: TargetCandidate): seq<FilterReason> {
    PolicyReasons(view, t, CapabilityReasons(view, t))
  }

  /** A target that may serve the request. */
  predicate Serves(view: SchedulingView, t: TargetCandidate) {
    && t.available && t.healthy && t.compatible
    && RequiredTokens(view) <= t.contextWindowTokens
    && view.requiredCapabilities <= t.capabilities
    && (view.allowedModels == {} || t.modelId in view.allowedModels)
    && (view.allowedRegions == {} || t.region in view.allowedRegions)
    && (view.allowedCacheDomains == {} || t.cacheDomain in view.allowedCacheDomains)
    && (view.securityDomain == "" || t.securityDomain == view.securityDomain)
    && (t.requiresRemoteKv ==> view.remoteKvAllowed)
    && (view.costBudget.Some? ==> ServiceCost(view, t) <= view.costBudget.value)
  }

  lemma NoReasonsExactlyWhenServing(view: SchedulingView, t: TargetCandidate)
    ensures FilterReasons(view, t) == [] <==> Serves(view, t)
  {
    hide ServiceCost;
    var missing := view.requiredCapabilities - t.capabilities;
    forall c | c in view.requiredCapabilities && c !in t.capabilities ensures c in missing {
    }
  }

  function Eligible(view: SchedulingView, targets: seq<TargetCandidate>): seq<TargetCandidate> {
    Filter(targets, (t: TargetCandidate) => Serves(view, t))
  }

  function Rejections(view: SchedulingView, targets: seq<TargetCandidate>): seq<FilterRejection> {
    if targets == [] then []
    else
      var last := targets[|targets| - 1];
      Rejections(view, targets[..|targets| - 1])
      + if Serves(view, last) then [] else [FilterRejection(last.Key(), FilterReasons(view, last))]
  }

  method CollectReasons(view: SchedulingView, t: TargetCandidate) returns (reasons: seq<FilterReason>)
    ensures reasons == FilterReasons(view, t)
  {
    hide PolicyReasons;
    reasons := [];
    if !t.available {
      reasons := reasons + [EndpointUnavailable];
    }
    if !t.healthy {
      reasons := reasons + [EndpointUnhealthy];
    }
    if !t.compatible {
      reasons := reasons + [Incompatible];
    }
    if RequiredTokens(view) > t.contextWindowTokens {
      reasons := reasons + [ContextWindowExceeded];
    }
    var missing := view.requiredCapabilities - t.capabilities;
    if missing != {} {
      reasons := reasons + [MissingCapabilities(missing)];
    }
    reasons := CollectPolicyReasons(view, t, reasons);
  }

  method CollectPolicyReasons(view: SchedulingView, t: TargetCandidate, found: seq<FilterReason>)
    returns (reasons: seq<FilterReason>)
    ensures reasons == PolicyReasons(view, t, found)
  {
    hide ServiceCost;
    reasons := found;
    if view.allowedModels != {} && t.modelId !in view.allowedModels {
      reasons := reasons + [ModelNotAllowed];
    }
    if view.allowedRegions != {} && t.region !in view.allowedRegions {
      reasons := reasons + [RegionNotAllowed];
    }
    if view.allowedCacheDomains != {} && t.cacheDomain !in view.allowedCacheDomains {
      reasons := reasons + [CacheDomainNotAllowed];
    }
    if view.securityDomain != "" && t.securityDomain != view.securityDomain {
      reasons := reasons + [SecurityDomainMismatch];
    }
    if t.requiresRemoteKv && !view.remoteKvAllowed {
      reasons := reasons + [RemoteKvRequiredButForbidden];
    }
    if view.costBudget.Some? && ServiceCost(view, t) > view.costBudget.value {
      reasons := reasons + [HardCostBudgetExceeded];
    }
  }

  method HardFilter(view: SchedulingView, targets: seq<TargetCandidate>)
    returns (eligible: seq<TargetCandidate>, rejected: seq<FilterRejection>)
    ensures eligible == Eligible(view, targets) && rejected == Rejections(view, targets)
  {
    hide Serves, FilterReasons;
    eligible, rejected := [], [];
    for i := 0 to |targets|
      invariant eligible == Eligible(view, targets[..i]) && rejected == Rejections(view, targets[..i])
    {
      var reasons := CollectReasons(view, targets[i]);
      NoReasonsExactlyWhenServing(view, targets[i]);
      assert targets[..i + 1][..i] == targets[..i];
      if reasons != [] {
        rejected := rejected + [FilterRejection(targets[i].Key(), reasons)];
      } else {
        eligible := eligible + [targets[i]];
      }
    }
    assert targets[..|targets|] == targets;
  }

  function PlainView(): SchedulingView {
    SchedulingView(
      "session", "task", "", false, 1, "EXECUTING", {}, {}, {}, {}, false, 0.0, 0.0, 0.0, 0, 0, false, false, false, 1.0,
      10, 0, Some(6.0), "", "", "", "", 0, 0.0)
  }

  function PlainTarget(): TargetCandidate {
    TargetCandidate(
      "model", "endpoint", "replica", "frontier", {}, 1000, "", "", "", true, true, false, true,
      10.0, 0.0, 0.0, 0.0, 1.0, 0.0, 0.0, 0.0, 0.0, 0.0, 1.0, 1.0, 1.0, 10, 0, false, false, 0)
  }

  const SURE := SuccessEstimate(1.0, 0.0, 1.0, [])

  /** A predictor that is always sure. Kept local KV is worth half of what recomputing it would cost: what the code gives
      a session that is certain to go on, at once, for one turn, and reuses its KV with probability one half. */
  function PlainEnvironment(): Environment {
    Environment(SchedulerConfig(0.5, 0.0, 1.0, 0.0, 1.0, 3, 3, 1.0, 1.0, 0.0, 1.0),
                (view: SchedulingView, t: TargetCandidate) => Ok(SURE),
                (view: SchedulingView, t: TargetCandidate, local: int, remote: int) =>
                  0.5 * Charge(MaxInt(0, local), t.kvRecomputeCostPerToken))
  }

  /** So the filter can refuse over its budget of 6 a target that holds the whole prompt: its effective cost is 10 less a
      credit of 5. */
  lemma BudgetFilterIgnoresCredit()
    ensures FilterReasons(PlainView(), PlainTarget()) == [HardCostBudgetExceeded]
    ensures EffectiveCost(PlainEnvironment(), PlainView(), PlainTarget(), SURE) == 5.0 < PlainView().costBudget.value
  {
    hide ServiceCost, EffectiveCost, FilterReasons, PlainView, PlainTarget, PlainEnvironment, RequiredTokens;
    PlainServiceCost();
    PlainCost();
    PlainTargetIsReady();
    PlainViewIsOpen();
    PlainBudget();
    BudgetIsTheOnlyReason(PlainView(), PlainTarget());
  }

  /** A target with nothing else against it is refused for the budget alone. */
  lemma BudgetIsTheOnlyReason(view: SchedulingView, t: TargetCandidate)
    requires t.available && t.healthy && t.compatible && RequiredTokens(view) <= t.contextWindowTokens
    requires view.requiredCapabilities == {} && view.allowedModels == {} && view.allowedRegions == {}
    requires view.allowedCacheDomains == {} && view.securityDomain == "" && !t.requiresRemoteKv
    requires view.costBudget.Some? && ServiceCost(view, t) > view.costBudget.value
    ensures FilterReasons(view, t) == [HardCostBudgetExceeded]
  {
    hide ServiceCost, RequiredTokens;
    assert view.requiredCapabilities - t.capabilities == {};
    assert CapabilityReasons(view, t) == [];
  }

  lemma PlainTargetIsReady()
    ensures PlainTarget().available && PlainTarget().healthy && PlainTarget().compatible
    ensures !PlainTarget().requiresRemoteKv && PlainTarget().contextWindowTokens == 1000
  {
  }

  lemma PlainViewIsOpen()
    ensures PlainView().requiredCapabilities == {} && PlainView().allowedModels == {}
    ensures PlainView().allowedRegions == {} && PlainView().allowedCacheDomains == {}
    ensures PlainView().securityDomain == ""
  {
  }

  lemma PlainBudget()
    ensures RequiredTokens(PlainView()) == 10 && PlainView().costBudget == Some(6.0)
  {
  }

  lemma PlainCost()
    ensures EffectiveCost(PlainEnvironment(), PlainView(), PlainTarget(), SURE) == 5.0
  {
    hide ServiceCost, ExpectedRetry, FutureKvValue;
    PlainServiceCost();
    PlainRetry();
    PlainCredit();
  }

  lemma PlainServiceCost()
    ensures ServiceCost(PlainView(), PlainTarget()) == 10.0
  {
    hide Charge;
    PlainSplit();
    hide KvSplit;
    NothingIsCharged(10, 1.0);
  }

  lemma PlainSplit()
    ensures KvSplit(PlainView(), PlainTarget()) == KvBreakdown(10, 0, 0)
  {
  }

  lemma NothingIsCharged(tokens: int, price: real)
    ensures Charge(0, 0.0) == Charge(0, price) == Charge(tokens, 0.0) == 0.0
  {
  }

  lemma PlainRetry()
    ensures ExpectedRetry(PlainTarget(), SURE) == 0.0
  {
  }

  lemma PlainCredit()
    ensures FutureKvValue(PlainEnvironment(), PlainView(), PlainTarget()) == 5.0
  {
    PlainSplit();
    hide KvSplit, PlainView;
    assert Charge(10, 1.0) == 10.0;
  }

  // ---- Critical override ----

  function RiskReasons(view: SchedulingView, config: SchedulerConfig): seq<OverrideReason> {
    var a := AddWhen([], view.criticalError, CriticalError);
    var b := AddWhen(a, view.errorSeverity >= config.errorSeverityOverride, HighErrorSeverity);
    var c := AddWhen(b, view.failureStreak >= config.failureStreakOverride, FailureStreak);
    var d := AddWhen(c, view.consecutiveFailures >= config.failureStreakOverride, ConsecutiveFailures);
    var e := AddWhen(d, view.spinningScore >= config.spinningScoreOverride, Spinning);
    AddWhen(e, view.recoveryScore >= config.errorSeverityOverride, RecoveryOrReplanning)
  }

  function SituationReasons(view: SchedulingView, config: SchedulerConfig, found: seq<OverrideReason>)
    : seq<OverrideReason>
  {
    var a := AddWhen(found, view.contextCompactionNeeded, ContextCompaction);
    var b := AddWhen(a, view.criticalStep, CriticalPathStep);
    var c := AddWhen(b, view.securitySensitive, SecuritySensitive);
    var d := AddWhen(c, view.phase == "REPLANNING" || view.phase == "BLOCKED", ReplanningOrBlocked);
    AddWhen(d, view.stateCompleteness < config.minStateCompletenessForDowngrade, StateUnknownSafeFallback)
  }

  function OverrideReasons(view: SchedulingView, config: SchedulerConfig): seq<OverrideReason> {
    SituationReasons(view, config, RiskReasons(view, config))
  }

  /** When each reason speaks for an override; the scheduler itself adds the predictor's. */
  predicate Triggered(view: SchedulingView, config: SchedulerConfig, reason: OverrideReason) {
    match reason
    case CriticalError => view.criticalError
    case HighErrorSeverity => view.errorSeverity >= config.errorSeverityOverride
    case FailureStreak => view.failureStreak >= config.failureStreakOverride
    case ConsecutiveFailures => view.consecutiveFailures >= config.failureStreakOverride
    case Spinning => view.spinningScore >= config.spinningScoreOverride
    case RecoveryOrReplanning => view.recoveryScore >= config.errorSeverityOverride
    case ContextCompaction => view.contextCompactionNeeded
    case CriticalPathStep => view.criticalStep
    case SecuritySensitive => view.securitySensitive
    case ReplanningOrBlocked => view.phase in {"REPLANNING", "BLOCKED"}
    case StateUnknownSafeFallback => view.stateCompleteness < config.minStateCompletenessForDowngrade
    case PredictorUncertaintyOrOod => false
  }

  function Rank(reason: OverrideReason): nat {
    match reason
    case CriticalError => 0
    case HighErrorSeverity => 1
    case FailureStreak => 2
    case ConsecutiveFailures => 3
    case Spinning => 4
    case RecoveryOrReplanning => 5
    case ContextCompaction => 6
    case CriticalPathStep => 7
    case SecuritySensitive => 8
    case ReplanningOrBlocked => 9
    case StateUnknownSafeFallback => 10
    case PredictorUncertaintyOrOod => 11
  }

  /** Exactly the triggered reasons of the first `n` ranks, each once, in rank order. */
  ghost predicate ListsTriggered(reasons: seq<OverrideReason>, view: SchedulingView, config: SchedulerConfig, n: nat) {
    && (forall r :: r in reasons <==> Triggered(view, config, r) && Rank(r) < n)
    && forall i, j :: 0 <= i < j < |reasons| ==> Rank(reasons[i]) < Rank(reasons[j])
  }

  lemma ListsOneMore(
      reasons: seq<OverrideReason>, view: SchedulingView, config: SchedulerConfig, condition: bool, reason: OverrideReason)
    requires ListsTriggered(reasons, view, config, Rank(reason)) && condition == Triggered(view, config, reason)
    ensures ListsTriggered(AddWhen(reasons, condition, reason), view, config, Rank(reason) + 1)
  {
    hide Triggered;
    RankIdentifies(reason);
    assert forall i :: 0 <= i < |reasons| ==> reasons[i] in reasons;
  }

  lemma RankIdentifies(reason: OverrideReason)
    ensures forall r :: Rank(r) == Rank(reason) ==> r == reason
  {
  }

  /** The reasons are exactly the triggered ones, each once, in a fixed order. */
  lemma OverrideReasonsAreTriggers(view: SchedulingView, config: SchedulerConfig)
    ensures ListsTriggered(OverrideReasons(view, config), view, config, 11)
  {
    hide ListsTriggered, AddWhen;
    assert ListsTriggered([], view, config, 0) by {
      NothingListed(view, config);
    }
    var a := AddWhen([], view.criticalError, CriticalError);
    ListsOneMore([], view, config, view.criticalError, CriticalError);
    var b := AddWhen(a, view.errorSeverity >= config.errorSeverityOverride, HighErrorSeverity);
    ListsOneMore(a, view, config, view.errorSeverity >= config.errorSeverityOverride, HighErrorSeverity);
    var c := AddWhen(b, view.failureStreak >= config.failureStreakOverride, FailureStreak);
    ListsOneMore(b, view, config, view.failureStreak >= config.failureStreakOverride, FailureStreak);
    var d := AddWhen(c, view.consecutiveFailures >= config.failureStreakOverride, ConsecutiveFailures);
    ListsOneMore(c, view, config, view.consecutiveFailures >= config.failureStreakOverride, ConsecutiveFailures);
    var e := AddWhen(d, view.spinningScore >= config.spinningScoreOverride, Spinning);
    ListsOneMore(d, view, config, view.spinningScore >= config.spinningScoreOverride, Spinning);
    ListsOneMore(e, view, config, view.recoveryScore >= config.errorSeverityOverride, RecoveryOrReplanning);
    SituationReasonsAreTriggers(view, config, RiskReasons(view, config));
  }

  lemma NothingListed(view: SchedulingView, config: SchedulerConfig)
    ensures ListsTriggered([], view, config, 0)
  {
  }

  lemma SituationReasonsAreTriggers(view: SchedulingView, config: SchedulerConfig, found: seq<OverrideReason>)
    requires ListsTriggered(found, view, config, 6)
    ensures ListsTriggered(SituationReasons(view, config, found), view, config, 11)
  {
    hide ListsTriggered, AddWhen;
    var a := AddWhen(found, view.contextCompactionNeeded, ContextCompaction);
    ListsOneMore(found, view, config, view.contextCompactionNeeded, ContextCompaction);
    var b := AddWhen(a, view.criticalStep, CriticalPathStep);
    ListsOneMore(a, view, config, view.criticalStep, CriticalPathStep);
    var c := AddWhen(b, view.securitySensitive, SecuritySensitive);
    ListsOneMore(b, view, config, view.securitySensitive, SecuritySensitive);
    var blocked := view.phase == "REPLANNING" || view.phase == "BLOCKED";
    var d := AddWhen(c, blocked, ReplanningOrBlocked);
    ListsOneMore(c, view, config, blocked, ReplanningOrBlocked);
    var incomplete := view.stateCompleteness < config.minStateCompletenessForDowngrade;
    ListsOneMore(d, view, config, incomplete, StateUnknownSafeFallback);
  }

  method CriticalOverrideReasons(view: SchedulingView, config: SchedulerConfig) returns (reasons: seq<OverrideReason>)
    ensures reasons == OverrideReasons(view, config)
    ensures forall r :: r in reasons <==> Triggered(view, config, r)
    ensures forall i, j :: 0 <= i < j < |reasons| ==> Rank(reasons[i]) < Rank(reasons[j])
  {
    hide SituationReasons, Triggered;
    OverrideReasonsAreTriggers(view, config);
    RanksEnd(view, config);
    reasons := [];
    if view.criticalError {
      reasons := reasons + [CriticalError];
    }
    if view.errorSeverity >= config.errorSeverityOverride {
      reasons := reasons + [HighErrorSeverity];
    }
    if view.failureStreak >= config.failureStreakOverride {
      reasons := reasons + [FailureStreak];
    }
    if view.consecutiveFailures >= config.failureStreakOverride {
      reasons := reasons + [ConsecutiveFailures];
    }
    if view.spinningScore >= config.spinningScoreOverride {
      reasons := reasons + [Spinning];
    }
    if view.recoveryScore >= config.errorSeverityOverride {
      reasons := reasons + [RecoveryOrReplanning];
    }
    reasons := CollectSituationReasons(view, config, reasons);
  }

  lemma RanksEnd(view: SchedulingView, config: SchedulerConfig)
    ensures forall r :: Triggered(view, config, r) ==> Rank(r) < 11
  {
  }

  method CollectSituationReasons(view: SchedulingView, config: SchedulerConfig, found: seq<OverrideReason>)
    returns (reasons: seq<OverrideReason>)
    ensures reasons == SituationReasons(view, config, found)
  {
    reasons := found;
    if view.contextCompactionNeeded {
      reasons := reasons + [ContextCompaction];
    }
    if view.criticalStep {
      reasons := reasons + [CriticalPathStep];
    }
    if view.securitySensitive {
      reasons := reasons + [SecuritySensitive];
    }
    if view.phase == "REPLANNING" || view.phase == "BLOCKED" {
      reasons := reasons + [ReplanningOrBlocked];
    }
    if view.stateCompleteness < config.minStateCompletenessForDowngrade {
      reasons := reasons + [StateUnknownSafeFallback];
    }
  }

  predicate Capable(t: TargetCandidate) {
    Lower(t.tier) in {"capable", "frontier", "strong", "premium"} || t.capabilityRank >= 2
  }

  /** High tiers only, unless that would leave nobody. */
  function CapableOnly(targets: seq<TargetCandidate>): seq<TargetCandidate> {
    var capable := Filter(targets, (t: TargetCandidate) => Capable(t));
    if capable == [] then targets else capable
  }

  // ---- Success gate ----

  datatype SuccessGateResult = SuccessGateResult(models: set<string>, bestLcb: real, fallback: bool)

  /** The best lower bound seen for each model. */
  function ByModel(items: seq<Item>): (m: map<string, real>)
    ensures forall x :: x in m <==> exists i :: 0 <= i < |items| && items[i].target.modelId == x
  {
    if items == [] then map[]
    else
      var last := items[|items| - 1];
      var front := ByModel(items[..|items| - 1]);
      var known := if last.target.modelId in front then front[last.target.modelId] else 0.0;
      front[last.target.modelId := MaxReal(known, last.successLcb)]
  }

  ghost predicate IsMaximum(values: map<string, real>, best: real) {
    (exists m :: m in values && values[m] == best) && forall m :: m in values ==> values[m] <= best
  }

  /** What the gate lets through, given the best bound over all models. */
  function Accepted(values: map<string, real>, best: real, sMin: real, epsilon: real): set<string> {
    set m | m in values && values[m] >= sMin && values[m] >= best - MaxReal(0.0, epsilon)
  }

  function Highest(values: map<string, real>, best: real): set<string> {
    set m | m in values && values[m] >= best - TINY
  }

  ghost predicate IsGate(items: seq<Item>, sMin: real, epsilon: real, r: SuccessGateResult) {
    var values := ByModel(items);
    if items == [] then r == SuccessGateResult({}, 0.0, true)
    else
      && IsMaximum(values, r.bestLcb)
      && (r.fallback <==> Accepted(values, r.bestLcb, sMin, epsilon) == {})
      && r.models == if r.fallback then Highest(values, r.bestLcb) else Accepted(values, r.bestLcb, sMin, epsilon)
  }

  /** The best lower bound over all models. */
  function BestLcb(items: seq<Item>): (best: real)
    requires items != []
    ensures forall i :: 0 <= i < |items| ==> items[i].successLcb <= best
    ensures best >= 0.0
  {
    var last := MaxReal(0.0, items[|items| - 1].successLcb);
    if |items| == 1 then last
    else
      var front := BestLcb(items[..|items| - 1]);
      assert forall i :: 0 <= i < |items| - 1 ==> items[i] == items[..|items| - 1][i];
      MaxReal(front, last)
  }

  function GateOf(items: seq<Item>, sMin: real, epsilon: real): SuccessGateResult {
    if items == [] then SuccessGateResult({}, 0.0, true)
    else
      var values, best := ByModel(items), BestLcb(items);
      var accepted := Accepted(values, best, sMin, epsilon);
      if accepted != {} then SuccessGateResult(accepted, best, false)
      else SuccessGateResult(Highest(values, best), best, true)
  }

  lemma MaximumExtends(values: map<string, real>, best: real, model: string, lcb: real)
    requires values != map[] ==> IsMaximum(values, best)
    requires values == map[] ==> best == 0.0
    requires forall m :: m in values ==> values[m] >= 0.0
    ensures var known := if model in values then values[model] else 0.0;
            IsMaximum(values[model := MaxReal(known, lcb)], MaxReal(best, MaxReal(0.0, lcb)))
  {
    var known := if model in values then values[model] else 0.0;
    var after := values[model := MaxReal(known, lcb)];
    if MaxReal(0.0, lcb) >= best {
      assert after[model] == MaxReal(best, MaxReal(0.0, lcb));
    } else {
      var m :| m in values && values[m] == best;
      assert after[m] == best;
    }
  }

  lemma {:induction false} BestLcbIsMaximum(items: seq<Item>)
    requires items != []
    ensures IsMaximum(ByModel(items), BestLcb(items))
    ensures forall m :: m in ByModel(items) ==> ByModel(items)[m] >= 0.0
  {
    hide IsMaximum;
    var last, front := items[|items| - 1], items[..|items| - 1];
    if front != [] {
      BestLcbIsMaximum(front);
      assert front[0].target.modelId in ByModel(front);
      MaximumExtends(ByModel(front), BestLcb(front), last.target.modelId, last.successLcb);
    } else {
      MaximumExtends(map[], 0.0, last.target.modelId, last.successLcb);
    }
  }

  lemma GateIsUnique(items: seq<Item>, sMin: real, epsilon: real, r: SuccessGateResult)
    requires IsGate(items, sMin, epsilon, r)
    ensures r == GateOf(items, sMin, epsilon)
  {
    if items != [] {
      BestLcbIsMaximum(items);
    }
  }

  method SuccessGate(items: seq<Item>, sMin: real, epsilon: real) returns (r: SuccessGateResult)
    ensures IsGate(items, sMin, epsilon, r) && r == GateOf(items, sMin, epsilon)
  {
    var values: map<string, real> := map[];
    for i := 0 to |items|
      invariant values == ByModel(items[..i])
    {
      var model := items[i].target.modelId;
      assert items[..i + 1][..i] == items[..i];
      var known := if model in values then values[model] else 0.0;
      values := values[model := MaxReal(known, items[i].successLcb)];
    }
    assert items[..|items|] == items;
    assert items != [] ==> items[0].target.modelId in values;
    if values == map[] {
      return SuccessGateResult({}, 0.0, true);
    }
    var best := MaxValue(values);
    var accepted := Accepted(values, best, sMin, epsilon);
    if accepted != {} {
      r := SuccessGateResult(accepted, best, false);
    } else {
      r := SuccessGateResult(Highest(values, best), best, true);
    }
    GateIsUnique(items, sMin, epsilon, r);
  }

  method MaxValue(values: map<string, real>) returns (best: real)
    requires values != map[]
    ensures IsMaximum(values, best)
  {
    var first :| first in values;
    best := values[first];
    var todo := values.Keys - {first};
    ghost var argmax := first;
    while todo != {}
      invariant todo <= values.Keys
      invariant argmax in values && values[argmax] == best
      invariant forall m :: m in values && m !in todo ==> values[m] <= best
      decreases |todo|
    {
      var m :| m in todo;
      todo := todo - {m};
      if values[m] > best {
        best, argmax := values[m], m;
      }
    }
  }

  // ---- Cost gate ----

  function MinCost(items: seq<Item>): (best: real)
    requires items != []
    ensures forall i :: 0 <= i < |items| ==> best <= items[i].effectiveCost
    ensures exists i :: 0 <= i < |items| && best == items[i].effectiveCost
  {
    var last := items[|items| - 1].effectiveCost;
    if |items| == 1 then last
    else
      var front := MinCost(items[..|items| - 1]);
      assert forall i :: 0 <= i < |items| - 1 ==> items[i] == items[..|items| - 1][i];
      MinReal(front, last)
  }

  function CostLimit(items: seq<Item>, epsilon: real): real
    requires items != []
  {
    MinCost(items) * (1.0 + MaxReal(0.0, epsilon)) + TINY
  }

  function CostGate(items: seq<Item>, epsilon: real): seq<Item> {
    if items == [] then [] else Filter(items, (x: Item) => x.effectiveCost <= CostLimit(items, epsilon))
  }

  lemma CheapestPassesCostGate(items: seq<Item>, epsilon: real)
    requires items != [] && forall i :: 0 <= i < |items| ==> items[i].effectiveCost >= 0.0
    ensures CostGate(items, epsilon) != []
  {
    var i :| 0 <= i < |items| && MinCost(items) == items[i].effectiveCost;
    var best := MinCost(items);
    ProductIsNonNegative(best, MaxReal(0.0, epsilon));
    assert best * (1.0 + MaxReal(0.0, epsilon)) == best + best * MaxReal(0.0, epsilon);
    assert items[i] in CostGate(items, epsilon);
  }

  // ---- Placement ----

  predicate Faster(a: Item, b: Item) {
    a.latencySeconds < b.latencySeconds
  }

  /** Cold sessions: load balance first, then latency, local KV, and the ids. */
  predicate BetterCold(a: Item, b: Item) {
    if a.target.loadBalanceScore != b.target.loadBalanceScore then
      a.target.loadBalanceScore > b.target.loadBalanceScore
    else if a.latencySeconds != b.latencySeconds then a.latencySeconds < b.latencySeconds
    else if a.localKvTokens != b.localKvTokens then a.localKvTokens > b.localKvTokens
    else if a.target.endpointId != b.target.endpointId then StringLess(a.target.endpointId, b.target.endpointId)
    else StringLess(a.target.replicaId, b.target.replicaId)
  }

  function FasterOrder(): (Item, Item) -> bool {
    (a: Item, b: Item) => Faster(a, b)
  }

  function ColdOrder(): (Item, Item) -> bool {
    (a: Item, b: Item) => BetterCold(a, b)
  }

  lemma FasterIsOrder()
    ensures StrictWeakOrder(FasterOrder())
  {
  }

  lemma ColdCompares(a: Item, b: Item, c: Item)
    ensures !BetterCold(a, a)
    ensures BetterCold(a, b) && BetterCold(b, c) ==> BetterCold(a, c)
    ensures BetterCold(a, c) ==> BetterCold(a, b) || BetterCold(b, c)
  {
    StringCompares(a.target.endpointId, b.target.endpointId, c.target.endpointId);
    StringCompares(a.target.replicaId, b.target.replicaId, c.target.replicaId);
  }

  lemma ColdIsOrder()
    ensures StrictWeakOrder(ColdOrder())
  {
    hide BetterCold;
    forall a, b, c
      ensures !ColdOrder()(a, a)
      ensures ColdOrder()(a, b) && ColdOrder()(b, c) ==> ColdOrder()(a, c)
      ensures ColdOrder()(a, c) ==> ColdOrder()(a, b) || ColdOrder()(b, c)
    {
      ColdCompares(a, b, c);
    }
  }

  predicate IsLocal(view: SchedulingView, t: TargetCandidate) {
    || (view.preferredReplica != "" && t.replicaId == view.preferredReplica)
    || (view.preferredEndpoint != "" && t.endpointId == view.preferredEndpoint)
    || t.sessionLocal
  }

  function Fastest(items: seq<Item>): Item
    requires items != []
  {
    items[FirstBest(items, FasterOrder())]
  }

  datatype Placement = Placement(item: Item, reason: DecisionReason)

  function ChoosePlacement(view: SchedulingView, items: seq<Item>): Placement
    requires items != []
  {
    if view.sessionTurn <= 0 then
      var best := FirstBest(items, ColdOrder());
      Placement(items[best], if best != FirstBest(items, FasterOrder()) then LoadBalance else LatencyTiebreak)
    else
      var local := Filter(items, (x: Item) => IsLocal(view, x.target));
      var remote := Filter(items, (x: Item) => !IsLocal(view, x.target));
      if local != [] && remote != [] then
        if Fastest(local).latencySeconds <= Fastest(remote).latencySeconds + MaxReal(0.0, view.migrationPenalty) then
          Placement(Fastest(local), KvAffinity)
        else Placement(Fastest(remote), LatencyTiebreak)
      else if local != [] then Placement(Fastest(local), KvAffinity)
      else Placement(Fastest(items), LatencyTiebreak)
  }

  lemma FastestIsFastest(items: seq<Item>)
    requires items != []
    ensures Fastest(items) in items
    ensures forall x :: x in items ==> Fastest(items).latencySeconds <= x.latencySeconds
  {
    FasterIsOrder();
    FirstBestIsUnbeaten(items, FasterOrder());
    forall x | x in items ensures Fastest(items).latencySeconds <= x.latencySeconds {
      var i :| 0 <= i < |items| && items[i] == x;
      assert !FasterOrder()(items[i], Fastest(items));
    }
  }

  /** Warm sessions lose at most the migration penalty; cold ones get an unbeaten candidate. */
  lemma PlacementIsNearFastest(view: SchedulingView, items: seq<Item>)
    requires items != []
    ensures ChoosePlacement(view, items).item in items
    ensures view.sessionTurn > 0 ==> forall x :: x in items ==>
              ChoosePlacement(view, items).item.latencySeconds <= x.latencySeconds + MaxReal(0.0, view.migrationPenalty)
    ensures view.sessionTurn <= 0 ==> forall x :: x in items ==> !BetterCold(x, ChoosePlacement(view, items).item)
  {
    hide IsLocal, BetterCold;
    if view.sessionTurn <= 0 {
      ColdIsOrder();
      FirstBestIsUnbeaten(items, ColdOrder());
      forall x | x in items ensures !BetterCold(x, ChoosePlacement(view, items).item) {
        var i :| 0 <= i < |items| && items[i] == x;
        assert !ColdOrder()(items[i], items[FirstBest(items, ColdOrder())]);
      }
    } else {
      var local := Filter(items, (x: Item) => IsLocal(view, x.target));
      var remote := Filter(items, (x: Item) => !IsLocal(view, x.target));
      assert forall x :: x in items ==> x in local || x in remote;
      FastestIsFastest(items);
      if local != [] {
        FastestIsFastest(local);
      }
      if remote != [] {
        FastestIsFastest(remote);
      }
    }
  }
}
