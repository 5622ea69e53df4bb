// Records read and produced by the Success-First scheduler.

module SchedulerTypes {
  import opened Basics

  datatype TargetCandidate = TargetCandidate(
    modelId: string, endpointId: string, replicaId: string, tier: string,
    capabilities: set<string>, contextWindowTokens: int,
    region: string, securityDomain: string, cacheDomain: string,
    available: bool, healthy: bool, supportsRemoteKv: bool, compatible: bool,
    inferenceCost: real, inputCostPerToken: real, outputCostPerToken: real,
    kvFetchCostPerToken: real, kvRecomputeCostPerToken: real, fallbackPathCost: real, routingOverheadCost: real,
    queueLatencySeconds: real, kvFetchLatencyPerToken: real, kvRecomputeLatencyPerToken: real,
    prefillTokensPerSecond: real, decodeTokensPerSecond: real, loadBalanceScore: real,
    localKvTokens: int, remoteKvTokens: int,
    requiresRemoteKv: bool, sessionLocal: bool, capabilityRank: int)
  {
    function Key(): TargetKey {
      (modelId, endpointId, replicaId)
    }
  }

  type TargetKey = (string, string, string)

  datatype SchedulingView = SchedulingView(
    sessionId: string, taskId: string,
    securityDomain: string, securitySensitive: bool, sessionTurn: int, phase: string,
    requiredCapabilities: set<string>, allowedModels: set<string>, allowedRegions: set<string>,
    allowedCacheDomains: set<string>, remoteKvAllowed: bool,
    errorSeverity: real, spinningScore: real, recoveryScore: real,
    consecutiveFailures: int, failureStreak: int, criticalError: bool, criticalStep: bool,
    contextCompactionNeeded: bool, stateCompleteness: real,
    promptTokens: int, predictedOutputTokens: int,
    costBudget: Option<real>, preferredEndpoint: string, preferredReplica: string,
    currentModel: string, currentTier: string, stableSteps: int, migrationPenalty: real)

  datatype SchedulerConfig = SchedulerConfig(
    sMin: real, epsilonSuccess: real, beta: real, epsilonCost: real, lambdaFuture: real,
    failureStreakOverride: int, deescalationStableSteps: int,
    errorSeverityOverride: real, spinningScoreOverride: real, minStateCompletenessForDowngrade: real,
    predictorUncertaintyOverride: real)

  datatype SuccessEstimate = SuccessEstimate(
    predictedSuccess: real, uncertainty: real, confidence: real, notes: seq<string>)
  {
    function Lcb(beta: real): (lcb: real)
      ensures 0.0 <= lcb <= 1.0
    {
      MaxReal(0.0, MinReal(1.0, predictedSuccess - beta * uncertainty))
    }
  }

  /** The exchangeable parts. A predictor that fails names its error; the future value of kept KV is any number. */
  datatype Environment = Environment(
    config: SchedulerConfig,
    predict: (SchedulingView, TargetCandidate) -> Result<SuccessEstimate, string>,
    futureKvValue: (SchedulingView, TargetCandidate, int, int) -> real)

  datatype FilterReason =
    | EndpointUnavailable
    | EndpointUnhealthy
    | Incompatible
    | ContextWindowExceeded
    | MissingCapabilities(missing: set<string>)
    | ModelNotAllowed
    | RegionNotAllowed
    | CacheDomainNotAllowed
    | SecurityDomainMismatch
    | RemoteKvRequiredButForbidden
    | HardCostBudgetExceeded

  datatype OverrideReason =
    | CriticalError
    | HighErrorSeverity
    | FailureStreak
    | ConsecutiveFailures
    | Spinning
    | RecoveryOrReplanning
    | ContextCompaction
    | CriticalPathStep
    | SecuritySensitive
    | ReplanningOrBlocked
    | StateUnknownSafeFallback
    | PredictorUncertaintyOrOod

  datatype FilterRejection = FilterRejection(key: TargetKey, reasons: seq<FilterReason>)

  datatype KvBreakdown = KvBreakdown(local: int, remote: int, miss: int)

  /** A target with what the stages have worked out about it so far; `tier` is the evaluation's own copy. */
  datatype Item = Item(
    target: TargetCandidate,
    tier: string,
    estimate: SuccessEstimate,
    successLcb: real,
    effectiveCost: real,
    localKvTokens: int,
    latencySeconds: real)

  datatype DecisionReason =
    | CriticalOverride
    | Fallback
    | SuccessDominant
    | KvAffinity
    | LoadBalance
    | CostDominant
    | LatencyTiebreak
    | HysteresisHold

  datatype TraceVerdict =
    | Evaluated(successLcb: real, successGate: bool)
    | FilteredOut(reasons: seq<FilterReason>)
    | CriticalOverrideCapableOnly

  datatype TraceEntry = TraceEntry(key: TargetKey, tier: string, verdict: TraceVerdict)

  datatype RoutingDecision = RoutingDecision(
    selected: TargetKey,
    successLcb: real,
    predictedCost: real,
    predictedLatencySeconds: real,
    reason: DecisionReason,
    trace: seq<TraceEntry>,
    overrideReasons: seq<OverrideReason>,
    fallback: bool)

  datatype NoFeasibleTarget =
    | NoTargets
    | AllFiltered(rejections: seq<FilterRejection>)
    | NoUsableCandidate
    | AllOverBudget(overBudget: seq<TargetKey>)

  function TierRank(tier: string): int {
    var t := Lower(tier);
    if t == "capable" || t == "strong" then 1
    else if t == "frontier" || t == "premium" then 2
    else 0
  }
}
