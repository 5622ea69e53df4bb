// Records shared by the control plane: predictions, decisions, outcomes and feedback.

module ControlTypes {
  import opened Basics

  datatype Performance = Performance(
    ttftSeconds: Option<real>, tpotSeconds: Option<real>, e2eSeconds: Option<real>,
    throughput: Option<real>, transferEtaSeconds: Option<real>)

  datatype Reliability = Reliability(
    successProbability: Option<real>, oomProbability: Option<real>,
    timeoutProbability: Option<real>, sloViolationProbability: Option<real>)

  datatype Cost = Cost(
    gpuSeconds: Option<real>, memoryTime: Option<real>,
    networkBytes: Option<int>, storageIoBytes: Option<int>, monetaryCost: Option<real>)

  datatype FutureState = FutureState(
    queueDepth: Option<real>, hbmPressure: Option<real>, kvLocation: Option<string>,
    demand: Option<real>, contention: Option<real>, predictedHbmBytes: Option<real>)

  datatype Prediction = Prediction(
    predictionId: string, snapshotId: string, candidateId: string,
    performance: Performance, reliability: Reliability, cost: Cost, future: FutureState,
    confidence: real, modelVersion: string, applicability: string,
    freshnessMs: map<string, int>, fallback: string, notes: seq<string>)

  /** The names of action parameters and preconditions. */
  datatype Name =
    | QueueSeconds | TransferBytes | TransferSetupSeconds | EffectiveBwBytesPerSecond
    | HbmUsedBytes | HbmReservedBytes | PredictedKvGrowthBytes | HbmReleaseBytes
    | HbmCapacityBytes | PromptTokens | CachedTokens | PrefillTokensPerSecond
    | ExpectedOutputTokens | DecodeTokensPerSecond | DeadlineSeconds | BaseSuccessProbability
    | AllocatedGpu | StorageIoBytes | FixedCost | GpuSecondCost
    | NetworkByteCost | StorageIoByteCost | QueueDepth | QueueDelta
    | GpuUtilization | TargetKvLocation | KvRef | SourceLocation
    | TargetLocation | CandidateId | SizeBytes | SnapshotId
    | SnapshotLogicalTime | ExpectedLocation | ExpectedStateOwner | ActionOwner
    | ExpectedTransferState | ActionType
    | Custom(name: string)
  {
    function Text(): string {
      match this
      case QueueSeconds => "queue_seconds"
      case TransferBytes => "transfer_bytes"
      case TransferSetupSeconds => "transfer_setup_seconds"
      case EffectiveBwBytesPerSecond => "effective_bw_bytes_per_second"
      case HbmUsedBytes => "hbm_used_bytes"
      case HbmReservedBytes => "hbm_reserved_bytes"
      case PredictedKvGrowthBytes => "predicted_kv_growth_bytes"
      case HbmReleaseBytes => "hbm_release_bytes"
      case HbmCapacityBytes => "hbm_capacity_bytes"
      case PromptTokens => "prompt_tokens"
      case CachedTokens => "cached_tokens"
      case PrefillTokensPerSecond => "prefill_tokens_per_second"
      case ExpectedOutputTokens => "expected_output_tokens"
      case DecodeTokensPerSecond => "decode_tokens_per_second"
      case DeadlineSeconds => "deadline_seconds"
      case BaseSuccessProbability => "base_success_probability"
      case AllocatedGpu => "allocated_gpu"
      case StorageIoBytes => "storage_io_bytes"
      case FixedCost => "fixed_cost"
      case GpuSecondCost => "gpu_second_cost"
      case NetworkByteCost => "network_byte_cost"
      case StorageIoByteCost => "storage_io_byte_cost"
      case QueueDepth => "queue_depth"
      case QueueDelta => "queue_delta"
      case GpuUtilization => "gpu_utilization"
      case TargetKvLocation => "target_kv_location"
      case KvRef => "kv_ref"
      case SourceLocation => "source_location"
      case TargetLocation => "target_location"
      case CandidateId => "candidate_id"
      case SizeBytes => "size_bytes"
      case SnapshotId => "snapshot_id"
      case SnapshotLogicalTime => "snapshot_logical_time"
      case ExpectedLocation => "expected_location"
      case ExpectedStateOwner => "expected_state_owner"
      case ActionOwner => "action_owner"
      case ExpectedTransferState => "expected_transfer_state"
      case ActionType => "action_type"
      case Custom(name) => name
    }
  }

  /** The value of an action parameter. */
  datatype Parameter = Num(n: real) | Text(s: string)

  datatype Reservation = Reservation(resourceRef: string, owner: string, hbmBytes: real, expiresAt: int, status: string)

  datatype Action = Action(
    actionId: string, targetComponent: string, actionType: string,
    parameters: map<Name, Parameter>, preconditions: map<Name, Option<Parameter>>,
    idempotencyKey: string, reservations: seq<Reservation>, timeoutSeconds: real,
    rollback: map<Name, Parameter>, dryRun: bool)

  datatype DecisionRecord = DecisionRecord(
    decisionId: string, snapshotId: string, policyVersion: string,
    candidateIds: seq<string>, predictionIds: seq<string>, modelVersions: seq<string>,
    selectedAction: Action, reason: string, constraints: seq<string>, timestamp: int)

  datatype ActionStatus = Started | Committed | Failed | Cancelled | RolledBack

  datatype Outcome = Outcome(
    actionId: string, status: ActionStatus, startedAt: int, completedAt: int,
    actualLatencySeconds: Option<real>, actualCost: Option<real>, actualSuccess: Option<bool>,
    resourceDelta: map<string, real>, message: string)

  datatype PredictionError = PredictionError(
    latencyAbsolute: Option<real>, latencyPercentage: Option<real>,
    costAbsolute: Option<real>, costPercentage: Option<real>,
    successAbsolute: Option<real>, successBrier: Option<real>)

  datatype Kpis = Kpis(actualLatency: Option<real>, actualCost: Option<real>, actualSuccess: Option<real>)

  datatype CalibrationSample = CalibrationSample(
    predictedProbability: real, observedSuccess: real, modelVersion: string, applicability: string)

  datatype Feedback = Feedback(
    feedbackId: string, timestamp: int, decisionId: string, actionId: string, predictionId: string,
    outcome: Outcome, errors: PredictionError, kpis: Kpis, calibration: Option<CalibrationSample>,
    replayPointer: string)

  datatype JoinedRecord = JoinedRecord(
    decision: DecisionRecord, predictions: seq<Prediction>, outcome: Option<Outcome>, feedback: Option<Feedback>)

  /** The `candidate_id` parameter of an action, unless it is absent or falsy. */
  function NamedCandidate(action: Action): Option<Parameter> {
    if CandidateId !in action.parameters then None
    else
      var value := action.parameters[CandidateId];
      if value == Text("") || value == Num(0.0) then None else Some(value)
  }

  function CandidateIds(predictions: seq<Prediction>): seq<string> {
    seq(|predictions|, i requires 0 <= i < |predictions| => predictions[i].candidateId)
  }

  function PredictionIds(predictions: seq<Prediction>): seq<string> {
    seq(|predictions|, i requires 0 <= i < |predictions| => predictions[i].predictionId)
  }

  function ForCandidate(predictions: seq<Prediction>, id: Parameter): seq<Prediction> {
    Filter(predictions, (p: Prediction) => id == Text(p.candidateId))
  }

  /** The prediction an action was chosen for: the only one, or the only one with the named candidate. */
  function ChosenPrediction(action: Action, predictions: seq<Prediction>): Option<Prediction> {
    match NamedCandidate(action)
    case None => if |predictions| == 1 then Some(predictions[0]) else None
    case Some(id) =>
      var matches := ForCandidate(predictions, id);
      if |matches| == 1 then Some(matches[0]) else None
  }

  predicate DistinctCandidates(predictions: seq<Prediction>) {
    forall i, j :: 0 <= i < j < |predictions| ==> predictions[i].candidateId != predictions[j].candidateId
  }

  // ---- The only prediction for a candidate ----

  ghost predicate OnlyMatch(values: seq<Prediction>, id: Parameter, i: nat) {
    forall j :: 0 <= j < |values| ==> (Text(values[j].candidateId) == id <==> j == i)
  }

  lemma NoMatch(values: seq<Prediction>, id: Parameter)
    ensures ForCandidate(values, id) == [] <==> forall j :: 0 <= j < |values| ==> Text(values[j].candidateId) != id
  {
    var matches := ForCandidate(values, id);
    if matches != [] {
      assert matches[0] in values && Text(matches[0].candidateId) == id;
    }
    if j :| 0 <= j < |values| && Text(values[j].candidateId) == id {
      assert values[j] in matches;
    }
  }

  lemma MatchExtends(values: seq<Prediction>, id: Parameter)
    requires values != []
    ensures var n := |values| - 1;
            var front := values[..n];
            && (forall i: nat :: i < n ==>
                  (OnlyMatch(values, id, i) <==> OnlyMatch(front, id, i) && Text(values[n].candidateId) != id))
            && (OnlyMatch(values, id, n) <==>
                  Text(values[n].candidateId) == id && forall j :: 0 <= j < n ==> Text(front[j].candidateId) != id)
  {
  }

  lemma {:induction false} SingleMatch(values: seq<Prediction>, id: Parameter)
    ensures |ForCandidate(values, id)| == 1 <==>
            exists i: nat :: i < |values| && OnlyMatch(values, id, i)
    ensures forall i: nat :: i < |values| && OnlyMatch(values, id, i) ==> ForCandidate(values, id) == [values[i]]
  {
    hide OnlyMatch;
    if values != [] {
      var n := |values| - 1;
      var front := values[..n];
      SingleMatch(front, id);
      MatchExtends(values, id);
      NoMatch(front, id);
      assert Filter(values, (p: Prediction) => id == Text(p.candidateId)) == ForCandidate(values, id);
    }
  }
}
