// Planning what to do with an agent's KV cache: candidates, selection and the resulting decision.

module KVPlanner {
  import opened Basics
  import opened Contracts
  import opened PlaneSpec
  import opened ControlTypes
  import opened AnalyticalModel
  import opened JournalSpec

  // ---- Records ----

  datatype TargetRecord = TargetRecord(
    locationRef: string, tier: string, effectiveBw: real, setupSeconds: real, hbmCapacityBytes: int,
    networkByteCost: real, storageIoByteCost: real, available: bool, healthy: bool)
  {
    predicate WellFormed() {
      && locationRef != "" && tier != ""
      && effectiveBw >= 0.0 && setupSeconds >= 0.0 && hbmCapacityBytes >= 0
      && networkByteCost >= 0.0 && storageIoByteCost >= 0.0
    }

    predicate IsHbm() {
      Lower(tier) in {"hbm", "gpu", "gpu_hbm"}
    }
  }

  type Target = t: TargetRecord | t.WellFormed()
    witness TargetRecord("location", "hbm", 0.0, 0.0, 0, 0.0, 0.0, true, true)

  datatype KvAction = Keep | Offload | Prefetch | Migrate {
    function Name(): string {
      match this
      case Keep => "keep"
      case Offload => "offload"
      case Prefetch => "prefetch"
      case Migrate => "migrate"
    }
  }

  datatype Owner = Owner(componentRef: string, prefixes: seq<string>, allowed: set<KvAction>) {
    predicate Valid() {
      componentRef != "" && prefixes != [] && "" !in prefixes && Keep in allowed
    }

    predicate Manages(kvRef: string) {
      exists p :: p in prefixes && p <= kvRef
    }
  }

  datatype Request = Request(
    snapshotId: string, kvRef: string, targets: seq<Target>, agentRef: string, expectedStateOwner: string,
    policyVersion: string)

  /** `parseTime` reads a timestamp written as text and `format` renders a number; both come from the platform. */
  datatype Config = Config(
    minCompleteness: real, minConfidence: real, offloadPressure: real, offloadMaxReuse: real,
    prefetchMinReuse: real, prefetchHorizonSeconds: real, maxPrefetchPressure: real, reservationTtl: Time,
    offloadPhases: seq<string>, stableStates: seq<string>,
    parseTime: string -> Option<Time>, format: real -> string)

  datatype PlanError =
    | UnknownSnapshotToken
    | NotManaged
    | UnknownEntity
    | NoStateOwner
    | StateOwnerChanged
    | UnknownActionOwner
    | NoTargets
    | DuplicateTargets
    | MissingState(key: string)
    | BadState(key: string)
    | LocationNotOffered
    | NoKeepBaseline
    | PredictionRefused
    | JournalRefused(cause: JournalError)

  // ---- Ownership ----

  /** The state's own owner, if this controller may act on the state at all. */
  function StateOwner(entities: map<string, Entity>, owner: Owner, request: Request): Result<string, PlanError> {
    if !owner.Manages(request.kvRef) then Err(NotManaged)
    else if request.kvRef !in entities || entities[request.kvRef].entityType != "stateful_object" then Err(UnknownEntity)
    else if entities[request.kvRef].ownerComponentRef == "" then Err(NoStateOwner)
    else if request.expectedStateOwner != ""
            && entities[request.kvRef].ownerComponentRef != request.expectedStateOwner then Err(StateOwnerChanged)
    else if owner.componentRef !in entities || entities[owner.componentRef].entityType != "component" then
      Err(UnknownActionOwner)
    else Ok(entities[request.kvRef].ownerComponentRef)
  }

  // ---- Reading the snapshot ----

  function StateNumber(snap: Snapshot, ref: string, key: string): (r: Result<Option<real>, PlanError>)
    ensures r.Ok? && r.value.Some? ==> r.value.value >= 0.0
  {
    if (ref, key) !in snap.values then Ok(None)
    else
      match snap.values[(ref, key)].value
      case IntValue(i) => if i < 0 then Err(BadState(key)) else Ok(Some(i as real))
      case FloatValue(x) => if x < 0.0 then Err(BadState(key)) else Ok(Some(x))
      case _ => Err(BadState(key))
  }

  function StateText(snap: Snapshot, ref: string, key: string): Result<Option<string>, PlanError> {
    if (ref, key) !in snap.values then Ok(None)
    else
      match snap.values[(ref, key)].value
      case TextValue(s) => Ok(Some(s))
      case _ => Err(BadState(key))
  }

  function StateTime(cfg: Config, snap: Snapshot, ref: string, key: string): Result<Option<Time>, PlanError> {
    if (ref, key) !in snap.values then Ok(None)
    else
      match snap.values[(ref, key)].value
      case TimeValue(t) => Ok(Some(t))
      case TextValue(s) =>
        (match cfg.parseTime(s)
         case Some(t) => Ok(Some(t))
         case None => Err(BadState(key)))
      case _ => Err(BadState(key))
  }

  const USED := "resource.hbm.used"
  const RESERVED := "resource.hbm.reserved"

  /** The observed pressure of a location that is HBM of known capacity. */
  function ObservedPressure(snap: Snapshot, t: Target): Result<Option<real>, PlanError> {
    if !t.IsHbm() || t.hbmCapacityBytes <= 0 then Ok(None)
    else
      var used :- StateNumber(snap, t.locationRef, USED);
      var reserved :- StateNumber(snap, t.locationRef, RESERVED);
      Ok(if used.Some? && reserved.Some? then Some((used.value + reserved.value) / t.hbmCapacityBytes as real) else None)
  }

  datatype Situation = Situation(
    snap: Snapshot, size: nat, current: Target,
    reuse: Option<real>, transferState: Option<string>, phase: Option<string>,
    resumeSeconds: Option<real>, pressure: Option<real>)

  function FindTarget(targets: seq<Target>, ref: string): (r: Option<Target>)
    ensures r.Some? ==> r.value in targets && r.value.locationRef == ref
    ensures r.None? ==> forall t :: t in targets ==> t.locationRef != ref
  {
    if targets == [] then None
    else if targets[0].locationRef == ref then Some(targets[0])
    else FindTarget(targets[1..], ref)
  }

  predicate DistinctTargets(targets: seq<Target>) {
    forall i, j :: 0 <= i < j < |targets| ==> targets[i].locationRef != targets[j].locationRef
  }

  function SecondsUntil(snap: Snapshot, t: Time): real {
    MaxReal(0.0, (t - snap.createdAt) as real / 1000000.0)
  }

  function Observe(cfg: Config, snap: Snapshot, request: Request): Result<Situation, PlanError> {
    if request.targets == [] then Err(NoTargets)
    else if !DistinctTargets(request.targets) then Err(DuplicateTargets)
    else
      var size :- StateNumber(snap, request.kvRef, "kv.size");
      if size.None? then Err(MissingState("kv.size"))
      else
        var location :- StateText(snap, request.kvRef, "kv.location");
        if location.None? || location.value == "" then Err(MissingState("kv.location"))
        else
          match FindTarget(request.targets, location.value)
          case None => Err(LocationNotOffered)
          case Some(current) =>
            var reuse :- StateNumber(snap, request.kvRef, "kv.reuse_probability");
            var state :- StateText(snap, request.kvRef, "kv.transfer_state");
            var phase :- if request.agentRef != "" then StateText(snap, request.agentRef, "agent.phase") else Ok(None);
            var resume :- if request.agentRef != "" then StateTime(cfg, snap, request.agentRef, "agent.expected_resume_time")
                          else Ok(None);
            var pressure :- ObservedPressure(snap, current);
            Ok(Situation(snap, size.value.Floor, current, reuse, state, phase,
                         if resume.Some? then Some(SecondsUntil(snap, resume.value)) else None, pressure))
  }

  // ---- Candidates ----

  function KindOf(current: Target, target: Target): KvAction {
    if current.locationRef == target.locationRef then Keep
    else if current.IsHbm() && !target.IsHbm() then Offload
    else if !current.IsHbm() && target.IsHbm() then Prefetch
    else Migrate
  }

  /** A candidate with the target and action it was made for. */
  datatype Offer = Offer(candidate: CandidateAction, target: Target, kind: KvAction)

  function HbmResource(current: Target, target: Target): Option<Target> {
    if target.IsHbm() then Some(target) else if current.IsHbm() then Some(current) else None
  }

  function ResourceNumber(snap: Snapshot, resource: Option<Target>, key: string): Result<Option<real>, PlanError> {
    if resource.None? then Ok(None) else StateNumber(snap, resource.value.locationRef, key)
  }

  function With(m: map<Name, Parameter>, name: Name, value: Option<real>): map<Name, Parameter> {
    if value.Some? then m[name := Num(value.value)] else m
  }

  function BaseParameters(request: Request, sit: Situation, target: Target): map<Name, Parameter> {
    var current, size := sit.current, sit.size as real;
    var moves := target.locationRef != current.locationRef;
    var bytes := if moves then size else 0.0;
    map[
      KvRef := Text(request.kvRef),
      SourceLocation := Text(current.locationRef),
      TargetLocation := Text(target.locationRef),
      TargetKvLocation := Text(target.locationRef),
      TransferBytes := Num(bytes),
      TransferSetupSeconds := Num(target.setupSeconds),
      NetworkByteCost := Num(target.networkByteCost),
      StorageIoBytes := Num(if target.IsHbm() then 0.0 else bytes),
      StorageIoByteCost := Num(target.storageIoByteCost),
      PredictedKvGrowthBytes := Num(if target.IsHbm() && moves then size else 0.0),
      HbmReleaseBytes := Num(if current.IsHbm() && !target.IsHbm() then size else 0.0),
      BaseSuccessProbability := Num(1.0)]
  }

  function ParametersFor(
      request: Request, sit: Situation, target: Target, used: Option<real>, reserved: Option<real>): map<Name, Parameter>
  {
    var nothingSent := target.locationRef == sit.current.locationRef || sit.size == 0;
    var resource := HbmResource(sit.current, target);
    var a := With(BaseParameters(request, sit, target), EffectiveBwBytesPerSecond,
                  if nothingSent || target.effectiveBw > 0.0 then Some(target.effectiveBw) else None);
    var b := With(a, HbmCapacityBytes,
                  if resource.Some? && resource.value.hbmCapacityBytes > 0 then
                    Some(resource.value.hbmCapacityBytes as real)
                  else None);
    With(With(b, HbmUsedBytes, used), HbmReservedBytes, reserved)
  }

  function Decimal(n: nat): string {
    if n < 10 then [('0' as int + n) as char] else Decimal(n / 10) + [('0' as int + n % 10) as char]
  }

  function CandidateIdFor(snap: Snapshot, kvRef: string, kind: KvAction, locationRef: string): string {
    "candidate:kv:" + Decimal(snap.logicalTime) + ":" + kvRef + ":" + (kind.Name() + ":" + locationRef)
  }

  /** The offer for one target, unless the owner may not act that way or the target cannot be used. */
  function OfferFor(owner: Owner, request: Request, sit: Situation, target: Target): Result<Option<Offer>, PlanError> {
    var kind := KindOf(sit.current, target);
    if kind !in owner.allowed then Ok(None)
    else if target.locationRef != sit.current.locationRef && (!target.available || !target.healthy) then Ok(None)
    else
      var resource := HbmResource(sit.current, target);
      var used :- ResourceNumber(sit.snap, resource, USED);
      var reserved :- ResourceNumber(sit.snap, resource, RESERVED);
      Ok(Some(Offer(
                CandidateAction(CandidateIdFor(sit.snap, request.kvRef, kind, target.locationRef), kind.Name(),
                                owner.componentRef, ParametersFor(request, sit, target, used, reserved)),
                target, kind)))
  }

  function OffersFor(owner: Owner, request: Request, sit: Situation, targets: seq<Target>): Result<seq<Offer>, PlanError> {
    if targets == [] then Ok([])
    else
      var front :- OffersFor(owner, request, sit, targets[..|targets| - 1]);
      var last :- OfferFor(owner, request, sit, targets[|targets| - 1]);
      Ok(if last.Some? then front + [last.value] else front)
  }

  predicate HasKeep(offers: seq<Offer>) {
    exists i :: 0 <= i < |offers| && offers[i].kind == Keep
  }

  function Offers(owner: Owner, request: Request, sit: Situation): Result<seq<Offer>, PlanError> {
    var offers :- OffersFor(owner, request, sit, request.targets);
    if HasKeep(offers) then Ok(offers) else Err(NoKeepBaseline)
  }

  // ---- Selection ----

  datatype Choice = Choice(offer: Offer, prediction: Prediction)

  function Pair(offers: seq<Offer>, predictions: seq<Prediction>): seq<Choice>
    requires |offers| == |predictions|
  {
    seq(|offers|, i requires 0 <= i < |offers| => Choice(offers[i], predictions[i]))
  }

  datatype Wish = Wish(kind: KvAction, reason: string)

  /** What the situation calls for, if anything. */
  function WishOf(cfg: Config, sit: Situation): Option<Wish> {
    if && sit.current.IsHbm()
       && sit.phase.Some? && sit.phase.value in cfg.offloadPhases
       && sit.pressure.Some? && sit.pressure.value >= cfg.offloadPressure
       && sit.reuse.Some? && sit.reuse.value <= cfg.offloadMaxReuse
    then Some(Wish(Offload, "hbm_pressure_offload"))
    else if && !sit.current.IsHbm()
            && sit.resumeSeconds.Some? && sit.resumeSeconds.value <= cfg.prefetchHorizonSeconds
            && sit.reuse.Some? && sit.reuse.value >= cfg.prefetchMinReuse
    then Some(Wish(Prefetch, "expected_resume_prefetch"))
    else None
  }

  predicate Trusted(cfg: Config, kind: KvAction, x: Choice) {
    && x.offer.kind == kind
    && x.prediction.confidence >= cfg.minConfidence
    && x.prediction.fallback == "none"
    && x.prediction.performance.transferEtaSeconds.Some?
  }

  predicate FitsMemory(cfg: Config, x: Choice) {
    x.prediction.future.hbmPressure.Some? && x.prediction.future.hbmPressure.value <= cfg.maxPrefetchPressure
  }

  function TrustedChoices(cfg: Config, kind: KvAction, choices: seq<Choice>): seq<Choice> {
    Filter(choices, (x: Choice) => Trusted(cfg, kind, x))
  }

  function SafeChoices(cfg: Config, choices: seq<Choice>): seq<Choice> {
    Filter(choices, (x: Choice) => FitsMemory(cfg, x))
  }

  /** An unknown cost counts as infinite. */
  predicate Cheaper(a: Option<real>, b: Option<real>) {
    a.Some? && (b.None? || a.value < b.value)
  }

  /** Faster first, then cheaper, then by location. */
  predicate Better(a: Choice, b: Choice) {
    var x, y := a.prediction.performance.transferEtaSeconds, b.prediction.performance.transferEtaSeconds;
    var c, d := a.prediction.cost.monetaryCost, b.prediction.cost.monetaryCost;
    if x != y then Cheaper(x, y)
    else if c != d then Cheaper(c, d)
    else StringLess(a.offer.target.locationRef, b.offer.target.locationRef)
  }

  function BetterOrder(): (Choice, Choice) -> bool {
    (a: Choice, b: Choice) => Better(a, b)
  }

  function KeepIndex(choices: seq<Choice>): (i: nat)
    requires exists i :: 0 <= i < |choices| && choices[i].offer.kind == Keep
    ensures i < |choices| && choices[i].offer.kind == Keep
  {
    if choices[0].offer.kind == Keep then 0 else KeepIndex(choices[1..]) + 1
  }

  datatype Selection = Selection(choice: Choice, reason: string)

  function Select(cfg: Config, sit: Situation, choices: seq<Choice>): Selection
    requires exists i :: 0 <= i < |choices| && choices[i].offer.kind == Keep
  {
    var keep := choices[KeepIndex(choices)];
    var wish := WishOf(cfg, sit);
    if sit.snap.completeness < cfg.minCompleteness then Selection(keep, "snapshot_incomplete_keep")
    else if wish.None? then Selection(keep, "baseline_keep")
    else if sit.transferState.None? || sit.transferState.value !in cfg.stableStates then
      Selection(keep, "transfer_state_unsafe_keep")
    else
      var trusted := TrustedChoices(cfg, wish.value.kind, choices);
      var safe := if wish.value.kind == Prefetch then SafeChoices(cfg, trusted) else trusted;
      if trusted == [] then Selection(keep, "prediction_fallback_keep")
      else if safe == [] then Selection(keep, "resource_guard_keep")
      else Selection(safe[FirstBest(safe, BetterOrder())], wish.value.reason)
  }

  // ---- The decision ----

  function InsertSorted(s: seq<string>, x: string): seq<string> {
    if s == [] then [x]
    else if x == s[0] then s
    else if StringLess(x, s[0]) then [x] + s
    else [s[0]] + InsertSorted(s[1..], x)
  }

  /** The distinct model versions in ascending order. */
  function SortedVersions(predictions: seq<Prediction>): seq<string> {
    if predictions == [] then []
    else InsertSorted(SortedVersions(predictions[..|predictions| - 1]), predictions[|predictions| - 1].modelVersion)
  }

  function ActionFor(
      cfg: Config, owner: Owner, request: Request, sit: Situation, stateOwner: string, selected: Choice, actionId: string)
    : Action
  {
    var target, candidate := selected.offer.target, selected.offer.candidate;
    var moves := target.locationRef != sit.current.locationRef;
    Action(
      actionId, owner.componentRef, selected.offer.kind.Name(),
      candidate.parameters[CandidateId := Text(candidate.candidateId)][SizeBytes := Num(sit.size as real)],
      map[SnapshotId := Some(Text(sit.snap.token)),
          SnapshotLogicalTime := Some(Num(sit.snap.logicalTime as real)),
          KvRef := Some(Text(request.kvRef)),
          ExpectedLocation := Some(Text(sit.current.locationRef)),
          ExpectedStateOwner := Some(Text(stateOwner)),
          ActionOwner := Some(Text(owner.componentRef)),
          ExpectedTransferState := if sit.transferState.Some? then Some(Text(sit.transferState.value)) else None],
      "kv:" + sit.snap.token + ":" + candidate.candidateId,
      if target.IsHbm() && moves then
        [Reservation(target.locationRef, owner.componentRef, sit.size as real, sit.snap.createdAt + cfg.reservationTtl,
                     "proposed")]
      else [],
      MaxReal(1.0, Or(selected.prediction.performance.transferEtaSeconds, 0.0) * 2.0),
      if selected.offer.kind == Keep then map[]
      else map[ActionType := Text(Migrate.Name()), KvRef := Text(request.kvRef),
               TargetLocation := Text(sit.current.locationRef)],
      true)
  }

  datatype PlanIds = PlanIds(decisionId: string, actionId: string, at: int)

  datatype Plan = Plan(
    decision: DecisionRecord, predictions: seq<Prediction>, currentLocation: string, selectedTarget: string,
    situation: Situation)

  function OfferIds(offers: seq<Offer>): seq<string> {
    seq(|offers|, i requires 0 <= i < |offers| => offers[i].candidate.candidateId)
  }

  function PlanFor(
      cfg: Config, owner: Owner, request: Request, sit: Situation, stateOwner: string, offers: seq<Offer>,
      predictions: seq<Prediction>, stamp: PlanIds): Plan
    requires |offers| == |predictions| && HasKeep(offers)
  {
    var choices := Pair(offers, predictions);
    PairKeepsKinds(offers, predictions);
    var selection := Select(cfg, sit, choices);
    Plan(
      DecisionRecord(
        stamp.decisionId, sit.snap.token, request.policyVersion,
        OfferIds(offers), PredictionIds(predictions), SortedVersions(predictions),
        ActionFor(cfg, owner, request, sit, stateOwner, selection.choice, stamp.actionId), selection.reason,
        ["snapshot_completeness=" + cfg.format(sit.snap.completeness),
         "prediction_confidence=" + cfg.format(selection.choice.prediction.confidence),
         "owner=" + owner.componentRef],
        stamp.at),
      predictions, sit.current.locationRef, selection.choice.offer.target.locationRef, sit)
  }

  lemma PairKeepsKinds(offers: seq<Offer>, predictions: seq<Prediction>)
    requires |offers| == |predictions| && HasKeep(offers)
    ensures var choices := Pair(offers, predictions);
            exists i :: 0 <= i < |choices| && choices[i].offer.kind == Keep
  {
    var i :| 0 <= i < |offers| && offers[i].kind == Keep;
    assert Pair(offers, predictions)[i].offer.kind == Keep;
  }
}
