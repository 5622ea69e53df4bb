// What a KV plan reads, offers and writes down: every figure and every field, in terms of the snapshot and the request.

module KVEffects {
  import opened Basics
  import opened Contracts
  import opened PlaneSpec
  import opened ControlTypes
  import opened AnalyticalModel
  import P = PredictionService
  import opened KVPlanner
  import opened KVSafety
  import opened KVOutcome
  import opened KVChoice

  // ---- What is read ----

  /** The figure that the snapshot holds for a key, if it holds one. */
  ghost predicate Holds(snap: Snapshot, ref: string, key: string, figure: Option<real>) {
    match figure
    case None => (ref, key) !in snap.values
    case Some(x) =>
      && x >= 0.0 && (ref, key) in snap.values
      && (snap.values[(ref, key)].value == FloatValue(x)
          || exists i :: snap.values[(ref, key)].value == IntValue(i) && i as real == x)
  }

  ghost predicate HoldsText(snap: Snapshot, ref: string, key: string, text: Option<string>) {
    match text
    case None => (ref, key) !in snap.values
    case Some(s) => (ref, key) in snap.values && snap.values[(ref, key)].value == TextValue(s)
  }

  ghost predicate HoldsTime(cfg: Config, snap: Snapshot, ref: string, key: string, t: Option<Time>) {
    match t
    case None => (ref, key) !in snap.values
    case Some(at) =>
      && (ref, key) in snap.values
      && (snap.values[(ref, key)].value == TimeValue(at)
          || exists s :: snap.values[(ref, key)].value == TextValue(s) && cfg.parseTime(s) == Some(at))
  }

  lemma NumberIsHeld(snap: Snapshot, ref: string, key: string)
    ensures var r := StateNumber(snap, ref, key);
            && (r.Ok? ==> Holds(snap, ref, key, r.value))
            && (r.Err? ==> r.error == BadState(key) && forall figure :: !Holds(snap, ref, key, figure))
  {
  }

  lemma TextIsHeld(snap: Snapshot, ref: string, key: string)
    ensures var r := StateText(snap, ref, key);
            && (r.Ok? ==> HoldsText(snap, ref, key, r.value))
            && (r.Err? ==> r.error == BadState(key) && forall text :: !HoldsText(snap, ref, key, text))
  {
  }

  lemma TimeIsHeld(cfg: Config, snap: Snapshot, ref: string, key: string)
    ensures var r := StateTime(cfg, snap, ref, key);
            && (r.Ok? ==> HoldsTime(cfg, snap, ref, key, r.value))
            && (r.Err? ==> r.error == BadState(key) && forall t :: !HoldsTime(cfg, snap, ref, key, t))
  {
  }

  /** A known pressure is the share of the capacity that is used or reserved; it is known exactly for HBM of known
      capacity with both figures in the snapshot. */
  ghost predicate PressureIsShare(
      snap: Snapshot, t: Target, pressure: Option<real>, used: Option<real>, reserved: Option<real>)
  {
    if InHbm(t) && t.hbmCapacityBytes > 0 then
      && Holds(snap, t.locationRef, "resource.hbm.used", used)
      && Holds(snap, t.locationRef, "resource.hbm.reserved", reserved)
      && (pressure.Some? <==> used.Some? && reserved.Some?)
      && (pressure.Some? ==> pressure.value * t.hbmCapacityBytes as real == used.value + reserved.value)
    else pressure.None?
  }

  lemma HbmMeansInHbm(t: Target)
    ensures t.IsHbm() <==> InHbm(t)
  {
  }

  lemma ObservedIsShare(snap: Snapshot, t: Target) returns (used: Option<real>, reserved: Option<real>)
    requires ObservedPressure(snap, t).Ok?
    ensures PressureIsShare(snap, t, ObservedPressure(snap, t).value, used, reserved)
  {
    hide InHbm, Holds, StateNumber;
    HbmMeansInHbm(t);
    used, reserved := None, None;
    if t.IsHbm() && t.hbmCapacityBytes > 0 {
      NumberIsHeld(snap, t.locationRef, USED);
      NumberIsHeld(snap, t.locationRef, RESERVED);
      used, reserved := StateNumber(snap, t.locationRef, USED).value, StateNumber(snap, t.locationRef, RESERVED).value;
    }
  }

  /** How long until a time, in seconds; a time that has passed is now. */
  ghost predicate SecondsFrom(at: Time, t: Option<Time>, seconds: Option<real>) {
    && (seconds.Some? <==> t.Some?)
    && (t.Some? ==> seconds.value * 1000000.0 == MaxInt(0, t.value - at) as real)
  }

  lemma UntilIsSecondsFrom(snap: Snapshot, t: Time)
    ensures SecondsFrom(snap.createdAt, Some(t), Some(SecondsUntil(snap, t)))
  {
  }

  /** The situation is what the snapshot holds for the cache, its agent and its location. */
  ghost predicate SituationHeld(
      cfg: Config, request: Request, sit: Situation, size: real, resume: Option<Time>, used: Option<real>,
      reserved: Option<real>)
  {
    var snap := sit.snap;
    && Holds(snap, request.kvRef, "kv.size", Some(size)) && sit.size as real <= size < sit.size as real + 1.0
    && sit.current in request.targets && sit.current.locationRef != ""
    && HoldsText(snap, request.kvRef, "kv.location", Some(sit.current.locationRef))
    && Holds(snap, request.kvRef, "kv.reuse_probability", sit.reuse)
    && HoldsText(snap, request.kvRef, "kv.transfer_state", sit.transferState)
    && (request.agentRef == "" ==> sit.phase.None? && resume.None?)
    && (request.agentRef != "" ==>
          && HoldsText(snap, request.agentRef, "agent.phase", sit.phase)
          && HoldsTime(cfg, snap, request.agentRef, "agent.expected_resume_time", resume))
    && SecondsFrom(snap.createdAt, resume, sit.resumeSeconds)
    && PressureIsShare(snap, sit.current, sit.pressure, used, reserved)
  }

  lemma SituationIsHeld(cfg: Config, snap: Snapshot, request: Request)
    returns (size: real, resume: Option<Time>, used: Option<real>, reserved: Option<real>)
    requires Observe(cfg, snap, request).Ok?
    ensures var sit := Observe(cfg, snap, request).value;
            sit.snap == snap && SituationHeld(cfg, request, sit, size, resume, used, reserved)
  {
    hide StateNumber, StateText, StateTime, ObservedPressure, SecondsUntil, Holds, HoldsText, HoldsTime, SecondsFrom,
         PressureIsShare, FindTarget, DistinctTargets;
    var sit := Observe(cfg, snap, request).value;
    NumberIsHeld(snap, request.kvRef, "kv.size");
    NumberIsHeld(snap, request.kvRef, "kv.reuse_probability");
    TextIsHeld(snap, request.kvRef, "kv.location");
    TextIsHeld(snap, request.kvRef, "kv.transfer_state");
    size := StateNumber(snap, request.kvRef, "kv.size").value.value;
    used, reserved := ObservedIsShare(snap, sit.current);
    resume := None;
    if request.agentRef != "" {
      TextIsHeld(snap, request.agentRef, "agent.phase");
      TimeIsHeld(cfg, snap, request.agentRef, "agent.expected_resume_time");
      resume := StateTime(cfg, snap, request.agentRef, "agent.expected_resume_time").value;
    }
    if resume.Some? {
      UntilIsSecondsFrom(snap, resume.value);
    } else {
      NeverIsUnknown(snap.createdAt);
    }
  }

  lemma NeverIsUnknown(at: Time)
    ensures SecondsFrom(at, None, None)
  {
  }

  /** The value of a key, if there is one, is of the right kind. */
  ghost predicate ReadsNumber(snap: Snapshot, ref: string, key: string) {
    exists figure :: Holds(snap, ref, key, figure)
  }

  ghost predicate ReadsText(snap: Snapshot, ref: string, key: string) {
    exists text :: HoldsText(snap, ref, key, text)
  }

  ghost predicate ReadsTime(cfg: Config, snap: Snapshot, ref: string, key: string) {
    exists t :: HoldsTime(cfg, snap, ref, key, t)
  }

  lemma ReadsExactlyWhen(cfg: Config, snap: Snapshot, ref: string, key: string)
    ensures StateNumber(snap, ref, key).Ok? <==> ReadsNumber(snap, ref, key)
    ensures StateText(snap, ref, key).Ok? <==> ReadsText(snap, ref, key)
    ensures StateTime(cfg, snap, ref, key).Ok? <==> ReadsTime(cfg, snap, ref, key)
  {
    hide Holds, HoldsText, HoldsTime, StateNumber, StateText, StateTime;
    NumberIsHeld(snap, ref, key);
    TextIsHeld(snap, ref, key);
    TimeIsHeld(cfg, snap, ref, key);
  }

  /** The cache rests on the target, as the snapshot has it. */
  ghost predicate RestsOn(snap: Snapshot, request: Request, t: Target) {
    && t in request.targets && t.locationRef != ""
    && HoldsText(snap, request.kvRef, "kv.location", Some(t.locationRef))
  }

  ghost predicate PressureReads(snap: Snapshot, t: Target) {
    InHbm(t) && t.hbmCapacityBytes > 0 ==>
      ReadsNumber(snap, t.locationRef, "resource.hbm.used") && ReadsNumber(snap, t.locationRef, "resource.hbm.reserved")
  }

  lemma PressureReadsExactlyWhen(cfg: Config, snap: Snapshot, t: Target)
    ensures ObservedPressure(snap, t).Ok? <==> PressureReads(snap, t)
  {
    hide InHbm, ReadsNumber, StateNumber;
    HbmMeansInHbm(t);
    ReadsExactlyWhen(cfg, snap, t.locationRef, USED);
    ReadsExactlyWhen(cfg, snap, t.locationRef, RESERVED);
  }

  lemma RestsOnFound(snap: Snapshot, request: Request)
    requires DistinctTargets(request.targets)
    ensures (exists t :: RestsOn(snap, request, t)) <==>
            && StateText(snap, request.kvRef, "kv.location").Ok?
            && var location := StateText(snap, request.kvRef, "kv.location").value;
               location.Some? && location.value != "" && FindTarget(request.targets, location.value).Some?
    ensures forall t :: RestsOn(snap, request, t) ==>
              FindTarget(request.targets, StateText(snap, request.kvRef, "kv.location").value.value) == Some(t)
  {
    hide DistinctTargets, FindTarget;
    var read := StateText(snap, request.kvRef, "kv.location");
    forall t | RestsOn(snap, request, t)
      ensures read == Ok(Some(t.locationRef)) && FindTarget(request.targets, t.locationRef) == Some(t)
    {
      SameLocationSameTarget(request.targets, FindTarget(request.targets, t.locationRef).value, t);
    }
    if read.Ok? && read.value.Some? && read.value.value != "" && FindTarget(request.targets, read.value.value).Some? {
      assert RestsOn(snap, request, FindTarget(request.targets, read.value.value).value);
    }
  }

  /** The situation can be seen exactly if the targets are named apart, the size and a location among them are known, and
      nothing else that is looked at is of the wrong kind. */
  lemma ObservesExactlyWhen(cfg: Config, snap: Snapshot, request: Request)
    ensures Observe(cfg, snap, request).Ok? <==>
            && request.targets != [] && DistinctTargets(request.targets)
            && (exists size :: Holds(snap, request.kvRef, "kv.size", Some(size)))
            && (exists t :: RestsOn(snap, request, t) && PressureReads(snap, t))
            && ReadsNumber(snap, request.kvRef, "kv.reuse_probability")
            && ReadsText(snap, request.kvRef, "kv.transfer_state")
            && (request.agentRef != "" ==>
                  && ReadsText(snap, request.agentRef, "agent.phase")
                  && ReadsTime(cfg, snap, request.agentRef, "agent.expected_resume_time"))
  {
    hide StateNumber, StateText, StateTime, ObservedPressure, SecondsUntil, FindTarget, DistinctTargets, PressureReads,
         RestsOn, ReadsNumber, ReadsText, ReadsTime;
    if request.targets != [] && DistinctTargets(request.targets) {
      RestsOnFound(snap, request);
      SizeIsHeld(snap, request.kvRef);
      forall key: string
        ensures StateNumber(snap, request.kvRef, key).Ok? <==> ReadsNumber(snap, request.kvRef, key)
        ensures StateText(snap, request.kvRef, key).Ok? <==> ReadsText(snap, request.kvRef, key)
        ensures StateText(snap, request.agentRef, key).Ok? <==> ReadsText(snap, request.agentRef, key)
        ensures StateTime(cfg, snap, request.agentRef, key).Ok? <==> ReadsTime(cfg, snap, request.agentRef, key)
      {
        ReadsExactlyWhen(cfg, snap, request.kvRef, key);
        ReadsExactlyWhen(cfg, snap, request.agentRef, key);
      }
      forall t: Target ensures ObservedPressure(snap, t).Ok? <==> PressureReads(snap, t) {
        PressureReadsExactlyWhen(cfg, snap, t);
      }
      var location := StateText(snap, request.kvRef, "kv.location");
      if location.Ok? && location.value.Some? && location.value.value != ""
         && FindTarget(request.targets, location.value.value).Some?
      {
        var t := FindTarget(request.targets, location.value.value).value;
        assert RestsOn(snap, request, t);
      }
    }
  }

  /** What the size and the location of a cache can lack, and the error for it; the size is looked at first. */
  lemma ObservationErrors(cfg: Config, snap: Snapshot, request: Request)
    ensures var r := Observe(cfg, snap, request);
            var usable := request.targets != [] && DistinctTargets(request.targets);
            var sized := usable && exists size :: Holds(snap, request.kvRef, "kv.size", Some(size));
            var placed := sized && ReadsText(snap, request.kvRef, "kv.location");
            var unplaced := HoldsText(snap, request.kvRef, "kv.location", None)
                            || HoldsText(snap, request.kvRef, "kv.location", Some(""));
            && (request.targets == [] ==> r == Err(NoTargets))
            && (request.targets != [] && !usable ==> r == Err(DuplicateTargets))
            && (usable && Holds(snap, request.kvRef, "kv.size", None) ==> r == Err(MissingState("kv.size")))
            && (usable && !ReadsNumber(snap, request.kvRef, "kv.size") ==> r == Err(BadState("kv.size")))
            && (sized && !placed ==> r == Err(BadState("kv.location")))
            && (sized && unplaced ==> r == Err(MissingState("kv.location")))
            && (placed && !unplaced && (forall t :: !RestsOn(snap, request, t)) ==> r == Err(LocationNotOffered))
  {
    hide StateTime, ObservedPressure, SecondsUntil, FindTarget, DistinctTargets, RestsOn, ReadsNumber, ReadsText,
         StateNumber, Holds;
    ReadsExactlyWhen(cfg, snap, request.kvRef, "kv.size");
    ReadsExactlyWhen(cfg, snap, request.kvRef, "kv.location");
    NumberIsHeld(snap, request.kvRef, "kv.size");
    NothingIsHeld(snap, request.kvRef, "kv.size");
    SizeIsHeld(snap, request.kvRef);
    if request.targets != [] && DistinctTargets(request.targets) {
      RestsOnFound(snap, request);
    }
  }

  lemma NothingIsHeld(snap: Snapshot, ref: string, key: string)
    ensures Holds(snap, ref, key, None) <==> StateNumber(snap, ref, key) == Ok(None)
  {
  }

  lemma SizeIsHeld(snap: Snapshot, ref: string)
    ensures (exists size :: Holds(snap, ref, "kv.size", Some(size))) <==>
            StateNumber(snap, ref, "kv.size").Ok? && StateNumber(snap, ref, "kv.size").value.Some?
  {
    NumberIsHeld(snap, ref, "kv.size");
    var r := StateNumber(snap, ref, "kv.size");
    if r.Ok? && r.value.Some? {
      assert Holds(snap, ref, "kv.size", Some(r.value.value));
    }
  }

  // ---- Whose state it is ----

  /** The controller may act on the cache: it manages it by some prefix and is itself registered, and the cache is a
      registered object with an owner of its own, the expected one if one is expected. */
  ghost predicate MayAct(entities: map<string, Entity>, owner: Owner, request: Request) {
    && (exists p :: p in owner.prefixes && |p| <= |request.kvRef| && request.kvRef[..|p|] == p)
    && request.kvRef in entities && entities[request.kvRef].entityType == "stateful_object"
    && entities[request.kvRef].ownerComponentRef != ""
    && (request.expectedStateOwner == "" || request.expectedStateOwner == entities[request.kvRef].ownerComponentRef)
    && owner.componentRef in entities && entities[owner.componentRef].entityType == "component"
  }

  lemma OwnershipExactlyWhen(entities: map<string, Entity>, owner: Owner, request: Request)
    ensures StateOwner(entities, owner, request).Ok? <==> MayAct(entities, owner, request)
    ensures MayAct(entities, owner, request) ==>
              StateOwner(entities, owner, request) == Ok(entities[request.kvRef].ownerComponentRef)
  {
    if p :| p in owner.prefixes && p <= request.kvRef {
      assert request.kvRef[..|p|] == p;
    }
  }

  /** Not managing the cache is noticed before its absence, that before a foreign owner, and its own absence last. */
  lemma OwnershipErrors(entities: map<string, Entity>, owner: Owner, request: Request)
    ensures var managed := exists p :: p in owner.prefixes && p <= request.kvRef;
            var known := request.kvRef in entities && entities[request.kvRef].entityType == "stateful_object";
            var own := if known then entities[request.kvRef].ownerComponentRef else "";
            var r := StateOwner(entities, owner, request);
            && (r == Err(NotManaged) <==> !managed)
            && (r == Err(UnknownEntity) <==> managed && !known)
            && (r == Err(NoStateOwner) <==> managed && known && own == "")
            && (r == Err(StateOwnerChanged) <==>
                  managed && own != "" && request.expectedStateOwner != "" && own != request.expectedStateOwner)
            && (r.Ok? || r.error in {NotManaged, UnknownEntity, NoStateOwner, StateOwnerChanged, UnknownActionOwner})
  {
  }

  lemma OwnersAreChecked(owner: Owner)
    ensures owner.Valid() <==>
            && |owner.componentRef| > 0 && |owner.prefixes| > 0 && (forall p :: p in owner.prefixes ==> |p| > 0)
            && exists kind :: kind in owner.allowed && kind == Keep
  {
    assert forall p :: p in owner.prefixes && |p| == 0 ==> p == "";
  }

  // ---- What is offered ----

  /** Staying is to keep, leaving HBM is to offload, entering it is to prefetch, and any other move is to migrate. */
  ghost predicate KindFits(kind: KvAction, current: Target, target: Target) {
    match kind
    case Keep => target.locationRef == current.locationRef
    case Offload => target.locationRef != current.locationRef && InHbm(current) && !InHbm(target)
    case Prefetch => target.locationRef != current.locationRef && !InHbm(current) && InHbm(target)
    case Migrate => target.locationRef != current.locationRef && (InHbm(current) <==> InHbm(target))
  }

  lemma KindsFit(current: Target, target: Target, kind: KvAction)
    ensures kind == KindOf(current, target) <==> KindFits(kind, current, target)
  {
    hide InHbm;
    HbmMeansInHbm(current);
    HbmMeansInHbm(target);
  }

  ghost predicate IsCalled(kind: KvAction, name: string) {
    match kind
    case Keep => name == "keep"
    case Offload => name == "offload"
    case Prefetch => name == "prefetch"
    case Migrate => name == "migrate"
  }

  lemma KindsAreCalled(kind: KvAction)
    ensures IsCalled(kind, kind.Name())
  {
  }

  /** A target names its place and its tier, and none of its figures is below zero. */
  lemma TargetsAreChecked(t: TargetRecord)
    ensures t.WellFormed() <==>
            && |t.locationRef| > 0 && |t.tier| > 0 && t.hbmCapacityBytes >= 0
            && forall figure :: figure in [t.effectiveBw, t.setupSeconds, t.networkByteCost, t.storageIoByteCost] ==>
                 figure >= 0.0
  {
    var figures := [t.effectiveBw, t.setupSeconds, t.networkByteCost, t.storageIoByteCost];
    assert figures[0] in figures && figures[1] in figures && figures[2] in figures && figures[3] in figures;
  }

  /** What a move takes: the bytes sent, those written to storage, and those that its target gains and its source frees in
      HBM. */
  ghost predicate Takes(kind: KvAction, intoHbm: bool, size: real, sent: real, stored: real, gained: real, freed: real) {
    match kind
    case Keep => sent == 0.0 && stored == 0.0 && gained == 0.0 && freed == 0.0
    case Offload => sent == size && stored == size && gained == 0.0 && freed == size
    case Prefetch => sent == size && stored == 0.0 && gained == size && freed == 0.0
    case Migrate => sent == size && freed == 0.0
                    && (intoHbm ==> stored == 0.0 && gained == size) && (!intoHbm ==> stored == size && gained == 0.0)
  }

  ghost predicate Says(parameters: map<Name, Parameter>, name: Name, value: Parameter) {
    name in parameters && parameters[name] == value
  }

  ghost predicate SaysFigure(parameters: map<Name, Parameter>, name: Name, figure: Option<real>) {
    if figure.Some? then Says(parameters, name, Num(figure.value)) else name !in parameters
  }

  ghost predicate DescribesMove(
      request: Request, sit: Situation, kind: KvAction, target: Target, parameters: map<Name, Parameter>,
      sent: real, stored: real, gained: real, freed: real)
  {
    && Takes(kind, InHbm(target), sit.size as real, sent, stored, gained, freed)
    && NamesPlaces(request, sit, target, parameters)
    && Says(parameters, TransferBytes, Num(sent)) && Says(parameters, StorageIoBytes, Num(stored))
    && Says(parameters, PredictedKvGrowthBytes, Num(gained)) && Says(parameters, HbmReleaseBytes, Num(freed))
    && GivesTerms(target, sent, parameters)
  }

  ghost predicate NamesPlaces(request: Request, sit: Situation, target: Target, parameters: map<Name, Parameter>) {
    && Says(parameters, KvRef, Text(request.kvRef)) && Says(parameters, SourceLocation, Text(sit.current.locationRef))
    && Says(parameters, TargetLocation, Text(target.locationRef))
    && Says(parameters, TargetKvLocation, Text(target.locationRef))
  }

  ghost predicate GivesTerms(target: Target, sent: real, parameters: map<Name, Parameter>) {
    && Says(parameters, TransferSetupSeconds, Num(target.setupSeconds))
    && Says(parameters, NetworkByteCost, Num(target.networkByteCost))
    && Says(parameters, StorageIoByteCost, Num(target.storageIoByteCost))
    && Says(parameters, BaseSuccessProbability, Num(1.0))
    && (sent == 0.0 || target.effectiveBw > 0.0 ==> Says(parameters, EffectiveBwBytesPerSecond, Num(target.effectiveBw)))
    && (sent != 0.0 && target.effectiveBw <= 0.0 ==> EffectiveBwBytesPerSecond !in parameters)
  }

  /** The HBM that a move concerns: the target's if it has any, else the source's; and what the snapshot holds of it. */
  ghost predicate DescribesMemory(
      sit: Situation, target: Target, parameters: map<Name, Parameter>, used: Option<real>, reserved: Option<real>)
  {
    if !InHbm(target) && !InHbm(sit.current) then
      HbmCapacityBytes !in parameters && HbmUsedBytes !in parameters && HbmReservedBytes !in parameters
    else
      var memory := if InHbm(target) then target else sit.current;
      && Holds(sit.snap, memory.locationRef, "resource.hbm.used", used) && SaysFigure(parameters, HbmUsedBytes, used)
      && Holds(sit.snap, memory.locationRef, "resource.hbm.reserved", reserved)
      && SaysFigure(parameters, HbmReservedBytes, reserved)
      && SaysFigure(parameters, HbmCapacityBytes,
                    if memory.hbmCapacityBytes > 0 then Some(memory.hbmCapacityBytes as real) else None)
  }

  lemma AddedFiguresKeepOthers(
      request: Request, sit: Situation, target: Target, used: Option<real>, reserved: Option<real>, name: Name)
    requires name !in {EffectiveBwBytesPerSecond, HbmCapacityBytes, HbmUsedBytes, HbmReservedBytes}
    ensures var base := BaseParameters(request, sit, target);
            var parameters := ParametersFor(request, sit, target, used, reserved);
            (name in parameters <==> name in base) && (name in base ==> parameters[name] == base[name])
  {
    hide BaseParameters, TargetRecord.IsHbm;
  }

  lemma ParametersNamePlaces(
      request: Request, sit: Situation, target: Target, used: Option<real>, reserved: Option<real>)
    ensures NamesPlaces(request, sit, target, ParametersFor(request, sit, target, used, reserved))
  {
    hide TargetRecord.IsHbm, ParametersFor;
    AddedFiguresKeepOthers(request, sit, target, used, reserved, KvRef);
    AddedFiguresKeepOthers(request, sit, target, used, reserved, SourceLocation);
    AddedFiguresKeepOthers(request, sit, target, used, reserved, TargetLocation);
    AddedFiguresKeepOthers(request, sit, target, used, reserved, TargetKvLocation);
  }

  lemma ParametersGiveBandwidth(
      request: Request, sit: Situation, target: Target, used: Option<real>, reserved: Option<real>)
    ensures var sent := if target.locationRef != sit.current.locationRef then sit.size as real else 0.0;
            SaysFigure(ParametersFor(request, sit, target, used, reserved), EffectiveBwBytesPerSecond,
                       if sent == 0.0 || target.effectiveBw > 0.0 then Some(target.effectiveBw) else None)
  {
    hide TargetRecord.IsHbm, HbmResource;
    assert EffectiveBwBytesPerSecond !in BaseParameters(request, sit, target);
    hide BaseParameters;
  }

  lemma ParametersGiveTerms(
      request: Request, sit: Situation, target: Target, used: Option<real>, reserved: Option<real>)
    ensures var sent := if target.locationRef != sit.current.locationRef then sit.size as real else 0.0;
            GivesTerms(target, sent, ParametersFor(request, sit, target, used, reserved))
  {
    hide TargetRecord.IsHbm, ParametersFor;
    AddedFiguresKeepOthers(request, sit, target, used, reserved, TransferSetupSeconds);
    AddedFiguresKeepOthers(request, sit, target, used, reserved, NetworkByteCost);
    AddedFiguresKeepOthers(request, sit, target, used, reserved, StorageIoByteCost);
    AddedFiguresKeepOthers(request, sit, target, used, reserved, BaseSuccessProbability);
    ParametersGiveBandwidth(request, sit, target, used, reserved);
  }

  lemma ParametersGiveFigures(
      request: Request, sit: Situation, target: Target, used: Option<real>, reserved: Option<real>)
    ensures var parameters, moves := ParametersFor(request, sit, target, used, reserved),
                                     target.locationRef != sit.current.locationRef;
            var bytes, size := if moves then sit.size as real else 0.0, sit.size as real;
            && Says(parameters, TransferBytes, Num(bytes))
            && Says(parameters, StorageIoBytes, Num(if target.IsHbm() then 0.0 else bytes))
            && Says(parameters, PredictedKvGrowthBytes, Num(if target.IsHbm() && moves then size else 0.0))
            && Says(parameters, HbmReleaseBytes, Num(if sit.current.IsHbm() && !target.IsHbm() then size else 0.0))
  {
    hide TargetRecord.IsHbm, ParametersFor;
    AddedFiguresKeepOthers(request, sit, target, used, reserved, TransferBytes);
    AddedFiguresKeepOthers(request, sit, target, used, reserved, StorageIoBytes);
    AddedFiguresKeepOthers(request, sit, target, used, reserved, PredictedKvGrowthBytes);
    AddedFiguresKeepOthers(request, sit, target, used, reserved, HbmReleaseBytes);
  }

  lemma ParametersDescribeMove(
      request: Request, sit: Situation, target: Target, used: Option<real>, reserved: Option<real>)
    returns (sent: real, stored: real, gained: real, freed: real)
    requires target.locationRef == sit.current.locationRef ==> target == sit.current
    ensures DescribesMove(request, sit, KindOf(sit.current, target), target,
                          ParametersFor(request, sit, target, used, reserved), sent, stored, gained, freed)
  {
    HbmMeansInHbm(target);
    HbmMeansInHbm(sit.current);
    hide InHbm, TargetRecord.IsHbm, ParametersFor, Says, GivesTerms, NamesPlaces;
    ParametersNamePlaces(request, sit, target, used, reserved);
    ParametersGiveTerms(request, sit, target, used, reserved);
    ParametersGiveFigures(request, sit, target, used, reserved);
    var moves, size := target.locationRef != sit.current.locationRef, sit.size as real;
    sent := if moves then size else 0.0;
    stored := if target.IsHbm() then 0.0 else sent;
    gained := if target.IsHbm() && moves then size else 0.0;
    freed := if sit.current.IsHbm() && !target.IsHbm() then size else 0.0;
  }

  lemma ParametersDescribeMemory(
      request: Request, sit: Situation, target: Target, used: Option<real>, reserved: Option<real>)
    requires ResourceNumber(sit.snap, HbmResource(sit.current, target), USED) == Ok(used)
    requires ResourceNumber(sit.snap, HbmResource(sit.current, target), RESERVED) == Ok(reserved)
    ensures DescribesMemory(sit, target, ParametersFor(request, sit, target, used, reserved), used, reserved)
  {
    HbmMeansInHbm(target);
    HbmMeansInHbm(sit.current);
    hide InHbm, TargetRecord.IsHbm, StateNumber, Holds;
    var resource := HbmResource(sit.current, target);
    if resource.Some? {
      NumberIsHeld(sit.snap, resource.value.locationRef, USED);
      NumberIsHeld(sit.snap, resource.value.locationRef, RESERVED);
    }
  }

  /** Each offer is for one target, of the kind that fits it, and its parameters say what the move takes and what is known
      of the memory it concerns. */
  lemma OfferDescribesMove(run: Run, x: Offer)
    returns (sent: real, stored: real, gained: real, freed: real, used: Option<real>, reserved: Option<real>)
    requires run.Valid() && x in run.offers
    ensures KindFits(x.kind, run.sit.current, x.target) && IsCalled(x.kind, x.candidate.actionType)
    ensures x.candidate.targetComponent == run.owner.componentRef
    ensures DescribesMove(run.request, run.sit, x.kind, x.target, x.candidate.parameters, sent, stored, gained, freed)
    ensures DescribesMemory(run.sit, x.target, x.candidate.parameters, used, reserved)
  {
    hide Offers, ObservedPressure, ParametersFor, CandidateIdFor, KindFits, DescribesMove, DescribesMemory, HbmResource,
         ResourceNumber, KvAction.Name;
    RunOffers(run, x);
    OnlyCurrentIsThere(run, x.target);
    KindsAreCalled(x.kind);
    KindsFit(run.sit.current, x.target, x.kind);
    used := ResourceNumber(run.sit.snap, HbmResource(run.sit.current, x.target), USED).value;
    reserved := ResourceNumber(run.sit.snap, HbmResource(run.sit.current, x.target), RESERVED).value;
    sent, stored, gained, freed := ParametersDescribeMove(run.request, run.sit, x.target, used, reserved);
    ParametersDescribeMemory(run.request, run.sit, x.target, used, reserved);
  }

  lemma OnlyCurrentIsThere(run: Run, t: Target)
    requires run.Valid() && t in run.request.targets
    ensures t.locationRef == run.sit.current.locationRef ==> t == run.sit.current
  {
    hide ObservedPressure, Offers;
    if t.locationRef == run.sit.current.locationRef {
      SameLocationSameTarget(run.request.targets, t, run.sit.current);
    }
  }

  /** A target is offered exactly if the owner may act that way and, unless the cache rests there, it is usable. */
  lemma OfferedExactlyWhen(run: Run, t: Target, kind: KvAction)
    requires run.Valid() && t in run.request.targets && KindFits(kind, run.sit.current, t)
    ensures (exists x :: x in run.offers && x.target == t) <==>
            kind in run.owner.allowed && (t.locationRef == run.sit.current.locationRef || (t.available && t.healthy))
    ensures forall x :: x in run.offers && x.target == t ==> x.kind == kind
  {
    hide ObservedPressure, ParametersFor, CandidateIdFor, KindFits, HbmResource, ResourceNumber, OffersFor;
    KindsFit(run.sit.current, t, kind);
    OffersAreTargets(run.owner, run.request, run.sit, run.request.targets);
    var o := OfferFor(run.owner, run.request, run.sit, t);
    AllOffersAreMade(run.owner, run.request, run.sit, run.request.targets, t);
    if o.value.Some? {
      assert o.value.value in run.offers;
    }
    forall x | x in run.offers && x.target == t ensures x.kind == kind && o == Ok(Some(x)) {
      RunOffers(run, x);
    }
  }

  lemma {:induction false} AllOffersAreMade(
      owner: Owner, request: Request, sit: Situation, targets: seq<Target>, t: Target)
    requires OffersFor(owner, request, sit, targets).Ok? && t in targets
    ensures OfferFor(owner, request, sit, t).Ok?
  {
    hide OfferFor;
    var front, last := targets[..|targets| - 1], targets[|targets| - 1];
    assert targets == front + [last];
    if t != last {
      AllOffersAreMade(owner, request, sit, front, t);
    }
  }

  // ---- Candidate ids ----

  function Digits(s: string): nat {
    if s == [] then 0
    else 10 * Digits(s[..|s| - 1]) + if '0' <= s[|s| - 1] <= '9' then s[|s| - 1] as nat - '0' as nat else 0
  }

  /** A number reads back from its digits, which are digits only. */
  lemma {:induction false} DecimalReadsBack(n: nat)
    ensures Digits(Decimal(n)) == n && ':' !in Decimal(n)
  {
    var s := Decimal(n);
    if n >= 10 {
      DecimalReadsBack(n / 10);
      assert s[..|s| - 1] == Decimal(n / 10);
    } else {
      assert s[..|s| - 1] == [];
    }
  }

  /** Candidates of different revisions never share an id, whatever they are for. */
  lemma IdNamesRevision(
      a: Snapshot, kvA: string, k: KvAction, x: string, b: Snapshot, kvB: string, j: KvAction, y: string)
    requires CandidateIdFor(a, kvA, k, x) == CandidateIdFor(b, kvB, j, y)
    ensures a.logicalTime == b.logicalTime
  {
    var tailA, tailB := kvA + ":" + (k.Name() + ":" + x), kvB + ":" + (j.Name() + ":" + y);
    var prefix := "candidate:kv:";
    hide KvAction.Name;
    DecimalReadsBack(a.logicalTime);
    DecimalReadsBack(b.logicalTime);
    var first, second := Decimal(a.logicalTime), Decimal(b.logicalTime);
    assert CandidateIdFor(a, kvA, k, x) == prefix + (first + [':'] + tailA);
    assert CandidateIdFor(b, kvB, j, y) == prefix + (second + [':'] + tailB);
    CancelPrefix(prefix, first + [':'] + tailA, second + [':'] + tailB);
    SplitUnique(first, tailA, second, tailB, ':');
  }

  // ---- Why the cache is kept ----

  /** A confident prediction of the model's own that knows how long the move takes. */
  ghost predicate ConfidentMove(cfg: Config, kind: KvAction, x: Choice) {
    && x.offer.kind == kind && x.prediction.performance.transferEtaSeconds.Some?
    && !(x.prediction.confidence < cfg.minConfidence) && x.prediction.fallback == "none"
  }

  ghost predicate SomeConfident(cfg: Config, kind: KvAction, choices: seq<Choice>) {
    exists x :: x in choices && ConfidentMove(cfg, kind, x)
  }

  ghost predicate SomeMayBeChosen(cfg: Config, kind: KvAction, choices: seq<Choice>) {
    exists x :: x in choices && MayBeChosen(cfg, kind, x)
  }

  lemma TrustedMeansConfident(cfg: Config, kind: KvAction, choices: seq<Choice>)
    ensures TrustedChoices(cfg, kind, choices) != [] <==> SomeConfident(cfg, kind, choices)
    ensures Moves(cfg, kind, choices) != [] <==> SomeMayBeChosen(cfg, kind, choices)
  {
    var trusted, moves := TrustedChoices(cfg, kind, choices), Moves(cfg, kind, choices);
    hide FitsMemory, AtMost;
    if trusted != [] {
      assert trusted[0] in choices && ConfidentMove(cfg, kind, trusted[0]);
    }
    if x :| x in choices && ConfidentMove(cfg, kind, x) {
      assert x in trusted;
    }
    if moves != [] {
      MovesAreThose(cfg, kind, choices, moves[0]);
    }
    if x :| x in choices && MayBeChosen(cfg, kind, x) {
      MovesAreThose(cfg, kind, choices, x);
    }
  }

  lemma SelectKeepsBecause(cfg: Config, sit: Situation, choices: seq<Choice>)
    requires exists i :: 0 <= i < |choices| && choices[i].offer.kind == Keep
    ensures KeptBecause(cfg, sit, choices, Select(cfg, sit, choices).reason)
  {
    hide TrustedChoices, SafeChoices, WishOf, CallsFor, SomeConfident, SomeMayBeChosen, FirstBest, KeepIndex;
    WishIsCall(cfg, sit, Offload);
    WishIsCall(cfg, sit, Prefetch);
    WishesAreMoves(cfg, sit);
    TrustedMeansConfident(cfg, Offload, choices);
    TrustedMeansConfident(cfg, Prefetch, choices);
    OnlyOneCall(cfg, sit);
  }

  lemma OnlyOneCall(cfg: Config, sit: Situation)
    ensures !(CallsFor(cfg, sit, Offload) && CallsFor(cfg, sit, Prefetch))
    ensures forall kind :: CallsFor(cfg, sit, kind) ==> kind in {Offload, Prefetch}
  {
  }

  /** The first thing in the way is the reason: an incomplete snapshot, nothing to do, an unstable transfer state, no
      confident prediction, or no room. */
  ghost predicate KeptBecause(cfg: Config, sit: Situation, choices: seq<Choice>, reason: string) {
    var complete, stable := sit.snap.completeness >= cfg.minCompleteness, OneOf(sit.transferState, cfg.stableStates);
    && (!complete ==> reason == "snapshot_incomplete_keep")
    && (complete && !CallsFor(cfg, sit, Offload) && !CallsFor(cfg, sit, Prefetch) ==> reason == "baseline_keep")
    && (forall kind :: complete && CallsFor(cfg, sit, kind) ==>
          && (!stable ==> reason == "transfer_state_unsafe_keep")
          && (stable && !SomeConfident(cfg, kind, choices) ==> reason == "prediction_fallback_keep")
          && (stable && SomeConfident(cfg, kind, choices) && !SomeMayBeChosen(cfg, kind, choices) ==>
                reason == "resource_guard_keep"))
  }

  lemma KeepsBecause(run: Run)
    requires run.Valid()
    ensures HasKeep(run.offers) && KeptBecause(run.cfg, run.sit, run.Choices(), run.Selected().reason)
  {
    hide P.Evaluate, Select, Offers, ObservedPressure, Run.Choices, KeptBecause;
    var i := SelectionIsSound(run);
    PairKeepsKinds(run.offers, run.Predictions());
    ChoicesArePairs(run);
    SelectKeepsBecause(run.cfg, run.sit, run.Choices());
  }

  // ---- What is written down ----

  /** The action of a plan: what the candidate says, under its own name and size, on the condition that everything is still
      as it was seen; with room reserved where HBM is entered, and the way back. */
  ghost predicate ActsOn(
      cfg: Config, owner: Owner, request: Request, sit: Situation, stateOwner: string, x: Choice, a: Action)
  {
    && ActsAs(owner, sit, x, a)
    && ActsIf(owner, request, sit, stateOwner, a)
    && ActsSafely(cfg, owner, request, sit, x, a)
  }

  ghost predicate ActsAs(owner: Owner, sit: Situation, x: Choice, a: Action) {
    && a.targetComponent == owner.componentRef && IsCalled(x.offer.kind, a.actionType) && a.dryRun
    && Says(a.parameters, CandidateId, Text(x.offer.candidate.candidateId))
    && Says(a.parameters, SizeBytes, Num(sit.size as real))
    && (forall name :: name !in {CandidateId, SizeBytes} ==>
          && (name in a.parameters <==> name in x.offer.candidate.parameters)
          && (name in a.parameters ==> a.parameters[name] == x.offer.candidate.parameters[name]))
    && a.idempotencyKey == "kv:" + sit.snap.token + ":" + x.offer.candidate.candidateId
  }

  ghost predicate Expects(conditions: map<Name, Option<Parameter>>, name: Name, value: Parameter) {
    name in conditions && conditions[name] == Some(value)
  }

  ghost predicate ActsIf(owner: Owner, request: Request, sit: Situation, stateOwner: string, a: Action) {
    && a.preconditions.Keys == {SnapshotId, SnapshotLogicalTime, KvRef, ExpectedLocation, ExpectedStateOwner, ActionOwner,
                                ExpectedTransferState}
    && Expects(a.preconditions, SnapshotId, Text(sit.snap.token))
    && Expects(a.preconditions, SnapshotLogicalTime, Num(sit.snap.logicalTime as real))
    && Expects(a.preconditions, KvRef, Text(request.kvRef))
    && Expects(a.preconditions, ExpectedLocation, Text(sit.current.locationRef))
    && Expects(a.preconditions, ExpectedStateOwner, Text(stateOwner))
    && Expects(a.preconditions, ActionOwner, Text(owner.componentRef))
    && (sit.transferState.Some? ==> Expects(a.preconditions, ExpectedTransferState, Text(sit.transferState.value)))
    && (sit.transferState.None? ==> a.preconditions[ExpectedTransferState].None?)
  }

  ghost predicate ActsSafely(cfg: Config, owner: Owner, request: Request, sit: Situation, x: Choice, a: Action) {
    var target, eta := x.offer.target, x.prediction.performance.transferEtaSeconds;
    && (target.locationRef == sit.current.locationRef || !InHbm(target) ==> a.reservations == [])
    && (target.locationRef != sit.current.locationRef && InHbm(target) ==>
          && |a.reservations| == 1
          && a.reservations[0].resourceRef == target.locationRef && a.reservations[0].owner == owner.componentRef
          && a.reservations[0].hbmBytes == sit.size as real && a.reservations[0].status == "proposed"
          && a.reservations[0].expiresAt - sit.snap.createdAt == cfg.reservationTtl)
    && a.timeoutSeconds >= 1.0
    && (eta.Some? ==> a.timeoutSeconds >= eta.value + eta.value)
    && (a.timeoutSeconds == 1.0 || (eta.Some? && a.timeoutSeconds == eta.value + eta.value))
    && (x.offer.kind == Keep ==> a.rollback == map[])
    && (x.offer.kind != Keep ==>
          && a.rollback.Keys == {ActionType, KvRef, TargetLocation}
          && Says(a.rollback, ActionType, Text("migrate")) && Says(a.rollback, KvRef, Text(request.kvRef))
          && Says(a.rollback, TargetLocation, Text(sit.current.locationRef)))
  }

  lemma ActionActsAs(
      cfg: Config, owner: Owner, request: Request, sit: Situation, stateOwner: string, x: Choice, actionId: string)
    ensures ActsAs(owner, sit, x, ActionFor(cfg, owner, request, sit, stateOwner, x, actionId))
  {
    hide KvAction.Name, IsCalled;
    KindsAreCalled(x.offer.kind);
  }

  lemma ActionActsIf(
      cfg: Config, owner: Owner, request: Request, sit: Situation, stateOwner: string, x: Choice, actionId: string)
    ensures ActsIf(owner, request, sit, stateOwner, ActionFor(cfg, owner, request, sit, stateOwner, x, actionId))
  {
    hide KvAction.Name, TargetRecord.IsHbm;
  }

  lemma ActionActsSafely(
      cfg: Config, owner: Owner, request: Request, sit: Situation, stateOwner: string, x: Choice, actionId: string)
    ensures ActsSafely(cfg, owner, request, sit, x, ActionFor(cfg, owner, request, sit, stateOwner, x, actionId))
  {
    HbmMeansInHbm(x.offer.target);
    hide TargetRecord.IsHbm, InHbm;
  }

  /** A plan is written down as made: every candidate and prediction in its order, the selected action as what it is, and
      the reason. */
  lemma PlanIsWrittenDown(run: Run, stateOwner: string, stamp: PlanIds)
    requires run.Valid()
    ensures HasKeep(run.offers)
    ensures var plan, x := PlanOf(run, stateOwner, stamp), run.Selected().choice;
            var d := plan.decision;
            && ActsOn(run.cfg, run.owner, run.request, run.sit, stateOwner, x, d.selectedAction)
            && d.selectedAction.actionId == stamp.actionId
            && d.decisionId == stamp.decisionId && d.timestamp == stamp.at && d.snapshotId == run.sit.snap.token
            && d.policyVersion == run.request.policyVersion && d.reason == run.Selected().reason
            && |d.candidateIds| == |d.predictionIds| == |plan.predictions| == |run.offers|
            && (forall i :: 0 <= i < |run.offers| ==>
                  && d.candidateIds[i] == run.offers[i].candidate.candidateId
                  && d.predictionIds[i] == plan.predictions[i].predictionId
                  && plan.predictions[i] == run.PredictionAt(i))
            && d.constraints == ["snapshot_completeness=" + run.cfg.format(run.sit.snap.completeness),
                                 "prediction_confidence=" + run.cfg.format(x.prediction.confidence),
                                 "owner=" + run.owner.componentRef]
            && plan.situation == run.sit && plan.currentLocation == run.sit.current.locationRef
            && plan.selectedTarget == x.offer.target.locationRef
  {
    hide P.Evaluate, Offers, ObservedPressure, ActionFor, ActsAs, ActsIf, ActsSafely, Select, SortedVersions;
    var k := SelectionIsSound(run);
    var x := run.Selected().choice;
    PlanSelects(run, stateOwner, stamp);
    ActionActsAs(run.cfg, run.owner, run.request, run.sit, stateOwner, x, stamp.actionId);
    ActionActsIf(run.cfg, run.owner, run.request, run.sit, stateOwner, x, stamp.actionId);
    ActionActsSafely(run.cfg, run.owner, run.request, run.sit, stateOwner, x, stamp.actionId);
  }

  lemma PlanSelects(run: Run, stateOwner: string, stamp: PlanIds)
    requires |run.ids| == |run.offers| && HasKeep(run.offers)
    ensures var d := PlanOf(run, stateOwner, stamp).decision;
            && d.selectedAction == ActionFor(run.cfg, run.owner, run.request, run.sit, stateOwner,
                                             run.Selected().choice, stamp.actionId)
            && d.selectedAction.actionId == stamp.actionId
  {
    hide P.Evaluate, Select, SortedVersions;
  }
}
