// Whole runs of the State Plane: the write protocol, integrity, and bounded retention.

module PlaneRuns {
  import opened Basics
  import opened Contracts
  import opened KeyRegistry
  import opened PlaneSpec

  datatype Op =
    | EntityOp(entity: Entity, now: Time)
    | StateOp(update: StateUpdate)
    | RelationOp(relation: RelationUpdate)
    | EventOp(event: StateEvent)
    | SnapshotOp(request: SnapshotRequest, now: Time, token: string)
  {
    /** Only state and relation writes carry idempotency keys. */
    function IdempotencyKey(): string {
      match this
      case StateOp(u) => u.idempotencyKey
      case RelationOp(u) => u.idempotencyKey
      case _ => ""
    }
  }

  function Step(cfg: PlaneConfig, s: Plane, op: Op): Plane {
    match op
    case EntityOp(e, now) => UpsertEntity(cfg, s, e, now).0
    case StateOp(u) => PublishOne(cfg, s, u).0
    case RelationOp(u) => UpsertRelation(cfg, s, u).0
    case EventOp(e) => PublishEvent(cfg, s, e).0
    case SnapshotOp(req, now, token) => TakeSnapshot(cfg, s, req, now, token).0
  }

  /** Whether the operation was told that its write took effect. */
  predicate Acknowledged(cfg: PlaneConfig, s: Plane, op: Op) {
    match op
    case EntityOp(e, now) => UpsertEntity(cfg, s, e, now).1.EntityStored?
    case StateOp(u) => PublishOne(cfg, s, u).1.accepted
    case RelationOp(u) => UpsertRelation(cfg, s, u).1.accepted
    case EventOp(e) => PublishEvent(cfg, s, e).1.accepted
    case SnapshotOp(_, _, _) => false
  }

  /** The plane after the first `n` operations of a run. */
  function After(cfg: PlaneConfig, s: Plane, ops: seq<Op>, n: nat): Plane
    requires n <= |ops|
  {
    if n == 0 then s else Step(cfg, After(cfg, s, ops, n - 1), ops[n - 1])
  }

  function CountAcknowledged(cfg: PlaneConfig, s: Plane, ops: seq<Op>, n: nat): nat
    requires n <= |ops|
  {
    if n == 0 then 0
    else CountAcknowledged(cfg, s, ops, n - 1)
         + if Acknowledged(cfg, After(cfg, s, ops, n - 1), ops[n - 1]) then 1 else 0
  }

  // ---- Reachable planes ----

  /** What every reachable plane satisfies. */
  ghost predicate Valid(cfg: PlaneConfig, s: Plane) {
    && (forall r :: r in s.entities ==> s.entities[r].ref == r)
    && StateSound(cfg, s)
    && RelationsSound(s)
    && EventsSound(cfg, s)
    && SnapshotsSound(cfg, s)
    && ContiguousFeed(cfg, s)
  }

  ghost predicate StateSound(cfg: PlaneConfig, s: Plane) {
    forall slot :: slot in s.state ==> SoundValue(cfg, s, slot)
  }

  ghost predicate RelationsSound(s: Plane) {
    forall t :: t in s.relations ==> SoundRelation(s, t)
  }

  ghost predicate EventsSound(cfg: PlaneConfig, s: Plane) {
    && |s.events| <= cfg.maxEvents
    && forall i, j :: 0 <= i < j < |s.events| ==> s.events[i].eventId != s.events[j].eventId
  }

  ghost predicate SnapshotsSound(cfg: PlaneConfig, s: Plane) {
    && |s.snapshots| <= cfg.maxSnapshots
    && forall i :: 0 <= i < |s.snapshots| ==> SoundSnapshot(s, s.snapshots[i])
  }

  /** The value sits under a canonical key that is legal for its registered entity and has the declared type. */
  ghost predicate SoundValue(cfg: PlaneConfig, s: Plane, slot: Slot)
    requires slot in s.state
  {
    && slot == (s.state[slot].entityRef, s.state[slot].key)
    && slot.0 in s.entities
    && slot.1 in cfg.registry.definitions
    && s.entities[slot.0].entityType in cfg.registry.definitions[slot.1].entityTypes
    && cfg.registry.definitions[slot.1].Accepts(s.state[slot].value)
    && 0.0 <= s.state[slot].confidence <= 1.0
  }

  ghost predicate SoundRelation(s: Plane, t: Triple)
    requires t in s.relations
  {
    && t == (s.relations[t].sourceRef, s.relations[t].relationType, s.relations[t].targetRef)
    && t.0 in s.entities && t.2 in s.entities
    && RelationAllowed(s.entities[t.0], s.entities[t.2], t.1)
  }

  /** Entities are never removed, so even a frozen relation still joins registered ones. */
  ghost predicate SoundSnapshot(s: Plane, snapshot: Snapshot) {
    forall t :: t in snapshot.relations ==> t.0 in s.entities && t.2 in s.entities
  }

  /** The retained changes are the contiguous run of cursors that ends at the revision. */
  ghost predicate ContiguousFeed(cfg: PlaneConfig, s: Plane) {
    && |s.changes| == MinInt(s.revision, cfg.maxChanges)
    && forall i :: 0 <= i < |s.changes| ==> s.changes[i].cursor == s.revision - |s.changes| + 1 + i
  }

  lemma RecordKeepsFeed(cfg: PlaneConfig, s: Plane, kind: ChangeKind, ref: string, key: string, v: int, ts: Time)
    requires ContiguousFeed(cfg, s)
    ensures ContiguousFeed(cfg, s.Record(cfg, kind, ref, key, v, ts))
  {
  }

  /** Registered entities keep their graph and type; new ones may appear. */
  predicate EntitiesGrow(s: Plane, s': Plane) {
    forall r :: r in s.entities ==>
                  && r in s'.entities
                  && s'.entities[r].graph == s.entities[r].graph
                  && s'.entities[r].entityType == s.entities[r].entityType
  }

  lemma StateSurvives(cfg: PlaneConfig, s: Plane, s': Plane)
    requires StateSound(cfg, s) && EntitiesGrow(s, s') && s'.state == s.state
    ensures StateSound(cfg, s')
  {
    hide CanonicalKey.Accepts, GraphEntity.WellFormed;
    forall slot | slot in s'.state ensures SoundValue(cfg, s', slot) {
      assert SoundValue(cfg, s, slot);
    }
  }

  lemma RelationsSurvive(s: Plane, s': Plane)
    requires RelationsSound(s) && EntitiesGrow(s, s') && s'.relations == s.relations
    ensures RelationsSound(s')
  {
    hide RelationAllowed, GraphEntity.WellFormed;
    forall t | t in s'.relations ensures SoundRelation(s', t) {
      assert SoundRelation(s, t);
      SameTypesSameRelations(s.entities[t.0], s.entities[t.2], s'.entities[t.0], s'.entities[t.2], t.1);
    }
  }

  lemma SnapshotsSurvive(cfg: PlaneConfig, s: Plane, s': Plane)
    requires SnapshotsSound(cfg, s) && EntitiesGrow(s, s') && s'.snapshots == s.snapshots
    ensures SnapshotsSound(cfg, s')
  {
    hide GraphEntity.WellFormed;
    forall i | 0 <= i < |s'.snapshots| ensures SoundSnapshot(s', s'.snapshots[i]) {
      assert SoundSnapshot(s, s.snapshots[i]);
    }
  }

  /** Each part of the invariant survives anything that leaves its own data alone. */
  lemma PartsSurvive(cfg: PlaneConfig, s: Plane, s': Plane)
    requires Valid(cfg, s) && EntitiesGrow(s, s')
    ensures s'.state == s.state ==> StateSound(cfg, s')
    ensures s'.relations == s.relations ==> RelationsSound(s')
    ensures s'.events == s.events ==> EventsSound(cfg, s')
    ensures s'.snapshots == s.snapshots ==> SnapshotsSound(cfg, s')
  {
    hide StateSound, RelationsSound, SnapshotsSound;
    if s'.state == s.state {
      StateSurvives(cfg, s, s');
    }
    if s'.relations == s.relations {
      RelationsSurvive(s, s');
    }
    if s'.snapshots == s.snapshots {
      SnapshotsSurvive(cfg, s, s');
    }
  }

  lemma EntityKeepsValid(cfg: PlaneConfig, s: Plane, e: Entity, now: Time)
    requires Valid(cfg, s)
    ensures Valid(cfg, UpsertEntity(cfg, s, e, now).0)
    ensures UpsertEntity(cfg, s, e, now).1 != GraphCannotChange
  {
    hide GraphEntity.WellFormed, StateSound, RelationsSound, EventsSound, SnapshotsSound;
    if e.ref in s.entities {
      RefFixesGraphAndType(s.entities[e.ref], e);
    }
    var s' := UpsertEntity(cfg, s, e, now).0;
    RecordKeepsFeed(cfg, s.(entities := s.entities[e.ref := e]), EntityChange, e.ref, e.entityType, 1, now);
    PartsSurvive(cfg, s, s');
  }

  lemma SameTypesSameRelations(source: Entity, target: Entity, source': Entity, target': Entity, relationType: string)
    requires source'.graph == source.graph && source'.entityType == source.entityType
    requires target'.graph == target.graph && target'.entityType == target.entityType
    ensures RelationAllowed(source', target', relationType) == RelationAllowed(source, target, relationType)
  {
    hide GraphEntity.WellFormed;
  }

  /** What an accepted state write does: one slot, one change, at most one remembered key. */
  lemma PublishEffect(cfg: PlaneConfig, s: Plane, u: StateUpdate) returns (slot: Slot)
    requires cfg.Valid() && PublishOne(cfg, s, u).1.accepted
    ensures Admit(cfg, s, u).Ok? && slot == (u.entityRef, Admit(cfg, s, u).value.key)
    ensures slot.1 in cfg.registry.definitions && cfg.registry.definitions[slot.1] == Admit(cfg, s, u).value
    ensures ArbitrateState(s, slot, u).None?
    ensures var s' := PublishOne(cfg, s, u).0;
            && slot in s'.state
            && s'.state[slot].entityRef == slot.0 && s'.state[slot].key == slot.1
            && s'.state[slot].value == u.value && s'.state[slot].confidence == Clamp(u.confidence)
            && s'.state[slot].authority == u.authority && s'.state[slot].timestamp == u.timestamp
            && s'.state[slot].version
               == NextVersion(CurrentValue(s, slot), Stamp(u.authority, u.timestamp, u.version))
            && s' == s.(state := s.state[slot := s'.state[slot]])
                     .Record(cfg, StateChangeKind, slot.0, slot.1, s'.state[slot].version, u.timestamp)
                     .Remember(u.idempotencyKey, PublishOne(cfg, s, u).1)
  {
    hide CanonicalKey.Accepts, Arbitrate;
    slot := (u.entityRef, Admit(cfg, s, u).value.key);
  }

  lemma AdmittedIsLegal(cfg: PlaneConfig, s: Plane, u: StateUpdate)
    requires cfg.Valid() && Admit(cfg, s, u).Ok?
    ensures var d := Admit(cfg, s, u).value;
            && u.entityRef in s.entities
            && s.entities[u.entityRef].entityType in d.entityTypes
            && d.Accepts(u.value)
  {
    hide CanonicalKey.Accepts;
  }

  lemma PublishKeepsValid(cfg: PlaneConfig, s: Plane, u: StateUpdate)
    requires cfg.Valid() && Valid(cfg, s)
    ensures Valid(cfg, PublishOne(cfg, s, u).0)
  {
    hide Admit, ArbitrateState, PublishOne, StateSound, RelationsSound, EventsSound, SnapshotsSound;
    PublishRejectionChangesNothing(cfg, s, u);
    if PublishOne(cfg, s, u).1.accepted {
      var s' := PublishOne(cfg, s, u).0;
      var slot := PublishEffect(cfg, s, u);
      AdmittedIsLegal(cfg, s, u);
      RecordKeepsFeed(cfg, s.(state := s'.state), StateChangeKind, slot.0, slot.1, s'.state[slot].version, u.timestamp);
      PartsSurvive(cfg, s, s');
      StateSoundExtends(cfg, s, s', slot);
    }
  }

  lemma StateSoundExtends(cfg: PlaneConfig, s: Plane, s': Plane, slot: Slot)
    requires StateSound(cfg, s) && s'.entities == s.entities
    requires slot in s'.state && s'.state == s.state[slot := s'.state[slot]] && SoundValue(cfg, s', slot)
    ensures StateSound(cfg, s')
  {
    hide CanonicalKey.Accepts, GraphEntity.WellFormed;
    forall x | x in s'.state ensures SoundValue(cfg, s', x) {
      if x != slot {
        assert SoundValue(cfg, s, x);
      }
    }
  }

  lemma RelationsSoundExtends(s: Plane, s': Plane, t: Triple)
    requires RelationsSound(s) && s'.entities == s.entities
    requires t in s'.relations && s'.relations == s.relations[t := s'.relations[t]] && SoundRelation(s', t)
    ensures RelationsSound(s')
  {
    hide RelationAllowed, GraphEntity.WellFormed;
    forall x | x in s'.relations ensures SoundRelation(s', x) {
      if x != t {
        assert SoundRelation(s, x);
      }
    }
  }

  lemma PublishRejectionChangesNothing(cfg: PlaneConfig, s: Plane, u: StateUpdate)
    ensures !PublishOne(cfg, s, u).1.accepted ==> PublishOne(cfg, s, u).0 == s
  {
    hide CanonicalKey.Accepts, Arbitrate;
  }

  lemma RelateKeepsValid(cfg: PlaneConfig, s: Plane, u: RelationUpdate)
    requires Valid(cfg, s)
    ensures Valid(cfg, UpsertRelation(cfg, s, u).0)
  {
    hide RelationAllowed, ArbitrateRelation, UpsertRelation, StateSound, RelationsSound, EventsSound, SnapshotsSound;
    RelateEffect(cfg, s, u);
    if UpsertRelation(cfg, s, u).1.accepted {
      var s' := UpsertRelation(cfg, s, u).0;
      RecordKeepsFeed(cfg, s.(relations := s'.relations), RelationChange, u.sourceRef, u.relationType,
                      s'.relations[u.Triple()].version, u.timestamp);
      PartsSurvive(cfg, s, s');
      RelationsSoundExtends(s, s', u.Triple());
    }
  }

  /** Integrity is inductive: no operation leads out of the valid planes. */
  lemma StepKeepsValid(cfg: PlaneConfig, s: Plane, op: Op)
    requires cfg.Valid() && Valid(cfg, s)
    ensures Valid(cfg, Step(cfg, s, op))
  {
    hide Valid;
    match op
    case EntityOp(e, now) => EntityKeepsValid(cfg, s, e, now);
    case StateOp(u) => PublishKeepsValid(cfg, s, u);
    case RelationOp(u) => RelateKeepsValid(cfg, s, u);
    case EventOp(e) => EventKeepsValid(cfg, s, e);
    case SnapshotOp(req, now, token) => SnapshotKeepsValid(cfg, s, req, now, token);
  }

  lemma EventKeepsValid(cfg: PlaneConfig, s: Plane, e: StateEvent)
    requires Valid(cfg, s)
    ensures Valid(cfg, PublishEvent(cfg, s, e).0)
  {
    hide StateSound, RelationsSound, EventsSound, SnapshotsSound;
    RecordKeepsFeed(cfg, s.(events := LastN(s.events + [e], cfg.maxEvents)), EventChange, e.subjectRef, e.eventType, 1,
                    e.timestamp);
    PartsSurvive(cfg, s, PublishEvent(cfg, s, e).0);
    if !s.HasEvent(e.eventId) {
      EventsSoundExtends(cfg, s, e);
    }
  }

  lemma EventsSoundExtends(cfg: PlaneConfig, s: Plane, e: StateEvent)
    requires EventsSound(cfg, s) && !s.HasEvent(e.eventId)
    ensures forall s': Plane :: s'.events == LastN(s.events + [e], cfg.maxEvents) ==> EventsSound(cfg, s')
  {
  }

  lemma SnapshotKeepsValid(cfg: PlaneConfig, s: Plane, req: SnapshotRequest, now: Time, token: string)
    requires Valid(cfg, s)
    ensures Valid(cfg, TakeSnapshot(cfg, s, req, now, token).0)
  {
    hide StateSound, RelationsSound, EventsSound, SoundSnapshot, SnapshotOf;
    var s', x := TakeSnapshot(cfg, s, req, now, token).0, SnapshotOf(cfg, s, req, now, token);
    PartsSurvive(cfg, s, s');
    FrozenRelationsAreSound(cfg, s, req, now, token);
    forall i | 0 <= i < |s'.snapshots| ensures SoundSnapshot(s', s'.snapshots[i]) {
      assert s'.snapshots[i] in Without(s.snapshots, token) + [x];
      SoundInEqualEntities(s, s', s'.snapshots[i]);
    }
  }

  lemma SoundInEqualEntities(s: Plane, s': Plane, x: Snapshot)
    requires s'.entities == s.entities
    ensures SoundSnapshot(s', x) == SoundSnapshot(s, x)
  {
  }

  lemma FrozenRelationsAreSound(cfg: PlaneConfig, s: Plane, req: SnapshotRequest, now: Time, token: string)
    requires Valid(cfg, s)
    ensures SoundSnapshot(s, SnapshotOf(cfg, s, req, now, token))
  {
    hide Reached, Unknown, RelationAllowed, CanonicalKey.Accepts;
    assert forall t :: t in ScopedRelations(s, req, now) ==> SoundRelation(s, t);
  }

  lemma {:induction false} ReachablePlanesAreValid(cfg: PlaneConfig, ops: seq<Op>, n: nat)
    requires cfg.Valid() && n <= |ops|
    ensures Valid(cfg, After(cfg, EMPTY, ops, n))
  {
    hide Step, Valid, PlaneConfig.Valid;
    if n == 0 {
      EmptyPlaneIsValid(cfg);
    } else {
      ReachablePlanesAreValid(cfg, ops, n - 1);
      StepKeepsValid(cfg, After(cfg, EMPTY, ops, n - 1), ops[n - 1]);
    }
  }

  lemma EmptyPlaneIsValid(cfg: PlaneConfig)
    ensures Valid(cfg, EMPTY)
  {
  }

  // ---- The write protocol ----

  lemma RelateEffect(cfg: PlaneConfig, s: Plane, u: RelationUpdate)
    ensures !UpsertRelation(cfg, s, u).1.accepted ==> UpsertRelation(cfg, s, u).0 == s
    ensures UpsertRelation(cfg, s, u).1.accepted ==>
              && AdmitRelation(s, u).None? && ArbitrateRelation(s, u).None?
              && var version := NextVersion(CurrentRelation(s, u.Triple()), Stamp(u.authority, u.timestamp, u.version));
                 UpsertRelation(cfg, s, u).0
                 == s.(relations := s.relations[u.Triple() := RelationOf(u, version)])
                     .Record(cfg, RelationChange, u.sourceRef, u.relationType, version, u.timestamp)
                     .Remember(u.idempotencyKey, UpsertRelation(cfg, s, u).1)
  {
    hide RelationAllowed, Arbitrate;
  }

  /** The change an acknowledged operation appends to the feed. */
  function ChangeOf(cfg: PlaneConfig, s: Plane, op: Op): StateChange
    requires Acknowledged(cfg, s, op)
  {
    match op
    case EntityOp(e, now) => StateChange(s.revision + 1, EntityChange, e.ref, e.entityType, 1, now)
    case StateOp(u) =>
      var result := PublishOne(cfg, s, u).1;
      StateChange(s.revision + 1, StateChangeKind, result.entityRef, result.key, result.version, u.timestamp)
    case RelationOp(u) =>
      var result := UpsertRelation(cfg, s, u).1;
      StateChange(s.revision + 1, RelationChange, u.sourceRef, u.relationType, result.version, u.timestamp)
    case EventOp(e) => StateChange(s.revision + 1, EventChange, e.subjectRef, e.eventType, 1, e.timestamp)
  }

  ghost predicate AnnouncedBy(cfg: PlaneConfig, s: Plane, s': Plane, change: StateChange) {
    s'.revision == s.revision + 1 && s'.changes == LastN(s.changes + [change], cfg.maxChanges)
  }

  lemma PublishAnnounces(cfg: PlaneConfig, s: Plane, u: StateUpdate)
    requires cfg.Valid() && PublishOne(cfg, s, u).1.accepted
    ensures AnnouncedBy(cfg, s, PublishOne(cfg, s, u).0, ChangeOf(cfg, s, StateOp(u)))
  {
    hide Admit, ArbitrateState, PublishOne;
    var slot := PublishEffect(cfg, s, u);
    AcceptedResult(cfg, s, u);
  }

  lemma RelateAnnounces(cfg: PlaneConfig, s: Plane, u: RelationUpdate)
    requires UpsertRelation(cfg, s, u).1.accepted
    ensures AnnouncedBy(cfg, s, UpsertRelation(cfg, s, u).0, ChangeOf(cfg, s, RelationOp(u)))
  {
    hide AdmitRelation, ArbitrateRelation, UpsertRelation;
    RelateEffect(cfg, s, u);
    AcceptedRelationResult(cfg, s, u);
  }

  /** Acknowledged operations advance the revision and the feed by one; a refused write leaves the plane as it was. */
  lemma StepEffect(cfg: PlaneConfig, s: Plane, op: Op)
    requires cfg.Valid()
    ensures var s' := Step(cfg, s, op);
            if Acknowledged(cfg, s, op) then AnnouncedBy(cfg, s, s', ChangeOf(cfg, s, op))
            else if op.SnapshotOp? then s' == s.(snapshots := s'.snapshots)
            else s' == s
  {
    hide PublishOne, UpsertRelation, SnapshotOf;
    match op
    case StateOp(u) =>
      hide ChangeOf, AnnouncedBy;
      PublishRejectionChangesNothing(cfg, s, u);
      if PublishOne(cfg, s, u).1.accepted {
        PublishAnnounces(cfg, s, u);
      }
    case RelationOp(u) =>
      hide ChangeOf, AnnouncedBy;
      RelateEffect(cfg, s, u);
      if UpsertRelation(cfg, s, u).1.accepted {
        RelateAnnounces(cfg, s, u);
      }
    case EntityOp(e, now) =>
      hide CanonicalKey.Accepts;
      assert Acknowledged(cfg, s, op) ==> AnnouncedBy(cfg, s, UpsertEntity(cfg, s, e, now).0, ChangeOf(cfg, s, op));
    case EventOp(e) =>
      hide CanonicalKey.Accepts;
      assert Acknowledged(cfg, s, op) ==> AnnouncedBy(cfg, s, PublishEvent(cfg, s, e).0, ChangeOf(cfg, s, op));
    case SnapshotOp(_, _, _) =>
      hide ChangeOf, AnnouncedBy;
  }

  lemma AcceptedResult(cfg: PlaneConfig, s: Plane, u: StateUpdate)
    requires PublishOne(cfg, s, u).1.accepted
    ensures var r := PublishOne(cfg, s, u).1;
            && Admit(cfg, s, u).Ok?
            && r.entityRef == u.entityRef && r.key == Admit(cfg, s, u).value.key
            && r.version == NextVersion(CurrentValue(s, (r.entityRef, r.key)),
                                        Stamp(u.authority, u.timestamp, u.version))
  {
    hide CanonicalKey.Accepts, Arbitrate, Admit;
  }

  lemma AcceptedRelationResult(cfg: PlaneConfig, s: Plane, u: RelationUpdate)
    requires UpsertRelation(cfg, s, u).1.accepted
    ensures UpsertRelation(cfg, s, u).1.version
            == NextVersion(CurrentRelation(s, u.Triple()), Stamp(u.authority, u.timestamp, u.version))
  {
    hide RelationAllowed, Arbitrate;
  }

  /** The revision counts exactly the acknowledged operations. */
  lemma {:induction false} RevisionCountsAcknowledged(cfg: PlaneConfig, s: Plane, ops: seq<Op>, n: nat)
    requires cfg.Valid() && n <= |ops|
    ensures After(cfg, s, ops, n).revision == s.revision + CountAcknowledged(cfg, s, ops, n)
  {
    hide Step, Acknowledged;
    if n > 0 {
      RevisionCountsAcknowledged(cfg, s, ops, n - 1);
      StepEffect(cfg, After(cfg, s, ops, n - 1), ops[n - 1]);
    }
  }

  /** Two moments of a run with the same revision show the same entities, state and relations. */
  lemma {:induction false} SameRevisionSameContents(cfg: PlaneConfig, s: Plane, ops: seq<Op>, i: nat, j: nat)
    requires cfg.Valid() && i <= j <= |ops|
    ensures After(cfg, s, ops, i).revision <= After(cfg, s, ops, j).revision
    ensures var a, b := After(cfg, s, ops, i), After(cfg, s, ops, j);
            a.revision == b.revision ==>
              a.entities == b.entities && a.state == b.state && a.relations == b.relations
  {
    hide Step;
    if i < j {
      SameRevisionSameContents(cfg, s, ops, i, j - 1);
      StepEffect(cfg, After(cfg, s, ops, j - 1), ops[j - 1]);
    }
  }

  /** A legitimate overwrite raises the version, and yields only to rank, to time within a rank, or to expiry. */
  predicate Supersedes(before: Stamp, expired: bool, after: Stamp) {
    && after.version > before.version
    && (|| after.authority > before.authority
        || (after.authority == before.authority && after.timestamp >= before.timestamp)
        || (after.authority < before.authority && expired))
  }

  /** Arbitration accepts exactly the overwrites that are legitimate. */
  lemma ArbitrationIsSupersession(current: Stamp, currentFresh: bool, expected: Option<int>, offer: Stamp)
    ensures Arbitrate(Some(current), currentFresh, expected, offer).None? <==>
            && (expected.Some? ==> expected.value == current.version)
            && Supersedes(current, !currentFresh, offer.(version := NextVersion(Some(current), offer)))
  {
  }

  lemma StateOverwriteSupersedes(cfg: PlaneConfig, s: Plane, op: Op, slot: Slot)
    requires cfg.Valid() && slot in s.state
    ensures slot in Step(cfg, s, op).state
    ensures var before, after := s.state[slot], Step(cfg, s, op).state[slot];
            after == before
            || Supersedes(ValueStamp(before), !before.IsFresh(after.timestamp, None), ValueStamp(after))
  {
    hide Admit, Arbitrate, AdmitRelation, PublishOne, UpsertRelation, SnapshotOf, CanonicalKey.Accepts;
    match op
    case StateOp(u) =>
      PublishRejectionChangesNothing(cfg, s, u);
      if PublishOne(cfg, s, u).1.accepted {
        var written := PublishEffect(cfg, s, u);
        if slot == written {
          ArbitrationIsSupersession(ValueStamp(s.state[slot]), s.state[slot].IsFresh(u.timestamp, None),
                                    u.expectedVersion, Stamp(u.authority, u.timestamp, u.version));
        }
      }
    case RelationOp(u) => RelateEffect(cfg, s, u);
    case _ =>
  }

  lemma RelationOverwriteSupersedes(cfg: PlaneConfig, s: Plane, op: Op, t: Triple)
    requires cfg.Valid() && t in s.relations
    ensures t in Step(cfg, s, op).relations
    ensures var before, after := s.relations[t], Step(cfg, s, op).relations[t];
            after == before
            || Supersedes(RelationStamp(before), !before.IsFresh(after.timestamp), RelationStamp(after))
  {
    hide Admit, Arbitrate, AdmitRelation, PublishOne, UpsertRelation, SnapshotOf, CanonicalKey.Accepts;
    match op
    case StateOp(u) =>
      PublishRejectionChangesNothing(cfg, s, u);
      if PublishOne(cfg, s, u).1.accepted {
        var slot := PublishEffect(cfg, s, u);
      }
    case RelationOp(u) =>
      RelationWriteSupersedes(cfg, s, u, t);
    case _ =>
  }

  lemma RelationWriteSupersedes(cfg: PlaneConfig, s: Plane, u: RelationUpdate, t: Triple)
    requires cfg.Valid() && t in s.relations
    ensures var after := UpsertRelation(cfg, s, u).0.relations;
            && t in after
            && (after[t] == s.relations[t]
                || Supersedes(RelationStamp(s.relations[t]), !s.relations[t].IsFresh(after[t].timestamp),
                              RelationStamp(after[t])))
  {
    hide Admit, Arbitrate, AdmitRelation, UpsertRelation, Supersedes;
    RelateEffect(cfg, s, u);
    if UpsertRelation(cfg, s, u).1.accepted && t == u.Triple() {
      ArbitrationIsSupersession(RelationStamp(s.relations[t]), s.relations[t].IsFresh(u.timestamp),
                                u.expectedVersion, Stamp(u.authority, u.timestamp, u.version));
    }
  }

  /** Over a whole run a slot is never emptied, and whenever its value changed its version grew. */
  lemma {:induction false} SlotVersionsIncrease(cfg: PlaneConfig, s: Plane, ops: seq<Op>, i: nat, j: nat, slot: Slot)
    requires cfg.Valid() && i <= j <= |ops|
    requires slot in After(cfg, s, ops, i).state
    ensures slot in After(cfg, s, ops, j).state
    ensures var before, after := After(cfg, s, ops, i).state[slot], After(cfg, s, ops, j).state[slot];
            after == before || after.version > before.version
  {
    hide Step;
    if i < j {
      SlotVersionsIncrease(cfg, s, ops, i, j - 1, slot);
      StateOverwriteSupersedes(cfg, After(cfg, s, ops, j - 1), ops[j - 1], slot);
    }
  }

  lemma {:induction false} RelationVersionsIncrease(
      cfg: PlaneConfig, s: Plane, ops: seq<Op>, i: nat, j: nat, t: Triple)
    requires cfg.Valid() && i <= j <= |ops|
    requires t in After(cfg, s, ops, i).relations
    ensures t in After(cfg, s, ops, j).relations
    ensures var before, after := After(cfg, s, ops, i).relations[t], After(cfg, s, ops, j).relations[t];
            after == before || after.version > before.version
  {
    hide Step;
    if i < j {
      RelationVersionsIncrease(cfg, s, ops, i, j - 1, t);
      RelationOverwriteSupersedes(cfg, After(cfg, s, ops, j - 1), ops[j - 1], t);
    }
  }

  lemma PublishRemembers(cfg: PlaneConfig, s: Plane, u: StateUpdate, key: string)
    requires cfg.Valid() && key in s.idempotency && key != ""
    ensures var s' := PublishOne(cfg, s, u).0;
            && key in s'.idempotency && s'.idempotency[key] == s.idempotency[key]
            && (u.idempotencyKey == key ==> !PublishOne(cfg, s, u).1.accepted && s' == s)
  {
    hide Admit, ArbitrateState;
  }

  lemma RelateRemembers(cfg: PlaneConfig, s: Plane, u: RelationUpdate, key: string)
    requires key in s.idempotency && key != ""
    ensures var s' := UpsertRelation(cfg, s, u).0;
            && key in s'.idempotency && s'.idempotency[key] == s.idempotency[key]
            && (u.idempotencyKey == key ==> !UpsertRelation(cfg, s, u).1.accepted && s' == s)
  {
    hide AdmitRelation, ArbitrateRelation;
  }

  /** A remembered key keeps its result, and answers any later write that carries it. */
  lemma StepRemembers(cfg: PlaneConfig, s: Plane, op: Op, key: string)
    requires cfg.Valid() && key in s.idempotency && key != ""
    ensures var s' := Step(cfg, s, op);
            && key in s'.idempotency && s'.idempotency[key] == s.idempotency[key]
            && (op.IdempotencyKey() == key ==> !Acknowledged(cfg, s, op) && s' == s)
  {
    hide PublishOne, UpsertRelation, SnapshotOf;
    match op
    case StateOp(u) => PublishRemembers(cfg, s, u, key);
    case RelationOp(u) => RelateRemembers(cfg, s, u, key);
    case _ =>
  }

  lemma AcknowledgedIsRemembered(cfg: PlaneConfig, s: Plane, op: Op)
    requires cfg.Valid() && Acknowledged(cfg, s, op) && op.IdempotencyKey() != ""
    ensures op.IdempotencyKey() in Step(cfg, s, op).idempotency
  {
    hide Admit, ArbitrateState, AdmitRelation, ArbitrateRelation, UpsertEntity, PublishEvent;
  }

  lemma {:induction false} RememberedForever(cfg: PlaneConfig, s: Plane, ops: seq<Op>, i: nat, j: nat, key: string)
    requires cfg.Valid() && i <= j <= |ops|
    requires key != "" && key in After(cfg, s, ops, i).idempotency
    ensures key in After(cfg, s, ops, j).idempotency
    ensures After(cfg, s, ops, j).idempotency[key] == After(cfg, s, ops, i).idempotency[key]
  {
    hide Step;
    if i < j {
      RememberedForever(cfg, s, ops, i, j - 1, key);
      StepRemembers(cfg, After(cfg, s, ops, j - 1), ops[j - 1], key);
    }
  }

  /** Across state and relation writes together, a non-empty idempotency key takes effect at most once. */
  lemma KeyTakesEffectOnce(cfg: PlaneConfig, s: Plane, ops: seq<Op>, i: nat, j: nat)
    requires cfg.Valid() && i < j < |ops|
    requires ops[i].IdempotencyKey() == ops[j].IdempotencyKey() != ""
    requires Acknowledged(cfg, After(cfg, s, ops, i), ops[i])
    ensures !Acknowledged(cfg, After(cfg, s, ops, j), ops[j])
    ensures After(cfg, s, ops, j + 1) == After(cfg, s, ops, j)
  {
    hide Step, Acknowledged;
    var key := ops[i].IdempotencyKey();
    AcknowledgedIsRemembered(cfg, After(cfg, s, ops, i), ops[i]);
    RememberedForever(cfg, s, ops, i + 1, j, key);
    StepRemembers(cfg, After(cfg, s, ops, j), ops[j], key);
  }

  // ---- Bounded retention ----

  /** Every event the run accepted, in order. */
  function EventLog(cfg: PlaneConfig, s: Plane, ops: seq<Op>, n: nat): seq<StateEvent>
    requires n <= |ops|
  {
    if n == 0 then []
    else
      var front := EventLog(cfg, s, ops, n - 1);
      if ops[n - 1].EventOp? && Acknowledged(cfg, After(cfg, s, ops, n - 1), ops[n - 1]) then
        front + [ops[n - 1].event]
      else front
  }

  lemma StepEvents(cfg: PlaneConfig, s: Plane, op: Op)
    requires cfg.Valid()
    ensures Step(cfg, s, op).events ==
            if op.EventOp? && Acknowledged(cfg, s, op) then LastN(s.events + [op.event], cfg.maxEvents) else s.events
  {
    hide Admit, Arbitrate, AdmitRelation, SnapshotOf, CanonicalKey.Accepts, RelationAllowed;
    match op
    case StateOp(u) => PublishRejectionChangesNothing(cfg, s, u);
    case RelationOp(u) => RelateEffect(cfg, s, u);
    case _ =>
  }

  ghost predicate NearbyDiffer(log: seq<StateEvent>, reach: nat) {
    forall i, j :: 0 <= i < j < |log| && j - i <= reach ==> log[i].eventId != log[j].eventId
  }

  lemma NearbyExtends(log: seq<StateEvent>, reach: nat, e: StateEvent)
    requires NearbyDiffer(log, reach)
    requires forall i :: 0 <= i < |LastN(log, reach)| ==> LastN(log, reach)[i].eventId != e.eventId
    ensures NearbyDiffer(log + [e], reach)
  {
    forall i | 0 <= i < |log| && |log| - i <= reach ensures log[i].eventId != e.eventId {
      assert log[i] == LastN(log, reach)[|LastN(log, reach)| - (|log| - i)];
    }
  }

  /** Any `maxEvents` + 1 consecutive accepted events have distinct ids. */
  lemma {:induction false} NearbyEventsDiffer(cfg: PlaneConfig, ops: seq<Op>, n: nat)
    requires cfg.Valid() && n <= |ops|
    ensures After(cfg, EMPTY, ops, n).events == LastN(EventLog(cfg, EMPTY, ops, n), cfg.maxEvents)
    ensures NearbyDiffer(EventLog(cfg, EMPTY, ops, n), cfg.maxEvents)
  {
    hide Step, NearbyDiffer, LastN, Acknowledged, PlaneConfig.Valid;
    if n > 0 {
      NearbyEventsDiffer(cfg, ops, n - 1);
      EventStep(cfg, After(cfg, EMPTY, ops, n - 1), EventLog(cfg, EMPTY, ops, n - 1), ops[n - 1]);
    } else {
      assert LastN<StateEvent>([], cfg.maxEvents) == [];
      NothingDiffers(cfg.maxEvents);
    }
  }

  /** What one step does to the event log and to the events retained of it. */
  lemma EventStep(cfg: PlaneConfig, s: Plane, log: seq<StateEvent>, op: Op)
    requires cfg.Valid() && s.events == LastN(log, cfg.maxEvents) && NearbyDiffer(log, cfg.maxEvents)
    ensures var longer := if op.EventOp? && Acknowledged(cfg, s, op) then log + [op.event] else log;
            Step(cfg, s, op).events == LastN(longer, cfg.maxEvents) && NearbyDiffer(longer, cfg.maxEvents)
  {
    hide Step, NearbyDiffer, LastN, Acknowledged;
    StepEvents(cfg, s, op);
    if op.EventOp? && Acknowledged(cfg, s, op) {
      LastNAppend(log, cfg.maxEvents, op.event);
      AcceptedEventIsNew(cfg, s, op.event);
      NearbyExtends(log, cfg.maxEvents, op.event);
    }
  }

  lemma NothingDiffers(reach: nat)
    ensures NearbyDiffer([], reach)
  {
  }

  lemma AcceptedEventIsNew(cfg: PlaneConfig, s: Plane, e: StateEvent)
    requires Acknowledged(cfg, s, EventOp(e))
    ensures forall i :: 0 <= i < |s.events| ==> s.events[i].eventId != e.eventId
  {
  }

  /** How many snapshots are newer than the one under this token. */
  function Newer(snapshots: seq<Snapshot>, token: string): nat {
    if snapshots == [] || snapshots[|snapshots| - 1].token == token then 0
    else 1 + Newer(snapshots[..|snapshots| - 1], token)
  }

  lemma {:induction false} WithoutKeepsOthers(snapshots: seq<Snapshot>, other: string, token: string)
    requires other != token
    ensures Lookup(Without(snapshots, other), token) == Lookup(snapshots, token)
    ensures Newer(Without(snapshots, other), token) <= Newer(snapshots, token)
  {
    if snapshots != [] {
      var front := snapshots[..|snapshots| - 1];
      WithoutKeepsOthers(front, other, token);
      var kept := Without(front, other);
      assert (kept + [snapshots[|snapshots| - 1]])[..|kept|] == kept;
    }
  }

  lemma {:induction false} LastNKeepsNewest(snapshots: seq<Snapshot>, n: nat, token: string)
    requires Newer(snapshots, token) < n
    ensures Lookup(LastN(snapshots, n), token) == Lookup(snapshots, token)
    ensures Newer(LastN(snapshots, n), token) <= Newer(snapshots, token)
  {
    if |snapshots| > n && snapshots[|snapshots| - 1].token != token {
      var front := snapshots[..|snapshots| - 1];
      LastNKeepsNewest(front, n - 1, token);
      var kept := LastN(snapshots, n);
      assert kept[..|kept| - 1] == LastN(front, n - 1);
    }
  }

  function CountSnapshots(ops: seq<Op>, from: nat, to: nat): nat
    requires from <= to <= |ops|
  {
    if from == to then 0 else CountSnapshots(ops, from, to - 1) + if ops[to - 1].SnapshotOp? then 1 else 0
  }

  lemma NextSnapshotRetains(snapshots: seq<Snapshot>, x: Snapshot, n: nat, token: string)
    requires x.token != token && Newer(snapshots, token) + 1 < n
    ensures var after := LastN(Without(snapshots, x.token) + [x], n);
            Lookup(after, token) == Lookup(snapshots, token) && Newer(after, token) <= Newer(snapshots, token) + 1
  {
    WithoutKeepsOthers(snapshots, x.token, token);
    var all := Without(snapshots, x.token) + [x];
    assert all[..|all| - 1] == Without(snapshots, x.token);
    LastNKeepsNewest(all, n, token);
  }

  /** What a snapshot operation returned to its caller. */
  function Returned(cfg: PlaneConfig, s: Plane, op: Op): Snapshot
    requires op.SnapshotOp?
  {
    TakeSnapshot(cfg, s, op.request, op.now, op.token).1
  }

  lemma SnapshotStep(cfg: PlaneConfig, s: Plane, op: Op)
    requires op.SnapshotOp?
    ensures Returned(cfg, s, op).token == op.token
    ensures Step(cfg, s, op).snapshots
            == LastN(Without(s.snapshots, op.token) + [Returned(cfg, s, op)], cfg.maxSnapshots)
  {
    hide Reached, Unknown, ScopedRelations;
  }

  lemma StepSnapshots(cfg: PlaneConfig, s: Plane, op: Op)
    requires cfg.Valid() && !op.SnapshotOp?
    ensures Step(cfg, s, op).snapshots == s.snapshots
  {
    hide Admit, Arbitrate, AdmitRelation, SnapshotOf, CanonicalKey.Accepts, RelationAllowed;
    match op
    case StateOp(u) => PublishRejectionChangesNothing(cfg, s, u);
    case RelationOp(u) => RelateEffect(cfg, s, u);
    case _ =>
  }

  /** A token reads back exactly what was returned while fewer than `maxSnapshots` newer snapshots exist. */
  lemma {:induction false} TokenReadsBack(cfg: PlaneConfig, s: Plane, ops: seq<Op>, i: nat, j: nat)
    requires cfg.Valid() && i < j <= |ops|
    requires ops[i].SnapshotOp?
    requires forall k :: i < k < j && ops[k].SnapshotOp? ==> ops[k].token != ops[i].token
    requires CountSnapshots(ops, i + 1, j) < cfg.maxSnapshots
    ensures var later := After(cfg, s, ops, j);
            && later.FindSnapshot(ops[i].token) == Some(Returned(cfg, After(cfg, s, ops, i), ops[i]))
            && Newer(later.snapshots, ops[i].token) <= CountSnapshots(ops, i + 1, j)
  {
    hide Step, Returned;
    var before, op := After(cfg, s, ops, j - 1), ops[j - 1];
    if i + 1 < j {
      TokenReadsBack(cfg, s, ops, i, j - 1);
      if op.SnapshotOp? {
        SnapshotStep(cfg, before, op);
        NextSnapshotRetains(before.snapshots, Returned(cfg, before, op), cfg.maxSnapshots, ops[i].token);
      } else {
        StepSnapshots(cfg, before, op);
      }
    } else {
      SnapshotStep(cfg, before, op);
      NewestIsFound(Without(before.snapshots, op.token), Returned(cfg, before, op), cfg.maxSnapshots);
    }
  }

  lemma NewestIsFound(snapshots: seq<Snapshot>, x: Snapshot, n: nat)
    requires n >= 1
    ensures var after := LastN(snapshots + [x], n);
            Lookup(after, x.token) == Some(x) && Newer(after, x.token) == 0
  {
  }
}
