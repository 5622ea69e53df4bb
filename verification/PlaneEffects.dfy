// What a write to the plane leaves behind, and how long it counts: in terms of the write and the registry alone.

module PlaneEffects {
  import opened Basics
  import opened Contracts
  import opened KeyRegistry
  import opened PlaneSpec
  import opened PlaneRuns
  import opened SnapshotClassification

  // ---- State writes ----

  /** How long a write counts: its own time to live, or else the one of the key it was written under. */
  ghost predicate LivesFor(cfg: PlaneConfig, u: StateUpdate, life: Option<Time>) {
    && cfg.registry.Resolve(u.key).Some?
    && if u.ttl == None then life == cfg.registry.Resolve(u.key).value.ttl else life == u.ttl
  }

  /** An accepted write is stored under its canonical key as it was given, its confidence cut to a share, and the plane
      changes in nothing else but the feed and the memory of idempotency keys. */
  lemma StateWriteIsStored(cfg: PlaneConfig, s: Plane, u: StateUpdate) returns (v: StateValue)
    requires cfg.Valid() && PublishOne(cfg, s, u).1.accepted
    ensures cfg.registry.Resolve(u.key).Some?
    ensures var (s', r), slot := PublishOne(cfg, s, u), (u.entityRef, cfg.registry.Resolve(u.key).value.key);
            && slot in s'.state && s'.state[slot] == v && LivesFor(cfg, u, v.ttl)
            && v.entityRef == u.entityRef && v.key == slot.1 && v.value == u.value && v.producer == u.producer
            && v.timestamp == u.timestamp && v.authority == u.authority
            && 0.0 <= v.confidence <= 1.0 && (0.0 <= u.confidence <= 1.0 ==> v.confidence == u.confidence)
            && (u.version != 0 ==> v.version == u.version)
            && (u.version == 0 ==> v.version == if slot in s.state then s.state[slot].version + 1 else 1)
            && (forall other :: other != slot ==> (other in s'.state <==> other in s.state))
            && (forall other :: other in s.state && other != slot ==> s'.state[other] == s.state[other])
            && s'.entities == s.entities && s'.relations == s.relations && s'.events == s.events
            && s'.snapshots == s.snapshots
            && r == WriteResult(true, false, false, u.entityRef, slot.1, v.version, Accepted)
            && (u.idempotencyKey != "" ==> s'.idempotency == s.idempotency[u.idempotencyKey := r])
            && (u.idempotencyKey == "" ==> s'.idempotency == s.idempotency)
  {
    hide CanonicalKey.Accepts, Arbitrate, LastN;
    var slot := PublishEffect(cfg, s, u);
    v := PublishOne(cfg, s, u).0.state[slot];
    WriteKeepsItsParts(cfg, s, u);
  }

  lemma WriteKeepsItsParts(cfg: PlaneConfig, s: Plane, u: StateUpdate)
    requires PublishOne(cfg, s, u).1.accepted
    ensures cfg.registry.Resolve(u.key).Some? && cfg.registry.Resolve(u.key) == Some(Admit(cfg, s, u).value)
    ensures var (s', r), d := PublishOne(cfg, s, u), Admit(cfg, s, u).value;
            var slot := (u.entityRef, d.key);
            && slot in s'.state && s'.state[slot].producer == u.producer
            && s'.state[slot].ttl == (if u.ttl == None then d.ttl else u.ttl)
            && r == WriteResult(true, false, false, u.entityRef, slot.1, s'.state[slot].version, Accepted)
  {
    hide CanonicalKey.Accepts, ArbitrateState, LastN;
  }

  /** A value counts at a moment: not older than it may be. */
  ghost predicate CountsAt(timestamp: Time, life: Option<Time>, now: Time) {
    life.Some? ==> 0 <= life.value && now <= timestamp + life.value
  }

  lemma FreshMeansCounts(v: StateValue, now: Time)
    ensures v.IsFresh(now, None) <==> CountsAt(v.timestamp, v.ttl, now)
  {
  }

  /** A snapshot without age limits that asks for an accepted write delivers it while it counts, and calls it stale after. */
  lemma WriteLivesItsTime(
      cfg: PlaneConfig, s: Plane, u: StateUpdate, req: SnapshotRequest, now: Time, token: string, life: Option<Time>)
    requires cfg.Valid() && cfg.registry.Stable() && PublishOne(cfg, s, u).1.accepted && LivesFor(cfg, u, life)
    requires u.entityRef in req.entities && u.key in req.keys && !IsPattern(u.key) && req.maxAgeMs == []
    requires req.minAuthority <= u.authority && !IsPattern(cfg.registry.Resolve(u.key).value.key)
    ensures var slot := (u.entityRef, cfg.registry.Resolve(u.key).value.key);
            var snap := SnapshotOf(cfg, PublishOne(cfg, s, u).0, req, now, token);
            if CountsAt(u.timestamp, life, now) then slot in snap.values && snap.values[slot].value == u.value
            else slot !in snap.values && Keyed(slot.0, slot.1) in snap.stale
  {
    hide PublishOne, SnapshotOf, CountsAt;
    var v := StateWriteIsStored(cfg, s, u);
    AcceptedWriteIsFound(cfg, s, u, req, now, token);
    FreshMeansCounts(v, now);
    assert MaxAgeFor(v.key, req.maxAgeMs) == None;
    ClassificationIsPartition(cfg, PublishOne(cfg, s, u).0, req, now, token, (v.entityRef, v.key));
  }

  /** A lower authority has to wait until what is stored no longer counts. */
  lemma LowerAuthorityWaits(cfg: PlaneConfig, s: Plane, u: StateUpdate, later: StateUpdate, life: Option<Time>)
    requires cfg.Valid() && PublishOne(cfg, s, u).1.accepted && LivesFor(cfg, u, life)
    requires later.entityRef == u.entityRef && cfg.registry.Resolve(later.key) == cfg.registry.Resolve(u.key)
    requires later.authority < u.authority && later.idempotencyKey == ""
    requires later.expectedVersion == None && later.version == 0
    requires cfg.registry.Resolve(u.key).value.Accepts(later.value)
    ensures var (after, r) := PublishOne(cfg, PublishOne(cfg, s, u).0, later);
            if CountsAt(u.timestamp, life, later.timestamp) then
              r.reason == LowerAuthority && r.conflict && after == PublishOne(cfg, s, u).0
            else r.accepted
  {
    hide CountsAt, CanonicalKey.Accepts, LastN, Clamp;
    var v := StateWriteIsStored(cfg, s, u);
    AdmittedIsLegal(cfg, s, u);
    FreshMeansCounts(v, later.timestamp);
  }

  // ---- Why a write is refused ----

  /** What each refusal says about a write and the plane it meets, given what is stored in its place. */
  ghost predicate Contended(
      reason: Reason, stored: Option<Stamp>, counts: bool, expected: Option<int>, offer: Stamp)
  {
    match reason
    case CasConflict => expected.Some? && expected != Some(if stored.None? then 0 else stored.value.version)
    case LowerAuthority => stored.Some? && stored.value.authority > offer.authority && counts
    case OutOfOrder =>
      stored.Some? && stored.value.authority == offer.authority && stored.value.timestamp > offer.timestamp
    case VersionMustIncrease => stored.Some? && offer.version != 0 && stored.value.version >= offer.version
    case _ => false
  }

  /** The first conflict there is, in this order, or none. */
  ghost predicate IsFirstConflict(
      found: Option<Reason>, stored: Option<Stamp>, counts: bool, expected: Option<int>, offer: Stamp)
  {
    var order := [CasConflict, LowerAuthority, OutOfOrder, VersionMustIncrease];
    match found
    case Some(r) =>
      exists i :: 0 <= i < |order| && order[i] == r && Contended(r, stored, counts, expected, offer)
                  && forall j :: 0 <= j < i ==> !Contended(order[j], stored, counts, expected, offer)
    case None => forall r :: !Contended(r, stored, counts, expected, offer)
  }

  lemma ArbitrationNamesFirstConflict(current: Option<Stamp>, counts: bool, expected: Option<int>, offer: Stamp)
    ensures IsFirstConflict(Arbitrate(current, counts, expected, offer), current, counts, expected, offer)
  {
    var order := [CasConflict, LowerAuthority, OutOfOrder, VersionMustIncrease];
    assert order[0] == CasConflict && order[1] == LowerAuthority && order[2] == OutOfOrder
           && order[3] == VersionMustIncrease;
  }

  /** The value stored in a slot, with what counts of it at a given time. */
  ghost function StoredIn(s: Plane, slot: Slot): Option<Stamp> {
    if slot in s.state then Some(Stamp(s.state[slot].authority, s.state[slot].timestamp, s.state[slot].version)) else None
  }

  ghost predicate ValueCounts(s: Plane, slot: Slot, now: Time) {
    slot in s.state && CountsAt(s.state[slot].timestamp, s.state[slot].ttl, now)
  }

  /** The answer to a state write, by the first of the checks that stops it; a refused write changes nothing. */
  lemma StateWriteIsAnswered(cfg: PlaneConfig, s: Plane, u: StateUpdate)
    ensures var (after, r), key := PublishOne(cfg, s, u), cfg.registry.Resolve(u.key);
            && r.accepted == (r.reason == Accepted) && (!r.accepted ==> after == s)
            && (u.idempotencyKey != "" && u.idempotencyKey in s.idempotency ==>
                  r == s.idempotency[u.idempotencyKey].(
                         accepted := false, duplicate := true, reason := DuplicateIdempotencyKey))
            && (u.idempotencyKey == "" || u.idempotencyKey !in s.idempotency ==>
                  && !r.duplicate && (!r.accepted ==> (r.entityRef, r.key, r.version) == (u.entityRef, u.key, 0))
                  && (r.conflict <==> r.reason in {CasConflict, LowerAuthority, OutOfOrder, VersionMustIncrease})
                  && if u.entityRef !in s.entities then r.reason == EntityNotRegistered
                     else if key.None? then r.reason == KeyNotRegistered
                     else if s.entities[u.entityRef].entityType !in key.value.entityTypes then r.reason == KeyInvalidForType
                     else if !Suits(u.value, key.value.valueType) then r.reason == ValueTypeMismatch
                     else
                       var slot := (u.entityRef, key.value.key);
                       IsFirstConflict(if r.accepted then None else Some(r.reason), StoredIn(s, slot),
                                       ValueCounts(s, slot, u.timestamp), u.expectedVersion,
                                       Stamp(u.authority, u.timestamp, u.version)))
  {
    hide Admit, Arbitrate, ArbitrateState, Plane.Record, Plane.Remember, IsFirstConflict, ValueCounts, StoredIn, Suits;
    AdmissionNamesCause(cfg, s, u);
    if Admit(cfg, s, u).Ok? {
      var slot := (u.entityRef, Admit(cfg, s, u).value.key);
      var offer := Stamp(u.authority, u.timestamp, u.version);
      ArbitrationIsOfStored(s, slot, u);
      ArbitrationNamesFirstConflict(StoredIn(s, slot), ValueCounts(s, slot, u.timestamp), u.expectedVersion, offer);
      ArbitrateReasons(StoredIn(s, slot), ValueCounts(s, slot, u.timestamp), u.expectedVersion, offer);
    }
  }

  const VALUE_TYPES: set<string> :=
    {"int", "float", "bool", "string", "enum", "entity_ref", "timestamp", "string_list", "map"}

  /** The value types that a value may be published under; a type of another name takes any value. */
  ghost predicate Suits(v: Value, valueType: string) {
    || valueType !in VALUE_TYPES
    || match v
       case NoValue => false
       case IntValue(_) => valueType == "int" || valueType == "float"
       case FloatValue(_) => valueType == "float"
       case BoolValue(_) => valueType == "bool"
       case TextValue(_) =>
         valueType == "string" || valueType == "enum" || valueType == "entity_ref" || valueType == "timestamp"
       case TimeValue(_) => valueType == "timestamp"
       case ListValue(items) => valueType == "string_list" && forall item :: item in items ==> item.TextValue?
       case MapValue(_) => valueType == "map"
  }

  /** Telling the names of value types apart: no two have the same length and the same first letter. */
  lemma TypesDiffer()
    ensures |"int"| == 3 && "int"[0] == 'i' && |"map"| == 3 && "map"[0] == 'm' && |"float"| == 5
    ensures |"bool"| == 4 && "bool"[0] == 'b' && |"enum"| == 4 && "enum"[0] == 'e'
    ensures |"string"| == 6 && |"entity_ref"| == 10 && |"timestamp"| == 9 && |"string_list"| == 11
  {
  }

  lemma AcceptedMeansSuits(d: CanonicalKey, v: Value)
    ensures d.Accepts(v) <==> Suits(v, d.valueType)
  {
    TypesDiffer();
    if v.ListValue? {
      assert (forall i :: 0 <= i < |v.items| ==> v.items[i].TextValue?)
             <==> (forall item :: item in v.items ==> item.TextValue?);
    }
  }

  lemma AdmissionNamesCause(cfg: PlaneConfig, s: Plane, u: StateUpdate)
    ensures var key := cfg.registry.Resolve(u.key);
            Admit(cfg, s, u) ==
            if u.entityRef !in s.entities then Err(EntityNotRegistered)
            else if key.None? then Err(KeyNotRegistered)
            else if s.entities[u.entityRef].entityType !in key.value.entityTypes then Err(KeyInvalidForType)
            else if !Suits(u.value, key.value.valueType) then Err(ValueTypeMismatch)
            else Ok(key.value)
  {
    hide CanonicalKey.Accepts, Suits;
    var key := cfg.registry.Resolve(u.key);
    if key.Some? {
      AcceptedMeansSuits(key.value, u.value);
    }
  }

  lemma ArbitrationIsOfStored(s: Plane, slot: Slot, u: StateUpdate)
    ensures ArbitrateState(s, slot, u)
            == Arbitrate(StoredIn(s, slot), ValueCounts(s, slot, u.timestamp), u.expectedVersion,
                         Stamp(u.authority, u.timestamp, u.version))
  {
    hide Arbitrate;
    if slot in s.state {
      FreshMeansCounts(s.state[slot], u.timestamp);
    }
  }

  lemma ArbitrateReasons(current: Option<Stamp>, counts: bool, expected: Option<int>, offer: Stamp)
    ensures var r := Arbitrate(current, counts, expected, offer);
            r.Some? ==> r.value in {CasConflict, LowerAuthority, OutOfOrder, VersionMustIncrease}
  {
  }

  // ---- Relation writes ----

  /** An accepted relation is stored as it was given, and nothing else changes but the feed and the idempotency keys. */
  lemma RelationWriteIsStored(cfg: PlaneConfig, s: Plane, u: RelationUpdate) returns (g: GraphRelation)
    requires UpsertRelation(cfg, s, u).1.accepted
    ensures var (s', r), t := UpsertRelation(cfg, s, u), (u.sourceRef, u.relationType, u.targetRef);
            && t in s'.relations && s'.relations[t] == g
            && (g.sourceRef, g.relationType, g.targetRef) == t && g.producer == u.producer && g.timestamp == u.timestamp
            && g.authority == u.authority && g.attributes == u.attributes && g.ttl == u.ttl
            && (u.version != 0 ==> g.version == u.version)
            && (u.version == 0 ==> g.version == if t in s.relations then s.relations[t].version + 1 else 1)
            && (forall other :: other != t ==> (other in s'.relations <==> other in s.relations))
            && (forall other :: other in s.relations && other != t ==> s'.relations[other] == s.relations[other])
            && s'.entities == s.entities && s'.state == s.state && s'.events == s.events && s'.snapshots == s.snapshots
            && r == WriteResult(true, false, false, u.sourceRef, u.relationType, g.version, Accepted)
            && (u.idempotencyKey != "" ==> s'.idempotency == s.idempotency[u.idempotencyKey := r])
            && (u.idempotencyKey == "" ==> s'.idempotency == s.idempotency)
  {
    hide RelationAllowed, Arbitrate, LastN;
    g := UpsertRelation(cfg, s, u).0.relations[u.Triple()];
  }

  /** A relation counts for ever, or up to its time to live. */
  ghost predicate RelationCounts(s: Plane, t: Triple, now: Time) {
    t in s.relations && (s.relations[t].ttl.Some? ==> now - s.relations[t].timestamp <= s.relations[t].ttl.value)
  }

  ghost function StoredRelation(s: Plane, t: Triple): Option<Stamp> {
    if t in s.relations then Some(Stamp(s.relations[t].authority, s.relations[t].timestamp, s.relations[t].version))
    else None
  }

  /** The answer to a relation write, by the first of the checks that stops it; a refused write changes nothing. */
  lemma RelationWriteIsAnswered(cfg: PlaneConfig, s: Plane, u: RelationUpdate)
    ensures var (after, r), t := UpsertRelation(cfg, s, u), (u.sourceRef, u.relationType, u.targetRef);
            && r.accepted == (r.reason == Accepted) && (!r.accepted ==> after == s)
            && (u.idempotencyKey != "" && u.idempotencyKey in s.idempotency ==>
                  r == s.idempotency[u.idempotencyKey].(
                         accepted := false, duplicate := true, reason := DuplicateIdempotencyKey))
            && (u.idempotencyKey == "" || u.idempotencyKey !in s.idempotency ==>
                  && !r.duplicate && (!r.accepted ==> (r.entityRef, r.key, r.version) == (u.sourceRef, u.relationType, 0))
                  && (r.conflict <==> r.reason in {CasConflict, LowerAuthority, OutOfOrder, VersionMustIncrease})
                  && if u.sourceRef !in s.entities || u.targetRef !in s.entities then r.reason == EndpointsNotRegistered
                     else if !MayRelate(s.entities[u.sourceRef], s.entities[u.targetRef], u.relationType) then
                       r.reason == RelationNotAllowed
                     else
                       IsFirstConflict(if r.accepted then None else Some(r.reason), StoredRelation(s, t),
                                       RelationCounts(s, t, u.timestamp), u.expectedVersion,
                                       Stamp(u.authority, u.timestamp, u.version)))
  {
    hide AdmitRelation, Arbitrate, ArbitrateRelation, Plane.Record, Plane.Remember, IsFirstConflict, MayRelate, RelationOf,
         NextVersion, StoredRelation, RelationCounts;
    var t, offer := (u.sourceRef, u.relationType, u.targetRef), Stamp(u.authority, u.timestamp, u.version);
    RelationAdmissionNamesCause(s, u);
    RelationArbitrationIsOfStored(s, u);
    ArbitrationNamesFirstConflict(StoredRelation(s, t), RelationCounts(s, t, u.timestamp), u.expectedVersion, offer);
    ArbitrateReasons(StoredRelation(s, t), RelationCounts(s, t, u.timestamp), u.expectedVersion, offer);
  }

  lemma RelationAdmissionNamesCause(s: Plane, u: RelationUpdate)
    ensures AdmitRelation(s, u) ==
            if u.sourceRef !in s.entities || u.targetRef !in s.entities then Some(EndpointsNotRegistered)
            else if !MayRelate(s.entities[u.sourceRef], s.entities[u.targetRef], u.relationType) then
              Some(RelationNotAllowed)
            else None
  {
    hide RelationAllowed, MayRelate;
    if u.sourceRef in s.entities && u.targetRef in s.entities {
      AllowedMeansMayRelate(s.entities[u.sourceRef], s.entities[u.targetRef], u.relationType);
    }
  }

  lemma RelationArbitrationIsOfStored(s: Plane, u: RelationUpdate)
    ensures var t := (u.sourceRef, u.relationType, u.targetRef);
            ArbitrateRelation(s, u)
            == Arbitrate(StoredRelation(s, t), RelationCounts(s, t, u.timestamp), u.expectedVersion,
                         Stamp(u.authority, u.timestamp, u.version))
  {
    hide Arbitrate;
  }

  // ---- The schema of relations ----

  /** One line of the schema: the graphs joined, and the entity types on either side, none meaning any. */
  datatype Rule = Rule(name: string, from: GraphKind, sources: set<string>, to: GraphKind, targets: set<string>)

  const ACTORS := {"agent", "session", "task", "request", "tool_call"}
  const CALLS := {"request", "tool_call"}

  const SCHEMA: seq<Rule> := [
    Rule("manages", Component, {"component"}, Component, {}),
    Rule("parent_of", Component, ACTORS, Component, {}),
    Rule("depends_on", Component, ACTORS, Component, {}),
    Rule("serves", Component, {"component"}, Component, CALLS),
    Rule("executes", Component, {"component"}, Component, CALLS),
    Rule("owns", Component, {}, Component, {"stateful_object"}),
    Rule("uses", Component, {}, Component, {"stateful_object"}),
    Rule("produces_state", Component, {"component"}, Component, {"state_key_catalog"}),
    Rule("executing_on", Component, CALLS, Component, {"component"}),
    Rule("contains", Deployment, {"cluster", "node"}, Deployment, {"node", "instance", "resource"}),
    Rule("allocated_to", Deployment, {"instance"}, Deployment, {"resource"}),
    Rule("connected_to", Deployment, {"node", "resource"}, Deployment, {"node", "resource"}),
    Rule("deployed_on", Component, {"component"}, Deployment, {"instance", "node"}),
    Rule("executing_on", Component, CALLS, Deployment, {"instance"}),
    Rule("located_on", Component, {"stateful_object"}, Deployment, {"resource", "node"})]

  ghost predicate Fits(rule: Rule, source: Entity, target: Entity, relationType: string) {
    && rule.name == relationType && rule.from == source.graph && rule.to == target.graph
    && (rule.sources == {} || source.entityType in rule.sources)
    && (rule.targets == {} || target.entityType in rule.targets)
  }

  /** Some line of the schema fits. Nothing leads from the deployment graph back into the component graph. */
  ghost predicate MayRelate(source: Entity, target: Entity, relationType: string) {
    exists i :: 0 <= i < |SCHEMA| && Fits(SCHEMA[i], source, target, relationType)
  }

  /** Telling the names of relations apart: no two have the same length and the same first letter. */
  lemma NamesDiffer()
    ensures |"manages"| == 7 && "manages"[0] == 'm'
    ensures |"parent_of"| == 9 && "parent_of"[0] == 'p'
    ensures |"depends_on"| == 10 && "depends_on"[0] == 'd'
    ensures |"serves"| == 6 && "serves"[0] == 's'
    ensures |"executes"| == 8 && "executes"[0] == 'e'
    ensures |"owns"| == 4 && "owns"[0] == 'o'
    ensures |"uses"| == 4 && "uses"[0] == 'u'
    ensures |"produces_state"| == 14 && "produces_state"[0] == 'p'
    ensures |"executing_on"| == 12 && "executing_on"[0] == 'e'
    ensures |"contains"| == 8 && "contains"[0] == 'c'
    ensures |"allocated_to"| == 12 && "allocated_to"[0] == 'a'
    ensures |"connected_to"| == 12 && "connected_to"[0] == 'c'
    ensures |"deployed_on"| == 11 && "deployed_on"[0] == 'd'
    ensures |"located_on"| == 10 && "located_on"[0] == 'l'
  {
  }

  lemma RuleAllows(i: nat, source: Entity, target: Entity, relationType: string)
    requires i < |SCHEMA| && Fits(SCHEMA[i], source, target, relationType)
    ensures RelationAllowed(source, target, relationType)
  {
    hide RelationAllowed, Fits;
    if i < 3 {
      ActorRuleAllows(i, source, target, relationType);
    } else if i < 6 {
      CallRuleAllows(i, source, target, relationType);
    } else if i < 9 {
      StateRuleAllows(i, source, target, relationType);
    } else if i < 12 {
      DeploymentRuleAllows(i, source, target, relationType);
    } else {
      PlacementRuleAllows(i, source, target, relationType);
    }
  }

  lemma ActorRuleAllows(i: nat, source: Entity, target: Entity, relationType: string)
    requires 0 <= i < 3 && Fits(SCHEMA[i], source, target, relationType)
    ensures RelationAllowed(source, target, relationType)
  {
    NamesDiffer();
    if i == 0 {
      assert SCHEMA[0].name == relationType;
    } else if i == 1 {
      assert SCHEMA[1].name == relationType;
    } else if i == 2 {
      assert SCHEMA[2].name == relationType;
    }
  }

  lemma CallRuleAllows(i: nat, source: Entity, target: Entity, relationType: string)
    requires 3 <= i < 6 && Fits(SCHEMA[i], source, target, relationType)
    ensures RelationAllowed(source, target, relationType)
  {
    NamesDiffer();
    if i == 3 {
      assert SCHEMA[3].name == relationType;
    } else if i == 4 {
      assert SCHEMA[4].name == relationType;
    } else if i == 5 {
      assert SCHEMA[5].name == relationType;
    }
  }

  lemma StateRuleAllows(i: nat, source: Entity, target: Entity, relationType: string)
    requires 6 <= i < 9 && Fits(SCHEMA[i], source, target, relationType)
    ensures RelationAllowed(source, target, relationType)
  {
    NamesDiffer();
    if i == 6 {
      assert SCHEMA[6].name == relationType;
    } else if i == 7 {
      assert SCHEMA[7].name == relationType;
    } else if i == 8 {
      assert SCHEMA[8].name == relationType;
    }
  }

  lemma DeploymentRuleAllows(i: nat, source: Entity, target: Entity, relationType: string)
    requires 9 <= i < 12 && Fits(SCHEMA[i], source, target, relationType)
    ensures RelationAllowed(source, target, relationType)
  {
    NamesDiffer();
    if i == 9 {
      assert SCHEMA[9].name == relationType;
    } else if i == 10 {
      assert SCHEMA[10].name == relationType;
    } else if i == 11 {
      assert SCHEMA[11].name == relationType;
    }
  }

  lemma PlacementRuleAllows(i: nat, source: Entity, target: Entity, relationType: string)
    requires 12 <= i < 15 && Fits(SCHEMA[i], source, target, relationType)
    ensures RelationAllowed(source, target, relationType)
  {
    NamesDiffer();
    if i == 12 {
      assert SCHEMA[12].name == relationType;
    } else if i == 13 {
      assert SCHEMA[13].name == relationType;
    } else if i == 14 {
      assert SCHEMA[14].name == relationType;
    }
  }

  lemma AllowedHasRule(source: Entity, target: Entity, relationType: string) returns (i: nat)
    requires RelationAllowed(source, target, relationType)
    ensures i < |SCHEMA| && Fits(SCHEMA[i], source, target, relationType)
  {
    if source.graph == target.graph == Component {
      i := if relationType == "manages" then 0 else if relationType == "parent_of" then 1
           else if relationType == "depends_on" then 2 else if relationType == "serves" then 3
           else if relationType == "executes" then 4 else if relationType == "owns" then 5
           else if relationType == "uses" then 6 else if relationType == "produces_state" then 7 else 8;
    } else if source.graph == target.graph == Deployment {
      i := if relationType == "contains" then 9 else if relationType == "allocated_to" then 10 else 11;
    } else {
      i := if relationType == "deployed_on" then 12 else if relationType == "executing_on" then 13 else 14;
    }
  }

  lemma AllowedMeansMayRelate(source: Entity, target: Entity, relationType: string)
    ensures RelationAllowed(source, target, relationType) <==> MayRelate(source, target, relationType)
  {
    hide RelationAllowed, Fits;
    if RelationAllowed(source, target, relationType) {
      var i := AllowedHasRule(source, target, relationType);
    }
    if i :| 0 <= i < |SCHEMA| && Fits(SCHEMA[i], source, target, relationType) {
      RuleAllows(i, source, target, relationType);
    }
  }
}
