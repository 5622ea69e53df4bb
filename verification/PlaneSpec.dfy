// The State Plane as a value: what each operation does to it.

module PlaneSpec {
  import opened Basics
  import opened Contracts
  import opened KeyRegistry

  /** `glob` stands for shell-style pattern matching; every statement holds for any matcher. */
  datatype PlaneConfig = PlaneConfig(
    registry: Registry,
    glob: (string, string) -> bool,
    maxSnapshots: nat,
    maxChanges: nat,
    maxEvents: nat)
  {
    predicate Valid() {
      registry.Valid() && maxSnapshots >= 1 && maxEvents >= 1
    }
  }

  type Slot = (string, string)
  type Triple = (string, string, string)

  /** What a snapshot says it could not deliver: a whole entity, or one key of an entity. */
  datatype Identity = WholeEntity(ref: string) | Keyed(ref: string, key: string)

  datatype SnapshotRequest = SnapshotRequest(
    entities: seq<string>,
    keys: seq<string>,
    maxAgeMs: seq<(string, int)>,
    minAuthority: Authority,
    includeRelations: bool)

  datatype Snapshot = Snapshot(
    token: string,
    logicalTime: nat,
    createdAt: Time,
    completeness: real,
    values: map<Slot, StateValue>,
    relations: map<Triple, GraphRelation>,
    missing: set<Identity>,
    stale: set<Identity>)

  datatype Plane = Plane(
    entities: map<string, Entity>,
    state: map<Slot, StateValue>,
    relations: map<Triple, GraphRelation>,
    events: seq<StateEvent>,
    idempotency: map<string, WriteResult>,
    snapshots: seq<Snapshot>,
    changes: seq<StateChange>,
    revision: nat)
  {
    function Record(
        cfg: PlaneConfig, kind: ChangeKind, subject: string, key: string, version: int, timestamp: Time): Plane
    {
      var change := StateChange(revision + 1, kind, subject, key, version, timestamp);
      this.(revision := revision + 1, changes := LastN(changes + [change], cfg.maxChanges))
    }

    function Remember(key: string, result: WriteResult): Plane {
      if key == "" then this else this.(idempotency := idempotency[key := result])
    }

    predicate Seen(key: string) {
      key != "" && key in idempotency
    }

    predicate HasEvent(id: string) {
      exists i :: 0 <= i < |events| && events[i].eventId == id
    }

    function FindSnapshot(token: string): Option<Snapshot> {
      Lookup(snapshots, token)
    }
  }

  const EMPTY := Plane(map[], map[], map[], [], map[], [], [], 0)

  function Lookup(snapshots: seq<Snapshot>, token: string): (r: Option<Snapshot>)
    ensures r.Some? ==> r.value in snapshots && r.value.token == token
    ensures r.None? ==> forall i :: 0 <= i < |snapshots| ==> snapshots[i].token != token
  {
    if snapshots == [] then None
    else if snapshots[|snapshots| - 1].token == token then Some(snapshots[|snapshots| - 1])
    else Lookup(snapshots[..|snapshots| - 1], token)
  }

  // ---- Arbitration of a write against the current occupant of its slot ----

  datatype Stamp = Stamp(authority: Authority, timestamp: Time, version: int)

  function ValueStamp(v: StateValue): Stamp {
    Stamp(v.authority, v.timestamp, v.version)
  }

  function RelationStamp(r: GraphRelation): Stamp {
    Stamp(r.authority, r.timestamp, r.version)
  }

  /** Why the offer is refused, if it is; `currentFresh` says whether the occupant is fresh at the offer's timestamp. */
  function Arbitrate(current: Option<Stamp>, currentFresh: bool, expected: Option<int>, offer: Stamp): Option<Reason> {
    if expected.Some? && expected.value != (if current.Some? then current.value.version else 0) then
      Some(CasConflict)
    else if current.None? then None
    else if offer.authority < current.value.authority && currentFresh then Some(LowerAuthority)
    else if offer.authority == current.value.authority && offer.timestamp < current.value.timestamp then
      Some(OutOfOrder)
    else if offer.version != 0 && offer.version <= current.value.version then Some(VersionMustIncrease)
    else None
  }

  function NextVersion(current: Option<Stamp>, offer: Stamp): int {
    if offer.version != 0 then offer.version
    else if current.Some? then current.value.version + 1
    else 1
  }

  function Echo(previous: WriteResult): WriteResult {
    previous.(accepted := false, duplicate := true, reason := DuplicateIdempotencyKey)
  }

  // ---- State writes ----

  function StateRejected(u: StateUpdate, reason: Reason, conflict: bool): WriteResult {
    WriteResult(false, false, conflict, u.entityRef, u.key, 0, reason)
  }

  /** The checks before arbitration: the definition to write under, or the reason to refuse. */
  function Admit(cfg: PlaneConfig, s: Plane, u: StateUpdate): Result<CanonicalKey, Reason> {
    if u.entityRef !in s.entities then Err(EntityNotRegistered)
    else match cfg.registry.Resolve(u.key)
      case None => Err(KeyNotRegistered)
      case Some(d) =>
        if s.entities[u.entityRef].entityType !in d.entityTypes then Err(KeyInvalidForType)
        else if !d.Accepts(u.value) then Err(ValueTypeMismatch)
        else Ok(d)
  }

  function CurrentValue(s: Plane, slot: Slot): Option<Stamp> {
    if slot in s.state then Some(ValueStamp(s.state[slot])) else None
  }

  function ArbitrateState(s: Plane, slot: Slot, u: StateUpdate): Option<Reason> {
    Arbitrate(CurrentValue(s, slot), slot in s.state && s.state[slot].IsFresh(u.timestamp, None),
              u.expectedVersion, Stamp(u.authority, u.timestamp, u.version))
  }

  function PublishOne(cfg: PlaneConfig, s: Plane, u: StateUpdate): (Plane, WriteResult) {
    if s.Seen(u.idempotencyKey) then (s, Echo(s.idempotency[u.idempotencyKey]))
    else match Admit(cfg, s, u)
      case Err(reason) => (s, StateRejected(u, reason, false))
      case Ok(d) =>
        var slot := (u.entityRef, d.key);
        match ArbitrateState(s, slot, u)
        case Some(reason) => (s, StateRejected(u, reason, true))
        case None =>
          var version := NextVersion(CurrentValue(s, slot), Stamp(u.authority, u.timestamp, u.version));
          var value := StateValue(u.entityRef, d.key, u.value, u.producer, u.timestamp,
                                  if u.ttl.Some? then u.ttl else d.ttl, u.authority, version, Clamp(u.confidence));
          var result := WriteResult(true, false, false, u.entityRef, d.key, version, Accepted);
          (s.(state := s.state[slot := value])
           .Record(cfg, StateChangeKind, u.entityRef, d.key, version, u.timestamp)
           .Remember(u.idempotencyKey, result),
           result)
  }

  // ---- Relation writes ----

  predicate RelationAllowed(source: Entity, target: Entity, relationType: string) {
    if source.graph == target.graph == Component then
      if relationType == "manages" then source.entityType == "component"
      else if relationType in {"parent_of", "depends_on"} then
        source.entityType in {"agent", "session", "task", "request", "tool_call"}
      else if relationType in {"serves", "executes"} then
        source.entityType == "component" && target.entityType in {"request", "tool_call"}
      else if relationType in {"owns", "uses"} then target.entityType == "stateful_object"
      else if relationType == "produces_state" then
        source.entityType == "component" && target.entityType == "state_key_catalog"
      else if relationType == "executing_on" then
        source.entityType in {"request", "tool_call"} && target.entityType == "component"
      else false
    else if source.graph == target.graph == Deployment then
      if relationType == "contains" then
        source.entityType in {"cluster", "node"} && target.entityType in {"node", "instance", "resource"}
      else if relationType == "allocated_to" then
        source.entityType == "instance" && target.entityType == "resource"
      else if relationType == "connected_to" then
        source.entityType in {"node", "resource"} && target.entityType in {"node", "resource"}
      else false
    else if source.graph != Component || target.graph != Deployment then false
    else if relationType == "deployed_on" then
      source.entityType == "component" && target.entityType in {"instance", "node"}
    else if relationType == "executing_on" then
      source.entityType in {"request", "tool_call"} && target.entityType == "instance"
    else if relationType == "located_on" then
      source.entityType == "stateful_object" && target.entityType in {"resource", "node"}
    else false
  }

  function RelationRejected(u: RelationUpdate, reason: Reason, conflict: bool): WriteResult {
    WriteResult(false, false, conflict, u.sourceRef, u.relationType, 0, reason)
  }

  function AdmitRelation(s: Plane, u: RelationUpdate): Option<Reason> {
    if u.sourceRef !in s.entities || u.targetRef !in s.entities then Some(EndpointsNotRegistered)
    else if !RelationAllowed(s.entities[u.sourceRef], s.entities[u.targetRef], u.relationType) then
      Some(RelationNotAllowed)
    else None
  }

  function CurrentRelation(s: Plane, triple: Triple): Option<Stamp> {
    if triple in s.relations then Some(RelationStamp(s.relations[triple])) else None
  }

  function ArbitrateRelation(s: Plane, u: RelationUpdate): Option<Reason> {
    var triple := u.Triple();
    Arbitrate(CurrentRelation(s, triple), triple in s.relations && s.relations[triple].IsFresh(u.timestamp),
              u.expectedVersion, Stamp(u.authority, u.timestamp, u.version))
  }

  function RelationOf(u: RelationUpdate, version: int): GraphRelation {
    GraphRelation(u.sourceRef, u.relationType, u.targetRef, u.producer, u.timestamp, u.authority, u.attributes, u.ttl,
                  version)
  }

  function UpsertRelation(cfg: PlaneConfig, s: Plane, u: RelationUpdate): (Plane, WriteResult) {
    if s.Seen(u.idempotencyKey) then (s, Echo(s.idempotency[u.idempotencyKey]))
    else match AdmitRelation(s, u)
      case Some(reason) => (s, RelationRejected(u, reason, false))
      case None =>
        match ArbitrateRelation(s, u)
        case Some(reason) => (s, RelationRejected(u, reason, true))
        case None =>
          var version := NextVersion(CurrentRelation(s, u.Triple()), Stamp(u.authority, u.timestamp, u.version));
          var result := WriteResult(true, false, false, u.sourceRef, u.relationType, version, Accepted);
          (s.(relations := s.relations[u.Triple() := RelationOf(u, version)])
           .Record(cfg, RelationChange, u.sourceRef, u.relationType, version, u.timestamp)
           .Remember(u.idempotencyKey, result),
           result)
  }

  // ---- Entities and events ----

  datatype EntityOutcome = EntityStored | EntityUnchanged | GraphCannotChange

  function UpsertEntity(cfg: PlaneConfig, s: Plane, e: Entity, now: Time): (Plane, EntityOutcome) {
    if e.ref in s.entities && s.entities[e.ref].graph != e.graph then (s, GraphCannotChange)
    else if e.ref in s.entities && s.entities[e.ref] == e then (s, EntityUnchanged)
    else
      (s.(entities := s.entities[e.ref := e]).Record(cfg, EntityChange, e.ref, e.entityType, 1, now), EntityStored)
  }

  function EventResult(e: StateEvent, duplicate: bool, reason: Reason): WriteResult {
    WriteResult(false, duplicate, false, e.subjectRef, e.eventType, 0, reason)
  }

  function PublishEvent(cfg: PlaneConfig, s: Plane, e: StateEvent): (Plane, WriteResult) {
    if s.HasEvent(e.eventId) then (s, EventResult(e, true, DuplicateEvent))
    else if e.subjectRef !in s.entities then (s, EventResult(e, false, EntityNotRegistered))
    else
      (s.(events := LastN(s.events + [e], cfg.maxEvents))
       .Record(cfg, EventChange, e.subjectRef, e.eventType, 1, e.timestamp),
       WriteResult(true, false, false, e.subjectRef, e.eventType, s.revision + 1, Accepted))
  }

  // ---- Snapshots ----

  const MILLISECOND: Time := 1000

  predicate IsPattern(k: string) {
    '*' in k || '?' in k || '[' in k
  }

  predicate Covers(prefix: string, key: string) {
    prefix == "" || prefix == "*" || key == prefix || prefix + "." <= key
  }

  /** The longest policy prefix that covers the key; the earliest of equally long ones. */
  function LongestCover(key: string, policy: seq<(string, int)>): Option<(string, int)> {
    if policy == [] then None
    else
      var last := policy[|policy| - 1];
      var front := LongestCover(key, policy[..|policy| - 1]);
      if Covers(last.0, key) && (front.None? || |last.0| > |front.value.0|) then Some(last) else front
  }

  function MaxAgeFor(key: string, policy: seq<(string, int)>): Option<Time> {
    match LongestCover(key, policy)
    case None => None
    case Some(entry) => Some(MaxInt(0, entry.1) * MILLISECOND)
  }

  function CanonicalPattern(cfg: PlaneConfig, k: string): string {
    if IsPattern(k) then k
    else match cfg.registry.Resolve(k)
      case Some(d) => d.key
      case None => k
  }

  /** The canonical keys a pattern stands for on an entity type; None when a plain key is unknown. */
  function Applicable(cfg: PlaneConfig, entityType: string, pattern: string): Option<set<string>> {
    if IsPattern(pattern) then
      Some(set k | k in cfg.registry.definitions
                   && !cfg.registry.definitions[k].deprecated
                   && entityType in cfg.registry.definitions[k].entityTypes
                   && cfg.glob(k, pattern))
    else match cfg.registry.Resolve(pattern)
      case None => None
      case Some(d) => Some(if entityType in d.entityTypes then {d.key} else {})
  }

  datatype Verdict = Delivered | Missing | Stale

  function Classify(s: Plane, slot: Slot, req: SnapshotRequest, now: Time): Verdict {
    if slot !in s.state then Missing
    else if s.state[slot].authority < req.minAuthority then Missing
    else if !s.state[slot].IsFresh(now, MaxAgeFor(s.state[slot].key, req.maxAgeMs)) then Stale
    else Delivered
  }

  function Patterns(cfg: PlaneConfig, req: SnapshotRequest): set<string> {
    set k | k in req.keys :: CanonicalPattern(cfg, k)
  }

  /** Every (entity, canonical key) the request reaches. */
  function Reached(cfg: PlaneConfig, s: Plane, req: SnapshotRequest): set<Slot> {
    set ref, pattern, k |
      && ref in req.entities && ref in s.entities
      && pattern in Patterns(cfg, req)
      && Applicable(cfg, s.entities[ref].entityType, pattern).Some?
      && k in Applicable(cfg, s.entities[ref].entityType, pattern).value
      :: (ref, k)
  }

  /** What the request names that does not exist: unknown entities, and unknown keys on known entities. */
  function Unknown(cfg: PlaneConfig, s: Plane, req: SnapshotRequest): set<Identity> {
    (set ref | ref in req.entities && ref !in s.entities :: WholeEntity(ref))
    + (set ref, pattern |
         && ref in req.entities && ref in s.entities
         && pattern in Patterns(cfg, req)
         && Applicable(cfg, s.entities[ref].entityType, pattern).None?
         :: Keyed(ref, pattern))
  }

  function WithVerdict(s: Plane, slots: set<Slot>, req: SnapshotRequest, now: Time, v: Verdict): set<Slot> {
    set slot | slot in slots && Classify(s, slot, req, now) == v
  }

  function Identities(slots: set<Slot>): set<Identity> {
    set slot | slot in slots :: Keyed(slot.0, slot.1)
  }

  function ScopedRelations(s: Plane, req: SnapshotRequest, now: Time): map<Triple, GraphRelation> {
    if !req.includeRelations then map[]
    else map t | t in s.relations
                 && s.relations[t].IsFresh(now)
                 && (s.relations[t].sourceRef in req.entities || s.relations[t].targetRef in req.entities)
           :: s.relations[t]
  }

  function Ratio(delivered: nat, missing: nat, stale: nat): real {
    if delivered + missing + stale == 0 then 1.0
    else delivered as real / (delivered + missing + stale) as real
  }

  function SnapshotOf(cfg: PlaneConfig, s: Plane, req: SnapshotRequest, now: Time, token: string): Snapshot {
    var slots := Reached(cfg, s, req);
    var delivered := WithVerdict(s, slots, req, now, Delivered);
    var missing := Unknown(cfg, s, req) + Identities(WithVerdict(s, slots, req, now, Missing));
    var stale := Identities(WithVerdict(s, slots, req, now, Stale));
    Snapshot(token, s.revision, now, Ratio(|delivered|, |missing|, |stale|),
             map slot | slot in delivered && slot in s.state :: s.state[slot],
             ScopedRelations(s, req, now), missing, stale)
  }

  function Without(snapshots: seq<Snapshot>, token: string): seq<Snapshot> {
    Filter(snapshots, (x: Snapshot) => x.token != token)
  }

  function TakeSnapshot(cfg: PlaneConfig, s: Plane, req: SnapshotRequest, now: Time, token: string): (Plane, Snapshot) {
    var snapshot := SnapshotOf(cfg, s, req, now, token);
    (s.(snapshots := LastN(Without(s.snapshots, token) + [snapshot], cfg.maxSnapshots)), snapshot)
  }

  // ---- Reading the change feed ----

  predicate Wanted(cfg: PlaneConfig, c: StateChange, prefix: string, keys: seq<string>) {
    && prefix <= c.subjectRef
    && (keys == [] || exists i :: 0 <= i < |keys| && cfg.glob(c.keyOrRelation, keys[i]))
  }

  function Changes(
      cfg: PlaneConfig, s: Plane, after: int, prefix: string, keys: seq<string>, limit: int): seq<StateChange>
  {
    var matching := Filter(s.changes, (c: StateChange) => c.cursor > after && Wanted(cfg, c, prefix, keys));
    matching[..MinInt(|matching|, MaxInt(0, limit))]
  }
}
