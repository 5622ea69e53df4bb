// Records of the canonical State Plane and its key registry.

module Contracts {
  import opened Basics

  /** Points in time and durations, in the clock's smallest unit. */
  type Time = int

  /** Source precedence, from log hints (0) up to the authoritative domain owner (4). */
  type Authority = a: int | 0 <= a <= 4

  datatype GraphKind = Component | Deployment {
    function Name(): (name: string)
      ensures '/' !in name
    {
      match this
      case Component => "component"
      case Deployment => "deployment"
    }

    function EntityTypes(): (types: set<string>)
      ensures forall t :: t in types ==> '/' !in t
    {
      match this
      case Component =>
        {"component", "agent", "session", "task", "request", "tool_call", "stateful_object", "runtime_object",
         "state_key_catalog"}
      case Deployment =>
        {"cluster", "node", "instance", "resource", "link"}
    }
  }

  datatype GraphEntity = GraphEntity(
    ref: string,
    graph: GraphKind,
    entityType: string,
    lifecycle: string,
    ownerComponentRef: string,
    parentRef: string,
    labels: map<string, string>,
    schemaVersion: string)
  {
    function Prefix(): string {
      graph.Name() + "/" + entityType + "/"
    }

    /** The checks made when an entity is constructed. */
    predicate WellFormed() {
      && entityType in graph.EntityTypes()
      && Prefix() < ref
    }
  }

  /** Every entity that exists has passed its constructor. */
  type Entity = e: GraphEntity | e.WellFormed()
    witness GraphEntity("component/agent/a", Component, "agent", "", "", "", map[], "1.1")

  lemma NamesFixKind(a: GraphKind, b: GraphKind)
    requires a.Name() == b.Name()
    ensures a == b
  {
    assert |Component.Name()| != |Deployment.Name()|;
  }

  lemma SplitPath(g: string, t: string, x: string, g': string, t': string, x': string)
    requires '/' !in g && '/' !in t && '/' !in g' && '/' !in t'
    requires g + "/" + t + "/" + x == g' + "/" + t' + "/" + x'
    ensures g == g' && t == t'
  {
    var tail, tail' := t + ['/'] + x, t' + ['/'] + x';
    assert g + "/" + t + "/" + x == g + ['/'] + tail;
    assert g' + "/" + t' + "/" + x' == g' + ['/'] + tail';
    SplitUnique(g, tail, g', tail', '/');
    SplitUnique(t, x, t', x', '/');
  }

  /** A ref carries its graph and its entity type, so two entities that share one agree on both. */
  lemma RefFixesGraphAndType(a: Entity, b: Entity)
    requires a.ref == b.ref
    ensures a.graph == b.graph && a.entityType == b.entityType
  {
    var x, y := a.ref[|a.Prefix()|..], b.ref[|b.Prefix()|..];
    assert a.ref == a.Prefix() + x && b.ref == b.Prefix() + y;
    SplitPath(a.graph.Name(), a.entityType, x, b.graph.Name(), b.entityType, y);
    NamesFixKind(a.graph, b.graph);
  }

  const COMPONENT_TYPES: seq<string> :=
    ["agent", "component", "request", "runtime_object", "session", "state_key_catalog", "stateful_object", "task",
     "tool_call"]
  const DEPLOYMENT_TYPES: seq<string> := ["cluster", "instance", "link", "node", "resource"]

  /** A ref is a path of a graph, an entity type and a name of its own. */
  ghost predicate IsPath(ref: string, graph: string, entityType: string) {
    exists name: string :: name != "" && ref == graph + "/" + entityType + "/" + name
  }

  lemma PathHasPrefix(ref: string, prefix: string)
    ensures prefix < ref <==> exists name: string :: name != "" && ref == prefix + name
  {
    if prefix < ref {
      var name := ref[|prefix|..];
      assert ref == prefix + name;
    }
  }

  /** An entity is of a type of its graph, and its ref is a path of both. */
  lemma RefIsPath(e: GraphEntity)
    ensures e.WellFormed() <==>
            if e.graph == Component then e.entityType in COMPONENT_TYPES && IsPath(e.ref, "component", e.entityType)
            else e.entityType in DEPLOYMENT_TYPES && IsPath(e.ref, "deployment", e.entityType)
  {
    hide GraphKind.EntityTypes;
    TypesAreThose(e.graph, e.entityType);
    PathHasPrefix(e.ref, e.Prefix());
  }

  lemma TypesAreThose(graph: GraphKind, entityType: string)
    ensures entityType in graph.EntityTypes() <==>
            entityType in if graph == Component then COMPONENT_TYPES else DEPLOYMENT_TYPES
  {
  }

  /** The values a canonical key can carry. */
  datatype Value =
    | NoValue
    | IntValue(i: int)
    | FloatValue(r: real)
    | BoolValue(b: bool)
    | TextValue(s: string)
    | TimeValue(t: Time)
    | ListValue(items: seq<Value>)
    | MapValue(entries: map<string, Value>)

  datatype CanonicalKey = CanonicalKey(
    key: string,
    entityTypes: set<string>,
    valueType: string,
    ttl: Option<Time>,
    deprecated: bool,
    aliases: seq<string>)
  {
    predicate Accepts(v: Value) {
      if valueType == "int" then v.IntValue?
      else if valueType == "float" then v.IntValue? || v.FloatValue?
      else if valueType == "bool" then v.BoolValue?
      else if valueType in {"string", "enum", "entity_ref"} then v.TextValue?
      else if valueType == "timestamp" then v.TimeValue? || v.TextValue?
      else if valueType == "string_list" then
        v.ListValue? && forall i :: 0 <= i < |v.items| ==> v.items[i].TextValue?
      else if valueType == "map" then v.MapValue?
      else true
    }
  }

  datatype StateUpdate = StateUpdate(
    entityRef: string,
    key: string,
    value: Value,
    producer: string,
    timestamp: Time,
    ttl: Option<Time>,
    authority: Authority,
    version: int,
    confidence: real,
    expectedVersion: Option<int>,
    idempotencyKey: string)

  datatype StateValue = StateValue(
    entityRef: string,
    key: string,
    value: Value,
    producer: string,
    timestamp: Time,
    ttl: Option<Time>,
    authority: Authority,
    version: int,
    confidence: real)
  {
    function Age(now: Time): int {
      MaxInt(0, now - timestamp)
    }

    predicate IsFresh(now: Time, maxAge: Option<Time>) {
      && (ttl.Some? ==> Age(now) <= ttl.value)
      && (maxAge.Some? ==> Age(now) <= maxAge.value)
    }
  }

  datatype RelationUpdate = RelationUpdate(
    sourceRef: string,
    relationType: string,
    targetRef: string,
    producer: string,
    timestamp: Time,
    authority: Authority,
    attributes: map<string, Value>,
    ttl: Option<Time>,
    version: int,
    expectedVersion: Option<int>,
    idempotencyKey: string)
  {
    function Triple(): (string, string, string) {
      (sourceRef, relationType, targetRef)
    }
  }

  datatype GraphRelation = GraphRelation(
    sourceRef: string,
    relationType: string,
    targetRef: string,
    producer: string,
    timestamp: Time,
    authority: Authority,
    attributes: map<string, Value>,
    ttl: Option<Time>,
    version: int)
  {
    predicate IsFresh(now: Time) {
      ttl.Some? ==> now <= timestamp + ttl.value
    }
  }

  datatype StateEvent = StateEvent(
    eventId: string,
    eventType: string,
    subjectRef: string,
    producer: string,
    timestamp: Time,
    payload: map<string, Value>)

  datatype Reason =
    | Accepted
    | DuplicateIdempotencyKey
    | DuplicateEvent
    | EntityNotRegistered
    | KeyNotRegistered
    | KeyInvalidForType
    | ValueTypeMismatch
    | EndpointsNotRegistered
    | RelationNotAllowed
    | CasConflict
    | LowerAuthority
    | OutOfOrder
    | VersionMustIncrease

  datatype WriteResult = WriteResult(
    accepted: bool,
    duplicate: bool,
    conflict: bool,
    entityRef: string,
    key: string,
    version: int,
    reason: Reason)

  datatype ChangeKind = EntityChange | StateChangeKind | RelationChange | EventChange

  datatype StateChange = StateChange(
    cursor: nat,
    kind: ChangeKind,
    subjectRef: string,
    keyOrRelation: string,
    version: int,
    timestamp: Time)
}
