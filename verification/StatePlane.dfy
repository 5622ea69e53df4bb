// The in-memory State Plane as a class, method by method against PlaneSpec.

module StatePlane {
  import opened Basics
  import opened Contracts
  import opened KeyRegistry
  import opened PlaneSpec
  import opened GraphQuery
  import opened PlaneRuns

  // ---- Batches ----

  function PublishAll(cfg: PlaneConfig, s: Plane, us: seq<StateUpdate>): (Plane, seq<WriteResult>) {
    if us == [] then (s, [])
    else
      var front := PublishAll(cfg, s, us[..|us| - 1]);
      var last := PublishOne(cfg, front.0, us[|us| - 1]);
      (last.0, front.1 + [last.1])
  }

  function UpsertAllRelations(cfg: PlaneConfig, s: Plane, us: seq<RelationUpdate>): (Plane, seq<WriteResult>) {
    if us == [] then (s, [])
    else
      var front := UpsertAllRelations(cfg, s, us[..|us| - 1]);
      var last := UpsertRelation(cfg, front.0, us[|us| - 1]);
      (last.0, front.1 + [last.1])
  }

  function PublishAllEvents(cfg: PlaneConfig, s: Plane, es: seq<StateEvent>): (Plane, seq<WriteResult>) {
    if es == [] then (s, [])
    else
      var front := PublishAllEvents(cfg, s, es[..|es| - 1]);
      var last := PublishEvent(cfg, front.0, es[|es| - 1]);
      (last.0, front.1 + [last.1])
  }

  // ---- Graph queries over the plane ----

  datatype GraphQueryResult = GraphQueryResult(
    snapshotToken: string,
    entities: map<string, Entity>,
    relations: map<Triple, GraphRelation>)

  datatype UnknownSnapshot = UnknownSnapshot(token: string)

  /** Relations come from the snapshot when a token is given; entities are always the live ones. */
  function RelationSource(s: Plane, token: string): Result<map<Triple, GraphRelation>, UnknownSnapshot> {
    if token == "" then Ok(s.relations)
    else match s.FindSnapshot(token)
      case Some(snapshot) => Ok(snapshot.relations)
      case None => Err(UnknownSnapshot(token))
  }

  function GraphAnswer(
      s: Plane, source: map<Triple, GraphRelation>, roots: set<string>, types: set<string>, depth: int, token: string)
    : GraphQueryResult
  {
    var edges := Edges(source.Keys, types);
    var visited := Within(edges, roots, MaxInt(0, depth));
    var included := Included(edges, roots, depth);
    GraphQueryResult(
      token,
      map ref | ref in visited && ref in s.entities :: s.entities[ref],
      map t | t in included && t in source :: source[t])
  }

  /** Entities are the registered refs reachable in `depth` hops; relations touch what `depth` - 1 hops reach. */
  lemma AnswerIsBoundedReachability(
      s: Plane, source: map<Triple, GraphRelation>, roots: set<string>, types: set<string>, depth: int, token: string)
    ensures var answer, edges := GraphAnswer(s, source, roots, types, depth, token), Edges(source.Keys, types);
            && (forall ref :: ref in answer.entities <==>
                  ref in s.entities && Reachable(edges, roots, MaxInt(0, depth), ref))
            && (forall t :: t in answer.relations <==>
                  && t in edges && depth >= 1
                  && (Reachable(edges, roots, depth - 1, t.0) || Reachable(edges, roots, depth - 1, t.2)))
            && (forall t :: t in answer.relations ==> answer.relations[t] == source[t])
  {
    var answer, edges := GraphAnswer(s, source, roots, types, depth, token), Edges(source.Keys, types);
    forall ref
      ensures ref in answer.entities <==>
              ref in s.entities && Reachable(edges, roots, MaxInt(0, depth), ref)
    {
      WithinIsReachability(edges, roots, MaxInt(0, depth), ref);
    }
    forall t
      ensures t in answer.relations <==>
              && t in edges && depth >= 1
              && (Reachable(edges, roots, depth - 1, t.0) || Reachable(edges, roots, depth - 1, t.2))
    {
      if depth >= 1 {
        WithinIsReachability(edges, roots, depth - 1, t.0);
        WithinIsReachability(edges, roots, depth - 1, t.2);
      }
    }
  }

  /** In a reachable plane both endpoints of every returned relation are among the returned entities. */
  lemma AnswersAreClosed(
      cfg: PlaneConfig, s: Plane, roots: set<string>, types: set<string>, depth: int, token: string)
    requires Valid(cfg, s) && RelationSource(s, token).Ok?
    ensures var answer := GraphAnswer(s, RelationSource(s, token).value, roots, types, depth, token);
            forall t :: t in answer.relations ==> t.0 in answer.entities && t.2 in answer.entities
  {
    hide RelationAllowed, CanonicalKey.Accepts, Within;
    var source := RelationSource(s, token).value;
    forall t | t in GraphAnswer(s, source, roots, types, depth, token).relations
      ensures t.0 in GraphAnswer(s, source, roots, types, depth, token).entities
      ensures t.2 in GraphAnswer(s, source, roots, types, depth, token).entities
    {
      IncludedEndpointsWithin(Edges(source.Keys, types), roots, depth, t);
      if token == "" {
        assert SoundRelation(s, t);
      } else {
        var i :| 0 <= i < |s.snapshots| && s.snapshots[i] == s.FindSnapshot(token).value;
        assert SoundSnapshot(s, s.snapshots[i]);
      }
    }
  }

  // ---- Snapshot tallies ----

  datatype Tally = Tally(values: map<Slot, StateValue>, missing: set<Identity>, stale: set<Identity>)

  ghost function TallyOf(s: Plane, slots: set<Slot>, unknown: set<Identity>, req: SnapshotRequest, now: Time): Tally {
    Tally(map slot | slot in WithVerdict(s, slots, req, now, Delivered) && slot in s.state :: s.state[slot],
          unknown + Identities(WithVerdict(s, slots, req, now, Missing)),
          Identities(WithVerdict(s, slots, req, now, Stale)))
  }

  lemma TallyExtends(s: Plane, slots: set<Slot>, unknown: set<Identity>, req: SnapshotRequest, now: Time, slot: Slot)
    ensures var before := TallyOf(s, slots, unknown, req, now);
            TallyOf(s, slots + {slot}, unknown, req, now) ==
            match Classify(s, slot, req, now)
            case Delivered => before.(values := before.values[slot := s.state[slot]])
            case Missing => before.(missing := before.missing + {Keyed(slot.0, slot.1)})
            case Stale => before.(stale := before.stale + {Keyed(slot.0, slot.1)})
  {
    VerdictAdds(s, slots, req, now, slot, Delivered);
    VerdictAdds(s, slots, req, now, slot, Missing);
    VerdictAdds(s, slots, req, now, slot, Stale);
    IdentitiesAdd(WithVerdict(s, slots, req, now, Missing), slot);
    IdentitiesAdd(WithVerdict(s, slots, req, now, Stale), slot);
  }

  lemma UnknownExtends(
      s: Plane, slots: set<Slot>, unknown: set<Identity>, req: SnapshotRequest, now: Time, id: Identity)
    ensures var before := TallyOf(s, slots, unknown, req, now);
            TallyOf(s, slots, unknown + {id}, req, now) == before.(missing := before.missing + {id})
  {
  }

  lemma VerdictAdds(s: Plane, slots: set<Slot>, req: SnapshotRequest, now: Time, slot: Slot, v: Verdict)
    ensures var was := WithVerdict(s, slots, req, now, v);
            WithVerdict(s, slots + {slot}, req, now, v) ==
            if Classify(s, slot, req, now) == v then was + {slot} else was
  {
  }

  lemma IdentitiesAdd(slots: set<Slot>, slot: Slot)
    ensures Identities(slots + {slot}) == Identities(slots) + {Keyed(slot.0, slot.1)}
  {
  }

  function KeySlots(ref: string, keys: set<string>): set<Slot> {
    set k | k in keys :: (ref, k)
  }

  function PatternSlots(cfg: PlaneConfig, ref: string, entityType: string, patterns: set<string>): set<Slot> {
    set pattern, k |
      && pattern in patterns
      && Applicable(cfg, entityType, pattern).Some?
      && k in Applicable(cfg, entityType, pattern).value
      :: (ref, k)
  }

  function PatternUnknown(cfg: PlaneConfig, ref: string, entityType: string, patterns: set<string>): set<Identity> {
    set pattern | pattern in patterns && Applicable(cfg, entityType, pattern).None? :: Keyed(ref, pattern)
  }

  lemma PatternSlotsAdd(cfg: PlaneConfig, ref: string, entityType: string, patterns: set<string>, pattern: string)
    ensures PatternSlots(cfg, ref, entityType, patterns + {pattern}) ==
            PatternSlots(cfg, ref, entityType, patterns)
            + match Applicable(cfg, entityType, pattern) case Some(keys) => KeySlots(ref, keys) case None => {}
    ensures PatternUnknown(cfg, ref, entityType, patterns + {pattern}) ==
            PatternUnknown(cfg, ref, entityType, patterns)
            + if Applicable(cfg, entityType, pattern).None? then {Keyed(ref, pattern)} else {}
  {
  }

  lemma NoPatterns(cfg: PlaneConfig, ref: string, entityType: string)
    ensures PatternSlots(cfg, ref, entityType, {}) == {} && PatternUnknown(cfg, ref, entityType, {}) == {}
  {
  }

  lemma NothingAsked(cfg: PlaneConfig, s: Plane, req: SnapshotRequest, now: Time)
    ensures Reached(cfg, s, req.(entities := [])) == {} && Unknown(cfg, s, req.(entities := [])) == {}
    ensures TallyOf(s, {}, {}, req, now) == Tally(map[], {}, {})
  {
  }

  lemma DeliveredAreStored(s: Plane, slots: set<Slot>, req: SnapshotRequest, now: Time)
    ensures WithVerdict(s, slots, req, now, Delivered) <= s.state.Keys
  {
  }

  /** The values of one entity in a frozen snapshot whose keys match any of the requested patterns. */
  function Restricted(cfg: PlaneConfig, frozen: Snapshot, ref: string, keys: seq<string>): map<Slot, StateValue> {
    map slot | slot in frozen.values
               && frozen.values[slot].entityRef == ref
               && exists i :: 0 <= i < |keys| && cfg.glob(frozen.values[slot].key, CanonicalPattern(cfg, keys[i]))
      :: frozen.values[slot]
  }

  lemma ReachedAdds(cfg: PlaneConfig, s: Plane, req: SnapshotRequest, refs: seq<string>, ref: string)
    ensures Reached(cfg, s, req.(entities := refs + [ref])) ==
            Reached(cfg, s, req.(entities := refs))
            + if ref in s.entities then PatternSlots(cfg, ref, s.entities[ref].entityType, Patterns(cfg, req)) else {}
    ensures Unknown(cfg, s, req.(entities := refs + [ref])) ==
            Unknown(cfg, s, req.(entities := refs))
            + if ref in s.entities then PatternUnknown(cfg, ref, s.entities[ref].entityType, Patterns(cfg, req))
              else {WholeEntity(ref)}
  {
    assert forall x :: x in refs + [ref] <==> x in refs || x == ref;
    assert Patterns(cfg, req.(entities := refs + [ref])) == Patterns(cfg, req);
    assert Patterns(cfg, req.(entities := refs)) == Patterns(cfg, req);
  }

  method DropOldest<T>(items: seq<T>, limit: nat) returns (kept: seq<T>)
    ensures kept == LastN(items, limit)
  {
    kept := items;
    while |kept| > limit
      invariant MinInt(limit, |items|) <= |kept| <= |items|
      invariant kept == LastN(items, |kept|)
    {
      kept := kept[1..];
    }
  }

  class InMemoryStatePlane {
    const cfg: PlaneConfig
    var entities: map<string, Entity>
    var state: map<Slot, StateValue>
    var relations: map<Triple, GraphRelation>
    var events: seq<StateEvent>
    var idempotency: map<string, WriteResult>
    var snapshots: seq<Snapshot>
    var changes: seq<StateChange>
    var revision: nat

    ghost function View(): Plane
      reads this
    {
      Plane(entities, state, relations, events, idempotency, snapshots, changes, revision)
    }

    constructor (
        registry: Registry, glob: (string, string) -> bool, maxSnapshots: int, maxChanges: nat, maxEvents: int)
      ensures cfg == PlaneConfig(registry, glob, MaxInt(1, maxSnapshots), maxChanges, MaxInt(1, maxEvents))
      ensures View() == EMPTY
    {
      cfg := PlaneConfig(registry, glob, MaxInt(1, maxSnapshots), maxChanges, MaxInt(1, maxEvents));
      entities, state, relations, events := map[], map[], map[], [];
      idempotency, snapshots, changes, revision := map[], [], [], 0;
    }

    method RecordChange(kind: ChangeKind, subject: string, key: string, version: int, timestamp: Time)
      modifies this`revision, this`changes
      ensures View() == old(View()).Record(cfg, kind, subject, key, version, timestamp)
    {
      revision := revision + 1;
      changes := changes + [StateChange(revision, kind, subject, key, version, timestamp)];
      if |changes| > cfg.maxChanges {
        changes := changes[|changes| - cfg.maxChanges..];
      }
    }

    method StoreEntity(e: Entity, now: Time) returns (outcome: EntityOutcome)
      modifies this
      ensures (View(), outcome) == UpsertEntity(cfg, old(View()), e, now)
    {
      if e.ref in entities {
        if entities[e.ref].graph != e.graph {
          return GraphCannotChange;
        }
        if entities[e.ref] == e {
          return EntityUnchanged;
        }
      }
      entities := entities[e.ref := e];
      RecordChange(EntityChange, e.ref, e.entityType, 1, now);
      return EntityStored;
    }

    method AdmitUpdate(u: StateUpdate) returns (outcome: Result<CanonicalKey, Reason>)
      ensures outcome == Admit(cfg, View(), u)
    {
      if u.entityRef !in entities {
        return Err(EntityNotRegistered);
      }
      var found := cfg.registry.Resolve(u.key);
      if found.None? {
        return Err(KeyNotRegistered);
      }
      var definition := found.value;
      if entities[u.entityRef].entityType !in definition.entityTypes {
        return Err(KeyInvalidForType);
      }
      if !definition.Accepts(u.value) {
        return Err(ValueTypeMismatch);
      }
      return Ok(definition);
    }

    /** The version to write under, or the reason the current value stays. */
    method ContendForSlot(slot: Slot, u: StateUpdate) returns (outcome: Result<int, Reason>)
      ensures outcome == match ArbitrateState(View(), slot, u)
                         case Some(reason) => Err(reason)
                         case None => Ok(NextVersion(CurrentValue(View(), slot),
                                                     Stamp(u.authority, u.timestamp, u.version)))
    {
      if u.expectedVersion.Some? {
        var actual := if slot in state then state[slot].version else 0;
        if actual != u.expectedVersion.value {
          return Err(CasConflict);
        }
      }
      if slot !in state {
        return Ok(if u.version != 0 then u.version else 1);
      }
      var current := state[slot];
      if u.authority < current.authority && current.IsFresh(u.timestamp, None) {
        return Err(LowerAuthority);
      }
      if u.authority == current.authority && u.timestamp < current.timestamp {
        return Err(OutOfOrder);
      }
      if u.version != 0 && u.version <= current.version {
        return Err(VersionMustIncrease);
      }
      return Ok(if u.version != 0 then u.version else current.version + 1);
    }

    method PublishUpdate(u: StateUpdate) returns (result: WriteResult)
      modifies this
      ensures (View(), result) == PublishOne(cfg, old(View()), u)
    {
      if u.idempotencyKey != "" && u.idempotencyKey in idempotency {
        return Echo(idempotency[u.idempotencyKey]);
      }
      var admitted := AdmitUpdate(u);
      if admitted.Err? {
        return StateRejected(u, admitted.error, false);
      }
      var definition := admitted.value;
      var slot := (u.entityRef, definition.key);
      var contended := ContendForSlot(slot, u);
      if contended.Err? {
        return StateRejected(u, contended.error, true);
      }
      var version := contended.value;
      var ttl := if u.ttl.Some? then u.ttl else definition.ttl;
      state := state[slot := StateValue(u.entityRef, definition.key, u.value, u.producer, u.timestamp, ttl,
                                        u.authority, version, Clamp(u.confidence))];
      RecordChange(StateChangeKind, u.entityRef, definition.key, version, u.timestamp);
      result := WriteResult(true, false, false, u.entityRef, definition.key, version, Accepted);
      if u.idempotencyKey != "" {
        idempotency := idempotency[u.idempotencyKey := result];
      }
    }

    method PublishState(updates: seq<StateUpdate>) returns (results: seq<WriteResult>)
      modifies this
      ensures (View(), results) == PublishAll(cfg, old(View()), updates)
    {
      results := [];
      for i := 0 to |updates|
        invariant (View(), results) == PublishAll(cfg, old(View()), updates[..i])
      {
        var result := PublishUpdate(updates[i]);
        results := results + [result];
        assert updates[..i + 1][..i] == updates[..i];
      }
      assert updates[..|updates|] == updates;
    }

    method ContendForTriple(triple: Triple, u: RelationUpdate) returns (outcome: Result<int, Reason>)
      requires triple == u.Triple()
      ensures outcome == match ArbitrateRelation(View(), u)
                         case Some(reason) => Err(reason)
                         case None => Ok(NextVersion(CurrentRelation(View(), triple),
                                                     Stamp(u.authority, u.timestamp, u.version)))
    {
      if u.expectedVersion.Some? {
        var actual := if triple in relations then relations[triple].version else 0;
        if actual != u.expectedVersion.value {
          return Err(CasConflict);
        }
      }
      if triple !in relations {
        return Ok(if u.version != 0 then u.version else 1);
      }
      var current := relations[triple];
      if u.authority < current.authority && current.IsFresh(u.timestamp) {
        return Err(LowerAuthority);
      }
      if u.authority == current.authority && u.timestamp < current.timestamp {
        return Err(OutOfOrder);
      }
      if u.version != 0 && u.version <= current.version {
        return Err(VersionMustIncrease);
      }
      return Ok(if u.version != 0 then u.version else current.version + 1);
    }

    method UpsertRelationUpdate(u: RelationUpdate) returns (result: WriteResult)
      modifies this
      ensures (View(), result) == UpsertRelation(cfg, old(View()), u)
    {
      hide RelationAllowed;
      if u.idempotencyKey != "" && u.idempotencyKey in idempotency {
        return Echo(idempotency[u.idempotencyKey]);
      }
      if u.sourceRef !in entities || u.targetRef !in entities {
        return RelationRejected(u, EndpointsNotRegistered, false);
      }
      if !RelationAllowed(entities[u.sourceRef], entities[u.targetRef], u.relationType) {
        return RelationRejected(u, RelationNotAllowed, false);
      }
      var triple := (u.sourceRef, u.relationType, u.targetRef);
      var contended := ContendForTriple(triple, u);
      if contended.Err? {
        return RelationRejected(u, contended.error, true);
      }
      var version := contended.value;
      relations := relations[triple := RelationOf(u, version)];
      RecordChange(RelationChange, u.sourceRef, u.relationType, version, u.timestamp);
      result := WriteResult(true, false, false, u.sourceRef, u.relationType, version, Accepted);
      if u.idempotencyKey != "" {
        idempotency := idempotency[u.idempotencyKey := result];
      }
    }

    method UpsertRelations(updates: seq<RelationUpdate>) returns (results: seq<WriteResult>)
      modifies this
      ensures (View(), results) == UpsertAllRelations(cfg, old(View()), updates)
    {
      results := [];
      for i := 0 to |updates|
        invariant (View(), results) == UpsertAllRelations(cfg, old(View()), updates[..i])
      {
        var result := UpsertRelationUpdate(updates[i]);
        results := results + [result];
        assert updates[..i + 1][..i] == updates[..i];
      }
      assert updates[..|updates|] == updates;
    }

    method PublishStateEvent(e: StateEvent) returns (result: WriteResult)
      modifies this
      ensures (View(), result) == PublishEvent(cfg, old(View()), e)
    {
      if exists i :: 0 <= i < |events| && events[i].eventId == e.eventId {
        return EventResult(e, true, DuplicateEvent);
      }
      if e.subjectRef !in entities {
        return EventResult(e, false, EntityNotRegistered);
      }
      events := DropOldest(events + [e], cfg.maxEvents);
      RecordChange(EventChange, e.subjectRef, e.eventType, 1, e.timestamp);
      return WriteResult(true, false, false, e.subjectRef, e.eventType, revision, Accepted);
    }

    method PublishEvents(batch: seq<StateEvent>) returns (results: seq<WriteResult>)
      modifies this
      ensures (View(), results) == PublishAllEvents(cfg, old(View()), batch)
    {
      results := [];
      for i := 0 to |batch|
        invariant (View(), results) == PublishAllEvents(cfg, old(View()), batch[..i])
      {
        var result := PublishStateEvent(batch[i]);
        results := results + [result];
        assert batch[..i + 1][..i] == batch[..i];
      }
      assert batch[..|batch|] == batch;
    }

    method TallyKeys(
        before: Tally, ref: string, keys: set<string>, req: SnapshotRequest, now: Time,
        ghost s: Plane, ghost slots: set<Slot>, ghost unknown: set<Identity>)
      returns (tally: Tally)
      requires s == View() && before == TallyOf(s, slots, unknown, req, now)
      ensures tally == TallyOf(s, slots + KeySlots(ref, keys), unknown, req, now)
    {
      tally := before;
      var todo := keys;
      ghost var reached := slots;
      while todo != {}
        invariant todo <= keys
        invariant reached == slots + KeySlots(ref, keys - todo)
        invariant tally == TallyOf(s, reached, unknown, req, now)
        decreases |todo|
      {
        var k :| k in todo;
        var slot := (ref, k);
        TallyExtends(s, reached, unknown, req, now, slot);
        assert KeySlots(ref, keys - (todo - {k})) == KeySlots(ref, keys - todo) + {slot};
        todo, reached := todo - {k}, reached + {slot};
        if slot !in state {
          tally := tally.(missing := tally.missing + {Keyed(ref, k)});
        } else if state[slot].authority < req.minAuthority {
          tally := tally.(missing := tally.missing + {Keyed(ref, k)});
        } else if !state[slot].IsFresh(now, MaxAgeFor(state[slot].key, req.maxAgeMs)) {
          tally := tally.(stale := tally.stale + {Keyed(ref, k)});
        } else {
          tally := tally.(values := tally.values[slot := state[slot]]);
        }
      }
      assert keys - todo == keys;
    }

    method TallyEntity(
        before: Tally, ref: string, patterns: set<string>, req: SnapshotRequest, now: Time,
        ghost s: Plane, ghost slots: set<Slot>, ghost unknown: set<Identity>)
      returns (tally: Tally)
      requires ref in entities
      requires s == View() && before == TallyOf(s, slots, unknown, req, now)
      ensures tally == TallyOf(s, slots + PatternSlots(cfg, ref, entities[ref].entityType, patterns),
                               unknown + PatternUnknown(cfg, ref, entities[ref].entityType, patterns), req, now)
    {
      hide Applicable, TallyOf, PatternSlots, PatternUnknown;
      tally := before;
      var entityType := entities[ref].entityType;
      var todo := patterns;
      ghost var reached, absent := slots, unknown;
      NoPatterns(cfg, ref, entityType);
      UnionAssociates(slots, {}, {});
      UnionAssociates(unknown, {}, {});
      assert patterns - todo == {};
      while todo != {}
        invariant todo <= patterns
        invariant reached == slots + PatternSlots(cfg, ref, entityType, patterns - todo)
        invariant absent == unknown + PatternUnknown(cfg, ref, entityType, patterns - todo)
        invariant tally == TallyOf(s, reached, absent, req, now)
        decreases |todo|
      {
        var pattern :| pattern in todo;
        PatternSlotsAdd(cfg, ref, entityType, patterns - todo, pattern);
        assert patterns - (todo - {pattern}) == (patterns - todo) + {pattern};
        todo := todo - {pattern};
        var applicable := Applicable(cfg, entityType, pattern);
        ghost var more := if applicable.Some? then KeySlots(ref, applicable.value) else {};
        ghost var fewer := if applicable.None? then {Keyed(ref, pattern)} else {};
        UnionAssociates(slots, PatternSlots(cfg, ref, entityType, patterns - todo - {pattern}), more);
        UnionAssociates(unknown, PatternUnknown(cfg, ref, entityType, patterns - todo - {pattern}), fewer);
        if applicable.None? {
          tally := tally.(missing := tally.missing + {Keyed(ref, pattern)});
          UnknownExtends(s, reached, absent, req, now, Keyed(ref, pattern));
          absent := absent + {Keyed(ref, pattern)};
        } else {
          tally := TallyKeys(tally, ref, applicable.value, req, now, s, reached, absent);
          reached := reached + KeySlots(ref, applicable.value);
        }
      }
      assert patterns - todo == patterns;
    }

    method TallyRequest(req: SnapshotRequest, now: Time) returns (tally: Tally)
      ensures tally == TallyOf(View(), Reached(cfg, View(), req), Unknown(cfg, View(), req), req, now)
    {
      hide TallyOf, Reached, Unknown, PatternSlots, PatternUnknown, CanonicalPattern;
      var patterns := Patterns(cfg, req);
      tally := Tally(map[], {}, {});
      ghost var s := View();
      ghost var reached, absent: set<Identity> := {}, {};
      NothingAsked(cfg, s, req, now);
      assert req.entities[..0] == [];
      for i := 0 to |req.entities|
        invariant reached == Reached(cfg, s, req.(entities := req.entities[..i]))
        invariant absent == Unknown(cfg, s, req.(entities := req.entities[..i]))
        invariant tally == TallyOf(s, reached, absent, req, now)
      {
        var ref := req.entities[i];
        ReachedAdds(cfg, s, req, req.entities[..i], ref);
        assert req.entities[..i + 1] == req.entities[..i] + [ref];
        if ref !in entities {
          tally := tally.(missing := tally.missing + {WholeEntity(ref)});
          UnknownExtends(s, reached, absent, req, now, WholeEntity(ref));
          assert reached + {} == reached;
          absent := absent + {WholeEntity(ref)};
        } else {
          tally := TallyEntity(tally, ref, patterns, req, now, s, reached, absent);
          reached := reached + PatternSlots(cfg, ref, s.entities[ref].entityType, patterns);
          absent := absent + PatternUnknown(cfg, ref, s.entities[ref].entityType, patterns);
        }
      }
      assert req.(entities := req.entities[..|req.entities|]) == req;
    }

    method GetSnapshot(req: SnapshotRequest, now: Time, token: string) returns (snapshot: Snapshot)
      modifies this`snapshots
      ensures (View(), snapshot) == TakeSnapshot(cfg, old(View()), req, now, token)
    {
      hide Reached, Unknown, Classify;
      var tally := TallyRequest(req, now);
      var scoped := map[];
      if req.includeRelations {
        scoped := map t | t in relations
                          && relations[t].IsFresh(now)
                          && (relations[t].sourceRef in req.entities || relations[t].targetRef in req.entities)
                  :: relations[t];
      }
      DeliveredAreStored(View(), Reached(cfg, View(), req), req, now);
      assert tally.values.Keys == WithVerdict(View(), Reached(cfg, View(), req), req, now, Delivered);
      snapshot := Snapshot(token, revision, now, Ratio(|tally.values.Keys|, |tally.missing|, |tally.stale|),
                           tally.values, scoped, tally.missing, tally.stale);
      snapshots := DropOldest(Without(snapshots, token) + [snapshot], cfg.maxSnapshots);
    }

    /** Reading live state goes through a snapshot of one entity; reading a token filters what was frozen. */
    method GetState(
        ref: string, keys: seq<string>, maxAgeMs: seq<(string, int)>, minAuthority: Authority, token: string,
        now: Time, freshToken: string)
      returns (outcome: Result<map<Slot, StateValue>, UnknownSnapshot>)
      modifies this`snapshots
      ensures token == "" ==>
        var request := SnapshotRequest([ref], keys, maxAgeMs, minAuthority, false);
        var taken := TakeSnapshot(cfg, old(View()), request, now, freshToken);
        View() == taken.0 && outcome == Ok(taken.1.values)
      ensures token != "" ==>
        && View() == old(View())
        && outcome == match View().FindSnapshot(token)
                      case None => Err(UnknownSnapshot(token))
                      case Some(frozen) => Ok(Restricted(cfg, frozen, ref, keys))
    {
      if token != "" {
        var frozen :- ReadSnapshot(token);
        return Ok(Restricted(cfg, frozen, ref, keys));
      }
      var snapshot := GetSnapshot(SnapshotRequest([ref], keys, maxAgeMs, minAuthority, false), now, freshToken);
      return Ok(snapshot.values);
    }

    method ReadSnapshot(token: string) returns (outcome: Result<Snapshot, UnknownSnapshot>)
      ensures outcome == match View().FindSnapshot(token)
                         case Some(snapshot) => Ok(snapshot)
                         case None => Err(UnknownSnapshot(token))
    {
      var i := |snapshots|;
      assert snapshots[..i] == snapshots;
      while i > 0
        invariant 0 <= i <= |snapshots|
        invariant Lookup(snapshots, token) == Lookup(snapshots[..i], token)
      {
        i := i - 1;
        assert snapshots[..i + 1][..i] == snapshots[..i];
        if snapshots[i].token == token {
          return Ok(snapshots[i]);
        }
      }
      return Err(UnknownSnapshot(token));
    }

    method QueryGraph(roots: set<string>, types: set<string>, depth: int, token: string)
      returns (outcome: Result<GraphQueryResult, UnknownSnapshot>)
      ensures outcome == match RelationSource(View(), token)
                         case Err(e) => Err(e)
                         case Ok(source) => Ok(GraphAnswer(View(), source, roots, types, depth, token))
    {
      var source := relations;
      if token != "" {
        var frozen :- ReadSnapshot(token);
        source := frozen.relations;
      }
      var visited, included := Explore(source.Keys, roots, types, depth);
      return Ok(GraphQueryResult(
                  token,
                  map ref | ref in visited && ref in entities :: entities[ref],
                  map t | t in included && t in source :: source[t]));
    }

    method ChangesAfter(after: int, prefix: string, keys: seq<string>, limit: int) returns (batch: seq<StateChange>)
      ensures batch == Changes(cfg, View(), after, prefix, keys, limit)
    {
      var matching: seq<StateChange> := [];
      ghost var wanted := (c: StateChange) => c.cursor > after && Wanted(cfg, c, prefix, keys);
      for i := 0 to |changes|
        invariant matching == Filter(changes[..i], wanted)
      {
        if changes[i].cursor > after && Wanted(cfg, changes[i], prefix, keys) {
          matching := matching + [changes[i]];
        }
        assert changes[..i + 1][..i] == changes[..i];
      }
      assert changes[..|changes|] == changes;
      batch := matching[..MinInt(|matching|, MaxInt(0, limit))];
    }
  }
}
