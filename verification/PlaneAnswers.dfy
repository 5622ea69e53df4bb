// What a snapshot and the change feed answer, in terms of the request, the registry and what is stored.

module PlaneAnswers {
  import opened Basics
  import opened Contracts
  import opened KeyRegistry
  import opened PlaneSpec
  import opened PlaneRuns
  import opened PlaneEffects
  import opened GraphQuery
  import opened StatePlane
  import ChangeFeed
  import SnapshotClassification

  // ---- Age limits ----

  /** A prefix speaks for everything, for one key, or for the keys below it. */
  ghost predicate SpeaksFor(prefix: string, key: string) {
    prefix in ["", "*", key] || (|prefix| < |key| && key[..|prefix|] == prefix && key[|prefix|] == '.')
  }

  /** The entry that decides on a key: the longest one that speaks for it, the first of equally long ones. */
  ghost predicate Decides(policy: seq<(string, int)>, i: nat, key: string) {
    && i < |policy| && SpeaksFor(policy[i].0, key)
    && forall j :: 0 <= j < |policy| && SpeaksFor(policy[j].0, key) ==>
         |policy[j].0| <= |policy[i].0| && (j < i ==> |policy[j].0| < |policy[i].0|)
  }

  lemma CoveringIsSpeaking(prefix: string, key: string)
    ensures Covers(prefix, key) <==> SpeaksFor(prefix, key)
  {
    var list := ["", "*", key];
    assert list[0] == "" && list[1] == "*" && list[2] == key;
    if |prefix| < |key| && key[..|prefix|] == prefix && key[|prefix|] == '.' {
      assert prefix + "." == key[..|prefix| + 1];
    }
    if prefix + "." <= key {
      assert key[..|prefix| + 1] == prefix + ".";
      assert key[|prefix|] == (prefix + ".")[|prefix|];
      assert key[..|prefix|] == (prefix + ".")[..|prefix|] == prefix;
    }
  }

  lemma {:induction false} LongestPrefixDecides(key: string, policy: seq<(string, int)>)
    returns (i: nat)
    ensures LongestCover(key, policy).None? ==> forall j :: 0 <= j < |policy| ==> !SpeaksFor(policy[j].0, key)
    ensures LongestCover(key, policy).Some? ==> Decides(policy, i, key) && LongestCover(key, policy) == Some(policy[i])
  {
    hide Covers, SpeaksFor;
    i := 0;
    if policy != [] {
      var front, n := policy[..|policy| - 1], |policy| - 1;
      i := LongestPrefixDecides(key, front);
      CoveringIsSpeaking(policy[n].0, key);
      assert forall j :: 0 <= j < n ==> front[j] == policy[j];
      if LongestCover(key, policy) != LongestCover(key, front) {
        i := n;
      } else if Covers(policy[n].0, key) && LongestCover(key, front).Some? && |policy[n].0| > |front[i].0| {
        i := n;
      }
    }
  }

  /** The age a key may have: the limit of the entry that decides on it, in milliseconds and at least 0, if there is one. */
  lemma AgeLimitIsDecided(key: string, policy: seq<(string, int)>)
    ensures MaxAgeFor(key, policy).None? <==> forall i :: 0 <= i < |policy| ==> !SpeaksFor(policy[i].0, key)
    ensures forall i: nat :: Decides(policy, i, key) ==> MaxAgeFor(key, policy) == Some(1000 * MaxInt(0, policy[i].1))
  {
    hide LongestCover, SpeaksFor;
    var k := LongestPrefixDecides(key, policy);
  }

  // ---- Snapshots ----

  /** The name under which a request asks for a key. */
  ghost function AskedName(cfg: PlaneConfig, name: string): string {
    if '*' in name || '?' in name || '[' in name || cfg.registry.Resolve(name).None? then name
    else cfg.registry.Resolve(name).value.key
  }

  ghost predicate Wild(name: string) {
    '*' in name || '?' in name || '[' in name
  }

  /** One name of a request asks for a key of an entity: a pattern for every matching key in use for its type, any other
      name for the key it stands for. */
  ghost predicate Asks(cfg: PlaneConfig, entityType: string, name: string, key: string) {
    var asked := AskedName(cfg, name);
    if Wild(asked) then
      && key in cfg.registry.definitions && cfg.glob(key, asked)
      && !cfg.registry.definitions[key].deprecated && entityType in cfg.registry.definitions[key].entityTypes
    else
      && cfg.registry.Resolve(asked).Some? && cfg.registry.Resolve(asked).value.key == key
      && entityType in cfg.registry.Resolve(asked).value.entityTypes
  }

  ghost predicate AsksFor(cfg: PlaneConfig, s: Plane, req: SnapshotRequest, ref: string, key: string) {
    && ref in req.entities && ref in s.entities
    && exists name :: name in req.keys && Asks(cfg, s.entities[ref].entityType, name, key)
  }

  lemma AskedNameIsPattern(cfg: PlaneConfig, name: string)
    ensures CanonicalPattern(cfg, name) == AskedName(cfg, name)
    ensures IsPattern(name) <==> Wild(name)
  {
  }

  lemma ReachedMeansAsked(cfg: PlaneConfig, s: Plane, req: SnapshotRequest, ref: string, key: string)
    ensures (ref, key) in Reached(cfg, s, req) <==> AsksFor(cfg, s, req, ref, key)
  {
    hide IsPattern, Wild, AskedName, CanonicalPattern;
    forall name: string
      ensures CanonicalPattern(cfg, name) == AskedName(cfg, name) && (IsPattern(name) <==> Wild(name))
    {
      AskedNameIsPattern(cfg, name);
    }
    if AsksFor(cfg, s, req, ref, key) {
      var name :| name in req.keys && Asks(cfg, s.entities[ref].entityType, name, key);
      assert CanonicalPattern(cfg, name) in Patterns(cfg, req);
    }
    if (ref, key) in Reached(cfg, s, req) {
      var pattern :| pattern in Patterns(cfg, req)
                     && Applicable(cfg, s.entities[ref].entityType, pattern).Some?
                     && key in Applicable(cfg, s.entities[ref].entityType, pattern).value;
      var name :| name in req.keys && CanonicalPattern(cfg, name) == pattern;
      assert Asks(cfg, s.entities[ref].entityType, name, key);
    }
  }

  /** Old enough to be stale: past its time to live, or past the limit that the request sets for its key. */
  ghost predicate TooOld(v: StateValue, req: SnapshotRequest, now: Time) {
    || !CountsAt(v.timestamp, v.ttl, now)
    || exists i: nat ::
         Decides(req.maxAgeMs, i, v.key) && MaxInt(0, now - v.timestamp) > 1000 * MaxInt(0, req.maxAgeMs[i].1)
  }

  lemma StaleMeansTooOld(v: StateValue, req: SnapshotRequest, now: Time)
    ensures v.IsFresh(now, MaxAgeFor(v.key, req.maxAgeMs)) <==> !TooOld(v, req, now)
  {
    hide MaxAgeFor, Decides;
    AgeLimitIsDecided(v.key, req.maxAgeMs);
    FreshMeansCounts(v, now);
    var i := LongestPrefixDecides(v.key, req.maxAgeMs);
    LimitMeansDecided(v.key, req.maxAgeMs, i);
  }

  lemma LimitMeansDecided(key: string, policy: seq<(string, int)>, i: nat)
    requires LongestCover(key, policy).Some? ==> Decides(policy, i, key)
    ensures MaxAgeFor(key, policy).Some? ==> Decides(policy, i, key)
    ensures MaxAgeFor(key, policy).None? ==> forall j: nat :: !Decides(policy, j, key)
  {
    hide LongestCover, SpeaksFor;
    AgeLimitIsDecided(key, policy);
  }

  /** What becomes of a key that is asked for: missing if nothing of enough authority is stored, stale if that is too old,
      and delivered as it is stored otherwise; and nothing else is delivered or stale. */
  lemma SnapshotAnswers(
      cfg: PlaneConfig, s: Plane, req: SnapshotRequest, now: Time, token: string, ref: string, key: string)
    requires cfg.Valid() && Valid(cfg, s)
    ensures var snap, slot := SnapshotOf(cfg, s, req, now, token), (ref, key);
            var stored := slot in s.state && req.minAuthority <= s.state[slot].authority;
            && (slot in snap.values <==> AsksFor(cfg, s, req, ref, key) && stored && !TooOld(s.state[slot], req, now))
            && (slot in snap.values ==> snap.values[slot] == s.state[slot])
            && (Keyed(ref, key) in snap.stale <==>
                  AsksFor(cfg, s, req, ref, key) && stored && TooOld(s.state[slot], req, now))
            && (AsksFor(cfg, s, req, ref, key) ==> (Keyed(ref, key) in snap.missing <==> !stored))
  {
    hide Reached, Unknown, AsksFor, TooOld, MaxAgeFor, Ratio;
    var slot := (ref, key);
    ReachedMeansAsked(cfg, s, req, ref, key);
    SnapshotClassification.ClassificationIsPartition(cfg, s, req, now, token, slot);
    if slot in s.state {
      StaleMeansTooOld(s.state[slot], req, now);
    }
    assert forall v :: slot in WithVerdict(s, Reached(cfg, s, req), req, now, v) <==>
                       slot in Reached(cfg, s, req) && Classify(s, slot, req, now) == v;
  }

  ghost predicate Meaningless(cfg: PlaneConfig, name: string) {
    !Wild(name) && cfg.registry.Resolve(name).None?
  }

  lemma MeaninglessNames(cfg: PlaneConfig, req: SnapshotRequest, key: string)
    requires cfg.Valid()
    ensures key in Patterns(cfg, req) && !IsPattern(key) && cfg.registry.Resolve(key).None?
            <==> key in req.keys && Meaningless(cfg, key)
  {
    if key in req.keys && Meaningless(cfg, key) {
      assert CanonicalPattern(cfg, key) == key;
    }
    if key in Patterns(cfg, req) && !IsPattern(key) && cfg.registry.Resolve(key).None? {
      var name :| name in req.keys && CanonicalPattern(cfg, name) == key;
      assert name == key;
    }
  }

  lemma UnknownMeansMeaningless(cfg: PlaneConfig, s: Plane, req: SnapshotRequest, ref: string, key: string)
    requires cfg.Valid()
    ensures Keyed(ref, key) in Unknown(cfg, s, req)
            <==> ref in req.entities && ref in s.entities && key in req.keys && Meaningless(cfg, key)
    ensures WholeEntity(ref) in Unknown(cfg, s, req) <==> ref in req.entities && ref !in s.entities
  {
    hide Patterns, Meaningless, IsPattern;
    MeaninglessNames(cfg, req, key);
  }

  /** What is missing: the unregistered entities, the names that mean nothing, and the keys asked for of which nothing of
      enough authority is stored. */
  lemma MissingExactly(
      cfg: PlaneConfig, s: Plane, req: SnapshotRequest, now: Time, token: string, ref: string, key: string)
    requires cfg.Valid()
    ensures var snap, slot := SnapshotOf(cfg, s, req, now, token), (ref, key);
            var stored := slot in s.state && req.minAuthority <= s.state[slot].authority;
            && (WholeEntity(ref) in snap.missing <==> ref in req.entities && ref !in s.entities)
            && (Keyed(ref, key) in snap.missing <==>
                  || (ref in req.entities && ref in s.entities && key in req.keys && Meaningless(cfg, key))
                  || (AsksFor(cfg, s, req, ref, key) && !stored))
  {
    hide Reached, Unknown, Meaningless, AsksFor, Ratio, ScopedRelations, StateValue.IsFresh;
    ReachedMeansAsked(cfg, s, req, ref, key);
    UnknownMeansMeaningless(cfg, s, req, ref, key);
    var missing := WithVerdict(s, Reached(cfg, s, req), req, now, Missing);
    assert Keyed(ref, key) in Identities(missing) <==> (ref, key) in missing;
    assert WholeEntity(ref) !in Identities(missing);
  }

  /** The relations of a snapshot, if any are wanted: those that count and touch a requested entity, as they are stored. */
  lemma SnapshotRelations(cfg: PlaneConfig, s: Plane, req: SnapshotRequest, now: Time, token: string, t: Triple)
    requires Valid(cfg, s)
    ensures var relations := SnapshotOf(cfg, s, req, now, token).relations;
            && (t in relations <==>
                  req.includeRelations && RelationCounts(s, t, now) && (t.0 in req.entities || t.2 in req.entities))
            && (t in relations ==> t in s.relations && relations[t] == s.relations[t])
  {
    hide StateSound, EventsSound, SnapshotsSound, Reached, Unknown, WithVerdict, Ratio;
    assert t in s.relations ==> SoundRelation(s, t);
  }

  // ---- Frozen snapshots ----

  /** The retained snapshots of other tokens, oldest first. */
  ghost function OfOthers(snapshots: seq<Snapshot>, token: string): seq<Snapshot> {
    if snapshots == [] then []
    else if snapshots[0].token == token then OfOthers(snapshots[1..], token)
    else [snapshots[0]] + OfOthers(snapshots[1..], token)
  }

  lemma {:induction false} WithoutIsOfOthers(snapshots: seq<Snapshot>, token: string)
    ensures Without(snapshots, token) == OfOthers(snapshots, token)
  {
    if snapshots != [] {
      var first, rest := [snapshots[0]], snapshots[1..];
      assert snapshots == first + rest;
      FilterConcat(first, rest, (x: Snapshot) => x.token != token);
      assert first[..0] == [];
      assert Without(first, token) == if snapshots[0].token == token then [] else first;
      WithoutIsOfOthers(rest, token);
    }
  }

  /** A snapshot that is taken is retained as the newest, in place of an earlier one of its token and with the newest of
      the others that there is room for; the plane changes in nothing else. */
  lemma SnapshotIsRetained(cfg: PlaneConfig, s: Plane, req: SnapshotRequest, now: Time, token: string)
    requires cfg.Valid()
    ensures var (after, snap) := TakeSnapshot(cfg, s, req, now, token);
            && NewestLast(OfOthers(s.snapshots, token), snap, after.snapshots, cfg.maxSnapshots)
            && after == s.(snapshots := after.snapshots)
            && snap.token == token && snap.createdAt == now && snap.logicalTime == s.revision
  {
    hide SnapshotOf, NewestLast, LastN;
    WithoutIsOfOthers(s.snapshots, token);
    var snap := TakeSnapshot(cfg, s, req, now, token).1;
    LastNIsNewestLast(OfOthers(s.snapshots, token), snap, cfg.maxSnapshots);
    SnapshotIsStamped(cfg, s, req, now, token);
  }

  lemma SnapshotIsStamped(cfg: PlaneConfig, s: Plane, req: SnapshotRequest, now: Time, token: string)
    ensures var snap := SnapshotOf(cfg, s, req, now, token);
            snap.token == token && snap.createdAt == now && snap.logicalTime == s.revision
  {
    hide Reached, Unknown, WithVerdict, ScopedRelations, Ratio;
  }

  /** The snapshot that a token reads: the newest retained one that carries it. */
  ghost predicate ReadsBy(s: Plane, token: string, i: nat) {
    && i < |s.snapshots| && s.snapshots[i].token == token
    && forall j :: i < j < |s.snapshots| ==> s.snapshots[j].token != token
  }

  lemma {:induction false} LookupFindsNewest(snapshots: seq<Snapshot>, token: string) returns (i: nat)
    requires Lookup(snapshots, token).Some?
    ensures i < |snapshots| && Lookup(snapshots, token).value == snapshots[i] && snapshots[i].token == token
    ensures forall j :: i < j < |snapshots| ==> snapshots[j].token != token
  {
    var n := |snapshots| - 1;
    if snapshots[n].token == token {
      i := n;
    } else {
      i := LookupFindsNewest(snapshots[..n], token);
      assert forall j :: 0 <= j < n ==> snapshots[..n][j] == snapshots[j];
    }
  }

  lemma TokenReadsNewest(s: Plane, token: string)
    ensures s.FindSnapshot(token).Some? <==> exists i: nat :: ReadsBy(s, token, i)
    ensures forall i: nat :: ReadsBy(s, token, i) ==> s.FindSnapshot(token) == Some(s.snapshots[i])
  {
    hide Lookup;
    if s.FindSnapshot(token).Some? {
      var i := LookupFindsNewest(s.snapshots, token);
      assert ReadsBy(s, token, i);
    }
  }

  /** Reading an entity by a token gives what that snapshot holds of it under the names that are asked for. */
  lemma FrozenReadAnswers(cfg: PlaneConfig, frozen: Snapshot, ref: string, keys: seq<string>, slot: Slot)
    ensures var values := Restricted(cfg, frozen, ref, keys);
            && (slot in values <==>
                  && slot in frozen.values && frozen.values[slot].entityRef == ref
                  && exists name :: name in keys && cfg.glob(frozen.values[slot].key, AskedName(cfg, name)))
            && (slot in values ==> values[slot] == frozen.values[slot])
  {
    hide AskedName, CanonicalPattern;
    forall name: string ensures CanonicalPattern(cfg, name) == AskedName(cfg, name) {
      AskedNameIsPattern(cfg, name);
    }
    if slot in frozen.values {
      if name :| name in keys && cfg.glob(frozen.values[slot].key, AskedName(cfg, name)) {
        var i :| 0 <= i < |keys| && keys[i] == name;
      }
      if i :| 0 <= i < |keys| && cfg.glob(frozen.values[slot].key, CanonicalPattern(cfg, keys[i])) {
        assert keys[i] in keys;
      }
    }
  }

  // ---- Graph queries ----

  /** The relations that a query follows: those of the plane, or of the snapshot its token reads, of the wanted types. */
  ghost predicate Follows(s: Plane, token: string, types: set<string>, t: Triple) {
    && (types != {} ==> exists name :: name in types && t.1 == name)
    && (token == "" ==> t in s.relations)
    && (token != "" ==> exists i: nat :: ReadsBy(s, token, i) && t in s.snapshots[i].relations)
  }

  /** A query answers for every token that reads something: with the registered entities that the relations it follows
      reach in so many hops, as they are now, and with those relations that one hop less touches. */
  lemma QueryAnswers(
      s: Plane, token: string, roots: set<string>, types: set<string>, depth: int, followed: set<Triple>)
    requires forall t :: t in followed <==> Follows(s, token, types, t)
    ensures RelationSource(s, token).Ok? <==> token == "" || exists i: nat :: ReadsBy(s, token, i)
    ensures RelationSource(s, token).Ok? ==>
              var source := RelationSource(s, token).value;
              var answer := GraphAnswer(s, source, roots, types, depth, token);
              && answer.snapshotToken == token
              && (forall ref :: ref in answer.entities <==>
                    ref in s.entities && Reachable(followed, roots, MaxInt(0, depth), ref))
              && (forall ref :: ref in answer.entities ==> answer.entities[ref] == s.entities[ref])
              && (forall t :: t in answer.relations <==>
                    && t in followed && depth >= 1
                    && (Reachable(followed, roots, depth - 1, t.0) || Reachable(followed, roots, depth - 1, t.2)))
              && (forall t :: t in answer.relations && token == "" ==> answer.relations[t] == s.relations[t])
              && (forall t, i: nat :: t in answer.relations && token != "" && ReadsBy(s, token, i) ==>
                    t in s.snapshots[i].relations && answer.relations[t] == s.snapshots[i].relations[t])
  {
    hide Reachable, ReadsBy;
    TokenReadsNewest(s, token);
    if RelationSource(s, token).Ok? {
      var source := RelationSource(s, token).value;
      assert followed == Edges(source.Keys, types);
      AnswerIsBoundedReachability(s, source, roots, types, depth, token);
      hide Follows;
    }
  }

  // ---- The change feed ----

  /** A retained change that a poll asks for. */
  ghost predicate Interesting(cfg: PlaneConfig, c: StateChange, after: int, prefix: string, keys: seq<string>) {
    && c.cursor > after
    && |prefix| <= |c.subjectRef| && c.subjectRef[..|prefix|] == prefix
    && (|keys| > 0 ==> exists name :: name in keys && cfg.glob(c.keyOrRelation, name))
  }

  lemma WantedIsInteresting(cfg: PlaneConfig, c: StateChange, after: int, prefix: string, keys: seq<string>)
    ensures c.cursor > after && Wanted(cfg, c, prefix, keys) <==> Interesting(cfg, c, after, prefix, keys)
  {
    if name :| name in keys && cfg.glob(c.keyOrRelation, name) {
      var i :| 0 <= i < |keys| && keys[i] == name;
    }
  }

  /** A poll answers with the oldest interesting changes, at most as many as it allows; whatever else is interesting comes
      later, and only if the answer is full. */
  lemma PollAnswersOldestFirst(
      cfg: PlaneConfig, s: Plane, after: int, prefix: string, keys: seq<string>, limit: int)
    requires Valid(cfg, s)
    ensures var answer := Changes(cfg, s, after, prefix, keys, limit);
            && |answer| <= MaxInt(0, limit)
            && (forall i, j :: 0 <= i < j < |answer| ==> answer[i].cursor < answer[j].cursor)
            && (forall c :: c in answer ==> c in s.changes && Interesting(cfg, c, after, prefix, keys))
            && (forall c :: c in s.changes && Interesting(cfg, c, after, prefix, keys) && c !in answer ==>
                  |answer| == MaxInt(0, limit) && forall a :: a in answer ==> a.cursor < c.cursor)
  {
    hide Wanted, Interesting, StateSound, RelationsSound, EventsSound, SnapshotsSound, Filter;
    var test := (c: StateChange) => c.cursor > after && Wanted(cfg, c, prefix, keys);
    var matching := Filter(s.changes, test);
    forall c: StateChange ensures test(c) <==> Interesting(cfg, c, after, prefix, keys) {
      WantedIsInteresting(cfg, c, after, prefix, keys);
    }
    ChangeFeed.FilterSorted(s.changes, test);
    var answer := Changes(cfg, s, after, prefix, keys, limit);
    assert answer <= matching;
    forall c | c in s.changes && Interesting(cfg, c, after, prefix, keys) && c !in answer
      ensures |answer| == MaxInt(0, limit) && forall a :: a in answer ==> a.cursor < c.cursor
    {
      var k :| 0 <= k < |matching| && matching[k] == c;
      assert k >= |answer|;
      forall a | a in answer ensures a.cursor < c.cursor {
        var j :| 0 <= j < |answer| && answer[j] == a;
        assert matching[j] == a;
      }
    }
  }

  // ---- Entities and events ----

  /** Storing an entity is refused for a changed graph, does nothing for the same entity, and else replaces just that one. */
  lemma EntityIsAnswered(cfg: PlaneConfig, s: Plane, e: Entity, now: Time)
    ensures var (after, outcome), known := UpsertEntity(cfg, s, e, now), e.ref in s.entities;
            && (outcome == GraphCannotChange <==> known && s.entities[e.ref].graph != e.graph)
            && (outcome == EntityUnchanged <==> known && s.entities[e.ref] == e)
            && (outcome != EntityStored ==> after == s)
            && (outcome == EntityStored ==>
                  && e.ref in after.entities && after.entities[e.ref] == e
                  && (forall r :: r != e.ref ==> (r in after.entities <==> r in s.entities))
                  && (forall r :: r in s.entities && r != e.ref ==> after.entities[r] == s.entities[r])
                  && after.state == s.state && after.relations == s.relations && after.events == s.events
                  && after.idempotency == s.idempotency && after.snapshots == s.snapshots)
  {
    hide LastN;
  }

  ghost predicate IsRepeat(s: Plane, e: StateEvent) {
    exists past :: past in s.events && past.eventId == e.eventId
  }

  /** An event is refused as a repeat of a retained one or for an unregistered subject, in this order; else it is the
      newest retained event. */
  lemma EventIsAnswered(cfg: PlaneConfig, s: Plane, e: StateEvent)
    requires cfg.Valid()
    ensures var (after, r), repeat := PublishEvent(cfg, s, e), IsRepeat(s, e);
            && (r.duplicate <==> repeat) && (r.accepted <==> !repeat && e.subjectRef in s.entities)
            && (r.reason == if repeat then DuplicateEvent
                            else if e.subjectRef in s.entities then Accepted else EntityNotRegistered)
            && !r.conflict && r.entityRef == e.subjectRef && r.key == e.eventType
            && r.version == (if r.accepted then after.revision else 0)
            && (!r.accepted ==> after == s)
            && (r.accepted ==>
                  && after.events != [] && after.events[|after.events| - 1] == e
                  && after.entities == s.entities && after.state == s.state && after.relations == s.relations
                  && after.idempotency == s.idempotency && after.snapshots == s.snapshots)
  {
    if past :| past in s.events && past.eventId == e.eventId {
      var i :| 0 <= i < |s.events| && s.events[i] == past;
    }
  }
}
