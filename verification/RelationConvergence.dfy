// Order-independence of relation writes: when every delivery order and batching ends in the same graph.

module RelationConvergence {
  import opened Basics
  import opened Contracts
  import opened PlaneSpec
  import opened PlaneRuns
  import opened StatePlane

  /** A write that leaves everything to authority and time: no TTL, explicit version, CAS or idempotency key. */
  predicate Plain(u: RelationUpdate) {
    u.ttl.None? && u.version == 0 && u.expectedVersion.None? && u.idempotencyKey == ""
  }

  predicate AllPlain(ws: seq<RelationUpdate>) {
    forall i :: 0 <= i < |ws| ==> Plain(ws[i])
  }

  /** Nothing stored can expire. */
  predicate Lasting(s: Plane) {
    forall t :: t in s.relations ==> s.relations[t].ttl.None?
  }

  /** A stored relation up to its version number. */
  function Content(r: GraphRelation): GraphRelation {
    r.(version := 0)
  }

  /** (authority, timestamp) of `a` is lexicographically at least that of `b`. */
  predicate AtLeast(a: GraphRelation, b: GraphRelation) {
    a.authority > b.authority || (a.authority == b.authority && a.timestamp >= b.timestamp)
  }

  /** A write on this triple that the plane's entities admit. */
  predicate Counts(s: Plane, u: RelationUpdate, t: Triple) {
    u.Triple() == t && AdmitRelation(s, u).None?
  }

  predicate Beaten(s: Plane, ws: seq<RelationUpdate>, t: Triple, top: GraphRelation) {
    && (t in s.relations ==> AtLeast(top, s.relations[t]))
    && (forall i :: 0 <= i < |ws| && Counts(s, ws[i], t) ==> AtLeast(top, RelationOf(ws[i], 0)))
  }

  /** A write that neither the others nor the occupant outranks. */
  predicate Top(s: Plane, ws: seq<RelationUpdate>, t: Triple, i: int) {
    0 <= i < |ws| && Counts(s, ws[i], t) && Beaten(s, ws, t, RelationOf(ws[i], 0))
  }

  ghost predicate FromTop(s: Plane, ws: seq<RelationUpdate>, t: Triple, content: GraphRelation) {
    exists i :: Top(s, ws, t, i) && content == RelationOf(ws[i], 0)
  }

  /** The occupant outranks every write that counts. */
  predicate Unmoved(s: Plane, ws: seq<RelationUpdate>, t: Triple) {
    && t in s.relations
    && forall i :: 0 <= i < |ws| && Counts(s, ws[i], t) ==> !AtLeast(RelationOf(ws[i], 0), s.relations[t])
  }

  predicate Untouched(s: Plane, ws: seq<RelationUpdate>, t: Triple) {
    t !in s.relations && forall i :: 0 <= i < |ws| ==> !Counts(s, ws[i], t)
  }

  /** The stored content of the triple is a top write, or the occupant when it outranks every write. */
  ghost predicate HoldsGreatest(s: Plane, ws: seq<RelationUpdate>, t: Triple, after: map<Triple, GraphRelation>) {
    if Untouched(s, ws, t) then t !in after
    else
      && t in after
      && Beaten(s, ws, t, after[t])
      && (FromTop(s, ws, t, Content(after[t])) || (Unmoved(s, ws, t) && after[t] == s.relations[t]))
  }

  predicate SameAt(a: map<Triple, GraphRelation>, b: map<Triple, GraphRelation>, t: Triple) {
    (t in a <==> t in b) && (t in a ==> a[t] == b[t])
  }

  lemma PlainWriteEffect(cfg: PlaneConfig, s: Plane, u: RelationUpdate)
    requires Plain(u) && Lasting(s)
    ensures var after := UpsertRelation(cfg, s, u).0;
            && after.entities == s.entities && Lasting(after)
            && (forall t :: t != u.Triple() ==> SameAt(after.relations, s.relations, t))
            && if AdmitRelation(s, u).None?
                  && (u.Triple() in s.relations ==> AtLeast(RelationOf(u, 0), s.relations[u.Triple()])) then
                 u.Triple() in after.relations && Content(after.relations[u.Triple()]) == RelationOf(u, 0)
               else SameAt(after.relations, s.relations, u.Triple())
  {
    hide RelationAllowed, UpsertRelation, AdmitRelation;
    PlainArbitration(s, u);
    RelateEffect(cfg, s, u);
    RefusedOnlyFor(cfg, s, u);
  }

  lemma PlainArbitration(s: Plane, u: RelationUpdate)
    requires Plain(u) && Lasting(s)
    ensures ArbitrateRelation(s, u).None? <==>
            (u.Triple() in s.relations ==> AtLeast(RelationOf(u, 0), s.relations[u.Triple()]))
  {
  }

  lemma RefusedOnlyFor(cfg: PlaneConfig, s: Plane, u: RelationUpdate)
    ensures UpsertRelation(cfg, s, u).1.accepted <==>
            !s.Seen(u.idempotencyKey) && AdmitRelation(s, u).None? && ArbitrateRelation(s, u).None?
  {
    hide RelationAllowed, Arbitrate, AdmitRelation;
  }

  /** Each triple ends up with its lexicographically greatest (authority, timestamp) write. */
  lemma {:induction false} GreatestWriteWins(cfg: PlaneConfig, s: Plane, ws: seq<RelationUpdate>, t: Triple)
    requires AllPlain(ws) && Lasting(s)
    ensures var after := UpsertAllRelations(cfg, s, ws).0;
            after.entities == s.entities && Lasting(after) && HoldsGreatest(s, ws, t, after.relations)
  {
    hide AdmitRelation, UpsertRelation;
    if ws != [] {
      var front, w := ws[..|ws| - 1], ws[|ws| - 1];
      GreatestWriteWins(cfg, s, front, t);
      var before := UpsertAllRelations(cfg, s, front).0;
      PlainWriteEffect(cfg, before, w);
      SameEntitiesSameAdmission(before, s, w);
      var after := UpsertAllRelations(cfg, s, ws).0;
      assert after == UpsertRelation(cfg, before, w).0;
      ExtendGreatest(s, front, w, t, before.relations, after.relations);
      assert front + [w] == ws;
    }
  }

  lemma SameEntitiesSameAdmission(a: Plane, b: Plane, u: RelationUpdate)
    requires a.entities == b.entities
    ensures AdmitRelation(a, u) == AdmitRelation(b, u)
  {
  }

  lemma ExtendGreatest(
      s: Plane, front: seq<RelationUpdate>, w: RelationUpdate, t: Triple,
      before: map<Triple, GraphRelation>, after: map<Triple, GraphRelation>)
    requires HoldsGreatest(s, front, t, before)
    requires if Counts(s, w, t) && (t in before ==> AtLeast(RelationOf(w, 0), before[t])) then
               t in after && Content(after[t]) == RelationOf(w, 0)
             else SameAt(after, before, t)
    ensures HoldsGreatest(s, front + [w], t, after)
  {
    hide AdmitRelation;
    var ws := front + [w];
    assert forall i :: 0 <= i < |front| ==> ws[i] == front[i];
    assert ws[|front|] == w;
    if Counts(s, w, t) && (t in before ==> AtLeast(RelationOf(w, 0), before[t])) {
      assert Top(s, ws, t, |front|);
    } else if t in before && FromTop(s, front, t, Content(before[t])) {
      var i :| Top(s, front, t, i) && Content(before[t]) == RelationOf(front[i], 0);
      assert Top(s, ws, t, i);
    }
  }

  /** Two top writes of one triple that would store different relations. */
  predicate Contested(s: Plane, ws: seq<RelationUpdate>, t: Triple, i: int, j: int) {
    Top(s, ws, t, i) && Top(s, ws, t, j) && RelationOf(ws[i], 0) != RelationOf(ws[j], 0)
  }

  ghost predicate SameGraph(a: map<Triple, GraphRelation>, b: map<Triple, GraphRelation>) {
    a.Keys == b.Keys && forall t :: t in a ==> Content(a[t]) == Content(b[t])
  }

  ghost predicate OrderIndependent(cfg: PlaneConfig, s: Plane, ws: seq<RelationUpdate>) {
    forall other: seq<RelationUpdate> :: multiset(other) == multiset(ws) ==>
      SameGraph(UpsertAllRelations(cfg, s, other).0.relations, UpsertAllRelations(cfg, s, ws).0.relations)
  }

  lemma PermutationMembers(a: seq<RelationUpdate>, b: seq<RelationUpdate>, i: nat) returns (j: nat)
    requires multiset(a) == multiset(b) && i < |a|
    ensures j < |b| && b[j] == a[i]
  {
    assert a[i] in multiset(b);
    j :| j < |b| && b[j] == a[i];
  }

  lemma FromTopPermutes(
      s: Plane, a: seq<RelationUpdate>, b: seq<RelationUpdate>, t: Triple, content: GraphRelation)
    requires multiset(a) == multiset(b) && FromTop(s, a, t, content)
    ensures FromTop(s, b, t, content)
  {
    hide AdmitRelation;
    var i :| Top(s, a, t, i) && content == RelationOf(a[i], 0);
    var j := PermutationMembers(a, b, i);
    forall k | 0 <= k < |b| && Counts(s, b[k], t)
      ensures AtLeast(content, RelationOf(b[k], 0))
    {
      var l := PermutationMembers(b, a, k);
    }
    assert Top(s, b, t, j);
  }

  lemma UntouchedPermutes(s: Plane, a: seq<RelationUpdate>, b: seq<RelationUpdate>, t: Triple)
    requires multiset(a) == multiset(b) && Untouched(s, a, t)
    ensures Untouched(s, b, t)
  {
    hide AdmitRelation;
    forall k | 0 <= k < |b| ensures !Counts(s, b[k], t) {
      var l := PermutationMembers(b, a, k);
    }
  }

  lemma PlainPermutes(a: seq<RelationUpdate>, b: seq<RelationUpdate>)
    requires multiset(a) == multiset(b) && AllPlain(a)
    ensures AllPlain(b)
  {
    forall k | 0 <= k < |b| ensures Plain(b[k]) {
      var l := PermutationMembers(b, a, k);
    }
  }

  lemma UncontestedAgrees(cfg: PlaneConfig, s: Plane, a: seq<RelationUpdate>, b: seq<RelationUpdate>, t: Triple)
    requires AllPlain(a) && Lasting(s) && multiset(a) == multiset(b)
    requires forall i, j :: !Contested(s, a, t, i, j)
    ensures var x, y := UpsertAllRelations(cfg, s, a).0.relations, UpsertAllRelations(cfg, s, b).0.relations;
            (t in x <==> t in y) && (t in x ==> Content(x[t]) == Content(y[t]))
  {
    hide AdmitRelation, UpsertAllRelations;
    PlainPermutes(a, b);
    GreatestWriteWins(cfg, s, a, t);
    GreatestWriteWins(cfg, s, b, t);
    if Untouched(s, a, t) {
      UntouchedPermutes(s, a, b, t);
    } else {
      if Untouched(s, b, t) {
        UntouchedPermutes(s, b, a, t);
      }
      var y := UpsertAllRelations(cfg, s, b).0.relations;
      if FromTop(s, b, t, Content(y[t])) {
        FromTopPermutes(s, b, a, t, Content(y[t]));
      }
      var x := UpsertAllRelations(cfg, s, a).0.relations;
      if FromTop(s, a, t, Content(x[t])) {
        FromTopPermutes(s, a, b, t, Content(x[t]));
        var i :| Top(s, a, t, i) && Content(x[t]) == RelationOf(a[i], 0);
        if j :| Top(s, a, t, j) && Content(y[t]) == RelationOf(a[j], 0) {
          assert !Contested(s, a, t, i, j);
        }
      }
    }
  }

  lemma TopDeliveredLastStays(cfg: PlaneConfig, s: Plane, ws: seq<RelationUpdate>, t: Triple, i: int)
    returns (other: seq<RelationUpdate>)
    requires AllPlain(ws) && Lasting(s) && Top(s, ws, t, i)
    ensures multiset(other) == multiset(ws)
    ensures var after := UpsertAllRelations(cfg, s, other).0.relations;
            t in after && Content(after[t]) == RelationOf(ws[i], 0)
  {
    hide AdmitRelation, UpsertRelation, Beaten;
    var front := ws[..i] + ws[i + 1..];
    other := front + [ws[i]];
    assert ws == ws[..i] + [ws[i]] + ws[i + 1..];
    assert other[..|other| - 1] == front;
    PlainPermutes(ws, other);
    assert forall k :: 0 <= k < |front| ==> front[k] == other[k];
    GreatestWriteWins(cfg, s, front, t);
    var before := UpsertAllRelations(cfg, s, front).0;
    PlainWriteEffect(cfg, before, ws[i]);
    SameEntitiesSameAdmission(before, s, ws[i]);
    TopOutranksOutcome(s, ws, front, t, i, before.relations);
  }

  lemma TopOutranksOutcome(
      s: Plane, ws: seq<RelationUpdate>, front: seq<RelationUpdate>, t: Triple, i: int,
      before: map<Triple, GraphRelation>)
    requires Top(s, ws, t, i) && HoldsGreatest(s, front, t, before)
    requires forall k :: 0 <= k < |front| ==> front[k] in ws
    ensures t in before ==> AtLeast(RelationOf(ws[i], 0), before[t])
  {
    hide AdmitRelation;
    if t in before && FromTop(s, front, t, Content(before[t])) {
      var k :| Top(s, front, t, k) && Content(before[t]) == RelationOf(front[k], 0);
      var l :| 0 <= l < |ws| && ws[l] == front[k];
    }
  }

  lemma TopsAgreeWhenOrderIndependent(cfg: PlaneConfig, s: Plane, ws: seq<RelationUpdate>, t: Triple, i: int, j: int)
    requires AllPlain(ws) && Lasting(s) && OrderIndependent(cfg, s, ws)
    requires Top(s, ws, t, i) && Top(s, ws, t, j)
    ensures RelationOf(ws[i], 0) == RelationOf(ws[j], 0)
  {
    hide UpsertAllRelations, Beaten, Counts;
    var a := TopDeliveredLastStays(cfg, s, ws, t, i);
    var b := TopDeliveredLastStays(cfg, s, ws, t, j);
    assert SameGraph(UpsertAllRelations(cfg, s, a).0.relations, UpsertAllRelations(cfg, s, ws).0.relations);
    assert SameGraph(UpsertAllRelations(cfg, s, b).0.relations, UpsertAllRelations(cfg, s, ws).0.relations);
  }

  /** Every order ends in the same graph exactly when no triple has two different top writes. */
  lemma ConvergesExactlyWhenUncontested(cfg: PlaneConfig, s: Plane, ws: seq<RelationUpdate>)
    requires AllPlain(ws) && Lasting(s)
    ensures OrderIndependent(cfg, s, ws) <==> forall t, i, j :: !Contested(s, ws, t, i, j)
  {
    hide AdmitRelation, UpsertAllRelations;
    if forall t, i, j :: !Contested(s, ws, t, i, j) {
      forall other: seq<RelationUpdate> | multiset(other) == multiset(ws)
        ensures SameGraph(UpsertAllRelations(cfg, s, other).0.relations, UpsertAllRelations(cfg, s, ws).0.relations)
      {
        var x, y := UpsertAllRelations(cfg, s, ws).0.relations, UpsertAllRelations(cfg, s, other).0.relations;
        forall t ensures (t in x <==> t in y) && (t in x ==> Content(x[t]) == Content(y[t])) {
          UncontestedAgrees(cfg, s, ws, other, t);
        }
      }
    }
    if OrderIndependent(cfg, s, ws) {
      forall t, i, j ensures !Contested(s, ws, t, i, j) {
        if Top(s, ws, t, i) && Top(s, ws, t, j) {
          TopsAgreeWhenOrderIndependent(cfg, s, ws, t, i, j);
        }
      }
    }
  }

  // ---- Batching ----

  function DeliverBatches(cfg: PlaneConfig, s: Plane, batches: seq<seq<RelationUpdate>>): Plane {
    if batches == [] then s
    else UpsertAllRelations(cfg, DeliverBatches(cfg, s, batches[..|batches| - 1]), batches[|batches| - 1]).0
  }

  function Flatten(batches: seq<seq<RelationUpdate>>): seq<RelationUpdate> {
    if batches == [] then [] else Flatten(batches[..|batches| - 1]) + batches[|batches| - 1]
  }

  lemma {:induction false} BatchesCompose(cfg: PlaneConfig, s: Plane, a: seq<RelationUpdate>, b: seq<RelationUpdate>)
    ensures UpsertAllRelations(cfg, s, a + b).0 == UpsertAllRelations(cfg, UpsertAllRelations(cfg, s, a).0, b).0
  {
    hide UpsertRelation;
    if b == [] {
      assert a + b == a;
    } else {
      BatchesCompose(cfg, s, a, b[..|b| - 1]);
      assert (a + b)[..|a + b| - 1] == a + b[..|b| - 1];
    }
  }

  lemma {:induction false} BatchingIsIrrelevant(cfg: PlaneConfig, s: Plane, batches: seq<seq<RelationUpdate>>)
    ensures DeliverBatches(cfg, s, batches) == UpsertAllRelations(cfg, s, Flatten(batches)).0
  {
    hide UpsertRelation;
    if batches != [] {
      BatchingIsIrrelevant(cfg, s, batches[..|batches| - 1]);
      BatchesCompose(cfg, s, Flatten(batches[..|batches| - 1]), batches[|batches| - 1]);
    }
  }

  /** Any way of ordering and batching the same uncontested writes ends in the same graph. */
  lemma AnyOrderAnyBatching(
      cfg: PlaneConfig, s: Plane, a: seq<seq<RelationUpdate>>, b: seq<seq<RelationUpdate>>)
    requires AllPlain(Flatten(a)) && Lasting(s)
    requires multiset(Flatten(a)) == multiset(Flatten(b))
    requires forall t, i, j :: !Contested(s, Flatten(a), t, i, j)
    ensures SameGraph(DeliverBatches(cfg, s, b).relations, DeliverBatches(cfg, s, a).relations)
  {
    hide UpsertAllRelations, Flatten, Contested;
    BatchingIsIrrelevant(cfg, s, a);
    BatchingIsIrrelevant(cfg, s, b);
    ConvergesExactlyWhenUncontested(cfg, s, Flatten(a));
  }
}
