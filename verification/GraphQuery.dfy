// Breadth-first graph queries, and what they mean as bounded reachability.

module GraphQuery {
  import opened Basics
  import opened PlaneSpec

  /** The relations a query may follow; an empty type filter allows all of them. */
  function Edges(relations: set<Triple>, allowed: set<string>): set<Triple> {
    set t | t in relations && (allowed == {} || t.1 in allowed)
  }

  function Touching(edges: set<Triple>, refs: set<string>): set<Triple> {
    set t | t in edges && (t.0 in refs || t.2 in refs)
  }

  function Endpoints(edges: set<Triple>): set<string> {
    (set t | t in edges :: t.0) + (set t | t in edges :: t.2)
  }

  /** The refs at most `d` hops away from the roots, in either direction. */
  function Within(edges: set<Triple>, roots: set<string>, d: nat): set<string> {
    if d == 0 then roots
    else Within(edges, roots, d - 1) + Endpoints(Touching(edges, Within(edges, roots, d - 1)))
  }

  predicate Linked(edges: set<Triple>, a: string, b: string) {
    exists t :: t in edges && ((t.0 == a && t.2 == b) || (t.0 == b && t.2 == a))
  }

  ghost predicate IsWalk(edges: set<Triple>, walk: seq<string>) {
    walk != [] && forall i :: 0 < i < |walk| ==> Linked(edges, walk[i - 1], walk[i])
  }

  ghost predicate ReachableBy(edges: set<Triple>, roots: set<string>, d: nat, ref: string, walk: seq<string>) {
    && IsWalk(edges, walk)
    && |walk| <= d + 1
    && walk[0] in roots
    && walk[|walk| - 1] == ref
  }

  ghost predicate Reachable(edges: set<Triple>, roots: set<string>, d: nat, ref: string) {
    exists walk :: ReachableBy(edges, roots, d, ref, walk)
  }

  /** Bounded reachability, stated by walks, is what `Within` computes. */
  lemma {:induction false} WithinIsReachability(edges: set<Triple>, roots: set<string>, d: nat, ref: string)
    ensures ref in Within(edges, roots, d) <==> Reachable(edges, roots, d, ref)
  {
    if ref in Within(edges, roots, d) {
      var walk := WalkTo(edges, roots, d, ref);
    }
    forall walk | ReachableBy(edges, roots, d, ref, walk)
      ensures ref in Within(edges, roots, d)
    {
      WalkStaysWithin(edges, roots, d, ref, walk);
    }
  }

  lemma {:induction false} WalkTo(edges: set<Triple>, roots: set<string>, d: nat, ref: string)
    returns (walk: seq<string>)
    requires ref in Within(edges, roots, d)
    ensures ReachableBy(edges, roots, d, ref, walk)
  {
    if d == 0 {
      walk := [ref];
    } else if ref in Within(edges, roots, d - 1) {
      walk := WalkTo(edges, roots, d - 1, ref);
    } else {
      var near := Within(edges, roots, d - 1);
      var t :| t in Touching(edges, near) && (t.0 == ref || t.2 == ref);
      var previous := if t.0 == ref then t.2 else t.0;
      assert previous in near;
      var prefix := WalkTo(edges, roots, d - 1, previous);
      walk := prefix + [ref];
      assert Linked(edges, previous, ref);
    }
  }

  lemma {:induction false} WalkStaysWithin(
      edges: set<Triple>, roots: set<string>, d: nat, ref: string, walk: seq<string>)
    requires ReachableBy(edges, roots, d, ref, walk)
    ensures ref in Within(edges, roots, d)
  {
    if |walk| == 1 {
      WithinGrows(edges, roots, 0, d);
    } else {
      var prefix := walk[..|walk| - 1];
      var previous := prefix[|prefix| - 1];
      assert ReachableBy(edges, roots, d - 1, previous, prefix);
      WalkStaysWithin(edges, roots, d - 1, previous, prefix);
      assert Linked(edges, walk[|walk| - 2], walk[|walk| - 1]);
      var t :| t in edges && ((t.0 == previous && t.2 == ref) || (t.0 == ref && t.2 == previous));
      assert t in Touching(edges, Within(edges, roots, d - 1));
    }
  }

  lemma {:induction false} WithinGrows(edges: set<Triple>, roots: set<string>, d: nat, e: nat)
    requires d <= e
    ensures Within(edges, roots, d) <= Within(edges, roots, e)
  {
    if d < e {
      WithinGrows(edges, roots, d, e - 1);
    }
  }

  /** Once a level adds nothing, no later level does. */
  lemma {:induction false} WithinSettles(edges: set<Triple>, roots: set<string>, d: nat, e: nat)
    requires d <= e
    requires Endpoints(Touching(edges, Within(edges, roots, d))) <= Within(edges, roots, d)
    ensures Within(edges, roots, e) == Within(edges, roots, d)
  {
    hide Endpoints, Touching;
    if d < e {
      WithinSettles(edges, roots, d, e - 1);
    }
  }

  /** The relations a query of this depth returns. */
  function Included(edges: set<Triple>, roots: set<string>, depth: int): set<Triple> {
    if depth <= 0 then {} else Touching(edges, Within(edges, roots, depth - 1))
  }

  /** Every returned relation has both endpoints among the refs of the result. */
  lemma IncludedEndpointsWithin(edges: set<Triple>, roots: set<string>, depth: int, t: Triple)
    requires t in Included(edges, roots, depth)
    ensures t.0 in Within(edges, roots, MaxInt(0, depth)) && t.2 in Within(edges, roots, MaxInt(0, depth))
  {
    hide Touching, Within, Endpoints;
    var found := Touching(edges, Within(edges, roots, depth - 1));
    EndpointsOf(found, t);
    NextWithin(edges, roots, depth - 1);
  }

  lemma EndpointsOf(edges: set<Triple>, t: Triple)
    requires t in edges
    ensures t.0 in Endpoints(edges) && t.2 in Endpoints(edges)
  {
  }

  lemma NextWithin(edges: set<Triple>, roots: set<string>, d: nat)
    ensures Within(edges, roots, d + 1) == Within(edges, roots, d) + Endpoints(Touching(edges, Within(edges, roots, d)))
  {
    hide Touching, Endpoints;
  }

  /** What a search knows between levels: everything behind the frontier has been followed already. */
  ghost predicate SearchState(
      edges: set<Triple>, roots: set<string>, level: nat, frontier: set<string>, included: set<Triple>)
  {
    && frontier <= Within(edges, roots, level)
    && included == Included(edges, roots, level)
    && Touching(edges, Within(edges, roots, level) - frontier) <= included
    && Endpoints(included) <= Within(edges, roots, level)
  }

  lemma SearchStarts(edges: set<Triple>, roots: set<string>)
    ensures SearchState(edges, roots, 0, roots, {})
  {
  }

  lemma FrontierSuffices(
      edges: set<Triple>, roots: set<string>, level: nat, frontier: set<string>, included: set<Triple>)
    requires SearchState(edges, roots, level, frontier, included)
    ensures included + Touching(edges, frontier) == Included(edges, roots, level + 1)
    ensures Within(edges, roots, level + 1) == Within(edges, roots, level) + Endpoints(Touching(edges, frontier))
  {
    var visited, found := Within(edges, roots, level), Touching(edges, frontier);
    WithinGrows(edges, roots, MaxInt(0, level - 1), level);
    assert included + found == Touching(edges, visited) by {
      forall t | t in Touching(edges, visited)
        ensures t in included || t in found
      {
        if t !in found {
          assert t in Touching(edges, visited - frontier);
        }
      }
    }
    assert Endpoints(included + found) == Endpoints(included) + Endpoints(found);
  }

  lemma NextLevel(edges: set<Triple>, roots: set<string>, level: nat, frontier: set<string>, included: set<Triple>)
    requires SearchState(edges, roots, level, frontier, included)
    ensures var next := Endpoints(Touching(edges, frontier)) - Within(edges, roots, level);
            SearchState(edges, roots, level + 1, next, included + Touching(edges, frontier))
  {
    FrontierSuffices(edges, roots, level, frontier, included);
    var next := Endpoints(Touching(edges, frontier)) - Within(edges, roots, level);
    assert Within(edges, roots, level + 1) - next == Within(edges, roots, level);
  }

  lemma NothingTouches(allowed: set<string>, frontier: set<string>)
    ensures Touching(Edges({}, allowed), frontier) == {} && Endpoints({}) == {}
  {
  }

  lemma OneMoreRelation(relations: set<Triple>, allowed: set<string>, frontier: set<string>, t: Triple)
    ensures var found, more := Touching(Edges(relations, allowed), frontier), Touching(Edges(relations + {t}, allowed), frontier);
            if (allowed == {} || t.1 in allowed) && (t.0 in frontier || t.2 in frontier) then
              more == found + {t} && Endpoints(more) == Endpoints(found) + {t.0, t.2}
            else more == found
  {
    var found := Touching(Edges(relations, allowed), frontier);
    assert Endpoints(found + {t}) == Endpoints(found) + {t.0, t.2} by {
      EndpointsOf(found + {t}, t);
    }
  }

  /** One level: the allowed relations touching the frontier, and their endpoints. */
  method ExpandFrontier(relations: set<Triple>, allowed: set<string>, frontier: set<string>)
    returns (found: set<Triple>, next: set<string>)
    ensures found == Touching(Edges(relations, allowed), frontier)
    ensures next == Endpoints(found)
  {
    hide Touching, Endpoints, Edges;
    found, next := {}, {};
    NothingTouches(allowed, frontier);
    assert relations - relations == {};
    var todo := relations;
    while todo != {}
      invariant todo <= relations
      invariant found == Touching(Edges(relations - todo, allowed), frontier)
      invariant next == Endpoints(found)
      decreases |todo|
    {
      var t :| t in todo;
      assert relations - (todo - {t}) == (relations - todo) + {t};
      OneMoreRelation(relations - todo, allowed, frontier, t);
      todo := todo - {t};
      if allowed == {} || t.1 in allowed {
        if t.0 in frontier || t.2 in frontier {
          found, next := found + {t}, next + {t.0, t.2};
        }
      }
    }
    assert relations - todo == relations;
  }

  /** Expanding only the newest level, and stopping when it is empty, loses nothing. */
  method Explore(relations: set<Triple>, roots: set<string>, allowed: set<string>, depth: int)
    returns (visited: set<string>, included: set<Triple>)
    ensures visited == Within(Edges(relations, allowed), roots, MaxInt(0, depth))
    ensures included == Included(Edges(relations, allowed), roots, depth)
  {
    hide Touching, Edges, Endpoints, SearchState;
    ghost var edges := Edges(relations, allowed);
    SearchStarts(edges, roots);
    visited, included := roots, {};
    var frontier := roots;
    for level := 0 to MaxInt(0, depth)
      invariant visited == Within(edges, roots, level)
      invariant included == Included(edges, roots, level)
      invariant SearchState(edges, roots, level, frontier, included)
    {
      var found, next := ExpandFrontier(relations, allowed, frontier);
      NextLevel(edges, roots, level, frontier, included);
      FrontierSuffices(edges, roots, level, frontier, included);
      included := included + found;
      next := next - visited;
      assert Within(edges, roots, level + 1) == visited + next;
      if next == {} {
        WithinSettles(edges, roots, level, depth);
        WithinSettles(edges, roots, level, depth - 1);
        return;
      }
      visited := visited + next;
      frontier := next;
    }
  }
}
