// The resumable change feed: what a follower that polls with its last cursor receives.

module ChangeFeed {
  import opened Basics
  import opened Contracts
  import opened PlaneSpec
  import opened PlaneRuns
  import opened StatePlane

  datatype Subscription = Subscription(entityPrefix: string, keys: seq<string>)

  /** A plane, everything it ever announced, and one follower of the announcements. */
  datatype Session = Session(plane: Plane, log: seq<StateChange>, cursor: int, delivered: seq<StateChange>)

  datatype FeedStep = Write(op: Op) | Poll(limit: int)

  function Advance(cfg: PlaneConfig, sub: Subscription, x: Session, step: FeedStep): Session {
    match step
    case Write(op) =>
      x.(plane := Step(cfg, x.plane, op),
         log := if Acknowledged(cfg, x.plane, op) then x.log + [ChangeOf(cfg, x.plane, op)] else x.log)
    case Poll(limit) =>
      var batch := Changes(cfg, x.plane, x.cursor, sub.entityPrefix, sub.keys, limit);
      x.(cursor := if batch == [] then x.cursor else batch[|batch| - 1].cursor, delivered := x.delivered + batch)
  }

  function RunSession(cfg: PlaneConfig, sub: Subscription, x: Session, steps: seq<FeedStep>): Session {
    if steps == [] then x
    else Advance(cfg, sub, RunSession(cfg, sub, x, steps[..|steps| - 1]), steps[|steps| - 1])
  }

  function Start(cursor: int): Session {
    Session(EMPTY, [], cursor, [])
  }

  // ---- The log of announcements ----

  predicate Numbered(log: seq<StateChange>) {
    forall i :: 0 <= i < |log| ==> log[i].cursor == i + 1
  }

  /** The plane retains the newest announcements, and they are numbered by the revision. */
  predicate Faithful(cfg: PlaneConfig, x: Session) {
    Numbered(x.log) && |x.log| == x.plane.revision && x.plane.changes == LastN(x.log, cfg.maxChanges)
  }

  /** The wanted changes with cursors in (a, b]. */
  function Due(cfg: PlaneConfig, sub: Subscription, log: seq<StateChange>, a: int, b: int): seq<StateChange> {
    Filter(log, (c: StateChange) => a < c.cursor <= b && Wanted(cfg, c, sub.entityPrefix, sub.keys))
  }

  /** A wanted change the follower has not received and the plane no longer retains. */
  ghost predicate LostDue(cfg: PlaneConfig, sub: Subscription, x: Session) {
    Due(cfg, sub, x.log, x.cursor, |x.log| - |x.plane.changes|) != []
  }

  /** Received so far: exactly the wanted changes after the start and up to the cursor, once and in order. */
  predicate Complete(cfg: PlaneConfig, sub: Subscription, x: Session, start: int) {
    x.delivered == Due(cfg, sub, x.log, start, x.cursor)
  }

  /** In force in every session: nothing is delivered twice, out of order, unwanted or early. */
  predicate Orderly(cfg: PlaneConfig, sub: Subscription, x: Session, start: int) {
    && Faithful(cfg, x)
    && (x.cursor == start || start < x.cursor <= |x.log|)
    && (forall i, j :: 0 <= i < j < |x.delivered| ==> x.delivered[i].cursor < x.delivered[j].cursor)
    && (forall i :: 0 <= i < |x.delivered| ==>
                      && start < x.delivered[i].cursor <= x.cursor
                      && x.delivered[i] in x.log
                      && Wanted(cfg, x.delivered[i], sub.entityPrefix, sub.keys))
  }

  // ---- Filters over a numbered log ----

  lemma {:induction false} FilterSorted(s: seq<StateChange>, p: StateChange -> bool)
    requires forall i, j :: 0 <= i < j < |s| ==> s[i].cursor < s[j].cursor
    ensures forall i, j :: 0 <= i < j < |Filter(s, p)| ==> Filter(s, p)[i].cursor < Filter(s, p)[j].cursor
  {
    if s != [] {
      FilterSorted(s[..|s| - 1], p);
      var front := Filter(s[..|s| - 1], p);
      forall i | 0 <= i < |front| ensures front[i].cursor < s[|s| - 1].cursor {
        assert front[i] in s[..|s| - 1];
      }
    }
  }

  /** Cutting a filtered log after `k` elements is the same as filtering up to the last cursor kept. */
  lemma {:induction false} CutIsBound(s: seq<StateChange>, p: StateChange -> bool, k: nat)
    requires forall i, j :: 0 <= i < j < |s| ==> s[i].cursor < s[j].cursor
    requires 0 < k <= |Filter(s, p)|
    ensures Filter(s, p)[..k]
            == Filter(s, (c: StateChange) => p(c) && c.cursor <= Filter(s, p)[k - 1].cursor)
  {
    var front, last := s[..|s| - 1], s[|s| - 1];
    var kept := Filter(front, p);
    if k <= |kept| {
      CutIsBound(front, p, k);
      assert kept[k - 1] in front;
      assert kept[k - 1] == Filter(s, p)[k - 1];
      FilterSame(front, (c: StateChange) => p(c) && c.cursor <= kept[k - 1].cursor,
                 (c: StateChange) => p(c) && c.cursor <= Filter(s, p)[k - 1].cursor);
    } else {
      assert Filter(s, p)[k - 1] == last;
      FilterSame(front, p, (c: StateChange) => p(c) && c.cursor <= Filter(s, p)[k - 1].cursor);
    }
  }

  function DueTest(cfg: PlaneConfig, sub: Subscription, a: int, b: int): StateChange -> bool {
    (c: StateChange) => a < c.cursor <= b && Wanted(cfg, c, sub.entityPrefix, sub.keys)
  }

  /** Filtering a numbered log for (a, b] ignores what lies wholly outside that range. */
  lemma DueOfCut(cfg: PlaneConfig, sub: Subscription, log: seq<StateChange>, cut: nat, a: int, b: int)
    requires Numbered(log) && cut <= |log|
    ensures Due(cfg, sub, log, a, b) == Filter(log[..cut], DueTest(cfg, sub, a, b))
                                        + Filter(log[cut..], DueTest(cfg, sub, a, b))
    ensures b <= cut ==> Filter(log[cut..], DueTest(cfg, sub, a, b)) == []
    ensures cut <= a ==> Filter(log[..cut], DueTest(cfg, sub, a, b)) == []
  {
    hide Wanted;
    assert log == log[..cut] + log[cut..];
    FilterConcat(log[..cut], log[cut..], DueTest(cfg, sub, a, b));
    FilterSame(log, DueTest(cfg, sub, a, b),
               (c: StateChange) => a < c.cursor <= b && Wanted(cfg, c, sub.entityPrefix, sub.keys));
    if b <= cut {
      FilterNone(log[cut..], DueTest(cfg, sub, a, b));
    }
    if cut <= a {
      FilterNone(log[..cut], DueTest(cfg, sub, a, b));
    }
  }

  lemma CutIgnoresFarBounds(
      cfg: PlaneConfig, sub: Subscription, log: seq<StateChange>, cut: nat, a: int, b: int, c: int)
    requires Numbered(log) && cut <= |log| && a <= b <= c
    ensures cut <= b ==> Filter(log[..cut], DueTest(cfg, sub, a, c)) == Filter(log[..cut], DueTest(cfg, sub, a, b))
    ensures b <= cut ==> Filter(log[cut..], DueTest(cfg, sub, a, c)) == Filter(log[cut..], DueTest(cfg, sub, b, c))
  {
    hide Wanted;
    if cut <= b {
      FilterSame(log[..cut], DueTest(cfg, sub, a, c), DueTest(cfg, sub, a, b));
    }
    if b <= cut {
      FilterSame(log[cut..], DueTest(cfg, sub, a, c), DueTest(cfg, sub, b, c));
    }
  }

  lemma DueSplits(cfg: PlaneConfig, sub: Subscription, log: seq<StateChange>, a: int, b: int, c: int)
    requires Numbered(log) && a <= b <= c
    ensures Due(cfg, sub, log, a, c) == Due(cfg, sub, log, a, b) + Due(cfg, sub, log, b, c)
  {
    hide Due, DueTest, Filter;
    if 0 <= b <= |log| {
      DueOfCut(cfg, sub, log, b, a, c);
      DueOfCut(cfg, sub, log, b, a, b);
      DueOfCut(cfg, sub, log, b, b, c);
      CutIgnoresFarBounds(cfg, sub, log, b, a, b, c);
    } else {
      DueOutside(cfg, sub, log, a, b, c);
    }
  }

  lemma DueOutside(cfg: PlaneConfig, sub: Subscription, log: seq<StateChange>, a: int, b: int, c: int)
    requires Numbered(log) && a <= b <= c
    ensures b < 0 ==> Due(cfg, sub, log, a, b) == [] && Due(cfg, sub, log, a, c) == Due(cfg, sub, log, b, c)
    ensures b > |log| ==> Due(cfg, sub, log, b, c) == [] && Due(cfg, sub, log, a, c) == Due(cfg, sub, log, a, b)
  {
    hide Wanted;
    var ac := (x: StateChange) => a < x.cursor <= c && Wanted(cfg, x, sub.entityPrefix, sub.keys);
    var ab := (x: StateChange) => a < x.cursor <= b && Wanted(cfg, x, sub.entityPrefix, sub.keys);
    var bc := (x: StateChange) => b < x.cursor <= c && Wanted(cfg, x, sub.entityPrefix, sub.keys);
    if b < 0 {
      FilterNone(log, ab);
      FilterSame(log, ac, bc);
    } else if b > |log| {
      FilterNone(log, bc);
      FilterSame(log, ac, ab);
    }
  }

  /** Announcements after `b` do not affect what is due up to `b`. */
  lemma DueIgnoresLater(cfg: PlaneConfig, sub: Subscription, log: seq<StateChange>, c: StateChange, a: int, b: int)
    requires b < c.cursor || b <= a
    ensures Due(cfg, sub, log + [c], a, b) == Due(cfg, sub, log, a, b)
  {
    assert (log + [c])[..|log|] == log;
  }

  /** A poll sees the retained part of the log only. */
  lemma PollSees(cfg: PlaneConfig, sub: Subscription, x: Session)
    requires Faithful(cfg, x)
    ensures var seen := (c: StateChange) => c.cursor > x.cursor && Wanted(cfg, c, sub.entityPrefix, sub.keys);
            var evicted := |x.log| - |x.plane.changes|;
            && Filter(x.plane.changes, seen) == Due(cfg, sub, x.log, MaxInt(x.cursor, evicted), |x.log|)
            && (!LostDue(cfg, sub, x) ==> Filter(x.plane.changes, seen) == Due(cfg, sub, x.log, x.cursor, |x.log|))
  {
    hide Wanted, Due;
    var seen := (c: StateChange) => c.cursor > x.cursor && Wanted(cfg, c, sub.entityPrefix, sub.keys);
    var evicted := |x.log| - |x.plane.changes|;
    var low := MaxInt(x.cursor, evicted);
    var right := x.log[evicted..];
    assert right == x.plane.changes;
    DueOfCut(cfg, sub, x.log, evicted, low, |x.log|);
    FilterSame(right, seen, DueTest(cfg, sub, low, |x.log|));
    if x.cursor < evicted {
      DueSplits(cfg, sub, x.log, x.cursor, evicted, |x.log|);
    }
  }

  // ---- One poll ----

  function Batch(cfg: PlaneConfig, sub: Subscription, x: Session, limit: int): seq<StateChange> {
    Changes(cfg, x.plane, x.cursor, sub.entityPrefix, sub.keys, limit)
  }

  /** What a poll returns: the wanted changes from the oldest retained one to the last one returned. */
  lemma BatchIsDue(cfg: PlaneConfig, sub: Subscription, x: Session, limit: int)
    requires Faithful(cfg, x)
    ensures var batch := Batch(cfg, sub, x, limit);
            var low := MaxInt(x.cursor, |x.log| - |x.plane.changes|);
            && (batch != [] ==>
                  && low < batch[|batch| - 1].cursor <= |x.log|
                  && batch == Due(cfg, sub, x.log, low, batch[|batch| - 1].cursor))
            && (|batch| < limit ==> batch == Due(cfg, sub, x.log, low, |x.log|))
  {
    hide Wanted;
    PollSees(cfg, sub, x);
    var batch := Batch(cfg, sub, x, limit);
    var low := MaxInt(x.cursor, |x.log| - |x.plane.changes|);
    var due := (c: StateChange) => low < c.cursor <= |x.log| && Wanted(cfg, c, sub.entityPrefix, sub.keys);
    if batch != [] {
      CutDue(cfg, sub, x.log, low, |batch|);
    }
  }

  lemma CutDue(cfg: PlaneConfig, sub: Subscription, log: seq<StateChange>, low: int, k: nat)
    requires Numbered(log) && 0 < k <= |Due(cfg, sub, log, low, |log|)|
    ensures var all := Due(cfg, sub, log, low, |log|);
            low < all[k - 1].cursor <= |log| && all[..k] == Due(cfg, sub, log, low, all[k - 1].cursor)
  {
    hide Wanted;
    var due := (c: StateChange) => low < c.cursor <= |log| && Wanted(cfg, c, sub.entityPrefix, sub.keys);
    var all := Filter(log, due);
    var last := all[k - 1];
    assert last in all;
    CutIsBound(log, due, k);
    FilterSame(log, (c: StateChange) => due(c) && c.cursor <= all[k - 1].cursor,
               (c: StateChange) => low < c.cursor <= last.cursor && Wanted(cfg, c, sub.entityPrefix, sub.keys));
  }

  lemma NothingDueBackwards(cfg: PlaneConfig, sub: Subscription, log: seq<StateChange>, a: int, b: int)
    requires b <= a
    ensures Due(cfg, sub, log, a, b) == []
  {
    hide Wanted;
    FilterNone(log, (c: StateChange) => a < c.cursor <= b && Wanted(cfg, c, sub.entityPrefix, sub.keys));
  }

  /** A poll that returns something keeps the follower complete exactly when no due change was lost. */
  lemma PollCompleteExactlyWithoutLoss(cfg: PlaneConfig, sub: Subscription, x: Session, start: int, limit: int)
    requires Orderly(cfg, sub, x, start) && Complete(cfg, sub, x, start)
    requires Batch(cfg, sub, x, limit) != []
    ensures Complete(cfg, sub, Advance(cfg, sub, x, Poll(limit)), start) <==> !LostDue(cfg, sub, x)
  {
    hide Due, Wanted, Changes;
    var batch := Batch(cfg, sub, x, limit);
    var evicted := |x.log| - |x.plane.changes|;
    var low, top := MaxInt(x.cursor, evicted), batch[|batch| - 1].cursor;
    BatchIsDue(cfg, sub, x, limit);
    DueSplits(cfg, sub, x.log, start, x.cursor, top);
    DueSplits(cfg, sub, x.log, x.cursor, low, top);
    if x.cursor >= evicted {
      NothingDueBackwards(cfg, sub, x.log, x.cursor, evicted);
      NothingDueBackwards(cfg, sub, x.log, x.cursor, low);
    }
  }

  /** A short batch means that nothing wanted is outstanding. */
  lemma ShortBatchCatchesUp(cfg: PlaneConfig, sub: Subscription, x: Session, start: int, limit: int)
    requires Orderly(cfg, sub, x, start) && Complete(cfg, sub, x, start) && start <= |x.log|
    requires |Batch(cfg, sub, x, limit)| < limit && !LostDue(cfg, sub, x)
    ensures Advance(cfg, sub, x, Poll(limit)).delivered == Due(cfg, sub, x.log, start, |x.log|)
  {
    BatchIsDue(cfg, sub, x, limit);
    PollSees(cfg, sub, x);
    DueSplits(cfg, sub, x.log, start, x.cursor, |x.log|);
  }

  // ---- Whole sessions ----

  lemma WriteKeepsOrderly(cfg: PlaneConfig, sub: Subscription, x: Session, start: int, op: Op)
    requires cfg.Valid() && Orderly(cfg, sub, x, start)
    ensures Orderly(cfg, sub, Advance(cfg, sub, x, Write(op)), start)
    ensures Complete(cfg, sub, x, start) ==> Complete(cfg, sub, Advance(cfg, sub, x, Write(op)), start)
  {
    hide Step, Acknowledged;
    StepEffect(cfg, x.plane, op);
    if Acknowledged(cfg, x.plane, op) {
      var c := ChangeOf(cfg, x.plane, op);
      ChangeOfIsNext(cfg, x.plane, op);
      LastNAppend(x.log, cfg.maxChanges, c);
      DueIgnoresLater(cfg, sub, x.log, c, start, x.cursor);
    }
  }

  lemma ChangeOfIsNext(cfg: PlaneConfig, s: Plane, op: Op)
    requires Acknowledged(cfg, s, op)
    ensures ChangeOf(cfg, s, op).cursor == s.revision + 1
  {
    hide PublishOne, UpsertRelation, UpsertEntity, PublishEvent;
  }

  lemma DueIsOrderly(cfg: PlaneConfig, sub: Subscription, log: seq<StateChange>, a: int, b: int)
    requires Numbered(log)
    ensures var due := Due(cfg, sub, log, a, b);
            && (forall i, j :: 0 <= i < j < |due| ==> due[i].cursor < due[j].cursor)
            && forall i :: 0 <= i < |due| ==>
                             && a < due[i].cursor <= b && due[i] in log
                             && Wanted(cfg, due[i], sub.entityPrefix, sub.keys)
  {
    hide Wanted;
    var due := Due(cfg, sub, log, a, b);
    FilterSorted(log, (c: StateChange) => a < c.cursor <= b && Wanted(cfg, c, sub.entityPrefix, sub.keys));
    assert forall i :: 0 <= i < |due| ==> due[i] in due;
  }

  lemma PollKeepsOrderly(cfg: PlaneConfig, sub: Subscription, x: Session, start: int, limit: int)
    requires Orderly(cfg, sub, x, start)
    ensures Orderly(cfg, sub, Advance(cfg, sub, x, Poll(limit)), start)
  {
    hide Wanted, Due, Filter;
    var batch := Batch(cfg, sub, x, limit);
    BatchIsDue(cfg, sub, x, limit);
    if batch != [] {
      var low, top := MaxInt(x.cursor, |x.log| - |x.plane.changes|), batch[|batch| - 1].cursor;
      DueIsOrderly(cfg, sub, x.log, low, top);
    }
  }

  lemma {:induction false} SessionsAreOrderly(cfg: PlaneConfig, sub: Subscription, start: int, steps: seq<FeedStep>)
    requires cfg.Valid()
    ensures Orderly(cfg, sub, RunSession(cfg, sub, Start(start), steps), start)
  {
    hide Advance, Orderly;
    if steps == [] {
      assert Orderly(cfg, sub, Start(start), start) by {
        StartIsOrderly(cfg, sub, start);
      }
    } else {
      var x := RunSession(cfg, sub, Start(start), steps[..|steps| - 1]);
      SessionsAreOrderly(cfg, sub, start, steps[..|steps| - 1]);
      match steps[|steps| - 1]
      case Write(op) => WriteKeepsOrderly(cfg, sub, x, start, op);
      case Poll(limit) => PollKeepsOrderly(cfg, sub, x, start, limit);
    }
  }

  lemma StartIsOrderly(cfg: PlaneConfig, sub: Subscription, start: int)
    ensures Orderly(cfg, sub, Start(start), start) && Complete(cfg, sub, Start(start), start)
  {
  }

  /** No poll of the session finds a due change evicted. */
  ghost predicate NothingLost(cfg: PlaneConfig, sub: Subscription, start: int, steps: seq<FeedStep>) {
    forall k :: 0 <= k < |steps| && steps[k].Poll? ==>
      !LostDue(cfg, sub, RunSession(cfg, sub, Start(start), steps[..k]))
  }

  /** Under any interleaving of writes and polls, a follower that never lost a due change has all of them, once. */
  lemma {:induction false} ExactlyOnce(cfg: PlaneConfig, sub: Subscription, start: int, steps: seq<FeedStep>)
    requires cfg.Valid() && NothingLost(cfg, sub, start, steps)
    ensures Complete(cfg, sub, RunSession(cfg, sub, Start(start), steps), start)
  {
    hide Orderly, LostDue, Step, Acknowledged, Due, Changes;
    if steps == [] {
      StartIsOrderly(cfg, sub, start);
    } else {
      var n := |steps| - 1;
      var front := steps[..n];
      forall k | 0 <= k < |front| && front[k].Poll?
        ensures !LostDue(cfg, sub, RunSession(cfg, sub, Start(start), front[..k]))
      {
        assert front[..k] == steps[..k];
      }
      ExactlyOnce(cfg, sub, start, front);
      SessionsAreOrderly(cfg, sub, start, front);
      var x := RunSession(cfg, sub, Start(start), front);
      match steps[n]
      case Write(op) => WriteKeepsOrderly(cfg, sub, x, start, op);
      case Poll(limit) =>
        if Batch(cfg, sub, x, limit) != [] {
          PollCompleteExactlyWithoutLoss(cfg, sub, x, start, limit);
        }
    }
  }

  // ---- The streaming loop ----

  method Perform(plane: InMemoryStatePlane, op: Op)
    modifies plane
    ensures plane.View() == Step(plane.cfg, old(plane.View()), op)
  {
    match op
    case EntityOp(e, now) => var _ := plane.StoreEntity(e, now);
    case StateOp(u) => var _ := plane.PublishUpdate(u);
    case RelationOp(u) => var _ := plane.UpsertRelationUpdate(u);
    case EventOp(e) => var _ := plane.PublishStateEvent(e);
    case SnapshotOp(req, now, token) => var _ := plane.GetSnapshot(req, now, token);
  }

  function Writes(ops: seq<Op>): seq<FeedStep> {
    if ops == [] then [] else Writes(ops[..|ops| - 1]) + [Write(ops[|ops| - 1])]
  }

  /** Before each of the first `n` polls, the writes that other callers made meanwhile. */
  function Interleaving(writes: seq<seq<Op>>, n: nat, limit: int): seq<FeedStep>
    requires n <= |writes|
  {
    if n == 0 then [] else Interleaving(writes, n - 1, limit) + Writes(writes[n - 1]) + [Poll(limit)]
  }

  function BatchSize(requested: int): int {
    MaxInt(1, MinInt(if requested == 0 then 100 else requested, 1000))
  }

  lemma {:induction false} SessionsCompose(
      cfg: PlaneConfig, sub: Subscription, x: Session, a: seq<FeedStep>, b: seq<FeedStep>)
    ensures RunSession(cfg, sub, x, a + b) == RunSession(cfg, sub, RunSession(cfg, sub, x, a), b)
  {
    hide Advance;
    if b == [] {
      assert a + b == a;
    } else {
      SessionsCompose(cfg, sub, x, a, b[..|b| - 1]);
      assert (a + b)[..|a + b| - 1] == a + b[..|b| - 1];
    }
  }

  method PerformAll(plane: InMemoryStatePlane, ops: seq<Op>, ghost sub: Subscription, ghost x: Session)
    requires plane.View() == x.plane
    modifies plane
    ensures var after := RunSession(plane.cfg, sub, x, Writes(ops));
            plane.View() == after.plane && after.delivered == x.delivered && after.cursor == x.cursor
  {
    hide Step, Acknowledged, ChangeOf;
    assert ops[..0] == [];
    for i := 0 to |ops|
      invariant var after := RunSession(plane.cfg, sub, x, Writes(ops[..i]));
                plane.View() == after.plane && after.delivered == x.delivered && after.cursor == x.cursor
    {
      Perform(plane, ops[i]);
      assert ops[..i + 1][..i] == ops[..i];
      assert Writes(ops[..i + 1])[..|Writes(ops[..i])|] == Writes(ops[..i]);
    }
    assert ops[..|ops|] == ops;
  }

  method PollOnce(
      plane: InMemoryStatePlane, sub: Subscription, limit: int, sent: seq<StateChange>, after: int, ghost x: Session)
    returns (messages: seq<StateChange>, cursor: int)
    requires plane.View() == x.plane && sent == x.delivered && after == x.cursor
    ensures var y := RunSession(plane.cfg, sub, x, [Poll(limit)]);
            messages == y.delivered && cursor == y.cursor && plane.View() == y.plane
  {
    hide Changes;
    var batch := plane.ChangesAfter(after, sub.entityPrefix, sub.keys, limit);
    messages, cursor := sent, after;
    for i := 0 to |batch|
      invariant messages == sent + batch[..i]
      invariant cursor == if i == 0 then after else batch[i - 1].cursor
    {
      cursor := batch[i].cursor;
      messages := messages + [batch[i]];
    }
    assert RunSession(plane.cfg, sub, x, [Poll(limit)]) == Advance(plane.cfg, sub, x, Poll(limit)) by {
      assert [Poll(limit)][..0] == [];
    }
  }

  /** What a session receives does not depend on what was announced before it began. */
  lemma {:induction false} LogIsNotRead(cfg: PlaneConfig, sub: Subscription, x: Session, y: Session, steps: seq<FeedStep>)
    requires x.plane == y.plane && x.cursor == y.cursor && x.delivered == y.delivered
    ensures var a, b := RunSession(cfg, sub, x, steps), RunSession(cfg, sub, y, steps);
            a.plane == b.plane && a.cursor == b.cursor && a.delivered == b.delivered
  {
    hide Step, Acknowledged, ChangeOf, Changes;
    if steps != [] {
      LogIsNotRead(cfg, sub, x, y, steps[..|steps| - 1]);
    }
  }

  lemma {:induction false} WritesReachPlane(cfg: PlaneConfig, sub: Subscription, start: int, history: seq<Op>, n: nat)
    requires n <= |history|
    ensures var x := RunSession(cfg, sub, Start(start), Writes(history[..n]));
            x.plane == After(cfg, EMPTY, history, n) && x.cursor == start && x.delivered == []
  {
    hide Step, Acknowledged, ChangeOf;
    if n > 0 {
      WritesReachPlane(cfg, sub, start, history, n - 1);
      var longer := Writes(history[..n]);
      assert history[..n][..n - 1] == history[..n - 1];
      assert longer[..|longer| - 1] == Writes(history[..n - 1]);
    }
  }

  /** A follower that begins at a reachable plane receives what one present from the beginning would. */
  lemma JoiningLateIsTheSame(
      cfg: PlaneConfig, sub: Subscription, start: int, history: seq<Op>, steps: seq<FeedStep>)
    ensures var x := RunSession(cfg, sub, Session(After(cfg, EMPTY, history, |history|), [], start, []), steps);
            var y := RunSession(cfg, sub, Start(start), Writes(history) + steps);
            x.plane == y.plane && x.cursor == y.cursor && x.delivered == y.delivered
  {
    hide RunSession, Writes;
    WritesReachPlane(cfg, sub, start, history, |history|);
    assert history[..|history|] == history;
    SessionsCompose(cfg, sub, Start(start), Writes(history), steps);
    LogIsNotRead(cfg, sub, Session(After(cfg, EMPTY, history, |history|), [], start, []),
                 RunSession(cfg, sub, Start(start), Writes(history)), steps);
  }

  /** The messages are wanted changes after `start` from the whole log, in order and once each, and all of them up to
      the final cursor if no poll found a due change evicted. */
  ghost predicate Streamed(
      cfg: PlaneConfig, sub: Subscription, start: int, steps: seq<FeedStep>, messages: seq<StateChange>, cursor: int)
  {
    var log := RunSession(cfg, sub, Start(start), steps).log;
    && (forall i, j :: 0 <= i < j < |messages| ==> messages[i].cursor < messages[j].cursor)
    && (forall c :: c in messages ==>
          c in log && start < c.cursor <= cursor && Wanted(cfg, c, sub.entityPrefix, sub.keys))
    && (NothingLost(cfg, sub, start, steps) ==> messages == Due(cfg, sub, log, start, cursor))
  }

  lemma SessionsStream(cfg: PlaneConfig, sub: Subscription, start: int, history: seq<Op>, steps: seq<FeedStep>)
    requires cfg.Valid()
    ensures var x := RunSession(cfg, sub, Session(After(cfg, EMPTY, history, |history|), [], start, []), steps);
            Streamed(cfg, sub, start, Writes(history) + steps, x.delivered, x.cursor)
  {
    hide RunSession, NothingLost, Wanted, Due, Numbered, After;
    JoiningLateIsTheSame(cfg, sub, start, history, steps);
    var all := Writes(history) + steps;
    SessionsAreOrderly(cfg, sub, start, all);
    if NothingLost(cfg, sub, start, all) {
      ExactlyOnce(cfg, sub, start, all);
    }
  }

  /** The stream sends what the polling follower receives; without `follow` it polls once. On any reachable plane that
      means every wanted change after the requested cursor, once and in order. */
  method WatchState(
      plane: InMemoryStatePlane, afterCursor: int, requestedBatch: int, sub: Subscription, follow: bool,
      writes: seq<seq<Op>>)
    returns (messages: seq<StateChange>, cursor: int)
    modifies plane
    ensures var rounds := if follow then |writes| else MinInt(1, |writes|);
            var x := RunSession(plane.cfg, sub, Session(old(plane.View()), [], MaxInt(0, afterCursor), []),
                                Interleaving(writes, rounds, BatchSize(requestedBatch)));
            messages == x.delivered && cursor == x.cursor && plane.View() == x.plane
    ensures plane.cfg.Valid() ==>
              forall history :: old(plane.View()) == After(plane.cfg, EMPTY, history, |history|) ==>
                var rounds := if follow then |writes| else MinInt(1, |writes|);
                var polls := Interleaving(writes, rounds, BatchSize(requestedBatch));
                Streamed(plane.cfg, sub, MaxInt(0, afterCursor), Writes(history) + polls, messages, cursor)
  {
    hide RunSession, Writes, Streamed, After;
    cursor, messages := MaxInt(0, afterCursor), [];
    var batchSize := BatchSize(requestedBatch);
    ghost var cfg, start := plane.cfg, Session(plane.View(), [], cursor, []);
    ghost var x := start;
    EmptyRun(cfg, sub, start);
    for k := 0 to |writes|
      invariant x == RunSession(cfg, sub, start, Interleaving(writes, k, batchSize))
      invariant messages == x.delivered && cursor == x.cursor && plane.View() == x.plane
      invariant !follow ==> k == 0
    {
      ghost var before := Interleaving(writes, k, batchSize);
      SessionsCompose(cfg, sub, start, before, Writes(writes[k]));
      SessionsCompose(cfg, sub, start, before + Writes(writes[k]), [Poll(batchSize)]);
      PerformAll(plane, writes[k], sub, x);
      x := RunSession(cfg, sub, x, Writes(writes[k]));
      messages, cursor := PollOnce(plane, sub, batchSize, messages, cursor, x);
      x := RunSession(cfg, sub, x, [Poll(batchSize)]);
      if !follow {
        break;
      }
    }
    if cfg.Valid() {
      forall history | start.plane == After(cfg, EMPTY, history, |history|)
        ensures var rounds := if follow then |writes| else MinInt(1, |writes|);
                Streamed(cfg, sub, start.cursor, Writes(history) + Interleaving(writes, rounds, batchSize), messages, cursor)
      {
        var rounds := if follow then |writes| else MinInt(1, |writes|);
        SessionsStream(cfg, sub, start.cursor, history, Interleaving(writes, rounds, batchSize));
      }
    }
  }

  lemma EmptyRun(cfg: PlaneConfig, sub: Subscription, x: Session)
    ensures RunSession(cfg, sub, x, []) == x
  {
  }
}
