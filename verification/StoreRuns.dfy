// Whole runs of the event store: what orders are accepted, and what redelivery changes.

module StoreRuns {
  import opened Basics
  import opened SchedulerTypes
  import opened Scheduler
  import opened StateStore

  /** `Decide` is the closed loop: build the view, schedule, and record what was decided. */
  datatype Op<B, P> =
    | Deliver(event: Event<P>, birth: Birth<B>)
    | GetOrCreate(key: StateKey, birth: Birth<B>)
    | RecordGiven(view: SchedulingView, decision: RoutingDecision, birth: Birth<B>, at: int)
    | Decide(env: Environment, base: SchedulingView, key: StateKey, targets: seq<TargetCandidate>,
             birth: Birth<B>, at: int)
  {
    function Key(): StateKey {
      match this
      case Deliver(e, _) => e.Key()
      case GetOrCreate(k, _) => k
      case RecordGiven(v, _, _, _) => (v.sessionId, v.taskId)
      case Decide(_, _, k, _, _, _) => k
    }
  }

  datatype Recorded = Recorded(view: SchedulingView, decision: RoutingDecision)

  /** The decision an operation records, if any. */
  function RecordedBy<B, P>(s: Store<B, P>, op: Op<B, P>): Option<Recorded> {
    match op
    case RecordGiven(view, d, _, _) => Some(Recorded(view, d))
    case Decide(env, base, key, targets, birth, _) =>
      var view := BuildView(base, StateOr(s, key, birth));
      (match Schedule(env, view, targets)
       case Ok(d) => Some(Recorded(view, d))
       case Err(_) => None)
    case _ => None
  }

  function Step<B, P>(apply: Apply<B, P>, s: Store<B, P>, op: Op<B, P>): Store<B, P> {
    match op
    case Deliver(event, birth) => Append(apply, s, event, birth).0
    case GetOrCreate(key, birth) => Touch(s, key, birth)
    case _ =>
      (match RecordedBy(s, op)
       case Some(r) => Record(s, r.view, r.decision, op.birth, op.at)
       case None => s)
  }

  function After<B, P>(apply: Apply<B, P>, ops: seq<Op<B, P>>, n: nat): Store<B, P>
    requires n <= |ops|
  {
    if n == 0 then Store(map[], map[], []) else Step(apply, After(apply, ops, n - 1), ops[n - 1])
  }

  // ---- The invariant ----

  /** Headers agree with the order tracker and the log is sorted below it, per session and task. */
  ghost predicate Valid<B, P>(s: Store<B, P>) {
    && (forall k :: k in s.lastOrder ==>
          k in s.states && s.states[k].header.Order() == s.lastOrder[k] && s.lastOrder[k].1 >= 0
          && s.lastOrder[k].0 >= -1)
    && (forall k :: k in s.states ==>
          (s.states[k].header.sessionId, s.states[k].header.taskId) == k
          && (k !in s.lastOrder ==> s.states[k].header.Order() == (0, 0)))
    && LogIsOrdered(s)
  }

  ghost predicate LogIsOrdered<B, P>(s: Store<B, P>) {
    && (forall i :: 0 <= i < |s.events| ==>
          s.events[i].Key() in s.lastOrder && !Before(s.lastOrder[s.events[i].Key()], s.events[i].Order()))
    && forall i, j :: 0 <= i < j < |s.events| && s.events[i].Key() == s.events[j].Key() ==>
         Before(s.events[i].Order(), s.events[j].Order())
  }

  /** One key gets a new order, state and possibly one logged event at that order. */
  lemma AdvanceKeepsLog<B, P>(s: Store<B, P>, after: Store<B, P>, key: StateKey, order: Order)
    requires LogIsOrdered(s) && Before(Tracked(s, key), order)
    requires after.lastOrder == s.lastOrder[key := order]
    requires after.events == s.events
             || exists e :: after.events == s.events + [e] && e.Key() == key && e.Order() == order
    ensures LogIsOrdered(after)
  {
  }

  lemma AdvanceKeepsValid<B, P>(s: Store<B, P>, after: Store<B, P>, key: StateKey, state: AgentState<B>)
    requires Valid(s) && after.states == s.states[key := state]
    requires after.lastOrder == s.lastOrder[key := state.header.Order()]
    requires (state.header.sessionId, state.header.taskId) == key && Before(Tracked(s, key), state.header.Order())
    requires state.header.epoch >= -1 && state.header.sequenceNumber >= 0
    requires after.events == s.events
             || exists e :: after.events == s.events + [e] && e.Key() == key && e.Order() == state.header.Order()
    ensures Valid(after)
  {
    AdvanceKeepsLog(s, after, key, state.header.Order());
    hide LogIsOrdered;
  }

  lemma AppendKeepsValid<B, P>(apply: Apply<B, P>, s: Store<B, P>, event: Event<P>, birth: Birth<B>)
    requires Valid(s)
    ensures Valid(Append(apply, s, event, birth).0)
  {
    hide LogIsOrdered, StateOr, Applied;
    var e := Stamp(Tracked(s, event.Key()), event);
    var after, state := Append(apply, s, event, birth).0, Applied(apply, StateOr(s, e.Key(), birth), e);
    assert Tracked(s, e.Key()).1 >= -1 && Tracked(s, e.Key()).0 >= -1;
    hide Valid;
    if Before(Tracked(s, e.Key()), e.Order()) {
      AppliedHeader(apply, StateOr(s, e.Key(), birth), e);
      AdvanceKeepsValid(s, after, e.Key(), state);
    }
  }

  lemma AppliedHeader<B, P>(apply: Apply<B, P>, state: AgentState<B>, e: Event<P>)
    ensures var h := Applied(apply, state, e).header; h.Order() == e.Order() && (h.sessionId, h.taskId) == e.Key()
  {
  }

  lemma NewOrKnown<B, P>(s: Store<B, P>, key: StateKey, birth: Birth<B>)
    requires Valid(s)
    ensures var h := StateOr(s, key, birth).header;
            && (h.sessionId, h.taskId) == key
            && h.Order() == (if key in s.lastOrder then s.lastOrder[key] else (0, 0))
            && Before(Tracked(s, key), (h.epoch, h.sequenceNumber + 1)) && h.sequenceNumber >= 0 && h.epoch >= -1
  {
    hide LogIsOrdered;
  }

  lemma DecidedHeader<B>(state: AgentState<B>, view: SchedulingView, d: RoutingDecision, at: int)
    ensures var h, was := Decided(state, view, d, at).header, state.header;
            h.Order() == (was.epoch, was.sequenceNumber + 1) && h.sessionId == was.sessionId && h.taskId == was.taskId
  {
    hide NextHistory, LastN, DirtyByDecision;
  }

  lemma RecordKeepsValid<B, P>(s: Store<B, P>, view: SchedulingView, d: RoutingDecision, birth: Birth<B>, at: int)
    requires Valid(s)
    ensures Valid(Record(s, view, d, birth, at))
    ensures var k := (view.sessionId, view.taskId); Before(Tracked(s, k), Tracked(Record(s, view, d, birth, at), k))
  {
    hide StateOr, Decided, Valid;
    var k, after := (view.sessionId, view.taskId), Record(s, view, d, birth, at);
    NewOrKnown(s, k, birth);
    DecidedHeader(StateOr(s, k, birth), view, d, at);
    AdvanceKeepsValid(s, after, k, after.states[k]);
  }

  lemma TouchKeepsValid<B, P>(s: Store<B, P>, key: StateKey, birth: Birth<B>)
    requires Valid(s)
    ensures Valid(Touch(s, key, birth))
  {
    hide LogIsOrdered, Before;
    if key in s.states {
      assert s.states[key := s.states[key]] == s.states;
    } else {
      SameLogIsOrdered(s, Touch(s, key, birth));
    }
  }

  lemma SameLogIsOrdered<B, P>(s: Store<B, P>, after: Store<B, P>)
    requires LogIsOrdered(s) && after.lastOrder == s.lastOrder && after.events == s.events
    ensures LogIsOrdered(after)
  {
  }

  lemma StepKeepsValid<B, P>(apply: Apply<B, P>, s: Store<B, P>, op: Op<B, P>)
    requires Valid(s)
    ensures Valid(Step(apply, s, op))
  {
    hide Append, Record, Touch, Valid, Schedule, BuildView, StateOr;
    match op
    case Deliver(event, birth) => AppendKeepsValid(apply, s, event, birth);
    case GetOrCreate(key, birth) => TouchKeepsValid(s, key, birth);
    case RecordGiven(_, _, _, _) | Decide(_, _, _, _, _, _) =>
      if RecordedBy(s, op).Some? {
        var r := RecordedBy(s, op).value;
        RecordKeepsValid(s, r.view, r.decision, op.birth, op.at);
      }
  }

  lemma {:induction false} ReachableStoresAreValid<B, P>(apply: Apply<B, P>, ops: seq<Op<B, P>>, n: nat)
    requires n <= |ops|
    ensures Valid(After(apply, ops, n))
  {
    hide Step;
    if n > 0 {
      ReachableStoresAreValid(apply, ops, n - 1);
      StepKeepsValid(apply, After(apply, ops, n - 1), ops[n - 1]);
    }
  }

  // ---- Ordering ----

  function AppendResultOf<B, P>(apply: Apply<B, P>, s: Store<B, P>, event: Event<P>, birth: Birth<B>): AppendResult {
    Append(apply, s, event, birth).1
  }

  /** A step leaves a session's order alone or strictly raises it. */
  lemma OrderOnlyRises<B, P>(apply: Apply<B, P>, s: Store<B, P>, op: Op<B, P>, k: StateKey)
    requires Valid(s)
    ensures var before, after := Tracked(s, k), Tracked(Step(apply, s, op), k);
            && (before == after || Before(before, after))
            && (op.Key() != k || op.GetOrCreate? ==> before == after)
            && (op.Deliver? && op.Key() == k ==>
                  if AppendResultOf(apply, s, op.event, op.birth).accepted then
                    after == Stamp(before, op.event).Order() && Before(before, after)
                  else before == after)
            && (RecordedBy(s, op).Some? && op.Key() == k ==> Before(before, after))
            && (op.Decide? && RecordedBy(s, op).None? ==> before == after)
  {
    hide Record, NewState, Applied, Schedule, BuildView;
    if (op.RecordGiven? || op.Decide?) && RecordedBy(s, op).Some? {
      var r := RecordedBy(s, op).value;
      RecordKeepsValid(s, r.view, r.decision, op.birth, op.at);
      RecordTouchesOneKey(s, r.view, r.decision, op.birth, op.at, k);
      RecordsOwnKey(s, op);
    }
  }

  lemma RecordTouchesOneKey<B, P>(
      s: Store<B, P>, view: SchedulingView, d: RoutingDecision, birth: Birth<B>, at: int, k: StateKey)
    ensures k != (view.sessionId, view.taskId) ==>
              var after := Record(s, view, d, birth, at);
              && Tracked(after, k) == Tracked(s, k)
              && (k in after.states <==> k in s.states) && (k in s.states ==> after.states[k] == s.states[k])
  {
    hide Decided;
  }

  lemma RecordsOwnKey<B, P>(s: Store<B, P>, op: Op<B, P>)
    requires Valid(s) && RecordedBy(s, op).Some?
    ensures var view := RecordedBy(s, op).value.view; (view.sessionId, view.taskId) == op.Key()
  {
    hide Schedule;
  }

  /** The order a decision for the session takes: the next version of its epoch, the first one if there is no order. */
  function Reserved<B, P>(s: Store<B, P>, key: StateKey): Order {
    if key in s.lastOrder then (s.lastOrder[key].0, s.lastOrder[key].1 + 1) else (0, 1)
  }

  lemma RecordTakesReserved<B, P>(s: Store<B, P>, view: SchedulingView, d: RoutingDecision, birth: Birth<B>, at: int)
    requires Valid(s)
    ensures var key := (view.sessionId, view.taskId);
            Tracked(Record(s, view, d, birth, at), key) == Reserved(s, key)
  {
    hide StateOr, Decided, LogIsOrdered;
    var key := (view.sessionId, view.taskId);
    NewOrKnown(s, key, birth);
    DecidedHeader(StateOr(s, key, birth), view, d, at);
  }

  /** The order that a step puts before session `k`: a delivered event's, stamped if it came without a sequence number,
      or the one a recorded decision reserves. */
  function Presented<B, P>(s: Store<B, P>, op: Op<B, P>, k: StateKey): Option<Order> {
    if op.Key() != k then None
    else if op.Deliver? then Some(Stamp(Tracked(s, k), op.event).Order())
    else if RecordedBy(s, op).Some? then Some(Reserved(s, k))
    else None
  }

  ghost predicate PresentedAt<B, P>(apply: Apply<B, P>, ops: seq<Op<B, P>>, i: nat, k: StateKey, o: Order) {
    i < |ops| && Presented(After(apply, ops, i), ops[i], k) == Some(o)
  }

  /** `t` is the largest order presented before step `n`, or none was above the start. */
  ghost predicate LargestPresented<B, P>(apply: Apply<B, P>, ops: seq<Op<B, P>>, n: nat, k: StateKey, t: Order) {
    && !Before(t, UNTRACKED)
    && (forall i: nat, o :: i < n && PresentedAt(apply, ops, i, k, o) ==> !Before(t, o))
    && (t == UNTRACKED || exists i: nat :: i < n && PresentedAt(apply, ops, i, k, t))
  }

  lemma LargestExtends<B, P>(apply: Apply<B, P>, ops: seq<Op<B, P>>, n: nat, k: StateKey, t: Order)
    requires n < |ops| && LargestPresented(apply, ops, n, k, t)
    ensures var o := Presented(After(apply, ops, n), ops[n], k);
            LargestPresented(apply, ops, n + 1, k, if o.Some? && Before(t, o.value) then o.value else t)
  {
    hide Presented, After;
    var o := Presented(After(apply, ops, n), ops[n], k);
    if o.Some? && Before(t, o.value) {
      assert PresentedAt(apply, ops, n, k, o.value);
    } else if t != UNTRACKED {
      var i: nat :| i < n && PresentedAt(apply, ops, i, k, t);
      assert i < n + 1;
    }
  }

  /** A step moves a session's order to what it presents exactly if that is larger. */
  lemma StepTakesLarger<B, P>(apply: Apply<B, P>, s: Store<B, P>, op: Op<B, P>, k: StateKey)
    requires Valid(s)
    ensures var o, t := Presented(s, op, k), Tracked(s, k);
            Tracked(Step(apply, s, op), k) == if o.Some? && Before(t, o.value) then o.value else t
  {
    hide Append, Record, Schedule, BuildView, AppendResultOf, LogIsOrdered;
    OrderOnlyRises(apply, s, op, k);
    if op.Deliver? && op.Key() == k {
      AcceptanceComparesOrders(apply, s, op.event, op.birth);
    } else if !op.Deliver? && op.Key() == k && RecordedBy(s, op).Some? {
      var r := RecordedBy(s, op).value;
      RecordsOwnKey(s, op);
      RecordTakesReserved(s, r.view, r.decision, op.birth, op.at);
    }
  }

  lemma {:induction false} TrackedIsLargestPresented<B, P>(apply: Apply<B, P>, ops: seq<Op<B, P>>, n: nat, k: StateKey)
    requires n <= |ops|
    ensures LargestPresented(apply, ops, n, k, Tracked(After(apply, ops, n), k))
  {
    hide Step, LargestPresented, Presented, Before;
    if n == 0 {
      NothingPresented(apply, ops, k);
    } else {
      TrackedIsLargestPresented(apply, ops, n - 1, k);
      ReachableStoresAreValid(apply, ops, n - 1);
      StepTakesLarger(apply, After(apply, ops, n - 1), ops[n - 1], k);
      LargestExtends(apply, ops, n - 1, k, Tracked(After(apply, ops, n - 1), k));
    }
  }

  lemma NothingPresented<B, P>(apply: Apply<B, P>, ops: seq<Op<B, P>>, k: StateKey)
    ensures LargestPresented(apply, ops, 0, k, UNTRACKED)
  {
  }

  lemma AcceptanceComparesOrders<B, P>(apply: Apply<B, P>, s: Store<B, P>, event: Event<P>, birth: Birth<B>)
    ensures var e := Stamp(Tracked(s, event.Key()), event);
            var r := AppendResultOf(apply, s, event, birth);
            && (r.accepted <==> Before(Tracked(s, event.Key()), e.Order()))
            && (r.duplicate <==> Tracked(s, event.Key()) == e.Order())
            && (r.stale <==> Before(e.Order(), Tracked(s, event.Key())))
            && (!r.accepted ==> Append(apply, s, event, birth).0 == s)
  {
    hide Applied;
  }

  /** Over any run, with decisions in between, exactly the strict running maxima of the presented orders are accepted. */
  lemma AcceptedAreRunningMaxima<B, P>(apply: Apply<B, P>, ops: seq<Op<B, P>>, n: nat)
    requires n < |ops| && ops[n].Deliver?
    ensures var s, k := After(apply, ops, n), ops[n].Key();
            var order := Stamp(Tracked(s, k), ops[n].event).Order();
            && (ops[n].event.sequence > 0 ==> order == ops[n].event.Order())
            && (AppendResultOf(apply, s, ops[n].event, ops[n].birth).accepted <==>
                  && Before(UNTRACKED, order)
                  && forall i: nat, o :: i < n && PresentedAt(apply, ops, i, k, o) ==> Before(o, order))
  {
    hide AppendResultOf, After, PresentedAt;
    TrackedIsLargestPresented(apply, ops, n, ops[n].Key());
    AcceptanceComparesOrders(apply, After(apply, ops, n), ops[n].event, ops[n].birth);
  }

  /** An event without a sequence number is never a duplicate; it is accepted exactly in the last epoch or later. */
  lemma AutoSequencedFollowsEpoch<B, P>(apply: Apply<B, P>, s: Store<B, P>, event: Event<P>, birth: Birth<B>)
    requires event.sequence <= 0
    ensures var r, last := AppendResultOf(apply, s, event, birth), Tracked(s, event.Key());
            && !r.duplicate
            && (r.accepted <==> event.epoch >= last.0)
            && (r.accepted && event.epoch == last.0 ==> r.stateVersion == last.1 + 1)
            && (r.accepted && event.epoch > last.0 ==> r.stateVersion == 1)
  {
    hide NewState;
    AcceptanceComparesOrders(apply, s, event, birth);
  }

  /** Only the very first event of a session, in epoch -1, can be stamped below 1. */
  lemma StampIsPositive<B, P>(s: Store<B, P>, event: Event<P>)
    requires Valid(s)
    ensures Stamp(Tracked(s, event.Key()), event).sequence <= 0 ==>
              event.Key() !in s.lastOrder && event.epoch == -1
  {
  }

  lemma {:induction false} LogOnlyGrows<B, P>(apply: Apply<B, P>, ops: seq<Op<B, P>>, i: nat, n: nat)
    requires i <= n <= |ops|
    ensures After(apply, ops, i).events <= After(apply, ops, n).events
    ensures forall k :: var a, b := Tracked(After(apply, ops, i), k), Tracked(After(apply, ops, n), k);
              a == b || Before(a, b)
  {
    hide Step;
    if i < n {
      LogOnlyGrows(apply, ops, i, n - 1);
      ReachableStoresAreValid(apply, ops, n - 1);
      StepExtendsLog(apply, After(apply, ops, n - 1), ops[n - 1]);
      forall k
        ensures var a, b := Tracked(After(apply, ops, i), k), Tracked(After(apply, ops, n), k);
                a == b || Before(a, b)
      {
        OrderOnlyRises(apply, After(apply, ops, n - 1), ops[n - 1], k);
      }
    }
  }

  lemma StepExtendsLog<B, P>(apply: Apply<B, P>, s: Store<B, P>, op: Op<B, P>)
    ensures s.events <= Step(apply, s, op).events
  {
    hide Applied, RecordedBy, StateOr, Decided;
  }

  /** The event as it was delivered at step `i`, or as it was stamped then, which is the form the log keeps. */
  predicate WasDelivered<B, P(==)>(apply: Apply<B, P>, ops: seq<Op<B, P>>, i: nat, e: Event<P>) {
    && i < |ops| && ops[i].Deliver?
    && (e == ops[i].event || e == Stamp(Tracked(After(apply, ops, i), ops[i].Key()), ops[i].event))
  }

  /** Once delivered, accepted or not, an event with a positive sequence number is behind its session's order. */
  lemma DeliveredIsBehind<B, P>(apply: Apply<B, P>, ops: seq<Op<B, P>>, i: nat, n: nat, e: Event<P>)
    requires i < n <= |ops| && WasDelivered(apply, ops, i, e) && e.sequence > 0
    ensures !Before(Tracked(After(apply, ops, n), e.Key()), e.Order())
  {
    hide Step, After;
    var s, op := After(apply, ops, i), ops[i];
    ReachableStoresAreValid(apply, ops, i);
    OrderOnlyRises(apply, s, op, e.Key());
    AcceptanceComparesOrders(apply, s, op.event, op.birth);
    AfterStep(apply, ops, i);
    LogOnlyGrows(apply, ops, i + 1, n);
  }

  lemma AfterStep<B, P>(apply: Apply<B, P>, ops: seq<Op<B, P>>, i: nat)
    requires i < |ops|
    ensures After(apply, ops, i + 1) == Step(apply, After(apply, ops, i), ops[i])
  {
  }

  /** Delivering any earlier event again, accepted before or refused, with anything in between, changes nothing exactly
      if it carries a positive sequence number or its epoch is over. */
  lemma RedeliveryChangesNothing<B, P>(
      apply: Apply<B, P>, ops: seq<Op<B, P>>, i: nat, n: nat, e: Event<P>, birth: Birth<B>)
    requires i < n <= |ops| && WasDelivered(apply, ops, i, e)
    ensures var s := After(apply, ops, n);
            Append(apply, s, e, birth).0 == s <==> e.sequence > 0 || Tracked(s, e.Key()).0 > e.epoch
  {
    hide Applied, After, WasDelivered;
    var s := After(apply, ops, n);
    AcceptanceComparesOrders(apply, s, e, birth);
    if e.sequence > 0 {
      DeliveredIsBehind(apply, ops, i, n, e);
    }
    var after := Append(apply, s, e, birth).0;
    assert after.events == s.events || |after.events| == |s.events| + 1;
  }

  /** A recorded decision makes the store refuse an event that it would have accepted exactly if the event claims the
      reserved order, or comes before it as the first event of a session without order. */
  lemma DecisionReservesVersion<B, P>(
      apply: Apply<B, P>, s: Store<B, P>, view: SchedulingView, d: RoutingDecision, at: int, e: Event<P>, birth: Birth<B>)
    requires Valid(s) && e.Key() == (view.sessionId, view.taskId)
    ensures var before, after := AppendResultOf(apply, s, e, birth),
                                 AppendResultOf(apply, Record(s, view, d, birth, at), e, birth);
            && (after.accepted ==> before.accepted)
            && (before.accepted && !after.accepted <==>
                  || (e.sequence > 0 && e.Order() == Reserved(s, e.Key()))
                  || (e.Key() !in s.lastOrder && e.epoch == -1))
            && (e.sequence > 0 && e.Order() == Reserved(s, e.Key()) ==> before.accepted && after.duplicate)
  {
    hide Record, Append, AppendResultOf, LogIsOrdered;
    AcceptanceComparesOrders(apply, s, e, birth);
    AcceptanceComparesOrders(apply, Record(s, view, d, birth, at), e, birth);
    RecordTakesReserved(s, view, d, birth, at);
  }

  /** So a decision recorded before the first event of a session swallows that event when it is numbered (0, 1). */
  lemma DecisionSwallowsFirstEvent<B, P>(
      apply: Apply<B, P>, view: SchedulingView, d: RoutingDecision, at: int, e: Event<P>, birth: Birth<B>)
    requires e.Key() == (view.sessionId, view.taskId) && e.Order() == (0, 1)
    ensures var empty: Store<B, P> := Store(map[], map[], []);
            && AppendResultOf(apply, empty, e, birth).accepted
            && AppendResultOf(apply, Record(empty, view, d, birth, at), e, birth).duplicate
            && Append(apply, Record(empty, view, d, birth, at), e, birth).0.events == []
  {
    hide Append, Decided, AppendResultOf, Applied;
    var empty: Store<B, P> := Store(map[], map[], []);
    DecisionReservesVersion(apply, empty, view, d, at, e, birth);
    AcceptanceComparesOrders(apply, Record(empty, view, d, birth, at), e, birth);
  }
}
