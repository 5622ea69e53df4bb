// The event store behind the scheduler: epoch/sequence ordering, snapshots, and recorded routing decisions.

module StateStore {
  import opened Basics
  import opened SchedulerTypes

  type StateKey = (string, string)

  /** Event order: epochs first, then sequence numbers. */
  type Order = (int, int)

  const UNTRACKED: Order := (-1, -1)

  predicate Before(a: Order, b: Order) {
    a.0 < b.0 || (a.0 == b.0 && a.1 < b.1)
  }

  datatype Header = Header(
    stateId: string, sessionId: string, taskId: string, turnId: int, stepId: string,
    requestId: string, attemptId: string, parentStepId: string, traceId: string,
    epoch: int, sequenceNumber: int, updatedAt: int, updateSource: string, dirtyFields: set<string>)
  {
    function Order(): Order {
      (epoch, sequenceNumber)
    }
  }

  datatype RoutingHistory = RoutingHistory(
    currentTier: string, currentModel: string, currentEndpoint: string, currentReplica: string,
    stableSteps: int, failureStreak: int, escalationCount: int,
    lastTierChange: Option<int>, lastChangeReason: Option<DecisionReason>)

  /** `body` stands for every section that only events write. */
  datatype AgentState<B> = AgentState(
    header: Header,
    history: RoutingHistory,
    selected: TargetKey,
    preferredEndpoint: string, preferredReplica: string,
    decisions: seq<RoutingDecision>,
    body: B)

  datatype Event<P> = Event(
    sessionId: string, taskId: string, turnId: int, stepId: string,
    requestId: string, attemptId: string, parentStepId: string, traceId: string,
    source: string, observedAt: int, epoch: int, sequence: int,
    payload: P, payloadKeys: set<string>)
  {
    function Key(): StateKey {
      (sessionId, taskId)
    }

    function Order(): Order {
      (epoch, sequence)
    }
  }

  /** What a brand-new state takes from outside: its id, the time, and empty sections. */
  datatype Birth<B> = Birth(stateId: string, at: int, body: B)

  datatype Store<B, P> = Store(
    states: map<StateKey, AgentState<B>>,
    lastOrder: map<StateKey, Order>,
    events: seq<Event<P>>)

  type Apply<!B, !P> = (AgentState<B>, Event<P>) -> AgentState<B>

  datatype AppendResult = AppendResult(accepted: bool, duplicate: bool, stale: bool, stateId: string, stateVersion: int)

  // ---- Event append ----

  function NewState<B>(key: StateKey, birth: Birth<B>): AgentState<B> {
    AgentState(
      Header(birth.stateId, key.0, key.1, 0, "", "", "", "", "", 0, 0, birth.at, "stateflow", {}),
      RoutingHistory("", "", "", "", 0, 0, 0, None, None), ("", "", ""), "", "", [], birth.body)
  }

  function StateOr<B, P>(s: Store<B, P>, key: StateKey, birth: Birth<B>): AgentState<B> {
    if key in s.states then s.states[key] else NewState(key, birth)
  }

  function Tracked<B, P>(s: Store<B, P>, key: StateKey): Order {
    if key in s.lastOrder then s.lastOrder[key] else UNTRACKED
  }

  /** Events without a positive sequence number get the next one of their epoch, or the first of another. */
  function Stamp<P>(last: Order, e: Event<P>): Event<P> {
    if e.sequence > 0 then e
    else e.(sequence := if e.epoch == last.0 then last.1 + 1 else 1)
  }

  function StampHeader<P>(h: Header, e: Event<P>): Header {
    h.(sessionId := e.sessionId, taskId := e.taskId,
       turnId := MaxInt(h.turnId, e.turnId),
       stepId := if e.stepId != "" then e.stepId else h.stepId,
       requestId := if e.requestId != "" then e.requestId else h.requestId,
       attemptId := if e.attemptId != "" then e.attemptId else h.attemptId,
       parentStepId := if e.parentStepId != "" then e.parentStepId else h.parentStepId,
       traceId := if e.traceId != "" then e.traceId else h.traceId,
       epoch := e.epoch, sequenceNumber := e.sequence,
       updatedAt := e.observedAt, updateSource := e.source,
       dirtyFields := h.dirtyFields + e.payloadKeys)
  }

  function Applied<B, P>(apply: Apply<B, P>, state: AgentState<B>, e: Event<P>): AgentState<B> {
    var changed := apply(state, e);
    changed.(header := StampHeader(changed.header, e))
  }

  function Refused<B, P>(s: Store<B, P>, key: StateKey, duplicate: bool): AppendResult {
    if key in s.states then
      AppendResult(false, duplicate, !duplicate, s.states[key].header.stateId, s.states[key].header.sequenceNumber)
    else AppendResult(false, duplicate, !duplicate, "", 0)
  }

  function Append<B, P>(apply: Apply<B, P>, s: Store<B, P>, event: Event<P>, birth: Birth<B>)
    : (Store<B, P>, AppendResult, Event<P>)
  {
    var key, last := event.Key(), Tracked(s, event.Key());
    var e := Stamp(last, event);
    if e.Order() == last then (s, Refused(s, key, true), e)
    else if Before(e.Order(), last) then (s, Refused(s, key, false), e)
    else
      var state := Applied(apply, StateOr(s, key, birth), e);
      (Store(s.states[key := state], s.lastOrder[key := e.Order()], s.events + [e]),
       AppendResult(true, false, false, state.header.stateId, state.header.sequenceNumber), e)
  }

  function Touch<B, P>(s: Store<B, P>, key: StateKey, birth: Birth<B>): Store<B, P> {
    s.(states := s.states[key := StateOr(s, key, birth)])
  }

  // ---- Recording a routing decision ----

  /** The tier recorded for the selected target: its first trace entry's, or else the old tier. */
  function TraceTier(trace: seq<TraceEntry>, key: TargetKey, otherwise: string): string {
    if trace == [] then otherwise
    else if trace[0].key == key then trace[0].tier
    else TraceTier(trace[1..], key, otherwise)
  }

  function NextHistory(h: RoutingHistory, view: SchedulingView, d: RoutingDecision, at: int): RoutingHistory {
    var tier := TraceTier(d.trace, d.selected, h.currentTier);
    var same := h.currentTier == tier;
    RoutingHistory(
      tier, d.selected.0, d.selected.1, d.selected.2,
      if same then h.stableSteps + 1 else 1,
      view.failureStreak,
      if !same && h.currentTier != "" && tier != "" then h.escalationCount + 1 else h.escalationCount,
      if same then h.lastTierChange else Some(at),
      if same then h.lastChangeReason else Some(d.reason))
  }

  function DirtyByDecision(): set<string> {
    {"model", "scheduling.routing_history", "decision_history"}
  }

  function Decided<B>(state: AgentState<B>, view: SchedulingView, d: RoutingDecision, at: int): AgentState<B> {
    state.(
      history := NextHistory(state.history, view, d, at),
      selected := d.selected, preferredEndpoint := d.selected.1, preferredReplica := d.selected.2,
      decisions := LastN(state.decisions + [d], 1000),
      header := state.header.(
        sequenceNumber := state.header.sequenceNumber + 1, updatedAt := at, updateSource := "success-first-scheduler",
        dirtyFields := state.header.dirtyFields + DirtyByDecision()))
  }

  function Record<B, P>(s: Store<B, P>, view: SchedulingView, d: RoutingDecision, birth: Birth<B>, at: int)
    : Store<B, P>
  {
    var key := (view.sessionId, view.taskId);
    var state := Decided(StateOr(s, key, birth), view, d, at);
    s.(states := s.states[key := state], lastOrder := s.lastOrder[key := state.header.Order()])
  }

  /** The view's fields that come from the header and the routing history; `base` supplies all the others. */
  function BuildView<B>(base: SchedulingView, state: AgentState<B>): SchedulingView {
    var h := state.history;
    base.(
      sessionId := state.header.sessionId, taskId := state.header.taskId,
      sessionTurn := MaxInt(state.header.turnId, base.sessionTurn),
      failureStreak := MaxInt(base.failureStreak, h.failureStreak),
      preferredEndpoint := state.preferredEndpoint,
      preferredReplica := if state.preferredReplica != "" then state.preferredReplica else base.preferredReplica,
      currentModel := if h.currentModel != "" then h.currentModel else state.selected.0,
      currentTier := h.currentTier,
      stableSteps := h.stableSteps)
  }

  // ---- The store as it runs ----

  class InMemoryStateStore<B, P> {
    var states: map<StateKey, AgentState<B>>
    var lastOrder: map<StateKey, Order>
    var events: seq<Event<P>>
    const apply: Apply<B, P>

    function View(): Store<B, P>
      reads this
    {
      Store(states, lastOrder, events)
    }

    constructor (apply: Apply<B, P>)
      ensures View() == Store(map[], map[], []) && this.apply == apply
    {
      states, lastOrder, events := map[], map[], [];
      this.apply := apply;
    }

    method GetOrCreate(key: StateKey, birth: Birth<B>) returns (state: AgentState<B>)
      modifies `states
      ensures View() == Touch(old(View()), key, birth)
      ensures state == StateOr(old(View()), key, birth)
      ensures key in old(states) ==> states == old(states)
    {
      if key !in states {
        states := states[key := NewState(key, birth)];
      }
      state := states[key];
    }

    method AppendEvent(event: Event<P>, birth: Birth<B>) returns (result: AppendResult, stamped: Event<P>)
      modifies this
      ensures (View(), result, stamped) == Append(apply, old(View()), event, birth)
    {
      hide StampHeader, NewState;
      var key := event.Key();
      var last := if key in lastOrder then lastOrder[key] else UNTRACKED;
      stamped := event;
      if event.sequence <= 0 {
        stamped := event.(sequence := if event.epoch == last.0 then last.1 + 1 else 1);
      }
      if stamped.Order() == last || Before(stamped.Order(), last) {
        result := Refused(View(), key, stamped.Order() == last);
        return;
      }
      var state := if key in states then states[key] else NewState(key, birth);
      state := apply(state, stamped);
      state := state.(header := StampHeader(state.header, stamped));
      states := states[key := state];
      lastOrder := lastOrder[key := stamped.Order()];
      events := events + [stamped];
      result := AppendResult(true, false, false, state.header.stateId, state.header.sequenceNumber);
    }

    method RecordRoutingDecision(view: SchedulingView, d: RoutingDecision, birth: Birth<B>, at: int)
      modifies `states, `lastOrder
      ensures View() == Record(old(View()), view, d, birth, at)
    {
      hide NewState, LastN;
      var key := (view.sessionId, view.taskId);
      var state := if key in states then states[key] else NewState(key, birth);
      var h := state.history;
      var tier := FindTier(d, h.currentTier);
      var next := h.(currentModel := d.selected.0, currentEndpoint := d.selected.1, currentReplica := d.selected.2,
                     currentTier := tier, failureStreak := view.failureStreak);
      if h.currentTier == tier {
        next := next.(stableSteps := h.stableSteps + 1);
      } else {
        next := next.(stableSteps := 1, lastTierChange := Some(at), lastChangeReason := Some(d.reason));
        if h.currentTier != "" && tier != "" {
          next := next.(escalationCount := h.escalationCount + 1);
        }
      }
      assert next == NextHistory(h, view, d, at);
      hide NextHistory;
      state := state.(
        history := next,
        selected := d.selected, preferredEndpoint := d.selected.1, preferredReplica := d.selected.2,
        decisions := LastN(state.decisions + [d], 1000));
      state := state.(header := state.header.(
        sequenceNumber := state.header.sequenceNumber + 1, updatedAt := at, updateSource := "success-first-scheduler",
        dirtyFields := state.header.dirtyFields + DirtyByDecision()));
      states := states[key := state];
      lastOrder := lastOrder[key := (state.header.epoch, state.header.sequenceNumber)];
    }
  }

  method FindTier(d: RoutingDecision, otherwise: string) returns (tier: string)
    ensures tier == TraceTier(d.trace, d.selected, otherwise)
  {
    var i := 0;
    while i < |d.trace|
      invariant i <= |d.trace|
      invariant TraceTier(d.trace, d.selected, otherwise) == TraceTier(d.trace[i..], d.selected, otherwise)
    {
      if d.trace[i].key == d.selected {
        return d.trace[i].tier;
      }
      i := i + 1;
    }
    tier := otherwise;
  }
}
