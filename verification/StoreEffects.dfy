// What an accepted event and a recorded decision leave behind, and what the next view makes of it.

module StoreEffects {
  import opened Basics
  import opened SchedulerTypes
  import opened Scheduler
  import opened StateStore
  import opened StoreRuns
  import opened ClosedLoop

  // ---- Events ----

  /** A name that an event brings replaces the one before it; an empty one leaves it. */
  ghost predicate Follows(after: string, brought: string, before: string) {
    (|brought| > 0 ==> after == brought) && (|brought| == 0 ==> after == before)
  }

  /** The header after an event: the event's order, time, source and session, the latest turn, the names it brings, and
      its fields marked dirty besides those that were. */
  ghost predicate HeaderFollows<P>(before: Header, e: Event<P>, after: Header) {
    && after.stateId == before.stateId
    && (after.sessionId, after.taskId) == e.Key() && after.Order() == e.Order()
    && after.turnId in {before.turnId, e.turnId} && after.turnId >= before.turnId && after.turnId >= e.turnId
    && Follows(after.stepId, e.stepId, before.stepId)
    && Follows(after.requestId, e.requestId, before.requestId)
    && Follows(after.attemptId, e.attemptId, before.attemptId)
    && Follows(after.parentStepId, e.parentStepId, before.parentStepId)
    && Follows(after.traceId, e.traceId, before.traceId)
    && after.updatedAt == e.observedAt && after.updateSource == e.source
    && (forall field :: field in after.dirtyFields <==> field in before.dirtyFields || field in e.payloadKeys)
  }

  lemma StampedHeaderFollows<P>(before: Header, e: Event<P>)
    ensures HeaderFollows(before, e, StampHeader(before, e))
  {
  }

  /** The state an event finds: the session's, or a new one under the session's name with everything else empty. */
  ghost predicate Finds<B, P>(s: Store<B, P>, key: StateKey, birth: Birth<B>, state: AgentState<B>) {
    if key in s.states then state == s.states[key]
    else
      && (state.header.sessionId, state.header.taskId) == key && state.header.stateId == birth.stateId
      && state.header.Order() == (0, 0) && state.header.turnId == 0 && state.header.updatedAt == birth.at
      && state.header.updateSource == "stateflow" && state.header.dirtyFields == {}
      && [state.header.stepId, state.header.requestId, state.header.attemptId, state.header.parentStepId,
          state.header.traceId] == ["", "", "", "", ""]
      && state.history == HistoryOf(s, key) && state.selected == ("", "", "")
      && state.preferredEndpoint == "" && state.preferredReplica == "" && state.decisions == [] && state.body == birth.body
  }

  lemma StateIsFound<B, P>(s: Store<B, P>, key: StateKey, birth: Birth<B>)
    ensures Finds(s, key, birth, StateOr(s, key, birth))
  {
  }

  /** An accepted event changes its own session alone: its sections as the patch says, its header as the event says. */
  lemma EventIsApplied<B, P>(apply: Apply<B, P>, s: Store<B, P>, event: Event<P>, birth: Birth<B>)
    returns (found: AgentState<B>)
    ensures Finds(s, event.Key(), birth, found)
    ensures var ((after, r, e), k) := (Append(apply, s, event, birth), event.Key());
            && (r.accepted ==>
                  && k in after.states && after.events == s.events + [e]
                  && HeaderFollows(apply(found, e).header, e, after.states[k].header)
                  && after.states[k] == apply(found, e).(header := after.states[k].header)
                  && r.stateId == after.states[k].header.stateId && r.stateVersion == e.sequence)
            && (forall other :: other != k ==> (other in after.states <==> other in s.states))
            && (forall other :: other != k && other in s.states ==> after.states[other] == s.states[other])
  {
    hide StampHeader, StateOr, Stamp;
    found := StateOr(s, event.Key(), birth);
    StateIsFound(s, event.Key(), birth);
    var e := Stamp(Tracked(s, event.Key()), event);
    StampKeepsKey(Tracked(s, event.Key()), event);
    StampedHeaderFollows(apply(found, e).header, e);
  }

  lemma StampKeepsKey<P>(last: Order, event: Event<P>)
    ensures var e := Stamp(last, event);
            && e.Key() == event.Key() && e.(sequence := event.sequence) == event
            && (event.sequence > 0 ==> e == event)
  {
  }

  /** A refused event is answered with the state that stands, if there is one. */
  lemma RefusalNamesState<B, P>(apply: Apply<B, P>, s: Store<B, P>, event: Event<P>, birth: Birth<B>)
    ensures var ((after, r, e), k) := (Append(apply, s, event, birth), event.Key());
            !r.accepted ==>
              && after == s && r.duplicate == !r.stale
              && (k in s.states ==> r.stateId == s.states[k].header.stateId
                                    && r.stateVersion == s.states[k].header.sequenceNumber)
              && (k !in s.states ==> r.stateId == "" && r.stateVersion == 0)
  {
    hide Applied, StateOr, Stamp;
  }

  // ---- Decisions ----

  /** The first entry of a trace for a target. */
  ghost predicate FirstEntry(trace: seq<TraceEntry>, key: TargetKey, i: nat) {
    i < |trace| && trace[i].key == key && forall j :: 0 <= j < i ==> trace[j].key != key
  }

  lemma {:induction false} TierIsOfFirstEntry(trace: seq<TraceEntry>, key: TargetKey, otherwise: string)
    ensures forall i: nat :: FirstEntry(trace, key, i) ==> TraceTier(trace, key, otherwise) == trace[i].tier
    ensures (forall i: nat :: !FirstEntry(trace, key, i)) ==> TraceTier(trace, key, otherwise) == otherwise
  {
    if trace != [] {
      var rest := trace[1..];
      TierIsOfFirstEntry(rest, key, otherwise);
      if trace[0].key == key {
        assert FirstEntry(trace, key, 0);
      } else {
        forall i: nat ensures FirstEntry(rest, key, i) <==> FirstEntry(trace, key, i + 1) {
          EntryShifts(trace, key, i);
        }
        assert forall i: nat :: FirstEntry(trace, key, i) ==> i > 0 && FirstEntry(trace, key, i - 1 + 1);
      }
    }
  }

  lemma EntryShifts(trace: seq<TraceEntry>, key: TargetKey, i: nat)
    requires trace != [] && trace[0].key != key
    ensures FirstEntry(trace[1..], key, i) <==> FirstEntry(trace, key, i + 1)
  {
    assert forall j :: 0 <= j < |trace[1..]| ==> trace[1..][j] == trace[j + 1];
    assert forall j :: 0 < j < |trace| ==> trace[j] == trace[1..][j - 1];
  }

  /** The history after a decision: where it went, the tier it found there, how long that tier has lasted, and when and
      why it last changed. */
  ghost predicate HistoryFollows(
      h: RoutingHistory, view: SchedulingView, d: RoutingDecision, at: int, after: RoutingHistory)
  {
    var stays := after.currentTier == h.currentTier;
    && (after.currentModel, after.currentEndpoint, after.currentReplica) == d.selected
    && (forall i: nat :: FirstEntry(d.trace, d.selected, i) ==> after.currentTier == d.trace[i].tier)
    && ((forall i: nat :: !FirstEntry(d.trace, d.selected, i)) ==> stays)
    && after.failureStreak == view.failureStreak
    && (stays ==> after.stableSteps == h.stableSteps + 1 && after.lastTierChange == h.lastTierChange
                  && after.lastChangeReason == h.lastChangeReason)
    && (!stays ==> after.stableSteps == 1 && after.lastTierChange == Some(at) && after.lastChangeReason == Some(d.reason))
    && after.escalationCount - h.escalationCount
       == (if stays || h.currentTier == "" || after.currentTier == "" then 0 else 1)
  }

  lemma NextHistoryFollows(h: RoutingHistory, view: SchedulingView, d: RoutingDecision, at: int)
    ensures HistoryFollows(h, view, d, at, NextHistory(h, view, d, at))
  {
    hide TraceTier, FirstEntry;
    TierIsOfFirstEntry(d.trace, d.selected, h.currentTier);
  }

  /** A recorded decision leaves in its session's state what it selected, its history, itself as the newest decision, and
      the next version; the sections of events and all other sessions stay as they are. */
  lemma DecisionIsRemembered<B, P>(
      s: Store<B, P>, view: SchedulingView, d: RoutingDecision, birth: Birth<B>, at: int)
    returns (found: AgentState<B>)
    ensures Finds(s, (view.sessionId, view.taskId), birth, found)
    ensures var after, k := Record(s, view, d, birth, at), (view.sessionId, view.taskId);
            && k in after.states && after.events == s.events
            && after.states[k].selected == d.selected
            && (d.selected.0, after.states[k].preferredEndpoint, after.states[k].preferredReplica) == d.selected
            && HistoryFollows(found.history, view, d, at, after.states[k].history)
            && NewestLast(found.decisions, d, after.states[k].decisions, 1000)
            && DecidedHeaderFollows(found.header, after.states[k].header, at)
            && after.states[k].body == found.body
            && (forall other :: other != k ==> (other in after.states <==> other in s.states))
            && (forall other :: other != k && other in s.states ==> after.states[other] == s.states[other])
  {
    hide NextHistory, StateOr, LastN, HistoryFollows, NewestLast, DirtyByDecision, Finds;
    var k := (view.sessionId, view.taskId);
    found := StateOr(s, k, birth);
    StateIsFound(s, k, birth);
    NextHistoryFollows(found.history, view, d, at);
    LastNIsNewestLast(found.decisions, d, 1000);
    DecisionDirties();
  }

  ghost predicate DecidedHeaderFollows(before: Header, after: Header, at: int) {
    && after.sequenceNumber == before.sequenceNumber + 1 && after.updatedAt == at
    && after.updateSource == "success-first-scheduler"
    && (forall field :: field in after.dirtyFields <==>
          field in before.dirtyFields + {"model", "scheduling.routing_history", "decision_history"})
    && after == before.(sequenceNumber := after.sequenceNumber, updatedAt := after.updatedAt,
                        updateSource := after.updateSource, dirtyFields := after.dirtyFields)
  }

  lemma DecisionDirties()
    ensures DirtyByDecision() == {"model", "scheduling.routing_history", "decision_history"}
  {
  }

  // ---- The next view ----

  /** The session as the scheduler sees it is where a decision put it: its model, tier, endpoint and replica. */
  ghost predicate SeesChoice(base: SchedulingView, view: SchedulingView, selected: TargetKey, tier: string) {
    && view.currentModel == selected.0 && view.currentTier == tier && view.preferredEndpoint == selected.1
    && (selected.2 != "" ==> view.preferredReplica == selected.2)
    && (selected.2 == "" ==> view.preferredReplica == base.preferredReplica)
  }

  /** Events patch neither the routing history nor what was selected. */
  ghost predicate KeepsChoice<B(!new), P(!new)>(apply: Apply<B, P>) {
    forall state, e ::
      && apply(state, e).history == state.history && apply(state, e).selected == state.selected
      && apply(state, e).preferredEndpoint == state.preferredEndpoint
      && apply(state, e).preferredReplica == state.preferredReplica
  }

  ghost predicate HoldsChoice<B, P>(s: Store<B, P>, k: StateKey, selected: TargetKey, tier: string) {
    && k in s.states
    && (s.states[k].history.currentModel, s.states[k].preferredEndpoint, s.states[k].preferredReplica) == selected
    && s.states[k].selected == selected && s.states[k].history.currentTier == tier
  }

  ghost predicate RecordsFor<B, P>(s: Store<B, P>, op: Op<B, P>, k: StateKey) {
    op.Key() == k && RecordedBy(s, op).Some?
  }

  lemma StepHoldsChoice<B(!new), P(!new)>(
      apply: Apply<B, P>, s: Store<B, P>, op: Op<B, P>, k: StateKey, selected: TargetKey, tier: string)
    requires KeepsChoice(apply) && Valid(s) && !RecordsFor(s, op, k) && HoldsChoice(s, k, selected, tier)
    ensures HoldsChoice(Step(apply, s, op), k, selected, tier)
  {
    hide Schedule, BuildView, StampHeader, NextHistory, LastN, DirtyByDecision, Decided;
    if RecordedBy(s, op).Some? {
      RecordsOwnKey(s, op);
    }
  }

  lemma RecordHoldsChoice<B, P>(s: Store<B, P>, view: SchedulingView, d: RoutingDecision, birth: Birth<B>, at: int)
    ensures var after, k := Record(s, view, d, birth, at), (view.sessionId, view.taskId);
            k in after.states && HoldsChoice(after, k, d.selected, after.states[k].history.currentTier)
  {
    hide StateOr, LastN, DirtyByDecision, TraceTier;
  }

  lemma ViewSeesChoice<B, P>(
      s: Store<B, P>, k: StateKey, selected: TargetKey, tier: string, base: SchedulingView, birth: Birth<B>)
    requires HoldsChoice(s, k, selected, tier)
    ensures SeesChoice(base, BuildView(base, StateOr(s, k, birth)), selected, tier)
  {
  }

  /** Until the next decision is recorded, whatever happens in between, the session is seen where the last one put it. */
  lemma {:induction false} ViewPrefersLastDecision<B(!new), P(!new)>(
      apply: Apply<B, P>, ops: seq<Op<B, P>>, i: nat, n: nat, k: StateKey, base: SchedulingView, birth: Birth<B>)
    returns (tier: string)
    requires KeepsChoice(apply) && i < n <= |ops| && RecordsFor(After(apply, ops, i), ops[i], k)
    requires forall j :: i < j < n ==> !RecordsFor(After(apply, ops, j), ops[j], k)
    ensures var d := RecordedBy(After(apply, ops, i), ops[i]).value.decision;
            && tier == HistoryOf(After(apply, ops, i + 1), k).currentTier
            && HoldsChoice(After(apply, ops, n), k, d.selected, tier)
            && SeesChoice(base, BuildView(base, StateOr(After(apply, ops, n), k, birth)), d.selected, tier)
    decreases n
  {
    hide Step, RecordedBy, BuildView, StateOr, HoldsChoice, KeepsChoice, Valid, HistoryOf, RecordsFor;
    var d := LastRecorded(apply, ops, i, k);
    if n == i + 1 {
      tier := RecordedStepHolds(apply, ops, i, k);
    } else {
      tier := ViewPrefersLastDecision(apply, ops, i, n - 1, k, base, birth);
      ReachableStoresAreValid(apply, ops, n - 1);
      StepHoldsChoice(apply, After(apply, ops, n - 1), ops[n - 1], k, d.selected, tier);
    }
    ViewSeesChoice(After(apply, ops, n), k, d.selected, tier, base, birth);
  }

  lemma LastRecorded<B, P>(apply: Apply<B, P>, ops: seq<Op<B, P>>, i: nat, k: StateKey) returns (d: RoutingDecision)
    requires i < |ops| && RecordsFor(After(apply, ops, i), ops[i], k)
    ensures RecordedBy(After(apply, ops, i), ops[i]).Some?
    ensures d == RecordedBy(After(apply, ops, i), ops[i]).value.decision
  {
    d := RecordedBy(After(apply, ops, i), ops[i]).value.decision;
  }

  lemma RecordedStepHolds<B, P>(apply: Apply<B, P>, ops: seq<Op<B, P>>, i: nat, k: StateKey) returns (tier: string)
    requires i < |ops| && RecordsFor(After(apply, ops, i), ops[i], k)
    ensures RecordedBy(After(apply, ops, i), ops[i]).Some?
    ensures tier == HistoryOf(After(apply, ops, i + 1), k).currentTier
    ensures HoldsChoice(After(apply, ops, i + 1), k,
                        RecordedBy(After(apply, ops, i), ops[i]).value.decision.selected, tier)
  {
    hide RecordedBy, HoldsChoice, Record, Valid;
    var s, op := After(apply, ops, i), ops[i];
    ReachableStoresAreValid(apply, ops, i);
    RecordsOwnKey(s, op);
    AfterStep(apply, ops, i);
    var r := RecordedBy(s, op).value;
    OnlySomeRecord(s, op);
    RecordHoldsChoice(s, r.view, r.decision, op.birth, op.at);
    tier := HistoryOf(After(apply, ops, i + 1), k).currentTier;
  }

  lemma OnlySomeRecord<B, P>(s: Store<B, P>, op: Op<B, P>)
    ensures RecordedBy(s, op).Some? ==> op.RecordGiven? || op.Decide?
  {
    hide Schedule;
  }

  /** The rest of a view: the session's name, the later turn, the higher streak, and everything else as it is given. */
  lemma ViewIsBuiltFrom<B>(base: SchedulingView, state: AgentState<B>)
    ensures var view, h := BuildView(base, state), state.history;
            && (view.sessionId, view.taskId) == (state.header.sessionId, state.header.taskId)
            && view.sessionTurn >= base.sessionTurn && view.sessionTurn >= state.header.turnId
            && view.sessionTurn in {base.sessionTurn, state.header.turnId}
            && view.failureStreak >= base.failureStreak && view.failureStreak >= h.failureStreak
            && view.failureStreak in {base.failureStreak, h.failureStreak}
            && view.currentTier == h.currentTier && view.stableSteps == h.stableSteps
            && (h.currentModel == "" ==> view.currentModel == state.selected.0)
            && (h.currentModel != "" ==> view.currentModel == h.currentModel)
            && view.preferredEndpoint == state.preferredEndpoint
            && (state.preferredReplica != "" ==> view.preferredReplica == state.preferredReplica)
            && (state.preferredReplica == "" ==> view.preferredReplica == base.preferredReplica)
  {
  }
}
