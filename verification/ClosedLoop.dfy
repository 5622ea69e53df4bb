// Deciding, recording and deciding again: hysteresis and failure memory over whole runs.

module ClosedLoop {
  import opened Basics
  import opened SchedulerTypes
  import opened Gates
  import opened Scheduler
  import opened StateStore
  import opened StoreRuns

  /** Events do not patch the routing history. */
  ghost predicate KeepsHistory<B(!new), P(!new)>(apply: Apply<B, P>) {
    forall state, e :: apply(state, e).history == state.history
  }

  function HistoryOf<B, P>(s: Store<B, P>, k: StateKey): RoutingHistory {
    if k in s.states then s.states[k].history else RoutingHistory("", "", "", "", 0, 0, 0, None, None)
  }

  /** The tier a step records for session `k`, if it records one. */
  function TierRecorded<B, P>(s: Store<B, P>, op: Op<B, P>, k: StateKey): Option<string> {
    if op.Key() != k then None
    else
      match RecordedBy(s, op)
      case None => None
      case Some(r) => Some(TraceTier(r.decision.trace, r.decision.selected, HistoryOf(s, k).currentTier))
  }

  /** The tiers recorded for session `k` in the first `n` steps, oldest first. */
  function Tiers<B, P>(apply: Apply<B, P>, ops: seq<Op<B, P>>, n: nat, k: StateKey): seq<string>
    requires n <= |ops|
  {
    if n == 0 then []
    else
      var earlier := Tiers(apply, ops, n - 1, k);
      match TierRecorded(After(apply, ops, n - 1), ops[n - 1], k)
      case None => earlier
      case Some(tier) => earlier + [tier]
  }

  /** The length of the run of equal tiers at the end. */
  function TrailingRun(tiers: seq<string>): nat {
    if |tiers| < 2 then |tiers|
    else if tiers[|tiers| - 1] == tiers[|tiers| - 2] then TrailingRun(tiers[..|tiers| - 1]) + 1
    else 1
  }

  /** Changes between two named tiers. */
  function Changes(tiers: seq<string>): nat {
    if |tiers| < 2 then 0
    else
      var newest, previous := tiers[|tiers| - 1], tiers[|tiers| - 2];
      Changes(tiers[..|tiers| - 1]) + if newest != previous && newest != "" && previous != "" then 1 else 0
  }

  lemma {:induction false} TrailingRunMeans(tiers: seq<string>)
    ensures TrailingRun(tiers) <= |tiers|
    ensures forall i :: |tiers| - TrailingRun(tiers) <= i < |tiers| ==> tiers[i] == tiers[|tiers| - 1]
    ensures TrailingRun(tiers) < |tiers| ==> tiers[|tiers| - TrailingRun(tiers) - 1] != tiers[|tiers| - 1]
  {
    if |tiers| >= 2 && tiers[|tiers| - 1] == tiers[|tiers| - 2] {
      TrailingRunMeans(tiers[..|tiers| - 1]);
    }
  }

  // ---- The recorded history is the run of decisions ----

  ghost predicate Remembers(h: RoutingHistory, tiers: seq<string>) {
    && h.stableSteps == TrailingRun(tiers)
    && h.escalationCount == Changes(tiers)
    && h.currentTier == (if tiers == [] then "" else tiers[|tiers| - 1])
  }

  lemma HistoryAfterStep<B(!new), P(!new)>(apply: Apply<B, P>, s: Store<B, P>, op: Op<B, P>, k: StateKey)
    requires KeepsHistory(apply) && Valid(s)
    ensures HistoryOf(Step(apply, s, op), k) ==
            if op.Key() == k && RecordedBy(s, op).Some? then
              var r := RecordedBy(s, op).value;
              NextHistory(HistoryOf(s, k), r.view, r.decision, op.at)
            else HistoryOf(s, k)
  {
    hide NextHistory, Schedule, BuildView, StampHeader, LastN, DirtyByDecision;
    if RecordedBy(s, op).Some? {
      RecordsOwnKey(s, op);
    }
  }

  lemma HistoryExtends(h: RoutingHistory, tiers: seq<string>, view: SchedulingView, d: RoutingDecision, at: int)
    requires Remembers(h, tiers)
    ensures Remembers(NextHistory(h, view, d, at), tiers + [TraceTier(d.trace, d.selected, h.currentTier)])
  {
    hide TraceTier;
    var longer := tiers + [TraceTier(d.trace, d.selected, h.currentTier)];
    assert longer[..|longer| - 1] == tiers;
  }

  /** `stable_steps` is the length of the trailing same-tier run; `escalation_count` counts changes either way. */
  lemma {:induction false} StableStepsAreTrailingRun<B(!new), P(!new)>(
      apply: Apply<B, P>, ops: seq<Op<B, P>>, n: nat, k: StateKey)
    requires n <= |ops| && KeepsHistory(apply)
    ensures Remembers(HistoryOf(After(apply, ops, n), k), Tiers(apply, ops, n, k))
  {
    hide Step, NextHistory, Schedule, BuildView, TraceTier, Remembers;
    if n == 0 {
      RemembersNothing();
    } else {
      StableStepsAreTrailingRun(apply, ops, n - 1, k);
      ReachableStoresAreValid(apply, ops, n - 1);
      var s, op := After(apply, ops, n - 1), ops[n - 1];
      HistoryAfterStep(apply, s, op, k);
      if op.Key() == k && RecordedBy(s, op).Some? {
        var r := RecordedBy(s, op).value;
        HistoryExtends(HistoryOf(s, k), Tiers(apply, ops, n - 1, k), r.view, r.decision, op.at);
      }
    }
  }

  lemma RemembersNothing()
    ensures Remembers(RoutingHistory("", "", "", "", 0, 0, 0, None, None), [])
  {
  }

  // ---- Anti-ping-pong ----

  /** Session `k` is only driven by the closed loop, over named models whose tier never changes. */
  ghost predicate Fixed<B, P>(ops: seq<Op<B, P>>, k: StateKey, tierOf: string -> string) {
    forall i :: 0 <= i < |ops| && ops[i].Key() == k ==>
      && !ops[i].RecordGiven?
      && (ops[i].Decide? ==> FixedTargets(ops[i].targets, tierOf))
  }

  ghost predicate FixedTargets(targets: seq<TargetCandidate>, tierOf: string -> string) {
    forall t :: t in targets ==> t.modelId != "" && t.tier == tierOf(t.modelId)
  }

  lemma {:induction false} TraceTierIsFixed(trace: seq<TraceEntry>, key: TargetKey, otherwise: string, tier: string)
    requires forall e :: e in trace && e.key == key ==> e.tier == tier
    requires exists e :: e in trace && e.key == key
    ensures TraceTier(trace, key, otherwise) == tier
  {
    if trace[0].key == key {
      assert trace[0] in trace;
    } else {
      var e :| e in trace && e.key == key;
      assert trace == [trace[0]] + trace[1..];
      TraceTierIsFixed(trace[1..], key, otherwise, tier);
    }
  }

  lemma TraceEntryTier(
      env: Environment, view: SchedulingView, targets: seq<TargetCandidate>, t: TargetCandidate,
      rejections: seq<FilterRejection>, tierOf: string -> string)
    requires FixedTargets(targets, tierOf) && t in targets
    ensures TraceOf(StagesOf(env, view, Eligible(view, targets)), rejections, t).tier == tierOf(t.modelId)
  {
    hide GateOf, PriceAll, KeepInBudget, TimeAll, CostGate, LastRejection, PolicyOf, Serves, SuccessEstimate.Lcb;
    var s := StagesOf(env, view, Eligible(view, targets));
    var own := LastWithKey(s.evaluated, t.Key());
    if own.Some? {
      var i :| 0 <= i < |s.evaluated| && s.evaluated[i] == own.value;
      PolicyTargetsServe(env, view, targets, s.policy.targets[i]);
    }
  }

  lemma TraceIsFixed(
      env: Environment, view: SchedulingView, targets: seq<TargetCandidate>, tierOf: string -> string)
    requires FixedTargets(targets, tierOf)
    ensures var trace := TraceAll(StagesOf(env, view, Eligible(view, targets)), Rejections(view, targets), targets);
            && (forall e :: e in trace ==> e.tier == tierOf(e.key.0))
            && forall t :: t in targets ==> exists e :: e in trace && e.key == t.Key()
  {
    hide StagesOf, TraceOf, Rejections, Eligible;
    var s, rejections := StagesOf(env, view, Eligible(view, targets)), Rejections(view, targets);
    var trace := TraceAll(s, rejections, targets);
    forall e | e in trace ensures e.tier == tierOf(e.key.0) {
      var i :| 0 <= i < |trace| && trace[i] == e;
      TraceEntryTier(env, view, targets, targets[i], rejections, tierOf);
    }
    forall t | t in targets ensures exists e :: e in trace && e.key == t.Key() {
      var j :| 0 <= j < |targets| && targets[j] == t;
      assert trace[j] in trace;
    }
  }

  /** What a decision records is the fixed tier of the selected model. */
  lemma RecordedTierIsFixed(
      env: Environment, view: SchedulingView, targets: seq<TargetCandidate>, tierOf: string -> string, otherwise: string)
    requires FixedTargets(targets, tierOf) && Schedule(env, view, targets).Ok?
    ensures var d := Schedule(env, view, targets).value;
            && TraceTier(d.trace, d.selected, otherwise) == tierOf(d.selected.0)
            && d.selected.0 != ""
  {
    hide StagesOf, TraceAll, SelectedItem, SelectedReason, PredictedLatency, Serves, TraceTier;
    var d := Schedule(env, view, targets).value;
    var selected := SelectedIsNearFastest(env, view, targets);
    TraceIsFixed(env, view, targets, tierOf);
    TraceTierIsFixed(d.trace, d.selected, otherwise, tierOf(d.selected.0));
  }

  /** Once something is recorded, the remembered model is named and has the remembered tier. */
  lemma {:induction false} RememberedModelHasItsTier<B(!new), P(!new)>(
      apply: Apply<B, P>, ops: seq<Op<B, P>>, n: nat, k: StateKey, tierOf: string -> string)
    requires n <= |ops| && KeepsHistory(apply) && Fixed(ops, k, tierOf)
    ensures Tiers(apply, ops, n, k) != [] ==>
              var h := HistoryOf(After(apply, ops, n), k);
              h.currentModel != "" && h.currentTier == tierOf(h.currentModel)
  {
    hide Step, Schedule, TraceTier;
    if n > 0 {
      RememberedModelHasItsTier(apply, ops, n - 1, k, tierOf);
      ReachableStoresAreValid(apply, ops, n - 1);
      var s, op := After(apply, ops, n - 1), ops[n - 1];
      HistoryAfterStep(apply, s, op, k);
      if op.Key() == k && RecordedBy(s, op).Some? {
        var r := RecordedBy(s, op).value;
        RecordedTierIsFixed(op.env, r.view, op.targets, tierOf, HistoryOf(s, k).currentTier);
      }
    }
  }

  /** The session's model survived both gates in this decision. */
  ghost predicate CurrentModelSurvives(env: Environment, view: SchedulingView, targets: seq<TargetCandidate>) {
    exists x :: x in StagesOf(env, view, Eligible(view, targets)).placeable && x.target.modelId == view.currentModel
  }

  lemma UnnamedTierIsLowest()
    ensures TierRank("") == 0
  {
    assert Lower("") == "";
  }

  lemma UnheldDropIsStable(
      env: Environment, view: SchedulingView, targets: seq<TargetCandidate>, tierOf: string -> string)
    requires FixedTargets(targets, tierOf) && Schedule(env, view, targets).Ok?
    requires var d := Schedule(env, view, targets).value;
             d.overrideReasons == [] && TierRank(tierOf(d.selected.0)) < TierRank(view.currentTier)
    requires view.currentModel != "" && tierOf(view.currentModel) == view.currentTier
    requires CurrentModelSurvives(env, view, targets)
    ensures view.stableSteps >= env.config.deescalationStableSteps
  {
    hide StagesOf, TraceAll, ChoosePlacement, TierRank, ReasonFor, CostOf, LcbOf, PredictedLatency, Affordable, Serves,
         CostLimit, Eligible, Rejections;
    UnnamedTierIsLowest();
    var eligible := Eligible(view, targets);
    var s := StagesOf(env, view, eligible);
    StagesReachPlacement(env, view, eligible);
    SelectedIsPlaceable(env, view, s);
    var x := ChoosePlacement(view, s.placeable).item;
    PlacementIsNearFastest(view, s.placeable);
    var own := PlaceableMembers(env, view, eligible, x);
    AffordableIsGated(env, view, s, own);
    PolicyTargetsServe(env, view, targets, own);
    var y :| y in s.placeable && y.target.modelId == view.currentModel;
    assert y in CurrentModelOnly(view, s.placeable);
    var i :| 0 <= i < |s.placeable| && s.placeable[i] == y;
    TierRankIsNatural(tierOf(own.modelId));
  }

  lemma TierRankIsNatural(tier: string)
    ensures TierRank(tier) >= 0
  {
  }

  /** The last `window` recorded tiers exist and are all the latest one. */
  ghost predicate StableWindow(tiers: seq<string>, window: int) {
    && |tiers| >= window
    && forall i :: 0 <= i < |tiers| && i >= |tiers| - window ==> tiers[i] == tiers[|tiers| - 1]
  }

  /** An unforced drop in tier, while the session's model was still good enough, follows a full stable window. */
  lemma NoPingPong<B(!new), P(!new)>(
      apply: Apply<B, P>, ops: seq<Op<B, P>>, n: nat, k: StateKey, tierOf: string -> string)
    requires n < |ops| && KeepsHistory(apply) && Fixed(ops, k, tierOf) && ops[n].Decide? && ops[n].Key() == k
    requires var tiers, next := Tiers(apply, ops, n, k), TierRecorded(After(apply, ops, n), ops[n], k);
             tiers != [] && next.Some? && TierRank(next.value) < TierRank(tiers[|tiers| - 1])
    requires var r := RecordedBy(After(apply, ops, n), ops[n]).value;
             r.decision.overrideReasons == [] && CurrentModelSurvives(ops[n].env, r.view, ops[n].targets)
    ensures StableWindow(Tiers(apply, ops, n, k), ops[n].env.config.deescalationStableSteps)
  {
    hide Step, Schedule, TraceTier, TierRank, CurrentModelSurvives, TrailingRun, Changes, After, Tiers;
    var s, op, tiers := After(apply, ops, n), ops[n], Tiers(apply, ops, n, k);
    ReachableStoresAreValid(apply, ops, n);
    StableStepsAreTrailingRun(apply, ops, n, k);
    RememberedModelHasItsTier(apply, ops, n, k, tierOf);
    var r, h := RecordedBy(s, op).value, HistoryOf(s, k);
    assert r.view.currentModel == h.currentModel && r.view.currentTier == h.currentTier;
    RecordedTierIsFixed(op.env, r.view, op.targets, tierOf, h.currentTier);
    UnheldDropIsStable(op.env, r.view, op.targets, tierOf);
    TrailingRunMeans(tiers);
  }

  // ---- Failures are remembered ----

  /** The remembered failure streak never falls, whatever later events report. */
  lemma {:induction false} FailureStreakNeverFalls<B(!new), P(!new)>(
      apply: Apply<B, P>, ops: seq<Op<B, P>>, i: nat, n: nat, k: StateKey)
    requires i <= n <= |ops| && KeepsHistory(apply)
    requires forall j :: 0 <= j < |ops| && ops[j].Key() == k ==> !ops[j].RecordGiven?
    ensures HistoryOf(After(apply, ops, i), k).failureStreak <= HistoryOf(After(apply, ops, n), k).failureStreak
  {
    hide Step, Schedule, TraceTier;
    if i < n {
      FailureStreakNeverFalls(apply, ops, i, n - 1, k);
      ReachableStoresAreValid(apply, ops, n - 1);
      HistoryAfterStep(apply, After(apply, ops, n - 1), ops[n - 1], k);
    }
  }

  /** Step `i` builds the view of session `k`, decides and records. */
  ghost predicate DecidesAt<B, P>(apply: Apply<B, P>, ops: seq<Op<B, P>>, i: nat, k: StateKey) {
    i < |ops| && ops[i].Decide? && ops[i].Key() == k && RecordedBy(After(apply, ops, i), ops[i]).Some?
  }

  /** `streak` is the largest failure streak that the base views of such steps before `n` reported, or 0. */
  ghost predicate LargestReported<B, P>(apply: Apply<B, P>, ops: seq<Op<B, P>>, n: nat, k: StateKey, streak: int) {
    && streak >= 0
    && (forall i: nat :: i < n && DecidesAt(apply, ops, i, k) ==> ops[i].base.failureStreak <= streak)
    && (streak == 0 || exists i: nat :: i < n && DecidesAt(apply, ops, i, k) && ops[i].base.failureStreak == streak)
  }

  /** The remembered streak is the largest one ever reported to a recorded decision; no success lowers it. */
  lemma {:induction false} RememberedStreakIsLargestReported<B(!new), P(!new)>(
      apply: Apply<B, P>, ops: seq<Op<B, P>>, n: nat, k: StateKey)
    requires n <= |ops| && KeepsHistory(apply)
    requires forall j :: 0 <= j < |ops| && ops[j].Key() == k ==> !ops[j].RecordGiven?
    ensures LargestReported(apply, ops, n, k, HistoryOf(After(apply, ops, n), k).failureStreak)
  {
    hide Step, RecordedBy, HistoryOf, LargestReported, KeepsHistory;
    if n == 0 {
      NothingReported(apply, ops, k);
      NothingRemembered(apply, ops, k);
    } else {
      RememberedStreakIsLargestReported(apply, ops, n - 1, k);
      ReachableStoresAreValid(apply, ops, n - 1);
      StreakAfterStep(apply, After(apply, ops, n - 1), ops[n - 1], k);
      ReportExtends(apply, ops, n - 1, k, HistoryOf(After(apply, ops, n - 1), k).failureStreak);
    }
  }

  /** A recorded decision remembers the larger streak; no other step changes it. */
  lemma StreakAfterStep<B(!new), P(!new)>(apply: Apply<B, P>, s: Store<B, P>, op: Op<B, P>, k: StateKey)
    requires KeepsHistory(apply) && Valid(s) && (op.Key() == k ==> !op.RecordGiven?)
    ensures HistoryOf(Step(apply, s, op), k).failureStreak ==
            if op.Decide? && op.Key() == k && RecordedBy(s, op).Some? then
              MaxInt(op.base.failureStreak, HistoryOf(s, k).failureStreak)
            else HistoryOf(s, k).failureStreak
  {
    hide Step, RecordedBy, NextHistory, HistoryOf, KeepsHistory, Valid;
    HistoryAfterStep(apply, s, op, k);
    if op.Key() == k && RecordedBy(s, op).Some? {
      OnlyDecisionsRecord(s, op);
      ViewTakesLargerStreak(s, op);
      NextStreak(HistoryOf(s, k), RecordedBy(s, op).value.view, RecordedBy(s, op).value.decision, op.at);
    }
  }

  lemma NothingRemembered<B, P>(apply: Apply<B, P>, ops: seq<Op<B, P>>, k: StateKey)
    ensures HistoryOf(After(apply, ops, 0), k).failureStreak == 0
  {
  }

  lemma NothingReported<B, P>(apply: Apply<B, P>, ops: seq<Op<B, P>>, k: StateKey)
    ensures LargestReported(apply, ops, 0, k, 0)
  {
  }

  lemma ReportExtends<B, P>(apply: Apply<B, P>, ops: seq<Op<B, P>>, n: nat, k: StateKey, streak: int)
    requires n < |ops| && LargestReported(apply, ops, n, k, streak)
    ensures LargestReported(apply, ops, n + 1, k,
                            if DecidesAt(apply, ops, n, k) then MaxInt(ops[n].base.failureStreak, streak) else streak)
  {
    hide After, RecordedBy;
    if DecidesAt(apply, ops, n, k) {
      var larger := MaxInt(ops[n].base.failureStreak, streak);
      if larger == streak != 0 {
        var i: nat :| i < n && DecidesAt(apply, ops, i, k) && ops[i].base.failureStreak == streak;
        assert i < n + 1;
      }
    }
  }

  lemma NextStreak(h: RoutingHistory, view: SchedulingView, d: RoutingDecision, at: int)
    ensures NextHistory(h, view, d, at).failureStreak == view.failureStreak
  {
  }

  lemma OnlyDecisionsRecord<B, P>(s: Store<B, P>, op: Op<B, P>)
    requires !op.RecordGiven?
    ensures RecordedBy(s, op).Some? ==> op.Decide?
  {
  }

  lemma ViewTakesLargerStreak<B, P>(s: Store<B, P>, op: Op<B, P>)
    requires op.Decide? && RecordedBy(s, op).Some?
    ensures RecordedBy(s, op).value.view.failureStreak
            == MaxInt(op.base.failureStreak, HistoryOf(s, op.key).failureStreak)
    ensures Schedule(op.env, RecordedBy(s, op).value.view, op.targets) == Ok(RecordedBy(s, op).value.decision)
  {
    hide Schedule;
  }

  /** The streak forces the override exactly if some recorded decision of the session, up to this one, was at today's
      threshold, however long ago (or if the threshold is not positive). */
  lemma StreakOverridesExactlyWhen<B(!new), P(!new)>(
      apply: Apply<B, P>, ops: seq<Op<B, P>>, n: nat, k: StateKey)
    requires n < |ops| && KeepsHistory(apply) && DecidesAt(apply, ops, n, k)
    requires forall j :: 0 <= j < |ops| && ops[j].Key() == k ==> !ops[j].RecordGiven?
    ensures var threshold := ops[n].env.config.failureStreakOverride;
            FailureStreak in RecordedBy(After(apply, ops, n), ops[n]).value.decision.overrideReasons <==>
            || threshold <= 0
            || exists i: nat :: i <= n && DecidesAt(apply, ops, i, k) && ops[i].base.failureStreak >= threshold
  {
    hide Step, Schedule, TraceTier, HistoryOf;
    var s, op := After(apply, ops, n), ops[n];
    RememberedStreakIsLargestReported(apply, ops, n, k);
    ViewTakesLargerStreak(s, op);
    StreakIsReported(op.env, RecordedBy(s, op).value.view, op.targets);
  }

  lemma StreakIsReported(env: Environment, view: SchedulingView, targets: seq<TargetCandidate>)
    requires Schedule(env, view, targets).Ok?
    ensures FailureStreak in Schedule(env, view, targets).value.overrideReasons <==>
            view.failureStreak >= env.config.failureStreakOverride
  {
    hide Schedule, PolicyOf, OverrideReasons;
    DecisionNamesOverrides(env, view, targets);
    StreakIsPolicy(env, view, Eligible(view, targets));
    OverrideReasonsAreTriggers(view, env.config);
  }

  lemma StreakIsPolicy(env: Environment, view: SchedulingView, eligible: seq<TargetCandidate>)
    ensures FailureStreak in PolicyOf(env, view, eligible).overrides <==> FailureStreak in OverrideReasons(view, env.config)
  {
    hide OverrideReasons, CapableOnly, Estimates, NeedsSafeMode;
  }

  // ---- A run that shows it ----

  /** A decision after three failures, and one after a success has cleared the reported streak. */
  function FailThenSucceed<B, P>(birth: Birth<B>): seq<Op<B, P>> {
    var base := PlainView().(costBudget := None);
    [Decide(PlainEnvironment(), base.(failureStreak := 3), ("session", "task"), [PlainTarget()], birth, 0),
     Decide(PlainEnvironment(), base, ("session", "task"), [PlainTarget()], birth, 1)]
  }

  function NoPatch<B, P>(): Apply<B, P> {
    (state: AgentState<B>, e: Event<P>) => state
  }

  /** The second decision reports no failures at all and is still overridden because of the streak. */
  lemma OverrideOutlivesFailures<B(!new), P(!new)>(birth: Birth<B>)
    ensures var ops := FailThenSucceed<B, P>(birth);
            var r := RecordedBy(After(NoPatch(), ops, 1), ops[1]);
            && ops[1].base.failureStreak == 0 && ops[1].base.consecutiveFailures == 0
            && r.Some? && FailureStreak in r.value.decision.overrideReasons
  {
    hide After, RecordedBy, PlainView, PlainTarget, PlainEnvironment;
    var ops, k := FailThenSucceed<B, P>(birth), ("session", "task");
    PlainStreaks();
    PlainDecides(After(NoPatch(), ops, 0), ops[0]);
    PlainDecides(After(NoPatch(), ops, 1), ops[1]);
    assert DecidesAt(NoPatch(), ops, 0, k) && DecidesAt(NoPatch(), ops, 1, k);
    StreakOverridesExactlyWhen(NoPatch(), ops, 1, k);
  }

  lemma PlainStreaks()
    ensures PlainView().failureStreak == 0 && PlainView().consecutiveFailures == 0
    ensures PlainEnvironment().config.failureStreakOverride == 3
  {
  }

  lemma PlainDecides<B, P>(s: Store<B, P>, op: Op<B, P>)
    requires op.Decide? && op.targets == [PlainTarget()]
    requires exists streak :: op.base == PlainView().(costBudget := None, failureStreak := streak)
    ensures RecordedBy(s, op).Some?
  {
    hide Schedule, PlainView, PlainTarget, ServiceCost;
    var view := BuildView(op.base, StateOr(s, op.key, op.birth));
    PlainTargetIsReady();
    PlainViewIsOpen();
    PlainBudget();
    OpenViewIsServed(view, PlainTarget());
    NoBudgetDecides(op.env, view, op.targets);
  }

  lemma OpenViewIsServed(view: SchedulingView, t: TargetCandidate)
    requires t.available && t.healthy && t.compatible && !t.requiresRemoteKv
    requires RequiredTokens(view) <= t.contextWindowTokens
    requires view.requiredCapabilities == {} && view.allowedModels == {} && view.allowedRegions == {}
    requires view.allowedCacheDomains == {} && view.securityDomain == "" && view.costBudget.None?
    ensures Serves(view, t)
  {
  }

  /** Without a budget a target that may serve is enough. */
  lemma NoBudgetDecides(env: Environment, view: SchedulingView, targets: seq<TargetCandidate>)
    requires view.costBudget.None? && exists t :: t in targets && Serves(view, t)
    ensures Schedule(env, view, targets).Ok?
  {
    hide PolicyOf, EvaluateAll, GateOf, PriceAll, TimeAll, CostGate, DecisionOf, Serves, Rejections;
    var eligible := Eligible(view, targets);
    assert eligible != [];
    SuccessGateNeverEmpties(env, view, eligible);
    FilterAll(StagesOf(env, view, eligible).successful, (x: Item) => WithinBudget(view, x));
  }
}
