# StateFlow verification

StateFlow is a control plane for agent workloads that keeps its whole state in memory. This project models the parts
where its guarantees live and proves them for all inputs and all runs:

- the **State Plane**: entities, state, relations and events under arbitration by authority, freshness, timestamp,
  version, expected version and idempotency key, with a bounded change feed, bounded snapshots and a graph query
  (`Contracts`, `KeyRegistry`, `PlaneSpec`, `StatePlane`, `PlaneRuns`, `GraphQuery`, `RelationConvergence`,
  `ChangeFeed`, `SnapshotClassification`, `PlaneEffects`, `PlaneAnswers`);
- the **Success-First scheduler** and the event store it records into, closed into a loop (`SchedulerTypes`, `Gates`,
  `Scheduler`, `SchedulerLaws`, `StateStore`, `StoreRuns`, `ClosedLoop`, `StoreEffects`);
- **controlled replay** of recorded decisions (`ControlTypes`, `Replay`, `ReplayIndependence`, `ReplayLaws`);
- **evaluation and the control journal** (`Calibration`, `Evaluation`, `ReportLaws`, `JournalSpec`, `JournalRuns`,
  `JournalEffects`, `ControlJournal`);
- the **KV planner** over the analytical prediction model (`AnalyticalModel`, `PredictionService`, `PredictionLaws`,
  `KVPlanner`, `KVSafety`, `KVChoice`, `KVEffects`, `KVUnseenMemory`, `KVOutcome`, `KVController`);
- **histogram quantiles** (`Histogram`).

Objects that update their fields are classes, and loops are loops; each method is proved against a function of values,
and the properties are lemmas about those functions and about runs of them. The modules named for effects, answers,
choices and laws say what each operation means in terms of its inputs alone, without the functions that compute it. `Basics` and `Arithmetic` hold what the
others share. `dafny verify dfyconfig.toml` checks everything.

## Findings

Where the code does something its own names or comments do not suggest, the model follows the code:

- Registering a key may take over an alias that is itself a defined key, after which names are no longer stable: an
  instance (`KeyRegistry.RegistrationCanBreakStability`) and the exact condition
  (`KeyRegistry.RegistrationKeepsStableExactlyWhen`).
- The refusal for a success predictor without usable candidates can never be raised (`Scheduler.DecidesExactlyWhen`).
- The filter's cost bound is not always below the effective cost (`Gates.FilterBoundsCostExactlyWhen`), so it can refuse
  an affordable target (`Gates.BudgetFilterIgnoresCredit`).
- `escalation_count` also counts changes to a lower tier (`ClosedLoop.StableStepsAreTrailingRun`).
- A successful response resets the failure section, but the view keeps the remembered maximum: the streak forces the
  override for as long as any earlier decision was at today's threshold (`ClosedLoop.StreakOverridesExactlyWhen`,
  `ClosedLoop.OverrideOutlivesFailures`).
- A recorded decision takes the next version, so exactly an event with that version is then dropped
  (`StoreRuns.DecisionReservesVersion`), the very first one of a session included
  (`StoreRuns.DecisionSwallowsFirstEvent`).
- An identical decision is refused when its bundle has one prediction id with two contents
  (`JournalRuns.RepeatedDecisionIsNoOp`, `JournalRuns.RepeatedDecisionCanConflict`).
- With tolerances, a losing candidate can decide a replay (`ReplayIndependence.ToleranceMakesOthersMatter`); this is
  excluded exactly by the policies of `ReplayIndependence.IndependentExactlyWhenRobust`.
- A prediction that needs no feature at all is always marked as a fallback: an instance
  (`AnalyticalModel.FeaturelessIsFallback`) and the exact conditions (`AnalyticalModel.TrustedExactlyWhenCovered`,
  `AnalyticalModel.SelfContainedIsTrustedExactlyWhen`).
- A prefetch can overflow its target: memory figures that the snapshot lacks count as the only other holder's, or as 0
  (`KVSafety.SeenIsOwnOrBorrowed`). An instance (`KVUnseenMemory.UnseenMemoryIsFilled`,
  `KVUnseenMemory.UnseenMemoryOverflows`) and the exact condition (`KVSafety.PrefetchFitsExactlyWhenRecorded`).

## Model

| member | source | states |
|---|---|---|
| `Contracts.RefFixesGraphAndType` | stateflow/state/contracts.py:143-151 | two well-formed entities with one ref have the same graph and entity type, so overwriting an entity never changes them |
| `Contracts.RefIsPath` | stateflow/state/contracts.py:133-151 | a record is an entity if and only if its type is one of its graph and its ref is a path of graph, type and a name of its own |
| `KeyRegistry.StableExactlyWithoutAliasChains` | stateflow/state/registry.py:34-43 | naming is idempotent if and only if no alias leads to a key that is itself redirected, because aliases are followed once |
| `KeyRegistry.RegistrationKeepsValid` | stateflow/state/registry.py:22-32 | after a registration every alias still leads to a definition, and the new aliases lead to the new one |
| `KeyRegistry.RegistrationChangesOwnNames` | stateflow/state/registry.py:22-32 | a registration defines its own key, leads its aliases there, and leaves every other name as it is |
| `KeyRegistry.RegistrationKeepsStableExactlyWhen` | stateflow/state/registry.py:22-32 | a registration into a stable registry keeps naming stable if and only if no name that stays an alias leads to one of the new aliases (other than the new key itself), and a key that gets aliases without being one of them is not itself redirected |
| `KeyRegistry.RegistrationCanBreakStability` | stateflow/state/registry.py:22-32 | an accepted registration can shadow a defined key: a concrete registry and definition after which naming is no longer idempotent |
| `KeyRegistry.CanonicalKeyRegistry.Register` | stateflow/state/registry.py:22-32 | the two refusals, in order; the registry after an accepted call; a refused call changes nothing |
| `PlaneRuns.ReachablePlanesAreValid` | stateflow/state/plane.py:90-174 | in every reachable plane each value sits under a canonical key legal for its registered entity and passes its type check, each relation is allowed for its registered endpoints, retained event ids are distinct, frozen relations still join registered entities, and retained cursors are the contiguous run ending at the revision |
| `PlaneRuns.EntityKeepsValid` | stateflow/state/plane.py:90-101 | overwriting an entity keeps all of that, and the guard against a changed graph can never fire |
| `PlaneRuns.StepEffect` | stateflow/state/plane.py:543-554 | an acknowledged operation raises the revision by one and announces exactly its change; a refused write leaves the plane as it was, and a snapshot touches nothing but the retained snapshots |
| `PlaneRuns.RevisionCountsAcknowledged` | stateflow/state/plane.py:543-554 | over any run the revision counts exactly the acknowledged entity, state, relation and event operations |
| `PlaneRuns.SameRevisionSameContents` | stateflow/state/plane.py:442-446 | two moments of a run with one revision (logical time) show the same entities, state and relations |
| `PlaneRuns.ArbitrationIsSupersession` | stateflow/state/plane.py:140-157 | an offer wins if and only if the expected version matches, its version is higher, and it raises authority, keeps it without going back in time, or lowers it after the old value expired |
| `PlaneRuns.StateOverwriteSupersedes` | stateflow/state/plane.py:122-174 | whatever operation changes a slot, the new value legitimately supersedes the old one, and no slot is ever emptied |
| `PlaneRuns.RelationOverwriteSupersedes` | stateflow/state/plane.py:290-333 | the same for relations |
| `PlaneRuns.SlotVersionsIncrease` | stateflow/state/plane.py:122-174 | between any two moments of a run a slot keeps its value or has a strictly higher version |
| `PlaneRuns.RelationVersionsIncrease` | stateflow/state/plane.py:290-333 | the same for relations |
| `PlaneRuns.KeyTakesEffectOnce` | stateflow/state/plane.py:122-139 | a non-empty idempotency key takes effect at most once across state and relation writes together, over a whole run; the repeat changes nothing |
| `PlaneRuns.NearbyEventsDiffer` | stateflow/state/plane.py:251-278 | the retained events are the newest accepted ones, and any `max_events` + 1 consecutive accepted events have distinct ids |
| `PlaneRuns.TokenReadsBack` | stateflow/state/plane.py:440-464 | a token reads back exactly the snapshot returned for it while fewer than `max_snapshots` newer ones were taken |
| `StatePlane.InMemoryStatePlane.StoreEntity` | stateflow/state/plane.py:90-101 | the plane and the answer after storing an entity are those of the specification the run properties are proved about |
| `PlaneAnswers.EntityIsAnswered` | stateflow/state/plane.py:90-101 | storing an entity is refused exactly for a changed graph and does nothing exactly for the same entity; otherwise it replaces that one entity and touches no state, relation, event or snapshot |
| `StatePlane.InMemoryStatePlane.PublishUpdate` | stateflow/state/plane.py:122-174 | checks, arbitration, storing, remembering the idempotency key and announcing, step by step, have exactly the effect that StateWriteIsStored, StateWriteIsAnswered and WriteLivesItsTime describe |
| `PlaneEffects.StateWriteIsStored` | stateflow/state/plane.py:155-174 | an accepted write is stored field by field as it was given, under its canonical key, with its own time to live or else that of the key, and with the given or the next version; nothing else changes but the feed and the idempotency keys |
| `PlaneEffects.StateWriteIsAnswered` | stateflow/state/plane.py:122-154 | the answer to any write: the remembered one for a used idempotency key, or the first check that stops it, in order, down to the first conflict with the occupant; a refused write changes nothing |
| `PlaneEffects.WriteLivesItsTime` | stateflow/state/plane.py:155-169 | an accepted write with time to live x, its own or else that of its key, is delivered by a snapshot without age limit up to x after its timestamp and stale from then on; with neither it never expires |
| `PlaneEffects.LowerAuthorityWaits` | stateflow/state/plane.py:146-149 | up to that very moment a write of lower authority is refused as such, and afterwards it no longer is |
| `PlaneEffects.ArbitrationNamesFirstConflict` | stateflow/state/plane.py:138-153 | an offer is refused for the first conflict there is: expected version, lower authority against a value that counts, the same authority going back in time, or a version that does not rise |
| `PlaneEffects.AcceptedMeansSuits` | stateflow/state/registry.py:55-74 | a key takes exactly the kinds of values its value type names, and any value for a type of another name |
| `StatePlane.InMemoryStatePlane.PublishState` | stateflow/state/plane.py:108-120 | a batch has the effect of its updates one after the other, with one result each |
| `StatePlane.InMemoryStatePlane.UpsertRelationUpdate` | stateflow/state/plane.py:290-333 | the same for one relation write |
| `PlaneEffects.RelationWriteIsStored` | stateflow/state/plane.py:290-333 | an accepted relation is stored field by field as it was given, with the given or the next version, and nothing else changes but the feed and the idempotency keys |
| `PlaneEffects.RelationWriteIsAnswered` | stateflow/state/plane.py:290-333 | the answer to any relation write, by the first check that stops it; a refused one changes nothing |
| `PlaneEffects.AllowedMeansMayRelate` | stateflow/state/plane.py:335-374 | two entities may be related if and only if a line of the schema fits their graphs, their types and the name of the relation |
| `StatePlane.InMemoryStatePlane.UpsertRelations` | stateflow/state/plane.py:176-188 | a batch has the effect of its relation writes one after the other, with one result each |
| `StatePlane.InMemoryStatePlane.PublishStateEvent` | stateflow/state/plane.py:251-278 | a repeated event id is refused, otherwise the event is kept and announced, with the bounded retention specified |
| `PlaneAnswers.EventIsAnswered` | stateflow/state/plane.py:251-278 | an event is a duplicate exactly if a retained event has its id, and else accepted exactly for a registered subject; then it is the newest retained event and nothing but feed and events changes |
| `StatePlane.InMemoryStatePlane.PublishEvents` | stateflow/state/plane.py:251-278 | a batch has the effect of its events one after the other, with one result each |
| `StatePlane.InMemoryStatePlane.RecordChange` | stateflow/state/plane.py:543-554 | the feed keeps the newest changes and the revision grows by one |
| `StatePlane.InMemoryStatePlane.GetSnapshot` | stateflow/state/plane.py:398-457 | the nested loops over entities and patterns produce exactly the specified classification, token and retained snapshots |
| `PlaneAnswers.SnapshotAnswers` | stateflow/state/plane.py:398-429 | a key of an entity is delivered, exactly as stored, if and only if the request asks for it and a value of enough authority is stored that is not too old; it is stale if and only if that value is too old |
| `PlaneAnswers.MissingExactly` | stateflow/state/plane.py:406-425 | missing are exactly the unregistered entities, the names that mean nothing, and the keys asked for of which nothing of enough authority is stored |
| `PlaneAnswers.ReachedMeansAsked` | stateflow/state/plane.py:578-599 | a request asks for a key of an entity if and only if one of its names is a pattern for it, in use and of the right type, or stands for it |
| `PlaneAnswers.LongestPrefixDecides` | stateflow/state/plane.py:564-576 | the age limit of a key is that of the longest prefix that speaks for it, the first of equally long ones; there is none if no prefix does |
| `PlaneAnswers.SnapshotRelations` | stateflow/state/plane.py:431-439 | the relations of a snapshot are exactly the ones that still count and touch a requested entity, as they are stored, and none unless wanted |
| `PlaneAnswers.SnapshotIsRetained` | stateflow/state/plane.py:442-457 | a taken snapshot is retained as the newest, in place of an earlier one of its token and with the newest of the others that there is room for; the plane changes in nothing else |
| `StatePlane.InMemoryStatePlane.GetState` | stateflow/state/plane.py:376-396 | without a token a live read takes and retains a snapshot; with one it filters what was frozen and changes nothing |
| `PlaneAnswers.FrozenReadAnswers` | stateflow/state/plane.py:385-392 | reading by a token gives exactly the frozen values of the entity whose keys match one of the names, resolved as they stand now |
| `StatePlane.InMemoryStatePlane.ReadSnapshot` | stateflow/state/plane.py:459-464 | finds the newest retained snapshot of a token, or refuses the token |
| `PlaneAnswers.TokenReadsNewest` | stateflow/state/plane.py:459-464 | a token is known if and only if some retained snapshot carries it, and it reads the newest of those |
| `StatePlane.InMemoryStatePlane.QueryGraph` | stateflow/state/plane.py:466-498 | the breadth-first loop gives the specified answer, from live or frozen relations, always with live entities |
| `PlaneAnswers.QueryAnswers` | stateflow/state/plane.py:466-498 | for every token that reads something, the answer is exactly the registered entities, as they are now, that relations of the wanted types reach within the depth, and exactly those relations that one hop less touches, frozen ones under a token |
| `StatePlane.InMemoryStatePlane.ChangesAfter` | stateflow/state/plane.py:504-521 | the wanted retained changes after a cursor, oldest first, cut to the limit |
| `PlaneAnswers.PollAnswersOldestFirst` | stateflow/state/plane.py:504-521 | a poll gives the oldest changes after the cursor that match prefix and names, in order and at most as many as allowed; what it leaves out is later than all of it, and left out only because the answer is full |
| `GraphQuery.Explore` | stateflow/state/plane.py:466-498 | expanding only the frontier and stopping early visits exactly the refs within the depth and collects exactly the relations of the shallower levels |
| `GraphQuery.WithinIsReachability` | stateflow/state/plane.py:466-498 | the level-by-level sets are bounded reachability, stated by walks of allowed relations in either direction |
| `GraphQuery.FrontierSuffices` | stateflow/state/plane.py:477-493 | relations and refs found from the frontier alone complete the next level |
| `GraphQuery.WithinSettles` | stateflow/state/plane.py:489-491 | once a level adds nothing no later level does, so the early break loses nothing |
| `StatePlane.AnswerIsBoundedReachability` | stateflow/state/plane.py:466-498 | the answer holds exactly the registered refs within `depth` hops of the roots and exactly the allowed relations touching a ref within `depth` - 1 hops |
| `StatePlane.AnswersAreClosed` | stateflow/state/plane.py:466-498 | in a reachable plane both endpoints of every returned relation are returned |
| `RelationConvergence.GreatestWriteWins` | stateflow/state/plane.py:290-333 | after any sequence of plain writes each triple holds its greatest (authority, timestamp) write |
| `RelationConvergence.ConvergesExactlyWhenUncontested` | stateflow/state/plane.py:290-333 | every delivery order of a set of plain writes ends in the same relations, up to versions, if and only if no triple has two different top writes |
| `RelationConvergence.BatchingIsIrrelevant` | stateflow/state/plane.py:176-188 | splitting writes into batches does not matter |
| `RelationConvergence.AnyOrderAnyBatching` | stateflow/state/plane.py:176-188 | any order and any batching of the same uncontested writes ends in the same relations |
| `ChangeFeed.SessionsAreOrderly` | stateflow/state/plane.py:504-521 | under any interleaving of writes and polls a follower receives only wanted changes, in order, none twice and none before its start |
| `ChangeFeed.PollCompleteExactlyWithoutLoss` | stateflow/state/plane.py:504-521 | a poll that returns something keeps the follower complete if and only if no wanted undelivered change had been evicted |
| `ChangeFeed.ShortBatchCatchesUp` | stateflow/state/plane.py:504-521 | a batch below the limit means that everything wanted has been received |
| `ChangeFeed.ExactlyOnce` | stateflow/state/plane.py:504-554 | a follower that never lost a wanted change has received each one since its start exactly once and in order |
| `ChangeFeed.JoiningLateIsTheSame` | stateflow/state/plane.py:504-554 | a follower that starts at a reachable plane receives exactly what one present from the first write would receive |
| `ChangeFeed.WatchState` | stateflow/rpc/server.py:72-99 | the streaming loop sends what a polling follower receives, and stops after one poll unless following; from any reachable plane the messages are wanted changes of the whole log after the requested cursor, in order and once each, and all of them up to the final cursor if no poll found a due change evicted |
| `SnapshotClassification.ClassificationIsPartition` | stateflow/state/plane.py:398-457 | despite overlapping patterns each applicable slot is in exactly one of values, missing and stale, and nothing else is delivered or stale |
| `SnapshotClassification.PartsAddUp` | stateflow/state/plane.py:430-441 | values, missing and stale add up to the expected slots at any time and under any policy, and completeness is their ratio |
| `SnapshotClassification.CompleteExactlyWhenNothingLacks` | stateflow/state/plane.py:440-441 | completeness lies between 0 and 1 and is 1 if and only if nothing is missing or stale |
| `SnapshotClassification.CompletenessNeverRises` | stateflow/state/plane.py:398-457 | without writes, waiting, demanding more authority or tightening an age limit never delivers more |
| `SnapshotClassification.LowerLimitsTighten` | stateflow/state/plane.py:564-575 | lowering limits under the longest-prefix rule tightens the policy |
| `SnapshotClassification.AcceptedWriteIsFound` | stateflow/state/plane.py:398-457 | an accepted write read back by the name it was written under is delivered, or stale once it has expired, and never missing |
| `Gates.NoReasonsExactlyWhenServing` | stateflow/scheduler/harness/success_first/capability_filter.py:21-70 | a target gets no rejection reason if and only if it meets every capability, policy, security and budget condition |
| `SchedulerLaws.ReasonsSpeakAgainst` | stateflow/scheduler/harness/success_first/capability_filter.py:21-70 | a rejected target is listed with exactly the reasons that are true of it, each once and in a fixed order, the missing capabilities named |
| `Gates.HardFilter` | stateflow/scheduler/harness/success_first/capability_filter.py:9-82 | splits the targets, in order, into those that serve and those rejected with all their reasons |
| `Gates.FilterBoundsCostExactlyWhen` | stateflow/scheduler/harness/success_first/capability_filter.py:50-68 | the filter's budget bound is at most the effective cost if and only if the future-KV credit stays within the retry term, or the bound is zero |
| `Gates.BudgetFilterIgnoresCredit` | stateflow/scheduler/harness/success_first/capability_filter.py:50-68 | it can fail: a concrete request, and a target that holds the whole prompt, refused for the budget alone although the effective cost, after a credit of half the recompute cost of the kept KV, is within the budget |
| `Gates.MoreLocalKvNeverHurts` | stateflow/scheduler/harness/success_first/latency_model.py:10-33 | holding more of the prompt locally never makes a target dearer or slower |
| `Gates.SplitIsGreedy` | stateflow/scheduler/harness/success_first/cost_model.py:10-17 | the split of the prompt into local, remote and missing tokens is the only one that uses local KV before remote KV and recomputes nothing that could be reused |
| `SchedulerLaws.ServiceCostIsBill` | stateflow/scheduler/harness/success_first/cost_model.py:20-73 | the certain cost is a bill of six items in which each token read, written, fetched or recomputed is charged once, and a negative price not at all |
| `SchedulerLaws.RetryIsProportional` | stateflow/scheduler/harness/success_first/cost_model.py:40-43 | the expected retry is paid in proportion to the chance of failing |
| `SchedulerLaws.CreditComesOff` | stateflow/scheduler/harness/success_first/cost_model.py:44-70 | the credit for kept KV, asked for with the tokens of the greedy split, comes off bill and retry and stops at nothing left to pay |
| `SchedulerLaws.LatencyIsWorkAtRates` | stateflow/scheduler/harness/success_first/latency_model.py:10-33 | the latency is the wait, the moving and recomputing of KV, and the tokens of both phases at their rates |
| `Gates.CriticalOverrideReasons` | stateflow/scheduler/harness/success_first/critical_override.py:17-41 | a reason is given if and only if its own trigger holds (flag, threshold, phase or completeness), each at most once and always in the same order |
| `Scheduler.OverrideSelectsHighTier` | stateflow/scheduler/harness/success_first/scheduler.py:74-90 | an overridden decision selects a high tier, by name or by rank, whenever one may serve |
| `Scheduler.OverridePassesOverLowTiers` | stateflow/scheduler/harness/success_first/critical_override.py:44-53 | with distinct keys an override passes over exactly the lower tiers that might serve, unless no high tier does; all other serving targets are evaluated |
| `Scheduler.SafeModeExactlyWhen` | stateflow/scheduler/harness/success_first/scheduler.py:77-84 | the reasons of a decision are the triggered ones, or the predictor alone exactly if none is triggered and, for the first serving target of some model, it fails, is too uncertain or reports an unfamiliar input |
| `Gates.SuccessGate` | stateflow/scheduler/harness/success_first/success_gate.py:20-53 | accepts exactly the models above the floor and within the margin of the best, or, if there are none, those at the best, marked as fallback |
| `SchedulerLaws.PassesGateExactlyWhen` | stateflow/scheduler/harness/success_first/success_gate.py:20-53 | end to end: a policy target passes if and only if its bound reaches the floor and is within the margin of every other; if none does, exactly those within 1e-12 of every other pass, and only then the decision is a fallback |
| `SchedulerLaws.BoundIsNearest` | stateflow/scheduler/types.py:57-62 | the lower bound is the number between 0 and 1 nearest to the prediction less beta times its uncertainty |
| `Gates.BestLcbIsMaximum` | stateflow/scheduler/harness/success_first/success_gate.py:34-40 | the best bound is attained by a model and bounds all of them |
| `Gates.CheapestPassesCostGate` | stateflow/scheduler/harness/success_first/cost_gate.py:10-19 | with non-negative costs the cheapest candidate always passes, so the gate never empties |
| `Gates.PlacementIsNearFastest` | stateflow/scheduler/harness/success_first/placement.py:27-71 | a warm placement is within the migration penalty of the fastest candidate; a cold one is beaten by nobody on load balance, latency, local KV and ids |
| `SchedulerLaws.PlacementPicks` | stateflow/scheduler/harness/success_first/placement.py:17-71 | placement picks exactly one candidate: a warm session the first fastest at home unless moving gains more than the penalty, a cold one by load, latency, local KV, ids and position; and it says which of these decided |
| `Scheduler.DecidesExactlyWhen` | stateflow/scheduler/harness/success_first/scheduler.py:63-159 | a decision is withheld if and only if there are no targets, none may serve, or no success survivor is within the budget; the third refusal in the code can never be raised |
| `Scheduler.SelectedIsNearMostSuccessful` | stateflow/scheduler/harness/success_first/scheduler.py:108-123 | the selected bound is within the success margin of every policy target's and above the floor; in fallback it is the best to within 1e-12 and nobody reaches the floor |
| `Scheduler.SelectedIsNearCheapest` | stateflow/scheduler/harness/success_first/scheduler.py:125-167 | the selected cost is within the budget and within the relative tolerance of every affordable target's |
| `Scheduler.SelectedIsNearFastest` | stateflow/scheduler/harness/success_first/scheduler.py:176-215 | the selected target is a given one that serves the request; a warm selection is near the fastest placeable candidate and a cold one has the best load balance, under a hold among the current model's candidates, and a hold keeps the current model |
| `Scheduler.SelectedBeatsEveryNearCheapest` | stateflow/scheduler/harness/success_first/scheduler.py:56-215 | end to end for distinct keys and warm sessions without a hold: no affordable near-cheapest target is faster by more than the migration penalty |
| `SchedulerLaws.HoldsExactlyWhen` | stateflow/scheduler/harness/success_first/scheduler.py:205-215 | hysteresis holds the current model if and only if nothing overrides, the free choice is of a lower tier, the window of stable steps is incomplete and the current model is placeable; otherwise the free choice is selected |
| `SchedulerLaws.ReasonIsFirstThatApplies` | stateflow/scheduler/harness/success_first/scheduler.py:326-348 | the reason given is the first that applies: override, hold, fallback, one model left, staying at home, less load, a lower cost, speed |
| `Scheduler.DistinctKeysPlaceThemselves` | stateflow/scheduler/harness/success_first/scheduler.py:176-191 | with distinct keys every placed candidate is priced, bounded and timed as its own target |
| `Scheduler.TraceExplainsEveryTarget` | stateflow/scheduler/harness/success_first/scheduler.py:217-256 | with distinct keys the trace says of every target, in order, whether it was filtered and why, evaluated with which bound and gate outcome, or passed over by the override |
| `Scheduler.EstimateByModel` | stateflow/scheduler/harness/success_first/scheduler.py:286-308 | exactly the models of the targets get an estimate; it is the predictor's answer for the first target of the model, or success 0, uncertainty 1 and confidence 0 with the error named if the predictor fails on that target |
| `SchedulerLaws.PolicyEstimatesAreFirst` | stateflow/scheduler/harness/success_first/scheduler.py:74-90 | a decision is made on the estimates for the first policy target of each model, overridden or not, and on no others |
| `SchedulerLaws.OverBudgetNamesSurvivors` | stateflow/scheduler/harness/success_first/scheduler.py:140-159 | a refusal over the budget names exactly the targets that passed the success gate, none of which is affordable |
| `SchedulerLaws.TraceNamesTiers` | stateflow/scheduler/harness/success_first/scheduler.py:217-256 | with distinct keys the trace gives the tier of every target |
| `Scheduler.ScheduleRequest` | stateflow/scheduler/harness/success_first/scheduler.py:56-272 | the staged loops give exactly the specified decision, trace or refusal |
| `StateStore.InMemoryStateStore.AppendEvent` | stateflow/state/store/in_memory.py:74-137 | stamping, the duplicate and stale refusals, and the new state, order and log |
| `StoreEffects.EventIsApplied` | stateflow/state/store/in_memory.py:74-137 | an accepted event is logged and changes its own session alone: the sections as the patch says, and the header to its order, time, source and names, the later turn and all dirty fields |
| `StoreEffects.RefusalNamesState` | stateflow/state/store/in_memory.py:85-102 | a refused event changes nothing and is answered with the id and version of the state that stands |
| `StateStore.InMemoryStateStore.GetOrCreate` | stateflow/state/store/in_memory.py:54-72 | returns the state, creating it without touching order or log |
| `StateStore.InMemoryStateStore.RecordRoutingDecision` | stateflow/state/store/in_memory.py:167-213 | the history, preferences, decision log and reserved version after a decision |
| `StoreEffects.DecisionIsRemembered` | stateflow/state/store/in_memory.py:167-213 | a recorded decision leaves what it selected, the tier of its first trace entry, how long and since when and why that tier lasts, itself as the newest of at most 1000 decisions, and the next version; event sections and other sessions stay as they are |
| `StoreEffects.ViewPrefersLastDecision` | stateflow/state/schema.py:787-791 | over any run, until the next decision of the session is recorded, the view has the model, tier and endpoint of the last one, and its replica if that is named |
| `StoreEffects.ViewIsBuiltFrom` | stateflow/state/schema.py:740-791 | the other modelled fields of a view: the session, the later turn, the higher streak, the stable steps |
| `StoreRuns.ReachableStoresAreValid` | stateflow/state/store/in_memory.py:74-213 | in every reachable store header and order tracker agree, and per session the event log is strictly increasing and never beyond the tracker |
| `StoreRuns.OrderOnlyRises` | stateflow/state/store/in_memory.py:74-213 | every accepted event and every recorded decision strictly raises its session's order; nothing else changes any order |
| `StoreRuns.AcceptedAreRunningMaxima` | stateflow/state/store/in_memory.py:79-103 | over any run, decisions included, an event is accepted if and only if its order, stamped if it has none, exceeds every order delivered before to its session and every order a recorded decision reserved there: the strict running maxima |
| `StoreRuns.AutoSequencedFollowsEpoch` | stateflow/state/store/in_memory.py:79-103 | an event without a sequence is never a duplicate, is accepted if and only if its epoch is not below the last, and gets the next version of its epoch or the first |
| `StoreRuns.RedeliveryChangesNothing` | stateflow/state/store/in_memory.py:79-103 | delivering again any event delivered before, accepted or refused, in its given or its stamped form and whatever came in between, changes nothing if and only if it carries a positive sequence or its epoch is over |
| `StoreRuns.LogOnlyGrows` | stateflow/state/store/in_memory.py:74-137 | over a run the event log is only ever extended and orders only rise |
| `StoreRuns.DecisionReservesVersion` | stateflow/state/store/in_memory.py:206-210 | recording a decision makes the store refuse an event it would have accepted if and only if the event claims the reserved order (the next version of the last epoch, or (0, 1) for a session without order), or is in epoch -1 of a session without order; the claimant is called a duplicate |
| `StoreRuns.DecisionSwallowsFirstEvent` | stateflow/state/store/in_memory.py:167-213 | a decision recorded before the first event of a session: that event, numbered (0, 1), is dropped as a duplicate and never logged |
| `ClosedLoop.StableStepsAreTrailingRun` | stateflow/state/store/in_memory.py:184-200 | over any run `stable_steps` is the length of the trailing run of equal tiers, the current tier is the last recorded one, and `escalation_count` counts changes between named tiers in either direction |
| `ClosedLoop.RememberedModelHasItsTier` | stateflow/state/store/in_memory.py:180-200 | with a fixed tier per model, the remembered tier is the remembered model's |
| `ClosedLoop.NoPingPong` | stateflow/scheduler/harness/success_first/scheduler.py:205-215 | deciding, recording and rebuilding the view: a drop in tier without override, while the session's model passed both gates, follows a full window of decisions for the old tier |
| `ClosedLoop.FailureStreakNeverFalls` | stateflow/state/schema.py:765-765 | the remembered failure streak never falls, whatever later events report |
| `ClosedLoop.RememberedStreakIsLargestReported` | stateflow/state/store/in_memory.py:201-201 | over any closed-loop run the remembered streak is the largest failure streak that was ever reported to a recorded decision of the session, or 0 |
| `ClosedLoop.StreakOverridesExactlyWhen` | stateflow/scheduler/harness/success_first/critical_override.py:23-24 | a recorded decision names the failure streak as override reason if and only if some recorded decision of its session, up to itself, was reported a streak at or above its threshold (or the threshold is not positive); later successes never count |
| `ClosedLoop.OverrideOutlivesFailures` | stateflow/state/schema.py:765-765 | a concrete run of two decisions: the second is reported no failures at all and is overridden because of the first one's streak |
| `Replay.EliminationFindsOptima` | stateflow/control/replay.py:117-149 | at zero tolerance the survivors of any number of stages are exactly the lexicographic optima on those objectives, early stop or not |
| `Replay.ReplaySelectsOptimum` | stateflow/control/replay.py:107-151 | at zero tolerance replay selects the first lexicographic optimum of the constraint-passing candidates; a missing value loses at its stage |
| `ReplayIndependence.IrrelevantCandidatesDoNotMatter` | stateflow/control/replay.py:85-175 | under such a policy, zero tolerances among others, the deletion also keeps the selected prediction, the baseline, the objective values and the gain |
| `ReplayIndependence.IndependentExactlyWhenRobust` | stateflow/control/replay.py:85-252 | for any objective list and tolerances, deleting a candidate other than the selected one and the baseline selects the same on every record and under all constraints, if and only if every gate before energy is exact (tolerance 0, or 1 on a maximized value), or energy is listed and each inexact gate is followed up to it only by objectives applied before |
| `ReplayIndependence.IndependentExactlyWhenExact` | stateflow/control/replay.py:85-252 | for objectives without energy: over all records, constraints and deletable candidates the selection is independent of the others if and only if every tolerance that applies is 0, or is 1 on success or throughput |
| `ReplayIndependence.ToleranceMakesOthersMatter` | stateflow/control/replay.py:85-252 | a replayed record of three candidates in which deleting "a", neither selected nor the baseline, changes the selection from "b" to "c" |
| `Replay.RejectedExactlyWhenEliminated` | stateflow/control/replay.py:104-172 | a candidate has a rejection reason if and only if it is not left at the end; a passing one is eliminated at exactly one stage, a failing one keeps its constraint reasons |
| `Replay.SelectionLosesAtMostTolerance` | stateflow/control/replay.py:117-151 | against any passing candidate, such as the baseline, the selection loses at most the first objective's tolerance |
| `Replay.CheckConstraints` | stateflow/control/replay.py:178-227 | the constraint reasons in order, or the error for an impossible value |
| `Replay.ReasonsAreViolations` | stateflow/control/replay.py:178-227 | each constraint reason is given if and only if its own limit is violated or unknown, and none if and only if every limit is met |
| `ReplayLaws.RejectedByConstraints` | stateflow/control/replay.py:104-109 | a candidate that does not meet the constraints is rejected for exactly the limits it violates, in the order of the checks |
| `Replay.EligibleExactlyWhenAdmissible` | stateflow/control/replay.py:104-116 | the eligible candidates are exactly those whose known figures meet every limit, and the selection is one of them |
| `ReplayLaws.ReplayRefusesExactlyWhen` | stateflow/control/replay.py:93-152 | the refusals in their order, each exactly when its own condition holds: no objectives, no predictions, a shared candidate id, a senseless limited figure, nobody admissible, a failing stage, no unique baseline, a senseless figure of the selection |
| `ReplayLaws.StageKeepsClose` | stateflow/control/replay.py:117-149 | a stage keeps exactly the candidates whose figure is within the tolerance of the best, absolute for success and relative for the others, and records objective, best and survivors; once one is left it does nothing |
| `ReplayLaws.StageFailsExactlyWhen` | stateflow/control/replay.py:255-276 | a stage fails exactly for a senseless figure of a candidate that is left, and else exactly if none of them has one |
| `ReplayLaws.RejectedByItsStage` | stateflow/control/replay.py:126-138 | an admissible candidate not left at the end has one reason: its figure is missing, or too far from the best, at the stage that eliminates it |
| `ReplayLaws.StagesAreTraced` | stateflow/control/replay.py:139-149 | the trace follows the policy objective by objective, and stages it leaves out come after a single candidate was left |
| `ReplayLaws.ValuesAreFigures` | stateflow/control/replay.py:153-158 | the objective values are the known figures of the selection |
| `ReplayLaws.BaselineIsUnique` | stateflow/control/replay.py:279-288 | the baseline is the only prediction for what the action names, or the only one at all if it names nothing |
| `Replay.GainIsImprovement` | stateflow/control/replay.py:291-341 | each gain is known exactly if both figures are, and positive exactly if the selection is better on that figure |
| `Replay.ControlledReplay` | stateflow/control/replay.py:85-175 | the loops over constraints and objectives, with their rejection lists and early stop, give exactly the specified decision or error |
| `Calibration.CalibrationBins` | stateflow/control/evaluation.py:239-266 | the grouping loop fills each bin with exactly its samples, skips empty bins, and refuses impossible probabilities |
| `Calibration.BinCountsAddUp` | stateflow/control/evaluation.py:239-266 | every sample lands in exactly one bin |
| `Calibration.EceCoversMeanGap` | stateflow/control/evaluation.py:172-178 | the calibration error is at least the gap between mean confidence and mean outcome |
| `Calibration.EceRisesUnderRefinement` | stateflow/control/evaluation.py:172-178 | multiplying the number of bins never lowers the calibration error |
| `Calibration.EceSquaredBelowBrier` | stateflow/control/evaluation.py:172-195 | the squared calibration error is at most the Brier score, and the error at most the mean absolute error |
| `Evaluation.FeedbackMeasuresError` | stateflow/control/evaluation.py:61-106 | each error is the distance between prediction and outcome, known exactly if both are, its percentage is its share of a positive actual value, and the Brier error its square; the indicators are what happened, and the calibration point pairs the predicted probability with 1 or 0 |
| `Evaluation.FeedbackRefusedExactlyWhen` | stateflow/control/evaluation.py:55-106 | feedback is refused exactly for foreign ids, a negative measurement, or an impossible probability |
| `Evaluation.FeedbackNamesItsParts` | stateflow/control/evaluation.py:96-106 | feedback names the decision, the action and the prediction that it joins |
| `Evaluation.TallySamples` | stateflow/control/evaluation.py:117-170 | the loop over the samples collects and counts exactly the errors, calibration points, observed and predicted fields and fallbacks |
| `Evaluation.MaterializeReport` | stateflow/control/evaluation.py:109-199 | the report, or the error for a bad bin count or an impossible probability, is exactly the specified one |
| `ReportLaws.ReportErrors` | stateflow/control/evaluation.py:117-170 | each mean error times the number of samples that have it is the sum of those errors in the feedback |
| `ReportLaws.ReportCounts` | stateflow/control/evaluation.py:117-199 | observed and predicted fields and fallbacks count exactly what they name, and coverage and fallback rate are the shares of them |
| `ReportLaws.ReportBrier` | stateflow/control/evaluation.py:172-195 | the Brier score is the mean squared miss of the success predictions |
| `ReportLaws.ReportRefusedExactlyWhen` | stateflow/control/evaluation.py:109-178 | a report is refused for a bin count below 1, and else exactly for a calibration point whose prediction is no probability |
| `ReportLaws.ReportBins` | stateflow/control/evaluation.py:239-266 | each bin stands for one of the equal intervals and gives number, mean confidence, mean outcome and gap of exactly the points in it, the bins ascend, none that is hit is left out, and the calibration error is the mean of their gaps by samples |
| `Evaluation.ReportIsCoherent` | stateflow/control/evaluation.py:109-199 | over built feedback the report never fails, predicted fields are exactly the latency, cost and success samples, coverage is a fraction, bins add up, and the calibration inequality holds |
| `JournalSpec.AddDecisionKeepsCoherent` | stateflow/control/journal.py:41-72 | recording a decision keeps decisions, actions and prediction ids unambiguous and each record's feedback the one built from its selected prediction |
| `JournalSpec.AddOutcomeKeepsCoherent` | stateflow/control/journal.py:74-98 | recording an outcome keeps all of that |
| `JournalSpec.IdentityGuardsNeverFire` | stateflow/control/evaluation.py:56-59 | the two id guards of the feedback builder can never fire from the journal |
| `JournalSpec.SelectionIsIndexed` | stateflow/control/journal.py:156-169 | a bundle's selected prediction is the one at its candidate's place |
| `JournalEffects.BundleIsWrongBecause` | stateflow/control/journal.py:139-155 | a bundle is refused for the first thing that is wrong with it: it is empty, lists other predictions or candidates, mixes snapshots, does not list exactly its model versions in ascending order, or picks no single prediction |
| `JournalEffects.ChosenMeansChosenAt` | stateflow/control/journal.py:156-169 | the chosen prediction is the only one for the candidate the action names, or the only one at all if it names none |
| `JournalEffects.DecisionIsAnswered` | stateflow/control/journal.py:41-72 | the answer to a decision: wrong bundle, repeat or conflict of its id, action taken, contradicted prediction; or else it is appended with, for every place, the last prediction of that id |
| `JournalEffects.OutcomeIsAnswered` | stateflow/control/journal.py:74-98 | the answer to an outcome of a known action: refused if it ends before it starts, the first feedback for a repeat, a conflict for another, and else exactly its record is completed with the feedback on its selected prediction |
| `JournalEffects.UnknownOutcomeIsRefused` | stateflow/control/journal.py:76-81 | an outcome of an unknown action is refused, after one that ends before it starts |
| `JournalRuns.EvidenceNeverChanges` | stateflow/control/journal.py:41-98 | over any run, recorded decisions, predictions, outcomes and feedback never change and are never lost |
| `JournalRuns.RepeatedDecisionIsNoOp` | stateflow/control/journal.py:49-55 | at any later time an identical decision is a no-op if and only if equal prediction ids in its bundle carry equal content; otherwise it is refused as conflicting |
| `JournalRuns.RepeatedDecisionCanConflict` | stateflow/control/journal.py:49-55 | a concrete accepted decision with one prediction id for two candidates that is refused as conflicting with itself when repeated |
| `JournalRuns.RepeatedOutcomeIsNoOp` | stateflow/control/journal.py:82-86 | at any later time a recorded outcome is answered with the feedback given first, and any other outcome for its action is refused |
| `JournalRuns.JournalReportsAreCoherent` | stateflow/control/journal.py:121-137 | a report over any part of a reachable journal succeeds with coherent figures |
| `ControlJournal.DecisionRefines` | stateflow/control/journal.py:65-71 | the dictionaries after recording a decision represent the list with one record appended |
| `ControlJournal.OutcomeRefines` | stateflow/control/journal.py:96-97 | the dictionaries after recording an outcome represent the list with that record completed |
| `ControlJournal.InMemoryControlJournal.RecordDecision` | stateflow/control/journal.py:41-72 | refines appending to the list, with the same errors in the same order; a raising call changes nothing |
| `ControlJournal.InMemoryControlJournal.RecordOutcome` | stateflow/control/journal.py:74-98 | refines completing a record, with the same errors; a raising call changes nothing |
| `ControlJournal.InMemoryControlJournal.Get` | stateflow/control/journal.py:100-115 | reads back the record of a decision, or refuses the id |
| `ControlJournal.InMemoryControlJournal.List` | stateflow/control/journal.py:117-119 | reads back the whole list in order |
| `ControlJournal.InMemoryControlJournal.Report` | stateflow/control/journal.py:121-137 | reports on exactly the records with feedback of the wanted model version, each of them once |
| `AnalyticalModel.TrustedExactlyWhenCovered` | stateflow/prediction/model.py:39-183 | a prediction is not marked as fallback if and only if its lookups required some feature, found all they required, and at least half of the snapshot was complete; confidence never exceeds completeness |
| `AnalyticalModel.TrustedPredictionIsKnown` | stateflow/prediction/model.py:39-127 | such a prediction knows its transfer time, latency and the pressure of any predicted memory use; known latencies are ordered |
| `AnalyticalModel.SelfContainedIsTrustedExactlyWhen` | stateflow/prediction/model.py:39-183 | a prediction from what the candidate itself says, without tokens, always succeeds, and is trusted if and only if the candidate moves bytes or occupies memory and half of the snapshot is complete |
| `AnalyticalModel.FeaturelessIsFallback` | stateflow/prediction/model.py:270-276 | a concrete routing candidate without parameters over an empty, complete snapshot is marked as fallback |
| `AnalyticalModel.SuccessIsBelowEachRisk` | stateflow/prediction/model.py:325-336 | success is a probability, at most the base and at most the chance of escaping either risk |
| `AnalyticalModel.FeatureResolver.NumberOf` | stateflow/prediction/model.py:233-260 | resolving one feature counts, notes and refuses exactly as specified |
| `AnalyticalModel.PredictCandidate` | stateflow/prediction/model.py:39-221 | the resolver object, asked feature by feature, gives exactly the specified prediction |
| `PredictionLaws.PredictsExactlyWhen` | stateflow/prediction/model.py:39-183 | a prediction is made if and only if each of its 25 numbers is given or read as a number that is not negative, or absent, and its location as a text, or absent |
| `PredictionLaws.LookupFinds` | stateflow/prediction/model.py:278-303 | a feature is the candidate's own parameter, or the value of its key for the candidate's component, or else for the only entity that has the key |
| `PredictionLaws.LatenciesFollow` | stateflow/prediction/model.py:39-102 | every duration is its amount at its rate plus setup, and unknown without a needed rate; first token and end to end are the sums of what leads up to them |
| `PredictionLaws.RisksAndMemoryFollow` | stateflow/prediction/model.py:104-150 | the pressure is the share of the capacity that will be occupied; both risks are piecewise linear between their thresholds; success is the base less each risk in turn |
| `PredictionLaws.CostsAndLoadFollow` | stateflow/prediction/model.py:152-214 | GPU time, memory time and money are products and a bill of the looked-up prices, and the predicted load follows the queue, its delta and the utilisation |
| `PredictionLaws.TrustFollows` | stateflow/prediction/model.py:177-276 | confidence, fallback, notes and ages: exactly the needed features that are known are weighed, and exactly the missing, zero or ambiguous ones are noted |
| `PredictionService.EvaluateIsUniform` | stateflow/prediction/service.py:150-174 | of a model that answers uniformly the service's answer, fallback or not, depends on the prediction id in nothing but the id |
| `PredictionService.AnalyticalIsUniform` | stateflow/prediction/model.py:39-221 | the analytical model is such a model, so this holds of its answers without condition |
| `PredictionLaws.ServiceAnswers` | stateflow/prediction/service.py:150-174 | the service answers with what the model says, marked as fallback if and only if that is not confident enough, or, when the model fails, with a fallback that knows nothing but the error |
| `PredictionService.RunsAreReproducible` | stateflow/prediction/service.py:97-113 | over any run everything journaled is what the serving model says about the stored inputs, once per id |
| `PredictionService.ReplayReproduces` | stateflow/prediction/service.py:115-132 | at any later time, replaying a journaled prediction under its own version gives it back exactly |
| `PredictionService.PredictionJournal.Append` | stateflow/prediction/service.py:37-43 | appends once per id; a repeated id changes nothing |
| `PredictionService.PredictionService.PredictFor` | stateflow/prediction/service.py:97-108 | reads the snapshot from the plane, evaluates and journals exactly as specified |
| `PredictionLaws.QuestionIsAnswered` | stateflow/prediction/service.py:97-108 | a question is refused for an unknown snapshot, or an id already on record, and changes nothing then; otherwise the answer is put on record with request and snapshot, as the newest |
| `PredictionService.PredictionService.RegisterModel` | stateflow/prediction/service.py:110-113 | adds or replaces a version's model; a registered version is refused unless replacing, and then nothing changes |
| `PredictionLaws.RegistrationAnswers` | stateflow/prediction/service.py:110-113 | a known version is refused unless replacing; otherwise it leads to the model, and nothing else changes |
| `PredictionLaws.ReplayAnswers` | stateflow/prediction/service.py:115-132 | a replay answers what the wanted or own version says about the stored inputs, under the old id for the own version and a new one for another; an unknown prediction is refused before an unknown version |
| `PredictionService.AskManyJournals` | stateflow/prediction/service.py:145-148 | several candidates are all answered and journaled, in order and with their requests, if and only if the answers' ids are new and distinct; otherwise exactly those before the first used id are on record |
| `KVSafety.OffersAreTargets` | stateflow/control/kv.py:297-376 | the offers are exactly those of the usable targets, at most one each |
| `KVEffects.OfferedExactlyWhen` | stateflow/control/kv.py:297-320 | a target is offered if and only if the owner may act that way and, unless the cache rests there, it is available and healthy |
| `KVEffects.OfferDescribesMove` | stateflow/control/kv.py:306-375 | an offer says by the kind of its move what is sent, stored, gained and freed, on whose terms, and what the snapshot holds of the memory concerned |
| `KVEffects.SituationIsHeld` | stateflow/control/kv.py:171-208 | the situation is what the snapshot holds for the cache, its agent and its location, with the seconds until resumption and the pressure as a share of the capacity |
| `KVEffects.ObservesExactlyWhen` | stateflow/control/kv.py:171-208 | it can be seen if and only if the targets are named apart, size and offered location are known, and nothing looked at is of the wrong kind |
| `KVEffects.ObservationErrors` | stateflow/control/kv.py:169-186 | the errors for what the targets, the size and the location lack, the size being looked at before the location |
| `KVEffects.OwnershipExactlyWhen` | stateflow/control/kv.py:276-295 | the controller may act if and only if it manages the cache by a prefix, both are registered, and the cache has an owner, the expected one if one is expected |
| `KVEffects.OwnershipErrors` | stateflow/control/kv.py:276-295 | otherwise the error is that of the first of these that fails |
| `KVSafety.SelectionIsSound` | stateflow/control/kv.py:378-455 | whatever is selected is the baseline or a trusted candidate of the wanted kind, under a complete enough snapshot and a stable transfer state |
| `KVSafety.NeverMigrates` | stateflow/control/kv.py:378-455 | migrate is never chosen; offload needs observed pressure on HBM, prefetch a source outside it |
| `KVChoice.MovesExactlyWhen` | stateflow/control/kv.py:394-455 | a plan moves the cache if and only if the situation calls for it, the snapshot is complete enough, the transfer state is stable and some candidate may be chosen; then it takes the best of those by duration, cost and location, and says why |
| `KVChoice.KeepsExactlyWhen` | stateflow/control/kv.py:394-455 | otherwise, and only then, the cache stays where it is |
| `KVEffects.KeepsBecause` | stateflow/control/kv.py:394-445 | the reason for staying is the first obstacle: an incomplete snapshot, nothing to do, an unstable transfer state, no confident prediction, no room |
| `KVSafety.PrefetchFitsSeenMemory` | stateflow/prediction/model.py:104-127 | through planner, service and model: a chosen prefetch fits, by the figures the model sees, under the configured share of an available target's memory |
| `KVSafety.PrefetchFitsMemory` | stateflow/control/kv.py:435-445 | with the target's own figures in the snapshot: used + reserved + size is at most `max_prefetch_hbm_pressure` times capacity |
| `KVSafety.PrefetchFitsExactlyWhenRecorded` | stateflow/control/kv.py:435-445 | a chosen prefetch is guaranteed to fit, for all memory figures of its target that the snapshot does not contradict, if and only if the snapshot records both of them |
| `KVUnseenMemory.UnseenMemoryIsFilled` | stateflow/control/kv.py:378-455 | a concrete run with the default configuration that prefetches 90 bytes into HBM of 100 of which neither figure is recorded, by the target or anybody else |
| `KVUnseenMemory.UnseenMemoryOverflows` | stateflow/prediction/model.py:278-297 | with more than 8 bytes in use there, which that snapshot admits, the same plan exceeds the configured share |
| `KVSafety.OffloadNeverRaisesPressure` | stateflow/prediction/model.py:113-127 | a chosen offload is never predicted to raise the observed pressure |
| `KVOutcome.ObservationIgnoresOrder` | stateflow/control/kv.py:166-208 | what is observed does not depend on the order of the targets |
| `KVOutcome.SelectionIgnoresOrder` | stateflow/control/kv.py:446-455 | the selected target and the reason do not depend on the order of the targets |
| `KVOutcome.CandidateIdsAreDistinct` | stateflow/control/kv.py:363-366 | within one plan candidate ids tell locations apart, whatever the refs contain |
| `KVEffects.IdNamesRevision` | stateflow/control/kv.py:363-366 | candidates of different revisions never share an id |
| `KVOutcome.SortedVersionsAreExact` | stateflow/control/kv.py:251-253 | the model versions of a decision are strictly sorted and exactly those of its predictions |
| `KVOutcome.PlanIsAccepted` | stateflow/control/journal.py:139-169 | with new ids the control journal accepts every plan, whatever it holds already, and stores its predictions as they are |
| `KVEffects.PlanIsWrittenDown` | stateflow/control/kv.py:219-274 | a plan lists candidates and predictions in order, and its action is the selected candidate under its id and size, on condition of what was seen, with memory reserved exactly where HBM is entered, twice the duration as timeout, and the way back |
| `KVController.AgentAwareKVController.MakeOffers` | stateflow/control/kv.py:297-376 | the candidate loop produces exactly the specified offers or error |
| `KVController.AgentAwareKVController.PredictMany` | stateflow/control/kv.py:216-218 | asks for one prediction per offer over one snapshot, with exactly the effect on the prediction journal, and the refusal at the first used id, that AskManyJournals describes |
| `KVController.AgentAwareKVController.PlanKv` | stateflow/control/kv.py:166-274 | answer, control records and prediction journal are exactly those that MovesExactlyWhen, KeepsBecause and PlanIsWrittenDown describe, for every request; an error leaves the control journal as it was |
| `KVController.PreparesExactlyWhen` | stateflow/control/kv.py:166-218 | under these conditions one prediction per offer is journaled, and nothing is journaled when a check fails |
| `KVController.PlansExactlyWhen` | stateflow/control/kv.py:166-274 | with new ids and a model that answers uniformly and names its subject, a plan is returned and recorded if and only if the snapshot is retained, ownership holds, the situation can be read and the offers include keeping; otherwise the error is that of the first check that fails |
| `KVController.AnalyticalPlansExactlyWhen` | stateflow/control/kv.py:166-274 | the same for the analytical model, without further condition on the model |
| `Histogram.HistogramQuantile` | stateflow/adapters/source.py:97-140 | accumulates the matching buckets, sorts them and walks to the quantile; the three special answers |
| `Histogram.TotalsAreSums` | stateflow/adapters/source.py:106-117 | there is a bucket for exactly the bounds that occur among the matching series, and it holds the sum of them |
| `Histogram.ResultDividesBucket` | stateflow/adapters/source.py:120-140 | whatever the counts are, the walk ends at the first that reaches the target, and the result divides the bounds of that bucket as the target divides its counts, unless the bucket is open or the first one and empty |
| `Histogram.Walk` | stateflow/adapters/source.py:125-140 | the bucket walk with its two running values gives the specified interpolation |
| `Histogram.ListingIsUnique` | stateflow/adapters/source.py:120-120 | the sorted listing of the buckets is unique, so the result is determined |
| `Histogram.TargetIsReached` | stateflow/adapters/source.py:125-140 | for cumulative counts the return after the loop is unreachable |
| `Histogram.QuantileIsMonotone` | stateflow/adapters/source.py:97-140 | a larger quantile never gives a smaller result |
| `Histogram.QuantileIsBounded` | stateflow/adapters/source.py:97-140 | the result lies between 0 and the largest finite bound |
| `Histogram.QuantileInvertsCdf` | stateflow/adapters/source.py:97-140 | where the reached bucket is finite and has width in count and bound, the piecewise-linear distribution function at the result equals total times quantile |

## Left out

- Callbacks, subscribers, locks and threads: each locked operation is one atomic step, and callback errors change nothing.
- Metrics, heartbeats, component descriptors and the freshness summary of the plane: appends and overwrites that do not touch the revision.
- HTTP and gRPC transport, request decoding, the command line and the process loop; of the gRPC server only the cursor loop of the stream is modelled.
- Prometheus text parsing and label unescaping: samples arrive parsed, with their bucket bound.
- Copying: the code deep-copies what it stores and returns; records are values here, so aliasing cannot occur.
- Fresh ids, tokens and clock readings are parameters. Snapshot tokens are not assumed distinct.
- NaN and infinite numbers, and rounding: numbers are reals, so the checks for finite values are not modelled.
- Glob matching, the success predictor, the future value of kept KV, timestamp parsing and number formatting are function parameters; every statement about all environments holds for any choice. The predictor is a function, so it answers alike on both passes of one request.
- Semantic kind, source reference and correlation fields of state records, and the unit of a canonical key: carried along by the code without influence on what is modelled.
- Snapshots list values and relations as sorted tuples; here they are maps and sets. Snapshot identities are pairs rather than joined strings.
- Authorities are already parsed; names are lower-cased by ASCII rules.
- The scheduler's per-stage cost and latency figures in its trace, and its evaluation records as shared objects: stages update sequences of records, and a trace entry keeps tier, bound and verdict.
- Sections of an agent state other than header, routing history, selection and decision log: one abstract body. Applying an event is an arbitrary function of state and event; an event whose application raises halfway is not modelled, and neither is the sequence number written back into the caller's event object beyond its being returned.
- The other fields of the scheduling view are arbitrary in each round of the closed loop.
- Resource deltas, workload, tenant and service level of the control records: carried along only.
- Prediction records keep the request, the snapshot and the prediction, not the time of creation; listing by filters is not modelled.
- KV state is read from a map, so the refusal of a duplicate value cannot arise; boolean parameters are not modelled.
- RelationConvergence.GreatestWriteWins: for writes without time to live, explicit version, expected version or idempotency key, as with any of those the order of delivery decides.
- ClosedLoop.NoPingPong: assumes a fixed tier per model, named models, and events that do not patch the routing history; an event may do so in the code.
- ClosedLoop.StreakOverridesExactlyWhen: for sessions whose decisions all come from the closed loop; a caller that records a decision with a view of its own sets the remembered streak to that view's.
- PredictionService.ReplayReproduces: assumes a deterministic model whose version is not registered again with another model.
- KVSafety.PrefetchFitsMemory: needs the target's figures in the snapshot, and KVSafety.PrefetchFitsExactlyWhenRecorded shows that it must.
- Scheduler.SelectedBeatsEveryNearCheapest: needs distinct target keys, since a duplicate key is timed as its last owner.
- Histogram.QuantileInvertsCdf: needs a reached bucket of positive width in its bound, since a first bucket with bound 0 has no points between its edges to invert.
- KVController.AgentAwareKVController.PredictMany: for a prediction service over the controller's own plane; one over another plane, which the code accepts, would look the snapshot up there.
- KVController.AgentAwareKVController.PlanKv: the same.
- ChangeFeed.WatchState: models the rounds of polling; waiting and cancellation are not modelled.
