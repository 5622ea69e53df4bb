// The control journal as it is kept: seven dictionaries and an order, standing for one list of joined records.

module ControlJournal {
  import opened Basics
  import opened ControlTypes
  import opened Evaluation
  import opened JournalSpec
  import opened JournalRuns

  datatype Tables = Tables(
    decisions: map<string, DecisionRecord>,
    predictions: map<string, Prediction>,
    decisionPredictions: map<string, seq<string>>,
    actionDecisions: map<string, string>,
    selectedPredictions: map<string, string>,
    outcomes: map<string, Outcome>,
    feedback: map<string, Feedback>,
    order: seq<string>,
    feedbackOrder: seq<string>)

  function Entry<V>(m: map<string, V>, key: string): Option<V> {
    if key in m then Some(m[key]) else None
  }

  // ---- What the dictionaries stand for ----

  ghost predicate StoresPredictions(t: Tables, r: JoinedRecord) {
    forall p :: p in r.predictions ==> Entry(t.predictions, p.predictionId) == Some(p)
  }

  /** The dictionaries hold exactly the parts of this record under its ids. */
  ghost predicate Linked(t: Tables, r: JoinedRecord) {
    var id, action := r.decision.decisionId, r.decision.selectedAction.actionId;
    && Entry(t.decisions, id) == Some(r.decision)
    && Entry(t.decisionPredictions, id) == Some(r.decision.predictionIds)
    && Entry(t.actionDecisions, action) == Some(id)
    && SelectedIndex(r.decision) < |r.predictions|
    && Entry(t.selectedPredictions, action) == Some(r.predictions[SelectedIndex(r.decision)].predictionId)
    && Entry(t.outcomes, action) == r.outcome
    && Entry(t.feedback, action) == r.feedback
  }

  ghost predicate KnowsPrediction(records: Records, id: string) {
    exists p :: Holds(records, p) && p.predictionId == id
  }

  predicate Distinct<T(==)>(s: seq<T>) {
    forall i, j :: 0 <= i < j < |s| ==> s[i] != s[j]
  }

  /** Nothing is stored that no record accounts for. */
  ghost predicate NothingExtra(t: Tables, records: Records) {
    && (forall id :: id in t.decisions ==> HasDecision(records, id))
    && (forall id :: id in t.actionDecisions ==> HasAction(records, id))
    && (forall id :: id in t.predictions ==> KnowsPrediction(records, id))
    && (forall id :: id in t.outcomes || id in t.feedback ==> HasAction(records, id))
    && (forall id :: id in t.feedbackOrder <==> id in t.feedback)
    && Distinct(t.feedbackOrder)
  }

  ghost predicate Represents(t: Tables, records: Records) {
    && |t.order| == |records|
    && (forall i :: 0 <= i < |records| ==>
          && t.order[i] == records[i].decision.decisionId
          && Linked(t, records[i]) && StoresPredictions(t, records[i]))
    && NothingExtra(t, records)
  }

  /** The record read back from the dictionaries. */
  function Read(t: Tables, id: string): Option<JoinedRecord> {
    if id !in t.decisions || id !in t.decisionPredictions then None
    else
      var decision, ids := t.decisions[id], t.decisionPredictions[id];
      if exists i :: 0 <= i < |ids| && ids[i] !in t.predictions then None
      else
        Some(JoinedRecord(
               decision, seq(|ids|, i requires 0 <= i < |ids| => t.predictions[ids[i]]),
               Entry(t.outcomes, decision.selectedAction.actionId), Entry(t.feedback, decision.selectedAction.actionId)))
  }

  lemma ReadsBack(t: Tables, records: Records, i: nat)
    requires Represents(t, records) && Coherent(records) && i < |records|
    ensures Read(t, records[i].decision.decisionId) == Some(records[i])
  {
    hide NothingExtra, SelectedIndex;
    var r := records[i];
    assert SoundRecord(r) && Linked(t, r) && StoresPredictions(t, r);
    var ids := r.decision.predictionIds;
    assert |ids| == |r.predictions|;
    forall k | 0 <= k < |ids| ensures Entry(t.predictions, ids[k]) == Some(r.predictions[k]) {
      assert r.predictions[k] in r.predictions && ids[k] == r.predictions[k].predictionId;
    }
    var read := Read(t, r.decision.decisionId);
    assert read.Some? && read.value.predictions == r.predictions;
  }

  // ---- Recording a decision ----

  function StoreAll(predictions: map<string, Prediction>, values: seq<Prediction>): map<string, Prediction> {
    if values == [] then predictions
    else StoreAll(predictions, values[..|values| - 1])[values[|values| - 1].predictionId := values[|values| - 1]]
  }

  lemma {:induction false} StoreAllEntry(predictions: map<string, Prediction>, values: seq<Prediction>, id: string)
    ensures Entry(StoreAll(predictions, values), id)
            == if LastWithId(values, id).Some? then LastWithId(values, id) else Entry(predictions, id)
  {
    if values != [] {
      StoreAllEntry(predictions, values[..|values| - 1], id);
    }
  }

  function WithDecision(t: Tables, decision: DecisionRecord, values: seq<Prediction>, selected: Prediction): Tables {
    var id, action := decision.decisionId, decision.selectedAction.actionId;
    t.(decisions := t.decisions[id := decision],
       decisionPredictions := t.decisionPredictions[id := decision.predictionIds],
       actionDecisions := t.actionDecisions[action := id],
       selectedPredictions := t.selectedPredictions[action := selected.predictionId],
       predictions := StoreAll(t.predictions, values),
       order := t.order + [id])
  }

  lemma StoredSelection(decision: DecisionRecord, values: seq<Prediction>)
    requires BundleError(decision, values).None?
    ensures SelectedIndex(decision) < |values|
    ensures Stored(values)[SelectedIndex(decision)].predictionId
            == ChosenPrediction(decision.selectedAction, values).value.predictionId
  {
    hide BundleError, ChosenPrediction, SelectedIndex, Stored;
    SelectionIsIndexed(decision, values);
    StoredAt(values, SelectedIndex(decision));
  }

  lemma OldPredictionsStay(t: Tables, records: Records, values: seq<Prediction>, p: Prediction)
    requires Represents(t, records) && Holds(records, p) && !Clashes(records, values)
    ensures Entry(StoreAll(t.predictions, values), p.predictionId) == Some(p)
  {
    hide Linked, NothingExtra, StoreAll;
    var i :| 0 <= i < |records| && p in records[i].predictions;
    assert StoresPredictions(t, records[i]);
    StoreAllEntry(t.predictions, values, p.predictionId);
    var last := LastWithId(values, p.predictionId);
    if last.Some? {
      LastIsMember(values, p.predictionId);
    }
  }

  lemma {:induction false} LastIsMember(values: seq<Prediction>, id: string)
    requires LastWithId(values, id).Some?
    ensures LastWithId(values, id).value in values && LastWithId(values, id).value.predictionId == id
  {
    if values[|values| - 1].predictionId != id {
      LastIsMember(values[..|values| - 1], id);
    }
  }

  lemma NewPredictionsAreStored(predictions: map<string, Prediction>, values: seq<Prediction>, p: Prediction)
    requires p in Stored(values)
    ensures Entry(StoreAll(predictions, values), p.predictionId) == Some(p)
  {
    hide StoreAll, LastWithId, Stored;
    var i :| 0 <= i < |values| && Stored(values)[i] == p;
    StoredAt(values, i);
    StoreAllEntry(predictions, values, p.predictionId);
  }

  lemma DecisionIsLinked(t: Tables, decision: DecisionRecord, values: seq<Prediction>)
    requires BundleError(decision, values).None?
    requires decision.selectedAction.actionId !in t.outcomes && decision.selectedAction.actionId !in t.feedback
    ensures var chosen := ChosenPrediction(decision.selectedAction, values);
            && chosen.Some?
            && var t' := WithDecision(t, decision, values, chosen.value);
               var r := JoinedRecord(decision, Stored(values), None, None);
               Linked(t', r) && StoresPredictions(t', r)
  {
    hide StoreAll, Stored, SelectedIndex;
    StoredSelection(decision, values);
    forall p | p in Stored(values) ensures Entry(StoreAll(t.predictions, values), p.predictionId) == Some(p) {
      NewPredictionsAreStored(t.predictions, values, p);
    }
  }

  lemma DecisionLeavesOthers(t: Tables, records: Records, decision: DecisionRecord, values: seq<Prediction>,
                             selected: Prediction, i: nat)
    requires Represents(t, records) && i < |records| && !Clashes(records, values)
    requires !HasDecision(records, decision.decisionId) && !HasAction(records, decision.selectedAction.actionId)
    ensures Linked(WithDecision(t, decision, values, selected), records[i])
    ensures StoresPredictions(WithDecision(t, decision, values, selected), records[i])
  {
    hide StoreAll, SelectedIndex, NothingExtra, Clashes;
    assert Linked(t, records[i]) && StoresPredictions(t, records[i]);
    forall p | p in records[i].predictions
      ensures Entry(StoreAll(t.predictions, values), p.predictionId) == Some(p)
    {
      assert Holds(records, p);
      OldPredictionsStay(t, records, values, p);
    }
  }

  lemma Appended(records: Records, r: JoinedRecord)
    ensures forall id :: HasDecision(records + [r], id) <==> HasDecision(records, id) || r.decision.decisionId == id
    ensures forall id :: HasAction(records + [r], id) <==>
                         HasAction(records, id) || r.decision.selectedAction.actionId == id
  {
    var after := records + [r];
    assert after[|records|] == r;
    forall id | HasDecision(records, id) ensures HasDecision(after, id) {
      var i :| 0 <= i < |records| && records[i].decision.decisionId == id;
      assert after[i] == records[i];
    }
    forall id | HasAction(records, id) ensures HasAction(after, id) {
      var i :| 0 <= i < |records| && records[i].decision.selectedAction.actionId == id;
      assert after[i] == records[i];
    }
  }

  lemma PredictionsAreKnown(t: Tables, records: Records, r: JoinedRecord, values: seq<Prediction>, id: string)
    requires NothingExtra(t, records) && r.predictions == Stored(values) && id in StoreAll(t.predictions, values)
    ensures KnowsPrediction(records + [r], id)
  {
    hide StoreAll, Stored, LastWithId, Holds;
    StoreAllEntry(t.predictions, values, id);
    if LastWithId(values, id).Some? {
      LastIsMember(values, id);
      var i :| 0 <= i < |values| && values[i] == LastWithId(values, id).value;
      StoredAt(values, i);
      HoldsAppended(records, r, Stored(values)[i]);
    } else {
      var p :| Holds(records, p) && p.predictionId == id;
      HoldsAppended(records, r, p);
    }
  }

  lemma DecisionRefines(t: Tables, records: Records, decision: DecisionRecord, values: seq<Prediction>)
    requires Represents(t, records) && BundleError(decision, values).None? && !Clashes(records, values)
    requires !HasDecision(records, decision.decisionId) && !HasAction(records, decision.selectedAction.actionId)
    ensures var chosen := ChosenPrediction(decision.selectedAction, values);
            && chosen.Some?
            && Represents(WithDecision(t, decision, values, chosen.value),
                          records + [JoinedRecord(decision, Stored(values), None, None)])
  {
    hide StoreAll, Stored, SelectedIndex, Clashes, BundleError, Linked, StoresPredictions, HasDecision, HasAction;
    var r := JoinedRecord(decision, Stored(values), None, None);
    DecisionIsLinked(t, decision, values);
    var t' := WithDecision(t, decision, values, ChosenPrediction(decision.selectedAction, values).value);
    forall i | 0 <= i < |records| ensures Linked(t', records[i]) && StoresPredictions(t', records[i]) {
      DecisionLeavesOthers(t, records, decision, values, ChosenPrediction(decision.selectedAction, values).value, i);
    }
    Appended(records, r);
    forall id | id in t'.predictions ensures KnowsPrediction(records + [r], id) {
      PredictionsAreKnown(t, records, r, values, id);
    }
  }

  // ---- Recording an outcome ----

  function WithOutcome(t: Tables, outcome: Outcome, f: Feedback): Tables {
    t.(outcomes := t.outcomes[outcome.actionId := outcome],
       feedback := t.feedback[outcome.actionId := f],
       feedbackOrder := t.feedbackOrder + [outcome.actionId])
  }

  function Observed(r: JoinedRecord, outcome: Outcome, f: Feedback): JoinedRecord {
    r.(outcome := Some(outcome), feedback := Some(f))
  }

  lemma OutcomeIsLinked(t: Tables, r: JoinedRecord, outcome: Outcome, f: Feedback)
    requires Linked(t, r)
    ensures Linked(WithOutcome(t, outcome, f),
                   if r.decision.selectedAction.actionId == outcome.actionId then Observed(r, outcome, f) else r)
  {
    hide SelectedIndex;
  }

  lemma OutcomeAccountedFor(t: Tables, records: Records, after: Records, outcome: Outcome, f: Feedback)
    requires NothingExtra(t, records) && HasAction(records, outcome.actionId) && outcome.actionId !in t.feedback
    requires |records| == |after|
    requires forall i :: 0 <= i < |records| ==>
               after[i].decision == records[i].decision && after[i].predictions == records[i].predictions
    ensures NothingExtra(WithOutcome(t, outcome, f), after)
  {
    hide HasDecision, HasAction, KnowsPrediction;
    SameIds(records, after);
  }

  lemma OutcomeRefines(t: Tables, records: Records, k: nat, outcome: Outcome, f: Feedback)
    requires Represents(t, records) && Coherent(records) && k < |records|
    requires records[k].decision.selectedAction.actionId == outcome.actionId && outcome.actionId !in t.feedback
    ensures Represents(WithOutcome(t, outcome, f), records[k := Observed(records[k], outcome, f)])
  {
    hide SelectedIndex, SoundRecord, Linked, NothingExtra, Holds;
    var after, t' := records[k := Observed(records[k], outcome, f)], WithOutcome(t, outcome, f);
    assert HasAction(records, outcome.actionId);
    OutcomeAccountedFor(t, records, after, outcome, f);
    forall i | 0 <= i < |records| ensures Linked(t', after[i]) && StoresPredictions(t', after[i]) {
      assert Linked(t, records[i]) && StoresPredictions(t, records[i]);
      OutcomeIsLinked(t, records[i], outcome, f);
    }
  }

  lemma SameIds(records: Records, after: Records)
    requires |records| == |after|
    requires forall i :: 0 <= i < |records| ==>
               after[i].decision == records[i].decision && after[i].predictions == records[i].predictions
    ensures forall id :: HasDecision(records, id) ==> HasDecision(after, id)
    ensures forall id :: HasAction(records, id) ==> HasAction(after, id)
    ensures forall id :: KnowsPrediction(records, id) ==> KnowsPrediction(after, id)
  {
    forall id | HasDecision(records, id) ensures HasDecision(after, id) {
      var i :| 0 <= i < |records| && records[i].decision.decisionId == id;
      assert after[i].decision.decisionId == id;
    }
    forall id | HasAction(records, id) ensures HasAction(after, id) {
      var i :| 0 <= i < |records| && records[i].decision.selectedAction.actionId == id;
      assert after[i].decision.selectedAction.actionId == id;
    }
    forall id | KnowsPrediction(records, id) ensures KnowsPrediction(after, id) {
      var p :| Holds(records, p) && p.predictionId == id;
      var i :| 0 <= i < |records| && p in records[i].predictions;
      assert p in after[i].predictions;
    }
  }

  // ---- What lookups find ----

  lemma DecisionLookup(t: Tables, records: Records, id: string)
    requires Represents(t, records) && Coherent(records)
    ensures id in t.decisions <==> HasDecision(records, id)
    ensures HasDecision(records, id) ==>
              Position(records, id) < |records| && Read(t, id) == Some(records[Position(records, id)])
  {
    hide SelectedIndex, SoundRecord, Read, Holds, KnowsPrediction;
    if HasDecision(records, id) {
      var i :| 0 <= i < |records| && records[i].decision.decisionId == id;
      PositionIsUnique(records, i);
      assert Linked(t, records[i]);
      ReadsBack(t, records, i);
    }
  }

  lemma KnownDecision(t: Tables, records: Records, id: string)
    requires Represents(t, records) && Coherent(records) && HasDecision(records, id)
    ensures Position(records, id) < |records|
    ensures Entry(t.decisions, id) == Some(records[Position(records, id)].decision)
  {
    hide SelectedIndex, SoundRecord, NothingExtra, StoresPredictions;
    var i :| 0 <= i < |records| && records[i].decision.decisionId == id;
    PositionIsUnique(records, i);
    assert Linked(t, records[i]);
  }

  lemma ActionLookup(t: Tables, records: Records, action: string)
    requires Represents(t, records) && Coherent(records)
    ensures action in t.actionDecisions <==> HasAction(records, action)
    ensures HasAction(records, action) ==>
              && PositionOfAction(records, action) < |records|
              && Linked(t, records[PositionOfAction(records, action)])
              && StoresPredictions(t, records[PositionOfAction(records, action)])
  {
    hide SelectedIndex, SoundRecord, Holds, KnowsPrediction, StoresPredictions;
    if HasAction(records, action) {
      var i :| 0 <= i < |records| && records[i].decision.selectedAction.actionId == action;
      PositionIsUnique(records, i);
      assert Linked(t, records[i]);
    }
  }

  /** Some stored prediction differs from one of these under its own id. */
  predicate Disputes(predictions: map<string, Prediction>, values: seq<Prediction>) {
    exists q :: q in values && q.predictionId in predictions && predictions[q.predictionId] != q
  }

  lemma HeldIsStored(t: Tables, records: Records, p: Prediction)
    requires Represents(t, records) && Holds(records, p)
    ensures Entry(t.predictions, p.predictionId) == Some(p)
  {
    hide Linked, NothingExtra;
    var i :| 0 <= i < |records| && p in records[i].predictions;
    assert StoresPredictions(t, records[i]);
  }

  lemma StoredIsHeld(t: Tables, records: Records, id: string)
    requires Represents(t, records) && id in t.predictions
    ensures Holds(records, t.predictions[id]) && t.predictions[id].predictionId == id
  {
    hide Linked, StoresPredictions, Holds, HasDecision, HasAction;
    var p :| Holds(records, p) && p.predictionId == id;
    HeldIsStored(t, records, p);
  }

  lemma PredictionLookup(t: Tables, records: Records, values: seq<Prediction>)
    requires Represents(t, records)
    ensures Disputes(t.predictions, values) <==> Clashes(records, values)
  {
    hide Represents, Holds;
    if q :| q in values && q.predictionId in t.predictions && t.predictions[q.predictionId] != q {
      StoredIsHeld(t, records, q.predictionId);
    }
    if p, q :| Holds(records, p) && q in values && p.predictionId == q.predictionId && p != q {
      HeldIsStored(t, records, p);
    }
  }

  lemma RecordIsSound(records: Records, k: nat)
    requires Coherent(records) && k < |records|
    ensures SoundRecord(records[k]) && SelectedIndex(records[k].decision) < |records[k].predictions|
    ensures records[k].outcome.Some? <==> records[k].feedback.Some?
    ensures PositionOfAction(records, records[k].decision.selectedAction.actionId) == k
  {
    hide BuildFeedback, SelectedIndex;
    PositionIsUnique(records, k);
  }

  lemma SelectedIsStored(t: Tables, r: JoinedRecord)
    requires Linked(t, r) && StoresPredictions(t, r)
    ensures var action := r.decision.selectedAction.actionId;
            && action in t.actionDecisions && Entry(t.decisions, t.actionDecisions[action]) == Some(r.decision)
            && action in t.selectedPredictions
            && SelectedIndex(r.decision) < |r.predictions|
            && Entry(t.predictions, t.selectedPredictions[action]) == Some(r.predictions[SelectedIndex(r.decision)])
  {
    hide SelectedIndex;
    var i := SelectedIndex(r.decision);
    assert r.predictions[i] in r.predictions;
  }

  // ---- Reporting ----

  /** The sample the dictionaries hold for an action. */
  function SampleFor(t: Tables, action: string): Sample {
    if action in t.feedback && action in t.selectedPredictions && t.selectedPredictions[action] in t.predictions then
      (t.predictions[t.selectedPredictions[action]], t.feedback[action])
    else NO_SAMPLE
  }

  const NO_SAMPLE: Sample := (
    Prediction("", "", "", Performance(None, None, None, None, None), Reliability(None, None, None, None),
               Cost(None, None, None, None, None), FutureState(None, None, None, None, None, None),
               0.0, "", "", map[], "", []),
    Feedback("", 0, "", "", "", Outcome("", Started, 0, 0, None, None, None, map[], ""),
             PredictionError(None, None, None, None, None, None), Kpis(None, None, None), None, ""))

  lemma SampleLookup(t: Tables, records: Records, action: string)
    requires Represents(t, records) && Coherent(records) && action in t.feedbackOrder
    ensures var k := PositionOfAction(records, action);
            k < |records| && SampleOf(records[k]) == Some(SampleFor(t, action))
  {
    hide SelectedIndex, SoundRecord, Holds, KnowsPrediction, HasDecision;
    ActionLookup(t, records, action);
    SelectedIsStored(t, records[PositionOfAction(records, action)]);
  }

  /** A record with feedback of the wanted model version; the empty version wants all. */
  predicate Wanted(r: JoinedRecord, modelVersion: string) {
    SampleOf(r).Some? && (modelVersion == "" || SampleOf(r).value.0.modelVersion == modelVersion)
  }

  /** The samples are those of the wanted records, each record once; `picked` says which record gave which sample. */
  ghost predicate Picks(records: Records, modelVersion: string, picked: seq<nat>, samples: seq<Sample>) {
    && |picked| == |samples| && Distinct(picked)
    && (forall j :: 0 <= j < |picked| ==>
          picked[j] < |records| && SampleOf(records[picked[j]]) == Some(samples[j]))
    && forall i: nat :: i < |records| ==> (i in picked <==> Wanted(records[i], modelVersion))
  }

  /** The positions of the wanted records among the first `n` that got feedback, in the order they got it. */
  ghost function PickedOf(records: Records, actions: seq<string>, modelVersion: string): (picked: seq<nat>)
    ensures forall k :: k in picked ==> k < |records| && Wanted(records[k], modelVersion)
                                        && records[k].decision.selectedAction.actionId in actions
    ensures forall j :: 0 <= j < |picked| ==> picked[j] < |records|
  {
    if actions == [] then []
    else
      var action := actions[|actions| - 1];
      var k, front := PositionOfAction(records, action), PickedOf(records, actions[..|actions| - 1], modelVersion);
      assert action in actions && forall id :: id in actions[..|actions| - 1] ==> id in actions;
      if k < |records| && Wanted(records[k], modelVersion) then front + [k] else front
  }

  lemma {:induction false} PickedAreDistinct(records: Records, actions: seq<string>, modelVersion: string)
    requires Distinct(actions)
    ensures Distinct(PickedOf(records, actions, modelVersion))
    ensures forall id :: id in actions ==>
              var k := PositionOfAction(records, id);
              k < |records| && Wanted(records[k], modelVersion) ==> k in PickedOf(records, actions, modelVersion)
  {
    hide Wanted;
    if actions != [] {
      var front := actions[..|actions| - 1];
      PickedAreDistinct(records, front, modelVersion);
      assert forall id :: id in actions ==> id in front || id == actions[|actions| - 1];
    }
  }

  lemma FeedbackIsListed(t: Tables, records: Records, i: nat)
    requires Represents(t, records) && Coherent(records) && i < |records| && SampleOf(records[i]).Some?
    ensures records[i].decision.selectedAction.actionId in t.feedbackOrder
    ensures PositionOfAction(records, records[i].decision.selectedAction.actionId) == i
  {
    hide SelectedIndex, SoundRecord, Holds, KnowsPrediction, HasDecision, HasAction, Coherent;
    assert Linked(t, records[i]);
    RecordIsSound(records, i);
  }

  lemma PickOne(records: Records, actions: seq<string>, action: string, modelVersion: string)
    ensures var k := PositionOfAction(records, action);
            PickedOf(records, actions + [action], modelVersion)
            == PickedOf(records, actions, modelVersion)
               + if k < |records| && Wanted(records[k], modelVersion) then [k] else []
  {
    assert (actions + [action])[..|actions|] == actions;
  }

  lemma NothingPicked(records: Records, modelVersion: string)
    ensures PickedOf(records, [], modelVersion) == []
  {
  }

  lemma OrderIsDistinct(t: Tables, records: Records)
    requires Represents(t, records)
    ensures Distinct(t.feedbackOrder)
  {
  }

  /** Every wanted record is picked. */
  lemma PicksAll(t: Tables, records: Records, modelVersion: string, samples: seq<Sample>)
    requires Represents(t, records) && Coherent(records)
    requires var picked := PickedOf(records, t.feedbackOrder, modelVersion);
             && |samples| == |picked|
             && forall j :: 0 <= j < |picked| ==> SampleOf(records[picked[j]]) == Some(samples[j])
    ensures Picks(records, modelVersion, PickedOf(records, t.feedbackOrder, modelVersion), samples)
  {
    hide Coherent, Represents, PickedOf, SampleOf, Wanted, Distinct;
    OrderIsDistinct(t, records);
    PickedAreDistinct(records, t.feedbackOrder, modelVersion);
    forall i: nat | i < |records| && Wanted(records[i], modelVersion)
      ensures i in PickedOf(records, t.feedbackOrder, modelVersion)
    {
      WantedHasSample(records[i], modelVersion);
      FeedbackIsListed(t, records, i);
    }
  }

  lemma PickedAreFromRecords(records: Records, modelVersion: string, picked: seq<nat>, samples: seq<Sample>)
    requires Picks(records, modelVersion, picked, samples)
    ensures FromRecords(records, samples)
  {
    hide SampleOf, Wanted;
    forall s | s in samples ensures exists i :: 0 <= i < |records| && SampleOf(records[i]) == Some(s) {
      var j :| 0 <= j < |samples| && samples[j] == s;
      assert SampleOf(records[picked[j]]) == Some(s);
    }
  }

  lemma WantedHasSample(r: JoinedRecord, modelVersion: string)
    requires Wanted(r, modelVersion)
    ensures SampleOf(r).Some?
  {
  }

  // ---- The journal as it runs ----

  class InMemoryControlJournal {
    var decisions: map<string, DecisionRecord>
    var predictions: map<string, Prediction>
    var decisionPredictions: map<string, seq<string>>
    var actionDecisions: map<string, string>
    var selectedPredictions: map<string, string>
    var outcomes: map<string, Outcome>
    var feedback: map<string, Feedback>
    var order: seq<string>
    var feedbackOrder: seq<string>
    ghost var records: Records

    function View(): Tables
      reads this
    {
      Tables(decisions, predictions, decisionPredictions, actionDecisions, selectedPredictions, outcomes, feedback,
             order, feedbackOrder)
    }

    ghost predicate Valid()
      reads this
    {
      Represents(View(), records) && Coherent(records)
    }

    constructor ()
      ensures Valid() && records == []
    {
      decisions, predictions, decisionPredictions := map[], map[], map[];
      actionDecisions, selectedPredictions, outcomes, feedback := map[], map[], map[], map[];
      order, feedbackOrder, records := [], [], [];
    }

    method Get(id: string) returns (r: Result<JoinedRecord, JournalError>)
      requires Valid()
      ensures r == if HasDecision(records, id) then Ok(records[Position(records, id)]) else Err(UnknownDecision)
    {
      hide Represents, Coherent, Read;
      DecisionLookup(View(), records, id);
      if id !in decisions {
        return Err(UnknownDecision);
      }
      r := Ok(Read(View(), id).value);
    }

    method List() returns (all: seq<JoinedRecord>)
      requires Valid()
      ensures all == records
    {
      hide Coherent, Read, Linked, StoresPredictions, NothingExtra;
      all := [];
      for i := 0 to |order|
        invariant all == records[..i]
      {
        ReadsBack(View(), records, i);
        all := all + [Read(View(), order[i]).value];
      }
    }

    method CheckBundle(decision: DecisionRecord, values: seq<Prediction>) returns (r: Result<Prediction, JournalError>)
      ensures r == if BundleError(decision, values).Some? then Err(BundleError(decision, values).value)
                   else Ok(ChosenPrediction(decision.selectedAction, values).value)
    {
      hide StrictlySorted, VersionsOf, ChosenPrediction;
      if values == [] {
        return Err(EmptyBundle);
      }
      if decision.predictionIds != PredictionIds(values) {
        return Err(PredictionIdsDiffer);
      }
      if decision.candidateIds != CandidateIds(values) {
        return Err(CandidateIdsDiffer);
      }
      if exists p :: p in values && p.snapshotId != decision.snapshotId {
        return Err(SnapshotsDiffer);
      }
      if !(StrictlySorted(decision.modelVersions) && (set v | v in decision.modelVersions) == VersionsOf(values)) {
        return Err(ModelVersionsDiffer);
      }
      var chosen := ChosenPrediction(decision.selectedAction, values);
      r := if chosen.None? then Err(NoUniqueSelection) else Ok(chosen.value);
    }

    /** The checks of a decision; the joined record if it is known already. */
    method Admit(decision: DecisionRecord, values: seq<Prediction>)
      returns (r: Result<Option<JoinedRecord>, JournalError>)
      requires Valid()
      ensures match AddDecision(records, decision, values)
              case Err(e) => r == Err(e)
              case Ok(after) =>
                if HasDecision(records, decision.decisionId) then
                  after == records && r == Ok(Some(records[Position(records, decision.decisionId)]))
                else
                  && r == Ok(None) && BundleError(decision, values).None?
                  && !HasAction(records, decision.selectedAction.actionId) && !Clashes(records, values)
    {
      hide Represents, Coherent, BundleError, Clashes, Stored, Read, ChosenPrediction, Disputes;
      var checked := CheckBundle(decision, values);
      if checked.Err? {
        return Err(checked.error);
      }
      DecisionLookup(View(), records, decision.decisionId);
      if decision.decisionId in decisions {
        var joined := Read(View(), decision.decisionId).value;
        KnownDecision(View(), records, decision.decisionId);
        if decisions[decision.decisionId] == decision && joined.predictions == values {
          return Ok(Some(joined));
        }
        return Err(ConflictingDecision);
      }
      var action := decision.selectedAction.actionId;
      ActionLookup(View(), records, action);
      if action in actionDecisions {
        return Err(ActionTaken);
      }
      PredictionLookup(View(), records, values);
      r := if Disputes(predictions, values) then Err(ConflictingPrediction) else Ok(None);
    }

    method Store(decision: DecisionRecord, values: seq<Prediction>, selected: Prediction)
      requires Valid()
      requires BundleError(decision, values).None? && !Clashes(records, values)
      requires !HasDecision(records, decision.decisionId) && !HasAction(records, decision.selectedAction.actionId)
      requires ChosenPrediction(decision.selectedAction, values) == Some(selected)
      modifies this
      ensures Valid()
      ensures AddDecision(old(records), decision, values) == Ok(records)
    {
      hide Represents, Coherent, BundleError, Clashes, Stored, ChosenPrediction, StoreAll;
      DecisionRefines(View(), records, decision, values);
      AddDecisionKeepsCoherent(records, decision, values);
      var action := decision.selectedAction.actionId;
      decisions := decisions[decision.decisionId := decision];
      decisionPredictions := decisionPredictions[decision.decisionId := decision.predictionIds];
      actionDecisions := actionDecisions[action := decision.decisionId];
      selectedPredictions := selectedPredictions[action := selected.predictionId];
      var stored := StorePredictions(predictions, values);
      predictions := stored;
      order := order + [decision.decisionId];
      records := records + [JoinedRecord(decision, Stored(values), None, None)];
      assert View() == WithDecision(old(View()), decision, values, selected);
    }

    /** Refines appending to the list; a call that raises changes nothing. */
    method RecordDecision(decision: DecisionRecord, values: seq<Prediction>)
      returns (r: Result<JoinedRecord, JournalError>)
      requires Valid()
      modifies this
      ensures Valid()
      ensures match AddDecision(old(records), decision, values)
              case Err(e) => r == Err(e) && records == old(records) && View() == old(View())
              case Ok(after) => records == after && Position(after, decision.decisionId) < |after|
                                && r == Ok(after[Position(after, decision.decisionId)])
    {
      hide Represents, Coherent, BundleError, Clashes, Stored, Read, ChosenPrediction, AddDecision;
      var admitted := Admit(decision, values);
      if admitted.Err? {
        return Err(admitted.error);
      }
      AcceptedIsRecorded(records, decision, values);
      if admitted.value.Some? {
        return Ok(admitted.value.value);
      }
      SelectionIsIndexed(decision, values);
      Store(decision, values, ChosenPrediction(decision.selectedAction, values).value);
      DecisionLookup(View(), records, decision.decisionId);
      r := Ok(Read(View(), decision.decisionId).value);
    }

    static method StorePredictions(before: map<string, Prediction>, values: seq<Prediction>)
      returns (after: map<string, Prediction>)
      ensures after == StoreAll(before, values)
    {
      after := before;
      for i := 0 to |values|
        invariant after == StoreAll(before, values[..i])
      {
        assert values[..i + 1][..i] == values[..i];
        after := after[values[i].predictionId := values[i]];
      }
      assert values[..|values|] == values;
    }

    method RecordOutcome(outcome: Outcome, feedbackId: string, at: int) returns (r: Result<Feedback, JournalError>)
      requires Valid()
      modifies this
      ensures Valid()
      ensures match AddOutcome(old(records), outcome, feedbackId, at)
              case Err(e) => r == Err(e) && records == old(records) && View() == old(View())
              case Ok(after) => records == after.0 && r == Ok(after.1)
    {
      hide Represents, BuildFeedback, SelectedIndex, SoundRecord, StoresPredictions, Coherent;
      if outcome.completedAt < outcome.startedAt {
        return Err(CompletedBeforeStart);
      }
      var action := outcome.actionId;
      ActionLookup(View(), records, action);
      if action !in actionDecisions {
        return Err(UnknownAction);
      }
      ghost var k := PositionOfAction(records, action);
      RecordIsSound(records, k);
      if action in outcomes {
        return if outcomes[action] == outcome then Ok(feedback[action]) else Err(ConflictingOutcome);
      }
      var decision := decisions[actionDecisions[action]];
      var predictionId := selectedPredictions[action];
      SelectedIsStored(View(), records[k]);
      var prediction := predictions[predictionId];
      var built := BuildFeedback(decision, prediction, outcome, PointerTo(predictionId), feedbackId, at);
      if built.Err? {
        return Err(BadFeedback(built.error));
      }
      AddOutcomeKeepsCoherent(records, outcome, feedbackId, at);
      StoreOutcome(outcome, built.value, k);
      r := Ok(built.value);
    }

    method StoreOutcome(outcome: Outcome, f: Feedback, ghost k: nat)
      requires Valid() && k < |records| && Coherent(records[k := Observed(records[k], outcome, f)])
      requires records[k].decision.selectedAction.actionId == outcome.actionId && outcome.actionId !in feedback
      modifies this
      ensures Valid() && records == old(records)[k := Observed(old(records)[k], outcome, f)]
    {
      hide Represents, Coherent;
      OutcomeRefines(View(), records, k, outcome, f);
      outcomes := outcomes[outcome.actionId := outcome];
      feedback := feedback[outcome.actionId := f];
      feedbackOrder := feedbackOrder + [outcome.actionId];
      records := records[k := Observed(records[k], outcome, f)];
      assert View() == WithOutcome(old(View()), outcome, f);
    }

    /** The evaluation report over all feedback, or over one model version's. */
    method Report(modelVersion: string, count: int)
      returns (r: Result<Report, ReportError>, ghost picked: seq<nat>, ghost samples: seq<Sample>)
      requires Valid()
      ensures Picks(records, modelVersion, picked, samples) && FromRecords(records, samples)
      ensures r == ReportOf(samples, count)
    {
      hide Represents, Coherent, ReportOf, Picks, PickedOf, SampleOf, FromRecords;
      var found := [];
      NothingPicked(records, modelVersion);
      for i := 0 to |feedbackOrder|
        invariant var wanted := PickedOf(records, feedbackOrder[..i], modelVersion);
                  && |found| == |wanted|
                  && forall j :: 0 <= j < |wanted| ==> SampleOf(records[wanted[j]]) == Some(found[j])
      {
        var s := SampleFor(View(), feedbackOrder[i]);
        SampleLookup(View(), records, feedbackOrder[i]);
        assert feedbackOrder[..i + 1] == feedbackOrder[..i] + [feedbackOrder[i]];
        PickOne(records, feedbackOrder[..i], feedbackOrder[i], modelVersion);
        if modelVersion == "" || s.0.modelVersion == modelVersion {
          found := found + [s];
        }
      }
      assert feedbackOrder[..|feedbackOrder|] == feedbackOrder;
      picked, samples := PickedOf(records, feedbackOrder, modelVersion), found;
      PicksAll(View(), records, modelVersion, samples);
      PickedAreFromRecords(records, modelVersion, picked, samples);
      r := MaterializeReport(found, count);
    }
  }
}
