// The control journal as one append-only list of joined records.

module JournalSpec {
  import opened Basics
  import opened ControlTypes
  import opened Evaluation

  datatype JournalError =
    | EmptyBundle
    | PredictionIdsDiffer
    | CandidateIdsDiffer
    | SnapshotsDiffer
    | ModelVersionsDiffer
    | NoUniqueSelection
    | ConflictingDecision
    | ActionTaken
    | ConflictingPrediction
    | CompletedBeforeStart
    | UnknownAction
    | UnknownDecision
    | ConflictingOutcome
    | BadFeedback(cause: FeedbackError)

  type Records = seq<JoinedRecord>

  // ---- Bundles ----

  predicate StrictlySorted(s: seq<string>) {
    forall i, j :: 0 <= i < j < |s| ==> StringLess(s[i], s[j])
  }

  function VersionsOf(values: seq<Prediction>): set<string> {
    set p | p in values :: p.modelVersion
  }

  /** What is wrong with a decision and its predictions, if anything. */
  function BundleError(decision: DecisionRecord, values: seq<Prediction>): Option<JournalError> {
    if values == [] then Some(EmptyBundle)
    else if decision.predictionIds != PredictionIds(values) then Some(PredictionIdsDiffer)
    else if decision.candidateIds != CandidateIds(values) then Some(CandidateIdsDiffer)
    else if exists p :: p in values && p.snapshotId != decision.snapshotId then Some(SnapshotsDiffer)
    else if !(StrictlySorted(decision.modelVersions) && (set v | v in decision.modelVersions) == VersionsOf(values)) then
      Some(ModelVersionsDiffer)
    else if ChosenPrediction(decision.selectedAction, values).None? then Some(NoUniqueSelection)
    else None
  }

  /** Predictions are stored by id, so of several with one id the last one stays. */
  function LastWithId(values: seq<Prediction>, id: string): Option<Prediction> {
    if values == [] then None
    else if values[|values| - 1].predictionId == id then Some(values[|values| - 1])
    else LastWithId(values[..|values| - 1], id)
  }

  function Stored(values: seq<Prediction>): (r: seq<Prediction>)
    ensures |r| == |values|
  {
    seq(|values|, i requires 0 <= i < |values| =>
      match LastWithId(values, values[i].predictionId)
      case Some(p) => p
      case None => values[i])
  }

  // ---- The list ----

  ghost predicate HasDecision(records: Records, id: string) {
    exists i :: 0 <= i < |records| && records[i].decision.decisionId == id
  }

  ghost predicate HasAction(records: Records, id: string) {
    exists i :: 0 <= i < |records| && records[i].decision.selectedAction.actionId == id
  }

  ghost predicate Holds(records: Records, p: Prediction) {
    exists i :: 0 <= i < |records| && p in records[i].predictions
  }

  /** Another prediction is already recorded under the id of one of these. */
  ghost predicate Clashes(records: Records, values: seq<Prediction>) {
    exists p, q :: Holds(records, p) && q in values && p.predictionId == q.predictionId && p != q
  }

  function Position(records: Records, id: string): (i: nat)
    ensures i <= |records|
    ensures i < |records| ==> records[i].decision.decisionId == id
    ensures forall j :: 0 <= j < i ==> records[j].decision.decisionId != id
  {
    if records == [] then 0
    else if records[0].decision.decisionId == id then 0
    else Position(records[1..], id) + 1
  }

  function PositionOfAction(records: Records, id: string): (i: nat)
    ensures i <= |records|
    ensures i < |records| ==> records[i].decision.selectedAction.actionId == id
    ensures forall j :: 0 <= j < i ==> records[j].decision.selectedAction.actionId != id
  {
    if records == [] then 0
    else if records[0].decision.selectedAction.actionId == id then 0
    else PositionOfAction(records[1..], id) + 1
  }

  /** Recording a decision: the new list, and the record's place in it. */
  ghost function AddDecision(records: Records, decision: DecisionRecord, values: seq<Prediction>)
    : (r: Result<Records, JournalError>)
  {
    if BundleError(decision, values).Some? then Err(BundleError(decision, values).value)
    else if HasDecision(records, decision.decisionId) then
      var known := records[Position(records, decision.decisionId)];
      if known.decision == decision && known.predictions == values then Ok(records) else Err(ConflictingDecision)
    else if HasAction(records, decision.selectedAction.actionId) then Err(ActionTaken)
    else if Clashes(records, values) then Err(ConflictingPrediction)
    else Ok(records + [JoinedRecord(decision, Stored(values), None, None)])
  }

  /** The prediction an action was selected for, by its place among the decision's candidates. */
  function SelectedIndex(decision: DecisionRecord): (i: nat)
  {
    match NamedCandidate(decision.selectedAction)
    case None => 0
    case Some(id) => IndexOfCandidate(decision.candidateIds, id)
  }

  function IndexOfCandidate(ids: seq<string>, id: Parameter): (i: nat)
    ensures i <= |ids|
    ensures i < |ids| ==> Text(ids[i]) == id
    ensures forall j :: 0 <= j < i ==> Text(ids[j]) != id
  {
    if ids == [] || Text(ids[0]) == id then 0 else IndexOfCandidate(ids[1..], id) + 1
  }

  function PointerTo(predictionId: string): string {
    "prediction:" + predictionId
  }

  ghost function AddOutcome(records: Records, outcome: Outcome, feedbackId: string, at: int)
    : Result<(Records, Feedback), JournalError>
    requires Coherent(records)
  {
    if outcome.completedAt < outcome.startedAt then Err(CompletedBeforeStart)
    else if !HasAction(records, outcome.actionId) then Err(UnknownAction)
    else
      var i := PositionOfAction(records, outcome.actionId);
      var r := records[i];
      if r.outcome.Some? then
        if r.outcome == Some(outcome) then Ok((records, r.feedback.value)) else Err(ConflictingOutcome)
      else
        var p := r.predictions[SelectedIndex(r.decision)];
        match BuildFeedback(r.decision, p, outcome, PointerTo(p.predictionId), feedbackId, at)
        case Err(e) => Err(BadFeedback(e))
        case Ok(f) => Ok((records[i := r.(outcome := Some(outcome), feedback := Some(f))], f))
  }

  // ---- What every list satisfies ----

  ghost predicate SoundRecord(r: JoinedRecord) {
    && PredictionIds(r.predictions) == r.decision.predictionIds
    && SelectedIndex(r.decision) < |r.predictions|
    && (r.outcome.Some? <==> r.feedback.Some?)
    && (r.feedback.Some? ==>
          var p, f := r.predictions[SelectedIndex(r.decision)], r.feedback.value;
          BuildFeedback(r.decision, p, r.outcome.value, PointerTo(p.predictionId), f.feedbackId, f.timestamp) == Ok(f))
  }

  /** Every decision and action occurs once, and one prediction id means one prediction throughout. */
  ghost predicate Coherent(records: Records) {
    && (forall i :: 0 <= i < |records| ==> SoundRecord(records[i]))
    && (forall i, j :: 0 <= i < j < |records| ==>
          && records[i].decision.decisionId != records[j].decision.decisionId
          && records[i].decision.selectedAction.actionId != records[j].decision.selectedAction.actionId)
    && (forall p, q :: Holds(records, p) && Holds(records, q) && p.predictionId == q.predictionId ==> p == q)
  }

  lemma {:induction false} LastWithIdFinds(values: seq<Prediction>, i: nat)
    requires i < |values|
    ensures var p := LastWithId(values, values[i].predictionId);
            p.Some? && p.value in values && p.value.predictionId == values[i].predictionId
  {
    if values[|values| - 1].predictionId != values[i].predictionId {
      LastWithIdFinds(values[..|values| - 1], i);
    }
  }

  lemma StoredAt(values: seq<Prediction>, i: nat)
    requires i < |values|
    ensures Some(Stored(values)[i]) == LastWithId(values, values[i].predictionId)
    ensures Stored(values)[i] in values && Stored(values)[i].predictionId == values[i].predictionId
  {
    LastWithIdFinds(values, i);
  }

  lemma StoredKeepsIds(values: seq<Prediction>)
    ensures PredictionIds(Stored(values)) == PredictionIds(values)
    ensures forall p :: p in Stored(values) ==> p in values
    ensures forall i, j :: 0 <= i < |values| && 0 <= j < |values| && values[i].predictionId == values[j].predictionId ==>
              Stored(values)[i] == Stored(values)[j]
  {
    hide Stored, LastWithId;
    forall i | 0 <= i < |values|
      ensures Stored(values)[i] in values && Stored(values)[i].predictionId == values[i].predictionId
      ensures Some(Stored(values)[i]) == LastWithId(values, values[i].predictionId)
    {
      StoredAt(values, i);
    }
    assert |PredictionIds(Stored(values))| == |PredictionIds(values)|;
  }

  /** The candidate named by the action sits at the selected index, and nowhere else. */
  lemma SelectionIsIndexed(decision: DecisionRecord, values: seq<Prediction>)
    requires BundleError(decision, values).None?
    ensures SelectedIndex(decision) < |values|
    ensures ChosenPrediction(decision.selectedAction, values) == Some(values[SelectedIndex(decision)])
  {
    var named := NamedCandidate(decision.selectedAction);
    if named.Some? {
      var chosen := ForCandidate(values, named.value)[0];
      assert chosen in ForCandidate(values, named.value);
      var k :| 0 <= k < |values| && values[k] == chosen;
      assert Text(decision.candidateIds[k]) == named.value;
      var i := IndexOfCandidate(decision.candidateIds, named.value);
      assert i <= k && values[i].candidateId == decision.candidateIds[i];
      assert values[i] in ForCandidate(values, named.value);
    }
  }

  lemma HoldsAppended(records: Records, r: JoinedRecord, p: Prediction)
    ensures Holds(records + [r], p) <==> Holds(records, p) || p in r.predictions
  {
    if p in r.predictions {
      assert (records + [r])[|records|] == r;
    }
    if i :| 0 <= i < |records| && p in records[i].predictions {
      assert (records + [r])[i] == records[i];
    }
  }

  lemma AddDecisionKeepsCoherent(records: Records, decision: DecisionRecord, values: seq<Prediction>)
    requires Coherent(records) && AddDecision(records, decision, values).Ok?
    ensures Coherent(AddDecision(records, decision, values).value)
  {
    hide BundleError, Stored, SelectedIndex;
    var after := AddDecision(records, decision, values).value;
    if after != records {
      var r := JoinedRecord(decision, Stored(values), None, None);
      StoredKeepsIds(values);
      SelectionIsIndexed(decision, values);
      BundleIdsMatch(decision, values);
      hide SoundRecord, Holds;
      assert SoundRecord(r) by {
        NewRecordIsSound(r);
      }
      forall p, q | Holds(after, p) && Holds(after, q) && p.predictionId == q.predictionId ensures p == q {
        HoldsAppended(records, r, p);
        HoldsAppended(records, r, q);
        SameIdInBundle(values, p, q);
      }
    }
  }

  lemma NewRecordIsSound(r: JoinedRecord)
    requires PredictionIds(r.predictions) == r.decision.predictionIds && SelectedIndex(r.decision) < |r.predictions|
    requires r.outcome.None? && r.feedback.None?
    ensures SoundRecord(r)
  {
  }

  lemma BundleIdsMatch(decision: DecisionRecord, values: seq<Prediction>)
    requires BundleError(decision, values).None?
    ensures decision.predictionIds == PredictionIds(values)
  {
  }

  lemma SameIdInBundle(values: seq<Prediction>, p: Prediction, q: Prediction)
    requires p.predictionId == q.predictionId
    ensures p in Stored(values) && q in Stored(values) ==> p == q
  {
    StoredKeepsIds(values);
    if p in Stored(values) && q in Stored(values) {
      var i, j :| 0 <= i < |values| && 0 <= j < |values| && Stored(values)[i] == p && Stored(values)[j] == q;
      assert PredictionIds(Stored(values))[i] == PredictionIds(values)[i];
      assert PredictionIds(Stored(values))[j] == PredictionIds(values)[j];
    }
  }

  lemma AddOutcomeKeepsCoherent(records: Records, outcome: Outcome, feedbackId: string, at: int)
    requires Coherent(records) && AddOutcome(records, outcome, feedbackId, at).Ok?
    ensures Coherent(AddOutcome(records, outcome, feedbackId, at).value.0)
  {
    hide BuildFeedback, SelectedIndex;
    var after := AddOutcome(records, outcome, feedbackId, at).value.0;
    if after != records {
      FeedbackKeepsItsId(records[PositionOfAction(records, outcome.actionId)], outcome, feedbackId, at);
      assert forall i :: 0 <= i < |records| ==> after[i].predictions == records[i].predictions;
      assert forall p :: Holds(after, p) ==> Holds(records, p);
    }
  }

  lemma FeedbackKeepsItsId(r: JoinedRecord, outcome: Outcome, feedbackId: string, at: int)
    requires SelectedIndex(r.decision) < |r.predictions|
    ensures var p := r.predictions[SelectedIndex(r.decision)];
            var f := BuildFeedback(r.decision, p, outcome, PointerTo(p.predictionId), feedbackId, at);
            f.Ok? ==> f.value.feedbackId == feedbackId && f.value.timestamp == at && f.value.outcome == outcome
  {
  }

  /** The two identity guards of the feedback builder never fire from the journal. */
  lemma IdentityGuardsNeverFire(records: Records, outcome: Outcome, feedbackId: string, at: int)
    requires Coherent(records)
    ensures AddOutcome(records, outcome, feedbackId, at) != Err(BadFeedback(ActionMismatch))
    ensures AddOutcome(records, outcome, feedbackId, at) != Err(BadFeedback(ForeignPrediction))
  {
    hide SelectedIndex;
    if HasAction(records, outcome.actionId) {
      var r := records[PositionOfAction(records, outcome.actionId)];
      assert SoundRecord(r);
      var i := SelectedIndex(r.decision);
      assert r.decision.predictionIds[i] == r.predictions[i].predictionId;
    }
  }
}
