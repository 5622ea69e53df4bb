// What the control journal answers to a decision and to an outcome, and what it keeps of them.

module JournalEffects {
  import opened Basics
  import opened ControlTypes
  import opened Evaluation
  import opened JournalSpec

  // ---- Bundles ----

  /** The candidate an action names: its parameter, unless that is empty or zero. */
  ghost predicate Names(action: Action, id: Parameter) {
    CandidateId in action.parameters && action.parameters[CandidateId] == id && id != Text("") && id != Num(0.0)
  }

  /** The prediction an action was chosen for: the only one for the candidate it names, or the only one at all. */
  ghost predicate ChosenAt(action: Action, values: seq<Prediction>, i: nat) {
    && i < |values|
    && ((forall id :: !Names(action, id)) ==> |values| == 1)
    && forall id :: Names(action, id) ==> forall j :: 0 <= j < |values| ==> (Text(values[j].candidateId) == id <==> j == i)
  }

  lemma NamedMeansNames(action: Action)
    ensures NamedCandidate(action).Some? ==> Names(action, NamedCandidate(action).value)
    ensures forall id :: Names(action, id) ==> NamedCandidate(action) == Some(id)
  {
  }

  lemma ChosenMeansChosenAt(action: Action, values: seq<Prediction>)
    ensures ChosenPrediction(action, values).Some? <==> exists i: nat :: ChosenAt(action, values, i)
    ensures forall i: nat :: ChosenAt(action, values, i) ==> ChosenPrediction(action, values) == Some(values[i])
  {
    hide ForCandidate, NamedCandidate, Names;
    NamedMeansNames(action);
    if NamedCandidate(action).Some? {
      var id := NamedCandidate(action).value;
      SingleMatch(values, id);
      forall i: nat ensures ChosenAt(action, values, i) <==> i < |values| && OnlyMatch(values, id, i) {
        ChosenIsOnlyMatch(action, values, id, i);
      }
    } else if |values| == 1 {
      assert ChosenAt(action, values, 0);
    }
  }

  lemma ChosenIsOnlyMatch(action: Action, values: seq<Prediction>, id: Parameter, i: nat)
    requires Names(action, id) && forall other :: Names(action, other) ==> other == id
    ensures ChosenAt(action, values, i) <==> i < |values| && OnlyMatch(values, id, i)
  {
    hide Names;
  }

  ghost predicate SameIds(decision: DecisionRecord, values: seq<Prediction>) {
    && |decision.predictionIds| == |values|
    && forall i :: 0 <= i < |values| ==> decision.predictionIds[i] == values[i].predictionId
  }

  ghost predicate SameCandidates(decision: DecisionRecord, values: seq<Prediction>) {
    && |decision.candidateIds| == |values|
    && forall i :: 0 <= i < |values| ==> decision.candidateIds[i] == values[i].candidateId
  }

  ghost predicate SameVersions(decision: DecisionRecord, values: seq<Prediction>) {
    && (forall i, j :: 0 <= i < j < |decision.modelVersions| ==>
          StringLess(decision.modelVersions[i], decision.modelVersions[j]))
    && forall v :: v in decision.modelVersions <==> exists p :: p in values && p.modelVersion == v
  }

  /** What is wrong with a bundle is the first thing that is: it is empty, its predictions or candidates are not those that
      the decision lists, some prediction is of another snapshot, the model versions are not exactly theirs in ascending
      order, or the action does not pick exactly one of them. */
  ghost predicate WrongBecause(decision: DecisionRecord, values: seq<Prediction>, error: Option<JournalError>) {
    if values == [] then error == Some(EmptyBundle)
    else if !SameIds(decision, values) then error == Some(PredictionIdsDiffer)
    else if !SameCandidates(decision, values) then error == Some(CandidateIdsDiffer)
    else if !(forall p :: p in values ==> p.snapshotId == decision.snapshotId) then error == Some(SnapshotsDiffer)
    else if !SameVersions(decision, values) then error == Some(ModelVersionsDiffer)
    else if forall i: nat :: !ChosenAt(decision.selectedAction, values, i) then error == Some(NoUniqueSelection)
    else error == None
  }

  lemma BundleIsWrongBecause(decision: DecisionRecord, values: seq<Prediction>)
    ensures WrongBecause(decision, values, BundleError(decision, values))
  {
    hide ChosenAt, ChosenPrediction, StrictlySorted, SameVersions;
    ChosenMeansChosenAt(decision.selectedAction, values);
    VersionsAgree(decision, values);
  }

  lemma VersionsAgree(decision: DecisionRecord, values: seq<Prediction>)
    ensures SameVersions(decision, values) <==>
            StrictlySorted(decision.modelVersions) && (set v | v in decision.modelVersions) == VersionsOf(values)
  {
    hide StringLess;
    forall v ensures v in VersionsOf(values) <==> exists p :: p in values && p.modelVersion == v {
    }
    var listed := set v | v in decision.modelVersions;
    assert forall v :: v in listed <==> v in decision.modelVersions;
    hide VersionsOf;
  }

  // ---- Decisions ----

  /** Of several predictions with one id the last one is kept, in each of their places. */
  ghost predicate KeepsLast(values: seq<Prediction>, kept: seq<Prediction>) {
    |kept| == |values| && forall i :: 0 <= i < |values| ==> IsLastOfId(values, values[i].predictionId, kept[i])
  }

  ghost predicate IsLastOfId(values: seq<Prediction>, id: string, p: Prediction) {
    exists k: nat ::
      && k < |values| && values[k] == p && p.predictionId == id
      && forall j :: k < j < |values| ==> values[j].predictionId != id
  }

  lemma {:induction false} LastIsLastOfId(values: seq<Prediction>, id: string, i: nat) returns (k: nat)
    requires i < |values| && values[i].predictionId == id
    ensures k < |values| && values[k].predictionId == id && LastWithId(values, id) == Some(values[k])
    ensures forall j :: k < j < |values| ==> values[j].predictionId != id
  {
    var n := |values| - 1;
    if values[n].predictionId == id {
      k := n;
    } else {
      k := LastIsLastOfId(values[..n], id, i);
      assert forall j :: 0 <= j < n ==> values[..n][j] == values[j];
    }
  }

  lemma StoredKeepsLast(values: seq<Prediction>)
    ensures KeepsLast(values, Stored(values))
  {
    forall i | 0 <= i < |values| ensures IsLastOfId(values, values[i].predictionId, Stored(values)[i]) {
      var k := LastIsLastOfId(values, values[i].predictionId, i);
      StoredAt(values, i);
    }
  }

  ghost predicate DecidedAt(records: Records, id: string, i: nat) {
    i < |records| && records[i].decision.decisionId == id
  }

  ghost predicate ActsAt(records: Records, id: string, i: nat) {
    i < |records| && records[i].decision.selectedAction.actionId == id
  }

  /** Another prediction is known under the id of one of these. */
  ghost predicate Contradicts(records: Records, values: seq<Prediction>) {
    exists i: nat, p, q ::
      i < |records| && p in records[i].predictions && q in values && p.predictionId == q.predictionId && p != q
  }

  lemma ClashMeansContradicts(records: Records, values: seq<Prediction>)
    ensures Clashes(records, values) <==> Contradicts(records, values)
  {
    if i: nat, p, q :| i < |records| && p in records[i].predictions && q in values && p.predictionId == q.predictionId
                       && p != q
    {
      assert Holds(records, p);
    }
    if p, q :| Holds(records, p) && q in values && p.predictionId == q.predictionId && p != q {
      var i :| 0 <= i < |records| && p in records[i].predictions;
    }
  }

  /** The answer to a decision: refused for its bundle; a repeat of the record that has its id, or in conflict with it;
      refused for its action or its predictions; or else recorded as the newest. */
  ghost predicate DecisionAnswer(
      records: Records, decision: DecisionRecord, values: seq<Prediction>, wrong: Option<JournalError>,
      r: Result<Records, JournalError>)
  {
    && (wrong.Some? ==> r == Err(wrong.value))
    && (wrong.None? ==>
          && (forall i: nat :: DecidedAt(records, decision.decisionId, i) ==>
                var same := records[i].decision == decision && records[i].predictions == values;
                r == if same then Ok(records) else Err(ConflictingDecision))
          && ((forall i: nat :: !DecidedAt(records, decision.decisionId, i)) ==>
                if exists i: nat :: ActsAt(records, decision.selectedAction.actionId, i) then r == Err(ActionTaken)
                else if Contradicts(records, values) then r == Err(ConflictingPrediction)
                else r.Ok? && IsAppended(records, decision, values, r.value)))
  }

  ghost predicate IsAppended(records: Records, decision: DecisionRecord, values: seq<Prediction>, after: Records) {
    && |after| == |records| + 1 && after[..|records|] == records
    && after[|records|].decision == decision && KeepsLast(values, after[|records|].predictions)
    && after[|records|].outcome == None && after[|records|].feedback == None
  }

  lemma DecisionIsAnswered(records: Records, decision: DecisionRecord, values: seq<Prediction>)
    returns (wrong: Option<JournalError>)
    requires Coherent(records)
    ensures WrongBecause(decision, values, wrong)
    ensures DecisionAnswer(records, decision, values, wrong, AddDecision(records, decision, values))
  {
    hide BundleError, Stored, Clashes, Contradicts, KeepsLast, SoundRecord, WrongBecause;
    wrong := BundleError(decision, values);
    BundleIsWrongBecause(decision, values);
    ClashMeansContradicts(records, values);
    StoredKeepsLast(values);
    if i: nat :| DecidedAt(records, decision.decisionId, i) {
      OnlyDecidedHere(records, decision.decisionId, i);
    }
    HasDecisionMeansAt(records, decision.decisionId);
    HasActionMeansAt(records, decision.selectedAction.actionId);
  }

  lemma OnlyDecidedHere(records: Records, id: string, i: nat)
    requires Coherent(records) && DecidedAt(records, id, i)
    ensures HasDecision(records, id) && Position(records, id) == i
    ensures forall j: nat :: DecidedAt(records, id, j) ==> j == i
  {
    hide SoundRecord;
  }

  lemma HasDecisionMeansAt(records: Records, id: string)
    ensures HasDecision(records, id) <==> exists i: nat :: DecidedAt(records, id, i)
  {
    if i :| 0 <= i < |records| && records[i].decision.decisionId == id {
      assert DecidedAt(records, id, i);
    }
  }

  lemma HasActionMeansAt(records: Records, id: string)
    ensures HasAction(records, id) <==> exists i: nat :: ActsAt(records, id, i)
  {
    if i :| 0 <= i < |records| && records[i].decision.selectedAction.actionId == id {
      assert ActsAt(records, id, i);
    }
  }

  // ---- Outcomes ----

  /** The place of the selected candidate in a decision: the first with the name that the action gives, or the first of
      all if it gives none. */
  ghost predicate SelectedAt(decision: DecisionRecord, k: nat) {
    && ((forall id :: !Names(decision.selectedAction, id)) ==> k == 0)
    && forall id :: Names(decision.selectedAction, id) ==>
         && k <= |decision.candidateIds| && (k < |decision.candidateIds| ==> Text(decision.candidateIds[k]) == id)
         && forall j :: 0 <= j < k ==> Text(decision.candidateIds[j]) != id
  }

  lemma SelectedIsAt(decision: DecisionRecord)
    ensures SelectedAt(decision, SelectedIndex(decision))
  {
    hide Names, NamedCandidate;
    NamedMeansNames(decision.selectedAction);
  }

  /** The record of an action that has no outcome yet gets the outcome, and the feedback on its selected prediction. */
  ghost predicate Completes(
      before: JoinedRecord, outcome: Outcome, feedbackId: string, at: int, after: JoinedRecord, f: Feedback)
  {
    && after == before.(outcome := Some(outcome), feedback := Some(f))
    && exists k: nat :: k < |before.predictions| && SelectedAt(before.decision, k)
                        && BuildFeedback(before.decision, before.predictions[k], outcome,
                                         "prediction:" + before.predictions[k].predictionId, feedbackId, at) == Ok(f)
  }

  /** The answer to an outcome: refused if it ends before it starts or its action is unknown; for a completed action its
      feedback if the outcome is the same, and a conflict if not; or else its record is completed, and no other changes. */
  lemma OutcomeIsAnswered(records: Records, outcome: Outcome, feedbackId: string, at: int, i: nat)
    requires Coherent(records) && ActsAt(records, outcome.actionId, i)
    ensures var r, before := AddOutcome(records, outcome, feedbackId, at), records[i];
            && (outcome.completedAt < outcome.startedAt ==> r == Err(CompletedBeforeStart))
            && (outcome.completedAt >= outcome.startedAt ==>
                  && (before.outcome == Some(outcome) ==> before.feedback.Some? && r == Ok((records, before.feedback.value)))
                  && (before.outcome.Some? && before.outcome != Some(outcome) ==> r == Err(ConflictingOutcome))
                  && (before.outcome.None? && r.Ok? ==>
                        && |r.value.0| == |records| && Completes(before, outcome, feedbackId, at, r.value.0[i], r.value.1)
                        && forall j :: 0 <= j < |records| && j != i ==> r.value.0[j] == records[j])
                  && (before.outcome.None? && r.Err? ==> r.error.BadFeedback?))
  {
    hide BuildFeedback, SelectedIndex, SelectedAt;
    SelectedIsAt(records[i].decision);
    assert SoundRecord(records[i]);
    assert i == PositionOfAction(records, outcome.actionId);
  }

  lemma UnknownOutcomeIsRefused(records: Records, outcome: Outcome, feedbackId: string, at: int)
    requires Coherent(records) && forall i: nat :: !ActsAt(records, outcome.actionId, i)
    ensures AddOutcome(records, outcome, feedbackId, at)
            == Err(if outcome.completedAt < outcome.startedAt then CompletedBeforeStart else UnknownAction)
  {
    hide BuildFeedback;
    HasActionMeansAt(records, outcome.actionId);
  }
}
