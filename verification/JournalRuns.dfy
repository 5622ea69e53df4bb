// Whole runs of the control journal: recorded evidence stays, and repeats are harmless.

module JournalRuns {
  import opened Basics
  import opened ControlTypes
  import opened Calibration
  import opened Evaluation
  import opened JournalSpec

  datatype Op =
    | RecordDecision(decision: DecisionRecord, values: seq<Prediction>)
    | RecordOutcome(outcome: Outcome, feedbackId: string, at: int)

  /** A call that raises leaves the list as it was. */
  ghost function Step(records: Records, op: Op): Records
    requires Coherent(records)
  {
    match op
    case RecordDecision(decision, values) =>
      (match AddDecision(records, decision, values)
       case Ok(after) => after
       case Err(_) => records)
    case RecordOutcome(outcome, id, at) =>
      (match AddOutcome(records, outcome, id, at)
       case Ok(after) => after.0
       case Err(_) => records)
  }

  lemma StepKeepsCoherent(records: Records, op: Op)
    requires Coherent(records)
    ensures Coherent(Step(records, op))
  {
    hide Coherent, AddDecision, AddOutcome;
    match op
    case RecordDecision(decision, values) =>
      if AddDecision(records, decision, values).Ok? {
        AddDecisionKeepsCoherent(records, decision, values);
      }
    case RecordOutcome(outcome, id, at) =>
      if AddOutcome(records, outcome, id, at).Ok? {
        AddOutcomeKeepsCoherent(records, outcome, id, at);
      }
  }

  ghost function After(ops: seq<Op>, n: nat): (records: Records)
    requires n <= |ops|
    ensures Coherent(records)
  {
    if n == 0 then []
    else
      StepKeepsCoherent(After(ops, n - 1), ops[n - 1]);
      Step(After(ops, n - 1), ops[n - 1])
  }

  /** The same decision and predictions, and the same outcome and feedback once there are any. */
  ghost predicate Extends(later: JoinedRecord, earlier: JoinedRecord) {
    && later.decision == earlier.decision && later.predictions == earlier.predictions
    && (earlier.outcome.Some? ==> later.outcome == earlier.outcome && later.feedback == earlier.feedback)
  }

  ghost predicate Grows(later: Records, earlier: Records) {
    |later| >= |earlier| && forall i :: 0 <= i < |earlier| ==> Extends(later[i], earlier[i])
  }

  lemma StepGrows(records: Records, op: Op)
    requires Coherent(records)
    ensures Grows(Step(records, op), records)
  {
    hide AddDecision, AddOutcome, Grows, Coherent;
    NothingChanges(records);
    match op
    case RecordDecision(decision, values) =>
      if AddDecision(records, decision, values).Ok? {
        DecisionGrows(records, decision, values);
      }
    case RecordOutcome(outcome, id, at) =>
      if AddOutcome(records, outcome, id, at).Ok? {
        OutcomeGrows(records, outcome, id, at);
      }
  }

  lemma NothingChanges(records: Records)
    ensures Grows(records, records)
  {
  }

  lemma DecisionGrows(records: Records, decision: DecisionRecord, values: seq<Prediction>)
    requires AddDecision(records, decision, values).Ok?
    ensures Grows(AddDecision(records, decision, values).value, records)
  {
    hide BundleError, Clashes, Stored, HasDecision, HasAction;
  }

  lemma OutcomeGrows(records: Records, outcome: Outcome, feedbackId: string, at: int)
    requires Coherent(records) && AddOutcome(records, outcome, feedbackId, at).Ok?
    ensures Grows(AddOutcome(records, outcome, feedbackId, at).value.0, records)
  {
    hide BuildFeedback, SelectedIndex, SoundRecord, Holds;
  }

  /** Evidence that has been recorded never changes and is never lost. */
  lemma {:induction false} EvidenceNeverChanges(ops: seq<Op>, i: nat, n: nat)
    requires i <= n <= |ops|
    ensures Grows(After(ops, n), After(ops, i))
  {
    hide Coherent, Step;
    if i < n {
      EvidenceNeverChanges(ops, i, n - 1);
      StepGrows(After(ops, n - 1), ops[n - 1]);
    }
  }

  lemma PositionIsUnique(records: Records, i: nat)
    requires Coherent(records) && i < |records|
    ensures Position(records, records[i].decision.decisionId) == i
    ensures PositionOfAction(records, records[i].decision.selectedAction.actionId) == i
  {
    var p := Position(records, records[i].decision.decisionId);
    var a := PositionOfAction(records, records[i].decision.selectedAction.actionId);
    assert p <= i && a <= i;
  }

  /** Accepting a bundle puts it on record, by id. */
  lemma AcceptedIsRecorded(records: Records, decision: DecisionRecord, values: seq<Prediction>)
    requires Coherent(records) && AddDecision(records, decision, values).Ok?
    ensures var after := AddDecision(records, decision, values).value;
            var i := Position(after, decision.decisionId);
            && i < |after| && after[i].decision == decision && after[i].predictions == Stored(values)
  {
    hide BundleError, Clashes, Stored, SelectedIndex;
    var after := AddDecision(records, decision, values).value;
    AddDecisionKeepsCoherent(records, decision, values);
    if HasDecision(records, decision.decisionId) {
      var i := Position(records, decision.decisionId);
      KnownIsStored(records, i);
    } else {
      PositionIsUnique(after, |records|);
    }
  }

  lemma KnownIsStored(records: Records, i: nat)
    requires Coherent(records) && i < |records|
    ensures Stored(records[i].predictions) == records[i].predictions
  {
    hide Stored, SoundRecord;
    var values := records[i].predictions;
    forall k | 0 <= k < |values| ensures Stored(values)[k] == values[k] {
      StoredAt(values, k);
      assert Holds(records, values[k]) && Holds(records, Stored(values)[k]);
    }
  }

  /** Equal prediction ids carry equal content. */
  predicate IdsAreConsistent(values: seq<Prediction>) {
    forall p, q :: p in values && q in values && p.predictionId == q.predictionId ==> p == q
  }

  lemma StoredAsGivenExactlyWhenConsistent(values: seq<Prediction>)
    ensures Stored(values) == values <==> IdsAreConsistent(values)
  {
    hide Stored;
    if IdsAreConsistent(values) {
      forall i | 0 <= i < |values| ensures Stored(values)[i] == values[i] {
        StoredAt(values, i);
      }
    } else {
      StoredKeepsIds(values);
      var p, q :| p in values && q in values && p.predictionId == q.predictionId && p != q;
      var i, j :| 0 <= i < |values| && 0 <= j < |values| && values[i] == p && values[j] == q;
      assert Stored(values)[i] == Stored(values)[j];
    }
  }

  /** An identical decision is a no-op at any later time, exactly when equal ids in its bundle carry equal content. */
  lemma RepeatedDecisionIsNoOp(ops: seq<Op>, i: nat, n: nat)
    requires i < n <= |ops| && ops[i].RecordDecision?
    requires AddDecision(After(ops, i), ops[i].decision, ops[i].values).Ok?
    ensures var again := AddDecision(After(ops, n), ops[i].decision, ops[i].values);
            if IdsAreConsistent(ops[i].values) then again == Ok(After(ops, n))
            else again == Err(ConflictingDecision)
  {
    hide BundleError, Clashes, Stored, SoundRecord, After;
    AcceptedIsRecorded(After(ops, i), ops[i].decision, ops[i].values);
    StepIsNext(ops, i);
    EvidenceNeverChanges(ops, i + 1, n);
    var k := Position(After(ops, i + 1), ops[i].decision.decisionId);
    assert Extends(After(ops, n)[k], After(ops, i + 1)[k]);
    PositionIsUnique(After(ops, n), k);
    StoredAsGivenExactlyWhenConsistent(ops[i].values);
  }

  function Forecast(candidateId: string): Prediction {
    Prediction("p", "snapshot", candidateId, Performance(None, None, None, None, None), Reliability(None, None, None, None),
               Cost(None, None, None, None, None), FutureState(None, None, None, None, None, None), 1.0, "model", "routing",
               map[], "none", [])
  }

  /** Two candidates predicted under one id. */
  function TwiceNamed(): Op {
    var action := Action("action", "scheduler", "route", map[CandidateId := Text("a")], map[], "key", [], 1.0, map[], true);
    RecordDecision(
      DecisionRecord("decision", "snapshot", "policy", ["a", "b"], ["p", "p"], ["model"], action, "recorded", [], 0),
      [Forecast("a"), Forecast("b")])
  }

  /** Such a decision is accepted at first and refused as conflicting with itself when it is repeated. */
  lemma RepeatedDecisionCanConflict()
    ensures var op := TwiceNamed();
            && AddDecision([], op.decision, op.values).Ok?
            && AddDecision(After([op], 1), op.decision, op.values) == Err(ConflictingDecision)
  {
    hide BundleError, TwiceNamed, After;
    var op := TwiceNamed();
    TwiceNamedIsAccepted();
    NothingRecorded([op]);
    RepeatedDecisionIsNoOp([op], 0, 1);
  }

  lemma NothingRecorded(ops: seq<Op>)
    ensures After(ops, 0) == []
  {
  }

  lemma TwiceNamedIsAccepted()
    ensures var op := TwiceNamed();
            op.RecordDecision? && BundleError(op.decision, op.values).None? && !IdsAreConsistent(op.values)
  {
    hide Forecast, ChosenPrediction;
    var a, b := Forecast("a"), Forecast("b");
    FirstIsChosen(TwiceNamed().decision.selectedAction);
    ForecastParts("a");
    ForecastParts("b");
    assert "a"[0] != "b"[0] && a in [a, b] && b in [a, b];
    assert PredictionIds([a, b]) == ["p", "p"] && CandidateIds([a, b]) == ["a", "b"];
    assert VersionsOf([a, b]) == {"model"} && (set v | v in ["model"]) == {"model"};
  }

  lemma FirstIsChosen(action: Action)
    requires action.parameters == map[CandidateId := Text("a")]
    ensures ChosenPrediction(action, [Forecast("a"), Forecast("b")]) == Some(Forecast("a"))
  {
    hide Forecast;
    var a, b := Forecast("a"), Forecast("b");
    ForecastParts("a");
    ForecastParts("b");
    assert "a"[0] != "b"[0];
    var named := (p: Prediction) => Text("a") == Text(p.candidateId);
    FilterConcat([a], [b], named);
    assert [a] + [b] == [a, b] && [a][..0] == [] && [b][..0] == [];
    assert ForCandidate([a, b], Text("a")) == [a];
  }

  lemma ForecastParts(candidateId: string)
    ensures var p := Forecast(candidateId);
            p.predictionId == "p" && p.candidateId == candidateId && p.snapshotId == "snapshot" && p.modelVersion == "model"
  {
  }

  /** Accepting an outcome puts it on record with the feedback returned. */
  lemma AcceptedOutcomeIsRecorded(records: Records, outcome: Outcome, feedbackId: string, at: int)
    requires Coherent(records) && AddOutcome(records, outcome, feedbackId, at).Ok?
    ensures var k, after := PositionOfAction(records, outcome.actionId), AddOutcome(records, outcome, feedbackId, at).value;
            && k < |records| == |after.0|
            && after.0[k].decision == records[k].decision
            && after.0[k].outcome == Some(outcome) && after.0[k].feedback == Some(after.1)
  {
    hide BuildFeedback, SelectedIndex;
    assert SoundRecord(records[PositionOfAction(records, outcome.actionId)]);
  }

  /** What the journal answers about an action whose outcome is on record. */
  lemma KnownOutcomeAnswers(records: Records, k: nat, other: Outcome, feedbackId: string, at: int)
    requires Coherent(records) && k < |records| && records[k].outcome.Some? && records[k].feedback.Some?
    requires records[k].decision.selectedAction.actionId == other.actionId && other.completedAt >= other.startedAt
    ensures AddOutcome(records, other, feedbackId, at)
            == if records[k].outcome == Some(other) then Ok((records, records[k].feedback.value))
               else Err(ConflictingOutcome)
  {
    hide BuildFeedback, SelectedIndex;
    PositionIsUnique(records, k);
    assert HasAction(records, other.actionId);
  }

  /** A recorded outcome answers every repeat with the feedback given first, and excludes any other outcome. */
  lemma RepeatedOutcomeIsNoOp(ops: seq<Op>, i: nat, n: nat, other: Outcome, feedbackId: string, at: int)
    requires i < n <= |ops| && ops[i].RecordOutcome? && other.actionId == ops[i].outcome.actionId
    requires AddOutcome(After(ops, i), ops[i].outcome, ops[i].feedbackId, ops[i].at).Ok?
    requires other.completedAt >= other.startedAt
    ensures var first := AddOutcome(After(ops, i), ops[i].outcome, ops[i].feedbackId, ops[i].at).value.1;
            AddOutcome(After(ops, n), other, feedbackId, at)
            == if other == ops[i].outcome then Ok((After(ops, n), first)) else Err(ConflictingOutcome)
  {
    hide AddOutcome, After, Coherent;
    AcceptedOutcomeIsRecorded(After(ops, i), ops[i].outcome, ops[i].feedbackId, ops[i].at);
    StepIsNext(ops, i);
    EvidenceNeverChanges(ops, i + 1, n);
    var k := PositionOfAction(After(ops, i), other.actionId);
    assert Extends(After(ops, n)[k], After(ops, i + 1)[k]);
    KnownOutcomeAnswers(After(ops, n), k, other, feedbackId, at);
  }

  lemma StepIsNext(ops: seq<Op>, i: nat)
    requires i < |ops|
    ensures After(ops, i + 1) == Step(After(ops, i), ops[i])
  {
  }

  // ---- The report over a journal ----

  /** The prediction a record was selected for. */
  function SelectedIn(r: JoinedRecord): Prediction
    requires SelectedIndex(r.decision) < |r.predictions|
  {
    r.predictions[SelectedIndex(r.decision)]
  }

  /** Samples that a journal can report on: recorded feedback with the prediction it was built from. */
  ghost predicate FromRecords(records: Records, samples: seq<Sample>) {
    forall s :: s in samples ==>
      exists i :: 0 <= i < |records| && SampleOf(records[i]) == Some(s)
  }

  function SampleOf(r: JoinedRecord): Option<Sample> {
    if r.feedback.Some? && SelectedIndex(r.decision) < |r.predictions| then Some((SelectedIn(r), r.feedback.value))
    else None
  }

  /** Reporting on any part of a journal succeeds, with coherent figures. */
  lemma JournalReportsAreCoherent(records: Records, samples: seq<Sample>, count: int)
    requires Coherent(records) && FromRecords(records, samples) && count > 0
    ensures ReportOf(samples, count).Ok?
    ensures var r := ReportOf(samples, count).value;
            && r.predictedFields == r.latencySamples + r.costSamples + r.successSamples
            && BinSizes(r.bins) == r.successSamples && 0.0 <= r.coverage <= 1.0
            && (r.successSamples > 0 ==> r.ece.value * r.ece.value <= r.brier.value)
  {
    hide ReportOf;
    forall s | s in samples ensures Built(s) {
      var i :| 0 <= i < |records| && SampleOf(records[i]) == Some(s);
      assert SoundRecord(records[i]);
      SoundIsBuilt(records[i]);
    }
    ReportIsCoherent(samples, count);
  }

  lemma SoundIsBuilt(r: JoinedRecord)
    requires SoundRecord(r) && r.feedback.Some?
    ensures Built((SelectedIn(r), r.feedback.value))
  {
    hide SelectedIndex;
    var p, f := SelectedIn(r), r.feedback.value;
    FeedbackKeepsItsId(r, r.outcome.value, f.feedbackId, f.timestamp);
    hide BuildFeedback;
    assert BuildFeedback(r.decision, p, f.outcome, PointerTo(p.predictionId), f.feedbackId, f.timestamp) == Ok(f);
  }
}
