// Predictions over snapshots: fallback on failure or low confidence, a journal, and replay.

module PredictionService {
  import opened Basics
  import opened PlaneSpec
  import opened StatePlane
  import opened ControlTypes
  import opened AnalyticalModel

  datatype PredictionRequest = PredictionRequest(snapshotId: string, candidate: CandidateAction)

  /** A model answers with a prediction under the id it is given, or names the error it raised. */
  datatype Model = Model(version: string, predict: (Snapshot, CandidateAction, string) -> Result<Prediction, string>)

  function Analytical(version: string): Model {
    Model(version, (snap: Snapshot, c: CandidateAction, id: string) =>
      match Predict(snap, c, version, id)
      case Ok(p) => Ok(p)
      case Err(_) => Err("ValueError"))
  }

  datatype ServiceConfig = ServiceConfig(minConfidence: real, fallback: string)

  function Unavailable(
      snap: Snapshot, c: CandidateAction, model: Model, cfg: ServiceConfig, name: string, id: string): Prediction
  {
    Prediction(
      id, snap.token, c.candidateId,
      Performance(None, None, None, None, None), Reliability(None, None, None, None),
      Cost(None, None, None, None, None), FutureState(None, None, None, None, None, None),
      0.0, model.version, "unavailable", map[], cfg.fallback, ["predictor_error:" + name])
  }

  /** Whatever the model does, the service answers: with its prediction, or with one marked as a fallback. */
  function Evaluate(cfg: ServiceConfig, snap: Snapshot, c: CandidateAction, model: Model, id: string): Prediction {
    match model.predict(snap, c, id)
    case Err(name) => Unavailable(snap, c, model, cfg, name, id)
    case Ok(p) =>
      if p.confidence >= cfg.minConfidence then p
      else p.(fallback := cfg.fallback, notes := p.notes + ["low_confidence_fallback"])
  }

  datatype PredictionRecord = PredictionRecord(request: PredictionRequest, snapshot: Snapshot, prediction: Prediction)

  datatype ServiceError =
    | UnknownSnapshotToken
    | AlreadyJournaled
    | UnknownPrediction
    | ModelUnavailable
    | ModelRegistered

  datatype Service = Service(
    cfg: ServiceConfig, current: Model, models: map<string, Model>,
    records: map<string, PredictionRecord>, order: seq<string>)

  /** `found` is what the plane answers for the requested snapshot. */
  function Ask(s: Service, request: PredictionRequest, found: Option<Snapshot>, id: string)
    : (Service, Result<Prediction, ServiceError>)
  {
    if found.None? then (s, Err(UnknownSnapshotToken))
    else
      var p := Evaluate(s.cfg, found.value, request.candidate, s.current, id);
      if p.predictionId in s.records then (s, Err(AlreadyJournaled))
      else
        (s.(records := s.records[p.predictionId := PredictionRecord(request, found.value, p)],
            order := s.order + [p.predictionId]), Ok(p))
  }

  function Register(s: Service, model: Model, replace: bool): (Service, Result<(), ServiceError>) {
    if model.version in s.models && !replace then (s, Err(ModelRegistered))
    else (s.(models := s.models[model.version := model]), Ok(()))
  }

  function Replay(s: Service, predictionId: string, version: string, newId: string): Result<Prediction, ServiceError> {
    if predictionId !in s.records then Err(UnknownPrediction)
    else
      var r := s.records[predictionId];
      var wanted := if version != "" then version else r.prediction.modelVersion;
      if wanted !in s.models then Err(ModelUnavailable)
      else
        var again := Evaluate(s.cfg, r.snapshot, r.request.candidate, s.models[wanted], newId);
        Ok(if wanted == r.prediction.modelVersion then again.(predictionId := predictionId) else again)
  }

  // ---- Replay reproduces ----

  /** The answer depends on the id in nothing but the id, and carries the model's version. */
  ghost predicate Honest(m: Model) {
    forall snap: Snapshot, c: CandidateAction, id: string, other: string ::
      SameButForId(m.predict(snap, c, id), m.predict(snap, c, other), m.version, id, other)
  }

  predicate SameButForId(
      a: Result<Prediction, string>, b: Result<Prediction, string>, version: string, id: string, other: string)
  {
    match a
    case Err(_) => a == b
    case Ok(p) => p.predictionId == id && p.modelVersion == version && b == Ok(p.(predictionId := other))
  }

  lemma AnalyticalIsHonest(version: string)
    ensures Honest(Analytical(version))
  {
    hide TransferPart, TokenPart, MemoryPart, RiskPart, MoneyPart, LoadPart, E2e, CoverageConfidence;
  }

  lemma EvaluateIsUniform(
      cfg: ServiceConfig, snap: Snapshot, c: CandidateAction, model: Model, id: string, other: string)
    requires Honest(model)
    ensures Evaluate(cfg, snap, c, model, id).predictionId == id
    ensures Evaluate(cfg, snap, c, model, id).modelVersion == model.version
    ensures Evaluate(cfg, snap, c, model, other).(predictionId := id) == Evaluate(cfg, snap, c, model, id)
  {
    assert SameButForId(model.predict(snap, c, id), model.predict(snap, c, other), model.version, id, other);
  }

  /** The analytical model is honest, so all of this holds of it unconditionally. */
  lemma AnalyticalIsUniform(
      cfg: ServiceConfig, snap: Snapshot, c: CandidateAction, version: string, id: string, other: string)
    ensures var p := Evaluate(cfg, snap, c, Analytical(version), id);
            && p.predictionId == id && p.modelVersion == version
            && Evaluate(cfg, snap, c, Analytical(version), other).(predictionId := id) == p
  {
    hide Evaluate, Honest;
    AnalyticalIsHonest(version);
    EvaluateIsUniform(cfg, snap, c, Analytical(version), id, other);
  }

  // ---- Several candidates at once ----

  /** What the model answers about each candidate, under the given ids. */
  function Answers(s: Service, snap: Snapshot, candidates: seq<CandidateAction>, ids: seq<string>): seq<Prediction>
    requires |candidates| == |ids|
  {
    seq(|candidates|, i requires 0 <= i < |candidates| => Evaluate(s.cfg, snap, candidates[i], s.current, ids[i]))
  }

  /** The first `n` candidates asked about one after the other, up to the first refusal. */
  function AskMany(s: Service, snap: Snapshot, candidates: seq<CandidateAction>, ids: seq<string>, n: nat)
    : (Service, Result<seq<Prediction>, ServiceError>)
    requires n <= |candidates| == |ids|
  {
    if n == 0 then (s, Ok([]))
    else
      var (before, answers) := AskMany(s, snap, candidates, ids, n - 1);
      match answers
      case Err(e) => (before, Err(e))
      case Ok(predictions) =>
        var (after, answer) := Ask(before, PredictionRequest(snap.token, candidates[n - 1]), Some(snap), ids[n - 1]);
        match answer
        case Err(e) => (after, Err(e))
        case Ok(p) => (after, Ok(predictions + [p]))
  }

  /** The ids of these predictions are new to the service and differ from each other. */
  ghost predicate Unused(s: Service, answers: seq<Prediction>) {
    && (forall p :: p in answers ==> p.predictionId !in s.records)
    && forall i, j :: 0 <= i < j < |answers| ==> answers[i].predictionId != answers[j].predictionId
  }

  /** `after` has journaled exactly these answers on top of `s`, in order, each with what it was asked. */
  ghost predicate Journals(
      s: Service, after: Service, snap: Snapshot, candidates: seq<CandidateAction>, answers: seq<Prediction>)
    requires |answers| <= |candidates|
  {
    && after == s.(records := after.records, order := s.order + PredictionIds(answers))
    && (forall id :: id in after.records ==> id in s.records || exists i :: 0 <= i < |answers| && answers[i].predictionId == id)
    && (forall id :: id in s.records ==> id in after.records && after.records[id] == s.records[id])
    && forall i :: 0 <= i < |answers| ==>
         && answers[i].predictionId in after.records
         && after.records[answers[i].predictionId]
            == PredictionRecord(PredictionRequest(snap.token, candidates[i]), snap, answers[i])
  }

  lemma JournalOneMore(
      s: Service, before: Service, snap: Snapshot, candidates: seq<CandidateAction>, answers: seq<Prediction>, id: string)
    requires |answers| < |candidates| && Journals(s, before, snap, candidates, answers) && Unused(s, answers)
    ensures var k := |answers|;
            var p, (after, r) := Evaluate(s.cfg, snap, candidates[k], s.current, id),
                Ask(before, PredictionRequest(snap.token, candidates[k]), Some(snap), id);
            if Unused(s, answers + [p]) then r == Ok(p) && Journals(s, after, snap, candidates, answers + [p])
            else r == Err(AlreadyJournaled) && after == before
  {
    hide Evaluate;
    var p := Evaluate(s.cfg, snap, candidates[|answers|], s.current, id);
    var longer := answers + [p];
    assert PredictionIds(longer) == PredictionIds(answers) + [p.predictionId];
    assert Unused(s, longer) <==> p.predictionId !in before.records by {
      assert longer[|answers|] == p && forall i :: 0 <= i < |answers| ==> longer[i] == answers[i];
      assert forall q :: q in longer ==> q in answers || q == p;
    }
    if Unused(s, longer) {
      JournalExtends(s, before, snap, candidates, answers, p);
    }
  }

  lemma JournalExtends(
      s: Service, before: Service, snap: Snapshot, candidates: seq<CandidateAction>, answers: seq<Prediction>, p: Prediction)
    requires |answers| < |candidates| && Journals(s, before, snap, candidates, answers)
    requires p.predictionId !in before.records
    ensures var record := PredictionRecord(PredictionRequest(snap.token, candidates[|answers|]), snap, p);
            Journals(s, before.(records := before.records[p.predictionId := record], order := before.order + [p.predictionId]),
                     snap, candidates, answers + [p])
  {
    var longer := answers + [p];
    assert before.order + [p.predictionId] == s.order + PredictionIds(longer);
    forall id | id in before.records && id !in s.records
      ensures exists i :: 0 <= i < |longer| && longer[i].predictionId == id
    {
      var i :| 0 <= i < |answers| && answers[i].predictionId == id;
      assert longer[i] == answers[i];
    }
    assert longer[|answers|] == p && forall i :: 0 <= i < |answers| ==> longer[i] == answers[i];
  }

  /** All candidates are answered and journaled if the ids are unused; otherwise those before the first used id are. */
  lemma {:induction false} AskManyJournals(
      s: Service, snap: Snapshot, candidates: seq<CandidateAction>, ids: seq<string>, n: nat)
    returns (k: nat)
    requires n <= |candidates| == |ids|
    ensures var answers, (after, r) := Answers(s, snap, candidates, ids), AskMany(s, snap, candidates, ids, n);
            && k <= n && Journals(s, after, snap, candidates, answers[..k]) && Unused(s, answers[..k])
            && (r == if Unused(s, answers[..n]) then Ok(answers[..n]) else Err(AlreadyJournaled))
            && (r.Ok? ==> k == n) && (r.Err? ==> k < n && !Unused(s, answers[..k + 1]))
  {
    hide Evaluate, Ask, Unused, Journals;
    var answers := Answers(s, snap, candidates, ids);
    if n == 0 {
      k := 0;
      NothingAsked(s, snap, candidates);
    } else {
      k := AskManyJournals(s, snap, candidates, ids, n - 1);
      if k == n - 1 && AskMany(s, snap, candidates, ids, n - 1).1.Ok? {
        JournalOneMore(s, AskMany(s, snap, candidates, ids, n - 1).0, snap, candidates, answers[..k], ids[k]);
        assert answers[..k + 1] == answers[..k] + [answers[k]];
        if Unused(s, answers[..n]) {
          k := n;
        }
      } else {
        if Unused(s, answers[..n]) {
          FewerAreUnused(s, answers[..n], k + 1);
        }
        assert answers[..n][..k + 1] == answers[..k + 1];
      }
    }
  }

  lemma NothingAsked(s: Service, snap: Snapshot, candidates: seq<CandidateAction>)
    ensures Journals(s, s, snap, candidates, []) && Unused(s, [])
  {
  }

  lemma FewerAreUnused(s: Service, answers: seq<Prediction>, k: nat)
    requires k <= |answers| && Unused(s, answers)
    ensures Unused(s, answers[..k])
  {
  }

  datatype Op =
    | Predicting(request: PredictionRequest, found: Option<Snapshot>, id: string)
    | Registering(model: Model, replace: bool)

  function Step(s: Service, op: Op): Service {
    match op
    case Predicting(request, found, id) => Ask(s, request, found, id).0
    case Registering(model, replace) => Register(s, model, replace).0
  }

  function After(s: Service, ops: seq<Op>, n: nat): Service
    requires n <= |ops|
  {
    if n == 0 then s else Step(After(s, ops, n - 1), ops[n - 1])
  }

  function NewService(cfg: ServiceConfig, model: Model): Service {
    Service(cfg, model, map[model.version := model], map[], [])
  }

  /** Everything journaled is what the current model says about the stored inputs. */
  ghost predicate Reproducible(s: Service) {
    && s.current.version in s.models && s.models[s.current.version] == s.current
    && (forall id :: id in s.records ==>
          && s.records[id].prediction
             == Evaluate(s.cfg, s.records[id].snapshot, s.records[id].request.candidate, s.current, id)
          && s.records[id].prediction.modelVersion == s.current.version)
    && (forall i :: 0 <= i < |s.order| ==> s.order[i] in s.records)
    && (forall i, j :: 0 <= i < j < |s.order| ==> s.order[i] != s.order[j])
  }

  /** The serving model's own version is not replaced. */
  predicate KeepsCurrent(s: Service, op: Op) {
    op.Registering? && op.replace ==> op.model.version != s.current.version
  }

  lemma StepKeepsReproducible(s: Service, op: Op)
    requires Honest(s.current) && Reproducible(s) && KeepsCurrent(s, op)
    ensures Reproducible(Step(s, op)) && Step(s, op).current == s.current
  {
    hide Evaluate, Honest;
    if op.Predicting? && op.found.Some? {
      EvaluateIsUniform(s.cfg, op.found.value, op.request.candidate, s.current, op.id, op.id);
    }
  }

  lemma {:induction false} RunsAreReproducible(cfg: ServiceConfig, model: Model, ops: seq<Op>, n: nat)
    requires n <= |ops| && Honest(model)
    requires forall i :: 0 <= i < n ==> KeepsCurrent(NewService(cfg, model), ops[i])
    ensures Reproducible(After(NewService(cfg, model), ops, n))
    ensures After(NewService(cfg, model), ops, n).current == model
  {
    hide Step, Honest, Evaluate;
    if n > 0 {
      RunsAreReproducible(cfg, model, ops, n - 1);
      StepKeepsReproducible(After(NewService(cfg, model), ops, n - 1), ops[n - 1]);
    }
  }

  /** At any later time, replaying a journaled prediction under its own version gives it back exactly, id included. */
  lemma ReplayReproduces(cfg: ServiceConfig, model: Model, ops: seq<Op>, n: nat, id: string, newId: string)
    requires n <= |ops| && Honest(model)
    requires forall i :: 0 <= i < n ==> KeepsCurrent(NewService(cfg, model), ops[i])
    requires id in After(NewService(cfg, model), ops, n).records
    ensures var s := After(NewService(cfg, model), ops, n);
            Replay(s, id, "", newId) == Ok(s.records[id].prediction)
  {
    hide After, Honest, Evaluate;
    RunsAreReproducible(cfg, model, ops, n);
    var s := After(NewService(cfg, model), ops, n);
    var r := s.records[id];
    EvaluateIsUniform(cfg, r.snapshot, r.request.candidate, model, id, newId);
    ConfigIsKept(NewService(cfg, model), ops, n);
  }

  lemma {:induction false} ConfigIsKept(s: Service, ops: seq<Op>, n: nat)
    requires n <= |ops|
    ensures After(s, ops, n).cfg == s.cfg
  {
    hide Evaluate;
    if n > 0 {
      ConfigIsKept(s, ops, n - 1);
    }
  }

  // ---- The service as it runs ----

  class PredictionJournal {
    var records: map<string, PredictionRecord>
    var order: seq<string>

    constructor ()
      ensures records == map[] && order == []
    {
      records, order := map[], [];
    }

    method Append(record: PredictionRecord) returns (r: Result<(), ServiceError>)
      modifies this
      ensures record.prediction.predictionId in old(records) ==>
                r == Err(AlreadyJournaled) && records == old(records) && order == old(order)
      ensures record.prediction.predictionId !in old(records) ==>
                && r == Ok(()) && records == old(records)[record.prediction.predictionId := record]
                && order == old(order) + [record.prediction.predictionId]
    {
      var id := record.prediction.predictionId;
      if id in records {
        return Err(AlreadyJournaled);
      }
      records := records[id := record];
      order := order + [id];
      r := Ok(());
    }
  }

  class PredictionService {
    const plane: InMemoryStatePlane
    const journal: PredictionJournal
    const cfg: ServiceConfig
    const model: Model
    var models: map<string, Model>

    function View(): Service
      reads this, journal
    {
      Service(cfg, model, models, journal.records, journal.order)
    }

    constructor (plane: InMemoryStatePlane, cfg: ServiceConfig, model: Model)
      ensures this.plane == plane && fresh(journal) && View() == NewService(cfg, model)
    {
      this.plane, this.cfg, this.model := plane, cfg, model;
      models := map[model.version := model];
      journal := new PredictionJournal();
    }

    method PredictFor(request: PredictionRequest, id: string) returns (r: Result<Prediction, ServiceError>)
      modifies journal
      ensures (View(), r) == Ask(old(View()), request, plane.View().FindSnapshot(request.snapshotId), id)
    {
      hide Evaluate;
      var read := plane.ReadSnapshot(request.snapshotId);
      if read.Err? {
        return Err(UnknownSnapshotToken);
      }
      var prediction := Evaluate(cfg, read.value, request.candidate, model, id);
      var appended := journal.Append(PredictionRecord(request, read.value, prediction));
      if appended.Err? {
        return Err(appended.error);
      }
      r := Ok(prediction);
    }

    method RegisterModel(added: Model, replace: bool) returns (r: Result<(), ServiceError>)
      modifies `models
      ensures (View(), r) == Register(old(View()), added, replace)
    {
      if added.version in models && !replace {
        return Err(ModelRegistered);
      }
      models := models[added.version := added];
      r := Ok(());
    }
  }
}
