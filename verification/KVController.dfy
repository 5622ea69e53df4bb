// The KV controller as it runs: over the plane, the prediction service and the control journal.

module KVController {
  import opened Basics
  import opened Contracts
  import opened PlaneSpec
  import opened StatePlane
  import opened ControlTypes
  import opened AnalyticalModel
  import P = PredictionService
  import opened JournalSpec
  import opened ControlJournal
  import opened KVPlanner
  import opened KVSafety
  import opened KVOutcome

  // ---- What planning does ----

  function Candidates(offers: seq<Offer>): seq<CandidateAction> {
    seq(|offers|, i requires 0 <= i < |offers| => offers[i].candidate)
  }

  /** Everything up to the selection: the snapshot, ownership, the situation, the offers, and their predictions. */
  function Preparing(
      entities: map<string, Entity>, found: Option<Snapshot>, s: P.Service, owner: Owner, cfg: Config, request: Request,
      ids: seq<string>)
    : (r: (P.Service, Result<(string, Run), PlanError>))
    requires |ids| == |request.targets|
    ensures r.1.Ok? ==> HasKeep(r.1.value.1.offers) && |r.1.value.1.ids| == |r.1.value.1.offers|
  {
    if found.None? then (s, Err(UnknownSnapshotToken))
    else
      match StateOwner(entities, owner, request)
      case Err(e) => (s, Err(e))
      case Ok(stateOwner) =>
        match Observe(cfg, found.value, request)
        case Err(e) => (s, Err(e))
        case Ok(sit) =>
          match Offers(owner, request, sit)
          case Err(e) => (s, Err(e))
          case Ok(offers) =>
            OffersAreBounded(owner, request, sit);
            OffersKeep(owner, request, sit);
            var used := ids[..|offers|];
            var (after, answers) := P.AskMany(s, found.value, Candidates(offers), used, |offers|);
            (after, if answers.Err? then Err(PredictionRefused)
                    else Ok((stateOwner, Run(cfg, owner, request, sit, s.cfg, s.current, offers, used))))
  }

  /** The records, the prediction service and the answer after planning. */
  ghost function Planning(
      records: Records, entities: map<string, Entity>, found: Option<Snapshot>, s: P.Service, owner: Owner, cfg: Config,
      request: Request, ids: seq<string>, stamp: PlanIds)
    : (Records, P.Service, Result<Plan, PlanError>)
    requires |ids| == |request.targets|
  {
    var (after, prepared) := Preparing(entities, found, s, owner, cfg, request, ids);
    match prepared
    case Err(e) => (records, after, Err(e))
    case Ok((stateOwner, run)) =>
      var plan := PlanOf(run, stateOwner, stamp);
      match AddDecision(records, plan.decision, plan.predictions)
      case Err(e) => (records, after, Err(JournalRefused(e)))
      case Ok(added) => (added, after, Ok(plan))
  }

  /** What stands in the way of a plan before any prediction is asked for, in the order of the checks. */
  function Obstacle(
      entities: map<string, Entity>, found: Option<Snapshot>, owner: Owner, cfg: Config, request: Request)
    : Option<PlanError>
  {
    if found.None? then Some(UnknownSnapshotToken)
    else if StateOwner(entities, owner, request).Err? then Some(StateOwner(entities, owner, request).error)
    else if Observe(cfg, found.value, request).Err? then Some(Observe(cfg, found.value, request).error)
    else
      var offers := Offers(owner, request, Observe(cfg, found.value, request).value);
      if offers.Err? then Some(offers.error) else None
  }

  lemma PreparedRun(
      entities: map<string, Entity>, found: Option<Snapshot>, s: P.Service, owner: Owner, cfg: Config, request: Request,
      ids: seq<string>)
    requires |ids| == |request.targets| && owner.Valid()
    requires Preparing(entities, found, s, owner, cfg, request, ids).1.Ok?
    ensures var (stateOwner, run) := Preparing(entities, found, s, owner, cfg, request, ids).1.value;
            && found == Some(run.sit.snap) && StateOwner(entities, owner, request) == Ok(stateOwner)
            && Observe(cfg, run.sit.snap, request) == Ok(run.sit)
            && run.Valid() && HasKeep(run.offers) && run.ids <= ids && |run.offers| <= |request.targets|
            && run.cfg == cfg && run.owner == owner && run.request == request
            && run.service == s.cfg && run.model == s.current
  {
    hide P.Evaluate, P.AskMany, Observe, Offers, StateOwner, ObservedPressure;
    ObservedIsSound(cfg, found.value, request);
    OffersAreBounded(owner, request, Observe(cfg, found.value, request).value);
  }

  /** With unused ids and nothing in the way, the predictions of the run are made and journaled. */
  lemma PreparesExactlyWhen(
      entities: map<string, Entity>, found: Option<Snapshot>, s: P.Service, owner: Owner, cfg: Config, request: Request,
      ids: seq<string>)
    requires |ids| == |request.targets| && P.Honest(s.current)
    requires DistinctIds(ids) && forall id :: id in ids ==> id !in s.records
    ensures var (after, r) := Preparing(entities, found, s, owner, cfg, request, ids);
            && (r.Ok? <==> Obstacle(entities, found, owner, cfg, request).None?)
            && (r.Err? ==> after == s && Some(r.error) == Obstacle(entities, found, owner, cfg, request))
            && (r.Ok? ==> var run := r.value.1;
                          && |run.ids| == |run.offers| && found.Some?
                          && P.Journals(s, after, found.value, Candidates(run.offers),
                                        P.Answers(s, found.value, Candidates(run.offers), run.ids)))
  {
    hide P.Evaluate, P.AskMany, P.Answers, P.Journals, P.Unused, P.Honest, Observe, Offers, StateOwner, Candidates, HasKeep;
    if Obstacle(entities, found, owner, cfg, request).None? {
      var sit := Observe(cfg, found.value, request).value;
      var offers := Offers(owner, request, sit).value;
      OffersAreBounded(owner, request, sit);
      var candidates, used := Candidates(offers), ids[..|offers|];
      CandidatesAreMany(offers);
      var k := P.AskManyJournals(s, found.value, candidates, used, |offers|);
      NewIdsAreUnused(s, found.value, candidates, used);
      var answers := P.Answers(s, found.value, candidates, used);
      AnswersAreMany(s, found.value, candidates, used);
      assert answers[..|offers|] == answers;
    }
  }

  lemma CandidatesAreMany(offers: seq<Offer>)
    ensures |Candidates(offers)| == |offers|
  {
  }

  lemma AnswersAreMany(s: P.Service, snap: Snapshot, candidates: seq<CandidateAction>, ids: seq<string>)
    requires |candidates| == |ids|
    ensures |P.Answers(s, snap, candidates, ids)| == |candidates|
  {
  }

  lemma NewIdsAreUnused(s: P.Service, snap: Snapshot, candidates: seq<CandidateAction>, ids: seq<string>)
    requires |candidates| == |ids| && P.Honest(s.current)
    requires DistinctIds(ids) && forall id :: id in ids ==> id !in s.records
    ensures P.Unused(s, P.Answers(s, snap, candidates, ids))
  {
    hide P.Evaluate, P.Honest;
    var answers := P.Answers(s, snap, candidates, ids);
    forall i | 0 <= i < |answers| ensures answers[i].predictionId == ids[i] {
      P.EvaluateIsUniform(s.cfg, snap, candidates[i], s.current, ids[i], ids[i]);
    }
  }

  /** With new ids, a model that answers uniformly and names its subject always leads to a plan, and that plan is
      recorded, unless one of the four checks fails; then the request fails with that check's error. */
  lemma PlansExactlyWhen(
      records: Records, entities: map<string, Entity>, found: Option<Snapshot>, s: P.Service, owner: Owner, cfg: Config,
      request: Request, ids: seq<string>, stamp: PlanIds)
    requires Coherent(records) && owner.Valid() && |ids| == |request.targets|
    requires P.Honest(s.current) && Faithful(s.current)
    requires NewTo(records, ids, stamp) && forall id :: id in ids ==> id !in s.records
    ensures var (after, _, r) := Planning(records, entities, found, s, owner, cfg, request, ids, stamp);
            match Obstacle(entities, found, owner, cfg, request)
            case Some(e) => r == Err(e) && after == records
            case None => r.Ok? && after == records + [JoinedRecord(r.value.decision, r.value.predictions, None, None)]
  {
    hide P.Evaluate, P.Honest, P.Journals, P.Answers, Faithful, PlanOf, AddDecision, Coherent, NewTo, Preparing, Obstacle,
         HasKeep, Candidates, Run.Valid;
    NewIdsAreDistinct(records, ids, stamp);
    PreparesExactlyWhen(entities, found, s, owner, cfg, request, ids);
    var (_, prepared) := Preparing(entities, found, s, owner, cfg, request, ids);
    if prepared.Ok? {
      PreparedRun(entities, found, s, owner, cfg, request, ids);
      FewerIdsAreNew(records, ids, stamp, prepared.value.1.ids);
      PlanIsAccepted(records, prepared.value.1, prepared.value.0, stamp);
    }
  }

  lemma NewIdsAreDistinct(records: Records, ids: seq<string>, stamp: PlanIds)
    requires NewTo(records, ids, stamp)
    ensures DistinctIds(ids)
  {
  }

  /** The analytical model qualifies, whatever its version is called. */
  lemma AnalyticalPlansExactlyWhen(
      records: Records, entities: map<string, Entity>, found: Option<Snapshot>, s: P.Service, owner: Owner, cfg: Config,
      request: Request, ids: seq<string>, stamp: PlanIds, version: string)
    requires Coherent(records) && owner.Valid() && |ids| == |request.targets| && s.current == P.Analytical(version)
    requires NewTo(records, ids, stamp) && forall id :: id in ids ==> id !in s.records
    ensures Planning(records, entities, found, s, owner, cfg, request, ids, stamp).2.Ok? <==>
            Obstacle(entities, found, owner, cfg, request).None?
  {
    hide P.Analytical, P.Honest, Faithful, Planning, Obstacle, Coherent, NewTo;
    P.AnalyticalIsHonest(version);
    AnalyticalIsFaithful(version);
    PlansExactlyWhen(records, entities, found, s, owner, cfg, request, ids, stamp);
  }

  // ---- The controller ----

  class AgentAwareKVController {
    const plane: InMemoryStatePlane
    const owner: Owner
    const service: P.PredictionService
    const journal: InMemoryControlJournal
    const cfg: Config

    constructor (
        plane: InMemoryStatePlane, owner: Owner, service: P.PredictionService, journal: InMemoryControlJournal, cfg: Config)
      ensures this.plane == plane && this.owner == owner && this.service == service
      ensures this.journal == journal && this.cfg == cfg
    {
      this.plane, this.owner, this.service, this.journal, this.cfg := plane, owner, service, journal, cfg;
    }

    method ValidateOwnership(request: Request) returns (r: Result<string, PlanError>)
      ensures r == StateOwner(plane.View().entities, owner, request)
    {
      if !owner.Manages(request.kvRef) {
        return Err(NotManaged);
      }
      if request.kvRef !in plane.entities || plane.entities[request.kvRef].entityType != "stateful_object" {
        return Err(UnknownEntity);
      }
      var stateOwner := plane.entities[request.kvRef].ownerComponentRef;
      if stateOwner == "" {
        return Err(NoStateOwner);
      }
      if request.expectedStateOwner != "" && stateOwner != request.expectedStateOwner {
        return Err(StateOwnerChanged);
      }
      if owner.componentRef !in plane.entities || plane.entities[owner.componentRef].entityType != "component" {
        return Err(UnknownActionOwner);
      }
      r := Ok(stateOwner);
    }

    method MakeOffers(request: Request, sit: Situation) returns (r: Result<seq<Offer>, PlanError>)
      ensures r == Offers(owner, request, sit)
    {
      hide OfferFor;
      var offers := [];
      for i := 0 to |request.targets|
        invariant OffersFor(owner, request, sit, request.targets[..i]) == Ok(offers)
      {
        assert request.targets[..i + 1][..i] == request.targets[..i];
        var offer := OfferFor(owner, request, sit, request.targets[i]);
        if offer.Err? {
          OffersStayFailed(owner, request, sit, i + 1);
          return Err(offer.error);
        }
        if offer.value.Some? {
          offers := offers + [offer.value.value];
        }
      }
      assert request.targets[..|request.targets|] == request.targets;
      r := if HasKeep(offers) then Ok(offers) else Err(NoKeepBaseline);
    }

    /** One journaled prediction for each offer, all over the same snapshot, up to the first refusal. */
    method PredictMany(snap: Snapshot, offers: seq<Offer>, ids: seq<string>)
      returns (r: Result<seq<Prediction>, PlanError>)
      requires service.plane == plane && |ids| == |offers| && plane.View().FindSnapshot(snap.token) == Some(snap)
      modifies service.journal
      ensures var (after, answers) := P.AskMany(old(service.View()), snap, Candidates(offers), ids, |offers|);
              && service.View() == after
              && r == if answers.Ok? then Ok(answers.value) else Err(PredictionRefused)
    {
      hide P.Ask;
      var predictions := [];
      ghost var s := service.View();
      for i := 0 to |offers|
        invariant P.AskMany(s, snap, Candidates(offers), ids, i) == (service.View(), Ok(predictions))
        invariant plane.View().FindSnapshot(snap.token) == Some(snap)
      {
        var answer := service.PredictFor(P.PredictionRequest(snap.token, offers[i].candidate), ids[i]);
        if answer.Err? {
          RefusalStays(s, snap, Candidates(offers), ids, i + 1, |offers|);
          return Err(PredictionRefused);
        }
        predictions := predictions + [answer.value];
      }
      r := Ok(predictions);
    }

    /** Everything up to the selection: ownership, situation, offers and predictions. */
    method Prepare(request: Request, ids: seq<string>)
      returns (r: Result<(string, Run, seq<Prediction>), PlanError>)
      requires owner.Valid() && service.plane == plane && |ids| == |request.targets|
      modifies service.journal
      ensures var found := plane.View().FindSnapshot(request.snapshotId);
              var (after, prepared) := Preparing(plane.View().entities, found, old(service.View()), owner, cfg, request, ids);
              && service.View() == after
              && match prepared
                 case Err(e) => r == Err(e)
                 case Ok((stateOwner, run)) =>
                   r.Ok? && r.value.0 == stateOwner && r.value.1 == run && r.value.2 == run.Predictions()
    {
      hide P.Evaluate, P.AskMany, Observe, Offers, StateOwner, P.Ask;
      var read := plane.ReadSnapshot(request.snapshotId);
      if read.Err? {
        return Err(UnknownSnapshotToken);
      }
      var stateOwner :- ValidateOwnership(request);
      var sit :- Observe(cfg, read.value, request);
      ObservedIsSound(cfg, read.value, request);
      var offers :- MakeOffers(request, sit);
      OffersAreBounded(owner, request, sit);
      var used := ids[..|offers|];
      var run := Run(cfg, owner, request, sit, service.cfg, service.model, offers, used);
      ghost var s := service.View();
      assert s == old(service.View());
      var predictions := PredictMany(sit.snap, offers, used);
      AskedIsPredicted(s, run);
      if predictions.Err? {
        return Err(PredictionRefused);
      }
      r := Ok((stateOwner, run, predictions.value));
    }

    /** The plan, the records and the journaled predictions are the specified ones; an error changes no record. */
    method PlanKv(request: Request, ids: seq<string>, stamp: PlanIds) returns (r: Result<Plan, PlanError>)
      requires journal.Valid() && owner.Valid() && service.plane == plane && |ids| == |request.targets|
      modifies journal, service.journal
      ensures journal.Valid()
      ensures var found := plane.View().FindSnapshot(request.snapshotId);
              (journal.records, service.View(), r)
              == Planning(old(journal.records), plane.View().entities, found, old(service.View()), owner, cfg, request, ids,
                          stamp)
      ensures r.Err? ==> journal.View() == old(journal.View())
    {
      hide P.Evaluate, Observe, Offers, Select, AddDecision, PlanFor, Coherent, Represents, StateOwner, Preparing,
           Run.Valid;
      var ready :- Prepare(request, ids);
      var (stateOwner, run, predictions) := ready;
      PreparedRun(plane.View().entities, plane.View().FindSnapshot(request.snapshotId), old(service.View()), owner, cfg,
                  request, ids);
      var plan := PlanFor(cfg, owner, request, run.sit, stateOwner, run.offers, predictions, stamp);
      var recorded := journal.RecordDecision(plan.decision, plan.predictions);
      if recorded.Err? {
        return Err(JournalRefused(recorded.error));
      }
      r := Ok(plan);
    }
  }

  lemma {:induction false} RefusalStays(
      s: P.Service, snap: Snapshot, candidates: seq<CandidateAction>, ids: seq<string>, k: nat, n: nat)
    requires k <= n <= |candidates| == |ids| && P.AskMany(s, snap, candidates, ids, k).1.Err?
    ensures P.AskMany(s, snap, candidates, ids, n) == P.AskMany(s, snap, candidates, ids, k)
  {
    hide P.Ask;
    if k < n {
      RefusalStays(s, snap, candidates, ids, k, n - 1);
    }
  }

  /** What the service answers to the offers are the predictions of the run. */
  lemma AskedIsPredicted(s: P.Service, run: Run)
    requires |run.ids| == |run.offers| && run.service == s.cfg && run.model == s.current
    ensures var r := P.AskMany(s, run.sit.snap, Candidates(run.offers), run.ids, |run.offers|).1;
            r.Ok? ==> r.value == run.Predictions()
  {
    hide P.Evaluate, P.AskMany, P.Unused, P.Journals;
    var k := P.AskManyJournals(s, run.sit.snap, Candidates(run.offers), run.ids, |run.offers|);
    var answers := P.Answers(s, run.sit.snap, Candidates(run.offers), run.ids);
    assert answers[..|run.offers|] == answers == run.Predictions();
  }

  lemma {:induction false} OffersStayFailed(owner: Owner, request: Request, sit: Situation, n: nat)
    requires n <= |request.targets| && OffersFor(owner, request, sit, request.targets[..n]).Err?
    ensures OffersFor(owner, request, sit, request.targets) == OffersFor(owner, request, sit, request.targets[..n])
    decreases |request.targets| - n
  {
    hide OfferFor;
    if n < |request.targets| {
      assert request.targets[..n + 1][..n] == request.targets[..n];
      OffersStayFailed(owner, request, sit, n + 1);
    } else {
      assert request.targets[..n] == request.targets;
    }
  }

  lemma ObservedIsSound(cfg: Config, snap: Snapshot, request: Request)
    requires Observe(cfg, snap, request).Ok?
    ensures var sit := Observe(cfg, snap, request).value;
            && sit.snap == snap && DistinctTargets(request.targets) && sit.current in request.targets
            && ObservedPressure(snap, sit.current) == Ok(sit.pressure)
  {
    hide StateNumber, StateText, StateTime, ObservedPressure, SecondsUntil;
  }

  lemma OffersKeep(owner: Owner, request: Request, sit: Situation)
    requires Offers(owner, request, sit).Ok?
    ensures HasKeep(Offers(owner, request, sit).value)
  {
    hide OffersFor;
  }

  lemma {:induction false} OffersAreFewer(owner: Owner, request: Request, sit: Situation, targets: seq<Target>)
    requires OffersFor(owner, request, sit, targets).Ok?
    ensures |OffersFor(owner, request, sit, targets).value| <= |targets|
  {
    hide OfferFor;
    if targets != [] {
      OffersAreFewer(owner, request, sit, targets[..|targets| - 1]);
    }
  }

  lemma OffersAreBounded(owner: Owner, request: Request, sit: Situation)
    requires Offers(owner, request, sit).Ok?
    ensures |Offers(owner, request, sit).value| <= |request.targets|
  {
    hide OffersFor;
    OffersAreFewer(owner, request, sit, request.targets);
  }

  lemma FewerIdsAreNew(records: Records, ids: seq<string>, stamp: PlanIds, few: seq<string>)
    requires NewTo(records, ids, stamp) && few <= ids
    ensures NewTo(records, few, stamp)
  {
    hide Holds, HasDecision, HasAction;
    forall p, i | Holds(records, p) && 0 <= i < |few| ensures p.predictionId != few[i] {
      assert few[i] == ids[i];
    }
  }
}
