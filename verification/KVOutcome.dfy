// A KV plan does not depend on the order of its targets, and the control journal always accepts it.

module KVOutcome {
  import opened Basics
  import opened Contracts
  import opened PlaneSpec
  import opened ControlTypes
  import opened AnalyticalModel
  import P = PredictionService
  import opened JournalSpec
  import opened KVPlanner
  import opened KVSafety

  // ---- Independence of target order ----

  predicate SameTargets(a: seq<Target>, b: seq<Target>) {
    (forall t :: t in a ==> t in b) && (forall t :: t in b ==> t in a)
  }

  lemma SameLocationSameTarget(targets: seq<Target>, s: Target, t: Target)
    requires DistinctTargets(targets) && s in targets && t in targets && s.locationRef == t.locationRef
    ensures s == t
  {
    var i :| 0 <= i < |targets| && targets[i] == s;
    var j :| 0 <= j < |targets| && targets[j] == t;
  }

  /** What is observed does not depend on the order of the targets. */
  lemma ObservationIgnoresOrder(cfg: Config, snap: Snapshot, a: Request, b: Request)
    requires SameTargets(a.targets, b.targets) && DistinctTargets(a.targets) && DistinctTargets(b.targets)
    requires b == a.(targets := b.targets)
    ensures Observe(cfg, snap, a) == Observe(cfg, snap, b)
  {
    hide StateNumber, StateText, StateTime, ObservedPressure, SecondsUntil;
    assert a.targets == [] <==> b.targets == [] by {
      if a.targets != [] {
        assert a.targets[0] in a.targets;
      }
      if b.targets != [] {
        assert b.targets[0] in b.targets;
      }
    }
    forall ref: string ensures FindTarget(a.targets, ref) == FindTarget(b.targets, ref) {
      var s, t := FindTarget(a.targets, ref), FindTarget(b.targets, ref);
      if s.Some? && t.Some? {
        SameLocationSameTarget(a.targets, s.value, t.value);
      }
    }
  }

  lemma OfferIgnoresOrder(owner: Owner, a: Request, b: Request, sit: Situation, t: Target)
    requires b == a.(targets := b.targets)
    ensures OfferFor(owner, a, sit, t) == OfferFor(owner, b, sit, t)
  {
    hide CandidateIdFor, StateNumber;
    forall used, reserved ensures ParametersFor(a, sit, t, used, reserved) == ParametersFor(b, sit, t, used, reserved) {
    }
    hide ParametersFor;
  }

  lemma {:induction false} OffersFail(owner: Owner, request: Request, sit: Situation, targets: seq<Target>)
    ensures OffersFor(owner, request, sit, targets).Ok? <==>
            forall t :: t in targets ==> OfferFor(owner, request, sit, t).Ok?
  {
    hide OfferFor;
    if targets != [] {
      var front, last := targets[..|targets| - 1], targets[|targets| - 1];
      OffersFail(owner, request, sit, front);
      assert targets == front + [last];
    }
  }

  /** The same offers, in some order. */
  lemma OffersIgnoreOrder(owner: Owner, a: Request, b: Request, sit: Situation)
    requires SameTargets(a.targets, b.targets) && DistinctTargets(a.targets) && DistinctTargets(b.targets)
    requires b == a.(targets := b.targets)
    ensures Offers(owner, a, sit).Ok? <==> Offers(owner, b, sit).Ok?
    ensures Offers(owner, a, sit).Ok? ==>
              forall o :: o in Offers(owner, a, sit).value <==> o in Offers(owner, b, sit).value
  {
    hide OfferFor, OffersFor;
    forall t ensures OfferFor(owner, a, sit, t) == OfferFor(owner, b, sit, t) {
      OfferIgnoresOrder(owner, a, b, sit, t);
    }
    OffersFail(owner, a, sit, a.targets);
    OffersFail(owner, b, sit, b.targets);
    if OffersFor(owner, a, sit, a.targets).Ok? {
      OffersAreTargets(owner, a, sit, a.targets);
      OffersAreTargets(owner, b, sit, b.targets);
      var x, y := OffersFor(owner, a, sit, a.targets).value, OffersFor(owner, b, sit, b.targets).value;
      if i :| 0 <= i < |x| && x[i].kind == Keep {
        assert x[i] in y;
      }
      if i :| 0 <= i < |y| && y[i].kind == Keep {
        assert y[i] in x;
      }
    }
  }

  /** Equal but for the identity of the prediction. */
  predicate SameContent(x: Choice, y: Choice) {
    x.offer == y.offer && x.prediction.(predictionId := "") == y.prediction.(predictionId := "")
  }

  ghost predicate HasTwin(x: Choice, b: seq<Choice>) {
    exists y :: y in b && SameContent(x, y)
  }

  ghost predicate Covered(a: seq<Choice>, b: seq<Choice>) {
    forall x :: x in a ==> HasTwin(x, b)
  }

  lemma FilterCovers(a: seq<Choice>, b: seq<Choice>, keep: Choice -> bool)
    requires Covered(a, b) && forall x, y :: SameContent(x, y) ==> keep(x) == keep(y)
    ensures Covered(Filter(a, keep), Filter(b, keep))
  {
    hide SameContent, Filter;
    forall x | x in Filter(a, keep) ensures HasTwin(x, Filter(b, keep)) {
      assert HasTwin(x, b);
      var y :| y in b && SameContent(x, y);
      assert y in Filter(b, keep);
    }
  }

  lemma BetterCompares(a: Choice, b: Choice, c: Choice)
    ensures !Better(a, a)
    ensures Better(a, b) && Better(b, c) ==> Better(a, c)
    ensures Better(a, c) ==> Better(a, b) || Better(b, c)
    ensures !Better(a, b) && !Better(b, a) ==> a.offer.target.locationRef == b.offer.target.locationRef
  {
    StringCompares(a.offer.target.locationRef, b.offer.target.locationRef, c.offer.target.locationRef);
  }

  lemma BetterIsOrder()
    ensures StrictWeakOrder(BetterOrder())
  {
    hide Better;
    forall a, b, c
      ensures !BetterOrder()(a, a)
      ensures BetterOrder()(a, b) && BetterOrder()(b, c) ==> BetterOrder()(a, c)
      ensures BetterOrder()(a, c) ==> BetterOrder()(a, b) || BetterOrder()(b, c)
    {
      BetterCompares(a, b, c);
    }
  }

  lemma ContentDecides(x: Choice, y: Choice, z: Choice)
    requires SameContent(x, y)
    ensures Better(z, x) <==> Better(z, y)
    ensures Better(x, z) <==> Better(y, z)
  {
    assert x.prediction.(predictionId := "").performance == y.prediction.(predictionId := "").performance;
    assert x.prediction.(predictionId := "").cost == y.prediction.(predictionId := "").cost;
  }

  lemma BestIsUnbeaten(s: seq<Choice>)
    requires s != []
    ensures var x := s[FirstBest(s, BetterOrder())]; x in s && forall y :: y in s ==> !Better(y, x)
  {
    hide Better;
    BetterIsOrder();
    FirstBestIsUnbeaten(s, BetterOrder());
    var x := s[FirstBest(s, BetterOrder())];
    forall y | y in s ensures !Better(y, x) {
      var j :| 0 <= j < |s| && s[j] == y;
      assert !BetterOrder()(s[j], x);
    }
  }

  /** The best of two collections with the same content is for the same location. */
  lemma BestIgnoresOrder(a: seq<Choice>, b: seq<Choice>)
    requires a != [] && b != [] && Covered(a, b) && Covered(b, a)
    ensures a[FirstBest(a, BetterOrder())].offer.target.locationRef
            == b[FirstBest(b, BetterOrder())].offer.target.locationRef
  {
    hide Better, SameContent, FirstBest;
    BestIsUnbeaten(a);
    BestIsUnbeaten(b);
    var x, y := a[FirstBest(a, BetterOrder())], b[FirstBest(b, BetterOrder())];
    assert HasTwin(x, b) && HasTwin(y, a);
    hide Covered;
    var x' :| x' in b && SameContent(x, x');
    var y' :| y' in a && SameContent(y, y');
    ContentDecides(x, x', y);
    ContentDecides(y, y', x);
    assert !Better(x, y) && !Better(y, x);
    BetterCompares(x, y, y);
  }

  lemma TestsIgnoreIds(cfg: Config, kind: KvAction, x: Choice, y: Choice)
    requires SameContent(x, y)
    ensures Trusted(cfg, kind, x) == Trusted(cfg, kind, y) && FitsMemory(cfg, x) == FitsMemory(cfg, y)
  {
    var p, q := x.prediction.(predictionId := ""), y.prediction.(predictionId := "");
    assert p.performance == q.performance && p.future == q.future;
    assert p.confidence == q.confidence && p.fallback == q.fallback;
  }

  lemma EmptyTogether(a: seq<Choice>, b: seq<Choice>)
    requires Covered(a, b) && Covered(b, a)
    ensures a == [] <==> b == []
  {
    hide SameContent;
    if a != [] {
      assert a[0] in a;
    }
    if b != [] {
      assert b[0] in b;
    }
  }

  /** Only the current location is kept. */
  ghost predicate OneKeep(choices: seq<Choice>, current: Target) {
    forall x :: x in choices && x.offer.kind == Keep ==> x.offer.target.locationRef == current.locationRef
  }

  lemma SelectIgnoresOrder(cfg: Config, sit: Situation, a: seq<Choice>, b: seq<Choice>)
    requires exists i :: 0 <= i < |a| && a[i].offer.kind == Keep
    requires exists i :: 0 <= i < |b| && b[i].offer.kind == Keep
    requires Covered(a, b) && Covered(b, a) && OneKeep(a, sit.current) && OneKeep(b, sit.current)
    ensures var x, y := Select(cfg, sit, a), Select(cfg, sit, b);
            x.reason == y.reason && x.choice.offer.target.locationRef == y.choice.offer.target.locationRef
  {
    hide SameContent, Trusted, FitsMemory, FirstBest, BetterOrder, WishOf, Covered, Filter;
    assert a[KeepIndex(a)] in a && b[KeepIndex(b)] in b;
    var wish := WishOf(cfg, sit);
    if wish.Some? {
      var kind := wish.value.kind;
      forall x, y | SameContent(x, y)
        ensures Trusted(cfg, kind, x) == Trusted(cfg, kind, y) && FitsMemory(cfg, x) == FitsMemory(cfg, y)
      {
        TestsIgnoreIds(cfg, kind, x, y);
      }
      FilterCovers(a, b, (x: Choice) => Trusted(cfg, kind, x));
      FilterCovers(b, a, (x: Choice) => Trusted(cfg, kind, x));
      var s, t := TrustedChoices(cfg, kind, a), TrustedChoices(cfg, kind, b);
      EmptyTogether(s, t);
      FilterCovers(s, t, (x: Choice) => FitsMemory(cfg, x));
      FilterCovers(t, s, (x: Choice) => FitsMemory(cfg, x));
      EmptyTogether(SafeChoices(cfg, s), SafeChoices(cfg, t));
      if s != [] {
        BestIgnoresOrder(s, t);
      }
      if SafeChoices(cfg, s) != [] {
        BestIgnoresOrder(SafeChoices(cfg, s), SafeChoices(cfg, t));
      }
    }
  }

  lemma ChoicesCover(a: Run, b: Run)
    requires a.Valid() && b.Valid() && P.Honest(a.model)
    requires b.sit == a.sit && b.service == a.service && b.model == a.model
    requires forall o :: o in a.offers ==> o in b.offers
    ensures Covered(a.Choices(), b.Choices())
  {
    hide P.Evaluate, P.Honest, SameContent, Offers, ObservedPressure;
    forall x | x in a.Choices() ensures HasTwin(x, b.Choices()) {
      var i :| 0 <= i < |a.offers| && a.Choices()[i] == x;
      assert a.offers[i] in b.offers;
      var j :| 0 <= j < |b.offers| && b.offers[j] == a.offers[i];
      AnswersShareContent(a.service, a.sit.snap, a.offers[i], a.model, a.ids[i], b.ids[j]);
      assert b.Choices()[j] in b.Choices();
    }
  }

  lemma AnswersShareContent(
      service: P.ServiceConfig, snap: Snapshot, o: Offer, model: P.Model, id: string, other: string)
    requires P.Honest(model)
    ensures SameContent(Choice(o, P.Evaluate(service, snap, o.candidate, model, id)),
                        Choice(o, P.Evaluate(service, snap, o.candidate, model, other)))
  {
    hide P.Evaluate, P.Honest;
    P.EvaluateIsUniform(service, snap, o.candidate, model, id, other);
    var p, q := P.Evaluate(service, snap, o.candidate, model, id), P.Evaluate(service, snap, o.candidate, model, other);
    assert q.(predictionId := id) == p;
    assert p.(predictionId := "") == q.(predictionId := "");
  }

  lemma KeepIsCurrent(run: Run)
    requires run.Valid()
    ensures OneKeep(run.Choices(), run.sit.current)
  {
    hide P.Evaluate, Offers, ObservedPressure, OfferFor;
    forall x | x in run.Choices() && x.offer.kind == Keep ensures x.offer.target.locationRef == run.sit.current.locationRef {
      var i :| 0 <= i < |run.offers| && run.Choices()[i] == x;
      RunOffers(run, run.offers[i]);
    }
  }

  /** The selected target and the reason do not depend on the order in which the targets are given. */
  lemma SelectionIgnoresOrder(a: Run, b: Run)
    requires a.Valid() && b.Valid() && P.Honest(a.model)
    requires SameTargets(a.request.targets, b.request.targets) && b.request == a.request.(targets := b.request.targets)
    requires b.cfg == a.cfg && b.owner == a.owner && b.sit == a.sit && b.service == a.service && b.model == a.model
    ensures HasKeep(a.offers) && HasKeep(b.offers)
    ensures a.Selected().reason == b.Selected().reason
    ensures a.Selected().choice.offer.target == b.Selected().choice.offer.target
  {
    hide P.Evaluate, P.Honest, OffersFor, OneKeep, Covered, Select, OfferFor, ObservedPressure;
    OffersIgnoreOrder(a.owner, a.request, b.request, a.sit);
    ChoicesCover(a, b);
    ChoicesCover(b, a);
    KeepIsCurrent(a);
    KeepIsCurrent(b);
    PairKeepsKinds(a.offers, a.Predictions());
    PairKeepsKinds(b.offers, b.Predictions());
    SelectIgnoresOrder(a.cfg, a.sit, a.Choices(), b.Choices());
    var i := SelectionIsSound(a);
    var j := SelectionIsSound(b);
    RunOffers(a, a.offers[i]);
    RunOffers(b, b.offers[j]);
    SameLocationSameTarget(a.request.targets, a.offers[i].target, b.offers[j].target);
  }

  // ---- The journal accepts every plan ----

  /** A model's answers name the snapshot and the candidate they are about. */
  ghost predicate Faithful(m: P.Model) {
    forall snap: Snapshot, c: CandidateAction, id: string ::
      NamesItsSubject(m.predict(snap, c, id), snap, c)
  }

  predicate NamesItsSubject(r: Result<Prediction, string>, snap: Snapshot, c: CandidateAction) {
    r.Ok? ==> r.value.snapshotId == snap.token && r.value.candidateId == c.candidateId
  }

  lemma AnalyticalIsFaithful(version: string)
    ensures Faithful(P.Analytical(version))
  {
    hide TransferPart, TokenPart, MemoryPart, RiskPart, MoneyPart, LoadPart, E2e, CoverageConfidence;
  }

  lemma AnswerNamesItsSubject(service: P.ServiceConfig, snap: Snapshot, c: CandidateAction, model: P.Model, id: string)
    requires Faithful(model)
    ensures var p := P.Evaluate(service, snap, c, model, id); p.snapshotId == snap.token && p.candidateId == c.candidateId
  {
    assert NamesItsSubject(model.predict(snap, c, id), snap, c);
  }

  lemma KindNames(k: KvAction)
    ensures ':' !in k.Name()
  {
  }

  /** Within one plan, candidate ids tell locations apart. */
  lemma CandidateIdsAreDistinct(snap: Snapshot, kvRef: string, k: KvAction, a: string, j: KvAction, b: string)
    requires CandidateIdFor(snap, kvRef, k, a) == CandidateIdFor(snap, kvRef, j, b)
    ensures a == b
  {
    var prefix := "candidate:kv:" + Decimal(snap.logicalTime) + ":" + kvRef + ":";
    CancelPrefix(prefix, k.Name() + ":" + a, j.Name() + ":" + b);
    KindNames(k);
    KindNames(j);
    assert k.Name() + ":" + a == k.Name() + [':'] + a && j.Name() + ":" + b == j.Name() + [':'] + b;
    SplitUnique(k.Name(), a, j.Name(), b, ':');
  }

  lemma CancelPrefix(prefix: string, x: string, y: string)
    requires prefix + x == prefix + y
    ensures x == y
  {
    assert x == (prefix + x)[|prefix|..] == (prefix + y)[|prefix|..] == y;
  }

  lemma {:induction false} InsertKeepsSorted(s: seq<string>, x: string)
    requires StrictlySorted(s)
    ensures StrictlySorted(InsertSorted(s, x))
    ensures forall v :: v in InsertSorted(s, x) <==> v in s || v == x
    ensures InsertSorted(s, x) != [] && (InsertSorted(s, x)[0] == x || (s != [] && InsertSorted(s, x)[0] == s[0]))
  {
    if s != [] {
      StringLessTotal(x, s[0]);
      assert s == [s[0]] + s[1..];
      if StringLess(x, s[0]) {
        forall j | 0 < j < |s| ensures StringLess(x, s[j]) {
          StringLessTransitive(x, s[0], s[j]);
        }
      } else if x != s[0] {
        InsertKeepsSorted(s[1..], x);
        var rest := InsertSorted(s[1..], x);
        forall j | 0 <= j < |rest| ensures StringLess(s[0], rest[j]) {
          assert rest[j] in rest;
        }
      }
    }
  }

  lemma {:induction false} SortedVersionsAreExact(predictions: seq<Prediction>)
    ensures StrictlySorted(SortedVersions(predictions))
    ensures (set v | v in SortedVersions(predictions)) == VersionsOf(predictions)
  {
    hide StrictlySorted, InsertSorted;
    if predictions == [] {
      NothingIsSorted();
    } else {
      var front, last := predictions[..|predictions| - 1], predictions[|predictions| - 1];
      SortedVersionsAreExact(front);
      InsertKeepsSorted(SortedVersions(front), last.modelVersion);
      assert predictions == front + [last];
      forall v ensures v in SortedVersions(predictions) <==> v in VersionsOf(predictions) {
        assert v in SortedVersions(front) <==> v in VersionsOf(front);
        if v == last.modelVersion {
          assert last in predictions;
        }
      }
    }
  }

  lemma NothingIsSorted()
    ensures StrictlySorted([])
  {
  }

  ghost predicate DistinctIds(ids: seq<string>) {
    forall i, j :: 0 <= i < j < |ids| ==> ids[i] != ids[j]
  }

  /** The ids the plan brings are new to the journal. */
  ghost predicate NewTo(records: Records, ids: seq<string>, stamp: PlanIds) {
    && DistinctIds(ids)
    && !HasDecision(records, stamp.decisionId) && !HasAction(records, stamp.actionId)
    && forall p, i :: Holds(records, p) && 0 <= i < |ids| ==> p.predictionId != ids[i]
  }

  function PlanOf(run: Run, stateOwner: string, stamp: PlanIds): Plan
    requires |run.ids| == |run.offers| && HasKeep(run.offers)
  {
    PlanFor(run.cfg, run.owner, run.request, run.sit, stateOwner, run.offers, run.Predictions(), stamp)
  }

  lemma OfferCandidate(run: Run, i: nat)
    requires run.Valid() && i < |run.offers|
    ensures var o := run.offers[i];
            && o.candidate.candidateId == CandidateIdFor(run.sit.snap, run.request.kvRef, o.kind, o.target.locationRef)
            && o.candidate.candidateId != ""
  {
    hide Offers, ParametersFor, ObservedPressure, CandidateIdFor;
    RunOffers(run, run.offers[i]);
    IdIsNotEmpty(run.sit.snap, run.request.kvRef, run.offers[i].kind, run.offers[i].target.locationRef);
  }

  lemma IdIsNotEmpty(snap: Snapshot, kvRef: string, kind: KvAction, locationRef: string)
    ensures CandidateIdFor(snap, kvRef, kind, locationRef) != ""
  {
    assert |CandidateIdFor(snap, kvRef, kind, locationRef)| >= 13;
  }

  lemma OfferIdsDiffer(run: Run, i: nat, j: nat)
    requires run.Valid() && i < j < |run.offers|
    ensures run.offers[i].candidate.candidateId != run.offers[j].candidate.candidateId
  {
    hide OfferFor, CandidateIdFor, ObservedPressure;
    OffersAreTargets(run.owner, run.request, run.sit, run.request.targets);
    OfferCandidate(run, i);
    OfferCandidate(run, j);
    var a, b := run.offers[i], run.offers[j];
    if a.candidate.candidateId == b.candidate.candidateId {
      CandidateIdsAreDistinct(run.sit.snap, run.request.kvRef, a.kind, a.target.locationRef, b.kind, b.target.locationRef);
    }
  }

  lemma PredictionNamesOffer(run: Run, i: nat)
    requires run.Valid() && Faithful(run.model) && P.Honest(run.model) && i < |run.offers|
    ensures var p := run.PredictionAt(i);
            && p.snapshotId == run.sit.snap.token && p.candidateId == run.offers[i].candidate.candidateId
            && p.predictionId == run.ids[i]
  {
    hide P.Evaluate, P.Honest, Faithful, Offers, ObservedPressure;
    AnswerNamesItsSubject(run.service, run.sit.snap, run.offers[i].candidate, run.model, run.ids[i]);
    P.EvaluateIsUniform(run.service, run.sit.snap, run.offers[i].candidate, run.model, run.ids[i], run.ids[i]);
  }

  /** The action names exactly one of the predictions. */
  lemma SelectionIsUnique(run: Run, stateOwner: string, stamp: PlanIds)
    requires run.Valid() && Faithful(run.model) && P.Honest(run.model)
    ensures HasKeep(run.offers)
    ensures ChosenPrediction(PlanOf(run, stateOwner, stamp).decision.selectedAction, run.Predictions()).Some?
  {
    hide P.Evaluate, P.Honest, Faithful, Offers, ObservedPressure, Select, WishOf, Trusted, FitsMemory, Run.Selected;
    var k := SelectionIsSound(run);
    var id := Text(run.offers[k].candidate.candidateId);
    OfferCandidate(run, k);
    ActionNamesCandidate(run, k, stateOwner, stamp);
    var predictions := run.Predictions();
    forall i | 0 <= i < |predictions| ensures Text(predictions[i].candidateId) == id <==> i == k {
      PredictionNamesOffer(run, i);
      if i < k {
        OfferIdsDiffer(run, i, k);
      } else if k < i {
        OfferIdsDiffer(run, k, i);
      }
    }
    OneMatch(predictions, k, (p: Prediction) => id == Text(p.candidateId));
  }

  lemma ActionNamesCandidate(run: Run, k: nat, stateOwner: string, stamp: PlanIds)
    requires run.Valid() && HasKeep(run.offers) && k < |run.offers| && run.offers[k].candidate.candidateId != ""
    requires run.Selected().choice == Choice(run.offers[k], run.PredictionAt(k))
    ensures NamedCandidate(PlanOf(run, stateOwner, stamp).decision.selectedAction)
            == Some(Text(run.offers[k].candidate.candidateId))
  {
    hide P.Evaluate, Offers, ObservedPressure, Select, SortedVersions;
  }

  lemma {:induction false} OneMatch(s: seq<Prediction>, k: nat, keep: Prediction -> bool)
    requires k < |s| && forall i :: 0 <= i < |s| ==> (keep(s[i]) <==> i == k)
    ensures Filter(s, keep) == [s[k]]
  {
    var front := s[..|s| - 1];
    if k == |s| - 1 {
      forall x | x in front ensures !keep(x) {
        var i :| 0 <= i < |front| && front[i] == x;
      }
      FilterNone(front, keep);
    } else {
      assert forall i :: 0 <= i < |front| ==> front[i] == s[i];
      OneMatch(front, k, keep);
    }
  }

  /** With new ids, the journal always accepts a plan, whatever it holds already. */
  lemma PlanIsAccepted(records: Records, run: Run, stateOwner: string, stamp: PlanIds)
    requires Coherent(records) && run.Valid() && Faithful(run.model) && P.Honest(run.model)
    requires NewTo(records, run.ids, stamp)
    ensures HasKeep(run.offers)
    ensures var plan := PlanOf(run, stateOwner, stamp);
            AddDecision(records, plan.decision, plan.predictions)
            == Ok(records + [JoinedRecord(plan.decision, plan.predictions, None, None)])
  {
    hide P.Evaluate, P.Honest, Faithful, Offers, ObservedPressure, Select, SortedVersions, StrictlySorted, Coherent,
         Stored, ChosenPrediction, OfferFor, PlanFor, HasKeep;
    SelectionIsUnique(run, stateOwner, stamp);
    var plan, predictions := PlanOf(run, stateOwner, stamp), run.Predictions();
    forall i | 0 <= i < |predictions|
      ensures predictions[i].snapshotId == run.sit.snap.token && predictions[i].predictionId == run.ids[i]
      ensures predictions[i].candidateId == run.offers[i].candidate.candidateId
    {
      PredictionNamesOffer(run, i);
    }
    SortedVersionsAreExact(predictions);
    PlanParts(run, stateOwner, stamp);
    assert plan.decision.candidateIds == CandidateIds(predictions);
    assert BundleError(plan.decision, predictions).None?;
    hide BundleError;
    NothingClashes(records, predictions, run.ids);
    DistinctAreStored(predictions);
  }

  lemma PlanParts(run: Run, stateOwner: string, stamp: PlanIds)
    requires run.Valid() && HasKeep(run.offers)
    ensures var plan := PlanOf(run, stateOwner, stamp);
            && plan.predictions == run.Predictions() && run.Predictions() != []
            && plan.decision.decisionId == stamp.decisionId && plan.decision.selectedAction.actionId == stamp.actionId
            && plan.decision.snapshotId == run.sit.snap.token
            && plan.decision.candidateIds == OfferIds(run.offers)
            && plan.decision.predictionIds == PredictionIds(run.Predictions())
            && plan.decision.modelVersions == SortedVersions(run.Predictions())
  {
    hide P.Evaluate, Offers, ObservedPressure, Select, SortedVersions;
  }

  lemma NothingClashes(records: Records, values: seq<Prediction>, ids: seq<string>)
    requires |values| == |ids| && forall i :: 0 <= i < |values| ==> values[i].predictionId == ids[i]
    requires forall p, i :: Holds(records, p) && 0 <= i < |ids| ==> p.predictionId != ids[i]
    ensures !Clashes(records, values)
  {
    hide Holds;
    forall p, q | Holds(records, p) && q in values ensures p.predictionId != q.predictionId {
      var i :| 0 <= i < |values| && values[i] == q;
    }
  }

  lemma DistinctAreStored(values: seq<Prediction>)
    requires forall i, j :: 0 <= i < j < |values| ==> values[i].predictionId != values[j].predictionId
    ensures Stored(values) == values
  {
    hide Stored;
    forall i | 0 <= i < |values| ensures Stored(values)[i] == values[i] {
      StoredAt(values, i);
      var k :| 0 <= k < |values| && values[k] == Stored(values)[i];
    }
  }
}
