// What a KV plan guarantees, through the planner, the prediction model and the control journal together.

module KVSafety {
  import opened Arithmetic
  import opened Basics
  import opened Contracts
  import opened PlaneSpec
  import opened ControlTypes
  import opened AnalyticalModel
  import P = PredictionService
  import opened JournalSpec
  import opened KVPlanner

  /** One run of the planner over a snapshot: its inputs, the offers, and the predictions made for them. */
  datatype Run = Run(
    cfg: Config, owner: Owner, request: Request, sit: Situation,
    service: P.ServiceConfig, model: P.Model, offers: seq<Offer>, ids: seq<string>)
  {
    ghost predicate Valid() {
      && owner.Valid() && DistinctTargets(request.targets)
      && sit.current in request.targets && ObservedPressure(sit.snap, sit.current) == Ok(sit.pressure)
      && Offers(owner, request, sit) == Ok(offers) && |ids| == |offers|
    }

    function PredictionAt(i: nat): Prediction
      requires i < |offers| && |ids| == |offers|
    {
      P.Evaluate(service, sit.snap, offers[i].candidate, model, ids[i])
    }

    function Predictions(): seq<Prediction>
      requires |ids| == |offers|
    {
      seq(|offers|, i requires 0 <= i < |offers| => PredictionAt(i))
    }

    function Choices(): seq<Choice>
      requires |ids| == |offers|
    {
      Pair(offers, Predictions())
    }

    function Selected(): Selection
      requires |ids| == |offers| && HasKeep(offers)
    {
      PairKeepsKinds(offers, Predictions());
      Select(cfg, sit, Choices())
    }
  }

  // ---- The offers ----

  /** The offers are those of the targets that can be used, and each target has at most one. */
  lemma {:induction false} OffersAreTargets(owner: Owner, request: Request, sit: Situation, targets: seq<Target>)
    requires OffersFor(owner, request, sit, targets).Ok? && DistinctTargets(targets)
    ensures var offers := OffersFor(owner, request, sit, targets).value;
            && (forall o :: o in offers <==> o.target in targets && OfferFor(owner, request, sit, o.target) == Ok(Some(o)))
            && forall i, j :: 0 <= i < j < |offers| ==>
                 offers[i].target.locationRef != offers[j].target.locationRef
  {
    hide OfferFor;
    if targets != [] {
      var front, last := targets[..|targets| - 1], targets[|targets| - 1];
      OffersAreTargets(owner, request, sit, front);
      OfferNamesTarget(owner, request, sit, last);
      var kept := OffersFor(owner, request, sit, front).value;
      assert targets == front + [last];
      forall i | 0 <= i < |kept| ensures kept[i].target.locationRef != last.locationRef {
        assert kept[i] in kept;
        var k :| 0 <= k < |front| && front[k] == kept[i].target;
        assert targets[k] == front[k];
      }
    }
  }

  lemma OfferNamesTarget(owner: Owner, request: Request, sit: Situation, target: Target)
    ensures var o := OfferFor(owner, request, sit, target);
            o.Ok? && o.value.Some? ==> o.value.value.target == target && o.value.value.kind == KindOf(sit.current, target)
  {
    hide ParametersFor, CandidateIdFor;
  }

  lemma RunOffers(run: Run, x: Offer)
    requires run.Valid() && x in run.offers
    ensures x.target in run.request.targets && OfferFor(run.owner, run.request, run.sit, x.target) == Ok(Some(x))
    ensures x.kind == KindOf(run.sit.current, x.target) && x.kind in run.owner.allowed
    ensures x.kind != Keep ==> x.target.available && x.target.healthy
  {
    hide ParametersFor, CandidateIdFor;
    OffersAreTargets(run.owner, run.request, run.sit, run.request.targets);
  }

  // ---- The selection ----

  lemma SelectIsSound(cfg: Config, sit: Situation, choices: seq<Choice>)
    requires exists i :: 0 <= i < |choices| && choices[i].offer.kind == Keep
    ensures var x, wish := Select(cfg, sit, choices).choice, WishOf(cfg, sit);
            && x in choices
            && (x.offer.kind != Keep ==>
                  && wish.Some? && x.offer.kind == wish.value.kind && Trusted(cfg, x.offer.kind, x)
                  && (x.offer.kind == Prefetch ==> FitsMemory(cfg, x))
                  && sit.snap.completeness >= cfg.minCompleteness
                  && sit.transferState.Some? && sit.transferState.value in cfg.stableStates)
  {
    hide WishOf, FitsMemory, BetterOrder, FirstBest;
  }

  /** What was selected is one of the choices; it is the baseline, or the trusted wish of the situation. */
  lemma SelectionIsSound(run: Run) returns (i: nat)
    requires run.Valid()
    ensures HasKeep(run.offers) && i < |run.offers| && run.Selected().choice == Choice(run.offers[i], run.PredictionAt(i))
    ensures var x, wish := run.Selected().choice, WishOf(run.cfg, run.sit);
            x.offer.kind != Keep ==>
              && wish.Some? && x.offer.kind == wish.value.kind && Trusted(run.cfg, x.offer.kind, x)
              && (x.offer.kind == Prefetch ==> FitsMemory(run.cfg, x))
              && run.sit.snap.completeness >= run.cfg.minCompleteness
              && run.sit.transferState.Some? && run.sit.transferState.value in run.cfg.stableStates
  {
    hide P.Evaluate, WishOf, Trusted, FitsMemory, OffersFor, Select, ObservedPressure;
    PairKeepsKinds(run.offers, run.Predictions());
    SelectIsSound(run.cfg, run.sit, run.Choices());
    var x := run.Selected().choice;
    i :| 0 <= i < |run.offers| && run.Choices()[i] == x;
  }

  /** A plan never migrates, and it follows the situation. */
  lemma NeverMigrates(run: Run)
    requires run.Valid()
    ensures HasKeep(run.offers) && run.Selected().choice.offer.kind != Migrate
    ensures run.Selected().choice.offer.kind == Offload ==>
              && run.sit.current.IsHbm() && run.sit.pressure.Some? && run.sit.pressure.value >= run.cfg.offloadPressure
    ensures run.Selected().choice.offer.kind == Prefetch ==> !run.sit.current.IsHbm()
  {
    hide P.Evaluate, Offers, FirstBest;
    var i := SelectionIsSound(run);
  }

  // ---- What the model makes of the parameters ----

  lemma GivenNumber(snap: Snapshot, c: CandidateAction, r: Resolver, name: Name, key: string, needed: bool, n: real)
    requires name in c.parameters && c.parameters[name] == Num(n) && n >= 0.0
    ensures var out := Number(snap, c, r, name, key, needed);
            out.Ok? && out.value.1 == if needed && n == 0.0 then None else Some(n)
  {
  }

  lemma AbsentNumber(snap: Snapshot, c: CandidateAction, r: Resolver, name: Name, needed: bool)
    requires name !in c.parameters
    ensures var out := Number(snap, c, r, name, "", needed); out.Ok? && out.value.1 == None
  {
  }

  /** The figure the model works with: the candidate's own, or one found in the snapshot, or 0. */
  function Seen(snap: Snapshot, c: CandidateAction, name: Name, key: string): real {
    match Numeric(Resolve(snap, c, FRESH, name, key).1, name)
    case Ok(Some(n)) => n
    case _ => 0.0
  }

  lemma NumberSees(snap: Snapshot, c: CandidateAction, r: Resolver, name: Name, key: string)
    requires Number(snap, c, r, name, key, false).Ok?
    ensures Or(Number(snap, c, r, name, key, false).value.1, 0.0) == Seen(snap, c, name, key)
  {
    hide Locate, AgeMs;
  }

  /** A figure of the target in the snapshot is the one used; a missing one is borrowed from the only other holder. */
  lemma SeenIsOwnOrBorrowed(snap: Snapshot, c: CandidateAction, name: Name, key: string)
    requires key != ""
    ensures name in c.parameters && c.parameters[name].Num? && c.parameters[name].n >= 0.0 ==>
              Seen(snap, c, name, key) == c.parameters[name].n
    ensures name !in c.parameters && Locate(snap, c, key).None? ==> Seen(snap, c, name, key) == 0.0
    ensures name !in c.parameters && Locate(snap, c, key).Some? ==>
              match Locate(snap, c, key).value.value
              case IntValue(i) => i >= 0 ==> Seen(snap, c, name, key) == i as real
              case FloatValue(x) => x >= 0.0 ==> Seen(snap, c, name, key) == x
              case _ => Seen(snap, c, name, key) == 0.0
  {
    hide Locate, AgeMs;
  }

  /** What a candidate says about memory. */
  predicate Carries(c: CandidateAction, growth: real, release: real, capacity: int) {
    && growth >= 0.0 && release >= 0.0
    && PredictedKvGrowthBytes in c.parameters && c.parameters[PredictedKvGrowthBytes] == Num(growth)
    && HbmReleaseBytes in c.parameters && c.parameters[HbmReleaseBytes] == Num(release)
    && if capacity > 0 then HbmCapacityBytes in c.parameters && c.parameters[HbmCapacityBytes] == Num(capacity as real)
       else HbmCapacityBytes !in c.parameters
  }

  function BytesSeen(snap: Snapshot, c: CandidateAction, growth: real, release: real): real {
    MaxReal(0.0, Seen(snap, c, HbmUsedBytes, USED) + Seen(snap, c, HbmReservedBytes, RESERVED) + growth - release)
  }

  lemma MemoryOfCandidate(
      snap: Snapshot, c: CandidateAction, r: Resolver, growth: real, release: real, capacity: int)
    requires Carries(c, growth, release, capacity) && MemoryPart(snap, c, r).Ok?
    ensures var m := MemoryPart(snap, c, r).value.1;
            && m.predictedBytes == BytesSeen(snap, c, growth, release)
            && m.pressure == if capacity > 0 then Some(BytesSeen(snap, c, growth, release) / capacity as real) else None
  {
    hide Number, Seen;
    NumberSees(snap, c, r, HbmUsedBytes, USED);
    var a := Number(snap, c, r, HbmUsedBytes, USED, false).value.0;
    NumberSees(snap, c, a, HbmReservedBytes, RESERVED);
    var b := Number(snap, c, a, HbmReservedBytes, RESERVED, false).value.0;
    GivenNumber(snap, c, b, PredictedKvGrowthBytes, "", false, growth);
    var d := Number(snap, c, b, PredictedKvGrowthBytes, "", false).value.0;
    GivenNumber(snap, c, d, HbmReleaseBytes, "", false, release);
    var e := Number(snap, c, d, HbmReleaseBytes, "", false).value.0;
    var bytes := BytesSeen(snap, c, growth, release);
    if capacity > 0 {
      GivenNumber(snap, c, e, HbmCapacityBytes, "", bytes > 0.0, capacity as real);
    } else {
      AbsentNumber(snap, c, e, HbmCapacityBytes, bytes > 0.0);
    }
  }

  /** The pressure in an answer of the service is the one computed from the figures the model sees. */
  lemma PressureOfAnswer(
      service: P.ServiceConfig, snap: Snapshot, c: CandidateAction, version: string, id: string,
      growth: real, release: real, capacity: int)
    requires Carries(c, growth, release, capacity)
    ensures var p := P.Evaluate(service, snap, c, P.Analytical(version), id);
            p.future.hbmPressure.Some? ==>
              capacity > 0 && p.future.hbmPressure.value == BytesSeen(snap, c, growth, release) / capacity as real
  {
    hide TransferPart, TokenPart, MemoryPart, RiskPart, MoneyPart, LoadPart, E2e, CoverageConfidence, Applicability,
         BytesSeen, Carries;
    var transfer := TransferPart(snap, c, FRESH);
    if transfer.Ok? {
      var tokens := TokenPart(snap, c, transfer.value.0);
      if tokens.Ok? && MemoryPart(snap, c, tokens.value.0).Ok? {
        MemoryOfCandidate(snap, c, tokens.value.0, growth, release, capacity);
      }
    }
  }

  lemma ParametersCarry(
      request: Request, sit: Situation, target: Target, used: Option<real>, reserved: Option<real>, c: CandidateAction)
    requires c.parameters == ParametersFor(request, sit, target, used, reserved)
    ensures KindOf(sit.current, target) == Prefetch ==>
              Carries(c, sit.size as real, 0.0, target.hbmCapacityBytes)
    ensures KindOf(sit.current, target) == Offload ==>
              Carries(c, 0.0, sit.size as real, sit.current.hbmCapacityBytes)
    ensures used.Some? ==> HbmUsedBytes in c.parameters && c.parameters[HbmUsedBytes] == Num(used.value)
    ensures used.None? ==> HbmUsedBytes !in c.parameters
    ensures reserved.Some? ==> HbmReservedBytes in c.parameters && c.parameters[HbmReservedBytes] == Num(reserved.value)
    ensures reserved.None? ==> HbmReservedBytes !in c.parameters
  {
  }

  /** The figures an offer was made with are those the snapshot holds for its memory. */
  lemma OfferFigures(run: Run, x: Offer) returns (used: Option<real>, reserved: Option<real>)
    requires run.Valid() && x in run.offers && x.kind in {Prefetch, Offload}
    ensures var location := (if x.kind == Prefetch then x.target else run.sit.current).locationRef;
            && StateNumber(run.sit.snap, location, USED) == Ok(used)
            && StateNumber(run.sit.snap, location, RESERVED) == Ok(reserved)
    ensures x.candidate.parameters == ParametersFor(run.request, run.sit, x.target, used, reserved)
    ensures used.Some? ==> Seen(run.sit.snap, x.candidate, HbmUsedBytes, USED) == used.value
    ensures reserved.Some? ==> Seen(run.sit.snap, x.candidate, HbmReservedBytes, RESERVED) == reserved.value
  {
    hide ParametersFor, CandidateIdFor, Seen, Offers, ObservedPressure;
    RunOffers(run, x);
    var location := (if x.kind == Prefetch then x.target else run.sit.current).locationRef;
    used := StateNumber(run.sit.snap, location, USED).value;
    reserved := StateNumber(run.sit.snap, location, RESERVED).value;
    ParametersCarry(run.request, run.sit, x.target, used, reserved, x.candidate);
    SeenIsOwnOrBorrowed(run.sit.snap, x.candidate, HbmUsedBytes, USED);
    SeenIsOwnOrBorrowed(run.sit.snap, x.candidate, HbmReservedBytes, RESERVED);
  }

  // ---- Safety ----

  /** A chosen prefetch fits, by the figures the model sees, under the configured share of its target's memory. */
  lemma PrefetchFitsSeenMemory(run: Run, version: string)
    requires run.Valid() && run.model == P.Analytical(version)
    requires HasKeep(run.offers) && run.Selected().choice.offer.kind == Prefetch
    ensures var x := run.Selected().choice.offer;
            && x in run.offers && x.target in run.request.targets
            && x.target.IsHbm() && x.target.available && x.target.healthy && x.target.hbmCapacityBytes > 0
            && Seen(run.sit.snap, x.candidate, HbmUsedBytes, USED)
               + Seen(run.sit.snap, x.candidate, HbmReservedBytes, RESERVED) + run.sit.size as real
               <= run.cfg.maxPrefetchPressure * x.target.hbmCapacityBytes as real
  {
    hide P.Evaluate, ParametersFor, CandidateIdFor, WishOf, Offers, StateNumber, Select, ObservedPressure, Seen;
    var i := SelectionIsSound(run);
    var x, size := run.Selected().choice, run.sit.size as real;
    RunOffers(run, run.offers[i]);
    var used, reserved := OfferFigures(run, run.offers[i]);
    ParametersCarry(run.request, run.sit, x.offer.target, used, reserved, x.offer.candidate);
    PressureOfAnswer(run.service, run.sit.snap, x.offer.candidate, version, run.ids[i], size, 0.0,
                     x.offer.target.hbmCapacityBytes);
    QuotientBound(BytesSeen(run.sit.snap, x.offer.candidate, size, 0.0), x.offer.target.hbmCapacityBytes as real,
                  run.cfg.maxPrefetchPressure);
  }

  /** With the target's figures in the snapshot, a chosen prefetch really fits. */
  lemma PrefetchFitsMemory(run: Run, version: string, used: real, reserved: real)
    requires run.Valid() && run.model == P.Analytical(version)
    requires HasKeep(run.offers) && run.Selected().choice.offer.kind == Prefetch
    requires var location := run.Selected().choice.offer.target.locationRef;
             && StateNumber(run.sit.snap, location, USED) == Ok(Some(used))
             && StateNumber(run.sit.snap, location, RESERVED) == Ok(Some(reserved))
    ensures var target := run.Selected().choice.offer.target;
            used + reserved + run.sit.size as real <= run.cfg.maxPrefetchPressure * target.hbmCapacityBytes as real
  {
    hide P.Evaluate, ParametersFor, Offers, StateNumber, Select, ObservedPressure, Seen, Run.Selected;
    PrefetchFitsSeenMemory(run, version);
    var a, b := OfferFigures(run, run.Selected().choice.offer);
  }

  /** A figure of a location that the snapshot does not contradict; an unrecorded one may be anything. */
  ghost predicate Admits(snap: Snapshot, ref: string, key: string, figure: real) {
    figure >= 0.0 && ((ref, key) in snap.values ==> StateNumber(snap, ref, key) == Ok(Some(figure)))
  }

  lemma RecordedIsNumber(snap: Snapshot, ref: string, key: string, found: Option<real>)
    requires StateNumber(snap, ref, key) == Ok(found)
    ensures (ref, key) in snap.values <==> found.Some?
    ensures Admits(snap, ref, key, Or(found, 0.0))
  {
  }

  /** The plan guarantees that a chosen prefetch fits its target, whatever the unrecorded figures are, exactly if both
      figures of the target are recorded in the snapshot. */
  lemma PrefetchFitsExactlyWhenRecorded(run: Run, version: string)
    requires run.Valid() && run.model == P.Analytical(version)
    requires HasKeep(run.offers) && run.Selected().choice.offer.kind == Prefetch
    ensures var snap, target := run.sit.snap, run.Selected().choice.offer.target;
            (forall u, v :: Admits(snap, target.locationRef, USED, u) && Admits(snap, target.locationRef, RESERVED, v) ==>
               u + v + run.sit.size as real <= run.cfg.maxPrefetchPressure * target.hbmCapacityBytes as real)
            <==> (target.locationRef, USED) in snap.values && (target.locationRef, RESERVED) in snap.values
  {
    hide P.Evaluate, ParametersFor, Offers, StateNumber, Select, ObservedPressure, Seen, Run.Selected;
    PrefetchFitsSeenMemory(run, version);
    var snap, target := run.sit.snap, run.Selected().choice.offer.target;
    var used, reserved := OfferFigures(run, run.Selected().choice.offer);
    RecordedIsNumber(snap, target.locationRef, USED, used);
    RecordedIsNumber(snap, target.locationRef, RESERVED, reserved);
    var limit := run.cfg.maxPrefetchPressure * target.hbmCapacityBytes as real;
    var tooMuch := MaxReal(0.0, limit) + 1.0;
    if used.None? {
      assert Admits(snap, target.locationRef, USED, tooMuch);
      assert Admits(snap, target.locationRef, RESERVED, Or(reserved, 0.0));
    } else if reserved.None? {
      assert Admits(snap, target.locationRef, RESERVED, tooMuch);
      assert Admits(snap, target.locationRef, USED, Or(used, 0.0));
    }
  }

  /** A chosen offload is predicted to relieve its source by the size moved, down to nothing, and never to raise it. */
  lemma OffloadNeverRaisesPressure(run: Run, version: string)
    requires run.Valid() && run.model == P.Analytical(version)
    requires HasKeep(run.offers) && run.Selected().choice.offer.kind == Offload
    ensures var p := run.Selected().choice.prediction.future.hbmPressure;
            && run.sit.pressure.Some?
            && (p.Some? ==> p.value <= run.sit.pressure.value)
  {
    hide P.Evaluate, ParametersFor, CandidateIdFor, Offers, Select, Seen;
    var i := SelectionIsSound(run);
    var x, current, size := run.Selected().choice, run.sit.current, run.sit.size as real;
    RunOffers(run, run.offers[i]);
    var used, reserved := OfferFigures(run, run.offers[i]);
    ParametersCarry(run.request, run.sit, x.offer.target, used, reserved, x.offer.candidate);
    PressureOfAnswer(run.service, run.sit.snap, x.offer.candidate, version, run.ids[i], 0.0, size,
                     current.hbmCapacityBytes);
    DivideKeepsOrder(BytesSeen(run.sit.snap, x.offer.candidate, 0.0, size), used.value + reserved.value,
                     current.hbmCapacityBytes as real);
  }
}
