// Which action a KV plan takes, exactly: when it moves the cache, and that it takes the best move there is.

module KVChoice {
  import opened Basics
  import opened Contracts
  import opened PlaneSpec
  import opened ControlTypes
  import opened AnalyticalModel
  import P = PredictionService
  import opened KVPlanner
  import opened KVSafety
  import opened KVOutcome

  // ---- What the situation calls for ----

  ghost predicate InHbm(t: Target) {
    var tier := Lower(t.tier);
    tier == "hbm" || tier == "gpu" || tier == "gpu_hbm"
  }

  ghost predicate AtLeast(figure: Option<real>, bound: real) {
    figure.Some? && figure.value >= bound
  }

  ghost predicate AtMost(figure: Option<real>, bound: real) {
    figure.Some? && figure.value <= bound
  }

  ghost predicate OneOf(text: Option<string>, texts: seq<string>) {
    text.Some? && text.value in texts
  }

  /** The cache rests in HBM under pressure, in a waiting phase, and is unlikely to be used again. */
  ghost predicate CallsForOffload(cfg: Config, sit: Situation) {
    && InHbm(sit.current) && OneOf(sit.phase, cfg.offloadPhases)
    && AtLeast(sit.pressure, cfg.offloadPressure) && AtMost(sit.reuse, cfg.offloadMaxReuse)
  }

  /** The cache rests elsewhere, is about to be needed, and is likely to be used again. */
  ghost predicate CallsForPrefetch(cfg: Config, sit: Situation) {
    && !InHbm(sit.current)
    && AtMost(sit.resumeSeconds, cfg.prefetchHorizonSeconds) && AtLeast(sit.reuse, cfg.prefetchMinReuse)
  }

  ghost predicate CallsFor(cfg: Config, sit: Situation, kind: KvAction) {
    match kind
    case Offload => CallsForOffload(cfg, sit)
    case Prefetch => CallsForPrefetch(cfg, sit)
    case _ => false
  }

  lemma WishIsCall(cfg: Config, sit: Situation, kind: KvAction)
    ensures WishOf(cfg, sit).Some? && WishOf(cfg, sit).value.kind == kind <==> CallsFor(cfg, sit, kind)
  {
  }

  // ---- Which candidates may be chosen ----

  /** A move of the wanted kind with a confident prediction of its own and a known duration, and, into HBM, a known
      pressure within the configured one. */
  ghost predicate MayBeChosen(cfg: Config, kind: KvAction, x: Choice) {
    && x.offer.kind == kind
    && x.prediction.confidence >= cfg.minConfidence && x.prediction.fallback == "none"
    && x.prediction.performance.transferEtaSeconds.Some?
    && (kind == Prefetch ==> AtMost(x.prediction.future.hbmPressure, cfg.maxPrefetchPressure))
  }

  lemma SafeMeansMayBeChosen(cfg: Config, kind: KvAction, x: Choice)
    ensures MayBeChosen(cfg, kind, x) <==> Trusted(cfg, kind, x) && (kind == Prefetch ==> FitsMemory(cfg, x))
  {
  }

  /** The moves that are left to choose from. */
  function Moves(cfg: Config, kind: KvAction, choices: seq<Choice>): seq<Choice> {
    var trusted := TrustedChoices(cfg, kind, choices);
    if kind == Prefetch then SafeChoices(cfg, trusted) else trusted
  }

  lemma MovesAreThose(cfg: Config, kind: KvAction, choices: seq<Choice>, x: Choice)
    ensures x in Moves(cfg, kind, choices) <==> x in choices && MayBeChosen(cfg, kind, x)
  {
    hide Trusted, FitsMemory, MayBeChosen;
    SafeMeansMayBeChosen(cfg, kind, x);
  }

  /** Nothing stands against moving the cache as `kind` says. */
  ghost predicate Moving(cfg: Config, sit: Situation, choices: seq<Choice>, kind: KvAction) {
    && sit.snap.completeness >= cfg.minCompleteness && CallsFor(cfg, sit, kind)
    && OneOf(sit.transferState, cfg.stableStates)
    && exists x :: x in choices && MayBeChosen(cfg, kind, x)
  }

  lemma SelectMovesExactlyWhen(cfg: Config, sit: Situation, choices: seq<Choice>, kind: KvAction)
    requires exists i :: 0 <= i < |choices| && choices[i].offer.kind == Keep
    requires kind != Keep
    ensures Select(cfg, sit, choices).choice.offer.kind == kind <==> Moving(cfg, sit, choices, kind)
    ensures Moving(cfg, sit, choices, kind) ==>
              && Moves(cfg, kind, choices) != []
              && Select(cfg, sit, choices).choice
                 == Moves(cfg, kind, choices)[FirstBest(Moves(cfg, kind, choices), BetterOrder())]
              && Select(cfg, sit, choices).reason
                 == if kind == Offload then "hbm_pressure_offload" else "expected_resume_prefetch"
  {
    hide Trusted, FitsMemory, CallsFor, TrustedChoices, SafeChoices, BetterOrder, FirstBest, WishOf, AtMost;
    WishIsCall(cfg, sit, Offload);
    WishIsCall(cfg, sit, Prefetch);
    WishIsCall(cfg, sit, kind);
    WishesAreMoves(cfg, sit);
    NothingIsSafe(cfg);
    var wish := WishOf(cfg, sit);
    if wish.Some? {
      var moves := Moves(cfg, wish.value.kind, choices);
      if moves != [] {
        MovesAreThose(cfg, wish.value.kind, choices, moves[FirstBest(moves, BetterOrder())]);
      }
      if x :| x in choices && MayBeChosen(cfg, wish.value.kind, x) {
        MovesAreThose(cfg, wish.value.kind, choices, x);
      }
    }
  }

  lemma NothingIsSafe(cfg: Config)
    ensures SafeChoices(cfg, []) == []
  {
  }

  lemma WishesAreMoves(cfg: Config, sit: Situation)
    ensures WishOf(cfg, sit).Some? ==>
              WishOf(cfg, sit).value in {Wish(Offload, "hbm_pressure_offload"), Wish(Prefetch, "expected_resume_prefetch")}
  {
  }

  // ---- The best move ----

  /** Faster; or as fast and cheaper, an unknown cost being the highest; or no worse and first by location. */
  ghost predicate NoBetter(y: Choice, x: Choice) {
    var a, b := x.prediction.performance.transferEtaSeconds, y.prediction.performance.transferEtaSeconds;
    var c, d := x.prediction.cost.monetaryCost, y.prediction.cost.monetaryCost;
    && a.Some? && b.Some? && a.value <= b.value
    && (a == b ==>
          && (c.None? ==> d.None?) && (c.Some? && d.Some? ==> c.value <= d.value)
          && (c == d ==> !StringLess(y.offer.target.locationRef, x.offer.target.locationRef)))
  }

  lemma UnbeatenIsNoWorse(x: Choice, y: Choice)
    requires !Better(y, x)
    requires x.prediction.performance.transferEtaSeconds.Some? && y.prediction.performance.transferEtaSeconds.Some?
    ensures NoBetter(y, x)
  {
    hide StringLess;
  }

  /** A plan moves the cache exactly if the situation calls for it, the snapshot is complete enough, the transfer state is
      stable, and some candidate may be chosen; and then it takes the best of those, and says why. */
  lemma MovesExactlyWhen(run: Run, kind: KvAction)
    requires run.Valid() && kind != Keep
    ensures HasKeep(run.offers)
    ensures run.Selected().choice.offer.kind == kind <==> Moving(run.cfg, run.sit, run.Choices(), kind)
    ensures run.Selected().choice.offer.kind == kind ==>
              && run.Selected().choice in run.Choices() && MayBeChosen(run.cfg, kind, run.Selected().choice)
              && (forall y :: y in run.Choices() && MayBeChosen(run.cfg, kind, y) ==> NoBetter(y, run.Selected().choice))
              && run.Selected().reason == if kind == Offload then "hbm_pressure_offload" else "expected_resume_prefetch"
  {
    hide P.Evaluate, Select, Moving, MayBeChosen, Offers, ObservedPressure, NoBetter, Moves, Run.Choices;
    var i := SelectionIsSound(run);
    PairKeepsKinds(run.offers, run.Predictions());
    ChoicesArePairs(run);
    var choices := run.Choices();
    SelectMovesExactlyWhen(run.cfg, run.sit, choices, kind);
    var moves := Moves(run.cfg, kind, choices);
    if Moving(run.cfg, run.sit, choices, kind) {
      BestIsUnbeaten(moves);
      var x := run.Selected().choice;
      MovesAreThose(run.cfg, kind, choices, x);
      forall y | y in choices && MayBeChosen(run.cfg, kind, y) ensures NoBetter(y, x) {
        MovesAreThose(run.cfg, kind, choices, y);
        ChosenTakesTime(run.cfg, kind, x);
        ChosenTakesTime(run.cfg, kind, y);
        UnbeatenIsNoWorse(x, y);
      }
    }
  }

  lemma ChosenTakesTime(cfg: Config, kind: KvAction, x: Choice)
    requires MayBeChosen(cfg, kind, x)
    ensures x.prediction.performance.transferEtaSeconds.Some?
  {
  }

  lemma ChoicesArePairs(run: Run)
    requires |run.ids| == |run.offers|
    ensures run.Choices() == Pair(run.offers, run.Predictions())
  {
  }

  /** Otherwise the cache stays where it is. */
  lemma KeepsExactlyWhen(run: Run)
    requires run.Valid()
    ensures HasKeep(run.offers)
    ensures run.Selected().choice.offer.kind == Keep <==>
            !Moving(run.cfg, run.sit, run.Choices(), Offload) && !Moving(run.cfg, run.sit, run.Choices(), Prefetch)
    ensures run.Selected().choice.offer.kind == Keep ==>
              run.Selected().choice.offer.target.locationRef == run.sit.current.locationRef
  {
    hide P.Evaluate, Select, Moving, Offers, ObservedPressure, Run.Choices, Run.Selected;
    NeverMigrates(run);
    MovesExactlyWhen(run, Offload);
    MovesExactlyWhen(run, Prefetch);
    var i := SelectionIsSound(run);
    RunOffers(run, run.offers[i]);
    KeepStays(run.sit.current, run.offers[i].target);
  }

  lemma KeepStays(current: Target, target: Target)
    ensures KindOf(current, target) == Keep ==> target.locationRef == current.locationRef
  {
  }
}
