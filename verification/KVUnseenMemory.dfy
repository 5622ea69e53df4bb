// A KV plan that fills memory it knows nothing about: one run over a snapshot without the target's memory figures.

module KVUnseenMemory {
  import opened Basics
  import opened Contracts
  import opened PlaneSpec
  import opened ControlTypes
  import opened AnalyticalModel
  import P = PredictionService
  import opened KVPlanner
  import opened KVSafety

  // ---- Trust without figures ----

  /** Nobody's memory use is recorded, and the candidate does not say it either. */
  predicate Unseen(snap: Snapshot, c: CandidateAction) {
    && (forall slot :: slot in snap.values ==> slot.1 != USED && slot.1 != RESERVED)
    && HbmUsedBytes !in c.parameters && HbmReservedBytes !in c.parameters
  }

  lemma UnseenCountsAsZero(snap: Snapshot, c: CandidateAction)
    requires Unseen(snap, c)
    ensures Seen(snap, c, HbmUsedBytes, USED) == 0.0 && Seen(snap, c, HbmReservedBytes, RESERVED) == 0.0
  {
    assert Carriers(snap, USED) == {} && Carriers(snap, RESERVED) == {};
  }

  /** A move into unseen memory is trusted, at the pressure of an otherwise empty target. */
  lemma UnseenMoveIsTrusted(
      service: P.ServiceConfig, snap: Snapshot, c: CandidateAction, version: string, id: string,
      growth: real, capacity: int)
    requires SelfContained(snap, c) && Unseen(snap, c) && Carries(c, growth, 0.0, capacity)
    requires Moved(c) > 0.0 && growth > 0.0 && Occupied(c) == growth && capacity > 0
    requires 0.5 <= snap.completeness <= 1.0 && service.minConfidence <= 0.5
    ensures var p := P.Evaluate(service, snap, c, P.Analytical(version), id);
            && p.fallback == "none" && p.confidence >= 0.5 && p.performance.transferEtaSeconds.Some?
            && p.future.hbmPressure == Some(growth / capacity as real)
  {
    hide Predict, SelfContained, Unseen, Carries, Seen;
    SelfContainedIsTrustedExactlyWhen(snap, c, version, id);
    TrustedPredictionIsKnown(snap, c, version, id);
    PressureOfAnswer(service, snap, c, version, id, growth, 0.0, capacity);
    UnseenCountsAsZero(snap, c);
  }

  lemma OnlyWishIsChosen(cfg: Config, sit: Situation, keep: Choice, x: Choice)
    requires keep.offer.kind == Keep && x.offer.kind == Prefetch
    requires WishOf(cfg, sit) == Some(Wish(Prefetch, "expected_resume_prefetch"))
    requires sit.snap.completeness >= cfg.minCompleteness
    requires sit.transferState.Some? && sit.transferState.value in cfg.stableStates
    requires Trusted(cfg, Prefetch, x) && FitsMemory(cfg, x)
    ensures [keep, x][0].offer.kind == Keep
    ensures Select(cfg, sit, [keep, x]).choice == x
  {
    hide WishOf, FitsMemory, Trusted, TrustedChoices, SafeChoices;
    OnlyTrusted(cfg, keep, x);
    OnlySafe(cfg, x);
  }

  lemma OnlyTrusted(cfg: Config, keep: Choice, x: Choice)
    requires keep.offer.kind == Keep && Trusted(cfg, Prefetch, x)
    ensures TrustedChoices(cfg, Prefetch, [keep, x]) == [x]
  {
    hide Filter;
    var trusted := (y: Choice) => Trusted(cfg, Prefetch, y);
    assert [keep] + [x] == [keep, x];
    FilterConcat([keep], [x], trusted);
    FilterNone([keep], trusted);
    FilterAll([x], trusted);
  }

  lemma OnlySafe(cfg: Config, x: Choice)
    requires FitsMemory(cfg, x)
    ensures SafeChoices(cfg, [x]) == [x]
  {
    hide Filter;
    FilterAll([x], (y: Choice) => FitsMemory(cfg, y));
  }

  // ---- The run ----

  /** The defaults of the controller; nothing is parsed and nothing is rendered. */
  function Defaults(): Config {
    Config(0.5, 0.5, 0.9, 0.3, 0.6, 5.0, 0.98, 5000000, ["TOOL_WAITING", "BLOCKED", "PAUSED"],
           ["idle", "resident", "ready"], (s: string) => None, (x: real) => "")
  }

  const DRAM: Target := TargetRecord("d", "dram", 0.0, 0.0, 0, 0.0, 0.0, true, true)
  const HBM: Target := TargetRecord("h", "hbm", 90.0, 0.0, 100, 0.0, 0.0, true, true)

  function Entry(ref: string, key: string, value: Value): StateValue {
    StateValue(ref, key, value, "producer", 0, None, 2, 1, 1.0)
  }

  /** The cache and its agent are fully described; nobody's memory use is. */
  function UnseenSnapshot(): Snapshot {
    Snapshot(
      "snapshot", 1, 0, 1.0,
      map[("kv:1", "kv.size") := Entry("kv:1", "kv.size", IntValue(90)),
          ("kv:1", "kv.location") := Entry("kv:1", "kv.location", TextValue("d")),
          ("kv:1", "kv.reuse_probability") := Entry("kv:1", "kv.reuse_probability", FloatValue(1.0)),
          ("kv:1", "kv.transfer_state") := Entry("kv:1", "kv.transfer_state", TextValue("ready")),
          ("agent:1", "agent.expected_resume_time") := Entry("agent:1", "agent.expected_resume_time", TimeValue(0))],
      map[], {}, {})
  }

  function UnseenRequest(): Request {
    Request("snapshot", "kv:1", [DRAM, HBM], "agent:1", "", "policy")
  }

  function UnseenOwner(): Owner {
    Owner("kv-controller", ["kv:"], {Keep, Prefetch})
  }

  function UnseenSituation(): Situation {
    Situation(UnseenSnapshot(), 90, DRAM, Some(1.0), Some("ready"), None, Some(0.0), None)
  }

  function OfferOf(target: Target, kind: KvAction): Offer {
    Offer(CandidateAction(CandidateIdFor(UnseenSnapshot(), "kv:1", kind, target.locationRef), kind.Name(), "kv-controller",
                          ParametersFor(UnseenRequest(), UnseenSituation(), target, None, None)),
          target, kind)
  }

  function UnseenRun(version: string): Run {
    Run(Defaults(), UnseenOwner(), UnseenRequest(), UnseenSituation(), P.ServiceConfig(0.5, "success-first-heuristic"),
        P.Analytical(version), [OfferOf(DRAM, Keep), OfferOf(HBM, Prefetch)], ["p0", "p1"])
  }

  lemma TiersAreKnown()
    ensures !DRAM.IsHbm() && HBM.IsHbm()
  {
    assert Lower("dram") == "dram" && |Lower("dram")| == 4;
    assert Lower("hbm") == "hbm";
    assert "dram"[0] == 'd' && "hbm"[0] == 'h' && "gpu"[0] == 'g' && "gpu_hbm"[0] == 'g';
  }

  lemma PlacesDiffer()
    ensures "d" != "h"
  {
    assert "d"[0] == 'd' && "h"[0] == 'h';
  }

  lemma UnseenKinds()
    ensures KindOf(DRAM, DRAM) == Keep && KindOf(DRAM, HBM) == Prefetch
  {
    TiersAreKnown();
    PlacesDiffer();
  }

  /** Every key in the snapshot is about the cache or the agent. */
  lemma NothingAboutMemory()
    ensures forall slot :: slot in UnseenSnapshot().values ==> slot.1 != [] && slot.1[0] in {'k', 'a'}
    ensures forall slot :: slot in UnseenSnapshot().values ==> slot.1 != USED && slot.1 != RESERVED
  {
    assert "kv.size"[0] == 'k' && "kv.location"[0] == 'k' && "kv.reuse_probability"[0] == 'k';
    assert "kv.transfer_state"[0] == 'k' && "agent.expected_resume_time"[0] == 'a';
    assert USED[0] == 'r' && RESERVED[0] == 'r';
  }

  lemma UnseenSize()
    ensures var v := UnseenSnapshot().values;
            && ("kv:1", "kv.size") in v && v[("kv:1", "kv.size")].value == IntValue(90)
            && ("kv:1", "kv.location") in v && v[("kv:1", "kv.location")].value == TextValue("d")
  {
    assert "kv.size"[3] == 's' && "kv.location"[3] == 'l' && "kv.reuse_probability"[3] == 'r';
    assert "kv.transfer_state"[3] == 't' && "agent.expected_resume_time"[3] == 'n';
  }

  lemma UnseenState()
    ensures var v := UnseenSnapshot().values;
            && ("kv:1", "kv.reuse_probability") in v && v[("kv:1", "kv.reuse_probability")].value == FloatValue(1.0)
            && ("kv:1", "kv.transfer_state") in v && v[("kv:1", "kv.transfer_state")].value == TextValue("ready")
  {
    assert "kv.reuse_probability"[3] == 'r' && "kv.transfer_state"[3] == 't' && "agent.expected_resume_time"[3] == 'n';
  }

  lemma UnseenAgent()
    ensures var v := UnseenSnapshot().values;
            && ("agent:1", "agent.expected_resume_time") in v
            && v[("agent:1", "agent.expected_resume_time")].value == TimeValue(0)
            && ("agent:1", "agent.phase") !in v
  {
    assert "agent:1"[0] == 'a' && "kv:1"[0] == 'k';
    assert "agent.phase"[6] == 'p' && "agent.expected_resume_time"[6] == 'e';
  }

  lemma UnseenIsObserved()
    ensures Observe(Defaults(), UnseenSnapshot(), UnseenRequest()) == Ok(UnseenSituation())
  {
    hide UnseenSnapshot, ObservedPressure;
    UnseenSize();
    UnseenState();
    UnseenAgent();
    UnseenTargets();
    assert 90.0 == 90 as real && (90 as real).Floor == 90;
    assert "agent:1" != "" && "d" != "";
    assert UnseenSnapshot().createdAt == 0 by {
      UnseenHeader();
    }
  }

  lemma UnseenHeader()
    ensures UnseenSnapshot().createdAt == 0 && UnseenSnapshot().completeness == 1.0
  {
  }

  lemma UnseenTargets()
    ensures DistinctTargets([DRAM, HBM]) && FindTarget([DRAM, HBM], "d") == Some(DRAM)
    ensures ObservedPressure(UnseenSnapshot(), DRAM) == Ok(None)
  {
    hide UnseenSnapshot;
    TiersAreKnown();
    PlacesDiffer();
  }

  lemma NoFigures(ref: string)
    ensures StateNumber(UnseenSnapshot(), ref, USED) == Ok(None) && StateNumber(UnseenSnapshot(), ref, RESERVED) == Ok(None)
  {
    hide UnseenSnapshot;
    NothingAboutMemory();
  }

  lemma UnseenOffers()
    ensures OfferFor(UnseenOwner(), UnseenRequest(), UnseenSituation(), DRAM) == Ok(Some(OfferOf(DRAM, Keep)))
    ensures OfferFor(UnseenOwner(), UnseenRequest(), UnseenSituation(), HBM) == Ok(Some(OfferOf(HBM, Prefetch)))
  {
    hide UnseenSnapshot, CandidateIdFor, ParametersFor, StateNumber, KindOf;
    UnseenKinds();
    TiersAreKnown();
    PlacesDiffer();
    NoFigures("h");
  }

  lemma OffersForTwo(owner: Owner, request: Request, sit: Situation, a: Target, b: Target, x: Offer, y: Offer)
    requires OfferFor(owner, request, sit, a) == Ok(Some(x)) && OfferFor(owner, request, sit, b) == Ok(Some(y))
    ensures OffersFor(owner, request, sit, [a, b]) == Ok([x, y])
  {
    hide OfferFor;
    OffersForMore(owner, request, sit, [], a, x);
    OffersForMore(owner, request, sit, [a], b, y);
    assert [] + [a] == [a] && [a] + [b] == [a, b] && [] + [x] == [x] && [x] + [y] == [x, y];
  }

  lemma OffersForMore(owner: Owner, request: Request, sit: Situation, front: seq<Target>, a: Target, x: Offer)
    requires OfferFor(owner, request, sit, a) == Ok(Some(x)) && OffersFor(owner, request, sit, front).Ok?
    ensures OffersFor(owner, request, sit, front + [a]) == Ok(OffersFor(owner, request, sit, front).value + [x])
  {
    hide OfferFor;
    assert (front + [a])[..|front|] == front;
  }

  lemma UnseenRunIsValid(version: string)
    ensures UnseenRun(version).Valid() && HasKeep(UnseenRun(version).offers)
  {
    hide UnseenSnapshot, OfferFor, OfferOf, ObservedPressure;
    UnseenOffers();
    UnseenTargets();
    OffersForTwo(UnseenOwner(), UnseenRequest(), UnseenSituation(), DRAM, HBM, OfferOf(DRAM, Keep), OfferOf(HBM, Prefetch));
    OfferKinds();
    assert [OfferOf(DRAM, Keep), OfferOf(HBM, Prefetch)][0].kind == Keep;
    assert [DRAM, HBM][0] == DRAM && DRAM in [DRAM, HBM];
    assert "kv-controller" != "" && |"kv:"| == 3 && ["kv:"][0] != "";
  }

  lemma OfferKinds()
    ensures OfferOf(DRAM, Keep).kind == Keep && OfferOf(HBM, Prefetch).kind == Prefetch
    ensures OfferOf(HBM, Prefetch).target == HBM
  {
  }

  // ---- The prefetch ----

  function PrefetchMap(): map<Name, Parameter> {
    map[KvRef := Text("kv:1"), SourceLocation := Text("d"), TargetLocation := Text("h"),
        TargetKvLocation := Text("h"), TransferBytes := Num(90.0), TransferSetupSeconds := Num(0.0),
        NetworkByteCost := Num(0.0), StorageIoBytes := Num(0.0), StorageIoByteCost := Num(0.0),
        PredictedKvGrowthBytes := Num(90.0), HbmReleaseBytes := Num(0.0), BaseSuccessProbability := Num(1.0),
        EffectiveBwBytesPerSecond := Num(90.0), HbmCapacityBytes := Num(100.0)]
  }

  lemma PrefetchParameters()
    ensures OfferOf(HBM, Prefetch).candidate.parameters == PrefetchMap()
  {
    hide UnseenSnapshot, CandidateIdFor, TargetRecord.IsHbm;
    TiersAreKnown();
    PlacesDiffer();
    assert 90 as real == 90.0 && 100 as real == 100.0;
  }

  /** Every number it says is a proper one. */
  lemma PrefetchSays(name: Name)
    requires name in PrefetchMap()
    ensures IsNumber(name) ==> PrefetchMap()[name].Num? && PrefetchMap()[name].n >= 0.0
  {
  }

  lemma PrefetchIsSilent(name: Name)
    requires IsTokenNumber(name) || name == HbmUsedBytes || name == HbmReservedBytes
    ensures name !in PrefetchMap()
  {
  }

  lemma PrefetchFigures(c: CandidateAction)
    requires c.parameters == PrefetchMap()
    ensures Carries(c, 90.0, 0.0, 100) && Moved(c) == 90.0 && Occupied(c) == 90.0
    ensures GivenValue(c, EffectiveBwBytesPerSecond) == Some(90.0) && GivenValue(c, HbmCapacityBytes) == Some(100.0)
    ensures TransferBytes in c.parameters && TargetKvLocation in c.parameters && c.parameters[TargetKvLocation].Text?
  {
    assert 100 as real == 100.0;
  }

  lemma PrefetchIsSelfContained()
    ensures var c := OfferOf(HBM, Prefetch).candidate;
            && SelfContained(UnseenSnapshot(), c) && Unseen(UnseenSnapshot(), c) && Carries(c, 90.0, 0.0, 100)
            && Moved(c) == 90.0 && Occupied(c) == 90.0
  {
    hide UnseenSnapshot, OfferOf, PrefetchMap, Moved, Occupied, Carries, GivenValue, IsNumber, IsTokenNumber, KeyOf;
    var c := OfferOf(HBM, Prefetch).candidate;
    NothingAboutMemory();
    PrefetchParameters();
    PrefetchFigures(c);
    forall name
      ensures IsNumber(name) ==> OnlyGiven(UnseenSnapshot(), c, name)
      ensures IsTokenNumber(name) || name == HbmUsedBytes || name == HbmReservedBytes ==> name !in c.parameters
    {
      if name != TransferBytes {
        LookedUpElsewhere(name);
      }
      if name in c.parameters {
        PrefetchSays(name);
      }
      if IsTokenNumber(name) || name == HbmUsedBytes || name == HbmReservedBytes {
        PrefetchIsSilent(name);
      }
    }
  }

  /** Of the keys that numbers are looked up under, only the size of the cache is about the cache or the agent. */
  lemma LookedUpElsewhere(name: Name)
    requires name != TransferBytes
    ensures KeyOf(name) != [] ==> KeyOf(name)[0] !in {'k', 'a'}
  {
  }

  /** The plan prefetches 90 bytes into memory of 100 whose use no one has recorded. */
  lemma UnseenMemoryIsFilled(version: string)
    ensures var run := UnseenRun(version);
            && run.Valid() && HasKeep(run.offers) && Observe(run.cfg, run.sit.snap, run.request) == Ok(run.sit)
            && run.Selected().choice.offer.kind == Prefetch && run.Selected().choice.offer.target == HBM
            && HBM.hbmCapacityBytes == 100 && run.sit.size == 90
            && (HBM.locationRef, USED) !in run.sit.snap.values && (HBM.locationRef, RESERVED) !in run.sit.snap.values
  {
    hide UnseenSnapshot, OfferOf, P.Evaluate, Run.Valid, Observe, Select, SelfContained, Unseen, Carries;
    var run := UnseenRun(version);
    UnseenRunIsValid(version);
    UnseenIsObserved();
    NothingAboutMemory();
    OfferKinds();
    PrefetchIsSelfContained();
    UnseenHeader();
    UnseenMoveIsTrusted(run.service, run.sit.snap, OfferOf(HBM, Prefetch).candidate, version, "p1", 90.0, 100);
    var keep := Choice(OfferOf(DRAM, Keep), run.PredictionAt(0));
    var x := Choice(OfferOf(HBM, Prefetch), run.PredictionAt(1));
    assert run.Choices() == [keep, x];
    UnseenWish();
    OnlyWishIsChosen(run.cfg, run.sit, keep, x);
  }

  lemma UnseenWish()
    ensures WishOf(Defaults(), UnseenSituation()) == Some(Wish(Prefetch, "expected_resume_prefetch"))
    ensures UnseenSituation().transferState == Some("ready") && "ready" in Defaults().stableStates
  {
    hide UnseenSnapshot;
    TiersAreKnown();
    assert Defaults().stableStates[2] == "ready";
  }

  /** Whatever happens to be in use there, 9 bytes or 50, the plan is the same; from 9 bytes on it does not fit. */
  lemma UnseenMemoryOverflows(version: string, used: real)
    requires used > 8.0
    ensures var run := UnseenRun(version);
            && run.Valid() && HasKeep(run.offers) && run.Selected().choice.offer.target == HBM
            && Admits(run.sit.snap, HBM.locationRef, USED, used) && Admits(run.sit.snap, HBM.locationRef, RESERVED, 0.0)
            && used + 0.0 + run.sit.size as real > run.cfg.maxPrefetchPressure * HBM.hbmCapacityBytes as real
  {
    hide UnseenSnapshot, OfferOf, P.Evaluate, Run.Valid, Run.Selected, Observe, Select;
    UnseenMemoryIsFilled(version);
  }
}
