// The analytical prediction model: features resolved from a candidate and a snapshot, and formulas over them.

module AnalyticalModel {
  import opened Arithmetic
  import opened Basics
  import opened Contracts
  import opened PlaneSpec
  import opened ControlTypes

  datatype CandidateAction = CandidateAction(
    candidateId: string, actionType: string, targetComponent: string, parameters: map<Name, Parameter>)

  /** A feature that has the wrong type or sign makes the model raise. */
  datatype FeatureError = FeatureError(parameter: Name)

  /** What resolving features has counted and noted so far. */
  datatype Resolver = Resolver(required: nat, available: nat, notes: seq<string>, freshness: map<string, int>)

  const FRESH := Resolver(0, 0, [], map[])

  // ---- Resolving one feature ----

  datatype Found = Absent | Given(p: Parameter) | Held(v: Value)

  function Carriers(snap: Snapshot, key: string): set<Slot> {
    set s | s in snap.values && s.1 == key
  }

  lemma SingletonIsUnique<T>(s: set<T>)
    requires |s| == 1
    ensures forall x, y :: x in s && y in s ==> x == y
  {
    forall x, y | x in s && y in s ensures x == y {
      assert |s - {x}| == 0;
    }
  }

  function TheOnly<T>(s: set<T>): (x: T)
    requires |s| == 1
    ensures x in s
  {
    SingletonIsUnique(s);
    var x :| x in s;
    x
  }

  /** The value of a key for the candidate's component, or else the only value of that key there is. */
  function Locate(snap: Snapshot, c: CandidateAction, key: string): Option<StateValue> {
    if (c.targetComponent, key) in snap.values then Some(snap.values[(c.targetComponent, key)])
    else if |Carriers(snap, key)| == 1 then Some(snap.values[TheOnly(Carriers(snap, key))])
    else None
  }

  function AgeMs(snap: Snapshot, v: StateValue): int {
    MaxInt(0, (snap.createdAt - v.timestamp) / MILLISECOND)
  }

  function Resolve(snap: Snapshot, c: CandidateAction, r: Resolver, parameter: Name, key: string): (Resolver, Found) {
    if parameter in c.parameters then (r, Given(c.parameters[parameter]))
    else if key == "" then (r, Absent)
    else
      match Locate(snap, c, key)
      case Some(v) => (r.(freshness := r.freshness[key := AgeMs(snap, v)]), Held(v.value))
      case None =>
        (if |Carriers(snap, key)| > 1 then r.(notes := r.notes + ["ambiguous_feature:" + key]) else r, Absent)
  }

  /** The numeric content of what was found; `None` when there is none. */
  function Numeric(f: Found, parameter: Name): Result<Option<real>, FeatureError> {
    match f
    case Absent => Ok(None)
    case Given(Num(n)) => if n < 0.0 then Err(FeatureError(parameter)) else Ok(Some(n))
    case Held(IntValue(i)) => if i < 0 then Err(FeatureError(parameter)) else Ok(Some(i as real))
    case Held(FloatValue(x)) => if x < 0.0 then Err(FeatureError(parameter)) else Ok(Some(x))
    case Held(NoValue) => Ok(None)
    case _ => Err(FeatureError(parameter))
  }

  function Label(parameter: Name, key: string): string {
    if key != "" then key else parameter.Text()
  }

  /** A feature that must be there is counted, must be positive, and is noted when it is not. */
  function Number(snap: Snapshot, c: CandidateAction, r: Resolver, parameter: Name, key: string, needed: bool)
    : (out: Result<(Resolver, Option<real>), FeatureError>)
    ensures out.Ok? && out.value.1.Some? ==> out.value.1.value >= 0.0 && (needed ==> out.value.1.value > 0.0)
    ensures out.Ok? ==> Counted(r, out.value.0, needed, out.value.1.Some?)
  {
    var (r1, found) := Resolve(snap, c, r, parameter, key);
    var value :- Numeric(found, parameter);
    if !needed then Ok((r1, value))
    else if value.None? then
      Ok((r1.(required := r1.required + 1, notes := r1.notes + ["missing_feature:" + Label(parameter, key)]), None))
    else if value.value == 0.0 then
      Ok((r1.(required := r1.required + 1, notes := r1.notes + ["invalid_feature:" + Label(parameter, key)]), None))
    else Ok((r1.(required := r1.required + 1, available := r1.available + 1), value))
  }

  predicate Counted(before: Resolver, after: Resolver, needed: bool, known: bool) {
    && after.required == before.required + (if needed then 1 else 0)
    && after.available == before.available + (if needed && known then 1 else 0)
  }

  function TextFeature(snap: Snapshot, c: CandidateAction, r: Resolver, parameter: Name, key: string)
    : Result<(Resolver, Option<string>), FeatureError>
  {
    var (r1, found) := Resolve(snap, c, r, parameter, key);
    match found
    case Absent => Ok((r1, None))
    case Given(Text(s)) => Ok((r1, Some(s)))
    case Held(TextValue(s)) => Ok((r1, Some(s)))
    case Held(NoValue) => Ok((r1, None))
    case _ => Err(FeatureError(parameter))
  }

  function Or(value: Option<real>, default: real): real {
    if value.Some? then value.value else default
  }

  // ---- Formulas ----

  /** How long an amount takes at a rate; unknown when the rate is. */
  function RateDuration(amount: real, rate: Option<real>, setup: real): Option<real> {
    if amount <= 0.0 then Some(setup)
    else if rate.None? || rate.value <= 0.0 then None
    else Some(setup + amount / rate.value)
  }

  function AddKnown(a: Option<real>, b: Option<real>): Option<real> {
    if a.Some? && b.Some? then Some(a.value + b.value) else None
  }

  function DeadlineRisk(duration: real, deadline: real): real {
    if deadline <= 0.0 then 1.0 else Clamp((duration / deadline - 0.8) / 0.2)
  }

  function OomRisk(pressure: real): real {
    Clamp(MaxReal(0.0, pressure - 0.9) * 2.0)
  }

  function Discount(success: real, risk: Option<real>): real {
    if risk.Some? then success * (1.0 - Clamp(risk.value)) else success
  }

  function SuccessProbability(base: Option<real>, oom: Option<real>, timeout: Option<real>): Option<real> {
    if base.None? && oom.None? && timeout.None? then None
    else Some(Clamp(Discount(Discount(Clamp(Or(base, 1.0)), oom), timeout)))
  }

  function LargerRisk(a: Option<real>, b: Option<real>): Option<real> {
    if a.Some? && b.Some? then Some(MaxReal(a.value, b.value))
    else if a.Some? then a
    else b
  }

  function GpuSeconds(e2e: Option<real>, gpus: real): Option<real> {
    if e2e.Some? then Some(e2e.value * gpus) else None
  }

  function MonetaryCost(
      gpuSeconds: Option<real>, bytes: real, storage: real, fixed: real, gpuRate: real, netRate: real, ioRate: real)
    : Option<real>
  {
    if gpuSeconds.None? then None
    else Some(fixed + gpuSeconds.value * gpuRate + bytes * netRate + storage * ioRate)
  }

  function Applicability(actionType: string): string {
    var t := Lower(actionType);
    if t in {"route", "admit", "fallback"} then "routing"
    else if t in {"keep", "offload", "prefetch", "migrate"} then "kv"
    else if t != "" then t
    else "unknown"
  }

  function CoverageConfidence(completeness: real, r: Resolver): real {
    var coverage := if r.required > 0 then r.available as real / r.required as real else 0.0;
    Clamp(Product(completeness, 0.35 + 0.65 * coverage))
  }

  // ---- The parts of a prediction, in the order their features are resolved ----

  datatype Transfer = Transfer(queueSeconds: real, bytes: real, seconds: Option<real>)

  function TransferPart(snap: Snapshot, c: CandidateAction, r: Resolver): Result<(Resolver, Transfer), FeatureError> {
    var queue :- Number(snap, c, r, QueueSeconds, "request.queue_time", false);
    var bytes :- Number(snap, c, queue.0, TransferBytes, "kv.size", false);
    var setup :- Number(snap, c, bytes.0, TransferSetupSeconds, "", false);
    var bw :- Number(snap, c, setup.0, EffectiveBwBytesPerSecond, "link.effective_bw", Or(bytes.1, 0.0) > 0.0);
    Ok((bw.0, Transfer(Or(queue.1, 0.0), Or(bytes.1, 0.0), RateDuration(Or(bytes.1, 0.0), bw.1, Or(setup.1, 0.0)))))
  }

  datatype Tokens = Tokens(prefillSeconds: Option<real>, decodeSeconds: Option<real>, decodeTps: Option<real>)

  function TokenPart(snap: Snapshot, c: CandidateAction, r: Resolver): Result<(Resolver, Tokens), FeatureError> {
    var prompt :- Number(snap, c, r, PromptTokens, "request.context_tokens", false);
    var cached :- Number(snap, c, prompt.0, CachedTokens, "", false);
    var prefill := MaxReal(0.0, Or(prompt.1, 0.0) - MinReal(Or(prompt.1, 0.0), Or(cached.1, 0.0)));
    var prefillTps :- Number(snap, c, cached.0, PrefillTokensPerSecond, "runtime.prefill_tps", prefill > 0.0);
    var output :- Number(snap, c, prefillTps.0, ExpectedOutputTokens, "request.expected_output_tokens", false);
    var tokens := Or(output.1, 0.0);
    var decodeTps :- Number(snap, c, output.0, DecodeTokensPerSecond, "runtime.decode_tps", tokens > 0.0);
    Ok((decodeTps.0, Tokens(RateDuration(prefill, prefillTps.1, 0.0), RateDuration(tokens, decodeTps.1, 0.0), decodeTps.1)))
  }

  datatype Memory = Memory(predictedBytes: real, pressure: Option<real>)

  function MemoryPart(snap: Snapshot, c: CandidateAction, r: Resolver): Result<(Resolver, Memory), FeatureError> {
    var used :- Number(snap, c, r, HbmUsedBytes, "resource.hbm.used", false);
    var reserved :- Number(snap, c, used.0, HbmReservedBytes, "resource.hbm.reserved", false);
    var growth :- Number(snap, c, reserved.0, PredictedKvGrowthBytes, "", false);
    var release :- Number(snap, c, growth.0, HbmReleaseBytes, "", false);
    var predicted := MaxReal(0.0, Or(used.1, 0.0) + Or(reserved.1, 0.0) + Or(growth.1, 0.0) - Or(release.1, 0.0));
    var capacity :- Number(snap, c, release.0, HbmCapacityBytes, "", predicted > 0.0);
    Ok((capacity.0,
        Memory(predicted,
               if capacity.1.Some? && capacity.1.value > 0.0 then Some(predicted / capacity.1.value) else None)))
  }

  datatype Risk = Risk(oom: Option<real>, timeout: Option<real>, success: Option<real>)

  function RiskPart(snap: Snapshot, c: CandidateAction, r: Resolver, e2e: Option<real>, pressure: Option<real>)
    : Result<(Resolver, Risk), FeatureError>
  {
    var deadline :- Number(snap, c, r, DeadlineSeconds, "", false);
    var base :- Number(snap, c, deadline.0, BaseSuccessProbability, "", false);
    var oom := if pressure.Some? then Some(OomRisk(pressure.value)) else None;
    var timeout := if e2e.Some? && deadline.1.Some? then Some(DeadlineRisk(e2e.value, deadline.1.value)) else None;
    Ok((base.0, Risk(oom, timeout, SuccessProbability(base.1, oom, timeout))))
  }

  datatype Money = Money(gpuSeconds: Option<real>, storageIo: real, cost: Option<real>)

  function MoneyPart(snap: Snapshot, c: CandidateAction, r: Resolver, e2e: Option<real>, bytes: real)
    : Result<(Resolver, Money), FeatureError>
  {
    var gpu :- Number(snap, c, r, AllocatedGpu, "instance.allocated_gpu", false);
    var io :- Number(snap, c, gpu.0, StorageIoBytes, "", false);
    var fixed :- Number(snap, c, io.0, FixedCost, "", false);
    var gpuRate :- Number(snap, c, fixed.0, GpuSecondCost, "", false);
    var netRate :- Number(snap, c, gpuRate.0, NetworkByteCost, "", false);
    var ioRate :- Number(snap, c, netRate.0, StorageIoByteCost, "", false);
    var gpuSeconds, storage := GpuSeconds(e2e, Or(gpu.1, 0.0)), Or(io.1, 0.0);
    Ok((ioRate.0, Money(gpuSeconds, storage,
                        MonetaryCost(gpuSeconds, bytes, storage, Or(fixed.1, 0.0), Or(gpuRate.1, 0.0),
                                     Or(netRate.1, 0.0), Or(ioRate.1, 0.0)))))
  }

  datatype Load = Load(depth: Option<real>, delta: real, gpuUtil: Option<real>, location: Option<string>)

  function LoadPart(snap: Snapshot, c: CandidateAction, r: Resolver): Result<(Resolver, Load), FeatureError> {
    var depth :- Number(snap, c, r, QueueDepth, "runtime.queue_depth", false);
    var delta :- Number(snap, c, depth.0, QueueDelta, "", false);
    var util :- Number(snap, c, delta.0, GpuUtilization, "resource.gpu.util", false);
    var location :- TextFeature(snap, c, util.0, TargetKvLocation, "kv.location");
    Ok((location.0, Load(depth.1, Or(delta.1, 0.0), util.1, location.1)))
  }

  function Ttft(t: Transfer, k: Tokens): Option<real> {
    AddKnown(AddKnown(Some(t.queueSeconds), t.seconds), k.prefillSeconds)
  }

  function E2e(t: Transfer, k: Tokens): Option<real> {
    AddKnown(Ttft(t, k), k.decodeSeconds)
  }

  function Assemble(
      snap: Snapshot, c: CandidateAction, version: string, predictionId: string, r: Resolver,
      t: Transfer, k: Tokens, m: Memory, risk: Risk, money: Money, load: Load): Prediction
  {
    var confidence := CoverageConfidence(snap.completeness, r);
    var e2e := E2e(t, k);
    Prediction(
      predictionId, snap.token, c.candidateId,
      Performance(Ttft(t, k), if k.decodeTps.Some? && k.decodeTps.value > 0.0 then Some(1.0 / k.decodeTps.value) else None,
                  e2e, k.decodeTps, t.seconds),
      Reliability(risk.success, risk.oom, risk.timeout, LargerRisk(risk.oom, risk.timeout)),
      Cost(money.gpuSeconds, if e2e.Some? then Some(m.predictedBytes * e2e.value) else None,
           Some(t.bytes.Floor), Some(money.storageIo.Floor), money.cost),
      FutureState(AddKnown(load.depth, Some(load.delta)), m.pressure, load.location, load.depth, load.gpuUtil,
                  Some(m.predictedBytes)),
      confidence, version, Applicability(c.actionType), r.freshness,
      if confidence >= 0.5 && r.available == r.required then "none" else "baseline", r.notes)
  }

  function Predict(snap: Snapshot, c: CandidateAction, version: string, predictionId: string)
    : Result<Prediction, FeatureError>
  {
    var transfer :- TransferPart(snap, c, FRESH);
    var tokens :- TokenPart(snap, c, transfer.0);
    var memory :- MemoryPart(snap, c, tokens.0);
    var e2e := E2e(transfer.1, tokens.1);
    var risk :- RiskPart(snap, c, memory.0, e2e, memory.1.pressure);
    var money :- MoneyPart(snap, c, risk.0, e2e, transfer.1.bytes);
    var load :- LoadPart(snap, c, money.0);
    Ok(Assemble(snap, c, version, predictionId, load.0, transfer.1, tokens.1, memory.1, risk.1, money.1, load.1))
  }

  /** What all the lookups of a prediction have counted together. */
  function Lookups(snap: Snapshot, c: CandidateAction): Result<Resolver, FeatureError> {
    var transfer :- TransferPart(snap, c, FRESH);
    var tokens :- TokenPart(snap, c, transfer.0);
    var memory :- MemoryPart(snap, c, tokens.0);
    var e2e := E2e(transfer.1, tokens.1);
    var risk :- RiskPart(snap, c, memory.0, e2e, memory.1.pressure);
    var money :- MoneyPart(snap, c, risk.0, e2e, transfer.1.bytes);
    var load :- LoadPart(snap, c, money.0);
    Ok(load.0)
  }

  // ---- When a prediction is trusted ----

  /** Required features that were not available. */
  function Gap(r: Resolver): int {
    r.required - r.available
  }

  lemma CoverageIsShare(r: Resolver)
    requires r.available <= r.required && r.required > 0
    ensures 0.0 <= r.available as real / r.required as real <= 1.0
    ensures r.available == r.required ==> r.available as real / r.required as real == 1.0
  {
    ShareOfWhole(r.available as real, r.required as real);
  }

  lemma AssembledIsTrustedWhenCovered(
      snap: Snapshot, c: CandidateAction, version: string, id: string, r: Resolver,
      t: Transfer, k: Tokens, m: Memory, risk: Risk, money: Money, load: Load)
    requires r.available <= r.required && 0.0 <= snap.completeness <= 1.0
    ensures var p := Assemble(snap, c, version, id, r, t, k, m, risk, money, load);
            && 0.0 <= p.confidence <= snap.completeness
            && (p.fallback == "none" <==> r.required > 0 && r.available == r.required && snap.completeness >= 0.5)
  {
    hide Applicability, Ttft, E2e, LargerRisk, Product;
    if r.required > 0 {
      CoverageIsShare(r);
    }
    var coverage := if r.required > 0 then r.available as real / r.required as real else 0.0;
    assert 0.0 <= coverage <= 1.0;
    ProductAtMost(snap.completeness, 0.35 + 0.65 * coverage);
  }

  lemma ProductAtMost(a: real, b: real)
    requires 0.0 <= a && 0.0 <= b <= 1.0
    ensures 0.0 <= Product(a, b) <= a
    ensures b == 1.0 ==> Product(a, b) == a
    ensures b == 0.35 && a <= 1.0 ==> Product(a, b) < 0.5
  {
    assert a * (1.0 - b) >= 0.0;
  }

  /** Gaps only open; without one, every duration and every needed capacity is known. */
  lemma TransferGap(snap: Snapshot, c: CandidateAction, r: Resolver)
    requires TransferPart(snap, c, r).Ok? && Gap(r) >= 0
    ensures var x := TransferPart(snap, c, r).value;
            && Gap(x.0) >= Gap(r) && (Gap(x.0) == 0 ==> x.1.seconds.Some?)
            && x.1.queueSeconds >= 0.0 && x.1.bytes >= 0.0 && (x.1.seconds.Some? ==> x.1.seconds.value >= 0.0)
  {
    hide Number;
    var queue := Number(snap, c, r, QueueSeconds, "request.queue_time", false).value;
    var bytes := Number(snap, c, queue.0, TransferBytes, "kv.size", false).value;
    var setup := Number(snap, c, bytes.0, TransferSetupSeconds, "", false).value;
    var bw := Number(snap, c, setup.0, EffectiveBwBytesPerSecond, "link.effective_bw", Or(bytes.1, 0.0) > 0.0).value;
    DurationIsKnown(Or(bytes.1, 0.0), bw.1, Or(setup.1, 0.0));
  }

  lemma DurationIsKnown(amount: real, rate: Option<real>, setup: real)
    requires setup >= 0.0
    ensures (amount > 0.0 ==> rate.Some? && rate.value > 0.0) ==> RateDuration(amount, rate, setup).Some?
    ensures RateDuration(amount, rate, setup).Some? ==> RateDuration(amount, rate, setup).value >= setup
  {
    if amount > 0.0 && rate.Some? && rate.value > 0.0 {
      QuotientIsPositive(amount, rate.value);
    }
  }

  lemma QuotientIsPositive(a: real, b: real)
    requires a > 0.0 && b > 0.0
    ensures a / b > 0.0
  {
  }

  lemma TokenGap(snap: Snapshot, c: CandidateAction, r: Resolver)
    requires TokenPart(snap, c, r).Ok? && Gap(r) >= 0
    ensures var x := TokenPart(snap, c, r).value;
            && Gap(x.0) >= Gap(r) && (Gap(x.0) == 0 ==> x.1.prefillSeconds.Some? && x.1.decodeSeconds.Some?)
            && (x.1.prefillSeconds.Some? ==> x.1.prefillSeconds.value >= 0.0)
            && (x.1.decodeSeconds.Some? ==> x.1.decodeSeconds.value >= 0.0)
  {
    hide Number, RateDuration;
    var prompt := Number(snap, c, r, PromptTokens, "request.context_tokens", false).value;
    var cached := Number(snap, c, prompt.0, CachedTokens, "", false).value;
    var prefill := MaxReal(0.0, Or(prompt.1, 0.0) - MinReal(Or(prompt.1, 0.0), Or(cached.1, 0.0)));
    var prefillTps :=
      Number(snap, c, cached.0, PrefillTokensPerSecond, "runtime.prefill_tps", prefill > 0.0).value;
    var output :=
      Number(snap, c, prefillTps.0, ExpectedOutputTokens, "request.expected_output_tokens", false).value;
    var tokens := Or(output.1, 0.0);
    var decodeTps := Number(snap, c, output.0, DecodeTokensPerSecond, "runtime.decode_tps", tokens > 0.0).value;
    DurationIsKnown(prefill, prefillTps.1, 0.0);
    DurationIsKnown(tokens, decodeTps.1, 0.0);
  }

  lemma MemoryGap(snap: Snapshot, c: CandidateAction, r: Resolver)
    requires MemoryPart(snap, c, r).Ok? && Gap(r) >= 0
    ensures var x := MemoryPart(snap, c, r).value;
            && Gap(x.0) >= Gap(r) && x.1.predictedBytes >= 0.0
            && (Gap(x.0) == 0 && x.1.predictedBytes > 0.0 ==> x.1.pressure.Some?)
  {
    hide Number;
  }

  lemma RestGap(snap: Snapshot, c: CandidateAction, r: Resolver, e2e: Option<real>, pressure: Option<real>, bytes: real)
    ensures RiskPart(snap, c, r, e2e, pressure).Ok? ==> Gap(RiskPart(snap, c, r, e2e, pressure).value.0) == Gap(r)
    ensures MoneyPart(snap, c, r, e2e, bytes).Ok? ==> Gap(MoneyPart(snap, c, r, e2e, bytes).value.0) == Gap(r)
    ensures LoadPart(snap, c, r).Ok? ==> Gap(LoadPart(snap, c, r).value.0) == Gap(r)
  {
    hide Number;
    ResolveKeepsCounts(snap, c);
  }

  /** Only a prediction that required some feature, found every one it required, and saw at least half of its snapshot is
      not a fallback. */
  lemma TrustedExactlyWhenCovered(snap: Snapshot, c: CandidateAction, version: string, id: string)
    requires Predict(snap, c, version, id).Ok? && 0.0 <= snap.completeness <= 1.0
    ensures Lookups(snap, c).Ok?
    ensures var p, r := Predict(snap, c, version, id).value, Lookups(snap, c).value;
            && r.available <= r.required && 0.0 <= p.confidence <= snap.completeness
            && (p.fallback == "none" <==> r.required > 0 && r.available == r.required && snap.completeness >= 0.5)
  {
    hide TransferPart, TokenPart, MemoryPart, RiskPart, MoneyPart, LoadPart, Assemble, E2e;
    TransferGap(snap, c, FRESH);
    var transfer := TransferPart(snap, c, FRESH).value;
    TokenGap(snap, c, transfer.0);
    var tokens := TokenPart(snap, c, transfer.0).value;
    MemoryGap(snap, c, tokens.0);
    var memory := MemoryPart(snap, c, tokens.0).value;
    var e2e, bytes := E2e(transfer.1, tokens.1), transfer.1.bytes;
    RestGap(snap, c, memory.0, e2e, memory.1.pressure, bytes);
    var risk := RiskPart(snap, c, memory.0, e2e, memory.1.pressure).value;
    RestGap(snap, c, risk.0, e2e, memory.1.pressure, bytes);
    var money := MoneyPart(snap, c, risk.0, e2e, bytes).value;
    RestGap(snap, c, money.0, e2e, memory.1.pressure, bytes);
    var load := LoadPart(snap, c, money.0).value;
    AssembledIsTrustedWhenCovered(snap, c, version, id, load.0, transfer.1, tokens.1, memory.1, risk.1, money.1, load.1);
  }

  lemma ResolveKeepsCounts(snap: Snapshot, c: CandidateAction)
    ensures forall r, parameter, key ::
              var r1 := Resolve(snap, c, r, parameter, key).0; r1.required == r.required && r1.available == r.available
  {
  }

  lemma AssembledIsKnown(
      snap: Snapshot, c: CandidateAction, version: string, id: string, r: Resolver,
      t: Transfer, k: Tokens, m: Memory, risk: Risk, money: Money, load: Load)
    requires r.available == r.required ==>
               && t.seconds.Some? && k.prefillSeconds.Some? && k.decodeSeconds.Some?
               && (m.predictedBytes > 0.0 ==> m.pressure.Some?)
    requires t.queueSeconds >= 0.0 && Or(t.seconds, 0.0) >= 0.0
    requires Or(k.prefillSeconds, 0.0) >= 0.0 && Or(k.decodeSeconds, 0.0) >= 0.0
    ensures var p := Assemble(snap, c, version, id, r, t, k, m, risk, money, load);
            KnownWhenTrusted(p) && LatenciesAreOrdered(p.performance)
  {
    hide CoverageConfidence, Applicability, LargerRisk;
  }

  predicate KnownWhenTrusted(p: Prediction) {
    p.fallback == "none" ==>
      && p.performance.transferEtaSeconds.Some? && p.performance.e2eSeconds.Some?
      && (Or(p.future.predictedHbmBytes, 0.0) > 0.0 ==> p.future.hbmPressure.Some?)
  }

  predicate LatenciesAreOrdered(p: Performance) {
    p.e2eSeconds.Some? ==>
      && p.ttftSeconds.Some? && p.transferEtaSeconds.Some?
      && 0.0 <= p.transferEtaSeconds.value <= p.ttftSeconds.value <= p.e2eSeconds.value
  }

  /** A prediction that is not a fallback knows every duration, and the memory pressure of any predicted use. */
  lemma TrustedPredictionIsKnown(snap: Snapshot, c: CandidateAction, version: string, id: string)
    requires Predict(snap, c, version, id).Ok?
    ensures KnownWhenTrusted(Predict(snap, c, version, id).value)
    ensures LatenciesAreOrdered(Predict(snap, c, version, id).value.performance)
  {
    hide TransferPart, TokenPart, MemoryPart, RiskPart, MoneyPart, LoadPart, Assemble, KnownWhenTrusted,
         LatenciesAreOrdered, E2e;
    TransferGap(snap, c, FRESH);
    var transfer := TransferPart(snap, c, FRESH).value;
    TokenGap(snap, c, transfer.0);
    var tokens := TokenPart(snap, c, transfer.0).value;
    MemoryGap(snap, c, tokens.0);
    var memory := MemoryPart(snap, c, tokens.0).value;
    var e2e := E2e(transfer.1, tokens.1);
    RestGap(snap, c, memory.0, e2e, memory.1.pressure, transfer.1.bytes);
    var risk := RiskPart(snap, c, memory.0, e2e, memory.1.pressure).value;
    RestGap(snap, c, risk.0, e2e, memory.1.pressure, transfer.1.bytes);
    var money := MoneyPart(snap, c, risk.0, e2e, transfer.1.bytes).value;
    RestGap(snap, c, money.0, e2e, memory.1.pressure, transfer.1.bytes);
    var load := LoadPart(snap, c, money.0).value;
    AssembledIsKnown(snap, c, version, id, load.0, transfer.1, tokens.1, memory.1, risk.1, money.1, load.1);
  }

  // ---- Candidates that bring all their features along ----

  /** The parameters that are read as numbers. */
  predicate IsNumber(name: Name) {
    match name
    case QueueSeconds | TransferBytes | TransferSetupSeconds | EffectiveBwBytesPerSecond => true
    case HbmUsedBytes | HbmReservedBytes | PredictedKvGrowthBytes | HbmReleaseBytes | HbmCapacityBytes => true
    case DeadlineSeconds | BaseSuccessProbability => true
    case AllocatedGpu | StorageIoBytes | FixedCost | GpuSecondCost | NetworkByteCost | StorageIoByteCost => true
    case QueueDepth | QueueDelta | GpuUtilization => true
    case _ => IsTokenNumber(name)
  }

  predicate IsTokenNumber(name: Name) {
    match name
    case PromptTokens | CachedTokens | PrefillTokensPerSecond | ExpectedOutputTokens | DecodeTokensPerSecond => true
    case _ => false
  }

  /** The key a number is looked up under when the candidate does not give it, if it is looked up at all. */
  function KeyOf(name: Name): string {
    match name
    case QueueSeconds => "request.queue_time"
    case TransferBytes => "kv.size"
    case EffectiveBwBytesPerSecond => "link.effective_bw"
    case PromptTokens => "request.context_tokens"
    case PrefillTokensPerSecond => "runtime.prefill_tps"
    case ExpectedOutputTokens => "request.expected_output_tokens"
    case DecodeTokensPerSecond => "runtime.decode_tps"
    case HbmUsedBytes => "resource.hbm.used"
    case HbmReservedBytes => "resource.hbm.reserved"
    case AllocatedGpu => "instance.allocated_gpu"
    case QueueDepth => "runtime.queue_depth"
    case GpuUtilization => "resource.gpu.util"
    case _ => ""
  }

  function GivenValue(c: CandidateAction, name: Name): Option<real> {
    if name in c.parameters && c.parameters[name].Num? then Some(c.parameters[name].n) else None
  }

  /** A lookup finds the candidate's own parameter, which is a proper number, or nothing. */
  predicate OnlyGiven(snap: Snapshot, c: CandidateAction, name: Name) {
    if name in c.parameters then c.parameters[name].Num? && c.parameters[name].n >= 0.0
    else KeyOf(name) == "" || forall slot :: slot in snap.values ==> slot.1 != KeyOf(name)
  }

  /** The model finds nothing but what the candidate says, and that is enough: a transfer has a bandwidth, memory has a
      capacity, and no tokens are to be computed. */
  ghost predicate SelfContained(snap: Snapshot, c: CandidateAction) {
    && (forall name :: IsNumber(name) ==> OnlyGiven(snap, c, name))
    && (forall name :: IsTokenNumber(name) ==> name !in c.parameters)
    && (if TargetKvLocation in c.parameters then c.parameters[TargetKvLocation].Text?
        else forall slot :: slot in snap.values ==> slot.1 != "kv.location")
    && (Moved(c) > 0.0 ==> Or(GivenValue(c, EffectiveBwBytesPerSecond), 0.0) > 0.0)
    && (Occupied(c) > 0.0 ==> Or(GivenValue(c, HbmCapacityBytes), 0.0) > 0.0)
  }

  function Moved(c: CandidateAction): real {
    Or(GivenValue(c, TransferBytes), 0.0)
  }

  function Occupied(c: CandidateAction): real {
    MaxReal(0.0, Or(GivenValue(c, HbmUsedBytes), 0.0) + Or(GivenValue(c, HbmReservedBytes), 0.0)
                 + Or(GivenValue(c, PredictedKvGrowthBytes), 0.0) - Or(GivenValue(c, HbmReleaseBytes), 0.0))
  }

  /** The resolver after finding everything that was required. */
  function Satisfied(r: Resolver, needed: bool): Resolver {
    if needed then r.(required := r.required + 1, available := r.available + 1) else r
  }

  lemma GivenIsFound(snap: Snapshot, c: CandidateAction, r: Resolver, name: Name, key: string, needed: bool)
    requires SelfContained(snap, c) && IsNumber(name) && key == KeyOf(name)
    requires needed ==> Or(GivenValue(c, name), 0.0) > 0.0
    ensures Number(snap, c, r, name, key, needed) == Ok((Satisfied(r, needed), GivenValue(c, name)))
  {
    hide IsNumber, KeyOf, Moved, Occupied, Number;
    assert OnlyGiven(snap, c, name);
    if name in c.parameters {
      PresentIsFound(snap, c, r, name, key, needed, c.parameters[name].n);
    } else {
      AbsentIsNothing(snap, c, r, name, key);
    }
  }

  lemma PresentIsFound(snap: Snapshot, c: CandidateAction, r: Resolver, name: Name, key: string, needed: bool, n: real)
    requires name in c.parameters && c.parameters[name] == Num(n) && n >= 0.0 && (needed ==> n > 0.0)
    ensures Number(snap, c, r, name, key, needed) == Ok((Satisfied(r, needed), Some(n)))
  {
  }

  lemma AbsentIsNothing(snap: Snapshot, c: CandidateAction, r: Resolver, name: Name, key: string)
    requires name !in c.parameters && (key == "" || forall slot :: slot in snap.values ==> slot.1 != key)
    ensures Number(snap, c, r, name, key, false) == Ok((r, None))
  {
    hide Locate, Carriers, AgeMs;
    if key != "" {
      NobodyCarries(snap, c, key);
    }
  }

  lemma NobodyCarries(snap: Snapshot, c: CandidateAction, key: string)
    requires forall slot :: slot in snap.values ==> slot.1 != key
    ensures Locate(snap, c, key) == None && |Carriers(snap, key)| == 0
  {
    assert Carriers(snap, key) == {};
  }

  lemma EnoughIsGiven(snap: Snapshot, c: CandidateAction)
    requires SelfContained(snap, c)
    ensures Moved(c) > 0.0 ==> Or(GivenValue(c, EffectiveBwBytesPerSecond), 0.0) > 0.0
    ensures Occupied(c) > 0.0 ==> Or(GivenValue(c, HbmCapacityBytes), 0.0) > 0.0
    ensures forall name :: IsTokenNumber(name) ==> GivenValue(c, name) == None
  {
  }

  lemma TransferIsGiven(snap: Snapshot, c: CandidateAction, r: Resolver)
    requires SelfContained(snap, c)
    ensures TransferPart(snap, c, r).Ok?
    ensures TransferPart(snap, c, r).value.0 == Satisfied(r, Moved(c) > 0.0)
  {
    hide Number, SelfContained;
    EnoughIsGiven(snap, c);
    GivenIsFound(snap, c, r, QueueSeconds, "request.queue_time", false);
    GivenIsFound(snap, c, r, TransferBytes, "kv.size", false);
    GivenIsFound(snap, c, r, TransferSetupSeconds, "", false);
    GivenIsFound(snap, c, r, EffectiveBwBytesPerSecond, "link.effective_bw", Moved(c) > 0.0);
  }

  lemma NoTokens(snap: Snapshot, c: CandidateAction, r: Resolver)
    requires SelfContained(snap, c)
    ensures TokenPart(snap, c, r) == Ok((r, Tokens(Some(0.0), Some(0.0), None)))
  {
    hide Number, SelfContained;
    EnoughIsGiven(snap, c);
    GivenIsFound(snap, c, r, PromptTokens, "request.context_tokens", false);
    GivenIsFound(snap, c, r, CachedTokens, "", false);
    GivenIsFound(snap, c, r, PrefillTokensPerSecond, "runtime.prefill_tps", false);
    GivenIsFound(snap, c, r, ExpectedOutputTokens, "request.expected_output_tokens", false);
    GivenIsFound(snap, c, r, DecodeTokensPerSecond, "runtime.decode_tps", false);
  }

  lemma MemoryIsGiven(snap: Snapshot, c: CandidateAction, r: Resolver)
    requires SelfContained(snap, c)
    ensures MemoryPart(snap, c, r).Ok?
    ensures MemoryPart(snap, c, r).value.0 == Satisfied(r, Occupied(c) > 0.0)
    ensures MemoryPart(snap, c, r).value.1.predictedBytes == Occupied(c)
  {
    hide Number, SelfContained;
    EnoughIsGiven(snap, c);
    GivenIsFound(snap, c, r, HbmUsedBytes, "resource.hbm.used", false);
    GivenIsFound(snap, c, r, HbmReservedBytes, "resource.hbm.reserved", false);
    GivenIsFound(snap, c, r, PredictedKvGrowthBytes, "", false);
    GivenIsFound(snap, c, r, HbmReleaseBytes, "", false);
    GivenIsFound(snap, c, r, HbmCapacityBytes, "", Occupied(c) > 0.0);
  }

  lemma RiskIsGiven(snap: Snapshot, c: CandidateAction, r: Resolver, e2e: Option<real>, pressure: Option<real>)
    requires SelfContained(snap, c)
    ensures RiskPart(snap, c, r, e2e, pressure).Ok? && RiskPart(snap, c, r, e2e, pressure).value.0 == r
  {
    hide Number, SelfContained;
    GivenIsFound(snap, c, r, DeadlineSeconds, "", false);
    GivenIsFound(snap, c, r, BaseSuccessProbability, "", false);
  }

  lemma MoneyIsGiven(snap: Snapshot, c: CandidateAction, r: Resolver, e2e: Option<real>, bytes: real)
    requires SelfContained(snap, c)
    ensures MoneyPart(snap, c, r, e2e, bytes).Ok? && MoneyPart(snap, c, r, e2e, bytes).value.0 == r
  {
    hide Number, SelfContained;
    GivenIsFound(snap, c, r, AllocatedGpu, "instance.allocated_gpu", false);
    GivenIsFound(snap, c, r, StorageIoBytes, "", false);
    GivenIsFound(snap, c, r, FixedCost, "", false);
    GivenIsFound(snap, c, r, GpuSecondCost, "", false);
    GivenIsFound(snap, c, r, NetworkByteCost, "", false);
    GivenIsFound(snap, c, r, StorageIoByteCost, "", false);
  }

  lemma LoadIsGiven(snap: Snapshot, c: CandidateAction, r: Resolver)
    requires SelfContained(snap, c)
    ensures LoadPart(snap, c, r).Ok? && LoadPart(snap, c, r).value.0 == r
  {
    hide Number, SelfContained, TextFeature;
    GivenIsFound(snap, c, r, QueueDepth, "runtime.queue_depth", false);
    GivenIsFound(snap, c, r, QueueDelta, "", false);
    GivenIsFound(snap, c, r, GpuUtilization, "resource.gpu.util", false);
    LocationIsGiven(snap, c, r);
  }

  lemma LocationIsGiven(snap: Snapshot, c: CandidateAction, r: Resolver)
    requires SelfContained(snap, c)
    ensures TextFeature(snap, c, r, TargetKvLocation, "kv.location").Ok?
    ensures TextFeature(snap, c, r, TargetKvLocation, "kv.location").value.0 == r
  {
    hide IsNumber, OnlyGiven, Moved, Occupied, Locate, AgeMs;
    if TargetKvLocation !in c.parameters {
      NobodyCarries(snap, c, "kv.location");
    }
  }

  /** A prediction about such a candidate always succeeds, and it is trusted exactly if the candidate moves something or
      occupies memory: one that needs no feature at all is a fallback, however complete the snapshot is. */
  lemma SelfContainedIsTrustedExactlyWhen(snap: Snapshot, c: CandidateAction, version: string, id: string)
    requires SelfContained(snap, c) && 0.0 <= snap.completeness <= 1.0
    ensures Predict(snap, c, version, id).Ok?
    ensures var p := Predict(snap, c, version, id).value;
            && (p.fallback == "none" <==> (Moved(c) > 0.0 || Occupied(c) > 0.0) && snap.completeness >= 0.5)
            && (p.fallback == "none" ==> p.confidence >= 0.5)
            && p.future.predictedHbmBytes == Some(Occupied(c))
  {
    hide TransferPart, TokenPart, MemoryPart, RiskPart, MoneyPart, LoadPart, E2e, SelfContained, Moved, Occupied,
         CoverageConfidence, Applicability;
    TransferIsGiven(snap, c, FRESH);
    var transfer := TransferPart(snap, c, FRESH).value;
    NoTokens(snap, c, transfer.0);
    var tokens := TokenPart(snap, c, transfer.0).value;
    MemoryIsGiven(snap, c, tokens.0);
    var memory := MemoryPart(snap, c, tokens.0).value;
    var e2e := E2e(transfer.1, tokens.1);
    RiskIsGiven(snap, c, memory.0, e2e, memory.1.pressure);
    MoneyIsGiven(snap, c, memory.0, e2e, transfer.1.bytes);
    LoadIsGiven(snap, c, memory.0);
    TrustedExactlyWhenCovered(snap, c, version, id);
  }

  /** An empty snapshot that lacks nothing, and a routing candidate without parameters. */
  lemma FeaturelessIsFallback(version: string, id: string)
    ensures var snap := Snapshot("snapshot", 0, 0, 1.0, map[], map[], {}, {});
            var p := Predict(snap, CandidateAction("candidate", "route", "component", map[]), version, id);
            p.Ok? && p.value.fallback == "baseline"
  {
    hide Predict, Lookups;
    var snap := Snapshot("snapshot", 0, 0, 1.0, map[], map[], {}, {});
    var c := CandidateAction("candidate", "route", "component", map[]);
    SelfContainedIsTrustedExactlyWhen(snap, c, version, id);
    FallbackIsNamed(snap, c, version, id);
  }

  lemma FallbackIsNamed(snap: Snapshot, c: CandidateAction, version: string, id: string)
    requires Predict(snap, c, version, id).Ok?
    ensures Predict(snap, c, version, id).value.fallback in {"none", "baseline"}
  {
    hide TransferPart, TokenPart, MemoryPart, RiskPart, MoneyPart, LoadPart, E2e;
  }

  /** A known duration is exactly the setup and the amount at the rate. */
  lemma DurationInvertsRate(amount: real, rate: Option<real>, setup: real)
    ensures RateDuration(amount, rate, setup).Some? <==> amount <= 0.0 || (rate.Some? && rate.value > 0.0)
    ensures amount > 0.0 && RateDuration(amount, rate, setup).Some? ==>
              Product(RateDuration(amount, rate, setup).value - setup, rate.value) == amount
  {
  }

  // ---- Probabilities ----

  /** The deadline risk starts at four fifths of the deadline and is certain from the deadline on. */
  lemma DeadlineRiskSaturates(duration: real, deadline: real)
    requires deadline > 0.0
    ensures 0.0 <= DeadlineRisk(duration, deadline) <= 1.0
    ensures DeadlineRisk(duration, deadline) == 0.0 <==> duration <= Product(0.8, deadline)
    ensures DeadlineRisk(duration, deadline) == 1.0 <==> duration >= deadline
  {
    var q := duration / deadline;
    assert q * deadline == duration;
    assert (0.8 - q) * deadline == 0.8 * deadline - duration && (q - 1.0) * deadline == duration - deadline;
    assert (q - 0.8) * deadline == duration - 0.8 * deadline && (1.0 - q) * deadline == deadline - duration;
    SignOfFactor(0.8 - q, deadline);
    SignOfFactor(q - 0.8, deadline);
    SignOfFactor(q - 1.0, deadline);
    SignOfFactor(1.0 - q, deadline);
  }

  /** The memory risk starts at nine tenths of the capacity and is certain from fourteen tenths on. */
  lemma OomRiskSaturates(pressure: real)
    ensures 0.0 <= OomRisk(pressure) <= 1.0
    ensures OomRisk(pressure) == 0.0 <==> pressure <= 0.9
    ensures OomRisk(pressure) == 1.0 <==> pressure >= 1.4
  {
  }

  lemma DiscountStays(success: real, risk: Option<real>)
    requires 0.0 <= success <= 1.0
    ensures 0.0 <= Discount(success, risk) <= success
    ensures risk.Some? ==> Discount(success, risk) <= 1.0 - Clamp(risk.value)
  {
    if risk.Some? {
      var keep := 1.0 - Clamp(risk.value);
      ProductAtMost(success, keep);
      ProductAtMost(keep, success);
      assert Product(success, keep) == Product(keep, success) == success * keep;
    }
  }

  /** Success is a probability, and no more likely than escaping either risk. */
  lemma SuccessIsBelowEachRisk(base: Option<real>, oom: Option<real>, timeout: Option<real>)
    requires oom.Some? ==> 0.0 <= oom.value <= 1.0
    requires timeout.Some? ==> 0.0 <= timeout.value <= 1.0
    ensures var success := SuccessProbability(base, oom, timeout);
            && (success.Some? <==> base.Some? || oom.Some? || timeout.Some?)
            && (success.Some? ==> 0.0 <= success.value <= 1.0)
            && (success.Some? && base.Some? ==> success.value <= Clamp(base.value))
            && (oom.Some? ==> success.value <= 1.0 - oom.value)
            && (timeout.Some? ==> success.value <= 1.0 - timeout.value)
  {
    hide Discount;
    var start := Clamp(Or(base, 1.0));
    DiscountStays(start, oom);
    DiscountStays(Discount(start, oom), timeout);
  }

  // ---- The model as it runs ----

  class FeatureResolver {
    const snap: Snapshot
    const c: CandidateAction
    var required: nat
    var available: nat
    var notes: seq<string>
    var freshness: map<string, int>

    function State(): Resolver
      reads this
    {
      Resolver(required, available, notes, freshness)
    }

    constructor (snap: Snapshot, c: CandidateAction)
      ensures this.snap == snap && this.c == c && State() == FRESH
    {
      this.snap, this.c := snap, c;
      required, available, notes, freshness := 0, 0, [], map[];
    }

    method Find(parameter: Name, key: string) returns (found: Found)
      modifies this
      ensures (State(), found) == Resolve(snap, c, old(State()), parameter, key)
    {
      hide Locate, AgeMs;
      if parameter in c.parameters {
        return Given(c.parameters[parameter]);
      }
      if key == "" {
        return Absent;
      }
      var selected := Locate(snap, c, key);
      if selected.None? {
        if |Carriers(snap, key)| > 1 {
          notes := notes + ["ambiguous_feature:" + key];
        }
        return Absent;
      }
      freshness := freshness[key := AgeMs(snap, selected.value)];
      found := Held(selected.value.value);
    }

    method NumberOf(parameter: Name, key: string, needed: bool) returns (r: Result<Option<real>, FeatureError>)
      modifies this
      ensures match Number(snap, c, old(State()), parameter, key, needed)
              case Ok(x) => State() == x.0 && r == Ok(x.1)
              case Err(e) => r == Err(e)
    {
      hide Resolve;
      var found := Find(parameter, key);
      var value :- Numeric(found, parameter);
      if needed {
        required := required + 1;
      }
      if value.None? {
        if needed {
          notes := notes + ["missing_feature:" + Label(parameter, key)];
        }
        return Ok(None);
      }
      if needed && value.value == 0.0 {
        notes := notes + ["invalid_feature:" + Label(parameter, key)];
        return Ok(None);
      }
      if needed {
        available := available + 1;
      }
      r := Ok(value);
    }

    method TransferOf() returns (r: Result<Transfer, FeatureError>)
      modifies this
      ensures match TransferPart(snap, c, old(State()))
              case Ok(x) => State() == x.0 && r == Ok(x.1)
              case Err(e) => r == Err(e)
    {
      hide Number, RateDuration;
      var queue :- NumberOf(QueueSeconds, "request.queue_time", false);
      var given :- NumberOf(TransferBytes, "kv.size", false);
      var bytes := Or(given, 0.0);
      var setup :- NumberOf(TransferSetupSeconds, "", false);
      var bw :- NumberOf(EffectiveBwBytesPerSecond, "link.effective_bw", bytes > 0.0);
      r := Ok(Transfer(Or(queue, 0.0), bytes, RateDuration(bytes, bw, Or(setup, 0.0))));
    }

    method MemoryOf() returns (r: Result<Memory, FeatureError>)
      modifies this
      ensures match MemoryPart(snap, c, old(State()))
              case Ok(x) => State() == x.0 && r == Ok(x.1)
              case Err(e) => r == Err(e)
    {
      hide Number;
      var used :- NumberOf(HbmUsedBytes, "resource.hbm.used", false);
      var reserved :- NumberOf(HbmReservedBytes, "resource.hbm.reserved", false);
      var growth :- NumberOf(PredictedKvGrowthBytes, "", false);
      var release :- NumberOf(HbmReleaseBytes, "", false);
      var predicted := MaxReal(0.0, Or(used, 0.0) + Or(reserved, 0.0) + Or(growth, 0.0) - Or(release, 0.0));
      var capacity :- NumberOf(HbmCapacityBytes, "", predicted > 0.0);
      r := Ok(Memory(predicted,
                     if capacity.Some? && capacity.value > 0.0 then Some(predicted / capacity.value) else None));
    }

    method TextOf(parameter: Name, key: string) returns (r: Result<Option<string>, FeatureError>)
      modifies this
      ensures match TextFeature(snap, c, old(State()), parameter, key)
              case Ok(x) => State() == x.0 && r == Ok(x.1)
              case Err(e) => r == Err(e)
    {
      hide Resolve;
      var found := Find(parameter, key);
      r := match found
           case Absent => Ok(None)
           case Given(Text(s)) => Ok(Some(s))
           case Held(TextValue(s)) => Ok(Some(s))
           case Held(NoValue) => Ok(None)
           case _ => Err(FeatureError(parameter));
    }

    method TokensOf() returns (r: Result<Tokens, FeatureError>)
      modifies this
      ensures match TokenPart(snap, c, old(State()))
              case Ok(x) => State() == x.0 && r == Ok(x.1)
              case Err(e) => r == Err(e)
    {
      hide Number, RateDuration;
      var prompt :- NumberOf(PromptTokens, "request.context_tokens", false);
      var cached :- NumberOf(CachedTokens, "", false);
      var prefill := MaxReal(0.0, Or(prompt, 0.0) - MinReal(Or(prompt, 0.0), Or(cached, 0.0)));
      var prefillTps :- NumberOf(PrefillTokensPerSecond, "runtime.prefill_tps", prefill > 0.0);
      var output :- NumberOf(ExpectedOutputTokens, "request.expected_output_tokens", false);
      var tokens := Or(output, 0.0);
      var decodeTps :- NumberOf(DecodeTokensPerSecond, "runtime.decode_tps", tokens > 0.0);
      r := Ok(Tokens(RateDuration(prefill, prefillTps, 0.0), RateDuration(tokens, decodeTps, 0.0), decodeTps));
    }

    method RiskOf(e2e: Option<real>, pressure: Option<real>) returns (r: Result<Risk, FeatureError>)
      modifies this
      ensures match RiskPart(snap, c, old(State()), e2e, pressure)
              case Ok(x) => State() == x.0 && r == Ok(x.1)
              case Err(e) => r == Err(e)
    {
      hide Number, OomRisk, DeadlineRisk, SuccessProbability;
      var deadline :- NumberOf(DeadlineSeconds, "", false);
      var base :- NumberOf(BaseSuccessProbability, "", false);
      var oom := if pressure.Some? then Some(OomRisk(pressure.value)) else None;
      var timeout := if e2e.Some? && deadline.Some? then Some(DeadlineRisk(e2e.value, deadline.value)) else None;
      r := Ok(Risk(oom, timeout, SuccessProbability(base, oom, timeout)));
    }

    method MoneyOf(e2e: Option<real>, bytes: real) returns (r: Result<Money, FeatureError>)
      modifies this
      ensures match MoneyPart(snap, c, old(State()), e2e, bytes)
              case Ok(x) => State() == x.0 && r == Ok(x.1)
              case Err(e) => r == Err(e)
    {
      hide Number, GpuSeconds, MonetaryCost;
      var gpu :- NumberOf(AllocatedGpu, "instance.allocated_gpu", false);
      var io :- NumberOf(StorageIoBytes, "", false);
      var fixed :- NumberOf(FixedCost, "", false);
      var gpuRate :- NumberOf(GpuSecondCost, "", false);
      var netRate :- NumberOf(NetworkByteCost, "", false);
      var ioRate :- NumberOf(StorageIoByteCost, "", false);
      var gpuSeconds, storage := GpuSeconds(e2e, Or(gpu, 0.0)), Or(io, 0.0);
      r := Ok(Money(gpuSeconds, storage,
                    MonetaryCost(gpuSeconds, bytes, storage, Or(fixed, 0.0), Or(gpuRate, 0.0), Or(netRate, 0.0),
                                 Or(ioRate, 0.0))));
    }

    method LoadOf() returns (r: Result<Load, FeatureError>)
      modifies this
      ensures match LoadPart(snap, c, old(State()))
              case Ok(x) => State() == x.0 && r == Ok(x.1)
              case Err(e) => r == Err(e)
    {
      hide Number, TextFeature;
      var depth :- NumberOf(QueueDepth, "runtime.queue_depth", false);
      var delta :- NumberOf(QueueDelta, "", false);
      var util :- NumberOf(GpuUtilization, "resource.gpu.util", false);
      var location :- TextOf(TargetKvLocation, "kv.location");
      r := Ok(Load(depth, Or(delta, 0.0), util, location));
    }
  }

  method PredictCandidate(snap: Snapshot, c: CandidateAction, version: string, predictionId: string)
    returns (r: Result<Prediction, FeatureError>)
    ensures r == Predict(snap, c, version, predictionId)
  {
    hide TransferPart, TokenPart, MemoryPart, RiskPart, MoneyPart, LoadPart, Assemble, E2e;
    var features := new FeatureResolver(snap, c);
    var transfer :- features.TransferOf();
    var tokens :- features.TokensOf();
    var memory :- features.MemoryOf();
    var e2e := E2e(transfer, tokens);
    var risk :- features.RiskOf(e2e, memory.pressure);
    var money :- features.MoneyOf(e2e, transfer.bytes);
    var load :- features.LoadOf();
    r := Ok(Assemble(snap, c, version, predictionId, features.State(), transfer, tokens, memory, risk, money, load));
  }
}
