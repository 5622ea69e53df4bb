// What an analytical prediction says, figure by figure, in terms of the candidate and the snapshot.

module PredictionLaws {
  import opened Arithmetic
  import opened Basics
  import opened Contracts
  import opened PlaneSpec
  import opened ControlTypes
  import opened AnalyticalModel
  import P = PredictionService

  // ---- What a lookup finds ----

  ghost predicate Carries(snap: Snapshot, key: string, ref: string) {
    (ref, key) in snap.values
  }

  /** Who a key is read from: the candidate's own component, or else the only entity that has it. */
  ghost predicate ReadFrom(snap: Snapshot, c: CandidateAction, key: string, ref: string) {
    && Carries(snap, key, ref)
    && (Carries(snap, key, c.targetComponent) ==> ref == c.targetComponent)
    && (!Carries(snap, key, c.targetComponent) ==> forall other :: Carries(snap, key, other) ==> other == ref)
  }

  /** Several entities have the key, and the candidate's component is none of them. */
  ghost predicate IsAmbiguous(snap: Snapshot, c: CandidateAction, key: string) {
    && !Carries(snap, key, c.targetComponent)
    && exists a, b :: a != b && Carries(snap, key, a) && Carries(snap, key, b)
  }

  lemma CarriersCount(snap: Snapshot, key: string)
    ensures |Carriers(snap, key)| == 0 <==> forall ref :: !Carries(snap, key, ref)
    ensures |Carriers(snap, key)| > 1 <==> exists a, b :: a != b && Carries(snap, key, a) && Carries(snap, key, b)
  {
    var carriers := Carriers(snap, key);
    assert forall ref :: (ref, key) in carriers <==> Carries(snap, key, ref);
    if carriers != {} {
      var x :| x in carriers;
      assert Carries(snap, key, x.0);
      if carriers == {x} {
        forall a, b | Carries(snap, key, a) && Carries(snap, key, b) ensures a == b {
          assert (a, key) in carriers && (b, key) in carriers;
        }
      } else {
        var y :| y in carriers && y != x;
        assert Carries(snap, key, y.0) && x.0 != y.0;
        SubsetCount({x, y}, carriers);
      }
    }
  }

  lemma LocatedIsReadFrom(snap: Snapshot, c: CandidateAction, key: string)
    ensures forall ref :: ReadFrom(snap, c, key, ref) ==>
              (ref, key) in snap.values && Locate(snap, c, key) == Some(snap.values[(ref, key)])
    ensures Locate(snap, c, key).Some? ==> exists ref :: ReadFrom(snap, c, key, ref)
    ensures Locate(snap, c, key).None? ==> (|Carriers(snap, key)| > 1 <==> IsAmbiguous(snap, c, key))
  {
    CarriersCount(snap, key);
    var carriers := Carriers(snap, key);
    if Carries(snap, key, c.targetComponent) {
      assert ReadFrom(snap, c, key, c.targetComponent);
    } else if |carriers| == 1 {
      var x := TheOnly(carriers);
      SingletonIsUnique(carriers);
      forall other | Carries(snap, key, other) ensures other == x.0 {
        assert (other, key) in carriers;
      }
      assert ReadFrom(snap, c, key, x.0);
    } else {
      forall ref ensures ReadFrom(snap, c, key, ref) ==> |carriers| == 1 {
        OnlyReader(snap, c, key, ref);
      }
    }
  }

  lemma OnlyReader(snap: Snapshot, c: CandidateAction, key: string, ref: string)
    ensures ReadFrom(snap, c, key, ref) && !Carries(snap, key, c.targetComponent) ==> Carriers(snap, key) == {(ref, key)}
  {
    assert forall slot :: slot in Carriers(snap, key) ==> Carries(snap, key, slot.0);
  }

  ghost predicate IsNumberOf(v: Value, x: Option<real>) {
    match v
    case IntValue(i) => x == Some(i as real)
    case FloatValue(f) => x == Some(f)
    case NoValue => x == None
    case _ => false
  }

  /** The number a lookup gives: the candidate's own, or the one its key is read as, or none; never a negative one. */
  ghost predicate Finds(snap: Snapshot, c: CandidateAction, name: Name, key: string, x: Option<real>) {
    && (x.Some? ==> x.value >= 0.0)
    && (name in c.parameters ==> x.Some? && c.parameters[name] == Num(x.value))
    && (name !in c.parameters && key == "" ==> x == None)
    && (name !in c.parameters && key != "" ==>
          && (forall ref :: ReadFrom(snap, c, key, ref) ==> IsNumberOf(snap.values[(ref, key)].value, x))
          && ((forall ref :: !ReadFrom(snap, c, key, ref)) ==> x == None))
  }

  ghost function Lookup(snap: Snapshot, c: CandidateAction, name: Name): Result<Option<real>, FeatureError> {
    Numeric(Resolve(snap, c, FRESH, name, KeyOf(name)).1, name)
  }

  lemma LookupFinds(snap: Snapshot, c: CandidateAction, name: Name)
    ensures var r := Lookup(snap, c, name);
            && (r.Ok? ==> Finds(snap, c, name, KeyOf(name), r.value))
            && (r.Err? ==> r.error == FeatureError(name) && forall x :: !Finds(snap, c, name, KeyOf(name), x))
  {
    hide KeyOf, Locate, ReadFrom, AgeMs;
    LocatedIsReadFrom(snap, c, KeyOf(name));
  }

  /** What a lookup found, if it did. */
  ghost function Reading(snap: Snapshot, c: CandidateAction, name: Name): Option<real> {
    match Lookup(snap, c, name)
    case Ok(x) => x
    case Err(_) => None
  }

  ghost function Amount(snap: Snapshot, c: CandidateAction, name: Name): real {
    match Reading(snap, c, name)
    case Some(x) => x
    case None => 0.0
  }

  /** The tokens to prefill: those of the prompt that are not cached. */
  ghost function ToPrefill(snap: Snapshot, c: CandidateAction): real {
    MaxReal(0.0, Amount(snap, c, PromptTokens) - Amount(snap, c, CachedTokens))
  }

  ghost function ToOccupy(snap: Snapshot, c: CandidateAction): real {
    MaxReal(0.0, Amount(snap, c, HbmUsedBytes) + Amount(snap, c, HbmReservedBytes)
                 + Amount(snap, c, PredictedKvGrowthBytes) - Amount(snap, c, HbmReleaseBytes))
  }

  /** The features that must be known: a rate for whatever there is to move or compute, a capacity for what is occupied. */
  ghost predicate Needed(snap: Snapshot, c: CandidateAction, name: Name) {
    match name
    case EffectiveBwBytesPerSecond => Amount(snap, c, TransferBytes) > 0.0
    case PrefillTokensPerSecond => ToPrefill(snap, c) > 0.0
    case DecodeTokensPerSecond => Amount(snap, c, ExpectedOutputTokens) > 0.0
    case HbmCapacityBytes => ToOccupy(snap, c) > 0.0
    case _ => false
  }

  /** A needed feature of zero is as good as none. */
  ghost function Usable(snap: Snapshot, c: CandidateAction, name: Name): Option<real> {
    if Needed(snap, c, name) && Reading(snap, c, name) == Some(0.0) then None else Reading(snap, c, name)
  }

  // ---- Notes, ages and counts ----

  ghost predicate NotesAmbiguity(snap: Snapshot, c: CandidateAction, name: Name, key: string, note: string) {
    name !in c.parameters && key != "" && IsAmbiguous(snap, c, key) && note == "ambiguous_feature:" + key
  }

  /** A note about a feature: its key is ambiguous, it is needed and missing, or it is needed and zero. */
  ghost predicate Notes(snap: Snapshot, c: CandidateAction, name: Name, key: string, note: string) {
    || NotesAmbiguity(snap, c, name, key, note)
    || (Needed(snap, c, name) && Reading(snap, c, name).None?
        && note == "missing_feature:" + if key == "" then name.Text() else key)
    || (Needed(snap, c, name) && Reading(snap, c, name) == Some(0.0)
        && note == "invalid_feature:" + if key == "" then name.Text() else key)
  }

  /** A feature is read from the snapshot, so that its age counts. */
  ghost predicate ReadsKey(snap: Snapshot, c: CandidateAction, name: Name, key: string) {
    name !in c.parameters && key != "" && exists ref :: ReadFrom(snap, c, key, ref)
  }

  /** Whole milliseconds since a value was observed, none of them for one from the future. */
  ghost predicate IsAge(at: Time, observed: Time, ms: int) {
    ms >= 0 && (observed >= at ==> ms == 0) && (observed < at ==> 1000 * ms <= at - observed < 1000 * (ms + 1))
  }

  ghost predicate HasAge(snap: Snapshot, key: string, ref: string, ms: int) {
    (ref, key) in snap.values && IsAge(snap.createdAt, snap.values[(ref, key)].timestamp, ms)
  }

  type Lookups = set<(Name, string)>

  /** The ages and notes of a resolver are those of the lookups so far. */
  ghost predicate Tracks(snap: Snapshot, c: CandidateAction, r: Resolver, done: Lookups) {
    && (forall key :: key in r.freshness <==> exists name :: (name, key) in done && ReadsKey(snap, c, name, key))
    && (forall key, ref :: key in r.freshness && ReadFrom(snap, c, key, ref) ==>
          HasAge(snap, key, ref, r.freshness[key]))
    && (forall note :: note in r.notes <==> exists name, key :: (name, key) in done && Notes(snap, c, name, key, note))
  }

  lemma AgeIsAge(snap: Snapshot, v: StateValue)
    ensures IsAge(snap.createdAt, v.timestamp, AgeMs(snap, v))
  {
  }

  /** What a lookup adds to the ages: that of its key, if it is read from the snapshot. */
  ghost predicate AddsAge(
      snap: Snapshot, c: CandidateAction, ages: map<string, int>, after: map<string, int>, name: Name, key: string)
  {
    && (forall k :: k in after <==> k in ages || (k == key && ReadsKey(snap, c, name, key)))
    && (forall k :: k in ages && k != key ==> after[k] == ages[k])
    && (!ReadsKey(snap, c, name, key) ==> after == ages)
    && (forall ref :: ReadsKey(snap, c, name, key) && ReadFrom(snap, c, key, ref) ==> HasAge(snap, key, ref, after[key]))
  }

  lemma UnreadAddsNothing(snap: Snapshot, c: CandidateAction, ages: map<string, int>, name: Name, key: string)
    requires !ReadsKey(snap, c, name, key)
    ensures AddsAge(snap, c, ages, ages, name, key)
  {
    hide ReadsKey;
  }

  lemma ReadAddsAge(snap: Snapshot, c: CandidateAction, ages: map<string, int>, name: Name, key: string, ms: int)
    requires ReadsKey(snap, c, name, key)
    requires forall ref :: ReadFrom(snap, c, key, ref) ==> HasAge(snap, key, ref, ms)
    ensures AddsAge(snap, c, ages, ages[key := ms], name, key)
  {
    hide ReadsKey, ReadFrom, HasAge;
  }

  lemma ReaderHasAge(snap: Snapshot, c: CandidateAction, key: string, ref: string)
    requires Locate(snap, c, key).Some?
    ensures ReadFrom(snap, c, key, ref) ==> HasAge(snap, key, ref, AgeMs(snap, Locate(snap, c, key).value))
  {
    hide Locate, AgeMs, IsAge, ReadFrom;
    LocatedIsReadFrom(snap, c, key);
    AgeIsAge(snap, Locate(snap, c, key).value);
  }

  lemma ReadsWhatIsLocated(snap: Snapshot, c: CandidateAction, name: Name, key: string)
    ensures ReadsKey(snap, c, name, key) <==> name !in c.parameters && key != "" && Locate(snap, c, key).Some?
  {
    hide Locate, ReadFrom;
    LocatedIsReadFrom(snap, c, key);
  }

  lemma ResolveAddsAge(snap: Snapshot, c: CandidateAction, r: Resolver, name: Name, key: string)
    ensures AddsAge(snap, c, r.freshness, Resolve(snap, c, r, name, key).0.freshness, name, key)
  {
    hide ReadFrom, Locate, AgeMs, AddsAge, ReadsKey, HasAge;
    ReadsWhatIsLocated(snap, c, name, key);
    if ReadsKey(snap, c, name, key) {
      forall ref ensures ReadFrom(snap, c, key, ref) ==> HasAge(snap, key, ref, AgeMs(snap, Locate(snap, c, key).value)) {
        ReaderHasAge(snap, c, key, ref);
      }
      ReadAddsAge(snap, c, r.freshness, name, key, AgeMs(snap, Locate(snap, c, key).value));
    } else {
      UnreadAddsNothing(snap, c, r.freshness, name, key);
    }
  }

  lemma ResolveAddsNote(snap: Snapshot, c: CandidateAction, r: Resolver, name: Name, key: string)
    ensures var r1 := Resolve(snap, c, r, name, key).0;
            forall note :: note in r1.notes <==> note in r.notes || NotesAmbiguity(snap, c, name, key, note)
  {
    hide ReadFrom, IsAmbiguous, Locate, AgeMs, Carriers;
    LocatedIsReadFrom(snap, c, key);
    ReadIsNotAmbiguous(snap, c, key);
  }

  /** One more lookup adds the age of its key, if it is read, and a note, if its key is ambiguous. */
  lemma ResolveAdds(snap: Snapshot, c: CandidateAction, r: Resolver, name: Name, key: string)
    ensures var r1 := Resolve(snap, c, r, name, key).0;
            && AddsAge(snap, c, r.freshness, r1.freshness, name, key)
            && (forall note :: note in r1.notes <==> note in r.notes || NotesAmbiguity(snap, c, name, key, note))
  {
    hide Resolve, AddsAge, NotesAmbiguity;
    ResolveAddsAge(snap, c, r, name, key);
    ResolveAddsNote(snap, c, r, name, key);
  }

  lemma ReadIsNotAmbiguous(snap: Snapshot, c: CandidateAction, key: string)
    ensures (exists ref :: ReadFrom(snap, c, key, ref)) ==> !IsAmbiguous(snap, c, key)
  {
  }

  /** A number lookup succeeds exactly if it finds something proper, and gives what is usable of it; it keeps track. */
  lemma NumberTracks(snap: Snapshot, c: CandidateAction, r: Resolver, name: Name, key: string, needed: bool, done: Lookups)
    requires key == KeyOf(name) && needed == Needed(snap, c, name)
    ensures var out := Number(snap, c, r, name, key, needed);
            && (out.Ok? <==> Lookup(snap, c, name).Ok?)
            && (out.Err? ==> out.error == FeatureError(name))
            && (out.Ok? ==> out.value.1 == Usable(snap, c, name))
            && (out.Ok? && Tracks(snap, c, r, done) ==> Tracks(snap, c, out.value.0, done + {(name, key)}))
            && (out.Ok? ==>
                  && out.value.0.required == r.required + (if needed then 1 else 0)
                  && out.value.0.available == r.available + if needed && Usable(snap, c, name).Some? then 1 else 0)
  {
    hide Needed, KeyOf, Tracks, Resolve;
    ResolvesAlike(snap, c, r, name, key);
    LookupFinds(snap, c, name);
    var out := Number(snap, c, r, name, key, needed);
    if out.Ok? && Tracks(snap, c, r, done) {
      NumberAdds(snap, c, r, name, key, needed);
      TracksOneMore(snap, c, r, out.value.0, name, key, done);
    }
  }

  lemma ResolvesAlike(snap: Snapshot, c: CandidateAction, r: Resolver, name: Name, key: string)
    ensures Resolve(snap, c, r, name, key).1 == Resolve(snap, c, FRESH, name, key).1
  {
    hide Locate, AgeMs;
  }

  /** What a number lookup notes besides what resolving its key does. */
  lemma NumberNotes(snap: Snapshot, c: CandidateAction, r: Resolver, name: Name, key: string, needed: bool)
    requires Number(snap, c, r, name, key, needed).Ok?
    ensures var (r1, found) := Resolve(snap, c, r, name, key);
            var after := Number(snap, c, r, name, key, needed).value.0;
            var title := if key == "" then name.Text() else key;
            && Numeric(found, name).Ok? && after.freshness == r1.freshness
            && forall note :: note in after.notes <==>
                 || note in r1.notes
                 || (needed && Numeric(found, name).value.None? && note == "missing_feature:" + title)
                 || (needed && Numeric(found, name).value == Some(0.0) && note == "invalid_feature:" + title)
  {
    hide Resolve, Name.Text;
  }

  lemma NumberAdds(snap: Snapshot, c: CandidateAction, r: Resolver, name: Name, key: string, needed: bool)
    requires key == KeyOf(name) && needed == Needed(snap, c, name) && Number(snap, c, r, name, key, needed).Ok?
    ensures var after := Number(snap, c, r, name, key, needed).value.0;
            && AddsAge(snap, c, r.freshness, after.freshness, name, key)
            && forall note :: note in after.notes <==> note in r.notes || Notes(snap, c, name, key, note)
  {
    hide Needed, KeyOf, Resolve, AddsAge, NotesAmbiguity, Name.Text, Number, Numeric;
    ResolvesAlike(snap, c, r, name, key);
    ResolveAdds(snap, c, r, name, key);
    NumberNotes(snap, c, r, name, key, needed);
  }

  lemma TracksOneMore(
      snap: Snapshot, c: CandidateAction, r: Resolver, after: Resolver, name: Name, key: string, done: Lookups)
    requires Tracks(snap, c, r, done) && AddsAge(snap, c, r.freshness, after.freshness, name, key)
    requires forall note :: note in after.notes <==> note in r.notes || Notes(snap, c, name, key, note)
    ensures Tracks(snap, c, after, done + {(name, key)})
  {
    hide ReadsKey, Notes, HasAge, ReadFrom;
    var more := done + {(name, key)};
    assert forall k, n :: (n, k) in more <==> (n, k) in done || (n, k) == (name, key);
    forall k ensures k in after.freshness <==> exists n :: (n, k) in more && ReadsKey(snap, c, n, k) {
      if k in r.freshness {
        var n :| (n, k) in done && ReadsKey(snap, c, n, k);
        assert (n, k) in more;
      }
      if k == key && ReadsKey(snap, c, name, key) {
        assert (name, k) in more;
      }
    }
    forall note ensures note in after.notes <==> exists n, k :: (n, k) in more && Notes(snap, c, n, k, note) {
      if note in r.notes {
        var n, k :| (n, k) in done && Notes(snap, c, n, k, note);
        assert (n, k) in more;
      }
      if Notes(snap, c, name, key, note) {
        assert (name, key) in more;
      }
    }
    forall k, ref | k in after.freshness && ReadFrom(snap, c, k, ref)
      ensures HasAge(snap, k, ref, after.freshness[k])
    {
      if k == key && !ReadsKey(snap, c, name, key) {
        assert k in r.freshness;
      }
    }
  }

  // ---- The parts ----

  /** A feature that can be read: it is a number, not negative, or there is none. */
  ghost predicate Proper(snap: Snapshot, c: CandidateAction, name: Name) {
    exists x :: Finds(snap, c, name, KeyOf(name), x)
  }

  lemma ProperMeansFound(snap: Snapshot, c: CandidateAction, name: Name)
    ensures Proper(snap, c, name) <==> Lookup(snap, c, name).Ok?
  {
    hide Lookup, Finds;
    LookupFinds(snap, c, name);
  }

  ghost function Keyed(names: set<Name>): Lookups {
    set name | name in names :: (name, KeyOf(name))
  }

  const RATES: set<Name> := {EffectiveBwBytesPerSecond, PrefillTokensPerSecond, DecodeTokensPerSecond, HbmCapacityBytes}

  ghost function OneIf(condition: bool): nat {
    if condition then 1 else 0
  }

  /** How many of some features are needed. */
  ghost function CountNeeded(snap: Snapshot, c: CandidateAction, names: set<Name>): nat {
    OneIf(EffectiveBwBytesPerSecond in names && Needed(snap, c, EffectiveBwBytesPerSecond))
    + OneIf(PrefillTokensPerSecond in names && Needed(snap, c, PrefillTokensPerSecond))
    + OneIf(DecodeTokensPerSecond in names && Needed(snap, c, DecodeTokensPerSecond))
    + OneIf(HbmCapacityBytes in names && Needed(snap, c, HbmCapacityBytes))
  }

  ghost predicate Met(snap: Snapshot, c: CandidateAction, name: Name) {
    Needed(snap, c, name) && Usable(snap, c, name).Some?
  }

  /** How many of some features are needed and known. */
  ghost function CountMet(snap: Snapshot, c: CandidateAction, names: set<Name>): nat {
    OneIf(EffectiveBwBytesPerSecond in names && Met(snap, c, EffectiveBwBytesPerSecond))
    + OneIf(PrefillTokensPerSecond in names && Met(snap, c, PrefillTokensPerSecond))
    + OneIf(DecodeTokensPerSecond in names && Met(snap, c, DecodeTokensPerSecond))
    + OneIf(HbmCapacityBytes in names && Met(snap, c, HbmCapacityBytes))
  }

  /** These features have been looked up since `r`, each of them once. */
  ghost predicate LooksUp(snap: Snapshot, c: CandidateAction, r: Resolver, after: Resolver, names: set<Name>) {
    && after.required == r.required + CountNeeded(snap, c, names)
    && after.available == r.available + CountMet(snap, c, names)
    && forall done :: Tracks(snap, c, r, done) ==> Tracks(snap, c, after, done + Keyed(names))
  }

  lemma OnlyRatesAreNeeded(snap: Snapshot, c: CandidateAction, name: Name)
    ensures name !in RATES ==> !Needed(snap, c, name) && Usable(snap, c, name) == Reading(snap, c, name)
    ensures Amount(snap, c, name) == Or(Reading(snap, c, name), 0.0)
  {
  }

  lemma CountsGrow(snap: Snapshot, c: CandidateAction, names: set<Name>, name: Name)
    requires name !in names
    ensures CountNeeded(snap, c, names + {name}) == CountNeeded(snap, c, names) + OneIf(Needed(snap, c, name))
    ensures CountMet(snap, c, names + {name}) == CountMet(snap, c, names) + OneIf(Met(snap, c, name))
  {
    hide Usable, Reading, Amount, ToPrefill, ToOccupy;
  }

  /** One more lookup, of a feature not looked up before. */
  lemma LooksUpOneMore(
      snap: Snapshot, c: CandidateAction, start: Resolver, r: Resolver, names: set<Name>, name: Name, key: string,
      needed: bool)
    requires LooksUp(snap, c, start, r, names) && name !in names
    requires key == KeyOf(name) && needed == Needed(snap, c, name)
    ensures var out := Number(snap, c, r, name, key, needed);
            && (out.Ok? <==> Proper(snap, c, name))
            && (out.Ok? ==> out.value.1 == Usable(snap, c, name) && LooksUp(snap, c, start, out.value.0, names + {name}))
  {
    hide Tracks, Usable, Needed, Proper, Number, Lookup, CountNeeded, CountMet, KeyOf;
    ProperMeansFound(snap, c, name);
    NumberTracks(snap, c, r, name, key, needed, {});
    CountsGrow(snap, c, names, name);
    var out := Number(snap, c, r, name, key, needed);
    forall done | out.Ok? && Tracks(snap, c, start, done)
      ensures Tracks(snap, c, out.value.0, done + Keyed(names + {name}))
    {
      NumberTracks(snap, c, r, name, key, needed, done + Keyed(names));
      assert (done + Keyed(names)) + {(name, key)} == done + Keyed(names + {name});
    }
  }

  lemma LooksUpFree(
      snap: Snapshot, c: CandidateAction, start: Resolver, r: Resolver, names: set<Name>, name: Name, key: string)
    requires LooksUp(snap, c, start, r, names) && name !in names + RATES && key == KeyOf(name)
    ensures var out := Number(snap, c, r, name, key, false);
            && (out.Ok? <==> Proper(snap, c, name))
            && (out.Ok? ==>
                  && out.value.1 == Reading(snap, c, name) && Or(out.value.1, 0.0) == Amount(snap, c, name)
                  && LooksUp(snap, c, start, out.value.0, names + {name}))
  {
    hide Number, Proper, LooksUp, Needed, Usable, Reading, KeyOf, Amount;
    OnlyRatesAreNeeded(snap, c, name);
    LooksUpOneMore(snap, c, start, r, names, name, key, false);
  }

  lemma NothingLookedUp(snap: Snapshot, c: CandidateAction, r: Resolver)
    ensures LooksUp(snap, c, r, r, {})
  {
    hide Tracks, Needed, Met;
    assert Keyed({}) == {};
    assert forall done: Lookups :: done + {} == done;
  }

  // ---- The parts ----

  /** How long an amount takes: the setup alone for none of it, and the rest at the rate, which must then be known. */
  ghost predicate Timed(seconds: Option<real>, amount: real, rate: Option<real>, setup: real) {
    && (amount <= 0.0 ==> seconds == Some(setup))
    && (amount > 0.0 ==>
          && (seconds.Some? <==> rate.Some? && rate.value > 0.0)
          && (seconds.Some? ==> Product(seconds.value - setup, rate.value) == amount))
  }

  lemma DurationIsTimed(amount: real, rate: Option<real>, setup: real)
    ensures Timed(RateDuration(amount, rate, setup), amount, rate, setup)
  {
  }

  const TRANSFERS: set<Name> := {QueueSeconds, TransferBytes, TransferSetupSeconds, EffectiveBwBytesPerSecond}

  lemma TransfersAreKeyed()
    ensures KeyOf(QueueSeconds) == "request.queue_time" && KeyOf(TransferBytes) == "kv.size"
    ensures KeyOf(TransferSetupSeconds) == "" && KeyOf(EffectiveBwBytesPerSecond) == "link.effective_bw"
  {
  }

  lemma TransferFollows(snap: Snapshot, c: CandidateAction, r: Resolver)
    ensures TransferPart(snap, c, r).Ok? <==>
            && Proper(snap, c, QueueSeconds) && Proper(snap, c, TransferBytes) && Proper(snap, c, TransferSetupSeconds)
            && Proper(snap, c, EffectiveBwBytesPerSecond)
    ensures TransferPart(snap, c, r).Ok? ==>
              var (after, t) := TransferPart(snap, c, r).value;
              && t.queueSeconds == Amount(snap, c, QueueSeconds) && t.bytes == Amount(snap, c, TransferBytes)
              && Timed(t.seconds, t.bytes, Usable(snap, c, EffectiveBwBytesPerSecond), Amount(snap, c, TransferSetupSeconds))
              && LooksUp(snap, c, r, after, TRANSFERS)
  {
    hide Number, Proper, LooksUp, Usable, Reading, Amount, RateDuration, Timed, KeyOf;
    TransfersAreKeyed();
    NothingLookedUp(snap, c, r);
    var names: set<Name> := {};
    LooksUpFree(snap, c, r, r, names, QueueSeconds, "request.queue_time");
    var queue := Number(snap, c, r, QueueSeconds, "request.queue_time", false);
    if queue.Err? { return; }
    names := names + {QueueSeconds};
    LooksUpFree(snap, c, r, queue.value.0, names, TransferBytes, "kv.size");
    var bytes := Number(snap, c, queue.value.0, TransferBytes, "kv.size", false);
    if bytes.Err? { return; }
    names := names + {TransferBytes};
    LooksUpFree(snap, c, r, bytes.value.0, names, TransferSetupSeconds, "");
    var setup := Number(snap, c, bytes.value.0, TransferSetupSeconds, "", false);
    if setup.Err? { return; }
    names := names + {TransferSetupSeconds};
    var needed := Or(bytes.value.1, 0.0) > 0.0;
    LooksUpOneMore(snap, c, r, setup.value.0, names, EffectiveBwBytesPerSecond, "link.effective_bw", needed);
    var bw := Number(snap, c, setup.value.0, EffectiveBwBytesPerSecond, "link.effective_bw", needed);
    if bw.Err? { return; }
    names := names + {EffectiveBwBytesPerSecond};
    assert names == TRANSFERS;
    DurationIsTimed(Or(bytes.value.1, 0.0), bw.value.1, Or(setup.value.1, 0.0));
  }

  const TOKENS: set<Name> :=
    {PromptTokens, CachedTokens, PrefillTokensPerSecond, ExpectedOutputTokens, DecodeTokensPerSecond}

  lemma TokensAreKeyed()
    ensures KeyOf(PromptTokens) == "request.context_tokens" && KeyOf(CachedTokens) == ""
    ensures KeyOf(PrefillTokensPerSecond) == "runtime.prefill_tps"
    ensures KeyOf(ExpectedOutputTokens) == "request.expected_output_tokens"
    ensures KeyOf(DecodeTokensPerSecond) == "runtime.decode_tps"
  {
  }

  lemma TokensFollow(snap: Snapshot, c: CandidateAction, r: Resolver)
    ensures TokenPart(snap, c, r).Ok? <==>
            && Proper(snap, c, PromptTokens) && Proper(snap, c, CachedTokens)
            && Proper(snap, c, PrefillTokensPerSecond) && Proper(snap, c, ExpectedOutputTokens)
            && Proper(snap, c, DecodeTokensPerSecond)
    ensures TokenPart(snap, c, r).Ok? ==>
              var (after, t) := TokenPart(snap, c, r).value;
              && Timed(t.prefillSeconds, ToPrefill(snap, c), Usable(snap, c, PrefillTokensPerSecond), 0.0)
              && Timed(t.decodeSeconds, Amount(snap, c, ExpectedOutputTokens), Usable(snap, c, DecodeTokensPerSecond), 0.0)
              && t.decodeTps == Usable(snap, c, DecodeTokensPerSecond) && LooksUp(snap, c, r, after, TOKENS)
  {
    hide Number, Proper, LooksUp, Usable, Reading, Amount, RateDuration, Timed, KeyOf;
    TokensAreKeyed();
    NothingLookedUp(snap, c, r);
    var names: set<Name> := {};
    LooksUpFree(snap, c, r, r, names, PromptTokens, "request.context_tokens");
    var prompt := Number(snap, c, r, PromptTokens, "request.context_tokens", false);
    if prompt.Err? { return; }
    names := names + {PromptTokens};
    LooksUpFree(snap, c, r, prompt.value.0, names, CachedTokens, "");
    var cached := Number(snap, c, prompt.value.0, CachedTokens, "", false);
    if cached.Err? { return; }
    names := names + {CachedTokens};
    var prefill := MaxReal(0.0, Or(prompt.value.1, 0.0) - MinReal(Or(prompt.value.1, 0.0), Or(cached.value.1, 0.0)));
    assert prefill == ToPrefill(snap, c);
    LooksUpOneMore(snap, c, r, cached.value.0, names, PrefillTokensPerSecond, "runtime.prefill_tps", prefill > 0.0);
    var prefillTps := Number(snap, c, cached.value.0, PrefillTokensPerSecond, "runtime.prefill_tps", prefill > 0.0);
    if prefillTps.Err? { return; }
    names := names + {PrefillTokensPerSecond};
    LooksUpFree(snap, c, r, prefillTps.value.0, names, ExpectedOutputTokens, "request.expected_output_tokens");
    var output := Number(snap, c, prefillTps.value.0, ExpectedOutputTokens, "request.expected_output_tokens", false);
    if output.Err? { return; }
    names := names + {ExpectedOutputTokens};
    var needed := Or(output.value.1, 0.0) > 0.0;
    LooksUpOneMore(snap, c, r, output.value.0, names, DecodeTokensPerSecond, "runtime.decode_tps", needed);
    var decodeTps := Number(snap, c, output.value.0, DecodeTokensPerSecond, "runtime.decode_tps", needed);
    if decodeTps.Err? { return; }
    names := names + {DecodeTokensPerSecond};
    assert names == TOKENS;
    DurationIsTimed(prefill, prefillTps.value.1, 0.0);
    DurationIsTimed(Or(output.value.1, 0.0), decodeTps.value.1, 0.0);
  }

  const MEMORY: set<Name> :=
    {HbmUsedBytes, HbmReservedBytes, PredictedKvGrowthBytes, HbmReleaseBytes, HbmCapacityBytes}

  /** The pressure is the share of the capacity that will be occupied; it is known exactly for a capacity above zero. */
  ghost predicate IsPressure(pressure: Option<real>, occupied: real, capacity: Option<real>) {
    && (pressure.Some? <==> capacity.Some? && capacity.value > 0.0)
    && (pressure.Some? ==> Product(pressure.value, capacity.value) == occupied)
  }

  lemma MemoryIsKeyed()
    ensures KeyOf(HbmUsedBytes) == "resource.hbm.used" && KeyOf(HbmReservedBytes) == "resource.hbm.reserved"
    ensures KeyOf(PredictedKvGrowthBytes) == "" && KeyOf(HbmReleaseBytes) == "" && KeyOf(HbmCapacityBytes) == ""
  {
  }

  lemma MemoryFollows(snap: Snapshot, c: CandidateAction, r: Resolver)
    ensures MemoryPart(snap, c, r).Ok? <==>
            && Proper(snap, c, HbmUsedBytes) && Proper(snap, c, HbmReservedBytes)
            && Proper(snap, c, PredictedKvGrowthBytes) && Proper(snap, c, HbmReleaseBytes)
            && Proper(snap, c, HbmCapacityBytes)
    ensures MemoryPart(snap, c, r).Ok? ==>
              var (after, m) := MemoryPart(snap, c, r).value;
              && m.predictedBytes == ToOccupy(snap, c)
              && IsPressure(m.pressure, ToOccupy(snap, c), Usable(snap, c, HbmCapacityBytes))
              && LooksUp(snap, c, r, after, MEMORY)
  {
    hide Number, Proper, LooksUp, Usable, Reading, Amount, KeyOf;
    MemoryIsKeyed();
    NothingLookedUp(snap, c, r);
    var names: set<Name> := {};
    LooksUpFree(snap, c, r, r, names, HbmUsedBytes, "resource.hbm.used");
    var used := Number(snap, c, r, HbmUsedBytes, "resource.hbm.used", false);
    if used.Err? { return; }
    names := names + {HbmUsedBytes};
    LooksUpFree(snap, c, r, used.value.0, names, HbmReservedBytes, "resource.hbm.reserved");
    var reserved := Number(snap, c, used.value.0, HbmReservedBytes, "resource.hbm.reserved", false);
    if reserved.Err? { return; }
    names := names + {HbmReservedBytes};
    LooksUpFree(snap, c, r, reserved.value.0, names, PredictedKvGrowthBytes, "");
    var growth := Number(snap, c, reserved.value.0, PredictedKvGrowthBytes, "", false);
    if growth.Err? { return; }
    names := names + {PredictedKvGrowthBytes};
    LooksUpFree(snap, c, r, growth.value.0, names, HbmReleaseBytes, "");
    var release := Number(snap, c, growth.value.0, HbmReleaseBytes, "", false);
    if release.Err? { return; }
    names := names + {HbmReleaseBytes};
    var predicted := MaxReal(0.0, Or(used.value.1, 0.0) + Or(reserved.value.1, 0.0) + Or(growth.value.1, 0.0)
                                  - Or(release.value.1, 0.0));
    assert predicted == ToOccupy(snap, c);
    LooksUpOneMore(snap, c, r, release.value.0, names, HbmCapacityBytes, "", predicted > 0.0);
    var capacity := Number(snap, c, release.value.0, HbmCapacityBytes, "", predicted > 0.0);
    if capacity.Err? { return; }
    names := names + {HbmCapacityBytes};
    assert names == MEMORY;
  }

  const RISKS: set<Name> := {DeadlineSeconds, BaseSuccessProbability}

  /** The risk of running out of memory: none up to nine tenths of it, and then two for one, up to certainty. */
  ghost predicate IsOomRisk(risk: Option<real>, pressure: Option<real>) {
    && (risk.Some? <==> pressure.Some?)
    && (pressure.Some? ==>
          && (pressure.value <= 0.9 ==> risk.value == 0.0)
          && (0.9 <= pressure.value <= 1.4 ==> risk.value == (pressure.value - 0.9) + (pressure.value - 0.9))
          && (pressure.value >= 1.4 ==> risk.value == 1.0))
  }

  /** The risk of missing a deadline: none up to four fifths of it, then rising evenly, and certain from the deadline on. */
  ghost predicate IsDeadlineRisk(risk: Option<real>, duration: Option<real>, deadline: Option<real>) {
    && (risk.Some? <==> duration.Some? && deadline.Some?)
    && (risk.Some? ==>
          && (deadline.value <= 0.0 ==> risk.value == 1.0)
          && (deadline.value > 0.0 ==>
                && (5.0 * duration.value <= 4.0 * deadline.value ==> risk.value == 0.0)
                && (duration.value >= deadline.value ==> risk.value == 1.0)
                && (4.0 * deadline.value <= 5.0 * duration.value && duration.value <= deadline.value ==>
                      Product(risk.value, deadline.value) == 5.0 * duration.value - 4.0 * deadline.value)))
  }

  /** The chance of success: the given one, or certainty, less each risk in turn; unknown if nothing is known of them. */
  ghost predicate IsSuccess(success: Option<real>, base: Option<real>, oom: Option<real>, timeout: Option<real>) {
    && (success.None? <==> base.None? && oom.None? && timeout.None?)
    && (success.Some? ==>
          var start := if base.None? || base.value >= 1.0 then 1.0 else base.value;
          success.value == Product(Product(start, 1.0 - Or(oom, 0.0)), 1.0 - Or(timeout, 0.0)))
  }

  lemma OomIsRisk(pressure: real)
    ensures IsOomRisk(Some(OomRisk(pressure)), Some(pressure)) && 0.0 <= OomRisk(pressure) <= 1.0
  {
  }

  lemma DeadlineIsRisk(duration: real, deadline: real)
    ensures IsDeadlineRisk(Some(DeadlineRisk(duration, deadline)), Some(duration), Some(deadline))
    ensures 0.0 <= DeadlineRisk(duration, deadline) <= 1.0
  {
    if deadline > 0.0 {
      var q := duration / deadline;
      assert q * deadline == duration;
      var x := (q - 0.8) / 0.2;
      assert x == 5.0 * q - 4.0;
      assert x * deadline == 5.0 * duration - 4.0 * deadline by {
        assert x * deadline == 5.0 * (q * deadline) - 4.0 * deadline;
      }
      SignOfFactor(x, deadline);
      SignOfFactor(-x, deadline);
      SignOfFactor(x - 1.0, deadline);
      SignOfFactor(1.0 - x, deadline);
      assert (x - 1.0) * deadline == 5.0 * (duration - deadline);
      assert (1.0 - x) * deadline == 5.0 * (deadline - duration);
    }
  }

  lemma DiscountsAreProducts(base: Option<real>, oom: Option<real>, timeout: Option<real>)
    requires base.Some? ==> base.value >= 0.0
    requires oom.Some? ==> 0.0 <= oom.value <= 1.0
    requires timeout.Some? ==> 0.0 <= timeout.value <= 1.0
    ensures IsSuccess(SuccessProbability(base, oom, timeout), base, oom, timeout)
  {
    hide Discount, Product;
    var start := Clamp(Or(base, 1.0));
    DiscountIsProduct(start, oom);
    DiscountIsProduct(Discount(start, oom), timeout);
  }

  lemma DiscountIsProduct(success: real, risk: Option<real>)
    requires 0.0 <= success <= 1.0 && (risk.Some? ==> 0.0 <= risk.value <= 1.0)
    ensures Discount(success, risk) == Product(success, 1.0 - Or(risk, 0.0)) && 0.0 <= Discount(success, risk) <= 1.0
  {
    ShareOfShare(success, 1.0 - Or(risk, 0.0));
  }

  lemma ShareOfShare(a: real, b: real)
    requires 0.0 <= a <= 1.0 && 0.0 <= b <= 1.0
    ensures 0.0 <= Product(a, b) <= 1.0 && a * b == Product(a, b)
  {
    ProductAtMost(a, b);
  }

  lemma ReadingsAreNotNegative(snap: Snapshot, c: CandidateAction, name: Name)
    ensures Reading(snap, c, name).Some? ==> Reading(snap, c, name).value >= 0.0
  {
    hide Locate, AgeMs;
  }

  lemma RisksAreKeyed()
    ensures KeyOf(DeadlineSeconds) == "" && KeyOf(BaseSuccessProbability) == ""
  {
  }

  lemma RisksFollow(snap: Snapshot, c: CandidateAction, r: Resolver, e2e: Option<real>, pressure: Option<real>)
    ensures RiskPart(snap, c, r, e2e, pressure).Ok? <==>
            && Proper(snap, c, DeadlineSeconds) && Proper(snap, c, BaseSuccessProbability)
    ensures RiskPart(snap, c, r, e2e, pressure).Ok? ==>
              var (after, risk) := RiskPart(snap, c, r, e2e, pressure).value;
              && IsOomRisk(risk.oom, pressure) && IsDeadlineRisk(risk.timeout, e2e, Reading(snap, c, DeadlineSeconds))
              && IsSuccess(risk.success, Reading(snap, c, BaseSuccessProbability), risk.oom, risk.timeout)
              && LooksUp(snap, c, r, after, RISKS)
  {
    hide Number, Proper, LooksUp, Usable, Reading, Amount, OomRisk, DeadlineRisk, SuccessProbability, IsSuccess, KeyOf;
    RisksAreKeyed();
    NothingLookedUp(snap, c, r);
    var names: set<Name> := {};
    LooksUpFree(snap, c, r, r, names, DeadlineSeconds, "");
    var deadline := Number(snap, c, r, DeadlineSeconds, "", false);
    if deadline.Err? { return; }
    names := names + {DeadlineSeconds};
    LooksUpFree(snap, c, r, deadline.value.0, names, BaseSuccessProbability, "");
    var base := Number(snap, c, deadline.value.0, BaseSuccessProbability, "", false);
    if base.Err? { return; }
    names := names + {BaseSuccessProbability};
    assert names == RISKS;
    ReadingsAreNotNegative(snap, c, BaseSuccessProbability);
    if pressure.Some? {
      OomIsRisk(pressure.value);
    }
    if e2e.Some? && deadline.value.1.Some? {
      DeadlineIsRisk(e2e.value, deadline.value.1.value);
    }
    var oom := if pressure.Some? then Some(OomRisk(pressure.value)) else None;
    var timeout :=
      if e2e.Some? && deadline.value.1.Some? then Some(DeadlineRisk(e2e.value, deadline.value.1.value)) else None;
    DiscountsAreProducts(base.value.1, oom, timeout);
  }

  const PRICES: set<Name> :=
    {AllocatedGpu, StorageIoBytes, FixedCost, GpuSecondCost, NetworkByteCost, StorageIoByteCost}

  /** A bill: the fixed cost, and the GPU time, the bytes sent and the bytes stored at their prices; unknown without the
      duration. */
  ghost predicate IsBill(
      snap: Snapshot, c: CandidateAction, cost: Option<real>, gpuSeconds: Option<real>, bytes: real, storage: real)
  {
    && (cost.Some? <==> gpuSeconds.Some?)
    && (cost.Some? ==>
          cost.value == Amount(snap, c, FixedCost) + Product(gpuSeconds.value, Amount(snap, c, GpuSecondCost))
                        + Product(bytes, Amount(snap, c, NetworkByteCost))
                        + Product(storage, Amount(snap, c, StorageIoByteCost)))
  }

  ghost predicate IsProduct(x: Option<real>, a: Option<real>, b: real) {
    && (x.Some? <==> a.Some?)
    && (x.Some? ==> x.value == Product(a.value, b))
  }

  lemma GpuTimeIsProduct(e2e: Option<real>, gpus: real)
    ensures IsProduct(GpuSeconds(e2e, gpus), e2e, gpus)
  {
  }

  lemma CostIsBill(
      snap: Snapshot, c: CandidateAction, gpuSeconds: Option<real>, bytes: real, storage: real)
    ensures IsBill(snap, c,
                   MonetaryCost(gpuSeconds, bytes, storage, Amount(snap, c, FixedCost), Amount(snap, c, GpuSecondCost),
                                Amount(snap, c, NetworkByteCost), Amount(snap, c, StorageIoByteCost)),
                   gpuSeconds, bytes, storage)
  {
    hide Amount;
  }

  lemma PricesAreKeyed()
    ensures KeyOf(AllocatedGpu) == "instance.allocated_gpu" && KeyOf(StorageIoBytes) == "" && KeyOf(FixedCost) == ""
    ensures KeyOf(GpuSecondCost) == "" && KeyOf(NetworkByteCost) == "" && KeyOf(StorageIoByteCost) == ""
  {
  }

  lemma PricesFollow(snap: Snapshot, c: CandidateAction, r: Resolver, e2e: Option<real>, bytes: real)
    ensures MoneyPart(snap, c, r, e2e, bytes).Ok? <==>
            && Proper(snap, c, AllocatedGpu) && Proper(snap, c, StorageIoBytes) && Proper(snap, c, FixedCost)
            && Proper(snap, c, GpuSecondCost) && Proper(snap, c, NetworkByteCost) && Proper(snap, c, StorageIoByteCost)
    ensures MoneyPart(snap, c, r, e2e, bytes).Ok? ==>
              var (after, money) := MoneyPart(snap, c, r, e2e, bytes).value;
              && IsProduct(money.gpuSeconds, e2e, Amount(snap, c, AllocatedGpu))
              && money.storageIo == Amount(snap, c, StorageIoBytes)
              && IsBill(snap, c, money.cost, money.gpuSeconds, bytes, money.storageIo)
              && LooksUp(snap, c, r, after, PRICES)
  {
    hide Number, Proper, LooksUp, Usable, Reading, Amount, GpuSeconds, MonetaryCost, IsBill, IsProduct,
         KeyOf;
    PricesAreKeyed();
    NothingLookedUp(snap, c, r);
    var names: set<Name> := {};
    LooksUpFree(snap, c, r, r, names, AllocatedGpu, "instance.allocated_gpu");
    var gpu := Number(snap, c, r, AllocatedGpu, "instance.allocated_gpu", false);
    if gpu.Err? { return; }
    names := names + {AllocatedGpu};
    LooksUpFree(snap, c, r, gpu.value.0, names, StorageIoBytes, "");
    var io := Number(snap, c, gpu.value.0, StorageIoBytes, "", false);
    if io.Err? { return; }
    names := names + {StorageIoBytes};
    LooksUpFree(snap, c, r, io.value.0, names, FixedCost, "");
    var fixed := Number(snap, c, io.value.0, FixedCost, "", false);
    if fixed.Err? { return; }
    names := names + {FixedCost};
    LooksUpFree(snap, c, r, fixed.value.0, names, GpuSecondCost, "");
    var gpuRate := Number(snap, c, fixed.value.0, GpuSecondCost, "", false);
    if gpuRate.Err? { return; }
    names := names + {GpuSecondCost};
    LooksUpFree(snap, c, r, gpuRate.value.0, names, NetworkByteCost, "");
    var netRate := Number(snap, c, gpuRate.value.0, NetworkByteCost, "", false);
    if netRate.Err? { return; }
    names := names + {NetworkByteCost};
    LooksUpFree(snap, c, r, netRate.value.0, names, StorageIoByteCost, "");
    var ioRate := Number(snap, c, netRate.value.0, StorageIoByteCost, "", false);
    if ioRate.Err? { return; }
    names := names + {StorageIoByteCost};
    assert names == PRICES;
    GpuTimeIsProduct(e2e, Or(gpu.value.1, 0.0));
    CostIsBill(snap, c, GpuSeconds(e2e, Or(gpu.value.1, 0.0)), bytes, Or(io.value.1, 0.0));
  }

  const LOADS: set<Name> := {QueueDepth, QueueDelta, GpuUtilization}

  /** The text a lookup gives: the candidate's own, or the one that "kv.location" is read as, or none. */
  ghost predicate FindsLocation(snap: Snapshot, c: CandidateAction, x: Option<string>) {
    && (TargetKvLocation in c.parameters ==> x.Some? && c.parameters[TargetKvLocation] == Text(x.value))
    && (TargetKvLocation !in c.parameters ==>
          && (forall ref :: ReadFrom(snap, c, "kv.location", ref) ==>
                var v := snap.values[(ref, "kv.location")].value;
                if x.Some? then v == TextValue(x.value) else v == NoValue)
          && ((forall ref :: !ReadFrom(snap, c, "kv.location", ref)) ==> x == None))
  }

  const LOCATION: (Name, string) := (TargetKvLocation, "kv.location")

  lemma LocationFollows(snap: Snapshot, c: CandidateAction, r: Resolver)
    ensures var out := TextFeature(snap, c, r, TargetKvLocation, "kv.location");
            && (out.Ok? <==> exists x :: FindsLocation(snap, c, x))
            && (out.Ok? ==> FindsLocation(snap, c, out.value.1))
            && (out.Ok? ==>
                  && out.value.0.required == r.required && out.value.0.available == r.available
                  && forall done :: Tracks(snap, c, r, done) ==> Tracks(snap, c, out.value.0, done + {LOCATION}))
  {
    hide Tracks, ReadFrom, Locate, AgeMs;
    LocatedIsReadFrom(snap, c, "kv.location");
    var out := TextFeature(snap, c, r, TargetKvLocation, "kv.location");
    if out.Ok? {
      assert FindsLocation(snap, c, out.value.1);
      LocationTracks(snap, c, r);
    }
  }

  lemma LocationTracks(snap: Snapshot, c: CandidateAction, r: Resolver)
    requires TextFeature(snap, c, r, TargetKvLocation, "kv.location").Ok?
    ensures var after := TextFeature(snap, c, r, TargetKvLocation, "kv.location").value.0;
            && after.required == r.required && after.available == r.available
            && forall done :: Tracks(snap, c, r, done) ==> Tracks(snap, c, after, done + {LOCATION})
  {
    hide Tracks, Resolve, AddsAge, NotesAmbiguity, Reading;
    ResolveAdds(snap, c, r, TargetKvLocation, "kv.location");
    ResolveKeepsCounts(snap, c);
    var after := TextFeature(snap, c, r, TargetKvLocation, "kv.location").value.0;
    forall done | Tracks(snap, c, r, done) ensures Tracks(snap, c, after, done + {LOCATION}) {
      TracksOneMore(snap, c, r, after, TargetKvLocation, "kv.location", done);
    }
  }

  lemma LoadsAreKeyed()
    ensures KeyOf(QueueDepth) == "runtime.queue_depth" && KeyOf(QueueDelta) == ""
    ensures KeyOf(GpuUtilization) == "resource.gpu.util"
  {
  }

  lemma LoadsFollow(snap: Snapshot, c: CandidateAction, r: Resolver)
    ensures LoadPart(snap, c, r).Ok? <==>
            && Proper(snap, c, QueueDepth) && Proper(snap, c, QueueDelta) && Proper(snap, c, GpuUtilization)
            && exists x :: FindsLocation(snap, c, x)
    ensures LoadPart(snap, c, r).Ok? ==>
              var (after, load) := LoadPart(snap, c, r).value;
              && load.depth == Reading(snap, c, QueueDepth) && load.delta == Amount(snap, c, QueueDelta)
              && load.gpuUtil == Reading(snap, c, GpuUtilization) && FindsLocation(snap, c, load.location)
              && after.required == r.required && after.available == r.available
              && forall done :: Tracks(snap, c, r, done) ==> Tracks(snap, c, after, done + Keyed(LOADS) + {LOCATION})
  {
    hide Number, Proper, Usable, Reading, Amount, TextFeature, FindsLocation, Tracks, Needed, Met, KeyOf;
    LoadsAreKeyed();
    NothingLookedUp(snap, c, r);
    var names: set<Name> := {};
    LooksUpFree(snap, c, r, r, names, QueueDepth, "runtime.queue_depth");
    var depth := Number(snap, c, r, QueueDepth, "runtime.queue_depth", false);
    if depth.Err? { return; }
    names := names + {QueueDepth};
    LooksUpFree(snap, c, r, depth.value.0, names, QueueDelta, "");
    var delta := Number(snap, c, depth.value.0, QueueDelta, "", false);
    if delta.Err? { return; }
    names := names + {QueueDelta};
    LooksUpFree(snap, c, r, delta.value.0, names, GpuUtilization, "resource.gpu.util");
    var util := Number(snap, c, delta.value.0, GpuUtilization, "resource.gpu.util", false);
    if util.Err? { return; }
    names := names + {GpuUtilization};
    assert names == LOADS;
    LocationFollows(snap, c, util.value.0);
  }

  // ---- The prediction ----

  const NUMBERS: set<Name> := TRANSFERS + TOKENS + MEMORY + RISKS + PRICES + LOADS

  /** The parts of a successful prediction, one after the other. */
  datatype Parts = Parts(
    t: Transfer, k: Tokens, m: Memory, risk: Risk, money: Money, load: Load, end: Resolver)

  ghost predicate PartsFollow(snap: Snapshot, c: CandidateAction, x: Parts) {
    var e2e := E2e(x.t, x.k);
    && x.t.queueSeconds == Amount(snap, c, QueueSeconds) && x.t.bytes == Amount(snap, c, TransferBytes)
    && Timed(x.t.seconds, x.t.bytes, Usable(snap, c, EffectiveBwBytesPerSecond), Amount(snap, c, TransferSetupSeconds))
    && Timed(x.k.prefillSeconds, ToPrefill(snap, c), Usable(snap, c, PrefillTokensPerSecond), 0.0)
    && Timed(x.k.decodeSeconds, Amount(snap, c, ExpectedOutputTokens), Usable(snap, c, DecodeTokensPerSecond), 0.0)
    && x.k.decodeTps == Usable(snap, c, DecodeTokensPerSecond)
    && x.m.predictedBytes == ToOccupy(snap, c)
    && IsPressure(x.m.pressure, ToOccupy(snap, c), Usable(snap, c, HbmCapacityBytes))
    && IsOomRisk(x.risk.oom, x.m.pressure) && IsDeadlineRisk(x.risk.timeout, e2e, Reading(snap, c, DeadlineSeconds))
    && IsSuccess(x.risk.success, Reading(snap, c, BaseSuccessProbability), x.risk.oom, x.risk.timeout)
    && IsProduct(x.money.gpuSeconds, e2e, Amount(snap, c, AllocatedGpu))
    && x.money.storageIo == Amount(snap, c, StorageIoBytes)
    && IsBill(snap, c, x.money.cost, x.money.gpuSeconds, x.t.bytes, x.money.storageIo)
    && x.load.depth == Reading(snap, c, QueueDepth) && x.load.delta == Amount(snap, c, QueueDelta)
    && x.load.gpuUtil == Reading(snap, c, GpuUtilization) && FindsLocation(snap, c, x.load.location)
    && x.end.required == CountNeeded(snap, c, RATES) && x.end.available == CountMet(snap, c, RATES)
    && Tracks(snap, c, x.end, Keyed(NUMBERS) + {LOCATION})
  }

  lemma NothingTracked(snap: Snapshot, c: CandidateAction)
    ensures Tracks(snap, c, FRESH, {})
  {
  }

  lemma CountsAddUp(snap: Snapshot, c: CandidateAction)
    ensures CountNeeded(snap, c, TRANSFERS) + CountNeeded(snap, c, TOKENS) + CountNeeded(snap, c, MEMORY)
            + CountNeeded(snap, c, RISKS) + CountNeeded(snap, c, PRICES) == CountNeeded(snap, c, RATES)
    ensures CountMet(snap, c, TRANSFERS) + CountMet(snap, c, TOKENS) + CountMet(snap, c, MEMORY)
            + CountMet(snap, c, RISKS) + CountMet(snap, c, PRICES) == CountMet(snap, c, RATES)
  {
    hide Needed, Met;
  }

  lemma KeyedUnions(
      a: set<Name>, b: set<Name>, d: set<Name>, e: set<Name>, f: set<Name>, g: set<Name>)
    ensures {} + Keyed(a) + Keyed(b) + Keyed(d) + Keyed(e) + Keyed(f) + Keyed(g) == Keyed(a + b + d + e + f + g)
  {
    hide KeyOf;
  }

  ghost predicate NumbersAreProper(snap: Snapshot, c: CandidateAction) {
    forall name :: name in NUMBERS ==> Proper(snap, c, name)
  }

  lemma NumbersByPart(snap: Snapshot, c: CandidateAction)
    ensures NumbersAreProper(snap, c) <==>
            && (forall name :: name in TRANSFERS ==> Proper(snap, c, name))
            && (forall name :: name in TOKENS ==> Proper(snap, c, name))
            && (forall name :: name in MEMORY ==> Proper(snap, c, name))
            && (forall name :: name in RISKS ==> Proper(snap, c, name))
            && (forall name :: name in PRICES ==> Proper(snap, c, name))
            && (forall name :: name in LOADS ==> Proper(snap, c, name))
  {
    hide Proper;
  }

  /** A prediction is made exactly if every number it looks up is a number, and not negative, or absent, and the location
      is a text or absent. */
  lemma PredictsExactlyWhen(snap: Snapshot, c: CandidateAction, version: string, id: string)
    ensures Predict(snap, c, version, id).Ok? <==>
            NumbersAreProper(snap, c) && exists x :: FindsLocation(snap, c, x)
  {
    hide TransferPart, TokenPart, MemoryPart, RiskPart, MoneyPart, LoadPart, Assemble, E2e, Proper, LooksUp, Timed, Usable,
         Amount, Reading, FindsLocation, NumbersAreProper, IsSuccess, IsOomRisk, IsDeadlineRisk, IsBill, IsProduct,
         IsPressure, ToPrefill, ToOccupy, Tracks, Keyed;
    NumbersByPart(snap, c);
    TransferFollows(snap, c, FRESH);
    var transfer := TransferPart(snap, c, FRESH);
    if transfer.Err? { return; }
    TokensFollow(snap, c, transfer.value.0);
    var tokens := TokenPart(snap, c, transfer.value.0);
    if tokens.Err? { return; }
    MemoryFollows(snap, c, tokens.value.0);
    var memory := MemoryPart(snap, c, tokens.value.0);
    if memory.Err? { return; }
    var e2e := E2e(transfer.value.1, tokens.value.1);
    RisksFollow(snap, c, memory.value.0, e2e, memory.value.1.pressure);
    var risk := RiskPart(snap, c, memory.value.0, e2e, memory.value.1.pressure);
    if risk.Err? { return; }
    PricesFollow(snap, c, risk.value.0, e2e, transfer.value.1.bytes);
    var money := MoneyPart(snap, c, risk.value.0, e2e, transfer.value.1.bytes);
    if money.Err? { return; }
    LoadsFollow(snap, c, money.value.0);
  }

  lemma PredictionHasParts(snap: Snapshot, c: CandidateAction, version: string, id: string) returns (x: Parts)
    requires Predict(snap, c, version, id).Ok?
    ensures PartsFollow(snap, c, x)
    ensures Predict(snap, c, version, id).value
            == Assemble(snap, c, version, id, x.end, x.t, x.k, x.m, x.risk, x.money, x.load)
  {
    hide TransferPart, TokenPart, MemoryPart, RiskPart, MoneyPart, LoadPart, Assemble, E2e, Proper, Timed, Usable,
         Amount, Reading, FindsLocation, IsSuccess, IsOomRisk, IsDeadlineRisk, IsBill, IsProduct, CountNeeded, CountMet,
         IsPressure, ToPrefill, ToOccupy, Tracks, Keyed;
    NothingTracked(snap, c);
    TransferFollows(snap, c, FRESH);
    var transfer := TransferPart(snap, c, FRESH).value;
    TokensFollow(snap, c, transfer.0);
    var tokens := TokenPart(snap, c, transfer.0).value;
    MemoryFollows(snap, c, tokens.0);
    var memory := MemoryPart(snap, c, tokens.0).value;
    var e2e := E2e(transfer.1, tokens.1);
    RisksFollow(snap, c, memory.0, e2e, memory.1.pressure);
    var risk := RiskPart(snap, c, memory.0, e2e, memory.1.pressure).value;
    PricesFollow(snap, c, risk.0, e2e, transfer.1.bytes);
    var money := MoneyPart(snap, c, risk.0, e2e, transfer.1.bytes).value;
    LoadsFollow(snap, c, money.0);
    var load := LoadPart(snap, c, money.0).value;
    CountsAddUp(snap, c);
    KeyedUnions(TRANSFERS, TOKENS, MEMORY, RISKS, PRICES, LOADS);
    x := Parts(transfer.1, tokens.1, memory.1, risk.1, money.1, load.1, load.0);
  }

  /** The sum of two figures, if both are known. */
  ghost predicate IsSum(x: Option<real>, a: Option<real>, b: Option<real>) {
    && (x.Some? <==> a.Some? && b.Some?)
    && (x.Some? ==> x.value == a.value + b.value)
  }

  /** The larger of two risks, as far as they are known. */
  ghost predicate IsLarger(x: Option<real>, a: Option<real>, b: Option<real>) {
    && x in {a, b} && (x.None? ==> a.None? && b.None?)
    && (a.Some? ==> x.value >= a.value) && (b.Some? ==> x.value >= b.value)
  }

  ghost predicate IsFloor(n: Option<int>, x: real) {
    n.Some? && n.value as real <= x < n.value as real + 1.0
  }

  lemma AssembledLatencies(snap: Snapshot, c: CandidateAction, version: string, id: string, x: Parts)
    ensures var p := Assemble(snap, c, version, id, x.end, x.t, x.k, x.m, x.risk, x.money, x.load).performance;
            && (p.ttftSeconds.Some? <==> x.t.seconds.Some? && x.k.prefillSeconds.Some?)
            && (p.ttftSeconds.Some? ==>
                  p.ttftSeconds.value == x.t.queueSeconds + x.t.seconds.value + x.k.prefillSeconds.value)
            && IsSum(p.e2eSeconds, p.ttftSeconds, x.k.decodeSeconds) && p.e2eSeconds == E2e(x.t, x.k)
            && p.transferEtaSeconds == x.t.seconds && p.throughput == x.k.decodeTps
            && (p.tpotSeconds.Some? <==> p.throughput.Some? && p.throughput.value > 0.0)
            && (p.tpotSeconds.Some? ==> Product(p.tpotSeconds.value, p.throughput.value) == 1.0)
  {
    hide CoverageConfidence, Applicability, LargerRisk;
  }

  lemma AssembledRest(snap: Snapshot, c: CandidateAction, version: string, id: string, x: Parts)
    ensures var p, e2e := Assemble(snap, c, version, id, x.end, x.t, x.k, x.m, x.risk, x.money, x.load), E2e(x.t, x.k);
            && p.performance.e2eSeconds == e2e && p.cost.gpuSeconds == x.money.gpuSeconds
            && IsProduct(p.cost.memoryTime, e2e, x.m.predictedBytes)
            && IsFloor(p.cost.networkBytes, x.t.bytes) && IsFloor(p.cost.storageIoBytes, x.money.storageIo)
            && p.cost.monetaryCost == x.money.cost
            && IsSum(p.future.queueDepth, x.load.depth, Some(x.load.delta)) && p.future.demand == x.load.depth
            && p.future.contention == x.load.gpuUtil && p.future.kvLocation == x.load.location
            && p.future.predictedHbmBytes == Some(x.m.predictedBytes) && p.future.hbmPressure == x.m.pressure
            && p.reliability.oomProbability == x.risk.oom && p.reliability.timeoutProbability == x.risk.timeout
            && p.reliability.successProbability == x.risk.success
            && IsLarger(p.reliability.sloViolationProbability, x.risk.oom, x.risk.timeout)
  {
    hide CoverageConfidence, Applicability, E2e, Ttft;
    ProductsCommute(x.m.predictedBytes, E2e(x.t, x.k));
  }

  /** The latencies of a prediction: the wait, the transfer and the prefill up to the first token, and then the decoding. */
  lemma LatenciesFollow(snap: Snapshot, c: CandidateAction, version: string, id: string)
    returns (prefill: Option<real>, decode: Option<real>)
    requires Predict(snap, c, version, id).Ok?
    ensures Timed(prefill, ToPrefill(snap, c), Usable(snap, c, PrefillTokensPerSecond), 0.0)
    ensures Timed(decode, Amount(snap, c, ExpectedOutputTokens), Usable(snap, c, DecodeTokensPerSecond), 0.0)
    ensures var p := Predict(snap, c, version, id).value.performance;
            && Timed(p.transferEtaSeconds, Amount(snap, c, TransferBytes), Usable(snap, c, EffectiveBwBytesPerSecond),
                     Amount(snap, c, TransferSetupSeconds))
            && (p.ttftSeconds.Some? <==> p.transferEtaSeconds.Some? && prefill.Some?)
            && (p.ttftSeconds.Some? ==>
                  p.ttftSeconds.value == Amount(snap, c, QueueSeconds) + p.transferEtaSeconds.value + prefill.value)
            && IsSum(p.e2eSeconds, p.ttftSeconds, decode)
            && p.throughput == Usable(snap, c, DecodeTokensPerSecond)
            && (p.tpotSeconds.Some? <==> p.throughput.Some? && p.throughput.value > 0.0)
            && (p.tpotSeconds.Some? ==> Product(p.tpotSeconds.value, p.throughput.value) == 1.0)
  {
    hide Predict, Timed, Usable, Amount, Reading, ToPrefill, ToOccupy, FindsLocation, Tracks, CountNeeded, CountMet, IsBill,
         IsSuccess, IsOomRisk, IsDeadlineRisk, IsPressure, Assemble, IsSum, E2e, Keyed;
    var x := PredictionHasParts(snap, c, version, id);
    AssembledLatencies(snap, c, version, id, x);
    prefill, decode := x.k.prefillSeconds, x.k.decodeSeconds;
  }

  /** The memory, the risks and the chance of success of a prediction. */
  lemma RisksAndMemoryFollow(snap: Snapshot, c: CandidateAction, version: string, id: string)
    requires Predict(snap, c, version, id).Ok?
    ensures var p := Predict(snap, c, version, id).value;
            && p.future.predictedHbmBytes == Some(ToOccupy(snap, c))
            && IsPressure(p.future.hbmPressure, ToOccupy(snap, c), Usable(snap, c, HbmCapacityBytes))
            && IsOomRisk(p.reliability.oomProbability, p.future.hbmPressure)
            && IsDeadlineRisk(p.reliability.timeoutProbability, p.performance.e2eSeconds,
                              Reading(snap, c, DeadlineSeconds))
            && IsSuccess(p.reliability.successProbability, Reading(snap, c, BaseSuccessProbability),
                         p.reliability.oomProbability, p.reliability.timeoutProbability)
            && IsLarger(p.reliability.sloViolationProbability, p.reliability.oomProbability,
                        p.reliability.timeoutProbability)
  {
    hide Predict, Timed, Usable, Amount, Reading, ToPrefill, ToOccupy, FindsLocation, Tracks, CountNeeded, CountMet, IsBill,
         IsSuccess, IsOomRisk, IsDeadlineRisk, IsPressure, Assemble, E2e, Keyed, IsSum, IsFloor, IsLarger, IsProduct;
    var x := PredictionHasParts(snap, c, version, id);
    AssembledRest(snap, c, version, id, x);
  }

  /** The costs of a prediction and the state it leads to. */
  lemma CostsAndLoadFollow(snap: Snapshot, c: CandidateAction, version: string, id: string)
    requires Predict(snap, c, version, id).Ok?
    ensures var p := Predict(snap, c, version, id).value;
            && IsProduct(p.cost.gpuSeconds, p.performance.e2eSeconds, Amount(snap, c, AllocatedGpu))
            && IsProduct(p.cost.memoryTime, p.performance.e2eSeconds, ToOccupy(snap, c))
            && IsFloor(p.cost.networkBytes, Amount(snap, c, TransferBytes))
            && IsFloor(p.cost.storageIoBytes, Amount(snap, c, StorageIoBytes))
            && IsBill(snap, c, p.cost.monetaryCost, p.cost.gpuSeconds, Amount(snap, c, TransferBytes),
                      Amount(snap, c, StorageIoBytes))
            && IsSum(p.future.queueDepth, Reading(snap, c, QueueDepth), Some(Amount(snap, c, QueueDelta)))
            && p.future.demand == Reading(snap, c, QueueDepth) && p.future.contention == Reading(snap, c, GpuUtilization)
            && FindsLocation(snap, c, p.future.kvLocation)
  {
    hide Predict, Timed, Usable, Amount, Reading, ToPrefill, ToOccupy, FindsLocation, Tracks, CountNeeded, CountMet, IsBill,
         IsSuccess, IsOomRisk, IsDeadlineRisk, IsPressure, Assemble, E2e, Keyed, IsSum, IsFloor, IsLarger, IsProduct;
    var x := PredictionHasParts(snap, c, version, id);
    AssembledRest(snap, c, version, id, x);
  }

  lemma ProductsCommute(a: real, b: Option<real>)
    ensures b.Some? ==> a * b.value == Product(b.value, a)
  {
  }

  /** The confidence: a third of the snapshot's completeness and a bit, and the rest of it in proportion to the needed
      features that are known, none needed counting as none known. */
  ghost predicate IsConfidence(confidence: real, completeness: real, needed: nat, met: nat) {
    exists coverage: real :: IsConfidenceFor(confidence, completeness, needed, met, coverage)
  }

  ghost predicate IsConfidenceFor(confidence: real, completeness: real, needed: nat, met: nat, coverage: real) {
    && (needed == 0 ==> coverage == 0.0) && (needed > 0 ==> Product(coverage, needed as real) == met as real)
    && var x := Product(completeness, 0.35 + 0.65 * coverage);
       && (x < 0.0 ==> confidence == 0.0) && (x > 1.0 ==> confidence == 1.0)
       && (0.0 <= x <= 1.0 ==> confidence == x)
  }

  /** What an action type applies to. */
  ghost predicate AppliesAs(actionType: string, applicability: string) {
    var kind := Lower(actionType);
    && (kind in ["route", "admit", "fallback"] ==> applicability == "routing")
    && (kind in ["keep", "offload", "prefetch", "migrate"] ==> applicability == "kv")
    && (kind == "" ==> applicability == "unknown")
    && (kind !in ["", "route", "admit", "fallback", "keep", "offload", "prefetch", "migrate"] ==> applicability == kind)
  }

  lemma ApplicabilityApplies(actionType: string)
    ensures AppliesAs(actionType, Applicability(actionType))
  {
    hide Lower;
    KindsDiffer();
  }

  lemma KindsDiffer()
    ensures |"route"| == 5 && |"admit"| == 5 && |"fallback"| == 8 && |"keep"| == 4 && |"offload"| == 7 && |"prefetch"| == 8
    ensures |"migrate"| == 7 && "route"[0] == 'r' && "admit"[0] == 'a' && "fallback"[0] == 'f' && "offload"[0] == 'o'
    ensures "prefetch"[0] == 'p' && "migrate"[0] == 'm'
  {
  }

  lemma CoverageIsConfidence(completeness: real, r: Resolver)
    ensures IsConfidence(CoverageConfidence(completeness, r), completeness, r.required, r.available)
  {
    var coverage := if r.required > 0 then r.available as real / r.required as real else 0.0;
    assert IsConfidenceFor(CoverageConfidence(completeness, r), completeness, r.required, r.available, coverage);
  }

  /** How far a prediction is to be trusted, and what it notes: it names its subject, weighs the needed features that are
      known, falls back without them or with too little confidence, and lists the notes and the ages of all its lookups. */
  lemma TrustFollows(snap: Snapshot, c: CandidateAction, version: string, id: string)
    requires Predict(snap, c, version, id).Ok?
    ensures var p := Predict(snap, c, version, id).value;
            var needed, met := CountNeeded(snap, c, RATES), CountMet(snap, c, RATES);
            && p.predictionId == id && p.snapshotId == snap.token && p.candidateId == c.candidateId
            && p.modelVersion == version && AppliesAs(c.actionType, p.applicability)
            && IsConfidence(p.confidence, snap.completeness, needed, met)
            && (needed == met && p.confidence >= 0.5 ==> p.fallback == "none")
            && (needed != met || p.confidence < 0.5 ==> p.fallback == "baseline")
            && (forall note :: note in p.notes <==>
                  exists name, key :: (name, key) in Keyed(NUMBERS) + {LOCATION} && Notes(snap, c, name, key, note))
            && (forall key :: key in p.freshnessMs <==>
                  exists name :: (name, key) in Keyed(NUMBERS) + {LOCATION} && ReadsKey(snap, c, name, key))
            && (forall key, ref :: key in p.freshnessMs && ReadFrom(snap, c, key, ref) ==>
                  HasAge(snap, key, ref, p.freshnessMs[key]))
  {
    hide Predict, Timed, Usable, Amount, Reading, ToPrefill, ToOccupy, FindsLocation, CountNeeded, CountMet, IsBill,
         IsSuccess, IsOomRisk, IsDeadlineRisk, IsPressure, CoverageConfidence, Applicability, E2e, Ttft, LargerRisk,
         IsConfidence, Notes, ReadsKey, ReadFrom, HasAge, Keyed;
    var x := PredictionHasParts(snap, c, version, id);
    CoverageIsConfidence(snap.completeness, x.end);
    ApplicabilityApplies(c.actionType);
  }

  // ---- The service ----

  ghost predicate KnowsNothing(p: Prediction) {
    && p.performance == Performance(None, None, None, None, None) && p.reliability == Reliability(None, None, None, None)
    && p.cost == Cost(None, None, None, None, None) && p.future == FutureState(None, None, None, None, None, None)
    && p.confidence == 0.0 && p.freshnessMs == map[] && p.applicability == "unavailable"
  }

  /** The service always answers: with what the model says, marked as a fallback and noted as such when that is not
      confident enough; and when the model fails, with a fallback that knows nothing but the error. */
  lemma ServiceAnswers(cfg: P.ServiceConfig, snap: Snapshot, c: CandidateAction, model: P.Model, id: string)
    ensures var answer, said := P.Evaluate(cfg, snap, c, model, id), model.predict(snap, c, id);
            && (said.Ok? ==>
                  && (said.value.confidence >= cfg.minConfidence ==> answer == said.value)
                  && (said.value.confidence < cfg.minConfidence ==>
                        && answer.fallback == cfg.fallback && answer.notes == said.value.notes + ["low_confidence_fallback"]
                        && answer.(fallback := said.value.fallback, notes := said.value.notes) == said.value))
            && (said.Err? ==>
                  && KnowsNothing(answer) && answer.fallback == cfg.fallback
                  && answer.notes == ["predictor_error:" + said.error]
                  && (answer.predictionId, answer.snapshotId, answer.candidateId, answer.modelVersion)
                     == (id, snap.token, c.candidateId, model.version))
  {
  }

  /** The analytical model as it is served: its own prediction, or the one kind of error it has. */
  lemma AnalyticalSays(snap: Snapshot, c: CandidateAction, version: string, id: string)
    ensures var said, own := P.Analytical(version).predict(snap, c, id), Predict(snap, c, version, id);
            (own.Ok? ==> said == Ok(own.value)) && (own.Err? ==> said == Err("ValueError"))
  {
    hide Predict;
  }

  /** The version that a replay runs: the wanted one, or that of the prediction. */
  ghost function VersionToReplay(s: P.Service, predictionId: string, wanted: string): string
    requires predictionId in s.records
  {
    if |wanted| > 0 then wanted else s.records[predictionId].prediction.modelVersion
  }

  /** A replay answers what the model of that version says about the stored request and snapshot, under the old id for the
      old version and a new one for another; it refuses an unknown prediction, and then an unknown version. */
  lemma ReplayAnswers(s: P.Service, predictionId: string, wanted: string, newId: string)
    ensures var r := P.Replay(s, predictionId, wanted, newId);
            && (r == Err(P.UnknownPrediction) <==> predictionId !in s.records)
            && (predictionId in s.records ==>
                  var version, record := VersionToReplay(s, predictionId, wanted), s.records[predictionId];
                  && (r == Err(P.ModelUnavailable) <==> version !in s.models)
                  && (version in s.models ==>
                        var again := P.Evaluate(s.cfg, record.snapshot, record.request.candidate, s.models[version], newId);
                        && r.Ok? && r.value.(predictionId := again.predictionId) == again
                        && (version == record.prediction.modelVersion ==> r.value.predictionId == predictionId)
                        && (version != record.prediction.modelVersion ==> r.value.predictionId == again.predictionId)))
  {
    hide P.Evaluate;
  }

  /** Registering a version that is known is refused unless it is to be replaced; otherwise the version leads to the model,
      and nothing else changes. */
  lemma RegistrationAnswers(s: P.Service, model: P.Model, replace: bool)
    ensures var (after, r) := P.Register(s, model, replace);
            && (r == Err(P.ModelRegistered) <==> model.version in s.models && !replace)
            && (r.Err? ==> after == s)
            && (r.Ok? ==>
                  && model.version in after.models && after.models[model.version] == model
                  && (forall v :: v != model.version ==> (v in after.models <==> v in s.models))
                  && (forall v :: v in s.models && v != model.version ==> after.models[v] == s.models[v])
                  && after == s.(models := after.models))
  {
  }

  /** A question is refused for an unknown snapshot or an id already on record, and changes nothing then; otherwise the
      answer is put on record with the request and the snapshot, as the newest. */
  lemma QuestionIsAnswered(
      s: P.Service, request: P.PredictionRequest, found: Option<Snapshot>, id: string)
    ensures var (after, r) := P.Ask(s, request, found, id);
            && (r == Err(P.UnknownSnapshotToken) <==> found.None?)
            && (found.Some? ==>
                  var answer := P.Evaluate(s.cfg, found.value, request.candidate, s.current, id);
                  && (r == Err(P.AlreadyJournaled) <==> answer.predictionId in s.records)
                  && (r.Ok? ==>
                        && r.value == answer
                        && after.records == s.records[answer.predictionId := P.PredictionRecord(request, found.value, answer)]
                        && |after.order| == |s.order| + 1 && s.order <= after.order
                        && after.order[|s.order|] == answer.predictionId
                        && after == s.(records := after.records, order := after.order)))
            && (r.Err? ==> after == s)
  {
    hide P.Evaluate;
  }
}
