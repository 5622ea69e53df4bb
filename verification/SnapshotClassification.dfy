// What a snapshot promises about its values, missing and stale parts.

module SnapshotClassification {
  import opened Arithmetic
  import opened Basics
  import opened Contracts
  import opened KeyRegistry
  import opened PlaneSpec
  import opened PlaneRuns

  /** Everything a request should have been answered with: reached slots, and names that do not exist. */
  function Expected(cfg: PlaneConfig, s: Plane, req: SnapshotRequest): set<Identity> {
    Unknown(cfg, s, req) + Identities(Reached(cfg, s, req))
  }

  lemma ReachedKeysResolve(cfg: PlaneConfig, s: Plane, req: SnapshotRequest, slot: Slot)
    requires cfg.Valid() && slot in Reached(cfg, s, req)
    ensures slot.0 in req.entities && slot.0 in s.entities
    ensures slot.1 in cfg.registry.definitions && cfg.registry.Resolve(slot.1).Some?
  {
  }

  /** No name is both unknown and reached. */
  lemma UnknownIsNotReached(cfg: PlaneConfig, s: Plane, req: SnapshotRequest)
    requires cfg.Valid()
    ensures Unknown(cfg, s, req) !! Identities(Reached(cfg, s, req))
  {
    forall slot | slot in Reached(cfg, s, req)
      ensures Keyed(slot.0, slot.1) !in Unknown(cfg, s, req)
    {
      ReachedKeysResolve(cfg, s, req, slot);
    }
  }

  /** Each reached slot is in exactly one of values, missing and stale, and nothing else is delivered or stale. */
  lemma ClassificationIsPartition(
      cfg: PlaneConfig, s: Plane, req: SnapshotRequest, now: Time, token: string, slot: Slot)
    requires cfg.Valid()
    ensures var snap, id := SnapshotOf(cfg, s, req, now, token), Keyed(slot.0, slot.1);
            if slot in Reached(cfg, s, req) then
              || (slot in snap.values && id !in snap.missing && id !in snap.stale && snap.values[slot] == s.state[slot])
              || (slot !in snap.values && id in snap.missing && id !in snap.stale)
              || (slot !in snap.values && id !in snap.missing && id in snap.stale)
            else slot !in snap.values && id !in snap.stale && (id in snap.missing <==> id in Unknown(cfg, s, req))
  {
    hide Reached, Unknown;
    UnknownIsNotReached(cfg, s, req);
    var id := Keyed(slot.0, slot.1);
    assert slot in Reached(cfg, s, req) <==> id in Identities(Reached(cfg, s, req));
    assert forall v :: id in Identities(WithVerdict(s, Reached(cfg, s, req), req, now, v)) <==>
                       slot in Reached(cfg, s, req) && Classify(s, slot, req, now) == v;
  }

  lemma {:induction false} IdentitiesCount(slots: set<Slot>)
    ensures |Identities(slots)| == |slots|
  {
    if slots == {} {
      assert Identities(slots) == {};
    } else {
      var slot :| slot in slots;
      var rest := slots - {slot};
      IdentitiesCount(rest);
      assert Identities(slots) == Identities(rest) + {Keyed(slot.0, slot.1)};
    }
  }

  lemma VerdictsCount(s: Plane, slots: set<Slot>, req: SnapshotRequest, now: Time)
    ensures |WithVerdict(s, slots, req, now, Delivered)| + |WithVerdict(s, slots, req, now, Missing)|
            + |WithVerdict(s, slots, req, now, Stale)| == |slots|
  {
    var d, m, l := WithVerdict(s, slots, req, now, Delivered), WithVerdict(s, slots, req, now, Missing),
                   WithVerdict(s, slots, req, now, Stale);
    assert d + m + l == slots && d !! m && (d + m) !! l;
  }

  /** The parts of a snapshot add up to what was expected, whatever the time and the policy. */
  lemma PartsAddUp(cfg: PlaneConfig, s: Plane, req: SnapshotRequest, now: Time, token: string)
    requires cfg.Valid()
    ensures var snap := SnapshotOf(cfg, s, req, now, token);
            && |snap.values| + |snap.missing| + |snap.stale| == |Expected(cfg, s, req)|
            && snap.completeness == Ratio(|snap.values|, |snap.missing|, |snap.stale|)
  {
    hide Reached, Unknown, Classify, ScopedRelations;
    var slots := Reached(cfg, s, req);
    var snap := SnapshotOf(cfg, s, req, now, token);
    UnknownIsNotReached(cfg, s, req);
    DeliveredStored(s, slots, req, now);
    assert snap.values.Keys == WithVerdict(s, slots, req, now, Delivered);
    VerdictsCount(s, slots, req, now);
    IdentitiesCount(slots);
    IdentitiesCount(WithVerdict(s, slots, req, now, Missing));
    IdentitiesCount(WithVerdict(s, slots, req, now, Stale));
    assert Identities(WithVerdict(s, slots, req, now, Missing)) <= Identities(slots);
  }

  lemma DeliveredStored(s: Plane, slots: set<Slot>, req: SnapshotRequest, now: Time)
    ensures WithVerdict(s, slots, req, now, Delivered) <= s.state.Keys
  {
  }

  lemma RatioIsWhole(delivered: nat, missing: nat, stale: nat)
    ensures 0.0 <= Ratio(delivered, missing, stale) <= 1.0
    ensures Ratio(delivered, missing, stale) == 1.0 <==> missing == 0 && stale == 0
  {
    var total := delivered + missing + stale;
    if total != 0 {
      ShareOfWhole(delivered as real, total as real);
    }
  }

  /** Completeness is a ratio, and it is 1 exactly when nothing is missing or stale. */
  lemma CompleteExactlyWhenNothingLacks(cfg: PlaneConfig, s: Plane, req: SnapshotRequest, now: Time, token: string)
    requires cfg.Valid()
    ensures var snap := SnapshotOf(cfg, s, req, now, token);
            && 0.0 <= snap.completeness <= 1.0
            && (snap.completeness == 1.0 <==> snap.missing == {} && snap.stale == {})
            && snap.completeness * |Expected(cfg, s, req)| as real
               == if Expected(cfg, s, req) == {} then 0.0 else |snap.values| as real
  {
    hide SnapshotOf, Expected;
    PartsAddUp(cfg, s, req, now, token);
    var snap := SnapshotOf(cfg, s, req, now, token);
    RatioIsWhole(|snap.values|, |snap.missing|, |snap.stale|);
  }

  // ---- Monotonicity ----

  /** No key may be older under `strict` than under `loose`. */
  ghost predicate Tightens(strict: seq<(string, int)>, loose: seq<(string, int)>) {
    forall key :: MaxAgeFor(key, loose).Some? ==>
                    MaxAgeFor(key, strict).Some? && MaxAgeFor(key, strict).value <= MaxAgeFor(key, loose).value
  }

  /** Lowering limits without touching the prefixes tightens a policy. */
  lemma LowerLimitsTighten(strict: seq<(string, int)>, loose: seq<(string, int)>)
    requires |strict| == |loose|
    requires forall i :: 0 <= i < |loose| ==> strict[i].0 == loose[i].0 && strict[i].1 <= loose[i].1
    ensures Tightens(strict, loose)
  {
    forall key ensures MaxAgeFor(key, loose).Some? ==>
                         MaxAgeFor(key, strict).Some? && MaxAgeFor(key, strict).value <= MaxAgeFor(key, loose).value
    {
      SameCover(strict, loose, key);
    }
  }

  lemma {:induction false} SameCover(strict: seq<(string, int)>, loose: seq<(string, int)>, key: string)
    requires |strict| == |loose|
    requires forall i :: 0 <= i < |loose| ==> strict[i].0 == loose[i].0 && strict[i].1 <= loose[i].1
    ensures LongestCover(key, strict).Some? <==> LongestCover(key, loose).Some?
    ensures LongestCover(key, strict).Some? ==>
              && LongestCover(key, strict).value.0 == LongestCover(key, loose).value.0
              && LongestCover(key, strict).value.1 <= LongestCover(key, loose).value.1
  {
    if strict != [] {
      SameCover(strict[..|strict| - 1], loose[..|loose| - 1], key);
    }
  }

  predicate Demanding(strict: SnapshotRequest, loose: SnapshotRequest) {
    strict.entities == loose.entities && strict.keys == loose.keys && strict.minAuthority >= loose.minAuthority
  }

  lemma DeliveredShrinks(s: Plane, slot: Slot, strict: SnapshotRequest, loose: SnapshotRequest, now: Time, later: Time)
    requires Demanding(strict, loose) && Tightens(strict.maxAgeMs, loose.maxAgeMs) && now <= later
    requires Classify(s, slot, strict, later) == Delivered
    ensures Classify(s, slot, loose, now) == Delivered
  {
    hide MaxAgeFor;
  }

  /** With no writes, waiting, demanding more authority or allowing less age never delivers more. */
  lemma CompletenessNeverRises(
      cfg: PlaneConfig, s: Plane, later: Plane, strict: SnapshotRequest, loose: SnapshotRequest,
      now: Time, laterNow: Time, a: string, b: string)
    requires cfg.Valid() && later.entities == s.entities && later.state == s.state
    requires Demanding(strict, loose) && Tightens(strict.maxAgeMs, loose.maxAgeMs) && now <= laterNow
    ensures var before, after := SnapshotOf(cfg, s, loose, now, a), SnapshotOf(cfg, later, strict, laterNow, b);
            && after.values.Keys <= before.values.Keys
            && (forall slot :: slot in after.values ==> after.values[slot] == before.values[slot])
            && after.completeness <= before.completeness
  {
    hide Classify, Tightens, ScopedRelations;
    SameReach(cfg, s, later, strict, loose);
    hide Reached, Unknown;
    var before, after := SnapshotOf(cfg, s, loose, now, a), SnapshotOf(cfg, later, strict, laterNow, b);
    forall slot | slot in after.values
      ensures slot in before.values && after.values[slot] == before.values[slot]
    {
      SameStateSameClass(s, later, slot, strict, laterNow);
      DeliveredShrinks(s, slot, strict, loose, now, laterNow);
    }
    PartsAddUp(cfg, s, loose, now, a);
    PartsAddUp(cfg, later, strict, laterNow, b);
    SubsetCount(after.values.Keys, before.values.Keys);
    var total := |Expected(cfg, s, loose)|;
    if total != 0 {
      RatioGrows(|after.values|, |before.values|, total);
    }
  }

  lemma SameReach(cfg: PlaneConfig, s: Plane, later: Plane, strict: SnapshotRequest, loose: SnapshotRequest)
    requires later.entities == s.entities && Demanding(strict, loose)
    ensures Reached(cfg, later, strict) == Reached(cfg, s, loose)
    ensures Unknown(cfg, later, strict) == Unknown(cfg, s, loose)
  {
    assert Patterns(cfg, strict) == Patterns(cfg, loose);
  }

  lemma SameStateSameClass(s: Plane, later: Plane, slot: Slot, req: SnapshotRequest, now: Time)
    requires later.state == s.state
    ensures Classify(later, slot, req, now) == Classify(s, slot, req, now)
  {
  }

  lemma RatioGrows(a: nat, b: nat, total: nat)
    requires a <= b && total > 0
    ensures a as real / total as real <= b as real / total as real
  {
  }

  // ---- Reading one's own writes ----

  /** A snapshot that asks for an accepted value by the name it was written under never reports it missing. */
  lemma AcceptedWriteIsFound(
      cfg: PlaneConfig, s: Plane, u: StateUpdate, req: SnapshotRequest, now: Time, token: string)
    requires cfg.Valid() && cfg.registry.Stable() && PublishOne(cfg, s, u).1.accepted
    requires u.entityRef in req.entities && u.key in req.keys && !IsPattern(u.key)
    requires req.minAuthority <= u.authority
    requires !IsPattern(cfg.registry.Resolve(u.key).value.key)
    ensures var s' := PublishOne(cfg, s, u).0;
            var slot := (u.entityRef, cfg.registry.Resolve(u.key).value.key);
            var snap := SnapshotOf(cfg, s', req, now, token);
            && slot in s'.state && s'.state[slot].value == u.value
            && if s'.state[slot].IsFresh(now, MaxAgeFor(slot.1, req.maxAgeMs)) then
                 slot in snap.values && snap.values[slot].value == u.value
               else Keyed(slot.0, slot.1) in snap.stale
  {
    hide CanonicalKey.Accepts, Arbitrate, Unknown, ScopedRelations, MaxAgeFor;
    var slot := PublishEffect(cfg, s, u);
    AdmittedIsLegal(cfg, s, u);
    var s' := PublishOne(cfg, s, u).0;
    assert CanonicalPattern(cfg, u.key) == slot.1 && slot.1 in Patterns(cfg, req);
    assert cfg.registry.Resolve(slot.1) == cfg.registry.Resolve(u.key);
    hide PublishOne, Admit;
    assert Applicable(cfg, s'.entities[slot.0].entityType, slot.1) == Some({slot.1});
    assert slot in Reached(cfg, s', req);
  }
}
