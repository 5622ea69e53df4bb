// The canonical key registry: definitions, aliases, and when naming is stable.

module KeyRegistry {
  import opened Basics
  import opened Contracts

  datatype Registry = Registry(definitions: map<string, CanonicalKey>, aliases: map<string, string>) {
    /** Definitions sit under their own key and every alias leads to a definition. */
    predicate Valid() {
      && (forall k :: k in definitions ==> definitions[k].key == k)
      && (forall a :: a in aliases ==> aliases[a] in definitions)
    }

    /** One alias hop at most, then the definition table. */
    function Resolve(k: string): Option<CanonicalKey> {
      var canonical := if k in aliases then aliases[k] else k;
      if canonical in definitions then Some(definitions[canonical]) else None
    }

    /** Resolving a canonical key again gives the same definition. */
    ghost predicate Stable() {
      forall k :: Resolve(k).Some? ==> Resolve(Resolve(k).value.key) == Resolve(k)
    }
  }

  /** Aliases are followed once, so naming is stable exactly when no alias leads to a key that is redirected again. */
  lemma StableExactlyWithoutAliasChains(r: Registry)
    requires r.Valid()
    ensures r.Stable() <==>
            forall a :: a in r.aliases && r.aliases[a] in r.aliases ==> r.aliases[r.aliases[a]] == r.aliases[a]
  {
    if r.Stable() {
      forall a | a in r.aliases && r.aliases[a] in r.aliases
        ensures r.aliases[r.aliases[a]] == r.aliases[a]
      {
        assert r.Resolve(a).value == r.definitions[r.aliases[a]];
        assert r.Resolve(r.aliases[a]).value.key == r.aliases[r.aliases[a]];
      }
    }
  }

  datatype RegistrationError = KeyAlreadyRegistered | AliasAlreadyRegistered

  predicate AliasTaken(r: Registry, d: CanonicalKey) {
    exists i :: 0 <= i < |d.aliases| && d.aliases[i] in r.aliases && r.aliases[d.aliases[i]] != d.key
  }

  /** The alias table once `owner` has claimed the first `n` names of `names`. */
  function WithAliases(aliases: map<string, string>, names: seq<string>, n: nat, owner: string): map<string, string>
    requires n <= |names|
  {
    if n == 0 then aliases else WithAliases(aliases, names, n - 1, owner)[names[n - 1] := owner]
  }

  function Registered(r: Registry, d: CanonicalKey): Registry {
    Registry(r.definitions[d.key := d], WithAliases(r.aliases, d.aliases, |d.aliases|, d.key))
  }

  lemma {:induction false} WithAliasesOwners(
      aliases: map<string, string>, names: seq<string>, n: nat, owner: string, a: string)
    requires n <= |names|
    ensures a in WithAliases(aliases, names, n, owner) <==> a in aliases || a in names[..n]
    ensures a in WithAliases(aliases, names, n, owner) ==>
              WithAliases(aliases, names, n, owner)[a] == if a in names[..n] then owner else aliases[a]
  {
    if n > 0 {
      WithAliasesOwners(aliases, names, n - 1, owner, a);
      assert names[..n] == names[..n - 1] + [names[n - 1]];
    }
  }

  lemma RegistrationKeepsValid(r: Registry, d: CanonicalKey)
    requires r.Valid()
    ensures Registered(r, d).Valid()
    ensures forall k :: k in d.aliases ==> Registered(r, d).Resolve(k) == Some(d)
  {
    forall a ensures a in Registered(r, d).aliases ==> Registered(r, d).aliases[a] in Registered(r, d).definitions
      ensures a in d.aliases ==> a in Registered(r, d).aliases && Registered(r, d).aliases[a] == d.key
    {
      WithAliasesOwners(r.aliases, d.aliases, |d.aliases|, d.key, a);
      assert d.aliases[..|d.aliases|] == d.aliases;
    }
  }

  /** No name that stays an alias leads to one of the new aliases, and the new key does not itself lead elsewhere. */
  predicate KeepsNamesStable(r: Registry, d: CanonicalKey) {
    && (forall a :: a in r.aliases && a !in d.aliases && r.aliases[a] in d.aliases ==> r.aliases[a] == d.key)
    && (d.aliases != [] && d.key !in d.aliases && d.key in r.aliases ==> r.aliases[d.key] == d.key)
  }

  /** A registration keeps naming stable exactly under that condition on the registry and the definition. */
  lemma RegistrationKeepsStableExactlyWhen(r: Registry, d: CanonicalKey)
    requires r.Valid() && r.Stable()
    ensures Registered(r, d).Stable() <==> KeepsNamesStable(r, d)
  {
    var after := Registered(r, d);
    hide Registered, Registry.Valid, Registry.Stable;
    NewAliases(r, d);
    RegistrationKeepsValid(r, d);
    StableExactlyWithoutAliasChains(r);
    StableExactlyWithoutAliasChains(after);
    if after.Stable() {
      if d.aliases != [] && d.key !in d.aliases && d.key in r.aliases {
        assert d.aliases[0] in d.aliases && after.aliases[d.aliases[0]] == d.key;
      }
      forall a | a in r.aliases && a !in d.aliases && r.aliases[a] in d.aliases ensures r.aliases[a] == d.key {
        assert after.aliases[a] in after.aliases;
      }
    }
  }

  lemma NewAliases(r: Registry, d: CanonicalKey)
    ensures forall a :: a in Registered(r, d).aliases <==> a in r.aliases || a in d.aliases
    ensures forall a :: a in Registered(r, d).aliases ==>
              Registered(r, d).aliases[a] == if a in d.aliases then d.key else r.aliases[a]
  {
    assert d.aliases[..|d.aliases|] == d.aliases;
    forall a
      ensures a in Registered(r, d).aliases <==> a in r.aliases || a in d.aliases
      ensures a in Registered(r, d).aliases ==>
                Registered(r, d).aliases[a] == if a in d.aliases then d.key else r.aliases[a]
    {
      WithAliasesOwners(r.aliases, d.aliases, |d.aliases|, d.key, a);
    }
  }

  /** Registration compares new aliases with aliases only, so it accepts one that shadows a defined key. */
  lemma RegistrationCanBreakStability()
    ensures exists r: Registry, d: CanonicalKey ::
              && r.Valid() && r.Stable()
              && d.key !in r.definitions && !AliasTaken(r, d)
              && !Registered(r, d).Stable()
  {
    var a := CanonicalKey("a", {}, "int", None, false, ["b"]);
    var c := CanonicalKey("c", {}, "int", None, false, ["a"]);
    var r := Registry(map["a" := a], map["b" := "a"]);
    assert r.Resolve("b") == Some(a);
    StableExactlyWithoutAliasChains(r);
    var after := Registered(r, c);
    WithAliasesOwners(r.aliases, c.aliases, 1, "c", "a");
    WithAliasesOwners(r.aliases, c.aliases, 1, "c", "b");
    RegistrationKeepsValid(r, c);
    assert after.aliases["b"] == "a" && after.aliases["a"] == "c";
    StableExactlyWithoutAliasChains(after);
    assert c.key !in r.definitions && !AliasTaken(r, c);
  }

  class CanonicalKeyRegistry {
    var definitions: map<string, CanonicalKey>
    var aliases: map<string, string>

    ghost function View(): Registry
      reads this
    {
      Registry(definitions, aliases)
    }

    constructor ()
      ensures View() == Registry(map[], map[])
    {
      definitions, aliases := map[], map[];
    }

    method Register(d: CanonicalKey, replace: bool) returns (outcome: Result<(), RegistrationError>)
      modifies this
      ensures outcome == if d.key in old(definitions) && !replace then Err(KeyAlreadyRegistered)
                         else if AliasTaken(old(View()), d) && !replace then Err(AliasAlreadyRegistered)
                         else Ok(())
      ensures View() == if outcome.Ok? then Registered(old(View()), d) else old(View())
      ensures old(View()).Valid() ==> View().Valid()
    {
      RegistrationKeepsValidIfValid(View(), d);
      if d.key in definitions && !replace {
        return Err(KeyAlreadyRegistered);
      }
      for i := 0 to |d.aliases|
        invariant !replace ==>
          forall j :: 0 <= j < i ==> d.aliases[j] in aliases ==> aliases[d.aliases[j]] == d.key
      {
        if d.aliases[i] in aliases && aliases[d.aliases[i]] != d.key && !replace {
          return Err(AliasAlreadyRegistered);
        }
      }
      definitions := definitions[d.key := d];
      for i := 0 to |d.aliases|
        invariant definitions == old(definitions)[d.key := d]
        invariant aliases == WithAliases(old(aliases), d.aliases, i, d.key)
      {
        aliases := aliases[d.aliases[i] := d.key];
      }
      return Ok(());
    }
  }

  /** A registration defines its own key, leads its aliases there, and leaves every other name as it is. */
  lemma RegistrationChangesOwnNames(r: Registry, d: CanonicalKey, name: string)
    ensures var after := Registered(r, d);
            && (name == d.key ==> name in after.definitions && after.definitions[name] == d)
            && (name != d.key ==> (name in after.definitions <==> name in r.definitions))
            && (name != d.key && name in r.definitions ==> after.definitions[name] == r.definitions[name])
            && (name in d.aliases ==> name in after.aliases && after.aliases[name] == d.key)
            && (name !in d.aliases ==> (name in after.aliases <==> name in r.aliases))
            && (name !in d.aliases && name in r.aliases ==> after.aliases[name] == r.aliases[name])
  {
    WithAliasesOwners(r.aliases, d.aliases, |d.aliases|, d.key, name);
    assert d.aliases[..|d.aliases|] == d.aliases;
  }

  lemma RegistrationKeepsValidIfValid(r: Registry, d: CanonicalKey)
    ensures r.Valid() ==> Registered(r, d).Valid()
  {
    if r.Valid() {
      RegistrationKeepsValid(r, d);
    }
  }
}
