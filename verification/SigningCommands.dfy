/** The commands of SigningConfig as the handlers carry them out. */
module SigningCommands {
  import opened Wrappers
  import opened SigningKeys
  import opened KeyRotation
  import opened SigningConfig

  /** The primary algorithm first, then the additional ones in order, each once. */
  method AllSigningAlgorithms(primary: Algorithm, additional: seq<Algorithm>) returns (all: seq<Algorithm>)
    ensures Distinct(all) && SetOf(all) == ConfiguredOf(primary, additional)
    ensures forall x :: x in all <==> x == primary || x in additional
    ensures all != [] && all[0] == primary
    ensures forall i, j :: 0 < i < j < |all| ==>
              exists p, q :: 0 <= p < q < |additional| && additional[p] == all[i] && additional[q] == all[j]
                             && all[i] !in additional[..p] && all[j] !in additional[..q]
  {
    var seen := {primary};
    all := [primary];
    ghost var from := [-1];
    for i := 0 to |additional|
      invariant Distinct(all) && all != [] && all[0] == primary
      invariant forall a :: a in all <==> a in seen
      invariant forall a :: a in seen <==> a == primary || a in additional[..i]
      invariant |from| == |all|
      invariant forall x :: 0 < x < |all| ==>
                  0 <= from[x] < i && additional[from[x]] == all[x] && all[x] !in additional[..from[x]]
      invariant forall x, y :: 0 < x < y < |all| ==> from[x] < from[y]
    {
      if additional[i] !in seen {
        seen := seen + {additional[i]};
        all := all + [additional[i]];
        from := from + [i];
      }
    }
    assert additional[..|additional|] == additional;
  }

  method HasSigningAlgorithm(primary: Algorithm, additional: seq<Algorithm>, algorithm: Algorithm) returns (has: bool)
    ensures has <==> algorithm in ConfiguredOf(primary, additional)
    ensures has <==> algorithm == primary || algorithm in additional
  {
    var all := AllSigningAlgorithms(primary, additional);
    for i := 0 to |all|
      invariant algorithm !in all[..i]
    {
      if all[i] == algorithm {
        return true;
      }
    }
    assert all[..|all|] == all;
    return false;
  }

  class VirtualServer {
    var primary: Algorithm
    var additional: seq<Algorithm>
    var applications: map<ApplicationId, Option<Algorithm>>
    const service: KeyService

    ghost predicate Valid()
      reads this, service
    {
      service.Valid()
    }

    ghost function Value(): Realm
      reads this, service
    {
      Realm(primary, additional, applications, service.keys, service.cache)
    }

    /** CreateVirtualServer: a key for each configured algorithm. */
    constructor (primary: Algorithm, additional: seq<Algorithm>, now: int)
      ensures Valid() && fresh(service)
      ensures this.primary == primary && this.additional == additional && applications == map[]
      ensures Consistent(Value())
      ensures forall x :: x == primary || x in additional ==> exists k :: k in service.keys && k.algorithm == x
      ensures forall k :: k in service.keys ==>
                && (k.algorithm == primary || k.algorithm in additional)
                && k.rotatesAt == now + 20 * 86400 && k.expiresAt == now + 30 * 86400
      ensures forall k, l :: k in service.keys && l in service.keys && k.algorithm == l.algorithm ==> k == l
    {
      this.primary, this.additional, this.applications := primary, additional, map[];
      var created := new KeyService();
      service := created;
      new;
      var all := AllSigningAlgorithms(primary, additional);
      for i := 0 to |all|
        invariant Valid() && fresh(service) && service.cache == map[]
        invariant this.primary == primary && this.additional == additional && applications == map[]
        invariant forall a :: a in all[..i] ==> HasKey(service.keys, a)
        invariant forall k :: k in service.keys ==>
                    && k.algorithm in all[..i]
                    && k.rotatesAt == now + 20 * 86400 && k.expiresAt == now + 30 * 86400
        invariant forall k, l :: k in service.keys && l in service.keys && k.algorithm == l.algorithm ==> k == l
      {
        ghost var before := service.keys;
        assert all[..i + 1] == all[..i] + [all[i]];
        assert forall a :: a in all[..i] ==> HasKey(before, a);
        var k := service.Generate(all[i], now);
        forall a | a in all[..i + 1] ensures HasKey(service.keys, a) {
          if a == all[i] {
            assert k in service.keys;
          } else {
            var l :| l in before && l.algorithm == a;
            assert l in service.keys;
          }
        }
      }
      assert all[..|all|] == all;
      assert forall a :: a in Configured(Value()) ==> a in all;
      forall x | x in all ensures exists k :: k in service.keys && k.algorithm == x {
        assert HasKey(service.keys, x);
      }
    }

    /** Rejects the change when an application would lose its algorithm; otherwise stores it and seeds missing keys. */
    method PatchVirtualServer(newPrimary: Option<Algorithm>, newAdditional: Option<seq<Algorithm>>, now: int)
      returns (ok: bool)
      requires Valid()
      modifies this`primary, this`additional, service
      ensures Valid() && Steps(old(Value()), PatchServer(newPrimary, newAdditional, now), Value())
      ensures var p := if newPrimary.Some? then newPrimary.value else old(primary);
              var a := if newAdditional.Some? then newAdditional.value else old(additional);
              && (ok <==> (newPrimary.None? && newAdditional.None?)
                          || forall id :: id in applications && applications[id].Some? ==>
                               applications[id].value == p || applications[id].value in a)
              && (if ok then primary == p && additional == a
                  else primary == old(primary) && additional == old(additional) && service.keys == old(service.keys))
      ensures service.cache == old(service.cache) && old(service.keys) <= service.keys
      ensures forall k :: k in service.keys - old(service.keys) ==>
                && (k.algorithm == primary || k.algorithm in additional)
                && (forall l :: l in old(service.keys) ==> l.algorithm != k.algorithm)
                && k.rotatesAt == now + 20 * 86400 && k.expiresAt == now + 30 * 86400
      ensures ok && (newPrimary.Some? || newAdditional.Some?) ==>
                forall x :: x == primary || x in additional ==> exists k :: k in service.keys && k.algorithm == x
      ensures ok <==> (newPrimary == None && newAdditional == None)
                      || PatchAllowed(old(Value()), PatchServer(newPrimary, newAdditional, now))
    {
      var p, a := primary, additional;
      if newPrimary.Some? {
        p := newPrimary.value;
      }
      if newAdditional.Some? {
        a := newAdditional.value;
      }
      if newPrimary.None? && newAdditional.None? {
        return true;
      }
      ok := MayConfigure(p, a);
      if !ok {
        return false;
      }
      primary, additional := p, a;
      SeedKeys(p, a, now);
      SeedsMeans(old(service.keys), service.keys, p, a, now);
      return true;
    }

    /** Whether every application's explicit algorithm is among these. */
    method MayConfigure(p: Algorithm, a: seq<Algorithm>) returns (ok: bool)
      ensures ok <==> forall id :: id in applications && applications[id].Some? ==>
                                     applications[id].value in ConfiguredOf(p, a)
    {
      var rest := applications.Keys;
      while rest != {}
        invariant rest <= applications.Keys
        invariant forall id :: id in applications.Keys - rest && applications[id].Some? ==>
                    applications[id].value in ConfiguredOf(p, a)
        decreases |rest|
      {
        var id :| id in rest;
        if applications[id].Some? {
          var has := HasSigningAlgorithm(p, a, applications[id].value);
          if !has {
            return false;
          }
        }
        rest := rest - {id};
      }
      return true;
    }

    method SeedKeys(p: Algorithm, a: seq<Algorithm>, now: int)
      requires Valid()
      modifies service
      ensures Valid() && service.cache == old(service.cache)
      ensures Seeds(old(service.keys), service.keys, ConfiguredOf(p, a), now)
    {
      var all := AllSigningAlgorithms(p, a);
      for i := 0 to |all|
        invariant Valid() && service.cache == old(service.cache)
        invariant Seeds(old(service.keys), service.keys, SetOf(all[..i]), now)
      {
        var stored := set k | k in service.keys && k.algorithm == all[i];
        assert all[..i + 1] == all[..i] + [all[i]];
        ghost var before := service.keys;
        if stored == {} {
          var k := service.Generate(all[i], now);
          SeedOneMore(old(service.keys), before, service.keys, SetOf(all[..i]), k, now);
          assert SetOf(all[..i + 1]) == SetOf(all[..i]) + {all[i]};
        } else {
          var k :| k in stored;
          assert HasKey(service.keys, all[i]);
          SeedNoMore(old(service.keys), service.keys, SetOf(all[..i]), all[i], now);
          assert SetOf(all[..i + 1]) == SetOf(all[..i]) + {all[i]};
        }
      }
      assert all[..|all|] == all;
    }

    method CreateApplication(id: ApplicationId, algorithm: Option<Algorithm>) returns (ok: bool)
      requires id !in applications
      modifies this`applications
      ensures Steps(old(Value()), SigningConfig.CreateApplication(id, algorithm), Value())
      ensures ok <==> AlgorithmAllowed(old(Value()), algorithm)
      ensures ok <==> algorithm.None? || algorithm.value == primary || algorithm.value in additional
      ensures applications == if ok then old(applications)[id := algorithm] else old(applications)
    {
      if algorithm.Some? {
        var has := HasSigningAlgorithm(primary, additional, algorithm.value);
        if !has {
          return false;
        }
      }
      applications := applications[id := algorithm];
      return true;
    }

    method PatchApplication(id: ApplicationId, algorithm: Option<Algorithm>) returns (ok: bool)
      modifies this`applications
      ensures Steps(old(Value()), SigningConfig.PatchApplication(id, algorithm), Value())
      ensures ok <==> id in old(applications)
                      && (algorithm.None? || algorithm.value == primary || algorithm.value in additional)
      ensures applications == if ok && algorithm.Some? then old(applications)[id := algorithm] else old(applications)
      ensures ok <==> id in old(applications) && AlgorithmAllowed(old(Value()), algorithm)
    {
      if id !in applications {
        return false;
      }
      if algorithm.Some? {
        var has := HasSigningAlgorithm(primary, additional, algorithm.value);
        if !has {
          return false;
        }
        applications := applications[id := algorithm];
      }
      return true;
    }

    /** The job rotates with the record it listed, which the server's own may have moved on from. */
    method RotateKeys(listedPrimary: Algorithm, listedAdditional: seq<Algorithm>, now: int)
      requires Valid()
      modifies service`keys, service`drawn
      ensures Valid() && Steps(old(Value()), Rotate(ConfiguredOf(listedPrimary, listedAdditional), now), Value())
    {
      var all := AllSigningAlgorithms(listedPrimary, listedAdditional);
      service.RotateKeys(all, now);
    }

    /** The key that a token of this application is signed with. */
    method SigningKey(id: ApplicationId) returns (key: Option<KeyPair>)
      requires id in applications
      modifies service`cache
      ensures var a := if applications[id].Some? then applications[id].value else primary;
              && (key.Some? ==> if a in old(service.cache) then key.value == old(service.cache)[a]
                                else key.value in service.keys && key.value.algorithm == a)
              && (key.None? ==> a !in old(service.cache) && forall k :: k in service.keys ==> k.algorithm != a)
              && (key.Some? && (a in old(service.cache) ==> old(service.cache)[a].algorithm == a) ==>
                    key.value.algorithm == a)
      ensures key.Some? ==> Steps(old(Value()), Sign(id, key.value), Value())
      ensures key.None? ==> Value() == old(Value())
      ensures key.None? <==> AppAlgorithm(old(Value()), id) !in old(service.cache)
                             && !HasKey(old(service.keys), AppAlgorithm(old(Value()), id))
      ensures Consistent(old(Value())) ==> key.Some?
    {
      assert applications[id].Some? && Consistent(Value()) ==> applications[id].value in Configured(Value());
      var a := primary;
      if applications[id].Some? {
        a := applications[id].value;
      }
      key := service.GetKey(a);
    }

    /** The JWKS filter. */
    method WellKnownJwks() returns (published: set<KeyPair>)
      ensures published == Published(Value())
      ensures forall k :: k in published <==>
                k in service.keys && (k.algorithm == primary || k.algorithm in additional)
    {
      var all := AllSigningAlgorithms(primary, additional);
      var list := service.GetAll();
      published := {};
      for i := 0 to |list|
        invariant forall k :: k in published <==> k in list[..i] && k.algorithm in all
      {
        if list[i].algorithm in all {
          published := published + {list[i]};
        }
      }
      assert list[..|list|] == list;
      assert forall a :: a in all <==> a in Configured(Value());
    }
  }

  lemma SeedsMeans(before: set<KeyPair>, after: set<KeyPair>, p: Algorithm, a: seq<Algorithm>, now: int)
    requires Seeds(before, after, ConfiguredOf(p, a), now)
    ensures forall k :: k in after - before ==>
              && (k.algorithm == p || k.algorithm in a) && (forall l :: l in before ==> l.algorithm != k.algorithm)
              && k.rotatesAt == now + 20 * 86400 && k.expiresAt == now + 30 * 86400
    ensures forall x :: x == p || x in a ==> exists k :: k in after && k.algorithm == x
  {
    forall x | x == p || x in a ensures exists k :: k in after && k.algorithm == x {
      assert x in ConfiguredOf(p, a);
      if HasKey(before, x) {
        var k :| k in before && k.algorithm == x;
        assert k in after;
      } else {
        var k :| k in after - before && k.algorithm == x;
        assert k in after;
      }
    }
  }

  lemma SeedOneMore(start: set<KeyPair>, before: set<KeyPair>, after: set<KeyPair>,
                    done: set<Algorithm>, k: KeyPair, now: int)
    requires Seeds(start, before, done, now) && !HasKey(before, k.algorithm)
    requires after == before + {k} && k == NewKeyPair(k.algorithm, k.kid, now)
    ensures Seeds(start, after, done + {k.algorithm}, now)
  {
    assert k in after - start;
    forall a | a in done + {k.algorithm} && !HasKey(start, a)
      ensures HasKey(after - start, a)
    {
      if a != k.algorithm {
        var l :| l in before - start && l.algorithm == a;
        assert l in after - start;
      }
    }
  }

  lemma SeedNoMore(start: set<KeyPair>, keys: set<KeyPair>, done: set<Algorithm>, a: Algorithm, now: int)
    requires Seeds(start, keys, done, now) && HasKey(keys, a)
    ensures Seeds(start, keys, done + {a}, now)
  {
    if !HasKey(start, a) {
      var k :| k in keys && k.algorithm == a;
      assert k in keys - start;
    }
  }
}
