/** The key store, the caching key service, and the rotation job that runs over them. */
module KeyRotation {
  import opened Wrappers
  import opened SigningKeys

  /** The keys of one virtual server; kids are drawn from a counter, so none is ever drawn twice. */
  class KeyService {
    var keys: set<KeyPair>
    var drawn: nat
    var cache: map<Algorithm, KeyPair>

    ghost predicate Valid()
      reads this
    {
      WellFormed(keys, drawn)
    }

    constructor ()
      ensures Valid() && keys == {} && cache == map[]
    {
      keys, drawn, cache := {}, 0, map[];
    }

    /** The stored keys as a list, in no particular order. */
    method GetAll() returns (list: seq<KeyPair>)
      ensures forall k :: k in list <==> k in keys
    {
      list := [];
      var rest := keys;
      while rest != {}
        invariant rest <= keys
        invariant forall k :: k in list <==> k in keys - rest
        decreases |rest|
      {
        var k :| k in rest;
        list := list + [k];
        rest := rest - {k};
      }
    }

    method Remove(algorithm: Algorithm, kid: nat)
      modifies this`keys
      ensures keys == set k | k in old(keys) && !(k.algorithm == algorithm && k.kid == kid)
    {
      keys := set k | k in keys && !(k.algorithm == algorithm && k.kid == kid);
    }

    method Generate(algorithm: Algorithm, now: int) returns (k: KeyPair)
      requires Valid()
      modifies this`keys, this`drawn
      ensures Valid()
      ensures k == NewKeyPair(algorithm, old(drawn), now) && k !in old(keys)
      ensures k.algorithm == algorithm && k.rotatesAt == now + 20 * 86400 && k.expiresAt == now + 30 * 86400
      ensures keys == old(keys) + {k} && drawn == old(drawn) + 1
    {
      k := NewKeyPair(algorithm, drawn, now);
      drawn := drawn + 1;
      keys := keys + {k};
    }

    /** A key to sign with: the cached one, still stored or not, or else any stored one, which is then cached. */
    method GetKey(algorithm: Algorithm) returns (k: Option<KeyPair>)
      modifies this`cache
      ensures k.None? <==> algorithm !in old(cache) && forall x :: x in keys ==> x.algorithm != algorithm
      ensures if algorithm in old(cache) then k == Some(old(cache)[algorithm]) && cache == old(cache)
              else if HasKey(keys, algorithm) then
                && k.Some? && k.value in keys && k.value.algorithm == algorithm
                && cache == old(cache)[algorithm := k.value]
              else k == None && cache == old(cache)
    {
      if algorithm in cache {
        return Some(cache[algorithm]);
      }
      var stored := set x | x in keys && x.algorithm == algorithm;
      if stored == {} {
        assert forall x :: x in keys ==> x.algorithm == algorithm ==> x in stored;
        return None;
      }
      var x :| x in stored;
      assert HasKey(keys, algorithm);
      cache := cache[algorithm := x];
      return Some(x);
    }

    // ---------- the rotation job ----------

    method DeleteExpiredKeys(list: seq<KeyPair>, now: int)
      requires Valid() && Lists(list, keys)
      modifies this`keys
      ensures Valid() && keys == set k | k in old(keys) && !(k.expiresAt < now)
    {
      for i := 0 to |list|
        invariant Valid()
        invariant forall k :: k in keys <==> k in old(keys) && !(k in list[..i] && k.expiresAt < now)
      {
        if list[i].expiresAt < now {
          Remove(list[i].algorithm, list[i].kid);
        }
      }
      assert list[..|list|] == list;
    }

    method DeleteOrphanKeys(list: seq<KeyPair>, configured: set<Algorithm>)
      requires Valid() && Lists(list, keys)
      modifies this`keys
      ensures Valid() && keys == set k | k in old(keys) && k.algorithm in configured
    {
      for i := 0 to |list|
        invariant Valid()
        invariant forall k :: k in keys <==> k in old(keys) && !(k in list[..i] && k.algorithm !in configured)
      {
        if list[i].algorithm !in configured {
          Remove(list[i].algorithm, list[i].kid);
        }
      }
      assert list[..|list|] == list;
    }

    /** Which algorithms of the list need a key: true when none of its keys is good for a while yet. */
    method AlgorithmsToRotate(list: seq<KeyPair>, now: int) returns (toRotate: map<Algorithm, bool>)
      ensures forall a :: a in toRotate <==> HasKey(SetOf(list), a)
      ensures forall a :: a in toRotate ==> (toRotate[a] <==> !HasFreshKey(SetOf(list), a, now))
    {
      toRotate := map[];
      for i := 0 to |list|
        invariant forall a :: a in toRotate <==> HasKey(SetOf(list[..i]), a)
        invariant forall a :: a in toRotate ==> toRotate[a]
      {
        toRotate := toRotate[list[i].algorithm := true];
        TakeOneMore(list, i);
      }
      assert list[..|list|] == list;
      for i := 0 to |list|
        invariant forall a :: a in toRotate <==> HasKey(SetOf(list), a)
        invariant forall a :: a in toRotate ==> (toRotate[a] <==> !HasFreshKey(SetOf(list[..i]), a, now))
      {
        if list[i].rotatesAt > now {
          assert list[i] in SetOf(list);
          toRotate := toRotate[list[i].algorithm := false];
        }
        TakeOneMore(list, i);
      }
    }

    /** Decides on the list it is given, not on the keys stored when it runs. */
    method GenerateNewKeys(list: seq<KeyPair>, all: seq<Algorithm>, now: int)
      requires Valid() && Distinct(all)
      modifies this`keys, this`drawn
      ensures Valid() && old(keys) <= keys
      ensures forall k :: k in keys - old(keys) ==> k.kid >= old(drawn)
      ensures OneKeyPerDue(keys - old(keys), SetOf(list), SetOf(all), now)
    {
      ghost var before, firstKid := keys, drawn;
      var toRotate := AlgorithmsToRotate(list, now);
      ghost var made := ReplaceDueKeys(toRotate, now);
      made := SeedMissingKeys(toRotate, all, now, made, before, firstKid);
      assert keys - before == made;
    }

    method ReplaceDueKeys(toRotate: map<Algorithm, bool>, now: int) returns (ghost made: set<KeyPair>)
      requires Valid()
      modifies this`keys, this`drawn
      ensures Valid() && Made(made, old(keys), old(drawn), now)
      ensures forall a :: HasKey(made, a) <==> a in toRotate && toRotate[a]
    {
      made := {};
      var rest := toRotate.Keys;
      while rest != {}
        invariant rest <= toRotate.Keys
        invariant Valid() && Made(made, old(keys), old(drawn), now)
        invariant forall a :: HasKey(made, a) <==> a in toRotate && a !in rest && toRotate[a]
        decreases |rest|
      {
        var a :| a in rest;
        if toRotate[a] {
          made := GenerateOneMore(a, now, made, old(keys), old(drawn));
        }
        rest := rest - {a};
      }
    }

    method SeedMissingKeys(toRotate: map<Algorithm, bool>, all: seq<Algorithm>, now: int,
                           ghost replaced: set<KeyPair>, ghost before: set<KeyPair>, ghost firstKid: nat)
      returns (ghost made: set<KeyPair>)
      requires Valid() && Distinct(all) && Made(replaced, before, firstKid, now)
      requires forall a :: HasKey(replaced, a) <==> a in toRotate && toRotate[a]
      modifies this`keys, this`drawn
      ensures Valid() && Made(made, before, firstKid, now)
      ensures forall a :: HasKey(made, a) <==> if a in toRotate then toRotate[a] else a in all
    {
      made := replaced;
      for i := 0 to |all|
        invariant Valid() && Made(made, before, firstKid, now)
        invariant forall a :: HasKey(made, a) <==> if a in toRotate then toRotate[a] else a in all[..i]
      {
        if all[i] !in toRotate {
          made := GenerateOneMore(all[i], now, made, before, firstKid);
        }
      }
      assert all[..|all|] == all;
    }

    /** One call of Generate, with the keys made so far kept in view. */
    method GenerateOneMore(a: Algorithm, now: int,
                           ghost made: set<KeyPair>, ghost before: set<KeyPair>, ghost firstKid: nat)
      returns (ghost more: set<KeyPair>)
      requires Valid() && Made(made, before, firstKid, now) && !HasKey(made, a)
      modifies this`keys, this`drawn
      ensures Valid() && Made(more, before, firstKid, now)
      ensures forall b :: HasKey(more, b) <==> HasKey(made, b) || b == a
    {
      var k := Generate(a, now);
      more := made + {k};
      assert k in more;
      forall b ensures HasKey(more, b) <==> HasKey(made, b) || b == a {
        if HasKey(made, b) {
          var l :| l in made && l.algorithm == b;
          assert l in more;
        }
      }
    }

    /** What Generate has added since a point: one key per algorithm, with kids from there on. */
    ghost predicate Made(made: set<KeyPair>, before: set<KeyPair>, firstKid: nat, now: int)
      reads this
    {
      && keys == before + made && made !! before && firstKid <= drawn
      && (forall k :: k in made ==> k.kid >= firstKid && k == NewKeyPair(k.algorithm, k.kid, now))
      && (forall k, l :: k in made && l in made && k.algorithm == l.algorithm ==> k == l)
    }

    /** rotateKeysForVirtualServer: the list is read once, before anything is removed. */
    method RotateKeys(all: seq<Algorithm>, now: int)
      requires Valid() && Distinct(all)
      modifies this`keys, this`drawn
      ensures Valid()
      ensures Rotation(old(keys), keys, SetOf(all), now)
      ensures forall k :: k in old(keys) ==> (k in keys <==> k.expiresAt >= now && k.algorithm in all)
      ensures forall k :: k in keys - old(keys) ==>
                k.rotatesAt == now + 20 * 86400 && k.expiresAt == now + 30 * 86400
      ensures forall k, l :: k in keys - old(keys) && l in keys - old(keys) && k.algorithm == l.algorithm ==> k == l
      ensures forall a :: (exists k :: k in keys - old(keys) && k.algorithm == a) <==>
                if exists k :: k in old(keys) && k.algorithm == a
                then forall k :: k in old(keys) && k.algorithm == a ==> k.rotatesAt <= now
                else a in all
    {
      var list := GetAll();
      DeleteExpiredKeys(list, now);
      DeleteOrphanKeys(list, SetOf(all));
      assert keys == Kept(old(keys), SetOf(all), now);
      GenerateNewKeys(list, all, now);
      assert SetOf(list) == old(keys);
      assert keys - old(keys) == keys - Kept(old(keys), SetOf(all), now);
      forall a
        ensures (exists k :: k in keys - old(keys) && k.algorithm == a) <==>
                if exists k :: k in old(keys) && k.algorithm == a
                then forall k :: k in old(keys) && k.algorithm == a ==> k.rotatesAt <= now
                else a in all
      {
        assert HasKey(keys - old(keys), a) <==> Due(old(keys), SetOf(all), now, a);
      }
    }
  }

  function SetOf<T(!new)>(s: seq<T>): (r: set<T>)
    ensures forall x :: x in r <==> x in s
  {
    set x | x in s
  }

  lemma TakeOneMore(list: seq<KeyPair>, i: nat)
    requires i < |list|
    ensures SetOf(list[..i + 1]) == SetOf(list[..i]) + {list[i]}
  {
    assert list[..i + 1] == list[..i] + [list[i]];
  }

  predicate Distinct<T(==)>(s: seq<T>) {
    forall i, j :: 0 <= i < j < |s| ==> s[i] != s[j]
  }

  /** The list holds all of these keys, and no kid twice for different keys. */
  predicate Lists(list: seq<KeyPair>, keys: set<KeyPair>) {
    && (forall k :: k in keys ==> k in list)
    && (forall k, l :: k in list && l in list && k.kid == l.kid ==> k == l)
  }
}
