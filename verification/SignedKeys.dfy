/** When the key that a token is signed with is published, at that moment and for as long as the token lives. */
module SignedKeys {
  import opened Wrappers
  import opened SigningKeys
  import opened SigningConfig

  // ---------- the cache ----------

  predicate CacheCurrent(r: Realm) {
    forall a :: a in r.cache ==> r.cache[a] in r.keys
  }

  /** The rotation removes a key that is cached. */
  predicate DropsCachedKey(r: Realm, c: Command) {
    c.Rotate? && exists a :: a in r.cache && r.cache[a] !in Kept(r.keys, c.listed, c.now)
  }

  /** Of all steps only a rotation can make the cache stale, and does so exactly when it removes a cached key. */
  lemma CacheStaysCurrentExactlyWhen(before: Realm, c: Command, after: Realm)
    requires CacheCurrent(before) && Steps(before, c, after)
    ensures CacheCurrent(after) <==> !DropsCachedKey(before, c)
  {
    if c.Rotate? {
      assert forall a :: a in before.cache ==>
        (before.cache[a] in after.keys <==> before.cache[a] in Kept(before.keys, c.listed, c.now));
    }
  }

  lemma {:induction false} CacheCurrentUntil(realms: seq<Realm>, commands: seq<Command>, n: nat)
    requires Interleaves(realms, commands) && n <= |commands| && CacheCurrent(realms[0])
    requires forall i :: 0 <= i < n ==> !DropsCachedKey(realms[i], commands[i])
    ensures CacheCurrent(realms[n])
  {
    if n > 0 {
      CacheCurrentUntil(realms, commands, n - 1);
      CacheStaysCurrentExactlyWhen(realms[n - 1], commands[n - 1], realms[n]);
    }
  }

  /** In every interleaving the cache stays current throughout exactly when no rotation removes a cached key. */
  lemma CacheStaysCurrent(realms: seq<Realm>, commands: seq<Command>)
    requires Interleaves(realms, commands) && CacheCurrent(realms[0])
    ensures (forall n :: 0 <= n < |realms| ==> CacheCurrent(realms[n]))
            <==> (forall i :: 0 <= i < |commands| ==> !DropsCachedKey(realms[i], commands[i]))
  {
    if forall i :: 0 <= i < |commands| ==> !DropsCachedKey(realms[i], commands[i]) {
      forall n | 0 <= n < |realms| ensures CacheCurrent(realms[n]) {
        CacheCurrentUntil(realms, commands, n);
      }
    }
    if forall n :: 0 <= n < |realms| ==> CacheCurrent(realms[n]) {
      forall i | 0 <= i < |commands| ensures !DropsCachedKey(realms[i], commands[i]) {
        assert CacheCurrent(realms[i]) && CacheCurrent(realms[i + 1]);
        CacheStaysCurrentExactlyWhen(realms[i], commands[i], realms[i + 1]);
      }
    }
  }

  // ---------- at the moment of signing ----------

  lemma {:induction false} CacheMatchesThroughout(realms: seq<Realm>, commands: seq<Command>, n: nat)
    requires Interleaves(realms, commands) && n <= |commands| && CacheMatches(realms[0])
    ensures CacheMatches(realms[n])
  {
    if n > 0 {
      CacheMatchesThroughout(realms, commands, n - 1);
      assert Steps(realms[n - 1], commands[n - 1], realms[n]);
    }
  }

  /** An application's algorithm has a key in a consistent realm; uncached, every key it may resolve to is published. */
  lemma UncachedKeyIsPublished(r: Realm, id: ApplicationId, key: KeyPair, after: Realm)
    requires AlgorithmsConfigured(r) && id in r.applications && AppAlgorithm(r, id) !in r.cache
    ensures Consistent(r) ==> HasKey(r.keys, AppAlgorithm(r, id))
    ensures Steps(r, Sign(id, key), after) ==> key in Published(r) && key.algorithm == AppAlgorithm(r, id)
  {
    assert AppAlgorithm(r, id) in Configured(r);
  }

  /**
   In every interleaving, whatever was dropped or listed before, an application signs with a key of its own algorithm,
   and that key is published at that moment exactly when it was not cached or the cached copy is still stored.
   */
  lemma SigningKeyPublishedExactlyWhen(realms: seq<Realm>, commands: seq<Command>, n: nat)
    requires Interleaves(realms, commands) && n < |commands| && commands[n].Sign?
    requires AlgorithmsConfigured(realms[0]) && CacheMatches(realms[0])
    ensures commands[n].id in realms[n].applications
    ensures var r, a := realms[n], AppAlgorithm(realms[n], commands[n].id);
            && commands[n].key.algorithm == a
            && (commands[n].key in Published(r) <==> (a in r.cache ==> r.cache[a] in r.keys))
  {
    AlgorithmsStayConfigured(realms, commands, n);
    CacheMatchesThroughout(realms, commands, n);
    assert Steps(realms[n], commands[n], realms[n + 1]);
    assert AppAlgorithm(realms[n], commands[n].id) in Configured(realms[n]);
  }

  /** Unless a rotation has removed a cached key, every application signs with a published key of its own algorithm. */
  lemma SignedKeysArePublished(realms: seq<Realm>, commands: seq<Command>, n: nat)
    requires Interleaves(realms, commands) && n < |commands| && commands[n].Sign?
    requires AlgorithmsConfigured(realms[0]) && CacheMatches(realms[0]) && CacheCurrent(realms[0])
    requires forall i :: 0 <= i < n ==> !DropsCachedKey(realms[i], commands[i])
    ensures commands[n].id in realms[n].applications
    ensures commands[n].key in Published(realms[n])
    ensures commands[n].key.algorithm == AppAlgorithm(realms[n], commands[n].id)
  {
    CacheCurrentUntil(realms, commands, n);
    SigningKeyPublishedExactlyWhen(realms, commands, n);
  }

  /** A server that signed once, then rotates 31 days later, goes on signing with a key it no longer publishes. */
  lemma StaleSigningKey(rotated: Realm, key: KeyPair, after: Realm)
    requires var k := NewKeyPair(EdDSA, 0, 0);
             Steps(Realm(EdDSA, [], map[7 := None], {k}, map[EdDSA := k]), Rotate({EdDSA}, 31 * DAY), rotated)
    requires Steps(rotated, Sign(7, key), after)
    ensures key !in Published(rotated)
  {
    var k := NewKeyPair(EdDSA, 0, 0);
    assert k in {k} && k !in Kept({k}, {EdDSA}, 31 * DAY);
  }

  // ---------- for as long as the token lives ----------

  /** Access and ID tokens live for an hour. */
  const TOKEN_LIFETIME := 3600

  /** The commands that read the clock, and what they read. */
  function ClockOf(c: Command): Option<int> {
    match c
    case PatchServer(_, _, now) => Some(now)
    case Rotate(_, now) => Some(now)
    case _ => None
  }

  /** Commands n to m read the clock in order, from t on. */
  predicate ClockRuns(commands: seq<Command>, n: nat, m: nat, t: int)
    requires n <= m <= |commands|
  {
    && (forall i :: n <= i < m && ClockOf(commands[i]).Some? ==> t <= ClockOf(commands[i]).value)
    && (forall i, j :: n <= i < j < m && ClockOf(commands[i]).Some? && ClockOf(commands[j]).Some? ==>
          ClockOf(commands[i]).value <= ClockOf(commands[j]).value)
  }

  /** A rotation among commands n to m found the key expired. */
  predicate Outlived(commands: seq<Command>, n: nat, m: nat, k: KeyPair)
    requires n <= m <= |commands|
  {
    exists i :: n <= i < m && commands[i].Rotate? && k.expiresAt < commands[i].now
  }

  /** Every rotation among commands n to m lists the algorithm. */
  predicate Listed(commands: seq<Command>, n: nat, m: nat, algorithm: Algorithm)
    requires n <= m <= |commands|
  {
    forall i :: n <= i < m && commands[i].Rotate? ==> algorithm in commands[i].listed
  }

  /** A stored key whose algorithm every rotation lists is stored until a rotation finds it expired, and never again. */
  lemma {:induction false} StoredExactlyWhile(realms: seq<Realm>, commands: seq<Command>,
                                              n: nat, m: nat, k: KeyPair, t: int)
    requires Interleaves(realms, commands) && n <= m <= |commands|
    requires k in realms[n].keys && ClockRuns(commands, n, m, t) && Listed(commands, n, m, k.algorithm)
    ensures k in realms[m].keys <==> !Outlived(commands, n, m, k)
  {
    if n < m {
      StoredExactlyWhile(realms, commands, n, m - 1, k, t);
      var c := commands[m - 1];
      assert Steps(realms[m - 1], c, realms[m]);
      assert Outlived(commands, n, m, k) <==> Outlived(commands, n, m - 1, k) || (c.Rotate? && k.expiresAt < c.now);
      StoredStep(realms[m - 1], c, realms[m], k, Outlived(commands, n, m - 1, k));
    }
  }

  /** One step: a stored key goes when it is found expired; one that was outlived by now does not come back. */
  lemma StoredStep(before: Realm, c: Command, after: Realm, k: KeyPair, outlived: bool)
    requires Steps(before, c, after) && (k in before.keys <==> !outlived)
    requires c.Rotate? ==> k.algorithm in c.listed
    requires outlived && ClockOf(c).Some? ==> k.expiresAt < ClockOf(c).value
    ensures k in after.keys <==> !(outlived || (c.Rotate? && k.expiresAt < c.now))
  {
  }

  /** A published key stays published while its algorithm is, until a rotation finds it expired. */
  lemma PublishedExactlyWhile(realms: seq<Realm>, commands: seq<Command>, n: nat, m: nat, k: KeyPair, t: int)
    requires Interleaves(realms, commands) && n <= m <= |commands|
    requires k in realms[n].keys && ClockRuns(commands, n, m, t) && Listed(commands, n, m, k.algorithm)
    ensures k in Published(realms[m]) <==> k.algorithm in Configured(realms[m]) && !Outlived(commands, n, m, k)
  {
    StoredExactlyWhile(realms, commands, n, m, k, t);
  }

  /**
   A token signed at t with a stored key can be verified with the published keys all its life, over all rotations that
   list its algorithm, if the key expires no earlier than the token; and with a rotation at the end of the token's life,
   only then.
   */
  lemma TokenStaysVerifiable(realms: seq<Realm>, commands: seq<Command>, n: nat, m: nat, t: int)
    requires Interleaves(realms, commands) && n < m <= |commands| && commands[n].Sign?
    requires commands[n].key in realms[n].keys && commands[n].key.algorithm in Configured(realms[m])
    requires ClockRuns(commands, n, m, t) && Listed(commands, n, m, commands[n].key.algorithm)
    requires forall i :: n <= i < m && commands[i].Rotate? ==> commands[i].now <= t + TOKEN_LIFETIME
    ensures t + TOKEN_LIFETIME <= commands[n].key.expiresAt ==> commands[n].key in Published(realms[m])
    ensures commands[m - 1].Rotate? && commands[m - 1].now == t + TOKEN_LIFETIME ==>
              (commands[n].key in Published(realms[m]) <==> t + TOKEN_LIFETIME <= commands[n].key.expiresAt)
  {
    PublishedExactlyWhile(realms, commands, n, m, commands[n].key, t);
  }

  /**
   With a newer key stored as well, a token signed a minute before the older key expires may get the older key. Half an
   hour later, in the middle of the token's life, a rotation has removed that key from the published ones.
   */
  lemma TokenOutlivesKey(signed: Realm, rotated: Realm)
    requires var first, second := NewKeyPair(EdDSA, 0, 0), NewKeyPair(EdDSA, 1, 20 * DAY);
             && Steps(Realm(EdDSA, [], map[7 := None], {first, second}, map[]), Sign(7, first), signed)
             && Steps(signed, Rotate({EdDSA}, 30 * DAY - 60 + TOKEN_LIFETIME / 2), rotated)
    ensures NewKeyPair(EdDSA, 0, 0) in Published(signed) && NewKeyPair(EdDSA, 0, 0) !in Published(rotated)
  {
    var first := NewKeyPair(EdDSA, 0, 0);
    assert first in signed.keys && first !in Kept(signed.keys, {EdDSA}, 30 * DAY - 60 + TOKEN_LIFETIME / 2);
  }
}
