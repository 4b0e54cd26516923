/**
 Which algorithms a virtual server and its applications are set to sign with, the commands that
 change that, and the rotation job, in any order.
 */
module SigningConfig {
  import opened Wrappers
  import opened SigningKeys
  import opened KeyRotation

  type ApplicationId = nat

  /** applications holds each application's explicit algorithm, if it has one; cache is the key service's. */
  datatype Realm = Realm(
    primary: Algorithm,
    additional: seq<Algorithm>,
    applications: map<ApplicationId, Option<Algorithm>>,
    keys: set<KeyPair>,
    cache: map<Algorithm, KeyPair>)

  function ConfiguredOf(primary: Algorithm, additional: seq<Algorithm>): set<Algorithm> {
    {primary} + SetOf(additional)
  }

  function Configured(r: Realm): set<Algorithm> {
    ConfiguredOf(r.primary, r.additional)
  }

  /** appSigningAlgorithm */
  function AppAlgorithm(r: Realm, id: ApplicationId): Algorithm
    requires id in r.applications
  {
    match r.applications[id]
    case Some(a) => a
    case None => r.primary
  }

  /** The key set that the JWKS endpoint publishes. */
  function Published(r: Realm): set<KeyPair> {
    set k | k in r.keys && k.algorithm in Configured(r)
  }

  /** Rotate carries the algorithms of the server record that the job listed before it came to this server. */
  datatype Command =
    | PatchServer(primary: Option<Algorithm>, additional: Option<seq<Algorithm>>, now: int)
    | CreateApplication(id: ApplicationId, algorithm: Option<Algorithm>)
    | PatchApplication(id: ApplicationId, algorithm: Option<Algorithm>)
    | DeleteApplication(id: ApplicationId)
    | Rotate(listed: set<Algorithm>, now: int)
    | Sign(id: ApplicationId, key: KeyPair)

  /** A key for each configured algorithm that had none, and no other change. */
  predicate Seeds(before: set<KeyPair>, after: set<KeyPair>, configured: set<Algorithm>, now: int) {
    && before <= after
    && (forall k :: k in after - before ==>
          k.algorithm in configured && !HasKey(before, k.algorithm) && k == NewKeyPair(k.algorithm, k.kid, now))
    && (forall a :: a in configured && !HasKey(before, a) ==> HasKey(after - before, a))
  }

  function NewPrimary(r: Realm, c: Command): Algorithm requires c.PatchServer? {
    if c.primary.Some? then c.primary.value else r.primary
  }

  function NewAdditional(r: Realm, c: Command): seq<Algorithm> requires c.PatchServer? {
    if c.additional.Some? then c.additional.value else r.additional
  }

  /** No application's explicit algorithm would be taken away. */
  predicate PatchAllowed(r: Realm, c: Command) requires c.PatchServer? {
    forall id :: id in r.applications && r.applications[id].Some? ==>
                   r.applications[id].value in ConfiguredOf(NewPrimary(r, c), NewAdditional(r, c))
  }

  predicate AlgorithmAllowed(r: Realm, algorithm: Option<Algorithm>) {
    algorithm.Some? ==> algorithm.value in Configured(r)
  }

  predicate Steps(before: Realm, c: Command, after: Realm) {
    match c
    case PatchServer(primary, additional, now) =>
      if (primary.Some? || additional.Some?) && PatchAllowed(before, c) then
        && after == before.(primary := NewPrimary(before, c), additional := NewAdditional(before, c),
                            keys := after.keys)
        && Seeds(before.keys, after.keys, Configured(after), now)
      else after == before
    case CreateApplication(id, algorithm) =>
      after == if id !in before.applications && AlgorithmAllowed(before, algorithm)
               then before.(applications := before.applications[id := algorithm]) else before
    case PatchApplication(id, algorithm) =>
      after == if id in before.applications && algorithm.Some? && AlgorithmAllowed(before, algorithm)
               then before.(applications := before.applications[id := algorithm]) else before
    case DeleteApplication(id) =>
      after == before.(applications := before.applications - {id})
    case Rotate(listed, now) =>
      after == before.(keys := after.keys) && Rotation(before.keys, after.keys, listed, now)
    case Sign(id, key) =>
      && id in before.applications
      && var a := AppAlgorithm(before, id);
         if a in before.cache then key == before.cache[a] && after == before
         else key in before.keys && key.algorithm == a && after == before.(cache := before.cache[a := key])
  }

  predicate AlgorithmsConfigured(r: Realm) {
    forall id :: id in r.applications && r.applications[id].Some? ==> r.applications[id].value in Configured(r)
  }

  /** Each cached key is one of the algorithm it is cached for. */
  predicate CacheMatches(r: Realm) {
    forall a :: a in r.cache ==> r.cache[a].algorithm == a
  }

  /** Every explicit algorithm is configured, and every configured algorithm has a stored key. */
  predicate Consistent(r: Realm) {
    && AlgorithmsConfigured(r)
    && (forall a :: a in Configured(r) ==> HasKey(r.keys, a))
    && (forall k :: k in r.keys ==> k.rotatesAt <= k.expiresAt)
    && CacheMatches(r)
  }

  // ---------- over all interleavings ----------

  /** The realms that a sequence of commands, rotations and signing events goes through. */
  ghost predicate Interleaves(realms: seq<Realm>, commands: seq<Command>) {
    && |realms| == |commands| + 1
    && forall i :: 0 <= i < |commands| ==> Steps(realms[i], commands[i], realms[i + 1])
  }

  /** A rotation from an older listing that takes the keys of an algorithm configured since, and makes no new one. */
  predicate Uproots(r: Realm, c: Command) {
    c.Rotate? && exists a :: a in Configured(r) && a !in c.listed && HasFreshKey(r.keys, a, c.now)
  }

  /** No command makes a realm inconsistent; a rotation does exactly when its listing is out of date in this way. */
  lemma ConsistentStep(before: Realm, c: Command, after: Realm)
    requires Consistent(before) && Steps(before, c, after)
    ensures Consistent(after) <==> !Uproots(before, c)
  {
    match c
    case PatchServer(primary, additional, now) =>
      forall a | a in Configured(after)
        ensures HasKey(after.keys, a)
      {
        if HasKey(before.keys, a) {
          var k :| k in before.keys && k.algorithm == a;
          assert k in after.keys;
        } else if after != before {
          var k :| k in after.keys - before.keys && k.algorithm == a;
          assert k in after.keys;
        }
      }
    case Rotate(listed, now) =>
      forall k | k in after.keys
        ensures k.rotatesAt <= k.expiresAt
      {
        assert k in before.keys || k in after.keys - before.keys;
      }
      forall a | a in Configured(before)
        ensures HasKey(after.keys, a) <==> a in listed || !HasFreshKey(before.keys, a, now)
      {
        KeyAfterRotation(before.keys, after.keys, listed, now, a);
      }
    case _ =>
  }

  /** Whether a rotation leaves a key of an algorithm that had one. */
  lemma KeyAfterRotation(before: set<KeyPair>, after: set<KeyPair>, listed: set<Algorithm>, now: int, a: Algorithm)
    requires Rotation(before, after, listed, now) && HasKey(before, a)
    requires forall k :: k in before ==> k.rotatesAt <= k.expiresAt
    ensures HasKey(after, a) <==> a in listed || !HasFreshKey(before, a, now)
  {
    if a in listed {
      RotationRefreshes(before, after, listed, now, a);
      var k :| k in after && k.algorithm == a && k.rotatesAt > now;
    } else if !HasFreshKey(before, a, now) {
      assert Due(before, listed, now, a);
      var k :| k in after - before && k.algorithm == a;
      assert k in after;
    } else {
      forall k | k in after ensures k.algorithm != a {
        if k !in before {
          assert k in after - before;
        }
      }
    }
  }

  lemma {:induction false} ConsistentUntil(realms: seq<Realm>, commands: seq<Command>, n: nat)
    requires Interleaves(realms, commands) && n <= |commands| && Consistent(realms[0])
    requires forall i :: 0 <= i < n ==> !Uproots(realms[i], commands[i])
    ensures Consistent(realms[n])
  {
    if n > 0 {
      ConsistentUntil(realms, commands, n - 1);
      ConsistentStep(realms[n - 1], commands[n - 1], realms[n]);
    }
  }

  /** In every interleaving the realm stays consistent throughout exactly when no rotation uproots an algorithm. */
  lemma AlwaysConsistent(realms: seq<Realm>, commands: seq<Command>)
    requires Interleaves(realms, commands) && Consistent(realms[0])
    ensures (forall n :: 0 <= n < |realms| ==> Consistent(realms[n]))
            <==> (forall i :: 0 <= i < |commands| ==> !Uproots(realms[i], commands[i]))
  {
    if forall i :: 0 <= i < |commands| ==> !Uproots(realms[i], commands[i]) {
      forall n | 0 <= n < |realms| ensures Consistent(realms[n]) {
        ConsistentUntil(realms, commands, n);
      }
    }
    if forall n :: 0 <= n < |realms| ==> Consistent(realms[n]) {
      forall i | 0 <= i < |commands| ensures !Uproots(realms[i], commands[i]) {
        assert Consistent(realms[i]) && Consistent(realms[i + 1]);
        ConsistentStep(realms[i], commands[i], realms[i + 1]);
      }
    }
  }

  /** Explicit algorithms stay configured whatever any rotation has listed. */
  lemma {:induction false} AlgorithmsStayConfigured(realms: seq<Realm>, commands: seq<Command>, n: nat)
    requires Interleaves(realms, commands) && n <= |commands| && AlgorithmsConfigured(realms[0])
    ensures AlgorithmsConfigured(realms[n])
  {
    if n > 0 {
      AlgorithmsStayConfigured(realms, commands, n - 1);
      assert Steps(realms[n - 1], commands[n - 1], realms[n]);
    }
  }

  /** A server listed with EdDSA alone gets RS256 added and seeded; the rotation then takes that key away again. */
  lemma StaleListingTakesKey(patched: Realm, rotated: Realm)
    requires Steps(Realm(EdDSA, [], map[], {NewKeyPair(EdDSA, 0, 0)}, map[]),
                   PatchServer(None, Some([RS256]), 1), patched)
    requires Steps(patched, Rotate({EdDSA}, 1), rotated)
    ensures Consistent(patched) && RS256 in Configured(rotated) && !HasKey(rotated.keys, RS256)
  {
    var start := Realm(EdDSA, [], map[], {NewKeyPair(EdDSA, 0, 0)}, map[]);
    assert NewKeyPair(EdDSA, 0, 0) in start.keys;
    ConsistentStep(start, PatchServer(None, Some([RS256]), 1), patched);
    assert RS256 in Configured(patched) && HasKey(patched.keys - start.keys, RS256);
    var k :| k in patched.keys - start.keys && k.algorithm == RS256;
    assert HasFreshKey(patched.keys, RS256, 1);
    KeyAfterRotation(patched.keys, rotated.keys, {EdDSA}, 1, RS256);
  }
}
