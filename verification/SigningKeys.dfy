/** Signing keys of one virtual server, and what one run of the rotation job does to them. */
module SigningKeys {
  datatype Algorithm = EdDSA | RS256

  /** Times are whole seconds. */
  const DAY := 86400

  datatype KeyPair = KeyPair(algorithm: Algorithm, kid: nat, rotatesAt: int, expiresAt: int)

  function NewKeyPair(algorithm: Algorithm, kid: nat, now: int): KeyPair {
    KeyPair(algorithm, kid, now + 20 * DAY, now + 30 * DAY)
  }

  predicate WellFormed(keys: set<KeyPair>, drawn: nat) {
    && (forall k :: k in keys ==> k.kid < drawn && k.rotatesAt <= k.expiresAt)
    && (forall k, l :: k in keys && l in keys && k.kid == l.kid ==> k == l)
  }

  predicate HasKey(keys: set<KeyPair>, algorithm: Algorithm) {
    exists k :: k in keys && k.algorithm == algorithm
  }

  /** Some key of this algorithm is not due for rotation yet. */
  predicate HasFreshKey(keys: set<KeyPair>, algorithm: Algorithm, now: int) {
    exists k :: k in keys && k.algorithm == algorithm && k.rotatesAt > now
  }

  /** The keys a run leaves in place. */
  function Kept(keys: set<KeyPair>, configured: set<Algorithm>, now: int): set<KeyPair> {
    set k | k in keys && !(k.expiresAt < now) && k.algorithm in configured
  }

  /** The algorithms a run makes a key for; all is decided on the keys as they were before the run. */
  predicate Due(keys: set<KeyPair>, configured: set<Algorithm>, now: int, algorithm: Algorithm) {
    if HasKey(keys, algorithm) then !HasFreshKey(keys, algorithm, now) else algorithm in configured
  }

  /** One new key for each due algorithm and none besides. */
  predicate OneKeyPerDue(made: set<KeyPair>, keys: set<KeyPair>, configured: set<Algorithm>, now: int) {
    && (forall k :: k in made ==> Due(keys, configured, now, k.algorithm) && k == NewKeyPair(k.algorithm, k.kid, now))
    && (forall a :: Due(keys, configured, now, a) ==> HasKey(made, a))
    && (forall k, l :: k in made && l in made && k.algorithm == l.algorithm ==> k == l)
  }

  /** after is what a run at this instant may leave of before. */
  predicate Rotation(before: set<KeyPair>, after: set<KeyPair>, configured: set<Algorithm>, now: int) {
    && (forall k :: k in before ==> (k in after <==> k in Kept(before, configured, now)))
    && OneKeyPerDue(after - before, before, configured, now)
  }

  // ---------- what one run achieves ----------

  /** After one run every configured algorithm has a key that is not due for rotation. */
  lemma RotationRefreshes(before: set<KeyPair>, after: set<KeyPair>, configured: set<Algorithm>, now: int,
                          algorithm: Algorithm)
    requires Rotation(before, after, configured, now) && algorithm in configured
    requires forall k :: k in before ==> k.rotatesAt <= k.expiresAt
    ensures HasFreshKey(after, algorithm, now)
  {
    if HasFreshKey(before, algorithm, now) {
      var k :| k in before && k.algorithm == algorithm && k.rotatesAt > now;
      assert k in after;
    } else {
      assert Due(before, configured, now, algorithm);
      var k :| k in after - before && k.algorithm == algorithm;
      assert k in after && k.rotatesAt > now;
    }
  }

  /** One run leaves keys of configured algorithms only, unless an unconfigured algorithm's keys were all due. */
  lemma OneRunIsEnough(before: set<KeyPair>, after: set<KeyPair>, configured: set<Algorithm>, now: int)
    requires Rotation(before, after, configured, now)
    ensures (forall k :: k in after ==> k.algorithm in configured)
            <==> (forall a :: HasKey(before, a) && a !in configured ==> HasFreshKey(before, a, now))
  {
    if forall k :: k in after ==> k.algorithm in configured {
      forall a | HasKey(before, a) && a !in configured
        ensures HasFreshKey(before, a, now)
      {
        assert Due(before, configured, now, a) ==> HasKey(after - before, a);
      }
    }
    if forall a :: HasKey(before, a) && a !in configured ==> HasFreshKey(before, a, now) {
      forall k | k in after
        ensures k.algorithm in configured
      {
        if k in before {
          assert k in Kept(before, configured, now);
        } else {
          assert k in after - before && Due(before, configured, now, k.algorithm);
        }
      }
    }
  }

  /** A rotated-out key of an algorithm no longer configured is replaced by one run instead of removed for good. */
  lemma OneRunMayNotBeEnough(after: set<KeyPair>)
    requires Rotation({KeyPair(RS256, 0, 5, 10)}, after, {EdDSA}, 7)
    ensures exists k :: k in after && k.algorithm == RS256
  {
    var before := {KeyPair(RS256, 0, 5, 10)};
    assert KeyPair(RS256, 0, 5, 10) in before;
    assert Due(before, {EdDSA}, 7, RS256);
  }

  /** Nothing is due once a run has been made at this instant. */
  lemma NothingDueAfterRotation(before: set<KeyPair>, after: set<KeyPair>, configured: set<Algorithm>, now: int,
                                a: Algorithm)
    requires Rotation(before, after, configured, now)
    requires forall k :: k in before ==> k.rotatesAt <= k.expiresAt
    ensures !Due(after, configured, now, a)
    ensures forall k :: k in after ==> !(k.expiresAt < now) && k.rotatesAt <= k.expiresAt
  {
    if a in configured {
      RotationRefreshes(before, after, configured, now, a);
    } else if HasKey(after, a) {
      var k :| k in after && k.algorithm == a;
      assert k !in before;
      assert k in after - before && k.rotatesAt > now;
    }
  }

  /** The second run at the same instant leaves configured algorithms only, and the third changes nothing. */
  lemma TwoRunsSettle(k0: set<KeyPair>, k1: set<KeyPair>, k2: set<KeyPair>, k3: set<KeyPair>,
                      configured: set<Algorithm>, now: int)
    requires Rotation(k0, k1, configured, now) && Rotation(k1, k2, configured, now) && Rotation(k2, k3, configured, now)
    requires forall k :: k in k0 ==> k.rotatesAt <= k.expiresAt
    ensures k2 == Kept(k1, configured, now) && k3 == k2
    ensures forall k :: k in k2 ==> k.algorithm in configured
    ensures forall a :: a in configured ==> HasFreshKey(k2, a, now)
  {
    forall a ensures !Due(k1, configured, now, a) {
      NothingDueAfterRotation(k0, k1, configured, now, a);
    }
    NothingDueAfterRotation(k0, k1, configured, now, EdDSA);
    assert k2 - k1 == {};
    forall a ensures !Due(k2, configured, now, a) {
      NothingDueAfterRotation(k1, k2, configured, now, a);
    }
    assert k3 - k2 == {};
    forall a | a in configured ensures HasFreshKey(k2, a, now) {
      RotationRefreshes(k1, k2, configured, now, a);
    }
  }
}
