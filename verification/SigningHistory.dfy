/** Which algorithm an application signs with, told by the commands that were accepted before. */
module SigningHistory {
  import opened Wrappers
  import opened SigningKeys
  import opened SigningConfig
  import opened SignedKeys

  /** The algorithm is the server's primary or one of its additional ones. */
  predicate IsConfigured(r: Realm, a: Algorithm) {
    a == r.primary || a in r.additional
  }

  /** The patch names something, and no application with an explicit algorithm would lose it. */
  predicate PatchTakesEffect(r: Realm, primary: Option<Algorithm>, additional: Option<seq<Algorithm>>) {
    && (primary.Some? || additional.Some?)
    && forall id :: id in r.applications && r.applications[id].Some? ==>
         || r.applications[id].value == (if primary.Some? then primary.value else r.primary)
         || r.applications[id].value in (if additional.Some? then additional.value else r.additional)
  }

  /** The primary that the last accepted patch to name one has set, or else the one at the start. */
  ghost function LastPrimary(realms: seq<Realm>, commands: seq<Command>, n: nat): Algorithm
    requires |realms| == |commands| + 1 && n <= |commands|
  {
    if n == 0 then realms[0].primary
    else match commands[n - 1]
      case PatchServer(Some(p), additional, _) =>
        if PatchTakesEffect(realms[n - 1], Some(p), additional) then p else LastPrimary(realms, commands, n - 1)
      case _ => LastPrimary(realms, commands, n - 1)
  }

  /** The additional algorithms that the last accepted patch to name any has set, or else those at the start. */
  ghost function LastAdditional(realms: seq<Realm>, commands: seq<Command>, n: nat): seq<Algorithm>
    requires |realms| == |commands| + 1 && n <= |commands|
  {
    if n == 0 then realms[0].additional
    else match commands[n - 1]
      case PatchServer(primary, Some(a), _) =>
        if PatchTakesEffect(realms[n - 1], primary, Some(a)) then a else LastAdditional(realms, commands, n - 1)
      case _ => LastAdditional(realms, commands, n - 1)
  }

  /** What is known of an application: nothing, or the explicit algorithm last given to it, if any. */
  datatype Known = Absent | Present(named: Option<Algorithm>)

  /** What the last accepted command on this application left, or else what was there at the start. */
  ghost function LastNamed(realms: seq<Realm>, commands: seq<Command>, n: nat, id: ApplicationId): Known
    requires |realms| == |commands| + 1 && n <= |commands|
  {
    if n == 0 then
      if id in realms[0].applications then Present(realms[0].applications[id]) else Absent
    else
      var before := LastNamed(realms, commands, n - 1, id);
      match commands[n - 1]
      case CreateApplication(i, algorithm) =>
        if i == id && before == Absent && (algorithm.Some? ==> IsConfigured(realms[n - 1], algorithm.value))
        then Present(algorithm) else before
      case PatchApplication(i, Some(a)) =>
        if i == id && before != Absent && IsConfigured(realms[n - 1], a) then Present(Some(a)) else before
      case DeleteApplication(i) => if i == id then Absent else before
      case _ => before
  }

  /** The server's algorithms and each application's are what the accepted commands have last made them. */
  lemma {:induction false} ConfigurationIsLastNamed(realms: seq<Realm>, commands: seq<Command>,
                                                    n: nat, id: ApplicationId)
    requires Interleaves(realms, commands) && n <= |commands|
    ensures realms[n].primary == LastPrimary(realms, commands, n)
    ensures realms[n].additional == LastAdditional(realms, commands, n)
    ensures LastNamed(realms, commands, n, id)
            == if id in realms[n].applications then Present(realms[n].applications[id]) else Absent
  {
    if n > 0 {
      ConfigurationIsLastNamed(realms, commands, n - 1, id);
      var r, c := realms[n - 1], commands[n - 1];
      assert Steps(r, c, realms[n]);
      if c.PatchServer? {
        assert PatchTakesEffect(r, c.primary, c.additional) <==>
               (c.primary.Some? || c.additional.Some?) && PatchAllowed(r, c);
      }
      assert forall a :: IsConfigured(r, a) <==> a in Configured(r);
    }
  }

  /**
   The key of every signing event is of the algorithm that the last accepted command on its application named, or, if
   none did, of the primary that the last accepted patch of the server set.
   */
  lemma SignsWithLastNamed(realms: seq<Realm>, commands: seq<Command>, n: nat)
    requires Interleaves(realms, commands) && n < |commands| && commands[n].Sign?
    requires AlgorithmsConfigured(realms[0]) && CacheMatches(realms[0])
    ensures var known := LastNamed(realms, commands, n, commands[n].id);
            && known.Present?
            && commands[n].key.algorithm
               == if known.named.Some? then known.named.value else LastPrimary(realms, commands, n)
  {
    ConfigurationIsLastNamed(realms, commands, n, commands[n].id);
    SigningKeyPublishedExactlyWhen(realms, commands, n);
  }
}
