/** Runs of the protocol, and what holds of every store entry in every run. */
module Runs {
  import opened Wrappers
  import opened Accounts
  import opened Protocol

  /** The states a system goes through, and the events that take it from each to the next. */
  datatype Run = Run(states: seq<State>, events: seq<Event>)

  predicate TakesStep(r: Run, i: nat)
    requires i < |r.events| && |r.states| == |r.events| + 1
  {
    r.states[i + 1] == Next(r.states[i], r.events[i])
  }

  predicate NothingStored(s: State) {
    && s.logins == map[] && s.codes == map[] && s.refreshTokens == map[] && s.devices == map[]
    && s.userCodes == map[] && s.challenges == map[] && s.sessions == map[]
  }

  predicate Redraws(r: Run, i: nat, j: nat)
    requires i < j < |r.events|
  {
    !(Draws(r.events[i]) !! Draws(r.events[j]))
  }

  /** A run starts with empty stores and any database, and never draws a name twice. */
  ghost predicate Valid(r: Run) {
    && |r.states| == |r.events| + 1
    && NothingStored(r.states[0])
    && (forall i: nat :: i < |r.events| ==> TakesStep(r, i))
    && (forall i: nat :: i < |r.events| ==> WellDrawn(r.events[i]))
    && (forall i: nat, j: nat :: i < j < |r.events| ==> !Redraws(r, i, j))
  }

  ghost predicate DrawnBefore(r: Run, n: nat, k: Key) {
    exists i: nat :: i < n && i < |r.events| && k in Draws(r.events[i])
  }

  // ---------- entries come and go ----------

  lemma LoginLiveOrDrawn(s: State, e: Event, login: Token)
    ensures login in LoginsAfter(s, e) ==> login in s.logins || Key(LoginKind, login) in Draws(e)
  {
  }

  lemma OtherLiveOrDrawn(s: State, e: Event, k: Key)
    requires k.kind != LoginKind
    ensures Live(Next(s, e), k) ==> Live(s, k) || k in Draws(e)
  {
  }

  /** Only an event that draws a name can bring it into a store. */
  lemma LiveOrDrawn(s: State, e: Event, k: Key)
    ensures Live(Next(s, e), k) ==> Live(s, k) || k in Draws(e)
  {
    if k.kind == LoginKind {
      LoginLiveOrDrawn(s, e, k.token);
      assert Names(Next(s, e), LoginKind) == LoginsAfter(s, e).Keys;
    } else {
      OtherLiveOrDrawn(s, e, k);
    }
  }

  lemma {:induction false} LiveWasDrawn(r: Run, n: nat, k: Key)
    requires Valid(r) && n <= |r.events|
    requires Live(r.states[n], k)
    ensures DrawnBefore(r, n, k)
  {
    if n > 0 {
      assert TakesStep(r, n - 1);
      LiveOrDrawn(r.states[n - 1], r.events[n - 1], k);
      if Live(r.states[n - 1], k) {
        LiveWasDrawn(r, n - 1, k);
      }
    }
  }

  /** A name drawn before is not drawn again. */
  lemma NotDrawnAgain(r: Run, n: nat, k: Key)
    requires Valid(r) && n < |r.events| && DrawnBefore(r, n, k)
    ensures k !in Draws(r.events[n])
  {
    var i: nat :| i < n && k in Draws(r.events[i]);
    assert !Redraws(r, i, n);
  }

  /** A name is stored nowhere up to the event that draws it. */
  lemma NotLiveBeforeDrawn(r: Run, n: nat, m: nat, k: Key)
    requires Valid(r) && n <= m < |r.events| && k in Draws(r.events[m])
    ensures !Live(r.states[n], k)
  {
    if Live(r.states[n], k) {
      LiveWasDrawn(r, n, k);
      NotDrawnAgain(r, m, k);
    }
  }

  /** An entry that was dropped, consumed or lapsed never comes back. */
  lemma {:induction false} GoneForever(r: Run, i: nat, j: nat, k: Key)
    requires Valid(r) && i <= j <= |r.events|
    requires DrawnBefore(r, i, k) && !Live(r.states[i], k)
    ensures !Live(r.states[j], k)
  {
    if i < j {
      GoneForever(r, i, j - 1, k);
      NotDrawnAgain(r, j - 1, k);
      assert TakesStep(r, j - 1);
      LiveOrDrawn(r.states[j - 1], r.events[j - 1], k);
    }
  }

  /** A lapse takes away exactly the entry it names. */
  lemma LapseDropsOne(s: State, k: Key)
    ensures Next(s, DoLapse(k)) ==
            match k.kind
            case LoginKind => s.(logins := s.logins - {k.token})
            case CodeKind => s.(codes := s.codes - {k.token})
            case RefreshKind => s.(refreshTokens := s.refreshTokens - {k.token})
            case DeviceKind => s.(devices := s.devices - {k.token})
            case UserCodeKind => s.(userCodes := s.userCodes - {k.token})
            case ChallengeKind => s.(challenges := s.challenges - {k.token})
            case SessionKind => s.(sessions := s.sessions - {k.token})
  {
  }

  /** Others change the database and no store; a token exchange changes nothing. */
  lemma OthersKeepStores(s: State, db: Db)
    ensures Next(s, DoChangeDatabase(db)) == s.(db := db) && Next(s, DoTokenExchange) == s
  {
  }

  // ---------- single use ----------

  /** The one-time credential that an event redeems, if it succeeds in doing so. */
  function Redeems(s: State, e: Event): Option<Key> {
    match e
    case DoCodeGrant(q, _) => if CodeGrantAccepted(s, q) then Some(Key(CodeKind, q.token)) else None
    case DoRefreshGrant(q, _) => if RefreshGrantAccepted(s, q) then Some(Key(RefreshKind, q.token)) else None
    case DoDeviceGrant(q, _) => if DeviceGrantAccepted(s, q) then Some(Key(DeviceKind, q.token)) else None
    case DoFinishLogin(login, _, _) => if SessionBegins(s, login) then Some(Key(LoginKind, login)) else None
    case _ => None
  }

  lemma RedeemedIsConsumed(s: State, e: Event, k: Key)
    requires Redeems(s, e) == Some(k)
    ensures Live(s, k)
    ensures k !in Draws(e) ==> !Live(Next(s, e), k)
  {
  }

  /** What was redeemed is in no later state of the run. */
  lemma RedeemedIsGone(r: Run, i: nat, j: nat, k: Key)
    requires Valid(r) && i < j <= |r.events|
    requires Redeems(r.states[i], r.events[i]) == Some(k)
    ensures !Live(r.states[j], k)
  {
    RedeemedIsConsumed(r.states[i], r.events[i], k);
    LiveWasDrawn(r, i, k);
    NotDrawnAgain(r, i, k);
    assert TakesStep(r, i);
    GoneForever(r, i + 1, j, k);
  }

  /** In every run a code, refresh token, device code or login is redeemed by at most one request. */
  lemma RedeemedAtMostOnce(r: Run, i: nat, j: nat, k: Key)
    requires Valid(r) && i < j < |r.events|
    requires Redeems(r.states[i], r.events[i]) == Some(k)
    ensures Redeems(r.states[j], r.events[j]) != Some(k)
  {
    RedeemedIsGone(r, i, j, k);
    if Redeems(r.states[j], r.events[j]) == Some(k) {
      RedeemedIsConsumed(r.states[j], r.events[j], k);
    }
  }

  predicate TokenRequested(e: Event) {
    e.DoCodeGrant? || e.DoRefreshGrant? || e.DoDeviceGrant? || e.DoTokenExchange?
  }

  /** A failed token request stores nothing and changes no entry; at most it uses up what it presented. */
  lemma FailedTokenRequest(s: State, e: Event, k: Key)
    requires TokenRequested(e) && Redeems(s, e) == None
    ensures Live(Next(s, e), k) ==> Live(s, k)
    ensures Live(s, k) && !Live(Next(s, e), k)
            ==> (e.DoRefreshGrant? && k == Key(RefreshKind, e.request.token))
                || (e.DoDeviceGrant? && k == Key(DeviceKind, e.request.token))
    ensures forall t :: t in Next(s, e).refreshTokens ==>
              t in s.refreshTokens && Next(s, e).refreshTokens[t] == s.refreshTokens[t]
    ensures Next(s, e).sessions == s.sessions && Next(s, e).db == s.db
  {
  }
}
