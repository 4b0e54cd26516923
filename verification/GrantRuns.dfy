/** Where authorization codes, sessions and refresh tokens come from, over whole runs. */
module GrantRuns {
  import opened Wrappers
  import opened Accounts
  import opened Protocol
  import opened Runs

  // ---------- codes and sessions ----------

  predicate IssuesCode(s: State, e: Event, code: Token, info: CodeInfo) {
    e.DoAuthorize? && e.token == code && CodeBegins(s, e.authorize) && info == IssuedCode(s, e.authorize)
  }

  lemma CodeStep(s: State, e: Event, code: Token)
    requires code in Next(s, e).codes
    ensures (code in s.codes && s.codes[code] == Next(s, e).codes[code])
            || IssuesCode(s, e, code, Next(s, e).codes[code])
  {
  }

  lemma {:induction false} CodeWasIssued(r: Run, n: nat, code: Token) returns (i: nat)
    requires Valid(r) && n <= |r.events| && code in r.states[n].codes
    ensures i < n && IssuesCode(r.states[i], r.events[i], code, r.states[n].codes[code])
  {
    if n == 0 {
      assert false;
    } else {
      assert TakesStep(r, n - 1);
      CodeStep(r.states[n - 1], r.events[n - 1], code);
      i := n - 1;
      if !IssuesCode(r.states[i], r.events[i], code, r.states[n].codes[code]) {
        i := CodeWasIssued(r, n - 1, code);
      }
    }
  }

  /** FinishLogin of a login at step Finish, for this user on this server, creating this session. */
  predicate BeginsSession(s: State, e: Event, id: Token, session: Session) {
    && e.DoFinishLogin? && e.token == id
    && SessionBegins(s, e.login)
    && session == Session(s.logins[e.login].server, s.logins[e.login].userId, HashOf(e.secret))
  }

  lemma SessionStep(s: State, e: Event, id: Token)
    requires id in Next(s, e).sessions
    ensures (id in s.sessions && s.sessions[id] == Next(s, e).sessions[id])
            || BeginsSession(s, e, id, Next(s, e).sessions[id])
  {
  }

  lemma {:induction false} SessionWasBegun(r: Run, n: nat, id: Token) returns (i: nat)
    requires Valid(r) && n <= |r.events| && id in r.states[n].sessions
    ensures i < n && BeginsSession(r.states[i], r.events[i], id, r.states[n].sessions[id])
  {
    if n == 0 {
      assert false;
    } else {
      assert TakesStep(r, n - 1);
      SessionStep(r.states[n - 1], r.events[n - 1], id);
      i := n - 1;
      if !BeginsSession(r.states[i], r.events[i], id, r.states[n].sessions[id]) {
        i := SessionWasBegun(r, n - 1, id);
      }
    }
  }

  /** The authorize request a grant answers: everything RFC 6749 section 4.1.3 and RFC 7636 tie together. */
  predicate AuthorizedFor(s: State, a: AuthorizeRequest, info: CodeInfo, q: TokenRequest) {
    && (a.server, a.client) in s.db.applications
    && var app := s.db.applications[(a.server, a.client)];
       && a.server == info.server && app.id == info.applicationId
       && q.redirectUri == a.redirectUri && a.redirectUri in app.redirectUris
       && a.scopes == info.scopes && "openid" in a.scopes && a.nonce == info.nonce
       && a.challengeMethod == "S256" && a.challenge == S256Of(q.verifier) && 43 <= |q.verifier| <= 128
  }

  /** The redeeming client is, by the application rows at both moments, the one that asked for the code. */
  predicate SameClient(s: State, a: AuthorizeRequest, t: State, q: TokenRequest) {
    && (a.server, a.client) in s.db.applications && (a.server, q.client) in t.db.applications
    && t.db.applications[(a.server, q.client)].id == s.db.applications[(a.server, a.client)].id
  }

  /** The cookie of an authorize request is the one that this FinishLogin handed out. */
  predicate LoggedInBy(s: State, e: Event, a: AuthorizeRequest, user: Uuid) {
    && e.DoFinishLogin? && SessionBegins(s, e.login)
    && s.logins[e.login].server == a.server && s.logins[e.login].userId == user
    && a.cookie == Some((e.token, e.secret))
  }

  /** Every accepted code grant answers an earlier authorize request of a user who had finished logging in. */
  lemma CodeGrantTraceback(r: Run, j: nat) returns (i: nat, k: nat)
    requires Valid(r) && j < |r.events|
    requires r.events[j].DoCodeGrant? && CodeGrantAccepted(r.states[j], r.events[j].request)
    ensures k < i < j
    ensures r.events[i].DoAuthorize? && r.events[i].token == r.events[j].request.token
    ensures var q := r.events[j].request; var info := r.states[j].codes[q.token];
            && AuthorizedFor(r.states[i], r.events[i].authorize, info, q)
            && SameClient(r.states[i], r.events[i].authorize, r.states[j], q)
            && LoggedInBy(r.states[k], r.events[k], r.events[i].authorize, info.userId)
  {
    var q := r.events[j].request;
    i := CodeWasIssued(r, j, q.token);
    var a := r.events[i].authorize;
    k := SessionWasBegun(r, i, a.cookie.value.0);
  }

  // ---------- refresh tokens ----------

  /** A grant that starts a chain of refresh tokens, and the record its first token carries. */
  predicate StartsChain(s: State, e: Event, info: RefreshTokenInfo) {
    || (e.DoCodeGrant? && CodeGrantAccepted(s, e.request)
        && var code := s.codes[e.request.token];
           && info.server == code.server && info.userId == code.userId && info.scopes == code.scopes
           && info.client == e.request.client)
    || (e.DoDeviceGrant? && DeviceGrantAccepted(s, e.request)
        && var device := s.devices[e.request.token];
           && info.server == device.server && Some(info.userId) == device.userId && info.scopes == device.scopes
           && info.client == e.request.client && info.client == device.client)
  }

  predicate Rotates(s: State, e: Event, token: Token) {
    e.DoRefreshGrant? && e.token == token && RefreshGrantAccepted(s, e.request)
  }

  predicate Issues(s: State, e: Event, token: Token) {
    && (e.DoCodeGrant? || e.DoRefreshGrant? || e.DoDeviceGrant?)
    && e.token == token && Redeems(s, e).Some?
  }

  lemma RefreshTokenStep(s: State, e: Event, token: Token)
    requires token in Next(s, e).refreshTokens
    ensures var info := Next(s, e).refreshTokens[token];
            if Rotates(s, e, token) then
              e.request.token in s.refreshTokens && info == s.refreshTokens[e.request.token]
            else if Issues(s, e, token) then StartsChain(s, e, info)
            else token in s.refreshTokens && info == s.refreshTokens[token]
  {
  }

  /** The event that began the chain a live refresh token belongs to, followed back through its rotations. */
  ghost function Root(r: Run, n: nat, token: Token): (i: nat)
    requires Valid(r) && n <= |r.events| && token in r.states[n].refreshTokens
    ensures i < n
    decreases n
  {
    assert n > 0;
    var s, e := r.states[n - 1], r.events[n - 1];
    assert TakesStep(r, n - 1);
    RefreshTokenStep(s, e, token);
    if Rotates(s, e, token) then Root(r, n - 1, e.request.token)
    else if Issues(s, e, token) then n - 1
    else Root(r, n - 1, token)
  }

  /** A live refresh token carries exactly what the code or device code at its root granted. */
  lemma {:induction false} RefreshTokenLineage(r: Run, n: nat, token: Token)
    requires Valid(r) && n <= |r.events| && token in r.states[n].refreshTokens
    ensures StartsChain(r.states[Root(r, n, token)], r.events[Root(r, n, token)], r.states[n].refreshTokens[token])
    decreases n
  {
    if n == 0 {
      assert false;
    } else {
      var s, e := r.states[n - 1], r.events[n - 1];
      assert TakesStep(r, n - 1);
      RefreshTokenStep(s, e, token);
      if Rotates(s, e, token) {
        RefreshTokenLineage(r, n - 1, e.request.token);
      } else if !Issues(s, e, token) {
        RefreshTokenLineage(r, n - 1, token);
      }
    }
  }

  /** The token an accepted rotation presents is gone afterwards, its successor was not there before. */
  lemma RotationReplaces(r: Run, n: nat, token: Token)
    requires Valid(r) && n < |r.events| && Rotates(r.states[n], r.events[n], token)
    ensures r.events[n].request.token !in r.states[n + 1].refreshTokens
  {
    var k := Key(RefreshKind, r.events[n].request.token);
    assert Redeems(r.states[n], r.events[n]) == Some(k);
    RedeemedIsConsumed(r.states[n], r.events[n], k);
    LiveWasDrawn(r, n, k);
    NotDrawnAgain(r, n, k);
    assert TakesStep(r, n);
  }

  /** Two live refresh tokens never share a root. */
  lemma {:induction false} RootsAreDistinct(r: Run, n: nat, t1: Token, t2: Token)
    requires Valid(r) && n <= |r.events| && t1 in r.states[n].refreshTokens && t2 in r.states[n].refreshTokens
    requires Root(r, n, t1) == Root(r, n, t2)
    ensures t1 == t2
    decreases n
  {
    if n == 0 {
      assert false;
    } else {
      var s, e := r.states[n - 1], r.events[n - 1];
      assert TakesStep(r, n - 1);
      RefreshTokenStep(s, e, t1);
      RefreshTokenStep(s, e, t2);
      RootBefore(r, n, t1);
      RootBefore(r, n, t2);
      if Rotates(s, e, t1) || Rotates(s, e, t2) {
        RotationReplaces(r, n - 1, e.token);
      }
      if t1 != t2 && !(Issues(s, e, t1) && !Rotates(s, e, t1)) && !(Issues(s, e, t2) && !Rotates(s, e, t2)) {
        RootsAreDistinct(r, n - 1, if Rotates(s, e, t1) then e.request.token else t1,
                         if Rotates(s, e, t2) then e.request.token else t2);
      }
    }
  }

  /** The root of a token that the last event did not start is older than that event. */
  lemma RootBefore(r: Run, n: nat, token: Token)
    requires Valid(r) && 0 < n <= |r.events| && token in r.states[n].refreshTokens
    ensures var s, e := r.states[n - 1], r.events[n - 1];
            if Issues(s, e, token) && !Rotates(s, e, token) then Root(r, n, token) == n - 1
            else Root(r, n, token) < n - 1
  {
    var s, e := r.states[n - 1], r.events[n - 1];
    assert TakesStep(r, n - 1);
    RefreshTokenStep(s, e, token);
  }

  /** Each code and each device code has at most one live refresh token descended from it. */
  lemma OneLiveTokenPerCode(r: Run, n: nat, t1: Token, t2: Token)
    requires Valid(r) && n <= |r.events| && t1 in r.states[n].refreshTokens && t2 in r.states[n].refreshTokens
    requires Redeems(r.states[Root(r, n, t1)], r.events[Root(r, n, t1)])
             == Redeems(r.states[Root(r, n, t2)], r.events[Root(r, n, t2)])
    ensures t1 == t2
  {
    RefreshTokenLineage(r, n, t1);
    RefreshTokenLineage(r, n, t2);
    var i, j := Root(r, n, t1), Root(r, n, t2);
    var k := Redeems(r.states[i], r.events[i]).value;
    if i < j {
      RedeemedAtMostOnce(r, i, j, k);
    } else if j < i {
      RedeemedAtMostOnce(r, j, i, k);
    }
    RootsAreDistinct(r, n, t1, t2);
  }

  // ---------- who redeems ----------

  /** A client that is not the one whose chain this is rotates nothing. */
  lemma OtherClientKeepsToken(s: State, e: Event)
    requires e.DoRefreshGrant? && e.request.token in s.refreshTokens
    requires s.refreshTokens[e.request.token].client != e.request.client
    ensures Next(s, e) == s
  {
  }

  /** Every rotation of a chain is asked for by the client that redeemed the code or device code at its root. */
  lemma ChainHasOneClient(r: Run, n: nat)
    requires Valid(r) && n < |r.events|
    requires r.events[n].DoRefreshGrant? && RefreshGrantAccepted(r.states[n], r.events[n].request)
    ensures r.events[n].request.token in r.states[n].refreshTokens
    ensures var root := r.events[Root(r, n, r.events[n].request.token)];
            && (root.DoCodeGrant? || root.DoDeviceGrant?)
            && r.events[n].request.client == root.request.client
  {
    RefreshTokenLineage(r, n, r.events[n].request.token);
  }

  /** By its stored row the client exists, and shows its secret if it is confidential and none if it is public. */
  predicate ClientShows(db: Db, server: ServerName, client: string, secret: string) {
    && (server, client) in db.applications
    && var row := db.applications[(server, client)];
       && (row.kind == Confidential ==> secret != "" && row.hashedSecret == HashOf(secret))
       && (row.kind == Public ==> secret == "")
       && row.kind != OtherType
  }

  /** The server a token request is for: that of the code, refresh token or device code it presents. */
  function PresentedServer(s: State, e: Event): Option<ServerName> {
    match e
    case DoCodeGrant(q, _) => if q.token in s.codes then Some(s.codes[q.token].server) else None
    case DoRefreshGrant(q, _) => if q.token in s.refreshTokens then Some(s.refreshTokens[q.token].server) else None
    case DoDeviceGrant(q, _) => if q.token in s.devices then Some(s.devices[q.token].server) else None
    case _ => None
  }

  /** Whoever redeems or uses up anything, or begins a device flow, has shown what its stored row asks for. */
  lemma RedeemersAuthenticate(r: Run, n: nat)
    requires Valid(r) && n < |r.events|
    ensures TokenRequested(r.events[n]) && Next(r.states[n], r.events[n]) != r.states[n] ==>
              && PresentedServer(r.states[n], r.events[n]).Some?
              && ClientShows(r.states[n].db, PresentedServer(r.states[n], r.events[n]).value,
                             r.events[n].request.client, r.events[n].request.secret)
    ensures TokenRequested(r.events[n]) && Redeems(r.states[n], r.events[n]).Some? ==>
              && PresentedServer(r.states[n], r.events[n]).Some?
              && ClientShows(r.states[n].db, PresentedServer(r.states[n], r.events[n]).value,
                             r.events[n].request.client, r.events[n].request.secret)
    ensures r.events[n].DoBeginDeviceFlow? && Next(r.states[n], r.events[n]) != r.states[n] ==>
              var q := r.events[n].device;
              && ClientShows(r.states[n].db, q.server, q.client, q.secret)
              && r.states[n].db.applications[(q.server, q.client)].deviceFlowEnabled
  {
  }
}
