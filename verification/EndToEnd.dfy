/** From a live refresh token back to the login that earned it. */
module EndToEnd {
  import opened Accounts
  import opened Protocol
  import opened Runs
  import opened GrantRuns
  import opened LoginRuns
  import opened DeviceRuns

  // ---------- what a finished login has proved ----------

  /** A milestone was reached at event i by a user who was on this server at that moment. */
  predicate ReachedAt(r: Run, i: nat, login: Token, m: Milestone, server: ServerName)
    requires i < |r.events| <= |r.states|
  {
    && Advances(r.states[i], r.events[i], login)
    && MilestoneOf(r.states[i], r.events[i]) == m
    && UserOn(r.states[i].db, m.user, server)
  }

  /** Milestone x of the story so far was reached by a user of this server. */
  ghost predicate OnServer(r: Run, n: nat, login: Token, x: nat, server: ServerName)
    requires Valid(r) && n <= |r.events| && x < |Story(r, n, login)|
  {
    exists i: nat :: i < n && ReachedAt(r, i, login, Story(r, n, login)[x], server)
  }

  /** Every milestone in the story of a stored login was reached by a user of that login's own server. */
  lemma {:induction false} MilestonesAreOnServer(r: Run, n: nat, login: Token, x: nat)
    requires Valid(r) && n <= |r.events| && login in r.states[n].logins && x < |Story(r, n, login)|
    ensures OnServer(r, n, login, x, r.states[n].logins[login].server)
  {
    var s, e := r.states[n - 1], r.events[n - 1];
    assert TakesStep(r, n - 1);
    if x == |Story(r, n - 1, login)| {
      MilestoneProves(s, e, login);
      LoginAdvanced(s, e, login);
      assert ReachedAt(r, n - 1, login, Story(r, n, login)[x], r.states[n].logins[login].server);
    } else {
      StoryNeedsLogin(r, n - 1, login);
      MilestonesAreOnServer(r, n - 1, login, x);
      var i: nat :| i < n - 1 && ReachedAt(r, i, login, Story(r, n - 1, login)[x], s.logins[login].server);
      assert ReachedAt(r, i, login, Story(r, n, login)[x], r.states[n].logins[login].server);
    }
  }

  /** A login with a story that is stored after the next event is stored before it, on the same server. */
  lemma StoryNeedsLogin(r: Run, n: nat, login: Token)
    requires Valid(r) && n < |r.events| && login in r.states[n + 1].logins && Story(r, n, login) != []
    ensures login in r.states[n].logins && r.states[n].logins[login].server == r.states[n + 1].logins[login].server
  {
    assert TakesStep(r, n);
    LoginStepKeeps(r.states[n], r.events[n], login);
    LiveOrDrawn(r.states[n], r.events[n], Key(LoginKind, login));
    if Key(LoginKind, login) in Draws(r.events[n]) {
      NoStoryBeforeDrawn(r, n, n, login);
    }
  }

  /** FinishLogin of this user, who had by then passed every gate or shown a passkey, as a user of this server. */
  ghost predicate FinishesLogin(r: Run, k: nat, user: Uuid, server: ServerName)
    requires Valid(r) && k < |r.events|
  {
    && r.events[k].DoFinishLogin?
    && var login := r.events[k].login;
       && SessionBegins(r.states[k], login)
       && r.states[k].logins[login].userId == user && r.states[k].logins[login].server == server
       && LoginComplete(Story(r, k, login), user)
       && forall x: nat :: x < |Story(r, k, login)| ==> OnServer(r, k, login, x, server)
  }

  lemma SessionIsEarned(r: Run, k: nat)
    requires Valid(r) && k < |r.events|
    requires r.events[k].DoFinishLogin? && SessionBegins(r.states[k], r.events[k].login)
    ensures var info := r.states[k].logins[r.events[k].login]; FinishesLogin(r, k, info.userId, info.server)
  {
    var login := r.events[k].login;
    FinishMeansComplete(r, k, login);
    forall x: nat | x < |Story(r, k, login)|
      ensures OnServer(r, k, login, x, r.states[k].logins[login].server)
    {
      MilestonesAreOnServer(r, k, login, x);
    }
  }

  // ---------- the two kinds of chain ----------

  /** A code chain: i is the authorize request the root grant answers, k the login whose cookie that request showed. */
  ghost predicate EarnedByCode(r: Run, root: nat, i: nat, k: nat)
    requires Valid(r) && k < i < root < |r.events|
  {
    && r.events[root].DoCodeGrant? && r.events[root].request.token in r.states[root].codes
    && r.events[i].DoAuthorize? && r.events[i].token == r.events[root].request.token
    && var q := r.events[root].request; var info := r.states[root].codes[q.token];
       && AuthorizedFor(r.states[i], r.events[i].authorize, info, q)
       && LoggedInBy(r.states[k], r.events[k], r.events[i].authorize, info.userId)
       && FinishesLogin(r, k, info.userId, info.server)
  }

  /** A device chain: k is the login that authorized the root's device code, begun at a by posting its user code. */
  ghost predicate EarnedByDevice(r: Run, root: nat, a: nat, k: nat)
    requires Valid(r) && a < k < root < |r.events|
  {
    && r.events[root].DoDeviceGrant? && r.events[root].request.token in r.states[root].devices
    && r.events[a].DoActivate? && ActivatedAt(r, a, k)
    && var q := r.events[root].request; var d := r.states[root].devices[q.token];
       && Authorizes(r.states[k], r.events[k], q.token)
       && d.userId.Some? && FinishesLogin(r, k, d.userId.value, r.events[a].server)
       && (r.events[a].server == d.server <==> ActivatesOwnServer(r.states[a], r.events[a]))
  }

  /** The login finished at k was begun at a by posting a live user code of the device code it authorizes. */
  predicate ActivatedAt(r: Run, a: nat, k: nat)
    requires a < k < |r.events| && |r.states| == |r.events| + 1
  {
    && r.events[k].DoFinishLogin? && r.events[k].login in r.states[k].logins
    && r.events[a].DoActivate? && r.events[a].token == r.events[k].login
    && ActivateAccepted(r.states[a], r.events[a].server, r.events[a].userCode)
    && r.states[k].logins[r.events[k].login].server == r.events[a].server
    && r.states[k].logins[r.events[k].login].deviceCode == r.states[a].userCodes[r.events[a].userCode]
  }

  /** The user code is posted on the activation page of the server its device code was requested from. */
  predicate ActivatesOwnServer(s: State, e: Event) {
    && e.DoActivate? && e.userCode in s.userCodes && s.userCodes[e.userCode] in s.devices
    && e.server == s.devices[s.userCodes[e.userCode]].server
  }

  /** The user of an accepted device grant logged in on the device code's server exactly when it was activated there. */
  lemma DeviceGrantIsEarned(r: Run, j: nat) returns (a: nat, k: nat)
    requires Valid(r) && j < |r.events|
    requires r.events[j].DoDeviceGrant? && DeviceGrantAccepted(r.states[j], r.events[j].request)
    ensures a < k < j && EarnedByDevice(r, j, a, k)
  {
    var device := r.events[j].request.token;
    var i;
    i, k := DeviceGrantTraceback(r, j);
    a := LoginOrigin(r, k, r.events[k].login);
    SessionIsEarned(r, k);
    var b := DeviceCodeOrigin(r, a, device);
    if b < i {
      NotDrawnAgain(r, i, Key(DeviceKind, device));
    } else if i < b {
      NotDrawnAgain(r, b, Key(DeviceKind, device));
    }
  }

  lemma CodeGrantIsEarned(r: Run, j: nat) returns (i: nat, k: nat)
    requires Valid(r) && j < |r.events|
    requires r.events[j].DoCodeGrant? && CodeGrantAccepted(r.states[j], r.events[j].request)
    ensures k < i < j && EarnedByCode(r, j, i, k)
  {
    i, k := CodeGrantTraceback(r, j);
    SessionIsEarned(r, k);
  }

  /**
   However often it was rotated, a live refresh token names a user who completed a login before the chain began: the
   login that gave the cookie of the authorize request its code was issued on, on the token's own server; or the login
   that authorized its device code, on the server whose activation page took the user code.
   */
  lemma LiveRefreshTokenIsEarned(r: Run, n: nat, token: Token) returns (root: nat, i: nat, k: nat)
    requires Valid(r) && n <= |r.events| && token in r.states[n].refreshTokens
    ensures root == Root(r, n, token) && i < root < n && k < root
    ensures var info := r.states[n].refreshTokens[token];
            && StartsChain(r.states[root], r.events[root], info)
            && "openid" in info.scopes
            && (if r.events[root].DoCodeGrant? then
                  k < i && EarnedByCode(r, root, i, k) && FinishesLogin(r, k, info.userId, info.server)
                else
                  i < k && EarnedByDevice(r, root, i, k) && FinishesLogin(r, k, info.userId, r.events[i].server)
                  && (r.events[i].server == info.server <==> ActivatesOwnServer(r.states[i], r.events[i])))
  {
    root := Root(r, n, token);
    RefreshTokenLineage(r, n, token);
    if r.events[root].DoCodeGrant? {
      i, k := CodeGrantIsEarned(r, root);
    } else {
      i, k := DeviceGrantIsEarned(r, root);
      var _ := DeviceCodeOrigin(r, root, r.events[root].request.token);
    }
  }

  /**
   What a live refresh token grants is what was asked for at the very beginning: the server and scopes of the authorize
   or device request at i, and a client that is, by its application row, the one that asked.
   */
  lemma RefreshTokenGrantsWhatWasAsked(r: Run, n: nat, token: Token) returns (root: nat, i: nat)
    requires Valid(r) && n <= |r.events| && token in r.states[n].refreshTokens
    ensures root == Root(r, n, token) && i < root < n
    ensures var info, e := r.states[n].refreshTokens[token], r.events[i];
            if r.events[root].DoCodeGrant? then
              && e.DoAuthorize? && e.token == r.events[root].request.token
              && info.server == e.authorize.server && info.scopes == e.authorize.scopes
              && info.client == r.events[root].request.client
              && SameClient(r.states[i], e.authorize, r.states[root], r.events[root].request)
            else
              && r.events[root].DoDeviceGrant? && e.DoBeginDeviceFlow? && e.token == r.events[root].request.token
              && info.server == e.device.server && info.scopes == e.device.scopes
              && info.client == e.device.client && info.client == r.events[root].request.client
  {
    root := Root(r, n, token);
    RefreshTokenLineage(r, n, token);
    if r.events[root].DoCodeGrant? {
      var k;
      i, k := CodeGrantTraceback(r, root);
    } else {
      i := DeviceCodeOrigin(r, root, r.events[root].request.token);
    }
  }
}
