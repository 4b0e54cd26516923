/** A device code of one server, activated on the page of another: a run in which the grant goes to a stranger. */
module CrossServer {
  import opened Wrappers
  import opened Accounts
  import opened Protocol
  import opened Runs

  const USER := Id(1)

  /** Two servers with a public client of the same name each, and one user, on server B. */
  const TWO_SERVERS: Db :=
    Db(map["A" := VirtualServer(false, false), "B" := VirtualServer(false, false)],
       map[("A", "tv") := Application(Id(2), Public, NoHash, [], true),
           ("B", "tv") := Application(Id(3), Public, NoHash, [], true)],
       map[USER := User("B", true)],
       map[("B", "u") := USER],
       map[USER := PasswordDetails(HashOf("p"), false)],
       map[],
       map[])

  const BEGIN := DoBeginDeviceFlow(DeviceRequest("A", "tv", "", ["openid"]), "dc", "uc")
  const ACTIVATE := DoActivate("B", "uc", "lt")
  const PASSWORD := DoVerifyPassword("lt", "u", "p", "x")
  const FINISH := DoFinishLogin("lt", "sid", "s")
  const GRANT := DoDeviceGrant(TokenRequest("dc", "tv", "", "", "", true), "rt")

  const PENDING := DeviceCodeInfo("A", "tv", ["openid"], Pending, None, "uc")
  const LOGIN := LoginInfo(PasswordVerification, "B", Nil, "", "dc", 0)

  const S0 := State(map[], map[], map[], map[], map[], map[], map[], TWO_SERVERS)
  const S1 := S0.(devices := map["dc" := PENDING], userCodes := map["uc" := "dc"])
  const S2 := S1.(logins := map["lt" := LOGIN])
  const S3 := S1.(logins := map["lt" := LOGIN.(step := Finish, userId := USER)])
  const S4 := S0.(devices := map["dc" := PENDING.(status := Authorized, userId := Some(USER))],
                  sessions := map["sid" := Session("B", USER, HashOf("s"))])
  const S5 := S4.(devices := map[], refreshTokens := map["rt" := RefreshTokenInfo("A", USER, ["openid"], "tv")])

  lemma Begun()
    ensures Next(S0, BEGIN) == S1
  {
    assert "openid" in BEGIN.device.scopes;
    assert DeviceFlowAccepted(S0, BEGIN.device);
    assert DevicesAfter(S0, BEGIN) == S1.devices;
  }

  lemma Activated()
    ensures Next(S1, ACTIVATE) == S2
  {
    assert ActivateAccepted(S1, "B", "uc");
    assert LoginsAfter(S1, ACTIVATE) == S2.logins;
  }

  lemma PasswordShown()
    ensures Next(S2, PASSWORD) == S3
  {
    assert RightPassword(S2, "lt", "u", "p");
    assert DetermineNextLoginStep(MutatedLogin(S2, PASSWORD).value, S2.db) == Some(Finish);
    assert LoginsAfter(S2, PASSWORD) == S3.logins;
  }

  lemma Finished()
    ensures Next(S3, FINISH) == S4
  {
    assert DeviceAuthorized(S3, "lt");
    assert LoginsAfter(S3, FINISH) == S4.logins && UserCodesAfter(S3, FINISH) == S4.userCodes;
    assert DevicesAfter(S3, FINISH) == S4.devices && SessionsAfter(S3, FINISH) == S4.sessions;
  }

  lemma Granted()
    ensures Next(S4, GRANT) == S5 && DeviceGrantAccepted(S4, GRANT.request)
  {
    assert DeviceGrantAccepted(S4, GRANT.request);
    assert DevicesAfter(S4, GRANT) == S5.devices && RefreshTokensAfter(S4, GRANT) == S5.refreshTokens;
  }

  const STATES := [S0, S1, S2, S3, S4, S5]
  const EVENTS := [BEGIN, ACTIVATE, PASSWORD, FINISH, GRANT]

  lemma NeverRedraws(i: nat, j: nat)
    requires i < j < |EVENTS|
    ensures Draws(EVENTS[i]) !! Draws(EVENTS[j])
  {
    assert Draws(BEGIN) == {Key(DeviceKind, "dc"), Key(UserCodeKind, "uc")};
    assert Draws(ACTIVATE) == {Key(LoginKind, "lt")} && Draws(PASSWORD) == {};
    assert Draws(FINISH) == {Key(SessionKind, "sid")} && Draws(GRANT) == {Key(RefreshKind, "rt")};
  }

  lemma EachStep(i: nat)
    requires i < |EVENTS|
    ensures STATES[i + 1] == Next(STATES[i], EVENTS[i]) && WellDrawn(EVENTS[i])
  {
    match i
    case 0 => Begun();
    case 1 => Activated();
    case 2 => PasswordShown();
    case 3 => Finished();
    case _ => Granted();
  }

  lemma IsRun(r: Run)
    requires r.states == STATES && r.events == EVENTS
    ensures Valid(r)
  {
    forall i: nat | i < |r.events| ensures TakesStep(r, i) && WellDrawn(r.events[i]) {
      EachStep(i);
    }
    forall i: nat, j: nat | i < j < |r.events| ensures !Redraws(r, i, j) {
      NeverRedraws(i, j);
    }
    assert r.states[0] == S0 && NothingStored(S0);
  }

  /** The grant of a device code of server A hands out a token of A for a user of B, where A has no user at all. */
  lemma GrantCrossesServers()
    ensures Valid(Run(STATES, EVENTS))
    ensures DeviceGrantAccepted(S4, GRANT.request) && GRANT.token in S5.refreshTokens
    ensures var info := S5.refreshTokens[GRANT.token]; info.server == "A" && UserOn(S5.db, info.userId, "B")
    ensures forall user :: user in S5.db.users ==> !UserOn(S5.db, user, "A")
  {
    IsRun(Run(STATES, EVENTS));
    Granted();
  }
}
