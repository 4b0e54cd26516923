/**
 The HTTP handlers, step by step over the token store and the database, each shown to make exactly
 the transition that Protocol.Next gives its event, and to answer accordingly.
 */
module Handlers {
  import opened Wrappers
  import opened Accounts
  import opened Protocol

  datatype Reason =
    | Failure | NotFound | Unauthorized | BadRequest
    | InvalidGrant | InvalidClient | InvalidRequest | InvalidScope | UnauthorizedClient
    | AuthorizationPending | AccessDenied | ExpiredToken
    | InvalidRedirectUri | UnsupportedResponseType | LoginRequired

  datatype Response =
    | NoContent
    | CodeSent(redirectUri: string, code: Token, state: string)
    | LoginPage(login: Token)
    | SessionCookie(id: Token, secret: string)
    | Tokens(refreshToken: Token, scopes: seq<string>)
    | DeviceCodes(device: Token, userCode: Token)
    | Refused(reason: Reason)

  /** verifyPKCE: whether there is no objection to a verifier. */
  function VerifyPkce(verifier: string, challenge: Challenge, challengeMethod: string): (ok: bool)
    ensures ok <==> VerifierMatches(verifier, challenge, challengeMethod)
    ensures ok <==> 43 <= |verifier| <= 128 && challengeMethod == "S256" && challenge == S256Of(verifier)
  {
    if verifier == "" then false
    else if |verifier| < 43 || |verifier| > 128 then false
    else if challengeMethod == "S256" then challenge == S256Of(verifier)
    else false
  }

  /** The request parameter: a JWT whose claims replace form values, if it can be read. */
  datatype RequestObject =
    | NoObject
    | Unreadable
    | Claims(client: Option<string>, redirectUri: Option<string>, responseTypes: Option<seq<string>>,
             scopes: Option<seq<string>>, state: Option<string>, nonce: Option<string>, responseMode: Option<string>)

  function Or<T>(claim: Option<T>, formValue: T): T {
    if claim.Some? then claim.value else formValue
  }

  /** Claims win over the form. The challenge, prompt and cookie always come with the form. */
  function Requested(form: AuthorizeRequest, param: RequestObject): (q: AuthorizeRequest)
    ensures !param.Claims? ==> q == form
    ensures param.Claims? && param.client.Some? ==> q.client == param.client.value
    ensures param.Claims? && param.redirectUri.Some? ==> q.redirectUri == param.redirectUri.value
    ensures param.Claims? && param.responseTypes.Some? ==> q.responseTypes == param.responseTypes.value
    ensures param.Claims? && param.scopes.Some? ==> q.scopes == param.scopes.value
    ensures param.Claims? && param.state.Some? ==> q.state == param.state.value
    ensures param.Claims? && param.nonce.Some? ==> q.nonce == param.nonce.value
    ensures param.Claims? && param.responseMode.Some? ==> q.responseMode == param.responseMode.value
    ensures param.Claims? && param.client.None? ==> q.client == form.client
    ensures param.Claims? && param.redirectUri.None? ==> q.redirectUri == form.redirectUri
    ensures param.Claims? && param.responseTypes.None? ==> q.responseTypes == form.responseTypes
    ensures param.Claims? && param.scopes.None? ==> q.scopes == form.scopes
    ensures param.Claims? && param.state.None? ==> q.state == form.state
    ensures param.Claims? && param.nonce.None? ==> q.nonce == form.nonce
    ensures param.Claims? && param.responseMode.None? ==> q.responseMode == form.responseMode
    ensures q.server == form.server && q.cookie == form.cookie && q.promptNone == form.promptNone
    ensures q.challenge == form.challenge && q.challengeMethod == form.challengeMethod
  {
    match param
    case Claims(client, redirectUri, responseTypes, scopes, state, nonce, responseMode) =>
      form.(client := Or(client, form.client), redirectUri := Or(redirectUri, form.redirectUri),
            responseTypes := Or(responseTypes, form.responseTypes), scopes := Or(scopes, form.scopes),
            state := Or(state, form.state), nonce := Or(nonce, form.nonce),
            responseMode := Or(responseMode, form.responseMode))
    case _ => form
  }

  method ReadRequest(form: AuthorizeRequest, param: RequestObject) returns (r: Option<AuthorizeRequest>)
    ensures r == if param.Unreadable? then None else Some(Requested(form, param))
  {
    var q := form;
    match param {
      case NoObject =>
      case Unreadable => return None;
      case Claims(client, redirectUri, responseTypes, scopes, state, nonce, responseMode) =>
        q := q.(responseTypes := if responseTypes.Some? then responseTypes.value else q.responseTypes);
        q := q.(client := if client.Some? then client.value else q.client);
        q := q.(redirectUri := if redirectUri.Some? then redirectUri.value else q.redirectUri);
        q := q.(scopes := if scopes.Some? then scopes.value else q.scopes);
        q := q.(state := if state.Some? then state.value else q.state);
        q := q.(nonce := if nonce.Some? then nonce.value else q.nonce);
        q := q.(responseMode := if responseMode.Some? then responseMode.value else q.responseMode);
    }
    return Some(q);
  }

  /** The login is stored at its decided step, with a new secret when that is onboarding; or nothing is stored. */
  predicate Moved(db: Db, login: Token, info: LoginInfo, newSecret: string,
                  before: map<Token, LoginInfo>, after: map<Token, LoginInfo>, r: Response) {
    match DetermineNextLoginStep(info, db)
    case Some(step) =>
      && r == NoContent
      && after == before[login := info.(step := step,
                                        totpSecret := if step == OnboardTotp then newSecret else info.totpSecret)]
    case None => r == Refused(Failure) && after == before
  }

  class Server {
    var logins: map<Token, LoginInfo>
    var codes: map<Token, CodeInfo>
    var refreshTokens: map<Token, RefreshTokenInfo>
    var devices: map<Token, DeviceCodeInfo>
    var userCodes: map<Token, Token>
    var challenges: map<Token, Token>
    var sessions: map<Token, Session>
    var db: Db

    ghost function Store(): State
      reads this
    {
      State(logins, codes, refreshTokens, devices, userCodes, challenges, sessions, db)
    }

    constructor (db: Db)
      ensures Store() == State(map[], map[], map[], map[], map[], map[], map[], db)
    {
      logins, codes, refreshTokens, devices := map[], map[], map[], map[];
      userCodes, challenges, sessions := map[], map[], map[];
      this.db := db;
    }

    // ---------- login ----------

    method VerifyPasswordCredential(server: ServerName, username: string, password: string)
      returns (user: Option<Uuid>)
      ensures user == PasswordOwner(db, server, username, password)
      ensures user.Some? <==>
              && (server, username) in db.usernames && db.usernames[(server, username)] in db.passwords
              && db.passwords[db.usernames[(server, username)]].hashedPassword == HashOf(password)
      ensures user.Some? ==> user.value == db.usernames[(server, username)]
    {
      if (server, username) !in db.usernames {
        return None;
      }
      var id := db.usernames[(server, username)];
      if id !in db.passwords {
        return None;
      }
      if db.passwords[id].hashedPassword != HashOf(password) {
        return None;
      }
      return Some(id);
    }

    /** DetermineNextLoginStep; each step of the switch falls through to the next when its gate is open. */
    method NextStep(info: LoginInfo) returns (next: Option<LoginStep>)
      ensures next == DetermineNextLoginStep(info, db)
      ensures next.Some? <==>
              info.step == Passkey
              || (info.step != Finish && info.server in db.servers && info.userId in db.users
                  && db.users[info.userId].server == info.server && info.userId in db.passwords)
      ensures next.Some? && info.step != Passkey ==>
                var temporary := info.step == PasswordVerification && db.passwords[info.userId].temporary;
                var emailPending := info.step in {PasswordVerification, TemporaryPassword}
                                    && !db.users[info.userId].emailVerified
                                    && db.servers[info.server].requireEmailVerification;
                var hasTotp := info.userId in db.totps && db.totps[info.userId] != [];
                var secondFactor := info.step in {PasswordVerification, TemporaryPassword, EmailVerification};
                && (next == Some(TemporaryPassword) <==> temporary)
                && (next == Some(EmailVerification) <==> !temporary && emailPending)
                && (next == Some(VerifyTotp) <==> !temporary && !emailPending && secondFactor && hasTotp)
                && (next == Some(OnboardTotp) <==>
                      !temporary && !emailPending && secondFactor && !hasTotp && db.servers[info.server].require2fa)
                && next.value !in {PasswordVerification, Passkey}
      ensures info.step == Passkey ==> next == Some(Finish)
    {
      if info.step == Passkey {
        return Some(Finish);
      }
      if info.server !in db.servers {
        return None;
      }
      if info.userId !in db.users || db.users[info.userId].server != info.server {
        return None;
      }
      if info.userId !in db.passwords {
        return None;
      }
      if info.step == PasswordVerification && db.passwords[info.userId].temporary {
        return Some(TemporaryPassword);
      }
      if info.step == PasswordVerification || info.step == TemporaryPassword {
        if !db.users[info.userId].emailVerified && db.servers[info.server].requireEmailVerification {
          return Some(EmailVerification);
        }
      }
      match info.step {
        case OnboardTotp => return Some(Finish);
        case VerifyTotp => return Some(Finish);
        case Finish => return None;
        case _ =>
      }
      if |TotpSecrets(db, info.userId)| > 0 {
        return Some(VerifyTotp);
      }
      if db.servers[info.server].require2fa {
        return Some(OnboardTotp);
      }
      return Some(Finish);
    }

    /** The tail of updateLoginStep, after the mutate closure: decide the next step and store the login. */
    method StoreNextStep(login: Token, mutated: LoginInfo, newSecret: string) returns (r: Response)
      modifies this`logins
      ensures match DetermineNextLoginStep(mutated, db)
              case Some(step) => r == NoContent && logins == old(logins)[login := WithStep(mutated, step, newSecret)]
              case None => r == Refused(Failure) && logins == old(logins)
      ensures DetermineNextLoginStep(mutated, db).Some? ==>
                var step := DetermineNextLoginStep(mutated, db).value;
                logins == old(logins)[login := mutated.(step := step,
                                                        totpSecret := if step == OnboardTotp then newSecret
                                                                      else mutated.totpSecret)]
    {
      var info := mutated;
      var next := NextStep(info);
      if next.None? {
        return Refused(Failure);
      }
      if next.value == OnboardTotp {
        info := info.(totpSecret := newSecret);
      }
      info := info.(step := next.value);
      logins := logins[login := info];
      return NoContent;
    }

    method VerifyPassword(login: Token, username: string, password: string, newSecret: string) returns (r: Response)
      modifies this`logins
      ensures Store() == Next(old(Store()), DoVerifyPassword(login, username, password, newSecret))
      ensures r == NoContent <==> StepsLogin(old(Store()), DoVerifyPassword(login, username, password, newSecret))
      ensures r == Refused(BadRequest) <==> username == "" || password == ""
      ensures r == Refused(NotFound) <==> username != "" && password != "" && login !in old(logins)
      ensures username != "" && password != "" && login in old(logins) ==>
                var info := old(logins)[login];
                var user := PasswordOwner(db, info.server, username, password);
                && (r == Refused(Unauthorized) <==> info.step != PasswordVerification || user.None?)
                && (if info.step != PasswordVerification then logins == old(logins)
                    else if user.None? then
                      logins == if info.failedPasswordAttempts >= 4 then old(logins) - {login}
                                else old(logins)[login :=
                                       info.(failedPasswordAttempts := info.failedPasswordAttempts + 1)]
                    else Moved(db, login, info.(userId := user.value, failedPasswordAttempts := 0), newSecret,
                               old(logins), logins, r))
      ensures r in {Refused(BadRequest), Refused(NotFound)} ==> logins == old(logins)
    {
      if username == "" || password == "" {
        return Refused(BadRequest);
      }
      if login !in logins {
        return Refused(NotFound);
      }
      var info := logins[login];
      if info.step != PasswordVerification {
        return Refused(Unauthorized);
      }
      var user := VerifyPasswordCredential(info.server, username, password);
      if user.None? {
        info := info.(failedPasswordAttempts := info.failedPasswordAttempts + 1);
        if info.failedPasswordAttempts >= MAX_FAILED_PASSWORD_ATTEMPTS {
          logins := logins - {login};
        } else {
          logins := logins[login := info];
        }
        return Refused(Unauthorized);
      }
      info := logins[login];
      info := info.(userId := user.value);
      info := info.(failedPasswordAttempts := 0);
      r := StoreNextStep(login, info, newSecret);
    }

    /** The password is queued by the closure and committed when the request ends, whatever its outcome. */
    method ResetTemporaryPassword(login: Token, newPassword: string, newSecret: string) returns (r: Response)
      modifies this`logins, this`db
      ensures Store() == Next(old(Store()), DoResetTemporaryPassword(login, newPassword, newSecret))
      ensures r == NoContent <==> StepsLogin(old(Store()), DoResetTemporaryPassword(login, newPassword, newSecret))
      ensures r == Refused(Unauthorized) <==> login in old(logins) && old(logins)[login].step != TemporaryPassword
      ensures r == Refused(BadRequest) <==>
              login in old(logins) && old(logins)[login].step == TemporaryPassword && newPassword == ""
      ensures if login in old(logins) && old(logins)[login].step == TemporaryPassword && newPassword != "" then
                var info := old(logins)[login];
                && Moved(old(db), login, info, newSecret, old(logins), logins, r)
                && db == old(db).(passwords :=
                     old(db).passwords[info.userId := PasswordDetails(HashOf(newPassword), false)])
              else logins == old(logins) && db == old(db)
    {
      if login !in logins {
        return Refused(NotFound);
      }
      var info := logins[login];
      if info.step != TemporaryPassword {
        return Refused(Unauthorized);
      }
      if newPassword == "" {
        return Refused(BadRequest);
      }
      var queued := db.(passwords := db.passwords[info.userId := PasswordDetails(HashOf(newPassword), false)]);
      r := StoreNextStep(login, info, newSecret);
      db := queued;
    }

    method VerifyEmailToken(login: Token, newSecret: string) returns (r: Response)
      modifies this`logins
      ensures Store() == Next(old(Store()), DoVerifyEmail(login, newSecret))
      ensures r == NoContent <==> StepsLogin(old(Store()), DoVerifyEmail(login, newSecret))
      ensures r == Refused(Unauthorized) <==>
              login in old(logins)
              && (old(logins)[login].step != EmailVerification
                  || (old(logins)[login].userId in db.users && !db.users[old(logins)[login].userId].emailVerified))
      ensures if login in old(logins) && old(logins)[login].step == EmailVerification
                 && old(logins)[login].userId in db.users && db.users[old(logins)[login].userId].emailVerified
              then Moved(db, login, old(logins)[login], newSecret, old(logins), logins, r)
              else r != NoContent && logins == old(logins)
    {
      if login !in logins {
        return Refused(NotFound);
      }
      var info := logins[login];
      if info.step != EmailVerification {
        return Refused(Unauthorized);
      }
      if info.userId !in db.users {
        return Refused(Failure);
      }
      if !db.users[info.userId].emailVerified {
        return Refused(Unauthorized);
      }
      r := StoreNextStep(login, info, newSecret);
    }

    method OnboardTotpHandler(login: Token, accepted: set<string>) returns (r: Response)
      modifies this`logins, this`db
      ensures Store() == Next(old(Store()), DoOnboardTotp(login, accepted))
      ensures r == NoContent <==> StepsLogin(old(Store()), DoOnboardTotp(login, accepted))
      ensures r == Refused(Unauthorized) <==> login in old(logins) && old(logins)[login].step != OnboardTotp
      ensures r == Refused(BadRequest) <==>
              login in old(logins) && old(logins)[login].step == OnboardTotp
              && old(logins)[login].totpSecret !in accepted
      ensures if login in old(logins) && old(logins)[login].step == OnboardTotp
                 && old(logins)[login].totpSecret in accepted then
                var info := old(logins)[login];
                && Moved(old(db), login, info.(totpSecret := ""), "", old(logins), logins, r)
                && db == old(db).(totps := old(db).totps[info.userId :=
                     (if info.userId in old(db).totps then old(db).totps[info.userId] else []) + [info.totpSecret]])
              else r != NoContent && logins == old(logins) && db == old(db)
    {
      if login !in logins {
        return Refused(NotFound);
      }
      var info := logins[login];
      if info.step != OnboardTotp {
        return Refused(Unauthorized);
      }
      if info.totpSecret !in accepted {
        return Refused(BadRequest);
      }
      var queued := db.(totps := db.totps[info.userId := TotpSecrets(db, info.userId) + [info.totpSecret]]);
      info := info.(totpSecret := "");
      r := StoreNextStep(login, info, "");
      db := queued;
    }

    method VerifyTotpHandler(login: Token, accepted: set<string>) returns (r: Response)
      modifies this`logins
      ensures Store() == Next(old(Store()), DoVerifyTotp(login, accepted))
      ensures r == NoContent <==> StepsLogin(old(Store()), DoVerifyTotp(login, accepted))
      ensures r == Refused(Unauthorized) <==> login in old(logins) && old(logins)[login].step != VerifyTotp
      ensures r == Refused(BadRequest) <==>
              AtStep(old(Store()), login, VerifyTotp) && !TotpAccepted(old(Store()), login, accepted)
      ensures if login in old(logins) && old(logins)[login].step == VerifyTotp
                 && old(logins)[login].userId in db.totps
                 && exists secret :: secret in db.totps[old(logins)[login].userId] && secret in accepted
              then Moved(db, login, old(logins)[login], "", old(logins), logins, r)
              else r != NoContent && logins == old(logins)
    {
      if login !in logins {
        return Refused(NotFound);
      }
      var info := logins[login];
      if info.step != VerifyTotp {
        return Refused(Unauthorized);
      }
      var secrets := TotpSecrets(db, info.userId);
      var isValid := false;
      var i := 0;
      while i < |secrets| && !isValid
        invariant 0 <= i <= |secrets|
        invariant isValid ==> exists secret :: secret in secrets && secret in accepted
        invariant !isValid ==> forall j :: 0 <= j < i ==> secrets[j] !in accepted
      {
        isValid := secrets[i] in accepted;
        assert isValid ==> secrets[i] in secrets;
        i := i + 1;
      }
      if !isValid {
        return Refused(BadRequest);
      }
      r := StoreNextStep(login, info, "");
    }

    method StartPasskeyLogin(login: Token, challengeId: Token)
      modifies this`challenges
      ensures Store() == Next(old(Store()), DoStartPasskey(login, challengeId))
      ensures challenges == old(challenges)[challengeId := login]
    {
      challenges := challenges[challengeId := login];
    }

    method FinishPasskeyLogin(login: Token, a: Assertion) returns (r: Response)
      modifies this`logins
      ensures Store() == Next(old(Store()), DoFinishPasskey(login, a))
      ensures r == NoContent <==> PasskeyAccepted(old(Store()), login, a)
      ensures if a.challengeId in challenges && challenges[a.challengeId] == login && a.valid
                 && a.rawId in db.passkeys && login in old(logins) && db.passkeys[a.rawId] in db.users
                 && db.users[db.passkeys[a.rawId]].server == old(logins)[login].server
              then r == NoContent
                   && logins == old(logins)[login :=
                        old(logins)[login].(userId := db.passkeys[a.rawId], step := Finish)]
              else r != NoContent && logins == old(logins)
    {
      if a.challengeId !in challenges || challenges[a.challengeId] != login {
        return Refused(Failure);
      }
      if a.rawId !in db.passkeys || !a.valid {
        return Refused(Unauthorized);
      }
      if login !in logins {
        return Refused(NotFound);
      }
      var info := logins[login];
      var owner := db.passkeys[a.rawId];
      if owner !in db.users || db.users[owner].server != info.server {
        return Refused(Unauthorized);
      }
      info := info.(userId := owner);
      info := info.(step := Passkey);
      r := StoreNextStep(login, info, "");
    }

    method FinishLogin(login: Token, sessionId: Token, secret: string) returns (r: Response)
      modifies this`sessions, this`logins, this`devices, this`userCodes
      ensures Store() == Next(old(Store()), DoFinishLogin(login, sessionId, secret))
      ensures if login in old(logins) && old(logins)[login].step == Finish
                 && old(logins)[login].server in db.servers then
                var info := old(logins)[login];
                && sessions == old(sessions)[sessionId := Session(info.server, info.userId, HashOf(secret))]
                && logins == old(logins) - {login}
                && (if info.deviceCode != "" && info.deviceCode in old(devices) then
                      var d := old(devices)[info.deviceCode];
                      && devices == old(devices)[info.deviceCode :=
                           d.(status := Authorized, userId := Some(info.userId))]
                      && userCodes == (if d.userCode != "" then old(userCodes) - {d.userCode} else old(userCodes))
                    else devices == old(devices) && userCodes == old(userCodes))
                && r == if info.deviceCode == "" || info.deviceCode in old(devices)
                        then SessionCookie(sessionId, secret) else Refused(NotFound)
              else !r.SessionCookie? && sessions == old(sessions) && logins == old(logins)
                   && devices == old(devices) && userCodes == old(userCodes)
      ensures r == Refused(Unauthorized) <==> login in old(logins) && old(logins)[login].step != Finish
      ensures r == Refused(BadRequest) <==> login !in old(logins)
    {
      if login !in logins {
        return Refused(BadRequest);
      }
      var info := logins[login];
      if info.step != Finish {
        return Refused(Unauthorized);
      }
      if info.server !in db.servers {
        return Refused(Failure);
      }
      var session := Session(info.server, info.userId, HashOf(secret));
      sessions := sessions[sessionId := session];
      logins := logins - {login};
      if info.deviceCode != "" {
        if info.deviceCode !in devices {
          return Refused(NotFound);
        }
        var device := devices[info.deviceCode];
        device := device.(status := Authorized);
        device := device.(userId := Some(info.userId));
        devices := devices[info.deviceCode := device];
        if device.userCode != "" {
          userCodes := userCodes - {device.userCode};
        }
      }
      return SessionCookie(sessionId, secret);
    }

    // ---------- authorize and activate ----------

    /** SessionMiddleware: the user of a session of this server whose secret the cookie shows. */
    method CurrentUser(server: ServerName, cookie: Option<(Token, string)>) returns (user: Option<Uuid>)
      ensures user == ActiveUser(Store(), server, cookie)
      ensures user.Some? <==>
              cookie.Some? && cookie.value.0 in sessions && sessions[cookie.value.0].server == server
              && sessions[cookie.value.0].hashedToken == HashOf(cookie.value.1)
      ensures user.Some? ==> user.value == sessions[cookie.value.0].userId
    {
      if cookie.None? {
        return None;
      }
      var (id, secret) := cookie.value;
      if id !in sessions || sessions[id].server != server {
        return None;
      }
      if sessions[id].hashedToken != HashOf(secret) {
        return None;
      }
      return Some(sessions[id].userId);
    }

    method BeginAuthorizationFlow(form: AuthorizeRequest, param: RequestObject, token: Token) returns (r: Response)
      modifies this`codes, this`logins
      ensures param.Unreadable? ==> Store() == old(Store()) && r == Refused(Failure)
      ensures !param.Unreadable? ==>
                var q := Requested(form, param);
                && Store() == Next(old(Store()), DoAuthorize(q, token))
                && (r == CodeSent(q.redirectUri, token, q.state) <==> CodeBegins(old(Store()), q))
                && (r == LoginPage(token) <==> LoginBegins(old(Store()), q))
    {
      var q := ReadRequest(form, param);
      if q.None? {
        return Refused(Failure);
      }
      r := Authorize(q.value, token);
    }

    method Authorize(q: AuthorizeRequest, token: Token) returns (r: Response)
      modifies this`codes, this`logins
      ensures Store() == Next(old(Store()), DoAuthorize(q, token))
      ensures if q.server in db.servers && (q.server, q.client) in db.applications
                 && q.redirectUri in db.applications[(q.server, q.client)].redirectUris && q.responseTypes == ["code"]
                 && "openid" in q.scopes && q.challenge != NoChallenge && q.challengeMethod == "S256"
              then
                match ActiveUser(old(Store()), q.server, q.cookie)
                case Some(user) =>
                  && r == CodeSent(q.redirectUri, token, q.state) && logins == old(logins)
                  && codes == old(codes)[token :=
                       CodeInfo(q.server, db.applications[(q.server, q.client)].id, q.scopes, user, q.nonce,
                                q.redirectUri, q.challenge, q.challengeMethod)]
                case None =>
                  && codes == old(codes)
                  && (if q.promptNone then r == Refused(LoginRequired) && logins == old(logins)
                      else r == LoginPage(token)
                           && logins == old(logins)[token := LoginInfo(PasswordVerification, q.server, Nil, "", "", 0)])
              else
                && r.Refused? && r != Refused(LoginRequired) && codes == old(codes) && logins == old(logins)
                && (q.server in db.servers && (q.server, q.client) in db.applications ==>
                      var uris := db.applications[(q.server, q.client)].redirectUris;
                      && (r == Refused(InvalidRedirectUri) <==> uris != [] && q.redirectUri !in uris)
                      && (r == Refused(UnsupportedResponseType) <==>
                            q.redirectUri in uris && q.responseTypes != ["code"])
                      && (r == Refused(InvalidRequest) <==>
                            q.redirectUri in uris && q.responseTypes == ["code"] && "openid" in q.scopes))
      ensures r == CodeSent(q.redirectUri, token, q.state) <==> CodeBegins(old(Store()), q)
      ensures r == LoginPage(token) <==> LoginBegins(old(Store()), q)
      ensures r.CodeSent? ==> r == CodeSent(q.redirectUri, token, q.state)
      ensures r.LoginPage? ==> r.login == token
      ensures r == Refused(LoginRequired) <==>
              AuthorizeAccepted(old(Store()), q) && ActiveUser(old(Store()), q.server, q.cookie) == None && q.promptNone
    {
      if q.server !in db.servers {
        return Refused(Failure);
      }
      if (q.server, q.client) !in db.applications {
        return Refused(Failure);
      }
      var application := db.applications[(q.server, q.client)];
      if |application.redirectUris| == 0 {
        return Refused(Failure);
      }
      var redirectOk := false;
      for i := 0 to |application.redirectUris|
        invariant redirectOk <==> q.redirectUri in application.redirectUris[..i]
      {
        if q.redirectUri == application.redirectUris[i] {
          redirectOk := true;
        }
      }
      assert application.redirectUris[..|application.redirectUris|] == application.redirectUris;
      if !redirectOk {
        return Refused(InvalidRedirectUri);
      }
      if |q.responseTypes| != 1 || q.responseTypes[0] != "code" {
        return Refused(UnsupportedResponseType);
      }
      if "openid" !in q.scopes {
        return Refused(Failure);
      }
      if q.challenge == NoChallenge || q.challengeMethod == "" || q.challengeMethod != "S256" {
        return Refused(InvalidRequest);
      }
      var user := CurrentUser(q.server, q.cookie);
      if user.Some? {
        codes := codes[token := CodeInfo(q.server, application.id, q.scopes, user.value, q.nonce,
                                         q.redirectUri, q.challenge, q.challengeMethod)];
        return CodeSent(q.redirectUri, token, q.state);
      }
      if q.promptNone {
        return Refused(LoginRequired);
      }
      logins := logins[token := NewLoginInfo(q.server, "")];
      return LoginPage(token);
    }

    method PostActivatePage(server: ServerName, userCode: Token, token: Token) returns (r: Response)
      modifies this`logins
      ensures Store() == Next(old(Store()), DoActivate(server, userCode, token))
      ensures if userCode != "" && userCode in userCodes && userCodes[userCode] in devices
                 && devices[userCodes[userCode]].status == Pending && server in db.servers
                 && (server, devices[userCodes[userCode]].client) in db.applications
              then r == LoginPage(token)
                   && logins == old(logins)[token :=
                        LoginInfo(PasswordVerification, server, Nil, "", userCodes[userCode], 0)]
              else r.Refused? && logins == old(logins)
      ensures r == Refused(BadRequest) <==>
              userCode == ""
              || (userCode in userCodes && userCodes[userCode] in devices
                  && devices[userCodes[userCode]].status != Pending)
      ensures r == LoginPage(token) <==> ActivateAccepted(old(Store()), server, userCode)
      ensures r == Refused(NotFound) <==>
              userCode != "" && (userCode in old(userCodes) ==> old(userCodes)[userCode] !in old(devices))
    {
      if userCode == "" {
        return Refused(BadRequest);
      }
      if userCode !in userCodes {
        return Refused(NotFound);
      }
      var deviceCode := userCodes[userCode];
      if deviceCode !in devices {
        return Refused(NotFound);
      }
      var device := devices[deviceCode];
      if device.status != Pending {
        return Refused(BadRequest);
      }
      if server !in db.servers {
        return Refused(Failure);
      }
      if (server, device.client) !in db.applications {
        return Refused(Failure);
      }
      var info := NewLoginInfo(server, "");
      info := info.(deviceCode := deviceCode);
      logins := logins[token := info];
      return LoginPage(token);
    }

    // ---------- token endpoint ----------

    method AuthenticateApplication(server: ServerName, client: string, secret: string)
      returns (application: Option<Application>)
      ensures application.Some? <==> Authenticates(db, server, client, secret)
      ensures application.Some? ==>
                (server, client) in db.applications && application.value == db.applications[(server, client)]
      ensures (server, client) in db.applications ==>
                var row := db.applications[(server, client)];
                && (row.kind == Confidential ==>
                      (application.Some? <==> secret != "" && row.hashedSecret == HashOf(secret)))
                && (row.kind == Public ==> (application.Some? <==> secret == ""))
                && (row.kind == OtherType ==> application.None?)
    {
      if (server, client) !in db.applications {
        return None;
      }
      var found := db.applications[(server, client)];
      match found.kind {
        case Confidential =>
          if secret == "" {
            return None;
          }
          if found.hashedSecret != HashOf(secret) {
            return None;
          }
          return Some(found);
        case Public =>
          if secret != "" {
            return None;
          }
          return Some(found);
        case OtherType =>
          return None;
      }
    }

    method HandleAuthorizationCode(q: TokenRequest, token: Token) returns (r: Response)
      modifies this`codes, this`refreshTokens
      ensures Store() == Next(old(Store()), DoCodeGrant(q, token))
      ensures r.Tokens? <==> CodeGrantAccepted(old(Store()), q)
      ensures r.Tokens? ==>
                && q.token in old(codes)
                && var info := old(codes)[q.token];
                   && r == Tokens(token, info.scopes) && codes == old(codes) - {q.token}
                   && refreshTokens == old(refreshTokens)[token :=
                        RefreshTokenInfo(info.server, info.userId, info.scopes, q.client)]
      ensures !r.Tokens? ==> codes == old(codes) && refreshTokens == old(refreshTokens)
      ensures q.token in old(codes) && old(codes)[q.token].server in db.servers
              && Authenticates(db, old(codes)[q.token].server, q.client, q.secret) ==>
                var info := old(codes)[q.token];
                (r == Refused(InvalidGrant) <==>
                  || db.applications[(info.server, q.client)].id != info.applicationId
                  || q.redirectUri != info.redirectUri
                  || (info.challenge != NoChallenge
                      && !(43 <= |q.verifier| <= 128 && info.challengeMethod == "S256"
                           && info.challenge == S256Of(q.verifier))))
                && (r == Refused(Failure) ==> info.userId !in db.users || !q.issued)
                && (r.Tokens? ==> info.userId in db.users && q.issued)
      ensures r == Refused(InvalidClient) <==>
              q.token in old(codes) && old(codes)[q.token].server in db.servers
              && !Authenticates(db, old(codes)[q.token].server, q.client, q.secret)
      ensures r == Refused(Failure) <==>
              CodeGrantChecked(old(Store()), q) && !CodeGrantAccepted(old(Store()), q)
      ensures r.Tokens? || r in {Refused(InvalidGrant), Refused(InvalidClient), Refused(Failure)}
    {
      if q.token !in codes {
        return Refused(InvalidGrant);
      }
      var info := codes[q.token];
      if info.server !in db.servers {
        return Refused(InvalidGrant);
      }
      var application := AuthenticateApplication(info.server, q.client, q.secret);
      if application.None? {
        return Refused(InvalidClient);
      }
      if application.value.id != info.applicationId {
        return Refused(InvalidGrant);
      }
      if q.redirectUri != info.redirectUri {
        return Refused(InvalidGrant);
      }
      if info.challenge != NoChallenge {
        if !VerifyPkce(q.verifier, info.challenge, info.challengeMethod) {
          return Refused(InvalidGrant);
        }
      }
      if info.userId !in db.users {
        return Refused(Failure);
      }
      if !q.issued {
        return Refused(Failure);
      }
      refreshTokens := refreshTokens[token := RefreshTokenInfo(info.server, info.userId, info.scopes, q.client)];
      codes := codes - {q.token};
      return Tokens(token, info.scopes);
    }

    method HandleRefreshToken(q: TokenRequest, token: Token) returns (r: Response)
      modifies this`refreshTokens
      ensures Store() == Next(old(Store()), DoRefreshGrant(q, token))
      ensures r.Tokens? <==> RefreshGrantAccepted(old(Store()), q)
      ensures r.Tokens? ==>
                && q.token in old(refreshTokens) && r == Tokens(token, old(refreshTokens)[q.token].scopes)
                && refreshTokens == (old(refreshTokens) - {q.token})[token := old(refreshTokens)[q.token]]
      ensures r == Refused(Failure) ==> refreshTokens == old(refreshTokens) - {q.token}
      ensures r in {Refused(InvalidGrant), Refused(InvalidClient)} ==> refreshTokens == old(refreshTokens)
      ensures q.token in old(refreshTokens) && old(refreshTokens)[q.token].server in db.servers
              && Authenticates(db, old(refreshTokens)[q.token].server, q.client, q.secret) ==>
                var info := old(refreshTokens)[q.token];
                && (r == Refused(InvalidGrant) <==> q.client != info.client)
                && (q.client == info.client ==> (r.Tokens? <==> info.userId in db.users && q.issued))
      ensures r == Refused(Failure) <==>
              RefreshTokenUsedUp(old(Store()), q) && !RefreshGrantAccepted(old(Store()), q)
      ensures r == Refused(InvalidClient) <==>
              q.token in old(refreshTokens) && old(refreshTokens)[q.token].server in db.servers
              && !Authenticates(db, old(refreshTokens)[q.token].server, q.client, q.secret)
      ensures r.Tokens? || r in {Refused(InvalidGrant), Refused(InvalidClient), Refused(Failure)}
    {
      if q.token !in refreshTokens {
        return Refused(InvalidGrant);
      }
      var info := refreshTokens[q.token];
      if info.server !in db.servers {
        return Refused(InvalidGrant);
      }
      var authenticated := AuthenticateApplication(info.server, q.client, q.secret);
      if authenticated.None? {
        return Refused(InvalidClient);
      }
      if info.client != q.client {
        return Refused(InvalidGrant);
      }
      refreshTokens := refreshTokens - {q.token};
      if info.userId !in db.users {
        return Refused(Failure);
      }
      if (info.server, q.client) !in db.applications || !q.issued {
        return Refused(Failure);
      }
      refreshTokens := refreshTokens[token := RefreshTokenInfo(info.server, info.userId, info.scopes, q.client)];
      return Tokens(token, info.scopes);
    }

    method BeginDeviceFlow(q: DeviceRequest, token: Token, userCode: Token) returns (r: Response)
      modifies this`devices, this`userCodes
      ensures Store() == Next(old(Store()), DoBeginDeviceFlow(q, token, userCode))
      ensures if q.client != "" && "openid" in q.scopes && q.server in db.servers
                 && Authenticates(db, q.server, q.client, q.secret)
                 && db.applications[(q.server, q.client)].deviceFlowEnabled
              then
                && r == DeviceCodes(token, userCode) && userCodes == old(userCodes)[userCode := token]
                && devices == old(devices)[token :=
                     DeviceCodeInfo(q.server, q.client, q.scopes, Pending, None, userCode)]
              else r.Refused? && devices == old(devices) && userCodes == old(userCodes)
      ensures r == DeviceCodes(token, userCode) <==> DeviceFlowAccepted(old(Store()), q)
      ensures r == Refused(InvalidScope) <==> q.client != "" && "openid" !in q.scopes
      ensures r == Refused(InvalidClient) <==>
              q.client == "" || ("openid" in q.scopes && q.server in db.servers
                                 && !Authenticates(db, q.server, q.client, q.secret))
      ensures r == Refused(UnauthorizedClient) <==>
              q.client != "" && "openid" in q.scopes && q.server in db.servers
              && Authenticates(db, q.server, q.client, q.secret)
              && !db.applications[(q.server, q.client)].deviceFlowEnabled
    {
      if q.client == "" {
        return Refused(InvalidClient);
      }
      if "openid" !in q.scopes {
        return Refused(InvalidScope);
      }
      if q.server !in db.servers {
        return Refused(Failure);
      }
      var application := AuthenticateApplication(q.server, q.client, q.secret);
      if application.None? {
        return Refused(InvalidClient);
      }
      if !application.value.deviceFlowEnabled {
        return Refused(UnauthorizedClient);
      }
      devices := devices[token := DeviceCodeInfo(q.server, q.client, q.scopes, Pending, None, userCode)];
      userCodes := userCodes[userCode := token];
      return DeviceCodes(token, userCode);
    }

    method HandleDeviceCodeGrant(q: TokenRequest, token: Token) returns (r: Response)
      modifies this`devices, this`refreshTokens
      ensures Store() == Next(old(Store()), DoDeviceGrant(q, token))
      ensures r.Tokens? <==> DeviceGrantAccepted(old(Store()), q)
      ensures if q.token != "" && q.token in old(devices) && old(devices)[q.token].status == Authorized
                 && old(devices)[q.token].server in db.servers
                 && Authenticates(db, old(devices)[q.token].server, q.client, q.secret)
                 && q.client == old(devices)[q.token].client && old(devices)[q.token].userId.Some?
              then
                var info := old(devices)[q.token];
                && devices == old(devices) - {q.token}
                && (if info.userId.value in db.users && q.issued then
                      && r == Tokens(token, info.scopes)
                      && refreshTokens == old(refreshTokens)[token :=
                           RefreshTokenInfo(info.server, info.userId.value, info.scopes, q.client)]
                    else r == Refused(Failure) && refreshTokens == old(refreshTokens))
              else !r.Tokens? && devices == old(devices) && refreshTokens == old(refreshTokens)
      ensures r == Refused(AuthorizationPending) <==>
              q.token != "" && q.token in old(devices) && old(devices)[q.token].status == Pending
      ensures r == Refused(ExpiredToken) <==> q.token != "" && q.token !in old(devices)
      ensures r == Refused(AccessDenied) <==>
              q.token != "" && q.token in old(devices) && old(devices)[q.token].status == Denied
      ensures q.token != "" && q.token in old(devices) && old(devices)[q.token].status == Authorized
              && old(devices)[q.token].server in db.servers ==>
                var info := old(devices)[q.token];
                var authenticated := Authenticates(db, info.server, q.client, q.secret);
                && (r == Refused(InvalidClient) <==> !authenticated)
                && (r == Refused(InvalidGrant) <==> authenticated && q.client != info.client)
    {
      if q.token == "" {
        return Refused(InvalidRequest);
      }
      if q.token !in devices {
        return Refused(ExpiredToken);
      }
      var info := devices[q.token];
      match info.status {
        case Pending => return Refused(AuthorizationPending);
        case Denied => return Refused(AccessDenied);
        case Authorized =>
      }
      if info.server !in db.servers {
        return Refused(InvalidGrant);
      }
      var application := AuthenticateApplication(info.server, q.client, q.secret);
      if application.None? {
        return Refused(InvalidClient);
      }
      if info.client != q.client {
        return Refused(InvalidGrant);
      }
      if info.userId.None? {
        return Refused(Failure);
      }
      var userId := info.userId.value;
      devices := devices - {q.token};
      if userId !in db.users {
        return Refused(Failure);
      }
      if !q.issued {
        return Refused(Failure);
      }
      refreshTokens := refreshTokens[token := RefreshTokenInfo(info.server, userId, info.scopes, q.client)];
      return Tokens(token, info.scopes);
    }
  }
}
