/**
 The login, authorization-code, refresh-token and device-code protocol as one state machine.
 Every HTTP handler is one atomic event. Each event has a guard, saying when the handler accepts
 the request, and a successor state. The handlers themselves are in Handlers.
 */
module Protocol {
  import opened Wrappers
  import opened Accounts

  type Token = string

  const MAX_FAILED_PASSWORD_ATTEMPTS := 5

  datatype LoginStep =
    | PasswordVerification | TemporaryPassword | EmailVerification
    | OnboardTotp | VerifyTotp | Passkey | Finish

  /** An empty deviceCode or totpSecret means that there is none. */
  datatype LoginInfo = LoginInfo(
    step: LoginStep,
    server: ServerName,
    userId: Uuid,
    totpSecret: string,
    deviceCode: Token,
    failedPasswordAttempts: int)

  function NewLoginInfo(server: ServerName, deviceCode: Token): LoginInfo {
    LoginInfo(PasswordVerification, server, Nil, "", deviceCode, 0)
  }

  /** What a client sent as code_challenge. S256 is taken to be injective. */
  datatype Challenge = NoChallenge | S256Of(verifier: string) | OtherText(text: string)

  datatype CodeInfo = CodeInfo(
    server: ServerName,
    applicationId: Uuid,
    scopes: seq<string>,
    userId: Uuid,
    nonce: string,
    redirectUri: string,
    challenge: Challenge,
    challengeMethod: string)

  datatype DeviceCodeStatus = Pending | Authorized | Denied

  /** userId is None while the stored string is empty. */
  datatype DeviceCodeInfo = DeviceCodeInfo(
    server: ServerName,
    client: string,
    scopes: seq<string>,
    status: DeviceCodeStatus,
    userId: Option<Uuid>,
    userCode: Token)

  datatype RefreshTokenInfo = RefreshTokenInfo(
    server: ServerName, userId: Uuid, scopes: seq<string>, client: string)

  datatype Session = Session(server: ServerName, userId: Uuid, hashedToken: Hash)

  datatype State = State(
    logins: map<Token, LoginInfo>,
    codes: map<Token, CodeInfo>,
    refreshTokens: map<Token, RefreshTokenInfo>,
    devices: map<Token, DeviceCodeInfo>,
    userCodes: map<Token, Token>,
    challenges: map<Token, Token>,
    sessions: map<Token, Session>,
    db: Db)

  /** A store without one entry; dropping a missing entry is not an error. */
  function Drop<V>(m: map<Token, V>, t: Token): (r: map<Token, V>)
    ensures r.Keys == m.Keys - {t}
    ensures forall u :: u in r ==> r[u] == m[u]
  {
    m - {t}
  }

  // ---------- requests ----------

  datatype AuthorizeRequest = AuthorizeRequest(
    server: ServerName,
    client: string,
    redirectUri: string,
    responseTypes: seq<string>,
    scopes: seq<string>,
    state: string,
    nonce: string,
    responseMode: string,
    challenge: Challenge,
    challengeMethod: string,
    promptNone: bool,
    cookie: Option<(Token, string)>)

  /** Credentials of a token request; issued says that key lookup, claims mapping and signing succeed. */
  datatype TokenRequest = TokenRequest(
    token: Token,
    client: string,
    secret: string,
    redirectUri: string,
    verifier: string,
    issued: bool)

  datatype DeviceRequest = DeviceRequest(
    server: ServerName, client: string, secret: string, scopes: seq<string>)

  /** A passkey assertion; valid stands for the client-data, origin, challenge and signature checks. */
  datatype Assertion = Assertion(challengeId: Token, rawId: string, valid: bool)

  // ---------- login steps ----------

  /** The second-factor part of the decision, reached once the email gate is open. */
  function SecondFactorStep(info: LoginInfo, db: Db): LoginStep
    requires info.server in db.servers
  {
    if |TotpSecrets(db, info.userId)| > 0 then VerifyTotp
    else if db.servers[info.server].require2fa then OnboardTotp
    else Finish
  }

  /** The email gate, reached once no temporary password is left. */
  function EmailStep(info: LoginInfo, db: Db): LoginStep
    requires info.server in db.servers && info.userId in db.users
  {
    if !db.users[info.userId].emailVerified && db.servers[info.server].requireEmailVerification
    then EmailVerification
    else SecondFactorStep(info, db)
  }

  /** The next step of a login, or None when the lookup of its server, user or password fails. */
  function DetermineNextLoginStep(info: LoginInfo, db: Db): Option<LoginStep> {
    if info.step == Passkey then Some(Finish)
    else if info.server !in db.servers || !UserOn(db, info.userId, info.server) || info.userId !in db.passwords
    then None
    else match info.step
      case PasswordVerification =>
        Some(if db.passwords[info.userId].temporary then TemporaryPassword else EmailStep(info, db))
      case TemporaryPassword => Some(EmailStep(info, db))
      case EmailVerification => Some(SecondFactorStep(info, db))
      case OnboardTotp => Some(Finish)
      case VerifyTotp => Some(Finish)
      case _ => None
  }

  /** Entering TOTP onboarding stores a new secret; every other step leaves the secret alone. */
  function WithStep(info: LoginInfo, step: LoginStep, newSecret: string): LoginInfo {
    info.(step := step, totpSecret := if step == OnboardTotp then newSecret else info.totpSecret)
  }

  predicate AtStep(s: State, login: Token, step: LoginStep) {
    login in s.logins && s.logins[login].step == step
  }

  /** Malformed bodies are turned away before the password is looked at. */
  predicate PasswordTried(s: State, login: Token, username: string, password: string) {
    AtStep(s, login, PasswordVerification) && username != "" && password != ""
  }

  function PasswordUser(s: State, login: Token, username: string, password: string): Option<Uuid>
    requires login in s.logins
  {
    PasswordOwner(s.db, s.logins[login].server, username, password)
  }

  predicate WrongPassword(s: State, login: Token, username: string, password: string) {
    PasswordTried(s, login, username, password) && PasswordUser(s, login, username, password) == None
  }

  predicate RightPassword(s: State, login: Token, username: string, password: string) {
    PasswordTried(s, login, username, password) && PasswordUser(s, login, username, password).Some?
  }

  function AfterWrongPassword(m: map<Token, LoginInfo>, login: Token): map<Token, LoginInfo>
    requires login in m
  {
    var failed := m[login].failedPasswordAttempts + 1;
    if failed >= MAX_FAILED_PASSWORD_ATTEMPTS then Drop(m, login)
    else m[login := m[login].(failedPasswordAttempts := failed)]
  }

  predicate PasswordReplaced(s: State, login: Token, password: string) {
    AtStep(s, login, TemporaryPassword) && password != ""
  }

  predicate EmailConfirmed(s: State, login: Token) {
    && AtStep(s, login, EmailVerification)
    && s.logins[login].userId in s.db.users
    && s.db.users[s.logins[login].userId].emailVerified
  }

  /** accepted is the set of secrets for which the presented code is valid at this moment. */
  predicate TotpOnboarded(s: State, login: Token, accepted: set<string>) {
    AtStep(s, login, OnboardTotp) && s.logins[login].totpSecret in accepted
  }

  predicate TotpAccepted(s: State, login: Token, accepted: set<string>) {
    && AtStep(s, login, VerifyTotp)
    && exists secret :: secret in TotpSecrets(s.db, s.logins[login].userId) && secret in accepted
  }

  predicate PasskeyAccepted(s: State, login: Token, a: Assertion) {
    && a.challengeId in s.challenges && s.challenges[a.challengeId] == login
    && a.valid && a.rawId in s.db.passkeys
    && login in s.logins
    && UserOn(s.db, s.db.passkeys[a.rawId], s.logins[login].server)
  }

  /** FinishLogin creates a session exactly then; what follows concerns only the device code. */
  predicate SessionBegins(s: State, login: Token) {
    AtStep(s, login, Finish) && s.logins[login].server in s.db.servers
  }

  predicate DeviceAuthorized(s: State, login: Token) {
    && SessionBegins(s, login)
    && s.logins[login].deviceCode != "" && s.logins[login].deviceCode in s.devices
  }

  // ---------- authorize and activate ----------

  function ActiveUser(s: State, server: ServerName, cookie: Option<(Token, string)>): Option<Uuid> {
    match cookie
    case Some((id, secret)) =>
      if id in s.sessions && s.sessions[id].server == server && s.sessions[id].hashedToken == HashOf(secret)
      then Some(s.sessions[id].userId) else None
    case None => None
  }

  predicate AuthorizeAccepted(s: State, q: AuthorizeRequest) {
    && q.server in s.db.servers
    && (q.server, q.client) in s.db.applications
    && q.redirectUri in s.db.applications[(q.server, q.client)].redirectUris
    && q.responseTypes == ["code"]
    && "openid" in q.scopes
    && q.challenge != NoChallenge
    && q.challengeMethod == "S256"
  }

  predicate CodeBegins(s: State, q: AuthorizeRequest) {
    AuthorizeAccepted(s, q) && ActiveUser(s, q.server, q.cookie).Some?
  }

  /** The code record that an accepted authorize request of a logged-in user stores. */
  function IssuedCode(s: State, q: AuthorizeRequest): CodeInfo
    requires CodeBegins(s, q)
  {
    CodeInfo(q.server, s.db.applications[(q.server, q.client)].id, q.scopes,
             ActiveUser(s, q.server, q.cookie).value, q.nonce,
             q.redirectUri, q.challenge, q.challengeMethod)
  }

  predicate LoginBegins(s: State, q: AuthorizeRequest) {
    AuthorizeAccepted(s, q) && ActiveUser(s, q.server, q.cookie) == None && !q.promptNone
  }

  predicate ActivateAccepted(s: State, server: ServerName, userCode: Token) {
    && userCode != "" && userCode in s.userCodes
    && s.userCodes[userCode] in s.devices
    && s.devices[s.userCodes[userCode]].status == Pending
    && server in s.db.servers
    && (server, s.devices[s.userCodes[userCode]].client) in s.db.applications
  }

  // ---------- token grants ----------

  /** RFC 7636 section 4.6, S256 only, with the verifier length of section 4.1. */
  predicate VerifierMatches(verifier: string, challenge: Challenge, challengeMethod: string) {
    && 43 <= |verifier| <= 128
    && challengeMethod == "S256"
    && challenge == S256Of(verifier)
  }

  /** Everything a code grant checks about the client and its request. */
  predicate CodeGrantChecked(s: State, q: TokenRequest) {
    && q.token in s.codes
    && var info := s.codes[q.token];
       && info.server in s.db.servers
       && Authenticates(s.db, info.server, q.client, q.secret)
       && s.db.applications[(info.server, q.client)].id == info.applicationId
       && q.redirectUri == info.redirectUri
       && (info.challenge == NoChallenge || VerifierMatches(q.verifier, info.challenge, info.challengeMethod))
  }

  predicate CodeGrantAccepted(s: State, q: TokenRequest) {
    CodeGrantChecked(s, q) && s.codes[q.token].userId in s.db.users && q.issued
  }

  function CodeRefreshToken(s: State, q: TokenRequest): RefreshTokenInfo
    requires q.token in s.codes
  {
    var info := s.codes[q.token];
    RefreshTokenInfo(info.server, info.userId, info.scopes, q.client)
  }

  /** The presented refresh token is used up once the client check passes, even if issuing then fails. */
  predicate RefreshTokenUsedUp(s: State, q: TokenRequest) {
    && q.token in s.refreshTokens
    && var info := s.refreshTokens[q.token];
       && info.server in s.db.servers
       && Authenticates(s.db, info.server, q.client, q.secret)
       && info.client == q.client
  }

  predicate RefreshGrantAccepted(s: State, q: TokenRequest) {
    RefreshTokenUsedUp(s, q) && s.refreshTokens[q.token].userId in s.db.users && q.issued
  }

  predicate DeviceFlowAccepted(s: State, q: DeviceRequest) {
    && q.client != "" && "openid" in q.scopes
    && q.server in s.db.servers
    && Authenticates(s.db, q.server, q.client, q.secret)
    && s.db.applications[(q.server, q.client)].deviceFlowEnabled
  }

  predicate DeviceCodeUsedUp(s: State, q: TokenRequest) {
    && q.token != "" && q.token in s.devices
    && var info := s.devices[q.token];
       && info.status == Authorized
       && info.server in s.db.servers
       && Authenticates(s.db, info.server, q.client, q.secret)
       && info.client == q.client
       && info.userId.Some?
  }

  predicate DeviceGrantAccepted(s: State, q: TokenRequest) {
    DeviceCodeUsedUp(s, q) && s.devices[q.token].userId.value in s.db.users && q.issued
  }

  function DeviceRefreshToken(s: State, q: TokenRequest): RefreshTokenInfo
    requires DeviceCodeUsedUp(s, q)
  {
    var info := s.devices[q.token];
    RefreshTokenInfo(info.server, info.userId.value, info.scopes, q.client)
  }

  // ---------- events ----------

  datatype Kind = LoginKind | CodeKind | RefreshKind | DeviceKind | UserCodeKind | ChallengeKind | SessionKind

  datatype Key = Key(kind: Kind, token: Token)

  /** The names stored under one token type. */
  function Names(s: State, kind: Kind): set<Token> {
    match kind
    case LoginKind => s.logins.Keys
    case CodeKind => s.codes.Keys
    case RefreshKind => s.refreshTokens.Keys
    case DeviceKind => s.devices.Keys
    case UserCodeKind => s.userCodes.Keys
    case ChallengeKind => s.challenges.Keys
    case SessionKind => s.sessions.Keys
  }

  predicate Live(s: State, k: Key) {
    k.token in Names(s, k.kind)
  }

  /** One handler call with the random values it draws, a lapse of one entry, or a change of the database by others. */
  datatype Event =
    | DoAuthorize(authorize: AuthorizeRequest, token: Token)
    | DoActivate(server: ServerName, userCode: Token, token: Token)
    | DoVerifyPassword(login: Token, username: string, password: string, secret: string)
    | DoResetTemporaryPassword(login: Token, password: string, secret: string)
    | DoVerifyEmail(login: Token, secret: string)
    | DoOnboardTotp(login: Token, accepted: set<string>)
    | DoVerifyTotp(login: Token, accepted: set<string>)
    | DoStartPasskey(login: Token, token: Token)
    | DoFinishPasskey(login: Token, assertion: Assertion)
    | DoFinishLogin(login: Token, token: Token, secret: string)
    | DoCodeGrant(request: TokenRequest, token: Token)
    | DoRefreshGrant(request: TokenRequest, token: Token)
    | DoDeviceGrant(request: TokenRequest, token: Token)
    | DoTokenExchange
    | DoBeginDeviceFlow(device: DeviceRequest, token: Token, userCode: Token)
    | DoLapse(key: Key)
    | DoChangeDatabase(db: Db)

  /** What a handler's mutate closure makes of the login it is given, or None when it refuses. */
  function MutatedLogin(s: State, e: Event): Option<LoginInfo> {
    match e
    case DoVerifyPassword(login, username, password, _) =>
      if RightPassword(s, login, username, password) then
        var user := PasswordUser(s, login, username, password).value;
        Some(s.logins[login].(userId := user, failedPasswordAttempts := 0))
      else None
    case DoResetTemporaryPassword(login, password, _) =>
      if PasswordReplaced(s, login, password) then Some(s.logins[login]) else None
    case DoVerifyEmail(login, _) =>
      if EmailConfirmed(s, login) then Some(s.logins[login]) else None
    case DoOnboardTotp(login, accepted) =>
      if TotpOnboarded(s, login, accepted) then Some(s.logins[login].(totpSecret := "")) else None
    case DoVerifyTotp(login, accepted) =>
      if TotpAccepted(s, login, accepted) then Some(s.logins[login]) else None
    case DoFinishPasskey(login, a) =>
      if PasskeyAccepted(s, login, a)
      then Some(s.logins[login].(userId := s.db.passkeys[a.rawId], step := Passkey)) else None
    case _ => None
  }

  /** The handler accepted and the next step can be decided, so the login moves. */
  predicate StepsLogin(s: State, e: Event) {
    MutatedLogin(s, e).Some? && DetermineNextLoginStep(MutatedLogin(s, e).value, s.db).Some?
  }

  /** The login takes its next step once its handler accepted and that step can be decided. */
  function UpdateLoginStep(s: State, e: Event, login: Token, newSecret: string): map<Token, LoginInfo> {
    match MutatedLogin(s, e)
    case None => s.logins
    case Some(info) =>
      match DetermineNextLoginStep(info, s.db)
      case Some(step) => s.logins[login := WithStep(info, step, newSecret)]
      case None => s.logins
  }

  function LoginsAfter(s: State, e: Event): map<Token, LoginInfo> {
    match e
    case DoAuthorize(q, token) =>
      if LoginBegins(s, q) then s.logins[token := NewLoginInfo(q.server, "")] else s.logins
    case DoActivate(server, userCode, token) =>
      if ActivateAccepted(s, server, userCode)
      then s.logins[token := NewLoginInfo(server, s.userCodes[userCode])] else s.logins
    case DoVerifyPassword(login, username, password, secret) =>
      if WrongPassword(s, login, username, password) then AfterWrongPassword(s.logins, login)
      else UpdateLoginStep(s, e, login, secret)
    case DoResetTemporaryPassword(login, _, secret) => UpdateLoginStep(s, e, login, secret)
    case DoVerifyEmail(login, secret) => UpdateLoginStep(s, e, login, secret)
    case DoOnboardTotp(login, _) => UpdateLoginStep(s, e, login, "")
    case DoVerifyTotp(login, _) => UpdateLoginStep(s, e, login, "")
    case DoFinishPasskey(login, _) => UpdateLoginStep(s, e, login, "")
    case DoFinishLogin(login, _, _) => if SessionBegins(s, login) then Drop(s.logins, login) else s.logins
    case DoLapse(k) => if k.kind == LoginKind then Drop(s.logins, k.token) else s.logins
    case _ => s.logins
  }

  function CodesAfter(s: State, e: Event): map<Token, CodeInfo> {
    match e
    case DoAuthorize(q, token) => if CodeBegins(s, q) then s.codes[token := IssuedCode(s, q)] else s.codes
    case DoCodeGrant(q, _) => if CodeGrantAccepted(s, q) then Drop(s.codes, q.token) else s.codes
    case DoLapse(k) => if k.kind == CodeKind then Drop(s.codes, k.token) else s.codes
    case _ => s.codes
  }

  function RefreshTokensAfter(s: State, e: Event): map<Token, RefreshTokenInfo> {
    match e
    case DoCodeGrant(q, token) =>
      if CodeGrantAccepted(s, q) then s.refreshTokens[token := CodeRefreshToken(s, q)] else s.refreshTokens
    case DoRefreshGrant(q, token) =>
      if RefreshGrantAccepted(s, q) then Drop(s.refreshTokens, q.token)[token := s.refreshTokens[q.token]]
      else if RefreshTokenUsedUp(s, q) then Drop(s.refreshTokens, q.token)
      else s.refreshTokens
    case DoDeviceGrant(q, token) =>
      if DeviceGrantAccepted(s, q) then s.refreshTokens[token := DeviceRefreshToken(s, q)] else s.refreshTokens
    case DoLapse(k) => if k.kind == RefreshKind then Drop(s.refreshTokens, k.token) else s.refreshTokens
    case _ => s.refreshTokens
  }

  function DevicesAfter(s: State, e: Event): map<Token, DeviceCodeInfo> {
    match e
    case DoBeginDeviceFlow(q, token, userCode) =>
      if DeviceFlowAccepted(s, q)
      then s.devices[token := DeviceCodeInfo(q.server, q.client, q.scopes, Pending, None, userCode)] else s.devices
    case DoFinishLogin(login, _, _) =>
      if DeviceAuthorized(s, login) then
        var info := s.logins[login];
        s.devices[info.deviceCode := s.devices[info.deviceCode].(status := Authorized, userId := Some(info.userId))]
      else s.devices
    case DoDeviceGrant(q, _) => if DeviceCodeUsedUp(s, q) then Drop(s.devices, q.token) else s.devices
    case DoLapse(k) => if k.kind == DeviceKind then Drop(s.devices, k.token) else s.devices
    case _ => s.devices
  }

  function UserCodesAfter(s: State, e: Event): map<Token, Token> {
    match e
    case DoBeginDeviceFlow(q, token, userCode) =>
      if DeviceFlowAccepted(s, q) then s.userCodes[userCode := token] else s.userCodes
    case DoFinishLogin(login, _, _) =>
      if DeviceAuthorized(s, login) && s.devices[s.logins[login].deviceCode].userCode != ""
      then Drop(s.userCodes, s.devices[s.logins[login].deviceCode].userCode) else s.userCodes
    case DoLapse(k) => if k.kind == UserCodeKind then Drop(s.userCodes, k.token) else s.userCodes
    case _ => s.userCodes
  }

  function ChallengesAfter(s: State, e: Event): map<Token, Token> {
    match e
    case DoStartPasskey(login, token) => s.challenges[token := login]
    case DoLapse(k) => if k.kind == ChallengeKind then Drop(s.challenges, k.token) else s.challenges
    case _ => s.challenges
  }

  function SessionsAfter(s: State, e: Event): map<Token, Session> {
    match e
    case DoFinishLogin(login, token, secret) =>
      if SessionBegins(s, login)
      then s.sessions[token := Session(s.logins[login].server, s.logins[login].userId, HashOf(secret))] else s.sessions
    case DoLapse(k) => if k.kind == SessionKind then Drop(s.sessions, k.token) else s.sessions
    case _ => s.sessions
  }

  /** A request's database writes are committed even when its next login step cannot be decided. */
  function DbAfter(s: State, e: Event): Db {
    match e
    case DoResetTemporaryPassword(login, password, _) =>
      if PasswordReplaced(s, login, password)
      then s.db.(passwords := s.db.passwords[s.logins[login].userId := PasswordDetails(HashOf(password), false)])
      else s.db
    case DoOnboardTotp(login, accepted) =>
      if TotpOnboarded(s, login, accepted) then
        var info := s.logins[login];
        s.db.(totps := s.db.totps[info.userId := TotpSecrets(s.db, info.userId) + [info.totpSecret]])
      else s.db
    case DoChangeDatabase(db) => db
    case _ => s.db
  }

  /** The successor state, one store at a time. */
  function Next(s: State, e: Event): State {
    State(LoginsAfter(s, e), CodesAfter(s, e), RefreshTokensAfter(s, e), DevicesAfter(s, e),
          UserCodesAfter(s, e), ChallengesAfter(s, e), SessionsAfter(s, e), DbAfter(s, e))
  }

  /** The names an event may bring into the store. */
  function Draws(e: Event): set<Key> {
    match e
    case DoAuthorize(_, token) => {Key(CodeKind, token), Key(LoginKind, token)}
    case DoActivate(_, _, token) => {Key(LoginKind, token)}
    case DoStartPasskey(_, token) => {Key(ChallengeKind, token)}
    case DoFinishLogin(_, token, _) => {Key(SessionKind, token)}
    case DoCodeGrant(_, token) => {Key(RefreshKind, token)}
    case DoRefreshGrant(_, token) => {Key(RefreshKind, token)}
    case DoDeviceGrant(_, token) => {Key(RefreshKind, token)}
    case DoBeginDeviceFlow(_, token, userCode) => {Key(DeviceKind, token), Key(UserCodeKind, userCode)}
    case _ => {}
  }

  /** Generated tokens, user codes and secrets are never the empty string. */
  predicate WellDrawn(e: Event) {
    match e
    case DoBeginDeviceFlow(_, token, userCode) => token != "" && userCode != ""
    case DoVerifyPassword(_, _, _, secret) => secret != ""
    case DoResetTemporaryPassword(_, _, secret) => secret != ""
    case DoVerifyEmail(_, secret) => secret != ""
    case _ => true
  }
}
