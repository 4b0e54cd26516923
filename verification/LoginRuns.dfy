/** What a login has proved by the time it reaches each step, over whole runs. */
module LoginRuns {
  import opened Accounts
  import opened Protocol
  import opened Runs

  datatype Proof = PasswordShown | PasswordReset | EmailSeen | TotpAdded | TotpShown | PasskeyShown

  /** The gates of a user on a server, as they stand in one database state. */
  datatype Gates = Gates(temporaryPassword: bool, emailPending: bool, hasTotp: bool, require2fa: bool)

  function GatesOf(db: Db, server: ServerName, user: Uuid): Gates {
    Gates(
      user in db.passwords && db.passwords[user].temporary,
      server in db.servers && db.servers[server].requireEmailVerification
        && user in db.users && !db.users[user].emailVerified,
      |TotpSecrets(db, user)| > 0,
      server in db.servers && db.servers[server].require2fa)
  }

  /** One successful request of a login: what it proved, for whom, and the gates it found. */
  datatype Milestone = Milestone(proof: Proof, user: Uuid, gates: Gates)

  predicate ActsOn(e: Event, login: Token) {
    match e
    case DoVerifyPassword(l, _, _, _) => l == login
    case DoResetTemporaryPassword(l, _, _) => l == login
    case DoVerifyEmail(l, _) => l == login
    case DoOnboardTotp(l, _) => l == login
    case DoVerifyTotp(l, _) => l == login
    case DoFinishPasskey(l, _) => l == login
    case _ => false
  }

  function ProofOf(e: Event): Proof {
    match e
    case DoVerifyPassword(_, _, _, _) => PasswordShown
    case DoResetTemporaryPassword(_, _, _) => PasswordReset
    case DoVerifyEmail(_, _) => EmailSeen
    case DoOnboardTotp(_, _) => TotpAdded
    case DoVerifyTotp(_, _) => TotpShown
    case _ => PasskeyShown
  }

  predicate Advances(s: State, e: Event, login: Token) {
    ActsOn(e, login) && StepsLogin(s, e)
  }

  function MilestoneOf(s: State, e: Event): Milestone
    requires MutatedLogin(s, e).Some?
  {
    var info := MutatedLogin(s, e).value;
    Milestone(ProofOf(e), info.userId, GatesOf(s.db, info.server, info.userId))
  }

  /** The milestones of a login among the first n events. */
  ghost function Story(r: Run, n: nat, login: Token): seq<Milestone>
    requires Valid(r) && n <= |r.events|
  {
    if n == 0 then []
    else if Advances(r.states[n - 1], r.events[n - 1], login)
    then Story(r, n - 1, login) + [MilestoneOf(r.states[n - 1], r.events[n - 1])]
    else Story(r, n - 1, login)
  }

  // ---------- the grammar of a complete login ----------

  function Last(w: seq<Milestone>): Milestone requires w != [] { w[|w| - 1] }

  function Front(w: seq<Milestone>): seq<Milestone> requires w != [] { w[..|w| - 1] }

  /** The password was right and, had it been temporary, was replaced. */
  predicate PasswordDone(w: seq<Milestone>, u: Uuid) {
    || (|w| == 1 && w[0].proof == PasswordShown && w[0].user == u && !w[0].gates.temporaryPassword)
    || (|w| == 2 && w[0].proof == PasswordShown && w[0].user == u && w[0].gates.temporaryPassword
        && w[1].proof == PasswordReset && w[1].user == u)
  }

  /** Then no email check was pending, or the address was found verified afterwards. */
  predicate EmailDone(w: seq<Milestone>, u: Uuid) {
    || (PasswordDone(w, u) && !Last(w).gates.emailPending)
    || (|w| > 1 && PasswordDone(Front(w), u) && Last(Front(w)).gates.emailPending
        && Last(w).proof == EmailSeen && Last(w).user == u && !Last(w).gates.emailPending)
  }

  /** Then the user had no TOTP and needed none, or gave a code for an old or for a new secret. */
  predicate SecondFactorDone(w: seq<Milestone>, u: Uuid) {
    || (EmailDone(w, u) && !Last(w).gates.hasTotp && !Last(w).gates.require2fa)
    || (|w| > 1 && EmailDone(Front(w), u) && Last(w).user == u
        && (if Last(Front(w)).gates.hasTotp then Last(w).proof == TotpShown
            else Last(Front(w)).gates.require2fa && Last(w).proof == TotpAdded))
  }

  predicate PasskeyDone(w: seq<Milestone>, u: Uuid) {
    w != [] && Last(w).proof == PasskeyShown && Last(w).user == u
  }

  predicate LoginComplete(w: seq<Milestone>, u: Uuid) {
    SecondFactorDone(w, u) || PasskeyDone(w, u)
  }

  /** What the stored step of a login says about its past. */
  predicate Coherent(w: seq<Milestone>, info: LoginInfo) {
    var u := info.userId;
    match info.step
    case PasswordVerification => w == [] && info.totpSecret == ""
    case TemporaryPassword =>
      |w| == 1 && w[0].proof == PasswordShown && w[0].user == u && w[0].gates.temporaryPassword && info.totpSecret == ""
    case EmailVerification => PasswordDone(w, u) && Last(w).gates.emailPending && info.totpSecret == ""
    case OnboardTotp =>
      EmailDone(w, u) && !Last(w).gates.hasTotp && Last(w).gates.require2fa && info.totpSecret != ""
    case VerifyTotp => EmailDone(w, u) && Last(w).gates.hasTotp && info.totpSecret == ""
    case Passkey => false
    case Finish => LoginComplete(w, u)
  }

  // ---------- one step ----------

  lemma LoginUntouched(s: State, e: Event, login: Token)
    requires login in Next(s, e).logins && Key(LoginKind, login) !in Draws(e) && !Advances(s, e, login)
    ensures login in s.logins
    ensures Next(s, e).logins[login] == s.logins[login]
            || (e.DoVerifyPassword? && e.login == login && WrongPassword(s, login, e.username, e.password)
                && s.logins[login].failedPasswordAttempts + 1 < MAX_FAILED_PASSWORD_ATTEMPTS
                && Next(s, e).logins[login]
                   == s.logins[login].(failedPasswordAttempts := s.logins[login].failedPasswordAttempts + 1))
  {
  }

  lemma LoginAdvanced(s: State, e: Event, login: Token)
    requires Advances(s, e, login)
    ensures login in s.logins && login in Next(s, e).logins
    ensures var info := MutatedLogin(s, e).value;
            var step := DetermineNextLoginStep(info, s.db).value;
            exists secret :: (WellDrawn(e) && step == OnboardTotp ==> secret != "")
                             && Next(s, e).logins[login] == WithStep(info, step, secret)
  {
    var info := MutatedLogin(s, e).value;
    var step := DetermineNextLoginStep(info, s.db).value;
    var secret := match e
      case DoVerifyPassword(_, _, _, x) => x
      case DoResetTemporaryPassword(_, _, x) => x
      case DoVerifyEmail(_, x) => x
      case _ => "";
    assert Next(s, e).logins[login] == WithStep(info, step, secret);
  }

  /** A login that the event has just drawn is at its first step. */
  lemma LoginBegun(s: State, e: Event, login: Token)
    requires login !in s.logins && login in Next(s, e).logins
    ensures Next(s, e).logins[login].step == PasswordVerification
    ensures Next(s, e).logins[login].totpSecret == "" && Next(s, e).logins[login].failedPasswordAttempts == 0
    ensures !Advances(s, e, login)
  {
  }

  /** The decision code meets the grammar: a coherent login stays coherent when it advances. */
  lemma CoherentAdvance(s: State, e: Event, login: Token, w: seq<Milestone>, secret: string)
    requires Advances(s, e, login) && login in s.logins && Coherent(w, s.logins[login])
    requires DetermineNextLoginStep(MutatedLogin(s, e).value, s.db).value == OnboardTotp ==> secret != ""
    ensures Coherent(w + [MilestoneOf(s, e)],
                     WithStep(MutatedLogin(s, e).value,
                              DetermineNextLoginStep(MutatedLogin(s, e).value, s.db).value, secret))
  {
    var m := MilestoneOf(s, e);
    assert Front(w + [m]) == w && Last(w + [m]) == m;
  }

  /** What each milestone rests on, and that its user belonged to the login's own server at that moment. */
  lemma MilestoneProves(s: State, e: Event, login: Token)
    requires Advances(s, e, login)
    ensures login in s.logins
    ensures var m, server := MilestoneOf(s, e), s.logins[login].server;
            && UserOn(s.db, m.user, server)
            && (m.proof == PasswordShown ==>
                  e.DoVerifyPassword? && (server, e.username) in s.db.usernames
                  && s.db.usernames[(server, e.username)] == m.user
                  && m.user in s.db.passwords && s.db.passwords[m.user].hashedPassword == HashOf(e.password))
            && (m.proof == PasswordReset ==>
                  e.DoResetTemporaryPassword? && m.user in Next(s, e).db.passwords
                  && Next(s, e).db.passwords[m.user] == PasswordDetails(HashOf(e.password), false))
            && (m.proof == EmailSeen ==> s.db.users[m.user].emailVerified)
            && (m.proof == TotpAdded ==>
                  e.DoOnboardTotp? && s.logins[login].totpSecret in e.accepted
                  && s.logins[login].totpSecret in TotpSecrets(Next(s, e).db, m.user))
            && (m.proof == TotpShown ==>
                  e.DoVerifyTotp? && exists x :: x in TotpSecrets(s.db, m.user) && x in e.accepted)
            && (m.proof == PasskeyShown ==>
                  e.DoFinishPasskey? && e.assertion.valid
                  && e.assertion.challengeId in s.challenges && s.challenges[e.assertion.challengeId] == login
                  && e.assertion.rawId in s.db.passkeys && s.db.passkeys[e.assertion.rawId] == m.user)
  {
  }

  // ---------- runs ----------

  lemma {:induction false} NoStoryBeforeDrawn(r: Run, n: nat, m: nat, login: Token)
    requires Valid(r) && n <= m < |r.events| && Key(LoginKind, login) in Draws(r.events[m])
    ensures Story(r, n, login) == [] && MissCount(r, n, login) == 0 && ChangeCount(r, n, login) == 0
  {
    if n > 0 {
      NoStoryBeforeDrawn(r, n - 1, m, login);
      NotLiveBeforeDrawn(r, n - 1, m, Key(LoginKind, login));
    }
  }

  /** In every reachable state every stored login is coherent with its own past. */
  lemma {:induction false} LoginsAreCoherent(r: Run, n: nat, login: Token)
    requires Valid(r) && n <= |r.events| && login in r.states[n].logins
    ensures Coherent(Story(r, n, login), r.states[n].logins[login])
  {
    if n == 0 {
      assert false;
    } else {
      var s, e := r.states[n - 1], r.events[n - 1];
      assert TakesStep(r, n - 1);
      if Key(LoginKind, login) in Draws(e) {
        NoStoryBeforeDrawn(r, n - 1, n - 1, login);
        NotLiveBeforeDrawn(r, n - 1, n - 1, Key(LoginKind, login));
        LoginBegun(s, e, login);
      } else if Advances(s, e, login) {
        LoginAdvanced(s, e, login);
        var info := MutatedLogin(s, e).value;
        var step := DetermineNextLoginStep(info, s.db).value;
        var secret :| (WellDrawn(e) && step == OnboardTotp ==> secret != "")
                      && Next(s, e).logins[login] == WithStep(info, step, secret);
        LoginsAreCoherent(r, n - 1, login);
        CoherentAdvance(s, e, login, Story(r, n - 1, login), secret);
      } else {
        LoginUntouched(s, e, login);
        LoginsAreCoherent(r, n - 1, login);
      }
    }
  }

  /** A stored login is at step finish exactly when its user has passed every gate, or shown a passkey last. */
  lemma FinishMeansComplete(r: Run, n: nat, login: Token)
    requires Valid(r) && n <= |r.events| && login in r.states[n].logins
    ensures var info := r.states[n].logins[login];
            info.step == Finish <==> LoginComplete(Story(r, n, login), info.userId)
    ensures var info := r.states[n].logins[login];
            (info.step == OnboardTotp ==> info.totpSecret != "")
            && (info.totpSecret != "" ==> info.step == OnboardTotp || info.step == Finish)
  {
    LoginsAreCoherent(r, n, login);
  }

  // ---------- wrong passwords and progress ----------

  predicate Misses(s: State, e: Event, login: Token) {
    e.DoVerifyPassword? && e.login == login && WrongPassword(s, login, e.username, e.password)
  }

  /** How often a wrong password was answered for this login among the first n events. */
  ghost function MissCount(r: Run, n: nat, login: Token): nat
    requires Valid(r) && n <= |r.events|
  {
    if n == 0 then 0
    else MissCount(r, n - 1, login) + if Misses(r.states[n - 1], r.events[n - 1], login) then 1 else 0
  }

  /** At most five wrong passwords in a login's whole life; a live login has seen at most four. */
  lemma {:induction false} AtMostFiveMisses(r: Run, n: nat, login: Token)
    requires Valid(r) && n <= |r.events|
    ensures MissCount(r, n, login) <= MAX_FAILED_PASSWORD_ATTEMPTS
    ensures login in r.states[n].logins ==>
              var info := r.states[n].logins[login];
              && MissCount(r, n, login) < MAX_FAILED_PASSWORD_ATTEMPTS
              && 0 <= info.failedPasswordAttempts < MAX_FAILED_PASSWORD_ATTEMPTS
              && (info.step == PasswordVerification ==> info.failedPasswordAttempts == MissCount(r, n, login))
  {
    if n > 0 {
      var s, e := r.states[n - 1], r.events[n - 1];
      assert TakesStep(r, n - 1);
      AtMostFiveMisses(r, n - 1, login);
      if login in Next(s, e).logins {
        if Key(LoginKind, login) in Draws(e) {
          NoStoryBeforeDrawn(r, n - 1, n - 1, login);
          NotLiveBeforeDrawn(r, n - 1, n - 1, Key(LoginKind, login));
          LoginBegun(s, e, login);
        } else if Advances(s, e, login) {
          LoginAdvanced(s, e, login);
          StepRankRises(s, e, login);
        } else {
          LoginUntouched(s, e, login);
        }
      }
    }
  }

  /** A wrong password ends the login exactly when it is the fifth. */
  lemma FifthMissEndsLogin(r: Run, n: nat, login: Token)
    requires Valid(r) && n < |r.events| && Misses(r.states[n], r.events[n], login)
    ensures login in r.states[n + 1].logins <==> MissCount(r, n + 1, login) < 5
  {
    assert TakesStep(r, n);
    AtMostFiveMisses(r, n, login);
  }

  function Rank(step: LoginStep): nat {
    match step
    case PasswordVerification => 0
    case TemporaryPassword => 1
    case EmailVerification => 2
    case OnboardTotp => 3
    case VerifyTotp => 3
    case Passkey => 3
    case Finish => 4
  }

  /** Every advance without a passkey strictly raises the rank of the step; a passkey always lands on finish. */
  lemma StepRankRises(s: State, e: Event, login: Token)
    requires Advances(s, e, login)
    ensures login in s.logins && login in Next(s, e).logins
    ensures !e.DoFinishPasskey? ==> Rank(Next(s, e).logins[login].step) > Rank(s.logins[login].step)
    ensures e.DoFinishPasskey? ==> Next(s, e).logins[login].step == Finish
    ensures e.DoVerifyPassword? ==> Next(s, e).logins[login].failedPasswordAttempts == 0
    ensures !e.DoVerifyPassword? ==>
              Next(s, e).logins[login].failedPasswordAttempts == s.logins[login].failedPasswordAttempts
  {
    LoginAdvanced(s, e, login);
  }

  /** What is left of a login: steps to go, then wrong passwords to spare. Nothing but a passkey leaves it as large. */
  lemma LoginProgress(s: State, e: Event, login: Token)
    requires login in s.logins && login in Next(s, e).logins && Key(LoginKind, login) !in Draws(e)
    requires !e.DoFinishPasskey?
    ensures var before, after := s.logins[login], Next(s, e).logins[login];
            || after == before
            || Rank(after.step) > Rank(before.step)
            || (after.step == before.step && before.failedPasswordAttempts < after.failedPasswordAttempts
                && after.failedPasswordAttempts < MAX_FAILED_PASSWORD_ATTEMPTS)
  {
    if Advances(s, e, login) {
      StepRankRises(s, e, login);
    } else {
      LoginUntouched(s, e, login);
    }
  }

  /** An event other than a passkey that leaves the login stored, but not as it was. */
  predicate Changes(s: State, e: Event, login: Token) {
    && !e.DoFinishPasskey? && login in s.logins && login in Next(s, e).logins
    && Next(s, e).logins[login] != s.logins[login]
  }

  ghost function ChangeCount(r: Run, n: nat, login: Token): nat
    requires Valid(r) && n <= |r.events|
  {
    if n == 0 then 0
    else ChangeCount(r, n - 1, login) + if Changes(r.states[n - 1], r.events[n - 1], login) then 1 else 0
  }

  /** Without passkeys a login changes at most eight times in its whole life: four steps and four wrong passwords. */
  lemma {:induction false} AtMostEightChanges(r: Run, n: nat, login: Token)
    requires Valid(r) && n <= |r.events|
    ensures ChangeCount(r, n, login) <= 8
    ensures login in r.states[n].logins ==>
              ChangeCount(r, n, login) <= Rank(r.states[n].logins[login].step) + MissCount(r, n, login)
  {
    if n > 0 {
      var s, e := r.states[n - 1], r.events[n - 1];
      assert TakesStep(r, n - 1);
      AtMostEightChanges(r, n - 1, login);
      AtMostFiveMisses(r, n, login);
      if login in Next(s, e).logins {
        if Key(LoginKind, login) in Draws(e) {
          NoStoryBeforeDrawn(r, n - 1, n - 1, login);
          NotLiveBeforeDrawn(r, n - 1, n - 1, Key(LoginKind, login));
        } else if Advances(s, e, login) {
          StepRankRises(s, e, login);
        } else {
          LoginUntouched(s, e, login);
        }
      }
    }
  }
}
