/** The life of a device code and its user code, over whole runs (RFC 8628 sections 3.4 and 3.5). */
module DeviceRuns {
  import opened Wrappers
  import opened Accounts
  import opened Protocol
  import opened Runs

  predicate BeginsDevice(s: State, e: Event, device: Token) {
    e.DoBeginDeviceFlow? && e.token == device && DeviceFlowAccepted(s, e.device)
  }

  /** FinishLogin of a login that was begun for this device code. */
  predicate Authorizes(s: State, e: Event, device: Token) {
    e.DoFinishLogin? && DeviceAuthorized(s, e.login) && s.logins[e.login].deviceCode == device
  }

  /** A device code changes only by being authorized, and then only in its status and user. */
  lemma DeviceStep(s: State, e: Event, device: Token)
    requires device in Next(s, e).devices
    ensures var d := Next(s, e).devices[device];
            if BeginsDevice(s, e, device) then
              d == DeviceCodeInfo(e.device.server, e.device.client, e.device.scopes, Pending, None, e.userCode)
            else
              && device in s.devices
              && d == if Authorizes(s, e, device)
                      then s.devices[device].(status := Authorized, userId := Some(s.logins[e.login].userId))
                      else s.devices[device]
  {
  }

  /** The user of the last FinishLogin that named this device code among the first n events. */
  ghost function LastFinisher(r: Run, n: nat, device: Token): Option<Uuid>
    requires Valid(r) && n <= |r.events|
  {
    if n == 0 then None
    else
      var s, e := r.states[n - 1], r.events[n - 1];
      if Authorizes(s, e, device) then Some(s.logins[e.login].userId) else LastFinisher(r, n - 1, device)
  }

  lemma {:induction false} NoFinisherBeforeDrawn(r: Run, n: nat, m: nat, device: Token)
    requires Valid(r) && n <= m < |r.events| && Key(DeviceKind, device) in Draws(r.events[m])
    ensures LastFinisher(r, n, device) == None
  {
    if n > 0 {
      NoFinisherBeforeDrawn(r, n - 1, m, device);
      NotLiveBeforeDrawn(r, n - 1, m, Key(DeviceKind, device));
    }
  }

  /** A stored device code is pending until some login finishes for it, and then carries the last such user. */
  lemma {:induction false} DeviceCodeStatus(r: Run, n: nat, device: Token)
    requires Valid(r) && n <= |r.events| && device in r.states[n].devices
    ensures var d, last := r.states[n].devices[device], LastFinisher(r, n, device);
            && d.userId == last
            && d.status == (if last.Some? then Authorized else Pending)
  {
    if n == 0 {
      assert false;
    } else {
      var s, e := r.states[n - 1], r.events[n - 1];
      assert TakesStep(r, n - 1);
      DeviceStep(s, e, device);
      if BeginsDevice(s, e, device) {
        NoFinisherBeforeDrawn(r, n - 1, n - 1, device);
      } else {
        DeviceCodeStatus(r, n - 1, device);
      }
    }
  }

  /** Where a stored device code came from, and who authorized it. */
  lemma {:induction false} DeviceCodeOrigin(r: Run, n: nat, device: Token) returns (i: nat)
    requires Valid(r) && n <= |r.events| && device in r.states[n].devices
    ensures i < n && BeginsDevice(r.states[i], r.events[i], device)
    ensures var d, q := r.states[n].devices[device], r.events[i].device;
            d.server == q.server && d.client == q.client && d.scopes == q.scopes && "openid" in d.scopes
            && d.userCode == r.events[i].userCode
            && (q.server, q.client) in r.states[i].db.applications
            && r.states[i].db.applications[(q.server, q.client)].deviceFlowEnabled
  {
    if n == 0 {
      assert false;
    } else {
      assert TakesStep(r, n - 1);
      DeviceStep(r.states[n - 1], r.events[n - 1], device);
      i := n - 1;
      if !BeginsDevice(r.states[i], r.events[i], device) {
        i := DeviceCodeOrigin(r, n - 1, device);
      }
    }
  }

  lemma {:induction false} LastFinisherExists(r: Run, n: nat, device: Token) returns (k: nat)
    requires Valid(r) && n <= |r.events| && LastFinisher(r, n, device).Some?
    ensures k < n && Authorizes(r.states[k], r.events[k], device)
    ensures LastFinisher(r, n, device) == Some(r.states[k].logins[r.events[k].login].userId)
  {
    k := n - 1;
    if !Authorizes(r.states[k], r.events[k], device) {
      k := LastFinisherExists(r, n - 1, device);
    }
  }

  /** Every honoured device code was begun with openid and authorized by a login that had reached finish. */
  lemma DeviceGrantTraceback(r: Run, j: nat) returns (i: nat, k: nat)
    requires Valid(r) && j < |r.events|
    requires r.events[j].DoDeviceGrant? && DeviceGrantAccepted(r.states[j], r.events[j].request)
    ensures i < j && k < j
    ensures var q := r.events[j].request; var d := r.states[j].devices[q.token];
            && BeginsDevice(r.states[i], r.events[i], q.token)
            && r.events[i].device.server == d.server && r.events[i].device.client == q.client
            && r.events[i].device.scopes == d.scopes && "openid" in d.scopes
            && Authorizes(r.states[k], r.events[k], q.token)
            && d.userId == Some(r.states[k].logins[r.events[k].login].userId)
  {
    var device := r.events[j].request.token;
    i := DeviceCodeOrigin(r, j, device);
    DeviceCodeStatus(r, j, device);
    k := LastFinisherExists(r, j, device);
  }

  // ---------- activation ----------

  /** The request that began a login, and the server and device code it fixed for good. */
  predicate BeginsLogin(s: State, e: Event, login: Token, server: ServerName, device: Token) {
    || (e.DoAuthorize? && e.token == login && LoginBegins(s, e.authorize)
        && server == e.authorize.server && device == "")
    || (e.DoActivate? && e.token == login && ActivateAccepted(s, e.server, e.userCode)
        && server == e.server && device == s.userCodes[e.userCode])
  }

  lemma LoginStepKeeps(s: State, e: Event, login: Token)
    requires login in Next(s, e).logins
    ensures var info := Next(s, e).logins[login];
            || BeginsLogin(s, e, login, info.server, info.deviceCode)
            || (login in s.logins
                && s.logins[login].server == info.server && s.logins[login].deviceCode == info.deviceCode)
  {
  }

  lemma {:induction false} LoginOrigin(r: Run, n: nat, login: Token) returns (a: nat)
    requires Valid(r) && n <= |r.events| && login in r.states[n].logins
    ensures a < n
    ensures var info := r.states[n].logins[login];
            BeginsLogin(r.states[a], r.events[a], login, info.server, info.deviceCode)
  {
    if n == 0 {
      assert false;
    } else {
      assert TakesStep(r, n - 1);
      LoginStepKeeps(r.states[n - 1], r.events[n - 1], login);
      a := n - 1;
      var info := r.states[n].logins[login];
      if !BeginsLogin(r.states[a], r.events[a], login, info.server, info.deviceCode) {
        a := LoginOrigin(r, n - 1, login);
      }
    }
  }

  // ---------- user codes ----------

  lemma UserCodeStep(s: State, e: Event, userCode: Token)
    requires userCode in Next(s, e).userCodes
    ensures var device := Next(s, e).userCodes[userCode];
            || (e.DoBeginDeviceFlow? && e.userCode == userCode && BeginsDevice(s, e, device))
            || (userCode in s.userCodes && s.userCodes[userCode] == device
                && !(Authorizes(s, e, device) && userCode != "" && s.devices[device].userCode == userCode))
  {
  }

  /** A live user code points at its own device code, which is still pending or has lapsed. */
  lemma {:induction false} UserCodeIsPending(r: Run, n: nat, userCode: Token)
    requires Valid(r) && n <= |r.events| && userCode in r.states[n].userCodes
    ensures var device := r.states[n].userCodes[userCode];
            && userCode != "" && DrawnBefore(r, n, Key(DeviceKind, device))
            && (device in r.states[n].devices ==>
                  r.states[n].devices[device].status == Pending && r.states[n].devices[device].userCode == userCode)
  {
    if n == 0 {
      assert false;
    } else {
      var s, e := r.states[n - 1], r.events[n - 1];
      assert TakesStep(r, n - 1);
      UserCodeStep(s, e, userCode);
      var device := r.states[n].userCodes[userCode];
      if e.DoBeginDeviceFlow? && e.userCode == userCode && BeginsDevice(s, e, device) {
        assert WellDrawn(e);
      } else {
        UserCodeIsPending(r, n - 1, userCode);
        NotDrawnAgain(r, n - 1, Key(DeviceKind, device));
        if device in r.states[n].devices {
          DeviceStep(s, e, device);
        }
      }
    }
  }
}
