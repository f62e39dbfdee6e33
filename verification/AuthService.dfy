/**
 `OperatorAuthService` as the class it is in core/auth/service.py: its methods update account, session
 and challenge rows.  Each is one transition of the machine in OperatorAuth.dfy, so the history
 theorems hold of any sequence of calls.
 */
module AuthService {
  import opened Wrappers
  import opened OperatorAuth
  import opened AuthCalls

  class OperatorAuthService {
    var account: Option<Account>
    var sessions: map<Token, Session>
    var challenges: map<ChallengeId, Challenge>
    var passkeys: nat
    ghost var clock: Time
    ghost var log: seq<Event>

    ghost function Snapshot(): State
      reads this
    {
      State(account, sessions, challenges, passkeys, clock, log)
    }

    constructor (start: Time)
      requires start >= 0.0
      ensures Initial(Snapshot())
    {
      account, sessions, challenges, passkeys, clock, log := None, map[], map[], 0, start, [];
    }

    // -------------------------------------------------------------- building blocks

    method CheckPinValue(pinOk: bool, now: Time) returns (r: PinResult)
      modifies this`account, this`log
      ensures Snapshot() == AfterPin(old(Snapshot()), pinOk, now) && r == PinOutcome(old(Snapshot()), pinOk, now)
    {
      if account.None? || !account.value.setup || !account.value.enabled { return Unavailable; }
      var a := account.value;
      if a.lockedUntil.Some? && a.lockedUntil.value != 0.0 && a.lockedUntil.value > now { return TemporarilyLocked; }
      if !a.hasPin || !pinOk {
        a := a.(failed := a.failed + 1);
        if a.failed >= 5 { a := a.(lockedUntil := Some(now + MinNat(300, Pow2(MinNat(a.failed - 4, 8))) as real)); }
        account, log := Some(a), log + [PinFailed(now, a.hasPin && pinOk)];
        return InvalidPin;
      }
      account, log := Some(a.(failed := 0, lockedUntil := None)), log + [PinVerified(now, a.hasPin && pinOk)];
      return ValidPin;
    }

    method CreateSession(token: Token, at: Time)
      modifies this`sessions, this`log
      ensures Snapshot() == WithSession(old(Snapshot()), token, at)
    {
      sessions := sessions[token := Session(at, at, at + SESSION_LIFETIME, None)];
      log := log + [SessionCreated(token, at)];
    }

    method Revoke(token: Token, now: Time)
      requires token in sessions
      modifies this`sessions, this`log
      ensures Snapshot() == RevokeOne(old(Snapshot()), token, now)
    {
      sessions := sessions[token := sessions[token].(revoked := Some(now))];
      log := log + [SessionRevoked(token, now)];
    }

    /** The session a token stands for; an expired one is revoked on sight. */
    method FindSession(token: Option<Token>, now: Time) returns (r: AuthResult)
      modifies this`sessions, this`log
      ensures Snapshot() == AfterAuth(old(Snapshot()), token, now) && r == AuthOutcome(old(Snapshot()), token, now)
      ensures r.Row? ==> r.token in sessions && sessions == old(sessions)
    {
      if account.Some? && account.value.setup && !account.value.enabled { return Disabled; }
      if account.None? || !account.value.setup || token.None? { return Denied; }
      if token.value !in sessions || sessions[token.value].revoked.Some? { return Denied; }
      if sessions[token.value].expires <= now {
        Revoke(token.value, now);
        return Denied;
      }
      log := log + [TokenAccepted(token.value, now)];
      return Row(token.value);
    }

    /** Every session that is not yet revoked is revoked now. */
    method RevokeRows(now: Time) returns (count: nat)
      modifies this`sessions, this`log
      ensures Snapshot() == RevokeAll(old(Snapshot()), now)
    {
      count := 0;
      var todo := sessions.Keys;
      while todo != {}
        invariant todo <= sessions.Keys == old(sessions).Keys && log == old(log)
        invariant forall t :: t in sessions ==>
                    sessions[t] == if t in todo then old(sessions[t]) else RevokeAll(old(Snapshot()), now).sessions[t]
        decreases |todo|
      {
        var t :| t in todo;
        if sessions[t].revoked.None? {
          sessions := sessions[t := sessions[t].(revoked := Some(now))];
          count := count + 1;
        }
        todo := todo - {t};
      }
      log := log + [AllRevoked(now)];
    }

    method FindChallenge(id: ChallengeId, kind: Kind, now: Time) returns (ok: bool)
      ensures ok == Usable(Snapshot(), id, kind, now)
    {
      ok := id in challenges && challenges[id].kind == kind && challenges[id].consumed.None? && challenges[id].expires > now;
    }

    method Consume(id: ChallengeId, now: Time, later: Time)
      requires id in challenges
      modifies this`challenges, this`log
      ensures Snapshot() == Consumed(old(Snapshot()), id, now, later)
    {
      challenges := challenges[id := challenges[id].(consumed := Some(later))];
      log := log + [ChallengeUsed(id, now)];
    }

    /** A new PIN and recovery code: failures cleared, every session revoked, one new session. */
    method Renew(a: Account, token: Token, now: Time, later: Time)
      modifies this`account, this`sessions, this`log
      ensures Snapshot() == Renewed(old(Snapshot()), a, token, now, later)
    {
      account, log := Some(a), log + [PinReset(now)];
      var count := RevokeRows(now);
      CreateSession(token, later);
    }

    // -------------------------------------------------------------- API

    method AuthenticateToken(token: Option<Token>, now: Time, later: Time) returns (r: AuthResult)
      modifies this`sessions, this`log, this`clock
      ensures Snapshot() == Next(old(Snapshot()), Authenticate(token), now, later)
      ensures r.Row? <==> LiveSession(old(Snapshot()), token, now)
      ensures r.Row? ==> Some(r.token) == token
      ensures r.Disabled? <==> SwitchedOff(old(Snapshot()))
    {
      AfterAuthIs(Snapshot(), token, now);
      r := FindSession(token, now);
      clock := later;
    }

    method RequireFreshProof(token: Option<Token>, now: Time, later: Time) returns (ok: bool)
      modifies this`sessions, this`log, this`clock
      ensures Snapshot() == Next(old(Snapshot()), RequireStepUp(token), now, later)
      ensures ok <==> StepUpPasses(old(Snapshot()), token, now, later)
    {
      AfterRequireIs(Snapshot(), token, now, later);
      var r := FindSession(token, now);
      clock := later;
      match r {
        case Disabled => return true;
        case Denied => return false;
        case Row(k) =>
          if later - sessions[k].stepUp > STEP_UP_MAX_AGE { return false; }
          log := log + [StepUpPassed(k, later)];
          return true;
      }
    }

    method Unlock(pinOk: bool, token: Token, now: Time, later: Time) returns (r: PinResult)
      modifies this
      ensures Snapshot() == Next(old(Snapshot()), VerifyPin(pinOk, token), now, later)
      ensures r.ValidPin? <==> PinPasses(old(Snapshot()), pinOk, now)
      ensures r.InvalidPin? <==> PinCounts(old(Snapshot()), pinOk, now)
      ensures r.TemporarilyLocked? <==> SwitchedOn(old(Snapshot())) && LockedAt(old(Snapshot()), now)
    {
      r := CheckPinValue(pinOk, now);
      if r.ValidPin? { CreateSession(token, later); }
      clock := later;
    }

    method StepUp(token: Option<Token>, pinOk: bool, now: Time, later: Time) returns (ok: bool)
      modifies this
      ensures Snapshot() == Next(old(Snapshot()), StepUpPin(token, pinOk), now, later)
      ensures ok <==> LiveSession(old(Snapshot()), token, now) && PinPasses(old(Snapshot()), pinOk, now)
    {
      AfterAuthIs(Snapshot(), token, now);
      var r := FindSession(token, now);
      ok := false;
      if r.Row? {
        var p := CheckPinValue(pinOk, now);
        if p.ValidPin? {
          sessions := sessions[r.token := sessions[r.token].(stepUp := later)];
          log := log + [SteppedUp(r.token, later)];
          ok := true;
        }
      }
      clock := later;
    }

    method LockSessions(token: Option<Token>, all: bool, now: Time, later: Time)
      modifies this`sessions, this`log, this`clock
      ensures Snapshot() == Next(old(Snapshot()), Lock(token, all), now, later)
    {
      if all {
        var count := RevokeRows(now);
      } else if token.Some? && token.value in sessions && sessions[token.value].revoked.None? {
        Revoke(token.value, now);
      }
      clock := later;
    }

    method FinishPasskeyUnlock(id: ChallengeId, known: bool, verified: bool, token: Token, now: Time, later: Time) returns (ok: bool)
      modifies this
      ensures Snapshot() == Next(old(Snapshot()), FinishAuthentication(id, known, verified, token), now, later)
      ensures ok <==> ChallengeOpen(old(Snapshot()), id, Authentication, now) && known && verified
    {
      ok := FindChallenge(id, Authentication, now);
      ok := ok && known && verified;
      if ok {
        Consume(id, now, later);
        CreateSession(token, later);
      }
      clock := later;
    }

    method FinishPasskeyRegistration(token: Option<Token>, id: ChallengeId, verified: bool, newKey: bool, now: Time, later: Time)
      modifies this
      ensures Snapshot() == Next(old(Snapshot()), FinishRegistration(token, id, verified, newKey), now, later)
    {
      var r := FindSession(token, now);
      if r.Row? {
        var ok := FindChallenge(id, Registration, now);
        if ok && verified && newKey {
          Consume(id, now, later);
          passkeys := passkeys + 1;
          sessions := sessions[r.token := sessions[r.token].(stepUp := later)];
          log := log + [SteppedUp(r.token, later)];
        }
      }
      clock := later;
    }

    method Recover(codeOk: bool, token: Token, now: Time, later: Time) returns (ok: bool)
      modifies this
      ensures Snapshot() == Next(old(Snapshot()), ResetWithRecovery(codeOk, token), now, later)
      ensures ok <==> old(account).Some? && old(account).value.hasRecovery && codeOk
    {
      ok := account.Some? && account.value.hasRecovery && codeOk;
      if ok {
        var a := account.value.(hasPin := true, hasRecovery := true, failed := 0, lockedUntil := None, enabled := true);
        Renew(a, token, now, later);
      }
      clock := later;
    }

    method ResetAsOsAdmin(isAdmin: bool, token: Token, now: Time, later: Time)
      modifies this
      ensures Snapshot() == Next(old(Snapshot()), ResetAsAdmin(isAdmin, token), now, later)
    {
      if isAdmin {
        if account.None? {
          account, log := Some(FreshAccount(true, true)), log + [PinReset(now)];
          CreateSession(token, later);
        } else {
          Renew(FreshAccount(true, true), token, now, later);
        }
      }
      clock := later;
    }
  }
}
