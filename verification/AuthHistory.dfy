/**
 What the authentication log proves.  Each question about the past is a function of the log; an entry
 is justified by the entries before it; and the stored rows say what the log says.
 */
module AuthHistory {
  import opened Wrappers
  import opened OperatorAuth

  // ---------------------------------------------------------------- questions to the log

  /** Times of the counted failures since the account was last cleared. */
  function Failures(log: seq<Event>): seq<Time> {
    if log == [] then []
    else match log[|log| - 1]
      case PinFailed(at, _) => Failures(log[..|log| - 1]) + [at]
      case PinVerified(_, _) => []
      case PinReset(_) => []
      case _ => Failures(log[..|log| - 1])
  }

  function Created(log: seq<Event>, k: Token): Option<Time> {
    if log == [] then None
    else match log[|log| - 1]
      case SessionCreated(token, at) => if token == k then Some(at) else Created(log[..|log| - 1], k)
      case _ => Created(log[..|log| - 1], k)
  }

  /** Created, and revoked neither by itself nor with all others since. */
  predicate Live(log: seq<Event>, k: Token) {
    log != [] &&
    match log[|log| - 1]
    case SessionCreated(token, _) => token == k || Live(log[..|log| - 1], k)
    case SessionRevoked(token, _) => token != k && Live(log[..|log| - 1], k)
    case AllRevoked(_) => false
    case _ => Live(log[..|log| - 1], k)
  }

  /** The last time the holder of the token proved to be present. */
  function LastProof(log: seq<Event>, k: Token): Option<Time> {
    if log == [] then None
    else match log[|log| - 1]
      case SessionCreated(token, at) => if token == k then Some(at) else LastProof(log[..|log| - 1], k)
      case SteppedUp(token, at) => if token == k then Some(at) else LastProof(log[..|log| - 1], k)
      case _ => LastProof(log[..|log| - 1], k)
  }

  function Issued(log: seq<Event>, id: ChallengeId): Option<Time> {
    if log == [] then None
    else match log[|log| - 1]
      case ChallengeIssued(c, at) => if c == id then Some(at) else Issued(log[..|log| - 1], id)
      case _ => Issued(log[..|log| - 1], id)
  }

  predicate Used(log: seq<Event>, id: ChallengeId) {
    exists i :: 0 <= i < |log| && log[i].ChallengeUsed? && log[i].id == id
  }

  // ---------------------------------------------------------------- justified entries

  predicate Spaced(before: seq<Time>, at: Time) {
    before == [] || at - before[|before| - 1] >= Lockout(|before|) as real
  }

  /** What a session can start from: a correct PIN, a first PIN, a passkey, or a reset. */
  predicate Opens(e: Event) { e.PinVerified? || e.PinReset? || e.ChallengeUsed? || e.AllRevoked? }

  predicate Justified(before: seq<Event>, e: Event) {
    match e
    case PinFailed(at, matched) => !matched && Spaced(Failures(before), at)
    case PinVerified(at, matched) => matched && Spaced(Failures(before), at)
    case SessionCreated(_, _) => before != [] && Opens(before[|before| - 1])
    case SteppedUp(_, _) => before != [] && (before[|before| - 1].PinVerified? || before[|before| - 1].ChallengeUsed?)
    case TokenAccepted(k, at) =>
      Created(before, k).Some? && Live(before, k) && Created(before, k).value <= at < Created(before, k).value + SESSION_LIFETIME
    case StepUpPassed(k, at) =>
      LastProof(before, k).Some? && LastProof(before, k).value <= at <= LastProof(before, k).value + STEP_UP_MAX_AGE
    case ChallengeUsed(id, at) =>
      Issued(before, id).Some? && !Used(before, id) && Issued(before, id).value <= at < Issued(before, id).value + CHALLENGE_LIFETIME
    case _ => true
  }

  ghost predicate LogOk(log: seq<Event>) {
    forall i :: 0 <= i < |log| ==> Justified(log[..i], log[i])
  }

  // ---------------------------------------------------------------- stored rows

  predicate AccountOk(a: Option<Account>, log: seq<Event>, t: Time) {
    var f := Failures(log);
    && (f != [] ==> 0.0 <= f[|f| - 1] <= t)
    && match a
       case None => f == []
       case Some(account) =>
         && account.failed == |f|
         && account.lockedUntil == if |f| < 5 then None else Some(f[|f| - 1] + Lockout(|f|) as real)
  }

  predicate SessionOk(s: Session, log: seq<Event>, k: Token, t: Time) {
    && Created(log, k) == Some(s.created) && s.created <= t && s.expires == s.created + SESSION_LIFETIME
    && LastProof(log, k) == Some(s.stepUp) && s.stepUp <= t
    && (s.revoked.None? <==> Live(log, k))
  }

  ghost predicate SessionsOk(sessions: map<Token, Session>, log: seq<Event>, t: Time) {
    && (forall k :: k in sessions ==> SessionOk(sessions[k], log, k, t))
    && (forall k :: Created(log, k).Some? ==> k in sessions)
  }

  predicate ChallengeOk(c: Challenge, log: seq<Event>, id: ChallengeId, t: Time) {
    && Issued(log, id) == Some(c.issued) && c.issued <= t && c.expires == c.issued + CHALLENGE_LIFETIME
    && (c.consumed.None? <==> !Used(log, id))
  }

  ghost predicate ChallengesOk(challenges: map<ChallengeId, Challenge>, log: seq<Event>, t: Time) {
    && (forall id :: id in challenges ==> ChallengeOk(challenges[id], log, id, t))
    && (forall id :: Used(log, id) ==> id in challenges)
  }

  ghost predicate Inv(s: State, t: Time) {
    && t >= 0.0 && LogOk(s.log) && AccountOk(s.account, s.log, t)
    && SessionsOk(s.sessions, s.log, t) && ChallengesOk(s.challenges, s.log, t)
  }

  // ---------------------------------------------------------------- one more entry

  lemma Appended(log: seq<Event>, e: Event)
    ensures (log + [e])[..|log|] == log && (log + [e])[|log|] == e
  {
  }

  lemma AppendLog(log: seq<Event>, e: Event)
    requires LogOk(log) && Justified(log, e)
    ensures LogOk(log + [e])
  {
    Appended(log, e);
    forall i | 0 <= i < |log| + 1 ensures Justified((log + [e])[..i], (log + [e])[i]) {
      if i < |log| { assert (log + [e])[..i] == log[..i]; }
    }
  }

  lemma UsedAppend(log: seq<Event>, e: Event, id: ChallengeId)
    ensures Used(log + [e], id) <==> Used(log, id) || (e.ChallengeUsed? && e.id == id)
  {
    Appended(log, e);
    if Used(log, id) {
      var i :| 0 <= i < |log| && log[i].ChallengeUsed? && log[i].id == id;
      assert (log + [e])[i] == log[i];
    }
    if e.ChallengeUsed? && e.id == id { assert (log + [e])[|log|] == e; }
  }

  predicate TouchesSessions(e: Event) { e.SessionCreated? || e.SessionRevoked? || e.AllRevoked? || e.SteppedUp? }
  predicate TouchesChallenges(e: Event) { e.ChallengeIssued? || e.ChallengeUsed? }
  predicate TouchesPin(e: Event) { e.PinFailed? || e.PinVerified? || e.PinReset? }

  lemma OtherSessions(sessions: map<Token, Session>, log: seq<Event>, e: Event, t: Time)
    requires SessionsOk(sessions, log, t) && !TouchesSessions(e)
    ensures SessionsOk(sessions, log + [e], t)
  {
    Appended(log, e);
  }

  lemma OtherChallenges(challenges: map<ChallengeId, Challenge>, log: seq<Event>, e: Event, t: Time)
    requires ChallengesOk(challenges, log, t) && !TouchesChallenges(e)
    ensures ChallengesOk(challenges, log + [e], t)
  {
    Appended(log, e);
    forall id ensures Used(log + [e], id) <==> Used(log, id) { UsedAppend(log, e, id); }
  }

  lemma OtherAccount(a: Option<Account>, log: seq<Event>, e: Event, t: Time)
    requires AccountOk(a, log, t) && !TouchesPin(e)
    ensures AccountOk(a, log + [e], t)
  {
    Appended(log, e);
  }

  // ---------------------------------------------------------------- the effects of a call

  lemma LaterInv(s: State, t: Time, later: Time)
    requires Inv(s, t) && t <= later
    ensures Inv(s, later)
  {
  }

  /** An entry nobody's row depends on. */
  lemma NotedInv(s: State, e: Event, t: Time)
    requires Inv(s, t) && Justified(s.log, e) && !TouchesSessions(e) && !TouchesChallenges(e) && !TouchesPin(e)
    ensures Inv(s.(log := s.log + [e]), t)
  {
    AppendLog(s.log, e);
    OtherSessions(s.sessions, s.log, e, t);
    OtherChallenges(s.challenges, s.log, e, t);
    OtherAccount(s.account, s.log, e, t);
  }

  lemma ClearedInv(s: State, a: Account, e: Event, t: Time)
    requires Inv(s, t) && a.failed == 0 && a.lockedUntil == None && (e.PinVerified? || e.PinReset?) && Justified(s.log, e)
    ensures Inv(s.(account := Some(a), log := s.log + [e]), t)
  {
    AppendLog(s.log, e);
    OtherSessions(s.sessions, s.log, e, t);
    OtherChallenges(s.challenges, s.log, e, t);
    Appended(s.log, e);
  }

  lemma LockoutIsPositive(n: nat)
    requires n >= 5
    ensures 2 <= Lockout(n) <= 256 && Lockout(n) == Pow2(MinNat(n - 4, 8))
  {
    assert MinNat(n - 4, 8) in {1, 2, 3, 4, 5, 6, 7, 8};
    assert Pow2(8) == 256;
  }

  lemma PinInv(s: State, pinOk: bool, now: Time)
    requires Inv(s, now)
    ensures Inv(AfterPin(s, pinOk, now), now)
  {
    match PinOutcome(s, pinOk, now) {
      case ValidPin =>
        UnlockedIsSpaced(s, now);
        ClearedInv(s, s.account.value.(failed := 0, lockedUntil := None), PinVerified(now, true), now);
      case InvalidPin => FailedInv(s, now);
      case _ =>
    }
  }

  /** While the account is not locked, the last lockout is over. */
  lemma UnlockedIsSpaced(s: State, now: Time)
    requires Inv(s, now) && s.account.Some? && !Locked(s.account.value, now)
    ensures Spaced(Failures(s.log), now)
  {
    if |Failures(s.log)| >= 5 { LockoutIsPositive(|Failures(s.log)|); }
  }

  lemma FailedAccount(a: Account, log: seq<Event>, now: Time)
    requires AccountOk(Some(a), log, now) && now >= 0.0
    ensures AccountOk(Some(Penalised(a, now)), log + [PinFailed(now, false)], now)
  {
    Appended(log, PinFailed(now, false));
  }

  lemma FailedInv(s: State, now: Time)
    requires Inv(s, now) && s.account.Some? && !Locked(s.account.value, now)
    ensures Inv(s.(account := Some(Penalised(s.account.value, now)), log := s.log + [PinFailed(now, false)]), now)
  {
    var e := PinFailed(now, false);
    UnlockedIsSpaced(s, now);
    AppendLog(s.log, e);
    OtherSessions(s.sessions, s.log, e, now);
    OtherChallenges(s.challenges, s.log, e, now);
    FailedAccount(s.account.value, s.log, now);
  }

  lemma SessionInv(s: State, k: Token, at: Time)
    requires Inv(s, at) && k !in s.sessions && s.log != [] && Opens(s.log[|s.log| - 1])
    ensures Inv(WithSession(s, k, at), at)
  {
    var e := SessionCreated(k, at);
    AppendLog(s.log, e);
    OtherAccount(s.account, s.log, e, at);
    OtherChallenges(s.challenges, s.log, e, at);
    Appended(s.log, e);
  }

  lemma RevokeOneInv(s: State, k: Token, now: Time, t: Time)
    requires Inv(s, t) && k in s.sessions && s.sessions[k].revoked.None?
    ensures Inv(RevokeOne(s, k, now), t)
  {
    var e := SessionRevoked(k, now);
    AppendLog(s.log, e);
    OtherAccount(s.account, s.log, e, t);
    OtherChallenges(s.challenges, s.log, e, t);
    Appended(s.log, e);
  }

  lemma RevokeAllInv(s: State, now: Time, t: Time)
    requires Inv(s, t)
    ensures Inv(RevokeAll(s, now), t)
  {
    var e := AllRevoked(now);
    AppendLog(s.log, e);
    OtherAccount(s.account, s.log, e, t);
    OtherChallenges(s.challenges, s.log, e, t);
    Appended(s.log, e);
  }

  lemma StepUpInv(s: State, k: Token, at: Time)
    requires Inv(s, at) && k in s.sessions && Justified(s.log, SteppedUp(k, at))
    ensures Inv(WithStepUp(s, k, at), at)
  {
    var e := SteppedUp(k, at);
    AppendLog(s.log, e);
    OtherAccount(s.account, s.log, e, at);
    OtherChallenges(s.challenges, s.log, e, at);
    Appended(s.log, e);
  }

  lemma ChallengeInv(s: State, id: ChallengeId, kind: Kind, at: Time)
    requires Inv(s, at) && id !in s.challenges
    ensures Inv(WithChallenge(s, id, kind, at), at)
  {
    var e := ChallengeIssued(id, at);
    AppendLog(s.log, e);
    OtherAccount(s.account, s.log, e, at);
    OtherSessions(s.sessions, s.log, e, at);
    Appended(s.log, e);
    forall c ensures Used(s.log + [e], c) <==> Used(s.log, c) { UsedAppend(s.log, e, c); }
  }

  lemma ConsumedInv(s: State, id: ChallengeId, kind: Kind, now: Time, later: Time)
    requires Inv(s, now) && Usable(s, id, kind, now)
    ensures Inv(Consumed(s, id, now, later), now)
  {
    var e := ChallengeUsed(id, now);
    assert Justified(s.log, e);
    AppendLog(s.log, e);
    OtherAccount(s.account, s.log, e, now);
    OtherSessions(s.sessions, s.log, e, now);
    Appended(s.log, e);
    forall c ensures Used(s.log + [e], c) <==> Used(s.log, c) || c == id { UsedAppend(s.log, e, c); }
  }

  lemma AuthInv(s: State, token: Option<Token>, now: Time)
    requires Inv(s, now)
    ensures Inv(AfterAuth(s, token, now), now)
  {
    if AuthOutcome(s, token, now).Row? {
      assert SessionOk(s.sessions[token.value], s.log, token.value, now);
      NotedInv(s, TokenAccepted(token.value, now), now);
    } else if Expires(s, token, now) {
      RevokeOneInv(s, token.value, now, now);
    }
  }

  lemma RequireInv(s: State, token: Option<Token>, now: Time, later: Time)
    requires Inv(s, now) && now <= later
    ensures Inv(AfterRequire(s, token, now, later), later)
  {
    AuthInv(s, token, now);
    var t := AfterAuth(s, token, now);
    LaterInv(t, now, later);
    if AuthOutcome(s, token, now).Row? && !StepUpDue(s, token.value, later) {
      assert SessionOk(t.sessions[token.value], t.log, token.value, now);
      NotedInv(t, StepUpPassed(token.value, later), later);
    }
  }

  lemma RenewedInv(s: State, a: Account, k: Token, now: Time, later: Time)
    requires Inv(s, now) && now <= later && k !in s.sessions && a.failed == 0 && a.lockedUntil == None
    ensures Inv(Renewed(s, a, k, now, later), later)
  {
    ClearedInv(s, a, PinReset(now), now);
    RevokeAllInv(WithAccount(s, a, now), now, now);
    LaterInv(RevokeAll(WithAccount(s, a, now), now), now, later);
    SessionInv(RevokeAll(WithAccount(s, a, now), now), k, later);
  }

  // ---------------------------------------------------------------- API calls

  lemma SetupInv(s: State, k: Token, now: Time, later: Time)
    requires Inv(s, now) && now <= later && k !in s.sessions
    ensures Inv(DoSetup(s, k, now, later), later)
  {
    LaterInv(s, now, later);
    ClearedInv(s, FreshAccount(true, true), PinReset(now), later);
    SessionInv(WithAccount(s, FreshAccount(true, true), now), k, later);
  }

  lemma SetEnabledInv(s: State, enabled: bool, token: Option<Token>, pinOk: bool, now: Time, later: Time)
    requires Inv(s, now) && now <= later
    ensures Inv(DoSetEnabled(s, enabled, token, pinOk, now, later), later)
  {
    RequireInv(s, token, now, later);
    var t := AfterRequire(s, token, now, later);
    if Required(s, token, now, later) && t.account.Some? {
      if enabled && !t.account.value.hasPin {
        ClearedInv(t, t.account.value.(hasPin := true, hasRecovery := true, failed := 0, lockedUntil := None, enabled := true), PinReset(later), later);
      } else {
        PinInv(t, pinOk, later);
      }
    }
  }

  lemma VerifyPinInv(s: State, pinOk: bool, k: Token, now: Time, later: Time)
    requires Inv(s, now) && now <= later && k !in s.sessions
    ensures Inv(DoVerifyPin(s, pinOk, k, now, later), later)
  {
    PinInv(s, pinOk, now);
    LaterInv(AfterPin(s, pinOk, now), now, later);
    if PinOutcome(s, pinOk, now).ValidPin? { SessionInv(AfterPin(s, pinOk, now), k, later); }
  }

  lemma StepUpPinInv(s: State, token: Option<Token>, pinOk: bool, now: Time, later: Time)
    requires Inv(s, now) && now <= later
    ensures Inv(DoStepUpPin(s, token, pinOk, now, later), later)
  {
    var t := AfterAuth(s, token, now);
    AuthInv(s, token, now);
    PinInv(t, pinOk, now);
    LaterInv(t, now, later);
    LaterInv(AfterPin(t, pinOk, now), now, later);
    if AuthOutcome(s, token, now).Row? && PinOutcome(t, pinOk, now).ValidPin? {
      StepUpInv(AfterPin(t, pinOk, now), token.value, later);
    }
  }

  lemma StartRegistrationInv(s: State, token: Option<Token>, id: ChallengeId, now: Time, later: Time)
    requires Inv(s, now) && now <= later && id !in s.challenges
    ensures Inv(DoStartRegistration(s, token, id, now, later), later)
  {
    AuthInv(s, token, now);
    LaterInv(AfterAuth(s, token, now), now, later);
    ChallengeInv(AfterAuth(s, token, now), id, Registration, later);
  }

  lemma FinishRegistrationInv(s: State, token: Option<Token>, id: ChallengeId, ok: bool, newKey: bool, now: Time, later: Time)
    requires Inv(s, now) && now <= later
    ensures Inv(DoFinishRegistration(s, token, id, ok, newKey, now, later), later)
  {
    var t := AfterAuth(s, token, now);
    AuthInv(s, token, now);
    LaterInv(t, now, later);
    if AuthOutcome(s, token, now).Row? && Usable(t, id, Registration, now) {
      ConsumedInv(t, id, Registration, now, later);
      var u := Consumed(t, id, now, later).(passkeys := t.passkeys + 1);
      LaterInv(u, now, later);
      StepUpInv(u, token.value, later);
    }
  }

  lemma FinishAuthenticationInv(s: State, id: ChallengeId, known: bool, ok: bool, k: Token, now: Time, later: Time)
    requires Inv(s, now) && now <= later && k !in s.sessions
    ensures Inv(DoFinishAuthentication(s, id, known, ok, k, now, later), later)
  {
    LaterInv(s, now, later);
    if Usable(s, id, Authentication, now) {
      ConsumedInv(s, id, Authentication, now, later);
      LaterInv(Consumed(s, id, now, later), now, later);
      SessionInv(Consumed(s, id, now, later), k, later);
    }
  }

  lemma NextInv(s: State, c: Call, now: Time, later: Time)
    requires Inv(s, s.clock) && Enabled(s, c, now, later)
    ensures Inv(Next(s, c, now, later), later)
  {
    LaterInv(s, s.clock, now);
    LaterInv(s, s.clock, later);
    match c {
      case SetupPin(k) => SetupInv(s, k, now, later);
      case DisableFirstRun =>
      case SetEnabled(enabled, token, pinOk) => SetEnabledInv(s, enabled, token, pinOk, now, later);
      case VerifyPin(pinOk, k) => VerifyPinInv(s, pinOk, k, now, later);
      case StepUpPin(token, pinOk) => StepUpPinInv(s, token, pinOk, now, later);
      case Authenticate(token) => AuthInv(s, token, now); LaterInv(AfterAuth(s, token, now), now, later);
      case RequireStepUp(token) => RequireInv(s, token, now, later);
      case Lock(token, all) => LockInv(s, token, all, now, later);
      case StartRegistration(token, id) => StartRegistrationInv(s, token, id, now, later);
      case FinishRegistration(token, id, ok, newKey) => FinishRegistrationInv(s, token, id, ok, newKey, now, later);
      case StartAuthentication(id) => ChallengeInv(s, id, Authentication, later);
      case FinishAuthentication(id, known, ok, k) => FinishAuthenticationInv(s, id, known, ok, k, now, later);
      case ResetWithRecovery(codeOk, k) => ResetInv(s, k, now, later);
      case ResetAsAdmin(isAdmin, k) =>
        SetupInv(s, k, now, later);
        RenewedInv(s, FreshAccount(true, true), k, now, later);
    }
  }

  lemma LockInv(s: State, token: Option<Token>, all: bool, now: Time, t: Time)
    requires Inv(s, t)
    ensures Inv(AfterLock(s, token, all, now), t)
  {
    if all { RevokeAllInv(s, now, t); }
    else if token.Some? && token.value in s.sessions && s.sessions[token.value].revoked.None? { RevokeOneInv(s, token.value, now, t); }
  }

  lemma ResetInv(s: State, k: Token, now: Time, later: Time)
    requires Inv(s, now) && now <= later && k !in s.sessions
    ensures forall codeOk :: Inv(DoResetWithRecovery(s, codeOk, k, now, later), later)
  {
    LaterInv(s, now, later);
    if s.account.Some? {
      RenewedInv(s, s.account.value.(hasPin := true, hasRecovery := true, failed := 0, lockedUntil := None, enabled := true), k, now, later);
    }
  }

  lemma {:induction false} RunInv(s: State, trace: seq<Step>)
    requires Inv(s, s.clock) && Runs(s, trace)
    ensures Inv(After(s, trace), After(s, trace).clock)
    decreases |trace|
  {
    if trace != [] {
      NextInv(s, trace[0].call, trace[0].now, trace[0].later);
      RunInv(Next(s, trace[0].call, trace[0].now, trace[0].later), trace[1..]);
    }
  }
}
