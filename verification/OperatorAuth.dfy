/**
 Operator authentication (core/auth/service.py) as a state machine over its API calls, with a log of
 what happened.  A call reads the clock when it checks (`now`) and again when it writes (`later`).
 Hashing, WebAuthn verification and random tokens are parameters.
 */
module OperatorAuth {
  import opened Wrappers

  type Token = nat
  type ChallengeId = nat
  type Time = real

  const SESSION_LIFETIME: Time := 28800.0
  const STEP_UP_MAX_AGE: Time := 300.0
  const CHALLENGE_LIFETIME: Time := 300.0

  datatype Account = Account(setup: bool, enabled: bool, hasPin: bool, hasRecovery: bool, failed: nat, lockedUntil: Option<Time>)

  datatype Session = Session(created: Time, stepUp: Time, expires: Time, revoked: Option<Time>)

  datatype Kind = Registration | Authentication

  datatype Challenge = Challenge(kind: Kind, issued: Time, expires: Time, consumed: Option<Time>)

  datatype Event =
    | PinFailed(at: Time, matched: bool)           // counted against the account; did the PIN match?
    | PinVerified(at: Time, matched: bool)         // accepted; did the PIN match?
    | PinReset(at: Time)                           // a new PIN was set, failures forgotten
    | SessionCreated(token: Token, at: Time)
    | SessionRevoked(token: Token, at: Time)
    | AllRevoked(at: Time)
    | TokenAccepted(token: Token, at: Time)        // `authenticate` returned the session
    | SteppedUp(token: Token, at: Time)            // a fresh proof of presence
    | StepUpPassed(token: Token, at: Time)         // `require_step_up` returned the session
    | ChallengeIssued(id: ChallengeId, at: Time)
    | ChallengeUsed(id: ChallengeId, at: Time)

  datatype State = State(account: Option<Account>, sessions: map<Token, Session>, challenges: map<ChallengeId, Challenge>,
                         passkeys: nat, clock: Time, log: seq<Event>)

  datatype Call =
    | SetupPin(fresh_: Token)
    | DisableFirstRun
    | SetEnabled(enabled: bool, token: Option<Token>, pinOk: bool)
    | VerifyPin(pinOk: bool, fresh_: Token)
    | StepUpPin(token: Option<Token>, pinOk: bool)
    | Authenticate(token: Option<Token>)
    | RequireStepUp(token: Option<Token>)
    | Lock(token: Option<Token>, all: bool)
    | StartRegistration(token: Option<Token>, id: ChallengeId)
    | FinishRegistration(token: Option<Token>, id: ChallengeId, ok: bool, newKey: bool)
    | StartAuthentication(id: ChallengeId)
    | FinishAuthentication(id: ChallengeId, known: bool, ok: bool, fresh_: Token)
    | ResetWithRecovery(codeOk: bool, fresh_: Token)
    | ResetAsAdmin(isAdmin: bool, fresh_: Token)

  // ---------------------------------------------------------------- the PIN

  function Pow2(n: nat): nat { if n == 0 then 1 else 2 * Pow2(n - 1) }

  function MinNat(a: nat, b: nat): nat { if a < b then a else b }

  /** Seconds an account stays locked after its n-th consecutive failure. */
  function Lockout(n: nat): nat { if n < 5 then 0 else MinNat(300, Pow2(MinNat(n - 4, 8))) }

  predicate CanVerify(s: State) { s.account.Some? && s.account.value.setup && s.account.value.enabled }

  /** The truth value of a float: a lock that ends at 0.0 would not count as a lock. */
  predicate Locked(a: Account, now: Time) {
    a.lockedUntil.Some? && a.lockedUntil.value != 0.0 && a.lockedUntil.value > now
  }

  /** The presented PIN is the account's. */
  predicate Matches(a: Account, pinOk: bool) { a.hasPin && pinOk }

  datatype PinResult = Unavailable | TemporarilyLocked | InvalidPin | ValidPin

  function PinOutcome(s: State, pinOk: bool, now: Time): PinResult {
    if !CanVerify(s) then Unavailable
    else if Locked(s.account.value, now) then TemporarilyLocked
    else if s.account.value.hasPin && pinOk then ValidPin
    else InvalidPin
  }

  function Penalised(a: Account, now: Time): Account {
    a.(failed := a.failed + 1,
       lockedUntil := if a.failed + 1 >= 5 then Some(now + Lockout(a.failed + 1) as real) else a.lockedUntil)
  }

  /** `_verify_pin_value`. */
  function AfterPin(s: State, pinOk: bool, now: Time): State {
    match PinOutcome(s, pinOk, now)
    case InvalidPin => s.(account := Some(Penalised(s.account.value, now)), log := s.log + [PinFailed(now, Matches(s.account.value, pinOk))])
    case ValidPin => s.(account := Some(s.account.value.(failed := 0, lockedUntil := None)), log := s.log + [PinVerified(now, Matches(s.account.value, pinOk))])
    case _ => s
  }

  // ---------------------------------------------------------------- sessions

  function WithSession(s: State, token: Token, at: Time): State {
    s.(sessions := s.sessions[token := Session(at, at, at + SESSION_LIFETIME, None)], log := s.log + [SessionCreated(token, at)])
  }

  datatype AuthResult = Disabled | Denied | Row(token: Token)

  function AuthOutcome(s: State, token: Option<Token>, now: Time): AuthResult {
    if s.account.Some? && s.account.value.setup && !s.account.value.enabled then Disabled
    else if s.account.None? || !s.account.value.setup || token.None? then Denied
    else if token.value !in s.sessions || s.sessions[token.value].revoked.Some? then Denied
    else if s.sessions[token.value].expires <= now then Denied
    else Row(token.value)
  }

  predicate Expires(s: State, token: Option<Token>, now: Time) {
    && CanVerify(s) && token.Some? && token.value in s.sessions
    && s.sessions[token.value].revoked.None? && s.sessions[token.value].expires <= now
  }

  /** `authenticate`: an expired session is revoked on sight. */
  function AfterAuth(s: State, token: Option<Token>, now: Time): State {
    if AuthOutcome(s, token, now).Row? then s.(log := s.log + [TokenAccepted(token.value, now)])
    else if Expires(s, token, now) then RevokeOne(s, token.value, now)
    else s
  }

  function RevokeOne(s: State, token: Token, now: Time): State
    requires token in s.sessions
  {
    s.(sessions := s.sessions[token := s.sessions[token].(revoked := Some(now))], log := s.log + [SessionRevoked(token, now)])
  }

  function RevokeAll(s: State, now: Time): State {
    s.(sessions := map t | t in s.sessions ::
                     if s.sessions[t].revoked.None? then s.sessions[t].(revoked := Some(now)) else s.sessions[t],
       log := s.log + [AllRevoked(now)])
  }

  function AfterLock(s: State, token: Option<Token>, all: bool, now: Time): State {
    if all then RevokeAll(s, now)
    else if token.Some? && token.value in s.sessions && s.sessions[token.value].revoked.None? then RevokeOne(s, token.value, now)
    else s
  }

  function WithStepUp(s: State, token: Token, at: Time): State
    requires token in s.sessions
  {
    s.(sessions := s.sessions[token := s.sessions[token].(stepUp := at)], log := s.log + [SteppedUp(token, at)])
  }

  predicate StepUpDue(s: State, token: Token, later: Time)
    requires token in s.sessions
  {
    later - s.sessions[token].stepUp > STEP_UP_MAX_AGE
  }

  /** `require_step_up`: the age of the last proof is measured after the session was accepted. */
  function AfterRequire(s: State, token: Option<Token>, now: Time, later: Time): State {
    var t := AfterAuth(s, token, now);
    match AuthOutcome(s, token, now)
    case Row(k) => if StepUpDue(s, k, later) then t else t.(log := t.log + [StepUpPassed(k, later)])
    case _ => t
  }

  /** Whether `require_step_up` lets the call go on. */
  predicate Required(s: State, token: Option<Token>, now: Time, later: Time) {
    match AuthOutcome(s, token, now)
    case Disabled => true
    case Denied => false
    case Row(k) => !StepUpDue(s, k, later)
  }

  // ---------------------------------------------------------------- challenges

  function WithChallenge(s: State, id: ChallengeId, kind: Kind, at: Time): State {
    s.(challenges := s.challenges[id := Challenge(kind, at, at + CHALLENGE_LIFETIME, None)], log := s.log + [ChallengeIssued(id, at)])
  }

  predicate Usable(s: State, id: ChallengeId, kind: Kind, now: Time) {
    && id in s.challenges && s.challenges[id].kind == kind
    && s.challenges[id].consumed.None? && s.challenges[id].expires > now
  }

  function Consumed(s: State, id: ChallengeId, now: Time, later: Time): State
    requires id in s.challenges
  {
    s.(challenges := s.challenges[id := s.challenges[id].(consumed := Some(later))], log := s.log + [ChallengeUsed(id, now)])
  }

  // ---------------------------------------------------------------- API calls

  function FreshAccount(enabled: bool, pin: bool): Account { Account(true, enabled, pin, pin, 0, None) }

  function WithAccount(s: State, a: Account, now: Time): State {
    s.(account := Some(a), log := s.log + [PinReset(now)])
  }

  predicate Configured(s: State) { s.account.Some? && s.account.value.setup }

  function DoSetup(s: State, token: Token, now: Time, later: Time): State {
    if Configured(s) then s else WithSession(WithAccount(s, FreshAccount(true, true), now), token, later)
  }

  function DoDisableFirstRun(s: State, now: Time): State {
    if Configured(s) then s
    else if s.account.None? then s.(account := Some(FreshAccount(false, false)))
    else s.(account := Some(s.account.value.(setup := true, enabled := false)))
  }

  /** Enabling for the first time stores a PIN; anything else needs the current one, which cannot be
      verified while authentication is disabled. */
  function DoSetEnabled(s: State, enabled: bool, token: Option<Token>, pinOk: bool, now: Time, later: Time): State {
    var t := AfterRequire(s, token, now, later);
    if !Required(s, token, now, later) || t.account.None? then t
    else if enabled && !t.account.value.hasPin then
      WithAccount(t, t.account.value.(hasPin := true, hasRecovery := true, failed := 0, lockedUntil := None, enabled := true), later)
    else
      var u := AfterPin(t, pinOk, later);
      if PinOutcome(t, pinOk, later).ValidPin? then u.(account := Some(u.account.value.(enabled := enabled))) else u
  }

  function DoVerifyPin(s: State, pinOk: bool, token: Token, now: Time, later: Time): State {
    var t := AfterPin(s, pinOk, now);
    if PinOutcome(s, pinOk, now).ValidPin? then WithSession(t, token, later) else t
  }

  function DoStepUpPin(s: State, token: Option<Token>, pinOk: bool, now: Time, later: Time): State {
    var t := AfterAuth(s, token, now);
    match AuthOutcome(s, token, now)
    case Denied => t
    case Disabled => t
    case Row(k) =>
      var u := AfterPin(t, pinOk, now);
      if PinOutcome(t, pinOk, now).ValidPin? then WithStepUp(u, k, later) else u
  }

  function DoStartRegistration(s: State, token: Option<Token>, id: ChallengeId, now: Time, later: Time): State {
    var t := AfterAuth(s, token, now);
    if AuthOutcome(s, token, now).Denied? then t else WithChallenge(t, id, Registration, later)
  }

  /** Registering a passkey needs a session, and counts as a proof of presence. */
  function DoFinishRegistration(s: State, token: Option<Token>, id: ChallengeId, ok: bool, newKey: bool, now: Time, later: Time): State {
    var t := AfterAuth(s, token, now);
    match AuthOutcome(s, token, now)
    case Denied => t
    case Disabled => t
    case Row(k) =>
      if !Usable(t, id, Registration, now) || !ok || !newKey then t
      else WithStepUp(Consumed(t, id, now, later).(passkeys := t.passkeys + 1), k, later)
  }

  function DoStartAuthentication(s: State, id: ChallengeId, later: Time): State {
    if s.passkeys == 0 then s else WithChallenge(s, id, Authentication, later)
  }

  function DoFinishAuthentication(s: State, id: ChallengeId, known: bool, ok: bool, token: Token, now: Time, later: Time): State {
    if !Usable(s, id, Authentication, now) || !known || !ok then s
    else WithSession(Consumed(s, id, now, later), token, later)
  }

  /** Both resets clear the failures, revoke every session and open a new one. */
  function Renewed(s: State, a: Account, token: Token, now: Time, later: Time): State {
    WithSession(RevokeAll(WithAccount(s, a, now), now), token, later)
  }

  function DoResetWithRecovery(s: State, codeOk: bool, token: Token, now: Time, later: Time): State {
    if s.account.None? || !s.account.value.hasRecovery || !codeOk then s
    else Renewed(s, s.account.value.(hasPin := true, hasRecovery := true, failed := 0, lockedUntil := None, enabled := true),
                 token, now, later)
  }

  function DoResetAsAdmin(s: State, isAdmin: bool, token: Token, now: Time, later: Time): State {
    if !isAdmin then s
    else if s.account.None? then DoSetup(s, token, now, later)
    else Renewed(s, FreshAccount(true, true), token, now, later)
  }

  // ---------------------------------------------------------------- transitions

  predicate FreshToken(s: State, c: Call) {
    match c
    case SetupPin(k) => k !in s.sessions
    case VerifyPin(_, k) => k !in s.sessions
    case FinishAuthentication(_, _, _, k) => k !in s.sessions
    case ResetWithRecovery(_, k) => k !in s.sessions
    case ResetAsAdmin(_, k) => k !in s.sessions
    case StartRegistration(_, id) => id !in s.challenges
    case StartAuthentication(id) => id !in s.challenges
    case _ => true
  }

  /** The clock never runs backwards, and secrets are new. */
  predicate Enabled(s: State, c: Call, now: Time, later: Time) {
    s.clock <= now <= later && FreshToken(s, c)
  }

  function Effect(s: State, c: Call, now: Time, later: Time): State {
    match c
    case SetupPin(k) => DoSetup(s, k, now, later)
    case DisableFirstRun => DoDisableFirstRun(s, now)
    case SetEnabled(enabled, token, pinOk) => DoSetEnabled(s, enabled, token, pinOk, now, later)
    case VerifyPin(pinOk, k) => DoVerifyPin(s, pinOk, k, now, later)
    case StepUpPin(token, pinOk) => DoStepUpPin(s, token, pinOk, now, later)
    case Authenticate(token) => AfterAuth(s, token, now)
    case RequireStepUp(token) => AfterRequire(s, token, now, later)
    case Lock(token, all) => AfterLock(s, token, all, now)
    case StartRegistration(token, id) => DoStartRegistration(s, token, id, now, later)
    case FinishRegistration(token, id, ok, newKey) => DoFinishRegistration(s, token, id, ok, newKey, now, later)
    case StartAuthentication(id) => DoStartAuthentication(s, id, later)
    case FinishAuthentication(id, known, ok, k) => DoFinishAuthentication(s, id, known, ok, k, now, later)
    case ResetWithRecovery(codeOk, k) => DoResetWithRecovery(s, codeOk, k, now, later)
    case ResetAsAdmin(isAdmin, k) => DoResetAsAdmin(s, isAdmin, k, now, later)
  }

  function Next(s: State, c: Call, now: Time, later: Time): State { Effect(s, c, now, later).(clock := later) }

  datatype Step = Step(call: Call, now: Time, later: Time)

  predicate Runs(s: State, trace: seq<Step>)
    decreases |trace|
  {
    trace == [] ||
    (Enabled(s, trace[0].call, trace[0].now, trace[0].later) &&
     Runs(Next(s, trace[0].call, trace[0].now, trace[0].later), trace[1..]))
  }

  function After(s: State, trace: seq<Step>): State
    decreases |trace|
  {
    if trace == [] then s else After(Next(s, trace[0].call, trace[0].now, trace[0].later), trace[1..])
  }

  /** Nothing configured yet; time is not negative. */
  predicate Initial(s: State) {
    s.account.None? && s.sessions == map[] && s.challenges == map[] && s.passkeys == 0 && s.clock >= 0.0 && s.log == []
  }
}
