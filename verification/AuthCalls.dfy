/**
 What each authentication call does, said with stored rows, numbers and the presented proof only; and
 what that means over histories: which proof every session and every renewed proof goes back to.
 */
module AuthCalls {
  import opened Wrappers
  import opened OperatorAuth
  import opened AuthHistory
  import opened AuthTheorems

  // ---------------------------------------------------------------- plain conditions

  /** Configured, with authentication switched on. */
  predicate SwitchedOn(s: State) { s.account.Some? && s.account.value.setup && s.account.value.enabled }
  predicate SwitchedOff(s: State) { s.account.Some? && s.account.value.setup && !s.account.value.enabled }

  predicate LockedAt(s: State, now: Time) {
    s.account.Some? && s.account.value.lockedUntil.Some? && s.account.value.lockedUntil.value != 0.0 && now < s.account.value.lockedUntil.value
  }

  /** A right PIN is accepted. */
  predicate PinPasses(s: State, pinOk: bool, now: Time) {
    SwitchedOn(s) && !LockedAt(s, now) && s.account.value.hasPin && pinOk
  }

  /** Any other PIN is counted, while there is something to check it against. */
  predicate PinCounts(s: State, pinOk: bool, now: Time) {
    SwitchedOn(s) && !LockedAt(s, now) && !(s.account.value.hasPin && pinOk)
  }

  /** The wait after the n-th failure in a row: none before the fifth, then 2, 4, 8, ..., 256 seconds. */
  function Wait(n: nat): nat {
    if n < 5 then 0 else if n >= 12 then 256 else [2, 4, 8, 16, 32, 64, 128][n - 5]
  }

  /** One failure more, and from the fifth on a lock. */
  predicate OneMoreFailure(a: Account, b: Account, now: Time) {
    && b == a.(failed := b.failed, lockedUntil := b.lockedUntil) && b.failed == a.failed + 1
    && b.lockedUntil == if b.failed < 5 then a.lockedUntil else Some(now + Wait(b.failed) as real)
  }

  /** What checking a PIN makes of the account. */
  predicate PinChecked(s: State, t: State, pinOk: bool, now: Time) {
    && (PinPasses(s, pinOk, now) ==> t.account == Some(s.account.value.(failed := 0, lockedUntil := None)))
    && (PinCounts(s, pinOk, now) ==> t.account.Some? && OneMoreFailure(s.account.value, t.account.value, now))
    && (!PinPasses(s, pinOk, now) && !PinCounts(s, pinOk, now) ==> t.account == s.account)
  }

  lemma {:induction false} WaitIs(n: nat)
    ensures Lockout(n) == Wait(n)
  {
    if n >= 5 {
      assert Pow2(8) == 256 && Pow2(7) == 128 && Pow2(6) == 64 && Pow2(5) == 32;
      assert MinNat(n - 4, 8) in {1, 2, 3, 4, 5, 6, 7, 8};
    }
  }

  lemma AfterPinIs(s: State, pinOk: bool, now: Time)
    ensures PinChecked(s, AfterPin(s, pinOk, now), pinOk, now)
    ensures AfterPin(s, pinOk, now).sessions == s.sessions && AfterPin(s, pinOk, now).challenges == s.challenges
    ensures AfterPin(s, pinOk, now).passkeys == s.passkeys
    ensures PinOutcome(s, pinOk, now).ValidPin? <==> PinPasses(s, pinOk, now)
  {
    if s.account.Some? { WaitIs(s.account.value.failed + 1); }
  }

  /** The session the token stands for is live. */
  predicate LiveSession(s: State, token: Option<Token>, now: Time) {
    && SwitchedOn(s) && token.Some? && token.value in s.sessions
    && s.sessions[token.value].revoked == None && now < s.sessions[token.value].expires
  }

  /** The session the token stands for has run out, and nobody has revoked it. */
  predicate StaleSession(s: State, token: Option<Token>, now: Time) {
    && SwitchedOn(s) && token.Some? && token.value in s.sessions
    && s.sessions[token.value].revoked == None && s.sessions[token.value].expires <= now
  }

  /** A stale session is revoked when it is presented; no other row changes. */
  function Presented(s: State, token: Option<Token>, now: Time): map<Token, Session> {
    if StaleSession(s, token, now) then s.sessions[token.value := s.sessions[token.value].(revoked := Some(now))] else s.sessions
  }

  lemma AfterAuthIs(s: State, token: Option<Token>, now: Time)
    ensures AfterAuth(s, token, now).sessions == Presented(s, token, now) && AfterAuth(s, token, now).account == s.account
    ensures AfterAuth(s, token, now).challenges == s.challenges && AfterAuth(s, token, now).passkeys == s.passkeys
    ensures AuthOutcome(s, token, now).Row? <==> LiveSession(s, token, now)
    ensures AuthOutcome(s, token, now).Row? ==> AuthOutcome(s, token, now).token == token.value
    ensures AuthOutcome(s, token, now).Disabled? <==> SwitchedOff(s)
  {
  }

  /** A step-up check lets the call go on: authentication is off, or the session is live and its last
      proof at most 300 seconds old. */
  predicate StepUpPasses(s: State, token: Option<Token>, now: Time, later: Time) {
    SwitchedOff(s) || (LiveSession(s, token, now) && later - s.sessions[token.value].stepUp <= 300.0)
  }

  lemma AfterRequireIs(s: State, token: Option<Token>, now: Time, later: Time)
    ensures AfterRequire(s, token, now, later).sessions == Presented(s, token, now) && AfterRequire(s, token, now, later).account == s.account
    ensures AfterRequire(s, token, now, later).challenges == s.challenges && AfterRequire(s, token, now, later).passkeys == s.passkeys
    ensures Required(s, token, now, later) <==> StepUpPasses(s, token, now, later)
  {
    AfterAuthIs(s, token, now);
  }

  predicate ChallengeOpen(s: State, id: ChallengeId, kind: Kind, now: Time) {
    id in s.challenges && s.challenges[id].kind == kind && s.challenges[id].consumed == None && now < s.challenges[id].expires
  }

  function NewSession(at: Time): Session { Session(at, at, at + 28800.0, None) }

  // ---------------------------------------------------------------- call by call

  /** A PIN opens a session if and only if authentication is on, no lock runs, the account has a PIN
      and it matched; nothing else about sessions changes, and the failures are counted. */
  lemma VerifyPinDecides(s: State, pinOk: bool, k: Token, now: Time, later: Time)
    requires Enabled(s, VerifyPin(pinOk, k), now, later)
    ensures var t := Next(s, VerifyPin(pinOk, k), now, later);
      && t.sessions == (if PinPasses(s, pinOk, now) then s.sessions[k := NewSession(later)] else s.sessions)
      && PinChecked(s, t, pinOk, now)
      && t.challenges == s.challenges && t.passkeys == s.passkeys && t.clock == later
  {
    AfterPinIs(s, pinOk, now);
  }

  /** A PIN renews the proof of a session if and only if the session is live and the PIN passes; it opens
      no session, and for a session that is not live the PIN is not even looked at. */
  lemma StepUpPinDecides(s: State, token: Option<Token>, pinOk: bool, now: Time, later: Time)
    requires Enabled(s, StepUpPin(token, pinOk), now, later)
    ensures var t := Next(s, StepUpPin(token, pinOk), now, later);
      && t.sessions == (if LiveSession(s, token, now) && PinPasses(s, pinOk, now)
                        then s.sessions[token.value := s.sessions[token.value].(stepUp := later)] else Presented(s, token, now))
      && (if LiveSession(s, token, now) then PinChecked(s, t, pinOk, now) else t.account == s.account)
      && t.challenges == s.challenges && t.passkeys == s.passkeys && t.clock == later
  {
    AfterAuthIs(s, token, now);
    AfterPinIs(AfterAuth(s, token, now), pinOk, now);
  }

  /** The settings change only behind a step-up check, and then either by storing a first PIN or with the
      PIN; with authentication off there is no PIN to check, so only the first PIN switches it on. */
  lemma SetEnabledDecides(s: State, enabled: bool, token: Option<Token>, pinOk: bool, now: Time, later: Time)
    requires Enabled(s, SetEnabled(enabled, token, pinOk), now, later)
    ensures var t := Next(s, SetEnabled(enabled, token, pinOk), now, later);
      && t.sessions == Presented(s, token, now) && t.challenges == s.challenges && t.passkeys == s.passkeys && t.clock == later
      && if !StepUpPasses(s, token, now, later) then t.account == s.account
         else if enabled && !s.account.value.hasPin then
           t.account == Some(Account(s.account.value.setup, true, true, true, 0, None))
         else if PinPasses(s, pinOk, later) then
           t.account == Some(s.account.value.(enabled := enabled, failed := 0, lockedUntil := None))
         else PinChecked(s, t, pinOk, later)
  {
    AfterRequireIs(s, token, now, later);
    AfterPinIs(AfterRequire(s, token, now, later), pinOk, later);
  }

  /** A wrong PIN opens no session, renews no proof and changes no setting, whatever it is sent to; on an
      account with a PIN that is on and not locked it counts as one failure. */
  lemma WrongPinAchievesNothing(s: State, c: Call, now: Time, later: Time)
    requires Enabled(s, c, now, later) && s.account.Some? && s.account.value.hasPin
    requires (c.VerifyPin? || c.StepUpPin? || c.SetEnabled?) && !c.pinOk
    ensures var t := Next(s, c, now, later);
      && t.sessions.Keys == s.sessions.Keys
      && (forall k :: k in s.sessions ==> t.sessions[k] == s.sessions[k].(revoked := t.sessions[k].revoked))
      && t.account.Some? && t.account.value == s.account.value.(failed := t.account.value.failed, lockedUntil := t.account.value.lockedUntil)
      && s.account.value.failed <= t.account.value.failed <= s.account.value.failed + 1
      && t.passkeys == s.passkeys
    ensures c.VerifyPin? && SwitchedOn(s) && !LockedAt(s, now) ==>
      OneMoreFailure(s.account.value, Next(s, c, now, later).account.value, now)
  {
    match c {
      case VerifyPin(pinOk, k) => VerifyPinDecides(s, pinOk, k, now, later);
      case StepUpPin(token, pinOk) => StepUpPinDecides(s, token, pinOk, now, later);
      case SetEnabled(enabled, token, pinOk) => SetEnabledDecides(s, enabled, token, pinOk, now, later);
    }
  }

  /** A passkey opens a session, or renews a proof, if and only if its challenge is open, of the right
      kind and younger than its lifetime, the response verifies and, to register, a live session asks. */
  lemma PasskeysDecide(s: State, c: Call, now: Time, later: Time)
    requires Enabled(s, c, now, later) && (c.FinishAuthentication? || c.FinishRegistration?)
    ensures var t := Next(s, c, now, later);
      match c
      case FinishAuthentication(id, known, ok, k) =>
        var opens := ChallengeOpen(s, id, Authentication, now) && known && ok;
        && t.sessions == (if opens then s.sessions[k := NewSession(later)] else s.sessions)
        && t.challenges == (if opens then s.challenges[id := s.challenges[id].(consumed := Some(later))] else s.challenges)
        && t.account == s.account && t.passkeys == s.passkeys
      case FinishRegistration(token, id, ok, newKey) =>
        var registers := LiveSession(s, token, now) && ChallengeOpen(s, id, Registration, now) && ok && newKey;
        && t.sessions == (if registers then s.sessions[token.value := s.sessions[token.value].(stepUp := later)] else Presented(s, token, now))
        && t.challenges == (if registers then s.challenges[id := s.challenges[id].(consumed := Some(later))] else s.challenges)
        && t.account == s.account && t.passkeys == (if registers then s.passkeys + 1 else s.passkeys)
  {
    match c {
      case FinishAuthentication(id, known, ok, k) =>
      case FinishRegistration(token, id, ok, newKey) => AfterAuthIs(s, token, now);
    }
  }

  /** Every session there was is revoked, the ones revoked before keep their time, and one is new. */
  predicate OnlyNewSession(s: State, t: State, k: Token, now: Time, later: Time) {
    && t.sessions.Keys == s.sessions.Keys + {k} && t.sessions[k] == NewSession(later)
    && forall j :: j in s.sessions && j != k ==>
         t.sessions[j] == s.sessions[j].(revoked := if s.sessions[j].revoked == None then Some(now) else s.sessions[j].revoked)
  }

  /** A recovery code, or the administrator, resets the account exactly when it may: the code matches
      one that is stored, the caller is administrator.  The account is then on, with a new PIN and no
      failures, and only the new session lives. */
  lemma ResetsDecide(s: State, c: Call, now: Time, later: Time)
    requires Enabled(s, c, now, later) && s.account.Some? && (c.ResetWithRecovery? || c.ResetAsAdmin?)
    ensures var t := Next(s, c, now, later);
      if (c.ResetWithRecovery? && c.codeOk && s.account.value.hasRecovery) || (c.ResetAsAdmin? && c.isAdmin) then
        && t.account.Some? && t.account.value.enabled && t.account.value.hasPin && t.account.value.hasRecovery
        && t.account.value.failed == 0 && t.account.value.lockedUntil == None
        && (t.account.value.setup <==> s.account.value.setup || c.ResetAsAdmin?)
        && OnlyNewSession(s, t, c.fresh_, now, later)
      else t.account == s.account && t.sessions == s.sessions
  {
  }

  /** Setting up, by the first PIN or by doing without, works once: on an installation that is not
      configured.  Locking revokes the sessions it names and no other. */
  lemma SetupAndLockDecide(s: State, c: Call, now: Time, later: Time)
    requires Enabled(s, c, now, later) && (c.SetupPin? || c.DisableFirstRun? || c.Lock?)
    ensures var (t, configured) := (Next(s, c, now, later), s.account.Some? && s.account.value.setup);
      match c
      case SetupPin(k) =>
        && t.account == (if configured then s.account else Some(Account(true, true, true, true, 0, None)))
        && t.sessions == (if configured then s.sessions else s.sessions[k := NewSession(later)])
      case DisableFirstRun =>
        && t.sessions == s.sessions && (configured ==> t.account == s.account)
        && (!configured ==> t.account.Some? && t.account.value.setup && !t.account.value.enabled)
      case Lock(token, all) =>
        && t.account == s.account && t.sessions.Keys == s.sessions.Keys
        && forall k :: k in s.sessions ==>
             t.sessions[k] == if (all || token == Some(k)) && s.sessions[k].revoked == None then s.sessions[k].(revoked := Some(now)) else s.sessions[k]
  {
  }

  /** A challenge is issued to a live session, or with authentication off, to register a passkey, and to
      anyone to use one that is registered; it is good for 300 seconds. */
  lemma ChallengesStart(s: State, c: Call, now: Time, later: Time)
    requires Enabled(s, c, now, later) && (c.StartRegistration? || c.StartAuthentication?)
    ensures var t := Next(s, c, now, later);
      && t.account == s.account && t.passkeys == s.passkeys
      && match c
         case StartRegistration(token, id) =>
           && t.sessions == Presented(s, token, now)
           && t.challenges == (if LiveSession(s, token, now) || SwitchedOff(s)
                               then s.challenges[id := Challenge(Registration, later, later + 300.0, None)] else s.challenges)
         case StartAuthentication(id) =>
           && t.sessions == s.sessions
           && t.challenges == (if s.passkeys > 0 then s.challenges[id := Challenge(Authentication, later, later + 300.0, None)] else s.challenges)
  {
    match c {
      case StartRegistration(token, id) => AfterAuthIs(s, token, now);
      case StartAuthentication(id) =>
    }
  }

  // ---------------------------------------------------------------- what is accepted

  /** In every reachable state: presenting a token is accepted if and only if authentication is on, the
      session was created less than 28,800 seconds before and nothing has revoked it. */
  lemma LiveSessionsAreAccepted(s0: State, trace: seq<Step>, k: Token, now: Time, later: Time)
    requires Initial(s0) && Runs(s0, trace) && k in After(s0, trace).sessions
    requires Enabled(After(s0, trace), Authenticate(Some(k)), now, later)
    ensures var s := After(s0, trace);
      Next(s, Authenticate(Some(k)), now, later).log == s.log + [TokenAccepted(k, now)] <==>
        SwitchedOn(s) && s.sessions[k].revoked == None && now < s.sessions[k].created + 28800.0
  {
    HistoryOk(s0, trace);
    var s := After(s0, trace);
    assert SessionOk(s.sessions[k], s.log, k, s.clock);
    Appended(s.log, TokenAccepted(k, now));
    Appended(s.log, SessionRevoked(k, now));
  }

  /** With authentication on, a step-up check lets a token pass if and only if its session is live and
      its last proof is at most 300 seconds old. */
  lemma FreshProofsPass(s: State, k: Token, now: Time, later: Time)
    requires Enabled(s, RequireStepUp(Some(k)), now, later) && SwitchedOn(s)
    ensures StepUpPassed(k, later) in Next(s, RequireStepUp(Some(k)), now, later).log[|s.log|..] <==>
              k in s.sessions && s.sessions[k].revoked == None && now < s.sessions[k].expires && later - s.sessions[k].stepUp <= 300.0
  {
    AfterAuthIs(s, Some(k), now);
    var t := Next(s, RequireStepUp(Some(k)), now, later);
    if AuthOutcome(s, Some(k), now).Row? {
      if StepUpDue(s, k, later) {
        assert t.log[|s.log|..] == [TokenAccepted(k, now)];
      } else {
        assert t.log[|s.log|..] == [TokenAccepted(k, now), StepUpPassed(k, later)];
      }
    } else {
      assert t.log[|s.log|..] == [] || t.log[|s.log|..] == [SessionRevoked(k, now)];
    }
  }

  // ---------------------------------------------------------------- where sessions and proofs come from

  /** The step opens session `k`, with the proof its call needs. */
  predicate OpensSession(s: State, step: Step, k: Token) {
    match step.call
    case SetupPin(token) => token == k && !(s.account.Some? && s.account.value.setup)
    case VerifyPin(pinOk, token) => token == k && PinPasses(s, pinOk, step.now)
    case FinishAuthentication(id, known, ok, token) => token == k && ChallengeOpen(s, id, Authentication, step.now) && known && ok
    case ResetWithRecovery(codeOk, token) => token == k && s.account.Some? && s.account.value.hasRecovery && codeOk
    case ResetAsAdmin(isAdmin, token) => token == k && isAdmin
    case _ => false
  }

  /** The step renews the proof of session `k`, with the proof its call needs. */
  predicate RenewsProof(s: State, step: Step, k: Token) {
    match step.call
    case StepUpPin(token, pinOk) => token == Some(k) && LiveSession(s, token, step.now) && PinPasses(s, pinOk, step.now)
    case FinishRegistration(token, id, ok, newKey) =>
      token == Some(k) && LiveSession(s, token, step.now) && ChallengeOpen(s, id, Registration, step.now) && ok && newKey
    case _ => false
  }

  /** The last proof of session `k` is what the i-th step brought. */
  predicate ProofOf(s0: State, trace: seq<Step>, i: nat, k: Token, at: Time)
    requires i < |trace|
  {
    trace[i].later == at && (OpensSession(After(s0, trace[..i]), trace[i], k) || RenewsProof(After(s0, trace[..i]), trace[i], k))
  }

  lemma ProofStep(s: State, step: Step, k: Token)
    requires Enabled(s, step.call, step.now, step.later)
    ensures var t := Next(s, step.call, step.now, step.later);
      k in t.sessions ==>
        || (k in s.sessions && t.sessions[k].stepUp == s.sessions[k].stepUp && t.sessions[k].created == s.sessions[k].created)
        || (t.sessions[k].stepUp == step.later &&
              if OpensSession(s, step, k) then t.sessions[k].created == step.later
              else RenewsProof(s, step, k) && k in s.sessions && t.sessions[k].created == s.sessions[k].created)
  {
    var c, now, later := step.call, step.now, step.later;
    match c {
      case VerifyPin(pinOk, token) => VerifyPinDecides(s, pinOk, token, now, later);
      case StepUpPin(token, pinOk) => StepUpPinDecides(s, token, pinOk, now, later);
      case SetEnabled(enabled, token, pinOk) => SetEnabledDecides(s, enabled, token, pinOk, now, later);
      case FinishAuthentication(_, _, _, _) => PasskeysDecide(s, c, now, later);
      case FinishRegistration(_, _, _, _) => PasskeysDecide(s, c, now, later);
      case Authenticate(token) => AfterAuthIs(s, token, now);
      case RequireStepUp(token) => AfterRequireIs(s, token, now, later);
      case StartRegistration(_, _) => ChallengesStart(s, c, now, later);
      case StartAuthentication(_) => ChallengesStart(s, c, now, later);
      case ResetWithRecovery(_, _) => if s.account.Some? { ResetsDecide(s, c, now, later); }
      case ResetAsAdmin(_, token) => if s.account.Some? { ResetsDecide(s, c, now, later); } else { SetupAndLockDecide(s, SetupPin(token), now, later); }
      case _ => SetupAndLockDecide(s, c, now, later);
    }
  }

  lemma {:induction false} ProofsGoBack(s: State, trace: seq<Step>, k: Token)
    requires Runs(s, trace) && k in After(s, trace).sessions
    ensures (k in s.sessions && After(s, trace).sessions[k].stepUp == s.sessions[k].stepUp)
            || exists i: nat :: i < |trace| && ProofOf(s, trace, i, k, After(s, trace).sessions[k].stepUp)
    decreases |trace|
  {
    if trace != [] {
      var step, end := trace[0], After(s, trace);
      var t := Next(s, step.call, step.now, step.later);
      ProofStep(s, step, k);
      ProofsGoBack(t, trace[1..], k);
      if i: nat :| i < |trace| - 1 && ProofOf(t, trace[1..], i, k, end.sessions[k].stepUp) {
        assert trace[..i + 1][1..] == trace[1..][..i];
        assert After(s, trace[..i + 1]) == After(t, trace[1..][..i]);
        assert ProofOf(s, trace, i + 1, k, end.sessions[k].stepUp);
      } else if !(k in s.sessions && end.sessions[k].stepUp == s.sessions[k].stepUp) {
        assert trace[..0] == [] && After(s, trace[..0]) == s;
        assert ProofOf(s, trace, 0, k, end.sessions[k].stepUp);
      }
    }
  }

  /** In every history the last proof a session shows was brought, at that time, by a call that carried
      it: a PIN that matched on an unlocked account, an open passkey challenge that was answered, a
      first set-up, a matching recovery code, or the administrator.  Since a session that nobody renewed
      shows the proof it was opened with, no session is there without one. */
  lemma ProofsComeFromCalls(s0: State, trace: seq<Step>, k: Token)
    requires Initial(s0) && Runs(s0, trace) && k in After(s0, trace).sessions
    ensures exists i: nat :: i < |trace| && ProofOf(s0, trace, i, k, After(s0, trace).sessions[k].stepUp)
  {
    ProofsGoBack(s0, trace, k);
  }
}
