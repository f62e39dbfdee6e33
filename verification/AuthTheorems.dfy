/** What operator authentication promises over whole histories, for any clock that does not run back. */
module AuthTheorems {
  import opened Wrappers
  import opened OperatorAuth
  import opened AuthHistory

  lemma InitialInv(s: State)
    requires Initial(s)
    ensures Inv(s, s.clock)
  {
  }

  lemma HistoryOk(s0: State, trace: seq<Step>)
    requires Initial(s0) && Runs(s0, trace)
    ensures Inv(After(s0, trace), After(s0, trace).clock)
  {
    InitialInv(s0);
    RunInv(s0, trace);
  }

  // ---------------------------------------------------------------- lockout

  /** The least time k consecutive failures take. */
  function Bound(k: nat): int {
    if k <= 5 then 0 else if k <= 13 then Pow2(k - 4) - 2 else 510 + 256 * (k - 13)
  }

  function TotalLockout(k: nat): nat { if k <= 1 then 0 else TotalLockout(k - 1) + Lockout(k - 1) }

  lemma {:induction false} BoundIsTotal(k: nat)
    ensures Bound(k) == TotalLockout(k)
  {
    if k > 1 {
      BoundIsTotal(k - 1);
      if k > 5 {
        LockoutIsPositive(k - 1);
        assert k <= 13 ==> MinNat(k - 5, 8) == k - 5 && Pow2(k - 4) == 2 * Pow2(k - 5);
        assert k == 14 ==> Pow2(9) == 512;
        assert k > 13 ==> MinNat(k - 5, 8) == 8 && Pow2(8) == 256;
      }
    }
  }

  lemma {:induction false} Pow2Grows(a: nat, b: nat)
    requires a <= b
    ensures 1 <= Pow2(a) <= Pow2(b)
    decreases b
  {
    if b > 0 {
      if a < b { Pow2Grows(a, b - 1); } else { Pow2Grows(a - 1, b - 1); }
    }
  }

  lemma LockoutGrows(m: nat, n: nat)
    requires m <= n
    ensures Lockout(m) <= Lockout(n)
  {
    if m >= 5 { Pow2Grows(MinNat(m - 4, 8), MinNat(n - 4, 8)); }
  }

  predicate Gap(f: seq<Time>, j: nat)
    requires 0 < j < |f|
  {
    f[j] - f[j - 1] >= Lockout(j) as real
  }

  ghost predicate AllSpaced(f: seq<Time>) {
    forall j :: 0 < j < |f| ==> Gap(f, j)
  }

  lemma {:induction false} FailuresAreSpaced(log: seq<Event>)
    requires LogOk(log)
    ensures AllSpaced(Failures(log))
  {
    if log != [] {
      var init := log[..|log| - 1];
      assert LogOk(init) by {
        forall i | 0 <= i < |init| ensures Justified(init[..i], init[i]) {
          assert Justified(log[..i], log[i]) && init[..i] == log[..i];
        }
      }
      FailuresAreSpaced(init);
      assert Justified(init, log[|log| - 1]);
      if log[|log| - 1].PinFailed? {
        var f, g := Failures(init), Failures(log);
        assert g == f + [log[|log| - 1].at];
        forall j | 0 < j < |g| ensures Gap(g, j) {
          if j < |f| { assert Gap(f, j); }
        }
      }
    }
  }

  lemma {:induction false} SpanOf(f: seq<Time>, i: nat, k: nat)
    requires AllSpaced(f) && k >= 1 && i + k <= |f|
    ensures f[i + k - 1] - f[i] >= TotalLockout(k) as real
  {
    if k > 1 {
      SpanOf(f, i, k - 1);
      LockoutGrows(k - 1, i + k - 1);
      assert Gap(f, i + k - 1);
    }
  }

  predicate Clears(e: Event) { e.PinVerified? || e.PinReset? }

  function FailedIn(log: seq<Event>, p: nat, q: nat): nat
    requires p <= q <= |log|
  {
    if p == q then 0 else FailedIn(log, p, q - 1) + if log[q - 1].PinFailed? then 1 else 0
  }

  /** From one failure on, with no clearing in between, the log's failures are the streak's end. */
  lemma {:induction false} StreakEnds(log: seq<Event>, p: nat, q: nat)
    requires p < q <= |log| && log[p].PinFailed? && forall m :: p < m < q ==> !Clears(log[m])
    ensures var f, n := Failures(log[..q]), FailedIn(log, p, q);
      1 <= n <= |f| && f[|f| - n] == log[p].at && (log[q - 1].PinFailed? ==> f[|f| - 1] == log[q - 1].at)
    decreases q
  {
    assert log[..q][..q - 1] == log[..q - 1];
    if q > p + 1 {
      StreakEnds(log, p, q - 1);
    } else {
      assert FailedIn(log, p, q - 1) == 0;
    }
  }

  /** k consecutive counted failures, with no success and no reset between them, take at least
      `Bound(k)` seconds: 0 up to five, then 2^(k-4) - 2, and from the thirteenth on 256 each. */
  lemma LockoutBound(s0: State, trace: seq<Step>, p: nat, q: nat)
    requires Initial(s0) && Runs(s0, trace) && p <= q < |After(s0, trace).log|
    requires After(s0, trace).log[p].PinFailed? && After(s0, trace).log[q].PinFailed?
    requires forall m :: p < m < q ==> !Clears(After(s0, trace).log[m])
    ensures var log := After(s0, trace).log;
      log[q].at - log[p].at >= Bound(FailedIn(log, p, q + 1)) as real
  {
    HistorySpaced(s0, trace, q + 1);
    var log := After(s0, trace).log;
    StreakIs(log, p, q);
    StreakSpan(Failures(log[..q + 1]), FailedIn(log, p, q + 1), log[p].at, log[q].at);
  }

  lemma HistorySpaced(s0: State, trace: seq<Step>, n: nat)
    requires Initial(s0) && Runs(s0, trace) && n <= |After(s0, trace).log|
    ensures AllSpaced(Failures(After(s0, trace).log[..n]))
  {
    HistoryOk(s0, trace);
    PrefixOk(After(s0, trace).log, n);
    FailuresAreSpaced(After(s0, trace).log[..n]);
  }

  lemma StreakIs(log: seq<Event>, p: nat, q: nat)
    requires p <= q < |log| && log[p].PinFailed? && log[q].PinFailed?
    requires forall m :: p < m < q ==> !Clears(log[m])
    ensures var f, n := Failures(log[..q + 1]), FailedIn(log, p, q + 1);
      1 <= n <= |f| && f[|f| - n] == log[p].at && f[|f| - 1] == log[q].at
  {
    StreakEnds(log, p, q + 1);
  }

  lemma StreakSpan(f: seq<Time>, n: nat, from: Time, to_: Time)
    requires AllSpaced(f) && 1 <= n <= |f| && f[|f| - n] == from && f[|f| - 1] == to_
    ensures to_ - from >= Bound(n) as real
  {
    SpanOf(f, |f| - n, n);
    BoundIsTotal(n);
  }

  lemma PrefixOk(log: seq<Event>, n: nat)
    requires LogOk(log) && n <= |log|
    ensures LogOk(log[..n])
  {
    forall i | 0 <= i < n ensures Justified(log[..n][..i], log[..n][i]) {
      assert Justified(log[..i], log[i]) && log[..n][..i] == log[..i];
    }
  }

  /** During a lockout not even the right PIN is accepted: an accepted one, like a counted failure,
      comes no sooner than the wait the failures before it earned. */
  lemma LockoutHoldsForEveryone(s0: State, trace: seq<Step>, i: nat)
    requires Initial(s0) && Runs(s0, trace) && i < |After(s0, trace).log|
    requires After(s0, trace).log[i].PinVerified? || After(s0, trace).log[i].PinFailed?
    ensures var log := After(s0, trace).log;
      var f := Failures(log[..i]);
      f != [] ==> log[i].at >= f[|f| - 1] + Lockout(|f|) as real
  {
    HistoryOk(s0, trace);
    assert Justified(After(s0, trace).log[..i], After(s0, trace).log[i]);
  }

  /** No lock is longer than 256 seconds, so the cap of 300 never applies. */
  lemma CapNeverBinds(n: nat)
    ensures Lockout(n) <= 256 && (n >= 5 ==> Lockout(n) == Pow2(MinNat(n - 4, 8)))
  {
    if n >= 5 { LockoutIsPositive(n); }
  }

  // ---------------------------------------------------------------- sessions

  /** Entry j created the session, and nothing up to entry i revoked it. */
  ghost predicate CreatedAndKept(log: seq<Event>, j: nat, i: nat, k: Token, at: Time) {
    && j < i <= |log| && log[j] == SessionCreated(k, at)
    && forall m :: j < m < i ==> log[m] != AllRevoked(log[m].at) && !(log[m].SessionRevoked? && log[m].token == k)
  }

  lemma {:induction false} LiveMeans(log: seq<Event>, k: Token)
    requires Live(log, k)
    ensures Created(log, k).Some? && exists j: nat :: CreatedAndKept(log, j, |log|, k, Created(log, k).value)
  {
    var init, e := log[..|log| - 1], log[|log| - 1];
    if e.SessionCreated? && e.token == k {
      assert CreatedAndKept(log, |log| - 1, |log|, k, e.at);
    } else {
      LiveMeans(init, k);
      var j: nat :| CreatedAndKept(init, j, |init|, k, Created(init, k).value);
      assert forall m :: j < m < |init| ==> log[m] == init[m];
      assert CreatedAndKept(log, j, |log|, k, Created(log, k).value);
    }
  }

  /** An accepted token belongs to a session created less than eight hours before, which nothing has
      revoked since. */
  lemma AcceptedSessionsAreFresh(s0: State, trace: seq<Step>, i: nat)
    requires Initial(s0) && Runs(s0, trace) && i < |After(s0, trace).log| && After(s0, trace).log[i].TokenAccepted?
    ensures var log := After(s0, trace).log;
      exists j: nat, at :: CreatedAndKept(log, j, i, log[i].token, at) && at <= log[i].at < at + 28800.0
  {
    HistoryOk(s0, trace);
    var log := After(s0, trace).log;
    var k := log[i].token;
    assert Justified(log[..i], log[i]);
    LiveMeans(log[..i], k);
    var at := Created(log[..i], k).value;
    var j: nat :| CreatedAndKept(log[..i], j, i, k, at);
    assert forall m :: j < m < i ==> log[m] == log[..i][m];
    assert CreatedAndKept(log, j, i, k, at);
  }

  /** No session without a proof: it directly follows a PIN that matched, a newly set one, a passkey
      challenge or a reset; and a step-up directly follows a PIN that matched or a challenge.  Every
      accepted PIN matched, and every counted failure was a PIN that did not. */
  lemma SessionsNeedProof(s0: State, trace: seq<Step>, i: nat)
    requires Initial(s0) && Runs(s0, trace) && i < |After(s0, trace).log|
    ensures var log := After(s0, trace).log;
      && (log[i].SessionCreated? ==>
            i > 0 && ((log[i - 1].PinVerified? && log[i - 1].matched) || log[i - 1].PinReset? || log[i - 1].ChallengeUsed? || log[i - 1].AllRevoked?))
      && (log[i].SteppedUp? ==> i > 0 && ((log[i - 1].PinVerified? && log[i - 1].matched) || log[i - 1].ChallengeUsed?))
      && (log[i].PinVerified? ==> log[i].matched) && (log[i].PinFailed? ==> !log[i].matched)
  {
    HistoryOk(s0, trace);
    var log := After(s0, trace).log;
    assert Justified(log[..i], log[i]);
    if i > 0 { assert log[..i][i - 1] == log[i - 1] && Justified(log[..i - 1], log[i - 1]); }
  }

  lemma {:induction false} ProofMeans(log: seq<Event>, k: Token)
    requires LastProof(log, k).Some?
    ensures exists j :: 0 <= j < |log| &&
              (log[j] == SessionCreated(k, LastProof(log, k).value) || log[j] == SteppedUp(k, LastProof(log, k).value))
  {
    var init, e := log[..|log| - 1], log[|log| - 1];
    if (e.SessionCreated? || e.SteppedUp?) && e.token == k {
      assert log[|log| - 1] == e;
    } else {
      ProofMeans(init, k);
      var j :| 0 <= j < |init| &&
        (init[j] == SessionCreated(k, LastProof(init, k).value) || init[j] == SteppedUp(k, LastProof(init, k).value));
      assert log[j] == init[j];
    }
  }

  ghost predicate RecentlyProved(log: seq<Event>, i: nat, k: Token, now: Time)
    requires i <= |log|
  {
    exists j, at :: 0 <= j < i && (log[j] == SessionCreated(k, at) || log[j] == SteppedUp(k, at)) && at <= now <= at + 300.0
  }

  /** Whatever passes `require_step_up` follows a proof of presence at most five minutes old. */
  lemma StepUpIsRecent(s0: State, trace: seq<Step>, i: nat)
    requires Initial(s0) && Runs(s0, trace) && i < |After(s0, trace).log| && After(s0, trace).log[i].StepUpPassed?
    ensures var log := After(s0, trace).log; RecentlyProved(log, i, log[i].token, log[i].at)
  {
    HistoryOk(s0, trace);
    LogIsRecent(After(s0, trace).log, i);
  }

  lemma LogIsRecent(log: seq<Event>, i: nat)
    requires LogOk(log) && i < |log| && log[i].StepUpPassed?
    ensures RecentlyProved(log, i, log[i].token, log[i].at)
  {
    var before, k := log[..i], log[i].token;
    assert Justified(before, log[i]);
    ProofMeans(before, k);
    var at := LastProof(before, k).value;
    var j :| 0 <= j < i && (before[j] == SessionCreated(k, at) || before[j] == SteppedUp(k, at));
    assert log[j] == before[j];
  }

  /** A challenge succeeds at most once, less than five minutes after it was issued. */
  lemma ChallengesAreSingleUse(s0: State, trace: seq<Step>, i: nat, j: nat)
    requires Initial(s0) && Runs(s0, trace) && i < |After(s0, trace).log| && After(s0, trace).log[i].ChallengeUsed?
    ensures var log := After(s0, trace).log;
      && Issued(log[..i], log[i].id).Some?
      && Issued(log[..i], log[i].id).value <= log[i].at < Issued(log[..i], log[i].id).value + 300.0
      && (j < i && log[j].ChallengeUsed? ==> log[j].id != log[i].id)
  {
    HistoryOk(s0, trace);
    var log := After(s0, trace).log;
    assert Justified(log[..i], log[i]);
    if j < i && log[j].ChallengeUsed? { assert log[..i][j] == log[j]; }
  }

  // ---------------------------------------------------------------- revocation is for ever

  /** Revoked, or past its eight hours. */
  predicate Dead(s: State, k: Token, now: Time) {
    k in s.sessions && (s.sessions[k].revoked.Some? || s.sessions[k].expires <= now)
  }

  /** `log` goes on from `before` without accepting the token. */
  ghost predicate Silent(before: seq<Event>, log: seq<Event>, k: Token) {
    before <= log && forall i :: |before| <= i < |log| ==> log[i] != TokenAccepted(k, log[i].at)
  }

  lemma {:induction false} DeadStep(s: State, c: Call, now: Time, later: Time, k: Token)
    requires Enabled(s, c, now, later) && Dead(s, k, s.clock)
    ensures Dead(Next(s, c, now, later), k, later)
  {
  }

  lemma SilentThen(a: seq<Event>, b: seq<Event>, c: seq<Event>, k: Token)
    requires Silent(a, b, k) && Silent(b, c, k)
    ensures Silent(a, c, k)
  {
    assert forall i :: |a| <= i < |b| ==> c[i] == b[i];
  }

  lemma SilentAuth(s: State, token: Option<Token>, now: Time, k: Token)
    requires Dead(s, k, now)
    ensures Dead(AfterAuth(s, token, now), k, now) && Silent(s.log, AfterAuth(s, token, now).log, k)
  {
  }

  lemma SilentRequire(s: State, token: Option<Token>, now: Time, later: Time, k: Token)
    requires Dead(s, k, now)
    ensures Silent(s.log, AfterRequire(s, token, now, later).log, k)
  {
    SilentAuth(s, token, now, k);
    SilentThen(s.log, AfterAuth(s, token, now).log, AfterRequire(s, token, now, later).log, k);
  }

  lemma SilentPin(s: State, pinOk: bool, now: Time, k: Token)
    ensures Silent(s.log, AfterPin(s, pinOk, now).log, k)
  {
  }

  lemma SilentStep(s: State, c: Call, now: Time, later: Time, k: Token)
    requires Enabled(s, c, now, later) && Dead(s, k, s.clock)
    ensures Silent(s.log, Next(s, c, now, later).log, k)
  {
    match c {
      case SetEnabled(enabled, token, pinOk) =>
        var t := AfterRequire(s, token, now, later);
        SilentRequire(s, token, now, later, k);
        SilentPin(t, pinOk, later, k);
        SilentThen(s.log, t.log, DoSetEnabled(s, enabled, token, pinOk, now, later).log, k);
      case StepUpPin(token, pinOk) => SilentStepUp(s, token, pinOk, now, later, k);
      case Authenticate(token) => SilentAuth(s, token, now, k);
      case RequireStepUp(token) => SilentRequire(s, token, now, later, k);
      case StartRegistration(token, id) =>
        SilentAuth(s, token, now, k);
        SilentThen(s.log, AfterAuth(s, token, now).log, DoStartRegistration(s, token, id, now, later).log, k);
      case FinishRegistration(token, id, ok, newKey) =>
        SilentAuth(s, token, now, k);
        SilentThen(s.log, AfterAuth(s, token, now).log, DoFinishRegistration(s, token, id, ok, newKey, now, later).log, k);
      case VerifyPin(pinOk, token) => SilentPin(s, pinOk, now, k);
      case _ => SilentOther(s, c, now, later, k);
    }
  }

  lemma SilentStepUp(s: State, token: Option<Token>, pinOk: bool, now: Time, later: Time, k: Token)
    requires Dead(s, k, now)
    ensures Silent(s.log, DoStepUpPin(s, token, pinOk, now, later).log, k)
  {
    var t := AfterAuth(s, token, now);
    SilentAuth(s, token, now, k);
    SilentPin(t, pinOk, now, k);
    SilentThen(t.log, AfterPin(t, pinOk, now).log, AfterPin(t, pinOk, now).log + [SteppedUp(if token.Some? then token.value else 0, later)], k);
    SilentThen(s.log, t.log, DoStepUpPin(s, token, pinOk, now, later).log, k);
  }

  lemma SilentOther(s: State, c: Call, now: Time, later: Time, k: Token)
    requires c.SetupPin? || c.DisableFirstRun? || c.Lock? || c.StartAuthentication? || c.FinishAuthentication? ||
             c.ResetWithRecovery? || c.ResetAsAdmin?
    ensures Silent(s.log, Next(s, c, now, later).log, k)
  {
  }

  /** A revoked or expired token is never accepted again, whatever happens. */
  lemma {:induction false} DeadForEver(s: State, trace: seq<Step>, k: Token)
    requires Runs(s, trace) && Dead(s, k, s.clock)
    ensures Silent(s.log, After(s, trace).log, k)
    decreases |trace|
  {
    if trace != [] {
      var step := trace[0];
      var t := Next(s, step.call, step.now, step.later);
      DeadStep(s, step.call, step.now, step.later, k);
      SilentStep(s, step.call, step.now, step.later, k);
      DeadForEver(t, trace[1..], k);
      SilentThen(s.log, t.log, After(t, trace[1..]).log, k);
    }
  }

  /** A successful reset, by recovery code or by the administrator, ends every session there was. */
  lemma ResetEndsSessions(s: State, c: Call, now: Time, later: Time, trace: seq<Step>, k: Token)
    requires Enabled(s, c, now, later) && s.account.Some? && k in s.sessions
    requires (c.ResetWithRecovery? && c.codeOk && s.account.value.hasRecovery) || (c.ResetAsAdmin? && c.isAdmin)
    requires Runs(Next(s, c, now, later), trace)
    ensures Silent(Next(s, c, now, later).log, After(Next(s, c, now, later), trace).log, k)
  {
    assert Dead(Next(s, c, now, later), k, later);
    DeadForEver(Next(s, c, now, later), trace, k);
  }

  /** Disabling authentication is one-way for a caller who knows the PIN: only a reset leads back. */
  lemma DisabledNeedsReset(s: State, c: Call, now: Time, later: Time)
    requires Enabled(s, c, now, later) && s.account.Some? && s.account.value.setup && s.account.value.hasPin && !s.account.value.enabled
    ensures Next(s, c, now, later).account == s.account <==>
              !(c.ResetWithRecovery? && c.codeOk && s.account.value.hasRecovery) && !(c.ResetAsAdmin? && c.isAdmin)
  {
  }
}
