/** What can still be executed for a run that was cancelled, exactly. */
module AnalystSilence {
  import opened Wrappers
  import opened ToolPolicy
  import opened AnalystScope
  import opened AnalystMachine
  import opened AnalystInvariants
  import opened AnalystTheorems

  /** Approver `x` won its claim on an approval of run `r`. */
  predicate Claims(s: State, x: Id, r: Id) { AtStage(s, x, Claimed) && s.store.approvals[s.memory.approvers[x].approval].run == r }

  /** An approver of `r` past its claim is about to execute a tool. */
  predicate ClaimsTool(s: State, x: Id, r: Id) {
    Claims(s, x, r) && s.store.approvals[s.memory.approvers[x].approval].subject.Tool?
  }

  /** The guard's verdict on a call of a worker between two of its cancellation checks. */
  predicate CallGets(env: Env, s: State, t: Id, r: Id, tool: string, args: Json, verdict: Gate) {
    && Holds(s, t, Inside) && s.memory.tasks[t].run == r && tool in env.phrases
    && env.gate(tool, args, s.memory.tasks[t].scope, s.memory.tasks[t].policy) == verdict
  }

  predicate QuietStep(s: State, t: State, r: Id) {
    t.log == s.log || (|t.log| == |s.log| + 1 && t.log[..|s.log|] == s.log && t.log[|s.log|].run != r)
  }

  // ---------------------------------------------------------------- the next step

  /** An approver past its claim on a tool executes it, cancelled or not. */
  lemma ClaimsOutliveCancellation(env: Env, s: State, x: Id, r: Id, ok: bool)
    requires Inv(env, s) && ClaimsTool(s, x, r)
    ensures Enabled(env, s, Act(x, ok))
    ensures var t := Next(env, s, Act(x, ok)); |t.log| == |s.log| + 1 && t.log[..|s.log|] == s.log && t.log[|s.log|].run == r
  {
  }

  /** So does a busy worker with a call that needs no confirmation. */
  lemma SegmentsOutliveCancellation(env: Env, s: State, t: Id, r: Id, tool: string, args: Json, expires: int)
    requires CallGets(env, s, t, r, tool, args, Direct)
    ensures Enabled(env, s, Call(t, tool, args, expires))
    ensures var u := Next(env, s, Call(t, tool, args, expires)); |u.log| == |s.log| + 1 && u.log[..|s.log|] == s.log && u.log[|s.log|].run == r
  {
  }

  /** Some step executes a tool for the run. */
  ghost predicate CanActAtOnce(env: Env, s: State, r: Id) {
    || (exists x :: x in s.memory.approvers && ClaimsTool(s, x, r))
    || (exists t, tool, args :: CallGets(env, s, t, r, tool, args, Direct))
  }

  lemma QuietAct(env: Env, s: State, o: Owners, a: Action, r: Id)
    requires RunsOk(env, s.store.runs, s.memory.cancelled, o) && ApprovalsOk(env, s.store, o) && Enabled(env, s, a) && a.Act?
    requires !ClaimsTool(s, a.x, r)
    ensures QuietStep(s, Next(env, s, a), r)
  {
    ActIs(env, s, o, a.x, a.ok);
    assert s.log + [] == s.log;
  }

  lemma QuietCall(env: Env, s: State, a: Action, r: Id)
    requires Enabled(env, s, a) && a.Call? && !CallGets(env, s, a.t, r, a.tool, a.args, Direct)
    ensures QuietStep(s, Next(env, s, a), r)
  {
  }

  lemma QuietOther(env: Env, s: State, a: Action)
    requires Enabled(env, s, a) && !a.Act? && !a.Call?
    ensures Next(env, s, a).log == s.log
  {
  }

  lemma QuietUnless(env: Env, s: State, a: Action, r: Id)
    requires Inv(env, s) && Enabled(env, s, a) && !CanActAtOnce(env, s, r)
    ensures QuietStep(s, Next(env, s, a), r)
  {
    var o :| Good(env, s, o);
    if a.Act? { QuietAct(env, s, o, a, r); }
    else if a.Call? { QuietCall(env, s, a, r); }
    else { QuietOther(env, s, a); }
  }

  /** For any run, cancelled or not: no step executes anything for it if and only if none of its
      approvers is past its claim on a tool and none of its busy workers has a call the guard lets
      through at once. */
  lemma QuietStepsIff(env: Env, s: State, r: Id)
    requires Inv(env, s)
    ensures (forall a :: Enabled(env, s, a) ==> QuietStep(s, Next(env, s, a), r)) <==> !CanActAtOnce(env, s, r)
  {
    if CanActAtOnce(env, s, r) {
      if x :| x in s.memory.approvers && ClaimsTool(s, x, r) {
        ClaimsOutliveCancellation(env, s, x, r, true);
        assert !QuietStep(s, Next(env, s, Act(x, true)), r);
      } else {
        var t, tool, args :| CallGets(env, s, t, r, tool, args, Direct);
        SegmentsOutliveCancellation(env, s, t, r, tool, args, 0);
        assert !QuietStep(s, Next(env, s, Call(t, tool, args, 0)), r);
      }
    } else {
      forall a | Enabled(env, s, a) ensures QuietStep(s, Next(env, s, a), r) { QuietUnless(env, s, a, r); }
    }
  }

  // ---------------------------------------------------------------- for ever

  /** Some way on executes a tool for the run: at once, or after the operator was asked. */
  ghost predicate CanStillAct(env: Env, s: State, r: Id) {
    CanActAtOnce(env, s, r) || exists t, tool, args :: CallGets(env, s, t, r, tool, args, Ask)
  }

  /** The run ended, and nothing of it can lead to an execution. */
  ghost predicate Mute(env: Env, s: State, r: Id) {
    r in s.store.runs && Final(s.store.runs[r].status) && !CanStillAct(env, s, r)
  }

  /** The run stays ended, and its busy workers are among those it had. */
  predicate EndedAfter(s: State, t: State, r: Id) {
    && r in t.store.runs && Final(t.store.runs[r].status)
    && forall k :: k in t.memory.tasks && t.memory.tasks[k].run == r && t.memory.tasks[k].mode.Inside? ==>
         k in s.memory.tasks && s.memory.tasks[k] == t.memory.tasks[k]
  }

  lemma EndedStays(env: Env, s: State, o: Owners, a: Action, r: Id)
    requires TasksOk(s.memory.tasks, s.store.runs, s.memory.cancelled, o) && Enabled(env, s, a)
    requires a.BeginTask? || a.Pause? || a.Proceed? || a.Answer? || a.End?
    requires r in s.store.runs && Final(s.store.runs[r].status)
    ensures EndedAfter(s, Next(env, s, a), r)
  {
  }

  lemma EndedThroughCall(env: Env, s: State, a: Action, r: Id)
    requires Enabled(env, s, a) && a.Call? && !CallGets(env, s, a.t, r, a.tool, a.args, Ask)
    requires r in s.store.runs && Final(s.store.runs[r].status)
    ensures EndedAfter(s, Next(env, s, a), r)
  {
  }

  lemma EndedThroughAct(env: Env, s: State, o: Owners, a: Action, r: Id)
    requires RunsOk(env, s.store.runs, s.memory.cancelled, o) && ApprovalsOk(env, s.store, o) && Enabled(env, s, a) && a.Act?
    requires r in s.store.runs && Final(s.store.runs[r].status)
    ensures EndedAfter(s, Next(env, s, a), r)
  {
    ActIs(env, s, o, a.x, a.ok);
  }

  lemma EndedThroughCheck(env: Env, s: State, a: Action, r: Id)
    requires Enabled(env, s, a) && (a.CheckApproval? || a.Claim? || a.Continue? || a.Reject?)
    requires r in s.store.runs && Final(s.store.runs[r].status)
    ensures EndedAfter(s, Next(env, s, a), r)
  {
  }

  lemma EndedThroughStart(env: Env, s: State, a: Action, r: Id)
    requires IdsOk(s) && Enabled(env, s, a) && (a.Start? || a.Retry?)
    requires r in s.store.runs && Final(s.store.runs[r].status)
    ensures EndedAfter(s, Next(env, s, a), r)
  {
  }

  lemma EndedThroughOperator(env: Env, s: State, a: Action, r: Id)
    requires Enabled(env, s, a) && (a.Cancel? || a.Restart? || a.NewConversation? || a.SetCapture?)
    requires r in s.store.runs && Final(s.store.runs[r].status)
    ensures EndedAfter(s, Next(env, s, a), r)
  {
  }

  lemma EndedStep(env: Env, s: State, a: Action, r: Id)
    requires Inv(env, s) && Enabled(env, s, a) && Mute(env, s, r)
    ensures EndedAfter(s, Next(env, s, a), r)
  {
    var o :| Good(env, s, o);
    if a.Call? { EndedThroughCall(env, s, a, r); }
    else if a.Act? { EndedThroughAct(env, s, o, a, r); }
    else if a.CheckApproval? || a.Claim? || a.Continue? || a.Reject? { EndedThroughCheck(env, s, a, r); }
    else if a.Start? || a.Retry? { EndedThroughStart(env, s, a, r); }
    else if a.Cancel? || a.Restart? || a.NewConversation? || a.SetCapture? { EndedThroughOperator(env, s, a, r); }
    else { EndedStays(env, s, o, a, r); }
  }

  /** Nobody wins a claim on a tool for a run that ended: its approvals do not wait any more. */
  predicate NoNewClaims(s: State, t: State, r: Id) {
    forall x :: x in t.memory.approvers && ClaimsTool(t, x, r) ==> x in s.memory.approvers && ClaimsTool(s, x, r)
  }

  lemma ClaimStep(env: Env, s: State, o: Owners, a: Action, r: Id)
    requires ApprovalsOk(env, s.store, o) && Enabled(env, s, a) && a.Claim?
    requires r in s.store.runs && Final(s.store.runs[r].status)
    ensures NoNewClaims(s, Next(env, s, a), r)
  {
  }

  lemma NoClaimsByApprover(env: Env, s: State, a: Action, r: Id)
    requires IdsOk(s) && Enabled(env, s, a) && (a.CheckApproval? || a.Continue? || a.Reject?)
    ensures NoNewClaims(s, Next(env, s, a), r)
  {
  }

  lemma NoClaimsByAct(env: Env, s: State, o: Owners, a: Action, r: Id)
    requires RunsOk(env, s.store.runs, s.memory.cancelled, o) && ApprovalsOk(env, s.store, o) && Enabled(env, s, a) && a.Act?
    ensures NoNewClaims(s, Next(env, s, a), r)
  {
    ActIs(env, s, o, a.x, a.ok);
  }

  lemma NoClaimsByCall(env: Env, s: State, o: Owners, a: Action, r: Id)
    requires IdsOk(s) && ApproversOk(s.memory.approvers, s.store, s.memory.cancelled, o) && Enabled(env, s, a) && a.Call?
    ensures NoNewClaims(s, Next(env, s, a), r)
  {
  }

  lemma NoClaimsByStart(env: Env, s: State, o: Owners, a: Action, r: Id)
    requires IdsOk(s) && ApproversOk(s.memory.approvers, s.store, s.memory.cancelled, o) && Enabled(env, s, a) && (a.Start? || a.Retry?)
    ensures NoNewClaims(s, Next(env, s, a), r)
  {
  }

  lemma NoClaimsByOthers(env: Env, s: State, a: Action, r: Id)
    requires Enabled(env, s, a)
    requires !a.Claim? && !a.CheckApproval? && !a.Continue? && !a.Reject? && !a.Act? && !a.Call? && !a.Start? && !a.Retry?
    ensures NoNewClaims(s, Next(env, s, a), r)
  {
  }

  lemma NoClaimsStep(env: Env, s: State, a: Action, r: Id)
    requires Inv(env, s) && Enabled(env, s, a) && r in s.store.runs && Final(s.store.runs[r].status)
    ensures NoNewClaims(s, Next(env, s, a), r)
  {
    var o :| Good(env, s, o);
    if a.Claim? { ClaimStep(env, s, o, a, r); }
    else if a.CheckApproval? || a.Continue? || a.Reject? { NoClaimsByApprover(env, s, a, r); }
    else if a.Act? { NoClaimsByAct(env, s, o, a, r); }
    else if a.Call? { NoClaimsByCall(env, s, o, a, r); }
    else if a.Start? || a.Retry? { NoClaimsByStart(env, s, o, a, r); }
    else { NoClaimsByOthers(env, s, a, r); }
  }

  lemma StillMute(env: Env, s: State, t: State, r: Id)
    requires Mute(env, s, r) && EndedAfter(s, t, r) && NoNewClaims(s, t, r)
    ensures Mute(env, t, r)
  {
    forall k, tool, args, verdict: Gate | CallGets(env, t, k, r, tool, args, verdict) ensures CallGets(env, s, k, r, tool, args, verdict) {
      assert k in s.memory.tasks;
    }
  }

  ghost predicate SameEntries(before: seq<Execution>, after: seq<Execution>, r: Id) {
    before <= after && forall i :: |before| <= i < |after| ==> after[i].run != r
  }

  lemma QuietThen(a: seq<Execution>, b: seq<Execution>, c: seq<Execution>, r: Id)
    requires b == a || (|b| == |a| + 1 && b[..|a|] == a && b[|a|].run != r)
    requires SameEntries(b, c, r)
    ensures SameEntries(a, c, r)
  {
    assert forall i :: 0 <= i < |b| ==> c[i] == b[i];
  }

  /** Nothing is ever executed again for a run that ended and is mute. */
  lemma {:induction false} CancelledRunsFallSilent(env: Env, s: State, trace: seq<Action>, r: Id)
    requires Sane(env) && Inv(env, s) && Runs(env, s, trace) && Mute(env, s, r)
    ensures SameEntries(s.log, After(env, s, trace).log, r)
    decreases |trace|
  {
    if trace != [] {
      var t := Next(env, s, trace[0]);
      QuietUnless(env, s, trace[0], r);
      EndedStep(env, s, trace[0], r);
      NoClaimsStep(env, s, trace[0], r);
      StillMute(env, s, t, r);
      NextInv(env, s, trace[0]);
      CancelledRunsFallSilent(env, t, trace[1..], r);
      QuietThen(s.log, t.log, After(env, t, trace[1..]).log, r);
    }
  }

  // ---------------------------------------------------------------- asking late

  /** The confirmation the approval asks for. */
  function Phrase(phrase: Option<string>): string { if phrase.Some? then phrase.value else "" }

  /** Approval `a` waits for the operator, to execute `tool` for `r`. */
  predicate Waits(env: Env, s: State, a: Id, r: Id, tool: string) {
    && a in s.store.approvals && r in s.store.runs && tool in env.phrases
    && s.store.approvals[a].run == r && s.store.approvals[a].status.Pending? && s.store.approvals[a].subject == Subject.Tool(tool)
    && s.store.approvals[a].expires == 0 && s.store.approvals[a].phrase == env.phrases[tool]
  }

  lemma AskedNow(env: Env, s: State, t: Id, r: Id, tool: string, args: Json)
    requires CallGets(env, s, t, r, tool, args, Ask)
    ensures var u := DoCall(env, s, t, tool, args, 0); u.log == s.log && Waits(env, u, s.nextId + 1, r, tool)
  {
  }

  lemma ConfirmedNow(env: Env, s: State, a: Id, r: Id, tool: string)
    requires Waits(env, s, a, r, tool)
    ensures var u := Next(env, s, CheckApproval(a, Phrase(env.phrases[tool]), 0));
      && u.log == s.log && AtStage(u, s.nextId, Checked) && u.memory.approvers[s.nextId].approval == a && u.store == s.store
  {
  }

  lemma ClaimedNow(env: Env, s: State, x: Id, a: Id, r: Id, tool: string)
    requires AtStage(s, x, Checked) && s.memory.approvers[x].approval == a
    requires s.store.approvals[a].run == r && s.store.approvals[a].status.Pending? && s.store.approvals[a].subject == Subject.Tool(tool)
    ensures var u := Next(env, s, Claim(x)); u.log == s.log && u.store.runs == s.store.runs && x in u.memory.approvers && ClaimsTool(u, x, r)
  {
  }

  lemma OneStep(env: Env, s: State, a: Action)
    requires Enabled(env, s, a)
    ensures Runs(env, s, [a]) && After(env, s, [a]) == Next(env, s, a)
  {
    assert [a][1..] == [];
  }

  /** Some way on executes a tool for the run. */
  ghost predicate Executes(env: Env, s: State, r: Id) {
    exists trace :: Runs(env, s, trace) && !SameEntries(s.log, After(env, s, trace).log, r)
  }

  lemma ExecutesNow(env: Env, s: State, a: Action, r: Id)
    requires Enabled(env, s, a) && !QuietStep(s, Next(env, s, a), r)
    ensures Executes(env, s, r)
  {
    OneStep(env, s, a);
    assert !SameEntries(s.log, After(env, s, [a]).log, r);
  }

  lemma ExecutesLater(env: Env, s: State, a: Action, r: Id)
    requires Enabled(env, s, a) && Next(env, s, a).log == s.log && Executes(env, Next(env, s, a), r)
    ensures Executes(env, s, r)
  {
    var t := Next(env, s, a);
    var rest :| Runs(env, t, rest) && !SameEntries(t.log, After(env, t, rest).log, r);
    assert ([a] + rest)[1..] == rest;
    assert Runs(env, s, [a] + rest) && !SameEntries(s.log, After(env, s, [a] + rest).log, r);
  }

  lemma ExecutesClaimed(env: Env, s: State, x: Id, r: Id)
    requires Inv(env, s) && ClaimsTool(s, x, r)
    ensures Executes(env, s, r)
  {
    ClaimsOutliveCancellation(env, s, x, r, true);
    ExecutesNow(env, s, Act(x, true), r);
  }

  lemma ExecutesChecked(env: Env, s: State, x: Id, a: Id, r: Id, tool: string)
    requires Sane(env) && Inv(env, s) && AtStage(s, x, Checked) && s.memory.approvers[x].approval == a
    requires s.store.approvals[a].run == r && s.store.approvals[a].status.Pending? && s.store.approvals[a].subject == Subject.Tool(tool)
    ensures Executes(env, s, r)
  {
    ClaimedNow(env, s, x, a, r, tool);
    NextInv(env, s, Claim(x));
    ExecutesClaimed(env, Next(env, s, Claim(x)), x, r);
    ExecutesLater(env, s, Claim(x), r);
  }

  lemma ExecutesPending(env: Env, s: State, a: Id, r: Id, tool: string)
    requires Sane(env) && Inv(env, s) && Waits(env, s, a, r, tool)
    ensures Executes(env, s, r)
  {
    var check := CheckApproval(a, Phrase(env.phrases[tool]), 0);
    ConfirmedNow(env, s, a, r, tool);
    NextInv(env, s, check);
    ExecutesChecked(env, Next(env, s, check), s.nextId, a, r, tool);
    ExecutesLater(env, s, check, r);
  }

  lemma ExecutesAfter(env: Env, s: State, ask: Action, u: State, a: Id, r: Id, tool: string)
    requires Sane(env) && Inv(env, s) && Enabled(env, s, ask) && Next(env, s, ask) == u && u.log == s.log && Waits(env, u, a, r, tool)
    ensures Executes(env, s, r)
  {
    NextInv(env, s, ask);
    ExecutesPending(env, u, a, r, tool);
    ExecutesLater(env, s, ask, r);
  }

  /** A busy worker that asks the operator late: the request is confirmed, claimed and executed. */
  lemma LateAsksExecute(env: Env, s: State, t: Id, r: Id, tool: string, args: Json)
    requires Sane(env) && Inv(env, s) && CallGets(env, s, t, r, tool, args, Ask)
    ensures Executes(env, s, r)
  {
    AskedNow(env, s, t, r, tool, args);
    ExecutesAfter(env, s, Call(t, tool, args, 0), DoCall(env, s, t, tool, args, 0), s.nextId + 1, r, tool);
  }

  /** Exactly: something is still executed, on some way on, for a run that ended, say by a cancellation,
      if and only if an approver is past its claim on a tool of it or one of its busy workers has a
      call that the guard lets through or puts to the operator. */
  lemma ExecutesIff(env: Env, s: State, r: Id)
    requires Sane(env) && Inv(env, s) && r in s.store.runs && Final(s.store.runs[r].status)
    ensures Executes(env, s, r) <==> CanStillAct(env, s, r)
  {
    if CanActAtOnce(env, s, r) {
      QuietStepsIff(env, s, r);
      var a :| Enabled(env, s, a) && !QuietStep(s, Next(env, s, a), r);
      ExecutesNow(env, s, a, r);
    } else if t, tool, args :| CallGets(env, s, t, r, tool, args, Ask) {
      LateAsksExecute(env, s, t, r, tool, args);
    } else {
      forall trace | Runs(env, s, trace) ensures SameEntries(s.log, After(env, s, trace).log, r) {
        CancelledRunsFallSilent(env, s, trace, r);
      }
    }
  }
}
