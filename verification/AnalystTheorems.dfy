/** What the analyst protocol promises over whole runs: any interleaving of operators and workers. */
module AnalystTheorems {
  import opened Wrappers
  import opened ToolPolicy
  import opened AnalystScope
  import opened AnalystMachine
  import opened AnalystInvariants

  lemma InitialInv(env: Env, s: State)
    requires Initial(s)
    ensures Inv(env, s)
  {
    assert Good(env, s, Owners(map[], map[], map[], map[]));
  }

  lemma DemandOk(env: Env, s: State, o: Owners, d: Demand, expires: int)
    requires Sane(env) && Good(env, s, o)
    ensures Inv(env, DoDemand(env, s, d, expires))
  {
    if env.read(d.scope).Some? {
      ScopeForSettles(env, s, d.conversation, env.read(d.scope).value);
      var scope := ScopeFor(env, s, d.conversation, env.read(d.scope).value);
      if scope.Some? { StartedOk(env, s, o, Understood(d, scope.value), expires); }
    }
  }

  lemma RetryOk(env: Env, s: State, o: Owners, r: Id, required: bool, asks: bool, expires: int)
    requires Sane(env) && Good(env, s, o) && r in s.store.runs
    ensures Inv(env, DoRetry(env, s, r, required, asks, expires))
  {
    assert Settles(env, s.store.runs[r].scope);
    ScopeForSettles(env, s, s.store.runs[r].conversation, s.store.runs[r].scope);
    var scope := RetryScope(env, s, r);
    if Retryable(s.store.runs[r]) && scope.Some? {
      StartedOk(env, s, o, RetryRequest(r, s.store.runs[r], scope.value, required, asks), expires);
    }
  }

  lemma NextInv(env: Env, s: State, a: Action)
    requires Sane(env) && Inv(env, s) && Enabled(env, s, a)
    ensures Inv(env, Next(env, s, a))
  {
    var o :| Good(env, s, o);
    match a {
      case Start(d, expires) => DemandOk(env, s, o, d, expires);
      case Retry(r, required, asks, expires) => RetryOk(env, s, o, r, required, asks, expires);
      case NewConversation(_) => BumpOk(env, s, o, 1); ContextOk(env, s.(nextId := s.nextId + 1), Next(env, s, a).context);
      case SetCapture(_, _) => ContextOk(env, s, Next(env, s, a).context);
      case BeginTask(t) => EnterOk(env, s, o, t);
      case Pause(t) => PauseOk(env, s, o, t);
      case Proceed(t) => EnterOk(env, s, o, t);
      case Call(t, tool, args, expires) => CallOk(env, s, o, t, tool, args, expires);
      case Answer(t) => ContextOk(env, s, DoAnswer(s, t).context);
      case End(t, outcome) =>
        EndOk(env, s, o, t, outcome);
        ContextOk(env, DropTask(WithStatus(s, s.memory.tasks[t].run, outcome), t), Next(env, s, a).context);
      case CheckApproval(id, confirmation, now) => CheckedOk(env, s, o, id, confirmation, now);
      case Claim(x) => ClaimedOk(env, s, o, x);
      case Act(x, ok) => ActedOk(env, s, o, x, ok);
      case Continue(x) => ContinuedOk(env, s, o, x);
      case Cancel(r) => CancelledOk(env, s, o, r);
      case Reject(id) => RejectedOk(env, s, o, id);
      case Restart => RestartedOk(env, s, o);
    }
  }

  lemma {:induction false} RunInv(env: Env, s: State, trace: seq<Action>)
    requires Sane(env) && Inv(env, s) && Runs(env, s, trace)
    ensures Inv(env, After(env, s, trace))
    decreases |trace|
  {
    if trace != [] {
      NextInv(env, s, trace[0]);
      RunInv(env, Next(env, s, trace[0]), trace[1..]);
    }
  }

  // ---------------------------------------------------------------- runs

  /** Two active runs never share a conversation, unless one was cancelled while its worker was busy and
      went on; two runs never share a client request id (so an interrupted run is retried at most once). */
  lemma RunsAreExclusive(env: Env, s0: State, trace: seq<Action>, r: Id, q: Id)
    requires Sane(env) && Initial(s0) && Runs(env, s0, trace)
    requires r in After(env, s0, trace).store.runs && q in After(env, s0, trace).store.runs && r != q
    ensures var s := After(env, s0, trace);
      var runs := s.store.runs;
      && (runs[r].conversation == runs[q].conversation && Active(runs[r].status) && Active(runs[q].status) ==>
            r in s.memory.cancelled || q in s.memory.cancelled)
      && (runs[r].client.Some? ==> runs[r].client != runs[q].client)
  {
    InitialInv(env, s0);
    RunInv(env, s0, trace);
  }

  lemma PendingMeansAwaiting(env: Env, s0: State, trace: seq<Action>, a: Id)
    requires Sane(env) && Initial(s0) && Runs(env, s0, trace) && a in After(env, s0, trace).store.approvals
    requires After(env, s0, trace).store.approvals[a].status.Pending?
    ensures var s := After(env, s0, trace);
      s.store.approvals[a].run in s.store.runs && s.store.runs[s.store.approvals[a].run].status.AwaitingApproval?
  {
    InitialInv(env, s0);
    RunInv(env, s0, trace);
  }

  /** A retry that does anything continues an interrupted run that could change nothing, in the same
      conversation and with the scope `start` makes of the stored one; the new run cannot change
      anything either. */
  lemma RetriesStayReadOnly(env: Env, s: State, r: Id, required: bool, asks: bool, expires: int)
    requires Inv(env, s) && Enabled(env, s, Retry(r, required, asks, expires))
    requires Next(env, s, Retry(r, required, asks, expires)) != s
    ensures var run, t := s.store.runs[r], Next(env, s, Retry(r, required, asks, expires));
      && run.status.Interrupted? && run.policy.readOnly && !run.policy.allowActive && !run.policy.mode.Action?
      && s.nextId in t.store.runs
      && var again := t.store.runs[s.nextId];
         && again.parent == Some(r) && again.client == Some(RetryOf(r))
         && again.conversation == run.conversation && Some(again.scope) == ScopeFor(env, s, run.conversation, run.scope)
         && again.policy.readOnly && !again.policy.allowActive
  {
    assert Settles(env, s.store.runs[r].scope);
  }

  /** The scope is kept if and only if it names something and agrees with its capture session, or
      names nothing and is what the conversation hands on now: the scope of its latest answer, or else
      the one stored with it. */
  lemma RetryKeepsScopeIff(env: Env, s: State, r: Id, required: bool, asks: bool, expires: int)
    requires Inv(env, s) && Enabled(env, s, Retry(r, required, asks, expires))
    requires Next(env, s, Retry(r, required, asks, expires)) != s
    ensures var run, t := s.store.runs[r], Next(env, s, Retry(r, required, asks, expires));
      && run.conversation in s.context.conversations && s.nextId in t.store.runs
      && (t.store.runs[s.nextId].scope == run.scope <==>
            if HasScope(run.scope) then MatchesCapture(s.context.captures, run.scope)
            else env.reload(Inherited(s, run.conversation)) == Some(run.scope))
  {
    var run := s.store.runs[r];
    RetriesStayReadOnly(env, s, r, required, asks, expires);
    NormalFormMatches(s.context.captures, run.scope);
    if !HasScope(run.scope) && env.reload(Inherited(s, run.conversation)).Some? {
      NormalFormMatches(s.context.captures, env.reload(Inherited(s, run.conversation)).value);
    }
  }

  predicate Keeps(s: State, t: State, r: Id)
    requires r in s.store.runs
  {
    r in t.store.runs && t.store.runs[r] == s.store.runs[r]
  }

  lemma FinalStep(env: Env, s: State, a: Action, r: Id)
    requires Inv(env, s) && Enabled(env, s, a) && r in s.store.runs && Final(s.store.runs[r].status) && !Busy(s, r)
    ensures Keeps(s, Next(env, s, a), r) && !Busy(Next(env, s, a), r)
  {
    var o :| Good(env, s, o);
    if a.CheckApproval? || a.Reject? { FinalUnderCheck(env, s, o, a, r); SameTasks(s, Next(env, s, a), r); }
    else if a.Act? { FinalUnderAct(env, s, o, a, r); SameTasks(s, Next(env, s, a), r); }
    else if a.Claim? || a.Continue? { FinalUnderApprover(env, s, a, r); }
    else if a.Start? || a.Retry? { FinalUnderStart(env, s, o, a, r); }
    else if a.Cancel? || a.Restart? || a.NewConversation? || a.SetCapture? { FinalUnderOperator(env, s, a, r); }
    else { FinalUnderWorker(env, s, o, a, r); }
  }

  lemma FinalUnderWorker(env: Env, s: State, o: Owners, a: Action, r: Id)
    requires TasksOk(s.memory.tasks, s.store.runs, s.memory.cancelled, o) && Enabled(env, s, a)
    requires a.BeginTask? || a.Pause? || a.Proceed? || a.Call? || a.Answer? || a.End?
    requires r in s.store.runs && Final(s.store.runs[r].status) && !Busy(s, r)
    ensures Keeps(s, Next(env, s, a), r) && !Busy(Next(env, s, a), r)
  {
  }

  lemma FinalUnderCheck(env: Env, s: State, o: Owners, a: Action, r: Id)
    requires ApprovalsOk(env, s.store, o) && Enabled(env, s, a) && (a.CheckApproval? || a.Reject?)
    requires r in s.store.runs && Final(s.store.runs[r].status) && !Busy(s, r)
    ensures Keeps(s, Next(env, s, a), r) && Next(env, s, a).memory.tasks == s.memory.tasks
  {
  }

  lemma FinalUnderAct(env: Env, s: State, o: Owners, a: Action, r: Id)
    requires RunsOk(env, s.store.runs, s.memory.cancelled, o) && ApprovalsOk(env, s.store, o) && Enabled(env, s, a) && a.Act?
    requires r in s.store.runs
    ensures Keeps(s, Next(env, s, a), r) && Next(env, s, a).memory.tasks == s.memory.tasks
  {
    ActIs(env, s, o, a.x, a.ok);
  }

  lemma FinalUnderApprover(env: Env, s: State, a: Action, r: Id)
    requires Enabled(env, s, a) && (a.Claim? || a.Continue?)
    requires r in s.store.runs && !Busy(s, r)
    ensures Keeps(s, Next(env, s, a), r) && !Busy(Next(env, s, a), r)
  {
  }

  lemma SameTasks(s: State, t: State, r: Id)
    requires t.memory.tasks == s.memory.tasks && !Busy(s, r)
    ensures !Busy(t, r)
  {
  }

  lemma FinalUnderStart(env: Env, s: State, o: Owners, a: Action, r: Id)
    requires IdsOk(s) && TasksOk(s.memory.tasks, s.store.runs, s.memory.cancelled, o) && Enabled(env, s, a) && (a.Start? || a.Retry?)
    requires r in s.store.runs && Final(s.store.runs[r].status) && !Busy(s, r)
    ensures Keeps(s, Next(env, s, a), r) && !Busy(Next(env, s, a), r)
  {
  }

  lemma FinalUnderOperator(env: Env, s: State, a: Action, r: Id)
    requires Enabled(env, s, a) && (a.Cancel? || a.Restart? || a.NewConversation? || a.SetCapture?)
    requires r in s.store.runs && Final(s.store.runs[r].status) && !Busy(s, r)
    ensures Keeps(s, Next(env, s, a), r) && !Busy(Next(env, s, a), r)
  {
  }

  /** A run that ended, and whose worker is not still busy, keeps its status for ever: no worker,
      operator, retry or restart changes it. */
  lemma {:induction false} FinalRunsStay(env: Env, s: State, trace: seq<Action>, r: Id)
    requires Sane(env) && Inv(env, s) && Runs(env, s, trace) && r in s.store.runs && Final(s.store.runs[r].status) && !Busy(s, r)
    ensures Keeps(s, After(env, s, trace), r)
    decreases |trace|
  {
    if trace != [] {
      FinalStep(env, s, trace[0], r);
      NextInv(env, s, trace[0]);
      FinalRunsStay(env, Next(env, s, trace[0]), trace[1..], r);
    }
  }

  /** Only a cancellation that found its worker busy leaves a final run that can change, and then it
      can: the worker's own verdict overwrites it. */
  lemma FinalStaysIff(env: Env, s: State, r: Id)
    requires Inv(env, s) && r in s.store.runs && Final(s.store.runs[r].status)
    ensures (forall a :: Enabled(env, s, a) ==> Keeps(s, Next(env, s, a), r)) <==> !Busy(s, r)
    ensures Busy(s, r) ==> r in s.memory.cancelled
  {
    if Busy(s, r) {
      var t :| t in s.memory.tasks && s.memory.tasks[t].run == r && s.memory.tasks[t].mode.Inside?;
      var late := End(t, if s.store.runs[r].status.Complete? then Failed else Complete);
      assert Enabled(env, s, late) && !Keeps(s, Next(env, s, late), r);
    } else {
      forall a | Enabled(env, s, a) ensures Keeps(s, Next(env, s, a), r) { FinalStep(env, s, a, r); }
    }
  }

  // ---------------------------------------------------------------- executions

  /** The operator confirmed exactly this execution, in time and with the phrase of the tool. */
  predicate Confirmed(s: State, e: Execution, phrase: Option<string>) {
    && e.approver.Some? && e.approver.value.approval in s.store.approvals
    && var a := s.store.approvals[e.approver.value.approval];
       && a.subject == Subject.Tool(e.tool) && a.run == e.run && a.args == e.args && a.scope == e.scope
       && (a.status.Executed? || a.status.ExecutionFailed? || a.status.Approved?)
       && e.approver.value.checkedAt <= a.expires
       && (phrase == None || phrase == Some("") || phrase == Some(e.approver.value.confirmation))
  }

  /** Every execution in every history is authorised.  It was admissible under the policy and scope
      stored with its run, and an active tool means a run in action mode.  Without the operator only a
      tool of the "read" tier runs, it does not hand research to OpenAI and it sends no private context
      outside; every other execution the operator confirmed, in time, with the phrase, and with exactly
      the tool, arguments and scope the guard had accepted. */
  lemma ExecutionsAreAuthorised(r: Recognisers, tools: map<string, Manifest>, canon: string -> Option<string>,
                                s0: State, trace: seq<Action>, i: nat)
    requires Idempotent(canon) && Initial(s0) && Runs(PolicyEnv(r, tools, canon), s0, trace)
    requires i < |After(PolicyEnv(r, tools, canon), s0, trace).log|
    ensures var s := After(PolicyEnv(r, tools, canon), s0, trace);
      var e := s.log[i];
      && e.run in s.store.runs && e.tool in tools && e.scope == s.store.runs[e.run].scope
      && Admissible(r, tools[e.tool], e.args, HasScope(e.scope), s.store.runs[e.run].policy)
      && (tools[e.tool].active ==> s.store.runs[e.run].policy.mode == Mode.Action)
      && (e.approver == None ==>
            && tools[e.tool].risk == Read && !(tools[e.tool].external_ && r.sensitive(e.args))
            && !(tools[e.tool].name == "research" && e.args.Obj? && "web_provider" in e.args.fields && e.args.fields["web_provider"] == Str("openai")))
      && (e.approver != None ==> Confirmed(s, e, tools[e.tool].phrase))
  {
    var env := PolicyEnv(r, tools, canon);
    PolicyEnvIsSane(r, tools, canon);
    InitialInv(env, s0);
    RunInv(env, s0, trace);
    EntryIsAuthorised(r, tools, canon, After(env, s0, trace), i);
  }

  /** What the guard said when the execution was asked for, in any environment. */
  lemma EntryPassedGate(env: Env, s: State, i: nat)
    requires Inv(env, s) && i < |s.log|
    ensures var e := s.log[i];
      && e.run in s.store.runs && e.tool in env.phrases && e.scope == s.store.runs[e.run].scope
      && (s.store.runs[e.run].policy.allowActive ==> s.store.runs[e.run].policy.mode == Mode.Action)
      && env.gate(e.tool, e.args, e.scope, s.store.runs[e.run].policy) == (if e.approver.None? then Direct else Ask)
      && (e.approver.Some? ==> Confirmed(s, e, env.phrases[e.tool]))
  {
    var o :| Good(env, s, o);
    var e := s.log[i];
    assert EntryOk(env, e, i, s.store, o) && RunOk(env, s.store.runs[e.run], e.run, e.run in s.memory.cancelled, o);
    if e.approver.Some? {
      assert ApprovalOk(env, s.store.approvals[e.approver.value.approval], e.approver.value.approval, s.store.runs[e.run], s.store.invocations, o);
    }
  }

  lemma EntryIsAuthorised(r: Recognisers, tools: map<string, Manifest>, canon: string -> Option<string>, s: State, i: nat)
    requires Inv(PolicyEnv(r, tools, canon), s) && i < |s.log|
    ensures var e := s.log[i];
      && e.run in s.store.runs && e.tool in tools && e.scope == s.store.runs[e.run].scope
      && Admissible(r, tools[e.tool], e.args, HasScope(e.scope), s.store.runs[e.run].policy)
      && (tools[e.tool].active ==> s.store.runs[e.run].policy.mode == Mode.Action)
      && (e.approver == None ==>
            && tools[e.tool].risk == Read && !(tools[e.tool].external_ && r.sensitive(e.args))
            && !(tools[e.tool].name == "research" && e.args.Obj? && "web_provider" in e.args.fields && e.args.fields["web_provider"] == Str("openai")))
      && (e.approver != None ==> Confirmed(s, e, tools[e.tool].phrase))
  {
    var e := s.log[i];
    EntryPassedGate(PolicyEnv(r, tools, canon), s, i);
    GateDecides(r, tools[e.tool], e.args, HasScope(e.scope), s.store.runs[e.run].policy);
  }

  /** One approval is good for one execution, however many operators confirm it at once. */
  lemma OneExecutionPerApproval(env: Env, s0: State, trace: seq<Action>, i: nat, j: nat)
    requires Sane(env) && Initial(s0) && Runs(env, s0, trace) && i < j < |After(env, s0, trace).log|
    ensures var log := After(env, s0, trace).log;
      log[i].approver.Some? && log[j].approver.Some? ==> log[i].approver.value.approval != log[j].approver.value.approval
  {
    InitialInv(env, s0);
    RunInv(env, s0, trace);
  }
}
