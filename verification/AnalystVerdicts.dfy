/** What each call of the analyst API does, said without the machine's own helpers, and what an operator's
    verdict means for good. */
module AnalystVerdicts {
  import opened Wrappers
  import opened ToolPolicy
  import opened AnalystScope
  import opened AnalystMachine
  import opened AnalystInvariants
  import opened AnalystTheorems
  import opened AnalystSilence

  // ---------------------------------------------------------------- starting

  /** Why `start` raises: the scope cannot be read, the conversation is unknown or hands on a scope that
      cannot be read, the request id is taken (its run is returned), the conversation has an active run,
      or the parent is not an interrupted run of the conversation. */
  predicate StartFails(env: Env, s: State, d: Demand) {
    || env.read(d.scope) == None
    || d.conversation !in s.context.conversations
    || (!HasScope(env.read(d.scope).value) && env.reload(Inherited(s, d.conversation)) == None)
    || (d.client != None && d.client != Some(Named("")) && exists r :: r in s.store.runs && s.store.runs[r].client == d.client)
    || (exists r :: r in s.store.runs && s.store.runs[r].conversation == d.conversation
                    && s.store.runs[r].status in {Queued, Running, AwaitingApproval})
    || (d.parent != None && !(d.parent.value in s.store.runs && s.store.runs[d.parent.value].conversation == d.conversation
                              && s.store.runs[d.parent.value].status == Interrupted))
  }

  /** The run says what was asked for; only what it may do is derived, from its mode. */
  predicate RunsAsAsked(run: Run, d: Demand) {
    && run.conversation == d.conversation && run.parent == d.parent
    && run.client == (if d.client == Some(Named("")) then None else d.client)
    && (run.policy.readOnly <==> d.policy.mode != Mode.Action) && (run.policy.allowActive <==> d.policy.mode == Mode.Action)
    && run.policy.(readOnly := d.policy.readOnly, allowActive := d.policy.allowActive) == d.policy
  }

  lemma StartRaisesIff(env: Env, s: State, d: Demand, expires: int)
    requires Inv(env, s)
    ensures Next(env, s, Start(d, expires)) == s <==> StartFails(env, s, d)
  {
    var t := Next(env, s, Start(d, expires));
    if t != s { assert s.nextId in t.store.runs; }
    if d.conversation in s.context.conversations && !StartFails(env, s, d) { assert t.nextId == s.nextId + 3; }
  }

  /** A conversation hands on the scope of the run that answered last in it, or else its own. */
  predicate HandsOn(s: State, c: Id, scope: Scope) {
    && c in s.context.conversations
    && (forall r :: c in s.context.latest && r == s.context.latest[c] && r in s.store.runs && s.store.runs[r].conversation == c
          ==> scope == s.store.runs[r].scope)
    && ((c !in s.context.latest || s.context.latest[c] !in s.store.runs || s.store.runs[s.context.latest[c]].conversation != c)
          ==> scope == s.context.conversations[c])
  }

  /** One run is stored and, in this order of preference, it needs a scope it does not have, waits for
      the operator's consent to OpenAI, or is queued; a task exists only in the last case and a pending
      request for consent only in the second. */
  predicate Queues(s: State, t: State, scopeRequired: bool, asks: bool, expires: int) {
    && s.nextId in t.store.runs
    && var run := t.store.runs[s.nextId];
       && t.store.runs == s.store.runs[s.nextId := run] && t.log == s.log
       && run.status ==
            (if run.policy.mode != General && scopeRequired && !HasScope(run.scope) then NeedsScope
             else if asks then AwaitingApproval else Queued)
       && t.memory.tasks ==
            (if run.status == Queued then s.memory.tasks[s.nextId + 1 := Task(s.nextId, run.scope, run.policy, Waiting)] else s.memory.tasks)
       && t.store.approvals ==
            (if run.status == AwaitingApproval
             then s.store.approvals[s.nextId + 1 := Approval(s.nextId, s.nextId + 2, Provider, Null, run.scope, None, expires, Pending)]
             else s.store.approvals)
       && t.context.conversations ==
            (if HasScope(run.scope) then s.context.conversations[run.conversation := run.scope] else s.context.conversations)
       && t.context.latest == (if run.status == NeedsScope then s.context.latest[run.conversation := s.nextId] else s.context.latest)
  }

  lemma CreationQueues(s: State, q: Request, expires: int)
    requires Accepts(s, q)
    ensures Queues(s, DoStart(s, q, expires), q.scopeRequired, q.asks, expires)
    ensures DoStart(s, q, expires).store.runs[s.nextId] == NewRun(q)
  {
  }

  /** An accepted `start` stores the run that was asked for, with its own scope or the one handed on. */
  lemma StartsAs(env: Env, s: State, d: Demand, expires: int)
    requires Inv(env, s) && !StartFails(env, s, d)
    ensures var t := Next(env, s, Start(d, expires));
      && s.nextId !in s.store.runs && Queues(s, t, d.scopeRequired, d.asks, expires)
      && var run := t.store.runs[s.nextId];
         && RunsAsAsked(run, d)
         && (HasScope(env.read(d.scope).value) ==> run.scope == NormalForm(s.context.captures, env.read(d.scope).value))
         && (!HasScope(env.read(d.scope).value) ==>
               exists scope :: HandsOn(s, d.conversation, scope) && run.scope == NormalForm(s.context.captures, env.reload(scope).value))
  {
    var scope := ScopeFor(env, s, d.conversation, env.read(d.scope).value);
    var o :| Good(env, s, o);
    CreationQueues(s, Understood(d, scope.value), expires);
    assert HandsOn(s, d.conversation, Inherited(s, d.conversation));
  }

  /** Why `retry` changes nothing: the run was not interrupted or could change something, its scope or the
      one handed on cannot be read, it was retried before, or its conversation has an active run. */
  predicate RetryFails(env: Env, s: State, r: Id)
    requires r in s.store.runs
  {
    var run := s.store.runs[r];
    || run.status != Interrupted || run.policy.mode == Mode.Action || !run.policy.readOnly || run.policy.allowActive
    || run.conversation !in s.context.conversations || env.reload(run.scope) == None
    || (!HasScope(env.reload(run.scope).value) && env.reload(Inherited(s, run.conversation)) == None)
    || (exists q :: q in s.store.runs && s.store.runs[q].client == Some(RetryOf(r)))
    || (exists q :: q in s.store.runs && s.store.runs[q].conversation == run.conversation
                    && s.store.runs[q].status in {Queued, Running, AwaitingApproval})
  }

  /** A retry is refused exactly then; otherwise it starts a run as `start` does, in the mode of the old one. */
  lemma RetriesAs(env: Env, s: State, r: Id, scopeRequired: bool, asks: bool, expires: int)
    requires Inv(env, s) && r in s.store.runs
    ensures var t := Next(env, s, Retry(r, scopeRequired, asks, expires));
      if RetryFails(env, s, r) then t == s
      else
        && Queues(s, t, scopeRequired, asks, expires)
        && var (again, run) := (t.store.runs[s.nextId], s.store.runs[r]);
           again.parent == Some(r) && again.conversation == run.conversation && again.policy == run.policy
  {
    var o :| Good(env, s, o);
    var run := s.store.runs[r];
    RetryIsAccepted(env, s, o, r, scopeRequired, asks);
    if !RetryFails(env, s, r) {
      CreationQueues(s, RetryRequest(r, run, RetryScope(env, s, r).value, scopeRequired, asks), expires);
    }
  }

  lemma RetryIsAccepted(env: Env, s: State, o: Owners, r: Id, scopeRequired: bool, asks: bool)
    requires Good(env, s, o) && r in s.store.runs
    ensures RetryFails(env, s, r) <==>
      || !Retryable(s.store.runs[r]) || RetryScope(env, s, r).None?
      || !Accepts(s, RetryRequest(r, s.store.runs[r], RetryScope(env, s, r).value, scopeRequired, asks))
    ensures Retryable(s.store.runs[r]) ==> DerivedPolicy(s.store.runs[r].policy) == s.store.runs[r].policy
  {
  }

  lemma AnswersHandOn(env: Env, s: State, t: Id, outcome: Status, scope: Scope)
    requires Enabled(env, s, End(t, outcome)) && outcome != Failed && s.memory.tasks[t].run in s.store.runs
    requires HandsOn(Next(env, s, End(t, outcome)), s.store.runs[s.memory.tasks[t].run].conversation, scope)
    ensures scope == s.store.runs[s.memory.tasks[t].run].scope
  {
  }

  /** A run that names no scope goes on with the scope of the run that ended just before it in its
      conversation, unless that one failed. */
  lemma FollowUpsInherit(env: Env, s: State, t: Id, outcome: Status, d: Demand, expires: int)
    requires Sane(env) && Inv(env, s) && Enabled(env, s, End(t, outcome)) && outcome != Failed
    requires s.memory.tasks[t].run in s.store.runs && d.conversation == s.store.runs[s.memory.tasks[t].run].conversation
    requires !StartFails(env, Next(env, s, End(t, outcome)), d) && !HasScope(env.read(d.scope).value)
    ensures var u := Next(env, s, End(t, outcome));
      var v := Next(env, u, Start(d, expires));
      var before := s.store.runs[s.memory.tasks[t].run].scope;
      && u.nextId in v.store.runs
      && v.store.runs[u.nextId].scope == NormalForm(u.context.captures, env.reload(before).value)
  {
    var u := Next(env, s, End(t, outcome));
    NextInv(env, s, End(t, outcome));
    StartsAs(env, u, d, expires);
    forall scope | HandsOn(u, d.conversation, scope) ensures scope == s.store.runs[s.memory.tasks[t].run].scope {
      AnswersHandOn(env, s, t, outcome, scope);
    }
  }

  // ---------------------------------------------------------------- a tool call

  /** Nothing but the operator stands in the way of the call. */
  predicate Harmless(r: Recognisers, m: Manifest, v: Json) {
    && m.risk == Read && !(m.external_ && r.sensitive(v))
    && !(m.name == "research" && v.Obj? && "web_provider" in v.fields && v.fields["web_provider"] == Str("openai"))
  }

  /** The invocation is recorded in any case. */
  predicate Recorded(s: State, u: State, run: Id, args: Json) {
    u.store.invocations == s.store.invocations[s.nextId := Invocation(run, args)] && u.context == s.context
  }

  /** What a call of a registered tool with typed bounds does.  An admissible and harmless one is logged
      at once.  One that is admissible and not harmless is put to the operator, as it stands and with the
      phrase of the tool, and the worker gives the run up until then.  Any other changes nothing, and the
      worker goes on. */
  lemma CallsAreJudged(r: Recognisers, tools: map<string, Manifest>, canon: string -> Option<string>,
                       s: State, t: Id, tool: string, args: Json, expires: int)
    requires Holds(s, t, Inside) && tool in tools && (tools[tool].input.Some? ==> BoundsAreTyped(tools[tool].input.value))
    ensures var (u, task) := (Next(PolicyEnv(r, tools, canon), s, Call(t, tool, args, expires)), s.memory.tasks[t]);
      && Recorded(s, u, task.run, args)
      && if !Admissible(r, tools[tool], args, HasScope(task.scope), task.policy) then
           u.log == s.log && u.store.approvals == s.store.approvals && u.store.runs == s.store.runs && u.memory == s.memory
         else if Harmless(r, tools[tool], args) then
           && u.log == s.log + [Execution(task.run, tool, args, task.scope, None)]
           && u.store.approvals == s.store.approvals && u.store.runs == s.store.runs && u.memory == s.memory
         else
           && u.log == s.log && u.memory == s.memory.(tasks := s.memory.tasks - {t})
           && u.store.approvals == s.store.approvals[s.nextId + 1 :=
                Approval(task.run, s.nextId, Subject.Tool(tool), args, task.scope, tools[tool].phrase, expires, Pending)]
           && u.store.runs == s.store.runs[task.run := s.store.runs[task.run].(status := AwaitingApproval)]
  {
    GateDecides(r, tools[tool], args, HasScope(s.memory.tasks[t].scope), s.memory.tasks[t].policy);
  }

  /** A tool nobody registered, and arguments no bound can be compared with, fail the run; nothing is executed. */
  lemma BrokenCallsFailTheRun(env: Env, s: State, t: Id, tool: string, args: Json, expires: int)
    requires Holds(s, t, Inside)
    requires tool !in env.phrases || env.gate(tool, args, s.memory.tasks[t].scope, s.memory.tasks[t].policy).Break?
    ensures var u := Next(env, s, Call(t, tool, args, expires));
      && u.log == s.log && u.store.approvals == s.store.approvals && u.memory == s.memory.(tasks := s.memory.tasks - {t})
      && u.store.runs == s.store.runs[s.memory.tasks[t].run := s.store.runs[s.memory.tasks[t].run].(status := Failed)]
  {
  }

  // ---------------------------------------------------------------- approving

  /** The steps of one `approve` call that succeeds. */
  function Approving(s: State, a: Id, confirmation: string, now: int, ok: bool): seq<Action> {
    [CheckApproval(a, confirmation, now), Claim(s.nextId), Act(s.nextId, ok), Continue(s.nextId)]
  }

  predicate Confirms(a: Approval, confirmation: string, now: int) {
    a.status.Pending? && now <= a.expires && (a.phrase == None || a.phrase == Some("") || a.phrase == Some(confirmation))
  }

  /** What `approve` leaves: the approval decided, the tool executed exactly as it was asked for, and the
      run in a new task with the scope and policy stored with it. */
  predicate Resumed(s: State, t: State, a: Id, confirmation: string, now: int, ok: bool)
    requires a in s.store.approvals && s.store.approvals[a].run in s.store.runs
  {
    var asked, run := s.store.approvals[a], s.store.runs[s.store.approvals[a].run];
    && t.store.runs == s.store.runs && t.store.invocations == s.store.invocations
    && t.store.approvals == s.store.approvals[a := asked.(status :=
         if asked.subject.Provider? then Approved else if ok then Executed else ExecutionFailed)]
    && t.log == (if asked.subject.Provider? then s.log
                 else s.log + [Execution(asked.run, asked.subject.name, asked.args, asked.scope,
                                         Some(Approver(a, confirmation, now, Claimed)))])
    && t.memory.tasks == s.memory.tasks[s.nextId + 1 := Task(asked.run, run.scope, run.policy, Waiting)]
  }

  predicate Goes(env: Env, s: State, a: Action, t: State) { Enabled(env, s, a) && Next(env, s, a) == t }

  /** `approve` under way: how far the approver is, what became of the approval, what was logged. */
  function Midway(s: State, a: Id, approver: Approver, status: ApprovalStatus, log: seq<Execution>): State
    requires a in s.store.approvals
  {
    State(s.store.(approvals := s.store.approvals[a := s.store.approvals[a].(status := status)]),
          s.memory.(approvers := s.memory.approvers[s.nextId := approver]), log, s.nextId + 1, s.context)
  }

  function Logged(s: State, asked: Approval, approver: Approver): seq<Execution> {
    if asked.subject.Provider? then s.log
    else s.log + [Execution(asked.run, asked.subject.name, asked.args, asked.scope, Some(approver))]
  }

  lemma CheckGoes(env: Env, s: State, a: Id, confirmation: string, now: int)
    requires a in s.store.approvals && s.store.approvals[a].run in s.store.runs && Confirms(s.store.approvals[a], confirmation, now)
    ensures Goes(env, s, CheckApproval(a, confirmation, now), Midway(s, a, Approver(a, confirmation, now, Checked), Pending, s.log))
  {
    assert s.store.approvals == s.store.approvals[a := s.store.approvals[a].(status := Pending)];
  }

  lemma ClaimGoes(env: Env, s: State, a: Id, x: Approver)
    requires a in s.store.approvals && s.store.approvals[a].run in s.store.runs && x.approval == a && x.stage.Checked?
    ensures Goes(env, Midway(s, a, x, Pending, s.log), Claim(s.nextId), Midway(s, a, x.(stage := Claimed), ApprovalStatus.Approving, s.log))
  {
  }

  /** What the operator was asked is what is stored now. */
  predicate AsAsked(env: Env, s: State, asked: Approval) {
    && asked.run in s.store.runs && asked.scope == s.store.runs[asked.run].scope && Settles(env, asked.scope)
    && (asked.subject.Tool? ==>
          && asked.subject.name in env.phrases
          && asked.invocation in s.store.invocations && s.store.invocations[asked.invocation].args == asked.args)
  }

  lemma ActGoes(env: Env, s: State, a: Id, x: Approver, ok: bool)
    requires a in s.store.approvals && AsAsked(env, s, s.store.approvals[a]) && x.approval == a && x.stage.Claimed?
    ensures var asked := s.store.approvals[a];
      Goes(env, Midway(s, a, x, ApprovalStatus.Approving, s.log), Act(s.nextId, ok),
           Midway(s, a, x.(stage := Acted), AnalystInvariants.Outcome(asked, ok), Logged(s, asked, x)))
  {
  }

  lemma ContinueGoes(env: Env, s: State, a: Id, x: Approver, status: ApprovalStatus, log: seq<Execution>)
    requires a in s.store.approvals && AsAsked(env, s, s.store.approvals[a]) && x.approval == a && x.stage.Acted? && s.nextId !in s.memory.approvers
    ensures var (asked, m) := (s.store.approvals[a], Midway(s, a, x, status, log));
      Goes(env, m, Continue(s.nextId),
           State(m.store, s.memory.(tasks := s.memory.tasks[s.nextId + 1 := Task(asked.run, asked.scope, s.store.runs[asked.run].policy, Waiting)]),
                 log, s.nextId + 2, s.context))
  {
    assert s.memory.approvers[s.nextId := x] - {s.nextId} == s.memory.approvers;
  }

  lemma FourSteps(env: Env, s: State, s1: State, s2: State, s3: State, s4: State, a: Action, b: Action, c: Action, d: Action)
    requires Goes(env, s, a, s1) && Goes(env, s1, b, s2) && Goes(env, s2, c, s3) && Goes(env, s3, d, s4)
    ensures Runs(env, s, [a, b, c, d]) && After(env, s, [a, b, c, d]) == s4
  {
    assert [d][1..] == [] && [c, d][1..] == [d] && [b, c, d][1..] == [c, d] && [a, b, c, d][1..] == [b, c, d];
    assert Runs(env, s4, []) && After(env, s4, []) == s4;
    assert Runs(env, s3, [d]) && After(env, s3, [d]) == s4;
    assert Runs(env, s2, [c, d]) && After(env, s2, [c, d]) == s4;
    assert Runs(env, s1, [b, c, d]) && After(env, s1, [b, c, d]) == s4;
  }

  lemma PendingIsAsAsked(env: Env, s: State, a: Id)
    requires Inv(env, s) && a in s.store.approvals
    ensures AsAsked(env, s, s.store.approvals[a]) && s.nextId !in s.memory.approvers
  {
    var o :| Good(env, s, o);
    var asked := s.store.approvals[a];
    assert ApprovalOk(env, asked, a, s.store.runs[asked.run], s.store.invocations, o);
    assert RunOk(env, s.store.runs[asked.run], asked.run, asked.run in s.memory.cancelled, o);
  }

  /** In any state the protocol can be in: a pending approval confirmed in time and with its phrase is
      carried out, whatever else is under way. */
  lemma ApprovalIsCarriedOut(env: Env, s: State, a: Id, confirmation: string, now: int, ok: bool)
    requires Inv(env, s) && a in s.store.approvals && Confirms(s.store.approvals[a], confirmation, now)
    ensures s.store.approvals[a].run in s.store.runs
    ensures Runs(env, s, Approving(s, a, confirmation, now, ok))
    ensures Resumed(s, After(env, s, Approving(s, a, confirmation, now, ok)), a, confirmation, now, ok)
  {
    var asked, x := s.store.approvals[a], Approver(a, confirmation, now, Checked);
    PendingIsAsAsked(env, s, a);
    CheckGoes(env, s, a, confirmation, now);
    ClaimGoes(env, s, a, x);
    ActGoes(env, s, a, x.(stage := Claimed), ok);
    ContinueGoes(env, s, a, x.(stage := Acted), AnalystInvariants.Outcome(asked, ok), Logged(s, asked, x.(stage := Claimed)));
    var m := Midway(s, a, x.(stage := Acted), AnalystInvariants.Outcome(asked, ok), Logged(s, asked, x.(stage := Claimed)));
    FourSteps(env, s, Midway(s, a, x, Pending, s.log), Midway(s, a, x.(stage := Claimed), ApprovalStatus.Approving, s.log), m,
              State(m.store, s.memory.(tasks := s.memory.tasks[s.nextId + 1 := Task(asked.run, asked.scope, s.store.runs[asked.run].policy, Waiting)]),
                    m.log, s.nextId + 2, s.context),
              CheckApproval(a, confirmation, now), Claim(s.nextId), Act(s.nextId, ok), Continue(s.nextId));
  }

  // ---------------------------------------------------------------- cancelling, restarting

  /** Cancelling ends a run that has not ended, the interrupted ones included, and withdraws what it
      was waiting for; nothing else changes, and a run that has ended is left alone. */
  lemma CancelsAs(env: Env, s: State, r: Id)
    requires r in s.store.runs
    ensures var t := Next(env, s, Cancel(r));
      if s.store.runs[r].status in {Complete, Degraded, NeedsScope, Failed, Status.Rejected, Cancelled} then t == s
      else
        && t.store.runs == s.store.runs[r := s.store.runs[r].(status := Cancelled)]
        && t.store.approvals.Keys == s.store.approvals.Keys
        && (forall a :: a in s.store.approvals ==>
              t.store.approvals[a] ==
                if s.store.approvals[a].run == r && s.store.approvals[a].status == Pending
                then s.store.approvals[a].(status := Withdrawn) else s.store.approvals[a])
        && t.log == s.log && t.memory.tasks == s.memory.tasks && r in t.memory.cancelled
  {
  }

  /** After a restart nothing is under way: every run that was active is interrupted, the others are as
      they were, no approval waits any more and nothing was executed. */
  lemma RestartInterrupts(env: Env, s: State)
    requires Inv(env, s)
    ensures var t := Next(env, s, Restart);
      && t.store.runs.Keys == s.store.runs.Keys
      && (forall r :: r in s.store.runs ==>
            t.store.runs[r] == if s.store.runs[r].status in {Queued, Running, AwaitingApproval}
                               then s.store.runs[r].(status := Interrupted) else s.store.runs[r])
      && t.store.approvals.Keys == s.store.approvals.Keys
      && (forall a :: a in s.store.approvals ==>
            t.store.approvals[a] == if s.store.approvals[a].status == Pending
                                    then s.store.approvals[a].(status := Withdrawn) else s.store.approvals[a])
      && t.memory.tasks == map[] && t.memory.approvers == map[] && t.log == s.log
      && t.store.invocations == s.store.invocations && t.context == s.context
  {
    var o :| Good(env, s, o);
    forall a | a in s.store.approvals && s.store.approvals[a].status.Pending?
      ensures s.store.approvals[a].run in s.store.runs && s.store.runs[s.store.approvals[a].run].status.AwaitingApproval?
    {
      assert ApprovalOk(env, s.store.approvals[a], a, s.store.runs[s.store.approvals[a].run], s.store.invocations, o);
    }
  }

  /** The worker's own steps: taking the run up, pausing, going on and ending it.  A run that was
      cancelled is given up as soon as the worker looks; one that ends takes the worker's verdict, and
      is the latest answer of its conversation unless it failed. */
  lemma WorkersStepAs(env: Env, s: State, a: Action)
    requires Enabled(env, s, a) && (a.BeginTask? || a.Pause? || a.Proceed? || a.End?)
    ensures var (t, task) := (Next(env, s, a), s.memory.tasks[a.t]);
      var run := s.store.runs[task.run];
      && t.log == s.log && t.store.approvals == s.store.approvals
      && match a
         case Pause(k) => t.store.runs == s.store.runs && t.memory.tasks == s.memory.tasks[k := task.(mode := Between)] && t.context == s.context
         case End(k, outcome) =>
           && t.store.runs == s.store.runs[task.run := run.(status := outcome)] && t.memory.tasks == s.memory.tasks - {k}
           && t.context.latest == (if outcome == Failed then s.context.latest else s.context.latest[run.conversation := task.run])
         case _ =>
           && t.context == s.context
           && if task.run in s.memory.cancelled then t.store.runs == s.store.runs && t.memory.tasks == s.memory.tasks - {a.t}
              else
                && t.store.runs == (if a.BeginTask? then s.store.runs[task.run := run.(status := Running)] else s.store.runs)
                && t.memory.tasks == s.memory.tasks[a.t := task.(mode := Inside)]
  {
  }

  // ---------------------------------------------------------------- waiting for a verdict

  lemma PendingHasRun(env: Env, s: State, a: Id)
    requires Inv(env, s) && a in s.store.approvals && s.store.approvals[a].status == Pending
    ensures s.store.approvals[a].run in s.store.runs
  {
    var o :| Good(env, s, o);
    assert ApprovalOk(env, s.store.approvals[a], a, s.store.runs[s.store.approvals[a].run], s.store.invocations, o);
  }

  /** A rejection counts exactly while the approval waits. */
  lemma RejectsIff(env: Env, s: State, a: Id)
    requires Inv(env, s)
    ensures Next(env, s, Reject(a)) != s <==> a in s.store.approvals && s.store.approvals[a].status == Pending
  {
    if a in s.store.approvals && s.store.approvals[a].status == Pending {
      PendingHasRun(env, s, a);
      assert Next(env, s, Reject(a)).store.approvals[a].status == Refused;
    }
  }

  /** A confirmation counts exactly then, if moreover it comes too late or with the phrase asked for. */
  lemma ConfirmsIff(env: Env, s: State, a: Id, confirmation: string, now: int)
    requires Inv(env, s)
    ensures Next(env, s, CheckApproval(a, confirmation, now)) != s <==>
      && a in s.store.approvals && s.store.approvals[a].status == Pending
      && (now > s.store.approvals[a].expires || Confirms(s.store.approvals[a], confirmation, now))
  {
    if a in s.store.approvals && s.store.approvals[a].status == Pending {
      PendingHasRun(env, s, a);
      var t := Next(env, s, CheckApproval(a, confirmation, now));
      if now > s.store.approvals[a].expires { assert t.store.approvals[a].status == Expired; }
      else if Confirms(s.store.approvals[a], confirmation, now) { assert t.nextId == s.nextId + 1; }
      else { assert !PhraseMatches(s.store.approvals[a].phrase, confirmation); }
    }
  }

  /** Of two approvers of one approval, the one whose claim comes second withdraws. */
  lemma SecondClaimWithdraws(env: Env, s: State, x: Id)
    requires Enabled(env, s, Claim(x)) && s.store.approvals[s.memory.approvers[x].approval].status != Pending
    ensures Next(env, s, Claim(x)) == s.(memory := s.memory.(approvers := s.memory.approvers - {x}))
  {
  }

  /** Approval `a` waits for the operator. */
  predicate AwaitsVerdict(s: State, a: Id, r: Id) {
    a in s.store.approvals && s.store.approvals[a].run == r && s.store.approvals[a].status.Pending?
  }

  /** The run has nothing that works for it: no task, and no approver past its claim. */
  predicate Unattended(s: State, r: Id) {
    && (forall t :: t in s.memory.tasks ==> s.memory.tasks[t].run != r)
    && (forall x :: x in s.memory.approvers && !s.memory.approvers[x].stage.Checked? && s.memory.approvers[x].approval in s.store.approvals
          ==> s.store.approvals[s.memory.approvers[x].approval].run != r)
  }

  lemma WaitingIsUnattended(env: Env, s: State, a: Id, r: Id)
    requires Inv(env, s) && AwaitsVerdict(s, a, r)
    ensures Unattended(s, r) && r in s.store.runs && s.store.runs[r].status.AwaitingApproval?
  {
    var o :| Good(env, s, o);
    assert ApprovalOk(env, s.store.approvals[a], a, s.store.runs[r], s.store.invocations, o);
    forall t | t in s.memory.tasks ensures s.memory.tasks[t].run != r {
      assert TaskOk(s.memory.tasks[t], t, s.store.runs[s.memory.tasks[t].run], s.memory.tasks[t].run in s.memory.cancelled, o);
    }
  }

  lemma UnattendedIsMute(env: Env, s: State, r: Id)
    requires Unattended(s, r) && r in s.store.runs && Final(s.store.runs[r].status)
    ensures Mute(env, s, r) && !Busy(s, r)
  {
  }

  /** The two verdicts against: the operator rejects, or confirms too late. */
  predicate Refuses(s: State, a: Id, verdict: Action)
    requires a in s.store.approvals
  {
    verdict == Reject(a) || (verdict.CheckApproval? && verdict.a == a && verdict.now > s.store.approvals[a].expires)
  }

  function VerdictOf(verdict: Action): Status { if verdict.Reject? then Status.Rejected else Failed }

  lemma RefusedIs(env: Env, s: State, a: Id, r: Id, verdict: Action)
    requires AwaitsVerdict(s, a, r) && r in s.store.runs && Refuses(s, a, verdict)
    ensures var t := Next(env, s, verdict);
      && t.log == s.log && t.memory == s.memory
      && t.store.runs == s.store.runs[r := s.store.runs[r].(status := VerdictOf(verdict))]
      && t.store.approvals == s.store.approvals[a := s.store.approvals[a].(status := if verdict.Reject? then Refused else Expired)]
  {
  }

  lemma RefusedNow(env: Env, s: State, a: Id, r: Id, verdict: Action, u: State)
    requires Inv(env, s) && AwaitsVerdict(s, a, r) && Refuses(s, a, verdict) && Goes(env, s, verdict, u)
    ensures r in s.store.runs && u.log == s.log
    ensures u.store.runs == s.store.runs[r := s.store.runs[r].(status := VerdictOf(verdict))]
    ensures Mute(env, u, r) && !Busy(u, r)
  {
    WaitingIsUnattended(env, s, a, r);
    RefusedIs(env, s, a, r, verdict);
    RefusedIsMute(env, s, u, a, r, verdict);
  }

  lemma RefusedIsMute(env: Env, s: State, t: State, a: Id, r: Id, verdict: Action)
    requires AwaitsVerdict(s, a, r) && r in s.store.runs && Unattended(s, r) && t.memory == s.memory
    requires t.store.runs == s.store.runs[r := s.store.runs[r].(status := VerdictOf(verdict))]
    requires t.store.approvals == s.store.approvals[a := s.store.approvals[a].(status := if verdict.Reject? then Refused else Expired)]
    ensures Mute(env, t, r) && !Busy(t, r)
  {
    UnattendedIsMute(env, t, r);
  }

  /** A verdict against is for good: the run ends as rejected, or as failed when the operator was too
      late, stays so over every later run, and nothing is ever executed for it again. */
  lemma RefusalsAreFinal(env: Env, s0: State, trace: seq<Action>, a: Id, verdict: Action, later: seq<Action>)
    requires Sane(env) && Initial(s0) && Runs(env, s0, trace)
    requires a in After(env, s0, trace).store.approvals && After(env, s0, trace).store.approvals[a].status.Pending?
    requires Refuses(After(env, s0, trace), a, verdict) && Runs(env, Next(env, After(env, s0, trace), verdict), later)
    ensures var (s, t) := (After(env, s0, trace), After(env, Next(env, After(env, s0, trace), verdict), later));
      var r := s.store.approvals[a].run;
      && r in t.store.runs && t.store.runs[r].status == VerdictOf(verdict)
      && SameEntries(s.log, t.log, r)
  {
    InitialInv(env, s0);
    RunInv(env, s0, trace);
    RefusedForGood(env, After(env, s0, trace), a, verdict, Next(env, After(env, s0, trace), verdict), later);
  }

  lemma RefusedForGood(env: Env, s: State, a: Id, verdict: Action, u: State, later: seq<Action>)
    requires Sane(env) && Inv(env, s) && a in s.store.approvals && s.store.approvals[a].status.Pending?
    requires Refuses(s, a, verdict) && Goes(env, s, verdict, u) && Runs(env, u, later)
    ensures var (t, r) := (After(env, u, later), s.store.approvals[a].run);
      r in t.store.runs && t.store.runs[r].status == VerdictOf(verdict) && SameEntries(s.log, t.log, r)
  {
    var r := s.store.approvals[a].run;
    RefusedNow(env, s, a, r, verdict, u);
    NextInv(env, s, verdict);
    FinalRunsStay(env, u, later, r);
    CancelledRunsFallSilent(env, u, later, r);
  }

  /** While an approval of it waits, no worker has the run and no step executes anything for it. */
  lemma WaitingRunsDoNothing(env: Env, s0: State, trace: seq<Action>, a: Id, next: Action)
    requires Sane(env) && Initial(s0) && Runs(env, s0, trace) && Enabled(env, After(env, s0, trace), next)
    requires a in After(env, s0, trace).store.approvals && After(env, s0, trace).store.approvals[a].status.Pending?
    ensures var s := After(env, s0, trace);
      && Unattended(s, s.store.approvals[a].run)
      && QuietStep(s, Next(env, s, next), s.store.approvals[a].run)
  {
    InitialInv(env, s0);
    RunInv(env, s0, trace);
    var s := After(env, s0, trace);
    WaitingIsUnattended(env, s, a, s.store.approvals[a].run);
    QuietUnless(env, s, next, s.store.approvals[a].run);
  }

  // ---------------------------------------------------------------- consent to OpenAI

  /** Approval `p` asks whether run `r` may hand its scope to OpenAI; until it is approved the run has no
      task, no other approval, no approver that decided `p`, and nothing was executed for it. */
  predicate Withheld(s: State, r: Id, p: Id) {
    && r in s.store.runs && p in s.store.approvals && s.store.approvals[p].run == r && s.store.approvals[p].subject.Provider?
    && (!s.store.approvals[p].status.Approved? ==> Untouched(s, r, p))
  }

  predicate Untouched(s: State, r: Id, p: Id) {
    && (forall i :: 0 <= i < |s.log| ==> s.log[i].run != r)
    && (forall t :: t in s.memory.tasks ==> s.memory.tasks[t].run != r)
    && (forall a :: a in s.store.approvals && s.store.approvals[a].run == r ==> a == p)
    && (forall x :: x in s.memory.approvers && s.memory.approvers[x].approval == p ==> !s.memory.approvers[x].stage.Acted?)
  }

  lemma WithheldByWorker(env: Env, s: State, a: Action, r: Id, p: Id)
    requires IdsOk(s) && Enabled(env, s, a) && Withheld(s, r, p)
    requires a.BeginTask? || a.Pause? || a.Proceed? || a.Answer? || a.End?
    ensures Withheld(Next(env, s, a), r, p)
  {
  }

  lemma WithheldByCall(env: Env, s: State, a: Action, r: Id, p: Id)
    requires IdsOk(s) && Enabled(env, s, a) && Withheld(s, r, p) && a.Call?
    ensures Withheld(Next(env, s, a), r, p)
  {
  }

  lemma WithheldByStart(env: Env, s: State, a: Action, r: Id, p: Id)
    requires IdsOk(s) && Enabled(env, s, a) && Withheld(s, r, p) && (a.Start? || a.Retry?)
    ensures Withheld(Next(env, s, a), r, p)
  {
  }

  lemma WithheldByOperator(env: Env, s: State, a: Action, r: Id, p: Id)
    requires Enabled(env, s, a) && Withheld(s, r, p)
    requires a.Cancel? || a.Restart? || a.NewConversation? || a.SetCapture? || a.CheckApproval? || a.Claim? || a.Reject?
    ensures Withheld(Next(env, s, a), r, p)
  {
  }

  lemma WithheldByAct(env: Env, s: State, o: Owners, a: Action, r: Id, p: Id)
    requires RunsOk(env, s.store.runs, s.memory.cancelled, o) && ApprovalsOk(env, s.store, o)
    requires ApproversOk(s.memory.approvers, s.store, s.memory.cancelled, o)
    requires Enabled(env, s, a) && Withheld(s, r, p) && a.Act?
    ensures Withheld(Next(env, s, a), r, p)
  {
    var y := s.memory.approvers[a.x];
    ActIs(env, s, o, a.x, a.ok);
    WithheldIfDecided(s, a.x, y, AnalystInvariants.Outcome(s.store.approvals[y.approval], a.ok), Performed(s.store.approvals[y.approval], y), r, p);
  }

  /** Deciding an approval leaves the others alone. */
  lemma WithheldIfDecided(s: State, x: Id, y: Approver, outcome: ApprovalStatus, done: seq<Execution>, r: Id, p: Id)
    requires Withheld(s, r, p) && AtStage(s, x, Claimed) && y == s.memory.approvers[x]
    requires y.approval == p ==> outcome.Approved?
    requires s.store.approvals[p].status.Approved? ==> y.approval != p
    requires y.approval != p ==> forall i :: 0 <= i < |done| ==> done[i].run == s.store.approvals[y.approval].run
    ensures Withheld(WithApprover(WithApproval(s, y.approval, outcome), x, y.(stage := Acted)).(log := s.log + done), r, p)
  {
  }

  lemma WithheldByContinue(env: Env, s: State, a: Action, r: Id, p: Id)
    requires Enabled(env, s, a) && Withheld(s, r, p) && a.Continue?
    ensures Withheld(Next(env, s, a), r, p)
  {
  }

  lemma WithheldStep(env: Env, s: State, a: Action, r: Id, p: Id)
    requires Inv(env, s) && Enabled(env, s, a) && Withheld(s, r, p)
    ensures Withheld(Next(env, s, a), r, p)
  {
    var o :| Good(env, s, o);
    if a.Act? { WithheldByAct(env, s, o, a, r, p); }
    else if a.Continue? { WithheldByContinue(env, s, a, r, p); }
    else if a.Call? { WithheldByCall(env, s, a, r, p); }
    else if a.Start? || a.Retry? { WithheldByStart(env, s, a, r, p); }
    else if a.BeginTask? || a.Pause? || a.Proceed? || a.Answer? || a.End? { WithheldByWorker(env, s, a, r, p); }
    else { WithheldByOperator(env, s, a, r, p); }
  }

  lemma {:induction false} WithheldRun(env: Env, s: State, trace: seq<Action>, r: Id, p: Id)
    requires Sane(env) && Inv(env, s) && Runs(env, s, trace) && Withheld(s, r, p)
    ensures Withheld(After(env, s, trace), r, p)
    decreases |trace|
  {
    if trace != [] {
      WithheldStep(env, s, trace[0], r, p);
      NextInv(env, s, trace[0]);
      WithheldRun(env, Next(env, s, trace[0]), trace[1..], r, p);
    }
  }

  /** Nothing refers to an id that is yet to be given out. */
  lemma NothingIsNew(env: Env, s: State)
    requires Inv(env, s)
    ensures forall i :: 0 <= i < |s.log| ==> s.log[i].run != s.nextId
    ensures forall t :: t in s.memory.tasks ==> s.memory.tasks[t].run != s.nextId
    ensures forall a :: a in s.store.approvals ==> s.store.approvals[a].run != s.nextId
    ensures forall x :: x in s.memory.approvers ==> s.memory.approvers[x].approval < s.nextId
  {
    var o :| Good(env, s, o);
    forall i | 0 <= i < |s.log| ensures s.log[i].run != s.nextId { assert EntryOk(env, s.log[i], i, s.store, o); }
  }

  lemma StartKeepsApprovers(env: Env, s: State, d: Demand, expires: int)
    ensures Next(env, s, Start(d, expires)).memory.approvers == s.memory.approvers
  {
  }

  lemma WithheldAtFirst(env: Env, s: State, d: Demand, expires: int, u: State)
    requires Inv(env, s) && !StartFails(env, s, d) && Goes(env, s, Start(d, expires), u)
    requires s.nextId in u.store.runs && u.store.runs[s.nextId].status == AwaitingApproval
    ensures Withheld(u, s.nextId, s.nextId + 1)
  {
    NothingIsNew(env, s);
    StartKeepsApprovers(env, s, d, expires);
    StartsAs(env, s, d, expires);
  }

  /** A worker has run `r`, or something was executed for it. */
  predicate Touched(t: State, r: Id) {
    || (exists i :: 0 <= i < |t.log| && t.log[i].run == r)
    || (exists k :: k in t.memory.tasks && t.memory.tasks[k].run == r)
  }

  predicate ConsentGiven(t: State, p: Id) { p in t.store.approvals && t.store.approvals[p].status == Approved }

  /** A run that `start` left waiting for consent to OpenAI goes on waiting for it: whatever happens
      later, no worker gets the run and nothing is executed for it before its request for consent has
      been approved. */
  lemma ConsentComesFirst(env: Env, s0: State, trace: seq<Action>, s: State, d: Demand, expires: int, u: State, later: seq<Action>)
    requires Sane(env) && Initial(s0) && Runs(env, s0, trace) && After(env, s0, trace) == s && !StartFails(env, s, d)
    requires Goes(env, s, Start(d, expires), u) && s.nextId in u.store.runs && u.store.runs[s.nextId].status == AwaitingApproval
    requires Runs(env, u, later)
    ensures Touched(After(env, u, later), s.nextId) ==> ConsentGiven(After(env, u, later), s.nextId + 1)
  {
    InitialInv(env, s0);
    RunInv(env, s0, trace);
    ConsentFrom(env, s, d, expires, u, later);
  }

  lemma ConsentFrom(env: Env, s: State, d: Demand, expires: int, u: State, later: seq<Action>)
    requires Sane(env) && Inv(env, s) && !StartFails(env, s, d) && Goes(env, s, Start(d, expires), u)
    requires s.nextId in u.store.runs && u.store.runs[s.nextId].status == AwaitingApproval && Runs(env, u, later)
    ensures Touched(After(env, u, later), s.nextId) ==> ConsentGiven(After(env, u, later), s.nextId + 1)
  {
    NextInv(env, s, Start(d, expires));
    WithheldAtFirst(env, s, d, expires, u);
    WithheldRun(env, u, later, s.nextId, s.nextId + 1);
  }
}
