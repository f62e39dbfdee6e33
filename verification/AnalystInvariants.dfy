/**
 The inductive invariant of the analyst machine.  Its core: every run has at most one token, where a
 token is a live task, a pending approval, or an approver that won its claim.  `Owners` names, for each
 run, conversation, client id and approval, the one token, active run, run and log entry it can have,
 so that the invariant speaks of one entity at a time.
 */
module AnalystInvariants {
  import opened Wrappers
  import opened ToolPolicy
  import opened AnalystScope
  import opened AnalystMachine

  datatype Token = TaskOf(id: Id) | PendingOf(id: Id) | ClaimOf(id: Id)

  datatype Owners = Owners(token: map<Id, Token>, active: map<Id, Id>, client: map<ClientId, Id>, entry: map<Id, nat>)

  predicate Has<K(==), V(==)>(m: map<K, V>, k: K, v: V) { k in m && m[k] == v }

  predicate RunOk(env: Env, run: Run, r: Id, cancelled: bool, o: Owners) {
    && Settles(env, run.scope) && FollowsMode(run.policy)
    && (Active(run.status) && !cancelled ==> Has(o.active, run.conversation, r))
    && (run.client.Some? ==> Has(o.client, run.client.value, r))
  }

  /** A task works with the scope and policy stored with its run, which is under way unless cancelled. */
  predicate TaskOk(task: Task, t: Id, run: Run, cancelled: bool, o: Owners) {
    && Has(o.token, task.run, TaskOf(t)) && task.scope == run.scope && task.policy == run.policy
    && (cancelled || if task.mode.Waiting? then run.status.Queued? || run.status.AwaitingApproval? else run.status.Running?)
  }

  /** The operator is asked about this tool with these arguments, scope and policy, because the
      guard said to ask. */
  predicate Asks(env: Env, a: Approval, run: Run, invocations: map<Id, Invocation>) {
    a.subject.Tool? ==>
      && Has(env.phrases, a.subject.name, a.phrase)
      && a.invocation in invocations && invocations[a.invocation].args == a.args
      && env.gate(a.subject.name, a.args, a.scope, run.policy).Ask?
  }

  predicate ApprovalOk(env: Env, approval: Approval, a: Id, run: Run, invocations: map<Id, Invocation>, o: Owners) {
    && approval.scope == run.scope && Asks(env, approval, run, invocations)
    && (approval.status.Pending? ==> Has(o.token, approval.run, PendingOf(a)) && run.status.AwaitingApproval?)
  }

  predicate Settled(status: ApprovalStatus) { status.Approved? || status.Executed? || status.ExecutionFailed? }

  /** The operator was in time and typed the phrase. */
  predicate Granted(a: Approval, x: Approver) {
    x.checkedAt <= a.expires && PhraseMatches(a.phrase, x.confirmation)
  }

  /** Past the claim, the approval and its run are this approver's. */
  predicate ApproverOk(approver: Approver, x: Id, a: Approval, run: Run, cancelled: bool, o: Owners) {
    && Granted(a, approver)
    && (!approver.stage.Checked? ==>
          && Has(o.token, a.run, ClaimOf(x)) && (cancelled || run.status.AwaitingApproval?)
          && if approver.stage.Claimed? then a.status.Approving? else Settled(a.status))
  }

  /** A logged execution was direct and needed no confirmation, or is the one of its approval. */
  predicate EntryOk(env: Env, e: Execution, i: nat, store: Store, o: Owners) {
    && e.run in store.runs && e.tool in env.phrases && e.scope == store.runs[e.run].scope
    && if e.approver.None? then env.gate(e.tool, e.args, e.scope, store.runs[e.run].policy).Direct?
       else
         var x := e.approver.value;
         && x.approval in store.approvals && Performs(store.approvals[x.approval], e)
         && Granted(store.approvals[x.approval], x) && Has(o.entry, x.approval, i)
  }

  predicate Performs(a: Approval, e: Execution) {
    && a.subject == Subject.Tool(e.tool) && a.run == e.run && a.args == e.args && a.scope == e.scope && Settled(a.status)
  }

  ghost predicate IdsOk(s: State) {
    && (forall r :: r in s.store.runs ==> r < s.nextId)
    && (forall i :: i in s.store.invocations ==> i < s.nextId)
    && (forall a :: a in s.store.approvals ==> a < s.nextId)
    && (forall t :: t in s.memory.tasks ==> t < s.nextId)
    && (forall x :: x in s.memory.approvers ==> x < s.nextId)
  }

  ghost predicate RunsOk(env: Env, runs: map<Id, Run>, cancelled: set<Id>, o: Owners) {
    && cancelled <= runs.Keys
    && forall r :: r in runs ==> RunOk(env, runs[r], r, r in cancelled, o)
  }

  ghost predicate ApprovalsOk(env: Env, store: Store, o: Owners) {
    forall a :: a in store.approvals ==>
      && store.approvals[a].run in store.runs
      && ApprovalOk(env, store.approvals[a], a, store.runs[store.approvals[a].run], store.invocations, o)
  }

  ghost predicate TasksOk(tasks: map<Id, Task>, runs: map<Id, Run>, cancelled: set<Id>, o: Owners) {
    forall t :: t in tasks ==>
      tasks[t].run in runs && TaskOk(tasks[t], t, runs[tasks[t].run], tasks[t].run in cancelled, o)
  }

  ghost predicate ApproversOk(approvers: map<Id, Approver>, store: Store, cancelled: set<Id>, o: Owners) {
    forall x :: x in approvers ==>
      && approvers[x].approval in store.approvals && store.approvals[approvers[x].approval].run in store.runs
      && ApproverOk(approvers[x], x, store.approvals[approvers[x].approval], store.runs[store.approvals[approvers[x].approval].run],
                    store.approvals[approvers[x].approval].run in cancelled, o)
  }

  ghost predicate LogOk(env: Env, log: seq<Execution>, store: Store, o: Owners) {
    forall i :: 0 <= i < |log| ==> EntryOk(env, log[i], i, store, o)
  }

  ghost predicate Good(env: Env, s: State, o: Owners) {
    && IdsOk(s)
    && RunsOk(env, s.store.runs, s.memory.cancelled, o)
    && ApprovalsOk(env, s.store, o)
    && TasksOk(s.memory.tasks, s.store.runs, s.memory.cancelled, o)
    && ApproversOk(s.memory.approvers, s.store, s.memory.cancelled, o)
    && LogOk(env, s.log, s.store, o)
  }

  ghost predicate Inv(env: Env, s: State) {
    exists o :: Good(env, s, o)
  }

  // ---------------------------------------------------------------- edits that keep it

  predicate NoToken(s: State, o: Owners, r: Id) {
    r in o.token ==>
      match o.token[r]
      case TaskOf(t) => t !in s.memory.tasks
      case PendingOf(a) => a in s.store.approvals ==> !s.store.approvals[a].status.Pending?
      case ClaimOf(x) => x in s.memory.approvers ==> s.memory.approvers[x].stage.Checked?
  }

  lemma DropTaskOk(env: Env, s: State, o: Owners, t: Id)
    requires Good(env, s, o)
    ensures Good(env, DropTask(s, t), o)
    ensures t in s.memory.tasks ==> NoToken(DropTask(s, t), o, s.memory.tasks[t].run)
  {
  }

  lemma DropApproverOk(env: Env, s: State, o: Owners, x: Id)
    requires Good(env, s, o)
    ensures Good(env, DropApprover(s, x), o)
  {
  }

  lemma StatusOk(env: Env, s: State, o: Owners, r: Id, status: Status)
    requires Good(env, s, o) && r in s.store.runs && NoToken(s, o, r)
    requires Active(status) && r !in s.memory.cancelled ==> Active(s.store.runs[r].status)
    ensures Good(env, WithStatus(s, r, status), o)
  {
    StatusElsewhere(env, s, o, r, status);
  }

  /** Nobody depends on the status of a run without a token. */
  lemma StatusElsewhere(env: Env, s: State, o: Owners, r: Id, status: Status)
    requires r in s.store.runs && NoToken(s, o, r)
    requires ApprovalsOk(env, s.store, o) && TasksOk(s.memory.tasks, s.store.runs, s.memory.cancelled, o)
    requires ApproversOk(s.memory.approvers, s.store, s.memory.cancelled, o)
    ensures var u := WithStatus(s, r, status).store;
      && ApprovalsOk(env, u, o) && TasksOk(s.memory.tasks, u.runs, s.memory.cancelled, o)
      && ApproversOk(s.memory.approvers, u, s.memory.cancelled, o)
  {
  }

  lemma RecordOk(env: Env, s: State, o: Owners, i: Id, invocation: Invocation)
    requires Good(env, s, o) && i < s.nextId && i !in s.store.invocations
    ensures Good(env, s.(store := s.store.(invocations := s.store.invocations[i := invocation])), o)
  {
  }

  lemma BumpOk(env: Env, s: State, o: Owners, n: nat)
    requires Good(env, s, o)
    ensures Good(env, s.(nextId := s.nextId + n), o)
  {
  }

  lemma LoggedOk(env: Env, s: State, o: Owners, e: Execution)
    requires Good(env, s, o) && EntryOk(env, e, |s.log|, s.store, o)
    ensures Good(env, s.(log := s.log + [e]), o)
  {
  }

  lemma PauseOk(env: Env, s: State, o: Owners, t: Id)
    requires Good(env, s, o) && Holds(s, t, Inside)
    ensures Good(env, WithTask(s, t, s.memory.tasks[t].(mode := Between)), o)
  {
  }

  /** The token of a run that has none can be promised to anyone. */
  lemma PromiseOk(env: Env, s: State, o: Owners, r: Id, k: Token)
    requires Good(env, s, o) && NoToken(s, o, r)
    ensures Good(env, s, o.(token := o.token[r := k]))
  {
  }

  /** A promised token is taken: by a task, */
  lemma AddTaskOk(env: Env, s: State, o: Owners, t: Id, task: Task)
    requires Good(env, s, o) && t < s.nextId && t !in s.memory.tasks
    requires task.run in s.store.runs && TaskOk(task, t, s.store.runs[task.run], task.run in s.memory.cancelled, o)
    ensures Good(env, WithTask(s, t, task), o)
  {
  }

  /** by a pending approval, */
  lemma AddApprovalOk(env: Env, s: State, o: Owners, a: Id, approval: Approval)
    requires Good(env, s, o) && a < s.nextId && a !in s.store.approvals && approval.run in s.store.runs && approval.status.Pending?
    requires ApprovalOk(env, approval, a, s.store.runs[approval.run], s.store.invocations, o)
    ensures Good(env, s.(store := s.store.(approvals := s.store.approvals[a := approval])), o)
  {
  }

  /** or by an approver. */
  lemma AddApproverOk(env: Env, s: State, o: Owners, x: Id, y: Approver)
    requires Good(env, s, o) && x < s.nextId && x !in s.memory.approvers && y.approval in s.store.approvals
    requires s.store.approvals[y.approval].run in s.store.runs
    requires ApproverOk(y, x, s.store.approvals[y.approval], s.store.runs[s.store.approvals[y.approval].run],
                        s.store.approvals[y.approval].run in s.memory.cancelled, o)
    ensures Good(env, WithApprover(s, x, y), o)
  {
  }

  lemma GiveTaskOk(env: Env, s: State, o: Owners, t: Id, task: Task)
    requires Good(env, s, o) && t < s.nextId && t !in s.memory.tasks
    requires task.run in s.store.runs && NoToken(s, o, task.run)
    requires TaskOk(task, t, s.store.runs[task.run], task.run in s.memory.cancelled, o.(token := o.token[task.run := TaskOf(t)]))
    ensures Inv(env, WithTask(s, t, task))
  {
    PromiseOk(env, s, o, task.run, TaskOf(t));
    AddTaskOk(env, s, o.(token := o.token[task.run := TaskOf(t)]), t, task);
  }

  lemma GiveApprovalOk(env: Env, s: State, o: Owners, a: Id, approval: Approval)
    requires Good(env, s, o) && a < s.nextId && a !in s.store.approvals && approval.status.Pending?
    requires approval.run in s.store.runs && NoToken(s, o, approval.run)
    requires ApprovalOk(env, approval, a, s.store.runs[approval.run], s.store.invocations, o.(token := o.token[approval.run := PendingOf(a)]))
    ensures Inv(env, s.(store := s.store.(approvals := s.store.approvals[a := approval])))
  {
    PromiseOk(env, s, o, approval.run, PendingOf(a));
    AddApprovalOk(env, s, o.(token := o.token[approval.run := PendingOf(a)]), a, approval);
  }

  lemma GiveApproverOk(env: Env, s: State, o: Owners, x: Id, y: Approver, r: Id)
    requires Good(env, s, o) && x < s.nextId && x !in s.memory.approvers
    requires y.approval in s.store.approvals && s.store.approvals[y.approval].run == r && r in s.store.runs && NoToken(s, o, r)
    requires ApproverOk(y, x, s.store.approvals[y.approval], s.store.runs[r], r in s.memory.cancelled, o.(token := o.token[r := ClaimOf(x)]))
    ensures Good(env, WithApprover(s, x, y), o.(token := o.token[r := ClaimOf(x)]))
  {
    PromiseOk(env, s, o, r, ClaimOf(x));
    AddApproverOk(env, s, o.(token := o.token[r := ClaimOf(x)]), x, y);
  }

  lemma DropApproverAndResolveOk(env: Env, s: State, o: Owners, x: Id, status: ApprovalStatus)
    requires Good(env, s, o) && x in s.memory.approvers
    requires var a := s.memory.approvers[x].approval;
      a in s.store.approvals && if s.memory.approvers[x].stage.Checked? then s.store.approvals[a].status.Pending? && status.Approving?
                                else s.memory.approvers[x].stage.Claimed? && Settled(status)
    ensures var a := s.memory.approvers[x].approval;
      var u := WithApproval(DropApprover(s, x), a, status);
      && Good(env, u, o) && s.store.approvals[a].run in s.store.runs && NoToken(u, o, s.store.approvals[a].run) && x < s.nextId
      && var run := s.store.runs[s.store.approvals[a].run];
         && Granted(s.store.approvals[a], s.memory.approvers[x])
         && (s.store.approvals[a].run in s.memory.cancelled || run.status.AwaitingApproval?)
  {
    DropApproverOk(env, s, o, x);
    ResolvedOk(env, DropApprover(s, x), o, s.memory.approvers[x].approval, status);
  }

  /** Every mention of a settled approval stays true when another one moves on. */
  lemma ResolvedElsewhere(env: Env, s: State, o: Owners, a: Id, status: ApprovalStatus)
    requires a in s.store.approvals && !Settled(s.store.approvals[a].status)
    requires s.store.approvals[a].status.Pending? ||
             (s.store.approvals[a].status.Approving? && Settled(status) && NoToken(s, o, s.store.approvals[a].run))
    requires ApproversOk(s.memory.approvers, s.store, s.memory.cancelled, o) && LogOk(env, s.log, s.store, o)
    ensures ApproversOk(s.memory.approvers, WithApproval(s, a, status).store, s.memory.cancelled, o)
    ensures LogOk(env, s.log, WithApproval(s, a, status).store, o)
  {
  }

  /** An approval moves on, and nobody holds it any more. */
  lemma ResolvedOk(env: Env, s: State, o: Owners, a: Id, status: ApprovalStatus)
    requires Good(env, s, o) && a in s.store.approvals && !status.Pending?
    requires s.store.approvals[a].status.Pending? ||
             (s.store.approvals[a].status.Approving? && Settled(status) && NoToken(s, o, s.store.approvals[a].run))
    ensures Good(env, WithApproval(s, a, status), o)
    ensures NoToken(WithApproval(s, a, status), o, s.store.approvals[a].run)
  {
    ResolvedElsewhere(env, s, o, a, status);
  }

  function WithRun(s: State, run: Run): State {
    s.(store := s.store.(runs := s.store.runs[s.nextId := run]), nextId := s.nextId + 3)
  }

  function OwnersWith(o: Owners, r: Id, run: Run): Owners {
    o.(token := o.token - {r},
       active := if Active(run.status) then o.active[run.conversation := r] else o.active,
       client := if run.client.Some? then o.client[run.client.value := r] else o.client)
  }

  /** A new run, not yet owned by anything. */
  lemma AddRunOk(env: Env, s: State, o: Owners, run: Run)
    requires Good(env, s, o) && Settles(env, run.scope) && FollowsMode(run.policy)
    requires !Taken(s, run.client) && (Active(run.status) ==> !Occupied(s, run.conversation))
    ensures var u, o' := WithRun(s, run), OwnersWith(o, s.nextId, run); Good(env, u, o') && NoToken(u, o', s.nextId)
  {
    NewRunElsewhere(env, s, o, run);
  }

  lemma NewRunElsewhere(env: Env, s: State, o: Owners, run: Run)
    requires s.nextId !in s.store.runs
    requires ApprovalsOk(env, s.store, o) && TasksOk(s.memory.tasks, s.store.runs, s.memory.cancelled, o)
    requires ApproversOk(s.memory.approvers, s.store, s.memory.cancelled, o) && LogOk(env, s.log, s.store, o)
    ensures var u, o' := WithRun(s, run), OwnersWith(o, s.nextId, run);
      && ApprovalsOk(env, u.store, o') && TasksOk(u.memory.tasks, u.store.runs, u.memory.cancelled, o')
      && ApproversOk(u.memory.approvers, u.store, u.memory.cancelled, o') && LogOk(env, u.log, u.store, o')
  {
  }

  /** The log entry of an approval that has none yet. */
  lemma PromiseEntryOk(env: Env, s: State, o: Owners, a: Id, i: nat)
    requires Good(env, s, o) && a in s.store.approvals && !Settled(s.store.approvals[a].status)
    ensures Good(env, s, o.(entry := o.entry[a := i]))
  {
  }

  /** A run stops while it may still hold its token. */
  lemma StopOk(env: Env, s: State, o: Owners, r: Id)
    requires Good(env, s, o) && r in s.store.runs
    requires forall a :: a in s.store.approvals && s.store.approvals[a].run == r ==> !s.store.approvals[a].status.Pending?
    ensures Good(env, WithStatus(s, r, Cancelled).(memory := s.memory.(cancelled := s.memory.cancelled + {r})), o)
  {
    StopElsewhere(env, s, o, r);
  }

  lemma StopElsewhere(env: Env, s: State, o: Owners, r: Id)
    requires r in s.store.runs
    requires forall a :: a in s.store.approvals && s.store.approvals[a].run == r ==> !s.store.approvals[a].status.Pending?
    requires ApprovalsOk(env, s.store, o) && TasksOk(s.memory.tasks, s.store.runs, s.memory.cancelled, o)
    requires ApproversOk(s.memory.approvers, s.store, s.memory.cancelled, o)
    ensures var u, cancelled := WithStatus(s, r, Cancelled).store, s.memory.cancelled + {r};
      && ApprovalsOk(env, u, o) && TasksOk(s.memory.tasks, u.runs, cancelled, o) && ApproversOk(s.memory.approvers, u, cancelled, o)
  {
  }

  // ---------------------------------------------------------------- actions

  lemma EnterOk(env: Env, s: State, o: Owners, t: Id)
    requires Good(env, s, o) && (Holds(s, t, Waiting) || Holds(s, t, Between))
    ensures Inv(env, Enter(s, t))
  {
    var task := s.memory.tasks[t];
    DropTaskOk(env, s, o, t);
    if task.run !in s.memory.cancelled {
      ReenterOk(env, DropTask(s, t), o, t, task);
      EnterReplaces(s, t);
    }
  }

  lemma EnterReplaces(s: State, t: Id)
    requires t in s.memory.tasks && s.memory.tasks[t].run in s.store.runs && s.memory.tasks[t].run !in s.memory.cancelled
    ensures var task := s.memory.tasks[t];
      Enter(s, t) == WithTask(if task.mode.Waiting? then WithStatus(DropTask(s, t), task.run, Running) else DropTask(s, t),
                              t, task.(mode := Inside))
  {
    var task := s.memory.tasks[t];
    assert (s.memory.tasks - {t})[t := task.(mode := Inside)] == s.memory.tasks[t := task.(mode := Inside)];
  }

  lemma ReenterOk(env: Env, s: State, o: Owners, t: Id, task: Task)
    requires Good(env, s, o) && t !in s.memory.tasks && t < s.nextId && NoToken(s, o, task.run)
    requires task.run in s.store.runs && task.run !in s.memory.cancelled && TaskOk(task, t, s.store.runs[task.run], false, o)
    ensures Inv(env, WithTask(if task.mode.Waiting? then WithStatus(s, task.run, Running) else s, t, task.(mode := Inside)))
  {
    if task.mode.Waiting? {
      StatusOk(env, s, o, task.run, Running);
      AddTaskOk(env, WithStatus(s, task.run, Running), o, t, task.(mode := Inside));
    } else {
      AddTaskOk(env, s, o, t, task.(mode := Inside));
    }
  }

  lemma CallOk(env: Env, s: State, o: Owners, t: Id, tool: string, args: Json, expires: int)
    requires Good(env, s, o) && Holds(s, t, Inside)
    ensures Inv(env, DoCall(env, s, t, tool, args, expires))
  {
    var task := s.memory.tasks[t];
    var noted := Noted(s, task.run, args);
    BumpOk(env, s, o, 2);
    RecordOk(env, s.(nextId := s.nextId + 2), o, s.nextId, Invocation(task.run, args));
    if tool !in env.phrases { FailOk(env, s, o, t); }
    else {
      match env.gate(tool, args, task.scope, task.policy) {
        case Block => assert Good(env, noted, o);
        case Break => FailOk(env, noted, o, t);
        case Direct =>
          LoggedOk(env, noted, o, Execution(task.run, tool, args, task.scope, None));
          assert Good(env, DoCall(env, s, t, tool, args, expires), o);
        case Ask => AskOk(env, noted, o, t, tool, args, expires, s.nextId);
      }
    }
  }

  lemma FailOk(env: Env, s: State, o: Owners, t: Id)
    requires Good(env, s, o) && Holds(s, t, Inside)
    ensures Inv(env, FailTask(s, t, s.memory.tasks[t].run))
  {
    EndOk(env, s, o, t, Failed);
  }

  lemma EndOk(env: Env, s: State, o: Owners, t: Id, status: Status)
    requires Good(env, s, o) && Holds(s, t, Inside)
    ensures Good(env, DropTask(WithStatus(s, s.memory.tasks[t].run, status), t), o)
  {
    var r := s.memory.tasks[t].run;
    DropTaskOk(env, s, o, t);
    StatusOk(env, DropTask(s, t), o, r, status);
    assert WithStatus(DropTask(s, t), r, status) == DropTask(WithStatus(s, r, status), t);
  }

  /** A task hands its token to the approval it asks for. */
  lemma AskOk(env: Env, s: State, o: Owners, t: Id, tool: string, args: Json, expires: int, id: Id)
    requires Good(env, s, o) && Holds(s, t, Inside) && tool in env.phrases
    requires env.gate(tool, args, s.memory.tasks[t].scope, s.memory.tasks[t].policy).Ask?
    requires id + 1 < s.nextId && id in s.store.invocations && s.store.invocations[id].args == args && id + 1 !in s.store.approvals
    ensures Inv(env, DropTask(Asked(s, s.memory.tasks[t], tool, env.phrases[tool], args, expires, id), t))
  {
    var task := s.memory.tasks[t];
    EndOk(env, s, o, t, AwaitingApproval);
    var u := DropTask(WithStatus(s, task.run, AwaitingApproval), t);
    AskReplaces(s, t, tool, env.phrases[tool], args, expires, id);
    GiveApprovalOk(env, u, o, id + 1, Approval(task.run, id, Subject.Tool(tool), args, task.scope, env.phrases[tool], expires, Pending));
  }

  lemma AskReplaces(s: State, t: Id, tool: string, phrase: Option<string>, args: Json, expires: int, id: Id)
    requires Holds(s, t, Inside)
    ensures var task := s.memory.tasks[t];
      var u := DropTask(WithStatus(s, task.run, AwaitingApproval), t);
      var a := Approval(task.run, id, Subject.Tool(tool), args, task.scope, phrase, expires, Pending);
      DropTask(Asked(s, task, tool, phrase, args, expires, id), t) == u.(store := u.store.(approvals := u.store.approvals[id + 1 := a]))
  {
  }

  lemma CheckedOk(env: Env, s: State, o: Owners, a: Id, confirmation: string, now: int)
    requires Good(env, s, o)
    ensures Good(env, DoCheckApproval(s, a, confirmation, now), o)
  {
    if a in s.store.approvals && s.store.approvals[a].status.Pending? {
      if now > s.store.approvals[a].expires {
        ResolvedOk(env, s, o, a, Expired);
        StatusOk(env, WithApproval(s, a, Expired), o, s.store.approvals[a].run, Failed);
      } else if PhraseMatches(s.store.approvals[a].phrase, confirmation) {
        BumpOk(env, s, o, 1);
        AddApproverOk(env, s.(nextId := s.nextId + 1), o, s.nextId, Approver(a, confirmation, now, Checked));
      }
    }
  }

  lemma ClaimedOk(env: Env, s: State, o: Owners, x: Id)
    requires Good(env, s, o) && AtStage(s, x, Checked)
    ensures Inv(env, DoClaim(s, x))
  {
    var y := s.memory.approvers[x];
    if s.store.approvals[y.approval].status.Pending? {
      MoveApproverOk(env, s, o, x, Approving, Claimed);
    } else {
      DropApproverOk(env, s, o, x);
    }
  }

  /** An approver and its approval move on together. */
  lemma MoveApproverOk(env: Env, s: State, o: Owners, x: Id, status: ApprovalStatus, stage: ApproverStage)
    requires Good(env, s, o)
    requires if stage.Claimed? then AtStage(s, x, Checked) && status.Approving? && s.store.approvals[s.memory.approvers[x].approval].status.Pending?
             else stage.Acted? && AtStage(s, x, Claimed) && Settled(status)
    ensures var y := s.memory.approvers[x];
      Good(env, WithApprover(WithApproval(s, y.approval, status), x, y.(stage := stage)),
         o.(token := o.token[s.store.approvals[y.approval].run := ClaimOf(x)]))
  {
    var y := s.memory.approvers[x];
    DropApproverAndResolveOk(env, s, o, x, status);
    var u := WithApproval(DropApprover(s, x), y.approval, status);
    GiveApproverOk(env, u, o, x, y.(stage := stage), s.store.approvals[y.approval].run);
    MoveReplaces(s, x, y.approval, status, y.(stage := stage));
  }

  lemma MoveReplaces(s: State, x: Id, a: Id, status: ApprovalStatus, y: Approver)
    requires a in s.store.approvals
    ensures WithApprover(WithApproval(DropApprover(s, x), a, status), x, y) == WithApprover(WithApproval(s, a, status), x, y)
  {
    assert (s.memory.approvers - {x})[x := y] == s.memory.approvers[x := y];
  }

  /** The claim is settled; its approval has no log entry yet. */
  lemma SettledOk(env: Env, s: State, o: Owners, x: Id, status: ApprovalStatus)
    requires Good(env, s, o) && AtStage(s, x, Claimed) && Settled(status)
    ensures var y := s.memory.approvers[x];
      Good(env, WithApprover(WithApproval(s, y.approval, status), x, y.(stage := Acted)),
         o.(entry := o.entry[y.approval := |s.log|], token := o.token[s.store.approvals[y.approval].run := ClaimOf(x)]))
  {
    var a := s.memory.approvers[x].approval;
    PromiseEntryOk(env, s, o, a, |s.log|);
    MoveApproverOk(env, s, o.(entry := o.entry[a := |s.log|]), x, status, Acted);
  }

  function Outcome(a: Approval, ok: bool): ApprovalStatus {
    if a.subject.Provider? then Approved else if ok then Executed else ExecutionFailed
  }

  function Performed(a: Approval, x: Approver): seq<Execution> {
    if a.subject.Provider? then [] else [Execution(a.run, a.subject.name, a.args, a.scope, Some(x))]
  }

  /** What was approved is what is stored, so a claim is settled and its tool executed as approved. */
  lemma ActIs(env: Env, s: State, o: Owners, x: Id, ok: bool)
    requires RunsOk(env, s.store.runs, s.memory.cancelled, o) && ApprovalsOk(env, s.store, o) && AtStage(s, x, Claimed)
    ensures var y := s.memory.approvers[x];
      var a := s.store.approvals[y.approval];
      DoAct(env, s, x, ok) ==
        WithApprover(WithApproval(s, y.approval, Outcome(a, ok)), x, y.(stage := Acted)).(log := s.log + Performed(a, y))
  {
    assert s.log + [] == s.log;
  }

  lemma ActedOk(env: Env, s: State, o: Owners, x: Id, ok: bool)
    requires Good(env, s, o) && AtStage(s, x, Claimed)
    ensures Inv(env, DoAct(env, s, x, ok))
  {
    var y := s.memory.approvers[x];
    var a := s.store.approvals[y.approval];
    ActIs(env, s, o, x, ok);
    SettledOk(env, s, o, x, Outcome(a, ok));
    var u := WithApprover(WithApproval(s, y.approval, Outcome(a, ok)), x, y.(stage := Acted));
    if a.subject.Tool? {
      LoggedOk(env, u, o.(entry := o.entry[y.approval := |s.log|], token := o.token[a.run := ClaimOf(x)]),
               Execution(a.run, a.subject.name, a.args, a.scope, Some(y)));
    } else {
      assert s.log + [] == s.log;
    }
  }

  lemma ContinuedOk(env: Env, s: State, o: Owners, x: Id)
    requires Good(env, s, o) && AtStage(s, x, Acted)
    ensures Inv(env, DoContinue(env, s, x))
  {
    var r := s.store.approvals[s.memory.approvers[x].approval].run;
    DropApproverOk(env, s, o, x);
    EnqueueOk(env, DropApprover(s, x), o, Task(r, s.store.runs[r].scope, s.store.runs[r].policy, Waiting));
  }

  lemma EnqueueOk(env: Env, s: State, o: Owners, task: Task)
    requires Good(env, s, o) && task.run in s.store.runs && NoToken(s, o, task.run)
    requires TaskOk(task, s.nextId, s.store.runs[task.run], task.run in s.memory.cancelled, o.(token := o.token[task.run := TaskOf(s.nextId)]))
    ensures Inv(env, WithTask(s, s.nextId, task).(nextId := s.nextId + 1))
  {
    BumpOk(env, s, o, 1);
    GiveTaskOk(env, s.(nextId := s.nextId + 1), o, s.nextId, task);
  }

  lemma CancelledOk(env: Env, s: State, o: Owners, r: Id)
    requires Good(env, s, o) && r in s.store.runs
    ensures Good(env, DoCancel(s, r), o)
  {
    if !Final(s.store.runs[r].status) {
      WithdrawnOk(env, s, o, r);
      StopOk(env, s.(store := s.store.(approvals := Withdraw(s.store.approvals, {r}))), o, r);
    }
  }

  lemma WithdrawnOk(env: Env, s: State, o: Owners, r: Id)
    requires Good(env, s, o) && r in s.store.runs
    ensures Good(env, s.(store := s.store.(approvals := Withdraw(s.store.approvals, {r}))), o)
  {
    if a :| a in s.store.approvals && s.store.approvals[a].run == r && s.store.approvals[a].status.Pending? {
      ResolvedOk(env, s, o, a, Withdrawn);
      assert PendingOnly(s, a);
      WithdrawOne(s, a);
    } else {
      assert Withdraw(s.store.approvals, {r}) == s.store.approvals;
    }
  }

  predicate PendingOnly(s: State, a: Id)
    requires a in s.store.approvals
  {
    forall b :: b in s.store.approvals && s.store.approvals[b].run == s.store.approvals[a].run && s.store.approvals[b].status.Pending? ==> b == a
  }

  lemma WithdrawOne(s: State, a: Id)
    requires a in s.store.approvals && s.store.approvals[a].status.Pending? && PendingOnly(s, a)
    ensures s.(store := s.store.(approvals := Withdraw(s.store.approvals, {s.store.approvals[a].run}))) == WithApproval(s, a, Withdrawn)
  {
    assert Withdraw(s.store.approvals, {s.store.approvals[a].run}) == WithApproval(s, a, Withdrawn).store.approvals;
  }

  lemma RejectedOk(env: Env, s: State, o: Owners, a: Id)
    requires Good(env, s, o)
    ensures Good(env, DoReject(s, a), o)
  {
    if a in s.store.approvals && s.store.approvals[a].status.Pending? {
      ResolvedOk(env, s, o, a, Refused);
      StatusOk(env, WithApproval(s, a, Refused), o, s.store.approvals[a].run, Status.Rejected);
    }
  }

  lemma RestartedOk(env: Env, s: State, o: Owners)
    requires Good(env, s, o)
    ensures Good(env, DoRestart(s), o)
  {
    RestartedRuns(env, s, o);
  }

  lemma RestartedRuns(env: Env, s: State, o: Owners)
    requires RunsOk(env, s.store.runs, s.memory.cancelled, o) && ApprovalsOk(env, s.store, o)
    ensures RunsOk(env, DoRestart(s).store.runs, {}, o) && ApprovalsOk(env, DoRestart(s).store, o)
  {
  }

  lemma StartedOk(env: Env, s: State, o: Owners, q: Request, expires: int)
    requires Good(env, s, o) && Settles(env, q.scope) && FollowsMode(q.policy)
    ensures Inv(env, DoStart(s, q, expires))
  {
    if Accepts(s, q) {
      AddRunOk(env, s, o, NewRun(q));
      var r := s.nextId;
      StartTokenOk(env, s, WithRun(s, NewRun(q)), OwnersWith(o, r, NewRun(q)), q, expires);
      ContextOk(env, Create(s, q, expires), Remembered(s.context, q, r));
    }
  }

  lemma ContextOk(env: Env, s: State, context: Context)
    requires Inv(env, s)
    ensures Inv(env, s.(context := context))
  {
    var o :| Good(env, s, o);
    assert Good(env, s.(context := context), o);
  }

  lemma StartTokenOk(env: Env, s: State, u: State, o: Owners, q: Request, expires: int)
    requires IdsOk(s) && Accepts(s, q)
    requires u == WithRun(s, NewRun(q))
    requires Good(env, u, o) && NoToken(u, o, s.nextId)
    ensures Inv(env, Create(s, q, expires))
  {
    var r := s.nextId;
    match FirstStatus(q) {
      case Queued => GiveTaskOk(env, u, o, r + 1, Task(r, q.scope, q.policy, Waiting));
      case AwaitingApproval => StartAskingOk(env, u, o, r, q, expires);
      case _ =>
    }
  }

  /** Whatever scope a new run gets, it settles: asked for, or inherited from any run or conversation. */
  lemma ScopeForSettles(env: Env, s: State, c: Id, asked: Scope)
    requires Sane(env) && Settles(env, asked)
    ensures ScopeFor(env, s, c, asked).Some? ==> Settles(env, ScopeFor(env, s, c, asked).value)
  {
    if c in s.context.conversations && !HasScope(asked) && env.reload(Inherited(s, c)).Some? {
      assert Settles(env, env.reload(Inherited(s, c)).value);
    }
  }

  lemma StartAskingOk(env: Env, u: State, o: Owners, r: Id, q: Request, expires: int)
    requires Good(env, u, o) && NoToken(u, o, r) && Has(u.store.runs, r, NewRun(q)) && FirstStatus(q).AwaitingApproval?
    requires r + 2 < u.nextId && r + 2 !in u.store.invocations && r + 1 !in u.store.approvals
    ensures Inv(env, u.(store := u.store.(invocations := u.store.invocations[r + 2 := Invocation(r, Null)],
                                          approvals := u.store.approvals[r + 1 := ProviderApproval(r, q.scope, expires)])))
  {
    var v := u.(store := u.store.(invocations := u.store.invocations[r + 2 := Invocation(r, Null)]));
    RecordOk(env, u, o, r + 2, Invocation(r, Null));
    GiveApprovalOk(env, v, o, r + 1, ProviderApproval(r, q.scope, expires));
  }
}
