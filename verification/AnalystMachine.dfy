/**
 Analyst runs, approvals and the workers and operators acting on them (core/ai/orchestrator.py,
 core/storage/database.py) as a state machine.  A worker is `Inside` between two of its cancellation
 checks; a cancellation that arrives there is noticed at the next one.  Everything interleaves freely.
 */
module AnalystMachine {
  import opened Wrappers
  import opened ToolPolicy
  import opened AnalystScope

  type Id = nat

  datatype Status =
    | Queued | Running | AwaitingApproval
    | Complete | Degraded | NeedsScope | Failed | Rejected | Cancelled
    | Interrupted

  predicate Active(s: Status) { s.Queued? || s.Running? || s.AwaitingApproval? }

  /** The states `cancel` leaves alone; an interrupted run can still be cancelled. */
  predicate Final(s: Status) { !Active(s) && !s.Interrupted? }

  datatype ClientId = Named(text: string) | RetryOf(run: Id)

  datatype Run = Run(conversation: Id, client: Option<ClientId>, parent: Option<Id>, scope: Scope, policy: Policy, status: Status)

  datatype Invocation = Invocation(run: Id, args: Json)

  /** The one approval that is not for a tool lets OpenAI see a private scope. */
  datatype Subject = Tool(name: string) | Provider

  datatype ApprovalStatus = Pending | Approving | Approved | Executed | ExecutionFailed | Expired | Refused | Withdrawn

  /** `args` and `scope` stand for the hashes stored with the request. */
  datatype Approval = Approval(run: Id, invocation: Id, subject: Subject, args: Json, scope: Scope,
                               phrase: Option<string>, expires: int, status: ApprovalStatus)

  datatype TaskMode = Waiting | Inside | Between

  /** A call of `execute`, queued or running. */
  datatype Task = Task(run: Id, scope: Scope, policy: Policy, mode: TaskMode)

  datatype ApproverStage = Checked | Claimed | Acted

  /** A call of `approve` past its checks. */
  datatype Approver = Approver(approval: Id, confirmation: string, checkedAt: int, stage: ApproverStage)

  /** One execution of a tool. */
  datatype Execution = Execution(run: Id, tool: string, args: Json, scope: Scope, approver: Option<Approver>)

  datatype Store = Store(runs: map<Id, Run>, invocations: map<Id, Invocation>, approvals: map<Id, Approval>)

  datatype Memory = Memory(tasks: map<Id, Task>, approvers: map<Id, Approver>, cancelled: set<Id>)

  /** What a new run takes its scope from: the scope stored with each conversation, the run of its
      latest answer, and the known capture sessions. */
  datatype Context = Context(conversations: map<Id, Scope>, latest: map<Id, Id>, captures: map<string, Capture>)

  datatype State = State(store: Store, memory: Memory, log: seq<Execution>, nextId: Id, context: Context)

  /** The registered tools with their confirmation phrases, the guard in front of them, how a scope
      is read from a request, and what reading a stored scope back gives (None: it raises). */
  datatype Env = Env(phrases: map<string, Option<string>>, gate: (string, Json, Scope, Policy) -> Gate,
                     read: RawScope -> Option<Scope>, reload: Scope -> Option<Scope>)

  /** Storing the scope and reading it back gives the same scope. */
  predicate Settles(env: Env, scope: Scope) { env.reload(scope) == Some(scope) }

  /** A scope that was read once survives being stored and read again, normalised or not. */
  ghost predicate Sane(env: Env) {
    && (forall raw :: env.read(raw).Some? ==> Settles(env, env.read(raw).value))
    && (forall scope :: env.reload(scope).Some? ==> Settles(env, env.reload(scope).value))
    && (forall captures, scope :: Settles(env, scope) ==> Settles(env, NormalForm(captures, scope)))
  }

  function ReadScope(raw: RawScope, canon: string -> Option<string>): Option<Scope> {
    if FromDict(raw, canon).Ok? then Some(FromDict(raw, canon).value) else None
  }

  /** The environment made of the policy module, the tool manifests and the scope reader. */
  function PolicyEnv(recognisers: Recognisers, tools: map<string, Manifest>, canon: string -> Option<string>): Env {
    Env(map name | name in tools :: tools[name].phrase,
        (name, args, scope, policy) =>
          if name in tools then GateOf(recognisers, tools[name], args, HasScope(scope), policy) else Block,
        raw => ReadScope(raw, canon), scope => ReadScope(ToDict(scope), canon))
  }

  lemma PolicyEnvIsSane(recognisers: Recognisers, tools: map<string, Manifest>, canon: string -> Option<string>)
    requires Idempotent(canon)
    ensures Sane(PolicyEnv(recognisers, tools, canon))
  {
    var env := PolicyEnv(recognisers, tools, canon);
    forall raw | env.read(raw).Some? ensures Settles(env, env.read(raw).value) {
      ReadScopesAreStable(raw, canon);
    }
    forall scope | env.reload(scope).Some? ensures Settles(env, env.reload(scope).value) {
      ReadScopesAreStable(ToDict(scope), canon);
    }
    forall captures, scope | Settles(env, scope) ensures Settles(env, NormalForm(captures, scope)) {
      NormalFormIsStable(captures, scope, canon);
    }
  }

  /** What a caller of `start` sends.  `asks`: the provider is OpenAI, the scope private and no consent
      is remembered. */
  datatype Demand = Demand(conversation: Id, client: Option<ClientId>, parent: Option<Id>,
                           scope: RawScope, policy: Policy, scopeRequired: bool, asks: bool)

  /** The same once its scope is read and its policy derived from its mode. */
  datatype Request = Request(conversation: Id, client: Option<ClientId>, parent: Option<Id>,
                             scope: Scope, policy: Policy, scopeRequired: bool, asks: bool)

  datatype Action =
    | Start(demand: Demand, expires: int)
    | Retry(run: Id, scopeRequired: bool, asks: bool, expires: int)
    | NewConversation(scope: RawScope)
    | SetCapture(session: string, capture: Capture)
    | BeginTask(t: Id)
    | Pause(t: Id)
    | Proceed(t: Id)
    | Call(t: Id, tool: string, args: Json, expires: int)
    | Answer(t: Id)
    | End(t: Id, outcome: Status)
    | CheckApproval(a: Id, confirmation: string, now: int)
    | Claim(x: Id)
    | Act(x: Id, ok: bool)
    | Continue(x: Id)
    | Cancel(r: Id)
    | Reject(a: Id)
    | Restart

  // ---------------------------------------------------------------- small updates

  function WithStatus(s: State, r: Id, status: Status): State
    requires r in s.store.runs
  {
    s.(store := s.store.(runs := s.store.runs[r := s.store.runs[r].(status := status)]))
  }

  function WithApproval(s: State, a: Id, status: ApprovalStatus): State
    requires a in s.store.approvals
  {
    s.(store := s.store.(approvals := s.store.approvals[a := s.store.approvals[a].(status := status)]))
  }

  function WithTask(s: State, t: Id, task: Task): State {
    s.(memory := s.memory.(tasks := s.memory.tasks[t := task]))
  }

  function DropTask(s: State, t: Id): State {
    s.(memory := s.memory.(tasks := s.memory.tasks - {t}))
  }

  function WithApprover(s: State, x: Id, approver: Approver): State {
    s.(memory := s.memory.(approvers := s.memory.approvers[x := approver]))
  }

  function DropApprover(s: State, x: Id): State {
    s.(memory := s.memory.(approvers := s.memory.approvers - {x}))
  }

  // ---------------------------------------------------------------- start and retry

  predicate Taken(s: State, client: Option<ClientId>) {
    client.Some? && exists r :: r in s.store.runs && s.store.runs[r].client == client
  }

  predicate Occupied(s: State, conversation: Id) {
    exists r :: r in s.store.runs && s.store.runs[r].conversation == conversation && Active(s.store.runs[r].status)
  }

  predicate ParentValid(s: State, q: Request) {
    q.parent.Some? ==>
      && q.parent.value in s.store.runs
      && s.store.runs[q.parent.value].conversation == q.conversation
      && s.store.runs[q.parent.value].status.Interrupted?
  }

  /** A known request id returns its run; an occupied conversation or a stale parent is an error. */
  predicate Accepts(s: State, q: Request) {
    !Taken(s, q.client) && !Occupied(s, q.conversation) && ParentValid(s, q)
  }

  function FirstStatus(q: Request): Status {
    if !q.policy.mode.General? && !HasScope(q.scope) && q.scopeRequired then NeedsScope
    else if q.asks then AwaitingApproval
    else Queued
  }

  /** `start` derives what the run may do from its mode. */
  function DerivedPolicy(p: Policy): Policy { p.(readOnly := !p.mode.Action?, allowActive := p.mode.Action?) }

  predicate FollowsMode(p: Policy) { p == DerivedPolicy(p) }

  /** An empty request id is none. */
  function RequestId(client: Option<ClientId>): Option<ClientId> { if client == Some(Named("")) then None else client }

  function Understood(d: Demand, scope: Scope): Request {
    Request(d.conversation, RequestId(d.client), d.parent, scope, DerivedPolicy(d.policy), d.scopeRequired, d.asks)
  }

  function NewRun(q: Request): Run {
    Run(q.conversation, q.client, q.parent, q.scope, q.policy, FirstStatus(q))
  }

  /** The run gets id `nextId`; its task, or its approval and invocation, the next two. */
  function Create(s: State, q: Request, expires: int): State {
    var r := s.nextId;
    var status := FirstStatus(q);
    State(
      Store(s.store.runs[r := NewRun(q)],
            if status.AwaitingApproval? then s.store.invocations[r + 2 := Invocation(r, Null)] else s.store.invocations,
            if status.AwaitingApproval? then s.store.approvals[r + 1 := ProviderApproval(r, q.scope, expires)] else s.store.approvals),
      s.memory.(tasks := if status.Queued? then s.memory.tasks[r + 1 := Task(r, q.scope, q.policy, Waiting)] else s.memory.tasks),
      s.log, s.nextId + 3, s.context)
  }

  /** The conversation remembers an explicit scope, and the request for one as an answer. */
  function Remembered(c: Context, q: Request, r: Id): Context {
    c.(conversations := if HasScope(q.scope) then c.conversations[q.conversation := q.scope] else c.conversations,
       latest := if FirstStatus(q).NeedsScope? then c.latest[q.conversation := r] else c.latest)
  }

  function DoStart(s: State, q: Request, expires: int): State {
    if !Accepts(s, q) then s else Create(s, q, expires).(context := Remembered(s.context, q, s.nextId))
  }

  function ProviderApproval(r: Id, scope: Scope, expires: int): Approval {
    Approval(r, r + 2, Provider, Null, scope, None, expires, Pending)
  }

  /** Only an interrupted run that could not change anything is retried. */
  predicate Retryable(run: Run) {
    run.status.Interrupted? && !run.policy.mode.Action? && run.policy.readOnly && !run.policy.allowActive
  }

  function RetryRequest(r: Id, run: Run, scope: Scope, scopeRequired: bool, asks: bool): Request {
    Request(run.conversation, Some(RetryOf(r)), Some(r), scope, DerivedPolicy(run.policy), scopeRequired, asks)
  }

  /** The run of the latest answer in the conversation. */
  predicate HasLatest(s: State, c: Id) {
    c in s.context.latest && s.context.latest[c] in s.store.runs && s.store.runs[s.context.latest[c]].conversation == c
  }

  /** What a conversation hands on to a run that names no scope. */
  function Inherited(s: State, c: Id): Scope
    requires c in s.context.conversations
  {
    if HasLatest(s, c) then s.store.runs[s.context.latest[c]].scope else s.context.conversations[c]
  }

  /** The scope of a new run in a conversation: its own or, if it names none, the inherited one, and
      then its normal form.  None: the conversation is unknown or its scope cannot be read. */
  function ScopeFor(env: Env, s: State, c: Id, asked: Scope): Option<Scope> {
    if c !in s.context.conversations then None
    else if HasScope(asked) then Some(NormalForm(s.context.captures, asked))
    else match env.reload(Inherited(s, c))
      case None => None
      case Some(scope) => Some(NormalForm(s.context.captures, scope))
  }

  /** A scope that cannot be read is an error before anything is stored. */
  function DoDemand(env: Env, s: State, d: Demand, expires: int): State {
    match env.read(d.scope)
    case None => s
    case Some(asked) =>
      match ScopeFor(env, s, d.conversation, asked)
      case None => s
      case Some(scope) => DoStart(s, Understood(d, scope), expires)
  }

  /** What a retry asks `start` for: the stored scope, read back. */
  function RetryScope(env: Env, s: State, r: Id): Option<Scope>
    requires r in s.store.runs
  {
    match env.reload(s.store.runs[r].scope)
    case None => None
    case Some(asked) => ScopeFor(env, s, s.store.runs[r].conversation, asked)
  }

  function DoRetry(env: Env, s: State, r: Id, scopeRequired: bool, asks: bool, expires: int): State
    requires r in s.store.runs
  {
    var scope := RetryScope(env, s, r);
    if !Retryable(s.store.runs[r]) || scope.None? then s
    else DoStart(s, RetryRequest(r, s.store.runs[r], scope.value, scopeRequired, asks), expires)
  }

  function DoNewConversation(env: Env, s: State, raw: RawScope): State {
    match env.read(raw)
    case None => s
    case Some(scope) =>
      s.(context := s.context.(conversations := s.context.conversations[s.nextId := scope]), nextId := s.nextId + 1)
  }

  /** An assistant message of the run is appended to its conversation. */
  function DoAnswer(s: State, t: Id): State
    requires Holds(s, t, Inside)
  {
    var r := s.memory.tasks[t].run;
    s.(context := s.context.(latest := s.context.latest[s.store.runs[r].conversation := r]))
  }

  // ---------------------------------------------------------------- execute

  predicate Holds(s: State, t: Id, mode: TaskMode) {
    t in s.memory.tasks && s.memory.tasks[t].mode == mode && s.memory.tasks[t].run in s.store.runs
  }

  /** The two cancellation checks: on entry, and wherever the loop looks again. */
  function Enter(s: State, t: Id): State
    requires t in s.memory.tasks && s.memory.tasks[t].run in s.store.runs
  {
    var task := s.memory.tasks[t];
    if task.run in s.memory.cancelled then DropTask(s, t)
    else WithTask(if task.mode.Waiting? then WithStatus(s, task.run, Running) else s, t, task.(mode := Inside))
  }

  /** `_execute_call`: the guard decides; an unknown tool fails the run. */
  function DoCall(env: Env, s: State, t: Id, tool: string, args: Json, expires: int): State
    requires Holds(s, t, Inside)
  {
    var task := s.memory.tasks[t];
    if tool !in env.phrases then FailTask(s, t, task.run)
    else
      var noted := Noted(s, task.run, args);
      match env.gate(tool, args, task.scope, task.policy)
      case Block => noted
      case Break => FailTask(noted, t, task.run)
      case Direct => noted.(log := s.log + [Execution(task.run, tool, args, task.scope, None)])
      case Ask => DropTask(Asked(noted, task, tool, env.phrases[tool], args, expires, s.nextId), t)
  }

  function FailTask(s: State, t: Id, r: Id): State
    requires r in s.store.runs
  {
    DropTask(WithStatus(s, r, Failed), t)
  }

  /** The invocation is recorded before it is judged. */
  function Noted(s: State, r: Id, args: Json): State {
    s.(store := s.store.(invocations := s.store.invocations[s.nextId := Invocation(r, args)]), nextId := s.nextId + 2)
  }

  function Asked(s: State, task: Task, tool: string, phrase: Option<string>, args: Json, expires: int, id: Id): State
    requires task.run in s.store.runs
  {
    var t := s.(store := s.store.(approvals := s.store.approvals[id + 1 :=
                  Approval(task.run, id, Tool(tool), args, task.scope, phrase, expires, Pending)]));
    WithStatus(t, task.run, AwaitingApproval)
  }

  // ---------------------------------------------------------------- approve

  function DoCheckApproval(s: State, a: Id, confirmation: string, now: int): State {
    if a !in s.store.approvals || !s.store.approvals[a].status.Pending? || s.store.approvals[a].run !in s.store.runs then s
    else
      var approval := s.store.approvals[a];
      if now > approval.expires then WithStatus(WithApproval(s, a, Expired), approval.run, Failed)
      else if !PhraseMatches(approval.phrase, confirmation) then s
      else WithApprover(s, s.nextId, Approver(a, confirmation, now, Checked)).(nextId := s.nextId + 1)
  }

  predicate PhraseMatches(phrase: Option<string>, confirmation: string) {
    phrase.None? || phrase.value == "" || phrase.value == confirmation
  }

  predicate AtStage(s: State, x: Id, stage: ApproverStage) {
    && x in s.memory.approvers && s.memory.approvers[x].stage == stage
    && s.memory.approvers[x].approval in s.store.approvals
    && s.store.approvals[s.memory.approvers[x].approval].run in s.store.runs
  }

  /** `claim_ai_approval` is a compare-and-set; the loser raises. */
  function DoClaim(s: State, x: Id): State
    requires AtStage(s, x, Checked)
  {
    var approver := s.memory.approvers[x];
    if s.store.approvals[approver.approval].status.Pending? then
      WithApprover(WithApproval(s, approver.approval, Approving), x, approver.(stage := Claimed))
    else DropApprover(s, x)
  }

  /** What was approved is compared with what is stored now, and then done. */
  function DoAct(env: Env, s: State, x: Id, ok: bool): State
    requires AtStage(s, x, Claimed)
  {
    var approver := s.memory.approvers[x];
    var approval := s.store.approvals[approver.approval];
    var run := s.store.runs[approval.run];
    var scope := env.reload(run.scope);
    if approval.scope != run.scope then Mismatch(s, x, approver.approval, approval.run)
    else match approval.subject
      case Provider => WithApprover(WithApproval(s, approver.approval, Approved), x, approver.(stage := Acted))
      case Tool(name) =>
        if approval.invocation !in s.store.invocations then DropApprover(s, x)
        else if s.store.invocations[approval.invocation].args != approval.args then Mismatch(s, x, approver.approval, approval.run)
        else if scope.None? || name !in env.phrases then DropApprover(s, x)
        else
          var done := Execution(approval.run, name, s.store.invocations[approval.invocation].args, scope.value, Some(approver));
          WithApprover(WithApproval(s, approver.approval, if ok then Executed else ExecutionFailed), x, approver.(stage := Acted))
            .(log := s.log + [done])
  }

  function Mismatch(s: State, x: Id, a: Id, r: Id): State
    requires a in s.store.approvals && r in s.store.runs
  {
    DropApprover(WithStatus(WithApproval(s, a, ExecutionFailed), r, Failed), x)
  }

  /** The run goes on in a new task, with the scope and policy stored with it. */
  function DoContinue(env: Env, s: State, x: Id): State
    requires AtStage(s, x, Acted)
  {
    var r := s.store.approvals[s.memory.approvers[x].approval].run;
    var scope := env.reload(s.store.runs[r].scope);
    if scope.None? then DropApprover(s, x)
    else WithTask(DropApprover(s, x), s.nextId, Task(r, scope.value, s.store.runs[r].policy, Waiting)).(nextId := s.nextId + 1)
  }

  // ---------------------------------------------------------------- cancel, reject, restart

  /** A worker is between two of its cancellation checks. */
  predicate Busy(s: State, r: Id) {
    exists t :: t in s.memory.tasks && s.memory.tasks[t].run == r && s.memory.tasks[t].mode.Inside?
  }

  function Withdraw(approvals: map<Id, Approval>, runs: set<Id>): map<Id, Approval> {
    map a | a in approvals ::
      if approvals[a].run in runs && approvals[a].status.Pending? then approvals[a].(status := Withdrawn) else approvals[a]
  }

  function DoCancel(s: State, r: Id): State
    requires r in s.store.runs
  {
    if Final(s.store.runs[r].status) then s
    else
      s.(store := s.store.(runs := s.store.runs[r := s.store.runs[r].(status := Cancelled)],
                           approvals := Withdraw(s.store.approvals, {r})),
         memory := s.memory.(cancelled := s.memory.cancelled + {r}))
  }

  function DoReject(s: State, a: Id): State {
    if a !in s.store.approvals || !s.store.approvals[a].status.Pending? || s.store.approvals[a].run !in s.store.runs then s
    else WithStatus(WithApproval(s, a, Refused), s.store.approvals[a].run, Status.Rejected)
  }

  function Interrupt(run: Run): Run { if Active(run.status) then run.(status := Interrupted) else run }

  /** The process ends; the next one interrupts what was active and withdraws its approvals. */
  function DoRestart(s: State): State {
    var active := set r | r in s.store.runs && Active(s.store.runs[r].status);
    State(Store(map r | r in s.store.runs :: Interrupt(s.store.runs[r]), s.store.invocations, Withdraw(s.store.approvals, active)),
          Memory(map[], map[], {}), s.log, s.nextId, s.context)
  }

  // ---------------------------------------------------------------- transitions

  predicate Enabled(env: Env, s: State, a: Action) {
    match a
    case Start(_, _) => true
    case Retry(r, _, _, _) => r in s.store.runs
    case NewConversation(_) => true
    case SetCapture(_, _) => true
    case BeginTask(t) => Holds(s, t, Waiting)
    case Pause(t) => Holds(s, t, Inside)
    case Proceed(t) => Holds(s, t, Between)
    case Call(t, _, _, _) => Holds(s, t, Inside)
    case Answer(t) => Holds(s, t, Inside)
    case End(t, outcome) => Holds(s, t, Inside) && (outcome.Complete? || outcome.Degraded? || outcome.Failed?)
    case CheckApproval(_, _, _) => true
    case Claim(x) => AtStage(s, x, Checked)
    case Act(x, _) => AtStage(s, x, Claimed)
    case Continue(x) => AtStage(s, x, Acted)
    case Cancel(r) => r in s.store.runs
    case Reject(_) => true
    case Restart => true
  }

  function Next(env: Env, s: State, a: Action): State
    requires Enabled(env, s, a)
  {
    match a
    case Start(d, expires) => DoDemand(env, s, d, expires)
    case Retry(r, required, asks, expires) => DoRetry(env, s, r, required, asks, expires)
    case NewConversation(raw) => DoNewConversation(env, s, raw)
    case SetCapture(session, capture) => s.(context := s.context.(captures := s.context.captures[session := capture]))
    case BeginTask(t) => Enter(s, t)
    case Pause(t) => WithTask(s, t, s.memory.tasks[t].(mode := Between))
    case Proceed(t) => Enter(s, t)
    case Call(t, tool, args, expires) => DoCall(env, s, t, tool, args, expires)
    case Answer(t) => DoAnswer(s, t)
    case End(t, outcome) =>
      DropTask(WithStatus(if outcome.Failed? then s else DoAnswer(s, t), s.memory.tasks[t].run, outcome), t)
    case CheckApproval(id, confirmation, now) => DoCheckApproval(s, id, confirmation, now)
    case Claim(x) => DoClaim(s, x)
    case Act(x, ok) => DoAct(env, s, x, ok)
    case Continue(x) => DoContinue(env, s, x)
    case Cancel(r) => DoCancel(s, r)
    case Reject(id) => DoReject(s, id)
    case Restart => DoRestart(s)
  }

  predicate Initial(s: State) {
    && s.store == Store(map[], map[], map[]) && s.memory == Memory(map[], map[], {}) && s.log == []
    && s.context.conversations == map[] && s.context.latest == map[]
  }

  predicate Runs(env: Env, s: State, trace: seq<Action>)
    decreases |trace|
  {
    trace == [] || (Enabled(env, s, trace[0]) && Runs(env, Next(env, s, trace[0]), trace[1..]))
  }

  function After(env: Env, s: State, trace: seq<Action>): State
    requires Runs(env, s, trace)
    decreases |trace|
  {
    if trace == [] then s else After(env, Next(env, s, trace[0]), trace[1..])
  }

  lemma {:induction false} RunsAppend(env: Env, s: State, trace: seq<Action>, a: Action)
    requires Runs(env, s, trace) && Enabled(env, After(env, s, trace), a)
    ensures Runs(env, s, trace + [a]) && After(env, s, trace + [a]) == Next(env, After(env, s, trace), a)
    decreases |trace|
  {
    if trace == [] {
      assert trace + [a] == [a] && [a][1..] == [];
    } else {
      RunsAppend(env, Next(env, s, trace[0]), trace[1..], a);
      assert (trace + [a])[1..] == trace[1..] + [a];
    }
  }
}
