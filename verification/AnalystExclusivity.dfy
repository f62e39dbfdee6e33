/** When a conversation has at most one active run, and when a cancellation makes it have two. */
module AnalystExclusivity {
  import opened Wrappers
  import opened ToolPolicy
  import opened AnalystScope
  import opened AnalystMachine
  import opened AnalystInvariants
  import opened AnalystTheorems

  /** Both are active, in one conversation. */
  predicate BothActive(s: State, r: Id, q: Id) {
    && r in s.store.runs && q in s.store.runs && r != q && s.store.runs[r].conversation == s.store.runs[q].conversation
    && Active(s.store.runs[r].status) && Active(s.store.runs[q].status)
  }

  ghost predicate Exclusive(s: State) {
    forall r, q :: !BothActive(s, r, q)
  }

  predicate AsksNow(env: Env, s: State, a: Action) {
    && a.Call? && Holds(s, a.t, Inside) && a.tool in env.phrases
    && env.gate(a.tool, a.args, s.memory.tasks[a.t].scope, s.memory.tasks[a.t].policy).Ask?
  }

  /** A worker asks the operator for a run that is not active any more, while its conversation has
      another active run. */
  predicate Revives(env: Env, s: State, a: Action) {
    && AsksNow(env, s, a)
    && var run := s.store.runs[s.memory.tasks[a.t].run];
       !Active(run.status) && Occupied(s, run.conversation)
  }

  /** No run becomes active, and none changes its conversation. */
  predicate NoneActivated(s: State, t: State) {
    forall r :: r in t.store.runs && Active(t.store.runs[r].status) ==>
      r in s.store.runs && Active(s.store.runs[r].status) && s.store.runs[r].conversation == t.store.runs[r].conversation
  }

  lemma NoneActivatedByEntry(env: Env, s: State, o: Owners, a: Action)
    requires TasksOk(s.memory.tasks, s.store.runs, s.memory.cancelled, o) && Enabled(env, s, a) && (a.BeginTask? || a.Proceed?)
    ensures NoneActivated(s, Next(env, s, a))
  {
  }

  lemma NoneActivatedByCall(env: Env, s: State, a: Action)
    requires Enabled(env, s, a) && a.Call? && !AsksNow(env, s, a)
    ensures NoneActivated(s, Next(env, s, a))
  {
  }

  lemma NoneActivatedInside(env: Env, s: State, a: Action)
    requires Enabled(env, s, a) && (a.Pause? || a.Answer? || a.End?)
    ensures NoneActivated(s, Next(env, s, a))
  {
  }

  lemma NoneActivatedByAct(env: Env, s: State, o: Owners, a: Action)
    requires RunsOk(env, s.store.runs, s.memory.cancelled, o) && ApprovalsOk(env, s.store, o) && Enabled(env, s, a) && a.Act?
    ensures NoneActivated(s, Next(env, s, a))
  {
    ActIs(env, s, o, a.x, a.ok);
  }

  lemma NoneActivatedByApprover(env: Env, s: State, a: Action)
    requires Enabled(env, s, a) && (a.CheckApproval? || a.Claim? || a.Continue? || a.Reject?)
    ensures NoneActivated(s, Next(env, s, a))
  {
  }

  lemma NoneActivatedByOperator(env: Env, s: State, a: Action)
    requires Enabled(env, s, a) && (a.Cancel? || a.Restart? || a.NewConversation? || a.SetCapture?)
    ensures NoneActivated(s, Next(env, s, a))
  {
  }

  lemma NoneActivatedIsExclusive(s: State, t: State)
    requires Exclusive(s) && NoneActivated(s, t)
    ensures Exclusive(t)
  {
    forall r, q ensures !BothActive(t, r, q) { assert !BothActive(s, r, q); }
  }

  lemma StartIsExclusive(s: State, q: Request, expires: int)
    requires Exclusive(s) && IdsOk(s)
    ensures Exclusive(DoStart(s, q, expires))
  {
    var t := DoStart(s, q, expires);
    forall x, y ensures !BothActive(t, x, y) { assert !BothActive(s, x, y); }
  }

  lemma DemandIsExclusive(env: Env, s: State, d: Demand, expires: int)
    requires Exclusive(s) && IdsOk(s)
    ensures Exclusive(DoDemand(env, s, d, expires))
  {
    if env.read(d.scope).Some? {
      var scope := ScopeFor(env, s, d.conversation, env.read(d.scope).value);
      if scope.Some? { StartIsExclusive(s, Understood(d, scope.value), expires); }
    }
  }

  lemma RetryIsExclusive(env: Env, s: State, r: Id, required: bool, asks: bool, expires: int)
    requires Exclusive(s) && IdsOk(s) && r in s.store.runs
    ensures Exclusive(DoRetry(env, s, r, required, asks, expires))
  {
    var scope := RetryScope(env, s, r);
    if Retryable(s.store.runs[r]) && scope.Some? {
      StartIsExclusive(s, RetryRequest(r, s.store.runs[r], scope.value, required, asks), expires);
    }
  }

  lemma AskIsExclusiveIff(env: Env, s: State, a: Action)
    requires Exclusive(s) && AsksNow(env, s, a)
    ensures Exclusive(Next(env, s, a)) <==> !Revives(env, s, a)
  {
    var r, t := s.memory.tasks[a.t].run, Next(env, s, a);
    LateAsk(env, s, a.t, a.tool, a.args, a.expires);
    if Revives(env, s, a) {
      var q :| q in s.store.runs && s.store.runs[q].conversation == s.store.runs[r].conversation && Active(s.store.runs[q].status);
      assert BothActive(t, r, q);
    } else {
      forall x, y ensures !BothActive(t, x, y) { assert !BothActive(s, x, y); }
    }
  }

  /** Exactly: a step ends the exclusivity of active runs if and only if it revives one. */
  lemma StepIsExclusiveIff(env: Env, s: State, a: Action)
    requires Inv(env, s) && Exclusive(s) && Enabled(env, s, a)
    ensures Exclusive(Next(env, s, a)) <==> !Revives(env, s, a)
  {
    var o :| Good(env, s, o);
    if AsksNow(env, s, a) { AskIsExclusiveIff(env, s, a); }
    else if a.Start? { DemandIsExclusive(env, s, a.demand, a.expires); }
    else if a.Retry? { RetryIsExclusive(env, s, a.run, a.scopeRequired, a.asks, a.expires); }
    else {
      if a.Act? { NoneActivatedByAct(env, s, o, a); }
      else if a.CheckApproval? || a.Claim? || a.Continue? || a.Reject? { NoneActivatedByApprover(env, s, a); }
      else if a.BeginTask? || a.Proceed? { NoneActivatedByEntry(env, s, o, a); }
      else if a.Call? { NoneActivatedByCall(env, s, a); }
      else if a.Cancel? || a.Restart? || a.NewConversation? || a.SetCapture? { NoneActivatedByOperator(env, s, a); }
      else { NoneActivatedInside(env, s, a); }
      NoneActivatedIsExclusive(s, Next(env, s, a));
    }
  }

  ghost predicate AlwaysExclusive(env: Env, s: State, trace: seq<Action>)
    requires Runs(env, s, trace)
    decreases |trace|
  {
    Exclusive(s) && (trace != [] ==> AlwaysExclusive(env, Next(env, s, trace[0]), trace[1..]))
  }

  predicate NeverRevives(env: Env, s: State, trace: seq<Action>)
    requires Runs(env, s, trace)
    decreases |trace|
  {
    trace != [] ==> !Revives(env, s, trace[0]) && NeverRevives(env, Next(env, s, trace[0]), trace[1..])
  }

  /** Over a whole run a conversation has one active run at most, throughout, if and only if no step
      revives one. */
  lemma {:induction false} RunIsExclusiveIff(env: Env, s: State, trace: seq<Action>)
    requires Sane(env) && Inv(env, s) && Exclusive(s) && Runs(env, s, trace)
    ensures AlwaysExclusive(env, s, trace) <==> NeverRevives(env, s, trace)
    decreases |trace|
  {
    if trace != [] {
      var t := Next(env, s, trace[0]);
      StepIsExclusiveIff(env, s, trace[0]);
      NextInv(env, s, trace[0]);
      if Exclusive(t) {
        RunIsExclusiveIff(env, t, trace[1..]);
      } else {
        NotExclusiveNow(env, t, trace[1..]);
      }
    }
  }

  lemma NotExclusiveNow(env: Env, s: State, trace: seq<Action>)
    requires Runs(env, s, trace) && !Exclusive(s)
    ensures !AlwaysExclusive(env, s, trace)
  {
  }

  /** So from the beginning. */
  lemma RunsFromTheStartAreExclusiveIff(env: Env, s0: State, trace: seq<Action>)
    requires Sane(env) && Initial(s0) && Runs(env, s0, trace)
    ensures AlwaysExclusive(env, s0, trace) <==> NeverRevives(env, s0, trace)
  {
    InitialInv(env, s0);
    RunIsExclusiveIff(env, s0, trace);
  }

  // ---------------------------------------------------------------- cancellations that find no busy worker

  /** No cancellation arrives while a worker of its run is busy. */
  predicate Timely(env: Env, s: State, trace: seq<Action>)
    requires Runs(env, s, trace)
    decreases |trace|
  {
    trace == [] || (!(trace[0].Cancel? && Busy(s, trace[0].r)) && Timely(env, Next(env, s, trace[0]), trace[1..]))
  }

  /** Cancelled runs stay cancelled, and nobody works on them. */
  ghost predicate Calm(s: State) {
    forall r :: r in s.memory.cancelled ==> r in s.store.runs && s.store.runs[r].status.Cancelled? && !Busy(s, r)
  }

  lemma OnlyCancelCancels(env: Env, s: State, a: Action, r: Id)
    requires Enabled(env, s, a) && r in Next(env, s, a).memory.cancelled && r !in s.memory.cancelled
    ensures a == Cancel(r) && Next(env, s, a).store.runs[r].status.Cancelled? && Next(env, s, a).memory.tasks == s.memory.tasks
  {
  }

  lemma CalmStep(env: Env, s: State, a: Action)
    requires Inv(env, s) && Enabled(env, s, a) && Calm(s) && !(a.Cancel? && Busy(s, a.r))
    ensures Calm(Next(env, s, a))
  {
    var t := Next(env, s, a);
    forall r | r in t.memory.cancelled ensures r in t.store.runs && t.store.runs[r].status.Cancelled? && !Busy(t, r) {
      if r in s.memory.cancelled {
        FinalStep(env, s, a, r);
      } else {
        OnlyCancelCancels(env, s, a, r);
        SameTasks(s, t, r);
      }
    }
  }

  lemma {:induction false} CalmRun(env: Env, s: State, trace: seq<Action>)
    requires Sane(env) && Inv(env, s) && Runs(env, s, trace) && Calm(s) && Timely(env, s, trace)
    ensures Calm(After(env, s, trace))
    decreases |trace|
  {
    if trace != [] {
      NextInv(env, s, trace[0]);
      CalmStep(env, s, trace[0]);
      CalmRun(env, Next(env, s, trace[0]), trace[1..]);
    }
  }

  /** While cancellations are timely, a conversation has one active run at most. */
  lemma TimelyRunsAreExclusive(env: Env, s0: State, trace: seq<Action>, r: Id, q: Id)
    requires Sane(env) && Initial(s0) && Runs(env, s0, trace) && Timely(env, s0, trace)
    requires r in After(env, s0, trace).store.runs && q in After(env, s0, trace).store.runs && r != q
    ensures var runs := After(env, s0, trace).store.runs;
      runs[r].conversation == runs[q].conversation ==> !Active(runs[r].status) || !Active(runs[q].status)
  {
    RunsAreExclusive(env, s0, trace, r, q);
    InitialInv(env, s0);
    CalmRun(env, s0, trace);
  }

  // ---------------------------------------------------------------- a cancellation that does

  /** Worker task t may go on with its run r, whose conversation has no other active run, and demand d
      would be accepted there if r were not active. */
  ghost predicate Overlap(env: Env, s: State, t: Id, r: Id, d: Demand) {
    && Holds(s, t, Inside) && s.memory.tasks[t].run == r && s.store.runs[r].status.Running?
    && d.client.None? && d.parent.None? && !d.scopeRequired && d.conversation == s.store.runs[r].conversation
    && (forall q :: q in s.store.runs && s.store.runs[q].conversation == d.conversation && Active(s.store.runs[q].status) ==> q == r)
    && env.read(d.scope).Some? && ScopeFor(env, s, d.conversation, env.read(d.scope).value).Some?
  }

  /** A worker that is busy when its run is cancelled can still ask for an approval: the run is active
      again, next to one started meanwhile. */
  lemma LateAskRevivesRun(env: Env, s: State, t: Id, r: Id, d: Demand, tool: string, args: Json, expires: int)
    requires IdsOk(s) && Overlap(env, s, t, r, d) && tool in env.phrases
    requires env.gate(tool, args, s.memory.tasks[t].scope, s.memory.tasks[t].policy).Ask?
    ensures Runs(env, s, [Cancel(r), Start(d, expires), Call(t, tool, args, expires)])
    ensures BothActive(After(env, s, [Cancel(r), Start(d, expires), Call(t, tool, args, expires)]), r, s.nextId)
  {
    LateStart(env, s, t, r, d, expires);
    LateAsk(env, DoDemand(env, DoCancel(s, r), d, expires), t, tool, args, expires);
    ThreeSteps(env, s, Cancel(r), Start(d, expires), Call(t, tool, args, expires));
  }

  lemma ThreeSteps(env: Env, s: State, a: Action, b: Action, c: Action)
    requires Enabled(env, s, a) && Enabled(env, Next(env, s, a), b) && Enabled(env, Next(env, Next(env, s, a), b), c)
    ensures Runs(env, s, [a, b, c]) && After(env, s, [a, b, c]) == Next(env, Next(env, Next(env, s, a), b), c)
  {
    assert [a, b, c][1..] == [b, c] && [b, c][1..] == [c] && [c][1..] == [];
    var s2 := Next(env, Next(env, s, a), b);
    assert Runs(env, s2, [c]) && After(env, s2, [c]) == Next(env, s2, c);
  }

  lemma LateAsk(env: Env, s: State, t: Id, tool: string, args: Json, expires: int)
    requires Holds(s, t, Inside) && tool in env.phrases
    requires env.gate(tool, args, s.memory.tasks[t].scope, s.memory.tasks[t].policy).Ask?
    ensures var r, u := s.memory.tasks[t].run, DoCall(env, s, t, tool, args, expires);
      && r in u.store.runs && u.store.runs[r] == s.store.runs[r].(status := AwaitingApproval)
      && forall q :: q in s.store.runs && q != r ==> q in u.store.runs && u.store.runs[q] == s.store.runs[q]
  {
  }

  lemma LateStart(env: Env, s: State, t: Id, r: Id, d: Demand, expires: int)
    requires IdsOk(s) && Overlap(env, s, t, r, d)
    ensures var u := DoDemand(env, DoCancel(s, r), d, expires);
      && s.nextId in u.store.runs && s.nextId != r && u.store.runs[s.nextId].conversation == d.conversation && Active(u.store.runs[s.nextId].status)
      && Holds(u, t, Inside) && u.memory.tasks[t] == s.memory.tasks[t] && u.store.runs[r].conversation == d.conversation
  {
    assert !Occupied(DoCancel(s, r), d.conversation);
    SameScopeFor(env, s, r, d.conversation, env.read(d.scope).value);
  }

  lemma SameScopeFor(env: Env, s: State, r: Id, c: Id, asked: Scope)
    requires r in s.store.runs
    ensures ScopeFor(env, DoCancel(s, r), c, asked) == ScopeFor(env, s, c, asked)
  {
    if c in s.context.conversations {
      assert Inherited(DoCancel(s, r), c) == Inherited(s, c);
    }
  }
}
