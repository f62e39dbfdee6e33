/**
 `AIOrchestrator` as the class it is in core/ai/orchestrator.py.  Each method is one action, or for
 `Approve` a chain of actions, of the machine in AnalystMachine.dfy, so the theorems about its runs
 hold of any sequence of calls.
 */
module AnalystOrchestrator {
  import opened Wrappers
  import opened ToolPolicy
  import opened AnalystScope
  import opened AnalystMachine

  datatype Verdict = Unknown | NoLongerPending | TooLate | WrongPhrase | Stale | Done

  predicate Confirms(a: Approval, confirmation: string, now: int) {
    a.status.Pending? && now <= a.expires && PhraseMatches(a.phrase, confirmation)
  }

  class AIOrchestrator {
    const env: Env
    var runs: map<Id, Run>
    var invocations: map<Id, Invocation>
    var approvals: map<Id, Approval>
    var tasks: map<Id, Task>
    var cancelled: set<Id>
    var nextId: Id
    var conversations: map<Id, Scope>
    var latest: map<Id, Id>
    var captures: map<string, Capture>
    ghost var approvers: map<Id, Approver>
    ghost var log: seq<Execution>

    ghost function Snapshot(): State
      reads this
    {
      State(Store(runs, invocations, approvals), Memory(tasks, approvers, cancelled), log, nextId,
            Context(conversations, latest, captures))
    }

    constructor (env: Env, captures: map<string, Capture>)
      ensures Initial(Snapshot()) && this.env == env && this.captures == captures
    {
      this.env, this.captures := env, captures;
      runs, invocations, approvals, tasks, cancelled, nextId := map[], map[], map[], map[], {}, 0;
      conversations, latest, approvers, log := map[], map[], map[], [];
    }

    /** `create_conversation`. */
    method CreateConversation(raw: RawScope) returns (id: Option<Id>)
      modifies this`conversations, this`nextId
      ensures Snapshot() == Next(env, old(Snapshot()), NewConversation(raw))
      ensures id == if env.read(raw).Some? then Some(old(nextId)) else None
    {
      var scope := env.read(raw);
      if scope.None? { return None; }
      conversations, nextId := conversations[nextId := scope.value], nextId + 1;
      return Some(nextId - 1);
    }

    /** `_latest_conversation_run` and `_normalize_scope` as `start` applies them. */
    method EffectiveScope(c: Id, asked: Scope) returns (scope: Option<Scope>)
      ensures scope == ScopeFor(env, Snapshot(), c, asked)
    {
      if c !in conversations { return None; }
      var effective := asked;
      if !HasScope(asked) {
        var inherited := conversations[c];
        if c in latest && latest[c] in runs && runs[latest[c]].conversation == c {
          inherited := runs[latest[c]].scope;
        }
        var reloaded := env.reload(inherited);
        if reloaded.None? { return None; }
        effective := reloaded.value;
      }
      if HasText(effective.session) && effective.session.value in captures {
        var capture := captures[effective.session.value];
        if HasText(capture.source) { effective := effective.(source := capture.source); }
        if HasText(capture.interface) && !HasText(effective.interface) { effective := effective.(interface := capture.interface); }
      }
      return Some(effective);
    }

    predicate InUse(client: ClientId)
      reads this`runs
    {
      exists r :: r in runs && runs[r].client == Some(client)
    }

    /** `start`: an unreadable scope is an error, a known request id answers with its run, and an
        unknown or occupied conversation or a stale parent is an error too (None). */
    method Start(d: Demand, expires: int) returns (id: Option<Id>)
      modifies this
      ensures Snapshot() == Next(env, old(Snapshot()), AnalystMachine.Start(d, expires))
      ensures id.Some? <==> env.read(d.scope).Some? &&
                            var scope := ScopeFor(env, old(Snapshot()), d.conversation, env.read(d.scope).value);
                            Taken(old(Snapshot()), RequestId(d.client)) || (scope.Some? && Accepts(old(Snapshot()), Understood(d, scope.value)))
      ensures id.Some? && Taken(old(Snapshot()), RequestId(d.client)) ==> id.value in old(runs) && old(runs[id.value]).client == d.client
      ensures id.Some? && !Taken(old(Snapshot()), RequestId(d.client)) ==> id.value == old(nextId)
    {
      var asked := env.read(d.scope);
      if asked.None? { return None; }
      if d.client.Some? && d.client != Some(Named("")) && InUse(d.client.value) {
        var r :| r in runs && runs[r].client == Some(d.client.value);
        return Some(r);
      }
      var scope := EffectiveScope(d.conversation, asked.value);
      if scope.None? { return None; }
      var q := Understood(d, scope.value);
      if exists r :: r in runs && runs[r].conversation == q.conversation && Active(runs[r].status) {
        return None;
      }
      if q.parent.Some? {
        var p := q.parent.value;
        if p !in runs || runs[p].conversation != q.conversation || !runs[p].status.Interrupted? { return None; }
      }
      id := Some(nextId);
      Begin(q, expires);
    }

    /** The run is stored, the conversation remembers an explicit scope, and a worker, an approval or
        the request for a scope is next. */
    method Begin(q: Request, expires: int)
      requires Accepts(Snapshot(), q)
      modifies this
      ensures Snapshot() == DoStart(old(Snapshot()), q, expires)
    {
      var r := nextId;
      var status := FirstStatus(q);
      runs, nextId := runs[r := NewRun(q)], nextId + 3;
      if HasScope(q.scope) { conversations := conversations[q.conversation := q.scope]; }
      match status {
        case AwaitingApproval =>
          invocations := invocations[r + 2 := Invocation(r, Null)];
          approvals := approvals[r + 1 := ProviderApproval(r, q.scope, expires)];
        case Queued => tasks := tasks[r + 1 := Task(r, q.scope, q.policy, Waiting)];
        case NeedsScope => latest := latest[q.conversation := r];
      }
    }

    /** `retry`. */
    method Retry(r: Id, scopeRequired: bool, asks: bool, expires: int) returns (id: Option<Id>)
      requires r in runs
      modifies this
      ensures Snapshot() == Next(env, old(Snapshot()), AnalystMachine.Retry(r, scopeRequired, asks, expires))
    {
      var run := runs[r];
      if !Retryable(run) { return None; }
      var asked := env.reload(run.scope);
      if asked.None? { return None; }
      if InUse(RetryOf(r)) {
        var again :| again in runs && runs[again].client == Some(RetryOf(r));
        return Some(again);
      }
      var scope := EffectiveScope(run.conversation, asked.value);
      if scope.None? { return None; }
      var q := RetryRequest(r, run, scope.value, scopeRequired, asks);
      if exists other :: other in runs && runs[other].conversation == q.conversation && Active(runs[other].status) {
        return None;
      }
      id := Some(nextId);
      Begin(q, expires);
    }

    /** `_execute_call` up to the tool's own result: run now, ask, refuse, or fail the run. */
    method ExecuteCall(t: Id, tool: string, args: Json, expires: int) returns (gate: Option<Gate>)
      requires Holds(Snapshot(), t, Inside)
      modifies this
      ensures Snapshot() == Next(env, old(Snapshot()), Call(t, tool, args, expires))
      ensures gate == if tool in env.phrases then Some(env.gate(tool, args, old(tasks[t]).scope, old(tasks[t]).policy)) else None
    {
      var task := tasks[t];
      if tool !in env.phrases {
        runs, tasks := runs[task.run := runs[task.run].(status := Failed)], tasks - {t};
        return None;
      }
      var id := nextId;
      invocations, nextId := invocations[id := Invocation(task.run, args)], nextId + 2;
      gate := Some(env.gate(tool, args, task.scope, task.policy));
      match gate.value {
        case Block =>
        case Break => runs, tasks := runs[task.run := runs[task.run].(status := Failed)], tasks - {t};
        case Direct => log := log + [Execution(task.run, tool, args, task.scope, None)];
        case Ask =>
          RequestApproval(t, id, tool, args, expires);
      }
    }

    /** The run waits for the operator, and its worker is done. */
    method RequestApproval(t: Id, id: Id, tool: string, args: Json, expires: int)
      requires Holds(Snapshot(), t, Inside) && tool in env.phrases
      modifies this`approvals, this`runs, this`tasks
      ensures Snapshot() == DropTask(Asked(old(Snapshot()), old(tasks[t]), tool, env.phrases[tool], args, expires, id), t)
    {
      var task := tasks[t];
      var approval := Approval(task.run, id, Subject.Tool(tool), args, task.scope, env.phrases[tool], expires, Pending);
      approvals := approvals[id + 1 := approval];
      runs, tasks := runs[task.run := runs[task.run].(status := AwaitingApproval)], tasks - {t};
    }

    /** Withdraw what is pending for the run, one approval after the other. */
    method WithdrawAll(r: Id)
      modifies this`approvals
      ensures approvals == Withdraw(old(approvals), {r})
    {
      var todo := approvals.Keys;
      while todo != {}
        invariant todo <= approvals.Keys == old(approvals).Keys
        invariant forall a :: a in approvals ==>
                    approvals[a] == if a in todo then old(approvals[a]) else Withdraw(old(approvals), {r})[a]
        decreases |todo|
      {
        var a :| a in todo;
        if approvals[a].run == r && approvals[a].status.Pending? {
          approvals := approvals[a := approvals[a].(status := Withdrawn)];
        }
        todo := todo - {a};
      }
    }

    /** `cancel`: an unknown run is an error (false), a run that ended is returned as it is. */
    method Cancel(r: Id) returns (known: bool)
      modifies this`runs, this`approvals, this`cancelled
      ensures known <==> r in old(runs)
      ensures Snapshot() == if known then Next(env, old(Snapshot()), AnalystMachine.Cancel(r)) else old(Snapshot())
    {
      if r !in runs { return false; }
      if Final(runs[r].status) { return true; }
      cancelled := cancelled + {r};
      WithdrawAll(r);
      runs := runs[r := runs[r].(status := Cancelled)];
      return true;
    }

    method Reject(a: Id) returns (ok: bool)
      requires a in approvals ==> approvals[a].run in runs
      modifies this`runs, this`approvals
      ensures Snapshot() == Next(env, old(Snapshot()), AnalystMachine.Reject(a))
      ensures ok <==> a in old(approvals) && old(approvals[a]).status.Pending?
    {
      if a !in approvals || !approvals[a].status.Pending? { return false; }
      var r := approvals[a].run;
      approvals := approvals[a := approvals[a].(status := Refused)];
      runs := runs[r := runs[r].(status := Status.Rejected)];
      return true;
    }

    // -------------------------------------------------------------- approve

    /** The checks of `approve`. */
    method Check(a: Id, confirmation: string, now: int) returns (verdict: Verdict)
      requires a in approvals ==> approvals[a].run in runs
      modifies this
      ensures Snapshot() == Next(env, old(Snapshot()), CheckApproval(a, confirmation, now))
      ensures !verdict.Stale? && (verdict.Done? <==> a in old(approvals) && Confirms(old(approvals[a]), confirmation, now))
      ensures verdict.Done? ==> approvers == old(approvers)[old(nextId) := Approver(a, confirmation, now, Checked)]
      ensures verdict.Done? ==> approvals == old(approvals) && runs == old(runs)
    {
      if a !in approvals { return Unknown; }
      if !approvals[a].status.Pending? { return NoLongerPending; }
      if now > approvals[a].expires {
        var r := approvals[a].run;
        approvals := approvals[a := approvals[a].(status := Expired)];
        runs := runs[r := runs[r].(status := Failed)];
        return TooLate;
      }
      if approvals[a].phrase.Some? && approvals[a].phrase.value != "" && confirmation != approvals[a].phrase.value {
        return WrongPhrase;
      }
      approvers := approvers[nextId := Approver(a, confirmation, now, Checked)];
      nextId := nextId + 1;
      return Done;
    }

    /** `claim_ai_approval`. */
    method ClaimPending(x: Id, a: Id) returns (won: bool)
      requires AtStage(Snapshot(), x, Checked) && approvers[x].approval == a
      modifies this
      ensures Snapshot() == Next(env, old(Snapshot()), Claim(x)) && won == old(approvals[a]).status.Pending?
    {
      won := approvals[a].status.Pending?;
      if won {
        approvals := approvals[a := approvals[a].(status := Approving)];
        approvers := approvers[x := approvers[x].(stage := Claimed)];
      } else {
        approvers := approvers - {x};
      }
    }

    /** Compare what was approved with what is stored, then execute exactly that. */
    method Perform(x: Id, a: Id, ok: bool) returns (done: bool)
      requires AtStage(Snapshot(), x, Claimed) && approvers[x].approval == a
      modifies this
      ensures Snapshot() == Next(env, old(Snapshot()), Act(x, ok))
      ensures done ==> AtStage(Snapshot(), x, Acted) && approvers[x].approval == a
    {
      var approval := approvals[a];
      var r := approval.run;
      var reloaded := env.reload(runs[r].scope);
      if approval.scope != runs[r].scope ||
         (approval.subject.Tool? && approval.invocation in invocations && invocations[approval.invocation].args != approval.args) {
        approvals := approvals[a := approval.(status := ExecutionFailed)];
        runs := runs[r := runs[r].(status := Failed)];
        approvers := approvers - {x};
        return false;
      }
      if approval.subject.Provider? {
        approvals := approvals[a := approval.(status := Approved)];
      } else if approval.invocation !in invocations || reloaded.None? || approval.subject.name !in env.phrases {
        approvers := approvers - {x};
        return false;
      } else {
        log := log + [Execution(r, approval.subject.name, invocations[approval.invocation].args, reloaded.value, Some(approvers[x]))];
        approvals := approvals[a := approval.(status := if ok then Executed else ExecutionFailed)];
      }
      approvers := approvers[x := approvers[x].(stage := Acted)];
      return true;
    }

    /** Hand the run to a new worker task. */
    method Resume(x: Id, a: Id) returns (ok: bool)
      requires AtStage(Snapshot(), x, Acted) && approvers[x].approval == a
      modifies this
      ensures Snapshot() == Next(env, old(Snapshot()), Continue(x)) && log == old(log)
    {
      var r := approvals[a].run;
      var reloaded := env.reload(runs[r].scope);
      approvers := approvers - {x};
      ok := reloaded.Some?;
      if ok {
        tasks := tasks[nextId := Task(r, reloaded.value, runs[r].policy, Waiting)];
        nextId := nextId + 1;
      }
    }

    /** `approve` from its claim to the resumed task. */
    method Carry(x: Id, a: Id, ok: bool) returns (verdict: Verdict, ghost trace: seq<Action>)
      requires AtStage(Snapshot(), x, Checked) && approvers[x].approval == a
      modifies this
      ensures Runs(env, old(Snapshot()), trace) && Snapshot() == After(env, old(Snapshot()), trace)
      ensures verdict.Done? || verdict.Stale?
      ensures verdict.Done? ==> trace == [Claim(x), Act(x, ok), Continue(x)]
    {
      ghost var s := Snapshot();
      var won := ClaimPending(x, a);
      trace := [Claim(x)];
      assert trace[1..] == [];
      if !won { return Stale, trace; }
      var done := Perform(x, a, ok);
      RunsAppend(env, s, trace, Act(x, ok));
      trace := trace + [Act(x, ok)];
      if !done { return Stale, trace; }
      var resumed := Resume(x, a);
      RunsAppend(env, s, trace, Continue(x));
      trace := trace + [Continue(x)];
      verdict := if resumed then Done else Stale;
    }

    /** `approve` as a run of the machine. */
    method Approve(a: Id, confirmation: string, now: int, ok: bool) returns (verdict: Verdict, ghost trace: seq<Action>)
      requires a in approvals ==> approvals[a].run in runs
      modifies this
      ensures Runs(env, old(Snapshot()), trace) && Snapshot() == After(env, old(Snapshot()), trace)
      ensures verdict.Done? || verdict.Stale? <==> a in old(approvals) && Confirms(old(approvals[a]), confirmation, now)
      ensures verdict.Done? ==>
                var x := old(nextId); trace == [CheckApproval(a, confirmation, now), Claim(x), Act(x, ok), Continue(x)]
      ensures !verdict.Done? && !verdict.Stale? ==> trace == [CheckApproval(a, confirmation, now)]
    {
      var x := nextId;
      verdict := Check(a, confirmation, now);
      trace := [CheckApproval(a, confirmation, now)];
      assert trace[1..] == [];
      if !verdict.Done? { return; }
      ghost var rest;
      verdict, rest := Carry(x, a, ok);
      trace := trace + rest;
      assert trace[1..] == rest;
    }
  }
}
