/**
 Runs from an empty installation in which a cancellation comes too late: its worker is between two of
 its checks, or an approver between its claim and its act.
 */
module AnalystCancellations {
  import opened Wrappers
  import opened ToolPolicy
  import opened AnalystScope
  import opened AnalystMachine
  import opened AnalystInvariants
  import opened AnalystTheorems
  import opened AnalystExclusivity
  import opened AnalystSilence
  import opened AnalystScenarios

  /** The request's scope names something its capture agrees with. */
  ghost predicate Names(env: Env, s0: State, raw: RawScope, x: Scope) {
    env.read(raw) == Some(x) && HasScope(x) && Settles(env, x) && MatchesCapture(s0.context.captures, x)
  }

  /** Conversation n, and run n + 1 in it with worker task n + 2. */
  function One(s0: State, x: Scope, p: Policy, status: Status, mode: TaskMode, cancelled: set<Id>): State {
    var n := s0.nextId;
    State(Store(map[n + 1 := RunOf(n, x, p, status)], map[], map[]),
          Memory(map[n + 2 := Task(n + 1, x, DerivedPolicy(p), mode)], map[], cancelled), [], n + 4,
          Context(map[n := x], map[], s0.context.captures))
  }

  function Begun(n: Id, raw: RawScope, p: Policy): seq<Action> {
    [NewConversation(raw), Start(Question(n, raw, p), 0), BeginTask(n + 2)]
  }

  lemma StartOne(env: Env, s0: State, raw: RawScope, x: Scope, p: Policy)
    requires Initial(s0) && Names(env, s0, raw, x)
    ensures Next(env, Next(env, s0, NewConversation(raw)), Start(Question(s0.nextId, raw, p), 0)) == One(s0, x, p, Queued, Waiting, {})
  {
    var s1 := Next(env, s0, NewConversation(raw));
    NormalFormMatches(s0.context.captures, x);
    assert s1.context.conversations == map[s0.nextId := x];
    assert map[s0.nextId := x][s0.nextId := x] == map[s0.nextId := x];
    assert !Occupied(s1, s0.nextId);
  }

  lemma BeginOne(env: Env, s0: State, x: Scope, p: Policy)
    ensures var s := One(s0, x, p, Queued, Waiting, {});
      Enabled(env, s, BeginTask(s0.nextId + 2)) && Next(env, s, BeginTask(s0.nextId + 2)) == One(s0, x, p, Running, Inside, {})
  {
  }

  lemma CancelOne(env: Env, s0: State, x: Scope, p: Policy)
    ensures var s := One(s0, x, p, Running, Inside, {});
      Enabled(env, s, Cancel(s0.nextId + 1)) && Next(env, s, Cancel(s0.nextId + 1)) == One(s0, x, p, Cancelled, Inside, {s0.nextId + 1})
  {
    assert Withdraw(map[], {s0.nextId + 1}) == map[];
    assert {} + {s0.nextId + 1} == {s0.nextId + 1};
  }

  lemma BegunRuns(env: Env, s0: State, raw: RawScope, x: Scope, p: Policy)
    requires Initial(s0) && Names(env, s0, raw, x)
    ensures Runs(env, s0, Begun(s0.nextId, raw, p)) && After(env, s0, Begun(s0.nextId, raw, p)) == One(s0, x, p, Running, Inside, {})
  {
    StartOne(env, s0, raw, x, p);
    BeginOne(env, s0, x, p);
    ThreeSteps(env, s0, NewConversation(raw), Start(Question(s0.nextId, raw, p), 0), BeginTask(s0.nextId + 2));
  }

  /** The run is cancelled while its worker is inside a segment. */
  function TooLate(n: Id, raw: RawScope, p: Policy): seq<Action> { Begun(n, raw, p) + [Cancel(n + 1)] }

  lemma TooLateRuns(env: Env, s0: State, raw: RawScope, x: Scope, p: Policy)
    requires Initial(s0) && Names(env, s0, raw, x)
    ensures Runs(env, s0, TooLate(s0.nextId, raw, p))
    ensures After(env, s0, TooLate(s0.nextId, raw, p)) == One(s0, x, p, Cancelled, Inside, {s0.nextId + 1})
  {
    BegunRuns(env, s0, raw, x, p);
    CancelOne(env, s0, x, p);
    RunsAppend(env, s0, Begun(s0.nextId, raw, p), Cancel(s0.nextId + 1));
  }

  // ---------------------------------------------------------------- it is overwritten

  /** The worker's verdict replaces the cancellation: the failing half of `FinalStaysIff`. */
  lemma VerdictOverwritesCancel(env: Env, s0: State, raw: RawScope, x: Scope, p: Policy)
    requires Initial(s0) && Names(env, s0, raw, x)
    ensures var n := s0.nextId;
      var trace := TooLate(n, raw, p) + [End(n + 2, Complete)];
      && Runs(env, s0, TooLate(n, raw, p)) && Runs(env, s0, trace)
      && var s, t := After(env, s0, TooLate(n, raw, p)), After(env, s0, trace);
         && n + 1 in s.store.runs && s.store.runs[n + 1].status.Cancelled?
         && n + 1 in t.store.runs && t.store.runs[n + 1].status.Complete?
  {
    var n := s0.nextId;
    TooLateRuns(env, s0, raw, x, p);
    EndOne(env, s0, x, p);
    RunsAppend(env, s0, TooLate(n, raw, p), End(n + 2, Complete));
  }

  lemma EndOne(env: Env, s0: State, x: Scope, p: Policy)
    ensures var n, s := s0.nextId, One(s0, x, p, Cancelled, Inside, {s0.nextId + 1});
      && Enabled(env, s, End(n + 2, Complete))
      && var t := Next(env, s, End(n + 2, Complete)); n + 1 in t.store.runs && t.store.runs[n + 1].status.Complete?
  {
  }

  // ---------------------------------------------------------------- the run comes back

  /** Conversation n with the cancelled run n + 1, its busy worker, and run n + 4 started after it. */
  predicate SecondRun(s: State, n: Id, x: Scope, p: Policy) {
    && Holds(s, n + 2, Inside) && s.memory.tasks[n + 2] == Task(n + 1, x, DerivedPolicy(p), Inside)
    && n + 1 in s.store.runs && s.store.runs[n + 1].status.Cancelled? && s.store.runs[n + 1].conversation == n
    && n + 4 in s.store.runs && s.store.runs[n + 4].status.Queued? && s.store.runs[n + 4].conversation == n
  }

  lemma StartSecond(env: Env, s0: State, raw: RawScope, x: Scope, p: Policy)
    requires Names(env, s0, raw, x)
    ensures SecondRun(Next(env, One(s0, x, p, Cancelled, Inside, {s0.nextId + 1}), Start(Question(s0.nextId, raw, p), 0)), s0.nextId, x, p)
  {
    NormalFormMatches(s0.context.captures, x);
    assert !Occupied(One(s0, x, p, Cancelled, Inside, {s0.nextId + 1}), s0.nextId);
  }

  /** A run is started in the conversation, and then the busy worker of the cancelled one asks the
      operator: both are active. */
  lemma LateAskMakesTwo(env: Env, s0: State, raw: RawScope, x: Scope, p: Policy, tool: string, args: Json)
    requires Initial(s0) && Names(env, s0, raw, x) && tool in env.phrases && env.gate(tool, args, x, DerivedPolicy(p)).Ask?
    ensures var n := s0.nextId;
      var trace := TooLate(n, raw, p) + [Start(Question(n, raw, p), 0)] + [Call(n + 2, tool, args, 0)];
      Runs(env, s0, trace) && BothActive(After(env, s0, trace), n + 1, n + 4)
  {
    var n, second, ask := s0.nextId, Start(Question(s0.nextId, raw, p), 0), Call(s0.nextId + 2, tool, args, 0);
    TooLateRuns(env, s0, raw, x, p);
    StartSecond(env, s0, raw, x, p);
    RunsAppend(env, s0, TooLate(n, raw, p), second);
    AskBesides(env, After(env, s0, TooLate(n, raw, p) + [second]), n, x, p, tool, args);
    RunsAppend(env, s0, TooLate(n, raw, p) + [second], ask);
  }

  lemma AskBesides(env: Env, s: State, n: Id, x: Scope, p: Policy, tool: string, args: Json)
    requires SecondRun(s, n, x, p) && tool in env.phrases && env.gate(tool, args, x, DerivedPolicy(p)).Ask?
    ensures Enabled(env, s, Call(n + 2, tool, args, 0))
    ensures BothActive(Next(env, s, Call(n + 2, tool, args, 0)), n + 1, n + 4)
  {
    LateAsk(env, s, n + 2, tool, args, 0);
  }

  // ---------------------------------------------------------------- tools are executed after it

  /** Run `r` is cancelled, and nothing has been executed. */
  predicate CancelledFirst(s: State, r: Id) { r in s.store.runs && s.store.runs[r].status.Cancelled? && s.log == [] }

  /** The busy worker executes a call that needs no confirmation. */
  lemma SegmentExecutesAfterCancel(env: Env, s0: State, raw: RawScope, x: Scope, p: Policy, tool: string, args: Json)
    requires Initial(s0) && Names(env, s0, raw, x) && tool in env.phrases && env.gate(tool, args, x, DerivedPolicy(p)).Direct?
    ensures var n := s0.nextId;
      var trace := TooLate(n, raw, p) + [Call(n + 2, tool, args, 0)];
      && Runs(env, s0, TooLate(n, raw, p)) && Runs(env, s0, trace)
      && var s, t := After(env, s0, TooLate(n, raw, p)), After(env, s0, trace);
         && CancelledFirst(s, n + 1)
         && |t.log| == 1 && t.log[0].run == n + 1
  {
    var n := s0.nextId;
    TooLateRuns(env, s0, raw, x, p);
    SegmentsOutliveCancellation(env, One(s0, x, p, Cancelled, Inside, {n + 1}), n + 2, n + 1, tool, args, 0);
    RunsAppend(env, s0, TooLate(n, raw, p), Call(n + 2, tool, args, 0));
  }

  /** The operator is asked, confirms, and the approver wins its claim. */
  function Claiming(n: Id, raw: RawScope, p: Policy, tool: string, args: Json, phrase: string): seq<Action> {
    Begun(n, raw, p) + [Call(n + 2, tool, args, 0)] + [CheckApproval(n + 5, phrase, 0)] + [Claim(n + 6)]
  }

  lemma AskingRuns(env: Env, s0: State, raw: RawScope, x: Scope, p: Policy, tool: string, args: Json)
    requires Initial(s0) && Names(env, s0, raw, x) && tool in env.phrases && env.gate(tool, args, x, DerivedPolicy(p)).Ask?
    ensures var n, trace := s0.nextId, Begun(s0.nextId, raw, p) + [Call(s0.nextId + 2, tool, args, 0)];
      && Runs(env, s0, trace)
      && var t := After(env, s0, trace);
         Waits(env, t, n + 5, n + 1, tool) && t.nextId == n + 6 && t.log == [] && t.store.runs[n + 1].status.AwaitingApproval?
  {
    BegunRuns(env, s0, raw, x, p);
    AskOne(env, s0, x, p, tool, args);
    RunsAppend(env, s0, Begun(s0.nextId, raw, p), Call(s0.nextId + 2, tool, args, 0));
  }

  lemma ClaimingRuns(env: Env, s0: State, raw: RawScope, x: Scope, p: Policy, tool: string, args: Json)
    requires Initial(s0) && Names(env, s0, raw, x) && tool in env.phrases && env.gate(tool, args, x, DerivedPolicy(p)).Ask?
    ensures var n, trace := s0.nextId, Claiming(s0.nextId, raw, p, tool, args, Phrase(env.phrases[tool]));
      Runs(env, s0, trace) && ClaimsTool(After(env, s0, trace), n + 6, n + 1) && After(env, s0, trace).log == []
      && After(env, s0, trace).store.runs[n + 1].status.AwaitingApproval?
  {
    var n, asking := s0.nextId, Begun(s0.nextId, raw, p) + [Call(s0.nextId + 2, tool, args, 0)];
    AskingRuns(env, s0, raw, x, p, tool, args);
    ClaimSteps(env, s0, asking, After(env, s0, asking), n + 5, n + 1, tool);
  }

  lemma AskOne(env: Env, s0: State, x: Scope, p: Policy, tool: string, args: Json)
    requires tool in env.phrases && env.gate(tool, args, x, DerivedPolicy(p)).Ask?
    ensures var n, s := s0.nextId, One(s0, x, p, Running, Inside, {});
      && Enabled(env, s, Call(n + 2, tool, args, 0))
      && var t := Next(env, s, Call(n + 2, tool, args, 0)); Waits(env, t, n + 5, n + 1, tool) && t.nextId == n + 6 && t.log == [] && t.store.runs[n + 1].status.AwaitingApproval?
  {
    AskedNow(env, One(s0, x, p, Running, Inside, {}), s0.nextId + 2, s0.nextId + 1, tool, args);
  }

  lemma ClaimSteps(env: Env, s0: State, trace: seq<Action>, s: State, a: Id, r: Id, tool: string)
    requires Runs(env, s0, trace) && After(env, s0, trace) == s && Waits(env, s, a, r, tool)
    ensures var more := trace + [CheckApproval(a, Phrase(env.phrases[tool]), 0)] + [Claim(s.nextId)];
      && Runs(env, s0, more) && ClaimsTool(After(env, s0, more), s.nextId, r) && After(env, s0, more).log == s.log
      && After(env, s0, more).store.runs == s.store.runs
  {
    var check := CheckApproval(a, Phrase(env.phrases[tool]), 0);
    ConfirmedNow(env, s, a, r, tool);
    RunsAppend(env, s0, trace, check);
    ClaimedNow(env, Next(env, s, check), s.nextId, a, r, tool);
    RunsAppend(env, s0, trace + [check], Claim(s.nextId));
  }

  lemma CancelKeepsClaim(env: Env, s: State, x: Id, r: Id)
    requires ClaimsTool(s, x, r) && !Final(s.store.runs[r].status)
    ensures Enabled(env, s, Cancel(r))
    ensures var t := Next(env, s, Cancel(r)); ClaimsTool(t, x, r) && t.store.runs[r].status.Cancelled? && t.log == s.log
  {
  }

  lemma CancelThenAct(env: Env, s0: State, trace: seq<Action>, s: State, x: Id, r: Id)
    requires Sane(env) && Runs(env, s0, trace) && After(env, s0, trace) == s && Inv(env, s)
    requires ClaimsTool(s, x, r) && !Final(s.store.runs[r].status) && s.log == []
    ensures Runs(env, s0, trace + [Cancel(r)]) && CancelledFirst(After(env, s0, trace + [Cancel(r)]), r)
    ensures Runs(env, s0, trace + [Cancel(r)] + [Act(x, true)])
    ensures var t := After(env, s0, trace + [Cancel(r)] + [Act(x, true)]); |t.log| == 1 && t.log[0].run == r
  {
    CancelKeepsClaim(env, s, x, r);
    NextInv(env, s, Cancel(r));
    RunsAppend(env, s0, trace, Cancel(r));
    ClaimsOutliveCancellation(env, Next(env, s, Cancel(r)), x, r, true);
    RunsAppend(env, s0, trace + [Cancel(r)], Act(x, true));
  }

  /** An approver that won its claim executes the tool although the run was cancelled in between. */
  lemma ClaimExecutesAfterCancel(env: Env, s0: State, raw: RawScope, x: Scope, p: Policy, tool: string, args: Json)
    requires Sane(env) && Initial(s0) && Names(env, s0, raw, x) && tool in env.phrases && env.gate(tool, args, x, DerivedPolicy(p)).Ask?
    ensures var n := s0.nextId;
      var late := Claiming(n, raw, p, tool, args, Phrase(env.phrases[tool])) + [Cancel(n + 1)];
      && Runs(env, s0, late) && CancelledFirst(After(env, s0, late), n + 1) && Runs(env, s0, late + [Act(n + 6, true)])
      && var t := After(env, s0, late + [Act(n + 6, true)]); |t.log| == 1 && t.log[0].run == n + 1
  {
    var claiming := Claiming(s0.nextId, raw, p, tool, args, Phrase(env.phrases[tool]));
    ClaimingRuns(env, s0, raw, x, p, tool, args);
    InitialInv(env, s0);
    RunInv(env, s0, claiming);
    CancelThenAct(env, s0, claiming, After(env, s0, claiming), s0.nextId + 6, s0.nextId + 1);
  }
}
