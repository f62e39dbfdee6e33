/** A run of the analyst machine in which a retry does not get the scope of the run it retries. */
module AnalystScenarios {
  import opened Wrappers
  import opened ToolPolicy
  import opened AnalystScope
  import opened AnalystMachine
  import opened AnalystTheorems

  /** A request in conversation c for a general run, which needs no scope. */
  function Question(c: Id, scope: RawScope, p: Policy): Demand { Demand(c, None, None, scope, p, false, false) }

  function RunOf(c: Id, scope: Scope, p: Policy, status: Status): Run { Run(c, None, None, scope, DerivedPolicy(p), status) }

  /** Run n + 1 without a scope in conversation n. */
  function Asked(s0: State, e: Scope, p: Policy): State {
    var n := s0.nextId;
    State(Store(map[n + 1 := RunOf(n, e, p, Queued)], map[], map[]),
          Memory(map[n + 2 := Task(n + 1, e, DerivedPolicy(p), Waiting)], map[], {}), [], n + 4,
          Context(map[n := e], map[], s0.context.captures))
  }

  /** It was interrupted, and run n + 4 with a scope has begun in the same conversation. */
  function Followed(s0: State, e: Scope, x: Scope, p: Policy): State {
    var n := s0.nextId;
    State(Store(map[n + 1 := RunOf(n, e, p, Interrupted), n + 4 := RunOf(n, x, p, Queued)], map[], map[]),
          Memory(map[n + 5 := Task(n + 4, x, DerivedPolicy(p), Waiting)], map[], {}), [], n + 7,
          Context(map[n := x], map[], s0.context.captures))
  }

  /** That run has completed. */
  function Answered(s0: State, e: Scope, x: Scope, p: Policy): State {
    var n := s0.nextId;
    State(Store(map[n + 1 := RunOf(n, e, p, Interrupted), n + 4 := RunOf(n, x, p, Complete)], map[], map[]),
          Memory(map[], map[], {}), [], n + 7, Context(map[n := x], map[n := n + 4], s0.context.captures))
  }

  /** Two scopes as the environment reads them: one names nothing, one something its capture agrees with. */
  ghost predicate Reads(env: Env, s0: State, nothing: RawScope, e: Scope, something: RawScope, x: Scope) {
    && env.read(nothing) == Some(e) && !HasScope(e) && Settles(env, e)
    && env.read(something) == Some(x) && HasScope(x) && Settles(env, x) && MatchesCapture(s0.context.captures, x)
  }

  lemma FirstRun(env: Env, s0: State, nothing: RawScope, e: Scope, something: RawScope, x: Scope, p: Policy)
    requires Initial(s0) && Reads(env, s0, nothing, e, something, x) && p.mode.General?
    ensures Next(env, Next(env, s0, NewConversation(nothing)), Start(Question(s0.nextId, nothing, p), 0)) == Asked(s0, e, p)
  {
    var s1 := Next(env, s0, NewConversation(nothing));
    assert s1.context.conversations == map[s0.nextId := e];
    assert Inherited(s1, s0.nextId) == e;
  }

  lemma SecondRun(env: Env, s0: State, nothing: RawScope, e: Scope, something: RawScope, x: Scope, p: Policy)
    requires Reads(env, s0, nothing, e, something, x) && p.mode.General?
    ensures Next(env, Next(env, Asked(s0, e, p), Restart), Start(Question(s0.nextId, something, p), 0)) == Followed(s0, e, x, p)
  {
    var s := Next(env, Asked(s0, e, p), Restart);
    NormalFormMatches(s0.context.captures, x);
    assert s.store.runs == map[s0.nextId + 1 := RunOf(s0.nextId, e, p, Interrupted)];
    assert s.store.approvals == map[];
    assert !Occupied(s, s0.nextId);
  }

  lemma SecondAnswer(env: Env, s0: State, e: Scope, x: Scope, p: Policy)
    ensures var n, s := s0.nextId, Followed(s0, e, x, p);
      && Enabled(env, s, BeginTask(n + 5)) && Enabled(env, Next(env, s, BeginTask(n + 5)), End(n + 5, Complete))
      && Next(env, Next(env, s, BeginTask(n + 5)), End(n + 5, Complete)) == Answered(s0, e, x, p)
  {
    var n, s := s0.nextId, Followed(s0, e, x, p);
    var t := Next(env, s, BeginTask(n + 5));
    var u := Next(env, t, End(n + 5, Complete));
    assert u.store.runs == Answered(s0, e, x, p).store.runs;
    assert u.memory.tasks == map[];
  }

  lemma Retried(env: Env, s0: State, nothing: RawScope, e: Scope, something: RawScope, x: Scope, p: Policy)
    requires Reads(env, s0, nothing, e, something, x) && p.mode.General?
    ensures var n, s := s0.nextId, Answered(s0, e, x, p);
      && Enabled(env, s, Retry(n + 1, false, false, 0))
      && var runs := Next(env, s, Retry(n + 1, false, false, 0)).store.runs;
         && n + 1 in runs && runs[n + 1].scope == e && n + 7 in runs && runs[n + 7].parent == Some(n + 1) && runs[n + 7].scope == x
  {
    var n, s := s0.nextId, Answered(s0, e, x, p);
    NormalFormMatches(s0.context.captures, x);
    assert Inherited(s, n) == x;
    assert !Occupied(s, n);
    assert !Taken(s, Some(RetryOf(n + 1)));
  }

  lemma OneStep(env: Env, s: State, a: Action)
    requires Enabled(env, s, a)
    ensures Runs(env, s, [a]) && After(env, s, [a]) == Next(env, s, a)
  {
    assert [a][1..] == [];
  }

  lemma TwoSteps(env: Env, s: State, a: Action, b: Action, t: State, rest: seq<Action>)
    requires Enabled(env, s, a) && Enabled(env, Next(env, s, a), b) && Next(env, Next(env, s, a), b) == t && Runs(env, t, rest)
    ensures Runs(env, s, [a, b] + rest) && After(env, s, [a, b] + rest) == After(env, t, rest)
  {
    assert ([a, b] + rest)[1..] == [b] + rest && ([b] + rest)[1..] == rest;
  }

  function LastSteps(n: Id): seq<Action> { [BeginTask(n + 5), End(n + 5, Complete)] + [Retry(n + 1, false, false, 0)] }

  lemma LastStepsRun(env: Env, s0: State, e: Scope, x: Scope, p: Policy, rest: seq<Action>)
    requires Runs(env, Answered(s0, e, x, p), rest)
    ensures Runs(env, Followed(s0, e, x, p), [BeginTask(s0.nextId + 5), End(s0.nextId + 5, Complete)] + rest)
    ensures After(env, Followed(s0, e, x, p), [BeginTask(s0.nextId + 5), End(s0.nextId + 5, Complete)] + rest) ==
              After(env, Answered(s0, e, x, p), rest)
  {
    SecondAnswer(env, s0, e, x, p);
    TwoSteps(env, Followed(s0, e, x, p), BeginTask(s0.nextId + 5), End(s0.nextId + 5, Complete), Answered(s0, e, x, p), rest);
  }

  function LaterSteps(n: Id, something: RawScope, p: Policy): seq<Action> {
    [Restart, Start(Question(n, something, p), 0)] + LastSteps(n)
  }

  lemma LaterStepsRun(env: Env, s0: State, nothing: RawScope, e: Scope, something: RawScope, x: Scope, p: Policy, rest: seq<Action>)
    requires Reads(env, s0, nothing, e, something, x) && p.mode.General? && Runs(env, Followed(s0, e, x, p), rest)
    ensures Runs(env, Asked(s0, e, p), [Restart, Start(Question(s0.nextId, something, p), 0)] + rest)
    ensures After(env, Asked(s0, e, p), [Restart, Start(Question(s0.nextId, something, p), 0)] + rest) == After(env, Followed(s0, e, x, p), rest)
  {
    SecondRun(env, s0, nothing, e, something, x, p);
    TwoSteps(env, Asked(s0, e, p), Restart, Start(Question(s0.nextId, something, p), 0), Followed(s0, e, x, p), rest);
  }

  function Takeover(n: Id, nothing: RawScope, something: RawScope, p: Policy): seq<Action> {
    [NewConversation(nothing), Start(Question(n, nothing, p), 0)] + LaterSteps(n, something, p)
  }

  lemma FirstStepsRun(env: Env, s0: State, nothing: RawScope, e: Scope, something: RawScope, x: Scope, p: Policy, rest: seq<Action>)
    requires Initial(s0) && Reads(env, s0, nothing, e, something, x) && p.mode.General? && Runs(env, Asked(s0, e, p), rest)
    ensures Runs(env, s0, [NewConversation(nothing), Start(Question(s0.nextId, nothing, p), 0)] + rest)
    ensures After(env, s0, [NewConversation(nothing), Start(Question(s0.nextId, nothing, p), 0)] + rest) == After(env, Asked(s0, e, p), rest)
  {
    FirstRun(env, s0, nothing, e, something, x, p);
    TwoSteps(env, s0, NewConversation(nothing), Start(Question(s0.nextId, nothing, p), 0), Asked(s0, e, p), rest);
  }

  /** A scopeless run is interrupted, another run with a scope completes in its conversation, and the
      retry of the first runs with the scope of the second. */
  lemma RetryTakesOverScope(env: Env, s0: State, nothing: RawScope, e: Scope, something: RawScope, x: Scope, p: Policy)
    requires Initial(s0) && Reads(env, s0, nothing, e, something, x) && p.mode.General?
    ensures Runs(env, s0, Takeover(s0.nextId, nothing, something, p))
    ensures var n, runs := s0.nextId, After(env, s0, Takeover(s0.nextId, nothing, something, p)).store.runs;
      && n + 1 in runs && runs[n + 1].scope == e && n + 7 in runs && runs[n + 7].parent == Some(n + 1)
      && runs[n + 7].scope == x != e
  {
    Retried(env, s0, nothing, e, something, x, p);
    OneStep(env, Answered(s0, e, x, p), Retry(s0.nextId + 1, false, false, 0));
    LastStepsRun(env, s0, e, x, p, [Retry(s0.nextId + 1, false, false, 0)]);
    LaterStepsRun(env, s0, nothing, e, something, x, p, LastSteps(s0.nextId));
    FirstStepsRun(env, s0, nothing, e, something, x, p, LaterSteps(s0.nextId, something, p));
  }
}
