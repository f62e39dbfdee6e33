/**
 The evidence loop of `AIOrchestrator.execute` with its call ledger (core/ai/orchestrator.py).  The
 functions define what the loop would do without a ledger; `Execute` is the loop with it.  Provider,
 tools, cancellation and everything read off the prompt are parameters.
 */
module ExecuteLoop {
  import opened Wrappers
  import opened ToolPolicy

  /** What the ledger hashes: the tool and its redacted arguments (scope is fixed per run). */
  datatype Key = Key(tool: string, args: Json)

  datatype ToolResult = ToolResult(tool: string, data: Json)

  datatype ToolCall = ToolCall(name: string, arguments: Json)

  datatype Turn = Turn(text: string, calls: seq<ToolCall>)

  datatype Entry = Assistant(turn: Turn) | Output(key: Key, result: ToolResult)

  datatype CheckPoint = AtRound(n: nat) | AtEnd

  /** `respond` is told how many turns came before, and is None when the provider fails; `run` is None
      when the call needs approval. */
  datatype World = World(respond: (nat, seq<ToolResult>, seq<string>, seq<Entry>) -> Option<Turn>,
                         run: Key -> Option<ToolResult>, cancelled: CheckPoint -> bool)

  /** What prompt, scope, policy and manifests decide before the loop. */
  datatype Plan = Plan(maxToolCalls: int, registry: set<string>, tools: seq<string>, baseline: bool,
                       priorityOnly: bool, priorityAction: bool, followupAnswered: bool,
                       forcedFirst: Option<string>, followups: seq<string>,
                       repair: ToolCall -> Key, followupKey: string -> Key)

  datatype Loop = Loop(results: seq<ToolResult>, transcript: seq<Entry>, called: seq<Key>, rounds: nat, asks: nat)

  datatype Outcome =
    | Suspended(at: Loop)   // a call waits for the operator
    | Stopped(at: Loop)     // cancelled
    | UnknownTool(at: Loop) // KeyError: the run fails
    | NoAnswer(at: Loop)    // the provider failed: the run fails
    | Answered(at: Loop, turn: Turn)

  // ---------------------------------------------------------------- distinct calls

  function Dedup(s: seq<Key>): seq<Key> {
    if s == [] then []
    else
      var d := Dedup(s[..|s| - 1]);
      if s[|s| - 1] in d then d else d + [s[|s| - 1]]
  }

  lemma {:induction false} DedupIsDistinct(s: seq<Key>)
    ensures |Dedup(s)| <= |s|
    ensures forall k :: k in Dedup(s) <==> k in s
    ensures forall i, j :: 0 <= i < j < |Dedup(s)| ==> Dedup(s)[i] != Dedup(s)[j]
  {
    if s != [] {
      DedupIsDistinct(s[..|s| - 1]);
      assert s == s[..|s| - 1] + [s[|s| - 1]];
    }
  }

  lemma DedupAppend(s: seq<Key>, k: Key)
    ensures Dedup(s + [k]) == if k in s then Dedup(s) else Dedup(s) + [k]
  {
    assert (s + [k])[..|s|] == s;
    DedupIsDistinct(s);
  }

  function Redundant(called: seq<Key>): int { |called| - |Dedup(called)| }

  // ---------------------------------------------------------------- the loop without a ledger

  function Budget(p: Plan): int { if p.maxToolCalls < 12 then p.maxToolCalls else 12 }

  function Call(w: World, l: Loop, key: Key): Option<Loop> {
    match w.run(key)
    case None => None
    case Some(r) => Some(l.(results := l.results + [r], called := l.called + [key]))
  }

  function Ask(w: World, l: Loop, tools: seq<string>): (Option<Turn>, Loop) {
    (w.respond(l.asks, l.results, tools, l.transcript), l.(asks := l.asks + 1))
  }

  function BaselineNames(p: Plan): seq<string> {
    if p.priorityOnly then ["priority_endpoints", "finding_summary"]
    else ["session_summary", "identity_coverage", "finding_summary", "top_conversations", "visibility_limits"]
  }

  const EmptyArguments := Obj(map[])

  function Baseline(p: Plan, w: World, l: Loop, names: seq<string>): Result<Loop, Outcome>
    decreases |names|
  {
    if names == [] then Ok(l)
    else if names[0] !in p.registry || |l.called| >= Budget(p) then Baseline(p, w, l, names[1..])
    else match Call(w, l, Key(names[0], EmptyArguments))
      case None => Err(Suspended(l))
      case Some(m) => Baseline(p, w, m, names[1..])
  }

  function Without(tools: seq<string>, names: seq<string>): seq<string> {
    if tools == [] then []
    else if tools[0] in names then Without(tools[1..], names)
    else [tools[0]] + Without(tools[1..], names)
  }

  predicate Shortcut(p: Plan) { p.priorityOnly || p.followupAnswered }

  /** The last ranking, if it names one endpoint and no tie. */
  function LastRanking(results: seq<ToolResult>): Option<Json> {
    if results == [] then None
    else if results[|results| - 1].tool == "priority_endpoints" then Some(results[|results| - 1].data)
    else LastRanking(results[..|results| - 1])
  }

  function UniqueTop(results: seq<ToolResult>): Option<Json> {
    match LastRanking(results)
    case None => None
    case Some(data) =>
      if !data.Obj? || "top_endpoints" !in data.fields || !data.fields["top_endpoints"].Arr? then None
      else
        var top := data.fields["top_endpoints"].items;
        var ties := if "top_tie_count" in data.fields then data.fields["top_tie_count"] else Int(|top|);
        if |top| == 1 && ties == Int(1) then Some(top[0]) else None
  }

  function InvestigateKey(top: Json): Key {
    var ip := if top.Obj? && "ip" in top.fields && top.fields["ip"].Str? then top.fields["ip"] else Str("");
    Key("investigate", Obj(map["ip" := ip]))
  }

  /** The one call outside the budget. */
  predicate ExtraDue(p: Plan, l: Loop) {
    Shortcut(p) && p.priorityAction && UniqueTop(l.results).Some? && "investigate" in p.registry
  }

  function Extra(p: Plan, w: World, l: Loop): Result<Loop, Outcome> {
    if !ExtraDue(p, l) then Ok(l)
    else match Call(w, l, InvestigateKey(UniqueTop(l.results).value))
      case None => Err(Suspended(l))
      case Some(m) => Ok(m)
  }

  datatype Round = Through(l: Loop) | Exhausted(l: Loop, turn: Turn) | Left(o: Outcome)

  /** The provider must answer without tools. */
  function Force(w: World, l: Loop): Round {
    match Ask(w, l, [])
    case (None, m) => Left(NoAnswer(m))
    case (Some(turn), m) => Exhausted(m, turn)
  }

  /** One call: out of budget, or twice redundant, the provider must answer without tools. */
  function OneCall(p: Plan, w: World, l: Loop, call: ToolCall): (r: Round)
    ensures r.Through? ==> r.l.rounds == l.rounds
  {
    if |l.called| >= Budget(p) then Force(w, l)
    else if call.name !in p.registry then Left(UnknownTool(l))
    else AfterCall(w, l, p.repair(call))
  }

  function AfterCall(w: World, l: Loop, key: Key): (r: Round)
    ensures r.Through? ==> r.l.rounds == l.rounds
  {
    match Call(w, l, key)
    case None => Left(Suspended(l))
    case Some(called) =>
      var m := Recorded(called, key);
      if Redundant(m.called) >= 2 then Force(w, m) else Through(m)
  }

  /** One turn's calls. */
  function Calls(p: Plan, w: World, l: Loop, calls: seq<ToolCall>): (r: Round)
    ensures r.Through? ==> r.l.rounds == l.rounds
    decreases |calls|
  {
    if calls == [] then Through(l)
    else
      var r := OneCall(p, w, l, calls[0]);
      if r.Through? then Calls(p, w, r.l, calls[1..]) else r
  }

  /** Calls made in a round are quoted back to the provider. */
  function Recorded(l: Loop, key: Key): Loop {
    if l.results == [] then l else l.(transcript := l.transcript + [Output(key, l.results[|l.results| - 1])])
  }

  function Followups(p: Plan, w: World, l: Loop, names: seq<string>): (r: Result<Loop, Outcome>)
    ensures r.Ok? ==> r.value.rounds == l.rounds
    decreases |names|
  {
    if names == [] || |l.called| >= Budget(p) then Ok(l)
    else
      var key := p.followupKey(names[0]);
      match Call(w, l, key)
      case None => Err(Suspended(l))
      case Some(m) => Followups(p, w, Recorded(m, key), names[1..])
  }

  const MAX_ROUNDS := 8

  /** Open a round: ask the provider and note its turn. */
  function Open(w: World, l: Loop, tools: seq<string>): (r: (Option<Turn>, Loop))
    ensures r.1.rounds == l.rounds + 1
  {
    var (turn, asked) := Ask(w, l, tools);
    var m := asked.(rounds := l.rounds + 1);
    (turn, if turn.Some? then m.(transcript := l.transcript + [Assistant(turn.value)]) else m)
  }

  function Rounds(p: Plan, w: World, l: Loop, tools: seq<string>, all: seq<string>, turn: Turn): Outcome
    decreases MAX_ROUNDS - l.rounds
  {
    if l.rounds >= MAX_ROUNDS then Conclude(w, l, turn)
    else if w.cancelled(AtRound(l.rounds)) then Stopped(l)
    else
      var (answer, m) := Open(w, l, tools);
      match answer
      case None => NoAnswer(m)
      case Some(turn') =>
        if turn'.calls == [] then Conclude(w, m, turn')
        else match Calls(p, w, m, turn'.calls)
          case Left(o) => o
          case Exhausted(n, last) => Conclude(w, n, last)
          case Through(n) =>
            if p.forcedFirst.Some? && m.rounds == 1 then
              match Followups(p, w, n, p.followups)
              case Err(o) => o
              case Ok(f) => Rounds(p, w, f, all, all, turn')
            else Rounds(p, w, n, tools, all, turn')
  }

  /** A turn that still asks for tools is answered once more, without any. */
  function Conclude(w: World, l: Loop, turn: Turn): Outcome {
    var (last, m) := if turn.calls == [] then (Some(turn), l) else Ask(w, l, []);
    if last.None? then NoAnswer(m) else if w.cancelled(AtEnd) then Stopped(m) else Answered(m, last.value)
  }

  function FirstTools(p: Plan, all: seq<string>): seq<string> {
    if p.forcedFirst.Some? && p.forcedFirst.value in all then [p.forcedFirst.value] else all
  }

  const NoTurn := Turn("", [])

  /** The loop's state once the opening evidence is collected. */
  function Opening(p: Plan, w: World, initial: seq<ToolResult>): Result<Loop, Outcome> {
    var start := Loop(initial, [], [], 0, 0);
    if p.baseline then Baseline(p, w, start, BaselineNames(p)) else Ok(start)
  }

  function Run(p: Plan, w: World, initial: seq<ToolResult>): Outcome {
    match Opening(p, w, initial)
    case Err(o) => o
    case Ok(l) =>
      match Extra(p, w, l)
      case Err(o) => o
      case Ok(m) =>
        if Shortcut(p) then Conclude(w, m.(rounds := 1), NoTurn)
        else
          var shown := if p.baseline then Without(FirstTools(p, p.tools), BaselineNames(p)) else FirstTools(p, p.tools);
          Rounds(p, w, m, shown, p.tools, NoTurn)
  }

  // ---------------------------------------------------------------- bounds

  /** The call budget: the policy's, at most 12, and never below zero. */
  function Cap(p: Plan): nat { if p.maxToolCalls < 0 then 0 else if p.maxToolCalls < 12 then p.maxToolCalls else 12 }

  predicate Bounded(p: Plan, o: Outcome) {
    && |o.at.called| <= Cap(p) + (if Shortcut(p) && p.priorityAction then 1 else 0)
    && o.at.rounds <= 8 && o.at.asks <= o.at.rounds + 2
  }

  lemma {:induction false} BaselineBounds(p: Plan, w: World, l: Loop, names: seq<string>)
    requires |l.called| <= Cap(p)
    ensures var r := Baseline(p, w, l, names);
      var m := if r.Ok? then r.value else r.error.at;
      |m.called| <= Cap(p) && m.rounds == l.rounds && m.asks == l.asks
    decreases |names|
  {
    if names != [] {
      if names[0] !in p.registry || |l.called| >= Budget(p) { BaselineBounds(p, w, l, names[1..]); }
      else if Call(w, l, Key(names[0], EmptyArguments)).Some? {
        BaselineBounds(p, w, Call(w, l, Key(names[0], EmptyArguments)).value, names[1..]);
      }
    }
  }

  lemma {:induction false} CallsBounds(p: Plan, w: World, l: Loop, calls: seq<ToolCall>)
    requires |l.called| <= Cap(p)
    ensures match Calls(p, w, l, calls)
            case Through(m) => |m.called| <= Cap(p) && m.rounds == l.rounds && m.asks == l.asks
            case Exhausted(m, _) => |m.called| <= Cap(p) && m.rounds == l.rounds && m.asks == l.asks + 1
            case Left(o) => |o.at.called| <= Cap(p) && o.at.rounds == l.rounds && o.at.asks <= l.asks + 1
    decreases |calls|
  {
    if calls != [] {
      var r := OneCall(p, w, l, calls[0]);
      if r.Through? { CallsBounds(p, w, r.l, calls[1..]); }
    }
  }

  lemma {:induction false} FollowupsBounds(p: Plan, w: World, l: Loop, names: seq<string>)
    requires |l.called| <= Cap(p)
    ensures var r := Followups(p, w, l, names);
      var m := if r.Ok? then r.value else r.error.at;
      |m.called| <= Cap(p) && m.rounds == l.rounds && m.asks == l.asks
    decreases |names|
  {
    if names != [] && |l.called| < Budget(p) {
      var key := p.followupKey(names[0]);
      if Call(w, l, key).Some? { FollowupsBounds(p, w, Recorded(Call(w, l, key).value, key), names[1..]); }
    }
  }

  lemma {:induction false} RoundsBounds(p: Plan, w: World, l: Loop, tools: seq<string>, all: seq<string>, turn: Turn)
    requires |l.called| <= Cap(p) && l.rounds <= MAX_ROUNDS && l.asks == l.rounds
    ensures var o := Rounds(p, w, l, tools, all, turn);
      |o.at.called| <= Cap(p) && o.at.rounds <= MAX_ROUNDS && o.at.asks <= o.at.rounds + 2
    decreases MAX_ROUNDS - l.rounds
  {
    if l.rounds < MAX_ROUNDS && !w.cancelled(AtRound(l.rounds)) {
      var (answer, m) := Open(w, l, tools);
      var turn' := if answer.Some? then answer.value else NoTurn;
      CallsBounds(p, w, m, turn'.calls);
      var r := Calls(p, w, m, turn'.calls);
      if turn'.calls != [] && r.Through? {
        if p.forcedFirst.Some? && m.rounds == 1 {
          FollowupsBounds(p, w, r.l, p.followups);
          var f := Followups(p, w, r.l, p.followups);
          if f.Ok? { RoundsBounds(p, w, f.value, all, all, turn'); }
        } else {
          RoundsBounds(p, w, r.l, tools, all, turn');
        }
      }
    }
  }

  /** However the provider, the tools and the operator behave, `execute` stops within 8 rounds and
      two more provider calls, and within the call budget unless the priority shortcut adds one. */
  lemma RunIsBounded(p: Plan, w: World, initial: seq<ToolResult>)
    ensures Bounded(p, Run(p, w, initial))
  {
    var start := Loop(initial, [], [], 0, 0);
    BaselineBounds(p, w, start, BaselineNames(p));
    var r := Opening(p, w, initial);
    if r.Ok? {
      var e := Extra(p, w, r.value);
      if e.Ok? && !Shortcut(p) {
        var shown := if p.baseline then Without(FirstTools(p, p.tools), BaselineNames(p)) else FirstTools(p, p.tools);
        RoundsBounds(p, w, e.value, shown, p.tools, NoTurn);
      }
    }
  }

  /** How many of the names are registered tools. */
  function Registered(p: Plan, names: seq<string>): nat {
    if names == [] then 0 else (if names[0] in p.registry then 1 else 0) + Registered(p, names[1..])
  }

  /** The calls the opening evidence makes when no call of it needs approval. */
  function OpeningCalls(p: Plan): nat {
    if !p.baseline then 0 else if Registered(p, BaselineNames(p)) < Cap(p) then Registered(p, BaselineNames(p)) else Cap(p)
  }

  lemma {:induction false} BaselineFills(p: Plan, w: World, l: Loop, names: seq<string>)
    requires |l.called| <= Cap(p) && Baseline(p, w, l, names).Ok?
    ensures var n := |l.called| + Registered(p, names);
      |Baseline(p, w, l, names).value.called| == if n < Cap(p) then n else Cap(p)
    decreases |names|
  {
    if names != [] {
      if names[0] !in p.registry || |l.called| >= Budget(p) { BaselineFills(p, w, l, names[1..]); }
      else { BaselineFills(p, w, Call(w, l, Key(names[0], EmptyArguments)).value, names[1..]); }
    }
  }

  /** The budget is exceeded, by one call, exactly when the opening evidence runs through and uses it
      up, and the shortcut then has a unique top endpoint to investigate and is not held for approval.
      Whether the opening uses it up is decided by the registered tools alone. */
  lemma BudgetExceededIff(p: Plan, w: World, initial: seq<ToolResult>)
    ensures var r := Opening(p, w, initial);
      |Run(p, w, initial).at.called| > Cap(p) <==>
        && r.Ok? && OpeningCalls(p) == Cap(p)
        && ExtraDue(p, r.value) && w.run(InvestigateKey(UniqueTop(r.value.results).value)).Some?
    ensures Opening(p, w, initial).Ok? ==> |Opening(p, w, initial).value.called| == OpeningCalls(p)
    ensures |Run(p, w, initial).at.called| <= Cap(p) + 1
  {
    RunIsBounded(p, w, initial);
    var start := Loop(initial, [], [], 0, 0);
    BaselineBounds(p, w, start, BaselineNames(p));
    var r := Opening(p, w, initial);
    if r.Ok? {
      if p.baseline { BaselineFills(p, w, start, BaselineNames(p)); }
    }
  }

  function Ranking(ip: string): ToolResult {
    ToolResult("priority_endpoints", Obj(map["top_endpoints" := Arr([Obj(map["ip" := Str(ip)])]), "top_tie_count" := Int(1)]))
  }

  /** The extra call is real: with no budget at all, a follow-up to a ranking still makes one. */
  lemma ShortcutExceedsBudget(p: Plan, w: World, ip: string)
    requires !p.baseline && p.followupAnswered && p.priorityAction && "investigate" in p.registry && p.maxToolCalls <= 0
    requires w.run(Key("investigate", Obj(map["ip" := Str(ip)]))).Some?
    ensures |Run(p, w, [Ranking(ip)]).at.called| == 1 && Cap(p) == 0
  {
    var start := Loop([Ranking(ip)], [], [], 0, 0);
    assert LastRanking(start.results) == Some(Ranking(ip).data);
    assert UniqueTop(start.results) == Some(Obj(map["ip" := Str(ip)]));
  }
}
