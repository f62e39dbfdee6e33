/**
 `AIOrchestrator.execute` as the loop it is: counters, a transcript, and the ledger that runs each
 distinct call once.  It is proved equal to the loop without a ledger in ExecuteLoop.dfy.
 */
module EvidenceLoop {
  import opened Wrappers
  import opened ExecuteLoop
  import LoopStory

  ghost predicate LedgerOk(w: World, ledger: map<Key, ToolResult>, called: seq<Key>) {
    (forall k :: k in called <==> k in ledger) && forall k :: k in ledger ==> w.run(k) == Some(ledger[k])
  }

  /** After the results the run started with, each call contributes what its tool returns. */
  ghost predicate ResultsOk(w: World, initial: seq<ToolResult>, results: seq<ToolResult>, called: seq<Key>) {
    && initial <= results && |results| == |initial| + |called|
    && forall i :: 0 <= i < |called| ==> Some(results[|initial| + i]) == w.run(called[i])
  }

  lemma CallKeepsOk(w: World, ledger: map<Key, ToolResult>, initial: seq<ToolResult>, results: seq<ToolResult>,
                    called: seq<Key>, key: Key, r: ToolResult)
    requires LedgerOk(w, ledger, called) && ResultsOk(w, initial, results, called) && w.run(key) == Some(r)
    ensures LedgerOk(w, ledger[key := r], called + [key]) && ResultsOk(w, initial, results + [r], called + [key])
  {
  }

  lemma CountKeepsOk(w: World, initial: seq<ToolResult>, results: seq<ToolResult>, called: seq<Key>, key: Key, r: ToolResult)
    requires ResultsOk(w, initial, results, called) && w.run(key) == Some(r)
    ensures ResultsOk(w, initial, results + [r], called + [key])
    ensures Redundant(called + [key]) == Redundant(called) + if key in called then 1 else 0
  {
    DedupAppend(called, key);
  }

  class Execution {
    const p: Plan
    const w: World
    var results: seq<ToolResult>
    var transcript: seq<Entry>
    var ledger: map<Key, ToolResult>
    var rounds: nat
    var toolCalls: nat
    var redundant: nat
    var called: seq<Key>          // every call, repeats included
    var executed: seq<Key>        // the calls that reached a tool
    const initial: seq<ToolResult>
    var asks: nat                 // provider turns so far

    ghost function View(): Loop
      reads this
    {
      Loop(results, transcript, called, rounds, asks)
    }

    /** The ledger holds what each distinct call returned, and nothing reached a tool twice. */
    ghost predicate Valid()
      reads this
    {
      && toolCalls == |called| && redundant == Redundant(called) && executed == Dedup(called)
      && LedgerOk(w, ledger, called) && ResultsOk(w, initial, results, called)
    }

    constructor (p: Plan, w: World, initial: seq<ToolResult>)
      ensures Valid() && View() == Loop(initial, [], [], 0, 0) && this.p == p && this.w == w && this.initial == initial
    {
      this.p, this.w, this.initial, results, transcript, ledger := p, w, initial, initial, [], map[];
      rounds, toolCalls, redundant, called, executed, asks := 0, 0, 0, [], [], 0;
    }

    /** `_execute_with_ledger`. */
    method Lookup(key: Key) returns (outcome: Option<ToolResult>, duplicate: bool)
      requires LedgerOk(w, ledger, called)
      modifies this`ledger, this`executed
      ensures outcome == w.run(key) && duplicate == (key in called)
      ensures outcome.Some? ==> ledger == old(ledger)[key := outcome.value]
      ensures outcome.None? ==> ledger == old(ledger)
      ensures executed == if duplicate || outcome.None? then old(executed) else old(executed) + [key]
    {
      if key in ledger { return Some(ledger[key]), true; }
      outcome, duplicate := w.run(key), false;
      if outcome.Some? {
        ledger := ledger[key := outcome.value];
        executed := executed + [key];
      }
    }

    /** The bookkeeping after a call. */
    method Count(key: Key, outcome: ToolResult, duplicate: bool)
      requires toolCalls == |called| && redundant == Redundant(called) && duplicate == (key in called)
      requires executed == Dedup(called + [key]) && LedgerOk(w, ledger, called + [key])
      requires ResultsOk(w, initial, results, called) && w.run(key) == Some(outcome)
      modifies this`results, this`toolCalls, this`redundant, this`called
      ensures Valid() && View() == old(View()).(results := old(results) + [outcome], called := old(called) + [key])
    {
      CountKeepsOk(w, initial, results, called, key, outcome);
      if duplicate { redundant := redundant + 1; }
      results, called, toolCalls := results + [outcome], called + [key], toolCalls + 1;
    }

    method ExecuteWithLedger(key: Key) returns (ok: bool)
      requires Valid()
      modifies this`results, this`ledger, this`toolCalls, this`redundant, this`called, this`executed
      ensures Valid()
      ensures match Call(w, old(View()), key) case None => !ok && View() == old(View()) case Some(l) => ok && View() == l
    {
      var outcome, duplicate := Lookup(key);
      ok := outcome.Some?;
      if ok {
        DedupAppend(called, key);
        CallKeepsOk(w, old(ledger), initial, results, called, key, outcome.value);
        Count(key, outcome.value, duplicate);
      }
    }

    /** A call the provider asked for, quoted back to it. */
    method CallTool(key: Key) returns (ok: bool)
      requires Valid()
      modifies this`results, this`transcript, this`ledger, this`toolCalls, this`redundant, this`called, this`executed
      ensures Valid()
      ensures match Call(w, old(View()), key)
              case None => !ok && View() == old(View())
              case Some(l) => ok && View() == Recorded(l, key)
    {
      ok := ExecuteWithLedger(key);
      if ok { Record(key); }
    }

    method Record(key: Key)
      modifies this`transcript
      ensures View() == Recorded(old(View()), key)
    {
      if results != [] { transcript := transcript + [Output(key, results[|results| - 1])]; }
    }

    method Respond(tools: seq<string>) returns (turn: Option<Turn>)
      modifies this`asks
      ensures (turn, View()) == Ask(w, old(View()), tools)
    {
      turn := w.respond(asks, results, tools, transcript);
      asks := asks + 1;
    }

    /** The deterministic opening evidence. */
    method CollectBaseline() returns (ok: bool)
      requires Valid()
      modifies this`results, this`ledger, this`toolCalls, this`redundant, this`called, this`executed
      ensures Valid()
      ensures match Baseline(p, w, old(View()), BaselineNames(p))
              case Ok(l) => ok && View() == l
              case Err(o) => !ok && o == Suspended(View())
    {
      var names := BaselineNames(p);
      for i := 0 to |names|
        invariant Valid()
        invariant Baseline(p, w, View(), names[i..]) == Baseline(p, w, old(View()), names)
      {
        assert names[i..][0] == names[i] && names[i..][1..] == names[i + 1..];
        if names[i] in p.registry && toolCalls < Budget(p) {
          var go := ExecuteWithLedger(Key(names[i], EmptyArguments));
          if !go { return false; }
        }
      }
      return true;
    }

    /** The priority shortcut investigates a unique top endpoint, whatever the budget says. */
    method InvestigateTop() returns (ok: bool)
      requires Valid()
      modifies this`results, this`ledger, this`toolCalls, this`redundant, this`called, this`executed
      ensures Valid()
      ensures match Extra(p, w, old(View()))
              case Ok(l) => ok && View() == l
              case Err(o) => !ok && o == Suspended(View())
    {
      ok := true;
      if Shortcut(p) {
        var top := UniqueTop(results);
        if p.priorityAction && top.Some? && "investigate" in p.registry {
          ok := ExecuteWithLedger(InvestigateKey(top.value));
        }
      }
    }

    method ForceAnswer() returns (left: Option<Outcome>, forced: Option<Turn>)
      modifies this`asks
      ensures match Force(w, old(View()))
              case Exhausted(l, turn) => left.None? && forced == Some(turn) && View() == l
              case Left(o) => left == Some(o) && forced.None? && o.at == View()
              case Through(_) => false
    {
      forced := Respond([]);
      left := if forced.None? then Some(NoAnswer(Loop(results, transcript, called, rounds, asks))) else None;
    }

    /** One call of a turn; `forced` when the provider then had to answer without tools. */
    method RunCall(call: ToolCall) returns (left: Option<Outcome>, forced: Option<Turn>)
      requires Valid()
      modifies this`results, this`transcript, this`ledger, this`toolCalls, this`redundant, this`called, this`executed, this`asks
      ensures Valid()
      ensures match OneCall(p, w, old(View()), call)
              case Through(l) => left.None? && forced.None? && View() == l
              case Exhausted(l, turn) => left.None? && forced == Some(turn) && View() == l
              case Left(o) => left == Some(o) && o.at == View()
    {
      left, forced := None, None;
      if toolCalls >= Budget(p) {
        left, forced := ForceAnswer();
      } else if call.name !in p.registry {
        left := Some(UnknownTool(Loop(results, transcript, called, rounds, asks)));
      } else {
        left, forced := CallOnce(p.repair(call));
      }
    }

    /** A call within the budget; the second redundant one forces an answer. */
    method CallOnce(key: Key) returns (left: Option<Outcome>, forced: Option<Turn>)
      requires Valid()
      modifies this`results, this`transcript, this`ledger, this`toolCalls, this`redundant, this`called, this`executed, this`asks
      ensures Valid()
      ensures match AfterCall(w, old(View()), key)
              case Through(l) => left.None? && forced.None? && View() == l
              case Exhausted(l, turn) => left.None? && forced == Some(turn) && View() == l
              case Left(o) => left == Some(o) && o.at == View()
    {
      left, forced := None, None;
      var go := CallTool(key);
      if !go {
        left := Some(Suspended(Loop(results, transcript, called, rounds, asks)));
      } else if redundant >= 2 {
        left, forced := ForceAnswer();
      }
    }

    method RunCalls(calls: seq<ToolCall>) returns (left: Option<Outcome>, forced: Option<Turn>)
      requires Valid()
      modifies this`results, this`transcript, this`ledger, this`toolCalls, this`redundant, this`called, this`executed, this`asks
      ensures Valid()
      ensures match Calls(p, w, old(View()), calls)
              case Through(l) => left.None? && forced.None? && View() == l
              case Exhausted(l, turn) => left.None? && forced == Some(turn) && View() == l
              case Left(o) => left == Some(o) && o.at == View()
    {
      left, forced := None, None;
      for i := 0 to |calls|
        invariant Valid() && left.None? && forced.None?
        invariant Calls(p, w, View(), calls[i..]) == Calls(p, w, old(View()), calls)
      {
        assert calls[i..][0] == calls[i] && calls[i..][1..] == calls[i + 1..];
        left, forced := RunCall(calls[i]);
        if left.Some? || forced.Some? { return; }
      }
    }

    method RunFollowups() returns (ok: bool)
      requires Valid()
      modifies this`results, this`transcript, this`ledger, this`toolCalls, this`redundant, this`called, this`executed
      ensures Valid()
      ensures match Followups(p, w, old(View()), p.followups)
              case Ok(l) => ok && View() == l
              case Err(o) => !ok && o == Suspended(View())
    {
      for i := 0 to |p.followups|
        invariant Valid()
        invariant Followups(p, w, View(), p.followups[i..]) == Followups(p, w, old(View()), p.followups)
      {
        assert p.followups[i..][0] == p.followups[i] && p.followups[i..][1..] == p.followups[i + 1..];
        if toolCalls >= Budget(p) { return true; }
        var key := p.followupKey(p.followups[i]);
        var go := CallTool(key);
        if !go { return false; }
      }
      return true;
    }

    method Finish(turn: Turn) returns (o: Outcome)
      requires Valid()
      modifies this`asks
      ensures Valid() && o == Conclude(w, old(View()), turn) && o.at == View()
    {
      var last := Some(turn);
      if turn.calls != [] { last := Respond([]); }
      var now := Loop(results, transcript, called, rounds, asks);
      if last.None? { return NoAnswer(now); }
      if w.cancelled(AtEnd) { return Stopped(now); }
      return Answered(now, last.value);
    }

    method OpenRound(tools: seq<string>) returns (turn: Option<Turn>)
      modifies this`asks, this`rounds, this`transcript
      ensures (turn, View()) == Open(w, old(View()), tools)
    {
      turn := Respond(tools);
      rounds := rounds + 1;
      if turn.Some? { transcript := transcript + [Assistant(turn.value)]; }
    }

    method RunRounds(shown: seq<string>) returns (o: Outcome)
      requires Valid()
      modifies this
      ensures Valid() && o == Rounds(p, w, old(View()), shown, p.tools, NoTurn) && o.at == View()
    {
      var turn, tools := NoTurn, shown;
      while rounds < MAX_ROUNDS
        invariant Valid()
        invariant Rounds(p, w, View(), tools, p.tools, turn) == Rounds(p, w, old(View()), shown, p.tools, NoTurn)
        decreases MAX_ROUNDS - rounds
      {
        if w.cancelled(AtRound(rounds)) { return Stopped(Loop(results, transcript, called, rounds, asks)); }
        var answer := OpenRound(tools);
        if answer.None? { return NoAnswer(Loop(results, transcript, called, rounds, asks)); }
        turn := answer.value;
        if turn.calls == [] { break; }
        var left, forced := RunCalls(turn.calls);
        if left.Some? { return left.value; }
        if forced.Some? {
          turn := forced.value;
          break;
        }
        if p.forcedFirst.Some? && rounds == 1 {
          tools := p.tools;
          var ok := RunFollowups();
          if !ok { return Suspended(Loop(results, transcript, called, rounds, asks)); }
        }
      }
      o := Finish(turn);
    }

    method Go() returns (o: Outcome)
      requires Valid() && View() == Loop(initial, [], [], 0, 0)
      modifies this
      ensures Valid() && o == Run(p, w, initial) && o.at == View()
    {
      if p.baseline {
        var ok := CollectBaseline();
        if !ok { return Suspended(Loop(results, transcript, called, rounds, asks)); }
      }
      var ok := InvestigateTop();
      if !ok { return Suspended(Loop(results, transcript, called, rounds, asks)); }
      if Shortcut(p) {
        rounds := 1;
        o := Finish(NoTurn);
      } else {
        var shown := FirstTools(p, p.tools);
        if p.baseline { shown := Without(shown, BaselineNames(p)); }
        o := RunRounds(shown);
      }
    }
  }

  predicate Distinct(s: seq<Key>) { forall i, j :: 0 <= i < j < |s| ==> s[i] != s[j] }

  /** `execute` with its ledger is told by the story of a loop without one: round after round every call
      of every turn in order, each with the result its tool returns, until one of the endings.  Yet every
      distinct call reaches a tool exactly once, and the bounds on rounds, provider turns and calls hold. */
  method Execute(p: Plan, w: World, initial: seq<ToolResult>) returns (o: Outcome, executed: seq<Key>)
    ensures LoopStory.Told(p, w, initial, o) && Bounded(p, o)
    ensures Distinct(executed) && (forall k :: k in executed <==> k in o.at.called)
    ensures ResultsOk(w, initial, o.at.results, o.at.called)
  {
    var execution := new Execution(p, w, initial);
    o := execution.Go();
    executed := execution.executed;
    RunIsBounded(p, w, initial);
    LoopStory.RunIsTold(p, w, initial);
    DedupIsDistinct(o.at.called);
  }
}
