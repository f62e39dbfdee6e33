/**
 The resumable release gates (tools/release.py, `run_gate_suite`).  The digest of the inputs is
 represented by the bytes it is taken over, SHA-256 being taken as injective.
 */
module ReleaseGates {
  import opened Wrappers
  import opened Base64Url
  import opened InputDigest

  datatype Gate = Gate(name: string, command: seq<string>)

  /** How a command ended; None is a timeout. */
  type Exit = Option<int>

  datatype Entry = Entry(command: seq<string>, exit: Exit, reused: bool)

  predicate Passed(e: Entry) { e.exit == Some(0) }

  /** summary.json */
  datatype Summary = Summary(digest: seq<byte>, gates: map<string, Entry>)

  /** A command that really ran. */
  datatype Run = Run(command: seq<string>, inputs: seq<Input>, exit: Exit)

  /** Where one invocation stands: results so far, everything run so far, gates done, and whether a
      gate stopped it. */
  datatype Progress = Progress(results: map<string, Entry>, runs: seq<Run>, done: nat, stopped: bool)

  /** One call: `exits` says how each command would end, `survives` how many gates it lives to record. */
  datatype Invocation = Invocation(inputs: seq<Input>, gates: seq<Gate>, resume: bool, exits: seq<Exit>, survives: nat)

  predicate WellPosed(v: Invocation) {
    WellFormed(v.inputs) && |v.exits| == |v.gates| && v.survives <= |v.gates|
  }

  predicate Reusable(previous: Option<Summary>, v: Invocation, gate: Gate)
    requires WellPosed(v)
  {
    && v.resume && previous.Some? && previous.value.digest == Stream(v.inputs)
    && gate.name in previous.value.gates
    && Passed(previous.value.gates[gate.name]) && previous.value.gates[gate.name].command == gate.command
  }

  function Advance(previous: Option<Summary>, v: Invocation, p: Progress): Progress
    requires WellPosed(v) && p.done < |v.gates|
  {
    var gate := v.gates[p.done];
    if Reusable(previous, v, gate) then
      p.(results := p.results[gate.name := previous.value.gates[gate.name].(reused := true)], done := p.done + 1)
    else
      var exit := v.exits[p.done];
      Progress(p.results[gate.name := Entry(gate.command, exit, false)],
               p.runs + [Run(gate.command, v.inputs, exit)], p.done + 1, exit != Some(0))
  }

  /** The state after `n` turns of the loop. */
  function Turns(previous: Option<Summary>, runs: seq<Run>, v: Invocation, n: nat): (p: Progress)
    requires WellPosed(v) && n <= |v.gates|
    ensures p.done <= n && (!p.stopped ==> p.done == n)
  {
    if n == 0 then Progress(map[], runs, 0, false)
    else
      var p := Turns(previous, runs, v, n - 1);
      if p.stopped then p else Advance(previous, v, p)
  }

  datatype World = World(summary: Option<Summary>, runs: seq<Run>)

  /** Each gate is recorded as soon as it is decided, so a call that dies leaves what it had. */
  function Perform(w: World, v: Invocation): World
    requires WellPosed(v)
  {
    var p := Turns(w.summary, w.runs, v, v.survives);
    World(if p.done == 0 then w.summary else Some(Summary(Stream(v.inputs), p.results)), p.runs)
  }

  // ---------------------------------------------------------------- what the record means

  /** Every recorded pass is a command that ran to exit 0 on inputs with the recorded digest. */
  ghost predicate Sound(w: World) {
    w.summary.Some? ==> Backed(w.summary.value.gates, w.summary.value.digest, w.runs)
  }

  ghost predicate Backed(gates: map<string, Entry>, digest: seq<byte>, runs: seq<Run>) {
    forall name :: name in gates && Passed(gates[name]) ==> Ran(gates[name].command, digest, runs)
  }

  ghost predicate Ran(command: seq<string>, digest: seq<byte>, runs: seq<Run>) {
    exists i :: 0 <= i < |runs| && runs[i].command == command && runs[i].exit == Some(0)
                && WellFormed(runs[i].inputs) && Stream(runs[i].inputs) == digest
  }

  lemma RanStays(command: seq<string>, digest: seq<byte>, runs: seq<Run>, more: seq<Run>)
    requires Ran(command, digest, runs) && runs <= more
    ensures Ran(command, digest, more)
  {
    var i :| 0 <= i < |runs| && runs[i].command == command && runs[i].exit == Some(0)
      && WellFormed(runs[i].inputs) && Stream(runs[i].inputs) == digest;
    assert more[i] == runs[i];
  }

  lemma {:induction false} TurnsAreSound(w: World, v: Invocation, n: nat)
    requires WellPosed(v) && n <= |v.gates| && Sound(w)
    ensures var p := Turns(w.summary, w.runs, v, n);
      w.runs <= p.runs && Backed(p.results, Stream(v.inputs), p.runs)
  {
    if n > 0 {
      TurnsAreSound(w, v, n - 1);
      var p := Turns(w.summary, w.runs, v, n - 1);
      if !p.stopped { AdvanceIsSound(w, v, p); }
    }
  }

  lemma AdvanceIsSound(w: World, v: Invocation, p: Progress)
    requires WellPosed(v) && p.done < |v.gates| && Sound(w) && w.runs <= p.runs && Backed(p.results, Stream(v.inputs), p.runs)
    ensures var q := Advance(w.summary, v, p); p.runs <= q.runs && Backed(q.results, Stream(v.inputs), q.runs)
  {
    var q, gate := Advance(w.summary, v, p), v.gates[p.done];
    forall name | name in q.results && Passed(q.results[name]) ensures Ran(q.results[name].command, Stream(v.inputs), q.runs) {
      if name != gate.name {
        RanStays(p.results[name].command, Stream(v.inputs), p.runs, q.runs);
      } else if Reusable(w.summary, v, gate) {
        RanStays(gate.command, Stream(v.inputs), w.runs, q.runs);
      } else {
        assert q.runs[|p.runs|] == Run(gate.command, v.inputs, Some(0));
      }
    }
  }

  function PerformAll(w: World, vs: seq<Invocation>): World
    requires forall i :: 0 <= i < |vs| ==> WellPosed(vs[i])
    decreases |vs|
  {
    if vs == [] then w else PerformAll(Perform(w, vs[0]), vs[1..])
  }

  lemma {:induction false} ChainIsSound(w: World, vs: seq<Invocation>)
    requires Sound(w) && forall i :: 0 <= i < |vs| ==> WellPosed(vs[i])
    ensures Sound(PerformAll(w, vs)) && w.runs <= PerformAll(w, vs).runs
    decreases |vs|
  {
    if vs != [] {
      TurnsAreSound(w, vs[0], vs[0].survives);
      TurnsAreSound(w, vs[0], 0);
      ChainIsSound(Perform(w, vs[0]), vs[1..]);
    }
  }

  /** Over any chain of resumed and interrupted calls, a recorded pass whose digest is that of some
      inputs means that this very command ran to exit 0 on exactly these inputs. */
  lemma RecordedPassesAreReal(vs: seq<Invocation>, inputs: seq<Input>, name: string)
    requires forall i :: 0 <= i < |vs| ==> WellPosed(vs[i])
    requires WellFormed(inputs)
    requires var s := PerformAll(World(None, []), vs).summary;
      s.Some? && s.value.digest == Stream(inputs) && name in s.value.gates && Passed(s.value.gates[name])
    ensures var w := PerformAll(World(None, []), vs);
      Run(w.summary.value.gates[name].command, inputs, Some(0)) in w.runs
  {
    var w := PerformAll(World(None, []), vs);
    ChainIsSound(World(None, []), vs);
    var command := w.summary.value.gates[name].command;
    assert Ran(command, w.summary.value.digest, w.runs);
    var i :| 0 <= i < |w.runs| && w.runs[i].command == command && w.runs[i].exit == Some(0)
      && WellFormed(w.runs[i].inputs) && Stream(w.runs[i].inputs) == w.summary.value.digest;
    StreamIsInjective(w.runs[i].inputs, inputs);
  }

  /** The last of the first `n` gates with this name. */
  function LastNamed(gates: seq<Gate>, n: nat, name: string): (r: Option<nat>)
    requires n <= |gates|
    ensures r.Some? ==> r.value < n && gates[r.value].name == name
    ensures r.None? ==> forall i :: 0 <= i < n ==> gates[i].name != name
  {
    if n == 0 then None else if gates[n - 1].name == name then Some(n - 1) else LastNamed(gates, n - 1, name)
  }

  /** What is recorded is a prefix of what was asked for: each of its gates with its own command (a
      name asked for twice keeps the later one), and only the last one possibly not passed. */
  ghost predicate IsPrefixRecord(gates: seq<Gate>, results: map<string, Entry>, n: nat, stopped: bool) {
    && n <= |gates|
    && (forall name :: name in results <==> LastNamed(gates, n, name).Some?)
    && (forall name :: name in results ==> results[name].command == gates[LastNamed(gates, n, name).value].command)
    && (forall name :: name in results && !Passed(results[name]) ==> stopped && LastNamed(gates, n, name) == Some(n - 1))
    && (stopped ==> n > 0 && gates[n - 1].name in results && !Passed(results[gates[n - 1].name]))
  }

  lemma RecordGrows(gates: seq<Gate>, results: map<string, Entry>, n: nat, e: Entry)
    requires n < |gates| && IsPrefixRecord(gates, results, n, false) && e.command == gates[n].command
    ensures IsPrefixRecord(gates, results[gates[n].name := e], n + 1, !Passed(e))
  {
  }

  lemma AdvanceIsPrefix(previous: Option<Summary>, v: Invocation, p: Progress)
    requires WellPosed(v) && p.done < |v.gates| && !p.stopped && IsPrefixRecord(v.gates, p.results, p.done, p.stopped)
    ensures var q := Advance(previous, v, p); IsPrefixRecord(v.gates, q.results, q.done, q.stopped)
  {
    var gate := v.gates[p.done];
    RecordGrows(v.gates, p.results, p.done,
                if Reusable(previous, v, gate) then previous.value.gates[gate.name].(reused := true)
                else Entry(gate.command, v.exits[p.done], false));
  }

  lemma {:induction false} RecordIsPrefix(previous: Option<Summary>, runs: seq<Run>, v: Invocation, n: nat)
    requires WellPosed(v) && n <= |v.gates|
    ensures var p := Turns(previous, runs, v, n); IsPrefixRecord(v.gates, p.results, p.done, p.stopped)
  {
    if n > 0 {
      RecordIsPrefix(previous, runs, v, n - 1);
      var p := Turns(previous, runs, v, n - 1);
      if !p.stopped { AdvanceIsPrefix(previous, v, p); }
    }
  }

  // ---------------------------------------------------------------- what a call runs

  /** The call resumes, and the gate passed before: the same command, on inputs with the same digest. */
  predicate PassedBefore(previous: Option<Summary>, v: Invocation, gate: Gate)
    requires WellPosed(v)
  {
    && v.resume && previous != None && previous.value.digest == Stream(v.inputs) && gate.name in previous.value.gates
    && previous.value.gates[gate.name].exit == Some(0) && previous.value.gates[gate.name].command == gate.command
  }

  /** What the first n gates run: in order, those that did not pass before. */
  function RunsOf(previous: Option<Summary>, v: Invocation, n: nat): seq<Run>
    requires WellPosed(v) && n <= |v.gates|
  {
    if n == 0 then []
    else RunsOf(previous, v, n - 1) +
         if PassedBefore(previous, v, v.gates[n - 1]) then [] else [Run(v.gates[n - 1].command, v.inputs, v.exits[n - 1])]
  }

  /** Gate i is decided as it should be: reused as recorded, or run and recorded as it ended. */
  predicate DecidedSo(previous: Option<Summary>, v: Invocation, i: nat, e: Entry)
    requires WellPosed(v) && i < |v.gates|
  {
    e == if PassedBefore(previous, v, v.gates[i]) then Entry(v.gates[i].command, Some(0), true)
         else Entry(v.gates[i].command, v.exits[i], false)
  }

  /** A call decides gate after gate until one does not pass or it dies: a gate that passed before is
      reused and not run again, every other one is run. */
  lemma {:induction false} GatesAreDecided(previous: Option<Summary>, runs: seq<Run>, v: Invocation, n: nat)
    requires WellPosed(v) && n <= |v.gates|
    ensures var p := Turns(previous, runs, v, n);
      && p.runs == runs + RunsOf(previous, v, p.done)
      && (forall name :: name in p.results ==>
            LastNamed(v.gates, p.done, name).Some? && DecidedSo(previous, v, LastNamed(v.gates, p.done, name).value, p.results[name]))
      && (p.done < n <==> exists i :: 0 <= i < n - 1 && !PassedBefore(previous, v, v.gates[i]) && v.exits[i] != Some(0))
      && (p.stopped <==> exists i :: 0 <= i < n && !PassedBefore(previous, v, v.gates[i]) && v.exits[i] != Some(0))
  {
    if n == 0 {
      assert runs + [] == runs;
    } else {
      GatesAreDecided(previous, runs, v, n - 1);
      var p := Turns(previous, runs, v, n - 1);
      if !p.stopped {
        assert p.done == n - 1;
        var q, gate := Advance(previous, v, p), v.gates[n - 1];
        assert Reusable(previous, v, gate) == PassedBefore(previous, v, gate);
        assert q.runs == runs + RunsOf(previous, v, n);
        DecidedMore(previous, v, p, q);
      }
    }
  }

  lemma DecidedMore(previous: Option<Summary>, v: Invocation, p: Progress, q: Progress)
    requires WellPosed(v) && p.done < |v.gates| && q == Advance(previous, v, p)
    requires forall name :: name in p.results ==>
      LastNamed(v.gates, p.done, name).Some? && DecidedSo(previous, v, LastNamed(v.gates, p.done, name).value, p.results[name])
    ensures forall name :: name in q.results ==>
      LastNamed(v.gates, q.done, name).Some? && DecidedSo(previous, v, LastNamed(v.gates, q.done, name).value, q.results[name])
  {
    var gate := v.gates[p.done];
    assert Reusable(previous, v, gate) == PassedBefore(previous, v, gate);
  }

  lemma {:induction false} NothingToRun(previous: Option<Summary>, v: Invocation, n: nat)
    requires WellPosed(v) && n <= |v.gates| && forall i :: 0 <= i < n ==> PassedBefore(previous, v, v.gates[i])
    ensures RunsOf(previous, v, n) == []
  {
    if n > 0 { NothingToRun(previous, v, n - 1); }
  }

  /** Resuming a suite whose gates, of different names, all passed on the same inputs runs nothing. */
  lemma ResumingRunsNothing(w: World, v: Invocation, again: Invocation)
    requires WellPosed(v) && WellPosed(again) && v.survives == |v.gates| > 0 && again.resume
    requires again.gates == v.gates && again.inputs == v.inputs
    requires forall i, j :: 0 <= i < j < |v.gates| ==> v.gates[i].name != v.gates[j].name
    requires forall i :: 0 <= i < |v.gates| ==> v.exits[i] == Some(0)
    ensures Perform(Perform(w, v), again).runs == Perform(w, v).runs
  {
    var p := Turns(w.summary, w.runs, v, |v.gates|);
    GatesAreDecided(w.summary, w.runs, v, |v.gates|);
    RecordIsPrefix(w.summary, w.runs, v, |v.gates|);
    var u := Perform(w, v);
    forall i | 0 <= i < |v.gates| ensures PassedBefore(u.summary, again, v.gates[i]) {
      var k := LastNamed(v.gates, |v.gates|, v.gates[i].name);
      assert k == Some(i);
      assert v.gates[i].name in p.results;
    }
    GatesAreDecided(u.summary, u.runs, again, again.survives);
    var q := Turns(u.summary, u.runs, again, again.survives);
    NothingToRun(u.summary, again, q.done);
    assert u.runs + [] == u.runs;
  }

  // ---------------------------------------------------------------- the loop

  class GateRunner {
    var summary: Option<Summary>
    ghost var runs: seq<Run>

    ghost function Snapshot(): World
      reads this
    {
      World(summary, runs)
    }

    constructor ()
      ensures Snapshot() == World(None, []) && Sound(Snapshot())
    {
      summary, runs := None, [];
    }

    method RunGateSuite(v: Invocation)
      requires WellPosed(v)
      modifies this
      ensures Snapshot() == Perform(old(Snapshot()), v)
      ensures Sound(old(Snapshot())) ==> Sound(Snapshot())
    {
      var previous := if v.resume then summary else None;
      var digest := Digest(v.inputs);
      var results: map<string, Entry> := map[];
      var n, stopped := 0, false;
      while n < v.survives && !stopped
        invariant n <= v.survives
        invariant Progress(results, runs, n, stopped) == Turns(old(summary), old(runs), v, n)
        invariant summary == if n == 0 then old(summary) else Some(Summary(digest, results))
        decreases v.survives - n
      {
        var gate := v.gates[n];
        if previous.Some? && previous.value.digest == digest && gate.name in previous.value.gates &&
           Passed(previous.value.gates[gate.name]) && previous.value.gates[gate.name].command == gate.command {
          results := results[gate.name := previous.value.gates[gate.name].(reused := true)];
        } else {
          var exit := v.exits[n];
          runs := runs + [Run(gate.command, v.inputs, exit)];
          results := results[gate.name := Entry(gate.command, exit, false)];
          stopped := exit != Some(0);
        }
        n := n + 1;
        summary := Some(Summary(digest, results));
      }
      StoppedStays(old(summary), old(runs), v, n, v.survives);
      if Sound(old(Snapshot())) { ChainIsSound(old(Snapshot()), [v]); }
    }
  }

  lemma {:induction false} StoppedStays(previous: Option<Summary>, runs: seq<Run>, v: Invocation, n: nat, m: nat)
    requires WellPosed(v) && n <= m <= |v.gates|
    requires Turns(previous, runs, v, n).stopped || n == m
    ensures Turns(previous, runs, v, m) == Turns(previous, runs, v, n)
    decreases m
  {
    if n < m { StoppedStays(previous, runs, v, n, m - 1); }
  }
}
