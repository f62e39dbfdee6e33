/** Reachability between states of the PCAP job machine. */
module PcapRuns {
  import opened JobErrors
  import opened PcapMachine

  ghost predicate Reaches(s: State, t: State) {
    exists trace :: Runs(s, trace) && After(s, trace) == t
  }

  lemma {:induction false} RunsAppend(s: State, trace: seq<Action>, a: Action)
    requires Runs(s, trace) && Enabled(After(s, trace), a)
    ensures Runs(s, trace + [a]) && After(s, trace + [a]) == Next(After(s, trace), a)
    decreases |trace|
  {
    if trace == [] {
      assert trace + [a] == [a] && [a][1..] == [];
    } else {
      RunsAppend(Next(s, trace[0]), trace[1..], a);
      assert (trace + [a])[1..] == trace[1..] + [a];
    }
  }

  lemma ReachesSelf(s: State)
    ensures Reaches(s, s)
  {
    assert Runs(s, []) && After(s, []) == s;
  }

  lemma ReachesNext(s: State, t: State, a: Action)
    requires Reaches(s, t) && Enabled(t, a)
    ensures Reaches(s, Next(t, a))
  {
    var trace :| Runs(s, trace) && After(s, trace) == t;
    RunsAppend(s, trace, a);
  }

  // ---------------------------------------------------------------- what the engine reports

  predicate Reports(a: Action, allowed: Analysis -> bool) {
    a.Analyze? ==> allowed(a.analysis)
  }

  /** Reachable by a run in which analyses end in allowed ways only. */
  ghost predicate ReachesReporting(allowed: Analysis -> bool, s: State, t: State) {
    exists trace :: ReportingRun(allowed, s, trace) && After(s, trace) == t
  }

  ghost predicate ReportingRun(allowed: Analysis -> bool, s: State, trace: seq<Action>) {
    Runs(s, trace) && forall i :: 0 <= i < |trace| ==> Reports(trace[i], allowed)
  }

  lemma ReportingSelf(allowed: Analysis -> bool, s: State)
    ensures ReachesReporting(allowed, s, s)
  {
    assert ReportingRun(allowed, s, []) && After(s, []) == s;
  }

  lemma ReportingNext(allowed: Analysis -> bool, s: State, t: State, a: Action)
    requires ReachesReporting(allowed, s, t) && Enabled(t, a) && Reports(a, allowed)
    ensures ReachesReporting(allowed, s, Next(t, a))
  {
    var trace :| ReportingRun(allowed, s, trace) && After(s, trace) == t;
    RunsAppend(s, trace, a);
    assert ReportingRun(allowed, s, trace + [a]);
  }

  // ---------------------------------------------------------------- the same, without naming the run

  /** `P` survives every step of the machine. */
  ghost predicate Closed(P: State -> bool) {
    forall s, a :: P(s) && Enabled(s, a) ==> P(Next(s, a))
  }

  lemma Keep(P: State -> bool, s: State, a: Action, t: State)
    requires Closed(P) && P(s) && Enabled(s, a) && Next(s, a) == t
    ensures P(t)
  {
  }

  lemma {:induction false} RunKeeps(P: State -> bool, s: State, trace: seq<Action>)
    requires Closed(P) && P(s) && Runs(s, trace)
    ensures P(After(s, trace))
    decreases |trace|
  {
    if trace != [] { RunKeeps(P, Next(s, trace[0]), trace[1..]); }
  }

  lemma ReachableIsClosed(s: State)
    ensures Closed(t => Reaches(s, t)) && Reaches(s, s)
  {
    ReachesSelf(s);
    forall t, a | Reaches(s, t) && Enabled(t, a) ensures Reaches(s, Next(t, a)) { ReachesNext(s, t, a); }
  }

  /** Being reachable is being in every closed set the start is in, so an operation that keeps
      every closed predicate is a run of the machine. */
  lemma KeepingIsReaching(s: State, t: State)
    ensures Reaches(s, t) <==> forall P: State -> bool :: Closed(P) && P(s) ==> P(t)
  {
    if Reaches(s, t) {
      var trace :| Runs(s, trace) && After(s, trace) == t;
      forall P: State -> bool | Closed(P) && P(s) ensures P(t) { RunKeeps(P, s, trace); }
    } else {
      ReachableIsClosed(s);
      assert !(u => Reaches(s, u))(t);
    }
  }
}
