/** What the PCAP job manager promises over whole runs, crashes and restarts included. */
module PcapTheorems {
  import opened Wrappers
  import opened JobErrors
  import opened PcapMachine
  import opened PcapInvariants
  import opened PcapRuns

  lemma NextInv(s: State, a: Action)
    requires Inv(s) && Enabled(s, a)
    ensures Inv(Next(s, a))
  {
    forall i ensures SliceOk(SliceOf(Next(s, a), i)) {
      assert SliceOk(SliceOf(s, i));
      NextSlice(s, a, i);
    }
    NextQueues(s, a);
    NextKeys(s, a);
    NextReclaimed(s, a);
  }

  lemma {:induction false} RunInv(s: State, trace: seq<Action>)
    requires Inv(s) && Runs(s, trace)
    ensures Inv(After(s, trace))
    decreases |trace|
  {
    if trace != [] {
      NextInv(s, trace[0]);
      RunInv(Next(s, trace[0]), trace[1..]);
    }
  }

  lemma ReachesInv(s: State, t: State)
    requires Inv(s) && Reaches(s, t)
    ensures Inv(t)
  {
    var trace :| Runs(s, trace) && After(s, trace) == t;
    RunInv(s, trace);
  }

  // ---------------------------------------------------------------- evidence left behind

  /** No decrypted file, no keylog file or row and, unless the input is kept, no capture file or row. */
  predicate NothingLeft(s: State, j: JobId, retained: bool) {
    && Active(j, Pcap) !in s.store.disk && Active(j, TlsKeylog) !in s.store.disk
    && Cipher(j, TlsKeylog) !in s.store.disk && EnvelopeId(j, TlsKeylog) !in s.store.envelopes
    && (!retained ==> Cipher(j, Pcap) !in s.store.disk && EnvelopeId(j, Pcap) !in s.store.envelopes)
  }

  predicate CleanupPending(status: Status, error: Option<string>) {
    error == Some(CLEANUP_PENDING) && !status.Complete?
  }

  /** A terminal job, persisted or in memory, either says that its cleanup is pending (and is not
      complete) or has left nothing behind. */
  predicate Accounted(s: State, j: JobId) {
    && (j in s.store.rows && Terminal(s.store.rows[j].status) ==>
          || CleanupPending(s.store.rows[j].status, s.store.rows[j].error)
          || NothingLeft(s, j, s.store.rows[j].retained))
    && (j in s.memory.jobs && Terminal(s.memory.jobs[j].status) ==>
          || CleanupPending(s.memory.jobs[j].status, s.memory.jobs[j].error)
          || NothingLeft(s, j, s.memory.jobs[j].retained))
  }

  /** Every job whose engine reported a terminal status is accounted for in every reachable state. */
  lemma TerminalJobsAreAccountedFor(s0: State, trace: seq<Action>, j: JobId)
    requires Initial(s0) && Runs(s0, trace)
    requires j !in After(s0, trace).history.odd
    ensures Accounted(After(s0, trace), j)
  {
    InitialInv(s0);
    RunInv(s0, trace);
    assert SliceOk(SliceOf(After(s0, trace), j));
  }

  /** What the engine says, if it says anything, is a terminal status. */
  predicate TerminalReport(a: Analysis) { a.Raised? || Terminal(a.status) }

  /** A report that says complete can be read to its end. */
  predicate ReadableReport(a: Analysis) { !(a.Malformed? && a.status.Complete?) }

  lemma OddIff(c: Config, a: Analysis)
    ensures Terminal(Conclude(c, a).0) <==> TerminalReport(a)
  {
  }

  /** Nothing but the engine's report makes a job odd, or complete without its index. */
  lemma {:induction false} HonestReports(allowed: Analysis -> bool, s: State, trace: seq<Action>)
    requires ReportingRun(allowed, s, trace)
    ensures s.history.odd == {} && (forall a :: allowed(a) ==> TerminalReport(a)) ==> After(s, trace).history.odd == {}
    ensures s.history.malformed == {} && (forall a :: allowed(a) ==> ReadableReport(a)) ==> After(s, trace).history.malformed == {}
    decreases |trace|
  {
    if trace != [] {
      assert Reports(trace[0], allowed);
      HonestStep(allowed, s, trace[0]);
      assert forall i :: 0 <= i < |trace| - 1 ==> trace[1..][i] == trace[i + 1];
      HonestReports(allowed, Next(s, trace[0]), trace[1..]);
    }
  }

  lemma HonestStep(allowed: Analysis -> bool, s: State, a: Action)
    requires Enabled(s, a) && Reports(a, allowed)
    ensures s.history.odd == {} && (forall x :: allowed(x) ==> TerminalReport(x)) ==> Next(s, a).history.odd == {}
    ensures s.history.malformed == {} && (forall x :: allowed(x) ==> ReadableReport(x)) ==> Next(s, a).history.malformed == {}
  {
    match a {
      case Advance(j) =>
      case Undo(j, ok) =>
      case Finish(ok) =>
      case Restore(ok) =>
      case Analyze(x) => OddIff(s.config, x);
      case _ =>
    }
  }

  /** A complete job left nothing behind, and with a builder its packet index was persisted, unless its
      report was malformed. */
  lemma CompleteIsClean(s0: State, trace: seq<Action>, j: JobId)
    requires Initial(s0) && Runs(s0, trace)
    ensures var s := After(s0, trace);
      j in s.store.rows && s.store.rows[j].status.Complete? ==>
        && NothingLeft(s, j, s.store.rows[j].retained)
        && (s.config.hasBuilder ==> j in s.store.indexed || j in s.history.malformed)
        && j !in s.history.odd
  {
    InitialInv(s0);
    RunInv(s0, trace);
    assert SliceOk(SliceOf(After(s0, trace), j));
  }

  /** A job concludes as complete exactly when the engine said so and the report either broke right
      after that, or the index (if one is built) was persisted and the dissection (if one is made) did
      not fail to be published.  A dissector that raises leaves the status, as a broken report does:
      complete does not exclude an error. */
  lemma ConcludesCompleteIff(c: Config, a: Analysis)
    ensures var (status, error, index) := Conclude(c, a);
      && (status.Complete? <==>
            !a.Raised? && a.status.Complete? &&
              (a.Malformed? || ((c.hasBuilder ==> a.index.IndexBuilt?) && (c.hasDissector ==> !a.dissection.PublicationFailed?))))
      && (index <==> c.hasBuilder && a.Reported? && Usable(a.status) && a.index.IndexBuilt?)
      && (status.Complete? && error.Some? <==>
            status.Complete? && (a.Malformed? || a.error.Some? || (c.hasDissector && a.dissection.DissectorRaised?)))
  {
  }

  // ---------------------------------------------------------------- terminal states are final

  lemma RowStep(s: State, a: Action, j: JobId)
    requires Inv(s) && Enabled(s, a)
    requires j in s.store.rows && Terminal(s.store.rows[j].status)
    ensures j in Next(s, a).store.rows
    ensures Next(s, a).store.rows[j].status == s.store.rows[j].status
    ensures s.store.rows[j].error == Some(CLEANUP_PENDING) ==> Next(s, a).store.rows[j].error == Some(CLEANUP_PENDING)
  {
    assert SliceOk(SliceOf(s, j));
    match a {
      case Advance(i) =>
      case Undo(i, ok) =>
      case Finish(ok) =>
      case Restore(ok) => RestoreRowStep(s, ok, j);
      case _ =>
    }
  }

  lemma RestoreRowStep(s: State, ok: bool, j: JobId)
    requires CanRestore(s, ok) && SliceOk(SliceOf(s, j))
    requires j in s.store.rows && Terminal(s.store.rows[j].status)
    ensures var t := DoRestore(s, ok);
      && j in t.store.rows && t.store.rows[j].status == s.store.rows[j].status
      && (s.store.rows[j].error == Some(CLEANUP_PENDING) ==> t.store.rows[j].error == Some(CLEANUP_PENDING))
  {
    if s.process.cursor.Some? {
      match s.process.cursor.value.stage {
        case Save => CleanupTextIsKept(s.store.rows[j].status);
        case _ =>
      }
    }
  }

  /** A persisted terminal status never changes again, through cancels, shutdowns, crashes and any
      number of restarts; nor is a pending-cleanup flag ever cleared, even once a later restart
      did remove the files. */
  lemma {:induction false} TerminalIsFinal(s: State, trace: seq<Action>, j: JobId)
    requires Inv(s) && Runs(s, trace)
    requires j in s.store.rows && Terminal(s.store.rows[j].status)
    ensures j in After(s, trace).store.rows
    ensures After(s, trace).store.rows[j].status == s.store.rows[j].status
    ensures s.store.rows[j].error == Some(CLEANUP_PENDING)
            ==> After(s, trace).store.rows[j].error == Some(CLEANUP_PENDING)
    decreases |trace|
  {
    if trace != [] {
      RowStep(s, trace[0], j);
      NextInv(s, trace[0]);
      TerminalIsFinal(Next(s, trace[0]), trace[1..], j);
    }
  }

  /** While the process lives, a terminal job in memory is never touched either: cancel, shutdown
      and the worker all leave it as it is. */
  lemma TerminalJobIsLeftAlone(s: State, a: Action, j: JobId)
    requires Inv(s) && Enabled(s, a) && s.process.Up? && !a.Crash?
    requires j in s.memory.jobs && Terminal(s.memory.jobs[j].status)
    ensures j in Next(s, a).memory.jobs && Next(s, a).memory.jobs[j] == s.memory.jobs[j]
  {
    assert SliceOk(SliceOf(s, j));
    match a {
      case Advance(i) =>
      case Undo(i, ok) =>
      case Finish(ok) =>
      case Abandon =>
      case _ =>
    }
  }

  /** `_finish` publishes a job at most once. */
  lemma PublishedOnce(s0: State, trace: seq<Action>, ok: bool)
    requires Initial(s0) && Runs(s0, trace)
    requires Enabled(After(s0, trace), Finish(ok)) && After(s0, trace).memory.worker.stage.Publish?
    ensures After(s0, trace).memory.worker.job !in After(s0, trace).history.published
    ensures !Terminal(After(s0, trace).memory.jobs[After(s0, trace).memory.worker.job].status)
  {
    InitialInv(s0);
    RunInv(s0, trace);
    assert SliceOk(SliceOf(After(s0, trace), After(s0, trace).memory.worker.job));
  }

  // ---------------------------------------------------------------- case keys

  /** Every stored envelope opens with the key its case holds, unless that case raced. */
  lemma StoredEnvelopesOpen(s0: State, trace: seq<Action>, e: EnvelopeId)
    requires Initial(s0) && Runs(s0, trace) && e in After(s0, trace).store.envelopes
    ensures var s := After(s0, trace);
      var c := s.store.envelopes[e].caseId;
      c in s.history.raced || (c in s.store.keys && s.store.keys[c] == s.store.envelopes[e].key)
  {
    InitialInv(s0);
    RunInv(s0, trace);
  }

  /** Once a restart is over, a case that owns a row but no envelope has no key. */
  lemma RestartReclaimsKeys(s0: State, trace: seq<Action>, j: JobId)
    requires Initial(s0) && Runs(s0, trace) && Enabled(After(s0, trace), Serve)
    requires j in After(s0, trace).store.rows && Unused(After(s0, trace), After(s0, trace).store.rows[j].caseId)
    ensures After(s0, trace).store.rows[j].caseId !in After(s0, trace).store.keys
  {
    InitialInv(s0);
    RunInv(s0, trace);
    assert SliceOk(SliceOf(After(s0, trace), j));
  }

  /** `raced` is exact: an action that puts a case there caught one of its envelopes between fetching
      its key and storing, and letting that submission go on stores a row no key opens. */
  lemma RaceLosesKey(s: State, a: Action, c: CaseId)
    requires Inv(s) && Enabled(s, a) && c !in s.history.raced && c in Next(s, a).history.raced
    ensures InFlight(s, c)
    ensures exists u, e ::
      && Reaches(Next(s, a), u) && e in u.store.envelopes
      && u.store.envelopes[e].caseId == c && c !in u.store.keys
  {
    var t := Next(s, a);
    RaceStep(s, a, c);
    var j :| j in s.memory.submits && s.memory.submits[j].caseId == c && InTransit(s.memory.submits[j]);
    assert t.memory.submits[j] == s.memory.submits[j];
    StoringGoesOn(t, j);
  }

  lemma RaceStep(s: State, a: Action, c: CaseId)
    requires Inv(s) && Enabled(s, a) && c !in s.history.raced && c in Next(s, a).history.raced
    ensures c !in Next(s, a).store.keys && InFlight(s, c) && Next(s, a).process.Up?
    ensures forall j :: j in s.memory.submits && InTransit(s.memory.submits[j]) ==>
              j in Next(s, a).memory.submits && Next(s, a).memory.submits[j] == s.memory.submits[j]
  {
    match a {
      case Undo(j, ok) =>
      case Finish(ok) =>
      case Restore(ok) =>
        forall j ensures j !in s.memory.submits { assert SliceOk(SliceOf(s, j)); }
        match s.process.cursor { case None => case Some(k) => match k.stage { case Reclaim => case _ => } }
      case _ =>
    }
  }

  /** A submission that fetched its key stores its row without asking for it again. */
  lemma StoringGoesOn(t: State, j: JobId)
    requires t.process.Up? && j in t.memory.submits && InTransit(t.memory.submits[j])
    ensures exists u, e ::
      && Reaches(t, u) && e in u.store.envelopes
      && u.store.envelopes[e].caseId == t.memory.submits[j].caseId && u.store.keys == t.store.keys
  {
    ReachesSelf(t);
    if t.memory.submits[j].phase.Moved? {
      StoringEnds(t, t, j);
    } else {
      var u := Next(t, Advance(j));
      ReachesNext(t, t, Advance(j));
      if u.memory.submits[j].phase.Moved? {
        StoringEnds(t, u, j);
      } else {
        ReachesNext(t, u, Advance(j));
        StoringEnds(t, Next(u, Advance(j)), j);
      }
    }
  }

  lemma StoringEnds(t: State, u: State, j: JobId)
    requires Reaches(t, u) && u.process.Up? && j in u.memory.submits && InTransit(u.memory.submits[j]) && u.memory.submits[j].phase.Moved?
    ensures exists v, e ::
      && Reaches(t, v) && e in v.store.envelopes
      && v.store.envelopes[e].caseId == u.memory.submits[j].caseId && v.store.keys == u.store.keys
  {
    ReachesNext(t, u, Advance(j));
    assert Reaches(t, Next(u, Advance(j))) && EnvelopeId(j, u.memory.submits[j].phase.purpose) in Next(u, Advance(j)).store.envelopes;
  }

  /** Fetching the key of an input, encrypting it and storing its row happen without a break (only a crash can come between). */
  ghost predicate SealsAtomically(s: State, trace: seq<Action>)
    requires Runs(s, trace)
    decreases |trace|
  {
    trace != [] ==>
      && ((exists c :: InFlight(s, c)) ==> trace[0].Advance? || trace[0].Fail? || trace[0].Crash?)
      && SealsAtomically(Next(s, trace[0]), trace[1..])
  }

  /** Then no case ever races, so every stored envelope opens, over every run. */
  lemma {:induction false} AtomicSealsNeverRace(s: State, trace: seq<Action>)
    requires Inv(s) && s.history.raced == {} && Runs(s, trace) && SealsAtomically(s, trace)
    ensures Inv(After(s, trace)) && After(s, trace).history.raced == {}
    ensures var t := After(s, trace);
      forall e :: e in t.store.envelopes ==>
        t.store.envelopes[e].caseId in t.store.keys && t.store.keys[t.store.envelopes[e].caseId] == t.store.envelopes[e].key
    decreases |trace|
  {
    if trace != [] {
      NextInv(s, trace[0]);
      forall c ensures c !in Next(s, trace[0]).history.raced {
        if c in Next(s, trace[0]).history.raced {
          RaceStep(s, trace[0], c);
          NoRaceWhileSealing(s, trace[0]);
        }
      }
      AtomicSealsNeverRace(Next(s, trace[0]), trace[1..]);
    }
  }

  lemma NoRaceWhileSealing(s: State, a: Action)
    requires Enabled(s, a) && (a.Advance? || a.Fail? || a.Crash?)
    ensures Next(s, a).history.raced == s.history.raced
  {
  }
}
