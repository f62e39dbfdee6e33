/** How a PCAP job ends: what the analysis came to is what is shown and stored, unless a cleanup failed
    on the way, and a job a restart interrupts has failed. */
module PcapOutcomes {
  import opened Wrappers
  import opened JobErrors
  import opened PcapMachine
  import opened PcapInvariants
  import opened PcapTheorems
  import opened PcapEvidence

  // ---------------------------------------------------------------- what an analysis comes to

  /** The analysis got as far as asking for the index, or for the dissection. */
  predicate AsksIndex(c: Config, a: Analysis) { c.hasBuilder && a.Reported? && Usable(a.status) }
  predicate AsksDissection(c: Config, a: Analysis) {
    c.hasDissector && a.Reported? && Usable(a.status) && !(c.hasBuilder && a.index.IndexCancelled?)
  }

  /** A raised analysis failed.  Otherwise the status is the engine's, save that a cancelled index
      cancels the job and a broken index or a failed publication leaves a usable job partial. */
  lemma ConcludesAs(c: Config, a: Analysis)
    ensures var (status, error, index) := Conclude(c, a);
      && (status.Failed? <==> a.Raised? || a.status.Failed?)
      && (status.Cancelled? <==> !a.Raised? && (a.status.Cancelled? || (AsksIndex(c, a) && a.index.IndexCancelled?)))
      && (status.Partial? <==>
            !a.Raised? && !status.Cancelled? &&
              (a.status.Partial? || (AsksIndex(c, a) && a.index.IndexBroken?) || (AsksDissection(c, a) && a.dissection.PublicationFailed?)))
      && (!Terminal(status) <==> !a.Raised? && !Terminal(a.status))
      && error ==
           (if a.Raised? || a.Malformed? then Some(a.reason)
            else if AsksIndex(c, a) && a.index.IndexCancelled? then Some(CANCELLED_TEXT)
            else if AsksDissection(c, a) && a.dissection.DissectorRaised? then Some(a.dissection.reason)
            else if (AsksIndex(c, a) && a.index.IndexBroken?) || (AsksDissection(c, a) && a.dissection.PublicationFailed?) then Some(PARTIAL_TEXT)
            else a.error)
  {
  }

  // ---------------------------------------------------------------- from the analysis to the row

  /** A failed cleanup turns complete into partial. */
  function Demoted(st: Status): Status { if st.Complete? then Partial else st }

  /** What an analysis came to, and the error text a job shows for it. */
  datatype Outcome = Outcome(status: Status, error: Option<string>, text: Option<string>)

  function OutcomeOf(c: Config, a: Analysis): Outcome {
    var (status, error, _) := Conclude(c, a);
    Outcome(status, error, PublicErrorText(error, status))
  }

  /** Complete turned partial, and the cleanup text. */
  predicate Demotion(status: Status, error: Option<string>, o: Outcome) {
    status == Demoted(o.status) && error == Some(CLEANUP_PENDING)
  }

  /** The job shows the outcome, or its demotion if a cleanup failed. */
  predicate Shown(status: Status, error: Option<string>, o: Outcome, clean: bool) {
    (status == o.status && error == o.text) || (!clean && Demotion(status, error, o))
  }

  /** The worker has the outcome of the job in hand, or has shown it. */
  predicate Carries(x: Slice, o: Outcome, clean: bool) {
    && x.mode.ModeUp? && x.job.Some? && !x.queued && x.submission.None?
    && if x.worker.Some? then CarriedBy(x.worker.value, x.job.value, o, clean) else Ended(x, o, clean)
  }

  predicate CarriedBy(w: Worker, m: Job, o: Outcome, clean: bool) {
    match w
    case Wiping(_, _, _, status, error, failed) => status == o.status && error == o.error && (clean ==> !failed)
    case Finishing(_, stage, status, error, pcapDone, keylogDone) =>
      && ((status == o.status && error == o.error) || (!clean && Demotion(status, error, o)))
      && (clean && StageRank(stage) >= 1 ==> pcapDone)
      && (clean && (StageRank(stage) >= 3 || !m.keylog) ==> keylogDone)
    case _ => false
  }

  /** If the job has ended, in memory or in its row, it shows the outcome. */
  predicate Ended(x: Slice, o: Outcome, clean: bool) {
    && (x.job.Some? && Terminal(x.job.value.status) ==> Shown(x.job.value.status, x.job.value.error, o, clean))
    && (x.row.Some? && Terminal(x.row.value.status) ==> Shown(x.row.value.status, x.row.value.error, o, clean))
  }

  /** No removal and no deletion failed. */
  predicate Smooth(a: Action) { (a.Wipe? ==> a.ok) && (a.Finish? ==> a.ok) }

  lemma CarryWipe(s: State, ok: bool, j: JobId, o: Outcome, clean: bool)
    requires CanWipe(s, ok) && Carries(SliceOf(s, j), o, clean) && (clean ==> ok)
    ensures Carries(SliceOf(DoWipe(s, ok), j), o, clean)
  {
  }

  lemma CarryPublish(s: State, w: Worker, job: Job, j: JobId, o: Outcome, clean: bool)
    requires CanFinish(s, true) && s.memory.worker == w && w.stage.Publish? && s.memory.jobs[w.job] == job
    requires Carries(SliceOf(s, j), o, clean)
    requires o.text == PublicErrorText(o.error, o.status)
    ensures Carries(SliceOf(FinishPublish(s, w, job), j), o, clean)
  {
    CleanupTextIsKept(o.status);
    CleanupTextIsKept(Demoted(o.status));
  }

  lemma CarryFinish(s: State, ok: bool, j: JobId, o: Outcome, clean: bool)
    requires CanFinish(s, ok) && Carries(SliceOf(s, j), o, clean) && (clean ==> ok)
    requires o.text == PublicErrorText(o.error, o.status)
    ensures Carries(SliceOf(DoFinish(s, ok), j), o, clean)
  {
    var w := s.memory.worker;
    match w.stage {
      case Publish => CarryPublish(s, w, s.memory.jobs[w.job], j, o, clean);
      case _ => CarryFile(s, ok, j, o, clean);
    }
  }

  lemma CarryFile(s: State, ok: bool, j: JobId, o: Outcome, clean: bool)
    requires CanFinish(s, ok) && !s.memory.worker.stage.Publish? && Carries(SliceOf(s, j), o, clean) && (clean ==> ok)
    ensures Carries(SliceOf(DoFinish(s, ok), j), o, clean)
  {
    match s.memory.worker.stage { case PcapFile => case PcapRow => case KeylogFile => case KeylogRow => case DropKey => }
  }

  lemma CarryTake(s: State, j: JobId, o: Outcome, clean: bool)
    requires CanTake(s) && Carries(SliceOf(s, j), o, clean)
    ensures Carries(SliceOf(DoTake(s), j), o, clean)
  {
  }

  lemma CarryCheck(s: State, j: JobId, o: Outcome, clean: bool)
    requires CanCheck(s) && Carries(SliceOf(s, j), o, clean)
    ensures Carries(SliceOf(DoCheck(s), j), o, clean)
  {
  }

  lemma CarryDecrypt(s: State, r: DecryptResult, j: JobId, o: Outcome, clean: bool)
    requires CanDecrypt(s) && Carries(SliceOf(s, j), o, clean)
    ensures Carries(SliceOf(DoDecrypt(s, r), j), o, clean)
  {
  }

  lemma CarryAnalyze(s: State, a: Analysis, j: JobId, o: Outcome, clean: bool)
    requires CanAnalyze(s) && Carries(SliceOf(s, j), o, clean)
    ensures Carries(SliceOf(DoAnalyze(s, a), j), o, clean)
  {
  }

  lemma CarryAbandon(s: State, j: JobId, o: Outcome, clean: bool)
    requires CanAbandon(s) && Carries(SliceOf(s, j), o, clean) && SliceOk(SliceOf(s, j))
    requires o.text == PublicErrorText(o.error, o.status)
    ensures Carries(SliceOf(DoAbandon(s), j), o, clean)
  {
    CleanupTextIsKept(o.status);
    CleanupTextIsKept(Demoted(o.status));
    if s.memory.worker.Checking? { } else if s.memory.worker.stage.DropKey? { } else { }
  }

  lemma CarryAdvance(s: State, i: JobId, j: JobId, o: Outcome, clean: bool)
    requires CanAdvance(s, i) && Carries(SliceOf(s, j), o, clean)
    ensures Carries(SliceOf(DoAdvance(s, i), j), o, clean)
  {
    assert i != j;
    match s.memory.submits[i].phase { case Ready(p) => case Keyed(p, key) => case Sealed(p) => case Moved(p) => case Persisting => case Registered => }
  }

  lemma CarryUndo(s: State, i: JobId, ok: bool, j: JobId, o: Outcome, clean: bool)
    requires CanUndo(s, i, ok) && Carries(SliceOf(s, j), o, clean)
    ensures Carries(SliceOf(DoUndo(s, i, ok), j), o, clean)
  {
    assert i != j;
  }

  lemma CarryBegin(s: State, i: JobId, c: CaseId, retained: bool, withKeylog: bool, j: JobId, o: Outcome, clean: bool)
    requires CanBegin(s, i) && Carries(SliceOf(s, j), o, clean) && SliceOk(SliceOf(s, j))
    ensures Carries(SliceOf(DoBegin(s, i, c, retained, withKeylog), j), o, clean)
  {
  }

  lemma CarryFail(s: State, i: JobId, keyCreated: bool, j: JobId, o: Outcome, clean: bool)
    requires CanFail(s, i) && Carries(SliceOf(s, j), o, clean)
    ensures Carries(SliceOf(DoFail(s, i, keyCreated), j), o, clean)
  {
  }

  lemma CarryCancel(s: State, i: JobId, saved: bool, j: JobId, o: Outcome, clean: bool)
    requires CanCancel(s, i) && Carries(SliceOf(s, j), o, clean)
    ensures Carries(SliceOf(DoCancel(s, i, saved), j), o, clean)
  {
  }

  lemma CarryClose(s: State, j: JobId, o: Outcome, clean: bool)
    requires Carries(SliceOf(s, j), o, clean)
    ensures Carries(SliceOf(DoClose(s), j), o, clean)
  {
  }

  lemma CarryProgress(s: State, j: JobId, o: Outcome, clean: bool)
    requires CanProgress(s) && Carries(SliceOf(s, j), o, clean)
    ensures Carries(SliceOf(DoProgress(s), j), o, clean)
  {
  }

  lemma CarryCall(s: State, a: Action, j: JobId, o: Outcome, clean: bool)
    requires Enabled(s, a) && Carries(SliceOf(s, j), o, clean) && SliceOk(SliceOf(s, j))
    requires a.Begin? || a.Advance? || a.Fail? || a.Undo? || a.CancelJob? || a.Close? || a.Progress?
    ensures Carries(SliceOf(Next(s, a), j), o, clean)
  {
    match a {
      case Begin(i, c, retained, withKeylog) => CarryBegin(s, i, c, retained, withKeylog, j, o, clean);
      case Advance(i) => CarryAdvance(s, i, j, o, clean);
      case Fail(i, keyCreated) => CarryFail(s, i, keyCreated, j, o, clean);
      case Undo(i, ok) => CarryUndo(s, i, ok, j, o, clean);
      case CancelJob(i, saved) => CarryCancel(s, i, saved, j, o, clean);
      case Close => CarryClose(s, j, o, clean);
      case Progress => CarryProgress(s, j, o, clean);
    }
  }

  lemma CarryWorker(s: State, a: Action, j: JobId, o: Outcome, clean: bool)
    requires Enabled(s, a) && Carries(SliceOf(s, j), o, clean) && SliceOk(SliceOf(s, j)) && (clean ==> Smooth(a))
    requires o.text == PublicErrorText(o.error, o.status)
    requires a.Take? || a.Check? || a.Decrypt? || a.Analyze? || a.Wipe? || a.Finish? || a.Abandon?
    ensures Carries(SliceOf(Next(s, a), j), o, clean)
  {
    match a {
      case Take => CarryTake(s, j, o, clean);
      case Check => CarryCheck(s, j, o, clean);
      case Decrypt(r) => CarryDecrypt(s, r, j, o, clean);
      case Analyze(x) => CarryAnalyze(s, x, j, o, clean);
      case Wipe(ok) => CarryWipe(s, ok, j, o, clean);
      case Finish(ok) => CarryFinish(s, ok, j, o, clean);
      case Abandon => CarryAbandon(s, j, o, clean);
    }
  }

  lemma CarryStep(s: State, a: Action, j: JobId, o: Outcome, clean: bool)
    requires Inv(s) && Enabled(s, a) && !a.Crash? && Carries(SliceOf(s, j), o, clean) && (clean ==> Smooth(a))
    requires o.text == PublicErrorText(o.error, o.status)
    ensures Carries(SliceOf(Next(s, a), j), o, clean)
  {
    assert SliceOk(SliceOf(s, j));
    if a.Take? || a.Check? || a.Decrypt? || a.Analyze? || a.Wipe? || a.Finish? || a.Abandon? { CarryWorker(s, a, j, o, clean); }
    else { CarryCall(s, a, j, o, clean); }
  }

  predicate AllSmooth(trace: seq<Action>) { forall i :: 0 <= i < |trace| ==> Smooth(trace[i]) }

  lemma {:induction false} CarryRun(s: State, trace: seq<Action>, j: JobId, o: Outcome, clean: bool)
    requires Inv(s) && Runs(s, trace) && CrashFree(trace) && (clean ==> AllSmooth(trace)) && Carries(SliceOf(s, j), o, clean)
    requires o.text == PublicErrorText(o.error, o.status)
    ensures Carries(SliceOf(After(s, trace), j), o, clean) && Inv(After(s, trace))
    decreases |trace|
  {
    if trace != [] {
      assert !trace[0].Crash? && (clean ==> Smooth(trace[0]));
      CarryStep(s, trace[0], j, o, clean);
      NextInv(s, trace[0]);
      assert forall i :: 0 <= i < |trace| - 1 ==> trace[1..][i] == trace[i + 1];
      CarryRun(Next(s, trace[0]), trace[1..], j, o, clean);
    }
  }

  /** If job `j` has ended it shows the outcome of `a`; only a cleanup that failed on the way can
      replace it, and then the job is not complete and says that its cleanup is pending. */
  predicate ShowsOutcome(t: State, j: JobId, o: Outcome, clean: bool) {
    && (j in t.memory.jobs && Terminal(t.memory.jobs[j].status) ==> Shown(t.memory.jobs[j].status, t.memory.jobs[j].error, o, clean))
    && (j in t.store.rows && Terminal(t.store.rows[j].status) ==> Shown(t.store.rows[j].status, t.store.rows[j].error, o, clean))
  }

  lemma AnalysisIsCarried(s: State, a: Analysis, clean: bool)
    requires Inv(s) && CanAnalyze(s)
    ensures Carries(SliceOf(DoAnalyze(s, a), s.memory.worker.job), OutcomeOf(s.config, a), clean)
  {
    assert SliceOk(SliceOf(s, s.memory.worker.job));
  }

  lemma CarriedIsShown(t: State, j: JobId, o: Outcome, clean: bool)
    requires Inv(t) && Carries(SliceOf(t, j), o, clean)
    ensures ShowsOutcome(t, j, o, clean)
  {
    assert SliceOk(SliceOf(t, j));
  }

  lemma OutcomeFrom(s: State, a: Analysis, later: seq<Action>)
    requires Inv(s) && CanAnalyze(s) && Runs(DoAnalyze(s, a), later) && CrashFree(later)
    ensures ShowsOutcome(After(DoAnalyze(s, a), later), s.memory.worker.job, OutcomeOf(s.config, a), AllSmooth(later))
  {
    AnalysisIsCarried(s, a, AllSmooth(later));
    NextInv(s, Analyze(a));
    CarryRun(DoAnalyze(s, a), later, s.memory.worker.job, OutcomeOf(s.config, a), AllSmooth(later));
    CarriedIsShown(After(DoAnalyze(s, a), later), s.memory.worker.job, OutcomeOf(s.config, a), AllSmooth(later));
  }

  /** What an analysis came to is what the job shows and stores once it ends. */
  lemma OutcomeIsPublished(s0: State, trace: seq<Action>, a: Analysis, later: seq<Action>)
    requires Initial(s0) && Runs(s0, trace) && CanAnalyze(After(s0, trace))
    requires Runs(DoAnalyze(After(s0, trace), a), later) && CrashFree(later)
    ensures var s := After(s0, trace);
      ShowsOutcome(After(DoAnalyze(s, a), later), s.memory.worker.job, OutcomeOf(s.config, a), AllSmooth(later))
  {
    InitialInv(s0);
    RunInv(s0, trace);
    OutcomeFrom(After(s0, trace), a, later);
  }

  // ---------------------------------------------------------------- the key of the case

  /** Before it shows the job, `_finish` drops the key of the case exactly when both inputs are cleaned
      up and no envelope of the case is stored any more. */
  lemma LastEnvelopeTakesTheKey(s: State, ok: bool)
    requires CanFinish(s, ok) && s.memory.worker.stage.DropKey?
    ensures var w, c := s.memory.worker, s.memory.jobs[s.memory.worker.job].caseId;
      c in DoFinish(s, ok).store.keys <==>
        c in s.store.keys && (!w.pcapDone || !w.keylogDone || exists e :: e in s.store.envelopes && s.store.envelopes[e].caseId == c)
  {
  }

  /** So does the undoing of a failed submission, once it comes to the key. */
  lemma UndoingTakesTheKey(s: State, j: JobId)
    requires CanUndo(s, j, true) && s.memory.submits[j].phase.UndoKey?
    ensures var (c, t) := (s.memory.submits[j].caseId, DoUndo(s, j, true));
      && j !in t.memory.submits
      && (c in t.store.keys <==> c in s.store.keys && exists e :: e in s.store.envelopes && s.store.envelopes[e].caseId == c)
  {
  }

  // ---------------------------------------------------------------- what a restart makes of a row

  /** The restart has settled row `j`: it ends, and a row that had not ended before has failed, as
      interrupted unless a cleanup is pending; one that had ended keeps its status, but never complete
      with a cleanup pending. */
  predicate SettledAs(before: Row, after: Row, failed: bool) {
    && Terminal(after.status) && after.caseId == before.caseId && after.retained == before.retained
    && (!Terminal(before.status) ==> after.status.Failed? && after.error == Some(if failed then CLEANUP_PENDING else INTERRUPTED))
    && (Terminal(before.status) ==> after.status == (if failed then Demoted(before.status) else before.status))
    && (failed ==> after.error == Some(CLEANUP_PENDING))
  }

  /** Writing the row back settles it, in the database and in memory. */
  lemma RestoreSettles(s: State, ok: bool)
    requires CanRestore(s, ok) && s.process.cursor.Some? && s.process.cursor.value.stage.Save?
    ensures var (c, t) := (s.process.cursor.value, DoRestore(s, ok));
      && c.job in t.store.rows && SettledAs(s.store.rows[c.job], t.store.rows[c.job], c.failed)
      && c.job in t.memory.jobs && t.memory.jobs[c.job].status == t.store.rows[c.job].status
      && !t.memory.jobs[c.job].cancelled && t.memory.jobs[c.job].retained == s.store.rows[c.job].retained
  {
  }

  /** While the process restarts: row `j` is as it was found, or settled. */
  predicate Settling(s: State, j: JobId, before: Row) {
    && s.process.Restoring? && j in s.store.rows
    && if j in s.memory.jobs then SettledAs(before, s.store.rows[j], true) || SettledAs(before, s.store.rows[j], false)
       else s.store.rows[j] == before
  }

  lemma SettlingStep(s: State, ok: bool, j: JobId, before: Row)
    requires CanRestore(s, ok) && SliceOk(SliceOf(s, j)) && Settling(s, j, before)
    ensures Settling(DoRestore(s, ok), j, before)
  {
    if s.process.cursor.Some? {
      match s.process.cursor.value.stage {
        case Save => if s.process.cursor.value.job == j { RestoreSettles(s, ok); }
        case _ =>
      }
    }
  }

  predicate AllRestore(trace: seq<Action>) { forall i :: 0 <= i < |trace| ==> trace[i].Restore? }

  lemma {:induction false} SettlingRun(s: State, trace: seq<Action>, j: JobId, before: Row)
    requires Inv(s) && Runs(s, trace) && AllRestore(trace) && Settling(s, j, before)
    ensures Settling(After(s, trace), j, before) && Inv(After(s, trace))
    decreases |trace|
  {
    if trace != [] {
      assert trace[0].Restore? && SliceOk(SliceOf(s, j));
      SettlingStep(s, trace[0].ok, j, before);
      NextInv(s, trace[0]);
      assert forall i :: 0 <= i < |trace| - 1 ==> trace[1..][i] == trace[i + 1];
      SettlingRun(Next(s, trace[0]), trace[1..], j, before);
    }
  }

  lemma SettledFrom(s: State, order: seq<JobId>, restores: seq<Action>, j: JobId)
    requires Inv(s) && Enabled(s, Boot(order)) && j in s.store.rows
    requires Runs(Next(s, Boot(order)), restores) && AllRestore(restores) && Enabled(After(Next(s, Boot(order)), restores), Serve)
    ensures var t := After(Next(s, Boot(order)), restores);
      && j in t.store.rows && j in t.memory.jobs
      && (SettledAs(s.store.rows[j], t.store.rows[j], true) || SettledAs(s.store.rows[j], t.store.rows[j], false))
  {
    assert SliceOk(SliceOf(s, j));
    NextInv(s, Boot(order));
    SettlingRun(Next(s, Boot(order)), restores, j, s.store.rows[j]);
    assert SliceOk(SliceOf(After(Next(s, Boot(order)), restores), j));
  }

  /** Over a whole restart, whatever fails in it: when the API serves again every row has ended, every
      one the crash interrupted has failed, and no row that had ended changed but for a pending cleanup. */
  lemma RestartSettlesEveryRow(s0: State, trace: seq<Action>, order: seq<JobId>, restores: seq<Action>, j: JobId)
    requires Initial(s0) && Runs(s0, trace) && Enabled(After(s0, trace), Boot(order)) && j in After(s0, trace).store.rows
    requires Runs(Next(After(s0, trace), Boot(order)), restores) && AllRestore(restores)
    requires Enabled(After(Next(After(s0, trace), Boot(order)), restores), Serve)
    ensures var (s, t) := (After(s0, trace), After(Next(After(s0, trace), Boot(order)), restores));
      && j in t.store.rows && j in t.memory.jobs
      && (SettledAs(s.store.rows[j], t.store.rows[j], true) || SettledAs(s.store.rows[j], t.store.rows[j], false))
  {
    InitialInv(s0);
    RunInv(s0, trace);
    SettledFrom(After(s0, trace), order, restores, j);
  }
}
