/** What the PCAP job manager keeps: retained captures for good, every other input until its analysis
    is over.  And what it does not start: a job that was stopped before its worker took it up. */
module PcapEvidence {
  import opened Wrappers
  import opened JobErrors
  import opened PcapMachine
  import opened PcapInvariants
  import opened PcapTheorems

  // ---------------------------------------------------------------- retained evidence

  /** The row of job `j`, or the submission that is to write it, says that the job belongs to case `c`
      and whether its input is kept. */
  predicate SubmittedAs(s: State, j: JobId, c: CaseId, retained: bool) {
    && j in s.history.used
    && (if j in s.store.rows then s.store.rows[j].caseId == c && s.store.rows[j].retained == retained
        else j in s.memory.submits ==> s.memory.submits[j].caseId == c && s.memory.submits[j].retained == retained)
  }

  /** As it was, and a row that was there still is. */
  predicate StaysSubmitted(s: State, t: State, j: JobId, c: CaseId, retained: bool) {
    SubmittedAs(t, j, c, retained) && (j in s.store.rows ==> j in t.store.rows)
  }

  lemma SubmittedAdvance(s: State, i: JobId, j: JobId, c: CaseId, retained: bool)
    requires CanAdvance(s, i) && SubmittedAs(s, j, c, retained) && SliceOk(SliceOf(s, j))
    ensures StaysSubmitted(s, DoAdvance(s, i), j, c, retained)
  {
    match s.memory.submits[i].phase { case Persisting => case _ => }
  }

  lemma SubmittedUndo(s: State, i: JobId, ok: bool, j: JobId, c: CaseId, retained: bool)
    requires CanUndo(s, i, ok) && SubmittedAs(s, j, c, retained)
    ensures StaysSubmitted(s, DoUndo(s, i, ok), j, c, retained)
  {
  }

  lemma SubmittedFinish(s: State, ok: bool, j: JobId, c: CaseId, retained: bool)
    requires CanFinish(s, ok) && SubmittedAs(s, j, c, retained) && SliceOk(SliceOf(s, j))
    ensures StaysSubmitted(s, DoFinish(s, ok), j, c, retained)
  {
  }

  lemma SubmittedRestore(s: State, ok: bool, j: JobId, c: CaseId, retained: bool)
    requires CanRestore(s, ok) && SubmittedAs(s, j, c, retained)
    ensures StaysSubmitted(s, DoRestore(s, ok), j, c, retained)
  {
    if s.process.cursor.Some? { match s.process.cursor.value.stage { case Save => case _ => } }
  }

  lemma SubmittedCall(s: State, a: Action, j: JobId, c: CaseId, retained: bool)
    requires Enabled(s, a) && SubmittedAs(s, j, c, retained) && SliceOk(SliceOf(s, j))
    requires a.Begin? || a.Advance? || a.Fail? || a.Undo? || a.CancelJob? || a.Close? || a.Progress?
    ensures StaysSubmitted(s, Next(s, a), j, c, retained)
  {
    match a {
      case Advance(i) => SubmittedAdvance(s, i, j, c, retained);
      case Undo(i, ok) => SubmittedUndo(s, i, ok, j, c, retained);
      case _ =>
    }
  }

  lemma SubmittedProcess(s: State, a: Action, j: JobId, c: CaseId, retained: bool)
    requires Enabled(s, a) && SubmittedAs(s, j, c, retained) && (a.Crash? || a.Boot? || a.Restore? || a.Serve?)
    ensures StaysSubmitted(s, Next(s, a), j, c, retained)
  {
    match a { case Restore(ok) => SubmittedRestore(s, ok, j, c, retained); case _ => }
  }

  lemma SubmittedWorker(s: State, a: Action, j: JobId, c: CaseId, retained: bool)
    requires Enabled(s, a) && SubmittedAs(s, j, c, retained) && SliceOk(SliceOf(s, j))
    requires a.Take? || a.Check? || a.Decrypt? || a.Analyze? || a.Wipe? || a.Abandon?
    ensures StaysSubmitted(s, Next(s, a), j, c, retained)
  {
    match a { case Check => case Decrypt(r) => case Wipe(ok) => case _ => }
  }

  lemma SubmittedStep(s: State, a: Action, j: JobId, c: CaseId, retained: bool)
    requires Inv(s) && Enabled(s, a) && SubmittedAs(s, j, c, retained)
    ensures StaysSubmitted(s, Next(s, a), j, c, retained)
  {
    assert SliceOk(SliceOf(s, j));
    if a.Crash? || a.Boot? || a.Restore? || a.Serve? { SubmittedProcess(s, a, j, c, retained); }
    else if a.Take? || a.Check? || a.Decrypt? || a.Analyze? || a.Wipe? || a.Abandon? { SubmittedWorker(s, a, j, c, retained); }
    else if a.Finish? { SubmittedFinish(s, a.ok, j, c, retained); }
    else { SubmittedCall(s, a, j, c, retained); }
  }

  lemma {:induction false} SubmittedRun(s: State, trace: seq<Action>, j: JobId, c: CaseId, retained: bool)
    requires Inv(s) && Runs(s, trace) && SubmittedAs(s, j, c, retained)
    ensures StaysSubmitted(s, After(s, trace), j, c, retained)
    decreases |trace|
  {
    if trace != [] {
      SubmittedStep(s, trace[0], j, c, retained);
      NextInv(s, trace[0]);
      SubmittedRun(Next(s, trace[0]), trace[1..], j, c, retained);
    }
  }

  /** The encrypted capture and the envelope row it is opened with. */
  predicate EvidenceStored(s: State, j: JobId, c: CaseId) {
    && Cipher(j, Pcap) in s.store.disk
    && EnvelopeId(j, Pcap) in s.store.envelopes && s.store.envelopes[EnvelopeId(j, Pcap)].caseId == c
  }

  /** Retained evidence is never lost.  A job submitted to keep its input says so in its row for good,
      and from the moment it has a row its encrypted capture is on disk and its envelope row is stored
      in every later state: after finishing, cancels, shutdowns, crashes and any number of restarts. */
  lemma RetainedEvidenceStays(s0: State, before: seq<Action>, j: JobId, c: CaseId, withKeylog: bool, after: seq<Action>)
    requires Initial(s0) && Runs(s0, before) && Enabled(After(s0, before), Begin(j, c, true, withKeylog))
    requires Runs(Next(After(s0, before), Begin(j, c, true, withKeylog)), after)
    ensures var t := After(Next(After(s0, before), Begin(j, c, true, withKeylog)), after);
      j in t.store.rows ==> t.store.rows[j].caseId == c && t.store.rows[j].retained && EvidenceStored(t, j, c)
  {
    var s, a := After(s0, before), Begin(j, c, true, withKeylog);
    InitialInv(s0);
    RunInv(s0, before);
    assert SliceOk(SliceOf(s, j));
    NextInv(s, a);
    SubmittedRun(Next(s, a), after, j, c, true);
    RunInv(Next(s, a), after);
    assert SliceOk(SliceOf(After(Next(s, a), after), j));
  }

  /** Once there, a row that keeps its input is there, keeps it and has it in every later state. */
  lemma RetainedRowStays(s0: State, trace: seq<Action>, later: seq<Action>, j: JobId)
    requires Initial(s0) && Runs(s0, trace) && Runs(After(s0, trace), later)
    requires j in After(s0, trace).store.rows && After(s0, trace).store.rows[j].retained
    ensures EvidenceStored(After(s0, trace), j, After(s0, trace).store.rows[j].caseId)
    ensures var t := After(After(s0, trace), later);
      && j in t.store.rows && t.store.rows[j].retained
      && EvidenceStored(t, j, After(s0, trace).store.rows[j].caseId)
  {
    var s := After(s0, trace);
    InitialInv(s0);
    RunInv(s0, trace);
    assert SliceOk(SliceOf(s, j));
    SubmittedRun(s, later, j, s.store.rows[j].caseId, true);
    RunInv(s, later);
    assert SliceOk(SliceOf(After(s, later), j));
  }

  // ---------------------------------------------------------------- inputs wait for the worker

  /** The job is queued, being queued, or with its worker and not yet finishing. */
  predicate Underway(s: State, j: JobId) {
    && j in s.memory.jobs
    && (j in s.memory.queue || j in s.memory.submits
        || (!s.memory.worker.Idle? && s.memory.worker.job == j && !s.memory.worker.Finishing?))
  }

  /** Until its analysis is over a job keeps its encrypted capture and, with one, its encrypted keylog,
      each with the row that opens it; so the worker never finds its metadata missing, and what it
      analyzes has been decrypted in full. */
  lemma InputsWaitForTheWorker(s0: State, trace: seq<Action>, j: JobId)
    requires Initial(s0) && Runs(s0, trace) && Underway(After(s0, trace), j)
    ensures var s := After(s0, trace);
      && EvidenceStored(s, j, s.memory.jobs[j].caseId)
      && (s.memory.jobs[j].keylog ==>
            Cipher(j, TlsKeylog) in s.store.disk && EnvelopeId(j, TlsKeylog) in s.store.envelopes)
      && (j !in s.history.odd ==> s.memory.jobs[j].evidence)
      && (s.memory.worker == Analyzing(j) ==>
            Active(j, Pcap) in s.store.disk && (s.memory.jobs[j].keylog ==> Active(j, TlsKeylog) in s.store.disk))
  {
    InitialInv(s0);
    RunInv(s0, trace);
    assert SliceOk(SliceOf(After(s0, trace), j));
  }

  // ---------------------------------------------------------------- stopped before it started

  /** The worker has not taken up job `j` yet. */
  predicate Waiting(s: State, j: JobId) {
    j in s.memory.jobs && (j in s.memory.queue || j in s.memory.submits || s.memory.worker == Checking(j))
  }

  /** Told to stop, and nothing of it was started: no decrypted file, and no end but being cancelled. */
  predicate StoppedEarly(s: State, j: JobId) {
    && s.process.Up? && j in s.memory.jobs && s.memory.jobs[j].cancelled
    && Active(j, Pcap) !in s.store.disk && Active(j, TlsKeylog) !in s.store.disk
    && (Terminal(s.memory.jobs[j].status) ==> s.memory.jobs[j].status.Cancelled?)
    && (!s.memory.worker.Idle? && s.memory.worker.job == j ==>
          s.memory.worker.Checking? || (s.memory.worker.Finishing? && s.memory.worker.status.Cancelled?))
  }

  /** The call that tells job `j` to stop. */
  predicate Stops(a: Action, j: JobId) { a.Close? || (a.CancelJob? && a.job == j) }

  predicate CrashFree(trace: seq<Action>) { forall i :: 0 <= i < |trace| ==> !trace[i].Crash? }

  lemma StopsEarly(s: State, a: Action, j: JobId)
    requires Inv(s) && Enabled(s, a) && s.process.Up? && Waiting(s, j) && Stops(a, j)
    ensures StoppedEarly(Next(s, a), j)
  {
    assert SliceOk(SliceOf(s, j));
  }

  lemma StoppedAdvance(s: State, i: JobId, j: JobId)
    requires CanAdvance(s, i) && StoppedEarly(s, j) && SliceOk(SliceOf(s, j))
    ensures StoppedEarly(DoAdvance(s, i), j)
  {
  }

  lemma StoppedCall(s: State, a: Action, j: JobId)
    requires Enabled(s, a) && StoppedEarly(s, j)
    requires a.Begin? || a.Fail? || a.Undo? || a.CancelJob? || a.Close? || a.Progress?
    ensures StoppedEarly(Next(s, a), j)
  {
    match a { case Undo(i, ok) => case _ => }
  }

  lemma StoppedWorker(s: State, a: Action, j: JobId)
    requires Enabled(s, a) && StoppedEarly(s, j) && (a.Take? || a.Check? || a.Decrypt? || a.Analyze? || a.Wipe? || a.Abandon?)
    ensures StoppedEarly(Next(s, a), j)
  {
    match a { case Check => case Decrypt(r) => case Wipe(ok) => case _ => }
  }

  lemma StoppedFinish(s: State, ok: bool, j: JobId)
    requires CanFinish(s, ok) && StoppedEarly(s, j)
    ensures StoppedEarly(DoFinish(s, ok), j)
  {
  }

  lemma StoppedStep(s: State, a: Action, j: JobId)
    requires Inv(s) && Enabled(s, a) && !a.Crash? && StoppedEarly(s, j)
    ensures StoppedEarly(Next(s, a), j)
  {
    assert SliceOk(SliceOf(s, j));
    match a {
      case Advance(i) => StoppedAdvance(s, i, j);
      case Finish(ok) => StoppedFinish(s, ok, j);
      case Begin(_, _, _, _) => StoppedCall(s, a, j);
      case Fail(_, _) => StoppedCall(s, a, j);
      case Undo(_, _) => StoppedCall(s, a, j);
      case CancelJob(_, _) => StoppedCall(s, a, j);
      case Close => StoppedCall(s, a, j);
      case Progress => StoppedCall(s, a, j);
      case _ => StoppedWorker(s, a, j);
    }
  }

  lemma {:induction false} StoppedRun(s: State, trace: seq<Action>, j: JobId)
    requires Inv(s) && Runs(s, trace) && CrashFree(trace) && StoppedEarly(s, j)
    ensures StoppedEarly(After(s, trace), j)
    decreases |trace|
  {
    if trace != [] {
      assert !trace[0].Crash?;
      StoppedStep(s, trace[0], j);
      NextInv(s, trace[0]);
      assert forall i :: 0 <= i < |trace| - 1 ==> trace[1..][i] == trace[i + 1];
      StoppedRun(Next(s, trace[0]), trace[1..], j);
    }
  }

  predicate NeverStarted(t: State, j: JobId) {
    && Active(j, Pcap) !in t.store.disk && Active(j, TlsKeylog) !in t.store.disk
    && j in t.memory.jobs && (Terminal(t.memory.jobs[j].status) ==> t.memory.jobs[j].status.Cancelled?)
  }

  lemma StoppedFrom(s: State, j: JobId, a: Action, later: seq<Action>)
    requires Inv(s) && s.process.Up? && Waiting(s, j)
    requires Enabled(s, a) && Stops(a, j)
    requires Runs(Next(s, a), later) && CrashFree(later)
    ensures NeverStarted(After(Next(s, a), later), j)
  {
    StopsEarly(s, a, j);
    NextInv(s, a);
    StoppedRun(Next(s, a), later, j);
  }

  /** A job cancelled, or told to stop by a shutdown, before the worker took it up is never decrypted
      while the process lives, and if it ends it ends as cancelled. */
  lemma StoppedJobsNeverStart(s0: State, trace: seq<Action>, j: JobId, a: Action, later: seq<Action>)
    requires Initial(s0) && Runs(s0, trace) && After(s0, trace).process.Up? && Waiting(After(s0, trace), j)
    requires Enabled(After(s0, trace), a) && Stops(a, j)
    requires Runs(Next(After(s0, trace), a), later) && CrashFree(later)
    ensures NeverStarted(After(Next(After(s0, trace), a), later), j)
  {
    InitialInv(s0);
    RunInv(s0, trace);
    StoppedFrom(After(s0, trace), j, a, later);
  }

  // ---------------------------------------------------------------- the queue

  /** Jobs wait in the order their submissions ended in, the worker takes the first one, and once the
      manager is told to shut down, until the process ends, no job joins them. */
  lemma QueueIsFifo(s: State, a: Action)
    requires Enabled(s, a) && !a.Crash?
    ensures var (t, q) := (Next(s, a).memory, s.memory.queue);
      && (s.memory.closing || a.Close? ==> t.closing)
      && if a.Take? then q != [] && t.queue == q[1..] && t.worker == Checking(q[0])
         else if a.Advance? && s.memory.submits[a.job].phase == Registered && !s.memory.closing then t.queue == q + [a.job]
         else t.queue == q
  {
    match a {
      case Advance(j) => QueueOnAdvance(s, j);
      case Undo(j, ok) => QueueOnUndo(s, j, ok);
      case Finish(ok) => QueueOnFinish(s, ok);
      case Restore(ok) => QueueOnRestore(s, ok);
      case _ =>
    }
  }

  lemma QueueOnAdvance(s: State, j: JobId)
    requires CanAdvance(s, j)
    ensures var (t, q) := (DoAdvance(s, j).memory, s.memory.queue);
      && t.closing == s.memory.closing
      && t.queue == if s.memory.submits[j].phase == Registered && !s.memory.closing then q + [j] else q
  {
  }

  lemma QueueOnUndo(s: State, j: JobId, ok: bool)
    requires CanUndo(s, j, ok)
    ensures DoUndo(s, j, ok).memory.queue == s.memory.queue && DoUndo(s, j, ok).memory.closing == s.memory.closing
  {
  }

  lemma QueueOnFinish(s: State, ok: bool)
    requires CanFinish(s, ok)
    ensures DoFinish(s, ok).memory.queue == s.memory.queue && DoFinish(s, ok).memory.closing == s.memory.closing
  {
  }

  lemma QueueOnRestore(s: State, ok: bool)
    requires CanRestore(s, ok)
    ensures DoRestore(s, ok).memory.queue == s.memory.queue && DoRestore(s, ok).memory.closing == s.memory.closing
  {
  }

  // ---------------------------------------------------------------- a submission that failed

  /** How far the undoing of a failed submission has come. */
  predicate UndoneSoFar(x: Slice, phase: Phase) {
    match phase
    case UndoFile(p) => p.TlsKeylog? ==> NoPcap(x)
    case UndoRow(p) => !x.cipherPcap && (p.TlsKeylog? ==> NoPcap(x) && !x.cipherKeylog)
    case UndoKey => NoPcap(x) && NoKeylog(x)
    case _ => false
  }

  /** The submission failed and is being undone, or is undone and has left nothing. */
  predicate Undone(x: Slice) {
    && x.mode.ModeUp? && x.used && x.row.None? && x.job.None? && !x.queued && x.worker.None?
    && if x.submission.Some? then UndoneSoFar(x, x.submission.value.phase) else NoPcap(x) && NoKeylog(x)
  }

  lemma FailingStarts(s: State, j: JobId, keyCreated: bool)
    requires Inv(s) && CanFail(s, j)
    ensures Undone(SliceOf(DoFail(s, j, keyCreated), j))
  {
    assert SliceOk(SliceOf(s, j));
  }

  lemma UndoGoesOn(s: State, i: JobId, ok: bool, j: JobId)
    requires CanUndo(s, i, ok) && SliceOk(SliceOf(s, j)) && Undone(SliceOf(s, j)) && (i == j ==> ok)
    ensures Undone(SliceOf(DoUndo(s, i, ok), j))
  {
    match s.memory.submits[i].phase { case UndoFile(p) => case UndoRow(p) => case UndoKey => }
  }

  lemma UndoneAdvance(s: State, i: JobId, j: JobId)
    requires CanAdvance(s, i) && Undone(SliceOf(s, j))
    ensures Undone(SliceOf(DoAdvance(s, i), j))
  {
    assert i != j;
    match s.memory.submits[i].phase { case Ready(p) => case Keyed(p, key) => case Sealed(p) => case Moved(p) => case Persisting => case Registered => }
  }

  lemma UndoneFinish(s: State, ok: bool, j: JobId)
    requires CanFinish(s, ok) && Undone(SliceOf(s, j))
    ensures Undone(SliceOf(DoFinish(s, ok), j))
  {
    match s.memory.worker.stage { case PcapFile => case PcapRow => case KeylogFile => case KeylogRow => case DropKey => case Publish => }
  }

  lemma UndoneTake(s: State, j: JobId)
    requires CanTake(s) && Undone(SliceOf(s, j))
    ensures Undone(SliceOf(DoTake(s), j))
  {
  }

  lemma UndoneDecrypt(s: State, r: DecryptResult, j: JobId)
    requires CanDecrypt(s) && Undone(SliceOf(s, j))
    ensures Undone(SliceOf(DoDecrypt(s, r), j))
  {
    assert s.memory.worker.job != j;
    if !s.memory.jobs[s.memory.worker.job].evidence { } else if r.Opened? { } else { }
  }

  lemma UndoneAnalyze(s: State, a: Analysis, j: JobId)
    requires CanAnalyze(s) && Undone(SliceOf(s, j))
    ensures Undone(SliceOf(DoAnalyze(s, a), j))
  {
  }

  lemma UndoneWipe(s: State, ok: bool, j: JobId)
    requires CanWipe(s, ok) && Undone(SliceOf(s, j))
    ensures Undone(SliceOf(DoWipe(s, ok), j))
  {
  }

  lemma UndoneProgress(s: State, j: JobId)
    requires CanProgress(s) && Undone(SliceOf(s, j))
    ensures Undone(SliceOf(DoProgress(s), j))
  {
  }

  lemma UndoneWorker(s: State, a: Action, j: JobId)
    requires Enabled(s, a) && Undone(SliceOf(s, j)) && (a.Take? || a.Decrypt? || a.Analyze? || a.Wipe? || a.Progress?)
    ensures Undone(SliceOf(Next(s, a), j))
  {
    match a {
      case Take => UndoneTake(s, j);
      case Decrypt(r) => UndoneDecrypt(s, r, j);
      case Analyze(x) => UndoneAnalyze(s, x, j);
      case Wipe(ok) => UndoneWipe(s, ok, j);
      case Progress => UndoneProgress(s, j);
    }
  }

  lemma UndoneCheck(s: State, j: JobId)
    requires CanCheck(s) && Undone(SliceOf(s, j))
    ensures Undone(SliceOf(DoCheck(s), j))
  {
    assert s.memory.worker.job != j;
    if s.memory.jobs[s.memory.worker.job].cancelled { } else { }
  }

  lemma UndoneAbandon(s: State, j: JobId)
    requires CanAbandon(s) && Undone(SliceOf(s, j))
    ensures Undone(SliceOf(DoAbandon(s), j))
  {
    if s.memory.worker.Checking? { } else if s.memory.worker.stage.DropKey? { } else { }
  }

  lemma UndoneBegin(s: State, i: JobId, c: CaseId, retained: bool, withKeylog: bool, j: JobId)
    requires CanBegin(s, i) && Undone(SliceOf(s, j))
    ensures Undone(SliceOf(DoBegin(s, i, c, retained, withKeylog), j))
  {
  }

  lemma UndoneFail(s: State, i: JobId, keyCreated: bool, j: JobId)
    requires CanFail(s, i) && Undone(SliceOf(s, j))
    ensures Undone(SliceOf(DoFail(s, i, keyCreated), j))
  {
  }

  lemma UndoneCancel(s: State, i: JobId, saved: bool, j: JobId)
    requires CanCancel(s, i) && Undone(SliceOf(s, j))
    ensures Undone(SliceOf(DoCancel(s, i, saved), j))
  {
  }

  lemma UndoneClose(s: State, j: JobId)
    requires Undone(SliceOf(s, j))
    ensures Undone(SliceOf(DoClose(s), j))
  {
  }

  /** The removals and deletions for job `j` succeed. */
  predicate UndoesWell(a: Action, j: JobId) { a.Undo? && a.job == j ==> a.ok }

  lemma UndoneStep(s: State, a: Action, j: JobId)
    requires Inv(s) && Enabled(s, a) && !a.Crash? && UndoesWell(a, j) && Undone(SliceOf(s, j))
    ensures Undone(SliceOf(Next(s, a), j))
  {
    assert SliceOk(SliceOf(s, j));
    if a.Finish? { UndoneFinish(s, a.ok, j); }
    else if a.Take? || a.Decrypt? || a.Analyze? || a.Wipe? || a.Progress? { UndoneWorker(s, a, j); }
    else if a.Check? { UndoneCheck(s, j); }
    else if a.Abandon? { UndoneAbandon(s, j); }
    else { UndoneCall(s, a, j); }
  }

  lemma UndoneCall(s: State, a: Action, j: JobId)
    requires Enabled(s, a) && SliceOk(SliceOf(s, j)) && UndoesWell(a, j) && Undone(SliceOf(s, j))
    requires !a.Crash? && !a.Finish? && !a.Take? && !a.Decrypt? && !a.Analyze? && !a.Wipe? && !a.Progress? && !a.Check? && !a.Abandon?
    ensures Undone(SliceOf(Next(s, a), j))
  {
    match a {
      case Begin(i, c, retained, withKeylog) => UndoneBegin(s, i, c, retained, withKeylog, j);
      case Advance(i) => UndoneAdvance(s, i, j);
      case Fail(i, keyCreated) => UndoneFail(s, i, keyCreated, j);
      case Undo(i, ok) => UndoGoesOn(s, i, ok, j);
      case CancelJob(i, saved) => UndoneCancel(s, i, saved, j);
      case Close => UndoneClose(s, j);
    }
  }

  predicate AllUndoWell(trace: seq<Action>, j: JobId) { forall i :: 0 <= i < |trace| ==> UndoesWell(trace[i], j) }

  lemma {:induction false} UndoneRun(s: State, trace: seq<Action>, j: JobId)
    requires Inv(s) && Runs(s, trace) && CrashFree(trace) && AllUndoWell(trace, j) && Undone(SliceOf(s, j))
    ensures Undone(SliceOf(After(s, trace), j))
    decreases |trace|
  {
    if trace != [] {
      assert !trace[0].Crash? && UndoesWell(trace[0], j);
      UndoneStep(s, trace[0], j);
      NextInv(s, trace[0]);
      assert forall i :: 0 <= i < |trace| - 1 ==> trace[1..][i] == trace[i + 1];
      UndoneRun(Next(s, trace[0]), trace[1..], j);
    }
  }

  /** Nothing encrypted, decrypted, stored or remembered. */
  predicate NoTrace(t: State, j: JobId) {
    && Cipher(j, Pcap) !in t.store.disk && Cipher(j, TlsKeylog) !in t.store.disk
    && EnvelopeId(j, Pcap) !in t.store.envelopes && EnvelopeId(j, TlsKeylog) !in t.store.envelopes
    && j !in t.store.rows && j !in t.memory.jobs
  }

  lemma FailedFrom(s: State, j: JobId, keyCreated: bool, later: seq<Action>)
    requires Inv(s) && CanFail(s, j) && Runs(DoFail(s, j, keyCreated), later) && CrashFree(later) && AllUndoWell(later, j)
    ensures j !in After(DoFail(s, j, keyCreated), later).memory.submits ==> NoTrace(After(DoFail(s, j, keyCreated), later), j)
  {
    FailingStarts(s, j, keyCreated);
    NextInv(s, Fail(j, keyCreated));
    UndoneRun(DoFail(s, j, keyCreated), later, j);
  }

  /** A submission that fails at any of its effects leaves no encrypted file, no envelope row, no job and
      no job row, whatever else happens meanwhile, if what it undoes can be undone. */
  lemma FailedSubmissionsLeaveNoTrace(s0: State, trace: seq<Action>, j: JobId, keyCreated: bool, later: seq<Action>)
    requires Initial(s0) && Runs(s0, trace) && CanFail(After(s0, trace), j)
    requires Runs(DoFail(After(s0, trace), j, keyCreated), later) && CrashFree(later) && AllUndoWell(later, j)
    ensures var t := After(DoFail(After(s0, trace), j, keyCreated), later); j !in t.memory.submits ==> NoTrace(t, j)
  {
    InitialInv(s0);
    RunInv(s0, trace);
    FailedFrom(After(s0, trace), j, keyCreated, later);
  }
}
