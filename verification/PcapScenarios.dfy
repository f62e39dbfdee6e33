/**
 Runs that show where the promises of the PCAP job manager stop.  They start from a fresh
 installation; job 0 belongs to case 7, has no keylog and does not retain its input.
 */
module PcapScenarios {
  import opened Wrappers
  import opened JobErrors
  import opened PcapMachine
  import opened PcapRuns
  import opened PcapInvariants
  import opened PcapTheorems
  import opened PcapRestart

  datatype Mark = Plain | OddMark | MalformedMark

  const WithBuilder := Config(true, false)

  /** One job's world: its files, row, envelope row, and the process around it. */
  function Scene(disk: set<Path>, row: Option<Row>, stored: bool, key: bool, process: Process, memory: Memory, mark: Mark): State {
    State(
      Store(disk, if row.Some? then map[0 := row.value] else map[],
            if stored then map[EnvelopeId(0, Pcap) := Envelope(7, 0)] else map[],
            if key then map[7 := 0] else map[], {}),
      process, memory,
      History({0}, if key then 1 else 0, {}, if mark.OddMark? then {0} else {}, if mark.MalformedMark? then {0} else {}, {}), WithBuilder)
  }

  const NoMemory := Memory(map[], map[], [], Idle, false)

  const Fresh := State(Store({}, map[], map[], map[], {}), Down, NoMemory, History({}, 0, {}, {}, {}, {}), WithBuilder)

  predicate Goes(s: State, a: Action, t: State) { Enabled(s, a) && Next(s, a) == t }

  lemma Go(allowed: Analysis -> bool, s: State, a: Action, t: State)
    requires ReachesReporting(allowed, Fresh, s) && Goes(s, a, t) && Reports(a, allowed)
    ensures ReachesReporting(allowed, Fresh, t)
  {
    ReportingNext(allowed, Fresh, s, a);
  }

  function Submitting(phase: Phase, sealed: map<Purpose, KeyId>): Memory {
    Memory(map[], map[0 := Submission(7, false, false, phase, sealed)], [], Idle, false)
  }

  function Working(status: Status, error: Option<string>, queue: seq<JobId>, worker: Worker): Memory {
    Memory(map[0 := Job(7, false, status, error, true, false, true, false, false)], map[], queue, worker, false)
  }

  function RowAt(status: Status, error: Option<string>, path: bool): Option<Row> {
    Some(Row(7, false, status, error, path, false))
  }

  const Begun := Scene({Upload(0, Pcap)}, None, false, false, Up, Submitting(Ready(Pcap), map[]), Plain)
  const KeyedScene := Scene({Upload(0, Pcap)}, None, false, true, Up, Submitting(Keyed(Pcap, 0), map[]), Plain)
  const SealedScene := Scene({Upload(0, Pcap), Cipher(0, Pcap)}, None, false, true, Up, Submitting(Sealed(Pcap), map[Pcap := 0]), Plain)
  const MovedScene := Scene({Cipher(0, Pcap)}, None, false, true, Up, Submitting(Moved(Pcap), map[Pcap := 0]), Plain)
  const StoredScene := Scene({Cipher(0, Pcap)}, None, true, true, Up, Submitting(Persisting, map[Pcap := 0]), Plain)
  const QueuedScene := Scene({Cipher(0, Pcap)}, RowAt(Queued, None, true), true, true, Up, Working(Queued, None, [0], Idle), Plain)

  lemma ToBegun(allowed: Analysis -> bool)
    ensures ReachesReporting(allowed, Fresh, Begun)
  {
    ReportingSelf(allowed, Fresh);
    Go(allowed, Fresh, Boot([]), Fresh.(process := Restoring([], None)));
    Go(allowed, Fresh.(process := Restoring([], None)), Serve, Fresh.(process := Up));
    Go(allowed, Fresh.(process := Up), Begin(0, 7, false, false), Begun);
  }

  lemma ToStored(allowed: Analysis -> bool)
    ensures ReachesReporting(allowed, Fresh, StoredScene)
  {
    ToBegun(allowed);
    assert map[][7 := 0] == map[7 := 0] && map[][Pcap := 0] == map[Pcap := 0];
    Go(allowed, Begun, Advance(0), KeyedScene);
    Go(allowed, KeyedScene, Advance(0), SealedScene);
    assert {Upload(0, Pcap), Cipher(0, Pcap)} - {Upload(0, Pcap)} == {Cipher(0, Pcap)};
    Go(allowed, SealedScene, Advance(0), MovedScene);
    Go(allowed, MovedScene, Advance(0), StoredScene);
  }

  // ---------------------------------------------------------------- a decrypted file that cannot be removed

  const Capture := {Cipher(0, Pcap)}
  const Both := {Cipher(0, Pcap), Active(0, Pcap)}
  const Left := {Active(0, Pcap)}
  const Pending := Some(CLEANUP_PENDING)

  /** The worker has job 0 in hand; its capture is still stored. */
  function Running0(disk: set<Path>, worker: Worker, mark: Mark): State {
    Scene(disk, RowAt(Running, None, true), true, true, Up, Working(Running, None, [], worker), mark)
  }

  function MarkOf(st: Status): Mark { if Terminal(st) then Plain else OddMark }

  function Finishing0(st: Status, stage: FinishStage, pcapDone: bool): Worker {
    Finishing(0, stage, st, Pending, pcapDone, true)
  }

  lemma ToDecrypting(allowed: Analysis -> bool)
    ensures ReachesReporting(allowed, Fresh, Running0(Capture, Decrypting(0, Pcap), Plain))
  {
    ToStored(allowed);
    var registered := Scene(Capture, RowAt(Queued, None, true), true, true, Up,
      Working(Queued, None, [], Idle).(submits := map[0 := Submission(7, false, false, Registered, map[Pcap := 0])]), Plain);
    Go(allowed, StoredScene, Advance(0), registered);
    assert registered.memory.submits - {0} == map[];
    Go(allowed, registered, Advance(0), QueuedScene);
    var checking := Scene(Capture, RowAt(Queued, None, true), true, true, Up, Working(Queued, None, [], Checking(0)), Plain);
    Go(allowed, QueuedScene, Take, checking);
    Go(allowed, checking, Check, Running0(Capture, Decrypting(0, Pcap), Plain));
  }

  lemma ToAnalyzing(allowed: Analysis -> bool)
    ensures ReachesReporting(allowed, Fresh, Running0(Both, Analyzing(0), Plain))
  {
    ToDecrypting(allowed);
    Go(allowed, Running0(Capture, Decrypting(0, Pcap), Plain), Decrypt(Opened), Running0(Both, Analyzing(0), Plain));
  }

  /** The analysis ends with status st, short of complete, and no index. */
  predicate EndsAs(a: Analysis, st: Status) {
    Conclude(WithBuilder, a).0 == st && !Conclude(WithBuilder, a).2 && !st.Complete?
  }

  lemma ToFinishing(allowed: Analysis -> bool, a: Analysis, st: Status)
    requires allowed(a) && EndsAs(a, st)
    ensures ReachesReporting(allowed, Fresh, Running0(Both, Finishing0(st, PcapFile, false), MarkOf(st)))
  {
    ToAnalyzing(allowed);
    var wiping := Wiping(0, Pcap, false, st, Conclude(WithBuilder, a).1, false);
    assert {} + {0 as JobId} == {0};
    Go(allowed, Running0(Both, Analyzing(0), Plain), Analyze(a), Running0(Both, wiping, MarkOf(st)));
    Go(allowed, Running0(Both, wiping, MarkOf(st)), Wipe(false), Running0(Both, Finishing0(st, PcapFile, false), MarkOf(st)));
  }

  function Forgot(worker: Worker, mark: Mark): State {
    Scene(Left, RowAt(Running, None, true), false, true, Up, Working(Running, None, [], worker), mark)
  }

  lemma ToDropKey(allowed: Analysis -> bool, a: Analysis, st: Status)
    requires allowed(a) && EndsAs(a, st)
    ensures ReachesReporting(allowed, Fresh, Forgot(Finishing0(st, DropKey, true), MarkOf(st)))
  {
    var m := MarkOf(st);
    ToFinishing(allowed, a, st);
    assert Both - Capture == Left;
    Go(allowed, Running0(Both, Finishing0(st, PcapFile, false), m), Finish(true), Running0(Left, Finishing0(st, PcapRow, true), m));
    assert map[EnvelopeId(0, Pcap) := Envelope(7, 0)] - {EnvelopeId(0, Pcap)} == map[];
    Go(allowed, Running0(Left, Finishing0(st, PcapRow, true), m), Finish(true), Forgot(Finishing0(st, KeylogFile, true), m));
    Go(allowed, Forgot(Finishing0(st, KeylogFile, true), m), Finish(true), Forgot(Finishing0(st, KeylogRow, true), m));
    Go(allowed, Forgot(Finishing0(st, KeylogRow, true), m), Finish(true), Forgot(Finishing0(st, DropKey, true), m));
  }

  /** After `_finish`: nothing stored but the row, whose paths are cleared, and the plaintext. */
  function Ended(row: Option<Row>, process: Process, memory: Memory, mark: Mark): State {
    var s := Scene(Left, row, false, true, process, memory, mark);
    s.(store := s.store.(keys := map[]), history := s.history.(published := {0}))
  }

  function PublishedScene(st: Status): State { Ended(RowAt(st, Pending, false), Up, Working(st, Pending, [], Idle), MarkOf(st)) }

  lemma ToPublished(allowed: Analysis -> bool, a: Analysis, st: Status)
    requires allowed(a) && EndsAs(a, st)
    ensures ReachesReporting(allowed, Fresh, PublishedScene(st))
  {
    ToDropKey(allowed, a, st);
    var before := Forgot(Finishing0(st, Publish, true), MarkOf(st));
    var dropped := before.(store := before.store.(keys := map[]));
    assert map[7 as CaseId := 0 as KeyId] - {7} == map[];
    Go(allowed, Forgot(Finishing0(st, DropKey, true), MarkOf(st)), Finish(true), dropped);
    CleanupTextIsKept(st);
    assert {} + {0 as JobId} == {0};
    Go(allowed, dropped, Finish(true), PublishedScene(st));
  }

  function Restarting(st: Status): State { Ended(RowAt(st, Pending, false), Restoring([0], None), NoMemory, MarkOf(st)) }

  lemma ToRestart(allowed: Analysis -> bool, a: Analysis, st: Status)
    requires allowed(a) && EndsAs(a, st)
    ensures ReachesReporting(allowed, Fresh, Restarting(st))
  {
    ToPublished(allowed, a, st);
    var down := Ended(RowAt(st, Pending, false), Down, NoMemory, MarkOf(st));
    Go(allowed, PublishedScene(st), Crash, down);
    Go(allowed, down, Boot([0]), Restarting(st));
  }

  function Reconciling0(st: Status, stage: RestoreStage): State {
    Ended(RowAt(st, Pending, false), Restoring([], Some(Cursor(0, stage, false, false, false, false))), NoMemory, MarkOf(st))
  }

  lemma ToReclaim(allowed: Analysis -> bool, a: Analysis, st: Status)
    requires allowed(a) && EndsAs(a, st)
    ensures ReachesReporting(allowed, Fresh, Reconciling0(st, Reclaim))
  {
    ToRestart(allowed, a, st);
    assert [0 as JobId][1..] == [];
    Go(allowed, Restarting(st), Restore(true), Reconciling0(st, WipePcap));
    Go(allowed, Reconciling0(st, WipePcap), Restore(true), Reconciling0(st, WipeKeylog));
    Go(allowed, Reconciling0(st, WipeKeylog), Restore(true), Reconciling0(st, CipherPcap));
    Go(allowed, Reconciling0(st, CipherPcap), Restore(true), Reconciling0(st, CipherKeylog));
    Go(allowed, Reconciling0(st, CipherKeylog), Restore(true), Reconciling0(st, Reclaim));
  }

  lemma ToReconciled(allowed: Analysis -> bool, a: Analysis, st: Status)
    requires allowed(a) && EndsAs(a, st)
    ensures Enabled(Reconciling0(st, Save), Restore(true))
    ensures ReachesReporting(allowed, Fresh, Next(Reconciling0(st, Save), Restore(true)))
  {
    ToReclaim(allowed, a, st);
    Go(allowed, Reconciling0(st, Reclaim), Restore(true), Reconciling0(st, Save));
    ReportingNext(allowed, Fresh, Reconciling0(st, Save), Restore(true));
  }

  /** A flagged job whose plaintext the next restart does not look for, although everything it tries
      succeeds: the decrypted file could not be removed, the encrypted one and its row were, and the
      job was published with its paths cleared. */
  lemma FlaggedPlaintextStays(allowed: Analysis -> bool, a: Analysis, st: Status)
    requires allowed(a) && EndsAs(a, st) && Terminal(st)
    ensures var s := Restarting(st);
      ReachesReporting(allowed, Fresh, s) && 0 in s.store.rows && CleanupPending(s.store.rows[0].status, s.store.rows[0].error) && Overlooked(s, 0, Pcap)
    ensures exists t ::
      && ReachesReporting(allowed, Fresh, t) && t.process == Restoring([], None) && 0 in t.store.rows
      && t.store.rows[0].status == st && t.store.rows[0].error == Some(CLEANUP_PENDING) && Active(0, Pcap) in t.store.disk
  {
    ToRestart(allowed, a, st);
    ToReconciled(allowed, a, st);
    CleanupTextIsKept(st);
    assert ReachesReporting(allowed, Fresh, Next(Reconciling0(st, Save), Restore(true)));
  }

  // ---------------------------------------------------------------- an engine status that is not terminal

  /** The promise of `TerminalJobsAreAccountedFor` needs its condition: when the engine reports a
      status that is not terminal, one failed removal is enough for a restart to present the job as
      failed and merely interrupted, with its decrypted capture still on disk. */
  lemma OddReportLosesPlaintext(allowed: Analysis -> bool, a: Analysis)
    requires allowed(a) && !TerminalReport(a)
    ensures exists s ::
      && ReachesReporting(allowed, Fresh, s) && 0 in s.history.odd && 0 in s.store.rows
      && s.store.rows[0].status == Failed && s.store.rows[0].error == Some(INTERRUPTED)
      && Active(0, Pcap) in s.store.disk
  {
    OddIff(WithBuilder, a);
    ToReconciled(allowed, a, a.status);
    assert ReachesReporting(allowed, Fresh, Next(Reconciling0(a.status, Save), Restore(true)));
  }

  /** The condition is exact.  Whatever ways an analysis may end in, jobs are accounted for in every
      run if and only if every status it reports is terminal. */
  lemma AccountedIffReportsAreTerminal(allowed: Analysis -> bool)
    ensures (forall s0, s, j :: Initial(s0) && ReachesReporting(allowed, s0, s) ==> Accounted(s, j))
            <==> (forall a :: allowed(a) ==> TerminalReport(a))
  {
    if forall a :: allowed(a) ==> TerminalReport(a) {
      forall s0, s, j | Initial(s0) && ReachesReporting(allowed, s0, s) ensures Accounted(s, j) {
        var trace :| ReportingRun(allowed, s0, trace) && After(s0, trace) == s;
        HonestReports(allowed, s0, trace);
        TerminalJobsAreAccountedFor(s0, trace, j);
      }
    } else {
      var a :| allowed(a) && !TerminalReport(a);
      OddReportLosesPlaintext(allowed, a);
      var s :| ReachesReporting(allowed, Fresh, s) && 0 in s.history.odd && 0 in s.store.rows
        && s.store.rows[0].status == Failed && s.store.rows[0].error == Some(INTERRUPTED) && Active(0, Pcap) in s.store.disk;
      assert Initial(Fresh) && !Accounted(s, 0);
    }
  }

  // ---------------------------------------------------------------- a malformed report that says complete

  function Unreadable(disk: set<Path>, stored: bool, worker: Worker): State {
    Scene(disk, RowAt(Running, None, true), stored, true, Up, Working(Running, None, [], worker), MalformedMark)
  }

  function Completing(reason: string, stage: FinishStage, pcapDone: bool): Worker {
    Finishing(0, stage, Complete, Some(reason), pcapDone, true)
  }

  lemma ToCompleting(allowed: Analysis -> bool, reason: string)
    requires allowed(Malformed(Complete, reason))
    ensures ReachesReporting(allowed, Fresh, Unreadable(Capture, true, Completing(reason, PcapFile, false)))
  {
    ToAnalyzing(allowed);
    var wiping := Wiping(0, Pcap, false, Complete, Some(reason), false);
    assert {} + {0 as JobId} == {0};
    Go(allowed, Running0(Both, Analyzing(0), Plain), Analyze(Malformed(Complete, reason)), Unreadable(Both, true, wiping));
    assert Both - Left == Capture;
    Go(allowed, Unreadable(Both, true, wiping), Wipe(true), Unreadable(Capture, true, Completing(reason, PcapFile, false)));
  }

  lemma ToCompleteKey(allowed: Analysis -> bool, reason: string)
    requires allowed(Malformed(Complete, reason))
    ensures ReachesReporting(allowed, Fresh, Unreadable({}, false, Completing(reason, DropKey, true)))
  {
    ToCompleting(allowed, reason);
    assert Capture - Capture == {};
    Go(allowed, Unreadable(Capture, true, Completing(reason, PcapFile, false)), Finish(true), Unreadable({}, true, Completing(reason, PcapRow, true)));
    assert map[EnvelopeId(0, Pcap) := Envelope(7, 0)] - {EnvelopeId(0, Pcap)} == map[];
    Go(allowed, Unreadable({}, true, Completing(reason, PcapRow, true)), Finish(true), Unreadable({}, false, Completing(reason, KeylogFile, true)));
    Go(allowed, Unreadable({}, false, Completing(reason, KeylogFile, true)), Finish(true), Unreadable({}, false, Completing(reason, KeylogRow, true)));
    Go(allowed, Unreadable({}, false, Completing(reason, KeylogRow, true)), Finish(true), Unreadable({}, false, Completing(reason, DropKey, true)));
  }

  /** Such a report ends a job as complete, with a builder and without an index. */
  lemma MalformedReportSkipsIndex(allowed: Analysis -> bool, reason: string)
    requires allowed(Malformed(Complete, reason))
    ensures exists s ::
      && ReachesReporting(allowed, Fresh, s) && s.config.hasBuilder && 0 in s.store.rows
      && s.store.rows[0].status.Complete? && 0 !in s.store.indexed
  {
    ToCompleteKey(allowed, reason);
    var before := Unreadable({}, false, Completing(reason, Publish, true));
    var dropped := before.(store := before.store.(keys := map[]));
    assert map[7 as CaseId := 0 as KeyId] - {7} == map[];
    Go(allowed, Unreadable({}, false, Completing(reason, DropKey, true)), Finish(true), dropped);
    ReportingNext(allowed, Fresh, dropped, Finish(true));
    assert ReachesReporting(allowed, Fresh, Next(dropped, Finish(true)));
  }

  /** Where an index is built, complete jobs have one in every run. */
  ghost predicate CompleteIsIndexed(allowed: Analysis -> bool) {
    forall s0, s, j :: Initial(s0) && ReachesReporting(allowed, s0, s) ==>
      (s.config.hasBuilder && j in s.store.rows && s.store.rows[j].status.Complete? ==> j in s.store.indexed)
  }

  /** They do if and only if no report that says complete is malformed. */
  lemma CompleteIsIndexedIff(allowed: Analysis -> bool)
    ensures CompleteIsIndexed(allowed) <==> (forall a :: allowed(a) ==> ReadableReport(a))
  {
    if forall a :: allowed(a) ==> ReadableReport(a) {
      forall s0, s, j | Initial(s0) && ReachesReporting(allowed, s0, s)
        ensures s.config.hasBuilder && j in s.store.rows && s.store.rows[j].status.Complete? ==> j in s.store.indexed
      {
        var trace :| ReportingRun(allowed, s0, trace) && After(s0, trace) == s;
        HonestReports(allowed, s0, trace);
        CompleteIsClean(s0, trace, j);
      }
    } else {
      var a :| allowed(a) && !ReadableReport(a);
      MalformedReportSkipsIndex(allowed, a.reason);
      assert Initial(Fresh);
    }
  }

  // ---------------------------------------------------------------- a key check during a submission

  /** Job 0 is between sealing and storing its envelope; job 1, of the same case, failed at once. */
  function Failing(phase: Phase): State {
    var s := Scene(Capture + {Upload(1, Pcap)}, None, false, true, Up, Submitting(Moved(Pcap), map[Pcap := 0]), Plain);
    s.(memory := s.memory.(submits := s.memory.submits[1 := Submission(7, false, false, phase, map[])]),
       history := s.history.(used := {0, 1}))
  }

  lemma ToSecond(allowed: Analysis -> bool)
    ensures ReachesReporting(allowed, Fresh, Failing(Ready(Pcap)))
  {
    ToBegun(allowed);
    assert map[][7 := 0] == map[7 := 0] && map[][Pcap := 0] == map[Pcap := 0];
    Go(allowed, Begun, Advance(0), KeyedScene);
    Go(allowed, KeyedScene, Advance(0), SealedScene);
    assert {Upload(0, Pcap), Cipher(0, Pcap)} - {Upload(0, Pcap)} == Capture;
    Go(allowed, SealedScene, Advance(0), MovedScene);
    assert {0 as JobId} + {1} == {0, 1};
    Go(allowed, MovedScene, Begin(1, 7, false, false), Failing(Ready(Pcap)));
  }

  lemma ToFailing(allowed: Analysis -> bool)
    ensures ReachesReporting(allowed, Fresh, Failing(UndoFile(TlsKeylog)))
  {
    ToSecond(allowed);
    Go(allowed, Failing(Ready(Pcap)), Fail(1, false), Failing(UndoFile(Pcap)));
    Go(allowed, Failing(UndoFile(Pcap)), Undo(1, true), Failing(UndoRow(Pcap)));
    Go(allowed, Failing(UndoRow(Pcap)), Undo(1, true), Failing(UndoFile(TlsKeylog)));
  }

  lemma ToUndoKey(allowed: Analysis -> bool)
    ensures ReachesReporting(allowed, Fresh, Failing(UndoKey))
  {
    ToFailing(allowed);
    Go(allowed, Failing(UndoFile(TlsKeylog)), Undo(1, true), Failing(UndoRow(TlsKeylog)));
    Go(allowed, Failing(UndoRow(TlsKeylog)), Undo(1, true), Failing(UndoKey));
  }

  /** The promise of `StoredEnvelopesOpen` needs its condition: two submissions of one case are
      enough to store an envelope row whose case has no key. */
  lemma KeyRaceLosesEvidence(allowed: Analysis -> bool)
    ensures exists s ::
      && ReachesReporting(allowed, Fresh, s) && EnvelopeId(0, Pcap) in s.store.envelopes
      && s.store.envelopes[EnvelopeId(0, Pcap)].caseId == 7 && 7 !in s.store.keys
  {
    ToUndoKey(allowed);
    var dropped := Next(Failing(UndoKey), Undo(1, true));
    ReportingNext(allowed, Fresh, Failing(UndoKey), Undo(1, true));
    ReportingNext(allowed, Fresh, dropped, Advance(0));
    assert ReachesReporting(allowed, Fresh, Next(dropped, Advance(0)));
  }
}
