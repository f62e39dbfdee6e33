/**
 The inductive invariant of the PCAP job machine.  All a state says about one job is collected in a
 `Slice`; the invariant is a predicate on slices (no quantifier), two facts about the queue and
 the restart listing, and one fact about case keys.
 */
module PcapInvariants {
  import opened Wrappers
  import opened JobErrors
  import opened PcapMachine

  datatype Mode = ModeDown | ModeRestoring | ModeUp

  datatype Slice = Slice(
    mode: Mode, used: bool, odd: bool, malformed: bool, published: bool, indexed: bool, hasBuilder: bool,
    cipherPcap: bool, cipherKeylog: bool, activePcap: bool, activeKeylog: bool,
    storedPcap: Option<Envelope>, storedKeylog: Option<Envelope>,
    row: Option<Row>, job: Option<Job>, submission: Option<Submission>,
    queued: bool, worker: Option<Worker>, listed: bool, cursor: Option<Cursor>)

  function Lookup<K, V>(m: map<K, V>, k: K): Option<V> {
    if k in m then Some(m[k]) else None
  }

  function ModeOf(p: Process): Mode {
    match p case Down => ModeDown case Restoring(_, _) => ModeRestoring case Up => ModeUp
  }

  function CursorAt(p: Process, j: JobId): Option<Cursor> {
    if p.Restoring? && p.cursor.Some? && p.cursor.value.job == j then p.cursor else None
  }

  function SliceOf(s: State, j: JobId): Slice {
    Slice(
      ModeOf(s.process), j in s.history.used, j in s.history.odd, j in s.history.malformed, j in s.history.published, j in s.store.indexed, s.config.hasBuilder,
      Cipher(j, Pcap) in s.store.disk, Cipher(j, TlsKeylog) in s.store.disk,
      Active(j, Pcap) in s.store.disk, Active(j, TlsKeylog) in s.store.disk,
      Lookup(s.store.envelopes, EnvelopeId(j, Pcap)), Lookup(s.store.envelopes, EnvelopeId(j, TlsKeylog)),
      Lookup(s.store.rows, j), Lookup(s.memory.jobs, j), Lookup(s.memory.submits, j),
      j in s.memory.queue, if !s.memory.worker.Idle? && s.memory.worker.job == j then Some(s.memory.worker) else None,
      s.process.Restoring? && j in s.process.todo, CursorAt(s.process, j))
  }

  // ---------------------------------------------------------------- what a terminal job owes

  /** Shown as "cleanup pending", and never as complete. */
  predicate Flagged(status: Status, error: Option<string>) {
    error == Some(CLEANUP_PENDING) && !status.Complete?
  }

  predicate NoActive(x: Slice) { !x.activePcap && !x.activeKeylog }
  predicate NoKeylog(x: Slice) { !x.cipherKeylog && x.storedKeylog.None? }
  predicate NoPcap(x: Slice) { !x.cipherPcap && x.storedPcap.None? }

  /** Nothing decrypted is left, no keylog, and no capture unless the job keeps its input. */
  predicate Clean(x: Slice, retained: bool) {
    NoActive(x) && NoKeylog(x) && (!retained ==> NoPcap(x))
  }

  // ---------------------------------------------------------------- the parts of the invariant

  predicate RowOk(x: Slice, r: Row) {
    && x.used
    && (x.odd ==> !r.status.Complete?)
    && (r.status.Complete? && x.hasBuilder ==> x.indexed || x.malformed)
    && (r.retained ==> x.cipherPcap)
    && (x.cipherPcap ==> x.storedPcap.Some?) && (x.cipherKeylog ==> x.storedKeylog.Some?)
    && (x.storedPcap.Some? ==> x.storedPcap.value.caseId == r.caseId)
    && (x.storedKeylog.Some? ==> x.storedKeylog.value.caseId == r.caseId)
    && (!x.odd ==> if Terminal(r.status) then Flagged(r.status, r.error) || Clean(x, r.retained) else Tracked(x, r))
  }

  /** Whatever a running job left on disk, the next restart finds it through its row or envelopes. */
  predicate Tracked(x: Slice, r: Row) {
    r.path && (x.activeKeylog ==> r.keylogPath)
  }

  predicate JobOk(x: Slice, m: Job) {
    && x.row.Some? && m.retained == x.row.value.retained && m.caseId == x.row.value.caseId
    && (Terminal(x.row.value.status) ==> m.status == x.row.value.status)
    && (!x.odd ==>
          if Terminal(m.status) then Flagged(m.status, m.error) || Clean(x, m.retained)
          else
            && m.path && m.evidence && m.keylogPath == m.keylog == x.row.value.keylogPath
            && (!m.keylog ==> NoKeylog(x) && !x.activeKeylog))
  }

  predicate PcapStored(x: Slice, u: Submission) { x.cipherPcap && x.storedPcap.Some? && Pcap in u.sealed }

  /** The encrypted inputs of a job whose analysis is not over are on disk. */
  predicate InputsKept(x: Slice, m: Job) { x.cipherPcap && (m.keylog ==> x.cipherKeylog) }

  predicate SubmissionOk(x: Slice, u: Submission) {
    && x.used && !x.odd && !x.queued && !x.published && NoActive(x) && x.worker.None?
    && if u.phase.Registered? then x.job.Some? && !Terminal(x.job.value.status) && InputsKept(x, x.job.value)
       else
         && x.job.None? && x.row.None?
         && (x.cipherPcap || x.storedPcap.Some? ==> Pcap in u.sealed)
         && (x.cipherKeylog || x.storedKeylog.Some? ==> TlsKeylog in u.sealed)
         && (x.storedPcap.Some? ==> x.storedPcap.value.caseId == u.caseId)
         && (x.storedKeylog.Some? ==> x.storedKeylog.value.caseId == u.caseId)
         && match u.phase
            case Keyed(p, _) => p !in u.sealed && TlsKeylog !in u.sealed && (p.TlsKeylog? ==> u.withKeylog && PcapStored(x, u))
            case Ready(p) => p !in u.sealed && TlsKeylog !in u.sealed && (p.TlsKeylog? ==> u.withKeylog && PcapStored(x, u))
            case Sealed(p) => p in u.sealed && (if p.Pcap? then x.cipherPcap && TlsKeylog !in u.sealed else u.withKeylog && x.cipherKeylog && PcapStored(x, u))
            case Moved(p) => p in u.sealed && (if p.Pcap? then x.cipherPcap && TlsKeylog !in u.sealed else u.withKeylog && x.cipherKeylog && PcapStored(x, u))
            case Persisting =>
              PcapStored(x, u) && if u.withKeylog then x.cipherKeylog && x.storedKeylog.Some? else TlsKeylog !in u.sealed
            case _ => true
  }

  predicate QueuedOk(x: Slice) {
    && x.job.Some? && !Terminal(x.job.value.status) && InputsKept(x, x.job.value)
    && !x.odd && !x.published && NoActive(x) && x.worker.None? && x.submission.None?
  }

  function StageRank(x: FinishStage): nat {
    match x
    case PcapFile => 0 case PcapRow => 1 case KeylogFile => 2
    case KeylogRow => 3 case DropKey => 4 case Publish => 5
  }

  /** What `_finish` has already achieved, by stage. */
  predicate FinishProgress(x: Slice, w: Worker, m: Job)
    requires w.Finishing?
  {
    var k := StageRank(w.stage);
    && (m.retained ==> w.pcapDone)
    && (k >= 1 && !m.retained && w.pcapDone ==> !x.cipherPcap)
    && (k >= 2 && !m.retained && w.pcapDone ==> x.storedPcap.None?)
    && (!m.keylog ==> w.keylogDone)
    && (k >= 3 && w.keylogDone ==> !x.cipherKeylog)
    && (k >= 4 && w.keylogDone ==> x.storedKeylog.None?)
  }

  /** An envelope row is deleted only once its file is gone. */
  predicate FileFirst(x: Slice, w: Worker, m: Job)
    requires w.Finishing?
  {
    && (w.stage.PcapRow? && !m.retained && w.pcapDone ==> !x.cipherPcap)
    && (w.stage.KeylogRow? && m.keylog && w.keylogDone ==> !x.cipherKeylog)
  }

  /** The outcome the worker carries to `_finish`. */
  predicate OutcomeOk(x: Slice, status: Status) {
    && (x.odd <==> !Terminal(status))
    && (status.Complete? && x.hasBuilder ==> x.indexed || x.malformed)
  }

  predicate WorkerOk(x: Slice, w: Worker) {
    && x.job.Some? && !Terminal(x.job.value.status) && !x.published
    && (!w.Finishing? ==> InputsKept(x, x.job.value))
    && match w
       case Idle => false
       case Checking(_) => NoActive(x) && !x.odd
       case Decrypting(_, p) => !x.activeKeylog && !x.odd && (p.TlsKeylog? ==> x.job.value.keylog && x.activePcap)
       case Analyzing(_) => !x.odd && x.activePcap && (x.job.value.keylog ==> x.activeKeylog)
       case Wiping(_, p, withKeylog, status, error, failed) =>
         && OutcomeOk(x, status)
         && (!x.odd && !withKeylog ==> !x.activeKeylog)
         && (p.TlsKeylog? ==> withKeylog && (failed || !x.activePcap))
       case Finishing(_, _, status, error, _, _) =>
         && OutcomeOk(x, status) && FileFirst(x, w, x.job.value)
         && (!x.odd ==> (Flagged(status, error) || NoActive(x)) && FinishProgress(x, w, x.job.value))
  }

  function RestoreRank(x: RestoreStage): nat {
    match x
    case WipePcap => 0 case WipeKeylog => 1 case CipherPcap => 2 case ForgetPcap => 3
    case CipherKeylog => 4 case ForgetKeylog => 5 case Reclaim => 6 case Save => 7
  }

  predicate CursorOk(x: Slice, c: Cursor) {
    && x.row.Some? && x.job.None? && !x.listed
    && c.evidence == x.storedPcap.Some?
    && c.keylog == x.storedKeylog.Some?
    && var r, k := x.row.value, RestoreRank(c.stage);
    && (c.stage.ForgetPcap? ==> c.evidence && !r.retained && !x.cipherPcap)
    && (c.stage.ForgetKeylog? ==> c.keylog && !x.cipherKeylog)
    && (r.status.Complete? ==> !c.failed)
    && (!x.odd && !Terminal(r.status) && !c.failed ==>
          && (k >= 1 ==> !x.activePcap)
          && (k >= 2 ==> !x.activeKeylog)
          && (k >= 4 && !r.retained ==> NoPcap(x))
          && (k >= 6 ==> NoKeylog(x)))
  }

  predicate ModeOk(x: Slice) {
    && (!x.mode.ModeUp? ==> x.submission.None? && !x.queued && x.worker.None?)
    && (x.mode.ModeDown? ==> x.job.None?)
    && (!x.mode.ModeRestoring? ==> !x.listed && x.cursor.None?)
    && (x.mode.ModeRestoring? && x.row.Some? ==> x.job.Some? || x.listed || x.cursor.Some?)
    && (x.listed ==> x.row.Some? && x.job.None?)
  }

  predicate Unseen(x: Slice) {
    && !x.odd && !x.malformed && !x.published && NoActive(x) && NoPcap(x) && NoKeylog(x)
    && x.row.None? && x.job.None? && x.submission.None? && !x.queued && x.worker.None?
  }

  predicate SliceOk(x: Slice) {
    && (!x.used ==> Unseen(x))
    && ModeOk(x)
    && (x.row.Some? ==> RowOk(x, x.row.value))
    && (x.job.Some? ==> JobOk(x, x.job.value))
    && (x.submission.Some? ==> SubmissionOk(x, x.submission.value))
    && (x.queued ==> QueuedOk(x))
    && (x.worker.Some? ==> WorkerOk(x, x.worker.value))
    && (x.cursor.Some? ==> CursorOk(x, x.cursor.value))
  }

  predicate Distinct(q: seq<JobId>) {
    forall i, k :: 0 <= i < k < |q| ==> q[i] != q[k]
  }

  // ---------------------------------------------------------------- keys

  predicate Opens(s: State, c: CaseId, key: KeyId) {
    c in s.history.raced || (c in s.store.keys && s.store.keys[c] == key)
  }

  /** Every stored envelope, and every sealed one still waiting for its row, opens with the key its
      case holds now, unless that case is in `raced`. */
  predicate KeysOk(s: State) {
    && (forall e :: e in s.store.envelopes ==> Opens(s, s.store.envelopes[e].caseId, s.store.envelopes[e].key))
    && (forall j :: j in s.memory.submits && InTransit(s.memory.submits[j])
          ==> Opens(s, s.memory.submits[j].caseId, TransitKey(s.memory.submits[j])))
  }

  /** The key of row `j`'s case has been checked since the restart began. */
  predicate Settled(s: State, j: JobId)
    requires s.process.Restoring?
  {
    j in s.memory.jobs || (s.process.cursor.Some? && s.process.cursor.value.job == j && s.process.cursor.value.stage.Save?)
  }

  /** The row being reconciled belongs to case `c` and has not checked the case key yet. */
  predicate Owing(s: State, c: CaseId)
    requires s.process.Restoring?
  {
    && s.process.cursor.Some? && s.process.cursor.value.job in s.store.rows
    && s.store.rows[s.process.cursor.value.job].caseId == c && !s.process.cursor.value.stage.Save?
  }

  /** A settled row whose case has no envelope left has lost its key, unless the check is still owed. */
  predicate Reclaimed(s: State) {
    s.process.Restoring? ==>
      forall j :: j in s.store.rows && Settled(s, j) && s.store.rows[j].caseId in s.store.keys
        ==> !Unused(s, s.store.rows[j].caseId) || Owing(s, s.store.rows[j].caseId)
  }

  predicate QueuesOk(s: State) {
    Distinct(s.memory.queue) && (s.process.Restoring? ==> Distinct(s.process.todo))
  }

  ghost predicate Inv(s: State) {
    && SlicesOk(s)
    && QueuesOk(s)
    && KeysOk(s)
    && Reclaimed(s)
  }

  lemma InitialInv(s: State)
    requires Initial(s)
    ensures Inv(s)
  {
  }

  // ---------------------------------------------------------------- preservation

  ghost predicate SlicesOk(s: State) {
    forall j :: SliceOk(SliceOf(s, j))
  }

  lemma BeginSlice(s: State, j: JobId, c: CaseId, retained: bool, withKeylog: bool, i: JobId)
    requires SliceOk(SliceOf(s, i)) && CanBegin(s, j)
    ensures SliceOk(SliceOf(DoBegin(s, j, c, retained, withKeylog), i))
  {
  }

  lemma FetchSlice(s: State, j: JobId, u: Submission, p: Purpose, i: JobId)
    requires SliceOk(SliceOf(s, i)) && CanAdvance(s, j) && s.memory.submits[j] == u && u.phase == Ready(p)
    ensures SliceOk(SliceOf(FetchKey(s, j, u, p), i))
  {
  }

  lemma SealSlice(s: State, j: JobId, u: Submission, p: Purpose, key: KeyId, i: JobId)
    requires SliceOk(SliceOf(s, i)) && CanAdvance(s, j) && s.memory.submits[j] == u && u.phase == Keyed(p, key)
    ensures SliceOk(SliceOf(Seal(s, j, u, p, key), i))
  {
  }

  lemma MoveSlice(s: State, j: JobId, u: Submission, p: Purpose, i: JobId)
    requires SliceOk(SliceOf(s, i)) && CanAdvance(s, j) && s.memory.submits[j] == u && u.phase == Sealed(p)
    ensures SliceOk(SliceOf(Phased(Removed(s, Upload(j, p), true), j, u.(phase := Moved(p))), i))
  {
  }

  lemma StoreEnvelopeSlice(s: State, j: JobId, u: Submission, p: Purpose, i: JobId)
    requires SliceOk(SliceOf(s, i)) && CanAdvance(s, j) && s.memory.submits[j] == u && u.phase == Moved(p)
    ensures SliceOk(SliceOf(StoreEnvelope(s, j, u, p), i))
  {
  }

  lemma RegisterSlice(s: State, j: JobId, u: Submission, i: JobId)
    requires SliceOk(SliceOf(s, i)) && CanAdvance(s, j) && s.memory.submits[j] == u && u.phase == Persisting
    ensures SliceOk(SliceOf(Phased(Saved(s, j, InitialJob(u), RowOf(InitialJob(u))), j, u.(phase := Registered)), i))
  {
  }

  lemma EnqueueSlice(s: State, j: JobId, u: Submission, i: JobId)
    requires SliceOk(SliceOf(s, i)) && CanAdvance(s, j) && s.memory.submits[j] == u && u.phase == Registered
    ensures SliceOk(SliceOf(Enqueue(s, j), i))
  {
  }

  lemma FailSlice(s: State, j: JobId, keyCreated: bool, i: JobId)
    requires SliceOk(SliceOf(s, i)) && CanFail(s, j)
    ensures SliceOk(SliceOf(DoFail(s, j, keyCreated), i))
  {
  }

  lemma UndoFileSlice(s: State, j: JobId, ok: bool, i: JobId)
    requires SliceOk(SliceOf(s, i)) && CanUndo(s, j, ok) && s.memory.submits[j].phase.UndoFile?
    ensures SliceOk(SliceOf(DoUndo(s, j, ok), i))
  {
  }

  lemma UndoRowSlice(s: State, j: JobId, ok: bool, i: JobId)
    requires SliceOk(SliceOf(s, i)) && CanUndo(s, j, ok) && s.memory.submits[j].phase.UndoRow?
    ensures SliceOk(SliceOf(DoUndo(s, j, ok), i))
  {
  }

  lemma UndoKeySlice(s: State, j: JobId, ok: bool, i: JobId)
    requires SliceOk(SliceOf(s, i)) && CanUndo(s, j, ok) && s.memory.submits[j].phase.UndoKey?
    ensures SliceOk(SliceOf(DoUndo(s, j, ok), i))
  {
  }

  lemma TakeSlice(s: State, i: JobId)
    requires SliceOk(SliceOf(s, i)) && CanTake(s) && Distinct(s.memory.queue)
    ensures SliceOk(SliceOf(DoTake(s), i))
  {
  }

  lemma CheckSlice(s: State, i: JobId)
    requires SliceOk(SliceOf(s, i)) && CanCheck(s)
    ensures SliceOk(SliceOf(DoCheck(s), i))
  {
    if s.memory.jobs[s.memory.worker.job].cancelled { } else { }
  }

  lemma DecryptSlice(s: State, r: DecryptResult, i: JobId)
    requires SliceOk(SliceOf(s, i)) && CanDecrypt(s)
    ensures SliceOk(SliceOf(DoDecrypt(s, r), i))
  {
    if !s.memory.jobs[s.memory.worker.job].evidence { } else if r.Opened? { } else { }
  }

  lemma AnalyzeSlice(s: State, a: Analysis, i: JobId)
    requires SliceOk(SliceOf(s, i)) && CanAnalyze(s)
    ensures SliceOk(SliceOf(DoAnalyze(s, a), i))
  {
  }

  lemma WipeSlice(s: State, ok: bool, i: JobId)
    requires SliceOk(SliceOf(s, i)) && CanWipe(s, ok)
    ensures SliceOk(SliceOf(DoWipe(s, ok), i))
  {
  }

  lemma FinishPcapFileSlice(s: State, w: Worker, job: Job, ok: bool, i: JobId)
    requires SliceOk(SliceOf(s, i)) && CanFinish(s, ok) && w == s.memory.worker && w.stage.PcapFile? && job == s.memory.jobs[w.job]
    ensures SliceOk(SliceOf(FinishPcapFile(s, w, job, ok), i))
  {
  }

  lemma FinishPcapRowSlice(s: State, w: Worker, job: Job, ok: bool, i: JobId)
    requires SliceOk(SliceOf(s, i)) && CanFinish(s, ok) && w == s.memory.worker && w.stage.PcapRow? && job == s.memory.jobs[w.job]
    ensures SliceOk(SliceOf(FinishPcapRow(s, w, job, ok), i))
  {
  }

  lemma FinishKeylogFileSlice(s: State, w: Worker, job: Job, ok: bool, i: JobId)
    requires SliceOk(SliceOf(s, i)) && CanFinish(s, ok) && w == s.memory.worker && w.stage.KeylogFile? && job == s.memory.jobs[w.job]
    ensures SliceOk(SliceOf(FinishKeylogFile(s, w, job, ok), i))
  {
  }

  lemma FinishKeylogRowSlice(s: State, w: Worker, job: Job, ok: bool, i: JobId)
    requires SliceOk(SliceOf(s, i)) && CanFinish(s, ok) && w == s.memory.worker && w.stage.KeylogRow? && job == s.memory.jobs[w.job]
    ensures SliceOk(SliceOf(FinishKeylogRow(s, w, job, ok), i))
  {
  }

  lemma FinishDropKeySlice(s: State, w: Worker, c: CaseId, wanted: bool, i: JobId)
    requires SliceOk(SliceOf(s, i)) && CanFinish(s, true) && w == s.memory.worker && w.stage.DropKey?
    ensures SliceOk(SliceOf(WorkerAt(DropKeyIfUnused(s, c, wanted), w.(stage := Publish)), i))
  {
  }

  lemma FinishPublishSlice(s: State, w: Worker, job: Job, i: JobId)
    requires SliceOk(SliceOf(s, i)) && CanFinish(s, true) && w == s.memory.worker && w.stage.Publish? && job == s.memory.jobs[w.job]
    ensures SliceOk(SliceOf(FinishPublish(s, w, job), i))
  {
  }

  lemma AbandonSlice(s: State, i: JobId)
    requires SliceOk(SliceOf(s, i)) && CanAbandon(s)
    ensures SliceOk(SliceOf(DoAbandon(s), i))
  {
    var w := s.memory.worker;
    if w.Checking? { } else if w.stage.DropKey? { } else { }
  }

  lemma ProgressSlice(s: State, i: JobId)
    requires SliceOk(SliceOf(s, i)) && CanProgress(s)
    ensures SliceOk(SliceOf(DoProgress(s), i))
  {
  }

  lemma CancelSlice(s: State, j: JobId, saved: bool, i: JobId)
    requires SliceOk(SliceOf(s, i)) && CanCancel(s, j)
    ensures SliceOk(SliceOf(DoCancel(s, j, saved), i))
  {
  }

  lemma CloseSlice(s: State, i: JobId)
    requires SliceOk(SliceOf(s, i)) && s.process.Up?
    ensures SliceOk(SliceOf(DoClose(s), i))
  {
  }

  lemma CrashSlice(s: State, i: JobId)
    requires SliceOk(SliceOf(s, i)) && !s.process.Down?
    ensures SliceOk(SliceOf(DoCrash(s), i))
  {
  }

  lemma BootSlice(s: State, order: seq<JobId>, i: JobId)
    requires SliceOk(SliceOf(s, i)) && s.process.Down? && IsListing(order, s.store.rows)
    ensures SliceOk(SliceOf(s.(process := Restoring(order, None)), i))
  {
  }

  lemma ServeSlice(s: State, i: JobId)
    requires SliceOk(SliceOf(s, i)) && s.process.Restoring? && s.process.cursor.None? && s.process.todo == []
    ensures SliceOk(SliceOf(s.(process := Up), i))
  {
  }

  lemma OpenSlice(s: State, i: JobId)
    requires SliceOk(SliceOf(s, i)) && CanRestore(s, true) && s.process.cursor.None? && Distinct(s.process.todo)
    ensures SliceOk(SliceOf(DoRestore(s, true), i))
  {
  }

  lemma RestoreWipePcapSlice(s: State, todo: seq<JobId>, c: Cursor, row: Row, ok: bool, i: JobId)
    requires SliceOk(SliceOf(s, i)) && CanRestore(s, ok) && s.process == Restoring(todo, Some(c)) && row == s.store.rows[c.job] && c.stage.WipePcap?
    ensures SliceOk(SliceOf(RestoreWipePcap(s, todo, c, row, ok), i))
  {
  }

  lemma RestoreWipeKeylogSlice(s: State, todo: seq<JobId>, c: Cursor, row: Row, ok: bool, i: JobId)
    requires SliceOk(SliceOf(s, i)) && CanRestore(s, ok) && s.process == Restoring(todo, Some(c)) && row == s.store.rows[c.job] && c.stage.WipeKeylog?
    ensures SliceOk(SliceOf(RestoreWipeKeylog(s, todo, c, row, ok), i))
  {
  }

  lemma RestoreCipherPcapSlice(s: State, todo: seq<JobId>, c: Cursor, row: Row, ok: bool, i: JobId)
    requires SliceOk(SliceOf(s, i)) && CanRestore(s, ok) && s.process == Restoring(todo, Some(c)) && row == s.store.rows[c.job] && c.stage.CipherPcap?
    ensures SliceOk(SliceOf(RestoreCipherPcap(s, todo, c, row, ok), i))
  {
  }

  lemma RestoreForgetPcapSlice(s: State, todo: seq<JobId>, c: Cursor, row: Row, ok: bool, i: JobId)
    requires SliceOk(SliceOf(s, i)) && CanRestore(s, ok) && s.process == Restoring(todo, Some(c)) && row == s.store.rows[c.job] && c.stage.ForgetPcap?
    ensures SliceOk(SliceOf(RestoreForgetPcap(s, todo, c, ok), i))
  {
  }

  lemma RestoreCipherKeylogSlice(s: State, todo: seq<JobId>, c: Cursor, row: Row, ok: bool, i: JobId)
    requires SliceOk(SliceOf(s, i)) && CanRestore(s, ok) && s.process == Restoring(todo, Some(c)) && row == s.store.rows[c.job] && c.stage.CipherKeylog?
    ensures SliceOk(SliceOf(RestoreCipherKeylog(s, todo, c, ok), i))
  {
  }

  lemma RestoreForgetKeylogSlice(s: State, todo: seq<JobId>, c: Cursor, row: Row, ok: bool, i: JobId)
    requires SliceOk(SliceOf(s, i)) && CanRestore(s, ok) && s.process == Restoring(todo, Some(c)) && row == s.store.rows[c.job] && c.stage.ForgetKeylog?
    ensures SliceOk(SliceOf(RestoreForgetKeylog(s, todo, c, ok), i))
  {
  }

  lemma RestoreReclaimSlice(s: State, todo: seq<JobId>, c: Cursor, row: Row, ok: bool, i: JobId)
    requires SliceOk(SliceOf(s, i)) && CanRestore(s, ok) && s.process == Restoring(todo, Some(c)) && row == s.store.rows[c.job] && c.stage.Reclaim?
    ensures SliceOk(SliceOf(RestoreStep(s, todo, c, row, ok), i))
  {
  }

  lemma RestoreSaveSlice(s: State, todo: seq<JobId>, c: Cursor, row: Row, ok: bool, i: JobId)
    requires SliceOk(SliceOf(s, i)) && CanRestore(s, ok) && s.process == Restoring(todo, Some(c)) && row == s.store.rows[c.job] && c.stage.Save?
    ensures SliceOk(SliceOf(RestoreSave(s, todo, c, row), i))
  {
    if i == c.job { SavedSlice(s, todo, c, row); } else { UnsavedSlice(s, todo, c, row, i); }
  }

  lemma SavedSlice(s: State, todo: seq<JobId>, c: Cursor, row: Row)
    requires SliceOk(SliceOf(s, c.job)) && s.process == Restoring(todo, Some(c)) && c.job in s.store.rows && row == s.store.rows[c.job] && c.stage.Save?
    ensures SliceOk(SliceOf(RestoreSave(s, todo, c, row), c.job))
  {
    var x, row' := SliceOf(s, c.job), Reconciled(row, c);
    SavedRowOk(x, row, c);
    SavedIs(s, todo, c, row, x.(row := Some(row'), job := Some(RestoredJob(row', c)), cursor := None));
  }

  lemma SavedRowOk(x: Slice, row: Row, c: Cursor)
    requires SliceOk(x) && x.row == Some(row) && x.cursor == Some(c) && c.stage.Save?
    ensures var row' := Reconciled(row, c);
      SliceOk(x.(row := Some(row'), job := Some(RestoredJob(row', c)), cursor := None))
  {
  }

  lemma SavedIs(s: State, todo: seq<JobId>, c: Cursor, row: Row, x: Slice)
    requires s.process == Restoring(todo, Some(c)) && c.job in s.store.rows && row == s.store.rows[c.job] && c.stage.Save?
    requires x == SliceOf(s, c.job).(row := Some(Reconciled(row, c)), job := Some(RestoredJob(Reconciled(row, c), c)), cursor := None)
    ensures SliceOf(RestoreSave(s, todo, c, row), c.job) == x
  {
  }

  lemma UnsavedSlice(s: State, todo: seq<JobId>, c: Cursor, row: Row, i: JobId)
    requires SliceOk(SliceOf(s, i)) && s.process == Restoring(todo, Some(c)) && i != c.job
    ensures SliceOk(SliceOf(RestoreSave(s, todo, c, row), i))
  {
    assert SliceOf(RestoreSave(s, todo, c, row), i) == SliceOf(s, i);
  }

  // ---------------------------------------------------------------- every action

  lemma AdvanceSlice(s: State, j: JobId, i: JobId)
    requires SliceOk(SliceOf(s, i)) && CanAdvance(s, j)
    ensures SliceOk(SliceOf(DoAdvance(s, j), i))
  {
    var u := s.memory.submits[j];
    match u.phase {
      case Ready(p) => FetchSlice(s, j, u, p, i);
      case Keyed(p, key) => SealSlice(s, j, u, p, key, i);
      case Sealed(p) => MoveSlice(s, j, u, p, i);
      case Moved(p) => StoreEnvelopeSlice(s, j, u, p, i);
      case Persisting => RegisterSlice(s, j, u, i);
      case Registered => EnqueueSlice(s, j, u, i);
    }
  }

  lemma UndoSlice(s: State, j: JobId, ok: bool, i: JobId)
    requires SliceOk(SliceOf(s, i)) && CanUndo(s, j, ok)
    ensures SliceOk(SliceOf(DoUndo(s, j, ok), i))
  {
    match s.memory.submits[j].phase {
      case UndoFile(_) => UndoFileSlice(s, j, ok, i);
      case UndoRow(_) => UndoRowSlice(s, j, ok, i);
      case UndoKey => UndoKeySlice(s, j, ok, i);
    }
  }

  lemma FinishSlice(s: State, ok: bool, i: JobId)
    requires SliceOk(SliceOf(s, i)) && CanFinish(s, ok)
    ensures SliceOk(SliceOf(DoFinish(s, ok), i))
  {
    var w := s.memory.worker;
    var job := s.memory.jobs[w.job];
    match w.stage {
      case PcapFile => FinishPcapFileSlice(s, w, job, ok, i);
      case PcapRow => FinishPcapRowSlice(s, w, job, ok, i);
      case KeylogFile => FinishKeylogFileSlice(s, w, job, ok, i);
      case KeylogRow => FinishKeylogRowSlice(s, w, job, ok, i);
      case DropKey => FinishDropKeySlice(s, w, job.caseId, w.pcapDone && w.keylogDone, i);
      case Publish => FinishPublishSlice(s, w, job, i);
    }
  }

  lemma RestoreSlice(s: State, ok: bool, i: JobId)
    requires CanRestore(s, ok) && SliceOk(SliceOf(s, i)) && Distinct(s.process.todo)
    ensures SliceOk(SliceOf(DoRestore(s, ok), i))
  {
    var todo := s.process.todo;
    match s.process.cursor {
      case None => OpenSlice(s, i);
      case Some(c) =>
        var row := s.store.rows[c.job];
        match c.stage {
          case WipePcap => RestoreWipePcapSlice(s, todo, c, row, ok, i);
          case WipeKeylog => RestoreWipeKeylogSlice(s, todo, c, row, ok, i);
          case CipherPcap => RestoreCipherPcapSlice(s, todo, c, row, ok, i);
          case ForgetPcap => RestoreForgetPcapSlice(s, todo, c, row, ok, i);
          case CipherKeylog => RestoreCipherKeylogSlice(s, todo, c, row, ok, i);
          case ForgetKeylog => RestoreForgetKeylogSlice(s, todo, c, row, ok, i);
          case Reclaim => RestoreReclaimSlice(s, todo, c, row, ok, i);
          case Save => RestoreSaveSlice(s, todo, c, row, ok, i);
        }
    }
  }

  lemma WorkerSlice(s: State, a: Action, i: JobId)
    requires SliceOk(SliceOf(s, i)) && Enabled(s, a) && QueuesOk(s)
    requires a.Take? || a.Check? || a.Decrypt? || a.Analyze? || a.Wipe? || a.Finish? || a.Abandon? || a.Progress?
    ensures SliceOk(SliceOf(Next(s, a), i))
  {
    match a {
      case Take => TakeSlice(s, i);
      case Check => CheckSlice(s, i);
      case Decrypt(r) => DecryptSlice(s, r, i);
      case Analyze(analysis) => AnalyzeSlice(s, analysis, i);
      case Wipe(ok) => WipeSlice(s, ok, i);
      case Finish(ok) => FinishSlice(s, ok, i);
      case Abandon => AbandonSlice(s, i);
      case Progress => ProgressSlice(s, i);
    }
  }

  lemma ProcessSlice(s: State, a: Action, i: JobId)
    requires SliceOk(SliceOf(s, i)) && Enabled(s, a) && QueuesOk(s) && (a.Crash? || a.Boot? || a.Restore? || a.Serve?)
    ensures SliceOk(SliceOf(Next(s, a), i))
  {
    match a {
      case Crash => CrashSlice(s, i);
      case Boot(order) => BootSlice(s, order, i);
      case Restore(ok) => RestoreSlice(s, ok, i);
      case Serve => ServeSlice(s, i);
    }
  }

  lemma CallSlice(s: State, a: Action, i: JobId)
    requires SliceOk(SliceOf(s, i)) && Enabled(s, a)
    requires a.Begin? || a.Advance? || a.Fail? || a.Undo? || a.CancelJob? || a.Close?
    ensures SliceOk(SliceOf(Next(s, a), i))
  {
    match a {
      case Begin(j, c, retained, withKeylog) => BeginSlice(s, j, c, retained, withKeylog, i);
      case Advance(j) => AdvanceSlice(s, j, i);
      case Fail(j, keyCreated) => FailSlice(s, j, keyCreated, i);
      case Undo(j, ok) => UndoSlice(s, j, ok, i);
      case CancelJob(j, saved) => CancelSlice(s, j, saved, i);
      case Close => CloseSlice(s, i);
    }
  }

  lemma NextSlice(s: State, a: Action, i: JobId)
    requires SliceOk(SliceOf(s, i)) && Enabled(s, a) && QueuesOk(s)
    ensures SliceOk(SliceOf(Next(s, a), i))
  {
    if a.Crash? || a.Boot? || a.Restore? || a.Serve? { ProcessSlice(s, a, i); }
    else if a.Begin? || a.Advance? || a.Fail? || a.Undo? || a.CancelJob? || a.Close? { CallSlice(s, a, i); }
    else { WorkerSlice(s, a, i); }
  }

  lemma NextQueues(s: State, a: Action)
    requires Inv(s) && Enabled(s, a)
    ensures QueuesOk(Next(s, a))
  {
    if a.Advance? {
      assert SliceOk(SliceOf(s, a.job));
    }
  }

  lemma AdvanceKeys(s: State, j: JobId)
    requires KeysOk(s) && CanAdvance(s, j) && SliceOk(SliceOf(s, j))
    ensures KeysOk(DoAdvance(s, j))
  {
    var u := s.memory.submits[j];
    match u.phase {
      case Ready(p) =>
      case Keyed(p, key) =>
      case Sealed(p) =>
      case Moved(p) =>
      case Persisting =>
      case Registered =>
    }
  }

  lemma UndoKeys(s: State, j: JobId, ok: bool)
    requires KeysOk(s) && CanUndo(s, j, ok)
    ensures KeysOk(DoUndo(s, j, ok))
  {
  }

  lemma FinishKeys(s: State, ok: bool)
    requires KeysOk(s) && CanFinish(s, ok)
    ensures KeysOk(DoFinish(s, ok))
  {
    var w, t := s.memory.worker, DoFinish(s, ok);
    assert t.memory.submits == s.memory.submits;
    if w.stage.DropKey? {
      assert t.store.envelopes == s.store.envelopes;
    } else {
      assert t.store.keys == s.store.keys && t.history.raced == s.history.raced;
    }
  }

  lemma RestoreKeys(s: State, ok: bool)
    requires KeysOk(s) && CanRestore(s, ok)
    ensures KeysOk(DoRestore(s, ok))
  {
  }

  lemma NextKeys(s: State, a: Action)
    requires Inv(s) && Enabled(s, a)
    ensures KeysOk(Next(s, a))
  {
    if a.Advance? { assert SliceOk(SliceOf(s, a.job)); }
    match a {
      case Advance(j) => AdvanceKeys(s, j);
      case Undo(j, ok) => UndoKeys(s, j, ok);
      case Finish(ok) => FinishKeys(s, ok);
      case Restore(ok) => RestoreKeys(s, ok);
      case _ =>
    }
  }

  /** While a row is reconciled, only its own case can lose its last envelope. */
  lemma NextReclaimed(s: State, a: Action)
    requires Inv(s) && Enabled(s, a)
    ensures Reclaimed(Next(s, a))
  {
    if a.Restore? {
      RestoreReclaimed(s, a.ok);
    } else if a.Boot? {
      forall j ensures j !in s.memory.jobs { assert SliceOk(SliceOf(s, j)); }
    }
  }

  lemma RestoreReclaimed(s: State, ok: bool)
    requires CanRestore(s, ok) && Inv(s)
    ensures Reclaimed(DoRestore(s, ok))
  {
    if s.process.cursor.Some? {
      var c := s.process.cursor.value;
      assert SliceOk(SliceOf(s, c.job));
      if c.stage.Reclaim? { KeyStepReclaimed(s, c, ok); }
      else if c.stage.Save? { SaveStepReclaimed(s, c, ok); }
      else { FileStepReclaimed(s, c, ok); }
    }
  }

  lemma KeyStepReclaimed(s: State, c: Cursor, ok: bool)
    requires CanRestore(s, ok) && s.process.cursor == Some(c) && c.stage.Reclaim?
    requires Reclaimed(s) && SliceOk(SliceOf(s, c.job))
    ensures Reclaimed(DoRestore(s, ok))
  {
    var t := DoRestore(s, ok);
    assert t.store.rows == s.store.rows && t.store.envelopes == s.store.envelopes;
    if c.evidence { assert EnvelopeId(c.job, Pcap) in s.store.envelopes; }
    if c.keylog { assert EnvelopeId(c.job, TlsKeylog) in s.store.envelopes; }
  }

  lemma SaveStepReclaimed(s: State, c: Cursor, ok: bool)
    requires CanRestore(s, ok) && s.process.cursor == Some(c) && c.stage.Save?
    requires Reclaimed(s)
    ensures Reclaimed(DoRestore(s, ok))
  {
    var t := DoRestore(s, ok);
    assert t.store.envelopes == s.store.envelopes && t.store.keys == s.store.keys;
    assert forall j :: j in t.store.rows ==> t.store.rows[j].caseId == s.store.rows[j].caseId;
  }

  /** A file step leaves rows, keys and jobs alone, and forgets only envelopes of its own job. */
  lemma FileStepFrame(s: State, c: Cursor, ok: bool)
    requires CanRestore(s, ok) && s.process.cursor == Some(c) && !c.stage.Reclaim? && !c.stage.Save?
    ensures var t := DoRestore(s, ok);
      && t.store.rows == s.store.rows && t.store.keys == s.store.keys && t.memory.jobs == s.memory.jobs
      && t.process.Restoring? && t.process.cursor.Some? && t.process.cursor.value.job == c.job
      && !t.process.cursor.value.stage.Save?
      && (forall e :: e in t.store.envelopes ==> e in s.store.envelopes)
      && (forall e :: e in s.store.envelopes && e.job != c.job ==> e in t.store.envelopes && t.store.envelopes[e] == s.store.envelopes[e])
  {
  }

  lemma FileStepReclaimed(s: State, c: Cursor, ok: bool)
    requires CanRestore(s, ok) && s.process.cursor == Some(c) && !c.stage.Reclaim? && !c.stage.Save?
    requires Reclaimed(s) && SliceOk(SliceOf(s, c.job))
    ensures Reclaimed(DoRestore(s, ok))
  {
    var t := DoRestore(s, ok);
    var k := s.store.rows[c.job].caseId;
    FileStepFrame(s, c, ok);
    FileStepCase(s, c);
    forall x | x != k && !Unused(s, x) ensures !Unused(t, x) {
      var e :| e in s.store.envelopes && s.store.envelopes[e].caseId == x;
      assert e in t.store.envelopes;
    }
  }

  /** The envelopes of a row belong to the case of the row. */
  lemma FileStepCase(s: State, c: Cursor)
    requires SliceOk(SliceOf(s, c.job)) && c.job in s.store.rows
    ensures forall e :: e in s.store.envelopes && e.job == c.job ==> s.store.envelopes[e].caseId == s.store.rows[c.job].caseId
  {
    forall e | e in s.store.envelopes && e.job == c.job ensures s.store.envelopes[e].caseId == s.store.rows[c.job].caseId {
      match e.purpose {
        case Pcap => assert e == EnvelopeId(c.job, Pcap);
        case TlsKeylog => assert e == EnvelopeId(c.job, TlsKeylog);
      }
    }
  }
}
