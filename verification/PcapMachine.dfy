/**
 The PCAP job manager (core/api/pcap_jobs.py) as a state machine: evidence directory, database
 rows and key store survive a crash; jobs, queue and worker do not.  One action is one effect the
 manager can be interrupted after: a file removed, a row written, a key created or dropped.

 Every path is derived from a job id, so a stored path is a flag telling whether the column still
 names the file or was cleared.
 */
module PcapMachine {
  import opened Wrappers
  import opened JobErrors

  type JobId = nat
  type CaseId = nat
  type KeyId = nat

  datatype Purpose = Pcap | TlsKeylog

  datatype Path =
    | Upload(job: JobId, purpose: Purpose)  // what the caller handed to `submit`
    | Cipher(job: JobId, purpose: Purpose)  // the encrypted envelope file
    | Active(job: JobId, purpose: Purpose)  // its decrypted ".active" twin

  datatype EnvelopeId = EnvelopeId(job: JobId, purpose: Purpose)

  /** An envelope row, with the key its file was sealed with. */
  datatype Envelope = Envelope(caseId: CaseId, key: KeyId)

  /** The persisted job. */
  datatype Row = Row(caseId: CaseId, retained: bool, status: Status, error: Option<string>,
                     path: bool, keylogPath: bool)

  /** The job in memory; `evidence` and `keylog` tell whether it holds that envelope's metadata. */
  datatype Job = Job(caseId: CaseId, retained: bool, status: Status, error: Option<string>,
                     path: bool, keylogPath: bool, evidence: bool, keylog: bool, cancelled: bool)

  /** A call of `submit`, between two of its effects. */
  datatype Phase =
    | Ready(purpose: Purpose) | Keyed(purpose: Purpose, key: KeyId) | Sealed(purpose: Purpose) | Moved(purpose: Purpose)
    | Persisting | Registered
    | UndoFile(purpose: Purpose) | UndoRow(purpose: Purpose) | UndoKey

  datatype Submission = Submission(caseId: CaseId, retained: bool, withKeylog: bool,
                                   phase: Phase, sealed: map<Purpose, KeyId>)

  datatype FinishStage = PcapFile | PcapRow | KeylogFile | KeylogRow | DropKey | Publish

  /** The single worker thread, between two effects of `_run` and `_finish`. */
  datatype Worker =
    | Idle
    | Checking(job: JobId)
    | Decrypting(job: JobId, purpose: Purpose)
    | Analyzing(job: JobId)
    | Wiping(job: JobId, purpose: Purpose, keylogOpened: bool,
             status: Status, error: Option<string>, failed: bool)
    | Finishing(job: JobId, stage: FinishStage, status: Status, error: Option<string>,
                pcapDone: bool, keylogDone: bool)

  datatype RestoreStage =
    | WipePcap | WipeKeylog | CipherPcap | ForgetPcap | CipherKeylog | ForgetKeylog | Reclaim | Save

  /** The row `_restore` is reconciling. */
  datatype Cursor = Cursor(job: JobId, stage: RestoreStage, failed: bool, changed: bool,
                           evidence: bool, keylog: bool)

  datatype Process = Down | Restoring(todo: seq<JobId>, cursor: Option<Cursor>) | Up

  /** Everything that survives the process. */
  datatype Store = Store(disk: set<Path>, rows: map<JobId, Row>, envelopes: map<EnvelopeId, Envelope>,
                         keys: map<CaseId, KeyId>, indexed: set<JobId>)

  datatype Memory = Memory(jobs: map<JobId, Job>, submits: map<JobId, Submission>, queue: seq<JobId>,
                           worker: Worker, closing: bool)

  /** What happened so far: the ids issued, the jobs published, the jobs whose engine reported a
      status that is not terminal, those whose report said complete but could not be read further,
      and the cases that lost their key while one of their envelopes was being written. */
  datatype History = History(used: set<JobId>, nextKey: KeyId, published: set<JobId>,
                             odd: set<JobId>, malformed: set<JobId>, raced: set<CaseId>)

  datatype Config = Config(hasBuilder: bool, hasDissector: bool)

  datatype State = State(store: Store, process: Process, memory: Memory, history: History, config: Config)

  datatype IndexResult = IndexBuilt | IndexCancelled | IndexBroken
  datatype DissectionResult = Dissected | DissectionLimited | PublicationFailed | DissectorRaised(reason: string)

  /** What happens between decryption and the `finally` block of `_run`.  A malformed report raises
      once its status was taken over. */
  datatype Analysis =
    | Raised(reason: string)
    | Malformed(status: Status, reason: string)
    | Reported(status: Status, error: Option<string>, index: IndexResult, dissection: DissectionResult)

  datatype DecryptResult = Opened | Refused(left: bool, reason: string)

  datatype Action =
    // submit
    | Begin(job: JobId, caseId: CaseId, retained: bool, withKeylog: bool)
    | Advance(job: JobId)
    | Fail(job: JobId, keyCreated: bool)
    | Undo(job: JobId, ok: bool)
    // the worker
    | Take
    | Check
    | Decrypt(result: DecryptResult)
    | Analyze(analysis: Analysis)
    | Wipe(ok: bool)
    | Finish(ok: bool)
    | Abandon
    // other API calls
    | Progress
    | CancelJob(job: JobId, saved: bool)
    | Close
    // process
    | Crash
    | Boot(order: seq<JobId>)
    | Restore(ok: bool)
    | Serve

  // ---------------------------------------------------------------- single effects

  /** `_remove_path` and its outcome; only a file that exists can refuse to go (see the guards). */
  function Removed(s: State, p: Path, ok: bool): State {
    s.(store := s.store.(disk := if ok then s.store.disk - {p} else s.store.disk))
  }

  function Created(s: State, p: Path, present: bool): State {
    s.(store := s.store.(disk := if present then s.store.disk + {p} else s.store.disk - {p}))
  }

  /** `_delete_envelope` and its outcome. */
  function Forgotten(s: State, e: EnvelopeId, ok: bool): State {
    s.(store := s.store.(envelopes := if ok then s.store.envelopes - {e} else s.store.envelopes))
  }

  function Saved(s: State, j: JobId, job: Job, row: Row): State {
    s.(store := s.store.(rows := s.store.rows[j := row]), memory := s.memory.(jobs := s.memory.jobs[j := job]))
  }

  /** The row could not be written. */
  function Unsaved(s: State, j: JobId, job: Job): State {
    s.(memory := s.memory.(jobs := s.memory.jobs[j := job]))
  }

  function Phased(s: State, j: JobId, u: Submission): State {
    s.(memory := s.memory.(submits := s.memory.submits[j := u]))
  }

  function WorkerAt(s: State, w: Worker): State {
    s.(memory := s.memory.(worker := w))
  }

  function CursorTo(s: State, todo: seq<JobId>, c: Cursor): State {
    s.(process := Restoring(todo, Some(c)))
  }

  function RowOf(j: Job): Row {
    Row(j.caseId, j.retained, j.status, j.error, j.path, j.keylogPath)
  }

  function InitialJob(u: Submission): Job {
    Job(u.caseId, u.retained, Queued, None, true, u.withKeylog, true, u.withKeylog, false)
  }

  // ---------------------------------------------------------------- case keys

  predicate Unused(s: State, c: CaseId) {
    forall e :: e in s.store.envelopes ==> s.store.envelopes[e].caseId != c
  }

  /** The key of case `c` was fetched for an envelope whose row is not stored yet. */
  predicate InFlight(s: State, c: CaseId) {
    exists j :: j in s.memory.submits && s.memory.submits[j].caseId == c && InTransit(s.memory.submits[j])
  }

  predicate InTransit(u: Submission) {
    u.phase.Keyed? || ((u.phase.Sealed? || u.phase.Moved?) && u.phase.purpose in u.sealed)
  }

  /** The key that envelope is sealed with. */
  function TransitKey(u: Submission): KeyId
    requires InTransit(u)
  {
    if u.phase.Keyed? then u.phase.key else u.sealed[u.phase.purpose]
  }

  /** `_delete_case_key_if_unused`, where `wanted` tells whether the caller reaches it. */
  function DropKeyIfUnused(s: State, c: CaseId, wanted: bool): State {
    var drop := wanted && Unused(s, c);
    s.(store := s.store.(keys := if drop then s.store.keys - {c} else s.store.keys),
       history := s.history.(raced := if drop && InFlight(s, c) then s.history.raced + {c} else s.history.raced))
  }

  /** `_case_key`: fetch the key of the case, or create it. */
  function WithKey(s: State, c: CaseId, wanted: bool): State {
    var create := wanted && c !in s.store.keys;
    s.(store := s.store.(keys := if create then s.store.keys[c := s.history.nextKey] else s.store.keys),
       history := s.history.(nextKey := if create then s.history.nextKey + 1 else s.history.nextKey))
  }

  // ---------------------------------------------------------------- submit

  predicate CanBegin(s: State, j: JobId) { s.process.Up? && j !in s.history.used }

  function DoBegin(s: State, j: JobId, c: CaseId, retained: bool, withKeylog: bool): State {
    s.(history := s.history.(used := s.history.used + {j}),
       store := s.store.(disk := s.store.disk + {Upload(j, Pcap)} + (if withKeylog then {Upload(j, TlsKeylog)} else {})),
       memory := s.memory.(submits := s.memory.submits[j := Submission(c, retained, withKeylog, Ready(Pcap), map[])]))
  }

  predicate Undoing(p: Phase) { p.UndoFile? || p.UndoRow? || p.UndoKey? }

  predicate CanAdvance(s: State, j: JobId) {
    s.process.Up? && j in s.memory.submits && !Undoing(s.memory.submits[j].phase)
  }

  function DoAdvance(s: State, j: JobId): State
    requires j in s.memory.submits && !Undoing(s.memory.submits[j].phase)
  {
    var u := s.memory.submits[j];
    match u.phase
    case Ready(p) => FetchKey(s, j, u, p)
    case Keyed(p, key) => Seal(s, j, u, p, key)
    case Sealed(p) => Phased(Removed(s, Upload(j, p), true), j, u.(phase := Moved(p)))
    case Moved(p) => StoreEnvelope(s, j, u, p)
    case Persisting => Phased(Saved(s, j, InitialJob(u), RowOf(InitialJob(u))), j, u.(phase := Registered))
    case Registered => Enqueue(s, j)
  }

  /** `encrypt` holds the key from here on. */
  function FetchKey(s: State, j: JobId, u: Submission, p: Purpose): State {
    var t := WithKey(s, u.caseId, true);
    Phased(t, j, u.(phase := Keyed(p, t.store.keys[u.caseId])))
  }

  function Seal(s: State, j: JobId, u: Submission, p: Purpose, key: KeyId): State {
    Phased(Created(s, Cipher(j, p), true), j, u.(phase := Sealed(p), sealed := u.sealed[p := key]))
  }

  function StoreEnvelope(s: State, j: JobId, u: Submission, p: Purpose): State {
    var key := if p in u.sealed then u.sealed[p] else 0;
    var t := s.(store := s.store.(envelopes := s.store.envelopes[EnvelopeId(j, p) := Envelope(u.caseId, key)]));
    Phased(t, j, u.(phase := if p.Pcap? && u.withKeylog then Ready(TlsKeylog) else Persisting))
  }

  /** Once the executor is shutting down it refuses new work, and `submit` raises. */
  function Enqueue(s: State, j: JobId): State {
    s.(memory := s.memory.(queue := if s.memory.closing then s.memory.queue else s.memory.queue + [j],
                           submits := s.memory.submits - {j}))
  }

  predicate CanFail(s: State, j: JobId) {
    CanAdvance(s, j) && !s.memory.submits[j].phase.Registered?
  }

  /** The current effect raises; fetching the case key may have created it before it did. */
  function DoFail(s: State, j: JobId, keyCreated: bool): State
    requires j in s.memory.submits
  {
    var u := s.memory.submits[j];
    Phased(WithKey(s, u.caseId, keyCreated && u.phase.Ready?), j, u.(phase := UndoFile(Pcap)))
  }

  predicate CanUndo(s: State, j: JobId, ok: bool) {
    s.process.Up? && j in s.memory.submits && Undoing(s.memory.submits[j].phase)
    && (s.memory.submits[j].phase.UndoFile? && !ok ==> Cipher(j, s.memory.submits[j].phase.purpose) in s.store.disk)
  }

  function DoUndo(s: State, j: JobId, ok: bool): State
    requires j in s.memory.submits && Undoing(s.memory.submits[j].phase)
  {
    var u := s.memory.submits[j];
    match u.phase
    case UndoFile(p) =>
      Phased(Removed(s, Cipher(j, p), p in u.sealed && ok), j, u.(phase := UndoRow(p)))
    case UndoRow(p) =>
      Phased(Forgotten(s, EnvelopeId(j, p), p in u.sealed && ok), j,
             u.(phase := if p.Pcap? then UndoFile(TlsKeylog) else UndoKey))
    case UndoKey =>
      var t := DropKeyIfUnused(s, u.caseId, ok);
      t.(memory := t.memory.(submits := t.memory.submits - {j}))
  }

  // ---------------------------------------------------------------- the worker

  predicate CanTake(s: State) { s.process.Up? && s.memory.worker.Idle? && |s.memory.queue| > 0 }

  function DoTake(s: State): State
    requires |s.memory.queue| > 0
  {
    s.(memory := s.memory.(worker := Checking(s.memory.queue[0]), queue := s.memory.queue[1..]))
  }

  predicate Busy(s: State) {
    s.process.Up? && !s.memory.worker.Idle? && s.memory.worker.job in s.memory.jobs
  }

  /** Enter `_finish`: what needs no removal counts as done. */
  function StartFinish(job: Job, id: JobId, status: Status, error: Option<string>): Worker {
    Finishing(id, PcapFile, status, error, job.retained, !job.keylog)
  }

  predicate CanCheck(s: State) { Busy(s) && s.memory.worker.Checking? }

  function DoCheck(s: State): State
    requires CanCheck(s)
  {
    var id := s.memory.worker.job;
    var job := s.memory.jobs[id];
    if job.cancelled then WorkerAt(s, StartFinish(job, id, Cancelled, None))
    else WorkerAt(Saved(s, id, job.(status := Running), RowOf(job.(status := Running))), Decrypting(id, Pcap))
  }

  predicate CanDecrypt(s: State) { Busy(s) && s.memory.worker.Decrypting? }

  const NO_METADATA := "PCAP analysis failed (RuntimeError)"

  function DoDecrypt(s: State, r: DecryptResult): State
    requires CanDecrypt(s)
  {
    var id, p := s.memory.worker.job, s.memory.worker.purpose;
    var job := s.memory.jobs[id];
    if !job.evidence then WorkerAt(s, StartFinish(job, id, Failed, Some(NO_METADATA)))
    else
      match r
      case Opened =>
        WorkerAt(Created(s, Active(id, p), true),
                 if p.Pcap? && job.keylog then Decrypting(id, TlsKeylog) else Analyzing(id))
      case Refused(left, reason) =>
        WorkerAt(Created(s, Active(id, p), left), Wiping(id, Pcap, p.TlsKeylog?, Failed, Some(reason), false))
  }

  predicate Usable(s: Status) { s.Complete? || s.Partial? }

  /** The status, error and "packet index persisted" that `_run` carries into its `finally` block. */
  function Conclude(c: Config, a: Analysis): (Status, Option<string>, bool) {
    match a
    case Raised(reason) => (Failed, Some(reason), false)
    case Malformed(status, reason) => (status, Some(reason), false)
    case Reported(status, error, index, dissection) =>
      var (st, er, ix) := AfterIndex(c.hasBuilder, status, error, index);
      var (st', er') := AfterDissection(c.hasDissector, st, er, dissection);
      (st', er', ix)
  }

  function AfterIndex(hasBuilder: bool, status: Status, error: Option<string>, index: IndexResult)
    : (Status, Option<string>, bool)
  {
    if !hasBuilder || !Usable(status) then (status, error, false)
    else match index
      case IndexBuilt => (status, error, true)
      case IndexCancelled => (Cancelled, Some(CANCELLED_TEXT), false)
      case IndexBroken => (Partial, Some(PARTIAL_TEXT), false)
  }

  function AfterDissection(hasDissector: bool, status: Status, error: Option<string>, d: DissectionResult)
    : (Status, Option<string>)
  {
    if !hasDissector || !Usable(status) then (status, error)
    else match d
      case Dissected => (status, error)
      case DissectionLimited => (status, error)
      case PublicationFailed => (Partial, Some(PARTIAL_TEXT))
      case DissectorRaised(reason) => (status, Some(reason))  // the status is left as it was
  }

  predicate CanAnalyze(s: State) { Busy(s) && s.memory.worker.Analyzing? }

  function DoAnalyze(s: State, a: Analysis): State
    requires CanAnalyze(s)
  {
    var id := s.memory.worker.job;
    var (status, error, ix) := Conclude(s.config, a);
    var t := WorkerAt(s, Wiping(id, Pcap, s.memory.jobs[id].keylog, status, error, false));
    t.(store := s.store.(indexed := if ix then s.store.indexed + {id} else s.store.indexed),
       history := s.history.(odd := if Terminal(status) then s.history.odd else s.history.odd + {id},
                             malformed := if a.Malformed? && status.Complete? then s.history.malformed + {id} else s.history.malformed))
  }

  predicate CanWipe(s: State, ok: bool) {
    Busy(s) && s.memory.worker.Wiping?
    && (!ok ==> Active(s.memory.worker.job, s.memory.worker.purpose) in s.store.disk)
  }

  function DoWipe(s: State, ok: bool): State
    requires CanWipe(s, ok)
  {
    var w := s.memory.worker;
    WorkerAt(Removed(s, Active(w.job, w.purpose), ok), AfterWipe(w, w.failed || !ok, s.memory.jobs[w.job]))
  }

  function AfterWipe(w: Worker, failed: bool, job: Job): Worker
    requires w.Wiping?
  {
    if w.purpose.Pcap? && w.keylogOpened then w.(purpose := TlsKeylog, failed := failed)
    else if failed then
      StartFinish(job, w.job, if w.status.Complete? then Partial else w.status, Some(CLEANUP_PENDING))
    else StartFinish(job, w.job, w.status, w.error)
  }

  predicate CanFinish(s: State, ok: bool) {
    Busy(s) && s.memory.worker.Finishing?
    && (s.memory.worker.stage.PcapFile? && !ok ==> Cipher(s.memory.worker.job, Pcap) in s.store.disk)
    && (s.memory.worker.stage.KeylogFile? && !ok ==> Cipher(s.memory.worker.job, TlsKeylog) in s.store.disk)
    && (s.memory.worker.stage.DropKey? || s.memory.worker.stage.Publish? ==> ok)
  }

  function DoFinish(s: State, ok: bool): State
    requires CanFinish(s, ok)
  {
    var w := s.memory.worker;
    var job := s.memory.jobs[w.job];
    match w.stage
    case PcapFile => FinishPcapFile(s, w, job, ok)
    case PcapRow => FinishPcapRow(s, w, job, ok)
    case KeylogFile => FinishKeylogFile(s, w, job, ok)
    case KeylogRow => FinishKeylogRow(s, w, job, ok)
    case DropKey =>
      WorkerAt(DropKeyIfUnused(s, job.caseId, w.pcapDone && w.keylogDone), w.(stage := Publish))
    case Publish => FinishPublish(s, w, job)
  }

  function FinishPcapFile(s: State, w: Worker, job: Job, ok: bool): State
    requires w.Finishing?
  {
    WorkerAt(Removed(s, Cipher(w.job, Pcap), !job.retained && ok), w.(stage := PcapRow, pcapDone := job.retained || ok))
  }

  function FinishPcapRow(s: State, w: Worker, job: Job, ok: bool): State
    requires w.Finishing?
  {
    var due := !job.retained && w.pcapDone && job.evidence;
    WorkerAt(Forgotten(s, EnvelopeId(w.job, Pcap), due && ok),
             w.(stage := KeylogFile, pcapDone := if due then ok else w.pcapDone))
  }

  function FinishKeylogFile(s: State, w: Worker, job: Job, ok: bool): State
    requires w.Finishing?
  {
    WorkerAt(Removed(s, Cipher(w.job, TlsKeylog), job.keylog && ok),
             w.(stage := KeylogRow, keylogDone := if job.keylog then ok else w.keylogDone))
  }

  function FinishKeylogRow(s: State, w: Worker, job: Job, ok: bool): State
    requires w.Finishing?
  {
    var due := job.keylog && w.keylogDone;
    WorkerAt(Forgotten(s, EnvelopeId(w.job, TlsKeylog), due && ok),
             w.(stage := DropKey, keylogDone := if due then ok else w.keylogDone))
  }

  function FinishPublish(s: State, w: Worker, job: Job): State
    requires w.Finishing?
  {
    var t := WorkerAt(Saved(s, w.job, Published(job, w), PublishedRow(Published(job, w), w)), Idle);
    t.(history := s.history.(published := s.history.published + {w.job}))
  }

  /** The in-memory job `_finish` exposes. */
  function Published(job: Job, w: Worker): Job
    requires w.Finishing?
  {
    var cleanupFailed := !(w.pcapDone && w.keylogDone);
    var status := if cleanupFailed && w.status.Complete? then Partial else w.status;
    var error := PublicErrorText(if cleanupFailed then Some(CLEANUP_PENDING) else w.error, status);
    var keep := !w.keylogDone;
    job.(status := status, error := error, keylogPath := job.keylogPath && keep, keylog := job.keylog && keep)
  }

  function PublishedRow(done: Job, w: Worker): Row
    requires w.Finishing?
  {
    if !done.retained && w.pcapDone then RowOf(done).(path := false, keylogPath := false) else RowOf(done)
  }

  /** A storage call of the worker raises outside every handler: the thread gives the job up.  The
      job in memory was changed before its row was to be written. */
  predicate CanAbandon(s: State) {
    Busy(s) && ((s.memory.worker.Checking? && !s.memory.jobs[s.memory.worker.job].cancelled)
                || (s.memory.worker.Finishing? && (s.memory.worker.stage.DropKey? || s.memory.worker.stage.Publish?)))
  }

  function DoAbandon(s: State): State
    requires CanAbandon(s)
  {
    var w := s.memory.worker;
    var job := s.memory.jobs[w.job];
    if w.Checking? then Unsaved(WorkerAt(s, Idle), w.job, job.(status := Running))
    else if w.stage.DropKey? then WorkerAt(s, Idle)
    else
      var t := Unsaved(WorkerAt(s, Idle), w.job, Published(job, w));
      t.(history := s.history.(published := s.history.published + {w.job}))
  }

  // ---------------------------------------------------------------- other API calls

  predicate CanProgress(s: State) { Busy(s) && s.memory.worker.Analyzing? }

  function DoProgress(s: State): State
    requires CanProgress(s)
  {
    var id := s.memory.worker.job;
    Saved(s, id, s.memory.jobs[id], RowOf(s.memory.jobs[id]))
  }

  predicate CanCancel(s: State, j: JobId) {
    s.process.Up? && j in s.memory.jobs && !Terminal(s.memory.jobs[j].status)
  }

  function DoCancel(s: State, j: JobId, saved: bool): State
    requires CanCancel(s, j)
  {
    var job := s.memory.jobs[j].(cancelled := true, status := Cancelling);
    if saved then Saved(s, j, job, RowOf(job)) else Unsaved(s, j, job)
  }

  function Stopped(job: Job): Job {
    if Terminal(job.status) then job else job.(cancelled := true)
  }

  /** `shutdown`: every unfinished job is told to stop, and the executor takes no more. */
  function DoClose(s: State): State {
    s.(memory := s.memory.(closing := true, jobs := map j | j in s.memory.jobs :: Stopped(s.memory.jobs[j])))
  }

  // ---------------------------------------------------------------- crash and restart

  function DoCrash(s: State): State {
    s.(process := Down, memory := Memory(map[], map[], [], Idle, false))
  }

  /** `load_pcap_analysis_jobs` returns every row once, in some order. */
  predicate IsListing(order: seq<JobId>, rows: map<JobId, Row>) {
    && (forall j :: j in rows ==> j in order)
    && (forall i :: 0 <= i < |order| ==> order[i] in rows)
    && (forall i, k :: 0 <= i < k < |order| ==> order[i] != order[k])
  }

  predicate CanRestore(s: State, ok: bool) {
    s.process.Restoring?
    && match s.process.cursor
       case None => |s.process.todo| > 0
       case Some(c) =>
         && c.job in s.store.rows
         && (c.stage.WipePcap? && !ok ==> Active(c.job, Pcap) in s.store.disk)
         && (c.stage.WipeKeylog? && !ok ==> Active(c.job, TlsKeylog) in s.store.disk)
         && (c.stage.CipherPcap? && !ok ==> Cipher(c.job, Pcap) in s.store.disk)
         && (c.stage.CipherKeylog? && !ok ==> Cipher(c.job, TlsKeylog) in s.store.disk)
  }

  function DoRestore(s: State, ok: bool): State
    requires CanRestore(s, ok)
  {
    match s.process.cursor
    case None => CursorTo(s, s.process.todo[1..], OpenCursor(s, s.process.todo[0]))
    case Some(c) => RestoreStep(s, s.process.todo, c, s.store.rows[c.job], ok)
  }

  function OpenCursor(s: State, j: JobId): Cursor {
    Cursor(j, WipePcap, false, false,
           EnvelopeId(j, Pcap) in s.store.envelopes, EnvelopeId(j, TlsKeylog) in s.store.envelopes)
  }

  function RestoreStep(s: State, todo: seq<JobId>, c: Cursor, row: Row, ok: bool): State {
    match c.stage
    case WipePcap => RestoreWipePcap(s, todo, c, row, ok)
    case WipeKeylog => RestoreWipeKeylog(s, todo, c, row, ok)
    case CipherPcap => RestoreCipherPcap(s, todo, c, row, ok)
    case ForgetPcap => RestoreForgetPcap(s, todo, c, ok)
    case CipherKeylog => RestoreCipherKeylog(s, todo, c, ok)
    case ForgetKeylog => RestoreForgetKeylog(s, todo, c, ok)
    case Reclaim =>
      CursorTo(DropKeyIfUnused(s, row.caseId, !c.evidence && !c.keylog), todo, c.(stage := Save))
    case Save => RestoreSave(s, todo, c, row)
  }

  /** The active twin is looked for when an envelope row or the stored path names it. */
  function RestoreWipePcap(s: State, todo: seq<JobId>, c: Cursor, row: Row, ok: bool): State {
    var due := c.evidence || row.path;
    CursorTo(Removed(s, Active(c.job, Pcap), due && ok), todo, c.(stage := WipeKeylog, failed := due && !ok))
  }

  function RestoreWipeKeylog(s: State, todo: seq<JobId>, c: Cursor, row: Row, ok: bool): State {
    var due := c.keylog || row.keylogPath;
    CursorTo(Removed(s, Active(c.job, TlsKeylog), due && ok), todo,
             c.(stage := CipherPcap, failed := c.failed || (due && !ok)))
  }

  function RestoreCipherPcap(s: State, todo: seq<JobId>, c: Cursor, row: Row, ok: bool): State {
    var due := c.evidence && !row.retained;
    CursorTo(Removed(s, Cipher(c.job, Pcap), due && ok), todo,
             c.(stage := if due && ok then ForgetPcap else CipherKeylog, failed := c.failed || (due && !ok)))
  }

  function RestoreForgetPcap(s: State, todo: seq<JobId>, c: Cursor, ok: bool): State {
    CursorTo(Forgotten(s, EnvelopeId(c.job, Pcap), ok), todo,
             c.(stage := CipherKeylog, evidence := !ok, changed := c.changed || ok, failed := c.failed || !ok))
  }

  function RestoreCipherKeylog(s: State, todo: seq<JobId>, c: Cursor, ok: bool): State {
    CursorTo(Removed(s, Cipher(c.job, TlsKeylog), c.keylog && ok), todo,
             c.(stage := if c.keylog && ok then ForgetKeylog else Reclaim, failed := c.failed || (c.keylog && !ok)))
  }

  function RestoreForgetKeylog(s: State, todo: seq<JobId>, c: Cursor, ok: bool): State {
    CursorTo(Forgotten(s, EnvelopeId(c.job, TlsKeylog), ok), todo,
             c.(stage := Reclaim, keylog := !ok, changed := c.changed || ok, failed := c.failed || !ok))
  }

  function RestoreSave(s: State, todo: seq<JobId>, c: Cursor, row: Row): State {
    var row' := Reconciled(row, c);
    Saved(s, c.job, RestoredJob(row', c), row').(process := Restoring(todo, None))
  }

  /** The row `_restore` leaves behind. */
  function Reconciled(row: Row, c: Cursor): Row {
    var interrupted := !Terminal(row.status);
    var status := if interrupted then Failed else row.status;
    var error := if interrupted then Some(INTERRUPTED) else PublicErrorText(row.error, row.status);
    if !interrupted && !c.failed && !c.changed then row
    else
      row.(status := if c.failed && status.Complete? then Partial else status,
           error := if c.failed then Some(CLEANUP_PENDING) else error,
           path := c.evidence, keylogPath := c.keylog && (row.retained || c.evidence))
  }

  function RestoredJob(row: Row, c: Cursor): Job {
    Job(row.caseId, row.retained, row.status, PublicErrorText(row.error, row.status),
        row.path, c.keylog, c.evidence, c.keylog, false)
  }

  // ---------------------------------------------------------------- transitions

  predicate Enabled(s: State, a: Action) {
    match a
    case Begin(j, _, _, _) => CanBegin(s, j)
    case Advance(j) => CanAdvance(s, j)
    case Fail(j, _) => CanFail(s, j)
    case Undo(j, ok) => CanUndo(s, j, ok)
    case Take => CanTake(s)
    case Check => CanCheck(s)
    case Decrypt(_) => CanDecrypt(s)
    case Analyze(_) => CanAnalyze(s)
    case Wipe(ok) => CanWipe(s, ok)
    case Finish(ok) => CanFinish(s, ok)
    case Abandon => CanAbandon(s)
    case Progress => CanProgress(s)
    case CancelJob(j, _) => CanCancel(s, j)
    case Close => s.process.Up?
    case Crash => !s.process.Down?
    case Boot(order) => s.process.Down? && IsListing(order, s.store.rows)
    case Restore(ok) => CanRestore(s, ok)
    case Serve => s.process.Restoring? && s.process.cursor.None? && s.process.todo == []
  }

  function Next(s: State, a: Action): State
    requires Enabled(s, a)
  {
    match a
    case Begin(j, c, retained, withKeylog) => DoBegin(s, j, c, retained, withKeylog)
    case Advance(j) => DoAdvance(s, j)
    case Fail(j, keyCreated) => DoFail(s, j, keyCreated)
    case Undo(j, ok) => DoUndo(s, j, ok)
    case Take => DoTake(s)
    case Check => DoCheck(s)
    case Decrypt(r) => DoDecrypt(s, r)
    case Analyze(analysis) => DoAnalyze(s, analysis)
    case Wipe(ok) => DoWipe(s, ok)
    case Finish(ok) => DoFinish(s, ok)
    case Abandon => DoAbandon(s)
    case Progress => DoProgress(s)
    case CancelJob(j, saved) => DoCancel(s, j, saved)
    case Close => DoClose(s)
    case Crash => DoCrash(s)
    case Boot(order) => s.(process := Restoring(order, None))
    case Restore(ok) => DoRestore(s, ok)
    case Serve => s.(process := Up)
  }

  /** The first installation: nothing stored, nothing running. */
  predicate Initial(s: State) {
    && s.store.disk == {} && s.store.rows == map[] && s.store.envelopes == map[] && s.store.keys == map[] && s.store.indexed == {}
    && s.process.Down? && s.memory.jobs == map[] && s.memory.submits == map[] && s.memory.queue == [] && s.memory.worker.Idle?
    && s.history.used == {} && s.history.published == {} && s.history.odd == {} && s.history.malformed == {} && s.history.raced == {}
  }

  /** `trace` is a run: each action is enabled where it happens. */
  predicate Runs(s: State, trace: seq<Action>)
    decreases |trace|
  {
    trace == [] || (Enabled(s, trace[0]) && Runs(Next(s, trace[0]), trace[1..]))
  }

  function After(s: State, trace: seq<Action>): State
    requires Runs(s, trace)
    decreases |trace|
  {
    if trace == [] then s else After(Next(s, trace[0]), trace[1..])
  }
}
