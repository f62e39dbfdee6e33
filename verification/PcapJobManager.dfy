/**
 `PcapJobManager` as the class it is in core/api/pcap_jobs.py.  Each method is proved to be a run of
 the machine in PcapMachine.dfy: `Snapshot()` before and after are related by enabled actions, so
 every theorem about runs applies to any sequence of calls.
 */
module PcapManager {
  import opened Wrappers
  import opened JobErrors
  import opened PcapMachine
  import opened PcapInvariants
  import opened PcapRuns
  import opened PcapTheorems

  function Demoted(status: Status): Status {
    if status.Complete? then Partial else status
  }

  function Refusal(job: Job, pcap: DecryptResult, keylog: DecryptResult): Option<string> {
    if pcap.Refused? then Some(pcap.reason)
    else if job.keylog && keylog.Refused? then Some(keylog.reason)
    else None
  }

  /** What a run of the job concludes, before any removal is tried. */
  function Verdict(c: Config, job: Job, pcap: DecryptResult, keylog: DecryptResult, a: Analysis): (Status, Option<string>) {
    if job.cancelled then (Cancelled, None)
    else if Refusal(job, pcap, keylog).Some? then (Failed, Refusal(job, pcap, keylog))
    else (Conclude(c, a).0, Conclude(c, a).1)
  }

  /** The exposed job is that conclusion, or says that something could not be removed. */
  predicate Delivers(job: Job, verdict: (Status, Option<string>)) {
    || (job.status == verdict.0 && job.error == PublicErrorText(verdict.1, verdict.0))
    || (job.status == Demoted(verdict.0) && job.error == Some(CLEANUP_PENDING))
  }

  /** What `_run` hands to `_finish`: the conclusion, unless a decrypted file stayed behind. */
  predicate Carries(status: Status, error: Option<string>, verdict: (Status, Option<string>)) {
    (status, error) == verdict || (status, error) == (Demoted(verdict.0), Some(CLEANUP_PENDING))
  }

  lemma PublishedDelivers(job: Job, w: Worker, verdict: (Status, Option<string>))
    requires w.Finishing? && Carries(w.status, w.error, verdict)
    ensures Delivers(Published(job, w), verdict)
  {
    CleanupTextIsKept(Published(job, w).status);
  }

  /** `shutdown` reaches every job that waits, and no job waits twice. */
  lemma QueuedAreStopped(s: State)
    requires Inv(s) && s.process.Up?
    ensures Distinct(s.memory.queue)
    ensures forall k :: 0 <= k < |s.memory.queue| ==>
      var j := s.memory.queue[k]; j in s.memory.jobs && !Terminal(s.memory.jobs[j].status) && s.memory.jobs[j].evidence
  {
    forall k | 0 <= k < |s.memory.queue|
      ensures var j := s.memory.queue[k]; j in s.memory.jobs && !Terminal(s.memory.jobs[j].status) && s.memory.jobs[j].evidence
    {
      assert SliceOk(SliceOf(s, s.memory.queue[k]));
    }
  }

  lemma ReclaimedKeys(s: State)
    requires Inv(s) && Enabled(s, Serve)
    ensures forall j :: j in s.store.rows && Unused(s, s.store.rows[j].caseId) ==> s.store.rows[j].caseId !in s.store.keys
  {
    forall j | j in s.store.rows && Unused(s, s.store.rows[j].caseId) ensures s.store.rows[j].caseId !in s.store.keys {
      assert SliceOk(SliceOf(s, j));
    }
  }

  /** The worker is at a job, and that job does not wait as well. */
  lemma WorkerIsBusy(s: State)
    requires Inv(s) && s.process.Up? && !s.memory.worker.Idle?
    ensures Busy(s) && s.memory.worker.job !in s.memory.queue
  {
    assert SliceOk(SliceOf(s, s.memory.worker.job));
  }

  lemma PublishedGrows(s: State, a: Action)
    requires Enabled(s, a)
    ensures s.history.published <= Next(s, a).history.published
  {
    match a {
      case Advance(j) =>
      case Undo(j, ok) =>
      case Finish(ok) =>
      case Restore(ok) =>
      case _ =>
    }
  }

  lemma PublishedStays(s: State, published: set<JobId>)
    ensures Closed(t => Reaches(s, t) && published <= t.history.published)
  {
    forall t, a | Reaches(s, t) && published <= t.history.published && Enabled(t, a)
      ensures Reaches(s, Next(t, a)) && published <= Next(t, a).history.published
    {
      ReachesNext(s, t, a);
      PublishedGrows(t, a);
    }
  }

  /** A worker that gave the job up left it as it was, or running. */
  predicate GivenUp(before: Job, after: Job) { after == before || after == before.(status := Running) }

  /** How many effects the worker has left at most. */
  function Remaining(w: Worker): nat {
    match w
    case Idle => 0
    case Finishing(_, stage, _, _, _, _) => 6 - StageRank(stage)
    case Wiping(_, p, _, _, _, _) => if p.Pcap? then 8 else 7
    case Analyzing(_) => 9
    case Decrypting(_, p) => if p.Pcap? then 11 else 10
    case Checking(_) => 12
  }

  class PcapJobManager {
    // evidence root, database and credential store
    var disk: set<Path>
    var rows: map<JobId, Row>
    var envelopes: map<EnvelopeId, Envelope>
    var keys: map<CaseId, KeyId>
    var indexed: set<JobId>
    // the process
    var jobs: map<JobId, Job>
    var queue: seq<JobId>
    var closing: bool
    var worker: Worker
    const config: Config
    // where the process stands, and what it did
    ghost var process: Process
    ghost var submits: map<JobId, Submission>
    ghost var history: History

    ghost function Snapshot(): State
      reads this
    {
      State(Store(disk, rows, envelopes, keys, indexed), process,
            Memory(jobs, submits, queue, worker, closing), history, config)
    }

    constructor (config: Config)
      ensures Initial(Snapshot()) && Inv(Snapshot()) && this.config == config
    {
      disk, rows, envelopes, keys, indexed := {}, map[], map[], map[], {};
      jobs, queue, closing := map[], [], false;
      this.config := config;
      process, submits, worker, history := Down, map[], Idle, History({}, 0, {}, {}, {}, {});
      new;
      InitialInv(Snapshot());
    }

    /** `_remove_path`: an absent file counts as removed, a present one may refuse three times. */
    method RemovePath(p: Path) returns (removed: bool)
      modifies this`disk
      ensures Snapshot() == Removed(old(Snapshot()), p, removed)
      ensures !removed ==> p in old(disk)
    {
      var attempt := 0;
      while attempt < 3
        invariant disk == old(disk)
        invariant attempt > 0 ==> p in old(disk)
      {
        if p !in disk {
          assert disk - {p} == disk;
          return true;
        }
        var refused: bool := *;
        if !refused {
          disk := disk - {p};
          return true;
        }
        attempt := attempt + 1;
      }
      return false;
    }

    /** `_delete_envelope`; the database may raise. */
    method DeleteEnvelope(e: EnvelopeId) returns (ok: bool)
      modifies this`envelopes
      ensures Snapshot() == Forgotten(old(Snapshot()), e, ok)
    {
      ok := *;
      if ok { envelopes := envelopes - {e}; }
    }

    method DeleteCaseKeyIfUnused(c: CaseId)
      modifies this`keys, this`history
      ensures Snapshot() == DropKeyIfUnused(old(Snapshot()), c, true)
    {
      var stored := set e | e in envelopes && envelopes[e].caseId == c;
      if |stored| == 0 {
        assert forall e :: e in envelopes && envelopes[e].caseId == c ==> e in stored;
        history := if InFlight(Snapshot(), c) then history.(raced := history.raced + {c}) else history;
        keys := keys - {c};
      } else {
        var e :| e in stored;
        assert e in envelopes && envelopes[e].caseId == c;
      }
    }

    // -------------------------------------------------------------- _finish

    method FinishPcapFile(id: JobId, ghost P: State -> bool) returns (removed: bool)
      requires Closed(P) && P(Snapshot()) && Busy(Snapshot()) && id in jobs
      requires worker.Finishing? && worker.job == id && worker.stage.PcapFile?
      modifies this`disk, this`worker
      ensures P(Snapshot())
      ensures worker == old(worker).(stage := PcapRow, pcapDone := jobs[id].retained || removed)
    {
      ghost var s := Snapshot();
      removed := true;
      if !jobs[id].retained { removed := RemovePath(Cipher(id, Pcap)); }
      worker := worker.(stage := PcapRow, pcapDone := jobs[id].retained || removed);
      Keep(P, s, Action.Finish(removed), Snapshot());
    }

    method FinishPcapRow(id: JobId, ghost P: State -> bool) returns (ok: bool)
      requires Closed(P) && P(Snapshot()) && Busy(Snapshot()) && id in jobs
      requires worker.Finishing? && worker.job == id && worker.stage.PcapRow?
      modifies this`envelopes, this`worker
      ensures P(Snapshot())
      ensures worker == old(worker).(stage := KeylogFile,
                pcapDone := if !jobs[id].retained && old(worker).pcapDone && jobs[id].evidence then ok else old(worker).pcapDone)
    {
      ghost var s := Snapshot();
      var due := !jobs[id].retained && worker.pcapDone && jobs[id].evidence;
      ok := true;
      if due { ok := DeleteEnvelope(EnvelopeId(id, Pcap)); }
      worker := worker.(stage := KeylogFile, pcapDone := if due then ok else worker.pcapDone);
      Keep(P, s, Action.Finish(ok), Snapshot());
    }

    method FinishKeylogFile(id: JobId, ghost P: State -> bool) returns (removed: bool)
      requires Closed(P) && P(Snapshot()) && Busy(Snapshot()) && id in jobs
      requires worker.Finishing? && worker.job == id && worker.stage.KeylogFile?
      modifies this`disk, this`worker
      ensures P(Snapshot())
      ensures worker == old(worker).(stage := KeylogRow, keylogDone := if jobs[id].keylog then removed else old(worker).keylogDone)
    {
      ghost var s := Snapshot();
      removed := true;
      if jobs[id].keylog { removed := RemovePath(Cipher(id, TlsKeylog)); }
      worker := worker.(stage := KeylogRow, keylogDone := if jobs[id].keylog then removed else worker.keylogDone);
      Keep(P, s, Action.Finish(removed), Snapshot());
    }

    method FinishKeylogRow(id: JobId, ghost P: State -> bool) returns (ok: bool)
      requires Closed(P) && P(Snapshot()) && Busy(Snapshot()) && id in jobs
      requires worker.Finishing? && worker.job == id && worker.stage.KeylogRow?
      modifies this`envelopes, this`worker
      ensures P(Snapshot())
      ensures worker == old(worker).(stage := DropKey,
                keylogDone := if jobs[id].keylog && old(worker).keylogDone then ok else old(worker).keylogDone)
    {
      ghost var s := Snapshot();
      var due := jobs[id].keylog && worker.keylogDone;
      ok := true;
      if due { ok := DeleteEnvelope(EnvelopeId(id, TlsKeylog)); }
      worker := worker.(stage := DropKey, keylogDone := if due then ok else worker.keylogDone);
      Keep(P, s, Action.Finish(ok), Snapshot());
    }

    /** Remove the capture of a job that does not keep it, then its envelope row. */
    method FinishPcap(id: JobId, ghost P: State -> bool) returns (done: bool)
      requires Closed(P) && P(Snapshot()) && Busy(Snapshot()) && id in jobs
      requires worker.Finishing? && worker.job == id && worker.stage.PcapFile? && worker.pcapDone == jobs[id].retained
      modifies this`disk, this`envelopes, this`worker
      ensures P(Snapshot())
      ensures worker == old(worker).(stage := KeylogFile, pcapDone := done)
    {
      var removed := FinishPcapFile(id, P);
      var deleted := FinishPcapRow(id, P);
      done := worker.pcapDone;
    }

    /** Remove the keylog and its envelope row, whatever the retention mode. */
    method FinishKeylog(id: JobId, ghost P: State -> bool) returns (done: bool)
      requires Closed(P) && P(Snapshot()) && Busy(Snapshot()) && id in jobs
      requires worker.Finishing? && worker.job == id && worker.stage.KeylogFile? && worker.keylogDone == !jobs[id].keylog
      modifies this`disk, this`envelopes, this`worker
      ensures P(Snapshot())
      ensures worker == old(worker).(stage := DropKey, keylogDone := done)
    {
      var removed := FinishKeylogFile(id, P);
      var deleted := FinishKeylogRow(id, P);
      done := worker.keylogDone;
    }

    /** The check of the case key may raise, and the worker then gives the job up. */
    method FinishKey(id: JobId, done: bool, ghost P: State -> bool) returns (raised: bool)
      requires Closed(P) && P(Snapshot()) && Busy(Snapshot()) && id in jobs
      requires worker.Finishing? && worker.job == id && worker.stage.DropKey? && done == (worker.pcapDone && worker.keylogDone)
      modifies this`keys, this`history, this`worker
      ensures P(Snapshot()) && history.published == old(history.published)
      ensures worker == if raised then Idle else old(worker).(stage := Publish)
    {
      ghost var s := Snapshot();
      raised := *;
      if done && raised {
        worker := Idle;
        Keep(P, s, Abandon, Snapshot());
        return;
      }
      raised := false;
      if done { DeleteCaseKeyIfUnused(jobs[id].caseId); }
      worker := worker.(stage := Publish);
      Keep(P, s, Action.Finish(true), Snapshot());
    }

    static method TerminalJob(current: Job, pcapDone: bool, keylogDone: bool, status: Status, error: Option<string>, ghost w: Worker)
      returns (job: Job)
      requires w.Finishing? && w.status == status && w.error == error && w.pcapDone == pcapDone && w.keylogDone == keylogDone
      ensures job == Published(current, w)
    {
      var cleanupFailed := !(pcapDone && keylogDone);
      var shown := if cleanupFailed && status.Complete? then Partial else status;
      var text := PublicErrorText(if cleanupFailed then Some(CLEANUP_PENDING) else error, shown);
      job := current.(status := shown, error := text);
      if keylogDone { job := job.(keylogPath := false, keylog := false); }
    }

    /** Only now is the terminal state exposed, in memory and then in the row, whose write may raise. */
    method ExposeTerminalState(id: JobId, pcapDone: bool, keylogDone: bool, status: Status, error: Option<string>) returns (raised: bool)
      requires id in jobs && worker == Finishing(id, Publish, status, error, pcapDone, keylogDone)
      modifies this`jobs, this`rows, this`worker, this`history
      ensures jobs == old(jobs)[id := Published(old(jobs[id]), old(worker))] && worker.Idle?
      ensures history == old(history).(published := old(history).published + {id})
      ensures rows == if raised then old(rows) else old(rows)[id := PublishedRow(jobs[id], old(worker))]
    {
      var job := TerminalJob(jobs[id], pcapDone, keylogDone, status, error, worker);
      var row := RowOf(job);
      if !job.retained && pcapDone { row := row.(path := false, keylogPath := false); }
      jobs := jobs[id := job];
      raised := *;
      if !raised { rows := rows[id := row]; }
      worker, history := Idle, history.(published := history.published + {id});
    }

    method FinishPublish(id: JobId, pcapDone: bool, keylogDone: bool, status: Status, error: Option<string>, ghost P: State -> bool)
      returns (raised: bool)
      requires Closed(P) && P(Snapshot()) && Busy(Snapshot()) && id in jobs
      requires worker == Finishing(id, Publish, status, error, pcapDone, keylogDone)
      modifies this`jobs, this`rows, this`worker, this`history
      ensures P(Snapshot()) && worker.Idle? && history.published == old(history).published + {id}
      ensures jobs == old(jobs)[id := Published(old(jobs[id]), old(worker))]
      ensures raised ==> rows == old(rows)
    {
      ghost var s := Snapshot();
      raised := ExposeTerminalState(id, pcapDone, keylogDone, status, error);
      Keep(P, s, if raised then Abandon else Action.Finish(true), Snapshot());
    }

    /** `_finish`: remove what the job may not keep, then its key, then expose the outcome. */
    method Finish(id: JobId, status: Status, error: Option<string>, ghost P: State -> bool)
      returns (pcapDone: bool, keylogDone: bool, raised: bool)
      requires Closed(P) && P(Snapshot()) && process.Up? && id in jobs
      requires worker == StartFinish(jobs[id], id, status, error)
      modifies this
      ensures P(Snapshot()) && process.Up? && worker.Idle? && queue == old(queue)
      ensures jobs == old(jobs)[id := Published(old(jobs[id]), Finishing(id, Publish, status, error, pcapDone, keylogDone))] ||
              (raised && jobs == old(jobs))
    {
      pcapDone := FinishPcap(id, P);
      keylogDone := FinishKeylog(id, P);
      raised := FinishKey(id, pcapDone && keylogDone, P);
      if !raised { raised := FinishPublish(id, pcapDone, keylogDone, status, error, P); }
    }

    // -------------------------------------------------------------- _run

    /** A job cancelled while it waited goes straight to `_finish`; any other is running from here on,
        and the worker gives it up if its row cannot be written. */
    method CheckJob(id: JobId, ghost P: State -> bool) returns (go: bool, raised: bool)
      requires Closed(P) && P(Snapshot()) && Busy(Snapshot()) && worker == Checking(id)
      modifies this`jobs, this`rows, this`worker
      ensures P(Snapshot()) && go == !old(jobs[id]).cancelled && (raised ==> go)
      ensures !go ==> jobs == old(jobs) && worker == StartFinish(jobs[id], id, Cancelled, None)
      ensures go ==> jobs == old(jobs)[id := old(jobs[id]).(status := Running)]
      ensures go ==> worker == if raised then Idle else Decrypting(id, Pcap)
    {
      ghost var s := Snapshot();
      go, raised := !jobs[id].cancelled, false;
      if go {
        raised := *;
        jobs := jobs[id := jobs[id].(status := Running)];
        if raised { worker := Idle; } else { rows, worker := rows[id := RowOf(jobs[id])], Decrypting(id, Pcap); }
      } else {
        worker := StartFinish(jobs[id], id, Cancelled, None);
      }
      Keep(P, s, if raised then Abandon else Check, Snapshot());
    }

    /** Take the oldest queued job. */
    method StartJob(id: JobId, ghost P: State -> bool) returns (go: bool, raised: bool)
      requires Closed(P) && P(Snapshot()) && process.Up? && worker.Idle?
      requires |queue| > 0 && queue[0] == id && id in jobs
      modifies this`queue, this`jobs, this`rows, this`worker
      ensures P(Snapshot()) && queue == old(queue)[1..] && go == !old(jobs[id]).cancelled && (raised ==> go)
      ensures !go ==> jobs == old(jobs) && worker == StartFinish(jobs[id], id, Cancelled, None)
      ensures go ==> jobs == old(jobs)[id := old(jobs[id]).(status := Running)]
      ensures go ==> worker == if raised then Idle else Decrypting(id, Pcap)
    {
      ghost var s := Snapshot();
      queue, worker := queue[1..], Checking(id);
      Keep(P, s, Take, Snapshot());
      go, raised := CheckJob(id, P);
    }

    /** Decrypt one input to its ".active" twin; a refusal may leave a partial file. */
    method DecryptInput(id: JobId, p: Purpose, result: DecryptResult, ghost P: State -> bool)
      requires Closed(P) && P(Snapshot()) && Busy(Snapshot()) && id in jobs && jobs[id].evidence
      requires worker == Decrypting(id, p)
      modifies this`disk, this`worker
      ensures P(Snapshot())
      ensures worker ==
        if result.Refused? then Wiping(id, Pcap, p.TlsKeylog?, Failed, Some(result.reason), false)
        else if p.Pcap? && jobs[id].keylog then Decrypting(id, TlsKeylog)
        else Analyzing(id)
    {
      ghost var s := Snapshot();
      if result.Opened? || result.left { disk := disk + {Active(id, p)}; } else { disk := disk - {Active(id, p)}; }
      worker := if result.Refused? then Wiping(id, Pcap, p.TlsKeylog?, Failed, Some(result.reason), false)
                else if p.Pcap? && jobs[id].keylog then Decrypting(id, TlsKeylog)
                else Analyzing(id);
      Keep(P, s, Decrypt(result), Snapshot());
    }

    /** The outcome `_run` accumulates while the engine, the index and TShark report. */
    method Outcome(a: Analysis) returns (status: Status, error: Option<string>, index: bool)
      ensures (status, error, index) == Conclude(config, a)
    {
      status, error, index := Failed, None, false;
      match a
      case Raised(reason) => error := Some(reason);
      case Malformed(reported, reason) => status, error := reported, Some(reason);
      case Reported(reported, message, indexing, dissection) =>
        status, error := reported, message;
        if config.hasBuilder && Usable(status) {
          match indexing
          case IndexBuilt => index := true;
          case IndexCancelled => status, error := Cancelled, Some(CANCELLED_TEXT);
          case IndexBroken =>
            if status == Complete { status := Partial; }
            error := Some(PARTIAL_TEXT);
        }
        if config.hasDissector && Usable(status) {
          match dissection
          case Dissected =>
          case DissectionLimited =>
          case PublicationFailed =>
            if status == Complete { status := Partial; }
            error := Some(PARTIAL_TEXT);
          case DissectorRaised(reason) => error := Some(reason);
        }
    }

    method AnalyzeInput(id: JobId, a: Analysis, ghost P: State -> bool) returns (status: Status, error: Option<string>)
      requires Closed(P) && P(Snapshot()) && Busy(Snapshot()) && id in jobs && worker == Analyzing(id)
      modifies this`indexed, this`worker, this`history
      ensures P(Snapshot())
      ensures (status, error) == (Conclude(config, a).0, Conclude(config, a).1)
      ensures worker == Wiping(id, Pcap, jobs[id].keylog, status, error, false)
    {
      ghost var s := Snapshot();
      var index;
      status, error, index := Outcome(a);
      if index { indexed := indexed + {id}; }
      worker := Wiping(id, Pcap, jobs[id].keylog, status, error, false);
      history := history.(odd := if Terminal(status) then history.odd else history.odd + {id},
                          malformed := if a.Malformed? && status.Complete? then history.malformed + {id} else history.malformed);
      Keep(P, s, Analyze(a), Snapshot());
    }

    method WipeInput(id: JobId, p: Purpose, ghost P: State -> bool) returns (removed: bool)
      requires Closed(P) && P(Snapshot()) && Busy(Snapshot()) && id in jobs
      requires worker.Wiping? && worker.job == id && worker.purpose == p
      modifies this`disk, this`worker
      ensures P(Snapshot())
      ensures worker == AfterWipe(old(worker), old(worker).failed || !removed, jobs[id])
    {
      ghost var s := Snapshot();
      removed := RemovePath(Active(id, p));
      worker := AfterWipe(worker, worker.failed || !removed, jobs[id]);
      Keep(P, s, Wipe(removed), Snapshot());
    }

    method DecryptInputs(id: JobId, pcap: DecryptResult, keylog: DecryptResult, ghost P: State -> bool) returns (refused: bool)
      requires Closed(P) && P(Snapshot()) && process.Up? && id in jobs && jobs[id].evidence && worker == Decrypting(id, Pcap)
      modifies this`disk, this`worker
      ensures P(Snapshot())
      ensures refused == Refusal(jobs[id], pcap, keylog).Some?
      ensures refused ==> worker == Wiping(id, Pcap, pcap.Opened?, Failed, Refusal(jobs[id], pcap, keylog), false)
      ensures !refused ==> worker == Analyzing(id)
    {
      DecryptInput(id, Pcap, pcap, P);
      if pcap.Opened? && jobs[id].keylog { DecryptInput(id, TlsKeylog, keylog, P); }
      refused := pcap.Refused? || (jobs[id].keylog && keylog.Refused?);
    }

    /** The `finally` block: both decrypted files go, or the outcome says so. */
    method WipeInputs(id: JobId, withKeylog: bool, status: Status, error: Option<string>, ghost P: State -> bool)
      returns (status': Status, error': Option<string>)
      requires Closed(P) && P(Snapshot()) && Busy(Snapshot()) && id in jobs
      requires worker == Wiping(id, Pcap, withKeylog, status, error, false)
      modifies this`disk, this`worker
      ensures P(Snapshot()) && worker == StartFinish(jobs[id], id, status', error')
      ensures Carries(status', error', (status, error))
    {
      var removed := WipeInput(id, Pcap, P);
      if withKeylog {
        var second := WipeInput(id, TlsKeylog, P);
        removed := removed && second;
      }
      status', error' := status, error;
      if !removed { status', error' := Demoted(status), Some(CLEANUP_PENDING); }
    }

    method Work(id: JobId, pcap: DecryptResult, keylog: DecryptResult, analysis: Analysis, ghost P: State -> bool)
      returns (status: Status, error: Option<string>)
      requires Closed(P) && P(Snapshot()) && process.Up? && id in jobs && jobs[id].evidence && worker == Decrypting(id, Pcap)
      modifies this`disk, this`indexed, this`worker, this`history
      ensures P(Snapshot()) && worker == StartFinish(jobs[id], id, status, error)
      ensures Carries(status, error, Verdict(config, jobs[id].(cancelled := false), pcap, keylog, analysis))
    {
      var refused := DecryptInputs(id, pcap, keylog, P);
      if refused {
        status, error := Failed, Some(if pcap.Refused? then pcap.reason else keylog.reason);
      } else {
        status, error := AnalyzeInput(id, analysis, P);
      }
      status, error := WipeInputs(id, if refused then pcap.Opened? else jobs[id].keylog, status, error, P);
    }

    method RunKeeping(id: JobId, pcap: DecryptResult, keylog: DecryptResult, analysis: Analysis, ghost P: State -> bool)
      returns (raised: bool)
      requires Closed(P) && P(Snapshot()) && process.Up? && worker.Idle?
      requires |queue| > 0 && queue[0] == id && id in jobs && jobs[id].evidence
      modifies this
      ensures P(Snapshot()) && process.Up? && worker.Idle? && queue == old(queue)[1..]
      ensures id in jobs && jobs == old(jobs)[id := jobs[id]]
      ensures Delivers(jobs[id], Verdict(config, old(jobs[id]), pcap, keylog, analysis)) ||
              (raised && GivenUp(old(jobs[id]), jobs[id]))
    {
      ghost var verdict := Verdict(config, jobs[id], pcap, keylog, analysis);
      var go;
      go, raised := StartJob(id, P);
      if raised { return; }
      var status, error := Cancelled, None;
      if go { status, error := Work(id, pcap, keylog, analysis, P); }
      ghost var job := jobs[id];
      var pcapDone, keylogDone;
      pcapDone, keylogDone, raised := Finish(id, status, error, P);
      PublishedDelivers(job, Finishing(id, Publish, status, error, pcapDone, keylogDone), verdict);
    }

    /** `_run`, from the queue to the terminal state, unless a storage call outside every handler
        raises: then the job in memory is as it was, running, or already terminal. */
    method Run(id: JobId, pcap: DecryptResult, keylog: DecryptResult, analysis: Analysis) returns (raised: bool)
      requires Inv(Snapshot()) && process.Up? && worker.Idle? && |queue| > 0 && queue[0] == id
      modifies this
      ensures Inv(Snapshot()) && Reaches(old(Snapshot()), Snapshot())
      ensures process.Up? && worker.Idle? && queue == old(queue)[1..]
      ensures id in old(jobs) && id in jobs && jobs == old(jobs)[id := jobs[id]]
      ensures Delivers(jobs[id], Verdict(config, old(jobs[id]), pcap, keylog, analysis)) ||
              (raised && GivenUp(old(jobs[id]), jobs[id]))
    {
      ghost var s := Snapshot();
      ghost var P := t => Reaches(s, t);
      ReachableIsClosed(s);
      assert QueuedOk(SliceOf(s, id)) && JobOk(SliceOf(s, id), jobs[id]) by { assert SliceOk(SliceOf(s, id)); }
      raised := RunKeeping(id, pcap, keylog, analysis, P);
      ReachesInv(s, Snapshot());
    }

    // -------------------------------------------------------------- cancel and shutdown

    /** A job that ended is left as it is; any other one is told to stop, even when its row cannot be
        written and the call raises. */
    method Cancel(id: JobId) returns (known: bool, raised: bool)
      requires Inv(Snapshot()) && process.Up?
      modifies this`jobs, this`rows
      ensures Inv(Snapshot()) && Reaches(old(Snapshot()), Snapshot())
      ensures known == (id in old(jobs)) && jobs.Keys == old(jobs).Keys
      ensures known ==> jobs == old(jobs)[id := jobs[id]]
      ensures known && Terminal(old(jobs[id]).status) ==> jobs == old(jobs) && rows == old(rows) && !raised
      ensures known && !Terminal(old(jobs[id]).status) ==> jobs[id] == old(jobs[id]).(cancelled := true, status := Cancelling)
      ensures rows == if known && !raised && !Terminal(old(jobs[id]).status) then old(rows)[id := RowOf(jobs[id])] else old(rows)
    {
      ghost var s := Snapshot();
      ReachableIsClosed(s);
      known, raised := id in jobs, false;
      if known && !Terminal(jobs[id].status) {
        raised := *;
        var job := jobs[id].(cancelled := true, status := Cancelling);
        jobs := jobs[id := job];
        if !raised { rows := rows[id := RowOf(job)]; }
        Keep(t => Reaches(s, t), s, CancelJob(id, !raised), Snapshot());
        ReachesInv(s, Snapshot());
      }
    }

    method StopAll()
      modifies this`jobs, this`closing
      ensures Snapshot() == DoClose(old(Snapshot()))
    {
      var todo := jobs.Keys;
      while todo != {}
        invariant jobs.Keys == old(jobs).Keys && todo <= jobs.Keys
        invariant forall j :: j in jobs ==> jobs[j] == if j in todo then old(jobs[j]) else Stopped(old(jobs[j]))
        decreases |todo|
      {
        var j :| j in todo;
        if !Terminal(jobs[j].status) { jobs := jobs[j := jobs[j].(cancelled := true)]; }
        todo := todo - {j};
      }
      closing := true;
      assert jobs == map j | j in old(jobs) :: Stopped(old(jobs[j]));
    }

    predicate Stoppable(q: seq<JobId>)
      reads this`jobs
    {
      Distinct(q) && forall k :: 0 <= k < |q| ==> q[k] in jobs && jobs[q[k]].evidence && jobs[q[k]].cancelled
    }

    /** The executor runs what is still queued; all of it was told to stop. */
    method Drain(ghost P: State -> bool) returns (raised: set<JobId>)
      requires Closed(P) && P(Snapshot()) && process.Up? && worker.Idle? && Stoppable(queue)
      modifies this
      ensures P(Snapshot()) && queue == [] && worker.Idle? && raised <= set j | j in old(queue)
      ensures forall j :: j in old(queue) ==> j in jobs && (jobs[j].status.Cancelled? || j in raised)
    {
      ghost var ended: set<JobId> := {};
      raised := {};
      while |queue| > 0
        invariant P(Snapshot()) && process.Up? && worker.Idle? && Stoppable(queue)
        invariant forall j :: j in ended ==> j in jobs && j !in queue && (jobs[j].status.Cancelled? || j in raised)
        invariant forall j :: j in old(queue) <==> j in queue || j in ended
        invariant raised <= ended
        decreases |queue|
      {
        var id := queue[0];
        var pcap: DecryptResult := *;
        var keylog: DecryptResult := *;
        var analysis: Analysis := *;
        var failed := RunKeeping(id, pcap, keylog, analysis, P);
        ended := ended + {id};
        if failed { raised := raised + {id}; }
      }
    }

    /** The worker goes on by one effect; what files, engine and database answer is arbitrary. */
    method Step(ghost P: State -> bool) returns (raised: bool)
      requires Closed(P) && P(Snapshot()) && Busy(Snapshot())
      modifies this
      ensures P(Snapshot()) && process.Up? && queue == old(queue)
      ensures old(worker).job in jobs && jobs == old(jobs)[old(worker).job := jobs[old(worker).job]]
      ensures worker.Idle? || (!raised && worker.job == old(worker).job && Remaining(worker) < Remaining(old(worker)))
      ensures worker.Idle? && !raised ==> old(worker).job in history.published
    {
      raised := false;
      match worker {
        case Checking(id) => var go; go, raised := CheckJob(id, P);
        case Decrypting(id, p) =>
          var result: DecryptResult := *;
          DecryptOrGiveUp(id, p, result, P);
        case Analyzing(id) =>
          var analysis: Analysis := *;
          var status, error := AnalyzeInput(id, analysis, P);
        case Wiping(id, p, _, _, _, _) => var removed := WipeInput(id, p, P);
        case Finishing(id, stage, _, _, _, _) => raised := FinishStep(id, stage, P);
      }
    }

    method FinishStep(id: JobId, stage: FinishStage, ghost P: State -> bool) returns (raised: bool)
      requires Closed(P) && P(Snapshot()) && Busy(Snapshot()) && worker.Finishing? && worker.job == id && worker.stage == stage
      modifies this
      ensures P(Snapshot()) && process.Up? && queue == old(queue)
      ensures id in jobs && jobs == old(jobs)[id := jobs[id]]
      ensures worker.Idle? || (!raised && worker.job == id && Remaining(worker) < Remaining(old(worker)))
      ensures worker.Idle? && !raised ==> id in history.published
    {
      raised := false;
      match stage {
        case PcapFile => var removed := FinishPcapFile(id, P);
        case PcapRow => var ok := FinishPcapRow(id, P);
        case KeylogFile => var removed := FinishKeylogFile(id, P);
        case KeylogRow => var ok := FinishKeylogRow(id, P);
        case DropKey => raised := FinishKey(id, worker.pcapDone && worker.keylogDone, P);
        case Publish => raised := FinishPublish(id, worker.pcapDone, worker.keylogDone, worker.status, worker.error, P);
      }
    }

    /** Without metadata there is nothing to decrypt. */
    method DecryptOrGiveUp(id: JobId, p: Purpose, result: DecryptResult, ghost P: State -> bool)
      requires Closed(P) && P(Snapshot()) && Busy(Snapshot()) && worker == Decrypting(id, p)
      modifies this`disk, this`worker
      ensures P(Snapshot()) && !worker.Idle? && worker.job == id && Remaining(worker) < Remaining(old(worker))
    {
      if jobs[id].evidence {
        DecryptInput(id, p, result, P);
      } else {
        ghost var s := Snapshot();
        worker := StartFinish(jobs[id], id, Failed, Some(NO_METADATA));
        Keep(P, s, Decrypt(result), Snapshot());
      }
    }

    /** The analysis under way comes to its end. */
    method Await(ghost P: State -> bool) returns (raised: bool)
      requires Closed(P) && P(Snapshot()) && Busy(Snapshot())
      modifies this
      ensures P(Snapshot()) && process.Up? && worker.Idle? && queue == old(queue)
      ensures old(worker).job in jobs && jobs == old(jobs)[old(worker).job := jobs[old(worker).job]]
      ensures raised || old(worker).job in history.published
    {
      ghost var id := worker.job;
      raised := Step(P);
      while !worker.Idle?
        invariant P(Snapshot()) && process.Up? && queue == old(queue) && (!worker.Idle? ==> worker.job == id && !raised)
        invariant id in jobs && jobs == old(jobs)[id := jobs[id]]
        invariant worker.Idle? && !raised ==> id in history.published
        decreases Remaining(worker)
      {
        raised := Step(P);
      }
    }

    /** `shutdown` lets the analysis under way end and the queue drain.  Every job still waiting ends
        cancelled; only a job whose storage calls raised is left as it was. */
    method Shutdown() returns (raised: set<JobId>)
      requires Inv(Snapshot()) && process.Up?
      modifies this
      ensures Inv(Snapshot()) && Reaches(old(Snapshot()), Snapshot())
      ensures queue == [] && worker.Idle?
      ensures forall j :: j in old(queue) ==> j in jobs && (jobs[j].status.Cancelled? || j in raised)
      ensures !old(worker).Idle? ==> old(worker).job in history.published || old(worker).job in raised
    {
      ghost var s := Snapshot();
      ghost var P := t => Reaches(s, t);
      ReachableIsClosed(s);
      QueuedAreStopped(s);
      if !worker.Idle? { WorkerIsBusy(s); }
      StopAll();
      Keep(P, s, Close, Snapshot());
      raised := {};
      if !worker.Idle? {
        var id := worker.job;
        var failed := Await(P);
        if failed { raised := {id}; }
      }
      ghost var published := history.published;
      PublishedStays(s, published);
      var more := Drain(t => Reaches(s, t) && published <= t.history.published);
      raised := raised + more;
      ReachesInv(s, Snapshot());
    }

    // -------------------------------------------------------------- _restore

    /** Remove one decrypted twin if an envelope row or the stored path still names it. */
    method RestoreActive(j: JobId, p: Purpose, due: bool, failed: bool, ghost c: Cursor, ghost P: State -> bool)
      returns (failed': bool)
      requires Closed(P) && P(Snapshot()) && j in rows
      requires process.Restoring? && process.cursor == Some(c) && c.job == j && c.failed == failed
      requires if p.Pcap? then c.stage.WipePcap? && !failed && due == (c.evidence || rows[j].path)
               else c.stage.WipeKeylog? && due == (c.keylog || rows[j].keylogPath)
      modifies this`disk, this`process
      ensures P(Snapshot())
      ensures process == Restoring(old(process).todo,
                                   Some(c.(stage := if p.Pcap? then WipeKeylog else CipherPcap, failed := failed')))
    {
      ghost var s := Snapshot();
      var removed := true;
      if due { removed := RemovePath(Active(j, p)); }
      failed' := failed || !removed;
      process := Restoring(process.todo, Some(c.(stage := if p.Pcap? then WipeKeylog else CipherPcap, failed := failed')));
      Keep(P, s, Restore(removed), Snapshot());
    }

    /** Remove one encrypted input and then its row, when the job may not keep it. */
    method RestoreCipher(j: JobId, p: Purpose, due: bool, ghost c: Cursor, ghost P: State -> bool)
      returns (gone: bool, failed: bool)
      requires Closed(P) && P(Snapshot()) && j in rows
      requires process.Restoring? && process.cursor == Some(c) && c.job == j
      requires if p.Pcap? then c.stage.CipherPcap? && due == (c.evidence && !rows[j].retained)
               else c.stage.CipherKeylog? && due == c.keylog
      modifies this`disk, this`envelopes, this`process
      ensures P(Snapshot())
      ensures process == Restoring(old(process).todo,
        Some(Cursor(j, if p.Pcap? then CipherKeylog else Reclaim, c.failed || failed, c.changed || gone,
                    c.evidence && !(p.Pcap? && gone), c.keylog && !(p.TlsKeylog? && gone))))
    {
      ghost var s := Snapshot();
      ghost var after := if p.Pcap? then CipherKeylog else Reclaim;
      gone, failed := false, false;
      var removed := true;
      if due { removed := RemovePath(Cipher(j, p)); }
      if !due || !removed {
        failed := due;
        process := Restoring(process.todo, Some(c.(stage := after, failed := c.failed || due)));
        Keep(P, s, Restore(removed), Snapshot());
      } else {
        process := Restoring(process.todo, Some(c.(stage := if p.Pcap? then ForgetPcap else ForgetKeylog)));
        Keep(P, s, Restore(true), Snapshot());
        gone := RestoreForget(j, p, c, P);
        failed := !gone;
      }
    }

    method RestoreForget(j: JobId, p: Purpose, ghost c: Cursor, ghost P: State -> bool) returns (gone: bool)
      requires Closed(P) && P(Snapshot()) && j in rows && c.job == j
      requires process.Restoring? && process.cursor == Some(c.(stage := if p.Pcap? then ForgetPcap else ForgetKeylog))
      requires if p.Pcap? then c.evidence else c.keylog
      modifies this`envelopes, this`process
      ensures P(Snapshot())
      ensures process == Restoring(old(process).todo,
        Some(Cursor(j, if p.Pcap? then CipherKeylog else Reclaim, c.failed || !gone, c.changed || gone,
                    c.evidence && !(p.Pcap? && gone), c.keylog && !(p.TlsKeylog? && gone))))
    {
      ghost var s := Snapshot();
      gone := DeleteEnvelope(EnvelopeId(j, p));
      process := Restoring(process.todo,
        Some(Cursor(j, if p.Pcap? then CipherKeylog else Reclaim, c.failed || !gone, c.changed || gone,
                    c.evidence && !(p.Pcap? && gone), c.keylog && !(p.TlsKeylog? && gone))));
      Keep(P, s, Restore(gone), Snapshot());
    }

    method RestoreKey(j: JobId, unused: bool, ghost c: Cursor, ghost P: State -> bool)
      requires Closed(P) && P(Snapshot()) && j in rows
      requires process.Restoring? && process.cursor == Some(c) && c.job == j && c.stage.Reclaim? && unused == (!c.evidence && !c.keylog)
      modifies this`keys, this`history, this`process
      ensures P(Snapshot()) && process == Restoring(old(process).todo, Some(c.(stage := Save)))
    {
      ghost var s := Snapshot();
      if unused { DeleteCaseKeyIfUnused(rows[j].caseId); }
      process := Restoring(process.todo, Some(c.(stage := Save)));
      Keep(P, s, Restore(true), Snapshot());
    }

    /** The status, error and paths a restart leaves in the row. */
    static method ReconciledRow(row: Row, failed: bool, changed: bool, evidence: bool, keylog: bool, ghost c: Cursor)
      returns (row': Row)
      requires (c.failed, c.changed, c.evidence, c.keylog) == (failed, changed, evidence, keylog)
      ensures row' == Reconciled(row, c) && Terminal(row'.status)
    {
      var status, error := row.status, PublicErrorText(row.error, row.status);
      var interrupted := !Terminal(status);
      if interrupted { status, error := Failed, Some(INTERRUPTED); }
      if failed {
        if status.Complete? { status := Partial; }
        error := Some(CLEANUP_PENDING);
      }
      row' := row;
      if interrupted || failed || changed {
        row' := row.(status := status, error := error, path := evidence, keylogPath := keylog);
        if !row.retained && !evidence { row' := row'.(path := false, keylogPath := false); }
      }
    }

    method RestoreJob(j: JobId, failed: bool, changed: bool, evidence: bool, keylog: bool, ghost P: State -> bool)
      requires Closed(P) && P(Snapshot()) && j in rows
      requires process.Restoring? && process.cursor == Some(Cursor(j, Save, failed, changed, evidence, keylog))
      modifies this`rows, this`jobs, this`process
      ensures P(Snapshot()) && process == Restoring(old(process).todo, None)
      ensures rows.Keys == old(rows).Keys && j in jobs && Terminal(jobs[j].status) && jobs == old(jobs)[j := jobs[j]]
    {
      ghost var s := Snapshot();
      ghost var c := process.cursor.value;
      var row := ReconciledRow(rows[j], failed, changed, evidence, keylog, c);
      var job := RestoredJob(row, Cursor(j, Save, failed, changed, evidence, keylog));
      rows, jobs := rows[j := row], jobs[j := job];
      process := Restoring(process.todo, None);
      Keep(P, s, Restore(true), Snapshot());
    }

    method RestoreRow(j: JobId, ghost P: State -> bool)
      requires Closed(P) && P(Snapshot()) && j in rows
      requires process.Restoring? && process.cursor.None? && |process.todo| > 0 && process.todo[0] == j
      modifies this
      ensures P(Snapshot()) && process == Restoring(old(process).todo[1..], None)
      ensures rows.Keys == old(rows).Keys && j in jobs && Terminal(jobs[j].status) && jobs == old(jobs)[j := jobs[j]]
    {
      ghost var s := Snapshot();
      var evidence, keylog := EnvelopeId(j, Pcap) in envelopes, EnvelopeId(j, TlsKeylog) in envelopes;
      process := Restoring(process.todo[1..], Some(Cursor(j, WipePcap, false, false, evidence, keylog)));
      Keep(P, s, Restore(true), Snapshot());
      var failed := RestoreActive(j, Pcap, evidence || rows[j].path, false, process.cursor.value, P);
      failed := RestoreActive(j, TlsKeylog, keylog || rows[j].keylogPath, failed, process.cursor.value, P);
      RestoreEvidence(j, evidence, keylog, failed, P);
    }

    method RestoreEvidence(j: JobId, evidence: bool, keylog: bool, failed: bool, ghost P: State -> bool)
      requires Closed(P) && P(Snapshot()) && j in rows
      requires process.Restoring? && process.cursor == Some(Cursor(j, CipherPcap, failed, false, evidence, keylog))
      modifies this
      ensures P(Snapshot()) && process == Restoring(old(process).todo, None)
      ensures rows.Keys == old(rows).Keys && j in jobs && Terminal(jobs[j].status) && jobs == old(jobs)[j := jobs[j]]
    {
      var pcapGone, pcapFailed := RestoreCipher(j, Pcap, evidence && !rows[j].retained, process.cursor.value, P);
      var keylogGone, keylogFailed := RestoreCipher(j, TlsKeylog, keylog, process.cursor.value, P);
      var kept, keptLog := evidence && !pcapGone, keylog && !keylogGone;
      RestoreKey(j, !kept && !keptLog, process.cursor.value, P);
      RestoreJob(j, failed || pcapFailed || keylogFailed, pcapGone || keylogGone, kept, keptLog, P);
    }

    /** `_restore`: every stored job is reconciled once, and ends in a terminal state. */
    method Restart(order: seq<JobId>)
      requires Inv(Snapshot()) && process.Down? && jobs == map[] && IsListing(order, rows)
      modifies this
      ensures Inv(Snapshot()) && Reaches(old(Snapshot()), Snapshot()) && process.Up?
      ensures rows.Keys == jobs.Keys == old(rows).Keys && forall j :: j in jobs ==> Terminal(jobs[j].status)
      ensures forall j :: j in rows && Unused(Snapshot(), rows[j].caseId) ==> rows[j].caseId !in keys
    {
      ghost var s := Snapshot();
      ghost var P := t => Reaches(s, t);
      ReachableIsClosed(s);
      RestoreAll(order, P);
      ReachesInv(s, Snapshot());
      ghost var ready := Snapshot();
      ReclaimedKeys(ready);
      process := Up;
      Keep(P, ready, Serve, Snapshot());
      ReachesInv(s, Snapshot());
    }

    method RestoreAll(order: seq<JobId>, ghost P: State -> bool)
      requires Closed(P) && P(Snapshot()) && process.Down? && jobs == map[] && IsListing(order, rows)
      modifies this
      ensures P(Snapshot()) && process == Restoring([], None)
      ensures rows.Keys == jobs.Keys == old(rows).Keys && forall j :: j in jobs ==> Terminal(jobs[j].status)
    {
      ghost var s := Snapshot();
      process := Restoring(order, None);
      Keep(P, s, Boot(order), Snapshot());
      for i := 0 to |order|
        invariant P(Snapshot()) && process == Restoring(order[i..], None) && rows.Keys == old(rows).Keys
        invariant jobs.Keys == set k | 0 <= k < i :: order[k]
        invariant forall j :: j in jobs ==> Terminal(jobs[j].status)
      {
        RestoreRow(order[i], P);
      }
    }

    method Forget()
      modifies this`jobs, this`queue, this`closing, this`process, this`submits, this`worker
      ensures Snapshot() == DoCrash(old(Snapshot()))
    {
      jobs, queue, closing := map[], [], false;
      process, submits, worker := Down, map[], Idle;
    }

    /** The process dies: what was in memory is gone, half-done work stays on disk. */
    method Crash()
      requires Inv(Snapshot()) && !process.Down?
      modifies this
      ensures Inv(Snapshot()) && Reaches(old(Snapshot()), Snapshot())
      ensures Snapshot() == DoCrash(old(Snapshot()))
    {
      ghost var s := Snapshot();
      Forget();
      ReachesSelf(s);
      ReachesNext(s, s, Action.Crash);
      NextInv(s, Action.Crash);
    }

    // -------------------------------------------------------------- submit

    /** Fetch or create the case key; it may be created even if the call then fails. */
    method FetchKey(id: JobId, caseId: CaseId, p: Purpose, newKey: KeyId, ghost P: State -> bool) returns (ok: bool)
      requires Closed(P) && P(Snapshot()) && process.Up? && id in submits
      requires submits[id].caseId == caseId && submits[id].phase == Ready(p)
      requires caseId in keys || newKey == history.nextKey
      modifies this`keys, this`history, this`submits
      ensures P(Snapshot()) && (ok ==> caseId in keys)
      ensures submits == old(submits)[id := old(submits[id]).(phase := if ok then Keyed(p, keys[caseId]) else UndoFile(Pcap))]
    {
      ghost var s := Snapshot();
      ok := *;
      var reached: bool := *;
      if (ok || reached) && caseId !in keys {
        keys, history := keys[caseId := newKey], history.(nextKey := history.nextKey + 1);
      }
      if ok {
        submits := submits[id := submits[id].(phase := Keyed(p, keys[caseId]))];
        Keep(P, s, Advance(id), Snapshot());
      } else {
        submits := submits[id := submits[id].(phase := UndoFile(Pcap))];
        Keep(P, s, Fail(id, reached), Snapshot());
      }
    }

    /** Give up: from here on `submit` only undoes. */
    ghost method Raise(id: JobId, P: State -> bool)
      requires Closed(P) && P(Snapshot()) && Enabled(Snapshot(), Fail(id, false))
      modifies this`submits
      ensures P(Snapshot()) && submits == old(submits)[id := old(submits[id]).(phase := UndoFile(Pcap))]
    {
      var s := Snapshot();
      submits := submits[id := submits[id].(phase := UndoFile(Pcap))];
      Keep(P, s, Fail(id, false), Snapshot());
    }

    /** Encrypt one input with the key. */
    method Encrypt(id: JobId, p: Purpose, key: KeyId, ghost P: State -> bool) returns (ok: bool)
      requires Closed(P) && P(Snapshot()) && process.Up? && id in submits && submits[id].phase == Keyed(p, key)
      modifies this`disk, this`submits
      ensures P(Snapshot())
      ensures submits == old(submits)[id :=
        if ok then old(submits[id]).(phase := Sealed(p), sealed := old(submits[id]).sealed[p := key])
        else old(submits[id]).(phase := UndoFile(Pcap))]
    {
      ghost var s := Snapshot();
      ok := *;
      if ok {
        disk := disk + {Cipher(id, p)};
        submits := submits[id := submits[id].(phase := Sealed(p), sealed := submits[id].sealed[p := key])];
        Keep(P, s, Advance(id), Snapshot());
      } else {
        Raise(id, P);
      }
    }

    /** `encrypt`: the case key is fetched or created first, even if encryption then fails. */
    method FetchAndEncrypt(id: JobId, caseId: CaseId, p: Purpose, newKey: KeyId, ghost P: State -> bool) returns (ok: bool)
      requires Closed(P) && P(Snapshot()) && process.Up? && id in submits
      requires submits[id].caseId == caseId && submits[id].phase == Ready(p)
      requires caseId in keys || newKey == history.nextKey
      modifies this`disk, this`keys, this`history, this`submits
      ensures P(Snapshot()) && (ok ==> caseId in keys)
      ensures submits == old(submits)[id :=
        if ok then old(submits[id]).(phase := Sealed(p), sealed := old(submits[id]).sealed[p := keys[caseId]])
        else old(submits[id]).(phase := UndoFile(Pcap))]
    {
      ok := FetchKey(id, caseId, p, newKey, P);
      if ok { ok := Encrypt(id, p, keys[caseId], P); }
    }

    /** Remove the plaintext upload once its envelope exists. */
    method RemoveUpload(id: JobId, p: Purpose, ghost P: State -> bool) returns (ok: bool)
      requires Closed(P) && P(Snapshot()) && process.Up? && id in submits && submits[id].phase == Sealed(p)
      modifies this`disk, this`submits
      ensures P(Snapshot())
      ensures submits == old(submits)[id := old(submits[id]).(phase := if ok then Moved(p) else UndoFile(Pcap))]
    {
      ghost var s := Snapshot();
      ok := *;
      if ok {
        disk := disk - {Upload(id, p)};
        submits := submits[id := submits[id].(phase := Moved(p))];
        Keep(P, s, Advance(id), Snapshot());
      } else {
        Raise(id, P);
      }
    }

    method SaveEnvelope(id: JobId, caseId: CaseId, p: Purpose, key: KeyId, next: Phase, ghost P: State -> bool) returns (ok: bool)
      requires Closed(P) && P(Snapshot()) && process.Up? && id in submits && submits[id].phase == Moved(p)
      requires submits[id].caseId == caseId && p in submits[id].sealed && submits[id].sealed[p] == key
      requires next == if p.Pcap? && submits[id].withKeylog then Ready(TlsKeylog) else Persisting
      modifies this`envelopes, this`submits
      ensures P(Snapshot())
      ensures submits == old(submits)[id := old(submits[id]).(phase := if ok then next else UndoFile(Pcap))]
      ensures ok ==> EnvelopeId(id, p) in envelopes
    {
      ghost var s := Snapshot();
      ok := *;
      if ok {
        envelopes := envelopes[EnvelopeId(id, p) := Envelope(caseId, key)];
        submits := submits[id := submits[id].(phase := next)];
        Keep(P, s, Advance(id), Snapshot());
      } else {
        Raise(id, P);
      }
    }

    /** One input of a submission: encrypted, its plaintext removed, its row stored. */
    method Protect(id: JobId, caseId: CaseId, p: Purpose, newKey: KeyId, next: Phase, ghost P: State -> bool)
      returns (hasMetadata: bool, ok: bool)
      requires Closed(P) && P(Snapshot()) && process.Up? && id in submits
      requires submits[id].caseId == caseId && submits[id].phase == Ready(p) && p !in submits[id].sealed
      requires caseId in keys || newKey == history.nextKey
      requires next == if p.Pcap? && submits[id].withKeylog then Ready(TlsKeylog) else Persisting
      modifies this`disk, this`keys, this`history, this`submits, this`envelopes
      ensures P(Snapshot()) && submits.Keys == old(submits).Keys && (ok ==> hasMetadata && caseId in keys)
      ensures submits == old(submits)[id := submits[id]]
      ensures submits[id] == old(submits[id]).(phase := if ok then next else UndoFile(Pcap), sealed := submits[id].sealed)
      ensures submits[id].sealed.Keys == old(submits[id]).sealed.Keys + if hasMetadata then {p} else {}
    {
      hasMetadata := FetchAndEncrypt(id, caseId, p, newKey, P);
      ok := hasMetadata;
      if ok { ok := Place(id, caseId, p, keys[caseId], next, P); }
    }

    /** Its plaintext removed, then its row stored. */
    method Place(id: JobId, caseId: CaseId, p: Purpose, key: KeyId, next: Phase, ghost P: State -> bool) returns (ok: bool)
      requires Closed(P) && P(Snapshot()) && process.Up? && id in submits && submits[id].phase == Sealed(p)
      requires submits[id].caseId == caseId && p in submits[id].sealed && submits[id].sealed[p] == key
      requires next == if p.Pcap? && submits[id].withKeylog then Ready(TlsKeylog) else Persisting
      modifies this`disk, this`submits, this`envelopes
      ensures P(Snapshot())
      ensures submits == old(submits)[id := old(submits[id]).(phase := if ok then next else UndoFile(Pcap))]
    {
      ok := RemoveUpload(id, p, P);
      if ok { ok := SaveEnvelope(id, caseId, p, key, next, P); }
    }

    /** The job becomes visible, and its row exists. */
    method Register(id: JobId, caseId: CaseId, retained: bool, withKeylog: bool, ghost P: State -> bool) returns (ok: bool)
      requires Closed(P) && P(Snapshot()) && process.Up? && id in submits && submits[id].phase == Persisting
      requires (submits[id].caseId, submits[id].retained, submits[id].withKeylog) == (caseId, retained, withKeylog)
      modifies this`jobs, this`rows, this`submits
      ensures P(Snapshot())
      ensures submits == old(submits)[id := old(submits[id]).(phase := if ok then Registered else UndoFile(Pcap))]
      ensures !ok ==> jobs == old(jobs) && rows == old(rows)
      ensures ok ==> jobs == old(jobs)[id := Job(caseId, retained, Queued, None, true, withKeylog, true, withKeylog, false)]
      ensures ok ==> rows == old(rows)[id := Row(caseId, retained, Queued, None, true, withKeylog)]
    {
      ghost var s := Snapshot();
      ok := *;
      if ok {
        var job := Job(caseId, retained, Queued, None, true, withKeylog, true, withKeylog, false);
        jobs, rows := jobs[id := job], rows[id := Row(caseId, retained, Queued, None, true, withKeylog)];
        submits := submits[id := submits[id].(phase := Registered)];
        Keep(P, s, Advance(id), Snapshot());
      } else {
        Raise(id, P);
      }
    }

    /** Undo one input: its file may refuse to go, its row too; both are then left for the operator. */
    method UndoInput(id: JobId, p: Purpose, hasMetadata: bool, ghost P: State -> bool)
      requires Closed(P) && P(Snapshot()) && process.Up? && id in submits
      requires submits[id].phase == UndoFile(p) && hasMetadata == (p in submits[id].sealed)
      modifies this`disk, this`envelopes, this`submits
      ensures P(Snapshot())
      ensures submits == old(submits)[id := old(submits[id]).(phase := if p.Pcap? then UndoFile(TlsKeylog) else UndoKey)]
    {
      UndoCipher(id, p, hasMetadata, P);
      ghost var s := Snapshot();
      var deleted := true;
      if hasMetadata { deleted := DeleteEnvelope(EnvelopeId(id, p)); }
      submits := submits[id := submits[id].(phase := if p.Pcap? then UndoFile(TlsKeylog) else UndoKey)];
      Keep(P, s, Action.Undo(id, deleted), Snapshot());
    }

    method UndoCipher(id: JobId, p: Purpose, hasMetadata: bool, ghost P: State -> bool)
      requires Closed(P) && P(Snapshot()) && process.Up? && id in submits
      requires submits[id].phase == UndoFile(p) && hasMetadata == (p in submits[id].sealed)
      modifies this`disk, this`submits
      ensures P(Snapshot()) && submits == old(submits)[id := old(submits[id]).(phase := UndoRow(p))]
    {
      ghost var s := Snapshot();
      var removed := true;
      if hasMetadata && Cipher(id, p) in disk {
        removed := *;
        if removed { disk := disk - {Cipher(id, p)}; }
      }
      submits := submits[id := submits[id].(phase := UndoRow(p))];
      Keep(P, s, Action.Undo(id, removed), Snapshot());
    }

    method Undo(id: JobId, caseId: CaseId, hasPcap: bool, hasKeylog: bool, ghost P: State -> bool)
      requires Closed(P) && P(Snapshot()) && process.Up? && id in submits
      requires submits[id].phase == UndoFile(Pcap) && submits[id].caseId == caseId
      requires hasPcap == (Pcap in submits[id].sealed) && hasKeylog == (TlsKeylog in submits[id].sealed)
      modifies this`disk, this`envelopes, this`submits, this`keys, this`history
      ensures P(Snapshot()) && submits == old(submits) - {id}
    {
      UndoInput(id, Pcap, hasPcap, P);
      UndoInput(id, TlsKeylog, hasKeylog, P);
      UndoCaseKey(id, caseId, P);
    }

    /** Last, the key of a case without envelopes; the check may raise. */
    method UndoCaseKey(id: JobId, caseId: CaseId, ghost P: State -> bool)
      requires Closed(P) && P(Snapshot()) && process.Up? && id in submits
      requires submits[id].phase.UndoKey? && submits[id].caseId == caseId
      modifies this`submits, this`keys, this`history
      ensures P(Snapshot()) && submits == old(submits) - {id}
    {
      ghost var s := Snapshot();
      var reached: bool := *;
      if reached { DeleteCaseKeyIfUnused(caseId); }
      submits := submits - {id};
      Keep(P, s, Action.Undo(id, reached), Snapshot());
    }

    method Enlist(id: JobId, ghost P: State -> bool)
      requires Closed(P) && P(Snapshot()) && process.Up? && id in submits && submits[id].phase.Registered?
      modifies this`queue, this`submits
      ensures P(Snapshot()) && submits == old(submits) - {id}
      ensures queue == if closing then old(queue) else old(queue) + [id]
    {
      ghost var s := Snapshot();
      if !closing { queue := queue + [id]; }
      submits := submits - {id};
      Keep(P, s, Advance(id), Snapshot());
    }

    method BeginSubmission(id: JobId, caseId: CaseId, retained: bool, withKeylog: bool, ghost P: State -> bool)
      requires Closed(P) && P(Snapshot()) && process.Up? && id !in history.used
      modifies this`disk, this`history, this`submits
      ensures P(Snapshot()) && history.nextKey == old(history.nextKey)
      ensures submits == old(submits)[id := Submission(caseId, retained, withKeylog, Ready(Pcap), map[])]
    {
      ghost var s := Snapshot();
      disk := disk + {Upload(id, Pcap)} + if withKeylog then {Upload(id, TlsKeylog)} else {};
      history := history.(used := history.used + {id});
      submits := submits[id := Submission(caseId, retained, withKeylog, Ready(Pcap), map[])];
      Keep(P, s, Action.Begin(id, caseId, retained, withKeylog), Snapshot());
    }

    /** Both inputs of a submission, and the metadata collected before one of them raised. */
    method ProtectAll(id: JobId, caseId: CaseId, withKeylog: bool, newKey: KeyId, ghost P: State -> bool)
      returns (hasPcap: bool, hasKeylog: bool, ok: bool)
      requires Closed(P) && P(Snapshot()) && process.Up? && id in submits && newKey == history.nextKey
      requires submits[id] == Submission(caseId, submits[id].retained, withKeylog, Ready(Pcap), map[])
      modifies this`disk, this`keys, this`history, this`submits, this`envelopes
      ensures P(Snapshot()) && id in submits && submits == old(submits)[id := submits[id]]
      ensures submits[id] == old(submits[id]).(phase := if ok then Persisting else UndoFile(Pcap), sealed := submits[id].sealed)
      ensures hasPcap == (Pcap in submits[id].sealed) && hasKeylog == (TlsKeylog in submits[id].sealed)
      ensures ok ==> hasPcap && hasKeylog == withKeylog
    {
      hasKeylog := false;
      hasPcap, ok := Protect(id, caseId, Pcap, newKey, if withKeylog then Ready(TlsKeylog) else Persisting, P);
      if ok && withKeylog {
        hasKeylog, ok := Protect(id, caseId, TlsKeylog, newKey, Persisting, P);
      }
    }

    method SubmitKeeping(id: JobId, caseId: CaseId, retained: bool, withKeylog: bool, newKey: KeyId, ghost P: State -> bool)
      returns (accepted: bool)
      requires Closed(P) && P(Snapshot()) && process.Up? && id !in history.used && newKey == history.nextKey && id !in submits
      modifies this
      ensures P(Snapshot()) && submits == old(submits)
      ensures accepted ==> jobs == old(jobs)[id := Job(caseId, retained, Queued, None, true, withKeylog, true, withKeylog, false)]
      ensures !accepted ==> jobs == old(jobs) && rows == old(rows)
      ensures queue == if accepted && !closing then old(queue) + [id] else old(queue)
    {
      BeginSubmission(id, caseId, retained, withKeylog, P);
      var hasPcap, hasKeylog, ok := ProtectAll(id, caseId, withKeylog, newKey, P);
      accepted := SettleSubmission(id, caseId, retained, withKeylog, hasPcap, hasKeylog, ok, P);
      assert submits == old(submits);
    }

    /** Publish the job, or undo what its inputs left. */
    method SettleSubmission(id: JobId, caseId: CaseId, retained: bool, withKeylog: bool, hasPcap: bool, hasKeylog: bool,
                            ok: bool, ghost P: State -> bool)
      returns (accepted: bool)
      requires Closed(P) && P(Snapshot()) && process.Up? && id in submits
      requires submits[id] == Submission(caseId, retained, withKeylog, if ok then Persisting else UndoFile(Pcap), submits[id].sealed)
      requires hasPcap == (Pcap in submits[id].sealed) && hasKeylog == (TlsKeylog in submits[id].sealed)
      modifies this
      ensures P(Snapshot()) && submits == old(submits) - {id} && closing == old(closing)
      ensures accepted ==> jobs == old(jobs)[id := Job(caseId, retained, Queued, None, true, withKeylog, true, withKeylog, false)]
      ensures !accepted ==> jobs == old(jobs) && rows == old(rows)
      ensures queue == if accepted && !closing then old(queue) + [id] else old(queue)
    {
      accepted := ok;
      if ok { accepted := Register(id, caseId, retained, withKeylog, P); }
      if accepted {
        Enlist(id, P);
      } else {
        Undo(id, caseId, hasPcap, hasKeylog, P);
      }
    }

    /** A submission is all or nothing to its caller: the job is registered and queued, or no job and
        no row of it exists (once the manager is closing, a registered job is not queued any more). */
    method Submit(id: JobId, caseId: CaseId, retained: bool, withKeylog: bool, newKey: KeyId) returns (accepted: bool)
      requires Inv(Snapshot()) && process.Up? && id !in history.used && newKey == history.nextKey
      modifies this
      ensures Inv(Snapshot()) && Reaches(old(Snapshot()), Snapshot())
      ensures accepted ==> jobs == old(jobs)[id := Job(caseId, retained, Queued, None, true, withKeylog, true, withKeylog, false)]
      ensures !accepted ==> jobs == old(jobs) && rows == old(rows)
      ensures queue == if accepted && !closing then old(queue) + [id] else old(queue)
    {
      ghost var s := Snapshot();
      ghost var P := t => Reaches(s, t);
      ReachableIsClosed(s);
      assert SliceOk(SliceOf(s, id));
      accepted := SubmitKeeping(id, caseId, retained, withKeylog, newKey, P);
      ReachesInv(s, Snapshot());
    }
  }
}
