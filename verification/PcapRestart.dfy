/** What a restart leaves of one job when every removal and deletion in it succeeds. */
module PcapRestart {
  import opened Wrappers
  import opened JobErrors
  import opened PcapMachine
  import opened PcapInvariants
  import opened PcapTheorems

  predicate Reconciling(s: State) {
    s.process.Restoring? && s.process.cursor.Some? && s.process.cursor.value.job in s.store.rows
  }

  /** The rest of the reconciliation of one row, everything succeeding. */
  function Reconcile(s: State): (t: State)
    requires Reconciling(s)
    ensures t.process == Restoring(s.process.todo, None)
    decreases 8 - RestoreRank(s.process.cursor.value.stage)
  {
    if s.process.cursor.value.stage.Save? then DoRestore(s, true) else Reconcile(DoRestore(s, true))
  }

  /** A decrypted file no row names: its envelope row is gone and the stored path was cleared. */
  predicate Overlooked(s: State, j: JobId, p: Purpose)
    requires j in s.store.rows
  {
    && Active(j, p) in s.store.disk && EnvelopeId(j, p) !in s.store.envelopes
    && !(if p.Pcap? then s.store.rows[j].path else s.store.rows[j].keylogPath)
  }

  // ---------------------------------------------------------------- stage by stage, from the last

  /** The row under reconciliation. */
  predicate At(s: State, j: JobId, stage: RestoreStage) {
    Reconciling(s) && s.process.cursor.value.job == j && s.process.cursor.value.stage == stage
  }

  /** The cursor knows which envelope rows there are. */
  predicate Knows(s: State, j: JobId) {
    && Reconciling(s)
    && s.process.cursor.value.evidence == (EnvelopeId(j, Pcap) in s.store.envelopes)
    && s.process.cursor.value.keylog == (EnvelopeId(j, TlsKeylog) in s.store.envelopes)
  }

  /** No encrypted file without its row. */
  predicate Filed(s: State, j: JobId, p: Purpose) {
    Cipher(j, p) in s.store.disk ==> EnvelopeId(j, p) in s.store.envelopes
  }

  predicate Leaves(s: State, j: JobId)
    requires Reconciling(s) && j in s.store.rows
  {
    NothingLeft(Reconcile(s), j, s.store.rows[j].retained)
  }

  lemma FromSave(s: State, j: JobId)
    requires At(s, j, Save)
    ensures Leaves(s, j) <==> NothingLeft(s, j, s.store.rows[j].retained)
  {
  }

  lemma FromReclaim(s: State, j: JobId)
    requires At(s, j, Reclaim)
    ensures Leaves(s, j) <==> NothingLeft(s, j, s.store.rows[j].retained)
  {
    FromSave(DoRestore(s, true), j);
  }

  /** No decrypted file, and no capture that may not stay. */
  predicate PcapLeft(s: State, j: JobId)
    requires j in s.store.rows
  {
    || Active(j, Pcap) in s.store.disk || Active(j, TlsKeylog) in s.store.disk
    || (!s.store.rows[j].retained && (Cipher(j, Pcap) in s.store.disk || EnvelopeId(j, Pcap) in s.store.envelopes))
  }

  lemma FromForgetKeylog(s: State, j: JobId)
    requires At(s, j, ForgetKeylog) && Cipher(j, TlsKeylog) !in s.store.disk
    ensures Leaves(s, j) <==> !PcapLeft(s, j)
  {
    FromReclaim(DoRestore(s, true), j);
  }

  lemma FromCipherKeylog(s: State, j: JobId)
    requires At(s, j, CipherKeylog) && Filed(s, j, TlsKeylog)
    requires s.process.cursor.value.keylog == (EnvelopeId(j, TlsKeylog) in s.store.envelopes)
    ensures Leaves(s, j) <==> !PcapLeft(s, j)
  {
    var t := DoRestore(s, true);
    if s.process.cursor.value.keylog { FromForgetKeylog(t, j); } else { FromReclaim(t, j); }
  }

  predicate ActiveLeft(s: State, j: JobId) { Active(j, Pcap) in s.store.disk || Active(j, TlsKeylog) in s.store.disk }

  lemma FromForgetPcap(s: State, j: JobId)
    requires At(s, j, ForgetPcap) && Cipher(j, Pcap) !in s.store.disk && Filed(s, j, TlsKeylog)
    requires s.process.cursor.value.keylog == (EnvelopeId(j, TlsKeylog) in s.store.envelopes)
    ensures Leaves(s, j) <==> !ActiveLeft(s, j)
  {
    FromCipherKeylog(DoRestore(s, true), j);
  }

  lemma FromCipherPcap(s: State, j: JobId)
    requires At(s, j, CipherPcap) && Knows(s, j) && Filed(s, j, Pcap) && Filed(s, j, TlsKeylog)
    ensures Leaves(s, j) <==> !ActiveLeft(s, j)
  {
    var t := DoRestore(s, true);
    if s.process.cursor.value.evidence && !s.store.rows[j].retained { FromForgetPcap(t, j); } else { FromCipherKeylog(t, j); }
  }

  lemma FromWipeKeylog(s: State, j: JobId)
    requires At(s, j, WipeKeylog) && Knows(s, j) && Filed(s, j, Pcap) && Filed(s, j, TlsKeylog)
    ensures Leaves(s, j) <==> Active(j, Pcap) !in s.store.disk && !Overlooked(s, j, TlsKeylog)
  {
    FromCipherPcap(DoRestore(s, true), j);
  }

  lemma FromWipePcap(s: State, j: JobId)
    requires At(s, j, WipePcap) && Knows(s, j) && Filed(s, j, Pcap) && Filed(s, j, TlsKeylog)
    ensures Leaves(s, j) <==> !Overlooked(s, j, Pcap) && !Overlooked(s, j, TlsKeylog)
  {
    FromWipeKeylog(DoRestore(s, true), j);
  }

  /** The reconciliation of the next row, everything succeeding. */
  function NextReconciled(s: State): State
    requires s.process.Restoring? && s.process.cursor.None? && |s.process.todo| > 0 && s.process.todo[0] in s.store.rows
  {
    Reconcile(DoRestore(s, true))
  }

  /** In every reachable state: a restart in which every removal and deletion succeeds leaves nothing
      of the job it reconciles behind if and only if no decrypted file of the job is overlooked. */
  lemma RestartLeavesNothingIff(s0: State, trace: seq<Action>, j: JobId)
    requires Initial(s0) && Runs(s0, trace)
    requires var s := After(s0, trace);
      s.process.Restoring? && s.process.cursor.None? && |s.process.todo| > 0 && s.process.todo[0] == j
    ensures var s := After(s0, trace);
      && j in s.store.rows
      && (NothingLeft(NextReconciled(s), j, s.store.rows[j].retained) <==> !Overlooked(s, j, Pcap) && !Overlooked(s, j, TlsKeylog))
  {
    var s := After(s0, trace);
    InitialInv(s0);
    RunInv(s0, trace);
    NextIsFiled(s, j);
    FromWipePcap(DoRestore(s, true), j);
  }

  lemma NextIsFiled(s: State, j: JobId)
    requires SliceOk(SliceOf(s, j)) && s.process.Restoring? && s.process.cursor.None? && |s.process.todo| > 0 && s.process.todo[0] == j
    ensures j in s.store.rows
    ensures var t := DoRestore(s, true);
      At(t, j, WipePcap) && Knows(t, j) && Filed(t, j, Pcap) && Filed(t, j, TlsKeylog) && t.store == s.store
  {
  }

  /** Only a job that is flagged, or whose engine reported no terminal status, can be overlooked. */
  lemma OverlookedIsFlagged(s0: State, trace: seq<Action>, j: JobId, p: Purpose)
    requires Initial(s0) && Runs(s0, trace) && j in After(s0, trace).store.rows && Overlooked(After(s0, trace), j, p)
    ensures var s := After(s0, trace);
      j in s.history.odd || (Terminal(s.store.rows[j].status) && CleanupPending(s.store.rows[j].status, s.store.rows[j].error))
  {
    InitialInv(s0);
    RunInv(s0, trace);
    assert SliceOk(SliceOf(After(s0, trace), j));
  }
}
