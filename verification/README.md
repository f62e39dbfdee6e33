# WatchTower: verified models

Dafny 4.11 models of the parts of WatchTower whose promises span many operations, and proofs of those
promises. `dafny verify dfyconfig.toml` checks the whole project.

| part | files |
|---|---|
| PCAP jobs: submission, worker, cancellation, crash, restart | `JobErrors`, `PcapMachine`, `PcapInvariants`, `PcapRuns`, `PcapTheorems`, `PcapEvidence`, `PcapOutcomes`, `PcapRestart`, `PcapScenarios`, `PcapJobManager` |
| Analyst runs and approvals | `ToolPolicy`, `AnalystScope`, `AnalystMachine`, `AnalystInvariants`, `AnalystTheorems`, `AnalystExclusivity`, `AnalystSilence`, `AnalystVerdicts`, `AnalystScenarios`, `AnalystCancellations`, `AnalystOrchestrator` |
| Analyst evidence loop with its call ledger, and the event log | `ExecuteLoop`, `LoopStory`, `EvidenceLoop`, `EventLog` |
| Conversations rebuilt from flow rows, and their pages | `PythonText`, `Slices`, `Conversations`, `ConversationOrder`, `ConversationPages`, `ConversationWalk`, `ConversationTotals`, `ConversationScenarios`, `ConversationReader` |
| Page cursors and keyset paging | `Base64Url`, `CursorJson`, `CursorCodec`, `KeysetPaging` |
| Operator authentication | `OperatorAuth`, `AuthHistory`, `AuthTheorems`, `AuthCalls`, `AuthService` |
| Release gates, archive and cleanup | `InputDigest`, `ReleaseGates`, `ReleaseScan`, `ReleaseArchive`, `ReleaseTool` |
| Endpoint ranking | `PriorityRanking` |

Three shapes recur. A protocol is a state machine of small actions, one per effect it can be interrupted
after; an invariant is proved for every action, and the promises follow for every run. A class whose
methods update fields is proved against that machine: `Snapshot()` before and after a method are related by
enabled actions (for the PCAP manager: every predicate closed under the machine's steps survives the
method, which `PcapRuns.KeepingIsReaching` shows to be the same thing). A loop is proved equal to a
function, and the function carries the lemmas.

## What the proofs found

Each promise the code does not keep in general comes with a lemma at an input where it fails and with the
exact condition under which it holds.

- A job whose engine reports a status that is not terminal can be shown, after one failed removal and a
  restart, as merely interrupted while its decrypted capture is still on disk
  (`PcapScenarios.OddReportLosesPlaintext`). Jobs are accounted for in every run exactly when the engine
  reports terminal statuses only (`PcapScenarios.AccountedIffReportsAreTerminal`).
- A job can be complete without its packet index: a report that says complete and then turns out to be
  malformed leaves that status (`PcapScenarios.MalformedReportSkipsIndex`). Complete jobs have their index in
  every run exactly when no such report is made (`PcapScenarios.CompleteIsIndexedIff`).
- Two submissions of one case can end with an envelope row whose key is gone: the second fails and drops
  the key after the first one fetched it and before its row is stored (`PcapScenarios.KeyRaceLosesEvidence`).
  Without such an interleaving it cannot happen (`PcapTheorems.AtomicSealsNeverRace`).
- The text "will be retried on restart" is never withdrawn, even by the restart that succeeds
  (`PcapTheorems.TerminalIsFinal`), and a flagged job can keep its plaintext through a restart in which every
  removal succeeds (`PcapScenarios.FlaggedPlaintextStays`). Such a restart leaves nothing of a job behind
  exactly when no decrypted file of it is on disk whose envelope row is gone and whose stored path was cleared
  (`PcapRestart.RestartLeavesNothingIff`).
- Tools are still executed for a cancelled run: by an approver past its claim and by the worker segment under
  way (`AnalystCancellations.ClaimExecutesAfterCancel`, `SegmentExecutesAfterCancel`). The next step executes
  nothing for a run exactly when no approver is past its claim on a tool of it and no busy worker of it has a call
  the guard lets through (`AnalystSilence.QuietStepsIff`); nothing is executed on any way on exactly when, moreover,
  no busy worker has a call the guard puts to the operator (`AnalystSilence.ExecutesIff`).
- A cancellation that arrives inside a worker segment is not final: the worker's own verdict overwrites it
  (`AnalystCancellations.VerdictOverwritesCancel`). An ended run keeps its status exactly when its worker is not
  busy (`AnalystTheorems.FinalStaysIff`).
- A conversation can have two active runs: a worker that is busy when its run is cancelled asks the operator after
  another run was started (`AnalystCancellations.LateAskMakesTwo`). A step ends the exclusivity of active runs
  exactly when it is such a request (`AnalystExclusivity.StepIsExclusiveIff`), and runs are exclusive throughout
  exactly when no step is (`AnalystExclusivity.RunsFromTheStartAreExclusiveIff`).
- A retry can run with another scope than the run it retries (`AnalystScenarios.RetryTakesOverScope`). It keeps
  the scope exactly when the scope names something and agrees with its capture session, or names nothing and is
  what the conversation hands on at that moment (`AnalystTheorems.RetryKeepsScopeIff`).
- The priority shortcut makes its call even with a call budget of zero (`ExecuteLoop.ShortcutExceedsBudget`).
  The cap is exceeded, by one, exactly when the opening calls fill it and the shortcut is due
  (`ExecuteLoop.BudgetExceededIff`).
- A conversation page can show totals that miss a direction, when the second row of a conversation lies
  behind the rows read (`ConversationScenarios.AnswerIsMissed`); they are exact exactly when the rows behind
  the prefix carry none of that traffic (`ConversationTotals.PageItemsAreExactIff`).
- It can list the wrong conversation when several start at the same time (`ConversationScenarios.TieIsMissed`)
  or when one conversation fills the rows read (`ConversationPages.LongConversationHidesTheRest`). Which page is
  exact, and when following the cursor lists everything, is `ConversationPages.PageIsExactIff` and
  `ConversationWalk.WalkListsAllIff`.
- A failed append to the durable event log gives away a number that is given again: after a success following
  it the failed event is hidden from every reader (`EventLog.FailedAppendHidesAnEvent`), and after a restart it
  takes the place of the first stored event (`EventLog.FailedAppendReplacesAnEvent`). Nothing is hidden exactly when
  every number given was free (`EventLog.RunIsCleanIff`, `EventLog.NothingHiddenIff`).
- Once authentication is disabled on an account that has a PIN, only a reset enables it again
  (`AuthTheorems.DisabledNeedsReset`).
- Single files archived from below the top of the repository can overwrite each other, because they are
  stored under their bare names (`ReleaseArchive.NestedFilesCollide`); nothing is lost exactly when no two
  different files share a place (`ReleaseArchive.CopiesSurviveIff`). A scan never lists such files
  (`ReleaseScan.ScansDoNotClash`).

## Model

| member | source | states |
|---|---|---|
| JobErrors.PublicErrorsAreClosed | core/api/pcap_jobs.py:700-741 | only a fixed vocabulary (plus one identifier in brackets) is ever exposed as an error, and exposing it again changes nothing |
| JobErrors.ShownTextIs | core/api/pcap_jobs.py:710-741 | an error is shown as it is exactly when it is one of six fixed texts or names one ASCII exception type; any other one becomes a text that depends on the status alone |
| PcapInvariants.NextSlice | core/api/pcap_jobs.py:201-581 | every action keeps what is owed to each job: a tracked file, a queued, running, finishing, restored or submitted job stays consistent with disk, rows, envelopes and memory |
| PcapInvariants.NextKeys | core/api/pcap_jobs.py:244-311 | every action keeps each stored envelope, and each one whose key was fetched, openable by its case key, unless that case lost its key while one of its envelopes was being made |
| PcapInvariants.NextReclaimed | core/api/pcap_jobs.py:849-920 | during a restart every reconciled row whose case has no envelope has lost its key, or the check is still to come |
| PcapTheorems.NextInv | core/api/pcap_jobs.py:201-613 | the invariant survives every action, crash and restart step |
| PcapTheorems.RunInv | core/api/pcap_jobs.py:201-953 | and therefore every run, any removal failing, any interleaving |
| PcapTheorems.TerminalJobsAreAccountedFor | core/api/pcap_jobs.py:499-581 | in every reachable state a terminal job is flagged cleanup-pending and not complete, or has no decrypted file, no keylog file or row and, unless retained, no capture file or row |
| PcapEvidence.RetainedEvidenceStays | core/api/pcap_jobs.py:536-545 | retained evidence is never lost: a job submitted to keep its input says so in its row for good, and from the moment it has a row its encrypted capture is on disk and its envelope row stored, in every later state of every run, through finish, cancel, shutdown, crash and any number of restarts |
| PcapEvidence.RetainedRowStays | core/api/pcap_jobs.py:885-901 | the same from any reachable state: a row that keeps its input is never removed, never changes its mind and never loses the capture |
| PcapEvidence.InputsWaitForTheWorker | core/api/pcap_jobs.py:313-389 | until its analysis is over every job, retained or not, has its encrypted capture and keylog on disk with their rows, so the worker never finds its metadata missing; what is analyzed has been decrypted in full, keylog included |
| PcapEvidence.StoppedJobsNeverStart | core/api/pcap_jobs.py:315-328 | a job cancelled, or told to stop by a shutdown, before the worker took it up is never decrypted while the process lives, and ends as cancelled if it ends |
| PcapEvidence.FailedSubmissionsLeaveNoTrace | core/api/pcap_jobs.py:276-311 | a submission that fails at any effect leaves no encrypted file, envelope row, job or job row, whatever is interleaved with its undoing, provided its own removals and deletions succeed |
| PcapEvidence.QueueIsFifo | core/api/pcap_jobs.py:312-328 | jobs are taken in the order their submissions ended in, and none joins the queue once the manager shuts down |
| PcapTheorems.HonestReports | core/api/pcap_jobs.py:396-412 | only an engine report of a non-terminal status can exempt a job from that, and only a malformed one that says complete from having its index |
| PcapScenarios.AccountedIffReportsAreTerminal | core/api/pcap_jobs.py:885-887 | whatever ways analyses may end in: all jobs are accounted for in all runs if and only if every status reported is terminal |
| PcapScenarios.OddReportLosesPlaintext | core/api/pcap_jobs.py:870-953 | a run for each non-terminal status that ends with a job shown as interrupted and its plaintext on disk |
| PcapScenarios.MalformedReportSkipsIndex | core/api/pcap_jobs.py:407-412 | a run that ends with a job complete and no index, because its report raised once its status was taken over |
| PcapScenarios.CompleteIsIndexedIff | core/api/pcap_jobs.py:407-447 | whatever ways analyses may end in: complete jobs have their index in all runs if and only if no report that says complete is malformed |
| PcapRestart.RestartLeavesNothingIff | core/api/pcap_jobs.py:870-920 | in every reachable state: a restart whose removals and deletions succeed leaves nothing of the job behind if and only if no decrypted file of it has lost both its envelope row and its stored path |
| PcapRestart.OverlookedIsFlagged | core/api/pcap_jobs.py:525-581 | only a job flagged cleanup-pending, or one with a non-terminal report, can be in that situation |
| PcapScenarios.FlaggedPlaintextStays | core/api/pcap_jobs.py:525-581 | a run that gets there: the wipe fails, the encrypted file and its row go, the paths are cleared, and the next restart leaves the plaintext |
| PcapTheorems.CompleteIsClean | core/api/pcap_jobs.py:408-447 | a complete job left nothing behind and, with an index builder, its packet index was persisted, unless its report was malformed |
| PcapTheorems.ConcludesCompleteIff | core/api/pcap_jobs.py:393-498 | complete exactly when the engine said so and either its report broke right after that or the index was persisted and the dissection published; a dissector that raises leaves the status, so complete does not exclude an error |
| PcapOutcomes.ConcludesAs | core/api/pcap_jobs.py:393-498 | each final status has its exact causes, and the error text its exact source: raised and failed reports fail, a cancelled index cancels, a broken index or failed publication leaves a usable job partial |
| PcapOutcomes.OutcomeIsPublished | core/api/pcap_jobs.py:396-581 | over every run: what an analysis came to is the status and text the job shows and stores once it ends; only a removal or deletion that failed on the way can replace it, and then by a status that is not complete and the cleanup text |
| PcapTheorems.TerminalIsFinal | core/api/pcap_jobs.py:870-953 | a persisted terminal status never changes, through cancels, shutdowns, crashes and any number of restarts; a cleanup flag is never cleared |
| PcapTheorems.TerminalJobIsLeftAlone | core/api/pcap_jobs.py:593-613 | no action of a living process touches a terminal job in memory |
| PcapTheorems.PublishedOnce | core/api/pcap_jobs.py:562-581 | a job reaches its publishing step at most once, and not yet terminal |
| PcapTheorems.StoredEnvelopesOpen | core/api/pcap_jobs.py:244-311 | every stored envelope opens with the key its case holds, unless the case raced |
| PcapTheorems.RaceLosesKey | core/api/pcap_jobs.py:659-663 | a case races exactly when its key is dropped after a submission fetched it and before the row is stored; the submission then stores a row no key opens |
| PcapTheorems.AtomicSealsNeverRace | core/api/pcap_jobs.py:244-275 | if fetching the key of an input, encrypting it and storing its row are not interleaved, every stored envelope opens in every run |
| PcapScenarios.KeyRaceLosesEvidence | core/api/pcap_jobs.py:276-311 | two submissions of one case can leave an envelope row without a key |
| PcapTheorems.RestartReclaimsKeys | core/api/pcap_jobs.py:919-920 | when a restart is over, a case that owns a row but no envelope has no key |
| PcapOutcomes.RestartSettlesEveryRow | core/api/pcap_jobs.py:849-953 | over a whole restart, whatever fails in it: every row ends, the interrupted ones as failed with the text that says so (or the cleanup text), and the others keep their status, demoted from complete if a cleanup failed |
| PcapOutcomes.LastEnvelopeTakesTheKey | core/api/pcap_jobs.py:558-563 | before a job is shown its case key is gone exactly when both inputs were cleaned up and no envelope of the case is stored |
| PcapOutcomes.UndoingTakesTheKey | core/api/pcap_jobs.py:297-300 | undoing a failed submission drops the case key exactly when no envelope of the case is stored |
| PcapManager.PcapJobManager.constructor | core/api/pcap_jobs.py:96-167 | a fresh manager satisfies the invariant |
| PcapManager.PcapJobManager.RemovePath | core/api/pcap_jobs.py:685-698 | the retrying removal succeeds on an absent file, and leaves a file only if it was there |
| PcapManager.PcapJobManager.DeleteCaseKeyIfUnused | core/api/pcap_jobs.py:659-663 | the key goes exactly when no envelope of the case is stored |
| PcapManager.PcapJobManager.Finish | core/api/pcap_jobs.py:525-581 | a run of the machine that ends with the published job, status and error depending on what could be removed |
| PcapManager.PcapJobManager.Outcome | core/api/pcap_jobs.py:393-498 | the accumulated status, error and index flag equal the machine's conclusion |
| PcapManager.PcapJobManager.WipeInputs | core/api/pcap_jobs.py:499-515 | both decrypted files go, or the outcome is demoted and flagged |
| PcapManager.PcapJobManager.Run | core/api/pcap_jobs.py:315-523 | a whole job keeps the invariant, is a run of the machine, touches no other job, and delivers its verdict or says cleanup is pending; cancelled before its start it ends cancelled; when a storage call outside every handler raises, the job in memory is as it was, running, or already terminal |
| PcapManager.PcapJobManager.Cancel | core/api/pcap_jobs.py:593-602 | a terminal job is left alone; any other is told to stop, even if its row cannot be written |
| PcapManager.PcapJobManager.Shutdown | core/api/pcap_jobs.py:604-613 | the analysis under way comes to its end, the queue drains, and every job that waited in it ends cancelled, unless its storage calls raised |
| PcapManager.PcapJobManager.Step | core/api/pcap_jobs.py:315-581 | the worker goes on by one effect of the machine, from any stage, and comes closer to its end |
| PcapManager.PcapJobManager.Submit | core/api/pcap_jobs.py:201-313 | a submission registers and queues the job, or leaves neither job nor row |
| PcapManager.PcapJobManager.Restart | core/api/pcap_jobs.py:849-953 | every stored job is reconciled once, ends terminal, and unused case keys are gone |
| PcapManager.PcapJobManager.ReconciledRow | core/api/pcap_jobs.py:922-953 | the restored row is terminal and equals the machine's reconciliation |
| PcapManager.PcapJobManager.Crash | core/api/pcap_jobs.py:849-859 | memory is lost, disk and database stay, the invariant holds |
| ToolPolicy.ValidateDecides | core/ai/policy.py:36-84 | what the schema validator accepts conforms to the schema, where numbers compare by value; with bounds on integers only it accepts exactly that and never raises anything but a policy error |
| ToolPolicy.GateDecides | core/ai/policy.py:87-139 | said of the manifest and the arguments: a call runs at once only if it is admissible, its tier is "read", it does not hand research to OpenAI and it sends no private context outside; an admissible call that misses one of these is put to the operator; with typed bounds it is refused exactly when it is not admissible (mode, allowed tools, schema, scope, addresses and UUIDs under their keys, active and external permissions) |
| AnalystScope.ReadScopesAreStable | core/ai/contracts.py:89-105 | a scope read from a dictionary survives being stored and read again |
| AnalystScope.ReadsIff | core/ai/contracts.py:89-105 | a scope is read exactly when its times are finite and in order and its addresses are addresses; the addresses are then their normal forms, once each, and the record limit the nearest from 1 to 500 |
| AnalystScope.HasScopeIff | core/ai/contracts.py:71-73 | a scope names nothing exactly when its five texts are absent or empty and it has neither addresses nor times |
| AnalystScope.NormalFormMatches | core/ai/orchestrator.py:1002-1024 | normalising gives a scope that agrees with its capture session, changes no more than source and a missing interface, and leaves alone exactly those that agree |
| AnalystInvariants.StartedOk | core/ai/orchestrator.py:444-509 | starting a run keeps the invariant: at most one token per run, one active run per conversation, one run per request id |
| AnalystInvariants.ScopeForSettles | core/ai/orchestrator.py:383-402 | whatever scope a new run gets, asked for or inherited and then normalised, it survives being stored and read again |
| AnalystInvariants.CallOk | core/ai/orchestrator.py:1069-1127 | a tool call keeps it: executed directly, refused, or handed to one pending approval |
| AnalystInvariants.ActedOk | core/ai/orchestrator.py:1166-1209 | a claimed approval executes what was approved, because that is what is stored |
| AnalystInvariants.CancelledOk | core/ai/orchestrator.py:649-664 | cancelling any run at any time keeps it and withdraws what is pending |
| AnalystInvariants.RestartedOk | core/storage/database.py:1169-1204 | a new process interrupts active runs and withdraws their approvals |
| AnalystTheorems.RunInv | core/ai/orchestrator.py:375-1223 | the invariant holds after every interleaving of operators and workers |
| AnalystTheorems.RunsAreExclusive | core/ai/orchestrator.py:444-451 | two active runs never share a conversation unless one of them was cancelled, two runs never share a client request id |
| AnalystExclusivity.StepIsExclusiveIff | core/ai/orchestrator.py:1101-1112 | while active runs are exclusive, a step ends that if and only if a worker asks the operator for a run not active any more while its conversation has an active run |
| AnalystExclusivity.RunIsExclusiveIff | core/ai/orchestrator.py:444-451 | over any run of the machine: a conversation has at most one active run throughout if and only if no step is such a request |
| AnalystExclusivity.RunsFromTheStartAreExclusiveIff | core/ai/orchestrator.py:444-451 | so from an empty installation |
| AnalystCancellations.LateAskMakesTwo | core/ai/orchestrator.py:649-664 | the run from there that ends in two active runs of one conversation: begin, cancel, start another, ask |
| AnalystExclusivity.TimelyRunsAreExclusive | core/ai/orchestrator.py:444-451 | in particular active runs are exclusive while no cancellation arrives inside a worker segment |
| AnalystExclusivity.LateAskRevivesRun | core/ai/orchestrator.py:649-664 | for any run whose worker is about to ask the operator: cancelled just before, it is active again next to a run started meanwhile |
| AnalystTheorems.PendingMeansAwaiting | core/ai/orchestrator.py:1101-1112 | a pending approval belongs to a run that awaits approval |
| AnalystTheorems.RetriesStayReadOnly | core/ai/orchestrator.py:511-543 | a retry continues an interrupted, read-only run in its conversation, with the scope `start` makes of the stored one, and the new run is read-only too |
| AnalystVerdicts.RetriesAs | core/ai/orchestrator.py:511-543 | a retry is refused exactly for a run that was not interrupted or could change something, an unreadable scope, one retried before, or an occupied conversation; otherwise it starts a run in the mode of the old one as `start` does |
| AnalystTheorems.RetryKeepsScopeIff | core/ai/orchestrator.py:383-402 | the retried scope is the stored one if and only if it names something and agrees with its capture session, or names nothing and equals what the conversation hands on now |
| AnalystScenarios.RetryTakesOverScope | core/ai/orchestrator.py:383-402 | a scopeless run is interrupted, a run with a scope completes in its conversation, and the retry of the first gets that scope |
| AnalystTheorems.FinalRunsStay | core/ai/orchestrator.py:649-689 | a run that completed, degraded, needs scope, failed, was rejected or cancelled, and whose worker is not busy, never changes again |
| AnalystTheorems.FinalStaysIff | core/ai/orchestrator.py:979-996 | an ended run is kept by every possible step if and only if its worker is not busy, which only a cancellation inside a segment leaves behind |
| AnalystCancellations.VerdictOverwritesCancel | core/ai/orchestrator.py:979-996 | a run from an empty installation that gets there: begin, cancel, and the worker's verdict replaces the cancellation |
| AnalystTheorems.ExecutionsAreAuthorised | core/ai/orchestrator.py:1069-1209 | every execution in every history was admissible under the policy and scope of its run, an active tool only in action mode; one without an operator is of the "read" tier, not for OpenAI and sends nothing private outside; any other one was confirmed in time, with the phrase of its tool, for exactly its tool, arguments and scope |
| AnalystVerdicts.CallsAreJudged | core/ai/orchestrator.py:1069-1127 | a call of a registered tool with typed bounds: logged at once if admissible and harmless, put to the operator as it stands (and the worker gives up the run) if admissible and not harmless, otherwise nothing changes |
| AnalystVerdicts.BrokenCallsFailTheRun | core/ai/orchestrator.py:993-998 | helper, by definition of a call: a tool nobody registered, or arguments no bound can be compared with, fail the run and execute nothing |
| AnalystVerdicts.StartRaisesIff | core/ai/orchestrator.py:375-470 | `start` changes nothing exactly for an unreadable scope, an unknown conversation, a known request id, a conversation with an active run, or a parent that is no interrupted run of it |
| AnalystVerdicts.StartsAs | core/ai/orchestrator.py:383-509 | an accepted start stores the run as it was asked for, its permissions derived from its mode, with the status and the one task or request for consent that belong to it |
| AnalystVerdicts.FollowUpsInherit | core/ai/orchestrator.py:383-402 | a run that names no scope goes on with the scope of the run that ended before it in its conversation, unless that one failed |
| AnalystVerdicts.ConsentComesFirst | core/ai/orchestrator.py:666-683 | a run that waits for consent to OpenAI: over every later run no worker gets it and nothing is executed for it before that consent was approved |
| AnalystVerdicts.ApprovalIsCarriedOut | core/ai/orchestrator.py:1142-1213 | in every reachable state a pending approval confirmed in time and with its phrase can be carried out: executed once, exactly as asked, and the run goes on with its stored scope and policy |
| AnalystVerdicts.ConfirmsIff | core/ai/orchestrator.py:1142-1165 | a confirmation has an effect exactly while the approval waits, and then too late or with the phrase asked for |
| AnalystVerdicts.RejectsIff | core/ai/orchestrator.py:1215-1223 | a rejection has an effect exactly while the approval waits |
| AnalystVerdicts.WaitingRunsDoNothing | core/ai/orchestrator.py:1101-1112 | while an approval waits, no worker has its run and no step executes anything for it |
| AnalystVerdicts.RefusalsAreFinal | core/ai/orchestrator.py:1142-1223 | a rejection, or a confirmation that comes too late, ends the run as rejected or failed for good, and nothing is ever executed for it again |
| AnalystVerdicts.CancelsAs | core/ai/orchestrator.py:649-664 | cancelling ends exactly the runs that have not ended, withdraws what they waited for, and changes nothing else |
| AnalystVerdicts.WorkersStepAs | core/ai/orchestrator.py:685-689 | helper, by definition of the steps: a worker that takes a run up sets it running unless it was cancelled; one that ends it stores its verdict, and makes it the latest answer of its conversation unless it failed |
| AnalystVerdicts.RestartInterrupts | core/storage/database.py:1169-1204 | after a restart every run that was active is interrupted, no approval waits, and everything else is as it was |
| AnalystTheorems.OneExecutionPerApproval | core/storage/database.py:1373-1390 | one approval is good for one execution, whatever the number of approvers |
| AnalystSilence.QuietStepsIff | core/ai/orchestrator.py:649-664 | for any run: no step executes anything for it if and only if no approver is past its claim on a tool of it and no busy worker of it has a call the guard lets through |
| AnalystSilence.ExecutesIff | core/ai/orchestrator.py:649-664 | for a run that ended: something is still executed for it, on some way on, if and only if an approver is past its claim on a tool of it or a busy worker of it has a call the guard lets through or puts to the operator |
| AnalystSilence.CancelledRunsFallSilent | core/ai/orchestrator.py:649-664 | otherwise nothing is, whatever happens |
| AnalystSilence.LateAsksExecute | core/ai/orchestrator.py:1101-1112 | a late request for approval can be confirmed, claimed and executed |
| AnalystSilence.ClaimsOutliveCancellation | core/ai/orchestrator.py:1158-1196 | helper, by definition of the steps: an approver past its claim executes its tool even if the run was cancelled meanwhile |
| AnalystCancellations.ClaimExecutesAfterCancel | core/ai/orchestrator.py:1158-1196 | a run from an empty installation: the operator confirms, the claim is won, the run is cancelled, and the tool is executed |
| AnalystSilence.SegmentsOutliveCancellation | core/ai/orchestrator.py:793-850 | helper, by definition of the steps: so does a worker inside a segment with a call that needs no confirmation |
| AnalystCancellations.SegmentExecutesAfterCancel | core/ai/orchestrator.py:793-850 | a run from an empty installation: begin, cancel, and the worker executes a call |
| AnalystOrchestrator.AIOrchestrator.Start | core/ai/orchestrator.py:375-509 | one start action; an unreadable scope is an error, a known request id answers with its run, otherwise there is a new run exactly when conversation, inherited scope and parent allow |
| AnalystOrchestrator.AIOrchestrator.EffectiveScope | core/ai/orchestrator.py:383-402 | the branches of `start` and `_normalize_scope` compute the scope of the new run |
| AnalystOrchestrator.AIOrchestrator.Begin | core/ai/orchestrator.py:444-509 | run, conversation scope, and worker, approval or request for a scope, as the machine has them |
| AnalystOrchestrator.AIOrchestrator.Retry | core/ai/orchestrator.py:511-543 | one retry action |
| AnalystOrchestrator.AIOrchestrator.ExecuteCall | core/ai/orchestrator.py:1069-1119 | one call action, with the guard's verdict |
| AnalystOrchestrator.AIOrchestrator.Cancel | core/ai/orchestrator.py:649-664 | one cancel action for any run, at any time: pending approvals withdrawn one by one; an unknown run is an error |
| AnalystOrchestrator.AIOrchestrator.Reject | core/ai/orchestrator.py:1215-1223 | one reject action, exactly when the approval is pending |
| AnalystOrchestrator.AIOrchestrator.Approve | core/ai/orchestrator.py:1142-1213 | a run of the machine: check, claim, execute and resume in this order, beyond the check exactly when pending, in time and confirmed |
| ExecuteLoop.RunIsBounded | core/ai/orchestrator.py:740-871 | at most 8 rounds, rounds + 2 provider turns, and min(12, budget) calls plus one the priority shortcut may add |
| ExecuteLoop.BudgetExceededIff | core/ai/orchestrator.py:740-765 | the calls exceed min(12, budget), by one, if and only if the registered baseline names fill it, the shortcut is due and its tool is known |
| ExecuteLoop.ShortcutExceedsBudget | core/ai/orchestrator.py:757-765 | such an input: with no budget at all, a follow-up to a ranking still makes one call |
| LoopStory.RunIsTold | core/ai/orchestrator.py:740-873 | every run is as the provider's turns and the world decide: the opening evidence in order up to the cap, a unique top endpoint if it is to be acted on, then round after round, at most eight, every call of every turn repaired and in order, and the follow-ups due after a forced first tool, until one of the endings |
| LoopStory.WhyRunsEnd | core/ai/orchestrator.py:777-873 | an answer comes only after a turn that asked for no tool, or with min(12, budget) used up, or with the second repeat, or after exactly eight rounds; stopped means cancelled, no answer a failed provider turn, suspended a call that needs approval, unknown tool an unregistered name |
| LoopStory.UniqueTopIff | core/ai/orchestrator.py:752-757 | the endpoint the shortcut investigates is the only one the last ranking names, without a tie |
| EvidenceLoop.Execution.Lookup | core/ai/orchestrator.py:1129-1140 | a lookup returns what the tool returns and reaches the tool only for a call not made before |
| EvidenceLoop.Execution.RunCalls | core/ai/orchestrator.py:793-850 | the calls of a turn: budget, unknown tools, approvals, redundancy and a failing provider end it as in the loop without a ledger |
| EvidenceLoop.Execution.RunRounds | core/ai/orchestrator.py:777-873 | the rounds equal those of the loop without a ledger, which LoopStory.RunIsTold tells turn by turn |
| EvidenceLoop.Execute | core/ai/orchestrator.py:740-873 | the loop with its ledger has the story of LoopStory.RunIsTold, with each call's result what its tool returns; yet every distinct call reaches a tool exactly once; the bounds hold |
| EventLog.ViewIsOrdered | core/ai/orchestrator.py:603-614 | a reader gets at most 200 events, newer than what it has seen, in order and without repeats |
| EventLog.ViewIsLastWindow | core/ai/orchestrator.py:603-614 | while every append succeeds, they are exactly the last 200 stored ones it has not seen |
| EventLog.ViewIsExactly | core/ai/orchestrator.py:603-614 | for any stored list and any memory: a reader is shown an event if and only if it is newer than its cursor, the last entry with its number (stored first, then remembered), and fewer than 200 greater numbers are in use |
| EventLog.NothingHiddenIff | core/ai/orchestrator.py:603-614 | nothing of a reader's window is kept from it if and only if no two emissions there carry one number |
| EventLog.StepIsCleanIff | core/ai/orchestrator.py:616-633 | an emission, appended or not, and a restart keep numbers unambiguous if and only if the number given is in use neither in the database nor among the last 199 remembered |
| EventLog.RunIsCleanIff | core/ai/orchestrator.py:616-633 | over any sequence of them: numbers stay unambiguous throughout if and only if each one given was free |
| EventLog.FreeRunHidesNothing | core/ai/orchestrator.py:603-633 | after such a run every reader sees all of its window |
| EventLog.EmitsAs | core/ai/orchestrator.py:616-633 | an emission is numbered after the last event stored or, if it cannot be stored, remembered, the first one 1; memory keeps the last 200 |
| EventLog.StoredAreNumbered | core/storage/database.py:1125-1147 | through failed appends and restarts the stored events are exactly those that could be stored, in order, numbered 1, 2, 3 |
| EventLog.FailureThenSuccess | core/ai/orchestrator.py:616-633 | a failed append whose number the database gives next is hidden from every reader by the following success |
| EventLog.FailureAfterRestart | core/ai/orchestrator.py:616-633 | after a restart a failed append is numbered 1: it hides the first stored event, and itself from every reader that has seen one |
| EventLog.FailedAppendHidesAnEvent | core/ai/orchestrator.py:616-633 | a failure and then a success, as a run from an empty log |
| EventLog.FailedAppendReplacesAnEvent | core/ai/orchestrator.py:616-633 | a success, a restart and a failure, as a run from an empty log |
| EventLog.RunEvents.Emit | core/ai/orchestrator.py:616-633 | one step: appended and numbered by the database, or numbered after the last event remembered; memory keeps 200 |
| EventLog.RunEvents.Events | core/ai/orchestrator.py:603-614 | what is returned to a reader is that view, so exactly the visible events |
| Conversations.KeyIgnoresDirection | core/api/service.py:1907-1911 | rows share a conversation exactly when they share protocol and the unordered pair of endpoints, the lower of which comes first |
| PythonText.TextLessIff | core/api/service.py:1907-1911 | texts compare at their first difference, a prefix coming first |
| Conversations.BuildIsLocal | core/api/service.py:1906-1967 | each key has one item, made of that key's rows alone |
| Conversations.DirectionsAddUp | core/api/service.py:1948-1958 | an item's total is what its rows carried, its two directions are what its initiator and its responder sent, and they add up |
| Conversations.ItemsSummarise | core/api/service.py:1912-1967 | the roles are those the first row names if they are its endpoints and else its direction; the times span the rows, a missing last time being the start; established if any row is; references to the first two rows |
| Conversations.TrafficIsConserved | core/api/service.py:1906-1958 | bytes and packets over all conversations equal those over all rows |
| Conversations.PageSays | core/api/service.py:1900-1974 | a limit from 1 to 5000 is used as given, any other moved to the nearest; the rows looked at are 2(cursor + limit + 1), at most 100,000; truncated exactly when the table has more; the next cursor follows a full page |
| Conversations.HeadsGrow | core/storage/database.py:5599-5605 | with rows in time order, reading more rows adds conversations at the end and changes no head |
| ConversationOrder.SortSorts | core/api/service.py:1968 | sorting rearranges the conversations by start and id and does nothing else |
| ConversationOrder.StretchIff | core/api/service.py:1968 | conversations found later leave a stretch of the listing as it is if and only if none of them is to be listed before its last place |
| ConversationPages.PageIsExactIff | core/api/service.py:1902-1974 | the page from the prefix lists what the page from all rows lists, with the same next cursor, if and only if the prefix holds enough conversations and no later one belongs before its last place, equal start times included |
| ConversationPages.OnlyTiesDisturb | core/api/service.py:1968 | a later conversation belongs there only if it starts at the same time as the last one listed and has the smaller id |
| ConversationPages.PrefixPageIsExactIff | core/api/service.py:1902-1974 | with at most two rows per conversation, below the cap, the page is exact if and only if no such tie disturbs it |
| ConversationWalk.PrefixPageIsExact | core/api/service.py:1902-1974 | so it is when conversations start at different times |
| ConversationPages.LongConversationHidesTheRest | core/api/service.py:1902-1905 | a longer conversation that fills the prefix hides what follows it |
| ConversationTotals.PageItemsAreExactIff | core/api/service.py:1902-1958 | for any table, limit, cursor and item of the page: its total, each direction, and the item as a whole are exact if and only if the rows behind the prefix say nothing more of it |
| ConversationTotals.ItemIsExactIff | core/api/service.py:1912-1967 | an item made of the first rows is the exact one if and only if the later rows carry none of its traffic, lie within its times, establish nothing new and come when it has two references |
| ConversationTotals.TwoRowsSettle | core/api/service.py:1902-1958 | with two rows per conversation at most: if and only if all its rows were read |
| ConversationScenarios.AnswerIsMissed | core/api/service.py:1902-1958 | a table of five rows whose first page shows one direction and half of the traffic of the conversation it lists |
| ConversationScenarios.TieIsMissed | core/api/service.py:1902-1974 | a table of five rows with one start time whose first page lists the wrong conversation |
| ConversationWalk.WalkEnds | core/api/service.py:447-454 | following the next cursor ends for any table |
| ConversationWalk.WalkListsAllIff | core/api/service.py:1902-1974 | following it from the start lists every conversation once and in order if and only if no page boundary is disturbed by a tie |
| ConversationWalk.WalkListsAll | core/api/service.py:1902-1974 | so it does when conversations start at different times |
| ConversationPages.HeadsAreDistinct | core/api/service.py:1906-1944 | no conversation is listed twice |
| ConversationReader.ReadPage | core/api/service.py:1900-1974 | the loop over rows and its dictionary compute that page |
| ConversationReader.Fill | core/api/service.py:1905-1967 | the dictionary holds exactly the conversations, in order of insertion |
| Base64Url.DecodeEncode | core/api/service.py:129-139 | base64url without padding decodes to what was encoded |
| Base64Url.AlphabetIs | core/api/service.py:136-139 | the letters are those of the URL-safe alphabet of RFC 4648, section 5 |
| CursorJson.ReadPrintedObject | core/api/service.py:136-139 | compact JSON of integers, floats and strings reads back as printed, escapes and surrogate pairs included |
| CursorJson.ReadEscapedString | core/api/service.py:136-139 | an escaped string ends at its quote and reads back |
| CursorCodec.SortedDict | core/api/service.py:136-139 | sorting the keys does not change the dictionary |
| CursorCodec.CursorRoundTrip | core/api/service.py:123-139 | an issued cursor decodes to its position and is never taken for an offset |
| CursorCodec.OffsetsDecode | core/api/service.py:123-134 | numbers and their decimal texts are offsets; nothing, an empty text, zero and what is below are the beginning |
| CursorCodec.CursorsAreDistinct | core/api/service.py:123-139 | different positions have different cursors |
| KeysetPaging.RestIsSuffix | core/storage/database.py:2666-2672 | the rows strictly after a row are the rest of the table |
| KeysetPaging.WalkIsTable | core/api/service.py:438-471 | following the cursors from the start ends, and the pages together are the table |
| KeysetPaging.OtherPositions | core/api/service.py:438-471 | any other cursor: a number skips that many rows, an empty or incomplete one starts at the top |
| KeysetPaging.PagesListEverything | core/api/service.py:519-536 | so for flows (by packet count) and findings (by the time last seen), higher rank first and among equal ranks the higher id |
| AuthHistory.NextInv | core/auth/service.py:113-600 | every call keeps rows and log consistent and appends justified entries only |
| AuthTheorems.LockoutBound | core/auth/service.py:501-535 | k consecutive counted failures take at least 0, then 2^(k-4) - 2, then 510 + 256(k-13) seconds |
| AuthTheorems.LockoutHoldsForEveryone | core/auth/service.py:501-509 | during a lockout neither a failure is counted nor the right PIN accepted |
| AuthTheorems.CapNeverBinds | core/auth/service.py:524-526 | no lock exceeds 256 seconds, so the cap of 300 never applies |
| AuthTheorems.AcceptedSessionsAreFresh | core/auth/service.py:240-272 | an accepted token belongs to a session created less than 28,800 seconds before and not revoked since |
| AuthCalls.LiveSessionsAreAccepted | core/auth/service.py:240-272 | in every reachable state a token is accepted if and only if authentication is on, its session was created less than 28,800 seconds before and nothing has revoked it |
| AuthTheorems.SessionsNeedProof | core/auth/service.py:216-238 | in every history a session directly follows a PIN that matched, a newly set one, a passkey challenge or a reset; a step-up a PIN that matched or a challenge; every accepted PIN matched and every counted failure did not |
| AuthCalls.VerifyPinDecides | core/auth/service.py:216-229 | a PIN opens a session if and only if authentication is on, no lock runs, the account has a PIN and it matched; otherwise it is counted, with the exact lock of 2, 4, ..., 256 seconds from the fifth failure on, or refused unseen |
| AuthCalls.StepUpPinDecides | core/auth/service.py:231-238 | a PIN renews a proof if and only if the session is live and the PIN passes; without a live session it is not looked at |
| AuthCalls.SetEnabledDecides | core/auth/service.py:185-214 | settings change only behind a step-up check and then by a first PIN or with the PIN |
| AuthCalls.WrongPinAchievesNothing | core/auth/service.py:501-535 | on an account with a PIN a wrong one opens no session, renews no proof and changes no setting, in any of the three calls; on an account that is on and not locked it counts as exactly one failure |
| AuthCalls.PasskeysDecide | core/auth/service.py:344-436 | a passkey opens a session or renews a proof if and only if its challenge is open, of the right kind and not expired, the response verifies and, to register, the key is new and a live session asks |
| AuthCalls.ResetsDecide | core/auth/service.py:438-499 | a reset happens exactly with a matching recovery code or as administrator; the account is then on with a new PIN, every session there was is revoked, and one is new |
| AuthCalls.SetupAndLockDecide | core/auth/service.py:113-183 | set-up works exactly once; a lock revokes the sessions it names and no other |
| AuthCalls.ChallengesStart | core/auth/service.py:319-402 | who gets a challenge, and for 300 seconds |
| AuthTheorems.StepUpIsRecent | core/auth/service.py:274-281 | what passes the step-up check follows a proof at most 300 seconds old |
| AuthCalls.FreshProofsPass | core/auth/service.py:274-281 | with authentication on, the step-up check lets a token pass if and only if its session is live and its last proof at most 300 seconds old |
| AuthCalls.ProofsComeFromCalls | core/auth/service.py:113-600 | in every history the last proof of every session was brought by a call that carried it: a PIN that matched on an unlocked account, an open challenge that was answered, first set-up, a matching recovery code, or the administrator |
| AuthTheorems.ChallengesAreSingleUse | core/auth/service.py:580-601 | a challenge succeeds at most once, within its lifetime |
| AuthTheorems.DeadForEver | core/auth/service.py:283-300 | a revoked or expired token is never accepted again |
| AuthTheorems.ResetEndsSessions | core/auth/service.py:438-499 | a reset ends every session there was |
| AuthTheorems.DisabledNeedsReset | core/auth/service.py:185-214 | helper, by definition of the calls: with a PIN set and authentication disabled, the account changes exactly on a successful reset |
| AuthService.OperatorAuthService.CheckPinValue | core/auth/service.py:501-535 | the account and log after a PIN check, and its result |
| AuthService.OperatorAuthService.AuthenticateToken | core/auth/service.py:240-272 | one authenticate transition; the session is returned if and only if it is live, an expired one revoked on sight |
| AuthService.OperatorAuthService.RequireFreshProof | core/auth/service.py:274-281 | one step-up check; it passes if and only if authentication is off or the session is live and its proof at most 300 seconds old |
| AuthService.OperatorAuthService.RevokeRows | core/auth/service.py:283-300 | every live session is revoked |
| AuthService.OperatorAuthService.LockSessions | core/auth/service.py:283-300 | one lock transition |
| AuthService.OperatorAuthService.Unlock | core/auth/service.py:216-229 | one unlock transition; valid, counted or locked exactly as AuthCalls.VerifyPinDecides says |
| AuthService.OperatorAuthService.StepUp | core/auth/service.py:231-238 | one step-up transition; it succeeds if and only if the session is live and the PIN passes |
| AuthService.OperatorAuthService.FinishPasskeyUnlock | core/auth/service.py:404-436 | one passkey unlock; it succeeds if and only if the challenge is open, the key known and the response verified |
| AuthService.OperatorAuthService.FinishPasskeyRegistration | core/auth/service.py:344-383 | one passkey registration |
| AuthService.OperatorAuthService.Recover | core/auth/service.py:438-469 | one recovery; it succeeds if and only if a recovery code is stored and matches |
| AuthService.OperatorAuthService.ResetAsOsAdmin | core/auth/service.py:471-499 | one recovery by the administrator |
| InputDigest.ParseStream | tools/release.py:472-479 | the bytes fed to the digest can be read back |
| InputDigest.StreamIsInjective | tools/release.py:472-479 | two lists of (path, hash) that feed the same bytes are the same list |
| InputDigest.Digest | tools/release.py:472-479 | the loop feeds those bytes |
| ReleaseGates.ChainIsSound | tools/release.py:504-578 | over any chain of calls every recorded pass is backed by a run to exit 0 on inputs with the recorded digest |
| ReleaseGates.RecordedPassesAreReal | tools/release.py:533-542 | hence by a run of the same command on exactly the same inputs |
| ReleaseGates.RecordIsPrefix | tools/release.py:533-577 | what is recorded is a prefix of what was asked, each gate with its command, only the last possibly not passed |
| ReleaseGates.GatesAreDecided | tools/release.py:533-577 | gate after gate until one does not pass or the call dies: one that passed before, with the same command on inputs with the same digest, is reused and not run, every other one is run, and each is recorded as decided |
| ReleaseGates.ResumingRunsNothing | tools/release.py:533-542 | resuming a suite whose gates all passed on the same inputs runs nothing |
| ReleaseGates.GateRunner.RunGateSuite | tools/release.py:504-578 | the loop records gate by gate what the model says, also when it dies on the way |
| ReleaseArchive.CopiesSurviveIff | tools/release.py:289-302 | every copy survives in the archive if and only if no two copies of different contents share a place |
| ReleaseArchive.NestedFilesCollide | tools/release.py:289-302 | two single files of one name below the top: after archive and cleanup the content of the first is nowhere |
| ReleaseScan.ScanIs | tools/release.py:223-252 | a scan lists exactly the entries at the top that are no sources, classified, and the generated directories below source roots, to be deleted |
| ReleaseScan.ClassifyIs | tools/release.py:223-239 | archived exactly for four names and two prefixes, which nothing deletes; left to the operator exactly without any known name or prefix and not a hidden directory |
| ReleaseScan.ScanIsSorted | tools/release.py:252 | the list is in order of path text and lists each thing as often as it was found |
| ReleaseScan.ScanIsSafe | tools/release.py:223-252 | what it wants archived stands at the top; its paths are normal and are neither .git nor sources |
| ReleaseScan.ScansDoNotClash | tools/release.py:223-252 | so an archive made from a scan has no clash |
| ReleaseScan.ScanWorkspace | tools/release.py:223-252 | the two loops compute that list |
| ReleaseArchive.TopLevelItemsDoNotClash | tools/release.py:289-302 | items at the top of the repository cannot clash |
| ReleaseArchive.NothingIsLost | tools/release.py:337-391 | each file under an archived item is in the archive with its content, or lies in a Sigma checkout or staging directory |
| ReleaseArchive.CleanRemovesExactly | tools/release.py:451-468 | cleanup removes exactly the files under the items to archive or delete, and never the repository or its .git |
| ReleaseArchive.ArchiveThenCleanLosesNothing | tools/release.py:320-469 | in an unchanged workspace what cleanup removed was marked for deletion, lies in a Sigma checkout or staging directory, or is in the archive |
| ReleaseTool.NothingSkipped | tools/release.py:342-357 | no skipped file means every copy was made |
| ReleaseTool.Release.CopyHashed | tools/release.py:289-302 | a copy verifies exactly when an identical one is in its place or what was written reads back as its source; it is then in the archive |
| ReleaseTool.Release.ArchiveWorkspace | tools/release.py:320-411 | a manifest is written exactly when no source vanished and every copy, in its turn, verifies; the archive then holds them all in order |
| ReleaseTool.Release.ApplyCleanup | tools/release.py:440-469 | an incomplete manifest, or one with skipped files, removes nothing; otherwise the removal is the specified one |
| ReleaseTool.ScanCleansSafely | tools/release.py:320-469 | cleanup of a scanned workspace never trips over an unsafe path, and what it removes was marked for deletion, is a cache, or is in the archive |
| ReleaseTool.SourcesStay | tools/release.py:223-252 | cleanup of a scanned workspace removes nothing of .git, no source file and nothing below a source root but build output |
| ReleaseTool.EvidenceIsKept | tools/release.py:223-239 | local evidence that is accounted for and gone is in the archive or can be fetched again: no scan marks it for deletion |
| ReleaseTool.NormalItemsAreSafe | tools/release.py:440-469 | a manifest of normal paths never trips the guard |
| ReleaseTool.ArchiveAndClean | tools/release.py:223-469 | scan, archive and cleanup together: the workspace is cleaned exactly when every file was there and every copy verified; then no source is gone, evidence that is gone is kept, and whatever else is gone was marked for deletion |
| PriorityRanking.CompleteIsExact | core/ai/tools.py:1063-1116 | every report is exact for the first 500 addresses of the first 5000 rows: its list is ranked, holds min(25, scored) of them and leaves out none that outranks one it shows; best score, addresses that reach it and their number are right; a complete one is exact for all rows; complete exactly when all rows were read, none partial, and at most 500 addresses seen |
| PriorityRanking.AddressesAre | core/ai/tools.py:1072-1078 | the observed addresses, each once and in order |
| PriorityRanking.RankIs | core/ai/tools.py:1109 | the ranking orders all scored addresses by score and then address |
| PriorityRanking.ReadRows | core/ai/tools.py:1063-1071 | the paging loop reads the first 5000 rows, or all there are |
| PriorityRanking.PriorityEndpoints | core/ai/tools.py:1047-1126 | the loops compute a report with all of that |

## Left out

Everywhere: hashing, encryption, Argon2, WebAuthn verification, regular expressions and random identifiers
are parameters or opaque values (hashes injective, identifiers fresh); texts, timestamps and audit or case
events carry no proof unless named above.

PCAP jobs

- What the manager does besides files, rows, envelopes, keys and jobs: progress numbers, summaries, triage, case entities, custody events and engine warm-up.
- Paths are derived from job ids, so a stored path is a flag. The set of active paths of a restored row is visited in a fixed order.
- A storage call that raises in the worker outside its handlers is one `Abandon` step, which changes the job in memory first where the source does; one that raises during a restart is a `Crash`; envelope deletions fail separately.
- The class runs one call at a time; the interleavings of calls are those of the machine.
- The staging file of an encryption, which has a random name and stays behind when the process dies before it is renamed.

Analyst runs

- Rejection racing with a claim, a cancellation between creating a run and launching it, and other calls between reading a conversation and creating the run in it: each of these is one step here. A start without a conversation is the creation of one followed by a start in it.
- In `approve`, finding an approval expired and resolving it are one step, although another approver that checked in time can win its claim in between.
- AnalystInvariants.RestartedOk: a restart here always recovers abandoned runs, because the model has no database errors; the source goes on without recovering them when the database raises.
- Client request ids that begin with the text a retry uses as its own id: both are names here, but never the same one.
- Branching and deleting conversations; a capture session that cannot be read counts as unknown.
- Scopes enter `start` as dictionaries that `from_dict` reads, as the API service passes them; the normal form of an address is assumed to be its own normal form.
- Provider consent records, invocation statuses, messages, answers and citations; prompt heuristics, argument repair, answer validation and rendering are parameters or absent.
- Old provider adapters that are asked twice.
- In the schema validator, equality inside nested lists of an `enum`, and error messages.

Conversations, cursors, paging

- Native conversation components, which are read from the database as they are.
- Upper-casing of protocols and the parsing of metadata: rows come with these fields read.
- Cursors the service never issues: nested, spaced or non-ASCII JSON, and base64 text Python would accept leniently. `DecodeCursor` answers None for them. Unicode digits in a numeric cursor.
- Rows whose rank is NULL, limits below 1 (the API refuses them), the alert page with a severity filter and the scored-entities page, which filter or rescore while paging.

Authentication

- AuthService.OperatorAuthService.FinishPasskeyRegistration: with authentication disabled the call is an error that changes nothing here; the source marks the challenge as used and adds the credential, uncommitted, before it raises.
- Input checks on PINs and reasons, installation ids, WebAuthn origins, sign counts and rehashing. Two calls do not interleave inside one another.

Release tool

- Symbolic links, file modes, the rule that the archive lies outside the repository, paths that leave the repository and come back, files inside `.git` named by a hand-written manifest, and the removed list of a dry run.
- The workspace does not change while a gate runs. A gate that was running when the process died leaves no record.

Ranking

- Risk levels and confidences; the database's own count is the number of matching flows.
