# Harness Forge: a verified model of the run protocol and its neighbours

Harness Forge runs coding agents. A Go control plane keeps conversations, runs and events in PostgreSQL;
a Python runtime keeps one execution record per run and the agent's session transcripts on disk. A run
is a two-party commit between them that has to survive crashes and lost acknowledgements on either side.
This project models that protocol and the code around it, and proves what it is for.

| file | what it models |
|---|---|
| `RunState.dfy` | the abstract life cycle of a run |
| `RunStore.dfy`, `RunStoreProofs.dfy` | the tables, every transaction on them, the event log, and their invariants |
| `Runtime.dfy`, `Protocol.dfy`, `ProtocolProofs.dfy` | records and sessions as the protocol sees them, its 30 atomic steps, its inductive invariant |
| `ProtocolTheorems.dfy` | what holds in every reachable state, and the refinement of the life cycle |
| `ProtocolRuns.dfy` | runs that the protocol really has, up to a whole successful one |
| `Interference.dfy`, `ControlPlane.dfy` | the scheduler, coordinator, reconciler and canceller as imperative code between whose calls anything may happen |
| `Sessions.dfy` | the session directories, with a crash possible at every file-system step |
| `ExecutionStore.dfy` | the record store: memory, visible files and durable files |
| `RuntimeApi.dfy` | the decision and deletion handlers on the real stores, as implementations of protocol steps |
| `Journal.dfy` | a worker's output, control messages and exit, the journal, and the stream that follows it |
| `RunStream.dfy` | what the control plane accepts as a completed execution |
| `Completion.dfy` | worker, journal, stream, network, scanner and pump composed |
| `Sse.dfy` | the browser's event stream: printer, parser, cursor, reconnects |
| `Broker.dfy` | coalesced wake-ups and the stream that waits for them |
| `Gateway.dfy` | the model gateway's online stream guard |
| `Publication.dfy` | publishing artifacts, scanning orphans, purging |

The protocol is a state machine whose steps are the committed transactions, the effects of remote calls
and the moves of workers, users and purges. What the code's own callers must ensure before a step, for
instance that an acknowledgement follows the runtime's decision, is part of the step's guard, and
`ControlPlane.dfy` proves at every call that it holds. Its class changes state only through such steps, so
each of its executions, whatever fails, is a run of the state machine, and the theorems about runs apply.

## Assumptions

- A database transaction commits as a whole or not at all, its commit may succeed and still report an error, and a crash ends transactions in flight.
- A remote call either took effect or did not, and its reply may be lost; nothing takes effect after the call has returned.
- `Reconcile` and `Execute` never overlap, because one scheduler runs both.
- A listing of leases contains every run with an undecided execution, each once, and only runs with a recorded provider.
- A worker creates only fresh session IDs in its own bucket, and keeps its transcript after the durable acknowledgement.
- An HTTP body ends properly only if the server ended its stream properly. With it, `Completion.Deliver` proves that a completion which the executor passes on is one that the runtime has recorded, and `ControlPlane.System.NextDelivery` delivers only such completions.
- Two readings of the runtime's clock differ, the later one being greater, so that no two versions of a record file are equal.
- The ownership marker is written in one step. A file's replacement is atomic.
- The advisory lock lives until `Release`, and the database session that holds it dies with its process.
- UUIDs are never generated twice. Event sequences stay below 2^53.
- Whether a text is a JSON object (gateway) and how events are encoded as JSON without line breaks (event stream) are parameters.

## Where the code falls short of its own rules

`ExecutionStore.finalize` acknowledges a repeated decision from memory. If the first attempt replaced the
file but died before the directory was synced, the restarted store reads the visible file, acknowledges,
and a later power loss may bring the older file back. `ExecutionStore.Store.AcknowledgedDecisionReverts`
is that run. The exact condition is over the history. A file is dirty after a write or removal that failed
between the change of the directory and its sync, until any later write or removal is accepted. An
acknowledged decision is durable if and only if the call wrote it or the file is not dirty
(`ExecutionStore.Store.Finalize`), and over any calls, crashes and restarts a power loss can revert what is
shown of a run if and only if its file is dirty (`ExecutionStore.Store.Serve`). A caller can check this: if no
call ended with an operating-system error or a crash since the last accepted write, no power loss reverts a
decision.

`Reconciler.Reconcile` finalizes a run whose recorded ref its provider no longer knows
(services/control-plane/internal/runs/reconcile.go:105-108). `Finish` refuses such evidence: by
`RunState.AbsentLease` absence finishes a failed run if and only if no ref was ever recorded. The model follows
the code, and keeps for each lease whether its provider released it or reported it unknown.
`ProtocolTheorems.TableStepRefines` shows that every transaction refines the life cycle except exactly the
acknowledgement of such a lost lease, and `ControlPlane.System.ReconcileRun` that the code takes such a step
exactly on that branch, when no earlier release had taken effect; the acknowledgements of `Execute`'s own
exits never do. With the Docker provider the branch cannot be taken
(services/control-plane/internal/sandbox/docker.go:40-46), and then `ProtocolTheorems.RefinesWithoutLoss` applies.
It is taken with a provider that forgets its leases when it restarts, as the fake one does
(services/control-plane/internal/sandbox/fake.go:135-141): `ProtocolRuns.LostLeaseRun` is that run, with one interrupted run.

`runStore.apply` ignores events of a run that the client does not hold, while the stream's cursor moves on
(apps/web/src/features/runs/runStore.ts:24-27). `Sse.AppliedIffKnown` states exactly when nothing is missed, and
`Sse.FirstEventSkipped` is the input on which something is. The application never gets there: it adds each run to the
store before it subscribes, and aborts the stream before it clears the store
(apps/web/src/features/chat/chatStore.ts:25-29, 77-94, 109-110).

## Model

| member | source | states |
|---|---|---|
| RunState.Start | services/control-plane/internal/runs/state.go:31-38 | A run starts if and only if it is queued and unfinalized, and is then running in its first phase |
| RunState.Advance | services/control-plane/internal/runs/state.go:40-47 | A phase advances by exactly one step and leaves the status alone |
| RunState.FinishKeepsOutcome | services/control-plane/internal/runs/state.go:51-88 | A recorded outcome never changes, finalization is never taken back, and finalizing a started run needs the runtime and lease evidence, for a success a commit |
| RunState.FinishInTwoSteps | services/control-plane/internal/runs/state.go:51-88 | Recording the outcome first and its evidence later equals recording both at once |
| RunState.AbsentLease | services/control-plane/internal/runs/state.go:75-87 | Absence of lease and runtime finishes a failed run if and only if no ref was ever recorded |
| RunStoreProofs.AppendExtends | services/control-plane/internal/runs/events.go:59-94 | An event goes last with the next sequence number, and the log is unchanged exactly when its runtime sequence or dedupe key is there already |
| RunStoreProofs.PublishAllExtends | services/control-plane/internal/runs/coordinator_store.go:214-239 | An acknowledgement appends exactly one published event per artifact, in order |
| RunStoreProofs.AcknowledgedClosesLog | services/control-plane/internal/runs/coordinator_store.go:197-244 | Acknowledging finalizes the row and closes its log with the terminal event; nothing else of the row changes |
| RunStoreProofs.QueuedCancelledClosesLog | services/control-plane/internal/runs/cancel.go:63-97 | Cancelling a queued run finalizes it and closes its log in the same transaction |
| RunStoreProofs.PhaseSetKeepsLog | services/control-plane/internal/runs/coordinator_store.go:40-62 | A phase change keeps the log numbered and free of product events |
| RunStoreProofs.RuntimeEventAppends | services/control-plane/internal/runs/coordinator_store.go:64-120 | A fresh runtime event goes last, with exactly the phase, assistant message and outcome it carries |
| RunStoreProofs.RuntimeEventKeepsLog | services/control-plane/internal/runs/coordinator_store.go:64-120 | Log and assistant messages grow together, or neither does |
| RunStoreProofs.UpdateRow | services/control-plane/internal/runs/coordinator_store.go:245-262 | Replacing one row within what its old row allowed keeps slot, deletion safety and chains |
| RunStoreProofs.ChainExtends | services/control-plane/internal/runs/coordinator_store.go:147-193 | Promotion extends a conversation's chain by a run whose source is the previous candidate |
| RunStoreProofs.CommitKeepsTables | services/control-plane/internal/runs/coordinator_store.go:147-193 | Committing products keeps every invariant of the tables |
| RunStoreProofs.SubmitKeepsTables | services/control-plane/internal/conversations/service.go:51-91 | A submitted run lands in a live conversation of a live project and keeps the tables sound |
| RunStoreProofs.ConversationDeletionKeepsTables | services/control-plane/internal/conversations/store.go:89-125 | Deleting a conversation strands no queued, running or unfinalized run |
| RunStoreProofs.ProjectDeletionKeepsTables | services/control-plane/internal/projects/store.go:123-155 | Deleting a project strands no queued, running or unfinalized run |
| RunStoreProofs.PreparationRefines | services/control-plane/internal/runs/coordinator_store.go:33-35 | Source refresh, acquire intent and attached ref are stutters of the life cycle |
| RunStoreProofs.PhaseSetRefines | services/control-plane/internal/runs/coordinator_store.go:40-62 | A phase transaction is a stutter or Advance |
| RunStoreProofs.RuntimeEventRefines | services/control-plane/internal/runs/coordinator_store.go:64-120 | Recording a runtime event is a stutter, an Advance, or a Finish as failed |
| RunStoreProofs.FailureRefines | services/control-plane/internal/runs/coordinator_store.go:124-145 | Recording a failure is a stutter or a Finish without cleanup evidence |
| RunStoreProofs.QueuedCancelRefines | services/control-plane/internal/runs/cancel.go:79-85 | Cancelling a queued run is Finish with authoritative absence |
| RunStoreProofs.ProductsCommittedRefines | services/control-plane/internal/runs/coordinator_store.go:149-193 | Committing products is Finish as succeeded |
| ProtocolProofs.StepKeepsInv | services/control-plane/internal/runs/reconcile.go:29-233 | Every step of control plane, runtime, worker, user and purge keeps the protocol invariant |
| ProtocolProofs.StepKeepsLeases | services/control-plane/internal/runs/reconcile.go:105-118 | Every step keeps leases with attached runs, and no attached run is finalized before its lease was released or reported unknown |
| ProtocolProofs.ReportedWaits | services/agent-runtime/src/harness_forge_runtime/processes.py:506-550 | A running run whose completion was reported has its durable candidate waiting for the decision |
| ProtocolProofs.RowEffectEvolves | services/control-plane/internal/runs/coordinator_store.go:245-262 | What any single-row transaction may do to its row: outcome and finalization permanent, log only growing, slot never entered |
| ProtocolProofs.CommitKeepsInv | services/control-plane/internal/runs/coordinator_store.go:149-193 | Promotion of a durable candidate that awaits its decision keeps the invariant on both sides |
| ProtocolProofs.NewRecordKeepsRuntime | services/agent-runtime/src/harness_forge_runtime/execution_store.py:104-123 | A fresh record whose baseline is everything present keeps one undecided execution and every promise about the others |
| ProtocolProofs.ReserveKeepsInv | services/agent-runtime/src/harness_forge_runtime/execution_store.py:89-123 | A reservation for an attached, unfinalized run keeps the invariant |
| ProtocolProofs.AbortKeepsInv | services/agent-runtime/src/harness_forge_runtime/sessions.py:415-453 | A partial abort removes nothing that a promoted or promotable candidate needs |
| ProtocolProofs.CommitDecisionKeepsInv | services/agent-runtime/src/harness_forge_runtime/api.py:194-221 | Deciding commit keeps agreement with the recorded outcome |
| ProtocolProofs.PurgeSessionKeepsInv | services/control-plane/internal/cleanup/purge.go:178-182 | Purging a candidate of a deleted conversation never removes a live conversation's active session |
| ProtocolTheorems.RunKeepsInv | services/control-plane/internal/runs/reconcile.go:29-233 | The invariant holds after every finite run |
| ProtocolTheorems.DecisionAgreement | services/control-plane/internal/runs/reconcile.go:135-233 | In every reachable state a record decided commit belongs to a succeeded run with that candidate, one decided abort to a failed, cancelled or interrupted run |
| ProtocolTheorems.FinalizedMeansSettled | services/control-plane/internal/runs/reconcile.go:75-118 | A finalized run has no undecided execution and no lease that is neither released nor reported unknown; an execution implies durable provider and ref |
| ProtocolTheorems.OutcomeIsNeverRejected | services/control-plane/internal/runs/reconcile.go:147-149 | Finalizing by the recorded outcome is never refused by the runtime |
| ProtocolTheorems.SuccessIsRecoverable | services/control-plane/internal/runs/reconcile.go:139-156 | An unacknowledged success is promoted, has its ref, is accepted by commit, and its session exists afterwards |
| ProtocolTheorems.LatestSuccessIsActive | services/control-plane/internal/runs/coordinator_store.go:176-178 | Nothing is promoted over an unfinalized success |
| ProtocolTheorems.RunOnward | services/control-plane/internal/runs/coordinator_store.go:122-145 | Over any run outcomes, finalizations, logged events and decisions are never taken back |
| ProtocolTheorems.AcknowledgeRefines | services/control-plane/internal/runs/coordinator_store.go:197-244 | Acknowledging is the Finish step with the evidence that runtime and provider really hold, if and only if the provider did not report the recorded lease unknown without an earlier release |
| ProtocolTheorems.TableStepRefines | services/control-plane/internal/runs/state.go:31-88 | Every transaction moves every run by a stutter or a legal Start, Advance or Finish step, if and only if it is not the acknowledgement of a run whose lease was lost |
| ProtocolTheorems.RefinesWithoutLoss | services/control-plane/internal/runs/state.go:31-88 | In runs in which no provider reports a recorded lease unknown, every transaction refines the life cycle |
| ProtocolRuns.TranscriptAfterCandidate | services/agent-runtime/src/harness_forge_runtime/runner.py:59-82 | In every state with a running worker: candidate announced, transcript written afterwards, made durable, completed, is a legal run that reports the candidate |
| ProtocolRuns.SuccessfulRun | services/control-plane/internal/runs/coordinator.go:40-158 | From nothing to an acknowledged success in the worker's own order of events is a legal run |
| ProtocolRuns.LostLeaseRun | services/control-plane/internal/runs/reconcile.go:104-111 | A legal run from nothing ends with the acknowledgement of a lost lease, which no life-cycle step allows |
| ProtocolTheorems.ReachableTables | services/control-plane/internal/runs/store.go:63-98 | At most one run is non-queued and unfinalized; no protected run is in a deleted place; the successes of a conversation form one chain ending at its active session |
| ProtocolTheorems.ReachableLog | services/control-plane/internal/runs/events.go:59-94 | Visible sequences are exactly 1..n, runtime sequences and dedupe keys occur once, and the log is closed by one terminal event exactly when the run is finalized |
| Interference.SettledIsStable | services/control-plane/internal/runs/coordinator_store.go:195-197 | What permits an acknowledgement survives interference |
| Interference.EnvironmentStep | services/control-plane/internal/runs/scheduler.go:24-25 | Whatever users, workers and purges do, an active run's row changes only by a cancellation, its execution only advances, and its report stays |
| Interference.AlongKeepsSlotFree | services/control-plane/internal/runs/scheduler.go:24-25 | Neither interference nor repair fills the slot |
| Interference.ClaimStep | services/control-plane/internal/runs/store.go:63-98 | A claimed run starts with a free slot and without an execution |
| Interference.ReserveIsFree | services/agent-runtime/src/harness_forge_runtime/execution_store.py:105-106 | The runtime is never busy with another run when the scheduler executes one |
| Interference.TooLateToCancel | services/control-plane/internal/runs/coordinator_store.go:138 | A run that was publishing or had another outcome is never cancelled later |
| ControlPlane.Transport | services/control-plane/internal/agentexec/http.go:156-177 | A lost or failed call never looks like a conflict or an inconsistency |
| ControlPlane.System.Do | services/control-plane/internal/runs/coordinator_store.go:245-262 | Every change of state is an enabled protocol step, so every history is a legal run |
| ControlPlane.System.Pause | services/control-plane/internal/runs/scheduler.go:24-25 | Between two atomic steps only users, workers and purges act |
| ControlPlane.System.Restart | services/control-plane/internal/runs/scheduler.go:26-27 | After a process crash exactly the durable state is left |
| ControlPlane.System.RecordFailure | services/control-plane/internal/runs/coordinator_store.go:124-145 | An existing outcome wins; success means that a terminal outcome is recorded |
| ControlPlane.System.AcknowledgeFinalized | services/control-plane/internal/runs/coordinator_store.go:197-244 | Called only when the runtime's part and the lease are over; success means finalized; the step is a Finish of the life cycle if and only if the lease was not lost |
| ControlPlane.System.CancelExecution | services/agent-runtime/src/harness_forge_runtime/processes.py:222-243 | Success means that the execution, if any, no longer runs |
| ControlPlane.System.FinalizeExecution | services/agent-runtime/src/harness_forge_runtime/api.py:174-228 | Success means decided as the outcome requires; it never meets a conflict |
| ControlPlane.System.AttachSandboxRef | services/control-plane/internal/runs/store.go:114-123 | A listed ref becomes durable on an active run |
| ControlPlane.System.FindExecution | services/control-plane/internal/runs/reconcile.go:188-195 | Without error the run's listed execution is the undecided record, if there is one |
| ControlPlane.System.StopExecution | services/control-plane/internal/runs/reconcile.go:201-216 | Without error no live worker is left for the run |
| ControlPlane.System.AbortLease | services/control-plane/internal/runs/reconcile.go:187-233 | Without error the run has a terminal outcome other than success and no undecided execution |
| ControlPlane.System.AbortExecution | services/control-plane/internal/runs/reconcile.go:217-232 | Diagnostics never prevent the abort decision and the release |
| ControlPlane.System.ReleaseLease | services/control-plane/internal/runs/reconcile.go:232 | Success means that the lease is released |
| ControlPlane.System.FinishLease | services/control-plane/internal/runs/reconcile.go:135-169 | Without error the run is finalized; whenever it is finalized its lease was released before, so that the step is a Finish of the life cycle |
| ControlPlane.System.CommitLease | services/control-plane/internal/runs/reconcile.go:139-159 | Without error the success is committed at the runtime and its row untouched |
| ControlPlane.System.CheckPromoted | services/control-plane/internal/runs/reconcile.go:140-146 | The promotion query of an unfinalized success always says promoted |
| ControlPlane.System.CheckSession | services/control-plane/internal/runs/reconcile.go:150-156 | The committed session always exists |
| ControlPlane.System.FinalizeAbsent | services/control-plane/internal/runs/reconcile.go:179-186 | Acknowledges only when no undecided execution exists and the run has no lease or one that its provider does not know |
| ControlPlane.System.ListLeases | services/control-plane/internal/runs/reconcile.go:41-44 | The listing contains every undecided execution |
| ControlPlane.System.ReconcileRun | services/control-plane/internal/runs/reconcile.go:75-118 | One retained run is finished or left, others are untouched, no inconsistency branch is reachable; finalizing goes beyond the life cycle if and only if the provider did not know the recorded ref and had not released it before |
| ControlPlane.System.Recover | services/control-plane/internal/runs/reconcile.go:104-111 | Only an answer that the ref is unknown changes what is known of the lease, and never takes a release back |
| ControlPlane.System.OneProvider | services/control-plane/internal/runs/reconcile.go:34-40 | No retained run names another provider |
| ControlPlane.System.ReconcileRetained | services/control-plane/internal/runs/reconcile.go:59-118 | After success no visited run is left half-way |
| ControlPlane.System.Reconcile | services/control-plane/internal/runs/reconcile.go:29-134 | From any crash residue: success without skipping leaves the slot free; a free slot stays free; an inconsistency is never reported |
| ControlPlane.System.RunExecution | services/control-plane/internal/runs/coordinator.go:177-249 | Success means that the delivered completion's candidate is the one that the worker reported |
| ControlPlane.System.NextDelivery | services/control-plane/internal/agentexec/http.go:79-128 | The executor's end of what Completion.Deliver proves: a completion is passed on only if the worker reported this candidate; a script that says otherwise is a stream cut off |
| ControlPlane.System.Fail | services/control-plane/internal/runs/coordinator.go:40-158 | The failure exit always returns an error and keeps the invariant; a run that it finalizes lost no lease |
| ControlPlane.System.CommitProducts | services/control-plane/internal/runs/coordinator_store.go:149-193 | For a delivered candidate: success means the outcome succeeded; a lost reply may hide a commit |
| ControlPlane.System.Prepare | services/control-plane/internal/runs/coordinator.go:40-158 | Success hands over a driven, attached run with the candidate that its worker reported |
| ControlPlane.System.Publish | services/control-plane/internal/runs/coordinator.go:40-158 | Success means succeeded, finalized and a free slot |
| ControlPlane.System.Execute | services/control-plane/internal/runs/coordinator.go:40-158 | Success means succeeded, finalized and a free slot; no inconsistency is ever reported; the active set is restored |
| ControlPlane.System.OldestQueued | services/control-plane/internal/runs/store.go:83 | The oldest queued run that no one else has locked, or none |
| ControlPlane.System.ClaimNext | services/control-plane/internal/runs/store.go:63-98 | A claimed run is running in the free slot; an error may hide a committed claim |
| ControlPlane.System.Turn | services/control-plane/internal/runs/scheduler.go:30-76 | When repair may skip running rows, none is left over; scheduling never pauses for inspection |
| ControlPlane.System.Schedule | services/control-plane/internal/runs/scheduler.go:26-77 | Any number of turns after any crash keeps the invariant and never pauses for inspection |
| ControlPlane.System.CancelActive | services/control-plane/internal/runs/coordinator.go:259-282 | Success means durably cancelled, also when the acknowledgement was lost |
| ControlPlane.System.Cancel | services/control-plane/internal/runs/cancel.go:28-60 | Success means durably cancelled under any race with the scheduler; a publishing run or another outcome is never reported cancelled |
| ControlPlane.Resources | services/control-plane/internal/runs/reconcile.go:45-54 | The listing indexed by run |
| ControlPlane.ExecutionRecord | services/control-plane/internal/runs/reconcile.go:239-256 | The one listed execution; a second one or an unknown state is an error, and nothing else is |
| Sessions.CheckOwners | services/agent-runtime/src/harness_forge_runtime/sessions.py:191-198 | Accepts exactly valid markers with one bucket per run |
| Sessions.CheckHome | services/agent-runtime/src/harness_forge_runtime/sessions.py:220-229 | Accepts exactly one original per ID, named by all its source copies |
| Sessions.Inventory | services/agent-runtime/src/harness_forge_runtime/sessions.py:181-230 | Accepts exactly the well-formed directories |
| Sessions.TowardTransitive | services/agent-runtime/src/harness_forge_runtime/sessions.py:415-453 | Interrupted cleanups compose |
| Sessions.CleanupConverges | services/agent-runtime/src/harness_forge_runtime/sessions.py:415-453 | However a cleanup was interrupted and retried, it ends with the same session entries |
| Sessions.TowardKeepsWellFormed | services/agent-runtime/src/harness_forge_runtime/sessions.py:181-230 | Every intermediate state of a cleanup passes the inventory |
| Sessions.OriginalsAfter | services/agent-runtime/src/harness_forge_runtime/sessions.py:415-453 | A finished cleanup leaves exactly the originals that it spares |
| Sessions.OriginalsDuring | services/agent-runtime/src/harness_forge_runtime/sessions.py:415-453 | Even an interrupted cleanup leaves every spared original byte for byte |
| Sessions.EntryStep | services/agent-runtime/src/harness_forge_runtime/sessions.py:356-363 | One unlink of a dropped entry is progress if the candidate goes after the copy it needs |
| Sessions.Widen | services/agent-runtime/src/harness_forge_runtime/sessions.py:446-447 | Deleting one session is progress of the whole abort |
| Sessions.PreparedKeeps | services/agent-runtime/src/harness_forge_runtime/sessions.py:263-322 | Preparing keeps the inventory valid and changes neither the IDs nor the originals |
| Sessions.AbortUndoesWork | services/agent-runtime/src/harness_forge_runtime/sessions.py:415-453 | Abort after preparation and any new sessions restores every entry and leaves no bucket of the run |
| Sessions.SessionStore.Shrink | services/agent-runtime/src/harness_forge_runtime/sessions.py:97-114 | Removal of an entry, cut short at any unlink, leaves a part of it |
| Sessions.SessionStore.Prune | services/agent-runtime/src/harness_forge_runtime/sessions.py:365-375 | Only an owner-only bucket is pruned; no entry changes |
| Sessions.SessionStore.DeleteAt | services/agent-runtime/src/harness_forge_runtime/sessions.py:381-399 | The bucket's source copy goes first, and only with its last candidate |
| Sessions.SessionStore.Delete | services/agent-runtime/src/harness_forge_runtime/sessions.py:377-403 | Refuses exactly invalid directories; when done the session is nowhere and no owner-only bucket is left; when cut short, progress towards that |
| Sessions.SessionStore.DeleteUntilDone | services/agent-runtime/src/harness_forge_runtime/sessions.py:377-403 | Through any crashes: exactly this original is gone |
| Sessions.SessionStore.PurgeLineage | services/agent-runtime/src/harness_forge_runtime/sessions.py:377-403 | Deleting a chain's candidates in any order leaves no entry or owner bucket of the chain and every entry of other buckets unchanged |
| Sessions.SessionStore.RemoveStaging | services/agent-runtime/src/harness_forge_runtime/sessions.py:428-445 | The marker goes last, so staging stays recognisable until it is gone |
| Sessions.SessionStore.Abort | services/agent-runtime/src/harness_forge_runtime/sessions.py:415-453 | Refuses exactly what it cannot prove to be the run's; when done nothing droppable, no staging and no bare bucket of the run is left; when cut short, a retry is accepted and progress kept |
| Sessions.SessionStore.AbortUntilDone | services/agent-runtime/src/harness_forge_runtime/sessions.py:415-453 | Through any crashes abort ends, keeping exactly the baseline and source originals |
| Sessions.SessionStore.CopySource | services/agent-runtime/src/harness_forge_runtime/sessions.py:117-138 | A finished copy is byte-equal; a partial one is confined to the source's entry in staging |
| Sessions.SessionStore.StageRun | services/agent-runtime/src/harness_forge_runtime/sessions.py:288-320 | The rename publishes a complete bucket; before it only staging changes |
| Sessions.SessionStore.PrepareRun | services/agent-runtime/src/harness_forge_runtime/sessions.py:263-322 | All or nothing in projects; each error answer under exactly its condition; whatever a crash leaves, abort accepts |
| Sessions.SessionStore.ValidateCandidate | services/agent-runtime/src/harness_forge_runtime/sessions.py:240-261 | True exactly for a new original transcript in a bucket of the run with that source |
| Sessions.SessionStore.PrepareWorkAbort | services/agent-runtime/src/harness_forge_runtime/sessions.py:263-453 | Preparation cut short anywhere, new sessions, and an abort cut short any number of times: all entries as before, nothing of the run left |
| ExecutionStore.SurvivorsOfOneFile | services/agent-runtime/src/harness_forge_runtime/execution_store.py:251-272 | With one unsynced file a power loss leaves the directory as it was at one moment since the last sync |
| ExecutionStore.Store.Initialize | services/agent-runtime/src/harness_forge_runtime/execution_store.py:70-87 | Opens exactly on valid records with at most one undecided; memory then equals the directory |
| ExecutionStore.Store.Write | services/agent-runtime/src/harness_forge_runtime/execution_store.py:251-272 | An error closes the store, and the file is old or new |
| ExecutionStore.Store.Replace | services/agent-runtime/src/harness_forge_runtime/execution_store.py:240-249 | Refuses exactly invalid records; memory follows the disk; a file is dirty exactly after a write that broke between replacement and sync |
| ExecutionStore.Store.Reserve | services/agent-runtime/src/harness_forge_runtime/execution_store.py:89-123 | Accepts and refuses as the protocol's reservation with that baseline, with the same new records |
| ExecutionStore.Store.MarkRunning | services/agent-runtime/src/harness_forge_runtime/execution_store.py:140-149 | Only a starting execution starts to run |
| ExecutionStore.Store.RecordCandidate | services/agent-runtime/src/harness_forge_runtime/execution_store.py:151-163 | The first candidate stays and is new to the run |
| ExecutionStore.Store.MarkCandidateDurable | services/agent-runtime/src/harness_forge_runtime/execution_store.py:165-171 | Only a recorded candidate of a running execution becomes durable |
| ExecutionStore.Store.MarkAwaitingFinalize | services/agent-runtime/src/harness_forge_runtime/execution_store.py:173-176 | Accepts exactly starting and running executions |
| ExecutionStore.Store.Finalize | services/agent-runtime/src/harness_forge_runtime/execution_store.py:178-196 | The first decision stays; the acknowledged decision is durable if and only if this call wrote it or no unsynced change of its file is pending |
| ExecutionStore.Store.Delete | services/agent-runtime/src/harness_forge_runtime/execution_store.py:198-214 | Only decided records go |
| ExecutionStore.Store.ListUnfinalized | services/agent-runtime/src/harness_forge_runtime/execution_store.py:131-138 | Exactly the undecided records, at most one |
| ExecutionStore.Store.RevertsIffDirty | services/agent-runtime/src/harness_forge_runtime/execution_store.py:251-272 | Some power loss changes what is shown of a run if and only if its file is dirty |
| ExecutionStore.SuspectNext | services/agent-runtime/src/harness_forge_runtime/execution_store.py:251-272 | Which answers leave a caller with a suspicion: a broken call, until an accepted write |
| ExecutionStore.Store.PowerLoss | services/agent-runtime/src/harness_forge_runtime/execution_store.py:251-272 | Of each file some version shown since the last sync is left, and then durable; with one unsynced file the store opens again on the directory of one such moment |
| ExecutionStore.Store.Serve | services/agent-runtime/src/harness_forge_runtime/execution_store.py:178-272 | Over any calls, crashes and restarts a decision stays until deleted; what is shown of a run can revert in a power loss if and only if its file is dirty; if no call was answered with an error since the last accepted write, nothing can |
| ExecutionStore.Store.ServeThroughPowerLoss | services/agent-runtime/src/harness_forge_runtime/execution_store.py:178-272 | A shown decision survives a power loss if its file is not dirty, and is lost with the unsynced version otherwise; without a broken call since the last accepted write it always survives |
| ExecutionStore.Store.AcknowledgedDecisionReverts | services/agent-runtime/src/harness_forge_runtime/execution_store.py:189-192 | The run in which an acknowledged decision reverts |
| RuntimeApi.Api.FinalizeRun | services/agent-runtime/src/harness_forge_runtime/api.py:174-228 | A 204 means this decision is stored. On every directory and whatever the answer, abort is recorded only once the run's staging, its source copy, its droppable entries and its bare bucket are gone. Where the run owns what it should, a 204 is exactly the protocol's decision step, a 404 or 409 exactly its refusal, and after a 500 the decision took effect or not and every spared session is there; elsewhere an abort answers 500 and changes nothing |
| RuntimeApi.Api.DeleteSession | services/agent-runtime/src/harness_forge_runtime/api.py:143-172 | A 204 means that exactly this session is gone; 409 only while an execution is undecided |
| RuntimeApi.DecisionRecorded | services/agent-runtime/src/harness_forge_runtime/api.py:220-221 | The stored decision is the protocol's decided record |
| RuntimeApi.OwnedCandidate | services/agent-runtime/src/harness_forge_runtime/sessions.py:240-261 | Where the run owns what it should, the directory check of a candidate is the protocol's |
| RuntimeApi.NothingOwnedYet | services/agent-runtime/src/harness_forge_runtime/sessions.py:415-453 | Before a preparation is complete a run owns nothing, whatever a crash left in staging |
| RuntimeApi.PreparationOwned | services/agent-runtime/src/harness_forge_runtime/processes.py:410-418 | Reservation of a new run, with every listed ID as its baseline, and its preparation establish that it owns what it should; the listing has every original |
| RuntimeApi.WorkerKeepsOwned | services/agent-runtime/src/harness_forge_runtime/processes.py:285-326 | Every step of the worker, with what it writes in its own bucket, keeps that, and the directory goes on representing the protocol state |
| Journal.Worker.Publish | services/agent-runtime/src/harness_forge_runtime/processes.py:266-283 | Numbers grow; they are 1..n while no write failed; a failed write costs its number |
| Journal.Worker.ReadLine | services/agent-runtime/src/harness_forge_runtime/processes.py:328-372 | A withheld completion matches a durable candidate and the announced artifacts; nothing is accepted after it |
| Journal.Worker.ReadControl | services/agent-runtime/src/harness_forge_runtime/processes.py:285-326 | A durable acknowledgement follows a validated, recorded candidate and no cancel |
| Journal.Worker.PublishOutcome | services/agent-runtime/src/harness_forge_runtime/processes.py:517-547 | The journal is closed by one terminal event: the cancellation if one was requested by then, else the withheld terminal event of a success or its failure |
| Journal.Worker.Attend | services/agent-runtime/src/harness_forge_runtime/processes.py:487-506 | Any interleaving of output, control, exit and cancel keeps the journal open and consistent, and no cancel request is overlooked |
| Journal.Worker.Settle | services/agent-runtime/src/harness_forge_runtime/processes.py:509-550 | A cancel that comes while the worker is being stopped still decides the last event; a clean end means a closed journal and a durable record that awaits its decision |
| Journal.Worker.Run | services/agent-runtime/src/harness_forge_runtime/processes.py:392-561 | With successful writes the journal is 1..n with exactly one terminal event, last; a completion implies exit 0, a matching durable candidate, announced artifacts and no cancel at any moment before the event was chosen; a clean end is the protocol's step of the record |
| Journal.Recover | services/agent-runtime/src/harness_forge_runtime/processes.py:182-187 | After recovery no execution is starting or running, and nothing else changed |
| Journal.Follower.Suspend | services/agent-runtime/src/harness_forge_runtime/processes.py:283 | The event is set after every line of the journal and the worker's end |
| Journal.Follower.ReadToEnd | services/agent-runtime/src/harness_forge_runtime/processes.py:211-216 | Every line once, in order, also those written while reading |
| Journal.Follower.Follow | services/agent-runtime/src/harness_forge_runtime/processes.py:207-220 | An end has yielded the worker's whole journal and is clean if and only if the worker ended so; no wake-up is lost |
| Completion.AcceptedJournal | services/control-plane/internal/contracts/contracts.go:260-275 | Of a journal cut anywhere the pump accepts exactly a whole one that a completion closes |
| Completion.CompletionIsReported | services/agent-runtime/src/harness_forge_runtime/processes.py:548-550 | The worker's last step on its record is the protocol's CompleteWorker and reports the journaled candidate |
| Completion.Deliver | services/control-plane/internal/runs/coordinator.go:117-249 | From worker to pump: success exactly when the worker ended cleanly with a completion and all of its journal arrived and was recorded; then the stored, durable record awaits its decision with the delivered candidate |
| RunStream.ValidateRuntimeEventSequence | services/control-plane/internal/contracts/contracts.go:260-275 | Accepts exactly sequences whose completions repeat the last candidate's artifacts |
| RunStream.Scan | services/control-plane/internal/agentexec/http.go:79-115 | Everything before the terminal event is sent, the terminal event is kept, and failure means the stream is not acceptable |
| RunStream.Execute | services/control-plane/internal/agentexec/http.go:37-128 | No error if and only if the stream is complete, and only then is its terminal event passed on; at most one error is ever sent |
| RunStream.Receive | services/control-plane/internal/runs/coordinator.go:187-230 | One event is an error exactly when the events so far stop being acceptable |
| RunStream.Pump | services/control-plane/internal/runs/coordinator.go:177-249 | Whatever the order of reception, both channels are drained and success means exactly a valid, fully recorded stream that ends with its only terminal event, a completion |
| RunStream.ExecuteAndPump | services/control-plane/internal/runs/coordinator.go:177-249 | Execute followed by pump succeeds exactly on acceptable streams; a committed execution is reported as an inconsistency |
| RunStream.FinishedIsOver | services/control-plane/internal/agentexec/http.go:86-92 | Known events after the terminal one invalidate the execution |
| RunStream.BadCompletion | services/control-plane/internal/agentexec/http.go:97-102 | A completion with other artifacts spoils the stream for good |
| Gateway.TracksMore | services/model-gateway/callback.py:110-157 | The online table describes the stream so far |
| Gateway.CheckEvent | services/model-gateway/callback.py:121-157 | The online fault is the one that the rule for whole streams names |
| Gateway.CheckChunk | services/model-gateway/callback.py:118-157 | The first faulty line of a chunk is found, and only a faulty one |
| Gateway.Guard | services/model-gateway/callback.py:106-162 | Finishes if and only if the whole stream is acceptable, then unchanged; else a prefix without any stopping chunk; truncation is reported exactly for an unstopped clean stream |
| Gateway.StreamHook | services/model-gateway/callback.py:88-104 | The client gets the stream as it was, or a prefix that never looks complete and one error |
| Gateway.AcceptableSingles | services/model-gateway/callback.py:113-114 | With one event per chunk: clean, and its single message_stop last |
| Sse.NumberOfDigits | apps/web/src/lib/api/sse.ts:50-51 | Decimal IDs survive printing and parsing |
| Sse.SplitOff | apps/web/src/lib/api/sse.ts:41-45 | A certainly complete line can be split off before the rest arrives; a final CR cannot |
| Sse.FieldValue | apps/web/src/lib/api/sse.ts:65-70 | A printed field parses to its value, one leading space stripped |
| Sse.FrameDispatches | services/control-plane/internal/httpapi/run_events.go:96-100 | A printed frame dispatches its event and leaves the parser as it began |
| Sse.LinesOfPrefix | apps/web/src/lib/api/sse.ts:36-46 | Any part of the printed text has the first printed lines as its complete lines |
| Sse.ParsePrinted | apps/web/src/lib/api/sse.ts:36-74 | Parsing printed frames gives the printed events; any part gives the first of them |
| Sse.Client.Apply | apps/web/src/features/runs/runStore.ts:24-44 | An event of a held run is applied once, and only beyond the cursor |
| Sse.Client.Deliver | apps/web/src/lib/api/sse.ts:49-62 | Validation, cursor check, handler and cursor of one dispatched event |
| Sse.Client.Drain | apps/web/src/lib/api/sse.ts:41-72 | Complete lines leave the buffer, the rest stays |
| Sse.Client.ReadConnection | apps/web/src/lib/api/sse.ts:36-74 | For every way of cutting the text into chunks the client ends as if it had parsed the whole text at once |
| Sse.Client.Watch | apps/web/src/lib/api/sse.ts:15-90 | Over any connections, cuts, failing handlers and reconnects the applied events are exactly the log up to the cursor if and only if the client holds the run, or the cursor is still at the start |
| Sse.StreamEvents | services/control-plane/internal/httpapi/run_events.go:90-116 | What is written is exactly the events beyond the given cursor, each once |
| Sse.ListEventsIsTail | services/control-plane/internal/runs/events.go:96-114 | Listing after a cursor is the tail of the log |
| Sse.NextRead | services/control-plane/internal/httpapi/run_events.go:112 | A later read only adds events beyond those already printed |
| Sse.HandleExact | apps/web/src/lib/api/sse.ts:49-62 | One connection keeps the client's log a prefix of the durable one, and a connection that runs to its end applies all it received |
| Sse.AcceptNext | apps/web/src/lib/api/sse.ts:50-61 | The event after the cursor is valid, and applied unless its handler fails first |
| Sse.AppliedIffKnown | apps/web/src/features/runs/runStore.ts:24-27 | What a client has applied is the log up to its cursor if and only if it holds the run or has read nothing |
| Sse.FirstEventSkipped | apps/web/src/features/runs/runStore.ts:24-27 | A client that does not hold the run moves its cursor past the first event and applies nothing |
| Sse.ReachableLogsServe | services/control-plane/internal/runs/events.go:96-114 | Every log the protocol can reach is such a log, only grows, and ends with a product terminal event once finalized |
| Broker.Broker.Subscribe | services/control-plane/internal/runs/broker.go:16-37 | A new empty channel for this run only |
| Broker.Broker.Unsubscribe | services/control-plane/internal/runs/broker.go:25-34 | Removes this channel only; repeating it changes nothing |
| Broker.Broker.Notify | services/control-plane/internal/runs/broker.go:38-50 | Every subscriber of the run holds a token, no one else gets one |
| Broker.Waiter.Happen | services/control-plane/internal/runs/coordinator_store.go:254-257 | A stream that is behind an announced commit holds a token, whatever happens around it |
| Broker.Waiter.Wait | services/control-plane/internal/httpapi/run_events.go:74-116 | Whenever the stream waits it has printed everything announced, and after a poll everything committed: coalescing loses no wake-up |
| Publication.StepKeepsInv | services/control-plane/internal/artifacts/publisher.go:23-25 | Every step of publisher, scanner, purge and crash keeps uploads of drafts and of readable artifacts |
| Publication.NeverHollow | services/control-plane/internal/cleanup/orphans.go:45-111 | In every interleaving a readable artifact has all the objects it was published with |
| Publication.OrphansStayOrphans | services/control-plane/internal/cleanup/orphans.go:83-111 | A prefix that is dead once has no metadata ever after |
| Publication.ScannerFindsDead | services/control-plane/internal/cleanup/orphans.go:95-108 | Without metadata under the lock means dead |
| Publication.OthersStep | services/control-plane/internal/artifacts/publisher.go:23-25 | What others can do while one process holds the lock |
| Publication.Maintenance.Upload | services/control-plane/internal/artifacts/publisher.go:74-81 | Success means that every file of the record is stored |
| Publication.Maintenance.Prepare | services/control-plane/internal/artifacts/publisher.go:36-84 | Success means every record complete and still uncommitted under the lock |
| Publication.Maintenance.Cleanup | services/control-plane/internal/artifacts/publisher.go:42-51 | A failed preparation deletes only its own records' objects |
| Publication.Maintenance.Publish | services/control-plane/internal/runs/coordinator_store.go:184-186 | Whatever the commit reports, either all artifacts are readable and whole or no row was added; the lock is released after the transaction |
| Publication.Maintenance.ScanArtifacts | services/control-plane/internal/cleanup/orphans.go:83-111 | What is reported or deleted is dead; every prefix without metadata is reported |
| Publication.Maintenance.PurgeRoot | services/control-plane/internal/cleanup/purge.go:141-161 | Success leaves neither rows nor objects of the deleted owner, for good; failure leaves only unreadable rows |
| Publication.HardDeleteReady | services/control-plane/internal/cleanup/purge.go:367-414 | Rows go only after their objects |
| Publication.StepKeepsEmptied | services/control-plane/internal/objectstore/memory.go:52-64 | An emptied prefix stays empty |

## Left out

- ControlPlane.System.Execute: context, profile, inputs, workspace, acquire and manifest checks are single calls that succeed or fail, because they only touch files and configuration.
- ControlPlane.System.RunExecution: the order and payload checks on delivered events are in `RunStream.dfy`; here a delivery is a failure, a cut stream, or a completion that the worker reported.
- ControlPlane.System.NextDelivery: that a delivered completion was reported is imposed on the script here; `Completion.Deliver` proves it of the worker, the stream and the pump, whose record store this class abstracts.
- ControlPlane.System.Reconcile: leases of runs without a row do not occur, because these tables lose no rows; the purge that hard-deletes rows is in `Publication.dfy`.
- ControlPlane.System.AbortExecution: the diagnostic column that a failed copy sets is not modelled.
- ControlPlane.FinalizationError: the consistency mark it would leave on a row is not modelled, because it is proved unreachable.
- ControlPlane.System.Schedule: back-off and polling delays only choose when the next turn happens.
- Sessions.SessionStore.Shrink: a session's directory is a flat set of files, so steps inside nested directories are not distinguished.
- Sessions.Inventory: symbolic links, hard links, unknown names and malformed markers are excluded by the types; the source refuses them.
- Sessions.SessionStore.Delete: directory syncs after deletions are not modelled; only the visible tree is.
- ExecutionStore.Store.Write: leftover temporary files are ignored by the source and do not appear.
- Journal.Worker.Publish: a write that fails after part of a line is counted as no line.
- Journal.Worker.Attend: signals, process groups and pipes are one step in which the worker has stopped or not.
- RunStream.Execute: request validation and status decoding are one rejected response with some error kind.
- Gateway.Guard: a tool input with a lone surrogate, which cannot be encoded, does not occur in these strings.
- Sse.Client.ReadConnection: decoding of UTF-8 happens before the text reaches it.
- Publication.Maintenance.ScanArtifacts: one project's artifact prefixes; the report of prefixes with invalid names is not modelled.
- Publication.Maintenance.PurgeRoot: input objects, workspaces and leases of purged runs are not modelled; sessions and records are, in `Sessions.dfy` and `Protocol.dfy`.
- The fake provider's playback and the change of the configured provider.
- Broker.Waiter.Wait: counts events only; which events are printed is in `Sse.StreamEvents`.
- Message texts, titles, timestamps other than set or unset, and the redaction of secrets.
- HTTP routing, object-store and database drivers, migrations, the agent adapter and the user interface.
