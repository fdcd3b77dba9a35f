# Durable command execution: a verified model

A command of the on-demand-read or the profile-capture family is driven through a fixed plan:
submit, optionally enqueue and claim, bootstrap an attempt, hand it to the runtime (job run,
envelope, lease, gate, guard, session, outcome checkpoint, 17 bridges, adapter call, handoff
record), terminalize, record the orchestration, and finally record the direct execution or
acknowledge the message and record its consumption. Each arrow is one or more commits, so a crash
can fall between any two of them; idempotency rests only on artifacts stored in the rows of the
command, its attempt and its job run. This project models that plan once, for both families, and
proves what it guarantees, and where it gets stuck, over every run.

## How the model is built

- `CommandModel`: rows, artifacts and the run of an operation. A row's JSON dictionary is a
  `Ledger` with one slot per artifact; `Metadata` proves that merging behaves that way. A `Run`
  lists every durable state an operation passes through; a crash stops it at any of them.
- `RuntimeHandoff`, `CommandExecution`, `QueuedExecution`: each service as a step that refuses,
  keeps the rows or commits a change, and each operation as the run of its steps.
- `Invariants`, `Phases`, `Safety`: the inductive invariant of the rows, the abstract machine
  Waiting, Started, Owned, Closed, Executed, Handed, Settled, Sealed, and the proof that every
  commit of every operation keeps the one and moves the other forward by at most one step.
- `Recovery`: the exact condition under which an orchestration completes and what a crash leaves
  to a re-run. `Traps`: the states no operation leaves. `Replays`: repeated calls.
- `Answers`, `QueuedAnswers`: which call is refused for which reason, as one table per operation.
  `Services`: each runtime service by itself, for any rows. `Records`, `Settlement`: what a call
  writes, from what it finds, its request, the clock and the adapter's reply.
- `Readback`, `OperationText`, `OperationalList`: the read-only views. `QueueMessages`, `Json`: the
  message format.
- `World`, `WorldSafety`, `WorldTheorems`, `WorldRuns`, `Journeys`, `Guarantees`: all commands, the
  shared stream and the workers under every interleaving of events, and what holds in every
  reachable state and over every run.
- `CommandStore`, `QueueWorker`: the imperative form, with row objects whose fields are assigned
  in place and a unit of work that commits them, proved equal to the specification and to the
  events of `World`.
- `ClaimTokens`, `AccessBootstrap`, `AttentionQueue`: three independent parts: the string code of
  claims, the access-control bootstrap and the dashboard's attention queue.

`dafny verify dfyconfig.toml` checks everything.

## What a reader might not expect

- The first bridge records the attempt disposition. The handoff always checkpoints the outcome
  "completed", so this commit ends the attempt and marks attempt, command and job run succeeded
  before the meter is called. Having ended is therefore not the same as being settled, and no
  crash is needed to see it. A call that gets past the chain while the adapter does not support
  the request, or raises, is answered with a refusal after that commit and leaves a command that
  reads as succeeded for good without a result (`Guarantees.LostExactly`,
  `Guarantees.SuccessWithoutCrashIsReachable`, `WorldRuns.AbandonedForever`). A capture answered
  succeeded with any status but acknowledged is handed over and can never be settled; it reads as
  succeeded for good, too (`Traps.UnsettleableIsFrozen`). A crash between the two commits gives
  the first state whatever the adapter would have done (`Traps.FalseSuccessWindow`). Ended and
  settled agree after an uninterrupted orchestration exactly when it does not get past the chain or
  the reply is one its family can express (`Guarantees.EndedIsSettledExactly`), and in every state a
  stopped one can leave exactly when it does not get past the chain
  (`Guarantees.EndedIsSettledThroughout`).
- A crash between the handoff record and the orchestration record can only be settled by a direct
  terminalization, never sealed (`Traps.UnsealedForever`, `Traps.FrozenExactly`).
  `Recovery.CrashThenRerun` gives the exact condition under which a re-run completes.
- A projection of a profile read that fails after the meter answered is the reply `Raised`: the
  call was made and nothing is recorded.
- The first consumption pins its worker's name. If it crashes there, no worker of another name ever
  completes a message of that command (`WorldRuns.OnlyPinnedWorkerDelivers`).
- An execution guard is kept whenever its record identifiers match, and these are determined by
  attempt and executor. A renewed lease therefore never renews the guard: an attempt that crashed
  before its session was finalized and waited past the guard's expiry stays in progress for ever
  (`Traps.StaleWindowOfOrchestration`, `WorldRuns.StuckForever`).
- Merging runtime metadata is one level deep, not a plain union (`Metadata`).
- A worker reads only new messages, so a message whose consumption crashed comes back only through
  recovery and release, which requeues a copy.
- A claim token is tested for the consumer's name as a substring, so the token of one worker passes
  for every worker whose name its name starts with (`ClaimTokens.BuiltTokenMatchesExactly`).
- The profile-capture consumer checks the sign of the channel count and nothing else; messages
  built here agree with their channel list (`QueueMessages.CountIsOnlySignChecked`,
  `QueueMessages.BuiltCountAgrees`).
- A readback turns stored operation and snapshot names into enumeration values. Command creation
  takes any payload, so one command with an unknown name makes the whole recent list fail while it
  is on it (`OperationalList.ListAnswersExactly`, `OperationalList.NewestUnreadableBlocks`).

## Model

| member | source | states |
|---|---|---|
| `WorldTheorems.AtMostOnce` | apps/api/app/modules/commands/on_demand_read_runtime_handoff.py:106-326 | over every sequence of calls, crashes after any commit, retries, duplicate messages and redeliveries, the meter adapter is called at most once per command, and a stored result means it was called exactly once |
| `WorldTheorems.NeverBack` | apps/api/app/modules/commands/on_demand_read_execution_orchestration.py:43-170 | from any reachable state on, whatever happens next, a command keeps every written artifact and its phase stays the same with the same data or moves to a later one, never back |
| `WorldTheorems.AckSafety` | apps/api/app/modules/commands/on_demand_read_queued_execution.py:135-265 | an acknowledged message has a durable orchestration artifact with the identifier derived from the message's enqueue identifier and the acknowledging worker's executor, the whole artifact set, and a terminal command |
| `WorldTheorems.OneWorkerPerCommand` | apps/api/app/modules/commands/on_demand_read_queued_execution.py:490-495 | all acknowledged messages of one command were acknowledged by the same worker for the same enqueue |
| `WorldTheorems.RouteExclusion` | apps/api/app/modules/commands/on_demand_read_execute_now.py:34-127 | no reachable command carries both an execute-now and a queue-consumption artifact, and one with an execute-now artifact has no acknowledged message |
| `WorldTheorems.RoutesDiffer` | apps/api/app/modules/commands/on_demand_read_execute_now.py:301-302 | the identifiers of the direct and the queued route never coincide, in either family |
| `WorldTheorems.MessagesConserved` | apps/api/app/modules/commands/on_demand_read_queued_execution.py:59-132 | counting a released message and its copy once, the messages of a command are exactly its committed enqueue, its open enqueue and the sends lost between stream and commit |
| `WorldTheorems.ApplyConserves` | apps/api/app/runtime/services/redis_queue_completion.py:73-136 | every single event, including recovery and release, keeps that count |
| `WorldTheorems.NoMessageVanishes` | apps/api/app/runtime/services/redis_queue_completion.py:73-136 | whatever was released lives on with the same content in an entry that is undelivered, pending or acknowledged |
| `WorldTheorems.ConsumptionNamesAck` | apps/api/app/modules/commands/on_demand_read_queued_execution.py:515-552 | a consumption record names a message that its worker acknowledged, for the command's enqueue |
| `WorldRuns.DeliveryCompletes` | apps/api/app/modules/commands/on_demand_read_queued_execution.py:135-265 | from any sound state, claim, work, acknowledgement and record end in an acknowledged message, a terminal command with its whole artifact set and this worker's consumption record if and only if the enqueue artifact matches and the orchestration made of the message completes; otherwise the message stays pending |
| `WorldRuns.OnlyPinnedWorkerDelivers` | apps/api/app/modules/commands/on_demand_read_runtime_handoff.py:552-629 | once the envelope names an executor, a worker of another name is refused on every message of the command in every later state, whatever happens in between, so a consumption that crashed there can only be finished by the same worker |
| `WorldRuns.AbandonedForever` | apps/api/app/modules/commands/on_demand_read_execution_orchestration.py:71-82 | a command that ended without a handoff record, or with a result its family cannot settle, keeps its rows through every later sequence of events, up to a queued execute-now marker, and reads as succeeded |
| `WorldRuns.StuckForever` | apps/api/app/modules/commands/on_demand_read_runtime_handoff.py:659-667 | once the clock has passed the expiry of a guard whose session was not finalized, the command stays in progress and the meter uncalled through every later sequence of events |
| `Journeys.SubmittedIsEnqueued` | apps/api/app/modules/commands/on_demand_read_queued_execution.py:59-132 | submission, message and enqueue commit leave one undelivered message and a queued command if the payload is valid, and no message otherwise |
| `Journeys.SubmittedIsDelivered` | apps/api/app/modules/commands/on_demand_read_queued_execution.py:135-265 | from any sound system in which nothing else waits, submission, enqueue, claim, work, acknowledgement and record end in a delivered command if and only if the links are valid and the reply is one its family can express |
| `Journeys.RedeliveryCompletes` | apps/api/app/runtime/services/redis_queue_recovery.py:71-159 | a message whose worker is gone is recovered, released as a copy, and the copy is delivered if and only if it is deliverable |
| `Journeys.RecoveredIsRequeued` | apps/api/app/runtime/services/redis_queue_completion.py:73-136 | recovery and release close the original and requeue its content, and change nothing else |
| `Journeys.CrashAnywhere` | apps/api/app/modules/commands/on_demand_read_runtime_handoff.py:177-292 | stopping a call after any of its commits leaves exactly that durable state |
| `Journeys.WorkCrashAnywhere` | apps/api/app/modules/commands/on_demand_read_queued_execution.py:172-199 | likewise for a worker, which acknowledges only after a completed orchestration |
| `Journeys.LostSendLeavesMessage` | apps/api/app/modules/commands/on_demand_read_queued_execution.py:81-107 | an enqueue lost between message and commit leaves the message on the stream and the command untouched |
| `Journeys.MarkerLands` | apps/api/app/modules/commands/on_demand_read_queued_execute_now.py:43-82 | the marker event changes exactly the commands enqueued under their own identifier |
| `Journeys.WorkWrites` | apps/api/app/modules/commands/on_demand_read_queued_execution.py:172-199 | a worker's completed orchestration has written the derived identifier, the executor of the worker's name, the lease and session it was given, and the reply |
| `Journeys.AbandonedWorkStops` | apps/api/app/modules/commands/on_demand_read_queued_execution.py:135-265 | a worker that gave up a message does nothing more with it |
| `Journeys.DeliveredReadsConsumed` | apps/api/app/modules/commands/on_demand_read_queued_status_readback.py:81-155 | a delivered read shows as consumed |
| `WorldTheorems.RejectedClaimIsHarmless` | apps/api/app/modules/commands/on_demand_read_queued_execution.py:159-171 | a claimed message of the other family, or without a matching enqueue artifact, stays pending and no command changes |
| `WorldTheorems.GrownIsForward` | apps/api/app/modules/commands/on_demand_read_runtime_terminalization.py:41-134 | a command whose artifacts only grew is in the same phase with the same data or in a strictly later one |
| `WorldSafety.ApplyKeeps` | apps/api/app/modules/commands/profile_capture_queued_execution.py:134-261 | each event keeps the invariant of the whole system: sound rows, acknowledged and in-flight messages backed by a sealed command, open enqueues still eligible |
| `WorldSafety.ReplayKeeps` | apps/api/app/modules/commands/profile_capture_queued_execution.py:59-131 | the same over every sequence of events |
| `WorldSafety.SendingIsRefused` | apps/api/app/modules/commands/on_demand_read_queued_execution.py:81-107 | a worker that meets a message between its stream entry and the enqueue commit is refused |
| `Safety.PerformLawful` | apps/api/app/modules/commands/on_demand_read_runtime_handoff.py:177-292 | every durable state of every call of either family, crashed anywhere, satisfies the row invariant and follows from the one before by exactly one forward step of the abstract machine or none |
| `Safety.HandoffLawful` | apps/api/app/modules/commands/on_demand_read_runtime_handoff.py:106-292 | the same for the handoff, which when it succeeds leaves a handoff record of its own identifier and executor and touches nothing later |
| `Safety.ChainLawful` | apps/api/app/modules/commands/on_demand_read_runtime_handoff.py:181-247 | the 25 services before the adapter keep the invariant, change only runtime artifacts, and end with the executor pinned |
| `Safety.AdapterLawful` | apps/api/app/runtime/services/runtime_on_demand_read.py:55-260 | call and commit of the adapter are two durable steps that together raise the call count at most from zero to one and record a result of the calling executor |
| `Safety.OrchestrateLawful` | apps/api/app/modules/commands/on_demand_read_execution_orchestration.py:43-170 | a successful orchestration leaves an orchestration record of its own identifier and executor; a failing one stops in a lawful state |
| `Safety.ExecuteNowLawful` | apps/api/app/modules/commands/on_demand_read_execute_now.py:34-104 | the direct route keeps the invariant through its own record |
| `Safety.LawfulGrows` | apps/api/app/runtime/services/runtime_artifact_utils.py:17-30 | along one operation every later durable state has grown from every earlier one |
| `Safety.BootstrapResult` | apps/api/app/modules/commands/service.py:888-1060 | bootstrap creates an attempt only when there is none, and otherwise answers only for the stored bootstrap identifier |
| `Safety.OtherFamilyRefused` | apps/api/app/modules/commands/on_demand_read_runtime_handoff.py:138-142 | an operation of one family is refused on a command of the other and commits nothing |
| `Phases.BootstrapMoves` | apps/api/app/modules/commands/service.py:1262-1425 | a bootstrap commit keeps the invariant and starts the one attempt |
| `Phases.EnvelopeMoves` | apps/api/app/modules/commands/on_demand_read_runtime_handoff.py:552-629 | the envelope pins the executor once |
| `Phases.LeaseMoves` | apps/api/app/runtime/services/runtime_execution_lease.py:24-96 | renewing a lease for the pinned executor keeps every other artifact and the nesting of expiries |
| `Phases.GateMoves` | apps/api/app/runtime/services/runtime_execution_invocation.py:27-98 | likewise for the invocation gate |
| `Phases.GuardMoves` | apps/api/app/modules/commands/on_demand_read_runtime_handoff.py:632-680 | a guard is written once and never replaced |
| `Phases.OpenSessionMoves` | apps/api/app/runtime/services/runtime_execution_session.py:37-100 | a session that is not finalized may be replaced without breaking anything that is durable |
| `Phases.SessionFinalizeMoves` | apps/api/app/runtime/services/runtime_execution_session.py:158-223 | finalizing fixes the session for good |
| `Phases.OutcomeMoves` | apps/api/app/runtime/services/runtime_execution_session.py:226-304 | the outcome checkpoint names the finalized session and its executor |
| `Phases.DispositionMoves` | apps/api/app/runtime/services/runtime_attempt_disposition.py:72-198 | the first bridge ends attempt, command and job run together as succeeded, before any adapter result exists |
| `Phases.BridgeMoves` | apps/api/app/modules/commands/on_demand_read_runtime_handoff.py:726-887 | each bridge extends the sequence of bridges by one and changes nothing else |
| `Phases.ExecutionMoves` | apps/api/app/runtime/services/runtime_profile_read.py:640-788 | the adapter result is recorded once, with the terminal status exactly for profile capture |
| `Phases.HandoffRecordMoves` | apps/api/app/modules/commands/on_demand_read_runtime_handoff.py:274-292 | the handoff record repeats session, executor, bootstrap and record identifiers already fixed |
| `Phases.TerminalizeMoves` | apps/api/app/modules/commands/on_demand_read_runtime_terminalization.py:326-367 | settlement moves the three rows together to the outcome the recorded result dictates |
| `Phases.OrchestrationRecordMoves` | apps/api/app/modules/commands/on_demand_read_execution_orchestration.py:277-292 | sealing requires handoff, settlement and bootstrap to carry the one identifier it records |
| `Phases.ExecuteNowRecordMoves` | apps/api/app/modules/commands/profile_capture_execute_now.py:32-109 | the execute-now record repeats what the sealed command already says |
| `Phases.CancelMoves` | apps/api/app/modules/jobs/service.py:405-429 | only a command without an attempt can be cancelled, and it stays so |
| `QueuedExecution.EnqueueMoves` | apps/api/app/modules/commands/on_demand_read_queued_execution.py:89-113 | an enqueue commit keeps the invariant of a command that has no attempt yet |
| `QueuedExecution.QueuedNowMoves` | apps/api/app/modules/commands/on_demand_read_queued_execute_now.py:61-82 | the queued execute-now marker may land at any time, on the command only, without changing the phase |
| `QueuedExecution.ConsumptionMoves` | apps/api/app/modules/commands/on_demand_read_queued_execution.py:200-239 | a consumption record repeats record, outcome and category of the sealed command and refers to its enqueue |
| `Recovery.OrchestrateGoesIff` | apps/api/app/modules/commands/on_demand_read_execution_orchestration.py:50-160 | an orchestration completes if and only if a condition on the rows and the call holds: sealed by the same identifier and executor, or not ended, not cancelled, payload and links valid, same bootstrap identifier and worker, guard not outlived, and a reply its family can express |
| `Recovery.ExecuteNowGoesIff` | apps/api/app/modules/commands/on_demand_read_execute_now.py:47-68 | the direct route completes, first time or after any crash, exactly when its orchestration does |
| `Recovery.CrashThenRerun` | apps/api/app/modules/commands/on_demand_read_execution_orchestration.py:71-82 | stop an orchestration that gets past the chain, whatever the adapter then does, after any commit or at its end: a re-run with the same identifier and executor completes exactly if the record was already there, or the attempt had not ended, the links are valid, the guard has not expired and the reply is acceptable |
| `Recovery.OrchestrateFate` | apps/api/app/runtime/services/runtime_on_demand_read.py:193-207 | what an uninterrupted orchestration leaves, in one of four ways decided before the call: it never gets past the chain and the attempt has not ended; it is sealed; the adapter gave no result and the command is lost; or the result cannot be expressed and it stays handed over; a result is stored field by field as the adapter gave it |
| `Recovery.AdapterRecords` | apps/api/app/runtime/services/runtime_on_demand_read.py:208-260 | an adapter call that goes on has stored the reply's outcome, acceptance, completion, detail, summary and terminal status under the identifiers of the rows, the session and the request |
| `Records.ChainGrants` | apps/api/app/runtime/services/runtime_execution_session.py:37-100 | after the chain: an active lease and gate are kept and others run from now, a guard is kept in any case, a finalized session is kept, an open one too, and a new one lasts as requested but not longer than the guard; the attempt ended at the call's clock reading |
| `Records.OrchestrationWrites` | apps/api/app/modules/commands/on_demand_read_execution_orchestration.py:43-170 | everything an orchestration that gets past the chain has written, from the rows it finds, its request, the clock and the reply: attempt, bootstrap, envelope, expiries, session, result, handoff, settlement and orchestration records, and how the three rows end |
| `Records.ReadSucceedsIff` | apps/api/app/modules/commands/on_demand_read_runtime_terminalization.py:249-268 | a read that was answered reads as succeeded if and only if the reply is succeeded, accepted and completed |
| `Records.ExecuteNowWrites` | apps/api/app/modules/commands/on_demand_read_execute_now.py:34-104 | the direct route writes the same under its own names with five minutes of lease and session, and an execute-now record that repeats the reply |
| `Answers.OrchestrateAnswers` | apps/api/app/modules/commands/on_demand_read_execution_orchestration.py:43-170 | one table for the answer of the whole orchestration in every state: replay, already ended, cancelled, payload, links, other bootstrap identifier, other worker, outlived guard, adapter unsupported or raising, inexpressible result, or success |
| `Answers.HandoffAnswers` | apps/api/app/modules/commands/profile_capture_runtime_handoff.py:102-281 | the same for the handoff |
| `Answers.ExecuteNowAnswers` | apps/api/app/modules/commands/on_demand_read_execute_now.py:34-104 | the direct route answers as its orchestration in every state |
| `Answers.TerminalizeAnswers` | apps/api/app/modules/commands/profile_capture_runtime_terminalization.py:38-130 | the same for settlement: replay, other identifier or executor, nothing handed over, inexpressible result, or success |
| `Answers.BootstrapAnswers` | apps/api/app/modules/commands/service.py:888-1060 | the same for bootstrap |
| `Answers.CancelAnswers` | apps/api/app/modules/jobs/service.py:405-429 | a command is cancelled if and only if it waits for its first attempt, and then says when and why; otherwise nothing changes |
| `Answers.OtherCategoryAnswers` | apps/api/app/modules/commands/on_demand_read_runtime_handoff.py:138-142 | a command of another category is refused for its category by every operation but cancellation, and nothing is committed |
| `Services.JobRunExactly` | apps/api/app/modules/commands/on_demand_read_runtime_handoff.py:495-549 | for any rows: a job run is created exactly for an attempt that names none, and one that is named is kept exactly if it is this command's |
| `Services.EnvelopeExactly` | apps/api/app/modules/commands/on_demand_read_runtime_handoff.py:552-629 | for any rows: the envelope is written exactly when the job run has none, and kept exactly for its worker |
| `Services.LeaseExactly` | apps/api/app/runtime/services/runtime_execution_lease.py:24-96 | for any rows: granted exactly to a running attempt with an envelope while no lease is live; a live one is kept for its executor and refuses any other |
| `Services.GateExactly` | apps/api/app/runtime/services/runtime_execution_invocation.py:27-98 | for any rows: written exactly under the executor's live lease while no gate is live, for as long as the lease |
| `Services.GuardExactly` | apps/api/app/modules/commands/on_demand_read_runtime_handoff.py:632-680 | for any rows: kept exactly if it names the executor's lease and gate, live or not; written exactly from a live lease and gate that refer to each other, until the earlier expiry |
| `Services.SessionStartExactly` | apps/api/app/runtime/services/runtime_execution_session.py:37-100 | for any rows: exactly when a session is kept, bounded, opened or refused, and until when it lasts |
| `Services.FinalizeExactly` | apps/api/app/runtime/services/runtime_execution_session.py:158-223 | for any rows: a live session of the executor with consistent live prerequisites is finalized, a finalized one kept, any other refused |
| `Services.OutcomeExactly` | apps/api/app/runtime/services/runtime_execution_session.py:226-304 | for any rows: the outcome is written exactly once, on the executor's finalized session with consistent prerequisites |
| `Services.BridgeExactly` | apps/api/app/runtime/services/runtime_attempt_disposition.py:72-198 | for any rows: each bridge is written exactly on the ones before it, the first only on an attempt that has not ended and a command in progress |
| `Services.DisposeExactly` | apps/api/app/runtime/services/runtime_attempt_disposition.py:236-293 | what the first bridge makes of the three rows |
| `Services.AdapterExactly` | apps/api/app/runtime/services/runtime_on_demand_read.py:55-260 | for any rows: exactly when the meter is called, when the call goes on, and how many commits it makes |
| `Services.HandoffStartsExactly` | apps/api/app/modules/commands/profile_capture_runtime_handoff.py:136-170 | for any rows: exactly when a handoff that replays nothing starts |
| `Services.HandoffRecordExactly` | apps/api/app/modules/commands/on_demand_read_runtime_handoff.py:274-292 | for any rows: exactly when the handoff record is written, and what it says |
| `Services.BootstrapExactly` | apps/api/app/modules/commands/service.py:888-1060 | for any rows: exactly when an attempt is started or kept, and the rows a start leaves |
| `Services.TerminalizeExactly` | apps/api/app/modules/commands/profile_capture_runtime_terminalization.py:192-314 | for any rows: settled exactly if not settled before, the result, handoff and terminal status belong to these rows and this executor, and the outcome can be expressed; kept exactly for its own identifier and executor |
| `Services.OrchestrationRecordExactly` | apps/api/app/modules/commands/on_demand_read_execution_orchestration.py:277-292 | for any rows: exactly when the orchestration record is written, and what it says |
| `Services.OrchestrateStartsExactly` | apps/api/app/modules/commands/on_demand_read_execution_orchestration.py:50-90 | for any rows: what refuses an orchestration before its first step, and when its own record is replayed |
| `Services.CancelExactly` | apps/api/app/modules/jobs/service.py:405-429 | for any rows: cancelled exactly from the four cancellable statuses |
| `Answers.TransitionsExactly` | apps/api/app/modules/jobs/service.py:70-108 | from which statuses each status may be reached |
| `Recovery.CompletedIsSealed` | apps/api/app/modules/commands/profile_capture_execution_orchestration.py:38-157 | a completed orchestration leaves the one full artifact set, one adapter call, and a terminal command sealed under its identifier and executor |
| `Recovery.HandoffGoesIff` | apps/api/app/modules/commands/profile_capture_runtime_handoff.py:102-281 | a handoff of a running attempt completes if and only if payload and links are valid, the worker is the pinned one, the guard is not outlived and the adapter answers |
| `Recovery.ChainCompletes` | apps/api/app/modules/commands/profile_capture_runtime_handoff.py:172-238 | from any partial state that is ready, none of the remaining services refuses |
| `Recovery.BootstrapGoesIff` | apps/api/app/modules/commands/service.py:888-1060 | a bootstrap of a live command is refused exactly for invalid links or another bootstrap identifier |
| `Recovery.TerminalizeGoesIff` | apps/api/app/modules/commands/profile_capture_runtime_terminalization.py:275-314 | with a handoff of the same executor a settlement is refused exactly when the family cannot express the outcome |
| `Recovery.StaleChainRefused` | apps/api/app/runtime/services/runtime_execution_session.py:357-441 | with an outlived guard the chain is refused by the session prerequisites at the latest, at any later time, and the guard stays outlived in what it leaves |
| `Traps.LostIsFrozen` | apps/api/app/modules/commands/on_demand_read_runtime_handoff.py:143-152 | a command that ended without a handoff record reads as succeeded, and no operation of either family ever commits anything to it again |
| `Traps.UnsettleableIsFrozen` | apps/api/app/modules/commands/profile_capture_runtime_terminalization.py:275-285 | a handed-over capture answered succeeded without an acknowledgement reads as succeeded, no operation of either family commits anything to it again, and terminalization and orchestration are always refused |
| `Traps.FrozenExactly` | apps/api/app/modules/commands/on_demand_read_runtime_terminalization.py:41-134 | of the commands that ended without an orchestration record exactly the lost, the unsettleable and the settled ones admit no further commit; any other is settled by a terminalization naming its handoff's executor |
| `Traps.FalseSuccessWindow` | apps/api/app/runtime/services/runtime_attempt_disposition.py:236-293 | every orchestration that gets past the chain, whatever the adapter then does, commits a state before the meter call in which the command reads as succeeded for good |
| `Traps.UnsealedForever` | apps/api/app/modules/commands/on_demand_read_execution_orchestration.py:71-82 | once an attempt has ended without an orchestration record none is ever written; orchestration and execute-now are always refused |
| `Traps.StaleForever` | apps/api/app/modules/commands/on_demand_read_runtime_handoff.py:659-667 | an attempt whose guard expired before its session was finalized stays in progress for ever: at any later time every operation except the repeated bootstrap is refused, and the guard stays expired |
| `Traps.StaleWindowOfOrchestration` | apps/api/app/modules/commands/on_demand_read_runtime_handoff.py:632-680 | every orchestration that gets past the chain and starts before a session was opened commits a state that becomes stuck in this way when the clock reaches the guard's expiry |
| `Guarantees.TerminalAgreement` | apps/api/app/modules/commands/on_demand_read_runtime_terminalization.py:326-367 | in every reachable state attempt ended, command terminal, job run finished and first bridge recorded are one fact; the statuses name one outcome, the end times are equal, error fields agree and are null exactly on success |
| `Guarantees.SuccessMeans` | apps/api/app/modules/commands/on_demand_read_runtime_terminalization.py:249-284 | after settlement, success means a succeeded, accepted and billing-completed read, or a succeeded and acknowledged capture; before settlement an ended command always reads as succeeded |
| `Guarantees.EndedIsSettledExactly` | apps/api/app/runtime/services/runtime_on_demand_read.py:193-207 | that a command has ended exactly if it carries a terminalization is false in general; after an uninterrupted orchestration of a command that had not ended it holds if and only if the call does not get past the chain (not cancelled, payload and links valid, same bootstrap identifier and worker, guard not outlived) or the adapter's reply is one its family can express |
| `Guarantees.LostExactly` | apps/api/app/runtime/services/runtime_profile_read.py:691-723 | such a call loses the command, with no crash, if and only if it gets past the chain and the adapter is unsupported or raises; it leaves a result nobody can settle if and only if the adapter answers with one its family cannot express |
| `Guarantees.EndedIsSettledThroughout` | apps/api/app/runtime/services/runtime_attempt_disposition.py:169-189 | when the call may also be stopped after any commit, every state it can leave has ended exactly if settled if and only if the call does not get past the chain |
| `Guarantees.HandoffLosesExactly` | apps/api/app/modules/commands/on_demand_read_runtime_handoff.py:248-273 | a direct handoff of a running attempt loses the command if and only if it gets past the chain and the adapter gives no result |
| `Guarantees.ExecuteNowLosesExactly` | apps/api/app/modules/commands/on_demand_read_execute_now.py:47-68 | likewise for the direct route |
| `Guarantees.SuccessWithoutCrashIsReachable` | apps/api/app/runtime/services/runtime_on_demand_read.py:193-198 | a submitted command and one uninterrupted orchestration with an unsupported adapter: refused, reads as succeeded for good, meter never called |
| `Guarantees.SuccessWithoutMeterIsReachable` | apps/api/app/runtime/services/runtime_attempt_disposition.py:189-198 | a command that reads as succeeded with no settlement, no result and no meter call is reachable in both families |
| `Guarantees.ErrorCodeSpelled` | apps/api/app/modules/commands/profile_capture_runtime_terminalization.py:275-314 | in every reachable state each error code of a settled command that did not succeed, by its spelling, names exactly one outcome, or for a capture that did not time out exactly one terminal status |
| `Settlement.ReadSettlement` | apps/api/app/modules/commands/on_demand_read_runtime_terminalization.py:249-367 | for every stored result of a read, spelled out: the three statuses, the error code, and the message, which is the error detail if it says anything and else the summary |
| `Settlement.CaptureSettlement` | apps/api/app/modules/commands/profile_capture_runtime_terminalization.py:275-314 | the same for a capture, with its seven codes and the terminal status summary between detail and summary; a succeeded one was acknowledged |
| `Guarantees.MirrorInvariant` | apps/api/app/modules/commands/on_demand_read_runtime_terminalization.py:101-117 | attempt and command carry the same artifacts except enqueue and queued execute-now; the job run differs from the command at most in a queued execute-now marker that landed late |
| `Guarantees.ArtifactChain` | apps/api/app/modules/commands/on_demand_read_runtime_handoff.py:735-887 | each artifact implies all earlier ones, down to all 17 bridges, envelope and bootstrap; executor and record identifiers agree along the chain |
| `Guarantees.SessionIsCovered` | apps/api/app/runtime/services/runtime_execution_session.py:777-790 | an unexpired session implies an unexpired guard, gate and lease |
| `Guarantees.WriteOnce` | apps/api/app/runtime/services/runtime_artifact_utils.py:17-30 | no call changes a written bootstrap, envelope, execution, handoff, terminalization, orchestration, execute-now or enqueue artifact, and there is never a second attempt |
| `Guarantees.HandoffNeverContinues` | apps/api/app/modules/commands/on_demand_read_runtime_handoff.py:119-136 | with a handoff record every handoff call is a pure replay or refusal: the continuation with a record but without an execution is dead |
| `Replays.IdempotentForever` | apps/api/app/modules/commands/on_demand_read_runtime_terminalization.py:149-179 | a handoff, terminalization, orchestration or execute-now that succeeded once, called again in any later state, commits nothing and gives the same record-derived answer |
| `Replays.RecordAgreesWithRows` | apps/api/app/modules/commands/profile_capture_runtime_terminalization.py:399-434 | the on-demand replay read from the record and the profile-capture replay read from the live rows report the same final statuses |
| `Replays.AnswerExactly` | apps/api/app/modules/commands/on_demand_read_runtime_terminalization.py:370-420 | the answer of a handoff, settlement, orchestration or execute-now call, first or repeated: the caller's names, the stored records and the statuses and end time of the rows as they are |
| `Replays.EnqueueIdempotent` | apps/api/app/modules/commands/on_demand_read_queued_execution.py:268-298 | a committed enqueue is replayed with its message identifier for its own identifier and refused for every other, in any later state |
| `Replays.QueuedNowIdempotent` | apps/api/app/modules/commands/on_demand_read_queued_execute_now.py:94-112 | likewise for the queued execute-now marker |
| `QueuedAnswers.EnqueueAnswers` | apps/api/app/modules/commands/on_demand_read_queued_execution.py:268-330 | enqueueing is eligible if and only if the command waits for its first attempt, was not enqueued and has a valid payload; otherwise the answer is a replay, another identifier, not eligible or an invalid payload |
| `QueuedAnswers.EnqueueExactly` | apps/api/app/modules/commands/on_demand_read_queued_execution.py:301-330 | for any rows: eligible exactly in the three statuses, without an attempt and an enqueue, with a valid payload; a replay exactly for the stored identifier |
| `QueuedAnswers.QueuedNowExactly` | apps/api/app/modules/commands/on_demand_read_queued_execute_now.py:43-112 | for any rows: exactly when the marker is written or kept |
| `QueuedAnswers.ConsumeExactly` | apps/api/app/modules/commands/on_demand_read_queued_execution.py:159-171 | for any rows: exactly when a worker takes the message |
| `QueuedAnswers.EnqueueWrites` | apps/api/app/modules/commands/on_demand_read_queued_execution.py:89-113 | the commit queues the command and records identifier, message and time |
| `QueuedAnswers.QueuedNowAnswers` | apps/api/app/modules/commands/on_demand_read_queued_execute_now.py:43-112 | the marker is written once, on a command enqueued under its own identifier, and repeats the enqueue's message |
| `QueuedAnswers.ConsumeAnswers` | apps/api/app/modules/commands/on_demand_read_queued_execution.py:159-171 | a worker takes a message if and only if the command was enqueued under its identifier |
| `QueuedAnswers.ConsumptionWrites` | apps/api/app/modules/commands/on_demand_read_queued_execution.py:515-552 | the consumption record of a sealed command names worker, enqueue and message and repeats the stored result |
| `Readback.SourceIndependent` | apps/api/app/modules/commands/on_demand_read_status_readback.py:147-187 | whichever artifact carries the record identifier, outcome or category, and in whichever copy, the priority search returns that value |
| `Readback.StatusTracksPhase` | apps/api/app/modules/commands/on_demand_read_status_readback.py:81-144 | the status readback shows record and outcome exactly from the adapter result on, the presence flags exactly from settling and sealing on, and no reuse flag is ever true |
| `Readback.StatusNeverRegresses` | apps/api/app/modules/commands/profile_capture_status_readback.py:114-154 | what a readback has shown it shows after every further commit |
| `Readback.QueuedStatusTracksPhase` | apps/api/app/modules/commands/on_demand_read_queued_status_readback.py:81-155 | the queued readback agrees with the plain one, and a consumed command is sealed with record, outcome and enqueue |
| `Readback.StatusExactly` | apps/api/app/modules/commands/on_demand_read_status_readback.py:21-144 | every field of the status readback, read off the stored result and the command's artifacts without searching |
| `Readback.QueuedStatusExactly` | apps/api/app/modules/commands/on_demand_read_queued_status_readback.py:81-155 | every field of the queued readback; a command reads as consumed if and only if its consumption record is there, and shows its enqueue's message |
| `QueueMessages.RoundTrip` | apps/api/app/modules/commands/profile_capture_queued_execution.py:328-414 | a message built from a valid command, written as stream fields, copied by releases, parsed and validated by its own family comes back equal |
| `QueueMessages.BodyRoundTrip` | apps/api/app/runtime/redis_dispatch_stream.py:28-56 | parsing recovers body, routing and identity of written fields whatever a release added |
| `QueueMessages.AcceptedIffValid` | apps/api/app/modules/commands/on_demand_read_queued_execution.py:333-420 | a producer's payload check accepts exactly what the consumer of its family accepts, which then reads the source, identifier and payload the producer was given |
| `QueueMessages.ReadAcceptedExactly` | apps/api/app/modules/commands/on_demand_read_queued_execution.py:450-487 | exactly which claimed messages a consumer of reads accepts, in terms of the routing and the body's fields |
| `QueueMessages.CaptureAcceptedExactly` | apps/api/app/modules/commands/profile_capture_queued_execution.py:447-486 | the same for captures |
| `QueueMessages.ParseFailsExactly` | apps/api/app/runtime/redis_dispatch_stream.py:28-56 | parsing fails if and only if one of the four dictionaries is text that is no JSON |
| `QueueMessages.BodyExactly` | apps/api/app/modules/commands/on_demand_read_queued_execution.py:333-420 | the common fields of a message's body by name |
| `QueueMessages.LinkageExactly` | apps/api/app/modules/commands/profile_capture_queued_execution.py:328-350 | the family's own fields by name |
| `QueueMessages.FieldsExactly` | apps/api/app/modules/commands/profile_capture_queued_execution.py:353-414 | the stream fields by name, with the dispatch identity of command and enqueue |
| `QueueMessages.ParsedExactly` | apps/api/app/runtime/redis_dispatch_stream.py:28-56 | everything a consumer finds in the fields, whatever a release added |
| `QueueMessages.FamiliesSeparate` | apps/api/app/modules/commands/on_demand_read_queued_execution.py:450-487 | no claimed message is accepted by both families |
| `QueueMessages.AcceptedIsOwn` | apps/api/app/modules/commands/profile_capture_queued_execution.py:447-486 | an accepted message is of the consumer's own contract, version, category and bounded operation |
| `QueueMessages.CountIsOnlySignChecked` | apps/api/app/modules/commands/profile_capture_queued_execution.py:481-485 | for every accepted message, putting any other channel count into the body is accepted as the same message with that count if and only if the count is positive |
| `QueueMessages.CountAgreesExactly` | apps/api/app/modules/commands/profile_capture_queued_execution.py:447-486 | the count of an accepted message agrees with its channel list if and only if its producer wrote the length of the list |
| `QueueMessages.BuiltCountAgrees` | apps/api/app/modules/commands/profile_capture_queued_execution.py:328-350 | every message built here comes back from its consumer with the channels of its command and a count equal to their number |
| `QueueMessages.CountMayDisagree` | apps/api/app/modules/commands/profile_capture_queued_execution.py:481-485 | from every accepted message one with a disagreeing count is obtained that is accepted as well |
| `Metadata.MergeRuntimeMetadata` | apps/api/app/runtime/services/runtime_artifact_utils.py:17-30 | the key-by-key loop computes the one-level-deep merge, independent of the order of keys |
| `Metadata.ReplacesOnlyIfCovering` | apps/api/app/runtime/services/runtime_artifact_utils.py:24-29 | writing one artifact replaces the stored one and leaves the rest alone if and only if its field set covers the stored one's |
| `Metadata.MergeIdempotent` | apps/api/app/runtime/services/runtime_artifact_utils.py:17-30 | merging the same artifacts again changes nothing |
| `Metadata.WritesCommute` | apps/api/app/runtime/services/runtime_artifact_utils.py:24-29 | merges of artifacts under different keys commute, nested ones included |
| `OperationalList.FilterIsProjection` | apps/api/app/modules/commands/operational_read_model.py:224-364 | a family filter lists exactly the commands whose projection names that family and, besides, those whose projection is refused for an unknown stored name |
| `OperationalList.ListAnswersExactly` | apps/api/app/modules/commands/operational_read_model.py:116-146 | the list is answered if and only if each command on it is readable |
| `OperationalList.NewestUnreadableBlocks` | apps/api/app/modules/commands/operational_read_model.py:139-146 | while the newest selected command is unreadable the list is refused whatever the limit |
| `OperationalList.UnknownOperationIsUnreadable` | apps/api/app/modules/commands/service.py:173 | a command created with a payload that asks for an operation without enumeration value is such a command |
| `OperationalList.FamiliesAnswerForAll` | apps/api/app/modules/commands/operational_read_model.py:347-364 | when each family's list is answered, so is the list of all families |
| `OperationText.UnknownExactly` | apps/api/app/modules/commands/relay_control_status_readback.py:185-208 | a readback's search for an operation or snapshot name fails if and only if the first name stored, in the order of the search and attempt before command, is unknown |
| `OperationText.UnstartedExactly` | apps/api/app/modules/commands/on_demand_read_status_readback.py:190-240 | a command that has not run is readable if and only if its payload names nothing unknown |
| `OperationText.RelayOperationExactly` | apps/api/app/modules/commands/relay_control_status_readback.py:185-208 | from which stored text the relay operation is taken, by the names of artifacts and fields |
| `OperationText.ReadOperationExactly` | apps/api/app/modules/commands/on_demand_read_status_readback.py:190-213 | the same for the read operation |
| `OperationText.SnapshotTypeExactly` | apps/api/app/modules/commands/on_demand_read_status_readback.py:216-243 | the same for the snapshot type |
| `OperationText.ReadableExactly` | apps/api/app/modules/commands/enums.py:53-60 | which names are known |
| `OperationalList.RecentListMerge` | apps/api/app/modules/commands/operational_read_model.py:116-146 | with distinct request times the unfiltered list of the newest commands is the newest part of the ordered merge of the three filtered lists |
| `OperationalList.RecentListIsNewest` | apps/api/app/modules/commands/operational_read_model.py:116-146 | the list holds as many of the selected commands as there are up to the limit, newest first, each as often as it is stored, and every selected command left out is older than each one on it |
| `ClaimTokens.NormalizeFixes` | apps/api/app/runtime/redis_queue_worker.py:7-9 | a normalised worker name is non-empty, has only allowed characters and is its own normal form |
| `ClaimTokens.NormalizeKeepsWords` | apps/api/app/runtime/redis_queue_worker.py:7-9 | the normal form has the words of the lower-cased worker name, in order and still apart, with no dash at either end; a name without words becomes the default |
| `ClaimTokens.BuiltTokenMatches` | apps/api/app/runtime/redis_queue_worker.py:12-34 | a built token matches its own consumer and message |
| `ClaimTokens.MessageTestIsSegment` | apps/api/app/runtime/redis_queue_worker.py:33 | for a colon-free identifier the message test holds exactly when it is an interior colon-delimited segment |
| `ClaimTokens.BuiltTokenNamesOneMessage` | apps/api/app/runtime/redis_queue_worker.py:12-21 | with colon-free parts a token matches its own message identifier and otherwise only one spelled like its group or worker part |
| `ClaimTokens.MatchesExactly` | apps/api/app/runtime/redis_queue_worker.py:24-34 | a token matches if and only if it is a claim token, contains the consumer's name and has the message as an interior segment |
| `ClaimTokens.BuiltTokenMatchesExactly` | apps/api/app/runtime/redis_queue_worker.py:12-34 | exactly which consumers and messages a built token of colon-free parts matches: a consumer passes if the token's worker name starts with its own, or through neighbouring parts spelled like the prefix |
| `AccessBootstrap.AccessControl.Bootstrap` | apps/api/app/modules/auth/bootstrap.py:46-156 | one run removes nothing, adds only defined permissions and roles and grants they need, touches at most one user and gives only that user the role, reports what it added, reaches the required state unless name and address belong to different users, and from the required state changes nothing |
| `AccessBootstrap.AccessControl.BootstrapTwice` | apps/api/app/modules/auth/bootstrap.py:46-156 | after a run that finished, a second one creates nothing |
| `AccessBootstrap.AccessControl.BootstrapUntil` | apps/api/app/modules/auth/bootstrap.py:78-143 | a run stopped after any of its commits removes nothing, has done the stages before, and neither makes nor removes a conflict of name and address |
| `AccessBootstrap.AccessControl.CrashThenBootstrap` | apps/api/app/modules/auth/bootstrap.py:46-156 | a run stopped after any commit and a second one reach the required state exactly when one run would have, and a third changes nothing |
| `AccessBootstrap.AccessControl.ReconcileSuperAdmin` | apps/api/app/modules/auth/bootstrap.py:29-117 | the configured user is created or repaired, everybody else is untouched, and the refusal occurs exactly on a conflict of name and address |
| `AccessBootstrap.AccessControl.EnsureSuperAdmin` | apps/api/app/modules/auth/bootstrap.py:86-144 | the configured user is reconciled and given the role, nobody else is touched, and a conflict changes nothing |
| `AccessBootstrap.AccessControl.EnsureRoles` | apps/api/app/modules/auth/bootstrap.py:54-77 | every defined role exists with all its grants, roles keep their own identifiers, no grant is removed, and the count is what was added |
| `AttentionQueue.BuildAttentionQueue` | apps/web/app/dashboard/fetch-dashboard-data.ts:250-328 | distinct identifiers, newest first, min(10, distinct identifiers) rows, the newest row of each kept identifier, nothing omitted that is newer than a kept row, at most three reachability rows, and rows of one time in the order in which they were gathered |
| `AttentionQueue.Gather` | apps/web/app/dashboard/fetch-dashboard-data.ts:258-311 | the four loops gather exactly the open critical alarms, failed commands, failed jobs and first three unseen meters |
| `AttentionQueue.GatheredExactly` | apps/web/app/dashboard/fetch-dashboard-data.ts:258-311 | a row is gathered if and only if it is that of an open critical alarm, a command that failed or timed out, a failed job, or a meter never seen with fewer than three such meters before it |
| `AttentionQueue.SortIsStable` | apps/web/app/dashboard/fetch-dashboard-data.ts:313 | sorting keeps rows of one time in order |
| `AttentionQueue.Dedupe` | apps/web/app/dashboard/fetch-dashboard-data.ts:315-327 | keeping first occurrences of a newest-first list and stopping at ten keeps the promise above |
| `CommandStore.UnitOfWork.BootstrapAttempt` | apps/api/app/modules/commands/service.py:888-1060 | assigns the rows and commits exactly as the specified bootstrap, with the same refusals |
| `CommandStore.UnitOfWork.GetOrCreateJobRun` | apps/api/app/modules/commands/on_demand_read_runtime_handoff.py:495-549 | commits a job run linked to the attempt with a copy of the command's dictionary, or keeps the consistent one |
| `CommandStore.UnitOfWork.PersistEnvelope` | apps/api/app/modules/commands/on_demand_read_runtime_handoff.py:552-629 | pins the executor in all three rows or refuses another one |
| `CommandStore.UnitOfWork.LeaseWorkItem` | apps/api/app/runtime/services/runtime_execution_lease.py:24-96 | keeps an active lease of the executor, refuses another's, renews an expired one |
| `CommandStore.UnitOfWork.GateInvocation` | apps/api/app/runtime/services/runtime_execution_invocation.py:27-98 | requires an active lease and gates the invocation until it expires |
| `CommandStore.UnitOfWork.EnsureGuard` | apps/api/app/modules/commands/on_demand_read_runtime_handoff.py:632-680 | keeps a guard with matching records whatever its expiry, otherwise builds one bounded by lease and gate |
| `CommandStore.UnitOfWork.StartSession` | apps/api/app/runtime/services/runtime_execution_session.py:37-100 | opens, bounds or replaces the session under its prerequisites |
| `CommandStore.UnitOfWork.FinalizeSession` | apps/api/app/runtime/services/runtime_execution_session.py:158-223 | finalizes an active session under valid prerequisites |
| `CommandStore.UnitOfWork.RecordOutcome` | apps/api/app/runtime/services/runtime_execution_session.py:226-304 | records the outcome checkpoint of the finalized session |
| `CommandStore.UnitOfWork.RecordBridge` | apps/api/app/runtime/services/runtime_attempt_disposition.py:72-198 | records the next bridge; the first also ends the three rows |
| `CommandStore.UnitOfWork.RunBridges` | apps/api/app/modules/commands/on_demand_read_runtime_handoff.py:726-887 | the bridges in order, stopping at the first refusal, are the specified rest of the chain |
| `CommandStore.UnitOfWork.ExecuteAdapter` | apps/api/app/runtime/services/runtime_on_demand_read.py:55-260 | replays a recorded result, or calls the meter once and commits its result as a second durable step |
| `CommandStore.UnitOfWork.HandOffToRuntime` | apps/api/app/modules/commands/on_demand_read_runtime_handoff.py:106-326 | leaves the same sequence of durable states, and the same refusal, as the specified handoff; from a sound state the call leaves at most one adapter call and three rows that ended together or not at all, at one time and with one outcome |
| `CommandStore.UnitOfWork.TerminalizeExecution` | apps/api/app/modules/commands/on_demand_read_runtime_terminalization.py:41-134 | replays, refuses or settles as specified; from a sound state the call leaves at most one adapter call and three rows that ended together or not at all, at one time and with one outcome |
| `CommandStore.UnitOfWork.ApplyTerminalState` | apps/api/app/modules/commands/on_demand_read_runtime_terminalization.py:326-367 | assigns final status, end time, error fields and dictionaries of the three rows together |
| `CommandStore.UnitOfWork.OrchestrateExecution` | apps/api/app/modules/commands/on_demand_read_execution_orchestration.py:43-170 | leaves the same sequence of durable states as the specified orchestration; from a sound state the call leaves at most one adapter call and three rows that ended together or not at all, at one time and with one outcome |
| `CommandStore.UnitOfWork.ExecuteDirectlyNow` | apps/api/app/modules/commands/profile_capture_execute_now.py:32-109 | leaves the same sequence of durable states as the specified direct route; from a sound state the call leaves at most one adapter call and three rows that ended together or not at all, at one time and with one outcome |
| `CommandStore.UnitOfWork.RunOperation` | apps/api/app/modules/commands/on_demand_read_runtime_handoff.py:177-292 | any operation of either family in a session of its own leaves the specified run; from a sound state each durable state follows lawfully from the one before and the rows end together |
| `CommandStore.UnitOfWork.CommitEnqueue` | apps/api/app/modules/commands/on_demand_read_queued_execution.py:89-113 | queues the command and stores the enqueue artifact in one commit |
| `CommandStore.UnitOfWork.MarkQueuedNow` | apps/api/app/modules/commands/on_demand_read_queued_execute_now.py:43-82 | stores the marker of the matching enqueue on the command, once |
| `CommandStore.UnitOfWork.RecordConsumption` | apps/api/app/modules/commands/on_demand_read_queued_execution.py:209-239 | stores a consumption record built from the status readback in all rows |
| `CommandStore.UnitOfWork.CancelCommand` | apps/api/app/modules/jobs/service.py:405-429 | cancels exactly from the cancellable statuses |
| `QueueWorker.EnqueueExecution` | apps/api/app/modules/commands/on_demand_read_queued_execution.py:59-132 | adds one message and then commits exactly when eligible; a replay or refusal adds none and changes nothing |
| `QueueWorker.ConsumeClaimed` | apps/api/app/modules/commands/profile_capture_queued_execution.py:155-236 | with the rows of the command the message names: a refused consumption leaves the message pending; a completed one orchestrates, acknowledges and records, in this order |
| `QueueWorker.ConsumeNext` | apps/api/app/modules/commands/on_demand_read_queued_execution.py:135-265 | the oldest undelivered message is claimed, and broker and rows end where the events claim, work, acknowledge and record lead: it completes if and only if the message is of the worker's family and deliverable, and the command is then terminal with its whole artifact set and this worker's consumption record |
| `QueueWorker.CallOperation` | apps/api/app/modules/commands/on_demand_read_execution_orchestration.py:43-170 | an operation on the stored rows leads where its call event leads, so the theorems about event sequences hold of the imperative form |
| `QueueWorker.CallEnqueue` | apps/api/app/modules/commands/on_demand_read_queued_execution.py:59-132 | likewise an enqueue and its two events, adding the message and committing; it is answered exactly when not rejected |
| `QueueWorker.Broker.ClaimNext` | apps/api/app/runtime/services/redis_queue_consume.py:25-116 | delivers the oldest undelivered entry to the consumer, or nothing if there is none |
| `QueueWorker.Broker.Acknowledge` | apps/api/app/runtime/services/redis_queue_completion.py:22-70 | acknowledges exactly the entries the consumer holds |
| `QueueWorker.Broker.Recover` | apps/api/app/runtime/services/redis_queue_recovery.py:71-159 | hands a pending entry to another consumer and nothing else |
| `QueueWorker.Broker.Release` | apps/api/app/runtime/services/redis_queue_completion.py:73-136 | requeues one copy and closes the original in one step |

## Left out

- Clock movement inside one operation: each operation reads the clock once; an expiry that passes in the middle of one leaves the same durable states as a crash followed by a refused call.
- Two operations on one command at the same time: the code takes no row locks, so calls on one command are assumed not to overlap, except that a worker may run between an enqueue's stream entry and its commit, and other calls may run between a worker's orchestration, acknowledgement and record.
- The runtime services' own endpoints (lease, session heartbeat, bridges, direct acknowledgement and the like): here they are called only by the handoff and the worker; a direct acknowledgement through its endpoint would not carry the guarantee of `WorldTheorems.AckSafety`.
- Relay-control commands: a third instance of the same plan; only the names its readback searches for and its family in the operational list are modelled.
- Job and worker code that moves command statuses on its own (scheduling, retry, legacy workers), and administrative status transitions other than cancellation.
- Contents of artifacts beyond identifiers, executors, outcomes, categories, expiries, statuses and reuse flags: snapshots, readings, summaries of bridges, trace references, start times; the envelope's different key on the attempt is the same slot.
- Payload and endpoint validation: one flag for the command's payload and one for endpoint and protocol links at the time of a call; submission is the creation of a fresh pending command.
- The checks of runtime services that cannot fail for rows written by this plan, such as references to missing rows or malformed timestamps.
- The profile-capture backfill of digest and terminal status for an already recorded execution: with these operations the terminal status is always recorded with the execution.
- Redis and SQL mechanics: stream entries carry their consumer-group state; identifiers of entries are positions; stale-time thresholds of recovery are not modelled, so recovery may happen at any time.
- uuid5, printed identifiers, JSON text, ISO timestamps, lower-casing, stripping and password hashing: functions with the one law each proof needs.
- ClaimTokens.NormalizeFixes: stripping and lower-casing are any functions that leave strings of allowed characters alone, because Unicode case folding is not modelled.
- AccessBootstrap.AccessControl.Bootstrap: role names, descriptions and permission texts are not compared, because the source never updates them.
- QueueWorker.CallOperation: a call of the imperative form runs to its end; a crash after one of its commits is an event of `World` and has no imperative counterpart.
- OperationalList.RecentListIsNewest: the further filters by meter and by approval status are not modelled, because they only narrow the set of selected commands.
- AttentionQueue.BuildAttentionQueue: times are parsed instants, because rows with unparsable times have no defined order; labels and details are not modelled.
- FastAPI routers, request schemas, audit writes, pages, migrations and settings.
