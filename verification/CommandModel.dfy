/**
 The durable rows of one command: the command itself, its latest execution
 attempt and that attempt's job run, with the artifacts each row carries.
 A row's JSON dictionary is a `Ledger`: one slot per artifact key.
 */
module CommandModel {
  import opened Wrappers

  type Time = nat

  datatype Family = OnDemandRead | ProfileCapture

  datatype Category =
    | RemoteDisconnect
    | RemoteReconnect
    | OnDemandReading
    | ClockSync
    | ProfileCapturing
    | ConnectivityTest
    | ConfigPush

  function CategoryOf(f: Family): Category {
    match f
    case OnDemandRead => OnDemandReading
    case ProfileCapture => ProfileCapturing
  }

  datatype CommandStatus =
    | CmdPending | CmdScheduled | CmdQueued | CmdInProgress | CmdRetryWait
    | CmdSucceeded | CmdFailed | CmdCancelled | CmdTimedOut

  datatype AttemptStatus =
    | AttStarted | AttRunning | AttSucceeded | AttFailed | AttCancelled | AttTimedOut

  datatype JobStatus =
    | JobRunning | JobSucceeded | JobFailed | JobCancelled | JobTimedOut

  /** The three outcomes a terminalization can name. */
  datatype Final = FinalSucceeded | FinalFailed | FinalTimedOut

  function CommandFinal(x: Final): CommandStatus {
    match x case FinalSucceeded => CmdSucceeded case FinalFailed => CmdFailed case FinalTimedOut => CmdTimedOut
  }

  function AttemptFinal(x: Final): AttemptStatus {
    match x case FinalSucceeded => AttSucceeded case FinalFailed => AttFailed case FinalTimedOut => AttTimedOut
  }

  function JobFinal(x: Final): JobStatus {
    match x case FinalSucceeded => JobSucceeded case FinalFailed => JobFailed case FinalTimedOut => JobTimedOut
  }

  predicate TerminalCommand(s: CommandStatus) {
    s == CmdSucceeded || s == CmdFailed || s == CmdCancelled || s == CmdTimedOut
  }

  /** The transition table every status change of a command goes through. */
  predicate AllowedTransition(from: CommandStatus, to: CommandStatus) {
    match from
    case CmdPending => to in {CmdScheduled, CmdQueued, CmdInProgress, CmdCancelled, CmdTimedOut}
    case CmdScheduled => to in {CmdQueued, CmdInProgress, CmdCancelled, CmdTimedOut}
    case CmdQueued => to in {CmdInProgress, CmdCancelled, CmdTimedOut}
    case CmdInProgress => to in {CmdRetryWait, CmdSucceeded, CmdFailed, CmdTimedOut}
    case CmdRetryWait => to in {CmdInProgress, CmdQueued, CmdCancelled, CmdTimedOut}
    case _ => false
  }

  datatype RuntimeOutcome = OutSucceeded | OutFailed | OutTimedOut | OutCancelled | OutPartial

  datatype TerminalCategory =
    | Acknowledged | RejectedByMeter | Unavailable | UnusableResponse
    | BlockedPreInvocation | BlockedMidPipeline

  // ---- artifacts ----

  datatype Bootstrap = Bootstrap(identifier: string, at: Time)

  datatype Envelope = Envelope(worker: string, handoffIdentifier: string)

  datatype Lease = Lease(recordId: string, executor: string, expiresAt: Time)

  datatype Gate = Gate(recordId: string, leaseRecordId: string, executor: string, expiresAt: Time)

  datatype Guard = Guard(executor: string, leaseRecordId: string, gateRecordId: string, expiresAt: Time)

  datatype ExecSession = ExecSession(identifier: string, executor: string, expiresAt: Time, finalizedBy: Option<string>)

  /** What a runtime service records for one session and one executor: the outcome
      checkpoint and each of the bridge artifacts have this shape. */
  datatype Checkpoint = Checkpoint(sessionIdentifier: string, executor: string)

  datatype Execution = Execution(
    recordId: string, sessionIdentifier: string, executor: string,
    commandId: string, attemptId: string, jobRunId: string,
    outcome: RuntimeOutcome, accepted: bool, billingCompleted: bool,
    errorDetail: Option<string>, summary: string)

  datatype TerminalStatus = TerminalStatus(
    recordId: string, attemptId: string, sessionIdentifier: string,
    category: TerminalCategory, summary: string)

  datatype Handoff = Handoff(
    identifier: string, executor: string, bootstrapIdentifier: string, jobRunId: string,
    recordId: string, sessionIdentifier: string,
    reusedHandoff: bool, reusedExecution: bool, at: Time)

  datatype Terminalization = Terminalization(
    identifier: string, executor: string, recordId: string,
    outcome: RuntimeOutcome, category: Option<TerminalCategory>,
    attemptFinal: AttemptStatus, commandFinal: CommandStatus, jobFinal: JobStatus,
    at: Time, reused: bool)

  datatype Orchestration = Orchestration(
    identifier: string, executor: string, recordId: string,
    terminalizationPresent: bool, at: Time, reused: bool)

  datatype ExecuteNow = ExecuteNow(
    identifier: string, recordId: string,
    outcome: Option<RuntimeOutcome>, category: Option<TerminalCategory>,
    orchestrationPresent: bool, terminalizationPresent: bool, at: Time, reused: bool)

  datatype Consumption = Consumption(
    worker: string, enqueueIdentifier: string, messageId: nat,
    recordId: Option<string>, outcome: Option<RuntimeOutcome>, category: Option<TerminalCategory>,
    orchestrationPresent: bool, terminalizationPresent: bool)

  datatype Enqueue = Enqueue(identifier: string, messageId: nat, at: Time, reused: bool)

  datatype QueuedNow = QueuedNow(identifier: string, messageId: nat, reusedEnqueue: bool, reused: bool)

  /** One row's artifact dictionary. Bridge artifacts are written under 17 keys in a
      fixed order, each requiring its predecessor, so they form a sequence. */
  datatype Ledger = Ledger(
    bootstrap: Option<Bootstrap>,
    envelope: Option<Envelope>,
    lease: Option<Lease>,
    gate: Option<Gate>,
    guard: Option<Guard>,
    session: Option<ExecSession>,
    outcome: Option<Checkpoint>,
    bridges: seq<Checkpoint>,
    execution: Option<Execution>,
    terminalStatus: Option<TerminalStatus>,
    handoff: Option<Handoff>,
    terminalization: Option<Terminalization>,
    orchestration: Option<Orchestration>,
    executeNow: Option<ExecuteNow>,
    consumption: Option<Consumption>,
    enqueue: Option<Enqueue>,
    queuedNow: Option<QueuedNow>)

  const EMPTY_LEDGER :=
      Ledger(None, None, None, None, None, None, None, [], None, None, None, None, None, None, None, None, None)

  const BRIDGES: nat := 17

  datatype Artifact =
    | EnvelopeArtifact(envelope: Envelope)
    | LeaseArtifact(lease: Lease)
    | GateArtifact(gate: Gate)
    | GuardArtifact(guard: Guard)
    | SessionArtifact(session: ExecSession)
    | OutcomeArtifact(outcome: Checkpoint)
    | BridgeArtifact(bridge: Checkpoint)
    | ExecutionArtifact(execution: Execution, terminalStatus: Option<TerminalStatus>)
    | HandoffArtifact(handoff: Handoff)
    | TerminalizationArtifact(terminalization: Terminalization)
    | OrchestrationArtifact(orchestration: Orchestration)
    | ExecuteNowArtifact(executeNow: ExecuteNow)
    | ConsumptionArtifact(consumption: Consumption)

  /** Merging one artifact into one dictionary; every artifact is written with its whole
      field set, so the source's nested merge replaces it (module Metadata). */
  function Put(l: Ledger, a: Artifact): Ledger {
    match a
    case EnvelopeArtifact(x) => l.(envelope := Some(x))
    case LeaseArtifact(x) => l.(lease := Some(x))
    case GateArtifact(x) => l.(gate := Some(x))
    case GuardArtifact(x) => l.(guard := Some(x))
    case SessionArtifact(x) => l.(session := Some(x))
    case OutcomeArtifact(x) => l.(outcome := Some(x))
    case BridgeArtifact(x) => l.(bridges := l.bridges + [x])
    case ExecutionArtifact(x, t) =>
      l.(execution := Some(x), terminalStatus := if t.Some? then t else l.terminalStatus)
    case HandoffArtifact(x) => l.(handoff := Some(x))
    case TerminalizationArtifact(x) => l.(terminalization := Some(x))
    case OrchestrationArtifact(x) => l.(orchestration := Some(x))
    case ExecuteNowArtifact(x) => l.(executeNow := Some(x))
    case ConsumptionArtifact(x) => l.(consumption := Some(x))
  }

  // ---- rows ----

  datatype Command = Command(
    id: string, category: Category, payloadValid: bool, status: CommandStatus,
    completedAt: Option<Time>, errorCode: Option<string>, errorMessage: Option<string>, summary: Ledger)

  datatype Attempt = Attempt(
    id: string, status: AttemptStatus, endedAt: Option<Time>, jobRunId: Option<string>,
    errorCode: Option<string>, errorMessage: Option<string>, metadata: Ledger)

  datatype JobRun = JobRun(
    id: string, commandId: string, status: JobStatus, completedAt: Option<Time>,
    errorCode: Option<string>, errorMessage: Option<string>, summary: Ledger)

  /** `attempt` is the attempt with the highest number, `earlier` the ones before it. */
  datatype Rows = Rows(command: Command, earlier: seq<Attempt>, attempt: Option<Attempt>, job: Option<JobRun>)

  /** One artifact written to the attempt, the command and, when there is one, the job run. */
  function PutAll(r: Rows, a: Artifact): Rows
    requires r.attempt.Some?
  {
    Rows(
      r.command.(summary := Put(r.command.summary, a)),
      r.earlier,
      Some(r.attempt.value.(metadata := Put(r.attempt.value.metadata, a))),
      if r.job.Some? then Some(r.job.value.(summary := Put(r.job.value.summary, a))) else None)
  }

  /** The attempt's dictionary; an absent attempt reads as an empty one. */
  function Meta(r: Rows): Ledger {
    if r.attempt.Some? then r.attempt.value.metadata else EMPTY_LEDGER
  }

  datatype Error =
    | IncompatibleCategory | AlreadyFinalized | NotEligible | PayloadInvalid | LinkInvalid
    | OtherIdentifier | OtherExecutor | MissingAttempt | MissingArtifact | InvalidTransition
    | Expired | MissingJobRun | Inconsistent | AdapterUnsupported | AdapterRaised
    | IncompatibleTerminalStatus | AlreadyQueued | NotClaimable

  /** The durable state of one command together with how often the meter adapter was called for it. */
  datatype Cell = Cell(rows: Rows, calls: nat)

  // ---- runs: an operation is the sequence of states it commits ----

  datatype Progress = Going | Refused(error: Error)

  /** `past` holds the earlier durable states in order, `cell` the latest one. A crash
      may stop an operation at any of them. */
  datatype Run = Run(past: seq<Cell>, cell: Cell, progress: Progress) {
    function History(): seq<Cell> { past + [cell] }
  }

  datatype Step = Refuse(error: Error) | Keep | Write(rows: Rows)

  function Begin(c: Cell): Run { Run([], c, Going) }

  function Fail(run: Run, e: Error): Run { run.(progress := Refused(e)) }

  /** One `session.commit()`; a refused run commits nothing more. */
  function Commit(run: Run, s: Step): Run {
    if run.progress.Refused? then run
    else match s
      case Refuse(e) => Fail(run, e)
      case Keep => run
      case Write(rows) => Run(run.past + [run.cell], run.cell.(rows := rows), Going)
  }
}
