/**
 The operations that drive one command: attempt bootstrap, terminalization,
 orchestration, execute-now and cancellation. Each is a `Run` over the rows.
 */
module CommandExecution {
  import opened Wrappers
  import opened CommandModel
  import opened RuntimeHandoff

  function BootstrapIdentifier(f: Family, orchestrationId: string): string {
    (if f == OnDemandRead then "on-demand-read-orchestrator:" else "profile-capture-orchestrator:") + orchestrationId
  }

  function ExecuteNowIdentifier(f: Family, commandId: string): string {
    (if f == OnDemandRead then "on-demand-read-execute-now:" else "profile-capture-execute-now:") + commandId
  }

  function ExecuteNowExecutor(f: Family): string {
    if f == OnDemandRead then "on_demand_read_execute_now" else "profile_capture_execute_now"
  }

  const DEFAULT_SECONDS: nat := 300

  // ---- bootstrap ----

  predicate ActiveAttempt(r: Rows) {
    && r.attempt.Some? && r.attempt.value.endedAt.None?
    && (r.attempt.value.status == AttStarted || r.attempt.value.status == AttRunning)
  }

  function NewAttempt(r: Rows, b: Bootstrap, attemptId: string): Rows {
    Rows(
      r.command.(status := CmdInProgress, completedAt := None, summary := r.command.summary.(bootstrap := Some(b))),
      if r.attempt.Some? then r.earlier + [r.attempt.value] else r.earlier,
      Some(Attempt(attemptId, AttStarted, None, None, None, None, EMPTY_LEDGER.(bootstrap := Some(b)))),
      None)
  }

  function BootstrapStep(f: Family, r: Rows, identifier: string, amb: Ambient): Step {
    if r.command.category != CategoryOf(f) then Refuse(IncompatibleCategory)
    else if TerminalCommand(r.command.status) then Refuse(NotEligible)
    else if !r.command.payloadValid then Refuse(PayloadInvalid)
    else if !amb.linkValid then Refuse(LinkInvalid)
    else if ActiveAttempt(r) then
      if Meta(r).bootstrap.None? then Refuse(MissingArtifact)
      else if Meta(r).bootstrap.value.identifier != identifier then Refuse(OtherIdentifier)
      else Keep
    else if r.attempt.Some? && Meta(r).bootstrap.Some? && r.attempt.value.endedAt.Some? then Refuse(AlreadyFinalized)
    else if !AllowedTransition(r.command.status, CmdInProgress) then Refuse(InvalidTransition)
    else Write(NewAttempt(r, Bootstrap(identifier, amb.now), amb.attemptId))
  }

  // ---- terminalization ----

  datatype Verdict =
    | Incompatible
    | Verdict(final: Final, errorCode: Option<string>, errorMessage: Option<string>)

  function OrElse(detail: Option<string>, fallback: string): string {
    if detail.Some? && detail.value != "" then detail.value else fallback
  }

  function OnDemandErrorCode(o: RuntimeOutcome): string {
    match o
    case OutSucceeded => "ON_DEMAND_READ_SUCCEEDED"
    case OutFailed => "ON_DEMAND_READ_FAILED"
    case OutTimedOut => "ON_DEMAND_READ_RUNTIME_TIMED_OUT"
    case OutCancelled => "ON_DEMAND_READ_CANCELLED"
    case OutPartial => "ON_DEMAND_READ_PARTIAL"
  }

  function CaptureErrorCode(c: TerminalCategory): string {
    match c
    case Acknowledged => "PROFILE_CAPTURE_ACKNOWLEDGED"
    case RejectedByMeter => "PROFILE_CAPTURE_REJECTED"
    case Unavailable => "PROFILE_CAPTURE_UNAVAILABLE"
    case UnusableResponse => "PROFILE_CAPTURE_UNUSABLE_RESPONSE"
    case BlockedPreInvocation => "PROFILE_CAPTURE_BLOCKED_PRE_INVOCATION"
    case BlockedMidPipeline => "PROFILE_CAPTURE_BLOCKED_MID_PIPELINE"
  }

  function OnDemandVerdict(x: Execution): Verdict {
    if x.outcome == OutSucceeded && x.accepted && x.billingCompleted then Verdict(FinalSucceeded, None, None)
    else
      var message := OrElse(x.errorDetail, x.summary);
      if x.outcome == OutTimedOut then Verdict(FinalTimedOut, Some(OnDemandErrorCode(OutTimedOut)), Some(message))
      else Verdict(FinalFailed, Some(OnDemandErrorCode(x.outcome)), Some(message))
  }

  function CaptureVerdict(x: Execution, t: TerminalStatus): Verdict {
    if x.outcome == OutSucceeded then
      if t.category != Acknowledged then Incompatible else Verdict(FinalSucceeded, None, None)
    else
      var message := OrElse(x.errorDetail, OrElse(Some(t.summary), x.summary));
      if x.outcome == OutTimedOut then Verdict(FinalTimedOut, Some("PROFILE_CAPTURE_RUNTIME_TIMED_OUT"), Some(message))
      else Verdict(FinalFailed, Some(CaptureErrorCode(t.category)), Some(message))
  }

  function VerdictOf(f: Family, m: Ledger): Verdict
    requires m.execution.Some? && (f == ProfileCapture ==> m.terminalStatus.Some?)
  {
    if f == OnDemandRead then OnDemandVerdict(m.execution.value)
    else CaptureVerdict(m.execution.value, m.terminalStatus.value)
  }

  function TerminalizationRefusal(f: Family, r: Rows, executor: string): Option<Error> {
    var m := Meta(r);
    if r.attempt.None? then Some(MissingAttempt)
    else if m.handoff.None? || m.execution.None? then Some(MissingArtifact)
    else if f == ProfileCapture && m.terminalStatus.None? then Some(MissingArtifact)
    else if r.attempt.value.jobRunId.None? then Some(MissingJobRun)
    else if m.handoff.value.executor != executor then Some(OtherExecutor)
    else if m.execution.value.commandId != r.command.id || m.execution.value.attemptId != r.attempt.value.id
            || m.execution.value.jobRunId != r.attempt.value.jobRunId.value then Some(Inconsistent)
    else if m.execution.value.executor != executor then Some(OtherExecutor)
    else if f == ProfileCapture
            && (m.terminalStatus.value.recordId != m.execution.value.recordId
                || m.terminalStatus.value.attemptId != r.attempt.value.id
                || m.terminalStatus.value.sessionIdentifier != m.execution.value.sessionIdentifier)
            then Some(Inconsistent)
    else if m.handoff.value.recordId != m.execution.value.recordId then Some(Inconsistent)
    else if VerdictOf(f, m).Incompatible? then Some(IncompatibleTerminalStatus)
    else None
  }

  /** The three rows in their final state; the job run takes over the command's dictionary. */
  function Settle(f: Family, r: Rows, t: Terminalization, v: Verdict): Rows
    requires r.attempt.Some? && v.Verdict?
  {
    var summary := Put(r.command.summary, TerminalizationArtifact(t));
    Rows(
      r.command.(status := CommandFinal(v.final), completedAt := Some(t.at),
                 errorCode := v.errorCode, errorMessage := v.errorMessage, summary := summary),
      r.earlier,
      Some(r.attempt.value.(status := AttemptFinal(v.final), endedAt := Some(t.at), errorCode := v.errorCode,
                            errorMessage := v.errorMessage,
                            metadata := Put(r.attempt.value.metadata, TerminalizationArtifact(t)))),
      if r.job.None? then None
      else Some(r.job.value.(status := JobFinal(v.final), completedAt := Some(t.at), commandId := r.command.id,
                             errorCode := v.errorCode, errorMessage := v.errorMessage, summary := summary)))
  }

  function TerminalizeStep(f: Family, r: Rows, identifier: string, executor: string, now: Time): Step {
    var m := Meta(r);
    if r.command.category != CategoryOf(f) then Refuse(IncompatibleCategory)
    else if m.terminalization.Some? then
      if m.terminalization.value.identifier != identifier then Refuse(OtherIdentifier)
      else if m.terminalization.value.executor != executor then Refuse(OtherExecutor)
      else Keep
    else if TerminalizationRefusal(f, r, executor).Some? then Refuse(TerminalizationRefusal(f, r, executor).value)
    else
      var v := VerdictOf(f, m);
      Write(Settle(f, r, Terminalization(
        identifier, executor, m.execution.value.recordId, m.execution.value.outcome,
        if f == ProfileCapture then Some(m.terminalStatus.value.category) else None,
        AttemptFinal(v.final), CommandFinal(v.final), JobFinal(v.final), now, false), v))
  }

  // ---- orchestration ----

  datatype OrchestrationRequest = OrchestrationRequest(identifier: string, executor: string, leaseSeconds: nat,
      sessionSeconds: nat)

  function OrchestrationRecordStep(r: Rows, req: OrchestrationRequest, now: Time): Step {
    var m := Meta(r);
    if r.attempt.None? || m.handoff.None? then Refuse(MissingArtifact)
    else Write(PutAll(r, OrchestrationArtifact(Orchestration(
      req.identifier, req.executor, m.handoff.value.recordId, m.terminalization.Some?, now, false))))
  }

  function HandoffRequest(req: OrchestrationRequest): Request {
    Request(req.identifier, req.executor, req.leaseSeconds, req.sessionSeconds)
  }

  /** Bootstrap, handoff, terminalization and orchestration record in order. */
  function OrchestrateBody(f: Family, run: Run, req: OrchestrationRequest, amb: Ambient): Run {
    var booted := Commit(run, BootstrapStep(f, run.cell.rows, BootstrapIdentifier(f, req.identifier), amb));
    var handed := HandoffOp(f, booted, HandoffRequest(req), amb);
    var settled := Commit(handed, TerminalizeStep(f, handed.cell.rows, req.identifier, req.executor, amb.now));
    Commit(settled, OrchestrationRecordStep(settled.cell.rows, req, amb.now))
  }

  function OrchestrateOp(f: Family, run: Run, req: OrchestrationRequest, amb: Ambient): Run {
    var r := run.cell.rows;
    var m := Meta(r);
    if run.progress.Refused? then run
    else if r.command.category != CategoryOf(f) then Fail(run, IncompatibleCategory)
    else if m.orchestration.Some? then
      if m.orchestration.value.identifier != req.identifier then Fail(run, OtherIdentifier)
      else if m.orchestration.value.executor != req.executor then Fail(run, OtherExecutor)
      else run
    else if r.attempt.Some? && r.attempt.value.endedAt.Some? then Fail(run, AlreadyFinalized)
    else if TerminalCommand(r.command.status) then Fail(run, NotEligible)
    else if !r.command.payloadValid then Fail(run, PayloadInvalid)
    else OrchestrateBody(f, run, req, amb)
  }

  // ---- execute now ----

  function NowRecordId(m: Ledger): string {
    if m.execution.Some? && m.execution.value.recordId != "" then m.execution.value.recordId
    else if m.orchestration.Some? then m.orchestration.value.recordId
    else ""
  }

  function NowOutcome(m: Ledger): Option<RuntimeOutcome> {
    if m.execution.Some? then Some(m.execution.value.outcome)
    else if m.terminalization.Some? then Some(m.terminalization.value.outcome)
    else None
  }

  function NowCategory(m: Ledger): Option<TerminalCategory> {
    if m.terminalStatus.Some? then Some(m.terminalStatus.value.category) else None
  }

  function ExecuteNowRecordStep(f: Family, r: Rows, now: Time): Step {
    var m := Meta(r);
    if r.attempt.None? then Refuse(MissingAttempt)
    else Write(PutAll(r, ExecuteNowArtifact(ExecuteNow(
      ExecuteNowIdentifier(f, r.command.id), NowRecordId(m),
      if f == OnDemandRead then NowOutcome(m) else None,
      if f == ProfileCapture then NowCategory(m) else None,
      m.orchestration.Some?, m.terminalization.Some?, now, false))))
  }

  function ExecuteNowRequest(f: Family, r: Rows): OrchestrationRequest {
    OrchestrationRequest(ExecuteNowIdentifier(f, r.command.id), ExecuteNowExecutor(f), DEFAULT_SECONDS, DEFAULT_SECONDS)
  }

  function ExecuteNowOp(f: Family, run: Run, amb: Ambient): Run {
    var r := run.cell.rows;
    var m := Meta(r);
    if run.progress.Refused? then run
    else if r.command.category != CategoryOf(f) then Fail(run, IncompatibleCategory)
    else if m.executeNow.Some? then
      (if m.executeNow.value.identifier != ExecuteNowIdentifier(f, r.command.id) then Fail(run, OtherIdentifier)
       else run)
    else
      var orchestrated := OrchestrateOp(f, run, ExecuteNowRequest(f, r), amb);
      Commit(orchestrated, ExecuteNowRecordStep(f, orchestrated.cell.rows, amb.now))
  }

  // ---- cancellation ----

  function CancelStep(r: Rows, reason: string, now: Time): Step {
    if r.command.status !in {CmdPending, CmdScheduled, CmdQueued, CmdRetryWait} then Refuse(NotEligible)
    else Write(r.(command := r.command.(
      status := CmdCancelled, completedAt := Some(now), errorMessage := Some(reason))))
  }

  // ---- every operation a caller can ask for ----

  datatype Operation =
    | BootstrapAttempt(identifier: string)
    | HandOff(request: Request)
    | Terminalize(settlement: string, executor: string)
    | Orchestrate(orchestration: OrchestrationRequest)
    | ExecuteDirectly
    | Cancel(reason: string)

  /** One call of one family's operation on one command. */
  function Perform(f: Family, op: Operation, c: Cell, amb: Ambient): Run {
    var run := Begin(c);
    match op
    case BootstrapAttempt(identifier) => Commit(run, BootstrapStep(f, c.rows, identifier, amb))
    case HandOff(req) => HandoffOp(f, run, req, amb)
    case Terminalize(settlement, executor) => Commit(run, TerminalizeStep(f, c.rows, settlement, executor, amb.now))
    case Orchestrate(req) => OrchestrateOp(f, run, req, amb)
    case ExecuteDirectly => ExecuteNowOp(f, run, amb)
    case Cancel(reason) => Commit(run, CancelStep(c.rows, reason, amb.now))
  }
}
