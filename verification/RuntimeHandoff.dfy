/**
 The runtime handoff: job run, execution envelope, lease, invocation gate, guard,
 session, outcome checkpoint, the 17 bridges, the adapter call and the handoff record.
 Every step reads the durable rows, refuses, keeps them, or commits a change.
 */
module RuntimeHandoff {
  import opened Wrappers
  import opened CommandModel

  datatype Request = Request(identifier: string, executor: string, leaseSeconds: nat, sessionSeconds: nat)

  /** What the meter adapter does when it is called. */
  datatype Reply =
    | Unsupported
    | Raised
    | Answered(outcome: RuntimeOutcome, accepted: bool, billingCompleted: bool,
               errorDetail: Option<string>, summary: string,
               category: TerminalCategory, statusSummary: string)

  /** Everything one operation takes from outside the rows: the clock reading, the state of
      the endpoint assignment and protocol profile, fresh identifiers, the adapter's reply. */
  datatype Ambient = Ambient(now: Time, linkValid: bool, attemptId: string, jobRunId: string, sessionId: string,
      reply: Reply)

  function LeaseRecordId(attemptId: string, executor: string): string {
    "runtime-execution-lease:" + attemptId + ":" + executor
  }

  function GateRecordId(attemptId: string, executor: string): string {
    "runtime-execution-invocation:" + attemptId + ":" + executor
  }

  function ExecutionRecordId(f: Family, attemptId: string, requestId: string): string {
    (if f == OnDemandRead then "runtime-on-demand-read:" else "runtime-profile-read:") + attemptId + ":" + requestId
  }

  function Min(a: Time, b: Time): Time { if a <= b then a else b }

  // ---- job run and envelope ----

  function JobRunStep(r: Rows, amb: Ambient): Step {
    if r.attempt.None? then Refuse(MissingAttempt)
    else if r.attempt.value.jobRunId.Some? then
      if r.job.None? then Refuse(MissingJobRun)
      else if r.job.value.commandId != r.command.id then Refuse(Inconsistent)
      else Keep
    else
      Write(r.(job := Some(JobRun(amb.jobRunId, r.command.id, JobRunning, None, None, None, r.command.summary)),
               attempt := Some(r.attempt.value.(jobRunId := Some(amb.jobRunId)))))
  }

  function EnvelopeStep(r: Rows, req: Request): Step {
    if r.attempt.None? then Refuse(MissingAttempt)
    else if r.job.None? then Refuse(MissingJobRun)
    else if r.job.value.summary.envelope.Some? then
      if r.job.value.summary.envelope.value.worker != req.executor then Refuse(OtherExecutor) else Keep
    else Write(PutAll(r, EnvelopeArtifact(Envelope(req.executor, req.identifier))))
  }

  // ---- lease, gate, guard ----

  /** Lease, gate and session steps work on a started attempt that is linked to a job run. */
  function AttemptRefusal(r: Rows): Option<Error> {
    if r.attempt.None? then Some(MissingAttempt)
    else if r.attempt.value.endedAt.Some? then Some(AlreadyFinalized)
    else if r.attempt.value.status != AttStarted then Some(NotEligible)
    else if r.attempt.value.jobRunId.None? || r.job.None? then Some(MissingJobRun)
    else None
  }

  function LeaseStep(r: Rows, req: Request, now: Time): Step {
    if AttemptRefusal(r).Some? then Refuse(AttemptRefusal(r).value)
    else if r.job.value.summary.envelope.None? then Refuse(MissingArtifact)
    else
      var lease := Meta(r).lease;
      if lease.Some? && lease.value.expiresAt > now then
        if lease.value.executor == req.executor then Keep else Refuse(OtherExecutor)
      else
        Write(PutAll(r, LeaseArtifact(
          Lease(LeaseRecordId(r.attempt.value.id, req.executor), req.executor, now + req.leaseSeconds))))
  }

  function GateStep(r: Rows, req: Request, now: Time): Step {
    if AttemptRefusal(r).Some? then Refuse(AttemptRefusal(r).value)
    else
      var m := Meta(r);
      if m.lease.None? then Refuse(MissingArtifact)
      else if m.lease.value.executor != req.executor then Refuse(OtherExecutor)
      else if m.lease.value.expiresAt <= now then Refuse(Expired)
      else if m.gate.Some? && m.gate.value.expiresAt > now then
        if m.gate.value.executor == req.executor then Keep else Refuse(OtherExecutor)
      else
        Write(PutAll(r, GateArtifact(Gate(
          GateRecordId(r.attempt.value.id, req.executor), m.lease.value.recordId, req.executor,
          m.lease.value.expiresAt))))
  }

  /** A guard with the same executor and record identifiers is kept whatever its expiry. */
  function GuardStep(r: Rows, req: Request, now: Time): Step {
    if r.attempt.None? then Refuse(MissingAttempt)
    else if r.job.None? then Refuse(MissingJobRun)
    else
      var m := Meta(r);
      if m.guard.Some? && m.lease.Some? && m.gate.Some? && m.guard.value.executor == req.executor
         && m.guard.value.leaseRecordId == m.lease.value.recordId
         && m.guard.value.gateRecordId == m.gate.value.recordId then Keep
      else if m.lease.None? then Refuse(MissingArtifact)
      else if m.lease.value.executor != req.executor then Refuse(OtherExecutor)
      else if m.lease.value.expiresAt <= now then Refuse(Expired)
      else if m.gate.None? then Refuse(MissingArtifact)
      else if m.gate.value.executor != req.executor then Refuse(OtherExecutor)
      else if m.gate.value.expiresAt <= now then Refuse(Expired)
      else if m.gate.value.leaseRecordId != m.lease.value.recordId then Refuse(Inconsistent)
      else
        Write(PutAll(r, GuardArtifact(Guard(
          req.executor, m.lease.value.recordId, m.gate.value.recordId,
          Min(m.lease.value.expiresAt, m.gate.value.expiresAt)))))
  }

  // ---- session and outcome checkpoint ----

  /** Lease, gate and guard all name this executor and each other. */
  predicate ContextMatches(m: Ledger, executor: string) {
    && m.lease.Some? && m.lease.value.executor == executor
    && m.gate.Some? && m.gate.value.executor == executor
    && m.gate.value.leaseRecordId == m.lease.value.recordId
    && m.guard.Some? && m.guard.value.executor == executor
    && m.guard.value.leaseRecordId == m.lease.value.recordId
    && m.guard.value.gateRecordId == m.gate.value.recordId
  }

  /** The earliest expiry of the three prerequisites, when they match and none has expired. */
  function PrerequisiteExpiry(m: Ledger, executor: string, now: Time): Option<Time> {
    if ContextMatches(m, executor)
       && m.lease.value.expiresAt > now && m.gate.value.expiresAt > now && m.guard.value.expiresAt > now
    then Some(Min(m.lease.value.expiresAt, Min(m.gate.value.expiresAt, m.guard.value.expiresAt)))
    else None
  }

  function SessionStartStep(r: Rows, req: Request, amb: Ambient): Step {
    var m := Meta(r);
    if m.session.Some? && m.session.value.executor != req.executor then Refuse(OtherExecutor)
    else if m.session.Some? && m.session.value.finalizedBy.Some? then Keep
    else if AttemptRefusal(r).Some? then Refuse(AttemptRefusal(r).value)
    else
      var until := PrerequisiteExpiry(m, req.executor, amb.now);
      if until.None? then Refuse(Expired)
      else if m.session.Some? && m.session.value.expiresAt > amb.now then
        var bounded := Min(m.session.value.expiresAt, until.value);
        if bounded == m.session.value.expiresAt then Keep
        else Write(PutAll(r, SessionArtifact(m.session.value.(expiresAt := bounded))))
      else
        var effective := Min(amb.now + req.sessionSeconds, until.value);
        if effective <= amb.now then Refuse(Expired)
        else Write(PutAll(r, SessionArtifact(ExecSession(amb.sessionId, req.executor, effective, None))))
  }

  function SessionFinalizeStep(r: Rows, req: Request, now: Time): Step {
    var m := Meta(r);
    if m.session.None? then Refuse(MissingArtifact)
    else if m.session.value.executor != req.executor then Refuse(OtherExecutor)
    else if m.session.value.finalizedBy.Some? then Keep
    else if AttemptRefusal(r).Some? then Refuse(AttemptRefusal(r).value)
    else if m.session.value.expiresAt <= now then Refuse(Expired)
    else if PrerequisiteExpiry(m, req.executor, now).None? then Refuse(Expired)
    else Write(PutAll(r, SessionArtifact(m.session.value.(finalizedBy := Some(req.executor)))))
  }

  predicate SessionFinalized(m: Ledger, executor: string) {
    m.session.Some? && m.session.value.executor == executor && m.session.value.finalizedBy == Some(executor)
  }

  function OutcomeStep(r: Rows, req: Request): Step {
    var m := Meta(r);
    if AttemptRefusal(r).Some? then Refuse(AttemptRefusal(r).value)
    else if !SessionFinalized(m, req.executor) then Refuse(MissingArtifact)
    else if !ContextMatches(m, req.executor) then Refuse(Inconsistent)
    else
      var mine := Checkpoint(m.session.value.identifier, req.executor);
      if m.outcome.Some? then (if m.outcome.value == mine then Keep else Refuse(OtherExecutor))
      else Write(PutAll(r, OutcomeArtifact(mine)))
  }

  // ---- bridges ----

  /** The first bridge records the attempt disposition. The handoff always checkpoints the
      outcome "completed", which the disposition maps to succeeded: it ends the attempt and
      makes attempt, command and job run succeeded before the meter has been called. */
  function Dispose(r: Rows, now: Time): Rows
    requires r.attempt.Some? && r.job.Some?
  {
    r.(attempt := Some(r.attempt.value.(
         status := AttSucceeded, endedAt := Some(now), errorCode := None, errorMessage := None)),
       command := r.command.(status := CmdSucceeded, completedAt := Some(now)),
       job := Some(r.job.value.(status := JobSucceeded, completedAt := Some(now), commandId := r.command.id,
                                errorCode := None, errorMessage := None)))
  }

  function BridgeStep(k: nat, r: Rows, req: Request, now: Time): Step {
    var m := Meta(r);
    if r.attempt.None? then Refuse(MissingAttempt)
    else if r.attempt.value.jobRunId.None? || r.job.None? then Refuse(MissingJobRun)
    else if m.session.None? then Refuse(MissingArtifact)
    else
      var mine := Checkpoint(m.session.value.identifier, req.executor);
      if k < |m.bridges| then (if m.bridges[k] == mine then Keep else Refuse(OtherExecutor))
      else if !SessionFinalized(m, req.executor) then Refuse(MissingArtifact)
      else if m.outcome != Some(mine) then Refuse(MissingArtifact)
      else if k != |m.bridges| then Refuse(MissingArtifact)
      else if !(forall i :: 0 <= i < |m.bridges| ==> m.bridges[i] == mine) then Refuse(OtherExecutor)
      else if !ContextMatches(m, req.executor) then Refuse(Inconsistent)
      else if k > 0 then Write(PutAll(r, BridgeArtifact(mine)))
      else if r.attempt.value.endedAt.Some? then Refuse(AlreadyFinalized)
      else if !AllowedTransition(r.command.status, CmdSucceeded) then Refuse(InvalidTransition)
      else Write(PutAll(Dispose(r, now), BridgeArtifact(mine)))
  }

  // ---- the chain of runtime services before the adapter ----

  const CHAIN: nat := 8 + BRIDGES

  function ChainStep(i: nat, r: Rows, req: Request, amb: Ambient): Step
    requires i < CHAIN
  {
    match i
    case 0 => JobRunStep(r, amb)
    case 1 => EnvelopeStep(r, req)
    case 2 => LeaseStep(r, req, amb.now)
    case 3 => GateStep(r, req, amb.now)
    case 4 => GuardStep(r, req, amb.now)
    case 5 => SessionStartStep(r, req, amb)
    case 6 => SessionFinalizeStep(r, req, amb.now)
    case 7 => OutcomeStep(r, req)
    case _ => BridgeStep(i - 8, r, req, amb.now)
  }

  function Chain(i: nat, run: Run, req: Request, amb: Ambient): Run
    requires i <= CHAIN
    decreases CHAIN - i
  {
    if i == CHAIN || run.progress.Refused? then run
    else Chain(i + 1, Commit(run, ChainStep(i, run.cell.rows, req, amb)), req, amb)
  }

  lemma {:induction false} RefusedStays(i: nat, run: Run, req: Request, amb: Ambient)
    requires i <= CHAIN && run.progress.Refused?
    ensures Chain(i, run, req, amb) == run
  {
  }

  // ---- adapter and handoff record ----

  predicate AdapterReady(m: Ledger, executor: string) {
    && SessionFinalized(m, executor)
    && m.outcome == Some(Checkpoint(m.session.value.identifier, executor))
    && |m.bridges| == BRIDGES
    && (forall i :: 0 <= i < |m.bridges| ==> m.bridges[i] == Checkpoint(m.session.value.identifier, executor))
    && ContextMatches(m, executor)
  }

  function ExecutionOf(f: Family, r: Rows, req: Request, reply: Reply): Execution
    requires r.attempt.Some? && r.attempt.value.jobRunId.Some? && Meta(r).session.Some? && reply.Answered?
  {
    Execution(ExecutionRecordId(f, r.attempt.value.id, req.identifier), Meta(r).session.value.identifier, req.executor,
              r.command.id, r.attempt.value.id, r.attempt.value.jobRunId.value,
              reply.outcome, reply.accepted, reply.billingCompleted, reply.errorDetail, reply.summary)
  }

  function TerminalStatusOf(f: Family, x: Execution, reply: Reply): Option<TerminalStatus>
    requires reply.Answered?
  {
    if f == OnDemandRead then None
    else Some(TerminalStatus(x.recordId, x.attemptId, x.sessionIdentifier, reply.category, reply.statusSummary))
  }

  /** The adapter call and the commit of its result are two steps: a crash may fall between. */
  function AdapterCall(f: Family, run: Run, req: Request, amb: Ambient): Run {
    var r := run.cell.rows;
    var m := Meta(r);
    if run.progress.Refused? then run
    else if r.attempt.None? then Fail(run, MissingAttempt)
    else if r.attempt.value.jobRunId.None? || r.job.None? then Fail(run, MissingJobRun)
    else if m.session.None? then Fail(run, MissingArtifact)
    else if m.execution.Some? then
      (if m.execution.value.sessionIdentifier != m.session.value.identifier
       || m.execution.value.executor != req.executor
       then Fail(run, OtherExecutor) else run)
    else if !AdapterReady(m, req.executor) then Fail(run, MissingArtifact)
    else if amb.reply.Unsupported? then Fail(run, AdapterUnsupported)
    else
      var called := Run(run.past + [run.cell], run.cell.(calls := run.cell.calls + 1), Going);
      if amb.reply.Raised? then Fail(called, AdapterRaised)
      else
        var x := ExecutionOf(f, r, req, amb.reply);
        Commit(called, Write(PutAll(r, ExecutionArtifact(x, TerminalStatusOf(f, x, amb.reply)))))
  }

  function HandoffRecordStep(r: Rows, req: Request, now: Time, reusedHandoff: bool, reusedExecution: bool): Step {
    var m := Meta(r);
    if r.attempt.None? then Refuse(MissingAttempt)
    else if r.job.None? || m.session.None? || m.bootstrap.None? then Refuse(MissingArtifact)
    else if m.execution.None? then Refuse(MissingArtifact)
    else Write(PutAll(r, HandoffArtifact(Handoff(
      req.identifier, req.executor, m.bootstrap.value.identifier, r.job.value.id,
      m.execution.value.recordId, m.session.value.identifier, reusedHandoff, reusedExecution, now))))
  }

  /** Why a handoff that has nothing to replay is refused before its first step. */
  function HandoffRefusal(r: Rows, amb: Ambient): Option<Error> {
    if TerminalCommand(r.command.status) then Some(NotEligible)
    else if !r.command.payloadValid then Some(PayloadInvalid)
    else if !amb.linkValid then Some(LinkInvalid)
    else if r.attempt.None? || r.attempt.value.endedAt.Some? then Some(MissingAttempt)
    else if Meta(r).bootstrap.None? then Some(MissingArtifact)
    else if r.attempt.value.status != AttStarted then Some(NotEligible)
    else if Meta(r).handoff.None? && Meta(r).execution.Some? then Some(Inconsistent)
    else None
  }

  /** The steps after the checks, ending in the handoff record. */
  function HandoffBody(f: Family, run: Run, req: Request, amb: Ambient): Run {
    var chained := Chain(0, run, req, amb);
    var recorded := Meta(chained.cell.rows).execution.Some?;
    var executed := AdapterCall(f, chained, req, amb);
    Commit(executed, HandoffRecordStep(executed.cell.rows, req, amb.now, Meta(run.cell.rows).handoff.Some?, recorded))
  }

  function HandoffOp(f: Family, run: Run, req: Request, amb: Ambient): Run {
    var r := run.cell.rows;
    var m := Meta(r);
    if run.progress.Refused? then run
    else if r.command.category != CategoryOf(f) then Fail(run, IncompatibleCategory)
    else if m.handoff.Some? && m.handoff.value.identifier != req.identifier then Fail(run, OtherIdentifier)
    else if m.handoff.Some? && m.handoff.value.executor != req.executor then Fail(run, OtherExecutor)
    else if m.handoff.Some? && m.execution.Some? then
      (if r.attempt.value.jobRunId.None? || r.job.None? then Fail(run, MissingJobRun) else run)
    else if HandoffRefusal(r, amb).Some? then Fail(run, HandoffRefusal(r, amb).value)
    else HandoffBody(f, run, req, amb)
  }

  lemma HandoffStaysRefused(f: Family, run: Run, req: Request, amb: Ambient)
    requires run.progress.Refused?
    ensures HandoffOp(f, run, req, amb) == run
  {
  }
}
