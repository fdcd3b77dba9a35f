/**
 The runtime services one by one: exactly when each of them writes, keeps or refuses, for any rows
 whatever, and what a write leaves. Their own endpoints meet rows the handoff never presents.
 */
module Services {
  import opened Wrappers
  import opened CommandModel
  import opened RuntimeHandoff
  import opened CommandExecution

  /** The attempt has started, has not ended and is linked to a job run. */
  ghost predicate Running(r: Rows) {
    && r.attempt.Some? && r.job.Some? && r.attempt.value.jobRunId.Some?
    && r.attempt.value.status == AttStarted && r.attempt.value.endedAt.None?
  }

  ghost predicate LeaseHeld(m: Ledger, executor: string) {
    m.lease.Some? && m.lease.value.executor == executor
  }

  ghost predicate LeaseLives(m: Ledger, now: Time) { m.lease.Some? && now < m.lease.value.expiresAt }

  ghost predicate GateHeld(m: Ledger, executor: string) {
    m.gate.Some? && m.gate.value.executor == executor
  }

  ghost predicate GateLives(m: Ledger, now: Time) { m.gate.Some? && now < m.gate.value.expiresAt }

  ghost predicate GateNamesLease(m: Ledger) {
    m.gate.Some? && m.lease.Some? && m.gate.value.leaseRecordId == m.lease.value.recordId
  }

  ghost predicate GuardHeld(m: Ledger, executor: string) {
    m.guard.Some? && m.guard.value.executor == executor
  }

  ghost predicate GuardLives(m: Ledger, now: Time) { m.guard.Some? && now < m.guard.value.expiresAt }

  ghost predicate GuardNamesBoth(m: Ledger) {
    && m.guard.Some? && m.lease.Some? && m.gate.Some?
    && m.guard.value.leaseRecordId == m.lease.value.recordId && m.guard.value.gateRecordId == m.gate.value.recordId
  }

  /** Lease, gate and guard belong to the executor and refer to one another. */
  ghost predicate Consistent(m: Ledger, executor: string) {
    LeaseHeld(m, executor) && GateHeld(m, executor) && GuardHeld(m, executor) && GateNamesLease(m) && GuardNamesBoth(m)
  }

  ghost predicate AllLive(m: Ledger, now: Time) { LeaseLives(m, now) && GateLives(m, now) && GuardLives(m, now) }

  /** The time until which all three are good. */
  ghost predicate UntilAll(m: Ledger, t: Time)
    requires m.lease.Some? && m.gate.Some? && m.guard.Some?
  {
    && t <= m.lease.value.expiresAt && t <= m.gate.value.expiresAt && t <= m.guard.value.expiresAt
    && (t == m.lease.value.expiresAt || t == m.gate.value.expiresAt || t == m.guard.value.expiresAt)
  }

  ghost predicate Smaller(t: Time, a: Time, b: Time) { t <= a && t <= b && (t == a || t == b) }

  ghost predicate SessionHeld(m: Ledger, executor: string) {
    m.session.Some? && m.session.value.executor == executor
  }

  ghost predicate Finalized(m: Ledger) { m.session.Some? && m.session.value.finalizedBy.Some? }

  // ---- job run and envelope ----

  /** A job run is created for an attempt that names none; an attempt that names one needs it to be
      this command's. */
  lemma JobRunExactly(r: Rows, amb: Ambient)
    ensures var s := JobRunStep(r, amb);
            && (s.Write? <==> r.attempt.Some? && r.attempt.value.jobRunId.None?)
            && (s.Keep? <==> r.attempt.Some? && r.attempt.value.jobRunId.Some? && r.job.Some?
                             && r.job.value.commandId == r.command.id)
            && (s.Write? ==>
                  && s.rows == r.(attempt := s.rows.attempt, job := s.rows.job)
                  && s.rows.attempt == Some(r.attempt.value.(jobRunId := Some(amb.jobRunId)))
                  && s.rows.job == Some(JobRun(
                       id := amb.jobRunId, commandId := r.command.id, status := JobRunning, completedAt := None,
                       errorCode := None, errorMessage := None, summary := r.command.summary)))
  {
  }

  lemma EnvelopeExactly(r: Rows, req: Request)
    ensures var s := EnvelopeStep(r, req);
            && (s.Write? <==> r.attempt.Some? && r.job.Some? && r.job.value.summary.envelope.None?)
            && (s.Keep? <==> r.attempt.Some? && r.job.Some? && r.job.value.summary.envelope.Some?
                             && r.job.value.summary.envelope.value.worker == req.executor)
            && (s.Write? ==>
                  s.rows == PutAll(r, EnvelopeArtifact(Envelope(
                    worker := req.executor, handoffIdentifier := req.identifier))))
  {
  }

  // ---- lease, gate and guard ----

  /** A lease is granted to a running attempt with an envelope unless one is live; a live one is kept
      for its executor and refuses any other. */
  lemma LeaseExactly(r: Rows, req: Request, now: Time)
    ensures var s, m := LeaseStep(r, req, now), Meta(r);
            && (s.Write? <==> Running(r) && r.job.value.summary.envelope.Some? && !LeaseLives(m, now))
            && (s.Keep? <==> Running(r) && r.job.value.summary.envelope.Some? && LeaseLives(m, now)
                             && LeaseHeld(m, req.executor))
            && (s.Write? ==>
                  s.rows == PutAll(r, LeaseArtifact(Lease(
                    recordId := "runtime-execution-lease:" + r.attempt.value.id + ":" + req.executor,
                    executor := req.executor, expiresAt := now + req.leaseSeconds))))
  {
  }

  /** A gate needs the executor's live lease and lasts as long; a live one is kept for its executor. */
  lemma GateExactly(r: Rows, req: Request, now: Time)
    ensures var s, m := GateStep(r, req, now), Meta(r);
            && (s.Write? <==> Running(r) && LeaseHeld(m, req.executor) && LeaseLives(m, now) && !GateLives(m, now))
            && (s.Keep? <==> Running(r) && LeaseHeld(m, req.executor) && LeaseLives(m, now) && GateLives(m, now)
                             && GateHeld(m, req.executor))
            && (s.Write? ==>
                  s.rows == PutAll(r, GateArtifact(Gate(
                    recordId := "runtime-execution-invocation:" + r.attempt.value.id + ":" + req.executor,
                    leaseRecordId := m.lease.value.recordId, executor := req.executor,
                    expiresAt := m.lease.value.expiresAt))))
  {
  }

  /** A guard that names the executor's lease and gate is kept, live or not; otherwise one is written
      from a live lease and gate that refer to each other, until the earlier expiry. */
  lemma GuardExactly(r: Rows, req: Request, now: Time)
    ensures var s, m := GuardStep(r, req, now), Meta(r);
            && (s.Keep? <==> r.attempt.Some? && r.job.Some? && GuardHeld(m, req.executor) && GuardNamesBoth(m))
            && (s.Write? <==>
                  && r.attempt.Some? && r.job.Some? && !(GuardHeld(m, req.executor) && GuardNamesBoth(m))
                  && LeaseHeld(m, req.executor) && LeaseLives(m, now)
                  && GateHeld(m, req.executor) && GateLives(m, now) && GateNamesLease(m))
            && (s.Write? ==>
                  && Meta(s.rows).guard.Some? && s.rows == PutAll(r, GuardArtifact(Meta(s.rows).guard.value))
                  && Meta(s.rows).guard.value.executor == req.executor && GuardNamesBoth(Meta(s.rows))
                  && Smaller(Meta(s.rows).guard.value.expiresAt, m.lease.value.expiresAt, m.gate.value.expiresAt))
  {
  }

  // ---- session and outcome ----

  lemma ConsistentExactly(m: Ledger, executor: string, now: Time)
    ensures ContextMatches(m, executor) <==> Consistent(m, executor)
    ensures PrerequisiteExpiry(m, executor, now).Some? <==> Consistent(m, executor) && AllLive(m, now)
    ensures PrerequisiteExpiry(m, executor, now).Some? ==>
              && UntilAll(m, PrerequisiteExpiry(m, executor, now).value)
              && now < PrerequisiteExpiry(m, executor, now).value
  {
  }

  lemma RunningExactly(r: Rows)
    ensures AttemptRefusal(r).None? <==> Running(r)
  {
  }

  /** A session of another executor is refused and a finalized one kept. Any other needs a running
      attempt and consistent live prerequisites: a live one is bounded by them, and otherwise a new
      one lasts as requested or as long as they do. */
  lemma SessionStartExactly(r: Rows, req: Request, amb: Ambient)
    ensures var s, m := SessionStartStep(r, req, amb), Meta(r);
            var ready := Running(r) && Consistent(m, req.executor) && AllLive(m, amb.now);
            var live := m.session.Some? && amb.now < m.session.value.expiresAt;
            && (!s.Refuse? <==>
                  && (m.session.Some? ==> SessionHeld(m, req.executor))
                  && (Finalized(m) || (ready && (live || req.sessionSeconds > 0))))
            && (Finalized(m) && SessionHeld(m, req.executor) ==> s.Keep?)
            && (!s.Refuse? && !Finalized(m) ==>
                  var q := if s.Write? then s.rows else r;
                  && Meta(q).session.Some? && Meta(q).session.value.executor == req.executor
                  && Meta(q).session.value.finalizedBy.None?
                  && (s.Write? ==> q == PutAll(r, SessionArtifact(Meta(q).session.value)))
                  && (live ==> Meta(q).session.value.identifier == m.session.value.identifier)
                  && (!live ==> s.Write? && Meta(q).session.value.identifier == amb.sessionId)
                  && exists until :: UntilAll(m, until)
                       && Smaller(Meta(q).session.value.expiresAt,
                                  if live then m.session.value.expiresAt else amb.now + req.sessionSeconds, until))
  {
    hide ContextMatches, PrerequisiteExpiry, AttemptRefusal, Consistent, AllLive, UntilAll, Running;
    ConsistentExactly(Meta(r), req.executor, amb.now);
    RunningExactly(r);
  }

  lemma FinalizeExactly(r: Rows, req: Request, now: Time)
    ensures var s, m := SessionFinalizeStep(r, req, now), Meta(r);
            && (s.Keep? <==> SessionHeld(m, req.executor) && Finalized(m))
            && (s.Write? <==> SessionHeld(m, req.executor) && !Finalized(m) && Running(r)
                              && now < m.session.value.expiresAt && Consistent(m, req.executor) && AllLive(m, now))
            && (s.Write? ==>
                  s.rows == PutAll(r, SessionArtifact(m.session.value.(finalizedBy := Some(req.executor)))))
  {
    hide ContextMatches, PrerequisiteExpiry, AttemptRefusal, Consistent, AllLive, UntilAll, Running;
    ConsistentExactly(Meta(r), req.executor, now);
    RunningExactly(r);
  }

  /** The executor finalized its own session. */
  ghost predicate FinalizedBy(m: Ledger, executor: string) {
    SessionHeld(m, executor) && m.session.value.finalizedBy == Some(executor)
  }

  /** The record names this session and executor. */
  ghost predicate IsOf(x: Checkpoint, m: Ledger, executor: string) {
    m.session.Some? && x.sessionIdentifier == m.session.value.identifier && x.executor == executor
  }

  lemma OutcomeExactly(r: Rows, req: Request)
    ensures var s, m := OutcomeStep(r, req), Meta(r);
            var ready := Running(r) && FinalizedBy(m, req.executor) && Consistent(m, req.executor);
            && (s.Write? <==> ready && m.outcome.None?)
            && (s.Keep? <==> ready && m.outcome.Some? && IsOf(m.outcome.value, m, req.executor))
            && (s.Write? ==>
                  && Meta(s.rows).outcome.Some? && IsOf(Meta(s.rows).outcome.value, m, req.executor)
                  && s.rows == PutAll(r, OutcomeArtifact(Meta(s.rows).outcome.value)))
  {
    hide ContextMatches, PrerequisiteExpiry, AttemptRefusal, Consistent, Running;
    ConsistentExactly(Meta(r), req.executor, 0);
    RunningExactly(r);
  }

  // ---- bridges and adapter ----

  ghost predicate AllOf(m: Ledger, executor: string) {
    && m.outcome.Some? && IsOf(m.outcome.value, m, executor)
    && forall i :: 0 <= i < |m.bridges| ==> IsOf(m.bridges[i], m, executor)
  }

  /** A bridge that is there is kept for its session and executor. The next one is written on the
      outcome and bridges of the executor's finalized session with consistent prerequisites; the first
      also needs an attempt that has not ended and a command in progress. */
  lemma BridgeExactly(k: nat, r: Rows, req: Request, now: Time)
    ensures var s, m := BridgeStep(k, r, req, now), Meta(r);
            var linked := r.attempt.Some? && r.attempt.value.jobRunId.Some? && r.job.Some?;
            && (s.Keep? <==> linked && k < |m.bridges| && IsOf(m.bridges[k], m, req.executor))
            && (s.Write? <==>
                  && linked && k == |m.bridges| && FinalizedBy(m, req.executor) && AllOf(m, req.executor)
                  && Consistent(m, req.executor)
                  && (k == 0 ==> r.attempt.value.endedAt.None? && r.command.status == CmdInProgress))
            && (s.Write? ==>
                  && |Meta(s.rows).bridges| == k + 1 && IsOf(Meta(s.rows).bridges[k], m, req.executor)
                  && s.rows == PutAll(if k == 0 then Dispose(r, now) else r, BridgeArtifact(Meta(s.rows).bridges[k])))
  {
    hide ContextMatches, PrerequisiteExpiry, Consistent;
    ConsistentExactly(Meta(r), req.executor, 0);
    SucceededFromProgress(r.command.status);
    hide AllowedTransition;
  }

  lemma SucceededFromProgress(s: CommandStatus)
    ensures AllowedTransition(s, CmdSucceeded) <==> s == CmdInProgress
  {
  }

  /** The first bridge ends the three rows as succeeded. */
  lemma DisposeExactly(r: Rows, now: Time)
    requires r.attempt.Some? && r.job.Some?
    ensures var q := Dispose(r, now);
            && q.earlier == r.earlier && q.attempt.Some? && q.job.Some?
            && q.attempt.value == r.attempt.value.(
                 status := AttSucceeded, endedAt := Some(now), errorCode := None, errorMessage := None)
            && q.command == r.command.(status := CmdSucceeded, completedAt := Some(now))
            && q.job.value == r.job.value.(
                 status := JobSucceeded, completedAt := Some(now), commandId := r.command.id,
                 errorCode := None, errorMessage := None)
  {
  }

  /** The meter is called exactly when there is no result yet, all seventeen bridges stand on the
      executor's finalized session, the prerequisites are consistent and the adapter supports the
      request; a stored result goes on only for its own session and executor. */
  lemma AdapterExactly(f: Family, run: Run, req: Request, amb: Ambient)
    requires run.progress.Going?
    ensures var done, r, m := AdapterCall(f, run, req, amb), run.cell.rows, Meta(run.cell.rows);
            var linked := r.attempt.Some? && r.attempt.value.jobRunId.Some? && r.job.Some? && m.session.Some?;
            var calls := && linked && m.execution.None? && FinalizedBy(m, req.executor) && |m.bridges| == 17
                         && AllOf(m, req.executor) && Consistent(m, req.executor) && !amb.reply.Unsupported?;
            && done.cell.calls == run.cell.calls + (if calls then 1 else 0)
            && (done.progress.Going? <==>
                  || (calls && amb.reply.Answered?)
                  || (linked && m.execution.Some? && m.execution.value.sessionIdentifier == m.session.value.identifier
                      && m.execution.value.executor == req.executor))
            && (!calls ==> done.History() == run.History())
            && (calls ==> |done.History()| == |run.History()| + (if amb.reply.Answered? then 2 else 1))
  {
    hide ContextMatches, Consistent, PutAll, ExecutionOf, TerminalStatusOf;
    ConsistentExactly(Meta(run.cell.rows), req.executor, 0);
  }

  /** A handoff that replays nothing starts exactly on a live command with valid payload and links and
      a running bootstrapped attempt, unless a result without its handoff record is in the way. */
  lemma HandoffStartsExactly(r: Rows, amb: Ambient)
    ensures HandoffRefusal(r, amb).None? <==>
              && r.command.status in {CmdPending, CmdScheduled, CmdQueued, CmdInProgress, CmdRetryWait}
              && r.command.payloadValid && amb.linkValid
              && r.attempt.Some? && r.attempt.value.status == AttStarted && r.attempt.value.endedAt.None?
              && Meta(r).bootstrap.Some? && (Meta(r).execution.Some? ==> Meta(r).handoff.Some?)
  {
  }

  /** The handoff record is written exactly on a stored result of an attempt with job run, session and
      bootstrap. */
  lemma HandoffRecordExactly(r: Rows, req: Request, now: Time, reusedHandoff: bool, reusedExecution: bool)
    ensures var s, m := HandoffRecordStep(r, req, now, reusedHandoff, reusedExecution), Meta(r);
            && (s.Write? <==> r.attempt.Some? && r.job.Some? && m.session.Some? && m.bootstrap.Some?
                              && m.execution.Some?)
            && !s.Keep?
            && (s.Write? ==>
                  s.rows == PutAll(r, HandoffArtifact(Handoff(
                    identifier := req.identifier, executor := req.executor,
                    bootstrapIdentifier := m.bootstrap.value.identifier, jobRunId := r.job.value.id,
                    recordId := m.execution.value.recordId, sessionIdentifier := m.session.value.identifier,
                    reusedHandoff := reusedHandoff, reusedExecution := reusedExecution, at := now))))
  {
  }

  // ---- bootstrap and settlement ----

  /** An attempt is started exactly for a live command with valid payload and links that has no running
      attempt and no ended one of this plan; a running one is kept for its own identifier. */
  lemma BootstrapExactly(f: Family, r: Rows, identifier: string, amb: Ambient)
    ensures var s, m := BootstrapStep(f, r, identifier, amb), Meta(r);
            var open := && r.command.category == CategoryOf(f)
                        && r.command.status in {CmdPending, CmdScheduled, CmdQueued, CmdInProgress, CmdRetryWait}
                        && r.command.payloadValid && amb.linkValid;
            var active := && r.attempt.Some? && r.attempt.value.endedAt.None?
                          && r.attempt.value.status in {AttStarted, AttRunning};
            && (s.Keep? <==> open && active && m.bootstrap.Some? && m.bootstrap.value.identifier == identifier)
            && (s.Write? <==> open && !active && r.command.status != CmdInProgress
                              && !(r.attempt.Some? && r.attempt.value.endedAt.Some? && m.bootstrap.Some?))
            && (s.Write? ==>
                  var b := Bootstrap(identifier := identifier, at := amb.now);
                  && s.rows.command == r.command.(
                       status := CmdInProgress, completedAt := None,
                       summary := r.command.summary.(bootstrap := Some(b)))
                  && s.rows.attempt == Some(Attempt(
                       id := amb.attemptId, status := AttStarted, endedAt := None, jobRunId := None, errorCode := None,
                       errorMessage := None, metadata := EMPTY_LEDGER.(bootstrap := Some(b))))
                  && s.rows.job.None?
                  && s.rows.earlier == (if r.attempt.Some? then r.earlier + [r.attempt.value] else r.earlier))
  {
  }

  /** The stored result, its handoff and, for a capture, its terminal status belong to these rows and
      to this executor. */
  ghost predicate ResultMatches(f: Family, r: Rows, executor: string) {
    var m := Meta(r);
    && r.attempt.Some? && r.attempt.value.jobRunId.Some? && m.handoff.Some? && m.execution.Some?
    && m.handoff.value.executor == executor && m.execution.value.executor == executor
    && m.execution.value.commandId == r.command.id && m.execution.value.attemptId == r.attempt.value.id
    && m.execution.value.jobRunId == r.attempt.value.jobRunId.value
    && m.handoff.value.recordId == m.execution.value.recordId
    && (f == ProfileCapture ==>
          && m.terminalStatus.Some? && m.terminalStatus.value.recordId == m.execution.value.recordId
          && m.terminalStatus.value.attemptId == r.attempt.value.id
          && m.terminalStatus.value.sessionIdentifier == m.execution.value.sessionIdentifier)
  }

  /** A command is settled exactly once, by the executor its result belongs to, unless a capture
      succeeded without an acknowledgement; a settlement is kept for its own identifier and executor. */
  lemma TerminalizeExactly(f: Family, r: Rows, identifier: string, executor: string, now: Time)
    ensures var s, m := TerminalizeStep(f, r, identifier, executor, now), Meta(r);
            && (s.Keep? <==> r.command.category == CategoryOf(f) && m.terminalization.Some?
                             && m.terminalization.value.identifier == identifier
                             && m.terminalization.value.executor == executor)
            && (s.Write? <==>
                  && r.command.category == CategoryOf(f) && m.terminalization.None? && ResultMatches(f, r, executor)
                  && !(f == ProfileCapture && m.execution.value.outcome == OutSucceeded
                       && m.terminalStatus.value.category != Acknowledged))
  {
    hide Settle;
  }

  /** An orchestration record is written exactly on a handoff record. */
  lemma OrchestrationRecordExactly(r: Rows, req: OrchestrationRequest, now: Time)
    ensures var s, m := OrchestrationRecordStep(r, req, now), Meta(r);
            && (s.Write? <==> r.attempt.Some? && m.handoff.Some?) && !s.Keep?
            && (s.Write? ==>
                  s.rows == PutAll(r, OrchestrationArtifact(Orchestration(
                    identifier := req.identifier, executor := req.executor, recordId := m.handoff.value.recordId,
                    terminalizationPresent := m.terminalization.Some?, at := now, reused := false))))
  {
  }

  lemma CancelExactly(r: Rows, reason: string, now: Time)
    ensures var s := CancelStep(r, reason, now);
            && (s.Write? <==> r.command.status == CmdPending || r.command.status == CmdScheduled
                              || r.command.status == CmdQueued || r.command.status == CmdRetryWait)
            && !s.Keep?
            && (s.Write? ==> s.rows == r.(command := r.command.(
                               status := CmdCancelled, completedAt := Some(now), errorMessage := Some(reason))))
  {
  }

  /** Before anything else an orchestration is refused on another category, on a record of another name,
      on an ended attempt, on a terminal command and on an invalid payload; its own record is replayed. */
  lemma OrchestrateStartsExactly(f: Family, c: Cell, req: OrchestrationRequest, amb: Ambient)
    ensures var run, r, o := OrchestrateOp(f, Begin(c), req, amb), c.rows, Meta(c.rows).orchestration;
            && (r.command.category != CategoryOf(f) ==> run == Fail(Begin(c), IncompatibleCategory))
            && (r.command.category == CategoryOf(f) && o.Some? ==>
                  && run.History() == [c]
                  && (run.progress.Going? <==>
                        o.value.identifier == req.identifier && o.value.executor == req.executor))
            && (r.command.category == CategoryOf(f) && o.None?
                && ((r.attempt.Some? && r.attempt.value.endedAt.Some?) || !r.command.payloadValid
                    || r.command.status in {CmdSucceeded, CmdFailed, CmdCancelled, CmdTimedOut}) ==>
                  run.History() == [c] && run.progress.Refused?)
  {
    hide OrchestrateBody;
  }
}
