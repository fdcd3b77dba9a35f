/**
 What holds of a command's rows in every durable state, and how one commit may change them.
 */
module Invariants {
  import opened Wrappers
  import opened CommandModel
  import opened RuntimeHandoff
  import opened CommandExecution

  function FamilyOf(c: Category): Option<Family> {
    match c
    case OnDemandReading => Some(OnDemandRead)
    case ProfileCapturing => Some(ProfileCapture)
    case _ => None
  }

  // ---- before an attempt exists ----

  ghost predicate Untouched(r: Rows) {
    && r.job.None?
    && r.command.summary == EMPTY_LEDGER.(enqueue := r.command.summary.enqueue,
                                          queuedNow := r.command.summary.queuedNow)
    && (r.command.status == CmdCancelled
        || (r.command.errorCode.None? && r.command.errorMessage.None?
            && if r.command.summary.enqueue.Some? then r.command.status == CmdQueued
               else r.command.status in {CmdPending, CmdScheduled, CmdRetryWait}))
  }

  // ---- once an attempt exists ----

  /** The identifiers of the three rows. */
  datatype Ids = Ids(commandId: string, attemptId: string, jobRunId: Option<string>)

  function IdsOf(r: Rows): Ids
    requires r.attempt.Some?
  {
    Ids(r.command.id, r.attempt.value.id, r.attempt.value.jobRunId)
  }

  /** The three dictionaries are copies of one another, up to the two artifacts that
      only the command carries. */
  ghost predicate Mirrored(r: Rows)
    requires r.attempt.Some?
  {
    var m, s := Meta(r), r.command.summary;
    && m.enqueue.None? && m.queuedNow.None?
    && s == m.(enqueue := s.enqueue, queuedNow := s.queuedNow)
    && (r.job.Some? ==>
          var j := r.job.value.summary;
          && j == s.(queuedNow := j.queuedNow)
          && (j.queuedNow.None? || j.queuedNow == s.queuedNow))
  }

  /** Each artifact presupposes the ones written before it. */
  ghost predicate Chained(f: Family, m: Ledger) {
    && m.bootstrap.Some?
    && (m.lease.Some? ==> m.envelope.Some?)
    && (m.gate.Some? ==> m.lease.Some?)
    && (m.guard.Some? ==> m.gate.Some?)
    && (m.session.Some? ==> m.guard.Some?)
    && (m.outcome.Some? ==> m.session.Some? && m.session.value.finalizedBy.Some?)
    && (m.bridges != [] ==> m.outcome.Some?)
    && |m.bridges| <= BRIDGES
    && (m.execution.Some? ==> |m.bridges| == BRIDGES)
    && (m.terminalStatus.Some? <==> f == ProfileCapture && m.execution.Some?)
    && (m.handoff.Some? ==> m.execution.Some?)
    && (m.terminalization.Some? ==> m.handoff.Some?)
    && (m.orchestration.Some? ==> m.terminalization.Some?)
    && (m.executeNow.Some? ==> m.orchestration.Some?)
    && (m.consumption.Some? ==> m.orchestration.Some?)
  }

  /** From the envelope on, one executor owns every runtime artifact. */
  ghost predicate OwnedBy(m: Ledger, attemptId: string, owner: string) {
    && (m.lease.Some? ==> m.lease.value.executor == owner && m.lease.value.recordId == LeaseRecordId(attemptId, owner))
    && (m.gate.Some? ==> m.gate.value.executor == owner && m.gate.value.recordId == GateRecordId(attemptId, owner)
                         && m.gate.value.leaseRecordId == LeaseRecordId(attemptId, owner))
    && (m.guard.Some? ==>
          m.guard.value.executor == owner && m.guard.value.leaseRecordId == LeaseRecordId(attemptId, owner)
                          && m.guard.value.gateRecordId == GateRecordId(attemptId, owner))
    && (m.session.Some? ==> m.session.value.executor == owner
                            && (m.session.value.finalizedBy.None? || m.session.value.finalizedBy == Some(owner)))
  }

  /** Each prerequisite outlives the one granted on top of it. */
  ghost predicate Nested(m: Ledger) {
    && (m.gate.Some? && m.lease.Some? ==> m.gate.value.expiresAt <= m.lease.value.expiresAt)
    && (m.guard.Some? && m.gate.Some? ==> m.guard.value.expiresAt <= m.gate.value.expiresAt)
    && (m.session.Some? && m.guard.Some? ==> m.session.value.expiresAt <= m.guard.value.expiresAt)
  }

  /** Checkpoint, bridges, execution and everything later name the same session. */
  ghost predicate SameSession(m: Ledger, owner: string)
    requires m.session.Some?
  {
    var mine := Checkpoint(m.session.value.identifier, owner);
    && (m.outcome.Some? ==> m.outcome.value == mine)
    && (forall i :: 0 <= i < |m.bridges| ==> m.bridges[i] == mine)
    && (m.execution.Some? ==>
          m.execution.value.sessionIdentifier == mine.sessionIdentifier && m.execution.value.executor == owner)
    && (m.terminalStatus.Some? ==> m.terminalStatus.value.sessionIdentifier == mine.sessionIdentifier)
    && (m.handoff.Some? ==>
          m.handoff.value.sessionIdentifier == mine.sessionIdentifier && m.handoff.value.executor == owner)
    && (m.terminalization.Some? ==> m.terminalization.value.executor == owner)
    && (m.orchestration.Some? ==> m.orchestration.value.executor == owner)
  }

  /** Everything written after the adapter call repeats its record identifier and outcome. */
  ghost predicate SameRecord(f: Family, ids: Ids, m: Ledger)
    requires m.execution.Some? && m.terminalStatus.Some? == (f == ProfileCapture)
  {
    var x := m.execution.value;
    && x.recordId != ""
    && x.commandId == ids.commandId && x.attemptId == ids.attemptId && Some(x.jobRunId) == ids.jobRunId
    && (m.terminalStatus.Some? ==>
          m.terminalStatus.value.recordId == x.recordId && m.terminalStatus.value.attemptId == x.attemptId)
    && (m.handoff.Some? ==> m.handoff.value.recordId == x.recordId && m.handoff.value.jobRunId == x.jobRunId)
    && (m.terminalization.Some? ==> m.terminalization.value.recordId == x.recordId
                                    && m.terminalization.value.outcome == x.outcome
                                    && m.terminalization.value.category == CategoryIn(m))
    && (m.orchestration.Some? ==> m.orchestration.value.recordId == x.recordId)
    && (m.executeNow.Some? ==> m.executeNow.value.recordId == x.recordId
                               && m.executeNow.value.outcome == (if f == OnDemandRead then Some(x.outcome) else None)
                               && m.executeNow.value.category == CategoryIn(m))
    && (m.consumption.Some? ==> m.consumption.value.recordId == Some(x.recordId)
                                && m.consumption.value.outcome == (if f == OnDemandRead then Some(x.outcome) else None)
                                && m.consumption.value.category == CategoryIn(m))
  }

  function CategoryIn(m: Ledger): Option<TerminalCategory> {
    if m.terminalStatus.Some? then Some(m.terminalStatus.value.category) else None
  }

  /** One identifier runs through handoff, terminalization and orchestration. */
  ghost predicate SameIdentifier(f: Family, commandId: string, m: Ledger)
    requires m.bootstrap.Some?
  {
    && (m.handoff.Some? ==> m.handoff.value.bootstrapIdentifier == m.bootstrap.value.identifier)
    && (m.orchestration.Some? && m.handoff.Some? && m.terminalization.Some? ==>
          var o := m.orchestration.value;
          && m.handoff.value.identifier == o.identifier
          && m.terminalization.value.identifier == o.identifier
          && m.bootstrap.value.identifier == BootstrapIdentifier(f, o.identifier)
          && o.terminalizationPresent)
    && (m.executeNow.Some? && m.orchestration.Some? ==>
          && m.executeNow.value.identifier == ExecuteNowIdentifier(f, commandId)
          && m.orchestration.value.identifier == m.executeNow.value.identifier
          && m.orchestration.value.executor == ExecuteNowExecutor(f)
          && m.executeNow.value.orchestrationPresent && m.executeNow.value.terminalizationPresent)
  }

  /** No stored artifact claims to be a reuse of itself. */
  ghost predicate NeverReused(m: Ledger) {
    && (m.handoff.Some? ==> !m.handoff.value.reusedHandoff && !m.handoff.value.reusedExecution)
    && (m.terminalization.Some? ==> !m.terminalization.value.reused)
    && (m.orchestration.Some? ==> !m.orchestration.value.reused)
    && (m.executeNow.Some? ==> !m.executeNow.value.reused)
  }

  ghost predicate AllSucceeded(r: Rows)
    requires r.attempt.Some?
  {
    && r.attempt.value.status == AttSucceeded && r.attempt.value.errorCode.None? && r.attempt.value.errorMessage.None?
    && r.command.status == CmdSucceeded && r.command.errorCode.None? && r.command.errorMessage.None?
    && r.job.Some? && r.job.value.status == JobSucceeded && r.job.value.errorCode.None?
    && r.job.value.errorMessage.None?
  }

  /** The three rows after a terminalization with this verdict. */
  ghost predicate AllSettled(r: Rows, v: Verdict)
    requires r.attempt.Some? && v.Verdict?
  {
    && r.attempt.value.status == AttemptFinal(v.final) && r.command.status == CommandFinal(v.final)
    && r.job.Some? && r.job.value.status == JobFinal(v.final)
    && r.attempt.value.errorCode == v.errorCode == r.command.errorCode == r.job.value.errorCode
    && r.attempt.value.errorMessage == v.errorMessage == r.command.errorMessage == r.job.value.errorMessage
  }

  ghost predicate SameEnd(r: Rows)
    requires r.attempt.Some? && r.job.Some?
  {
    r.attempt.value.endedAt.Some? && r.attempt.value.endedAt == r.command.completedAt == r.job.value.completedAt
  }

  /** Statuses follow the bridges and the terminalization, in all three rows at once. */
  ghost predicate Statuses(f: Family, r: Rows, m: Ledger)
    requires r.attempt.Some? && Chained(f, m)
  {
    if m.bridges == [] then
      && r.attempt.value.status == AttStarted && r.attempt.value.endedAt.None?
      && r.attempt.value.errorCode.None? && r.attempt.value.errorMessage.None?
      && r.command.status == CmdInProgress && r.command.completedAt.None?
      && r.command.errorCode.None? && r.command.errorMessage.None?
      && (r.job.Some? ==> r.job.value.status == JobRunning && r.job.value.completedAt.None?
                          && r.job.value.errorCode.None? && r.job.value.errorMessage.None?)
    else if m.terminalization.None? then AllSucceeded(r) && SameEnd(r)
    else
      var t, v := m.terminalization.value, VerdictOf(f, m);
      && v.Verdict? && AllSettled(r, v) && SameEnd(r) && r.attempt.value.endedAt == Some(t.at)
      && t.attemptFinal == AttemptFinal(v.final) && t.commandFinal == CommandFinal(v.final)
      && t.jobFinal == JobFinal(v.final)
  }

  /** What holds of one dictionary taken alone. */
  ghost predicate LedgerInv(f: Family, ids: Ids, m: Ledger) {
    && Chained(f, m)
    && (m.envelope.Some? ==> ids.jobRunId.Some? && OwnedBy(m, ids.attemptId, m.envelope.value.worker))
    && Nested(m)
    && (m.session.Some? ==> SameSession(m, m.envelope.value.worker))
    && (m.execution.Some? ==> SameRecord(f, ids, m))
    && SameIdentifier(f, ids.commandId, m)
    && NeverReused(m)
  }

  ghost predicate Linked(r: Rows)
    requires r.attempt.Some?
  {
    && (r.job.Some? <==> r.attempt.value.jobRunId.Some?)
    && (r.job.Some? ==> r.job.value.id == r.attempt.value.jobRunId.value && r.job.value.commandId == r.command.id)
  }

  ghost predicate Attempted(f: Family, r: Rows)
    requires r.attempt.Some?
  {
    && Linked(r)
    && Mirrored(r)
    && LedgerInv(f, IdsOf(r), Meta(r))
    && Statuses(f, r, Meta(r))
  }

  /** The artifacts that only the command carries, and the consumption that refers to one. */
  ghost predicate CommandSide(s: Ledger) {
    && (s.enqueue.Some? ==> !s.enqueue.value.reused)
    && (s.queuedNow.Some? ==> s.enqueue.Some? && s.queuedNow.value.identifier == s.enqueue.value.identifier
                              && s.queuedNow.value.messageId == s.enqueue.value.messageId && !s.queuedNow.value.reused)
    && (s.consumption.Some? ==> s.enqueue.Some? && s.consumption.value.enqueueIdentifier == s.enqueue.value.identifier)
  }

  ghost predicate FamilyInv(f: Family, r: Rows) {
    && r.command.category == CategoryOf(f)
    && r.earlier == []
    && CommandSide(r.command.summary)
    && if r.attempt.None? then Untouched(r) else Attempted(f, r)
  }

  /** Commands of the other categories never enter this machinery. */
  ghost predicate RowsInv(r: Rows) {
    match FamilyOf(r.command.category)
    case Some(f) => FamilyInv(f, r)
    case None => r.earlier == [] && r.attempt.None? && Untouched(r) && r.command.summary == EMPTY_LEDGER
  }

  /** At most one adapter call, and none before the last bridge is durable. */
  ghost predicate CallsOnce(c: Cell) {
    && c.calls <= 1
    && (c.calls == 1 ==> |Meta(c.rows).bridges| == BRIDGES)
    && (Meta(c.rows).execution.Some? ==> c.calls == 1)
  }

  ghost predicate CellInv(c: Cell) {
    RowsInv(c.rows) && CallsOnce(c)
  }

  // ---- what no commit may undo ----

  /** Written once, kept for ever. */
  ghost predicate Stays<T(!new)>(before: Option<T>, after: Option<T>) {
    before.Some? ==> after == before
  }

  ghost predicate LedgerGrows(m: Ledger, n: Ledger) {
    && Stays(m.bootstrap, n.bootstrap) && Stays(m.envelope, n.envelope) && Stays(m.guard, n.guard)
    && (m.session.Some? && m.session.value.finalizedBy.Some? ==> n.session == m.session)
    && Stays(m.outcome, n.outcome) && m.bridges <= n.bridges
    && Stays(m.execution, n.execution) && Stays(m.terminalStatus, n.terminalStatus)
    && Stays(m.handoff, n.handoff) && Stays(m.terminalization, n.terminalization)
    && Stays(m.orchestration, n.orchestration) && Stays(m.executeNow, n.executeNow)
    && (m.consumption.Some? ==>
          (n.consumption.Some? && n.consumption.value.enqueueIdentifier == m.consumption.value.enqueueIdentifier))
    && Stays(m.enqueue, n.enqueue) && Stays(m.queuedNow, n.queuedNow)
  }

  ghost predicate Grows(r: Rows, q: Rows) {
    && q.command.id == r.command.id && q.command.category == r.command.category
    && q.command.payloadValid == r.command.payloadValid
    && (r.attempt.Some? ==> q.attempt.Some? && q.attempt.value.id == r.attempt.value.id
                            && Stays(r.attempt.value.jobRunId, q.attempt.value.jobRunId))
    && LedgerGrows(Meta(r), Meta(q))
    && LedgerGrows(r.command.summary, q.command.summary)
    && (Meta(r).terminalization.Some? || r.command.status == CmdCancelled ==>
          q.command.status == r.command.status && q.command.completedAt == r.command.completedAt)
  }
}
