/**
 Repeating a call: the second answer is the first one, whatever happened in between.
 */
module Replays {
  import opened Wrappers
  import opened CommandModel
  import opened RuntimeHandoff
  import opened CommandExecution
  import opened Invariants
  import opened Phases
  import opened Safety
  import opened QueuedExecution

  /** The parts of a successful response that come from stored records. */
  datatype Answer =
    | HandedOver(handoff: Handoff, executionRecordId: string)
    | Terminalized(settlement: string, executor: string, recordId: string, category: Option<TerminalCategory>, at: Time,
                   attemptFinal: AttemptStatus, commandFinal: CommandStatus, jobFinal: JobStatus)
    | Orchestrated(orchestration: Orchestration)
    | Executed(executeNow: ExecuteNow, commandStatus: CommandStatus)

  predicate Repeatable(op: Operation) {
    op.HandOff? || op.Terminalize? || op.Orchestrate? || op.ExecuteDirectly?
  }

  /** The response read off the rows. An on-demand terminalization reports the final
      statuses of its record, a profile-capture one those of the live rows. */
  function AnswerOf(f: Family, op: Operation, r: Rows): Option<Answer> {
    var m := Meta(r);
    match op
    case HandOff(_) =>
      if m.handoff.Some? && m.execution.Some? then Some(HandedOver(m.handoff.value, m.execution.value.recordId))
      else None
    case Terminalize(_, _) =>
      if m.terminalization.None? || r.attempt.None? || r.job.None? then None
      else
        var t := m.terminalization.value;
        if f == OnDemandRead then
          Some(Terminalized(t.identifier, t.executor, t.recordId, t.category, t.at, t.attemptFinal, t.commandFinal,
                            t.jobFinal))
        else
          Some(Terminalized(t.identifier, t.executor, t.recordId, t.category, t.at,
                            r.attempt.value.status, r.command.status, r.job.value.status))
    case Orchestrate(_) =>
      if m.orchestration.Some? then Some(Orchestrated(m.orchestration.value)) else None
    case ExecuteDirectly =>
      if m.executeNow.Some? then Some(Answer.Executed(m.executeNow.value, r.command.status)) else None
    case _ => None
  }

  /** The artifact that makes a repeated call a replay. */
  ghost predicate Answered(f: Family, op: Operation, r: Rows) {
    var m := Meta(r);
    match op
    case HandOff(req) =>
      && m.handoff.Some? && m.handoff.value.identifier == req.identifier
      && m.handoff.value.executor == req.executor
    case Terminalize(settlement, executor) =>
      && m.terminalization.Some? && m.terminalization.value.identifier == settlement
      && m.terminalization.value.executor == executor
    case Orchestrate(req) => SealedBy(m, req.identifier, req.executor)
    case ExecuteDirectly => m.executeNow.Some? && m.executeNow.value.identifier == ExecuteNowIdentifier(f, r.command.id)
    case _ => false
  }

  /** Final statuses of record and rows agree, so the two replay styles answer alike. */
  lemma RecordAgreesWithRows(f: Family, r: Rows)
    requires FamilyInv(f, r) && Meta(r).terminalization.Some?
    ensures r.attempt.Some? && r.job.Some?
    ensures var t := Meta(r).terminalization.value;
            && t.attemptFinal == r.attempt.value.status && t.commandFinal == r.command.status
            && t.jobFinal == r.job.value.status
  {
  }

  lemma CompletedIsAnswered(f: Family, op: Operation, c: Cell, amb: Ambient)
    requires CellOk(f, c) && Repeatable(op) && Perform(f, op, c, amb).progress.Going?
    ensures Answered(f, op, Perform(f, op, c, amb).cell.rows)
  {
    hide FamilyInv, Lawful, Moves, CallsOnce, HandoffOp, OrchestrateOp, TerminalizeStep;
    BeginLawful(f, c);
    match op
    case HandOff(req) => HandoffLawful(f, Begin(c), req, amb);
    case Terminalize(settlement, executor) => TerminalizeResult(f, c.rows, settlement, executor, amb.now);
    case Orchestrate(req) => OrchestrateLawful(f, Begin(c), req, amb);
    case ExecuteDirectly => ExecuteNowAnswered(f, c, amb);
    case _ =>
  }

  lemma ExecuteNowAnswered(f: Family, c: Cell, amb: Ambient)
    requires CellOk(f, c) && ExecuteNowOp(f, Begin(c), amb).progress.Going?
    ensures Answered(f, ExecuteDirectly, ExecuteNowOp(f, Begin(c), amb).cell.rows)
  {
    hide FamilyInv, Lawful, OrchestrateOp;
    var req := ExecuteNowRequest(f, c.rows);
    BeginLawful(f, c);
    OrchestrateLawful(f, Begin(c), req, amb);
    var done := OrchestrateOp(f, Begin(c), req, amb);
    LawfulKeepsCommand(f, done, 0);
  }

  lemma AnsweredIsReplayed(f: Family, op: Operation, c: Cell, amb: Ambient)
    requires CellOk(f, c) && Repeatable(op) && Answered(f, op, c.rows)
    ensures Perform(f, op, c, amb) == Begin(c) && AnswerOf(f, op, c.rows).Some?
  {
    hide HandoffBody, OrchestrateBody;
  }

  lemma AnsweredStays(f: Family, op: Operation, r: Rows, q: Rows)
    requires FamilyInv(f, r) && FamilyInv(f, q) && Grows(r, q) && Repeatable(op) && Answered(f, op, r)
    ensures Answered(f, op, q) && AnswerOf(f, op, q) == AnswerOf(f, op, r)
  {
    hide LedgerInv, Statuses, LedgerGrows;
    AnsweredHasRecord(f, op, r);
    KeptRecords(r, q);
    if Meta(r).terminalization.Some? {
      RecordAgreesWithRows(f, r);
      RecordAgreesWithRows(f, q);
    }
  }

  lemma AnsweredHasRecord(f: Family, op: Operation, r: Rows)
    requires FamilyInv(f, r) && Repeatable(op) && Answered(f, op, r)
    ensures Meta(r).execution.Some? && (op.ExecuteDirectly? ==> Meta(r).terminalization.Some?)
  {
  }

  lemma KeptRecords(r: Rows, q: Rows)
    requires Grows(r, q)
    ensures var m, n := Meta(r), Meta(q);
            && Stays(m.execution, n.execution) && Stays(m.handoff, n.handoff)
            && Stays(m.terminalization, n.terminalization)
            && Stays(m.orchestration, n.orchestration) && Stays(m.executeNow, n.executeNow)
  {
  }

  /** A call that succeeded once, made again at any later time in any later state, commits
      nothing and gives the same record-derived answer. */
  lemma IdempotentForever(f: Family, op: Operation, c: Cell, amb: Ambient, d: Cell, later: Ambient)
    requires CellOk(f, c) && CellOk(f, d) && Repeatable(op)
    requires Perform(f, op, c, amb).progress.Going? && Grows(Perform(f, op, c, amb).cell.rows, d.rows)
    ensures Perform(f, op, d, later).progress.Going? && Perform(f, op, d, later).History() == [d]
    ensures AnswerOf(f, op, d.rows).Some?
      && AnswerOf(f, op, d.rows) == AnswerOf(f, op, Perform(f, op, c, amb).cell.rows)
  {
    hide FamilyInv, Perform, Answered, AnswerOf, Lawful;
    var done := Perform(f, op, c, amb);
    CompletedIsAnswered(f, op, c, amb);
    PerformLawful(f, f, op, c, amb);
    LawfulOk(f, done.History(), |done.past|);
    AnsweredStays(f, op, done.cell.rows, d.rows);
    AnsweredIsReplayed(f, op, d, later);
  }

  /** What the answer says, the first time and every time: the names the caller gave, the stored
      result and the rows as they are. */
  lemma AnswerExactly(f: Family, op: Operation, r: Rows)
    requires FamilyInv(f, r) && Repeatable(op) && Answered(f, op, r)
    ensures var m := Meta(r);
            && m.execution.Some? && m.handoff.Some? && r.attempt.Some? && r.job.Some?
            && (op.HandOff? ==>
                  && m.handoff.value.identifier == op.request.identifier
                  && m.handoff.value.executor == op.request.executor
                  && AnswerOf(f, op, r) == Some(HandedOver(m.handoff.value, m.execution.value.recordId)))
            && (op.Terminalize? ==>
                  && r.command.completedAt.Some?
                  && AnswerOf(f, op, r) == Some(Terminalized(
                       settlement := op.settlement, executor := op.executor, recordId := m.execution.value.recordId,
                       category := if f == ProfileCapture then CategoryIn(m) else None,
                       at := r.command.completedAt.value,
                       attemptFinal := r.attempt.value.status, commandFinal := r.command.status,
                       jobFinal := r.job.value.status)))
            && (op.Orchestrate? ==>
                  && m.orchestration.Some? && AnswerOf(f, op, r) == Some(Orchestrated(m.orchestration.value))
                  && m.orchestration.value.identifier == op.orchestration.identifier
                  && m.orchestration.value.executor == op.orchestration.executor)
            && (op.ExecuteDirectly? ==>
                  && m.executeNow.Some?
                  && AnswerOf(f, op, r) == Some(Answer.Executed(m.executeNow.value, r.command.status)))
  {
    hide Nested, OwnedBy, NeverReused, SameIdentifier, CommandSide, Mirrored, VerdictOf;
  }

  /** A call that succeeds leaves the rows its answer is read from. */
  lemma SucceededIsAnswered(f: Family, op: Operation, c: Cell, amb: Ambient)
    requires CellOk(f, c) && Repeatable(op) && Perform(f, op, c, amb).progress.Going?
    ensures var d := Perform(f, op, c, amb).cell; CellOk(f, d) && Answered(f, op, d.rows)
  {
    hide FamilyInv, Perform, Answered, Lawful;
    CompletedIsAnswered(f, op, c, amb);
    PerformLawful(f, f, op, c, amb);
    var done := Perform(f, op, c, amb);
    LawfulOk(f, done.History(), |done.past|);
  }

  // ---- the queued route ----

  /** A committed enqueue is replayed for its identifier and refused for every other one, for ever. */
  lemma EnqueueIdempotent(f: Family, r: Rows, enqueueId: string, messageId: nat, now: Time, q: Rows, other: string)
    requires EnqueueStep(f, r, enqueueId, messageId, now).Write?
    requires Grows(EnqueueStep(f, r, enqueueId, messageId, now).rows, q)
    ensures DecideEnqueue(f, q, enqueueId).AlreadyEnqueued?
    ensures other != enqueueId ==> DecideEnqueue(f, q, other) == Rejected(OtherIdentifier)
    ensures q.command.summary.enqueue.value.messageId == messageId
  {
  }

  lemma QueuedNowIdempotent(r: Rows, reused: bool, q: Rows, again: bool)
    requires QueuedNowStep(r, reused).Write? && Grows(QueuedNowStep(r, reused).rows, q)
    ensures QueuedNowStep(q, again).Keep?
    ensures q.command.summary.queuedNow == QueuedNowStep(r, reused).rows.command.summary.queuedNow
  {
  }
}
