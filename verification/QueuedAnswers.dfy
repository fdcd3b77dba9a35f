/**
 What the queued route answers and writes: when a command may be enqueued, marked and consumed,
 and the records these calls leave.
 */
module QueuedAnswers {
  import opened Wrappers
  import opened CommandModel
  import opened RuntimeHandoff
  import opened CommandExecution
  import opened Invariants
  import opened Phases
  import opened Safety
  import opened Recovery
  import opened Readback
  import opened QueuedExecution

  /** A command can be enqueued exactly while it waits for its first attempt, unless it has been
      enqueued already or its payload is invalid. */
  lemma EnqueueAnswers(f: Family, r: Rows, enqueueId: string)
    requires FamilyInv(f, r)
    ensures DecideEnqueue(f, r, enqueueId)
            == if r.command.summary.enqueue.Some? then
                 if r.command.summary.enqueue.value.identifier == enqueueId then AlreadyEnqueued
                 else Rejected(OtherIdentifier)
               else if !Abs(r).Waiting? then Rejected(NotEligible)
               else if !r.command.payloadValid then Rejected(PayloadInvalid)
               else Eligible
    ensures DecideEnqueue(f, r, enqueueId).Eligible?
            <==> Abs(r).Waiting? && r.command.summary.enqueue.None? && r.command.payloadValid
  {
    hide LedgerInv, Mirrored, CommandSide, VerdictOf;
  }

  /** The commit queues the command and records who asked, which message it is and when. */
  lemma EnqueueWrites(f: Family, r: Rows, enqueueId: string, messageId: nat, now: Time)
    requires FamilyInv(f, r)
    ensures var s := EnqueueStep(f, r, enqueueId, messageId, now);
            if Abs(r).Waiting? && r.command.summary.enqueue.None? && r.command.payloadValid then
              s == Write(r.(command := r.command.(
                     status := CmdQueued, completedAt := None,
                     summary := r.command.summary.(enqueue := Some(Enqueue(
                       identifier := enqueueId, messageId := messageId, at := now, reused := false))))))
            else s == Refuse(NotEligible)
  {
    hide FamilyInv, DecideEnqueue, Abs;
    EnqueueAnswers(f, r, enqueueId);
  }

  /** The queued execute-now marker belongs to the enqueue that carries the command's own
      identifier; it is written once and repeats that enqueue's message. */
  lemma QueuedNowAnswers(r: Rows, reusedEnqueue: bool)
    requires FamilyInv(OnDemandRead, r)
    ensures var own := "on-demand-read-queued-execute-now:" + r.command.id;
            var enqueue := r.command.summary.enqueue;
            QueuedNowStep(r, reusedEnqueue)
            == if enqueue.None? || enqueue.value.identifier != own then Refuse(OtherIdentifier)
               else if r.command.summary.queuedNow.Some? then Keep
               else Write(r.(command := r.command.(summary := r.command.summary.(queuedNow := Some(QueuedNow(
                      identifier := own, messageId := enqueue.value.messageId, reusedEnqueue := reusedEnqueue,
                      reused := false))))))
  {
    hide LedgerInv, Mirrored, Statuses;
  }

  /** A worker takes a message exactly when the command was enqueued under its identifier. */
  lemma ConsumeAnswers(f: Family, r: Rows, enqueueId: string)
    requires FamilyInv(f, r)
    ensures ConsumeRefusal(f, r, enqueueId)
            == if r.command.summary.enqueue.None? then Some(MissingArtifact)
               else if r.command.summary.enqueue.value.identifier != enqueueId then Some(OtherIdentifier)
               else None
  {
    hide LedgerInv, Mirrored, Statuses;
  }

  /** The consumption record of a sealed command says who consumed which message, and repeats what
      the stored result says. */
  lemma ConsumptionWrites(f: Family, r: Rows, worker: string, enqueueId: string, messageId: nat)
    requires FamilyInv(f, r) && Meta(r).orchestration.Some?
    ensures Meta(r).execution.Some? && (f == ProfileCapture ==> Meta(r).terminalStatus.Some?)
    ensures var s := ConsumptionStep(f, r, worker, enqueueId, messageId);
            && s.Write?
            && Meta(s.rows) == Meta(r).(consumption := Meta(s.rows).consumption)
            && s.rows.command == r.command.(summary := r.command.summary.(consumption := Meta(s.rows).consumption))
            && Meta(s.rows).consumption == Some(Consumption(
                 worker := worker, enqueueIdentifier := enqueueId, messageId := messageId,
                 recordId := Some(Meta(r).execution.value.recordId),
                 outcome := if f == OnDemandRead then Some(Meta(r).execution.value.outcome) else None,
                 category := if f == ProfileCapture then Some(Meta(r).terminalStatus.value.category) else None,
                 orchestrationPresent := true, terminalizationPresent := true))
  {
    hide StatusOf, LedgerInv, Statuses, Mirrored;
    ReadbackShows(f, r);
    SealedResult(f, r);
  }

  lemma SealedResult(f: Family, r: Rows)
    requires FamilyInv(f, r) && Meta(r).orchestration.Some?
    ensures r.attempt.Some? && Meta(r).execution.Some? && Meta(r).terminalization.Some?
    ensures f == ProfileCapture <==> Meta(r).terminalStatus.Some?
  {
  }

  /** The queued route takes no command of another category. */
  lemma OtherCategoryIsNotQueued(f: Family, r: Rows, enqueueId: string, reused: bool, worker: string, messageId: nat)
    requires r.command.category != CategoryOf(f)
    ensures DecideEnqueue(f, r, enqueueId) == Rejected(IncompatibleCategory)
    ensures ConsumeRefusal(f, r, enqueueId) == Some(MissingArtifact)
    ensures ConsumptionStep(f, r, worker, enqueueId, messageId).Refuse?
    ensures f == OnDemandRead ==> QueuedNowStep(r, reused) == Refuse(IncompatibleCategory)
  {
  }

  // ---- for any rows whatever ----

  lemma EnqueueExactly(f: Family, r: Rows, enqueueId: string)
    ensures DecideEnqueue(f, r, enqueueId).Eligible? <==>
              && r.command.category == CategoryOf(f) && r.command.summary.enqueue.None? && r.attempt.None?
              && (r.command.status == CmdPending || r.command.status == CmdScheduled
                  || r.command.status == CmdRetryWait)
              && r.command.payloadValid
    ensures DecideEnqueue(f, r, enqueueId).AlreadyEnqueued? <==>
              && r.command.category == CategoryOf(f) && r.command.summary.enqueue.Some?
              && r.command.summary.enqueue.value.identifier == enqueueId
  {
  }

  lemma QueuedNowExactly(r: Rows, reusedEnqueue: bool)
    ensures var s, own := QueuedNowStep(r, reusedEnqueue), "on-demand-read-queued-execute-now:" + r.command.id;
            var marker, enqueue := r.command.summary.queuedNow, r.command.summary.enqueue;
            && (s.Keep? <==> r.command.category == OnDemandReading && marker.Some? && marker.value.identifier == own)
            && (s.Write? <==> r.command.category == OnDemandReading && marker.None? && enqueue.Some?
                              && enqueue.value.identifier == own)
  {
  }

  lemma ConsumeExactly(f: Family, r: Rows, enqueueId: string)
    ensures ConsumeRefusal(f, r, enqueueId).None? <==>
              && r.command.category == CategoryOf(f) && r.command.summary.enqueue.Some?
              && r.command.summary.enqueue.value.identifier == enqueueId
  {
  }
}
