/**
 The queued route of one command: enqueue, the queued execute-now marker, and what a
 worker does with a claimed message.
 */
module QueuedExecution {
  import opened Wrappers
  import opened CommandModel
  import opened RuntimeHandoff
  import opened CommandExecution
  import opened Invariants
  import opened Phases
  import opened Safety
  import opened Readback

  /** Library functions the queue code calls: uuid5 in the URL namespace, printed, and the
      normalisation of a worker name to a consumer name (module ClaimTokens). */
  datatype Env = Env(uuid5: string -> string, consumerName: string -> string)

  function QueueIdentifier(f: Family, env: Env, enqueueId: string): string {
    (if f == OnDemandRead then "odr-queue:" else "pc-queue:") + env.uuid5(enqueueId)
  }

  function QueueExecutor(f: Family, worker: string): string {
    (if f == OnDemandRead then "on_demand_read_queue_worker:" else "profile_capture_queue_worker:") + worker
  }

  function QueuedNowIdentifier(commandId: string): string {
    "on-demand-read-queued-execute-now:" + commandId
  }

  // ---- enqueue ----

  datatype EnqueueDecision = AlreadyEnqueued | Rejected(error: Error) | Eligible

  function DecideEnqueue(f: Family, r: Rows, enqueueId: string): EnqueueDecision {
    var s := r.command.summary;
    if r.command.category != CategoryOf(f) then Rejected(IncompatibleCategory)
    else if s.enqueue.Some? then
      (if s.enqueue.value.identifier != enqueueId then Rejected(OtherIdentifier) else AlreadyEnqueued)
    else if r.command.status !in {CmdPending, CmdScheduled, CmdRetryWait} then Rejected(NotEligible)
    else if r.attempt.Some? then Rejected(AlreadyQueued)
    else if !r.command.payloadValid then Rejected(PayloadInvalid)
    else Eligible
  }

  /** The commit after the message was added to the stream. */
  function EnqueueStep(f: Family, r: Rows, enqueueId: string, messageId: nat, now: Time): Step {
    if !DecideEnqueue(f, r, enqueueId).Eligible? then Refuse(NotEligible)
    else Write(r.(command := r.command.(
      status := CmdQueued, completedAt := None,
      summary := r.command.summary.(enqueue := Some(Enqueue(enqueueId, messageId, now, false))))))
  }

  /** The queued execute-now marker, written after its enqueue answered. */
  function QueuedNowStep(r: Rows, reusedEnqueue: bool): Step {
    var s := r.command.summary;
    if r.command.category != OnDemandReading then Refuse(IncompatibleCategory)
    else if s.queuedNow.Some? then
      (if s.queuedNow.value.identifier != QueuedNowIdentifier(r.command.id) then Refuse(OtherIdentifier) else Keep)
    else if s.enqueue.None? || s.enqueue.value.identifier != QueuedNowIdentifier(r.command.id)
    then Refuse(OtherIdentifier)
    else Write(r.(command := r.command.(summary := s.(queuedNow := Some(
      QueuedNow(QueuedNowIdentifier(r.command.id), s.enqueue.value.messageId, reusedEnqueue, false))))))
  }

  // ---- consumption ----

  /** The artifact check a worker makes before it orchestrates. */
  function ConsumeRefusal(f: Family, r: Rows, enqueueId: string): Option<Error> {
    if r.command.category != CategoryOf(f) || r.command.summary.enqueue.None? then Some(MissingArtifact)
    else if r.command.summary.enqueue.value.identifier != enqueueId then Some(OtherIdentifier)
    else None
  }

  function ConsumeRequest(f: Family, env: Env, enqueueId: string, worker: string, lease: nat,
      session: nat): OrchestrationRequest {
    OrchestrationRequest(QueueIdentifier(f, env, enqueueId), QueueExecutor(f, worker), lease, session)
  }

  function ConsumptionOf(f: Family, r: Rows, worker: string, enqueueId: string, messageId: nat): Consumption
    requires r.command.category == CategoryOf(f)
  {
    var u := StatusOf(f, r).value;
    Consumption(worker, enqueueId, messageId, u.recordId, u.outcome, u.category,
                Meta(r).orchestration.Some?, Meta(r).terminalization.Some?)
  }

  /** The consumption record, written after the acknowledgement. */
  function ConsumptionStep(f: Family, r: Rows, worker: string, enqueueId: string, messageId: nat): Step {
    if r.command.category != CategoryOf(f) || r.attempt.None? then Refuse(MissingAttempt)
    else Write(PutAll(r, ConsumptionArtifact(ConsumptionOf(f, r, worker, enqueueId, messageId))))
  }

  // ---- each commit is lawful ----

  lemma EnqueueMoves(f: Family, r: Rows, enqueueId: string, messageId: nat, now: Time)
    requires FamilyInv(f, r)
    ensures StepMoves(f, r, EnqueueStep(f, r, enqueueId, messageId, now))
  {
  }

  lemma QueuedNowMoves(r: Rows, reusedEnqueue: bool)
    requires FamilyInv(OnDemandRead, r)
    ensures StepMoves(OnDemandRead, r, QueuedNowStep(r, reusedEnqueue))
  {
    hide LedgerInv, Statuses;
    var s := QueuedNowStep(r, reusedEnqueue);
    if s.Write? && r.attempt.Some? {
      SameStatuses(OnDemandRead, r, s.rows);
    }
    SamePhase(OnDemandRead, r, s);
  }

  /** Statuses look at no artifact that only the command carries. */
  lemma SameStatuses(f: Family, r: Rows, q: Rows)
    requires FamilyInv(f, r) && r.attempt.Some?
    requires q == r.(command := r.command.(summary := q.command.summary))
    ensures LedgerInv(f, IdsOf(q), Meta(q)) && Statuses(f, q, Meta(q))
  {
  }

  lemma SamePhase(f: Family, r: Rows, s: Step)
    requires FamilyInv(f, r) && s.Write? ==>
              FamilyInv(f, s.rows) && s.rows == r.(command := r.command.(summary := s.rows.command.summary))
    ensures FamilyInv(f, r) && s.Write? ==> Abs(s.rows) == Abs(r)
  {
  }

  lemma ConsumptionKeepsLedger(f: Family, ids: Ids, m: Ledger, c: Consumption)
    requires LedgerInv(f, ids, m) && m.orchestration.Some?
    requires c.recordId == Some(m.execution.value.recordId) && c.category == CategoryIn(m)
    requires c.outcome == (if f == OnDemandRead then Some(m.execution.value.outcome) else None)
    requires m.consumption.Some? ==> m.consumption.value.enqueueIdentifier == c.enqueueIdentifier
    ensures LedgerInv(f, ids, m.(consumption := Some(c))) && LedgerGrows(m, m.(consumption := Some(c)))
  {
  }

  lemma SealedLedger(f: Family, r: Rows)
    requires FamilyInv(f, r) && Meta(r).orchestration.Some?
    ensures r.attempt.Some? && LedgerInv(f, IdsOf(r), Meta(r)) && Meta(r).execution.Some?
    ensures f == OnDemandRead ==> CategoryIn(Meta(r)).None?
    ensures Meta(r).consumption.Some? ==> RefersToEnqueue(Meta(r).consumption, r.command.summary.enqueue)
    ensures Meta(r).enqueue.None? && Meta(r).queuedNow.None? && Mirrored(r)
  {
  }

  lemma ConsumptionKeepsPhase(r: Rows, c: Consumption)
    requires r.attempt.Some?
    ensures Abs(PutAll(r, ConsumptionArtifact(c))) == Abs(r)
  {
  }

  lemma ConsumptionMoves(f: Family, r: Rows, worker: string, enqueueId: string, messageId: nat)
    requires FamilyInv(f, r) && Meta(r).orchestration.Some?
    requires r.command.summary.enqueue.Some? && r.command.summary.enqueue.value.identifier == enqueueId
    ensures StepMoves(f, r, ConsumptionStep(f, r, worker, enqueueId, messageId))
  {
    hide FamilyInv, LedgerInv, LedgerGrows, StatusOf, Mirrored, Grows, Abs;
    InvCategory(f, r);
    ReadbackShows(f, r);
    SealedLedger(f, r);
    var c := ConsumptionOf(f, r, worker, enqueueId, messageId);
    var n := Meta(r).(consumption := Some(c));
    ConsumptionKeepsLedger(f, IdsOf(r), Meta(r), c);
    SpreadMoves(f, r, n);
    PutAllIsSpread(r, ConsumptionArtifact(c));
    ConsumptionKeepsPhase(r, c);
  }
}
