/**
 The imperative form of the shared stream and of the two calls that join it to a command:
 enqueue, which adds a message and then commits, and the worker's consumption.
 */
module QueueWorker {
  import opened Wrappers
  import opened CommandModel
  import opened RuntimeHandoff
  import opened CommandExecution
  import opened QueuedExecution
  import opened World
  import opened CommandStore
  import opened Invariants
  import opened Phases
  import opened Safety
  import opened Recovery
  import opened WorldSafety
  import opened WorldRuns

  /** The dispatch stream with the state its consumer group keeps for each entry. */
  class Broker {
    var stream: seq<Entry>

    constructor ()
      ensures stream == []
    {
      stream := [];
    }

    method Add(note: Note) returns (message: nat)
      modifies this
      ensures message == |old(stream)| && stream == old(stream) + [Entry(note, Undelivered)]
    {
      message := |stream|;
      stream := stream + [Entry(note, Undelivered)];
    }

    /** Deliver the oldest entry nobody has received yet. */
    method ClaimNext(consumer: string) returns (message: Option<nat>)
      modifies this
      ensures message.None? ==> stream == old(stream) && forall i :: 0 <= i < |stream| ==> !stream[i].state.Undelivered?
      ensures message.Some? ==>
                && FirstUndelivered(old(stream), message.value)
                && stream == old(stream)[message.value := old(stream[message.value]).(state := Pending(consumer))]
    {
      for i := 0 to |stream|
        invariant stream == old(stream)
        invariant forall j :: 0 <= j < i ==> !stream[j].state.Undelivered?
      {
        if stream[i].state.Undelivered? {
          stream := stream[i := stream[i].(state := Pending(consumer))];
          return Some(i);
        }
      }
      return None;
    }

    /** Remove an entry from the pending list of the consumer that holds it. */
    method Acknowledge(message: nat, consumer: string, worker: string) returns (ok: bool)
      modifies this
      ensures ok <==> message < |old(stream)| && old(stream)[message].state == Pending(consumer)
      ensures stream ==
              if ok then old(stream)[message := old(stream)[message].(state := Acked(worker))] else old(stream)
    {
      if message >= |stream| || stream[message].state != Pending(consumer) { return false; }
      stream := stream[message := stream[message].(state := Acked(worker))];
      return true;
    }

    /** Hand a pending entry to another consumer. */
    method Recover(message: nat, consumer: string) returns (ok: bool)
      modifies this
      ensures ok <==> message < |old(stream)| && old(stream)[message].state.Pending?
      ensures stream ==
              if ok then old(stream)[message := old(stream)[message].(state := Pending(consumer))] else old(stream)
    {
      if message >= |stream| || !stream[message].state.Pending? { return false; }
      stream := stream[message := stream[message].(state := Pending(consumer))];
      return true;
    }

    /** Requeue a copy of an entry its consumer holds and acknowledge the original, in one transaction. */
    method Release(message: nat, consumer: string) returns (copy: Option<nat>)
      modifies this
      ensures copy.Some? <==> message < |old(stream)| && old(stream)[message].state == Pending(consumer)
      ensures copy.None? ==> stream == old(stream)
      ensures copy.Some? ==>
                && copy.value == |old(stream)| && |stream| == |old(stream)| + 1
                && stream[copy.value] == Entry(old(stream)[message].note, Undelivered)
                && stream[message] == Entry(old(stream)[message].note, Released(copy.value))
                && forall i :: 0 <= i < |old(stream)| && i != message ==> stream[i] == old(stream)[i]
    {
      if message >= |stream| || stream[message].state != Pending(consumer) { return None; }
      var note := stream[message].note;
      copy := Some(|stream|);
      stream := stream[message := stream[message].(state := Released(|stream|))] + [Entry(note, Undelivered)];
    }
  }

  /** Add the message, then commit the enqueue; a repeated call finds the artifact and adds nothing. */
  method EnqueueExecution(uow: UnitOfWork, broker: Broker, f: Family, enqueueId: string,
      now: Time) returns (p: Progress)
    requires broker !in uow.Repr()
    modifies uow.Repr(), broker
    ensures uow.SameObjects()
    ensures match old(DecideEnqueue(f, uow.View(), enqueueId))
            case AlreadyEnqueued => p == Going && uow.Now() == old(uow.Now()) && broker.stream == old(broker.stream)
            case Rejected(e) => p == Refused(e) && uow.Now() == old(uow.Now()) && broker.stream == old(broker.stream)
            case Eligible =>
              && broker.stream == old(broker.stream) + [Entry(Note(f, uow.command.id, enqueueId), Undelivered)]
              && uow.After(p) == Commit(old(uow.Now()),
                                        EnqueueStep(f, old(uow.View()), enqueueId, |old(broker.stream)|, now))
  {
    hide DecideEnqueue, EnqueueStep;
    var decision := uow.CheckEnqueue(f, enqueueId);
    match decision
    case AlreadyEnqueued => return Going;
    case Rejected(e) => return Refused(e);
    case Eligible =>
      var message := broker.Add(Note(f, uow.command.id, enqueueId));
      p := uow.CommitEnqueue(f, enqueueId, message, now);
  }

  datatype Consumed = NothingToDo | Turned(message: nat, error: Error) | Done(message: nat)

  lemma OrchestratedHasAttempt(f: Family, run: Run, req: OrchestrationRequest, amb: Ambient)
    requires LawfulRun(f, run) && OrchestrateOp(f, run, req, amb).progress.Going?
    ensures var r := OrchestrateOp(f, run, req, amb).cell.rows;
            r.attempt.Some? && r.command.category == CategoryOf(f)
  {
    hide OrchestrateOp, LedgerInv, Statuses, Lawful;
    OrchestrateLawful(f, run, req, amb);
  }

  /** What is left of a consumption once the message is claimed: validate, orchestrate,
      acknowledge, record. A refusal leaves the message pending. */
  method ConsumeClaimed(uow: UnitOfWork, broker: Broker, env: Env, message: nat, f: Family, worker: string,
      lease: nat, session: nat, amb: Ambient)
    returns (p: Progress)
    requires broker !in uow.Repr() && message < |broker.stream|
    requires broker.stream[message].state == Pending(env.consumerName(worker))
    requires broker.stream[message].note.commandId == uow.command.id
    requires uow.View().command.category == CategoryOf(f) ==> LawfulRun(f, uow.Now())
    modifies uow.Repr(), broker
    ensures uow.SameObjects()
    ensures var note := old(broker.stream[message].note);
            var run := OrchestrateOp(f, old(uow.Now()),
                                     ConsumeRequest(f, env, note.enqueueId, worker, lease, session), amb);
            if note.family != f then
              p == Refused(NotClaimable) && uow.Now() == old(uow.Now()) && broker.stream == old(broker.stream)
            else if ConsumeRefusal(f, old(uow.View()), note.enqueueId).Some? then
              p.Refused? && uow.Now() == old(uow.Now()) && broker.stream == old(broker.stream)
            else if run.progress.Refused? then
              uow.After(p) == run && broker.stream == old(broker.stream)
            else
              && p.Going? && broker.stream == old(broker.stream)[message := Entry(note, Acked(worker))]
              && uow.Now() == Commit(run, ConsumptionStep(f, run.cell.rows, worker, note.enqueueId, message))
  {
    hide OrchestrateOp, ConsumptionOf, ConsumeRefusal, LawfulRun, PutAll;
    var note := broker.stream[message].note;
    if note.family != f { return Refused(NotClaimable); }
    var view := uow.View();
    if ConsumeRefusal(f, view, note.enqueueId).Some? { return Refused(ConsumeRefusal(f, view, note.enqueueId).value); }
    ConsumableCategory(f, view, note.enqueueId);
    ghost var start := uow.Now();
    p := uow.OrchestrateExecution(f, ConsumeRequest(f, env, note.enqueueId, worker, lease, session), amb);
    if p.Refused? { return; }
    OrchestratedHasAttempt(f, start, ConsumeRequest(f, env, note.enqueueId, worker, lease, session), amb);
    var acked := broker.Acknowledge(message, env.consumerName(worker), worker);
    p := uow.RecordConsumption(f, worker, note.enqueueId, message);
  }

  lemma ConsumableCategory(f: Family, r: Rows, enqueueId: string)
    requires ConsumeRefusal(f, r, enqueueId).None?
    ensures r.command.category == CategoryOf(f)
  {
  }

  // ---- the calls as events of the whole system ----

  /** The session and the broker hold this command and the stream as they are in `w`, and no
      enqueue of the command is open. */
  ghost predicate Shows(w: World, uow: UnitOfWork, broker: Broker)
    reads uow.Repr(), broker
  {
    var id := uow.command.id;
    id in w.cells && w.cells[id] == uow.Now().cell && id !in w.sending && w.stream == broker.stream
  }

  /** An operation in its own session is one call event, run to its end. */
  method CallOperation(uow: UnitOfWork, broker: Broker, f: Family, op: Operation, amb: Ambient,
      ghost env: Env, ghost w: World)
    returns (p: Progress)
    requires broker !in uow.Repr() && Shows(w, uow, broker)
    modifies uow.Repr()
    ensures uow.SameObjects()
    ensures var run := Perform(f, op, w.cells[uow.command.id], amb);
            && p == run.progress
            && Shows(Apply(env, w, Call(uow.command.id, f, op, amb, |run.past|)), uow, broker)
  {
    hide Perform, CellOk, Lawful, Together, UnitOfWork.View;
    p := uow.RunOperation(f, op, amb);
  }

  /** An enqueue is its two events: adding the message and the commit. */
  method CallEnqueue(uow: UnitOfWork, broker: Broker, f: Family, enqueueId: string, now: Time,
      ghost env: Env, ghost w: World)
    returns (p: Progress)
    requires broker !in uow.Repr() && Shows(w, uow, broker)
    modifies uow.Repr(), broker
    ensures uow.SameObjects()
    ensures p.Going? <==> !DecideEnqueue(f, w.cells[uow.command.id].rows, enqueueId).Rejected?
    ensures var id := uow.command.id;
            Shows(Apply(env, Apply(env, w, Send(id, f, enqueueId)), CommitEnqueue(id, now)), uow, broker)
  {
    hide DecideEnqueue, UnitOfWork.View;
    uow.BeginSession();
    p := EnqueueExecution(uow, broker, f, enqueueId, now);
  }

  /** The four events of one consumption that is not disturbed. */
  ghost function ConsumptionEvents(env: Env, w: World, message: nat, f: Family, worker: string, lease: nat,
      session: nat, amb: Ambient): seq<Event>
    requires message < |w.stream| && w.stream[message].note.commandId in w.cells
  {
    var run := WorkRun(env, w, w.stream[message].note, worker, f, lease, session, amb);
    [Claim(message, worker), Work(message, worker, f, lease, session, amb, |run.past|), Ack(message, worker),
     Record(message, worker)]
  }

  /** What the four events come to. */
  lemma ConsumptionOutcome(env: Env, w: World, message: nat, f: Family, worker: string, lease: nat, session: nat,
      amb: Ambient)
    requires FirstUndelivered(w.stream, message) && w.stream[message].note.commandId in w.cells
    ensures var note := w.stream[message].note;
            var v := Replay(env, w, ConsumptionEvents(env, w, message, f, worker, lease, session, amb));
            var run := WorkRun(env, w, note, worker, f, lease, session, amb);
            && v.sending == w.sending
            && if run.progress.Refused? then
                 && v.stream == w.stream[message := Entry(note, Pending(env.consumerName(worker)))]
                 && v.cells == w.cells[note.commandId := run.cell]
               else
                 && v.stream == w.stream[message := Entry(note, Acked(worker))]
                 && v.cells == w.cells[note.commandId := Commit(Begin(run.cell),
                      ConsumptionStep(note.family, run.cell.rows, worker, note.enqueueId, message)).cell]
  {
    hide WorkRun, ConsumptionStep, Replay;
    var run := WorkRun(env, w, w.stream[message].note, worker, f, lease, session, amb);
    var a, b := Claim(message, worker), Work(message, worker, f, lease, session, amb, |run.past|);
    ReplayFour(env, w, a, b, Ack(message, worker), Record(message, worker));
    var w1 := Apply(env, w, a);
    SameRun(env, w, w1, w.stream[message].note, f, worker, lease, session, amb);
    assert w1.stream[message].note == w.stream[message].note;
  }

  lemma SameRun(env: Env, w: World, v: World, note: Note, f: Family, worker: string, lease: nat, session: nat,
      amb: Ambient)
    requires note.commandId in w.cells && v.cells == w.cells
    ensures WorkRun(env, v, note, worker, f, lease, session, amb)
            == WorkRun(env, w, note, worker, f, lease, session, amb)
  {
  }

  /** With timeouts long enough they complete exactly when the message is deliverable. */
  lemma ConsumptionDelivers(env: Env, w: World, message: nat, f: Family, worker: string, lease: nat, session: nat,
      amb: Ambient)
    requires WorldInv(env, w) && FirstUndelivered(w.stream, message) && w.stream[message].note.commandId in w.cells
    requires lease >= MIN_SECONDS && session >= MIN_SECONDS
    ensures var note := w.stream[message].note;
            var v := Replay(env, w, ConsumptionEvents(env, w, message, f, worker, lease, session, amb));
            && (WorkRun(env, w, note, worker, f, lease, session, amb).progress.Going?
                <==> note.family == f && Deliverable(env, w.cells[note.commandId], note, worker, lease, session, amb))
            && note.commandId in v.cells
            && (WorkRun(env, w, note, worker, f, lease, session, amb).progress.Going? ==>
                  Delivered(v.cells[note.commandId].rows, f, worker, message))
  {
    hide WorldInv, OrchestrateOp, ConsumeRefusal, Replay, Deliverable, Delivered, Commit, ConsumptionStep;
    ConsumptionOutcome(env, w, message, f, worker, lease, session, amb);
    var note := w.stream[message].note;
    if note.family == f {
      var run := WorkRun(env, w, note, worker, f, lease, session, amb);
      DeliveryCompletes(env, w, message, worker, lease, session, amb, |run.past|);
      var v := Replay(env, w, ConsumptionEvents(env, w, message, f, worker, lease, session, amb));
      assert v.stream[message].state.Acked? == run.progress.Going?;
    }
  }

  lemma SessionLawful(env: Env, w: World, id: string, f: Family)
    requires WorldInv(env, w) && id in w.cells && w.cells[id].rows.command.category == CategoryOf(f)
    ensures LawfulRun(f, Begin(w.cells[id]))
  {
    hide WorldInv, CellSound, CellOk, LawfulRun;
    CellSoundAt(env, w, id);
    SoundIsOk(env, f, id, w.cells[id]);
    BeginLawful(f, w.cells[id]);
  }

  /** What a worker does with the message it has just claimed are the other three events. */
  method ConsumeOldest(uow: UnitOfWork, broker: Broker, env: Env, message: nat, f: Family, worker: string, lease: nat,
      session: nat, amb: Ambient, ghost w: World)
    returns (p: Progress)
    requires broker !in uow.Repr() && WorldInv(env, w) && FirstUndelivered(w.stream, message)
    requires w.stream[message].note.commandId == uow.command.id && uow.command.id in w.cells
    requires uow.Now() == Begin(w.cells[uow.command.id]) && uow.command.id !in w.sending
    requires broker.stream == w.stream[message := Entry(w.stream[message].note, Pending(env.consumerName(worker)))]
    modifies uow.Repr(), broker
    ensures uow.SameObjects()
    ensures Shows(Replay(env, w, ConsumptionEvents(env, w, message, f, worker, lease, session, amb)), uow, broker)
    ensures p.Going? == WorkRun(env, w, w.stream[message].note, worker, f, lease, session, amb).progress.Going?
  {
    hide OrchestrateOp, ConsumptionStep, ConsumeRefusal, LawfulRun, CellOk, WorldInv, UnitOfWork.View, Replay,
      ConsumptionEvents;
    ConsumptionOutcome(env, w, message, f, worker, lease, session, amb);
    if w.cells[uow.command.id].rows.command.category == CategoryOf(f) { SessionLawful(env, w, uow.command.id, f); }
    p := ConsumeClaimed(uow, broker, env, message, f, worker, lease, session, amb);
  }

  /** A worker's consumption of the oldest undelivered message, with the rows of the command it
      names: its four events. With timeouts long enough, the message is acknowledged exactly when
      it is deliverable, and the command is then terminal, sealed and recorded. */
  method ConsumeNext(uow: UnitOfWork, broker: Broker, env: Env, f: Family, worker: string, lease: nat, session: nat,
      amb: Ambient, ghost w: World)
    returns (claimed: Option<nat>, p: Progress)
    requires broker !in uow.Repr() && Shows(w, uow, broker) && WorldInv(env, w)
    requires forall m: nat :: FirstUndelivered(w.stream, m) ==> w.stream[m].note.commandId == uow.command.id
    modifies uow.Repr(), broker
    ensures uow.SameObjects()
    ensures claimed.None? ==>
              && p.Going? && Shows(w, uow, broker) && uow.Now().cell == old(uow.Now().cell)
              && forall m: nat :: m < |w.stream| ==> !w.stream[m].state.Undelivered?
    ensures claimed.Some? ==>
              && FirstUndelivered(w.stream, claimed.value)
              && Shows(Replay(env, w, ConsumptionEvents(env, w, claimed.value, f, worker, lease, session, amb)),
                       uow, broker)
              && broker.stream == w.stream[claimed.value := Entry(
                   w.stream[claimed.value].note, if p.Going? then Acked(worker) else Pending(env.consumerName(worker)))]
    ensures claimed.Some? && lease >= MIN_SECONDS && session >= MIN_SECONDS ==>
              var note := w.stream[claimed.value].note;
              && (p.Going? <==> note.family == f
                                && Deliverable(env, w.cells[uow.command.id], note, worker, lease, session, amb))
              && (p.Going? ==> Delivered(uow.View(), f, worker, claimed.value))
  {
    hide WorldInv, WorkRun, Deliverable, Delivered, Replay, ConsumptionEvents, UnitOfWork.View;
    uow.BeginSession();
    claimed := broker.ClaimNext(env.consumerName(worker));
    if claimed.None? { return None, Going; }
    var message := claimed.value;
    p := ConsumeOldest(uow, broker, env, message, f, worker, lease, session, amb, w);
    ConsumptionOutcome(env, w, message, f, worker, lease, session, amb);
    if lease >= MIN_SECONDS && session >= MIN_SECONDS {
      ConsumptionDelivers(env, w, message, f, worker, lease, session, amb);
    }
  }
}
