/**
 All commands, the shared dispatch stream and the workers: every interleaving of calls,
 crashes, retries, claims, recoveries and releases is a sequence of events.
 */
module World {
  import opened Wrappers
  import opened CommandModel
  import opened RuntimeHandoff
  import opened CommandExecution
  import opened QueuedExecution

  /** What a stream message says to its consumer. */
  datatype Note = Note(family: Family, commandId: string, enqueueId: string)

  datatype EntryState =
    | Undelivered
    | Pending(consumer: string)
    | Acked(worker: string)
    | Released(copy: nat)

  datatype Entry = Entry(note: Note, state: EntryState)

  /** How far a worker is with a message it has claimed. */
  datatype Stage = Claimed | Orchestrated | Acknowledging

  /** An enqueue between adding its message and its commit. */
  datatype Sending = Sending(family: Family, enqueueId: string, messageId: nat)

  datatype World = World(
    cells: map<string, Cell>,
    stream: seq<Entry>,
    sending: map<string, Sending>,
    inflight: map<(nat, string), Stage>,
    lostSends: seq<string>)

  const START := World(map[], [], map[], map[], [])

  datatype Event =
    | Submit(id: string, category: Category, payloadValid: bool)
    | Call(id: string, family: Family, op: Operation, amb: Ambient, cut: nat)
    | Send(id: string, family: Family, enqueueId: string)
    | CommitEnqueue(id: string, now: Time)
    | LoseEnqueue(id: string)
    | MarkQueuedNow(id: string, reusedEnqueue: bool)
    | Claim(message: nat, worker: string)
    | Work(message: nat, worker: string, family: Family, lease: nat, session: nat, amb: Ambient, cut: nat)
    | Ack(message: nat, worker: string)
    | Record(message: nat, worker: string)
    | Abandon(message: nat, worker: string)
    | Recover(message: nat, worker: string)
    | Release(message: nat, worker: string)

  function NewCell(id: string, category: Category, payloadValid: bool): Cell {
    Cell(Rows(Command(id, category, payloadValid, CmdPending, None, None, None, EMPTY_LEDGER), [], None, None), 0)
  }

  /** The durable state a run leaves when it is stopped after `cut` commits. */
  function Durable(run: Run, cut: nat): Cell {
    if cut < |run.past| then run.past[cut] else run.cell
  }

  predicate Completed(run: Run, cut: nat) {
    cut >= |run.past| && run.progress.Going?
  }

  function SetState(w: World, message: nat, state: EntryState): seq<Entry>
    requires message < |w.stream|
  {
    w.stream[message := w.stream[message].(state := state)]
  }

  predicate FirstUndelivered(stream: seq<Entry>, message: nat) {
    && message < |stream| && stream[message].state.Undelivered?
    && forall i :: 0 <= i < message ==> !stream[i].state.Undelivered?
  }

  /** The consumption of one claimed message up to its acknowledgement. */
  function WorkRun(env: Env, w: World, note: Note, worker: string, family: Family, lease: nat, session: nat,
      amb: Ambient): Run
    requires note.commandId in w.cells
  {
    var run := Begin(w.cells[note.commandId]);
    if family != note.family then Fail(run, NotClaimable)
    else if ConsumeRefusal(family, run.cell.rows, note.enqueueId).Some? then
      Fail(run, ConsumeRefusal(family, run.cell.rows, note.enqueueId).value)
    else OrchestrateOp(family, run, ConsumeRequest(family, env, note.enqueueId, worker, lease, session), amb)
  }

  /** Is the message pending with the consumer this worker acts as? */
  predicate HeldBy(env: Env, w: World, message: nat, worker: string) {
    message < |w.stream| && w.stream[message].state == Pending(env.consumerName(worker))
  }

  /** An event that is not enabled changes nothing. */
  function Apply(env: Env, w: World, e: Event): World {
    match e
    case Submit(id, category, payloadValid) =>
      if id in w.cells then w else w.(cells := w.cells[id := NewCell(id, category, payloadValid)])
    case Call(id, family, op, amb, cut) =>
      if id !in w.cells || id in w.sending then w
      else w.(cells := w.cells[id := Durable(Perform(family, op, w.cells[id], amb), cut)])
    case Send(id, family, enqueueId) =>
      if id !in w.cells || id in w.sending || !DecideEnqueue(family, w.cells[id].rows, enqueueId).Eligible? then w
      else w.(stream := w.stream + [Entry(Note(family, id, enqueueId), Undelivered)],
              sending := w.sending[id := Sending(family, enqueueId, |w.stream|)])
    case CommitEnqueue(id, now) =>
      if id !in w.sending || id !in w.cells then w
      else
        var s := w.sending[id];
        var step := EnqueueStep(s.family, w.cells[id].rows, s.enqueueId, s.messageId, now);
        w.(cells := w.cells[id := Commit(Begin(w.cells[id]), step).cell],
           sending := w.sending - {id})
    case LoseEnqueue(id) =>
      if id !in w.sending then w
      else w.(sending := w.sending - {id}, lostSends := w.lostSends + [id])
    case MarkQueuedNow(id, reusedEnqueue) =>
      if id !in w.cells || id in w.sending then w
      else w.(cells := w.cells[id := Commit(Begin(w.cells[id]), QueuedNowStep(w.cells[id].rows, reusedEnqueue)).cell])
    case Claim(message, worker) =>
      if !FirstUndelivered(w.stream, message) then w
      else w.(stream := SetState(w, message, Pending(env.consumerName(worker))),
              inflight := w.inflight[(message, worker) := Claimed])
    case Work(message, worker, family, lease, session, amb, cut) =>
      if (message, worker) !in w.inflight || w.inflight[(message, worker)] != Claimed then w
      else if message >= |w.stream| || w.stream[message].note.commandId !in w.cells then w
      else
        var note := w.stream[message].note;
        var run := WorkRun(env, w, note, worker, family, lease, session, amb);
        w.(cells := w.cells[note.commandId := Durable(run, cut)],
           inflight := if Completed(run, cut) then w.inflight[(message, worker) := Orchestrated]
                       else w.inflight - {(message, worker)})
    case Ack(message, worker) =>
      if (message, worker) !in w.inflight || w.inflight[(message, worker)] != Orchestrated then w
      else if !HeldBy(env, w, message, worker) then w.(inflight := w.inflight - {(message, worker)})
      else w.(stream := SetState(w, message, Acked(worker)), inflight := w.inflight[(message, worker) := Acknowledging])
    case Record(message, worker) =>
      if (message, worker) !in w.inflight || w.inflight[(message, worker)] != Acknowledging then w
      else if message >= |w.stream| || w.stream[message].note.commandId !in w.cells then w
      else
        var note := w.stream[message].note;
        var c := w.cells[note.commandId];
        w.(cells := w.cells[note.commandId :=
             Commit(Begin(c), ConsumptionStep(note.family, c.rows, worker, note.enqueueId, message)).cell],
           inflight := w.inflight - {(message, worker)})
    case Abandon(message, worker) =>
      w.(inflight := w.inflight - {(message, worker)})
    case Recover(message, worker) =>
      if message >= |w.stream| || !w.stream[message].state.Pending? then w
      else w.(stream := SetState(w, message, Pending(env.consumerName(worker))))
    case Release(message, worker) =>
      if !HeldBy(env, w, message, worker) then w
      else w.(stream := SetState(w, message, Released(|w.stream|)) + [Entry(w.stream[message].note, Undelivered)])
  }

  function Replay(env: Env, w: World, events: seq<Event>): World
    decreases |events|
  {
    if events == [] then w else Replay(env, Apply(env, w, events[0]), events[1..])
  }
}
