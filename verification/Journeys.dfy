/**
 What single events do to the whole system, and whole journeys: from the submission of a command
 to its delivery, and from a worker's crash to the delivery of the copy.
 */
module Journeys {
  import opened Wrappers
  import opened CommandModel
  import opened RuntimeHandoff
  import opened CommandExecution
  import opened Invariants
  import opened Phases
  import opened Safety
  import opened Recovery
  import opened Records
  import opened Readback
  import opened QueuedExecution
  import opened QueuedAnswers
  import opened World
  import opened WorldSafety
  import opened WorldTheorems
  import opened WorldRuns

  lemma ReplayTwo(env: Env, w: World, a: Event, b: Event)
    ensures Replay(env, w, [a, b]) == Apply(env, Apply(env, w, a), b)
  {
    hide Apply;
    var w1 := Apply(env, w, a);
    assert [a, b][1..] == [b] && [b][1..] == [];
    assert Replay(env, w1, [b]) == Replay(env, Apply(env, w1, b), []);
  }

  lemma ReplayThree(env: Env, w: World, a: Event, b: Event, c: Event)
    ensures Replay(env, w, [a, b, c]) == Apply(env, Apply(env, Apply(env, w, a), b), c)
  {
    hide Apply;
    assert [a, b, c][1..] == [b, c];
    ReplayTwo(env, Apply(env, w, a), b, c);
  }

  // ---- a crash may fall anywhere ----

  /** Stopping a call after its `k`-th commit leaves its `k`-th durable state and nothing else. */
  lemma CrashAnywhere(env: Env, w: World, id: string, f: Family, op: Operation, amb: Ambient, k: nat)
    requires id in w.cells && id !in w.sending && k < |Perform(f, op, w.cells[id], amb).History()|
    ensures Apply(env, w, Call(id, f, op, amb, k))
            == w.(cells := w.cells[id := Perform(f, op, w.cells[id], amb).History()[k]])
  {
    hide Perform;
  }

  /** So does stopping a worker, who then forgets the message unless the orchestration completed. */
  lemma WorkCrashAnywhere(env: Env, w: World, message: nat, worker: string, f: Family, lease: nat, session: nat,
      amb: Ambient, k: nat)
    requires message < |w.stream| && w.stream[message].note.commandId in w.cells
    requires (message, worker) in w.inflight && w.inflight[(message, worker)] == Claimed
    requires k < |WorkRun(env, w, w.stream[message].note, worker, f, lease, session, amb).History()|
    ensures var run := WorkRun(env, w, w.stream[message].note, worker, f, lease, session, amb);
            Apply(env, w, Work(message, worker, f, lease, session, amb, k))
            == w.(cells := w.cells[w.stream[message].note.commandId := run.History()[k]],
                  inflight := if k == |run.past| && run.progress.Going?
                              then w.inflight[(message, worker) := Orchestrated]
                              else w.inflight - {(message, worker)})
  {
    hide WorkRun;
  }

  // ---- from submission to delivery ----

  /** A command that is submitted and enqueued: with a valid payload there is one new message, and
      the command is queued under it; otherwise nothing is sent. */
  lemma SubmittedIsEnqueued(env: Env, w: World, id: string, f: Family, valid: bool, enqueueId: string, now: Time)
    requires WorldInv(env, w) && id !in w.cells
    ensures var v := Replay(env, w, [Submit(id, CategoryOf(f), valid), Send(id, f, enqueueId), CommitEnqueue(id, now)]);
            && WorldInv(env, v) && v.cells.Keys == w.cells.Keys + {id}
            && (forall other :: other in w.cells ==> v.cells[other] == w.cells[other])
            && v.sending == w.sending && v.inflight == w.inflight
            && v.stream == (if valid then w.stream + [Entry(Note(f, id, enqueueId), Undelivered)] else w.stream)
            && v.cells[id].rows.attempt.None? && v.cells[id].calls == 0
            && v.cells[id].rows.command.payloadValid == valid
            && v.cells[id].rows.command.status == (if valid then CmdQueued else CmdPending)
            && v.cells[id].rows.command.summary.enqueue
               == (if valid
                   then Some(Enqueue(identifier := enqueueId, messageId := |w.stream|, at := now, reused := false))
                   else None)
  {
    hide WorldInv;
    var a, b, c := Submit(id, CategoryOf(f), valid), Send(id, f, enqueueId), CommitEnqueue(id, now);
    if id in w.sending { SendingAt(env, w, id); }
    ReplayThree(env, w, a, b, c);
    ReplayKeeps(env, w, [a, b, c]);
  }

  lemma FreshIsDeliverable(env: Env, c: Cell, note: Note, worker: string, lease: nat, session: nat, amb: Ambient)
    requires c.rows.attempt.None? && c.rows.command.payloadValid && c.rows.command.status == CmdQueued
    requires c.rows.command.category == CategoryOf(note.family)
    requires c.rows.command.summary.enqueue.Some? && c.rows.command.summary.enqueue.value.identifier == note.enqueueId
    ensures Deliverable(env, c, note, worker, lease, session, amb)
            <==> amb.linkValid && ReplyAccepted(note.family, amb.reply)
  {
  }

  lemma OnlyNewIsUndelivered(stream: seq<Entry>, e: Entry)
    requires e.state.Undelivered? && forall i :: 0 <= i < |stream| ==> !stream[i].state.Undelivered?
    ensures FirstUndelivered(stream + [e], |stream|)
  {
  }

  /** The whole queued journey. When nothing else waits on the stream, submission, enqueue, claim,
      work, acknowledgement and record end in a delivered command exactly when the links are valid
      and the meter's answer is one its family can express. */
  lemma SubmittedIsDelivered(env: Env, w: World, id: string, f: Family, enqueueId: string, now: Time,
      worker: string, lease: nat, session: nat, amb: Ambient, cut: nat)
    requires WorldInv(env, w) && id !in w.cells
    requires forall i :: 0 <= i < |w.stream| ==> !w.stream[i].state.Undelivered?
    requires lease >= MIN_SECONDS && session >= MIN_SECONDS
    ensures var v := Replay(env, w, [Submit(id, CategoryOf(f), true), Send(id, f, enqueueId), CommitEnqueue(id, now)]);
            var m := |w.stream|;
            && id in v.cells
            && (cut == |WorkRun(env, v, Note(f, id, enqueueId), worker, f, lease, session, amb).past| ==>
                  var u := Replay(env, v, [Claim(m, worker), Work(m, worker, f, lease, session, amb, cut),
                                           Ack(m, worker), Record(m, worker)]);
                  if amb.linkValid && ReplyAccepted(f, amb.reply) then
                    && u.stream == w.stream + [Entry(Note(f, id, enqueueId), Acked(worker))]
                    && id in u.cells && Delivered(u.cells[id].rows, f, worker, m)
                  else
                    u.stream == w.stream + [Entry(Note(f, id, enqueueId), Pending(env.consumerName(worker)))])
  {
    hide WorldInv, Replay, WorkRun, Deliverable, Delivered;
    SubmittedIsEnqueued(env, w, id, f, true, enqueueId, now);
    var v := Replay(env, w, [Submit(id, CategoryOf(f), true), Send(id, f, enqueueId), CommitEnqueue(id, now)]);
    OnlyNewIsUndelivered(w.stream, Entry(Note(f, id, enqueueId), Undelivered));
    EntryAt(env, v, |w.stream|);
    FreshIsDeliverable(env, v.cells[id], Note(f, id, enqueueId), worker, lease, session, amb);
    DeliveryCompletes(env, v, |w.stream|, worker, lease, session, amb, cut);
  }

  /** What a worker's orchestration writes: the derived identifier, the executor of its name, and the
      lease and session lengths it was given. */
  lemma WorkWrites(env: Env, w: World, note: Note, worker: string, lease: nat, session: nat, amb: Ambient)
    requires WorldInv(env, w) && note.commandId in w.cells
    requires w.cells[note.commandId].rows.command.category == CategoryOf(note.family)
    requires lease >= MIN_SECONDS && session >= MIN_SECONDS
    requires Deliverable(env, w.cells[note.commandId], note, worker, lease, session, amb)
      && Meta(w.cells[note.commandId].rows).orchestration.None?
    ensures var f, r := note.family, w.cells[note.commandId].rows;
            var run := WorkRun(env, w, note, worker, f, lease, session, amb);
            var req := OrchestrationRequest(
              identifier := (if f == OnDemandRead then "odr-queue:" else "pc-queue:") + env.uuid5(note.enqueueId),
              executor :=
                (if f == OnDemandRead then "on_demand_read_queue_worker:" else "profile_capture_queue_worker:")
                + worker,
              leaseSeconds := lease, sessionSeconds := session);
            && run.progress.Going? && amb.reply.Answered?
            && Entered(f, r, run.cell.rows, req, amb) && ResultWritten(f, run.cell.rows, req, amb)
            && SettlementWritten(f, run.cell.rows, req, amb) && EndsByReply(f, run.cell.rows, amb.now, amb.reply)
  {
    hide WorldInv, CellSound, FamilyInv, ConsumeRefusal, Enters, OrchestrateOp, Entered, ResultWritten,
      SettlementWritten, EndsByReply;
    var f, c := note.family, w.cells[note.commandId];
    CellSoundAt(env, w, note.commandId);
    SoundIsOk(env, f, note.commandId, c);
    var req := ConsumeRequest(f, env, note.enqueueId, worker, lease, session);
    OrchestrateGoesIff(f, c, req, amb);
    OrchestrationWrites(f, c, req, amb);
  }

  /** A delivered read shows as consumed in its queued readback. */
  lemma DeliveredReadsConsumed(r: Rows, worker: string, message: nat)
    requires FamilyInv(OnDemandRead, r) && Delivered(r, OnDemandRead, worker, message)
    ensures QueuedStatusOf(r).Some?
      && var u := QueuedStatusOf(r).value;
         u.workerConsumed && u.enqueuePresent && u.orchestrationPresent && u.terminalizationPresent
         && u.recordId.Some? && u.outcome.Some?
  {
    hide FamilyInv, QueuedStatusOf;
    QueuedStatusExactly(r);
    QueuedStatusTracksPhase(r);
  }

  // ---- from a crash to the delivery of the copy ----

  /** A message whose worker is gone comes back as an undelivered copy with the same content, the
      original is closed, and nothing else changes. */
  lemma RecoveredIsRequeued(env: Env, w: World, message: nat, worker: string)
    requires message < |w.stream| && w.stream[message].state.Pending?
    ensures var note := w.stream[message].note;
            Replay(env, w, [Recover(message, worker), Release(message, worker)])
            == w.(stream := w.stream[message := Entry(note, Released(|w.stream|))] + [Entry(note, Undelivered)])
  {
    hide Replay;
    ReplayTwo(env, w, Recover(message, worker), Release(message, worker));
  }

  /** Neither event does anything to a message that is not pending. */
  lemma OnlyPendingIsRecovered(env: Env, w: World, message: nat, worker: string)
    requires message >= |w.stream| || !w.stream[message].state.Pending?
    ensures Apply(env, w, Recover(message, worker)) == w && Apply(env, w, Release(message, worker)) == w
  {
  }

  /** When nothing else waits, the copy is then delivered exactly when it is deliverable. */
  lemma RedeliveryCompletes(env: Env, w: World, message: nat, worker: string, lease: nat, session: nat, amb: Ambient,
      cut: nat)
    requires WorldInv(env, w) && message < |w.stream| && w.stream[message].state.Pending?
    requires forall i :: 0 <= i < |w.stream| ==> !w.stream[i].state.Undelivered?
    requires lease >= MIN_SECONDS && session >= MIN_SECONDS
    ensures var note, copy := w.stream[message].note, |w.stream|;
            var v := Replay(env, w, [Recover(message, worker), Release(message, worker)]);
            && note.commandId in w.cells && v.cells == w.cells
            && (cut == |WorkRun(env, v, note, worker, note.family, lease, session, amb).past| ==>
                  var deliverable := Deliverable(env, w.cells[note.commandId], note, worker, lease, session, amb);
                  var u := Replay(env, v, [Claim(copy, worker),
                                           Work(copy, worker, note.family, lease, session, amb, cut),
                                           Ack(copy, worker), Record(copy, worker)]);
                  && u.stream == w.stream[message := Entry(note, Released(copy))]
                                 + [Entry(note, if deliverable then Acked(worker)
                                                else Pending(env.consumerName(worker)))]
                  && note.commandId in u.cells
                  && (deliverable ==> Delivered(u.cells[note.commandId].rows, note.family, worker, copy)))
  {
    hide WorldInv, Replay, WorkRun, Deliverable, Delivered;
    var note := w.stream[message].note;
    RecoveredIsRequeued(env, w, message, worker);
    ReplayKeeps(env, w, [Recover(message, worker), Release(message, worker)]);
    var v := Replay(env, w, [Recover(message, worker), Release(message, worker)]);
    var closed := w.stream[message := Entry(note, Released(|w.stream|))];
    OnlyNewIsUndelivered(closed, Entry(note, Undelivered));
    EntryAt(env, v, |w.stream|);
    DeliveryCompletes(env, v, |w.stream|, worker, lease, session, amb, cut);
  }

  /** An enqueue that is lost before its commit changes no command; the message stays on the stream and
      the command can still be enqueued. */
  lemma LostSendLeavesMessage(env: Env, w: World, id: string, f: Family, enqueueId: string)
    requires id in w.cells && id !in w.sending && DecideEnqueue(f, w.cells[id].rows, enqueueId).Eligible?
    ensures Replay(env, w, [Send(id, f, enqueueId), LoseEnqueue(id)])
            == w.(stream := w.stream + [Entry(Note(f, id, enqueueId), Undelivered)], lostSends := w.lostSends + [id])
  {
    hide Replay, DecideEnqueue;
    ReplayTwo(env, w, Send(id, f, enqueueId), LoseEnqueue(id));
    assert w.sending[id := Sending(f, enqueueId, |w.stream|)] - {id} == w.sending;
  }

  /** A worker that gives up a message does nothing more with it until it claims it again. */
  lemma AbandonedWorkStops(env: Env, w: World, message: nat, worker: string, f: Family, lease: nat, session: nat,
      amb: Ambient, cut: nat)
    ensures var v := Apply(env, w, Abandon(message, worker));
            && v.cells == w.cells && v.stream == w.stream && v.sending == w.sending
            && v.inflight.Keys == w.inflight.Keys - {(message, worker)}
            && Apply(env, v, Work(message, worker, f, lease, session, amb, cut)) == v
            && Apply(env, v, Ack(message, worker)) == v && Apply(env, v, Record(message, worker)) == v
  {
    hide WorkRun;
  }

  /** The queued execute-now marker lands on a command enqueued under its own identifier. */
  lemma MarkerLands(env: Env, w: World, id: string, reused: bool)
    requires WorldInv(env, w) && id in w.cells && id !in w.sending
    requires w.cells[id].rows.command.category == OnDemandReading
    ensures var own, s := "on-demand-read-queued-execute-now:" + id, w.cells[id].rows.command.summary;
            var v := Apply(env, w, MarkQueuedNow(id, reused));
            if s.queuedNow.None? && s.enqueue.Some? && s.enqueue.value.identifier == own then
              && id in v.cells && v.cells[id].calls == w.cells[id].calls
              && v.cells[id].rows == w.cells[id].rows.(command := w.cells[id].rows.command.(summary := s.(queuedNow :=
                   Some(QueuedNow(identifier := own, messageId := s.enqueue.value.messageId, reusedEnqueue := reused,
                                  reused := false)))))
              && v == w.(cells := w.cells[id := v.cells[id]])
            else v == w
  {
    hide WorldInv, QueuedNowStep, CellSound, FamilyInv;
    CellSoundAt(env, w, id);
    SoundNamed(env, id, w.cells[id]);
    SoundIsOk(env, OnDemandRead, id, w.cells[id]);
    QueuedNowAnswers(w.cells[id].rows, reused);
    assert w.cells[id := w.cells[id]] == w.cells;
  }

  lemma SoundNamed(env: Env, id: string, c: Cell)
    requires CellSound(env, id, c)
    ensures c.rows.command.id == id
  {
  }
}
