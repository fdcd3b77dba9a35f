/**
 Whole-system runs: an undisturbed delivery that completes, and the two ways in which a
 command is stuck whatever the system does next.
 */
module WorldRuns {
  import opened Wrappers
  import opened CommandModel
  import opened RuntimeHandoff
  import opened CommandExecution
  import opened Invariants
  import opened Phases
  import opened Safety
  import opened Recovery
  import opened Traps
  import opened QueuedExecution
  import opened World
  import opened WorldSafety
  import opened WorldTheorems

  // ---- a delivery that is not disturbed completes ----

  lemma ReplayFour(env: Env, w: World, a: Event, b: Event, c: Event, d: Event)
    ensures Replay(env, w, [a, b, c, d]) == Apply(env, Apply(env, Apply(env, Apply(env, w, a), b), c), d)
  {
    hide Apply;
    var w1 := Apply(env, w, a);
    var w2 := Apply(env, w1, b);
    var w3 := Apply(env, w2, c);
    assert [a, b, c, d][1..] == [b, c, d] && [b, c, d][1..] == [c, d] && [c, d][1..] == [d] && [d][1..] == [];
    assert Replay(env, w3, [d]) == Replay(env, Apply(env, w3, d), []);
    assert Replay(env, w2, [c, d]) == Replay(env, w3, [d]);
    assert Replay(env, w1, [b, c, d]) == Replay(env, w2, [c, d]);
  }

  /** The message is one this worker's consumption completes: its enqueue artifact is there
      and the orchestration made of it completes. */
  ghost predicate Deliverable(env: Env, c: Cell, note: Note, worker: string, lease: nat, session: nat, amb: Ambient) {
    && ConsumeRefusal(note.family, c.rows, note.enqueueId).None?
    && Completes(note.family, c.rows, ConsumeRequest(note.family, env, note.enqueueId, worker, lease, session), amb)
  }

  /** Claim, work, acknowledge and record, one after the other, acknowledge the oldest
      undelivered message exactly when it is deliverable; its command is then terminal with its
      whole artifact set and the consumption record of this worker. Otherwise the message stays
      pending with this worker. */
  lemma DeliveryCompletes(env: Env, w: World, message: nat, worker: string, lease: nat, session: nat, amb: Ambient,
      cut: nat)
    requires WorldInv(env, w) && FirstUndelivered(w.stream, message)
    requires lease >= MIN_SECONDS && session >= MIN_SECONDS
    ensures var note := w.stream[message].note;
            && note.commandId in w.cells
            && (cut == |WorkRun(env, w, note, worker, note.family, lease, session, amb).past| ==>
                  var deliverable := Deliverable(env, w.cells[note.commandId], note, worker, lease, session, amb);
                  var v := Replay(env, w, [Claim(message, worker),
                                           Work(message, worker, note.family, lease, session, amb, cut),
                                           Ack(message, worker), Record(message, worker)]);
                  && v.stream == w.stream[message := Entry(note, if deliverable then Acked(worker)
                                                                 else Pending(env.consumerName(worker)))]
                  && note.commandId in v.cells
                  && (deliverable ==> Delivered(v.cells[note.commandId].rows, note.family, worker, message)))
  {
    hide WorldInv, OrchestrateOp, Deliverable, Apply, WorkRun, Delivered;
    var note := w.stream[message].note;
    EntryAt(env, w, message);
    if cut == |WorkRun(env, w, note, worker, note.family, lease, session, amb).past| {
      var a, b := Claim(message, worker), Work(message, worker, note.family, lease, session, amb, cut);
      var w1 := Apply(env, w, a);
      ClaimStage(env, w, message, worker);
      ApplyKeeps(env, w, a);
      SameWorkRun(env, w, w1, note, worker, lease, session, amb);
      var w2 := Apply(env, w1, b);
      ApplyKeeps(env, w1, b);
      ReplayFour(env, w, a, b, Ack(message, worker), Record(message, worker));
      WorkStage(env, w1, message, worker, lease, session, amb, cut);
      if Deliverable(env, w.cells[note.commandId], note, worker, lease, session, amb) {
        AckStage(env, w2, message, worker);
        var w3 := Apply(env, w2, Ack(message, worker));
        ApplyKeeps(env, w2, Ack(message, worker));
        RecordStage(env, w3, message, worker);
        assert w3.stream == w.stream[message := Entry(note, Acked(worker))];
      } else {
        NothingToRecord(env, w2, message, worker);
      }
    }
  }

  /** What a delivery leaves on its command. */
  ghost predicate Delivered(r: Rows, f: Family, worker: string, message: nat) {
    && TerminalCommand(r.command.status) && FullSet(f, Meta(r))
    && r.command.summary.consumption.Some?
    && r.command.summary.consumption.value.worker == worker && r.command.summary.consumption.value.messageId == message
  }

  lemma NothingToRecord(env: Env, w: World, message: nat, worker: string)
    requires (message, worker) !in w.inflight
    ensures Apply(env, w, Ack(message, worker)) == w && Apply(env, w, Record(message, worker)) == w
  {
  }

  lemma SameWorkRun(env: Env, w: World, v: World, note: Note, worker: string, lease: nat, session: nat, amb: Ambient)
    requires note.commandId in w.cells && v.cells == w.cells
    ensures WorkRun(env, v, note, worker, note.family, lease, session, amb)
            == WorkRun(env, w, note, worker, note.family, lease, session, amb)
  {
  }

  /** Work on a claimed message completes exactly when the message is deliverable. */
  lemma WorkStage(env: Env, w: World, message: nat, worker: string, lease: nat, session: nat, amb: Ambient, cut: nat)
    requires WorldInv(env, w) && (message, worker) in w.inflight && w.inflight[(message, worker)] == Claimed
    requires message < |w.stream| && w.stream[message].note.commandId in w.cells
    requires lease >= MIN_SECONDS && session >= MIN_SECONDS
    requires var note := w.stream[message].note;
             cut == |WorkRun(env, w, note, worker, note.family, lease, session, amb).past|
    ensures var note := w.stream[message].note;
            var v := Apply(env, w, Work(message, worker, note.family, lease, session, amb, cut));
            && v.stream == w.stream && note.commandId in v.cells
            && if Deliverable(env, w.cells[note.commandId], note, worker, lease, session, amb)
               then (message, worker) in v.inflight && v.inflight[(message, worker)] == Orchestrated
               else (message, worker) !in v.inflight
  {
    hide WorldInv, OrchestrateOp, Completes, FamilyInv, ConsumeRefusal, CellSound;
    var note := w.stream[message].note;
    EntryAt(env, w, message);
    SoundIsOk(env, note.family, note.commandId, w.cells[note.commandId]);
    OrchestrateGoesIff(note.family, w.cells[note.commandId],
                       ConsumeRequest(note.family, env, note.enqueueId, worker, lease, session), amb);
  }

  lemma AckStage(env: Env, w: World, message: nat, worker: string)
    requires message < |w.stream| && w.stream[message].state == Pending(env.consumerName(worker))
    requires (message, worker) in w.inflight && w.inflight[(message, worker)] == Orchestrated
    ensures var v := Apply(env, w, Ack(message, worker));
            && v.stream == w.stream[message := Entry(w.stream[message].note, Acked(worker))] && v.cells == w.cells
            && (message, worker) in v.inflight && v.inflight[(message, worker)] == Acknowledging
  {
  }

  lemma RecordStage(env: Env, w: World, message: nat, worker: string)
    requires WorldInv(env, w) && message < |w.stream|
    requires (message, worker) in w.inflight && w.inflight[(message, worker)] == Acknowledging
    ensures var v := Apply(env, w, Record(message, worker));
            var note := w.stream[message].note;
            && v.stream == w.stream && note.commandId in v.cells
            && Delivered(v.cells[note.commandId].rows, note.family, worker, message)
  {
    hide WorldInv, ConsumptionStep, FullSet, FamilyInv, CellSound, SealedFor, CellGrows, TerminalCommand, Commit;
    var note := w.stream[message].note;
    InflightAt(env, w, message, worker);
    EntryAt(env, w, message);
    RecordCell(env, note, worker, message, w.cells[note.commandId]);
    RecordedIsFull(env, note, worker, message, w.cells[note.commandId]);
  }

  lemma ClaimStage(env: Env, w: World, message: nat, worker: string)
    requires FirstUndelivered(w.stream, message)
    ensures var w1 := Apply(env, w, Claim(message, worker));
            && w1.cells == w.cells
            && w1.stream == w.stream[message := w.stream[message].(state := Pending(env.consumerName(worker)))]
            && (message, worker) in w1.inflight && w1.inflight[(message, worker)] == Claimed
  {
  }

  lemma RecordedIsFull(env: Env, note: Note, worker: string, message: nat, c: Cell)
    requires CellSound(env, note.commandId, c) && SealedFor(env, note, c.rows, worker)
    ensures var d := Commit(Begin(c), ConsumptionStep(note.family, c.rows, worker, note.enqueueId, message)).cell;
            TerminalCommand(d.rows.command.status) && FullSet(note.family, Meta(d.rows))
  {
    hide LedgerInv, Statuses, LedgerGrows, Linked, Mirrored, FullSet;
    ConsumptionMoves(note.family, c.rows, worker, note.enqueueId, message);
    SealedLedger(note.family, c.rows);
    var d := Commit(Begin(c), ConsumptionStep(note.family, c.rows, worker, note.enqueueId, message)).cell;
    SealedIsFull(note.family, d.rows);
  }

  // ---- a message whose worker is gone ----

  lemma PinnedIsNotDeliverable(env: Env, c: Cell, note: Note, worker: string, lease: nat, session: nat, amb: Ambient)
    requires CellOk(note.family, c) && Meta(c.rows).envelope.Some?
    requires Meta(c.rows).envelope.value.worker != QueueExecutor(note.family, worker)
    ensures !Deliverable(env, c, note, worker, lease, session, amb)
  {
  }

  /** Once a consumption, or any other call, has pinned its executor, no worker whose executor
      differs ever completes a message of this command: whatever happens in between, its work is
      refused and acknowledges nothing. */
  lemma OnlyPinnedWorkerDelivers(env: Env, w: World, events: seq<Event>, message: nat, worker: string,
      lease: nat, session: nat, amb: Ambient)
    requires WorldInv(env, w) && lease >= MIN_SECONDS && session >= MIN_SECONDS
    requires message < |Replay(env, w, events).stream|
    requires var note := Replay(env, w, events).stream[message].note;
             && note.commandId in w.cells && Meta(w.cells[note.commandId].rows).envelope.Some?
             && Meta(w.cells[note.commandId].rows).envelope.value.worker != QueueExecutor(note.family, worker)
    ensures var v := Replay(env, w, events);
            var note := v.stream[message].note;
            && note.commandId in v.cells
            && WorkRun(env, v, note, worker, note.family, lease, session, amb).progress.Refused?
  {
    hide WorldInv, OrchestrateOp, FamilyInv, ConsumeRefusal, CellSound, Completes, Replay, QueueExecutor;
    var v := Replay(env, w, events);
    var note := v.stream[message].note;
    ReplayKeeps(env, w, events);
    ReplayGrows(env, w, events, note.commandId);
    EntryAt(env, v, message);
    SoundIsOk(env, note.family, note.commandId, v.cells[note.commandId]);
    EnvelopeStays(w.cells[note.commandId].rows, v.cells[note.commandId].rows);
    PinnedIsNotDeliverable(env, v.cells[note.commandId], note, worker, lease, session, amb);
    OrchestrateGoesIff(note.family, v.cells[note.commandId],
                       ConsumeRequest(note.family, env, note.enqueueId, worker, lease, session), amb);
  }

  lemma EnvelopeStays(r: Rows, q: Rows)
    requires Grows(r, q)
    ensures Stays(Meta(r).envelope, Meta(q).envelope)
  {
  }

  // ---- an abandoned command stays abandoned ----

  /** Ended without a handoff record, or with a result its family cannot settle. */
  ghost predicate IsAbandoned(r: Rows) {
    FamilyOf(r.command.category).Some? && Abandoned(FamilyOf(r.command.category).value, r)
  }

  /** The same rows, up to a queued execute-now marker that may still land on the command. */
  ghost predicate SameButMarked(c: Cell, d: Cell) {
    && d.calls == c.calls
    && d.rows == c.rows.(command := c.rows.command.(summary :=
         c.rows.command.summary.(queuedNow := d.rows.command.summary.queuedNow)))
  }

  lemma AbandonedCall(env: Env, id: string, c: Cell, f: Family, op: Operation, amb: Ambient, cut: nat)
    requires CellSound(env, id, c) && IsAbandoned(c.rows)
    ensures Durable(Perform(f, op, c, amb), cut) == c
  {
    hide Perform, FamilyInv, Abandoned;
    var g := FamilyOf(c.rows.command.category);
    SoundIsOk(env, g.value, id, c);
    AbandonedIsFrozen(f, g.value, op, c, amb);
    assert Perform(f, op, c, amb).History()[|Perform(f, op, c, amb).past|] == c;
  }

  lemma AbandonedMark(c: Cell, reused: bool)
    requires IsAbandoned(c.rows)
    ensures var d := Commit(Begin(c), QueuedNowStep(c.rows, reused)).cell;
            SameButMarked(c, d) && IsAbandoned(d.rows)
  {
  }

  lemma AbandonedIsNotSending(w: World, id: string)
    requires id in w.sending && SendingSound(w, id, w.sending[id])
    ensures !IsAbandoned(w.cells[id].rows)
  {
  }

  lemma AbandonedWork(env: Env, w: World, note: Note, worker: string, f: Family, lease: nat, session: nat, amb: Ambient,
      cut: nat)
    requires note.commandId in w.cells && CellSound(env, note.commandId, w.cells[note.commandId])
      && IsAbandoned(w.cells[note.commandId].rows)
    ensures Durable(WorkRun(env, w, note, worker, f, lease, session, amb), cut) == w.cells[note.commandId]
  {
    hide IsAbandoned, FamilyInv, OrchestrateOp, ConsumeRefusal;
    var c := w.cells[note.commandId];
    var req := ConsumeRequest(f, env, note.enqueueId, worker, lease, session);
    AbandonedCall(env, note.commandId, c, f, Orchestrate(req), amb, cut);
    assert Perform(f, Orchestrate(req), c, amb) == OrchestrateOp(f, Begin(c), req, amb);
  }

  lemma SealedIsNotAbandoned(env: Env, note: Note, r: Rows, worker: string)
    requires SealedFor(env, note, r, worker)
    ensures !IsAbandoned(r)
  {
  }

  lemma AbandonedApply(env: Env, w: World, e: Event, id: string)
    requires WorldInv(env, w) && id in w.cells && IsAbandoned(w.cells[id].rows)
    ensures id in Apply(env, w, e).cells
    ensures SameButMarked(w.cells[id], Apply(env, w, e).cells[id]) && IsAbandoned(Apply(env, w, e).cells[id].rows)
  {
    hide WorldInv, WorkRun, Perform, QueuedNowStep, EnqueueStep, ConsumptionStep, CellSound, SealedFor, DecideEnqueue,
      Durable, Commit, SetState, HeldBy, FirstUndelivered, IsAbandoned;
    match e
    case Call(x, family, op, amb, cut) =>
      if x == id { CellSoundAt(env, w, x); AbandonedCall(env, x, w.cells[x], family, op, amb, cut); }
    case CommitEnqueue(x, now) =>
      if x == id && x in w.sending { SendingAt(env, w, x); AbandonedIsNotSending(w, x); }
    case MarkQueuedNow(x, reused) =>
      if x == id { AbandonedMark(w.cells[x], reused); }
    case Work(message, worker, family, lease, session, amb, cut) =>
      if message < |w.stream| && w.stream[message].note.commandId == id {
        EntryAt(env, w, message);
        AbandonedWork(env, w, w.stream[message].note, worker, family, lease, session, amb, cut);
      }
    case Record(message, worker) =>
      if (message, worker) in w.inflight && w.inflight[(message, worker)] == Acknowledging {
        InflightAt(env, w, message, worker);
        if w.stream[message].note.commandId == id {
          SealedIsNotAbandoned(env, w.stream[message].note, w.cells[id].rows, worker);
        }
      }
    case _ =>
  }

  /** A command that has ended without a handoff record, or with a result its family cannot
      settle, keeps its rows for ever: whatever calls, deliveries and recoveries follow, it
      reads as succeeded and nothing is recorded. */
  lemma {:induction false} AbandonedForever(env: Env, w: World, events: seq<Event>, id: string)
    requires WorldInv(env, w) && id in w.cells && IsAbandoned(w.cells[id].rows)
    ensures id in Replay(env, w, events).cells
    ensures SameButMarked(w.cells[id], Replay(env, w, events).cells[id])
    ensures Replay(env, w, events).cells[id].rows.command.status == CmdSucceeded
    decreases |events|
  {
    hide WorldInv, Apply, IsAbandoned;
    if events == [] {
      CellSoundAt(env, w, id);
      AbandonedReadsSucceeded(env, id, w.cells[id]);
    } else {
      ApplyKeeps(env, w, events[0]);
      AbandonedApply(env, w, events[0], id);
      AbandonedForever(env, Apply(env, w, events[0]), events[1..], id);
    }
  }

  lemma AbandonedReadsSucceeded(env: Env, id: string, c: Cell)
    requires CellSound(env, id, c) && IsAbandoned(c.rows)
    ensures c.rows.command.status == CmdSucceeded
  {
    hide Abandoned;
    var f := FamilyOf(c.rows.command.category).value;
    SoundIsOk(env, f, id, c);
    AbandonedIsFrozen(f, f, Cancel(""), c, Ambient(0, true, "", "", "", Unsupported));
  }

  // ---- a stale guard stays stale ----

  /** The clock readings of an event are not before `t`. */
  predicate NotBefore(e: Event, t: Time) {
    match e
    case Call(_, _, _, amb, _) => amb.now >= t
    case Work(_, _, _, _, _, amb, _) => amb.now >= t
    case _ => true
  }

  lemma StaleHasFamily(env: Env, id: string, c: Cell, t: Time)
    requires CellSound(env, id, c) && StaleGuard(Meta(c.rows), t)
    ensures FamilyOf(c.rows.command.category).Some? && c.rows.attempt.Some?
    ensures Meta(c.rows).orchestration.None? && c.rows.command.status == CmdInProgress && c.calls == 0
  {
    if c.rows.attempt.Some? {
      StaleFacts(FamilyOf(c.rows.command.category).value, c.rows, t);
      NotEndedNotCalled(FamilyOf(c.rows.command.category).value, c);
    }
  }

  lemma StaleCall(env: Env, id: string, c: Cell, f: Family, op: Operation, amb: Ambient, cut: nat, t: Time)
    requires CellSound(env, id, c) && StaleGuard(Meta(c.rows), t) && t <= amb.now
    ensures StaleGuard(Meta(Durable(Perform(f, op, c, amb), cut).rows), t)
  {
    hide Perform, FamilyInv, StaleGuard, CellSound;
    StaleHasFamily(env, id, c, t);
    var g := FamilyOf(c.rows.command.category).value;
    SoundIsOk(env, g, id, c);
    StaleForever(f, g, op, c, amb, t);
    var run := Perform(f, op, c, amb);
    assert Durable(run, cut) in run.History() by {
      var k := if cut < |run.past| then cut else |run.past|;
      assert run.History()[k] == Durable(run, cut);
    }
  }

  lemma StaleWork(env: Env, w: World, note: Note, worker: string, f: Family, lease: nat, session: nat, amb: Ambient,
      cut: nat, t: Time)
    requires note.commandId in w.cells && CellSound(env, note.commandId, w.cells[note.commandId])
    requires StaleGuard(Meta(w.cells[note.commandId].rows), t) && t <= amb.now
    ensures StaleGuard(Meta(Durable(WorkRun(env, w, note, worker, f, lease, session, amb), cut).rows), t)
  {
    hide StaleGuard, FamilyInv, OrchestrateOp, ConsumeRefusal, CellSound;
    var c := w.cells[note.commandId];
    var req := ConsumeRequest(f, env, note.enqueueId, worker, lease, session);
    StaleCall(env, note.commandId, c, f, Orchestrate(req), amb, cut, t);
    assert Perform(f, Orchestrate(req), c, amb) == OrchestrateOp(f, Begin(c), req, amb);
  }

  lemma StaleIsNotSending(w: World, id: string, t: Time)
    requires id in w.sending && SendingSound(w, id, w.sending[id])
    ensures !StaleGuard(Meta(w.cells[id].rows), t)
  {
  }

  lemma SealedIsNotStale(env: Env, note: Note, r: Rows, worker: string, t: Time)
    requires SealedFor(env, note, r, worker)
    ensures !StaleGuard(Meta(r), t)
  {
    hide FamilyInv;
    if StaleGuard(Meta(r), t) { StaleFacts(note.family, r, t); }
  }

  lemma MarkKeepsMeta(r: Rows, reused: bool)
    ensures QueuedNowStep(r, reused).Write? ==> Meta(QueuedNowStep(r, reused).rows) == Meta(r)
  {
  }

  lemma StaleApply(env: Env, w: World, e: Event, id: string, t: Time)
    requires WorldInv(env, w) && id in w.cells && StaleGuard(Meta(w.cells[id].rows), t) && NotBefore(e, t)
    ensures id in Apply(env, w, e).cells && StaleGuard(Meta(Apply(env, w, e).cells[id].rows), t)
  {
    hide WorldInv, WorkRun, Perform, QueuedNowStep, EnqueueStep, ConsumptionStep, CellSound, SealedFor, DecideEnqueue,
      Durable, SetState, HeldBy, FirstUndelivered, StaleGuard;
    match e
    case Call(x, family, op, amb, cut) =>
      if x == id { CellSoundAt(env, w, x); StaleCall(env, x, w.cells[x], family, op, amb, cut, t); }
    case CommitEnqueue(x, now) =>
      if x == id && x in w.sending { SendingAt(env, w, x); StaleIsNotSending(w, x, t); }
    case MarkQueuedNow(x, reused) =>
      if x == id { MarkKeepsMeta(w.cells[x].rows, reused); }
    case Work(message, worker, family, lease, session, amb, cut) =>
      if message < |w.stream| && w.stream[message].note.commandId == id {
        EntryAt(env, w, message);
        StaleWork(env, w, w.stream[message].note, worker, family, lease, session, amb, cut, t);
      }
    case Record(message, worker) =>
      if (message, worker) in w.inflight && w.inflight[(message, worker)] == Acknowledging {
        InflightAt(env, w, message, worker);
        if w.stream[message].note.commandId == id {
          SealedIsNotStale(env, w.stream[message].note, w.cells[id].rows, worker, t);
        }
      }
    case _ =>
  }

  /** Once the clock has passed the expiry of a guard whose session was not finalized, the
      command stays in progress and its meter uncalled, whatever happens from then on. */
  lemma {:induction false} StuckForever(env: Env, w: World, events: seq<Event>, id: string, t: Time)
    requires WorldInv(env, w) && id in w.cells && StaleGuard(Meta(w.cells[id].rows), t)
    requires forall e :: e in events ==> NotBefore(e, t)
    ensures id in Replay(env, w, events).cells
    ensures var d := Replay(env, w, events).cells[id];
            StaleGuard(Meta(d.rows), t) && d.rows.command.status == CmdInProgress && d.calls == 0
    decreases |events|
  {
    hide WorldInv, Apply, StaleGuard, NotBefore;
    if events == [] {
      CellSoundAt(env, w, id);
      StaleHasFamily(env, id, w.cells[id], t);
    } else {
      assert events[0] in events && forall e :: e in events[1..] ==> e in events;
      ApplyKeeps(env, w, events[0]);
      StaleApply(env, w, events[0], id, t);
      StuckForever(env, Apply(env, w, events[0]), events[1..], id, t);
    }
  }
}
