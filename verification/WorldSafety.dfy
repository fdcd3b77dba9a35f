/**
 What holds of the commands, the stream and the workers after any sequence of events.
 */
module WorldSafety {
  import opened Wrappers
  import opened CommandModel
  import opened RuntimeHandoff
  import opened CommandExecution
  import opened Invariants
  import opened Phases
  import opened Safety
  import opened QueuedExecution
  import opened World

  /** The command carries the orchestration this worker makes of this message. */
  ghost predicate SealedFor(env: Env, note: Note, r: Rows, worker: string) {
    && FamilyInv(note.family, r)
    && SealedBy(Meta(r), QueueIdentifier(note.family, env, note.enqueueId), QueueExecutor(note.family, worker))
    && r.command.summary.enqueue.Some? && r.command.summary.enqueue.value.identifier == note.enqueueId
  }

  /** A consumption record refers to the orchestration derived from its enqueue. */
  ghost predicate ConsumedBySeal(env: Env, f: Family, m: Ledger) {
    m.consumption.Some? ==>
      && m.orchestration.Some?
      && m.orchestration.value.identifier == QueueIdentifier(f, env, m.consumption.value.enqueueIdentifier)
  }

  ghost predicate CellSound(env: Env, id: string, c: Cell) {
    && CellInv(c) && c.rows.command.id == id
    && (FamilyOf(c.rows.command.category).Some? ==>
          ConsumedBySeal(env, FamilyOf(c.rows.command.category).value, Meta(c.rows)))
  }

  ghost predicate EnqueueRefers(stream: seq<Entry>, id: string, r: Rows) {
    var q := r.command.summary.enqueue;
    q.Some? ==>
      && FamilyOf(r.command.category).Some? && q.value.messageId < |stream|
      && stream[q.value.messageId].note == Note(FamilyOf(r.command.category).value, id, q.value.identifier)
  }

  /** A consumption record names a message for its enqueue that its worker acknowledged. */
  ghost predicate ConsumptionRefers(stream: seq<Entry>, id: string, r: Rows) {
    var c := r.command.summary.consumption;
    c.Some? ==>
      && FamilyOf(r.command.category).Some? && c.value.messageId < |stream|
      && stream[c.value.messageId] == Entry(Note(FamilyOf(r.command.category).value, id, c.value.enqueueIdentifier),
                                            Acked(c.value.worker))
  }

  ghost predicate CellsInv(env: Env, w: World) {
    forall id :: id in w.cells ==>
      && CellSound(env, id, w.cells[id])
      && EnqueueRefers(w.stream, id, w.cells[id].rows) && ConsumptionRefers(w.stream, id, w.cells[id].rows)
  }

  ghost predicate EntrySound(env: Env, w: World, e: Entry) {
    && e.note.commandId in w.cells
    && w.cells[e.note.commandId].rows.command.category == CategoryOf(e.note.family)
    && (e.state.Acked? ==> SealedFor(env, e.note, w.cells[e.note.commandId].rows, e.state.worker))
  }

  ghost predicate StreamInv(env: Env, w: World) {
    forall i :: 0 <= i < |w.stream| ==> EntrySound(env, w, w.stream[i])
  }

  ghost predicate SendingSound(w: World, id: string, s: Sending) {
    && id in w.cells && DecideEnqueue(s.family, w.cells[id].rows, s.enqueueId).Eligible?
    && s.messageId < |w.stream| && w.stream[s.messageId].note == Note(s.family, id, s.enqueueId)
  }

  ghost predicate SendingInv(w: World) {
    forall id :: id in w.sending ==> SendingSound(w, id, w.sending[id])
  }

  ghost predicate InflightSound(env: Env, w: World, message: nat, worker: string, stage: Stage) {
    && message < |w.stream| && w.stream[message].note.commandId in w.cells
    && (stage != Claimed ==>
          SealedFor(env, w.stream[message].note, w.cells[w.stream[message].note.commandId].rows, worker))
    && (stage == Acknowledging ==> w.stream[message].state == Acked(worker))
  }

  ghost predicate InflightInv(env: Env, w: World) {
    forall k :: k in w.inflight ==> InflightSound(env, w, k.0, k.1, w.inflight[k])
  }

  ghost predicate WorldInv(env: Env, w: World) {
    CellsInv(env, w) && StreamInv(env, w) && SendingInv(w) && InflightInv(env, w)
  }

  lemma EntryAt(env: Env, w: World, i: nat)
    requires WorldInv(env, w) && i < |w.stream|
    ensures EntrySound(env, w, w.stream[i])
      && CellSound(env, w.stream[i].note.commandId, w.cells[w.stream[i].note.commandId])
  {
    hide CellSound, SealedFor, SendingSound, InflightSound;
    assert EntrySound(env, w, w.stream[i]);
  }

  lemma InflightAt(env: Env, w: World, message: nat, worker: string)
    requires WorldInv(env, w) && (message, worker) in w.inflight
    ensures InflightSound(env, w, message, worker, w.inflight[(message, worker)])
  {
    hide CellSound, SealedFor, SendingSound, EntrySound;
    var k := (message, worker);
    assert InflightSound(env, w, k.0, k.1, w.inflight[k]);
  }

  lemma SendingAt(env: Env, w: World, id: string)
    requires WorldInv(env, w) && id in w.sending
    ensures SendingSound(w, id, w.sending[id])
  {
    hide CellSound, SealedFor, InflightSound, EntrySound;
  }

  // ---- replacing one cell by a later state of it ----

  ghost predicate CellGrows(c: Cell, d: Cell) {
    Grows(c.rows, d.rows) && c.calls <= d.calls
  }

  lemma SealedForGrows(env: Env, note: Note, r: Rows, q: Rows, worker: string)
    requires SealedFor(env, note, r, worker) && Grows(r, q) && RowsInv(q)
    ensures SealedFor(env, note, q, worker)
  {
  }

  /** Every clause about messages and workers survives when a command grows. */
  lemma CellGrowsKeepsRest(env: Env, w: World, id: string, d: Cell)
    requires WorldInv(env, w) && id in w.cells && CellGrows(w.cells[id], d) && CellSound(env, id, d)
    requires EnqueueRefers(w.stream, id, d.rows) && ConsumptionRefers(w.stream, id, d.rows)
    requires id in w.sending ==> d == w.cells[id]
    ensures WorldInv(env, w.(cells := w.cells[id := d]))
  {
    hide CellSound, SealedFor, CellInv, FamilyInv, RowsInv, Grows, DecideEnqueue;
    var v := w.(cells := w.cells[id := d]);
    forall i | 0 <= i < |v.stream| ensures EntrySound(env, v, v.stream[i]) {
      assert EntrySound(env, w, w.stream[i]);
      GrowsEntry(env, w, id, d, w.stream[i]);
    }
    forall k | k in v.inflight ensures InflightSound(env, v, k.0, k.1, v.inflight[k]) {
      assert InflightSound(env, w, k.0, k.1, w.inflight[k]);
      assert EntrySound(env, w, w.stream[k.0]);
      if w.inflight[k] != Claimed && w.stream[k.0].note.commandId == id {
        CellSoundRows(env, id, d);
        SealedForGrows(env, w.stream[k.0].note, w.cells[id].rows, d.rows, k.1);
      }
    }
    forall x | x in v.sending ensures SendingSound(v, x, v.sending[x]) {
      assert SendingSound(w, x, w.sending[x]);
    }
  }

  lemma CellSoundRows(env: Env, id: string, c: Cell)
    requires CellSound(env, id, c)
    ensures RowsInv(c.rows) && CallsOnce(c)
  {
  }

  lemma GrowsEntry(env: Env, w: World, id: string, d: Cell, e: Entry)
    requires id in w.cells && EntrySound(env, w, e) && CellGrows(w.cells[id], d) && CellSound(env, id, d)
    ensures EntrySound(env, w.(cells := w.cells[id := d]), e)
  {
    if e.note.commandId == id && e.state.Acked? {
      SealedForGrows(env, e.note, w.cells[id].rows, d.rows, e.state.worker);
    }
  }

  // ---- one call on one command ----

  lemma SoundIsOk(env: Env, f: Family, id: string, c: Cell)
    requires CellSound(env, id, c) && FamilyOf(c.rows.command.category) == Some(f)
    ensures CellOk(f, c)
  {
  }

  lemma OkIsSound(env: Env, f: Family, id: string, c: Cell, d: Cell)
    requires CellSound(env, id, c) && CellOk(f, c) && CellOk(f, d)
    requires CellGrows(c, d) && SameQueuePart(c.rows, d.rows)
    ensures CellSound(env, id, d)
  {
  }

  lemma LawfulDurable(env: Env, f: Family, id: string, c: Cell, run: Run, cut: nat)
    requires CellSound(env, id, c) && FamilyOf(c.rows.command.category) == Some(f)
    requires Lawful(f, run.History()) && run.History()[0] == c
    ensures var d := Durable(run, cut);
            CellSound(env, id, d) && CellGrows(c, d) && SameQueuePart(c.rows, d.rows)
  {
    hide CellSound, FamilyInv, Lawful, Grows, CallsOnce;
    var h := run.History();
    var k := if cut < |run.past| then cut else |run.past|;
    assert h[k] == Durable(run, cut);
    SoundIsOk(env, f, id, c);
    LawfulGrows(f, h, 0, k);
    OkIsSound(env, f, id, c, h[k]);
  }

  /** Commands of other categories can only be cancelled. */
  lemma ForeignRefused(c: Cell, f: Family, op: Operation, amb: Ambient)
    requires RowsInv(c.rows) && FamilyOf(c.rows.command.category).None? && !op.Cancel?
    ensures Perform(f, op, c, amb).History() == [c]
  {
    hide HandoffBody, OrchestrateBody;
  }

  lemma ForeignCancel(env: Env, id: string, c: Cell, reason: string, now: Time)
    requires CellSound(env, id, c) && FamilyOf(c.rows.command.category).None?
    ensures var d := Commit(Begin(c), CancelStep(c.rows, reason, now)).cell;
            CellSound(env, id, d) && CellGrows(c, d) && SameQueuePart(c.rows, d.rows)
  {
  }

  lemma ForeignCall(env: Env, id: string, c: Cell, f: Family, op: Operation, amb: Ambient, cut: nat)
    requires CellSound(env, id, c) && FamilyOf(c.rows.command.category).None?
    ensures var d := Durable(Perform(f, op, c, amb), cut);
            CellSound(env, id, d) && CellGrows(c, d) && SameQueuePart(c.rows, d.rows)
  {
    hide CellSound, HandoffOp, OrchestrateOp, ExecuteNowOp, BootstrapStep, TerminalizeStep, CancelStep, Grows, RowsInv;
    CellSoundRows(env, id, c);
    GrowsReflexive(c.rows);
    if op.Cancel? {
      ForeignCancel(env, id, c, op.reason, amb.now);
    } else {
      ForeignRefused(c, f, op, amb);
      assert Perform(f, op, c, amb).History()[|Perform(f, op, c, amb).past|] == Perform(f, op, c, amb).cell;
    }
  }

  lemma CallKeepsCell(env: Env, id: string, c: Cell, f: Family, op: Operation, amb: Ambient, cut: nat)
    requires CellSound(env, id, c)
    ensures var d := Durable(Perform(f, op, c, amb), cut);
            CellSound(env, id, d) && CellGrows(c, d) && SameQueuePart(c.rows, d.rows)
  {
    hide CellSound, Perform, Lawful, CellGrows, SameQueuePart, CellOk;
    var g := FamilyOf(c.rows.command.category);
    if g.None? {
      ForeignCall(env, id, c, f, op, amb, cut);
    } else {
      SoundIsOk(env, g.value, id, c);
      PerformLawful(f, g.value, op, c, amb);
      LawfulDurable(env, g.value, id, c, Perform(f, op, c, amb), cut);
    }
  }

  lemma WorkKeepsCell(env: Env, w: World, note: Note, worker: string, f: Family, lease: nat, session: nat,
      amb: Ambient, cut: nat)
    requires note.commandId in w.cells && CellSound(env, note.commandId, w.cells[note.commandId])
    requires w.cells[note.commandId].rows.command.category == CategoryOf(note.family)
    ensures var c := w.cells[note.commandId];
            var run := WorkRun(env, w, note, worker, f, lease, session, amb);
            var d := Durable(run, cut);
            && CellSound(env, note.commandId, d) && CellGrows(c, d) && SameQueuePart(c.rows, d.rows)
            && (Completed(run, cut) ==> SealedFor(env, note, d.rows, worker))
            && (ConsumeRefusal(note.family, c.rows, note.enqueueId).Some? ==> d == c)
  {
    hide FamilyInv, Lawful, OrchestrateOp, CellSound, CallsOnce, LedgerGrows;
    var c := w.cells[note.commandId];
    SoundIsOk(env, note.family, note.commandId, c);
    GrowsReflexive(c.rows);
    if f == note.family && ConsumeRefusal(f, c.rows, note.enqueueId).None? {
      var req := ConsumeRequest(f, env, note.enqueueId, worker, lease, session);
      BeginLawful(f, c);
      OrchestrateLawful(f, Begin(c), req, amb);
      LawfulDurable(env, f, note.commandId, c, OrchestrateOp(f, Begin(c), req, amb), cut);
    }
  }

  // ---- changes of the stream and of the workers' progress ----

  lemma StateChange(env: Env, w: World, message: nat, state: EntryState)
    requires WorldInv(env, w) && message < |w.stream| && !w.stream[message].state.Acked?
    requires EntrySound(env, w, w.stream[message].(state := state))
    ensures WorldInv(env, w.(stream := SetState(w, message, state)))
  {
    hide CellSound, SealedFor, DecideEnqueue;
    var v := w.(stream := SetState(w, message, state));
    forall i | 0 <= i < |v.stream| ensures EntrySound(env, v, v.stream[i]) {
      assert EntrySound(env, w, w.stream[i]);
    }
    forall k | k in v.inflight ensures InflightSound(env, v, k.0, k.1, v.inflight[k]) {
      assert InflightSound(env, w, k.0, k.1, w.inflight[k]);
    }
    forall x | x in v.sending ensures SendingSound(v, x, v.sending[x]) {
      assert SendingSound(w, x, w.sending[x]);
    }
  }

  lemma AppendEntry(env: Env, w: World, note: Note)
    requires WorldInv(env, w) && EntrySound(env, w, Entry(note, Undelivered))
    ensures WorldInv(env, w.(stream := w.stream + [Entry(note, Undelivered)]))
  {
    hide CellSound, SealedFor, DecideEnqueue;
    var v := w.(stream := w.stream + [Entry(note, Undelivered)]);
    forall i | 0 <= i < |v.stream| ensures EntrySound(env, v, v.stream[i]) {
      if i < |w.stream| { assert EntrySound(env, w, w.stream[i]); }
    }
    forall k | k in v.inflight ensures InflightSound(env, v, k.0, k.1, v.inflight[k]) {
      assert InflightSound(env, w, k.0, k.1, w.inflight[k]);
    }
    forall x | x in v.sending ensures SendingSound(v, x, v.sending[x]) {
      assert SendingSound(w, x, w.sending[x]);
    }
  }

  lemma SetProgress(env: Env, w: World, message: nat, worker: string, stage: Stage)
    requires WorldInv(env, w) && InflightSound(env, w, message, worker, stage)
    ensures WorldInv(env, w.(inflight := w.inflight[(message, worker) := stage]))
  {
    hide CellSound, SealedFor, DecideEnqueue;
    var v := w.(inflight := w.inflight[(message, worker) := stage]);
    forall i | 0 <= i < |v.stream| ensures EntrySound(env, v, v.stream[i]) {
      assert EntrySound(env, w, w.stream[i]);
    }
    forall k | k in v.inflight ensures InflightSound(env, v, k.0, k.1, v.inflight[k]) {
      if k != (message, worker) { assert InflightSound(env, w, k.0, k.1, w.inflight[k]); }
    }
    forall x | x in v.sending ensures SendingSound(v, x, v.sending[x]) {
      assert SendingSound(w, x, w.sending[x]);
    }
  }

  /** Forgetting workers' progress or open enqueues breaks nothing. */
  lemma Forget(env: Env, w: World, v: World)
    requires WorldInv(env, w)
    requires v.cells == w.cells && v.stream == w.stream
    requires forall k :: k in v.inflight ==> k in w.inflight && v.inflight[k] == w.inflight[k]
    requires forall x :: x in v.sending ==> x in w.sending && v.sending[x] == w.sending[x]
    ensures WorldInv(env, v)
  {
    hide CellSound, SealedFor, DecideEnqueue;
    forall i | 0 <= i < |v.stream| ensures EntrySound(env, v, v.stream[i]) {
      assert EntrySound(env, w, w.stream[i]);
    }
    forall k | k in v.inflight ensures InflightSound(env, v, k.0, k.1, v.inflight[k]) {
      assert InflightSound(env, w, k.0, k.1, w.inflight[k]);
    }
    forall x | x in v.sending ensures SendingSound(v, x, v.sending[x]) {
      assert SendingSound(w, x, w.sending[x]);
    }
  }

  lemma ReplaceCell(env: Env, w: World, id: string, d: Cell)
    requires WorldInv(env, w) && id in w.cells && CellGrows(w.cells[id], d) && CellSound(env, id, d)
    requires d.rows.command.summary.enqueue == w.cells[id].rows.command.summary.enqueue
             || EnqueueRefers(w.stream, id, d.rows)
    requires d.rows.command.summary.consumption == w.cells[id].rows.command.summary.consumption
             || ConsumptionRefers(w.stream, id, d.rows)
    requires id in w.sending ==> d == w.cells[id]
    ensures WorldInv(env, w.(cells := w.cells[id := d]))
  {
    hide CellSound, EntrySound, InflightSound, SendingSound, LedgerGrows;
    assert EnqueueRefers(w.stream, id, w.cells[id].rows) && ConsumptionRefers(w.stream, id, w.cells[id].rows);
    CellGrowsKeepsRest(env, w, id, d);
  }

  // ---- every event keeps the invariant ----

  lemma NewCellSound(env: Env, stream: seq<Entry>, id: string, category: Category, payloadValid: bool)
    ensures CellSound(env, id, NewCell(id, category, payloadValid))
    ensures EnqueueRefers(stream, id, NewCell(id, category, payloadValid).rows)
    ensures ConsumptionRefers(stream, id, NewCell(id, category, payloadValid).rows)
  {
  }

  lemma SubmitKeeps(env: Env, w: World, id: string, category: Category, payloadValid: bool)
    requires WorldInv(env, w) && id !in w.cells
    ensures WorldInv(env, w.(cells := w.cells[id := NewCell(id, category, payloadValid)]))
  {
    hide CellSound, SealedFor, DecideEnqueue;
    var v := w.(cells := w.cells[id := NewCell(id, category, payloadValid)]);
    NewCellSound(env, w.stream, id, category, payloadValid);
    forall i | 0 <= i < |v.stream| ensures EntrySound(env, v, v.stream[i]) {
      assert EntrySound(env, w, w.stream[i]);
    }
    forall k | k in v.inflight ensures InflightSound(env, v, k.0, k.1, v.inflight[k]) {
      assert InflightSound(env, w, k.0, k.1, w.inflight[k]);
    }
    forall x | x in v.sending ensures SendingSound(v, x, v.sending[x]) {
      assert SendingSound(w, x, w.sending[x]);
    }
  }

  lemma CallKeeps(env: Env, w: World, e: Event)
    requires WorldInv(env, w) && e.Call?
    ensures WorldInv(env, Apply(env, w, e))
  {
    hide CellSound, EntrySound, InflightSound, SendingSound, Perform, CellGrows;
    if e.id in w.cells && e.id !in w.sending {
      CallKeepsCell(env, e.id, w.cells[e.id], e.family, e.op, e.amb, e.cut);
      ReplaceCell(env, w, e.id, Durable(Perform(e.family, e.op, w.cells[e.id], e.amb), e.cut));
    }
  }

  lemma SendKeeps(env: Env, w: World, id: string, family: Family, enqueueId: string)
    requires WorldInv(env, w) && id in w.cells && id !in w.sending
    requires DecideEnqueue(family, w.cells[id].rows, enqueueId).Eligible?
    ensures WorldInv(env, Apply(env, w, Send(id, family, enqueueId)))
  {
    hide CellSound, SealedFor, DecideEnqueue, CellsInv, StreamInv, InflightInv;
    EligibleCategory(family, w.cells[id].rows, enqueueId);
    AppendEntry(env, w, Note(family, id, enqueueId));
    var v := Apply(env, w, Send(id, family, enqueueId));
    forall x | x in v.sending ensures SendingSound(v, x, v.sending[x]) {
      if x != id { SendingAt(env, w, x); }
    }
    SendKeepsRest(env, w.(stream := v.stream), v);
  }

  lemma CommitKeeps(env: Env, w: World, id: string, now: Time)
    requires WorldInv(env, w) && id in w.sending && id in w.cells
    ensures WorldInv(env, Apply(env, w, CommitEnqueue(id, now)))
  {
    hide CellSound, DecideEnqueue, EnqueueStep, CellsInv, StreamInv, InflightInv, SendingInv, CellGrows, EnqueueRefers;
    var s := w.sending[id];
    SendingAt(env, w, id);
    var v := w.(sending := w.sending - {id});
    Forget(env, w, v);
    CellSoundAt(env, w, id);
    var d := Commit(Begin(w.cells[id]), EnqueueStep(s.family, w.cells[id].rows, s.enqueueId, s.messageId, now)).cell;
    CommitEnqueueCell(env, w, id, s, now);
    ReplaceCell(env, v, id, d);
    assert Apply(env, w, CommitEnqueue(id, now)) == v.(cells := v.cells[id := d]);
  }

  lemma CellSoundAt(env: Env, w: World, id: string)
    requires WorldInv(env, w) && id in w.cells
    ensures CellSound(env, id, w.cells[id])
  {
    hide CellSound, SealedFor, SendingSound, InflightSound, EntrySound;
  }

  lemma EnqueueKeeps(env: Env, w: World, e: Event)
    requires WorldInv(env, w) && (e.Send? || e.CommitEnqueue? || e.LoseEnqueue?)
    ensures WorldInv(env, Apply(env, w, e))
  {
    hide DecideEnqueue, CellsInv, StreamInv, SendingInv, InflightInv;
    match e
    case Send(id, family, enqueueId) =>
      if id in w.cells && id !in w.sending && DecideEnqueue(family, w.cells[id].rows, enqueueId).Eligible? {
        SendKeeps(env, w, id, family, enqueueId);
      }
    case CommitEnqueue(id, now) =>
      if id in w.sending && id in w.cells { CommitKeeps(env, w, id, now); }
    case LoseEnqueue(id) => Forget(env, w, Apply(env, w, e));
  }

  lemma EligibleCategory(f: Family, r: Rows, enqueueId: string)
    requires DecideEnqueue(f, r, enqueueId).Eligible?
    ensures r.command.category == CategoryOf(f)
  {
  }

  lemma SendKeepsRest(env: Env, w: World, v: World)
    requires WorldInv(env, w) && v == w.(sending := v.sending) && SendingInv(v)
    ensures WorldInv(env, v)
  {
    hide CellSound, SealedFor, SendingSound;
    forall i | 0 <= i < |v.stream| ensures EntrySound(env, v, v.stream[i]) {
      assert EntrySound(env, w, w.stream[i]);
    }
    forall k | k in v.inflight ensures InflightSound(env, v, k.0, k.1, v.inflight[k]) {
      assert InflightSound(env, w, k.0, k.1, w.inflight[k]);
    }
  }

  lemma CommitEnqueueCell(env: Env, w: World, id: string, s: Sending, now: Time)
    requires SendingSound(w, id, s) && CellSound(env, id, w.cells[id])
    ensures var c := w.cells[id];
            var d := Commit(Begin(c), EnqueueStep(s.family, c.rows, s.enqueueId, s.messageId, now)).cell;
            CellSound(env, id, d) && CellGrows(c, d) && EnqueueRefers(w.stream, id, d.rows)
            && d.rows.command.summary.enqueue.Some?
            && d.rows.command.summary.consumption == c.rows.command.summary.consumption
  {
    hide LedgerInv;
    SoundIsOk(env, s.family, id, w.cells[id]);
    EnqueueMoves(s.family, w.cells[id].rows, s.enqueueId, s.messageId, now);
  }

  lemma MarkCell(env: Env, id: string, c: Cell, reusedEnqueue: bool)
    requires CellSound(env, id, c)
    ensures var d := Commit(Begin(c), QueuedNowStep(c.rows, reusedEnqueue)).cell;
            CellSound(env, id, d) && CellGrows(c, d) && d.rows.command.summary.enqueue == c.rows.command.summary.enqueue
            && d.rows.command.summary.consumption == c.rows.command.summary.consumption
  {
    hide LedgerInv, Statuses;
    GrowsReflexive(c.rows);
    if c.rows.command.category == OnDemandReading {
      QueuedNowMoves(c.rows, reusedEnqueue);
    }
  }

  lemma MarkKeeps(env: Env, w: World, e: Event)
    requires WorldInv(env, w) && e.MarkQueuedNow?
    ensures WorldInv(env, Apply(env, w, e))
  {
    hide CellSound, EntrySound, InflightSound, SendingSound, QueuedNowStep, CellGrows;
    if e.id in w.cells && e.id !in w.sending {
      MarkCell(env, e.id, w.cells[e.id], e.reusedEnqueue);
      ReplaceCell(env, w, e.id, Commit(Begin(w.cells[e.id]), QueuedNowStep(w.cells[e.id].rows, e.reusedEnqueue)).cell);
    }
  }

  lemma StreamKeeps(env: Env, w: World, e: Event)
    requires WorldInv(env, w) && (e.Claim? || e.Ack? || e.Abandon? || e.Recover? || e.Release?)
    ensures WorldInv(env, Apply(env, w, e))
  {
    hide CellSound, SealedFor, DecideEnqueue, CellsInv, StreamInv, SendingInv, InflightInv;
    var v := Apply(env, w, e);
    match e
    case Claim(message, worker) =>
      if FirstUndelivered(w.stream, message) {
        EntryAt(env, w, message);
        StateChange(env, w, message, Pending(env.consumerName(worker)));
        SetProgress(env, w.(stream := v.stream), message, worker, Claimed);
      }
    case Ack(message, worker) =>
      if (message, worker) in w.inflight && w.inflight[(message, worker)] == Orchestrated {
        InflightAt(env, w, message, worker);
        if HeldBy(env, w, message, worker) {
          EntryAt(env, w, message);
          StateChange(env, w, message, Acked(worker));
          SetProgress(env, w.(stream := v.stream), message, worker, Acknowledging);
        } else {
          Forget(env, w, v);
        }
      }
    case Abandon(message, worker) => Forget(env, w, v);
    case Recover(message, worker) =>
      if message < |w.stream| && w.stream[message].state.Pending? {
        EntryAt(env, w, message);
        StateChange(env, w, message, Pending(env.consumerName(worker)));
      }
    case Release(message, worker) =>
      if HeldBy(env, w, message, worker) {
        EntryAt(env, w, message);
        var note := w.stream[message].note;
        var longer := w.(stream := w.stream + [Entry(note, Undelivered)]);
        AppendEntry(env, w, note);
        EntryAt(env, longer, message);
        StateChange(env, longer, message, Released(|w.stream|));
        assert v.stream == SetState(longer, message, Released(|w.stream|));
      }
  }

  lemma SameEnqueue(r: Rows, q: Rows)
    requires SameQueuePart(r, q)
    ensures q.command.summary.enqueue == r.command.summary.enqueue
      && q.command.summary.consumption == r.command.summary.consumption
  {
  }

  lemma WorkKeeps(env: Env, w: World, e: Event)
    requires WorldInv(env, w) && e.Work?
    ensures WorldInv(env, Apply(env, w, e))
  {
    hide CellSound, SealedFor, FamilyInv, OrchestrateOp, ConsumeRefusal, DecideEnqueue, CellGrows, WorkRun,
      CellsInv, StreamInv, SendingInv, InflightInv, SameQueuePart;
    var message, worker := e.message, e.worker;
    if (message, worker) in w.inflight && w.inflight[(message, worker)] == Claimed
       && message < |w.stream| && w.stream[message].note.commandId in w.cells {
      var note := w.stream[message].note;
      var id := note.commandId;
      var run := WorkRun(env, w, note, worker, e.family, e.lease, e.session, e.amb);
      var d := Durable(run, e.cut);
      EntryAt(env, w, message);
      WorkKeepsCell(env, w, note, worker, e.family, e.lease, e.session, e.amb, e.cut);
      if id in w.sending {
        SendingAt(env, w, id);
        SendingIsRefused(w, id, note);
      }
      SameEnqueue(w.cells[id].rows, d.rows);
      ReplaceCell(env, w, id, d);
      var v := w.(cells := w.cells[id := d]);
      if Completed(run, e.cut) {
        SetProgress(env, v, message, worker, Orchestrated);
      } else {
        var u := v.(inflight := v.inflight - {(message, worker)});
        Forget(env, v, u);
        assert Apply(env, w, e) == u;
      }
    }
  }

  /** A worker that meets a message whose enqueue has not been committed changes nothing. */
  lemma SendingIsRefused(w: World, id: string, note: Note)
    requires id in w.cells && id in w.sending && SendingSound(w, id, w.sending[id])
    ensures ConsumeRefusal(note.family, w.cells[id].rows, note.enqueueId).Some?
  {
  }

  lemma RecordCell(env: Env, note: Note, worker: string, message: nat, c: Cell)
    requires CellSound(env, note.commandId, c) && SealedFor(env, note, c.rows, worker)
    ensures var d := Commit(Begin(c), ConsumptionStep(note.family, c.rows, worker, note.enqueueId, message)).cell;
            && CellSound(env, note.commandId, d) && CellGrows(c, d)
            && d.rows.command.summary.enqueue == c.rows.command.summary.enqueue
            && d.rows.command.category == CategoryOf(note.family)
            && d.rows.command.summary.consumption.Some?
            && var x := d.rows.command.summary.consumption.value;
            && x.messageId == message && x.worker == worker && x.enqueueIdentifier == note.enqueueId
  {
    hide LedgerInv, Statuses, LedgerGrows, Linked, Mirrored;
    ConsumptionMoves(note.family, c.rows, worker, note.enqueueId, message);
    SealedLedger(note.family, c.rows);
  }

  lemma RecordKeeps(env: Env, w: World, e: Event)
    requires WorldInv(env, w) && e.Record?
    ensures WorldInv(env, Apply(env, w, e))
  {
    hide CellSound, SealedFor, FamilyInv, ConsumptionStep, DecideEnqueue, CellGrows,
      CellsInv, StreamInv, SendingInv, InflightInv;
    var message, worker := e.message, e.worker;
    if (message, worker) in w.inflight && w.inflight[(message, worker)] == Acknowledging
       && message < |w.stream| && w.stream[message].note.commandId in w.cells {
      var note := w.stream[message].note;
      var id := note.commandId;
      InflightAt(env, w, message, worker);
      EntryAt(env, w, message);
      var d := Commit(Begin(w.cells[id]),
                      ConsumptionStep(note.family, w.cells[id].rows, worker, note.enqueueId, message)).cell;
      RecordCell(env, note, worker, message, w.cells[id]);
      assert ConsumptionRefers(w.stream, id, d.rows);
      if id in w.sending { SealedIsNotSending(env, w, id, note, worker); }
      ReplaceCell(env, w, id, d);
      var v := w.(cells := w.cells[id := d]);
      var u := v.(inflight := v.inflight - {(message, worker)});
      Forget(env, v, u);
      assert Apply(env, w, e) == u;
    }
  }

  lemma SealedIsNotSending(env: Env, w: World, id: string, note: Note, worker: string)
    requires id in w.cells && id in w.sending && WorldInv(env, w)
    ensures !SealedFor(env, note, w.cells[id].rows, worker)
  {
    SendingAt(env, w, id);
  }

  lemma ApplyKeeps(env: Env, w: World, e: Event)
    requires WorldInv(env, w)
    ensures WorldInv(env, Apply(env, w, e))
  {
    hide CellsInv, StreamInv, SendingInv, InflightInv;
    match e
    case Submit(id, category, payloadValid) =>
      if id !in w.cells { SubmitKeeps(env, w, id, category, payloadValid); }
    case Call(_, _, _, _, _) => CallKeeps(env, w, e);
    case Send(_, _, _) => EnqueueKeeps(env, w, e);
    case CommitEnqueue(_, _) => EnqueueKeeps(env, w, e);
    case LoseEnqueue(_) => EnqueueKeeps(env, w, e);
    case MarkQueuedNow(_, _) => MarkKeeps(env, w, e);
    case Work(_, _, _, _, _, _, _) => WorkKeeps(env, w, e);
    case Record(_, _) => RecordKeeps(env, w, e);
    case _ => StreamKeeps(env, w, e);
  }

  lemma StartInv(env: Env)
    ensures WorldInv(env, START)
  {
  }

  lemma {:induction false} ReplayKeeps(env: Env, w: World, events: seq<Event>)
    requires WorldInv(env, w)
    ensures WorldInv(env, Replay(env, w, events))
    decreases |events|
  {
    hide WorldInv, Apply;
    if events != [] {
      ApplyKeeps(env, w, events[0]);
      ReplayKeeps(env, Apply(env, w, events[0]), events[1..]);
    }
  }
}
