/**
 The guarantees of the whole system, over every sequence of events from the start.
 */
module WorldTheorems {
  import opened Wrappers
  import opened CommandModel
  import opened RuntimeHandoff
  import opened CommandExecution
  import opened Invariants
  import opened Phases
  import opened Safety
  import opened Recovery
  import opened QueuedExecution
  import opened World
  import opened WorldSafety

  ghost function WorldAfter(env: Env, events: seq<Event>): World {
    Replay(env, START, events)
  }

  lemma AfterInv(env: Env, events: seq<Event>)
    ensures WorldInv(env, WorldAfter(env, events))
  {
    StartInv(env);
    ReplayKeeps(env, START, events);
  }

  /** A durable state some command of this family has after some sequence of events. */
  ghost predicate Reachable(env: Env, f: Family, c: Cell) {
    exists events, id :: id in WorldAfter(env, events).cells && WorldAfter(env, events).cells[id] == c
        && c.rows.command.category == CategoryOf(f)
  }

  lemma ReachableOk(env: Env, f: Family, c: Cell)
    requires Reachable(env, f, c)
    ensures CellOk(f, c)
  {
    hide WorldInv, WorldAfter, CellSound, CellOk;
    var events, id :| id in WorldAfter(env, events).cells && WorldAfter(env, events).cells[id] == c
        && c.rows.command.category == CategoryOf(f);
    AfterInv(env, events);
    CellSoundAt(env, WorldAfter(env, events), id);
    SoundIsOk(env, f, id, c);
  }

  // ---- at most one adapter call ----

  /** Whatever crashes, retries, duplicate messages and redeliveries happen, the meter
      adapter is called at most once for a command, and a recorded result means once. */
  lemma AtMostOnce(env: Env, events: seq<Event>, id: string)
    requires id in WorldAfter(env, events).cells
    ensures var c := WorldAfter(env, events).cells[id];
            c.calls <= 1 && (Meta(c.rows).execution.Some? ==> c.calls == 1)
  {
    hide WorldInv, WorldAfter;
    AfterInv(env, events);
    CellSoundAt(env, WorldAfter(env, events), id);
    CellSoundRows(env, id, WorldAfter(env, events).cells[id]);
  }

  // ---- acknowledged messages ----

  /** An acknowledged message has a durable orchestration whose identifier derives from the
      message's enqueue identifier, made by the acknowledging worker; its command is final. */
  lemma AckSafety(env: Env, events: seq<Event>, i: nat)
    requires i < |WorldAfter(env, events).stream| && WorldAfter(env, events).stream[i].state.Acked?
    ensures var w := WorldAfter(env, events);
            var e := w.stream[i];
            && e.note.commandId in w.cells
            && var r := w.cells[e.note.commandId].rows;
            && (e.note.family == OnDemandRead ==>
                  SealedBy(Meta(r), "odr-queue:" + env.uuid5(e.note.enqueueId),
                           "on_demand_read_queue_worker:" + e.state.worker))
            && (e.note.family == ProfileCapture ==>
                  SealedBy(Meta(r), "pc-queue:" + env.uuid5(e.note.enqueueId),
                           "profile_capture_queue_worker:" + e.state.worker))
            && FullSet(e.note.family, Meta(r)) && TerminalCommand(r.command.status)
            && r.command.summary.enqueue.Some? && r.command.summary.enqueue.value.identifier == e.note.enqueueId
  {
    hide WorldInv, WorldAfter, FamilyInv;
    AfterInv(env, events);
    var w := WorldAfter(env, events);
    EntryAt(env, w, i);
    SealedIsFull(w.stream[i].note.family, w.cells[w.stream[i].note.commandId].rows);
  }

  lemma SamePrefix(p: string, a: string, b: string)
    requires p + a == p + b
    ensures a == b
  {
    assert (p + a)[|p|..] == a && (p + b)[|p|..] == b;
  }

  /** All acknowledged messages of one command were acknowledged by one worker, for one enqueue. */
  lemma OneWorkerPerCommand(env: Env, events: seq<Event>, i: nat, j: nat)
    requires var s := WorldAfter(env, events).stream;
             i < |s| && j < |s| && s[i].state.Acked? && s[j].state.Acked? && s[i].note.commandId == s[j].note.commandId
    ensures var s := WorldAfter(env, events).stream;
            s[i].state.worker == s[j].state.worker && s[i].note == s[j].note
  {
    hide WorldInv, WorldAfter, FamilyInv, FullSet;
    AfterInv(env, events);
    AckSafety(env, events, i);
    AckSafety(env, events, j);
    var w := WorldAfter(env, events);
    EntryAt(env, w, i);
    EntryAt(env, w, j);
    var f := w.stream[i].note.family;
    assert CategoryOf(f) == CategoryOf(w.stream[j].note.family);
    SamePrefix(if f == OnDemandRead then "on_demand_read_queue_worker:" else "profile_capture_queue_worker:",
               w.stream[i].state.worker, w.stream[j].state.worker);
  }

  /** A consumption record names the message that was acknowledged, its worker and its enqueue. */
  lemma ConsumptionNamesAck(env: Env, events: seq<Event>, f: Family, id: string)
    requires id in WorldAfter(env, events).cells
    requires WorldAfter(env, events).cells[id].rows.command.category == CategoryOf(f)
    ensures var w := WorldAfter(env, events);
            var c := w.cells[id].rows.command.summary.consumption;
            c.Some? ==> c.value.messageId < |w.stream|
                        && w.stream[c.value.messageId]
                           == Entry(Note(f, id, c.value.enqueueIdentifier), Acked(c.value.worker))
  {
    hide WorldAfter, CellSound, EntrySound, InflightSound, SendingSound;
    AfterInv(env, events);
    var w := WorldAfter(env, events);
    assert ConsumptionRefers(w.stream, id, w.cells[id].rows);
  }

  // ---- the direct and the queued route exclude each other ----

  lemma RoutesDiffer(f: Family, env: Env, enqueueId: string, commandId: string)
    ensures QueueIdentifier(f, env, enqueueId) != ExecuteNowIdentifier(f, commandId)
  {
    var q, e := QueueIdentifier(f, env, enqueueId), ExecuteNowIdentifier(f, commandId);
    assert q[1] != e[1];
  }

  lemma ExecutedNowIsSealed(f: Family, r: Rows)
    requires FamilyInv(f, r) && Meta(r).executeNow.Some?
    ensures Meta(r).orchestration.Some?
      && Meta(r).orchestration.value.identifier == ExecuteNowIdentifier(f, r.command.id)
  {
  }

  lemma SoundRoutes(env: Env, id: string, c: Cell)
    requires CellSound(env, id, c)
    ensures !(Meta(c.rows).executeNow.Some? && Meta(c.rows).consumption.Some?)
  {
    hide FamilyInv;
    var f := FamilyOf(c.rows.command.category);
    if f.Some? && Meta(c.rows).executeNow.Some? && Meta(c.rows).consumption.Some? {
      ExecutedNowIsSealed(f.value, c.rows);
      RoutesDiffer(f.value, env, Meta(c.rows).consumption.value.enqueueIdentifier, c.rows.command.id);
    }
  }

  /** No command carries both an execute-now and a queue-consumption artifact, and none with
      an execute-now artifact has an acknowledged message. */
  lemma RouteExclusion(env: Env, events: seq<Event>, id: string)
    requires id in WorldAfter(env, events).cells
    ensures var w := WorldAfter(env, events);
            var m := Meta(w.cells[id].rows);
            && !(m.executeNow.Some? && m.consumption.Some?)
            && (m.executeNow.Some? ==>
                  forall i :: 0 <= i < |w.stream| && w.stream[i].note.commandId == id ==> !w.stream[i].state.Acked?)
  {
    hide WorldInv, WorldAfter, FamilyInv, FullSet;
    AfterInv(env, events);
    var w := WorldAfter(env, events);
    CellSoundAt(env, w, id);
    SoundRoutes(env, id, w.cells[id]);
    if Meta(w.cells[id].rows).executeNow.Some? {
      forall i | 0 <= i < |w.stream| && w.stream[i].note.commandId == id ensures !w.stream[i].state.Acked? {
        if w.stream[i].state.Acked? { AckedNotDirect(env, events, i); }
      }
    }
  }

  lemma AckedNotDirect(env: Env, events: seq<Event>, i: nat)
    requires i < |WorldAfter(env, events).stream| && WorldAfter(env, events).stream[i].state.Acked?
    ensures var w := WorldAfter(env, events);
            w.stream[i].note.commandId in w.cells && Meta(w.cells[w.stream[i].note.commandId].rows).executeNow.None?
  {
    hide WorldInv, WorldAfter, FamilyInv, FullSet;
    AfterInv(env, events);
    var w := WorldAfter(env, events);
    AckSafety(env, events, i);
    EntryAt(env, w, i);
    var e := w.stream[i];
    var r := w.cells[e.note.commandId].rows;
    if Meta(r).executeNow.Some? {
      ExecutedNowIsSealed(e.note.family, r);
      RoutesDiffer(e.note.family, env, e.note.enqueueId, r.command.id);
    }
  }

  // ---- message conservation ----

  /** Messages of a command that were not turned into a released copy. */
  ghost function Live(stream: seq<Entry>, id: string): nat {
    if stream == [] then 0
    else
      var last := stream[|stream| - 1];
      Live(stream[..|stream| - 1], id) + (if last.note.commandId == id && !last.state.Released? then 1 else 0)
  }

  ghost function Enqueued(w: World, id: string): nat {
    if id in w.cells && w.cells[id].rows.command.summary.enqueue.Some? then 1 else 0
  }

  /** What was sent: a committed enqueue, an open one, and the ones lost before their commit. */
  ghost predicate Conserved(w: World, id: string) {
    Live(w.stream, id) == Enqueued(w, id) + (if id in w.sending then 1 else 0) + multiset(w.lostSends)[id]
  }

  lemma LiveAppend(stream: seq<Entry>, e: Entry, id: string)
    ensures Live(stream + [e], id) == Live(stream, id) + (if e.note.commandId == id && !e.state.Released? then 1 else 0)
  {
    assert (stream + [e])[..|stream|] == stream;
  }

  lemma {:induction false} LiveUpdate(stream: seq<Entry>, i: nat, state: EntryState, id: string)
    requires i < |stream|
    ensures Live(stream[i := stream[i].(state := state)], id) ==
            Live(stream, id)
            - (if stream[i].note.commandId == id && !stream[i].state.Released? then 1 else 0)
            + (if stream[i].note.commandId == id && !state.Released? then 1 else 0)
    decreases |stream|
  {
    var n := |stream| - 1;
    var t := stream[i := stream[i].(state := state)];
    if i < n {
      LiveUpdate(stream[..n], i, state, id);
      assert t[..n] == stream[..n][i := stream[..n][i].(state := state)];
    } else {
      assert t[..n] == stream[..n];
    }
  }

  /** How an event treats the enqueue artifact of each command. */
  lemma EnqueuedAfter(env: Env, w: World, e: Event, id: string)
    requires WorldInv(env, w)
    ensures Enqueued(Apply(env, w, e), id) ==
            Enqueued(w, id) + (if e.CommitEnqueue? && e.id == id && id in w.sending then 1 else 0)
  {
    hide WorldInv, WorkRun, Perform, QueuedNowStep, EnqueueStep, ConsumptionStep, CellSound, CellGrows, SealedFor,
      DecideEnqueue,
      Durable, Commit, SetState, HeldBy, FirstUndelivered, EnqueueRefers;
    match e
    case Call(x, family, op, amb, cut) =>
      if x in w.cells { CellSoundAt(env, w, x); CallKeepsCell(env, x, w.cells[x], family, op, amb, cut); }
    case CommitEnqueue(x, now) =>
      if x in w.sending {
        SendingAt(env, w, x);
        CellSoundAt(env, w, x);
        EligibleFresh(w.sending[x].family, w.cells[x].rows, w.sending[x].enqueueId);
        CommitEnqueueCell(env, w, x, w.sending[x], now);
      }
    case MarkQueuedNow(x, reused) =>
      if x in w.cells { CellSoundAt(env, w, x); MarkCell(env, x, w.cells[x], reused); }
    case Work(message, worker, family, lease, session, amb, cut) =>
      if message < |w.stream| && w.stream[message].note.commandId in w.cells {
        EntryAt(env, w, message);
        WorkKeepsCell(env, w, w.stream[message].note, worker, family, lease, session, amb, cut);
      }
    case Record(message, worker) =>
      if (message, worker) in w.inflight && w.inflight[(message, worker)] == Acknowledging {
        InflightAt(env, w, message, worker);
        EntryAt(env, w, message);
        RecordCell(env, w.stream[message].note, worker, message, w.cells[w.stream[message].note.commandId]);
      }
    case _ =>
  }

  lemma EligibleFresh(f: Family, r: Rows, enqueueId: string)
    requires DecideEnqueue(f, r, enqueueId).Eligible?
    ensures r.command.summary.enqueue.None?
  {
  }

  lemma ApplyConserves(env: Env, w: World, e: Event, id: string)
    requires WorldInv(env, w) && Conserved(w, id)
    ensures Conserved(Apply(env, w, e), id)
  {
    hide WorldInv, WorkRun, Perform, QueuedNowStep, EnqueueStep, ConsumptionStep, DecideEnqueue, Live, Enqueued;
    EnqueuedAfter(env, w, e, id);
    match e
    case Send(x, family, enqueueId) => LiveAppend(w.stream, Entry(Note(family, x, enqueueId), Undelivered), id);
    case CommitEnqueue(x, now) =>
      if x in w.sending { SendingAt(env, w, x); }
    case Claim(message, worker) =>
      if message < |w.stream| { LiveUpdate(w.stream, message, Pending(env.consumerName(worker)), id); }
    case Ack(message, worker) =>
      if message < |w.stream| { LiveUpdate(w.stream, message, Acked(worker), id); }
    case Recover(message, worker) =>
      if message < |w.stream| { LiveUpdate(w.stream, message, Pending(env.consumerName(worker)), id); }
    case Release(message, worker) =>
      if message < |w.stream| {
        LiveUpdate(w.stream, message, Released(|w.stream|), id);
        LiveAppend(SetState(w, message, Released(|w.stream|)), Entry(w.stream[message].note, Undelivered), id);
      }
    case _ =>
  }

  lemma {:induction false} ReplayConserves(env: Env, w: World, events: seq<Event>, id: string)
    requires WorldInv(env, w) && Conserved(w, id)
    ensures Conserved(Replay(env, w, events), id)
    decreases |events|
  {
    hide WorldInv, Apply, Conserved;
    if events != [] {
      ApplyKeeps(env, w, events[0]);
      ApplyConserves(env, w, events[0], id);
      ReplayConserves(env, Apply(env, w, events[0]), events[1..], id);
    }
  }

  /** Counting a released message and its copy once, the messages of a command are exactly
      its committed enqueue, its open enqueue and the sends lost before their commit. */
  lemma MessagesConserved(env: Env, events: seq<Event>, id: string)
    ensures Conserved(WorldAfter(env, events), id)
  {
    hide WorldInv, Apply;
    StartInv(env);
    ReplayConserves(env, START, events, id);
  }

  /** The entry in which a message lives on: the last of its chain of released copies. */
  ghost function Heir(stream: seq<Entry>, i: nat): nat
    requires i < |stream|
    decreases |stream| - i
  {
    if stream[i].state.Released? && i < stream[i].state.copy < |stream| then Heir(stream, stream[i].state.copy) else i
  }

  ghost predicate CopiesFollow(stream: seq<Entry>) {
    forall i :: 0 <= i < |stream| && stream[i].state.Released? ==>
      i < stream[i].state.copy < |stream| && stream[stream[i].state.copy].note == stream[i].note
  }

  lemma {:induction false} HeirKeepsNote(stream: seq<Entry>, i: nat)
    requires CopiesFollow(stream) && i < |stream|
    ensures Heir(stream, i) < |stream|
    ensures !stream[Heir(stream, i)].state.Released? && stream[Heir(stream, i)].note == stream[i].note
    decreases |stream| - i
  {
    if stream[i].state.Released? { HeirKeepsNote(stream, stream[i].state.copy); }
  }

  lemma ApplyFollows(env: Env, w: World, e: Event)
    requires CopiesFollow(w.stream)
    ensures CopiesFollow(Apply(env, w, e).stream)
  {
    hide WorkRun, Perform, QueuedNowStep, EnqueueStep, ConsumptionStep, DecideEnqueue, Commit, Durable;
  }

  lemma {:induction false} ReplayFollows(env: Env, w: World, events: seq<Event>)
    requires CopiesFollow(w.stream)
    ensures CopiesFollow(Replay(env, w, events).stream)
    decreases |events|
  {
    hide Apply, CopiesFollow;
    if events != [] {
      ApplyFollows(env, w, events[0]);
      ReplayFollows(env, Apply(env, w, events[0]), events[1..]);
    }
  }

  /** No message gets lost in the stream: whatever was released lives on, with the same
      content, in an entry that is undelivered, pending or acknowledged. */
  lemma NoMessageVanishes(env: Env, events: seq<Event>, i: nat)
    requires i < |WorldAfter(env, events).stream|
    ensures var s := WorldAfter(env, events).stream;
            Heir(s, i) < |s| && !s[Heir(s, i)].state.Released? && s[Heir(s, i)].note == s[i].note
  {
    hide Apply;
    ReplayFollows(env, START, events);
    HeirKeepsNote(WorldAfter(env, events).stream, i);
  }

  /** A claim that finds no matching enqueue artifact leaves the message pending and every command as it was. */
  lemma RejectedClaimIsHarmless(env: Env, w: World, e: Event)
    requires WorldInv(env, w) && e.Work? && e.message < |w.stream|
    requires var note := w.stream[e.message].note;
             note.commandId in w.cells ==>
               e.family != note.family
                   || ConsumeRefusal(note.family, w.cells[note.commandId].rows, note.enqueueId).Some?
    ensures Apply(env, w, e).cells == w.cells && Apply(env, w, e).stream == w.stream
  {
    hide WorldInv, OrchestrateOp, ConsumeRefusal;
    var note := w.stream[e.message].note;
    if note.commandId in w.cells {
      assert w.cells[note.commandId := w.cells[note.commandId]] == w.cells;
    }
  }

  // ---- nothing goes back ----

  /** A grown command is in the same phase, with the same data, or in a later one. */
  lemma GrownIsForward(f: Family, r: Rows, q: Rows)
    requires FamilyInv(f, r) && FamilyInv(f, q) && Grows(r, q)
    ensures Rank(Abs(r)) < Rank(Abs(q)) || Abs(r) == Abs(q)
  {
    hide FamilyInv;
    PhaseShape(f, r);
    PhaseShape(f, q);
  }

  lemma PhaseShape(f: Family, r: Rows)
    requires FamilyInv(f, r)
    ensures r.attempt.None? ==> Meta(r) == EMPTY_LEDGER
    ensures r.attempt.Some? ==> r.command.status != CmdCancelled && Chained(f, Meta(r))
  {
  }

  lemma ApplyGrows(env: Env, w: World, e: Event, id: string)
    requires WorldInv(env, w) && id in w.cells
    ensures id in Apply(env, w, e).cells && CellGrows(w.cells[id], Apply(env, w, e).cells[id])
  {
    hide WorldInv, WorkRun, Perform, QueuedNowStep, EnqueueStep, ConsumptionStep, CellSound, SealedFor,
      DecideEnqueue, LedgerGrows,
      Durable, Commit, SetState, HeldBy, FirstUndelivered, EnqueueRefers;
    GrowsReflexive(w.cells[id].rows);
    match e
    case Call(x, family, op, amb, cut) =>
      if x in w.cells { CellSoundAt(env, w, x); CallKeepsCell(env, x, w.cells[x], family, op, amb, cut); }
    case CommitEnqueue(x, now) =>
      if x in w.sending {
        SendingAt(env, w, x);
        CellSoundAt(env, w, x);
        CommitEnqueueCell(env, w, x, w.sending[x], now);
      }
    case MarkQueuedNow(x, reused) =>
      if x in w.cells { CellSoundAt(env, w, x); MarkCell(env, x, w.cells[x], reused); }
    case Work(message, worker, family, lease, session, amb, cut) =>
      if message < |w.stream| && w.stream[message].note.commandId in w.cells {
        EntryAt(env, w, message);
        WorkKeepsCell(env, w, w.stream[message].note, worker, family, lease, session, amb, cut);
      }
    case Record(message, worker) =>
      if (message, worker) in w.inflight && w.inflight[(message, worker)] == Acknowledging {
        InflightAt(env, w, message, worker);
        EntryAt(env, w, message);
        RecordCell(env, w.stream[message].note, worker, message, w.cells[w.stream[message].note.commandId]);
      }
    case _ =>
  }

  lemma {:induction false} ReplayGrows(env: Env, w: World, events: seq<Event>, id: string)
    requires WorldInv(env, w) && id in w.cells
    ensures id in Replay(env, w, events).cells && CellGrows(w.cells[id], Replay(env, w, events).cells[id])
    decreases |events|
  {
    hide WorldInv, Apply, LedgerGrows;
    if events == [] {
      GrowsReflexive(w.cells[id].rows);
    } else {
      var v := Apply(env, w, events[0]);
      ApplyKeeps(env, w, events[0]);
      ApplyGrows(env, w, events[0], id);
      ReplayGrows(env, v, events[1..], id);
      GrowsTransitive(w.cells[id].rows, v.cells[id].rows, Replay(env, v, events[1..]).cells[id].rows);
    }
  }

  /** Whatever happens after a state of the system, each command keeps its written artifacts
      and its phase never goes back. */
  lemma NeverBack(env: Env, events: seq<Event>, later: seq<Event>, f: Family, id: string)
    requires id in WorldAfter(env, events).cells
      && WorldAfter(env, events).cells[id].rows.command.category == CategoryOf(f)
    ensures var c := WorldAfter(env, events).cells[id];
            && id in Replay(env, WorldAfter(env, events), later).cells
            && var d := Replay(env, WorldAfter(env, events), later).cells[id];
            && CellGrows(c, d) && FamilyInv(f, c.rows) && FamilyInv(f, d.rows)
            && (Rank(Abs(c.rows)) < Rank(Abs(d.rows)) || Abs(c.rows) == Abs(d.rows))
  {
    hide WorldInv, FamilyInv, Abs, LedgerGrows, Rank;
    var w := WorldAfter(env, events);
    AfterInv(env, events);
    CellSoundAt(env, w, id);
    ReplayGrows(env, w, later, id);
    ReplayKeeps(env, w, later);
    var v := Replay(env, w, later);
    CellSoundAt(env, v, id);
    SoundIsOk(env, f, id, w.cells[id]);
    SoundIsOk(env, f, id, v.cells[id]);
    GrownIsForward(f, w.cells[id].rows, v.cells[id].rows);
  }
}
