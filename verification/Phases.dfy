/**
 The abstract life of one command. `Abs` reads the phase off the durable rows; `Next`
 is the only way a commit may change it.
 */
module Phases {
  import opened Wrappers
  import opened CommandModel
  import opened RuntimeHandoff
  import opened CommandExecution
  import opened Invariants

  /** What the adapter call left behind. */
  datatype Effect = Effect(recordId: string, outcome: RuntimeOutcome)

  datatype Phase =
    | Waiting
    | Dropped
    | Started(bootstrap: string)
    | Owned(bootstrap: string, owner: string)
    | Closed(bootstrap: string, owner: string, session: string)
    | Executed(bootstrap: string, owner: string, session: string, effect: Effect)
    | Handed(bootstrap: string, owner: string, session: string, effect: Effect, handoff: string)
    | Settled(bootstrap: string, owner: string, session: string, effect: Effect, handoff: string, settlement: string,
              final: CommandStatus)
    | Sealed(owner: string, session: string, effect: Effect, final: CommandStatus, orchestration: string)

  function Rank(p: Phase): nat {
    match p
    case Waiting => 0
    case Dropped => 9
    case Started(_) => 1
    case Owned(_, _) => 2
    case Closed(_, _, _) => 3
    case Executed(_, _, _, _) => 4
    case Handed(_, _, _, _, _) => 5
    case Settled(_, _, _, _, _, _, _) => 6
    case Sealed(_, _, _, _, _) => 7
  }

  ghost function EffectOf(x: Execution): Effect { Effect(x.recordId, x.outcome) }

  ghost function BootOf(m: Ledger): string { if m.bootstrap.Some? then m.bootstrap.value.identifier else "" }

  ghost function OwnerOf(m: Ledger): string { if m.envelope.Some? then m.envelope.value.worker else "" }

  ghost function SessionOf(m: Ledger): string { if m.session.Some? then m.session.value.identifier else "" }

  /** The last artifact of the chain decides. */
  ghost function Abs(r: Rows): Phase {
    var m := Meta(r);
    var boot, owner, session := BootOf(m), OwnerOf(m), SessionOf(m);
    if r.attempt.None? then
      if r.command.status == CmdCancelled then Dropped else Waiting
    else if m.envelope.None? then Started(boot)
    else if m.bridges == [] then Owned(boot, owner)
    else if m.execution.None? then Closed(boot, owner, session)
    else
      var effect := EffectOf(m.execution.value);
      if m.handoff.None? then Executed(boot, owner, session, effect)
      else if m.terminalization.None? then Handed(boot, owner, session, effect, m.handoff.value.identifier)
      else if m.orchestration.None? then
        Settled(boot, owner, session, effect, m.handoff.value.identifier, m.terminalization.value.identifier,
                r.command.status)
      else Sealed(owner, session, effect, r.command.status, m.orchestration.value.identifier)
  }

  /** One commit keeps the phase or takes exactly one step forward, carrying along
      everything the phase has already fixed. */
  ghost predicate Next(f: Family, p: Phase, q: Phase) {
    || p == q
    || match p
       case Waiting => q.Dropped? || q.Started?
       case Started(boot) => q.Owned? && q.bootstrap == boot
       case Owned(boot, owner) => q.Closed? && q.bootstrap == boot && q.owner == owner
       case Closed(boot, owner, session) =>
         q.Executed? && q.bootstrap == boot && q.owner == owner && q.session == session
       case Executed(boot, owner, session, effect) =>
         q.Handed? && q.bootstrap == boot && q.owner == owner && q.session == session && q.effect == effect
       case Handed(boot, owner, session, effect, handoff) =>
         && q.Settled? && q.bootstrap == boot && q.owner == owner && q.session == session
         && q.effect == effect && q.handoff == handoff
       case Settled(boot, owner, session, effect, handoff, settlement, final) =>
         && q.Sealed? && q.owner == owner && q.session == session && q.effect == effect && q.final == final
         && q.orchestration == handoff == settlement
         && boot == BootstrapIdentifier(f, handoff)
       case _ => false
  }

  /** One lawful commit. */
  ghost predicate Moves(f: Family, r: Rows, q: Rows) {
    && FamilyInv(f, r) && FamilyInv(f, q)
    && Grows(r, q)
    && Next(f, Abs(r), Abs(q))
  }

  ghost predicate StepMoves(f: Family, r: Rows, s: Step) {
    s.Write? ==> Moves(f, r, s.rows)
  }

  /** The executor pinned by the envelope. */
  ghost predicate Pinned(r: Rows, executor: string) {
    Meta(r).envelope.Some? && Meta(r).envelope.value.worker == executor
  }

  lemma InvCategory(f: Family, r: Rows)
    requires FamilyInv(f, r)
    ensures r.command.category == CategoryOf(f)
  {
  }

  // ---- writing one artifact to the three rows ----

  /** A runtime artifact that starts no new phase of the statuses. */
  ghost predicate KeepsStatuses(m: Ledger, n: Ledger) {
    && (n.bridges == [] <==> m.bridges == [])
    && n.terminalization == m.terminalization
    && (m.terminalization.Some? ==> n.execution == m.execution && n.terminalStatus == m.terminalStatus)
  }

  /** The rows whose dictionaries are all copies of `n`. */
  ghost function Spread(r: Rows, n: Ledger): Rows
    requires r.attempt.Some?
  {
    var s := n.(enqueue := r.command.summary.enqueue, queuedNow := r.command.summary.queuedNow);
    Rows(r.command.(summary := s), r.earlier, Some(r.attempt.value.(metadata := n)),
         if r.job.Some? then Some(r.job.value.(summary := s.(queuedNow := r.job.value.summary.queuedNow))) else None)
  }

  lemma PutAllIsSpread(r: Rows, a: Artifact)
    requires r.attempt.Some? && Mirrored(r)
    ensures PutAll(r, a) == Spread(r, Put(Meta(r), a))
  {
  }

  lemma SpreadMirrors(r: Rows, n: Ledger)
    requires r.attempt.Some? && Linked(r) && Mirrored(r) && n.enqueue.None? && n.queuedNow.None?
    ensures Linked(Spread(r, n)) && Mirrored(Spread(r, n)) && IdsOf(Spread(r, n)) == IdsOf(r)
  {
  }

  lemma SpreadKeepsStatuses(f: Family, r: Rows, n: Ledger)
    requires r.attempt.Some? && Chained(f, Meta(r)) && Chained(f, n)
    requires Statuses(f, r, Meta(r)) && KeepsStatuses(Meta(r), n)
    ensures Statuses(f, Spread(r, n), n)
  {
  }

  lemma SpreadGrows(r: Rows, n: Ledger)
    requires r.attempt.Some? && Mirrored(r) && LedgerGrows(Meta(r), n)
    ensures Grows(r, Spread(r, n))
  {
  }

  ghost predicate RefersToEnqueue(c: Option<Consumption>, q: Option<Enqueue>) {
    c.Some? && q.Some? && c.value.enqueueIdentifier == q.value.identifier
  }

  /** To write an artifact to all rows it is enough to look at one dictionary. */
  lemma SpreadMoves(f: Family, r: Rows, n: Ledger)
    requires FamilyInv(f, r) && r.attempt.Some? && n.enqueue.None? && n.queuedNow.None?
    requires LedgerInv(f, IdsOf(r), n) && LedgerGrows(Meta(r), n)
    requires KeepsStatuses(Meta(r), n)
    requires n.consumption == Meta(r).consumption || RefersToEnqueue(n.consumption, r.command.summary.enqueue)
    ensures FamilyInv(f, Spread(r, n)) && Grows(r, Spread(r, n))
  {
    hide OwnedBy, SameSession, SameRecord, NeverReused, LedgerGrows;
    SpreadMirrors(r, n);
    SpreadKeepsStatuses(f, r, n);
    SpreadGrows(r, n);
    assert CommandSide(Spread(r, n).command.summary);
  }

  // ---- the commits before the adapter call ----

  lemma BootstrapMoves(f: Family, r: Rows, identifier: string, amb: Ambient)
    requires FamilyInv(f, r)
    ensures StepMoves(f, r, BootstrapStep(f, r, identifier, amb))
  {
  }

  lemma JobRunMoves(f: Family, r: Rows, amb: Ambient)
    requires FamilyInv(f, r)
    ensures StepMoves(f, r, JobRunStep(r, amb))
  {
  }

  lemma EnvelopeMoves(f: Family, r: Rows, req: Request)
    requires FamilyInv(f, r)
    ensures StepMoves(f, r, EnvelopeStep(r, req))
  {
    var s := EnvelopeStep(r, req);
    if s.Write? { SpreadMoves(f, r, Meta(r).(envelope := Meta(s.rows).envelope)); }
  }

  lemma LeaseMoves(f: Family, r: Rows, req: Request, now: Time)
    requires FamilyInv(f, r) && Pinned(r, req.executor)
    ensures StepMoves(f, r, LeaseStep(r, req, now))
  {
    var s := LeaseStep(r, req, now);
    if s.Write? { SpreadMoves(f, r, Meta(r).(lease := Meta(s.rows).lease)); }
  }

  lemma GateMoves(f: Family, r: Rows, req: Request, now: Time)
    requires FamilyInv(f, r) && Pinned(r, req.executor)
    ensures StepMoves(f, r, GateStep(r, req, now))
  {
    var s := GateStep(r, req, now);
    if s.Write? { SpreadMoves(f, r, Meta(r).(gate := Meta(s.rows).gate)); }
  }

  lemma GuardMoves(f: Family, r: Rows, req: Request, now: Time)
    requires FamilyInv(f, r) && Pinned(r, req.executor)
    ensures StepMoves(f, r, GuardStep(r, req, now))
  {
    var s := GuardStep(r, req, now);
    if s.Write? { SpreadMoves(f, r, Meta(r).(guard := Meta(s.rows).guard)); }
  }

  lemma OpenSessionKeepsLedger(f: Family, ids: Ids, m: Ledger, session: ExecSession)
    requires LedgerInv(f, ids, m) && m.guard.Some? && session.executor == m.envelope.value.worker
    requires session.expiresAt <= m.guard.value.expiresAt
    requires session.finalizedBy.None? || session.finalizedBy == Some(session.executor)
    requires m.session.Some? ==> m.session.value.finalizedBy.None?
    ensures LedgerInv(f, ids, m.(session := Some(session))) && LedgerGrows(m, m.(session := Some(session)))
  {
  }

  /** A session that is not finalized may be replaced: nothing depends on it yet. */
  lemma OpenSessionMoves(f: Family, r: Rows, session: ExecSession)
    requires FamilyInv(f, r) && Meta(r).guard.Some? && Pinned(r, session.executor)
    requires session.expiresAt <= Meta(r).guard.value.expiresAt
    requires session.finalizedBy.None? || session.finalizedBy == Some(session.executor)
    requires Meta(r).session.Some? ==> Meta(r).session.value.finalizedBy.None?
    ensures r.attempt.Some? && Moves(f, r, PutAll(r, SessionArtifact(session)))
  {
    OpenSessionKeepsLedger(f, IdsOf(r), Meta(r), session);
    SpreadMoves(f, r, Meta(r).(session := Some(session)));
  }

  lemma SessionStartMoves(f: Family, r: Rows, req: Request, amb: Ambient)
    requires FamilyInv(f, r) && Pinned(r, req.executor)
    ensures StepMoves(f, r, SessionStartStep(r, req, amb))
  {
    var s := SessionStartStep(r, req, amb);
    if s.Write? { OpenSessionMoves(f, r, Meta(s.rows).session.value); }
  }

  lemma SessionFinalizeMoves(f: Family, r: Rows, req: Request, now: Time)
    requires FamilyInv(f, r) && Pinned(r, req.executor)
    ensures StepMoves(f, r, SessionFinalizeStep(r, req, now))
  {
    var s := SessionFinalizeStep(r, req, now);
    if s.Write? { OpenSessionMoves(f, r, Meta(s.rows).session.value); }
  }

  lemma OutcomeMoves(f: Family, r: Rows, req: Request)
    requires FamilyInv(f, r) && Pinned(r, req.executor)
    ensures StepMoves(f, r, OutcomeStep(r, req))
  {
    var s := OutcomeStep(r, req);
    if s.Write? { SpreadMoves(f, r, Meta(r).(outcome := Meta(s.rows).outcome)); }
  }

  lemma FirstBridgeKeepsLedger(f: Family, ids: Ids, m: Ledger, mine: Checkpoint)
    requires LedgerInv(f, ids, m) && m.bridges == [] && m.outcome == Some(mine)
    ensures LedgerInv(f, ids, m.(bridges := [mine])) && LedgerGrows(m, m.(bridges := [mine]))
  {
  }

  lemma DisposeGrows(r: Rows, n: Ledger, now: Time)
    requires r.attempt.Some? && r.job.Some? && Mirrored(r) && LedgerGrows(Meta(r), n)
    requires Meta(r).terminalization.None? && r.command.status != CmdCancelled
    ensures Grows(r, Spread(Dispose(r, now), n))
  {
  }

  lemma RunningFacts(f: Family, r: Rows)
    requires FamilyInv(f, r) && r.attempt.Some? && r.attempt.value.endedAt.None?
    ensures LedgerInv(f, IdsOf(r), Meta(r)) && Chained(f, Meta(r)) && Meta(r).bridges == []
    ensures Meta(r).terminalization.None? && Meta(r).execution.None?
      && (Meta(r).session.Some? ==> Meta(r).envelope.Some?)
    ensures (Meta(r).outcome.Some? ==> Meta(r).session.Some?) && Linked(r) && Mirrored(r)
    ensures r.command.category == CategoryOf(f) && r.earlier == [] && CommandSide(r.command.summary)
    ensures r.command.status != CmdCancelled && r.command.errorCode.None? && r.command.errorMessage.None?
  {
  }

  lemma DisposedRows(r: Rows, mine: Checkpoint, now: Time)
    requires r.attempt.Some? && r.job.Some? && Linked(r) && Mirrored(r) && Meta(r).bridges == []
    ensures var q := PutAll(Dispose(r, now), BridgeArtifact(mine));
            && q == Spread(Dispose(r, now), Meta(r).(bridges := [mine])) && Meta(q) == Meta(r).(bridges := [mine])
            && Linked(q) && Mirrored(q) && IdsOf(q) == IdsOf(r) && q.command.category == r.command.category
            && q.earlier == r.earlier && q.command.summary == r.command.summary.(bridges := [mine])
            && q.command.errorCode == r.command.errorCode && q.command.errorMessage == r.command.errorMessage
  {
    assert Meta(r).bridges + [mine] == [mine];
  }

  lemma DisposedInv(f: Family, r: Rows, q: Rows, mine: Checkpoint, now: Time)
    requires r.attempt.Some? && r.job.Some? && q == PutAll(Dispose(r, now), BridgeArtifact(mine))
    requires q.command.category == CategoryOf(f) && q.earlier == [] && CommandSide(q.command.summary)
    requires q.command.errorCode.None? && q.command.errorMessage.None?
    requires Linked(q) && Mirrored(q) && LedgerInv(f, IdsOf(q), Meta(q)) && Meta(q).bridges != []
      && Meta(q).terminalization.None?
    ensures FamilyInv(f, q)
  {
    hide Linked, Mirrored, Chained, OwnedBy, SameSession, SameRecord, SameIdentifier, NeverReused;
  }

  lemma DisposedMoves(f: Family, r: Rows, mine: Checkpoint, now: Time)
    requires FamilyInv(f, r) && r.attempt.Some? && r.attempt.value.endedAt.None? && r.job.Some?
    requires Meta(r).outcome == Some(mine)
    ensures Moves(f, r, PutAll(Dispose(r, now), BridgeArtifact(mine)))
  {
    hide FamilyInv, LedgerInv, LedgerGrows, Linked, Mirrored, Grows, Spread;
    var q := PutAll(Dispose(r, now), BridgeArtifact(mine));
    RunningFacts(f, r);
    DisposedRows(r, mine, now);
    FirstBridgeKeepsLedger(f, IdsOf(r), Meta(r), mine);
    DisposeGrows(r, Meta(r).(bridges := [mine]), now);
    DisposedInv(f, r, q, mine, now);
  }

  lemma DispositionMoves(f: Family, r: Rows, req: Request, now: Time)
    requires FamilyInv(f, r) && Pinned(r, req.executor)
    ensures StepMoves(f, r, BridgeStep(0, r, req, now))
  {
    hide FamilyInv, LedgerInv, LedgerGrows, Linked, Mirrored, Grows, Spread;
    var s := BridgeStep(0, r, req, now);
    if s.Write? {
      RunningFacts(f, r);
      DisposedMoves(f, r, Checkpoint(Meta(r).session.value.identifier, req.executor), now);
      assert s.rows == PutAll(Dispose(r, now),
                              BridgeArtifact(Checkpoint(Meta(r).session.value.identifier, req.executor)));
    }
  }

  lemma BridgeMoves(f: Family, k: nat, r: Rows, req: Request, now: Time)
    requires FamilyInv(f, r) && Pinned(r, req.executor) && k < BRIDGES
    ensures StepMoves(f, r, BridgeStep(k, r, req, now))
  {
    if k == 0 {
      DispositionMoves(f, r, req, now);
    } else {
      var s := BridgeStep(k, r, req, now);
      if s.Write? {
        var bridge := Checkpoint(Meta(r).session.value.identifier, req.executor);
        SpreadMoves(f, r, Meta(r).(bridges := Meta(r).bridges + [bridge]));
      }
    }
  }

  // ---- the commits from the adapter call on ----

  lemma ExecutionMoves(f: Family, r: Rows, req: Request, reply: Reply)
    requires FamilyInv(f, r) && r.attempt.Some? && Meta(r).execution.None?
    requires AdapterReady(Meta(r), req.executor) && reply.Answered?
    ensures r.attempt.value.jobRunId.Some?
    ensures var x := ExecutionOf(f, r, req, reply);
            Moves(f, r, PutAll(r, ExecutionArtifact(x, TerminalStatusOf(f, x, reply))))
  {
    var x := ExecutionOf(f, r, req, reply);
    SpreadMoves(f, r, Put(Meta(r), ExecutionArtifact(x, TerminalStatusOf(f, x, reply))));
  }

  lemma HandoffKeepsLedger(f: Family, ids: Ids, m: Ledger, h: Handoff)
    requires LedgerInv(f, ids, m) && m.handoff.None? && m.execution.Some?
    requires h.recordId == m.execution.value.recordId && h.executor == m.execution.value.executor
    requires h.jobRunId == m.execution.value.jobRunId
    requires h.sessionIdentifier == m.session.value.identifier && h.bootstrapIdentifier == m.bootstrap.value.identifier
    requires !h.reusedHandoff && !h.reusedExecution
    ensures LedgerInv(f, ids, m.(handoff := Some(h))) && LedgerGrows(m, m.(handoff := Some(h)))
  {
  }

  lemma HandoffRecordMoves(f: Family, r: Rows, req: Request, now: Time)
    requires FamilyInv(f, r) && r.attempt.Some? && Meta(r).handoff.None?
    requires Meta(r).execution.Some? ==> Meta(r).execution.value.executor == req.executor
    ensures StepMoves(f, r, HandoffRecordStep(r, req, now, false, false))
  {
    hide OwnedBy, NeverReused, LedgerGrows;
    var s := HandoffRecordStep(r, req, now, false, false);
    if s.Write? {
      HandoffKeepsLedger(f, IdsOf(r), Meta(r), Meta(s.rows).handoff.value);
      SpreadMoves(f, r, Meta(r).(handoff := Meta(s.rows).handoff));
    }
  }

  lemma SettlementKeepsLedger(f: Family, ids: Ids, m: Ledger, t: Terminalization)
    requires LedgerInv(f, ids, m) && m.handoff.Some? && m.terminalization.None?
    requires t.recordId == m.execution.value.recordId && t.outcome == m.execution.value.outcome
    requires t.category == CategoryIn(m) && t.executor == m.envelope.value.worker && !t.reused
    ensures LedgerInv(f, ids, m.(terminalization := Some(t))) && LedgerGrows(m, m.(terminalization := Some(t)))
  {
  }

  lemma SettleMirrors(f: Family, r: Rows, t: Terminalization, v: Verdict)
    requires r.attempt.Some? && v.Verdict? && Linked(r) && Mirrored(r)
    ensures var q := Settle(f, r, t, v);
            Linked(q) && Mirrored(q) && IdsOf(q) == IdsOf(r) && Meta(q) == Meta(r).(terminalization := Some(t))
  {
  }

  lemma SettleGrows(f: Family, r: Rows, t: Terminalization, v: Verdict)
    requires r.attempt.Some? && v.Verdict? && Mirrored(r) && Meta(r).terminalization.None?
      && r.command.status != CmdCancelled
    requires LedgerGrows(Meta(r), Meta(r).(terminalization := Some(t)))
    ensures Grows(r, Settle(f, r, t, v))
  {
  }

  lemma HandedFacts(f: Family, r: Rows)
    requires FamilyInv(f, r) && Meta(r).handoff.Some?
    ensures r.attempt.Some? && r.job.Some? && Linked(r) && Mirrored(r) && LedgerInv(f, IdsOf(r), Meta(r))
    ensures var m := Meta(r);
            m.envelope.Some? && m.session.Some? && m.bridges != [] && m.execution.Some?
            && (f == ProfileCapture ==> m.terminalStatus.Some?) && (m.terminalization.None? ==> m.orchestration.None?)
    ensures r.command.category == CategoryOf(f) && r.earlier == [] && r.command.status != CmdCancelled
            && CommandSide(r.command.summary)
  {
  }

  lemma SettledInv(f: Family, r: Rows, q: Rows, t: Terminalization, v: Verdict)
    requires r.attempt.Some? && r.job.Some? && v.Verdict? && q == Settle(f, r, t, v)
    requires r.command.category == CategoryOf(f) && r.earlier == [] && CommandSide(r.command.summary)
    requires Linked(q) && Mirrored(q) && LedgerInv(f, IdsOf(q), Meta(q)) && v == VerdictOf(f, Meta(q))
      && Meta(q).bridges != []
    requires t.attemptFinal == AttemptFinal(v.final) && t.commandFinal == CommandFinal(v.final)
      && t.jobFinal == JobFinal(v.final)
    ensures FamilyInv(f, q)
  {
    hide Linked, Mirrored, Chained, OwnedBy, SameSession, SameRecord, SameIdentifier, NeverReused;
  }

  lemma SettleMoves(f: Family, r: Rows, t: Terminalization, v: Verdict)
    requires FamilyInv(f, r) && Meta(r).handoff.Some? && Meta(r).terminalization.None?
    requires v == VerdictOf(f, Meta(r)) && v.Verdict?
    requires t.recordId == Meta(r).execution.value.recordId && t.outcome == Meta(r).execution.value.outcome
    requires t.category == CategoryIn(Meta(r)) && t.executor == Meta(r).envelope.value.worker && !t.reused
    requires t.attemptFinal == AttemptFinal(v.final) && t.commandFinal == CommandFinal(v.final)
      && t.jobFinal == JobFinal(v.final)
    ensures Moves(f, r, Settle(f, r, t, v))
  {
    hide FamilyInv, LedgerInv, LedgerGrows, Linked, Mirrored;
    var q := Settle(f, r, t, v);
    HandedFacts(f, r);
    SettlementKeepsLedger(f, IdsOf(r), Meta(r), t);
    SettleMirrors(f, r, t, v);
    SettleGrows(f, r, t, v);
    assert VerdictOf(f, Meta(q)) == v;
    SettledInv(f, r, q, t, v);
  }

  lemma TerminalizeMoves(f: Family, r: Rows, identifier: string, executor: string, now: Time)
    requires FamilyInv(f, r)
    ensures StepMoves(f, r, TerminalizeStep(f, r, identifier, executor, now))
  {
    var s := TerminalizeStep(f, r, identifier, executor, now);
    if s.Write? { SettleMoves(f, r, Meta(s.rows).terminalization.value, VerdictOf(f, Meta(r))); }
  }

  lemma SealKeepsLedger(f: Family, ids: Ids, m: Ledger, o: Orchestration)
    requires LedgerInv(f, ids, m) && m.orchestration.None? && m.terminalization.Some?
    requires m.terminalization.value.identifier == m.handoff.value.identifier == o.identifier
    requires m.terminalization.value.executor == o.executor && o.recordId == m.execution.value.recordId
    requires m.bootstrap.value.identifier == BootstrapIdentifier(f, o.identifier) && o.terminalizationPresent
      && !o.reused
    ensures LedgerInv(f, ids, m.(orchestration := Some(o))) && LedgerGrows(m, m.(orchestration := Some(o)))
  {
  }

  lemma SettledFacts(f: Family, r: Rows)
    requires FamilyInv(f, r) && Meta(r).terminalization.Some?
    ensures r.attempt.Some? && Mirrored(r) && LedgerInv(f, IdsOf(r), Meta(r)) && r.job.Some?
    ensures var m := Meta(r);
            && m.bootstrap.Some? && m.envelope.Some? && m.session.Some? && m.bridges != [] && m.execution.Some?
            && m.handoff.Some?
            && m.handoff.value.recordId == m.execution.value.recordId
            && m.terminalization.value.executor == m.envelope.value.worker
  {
  }

  lemma OrchestrationRecordMoves(f: Family, r: Rows, req: OrchestrationRequest, now: Time)
    requires FamilyInv(f, r) && Meta(r).orchestration.None? && Meta(r).terminalization.Some?
    requires Meta(r).terminalization.value.identifier == Meta(r).handoff.value.identifier == req.identifier
    requires Meta(r).terminalization.value.executor == req.executor
    requires Meta(r).bootstrap.value.identifier == BootstrapIdentifier(f, req.identifier)
    ensures StepMoves(f, r, OrchestrationRecordStep(r, req, now))
  {
    hide FamilyInv, LedgerInv, LedgerGrows;
    SettledFacts(f, r);
    var s := OrchestrationRecordStep(r, req, now);
    if s.Write? {
      SealKeepsLedger(f, IdsOf(r), Meta(r), Meta(s.rows).orchestration.value);
      SpreadMoves(f, r, Meta(r).(orchestration := Meta(s.rows).orchestration));
    }
  }

  lemma ExecuteNowKeepsLedger(f: Family, ids: Ids, m: Ledger, e: ExecuteNow)
    requires LedgerInv(f, ids, m) && m.executeNow.None? && m.orchestration.Some?
    requires m.orchestration.value.identifier == e.identifier == ExecuteNowIdentifier(f, ids.commandId)
    requires m.orchestration.value.executor == ExecuteNowExecutor(f)
    requires e.recordId == m.execution.value.recordId && e.category == CategoryIn(m)
    requires e.outcome == (if f == OnDemandRead then Some(m.execution.value.outcome) else None)
    requires e.orchestrationPresent && e.terminalizationPresent && !e.reused
    ensures LedgerInv(f, ids, m.(executeNow := Some(e))) && LedgerGrows(m, m.(executeNow := Some(e)))
  {
  }

  lemma ExecuteNowRecordMoves(f: Family, r: Rows, now: Time)
    requires FamilyInv(f, r) && Meta(r).executeNow.None? && Meta(r).orchestration.Some?
    requires Meta(r).orchestration.value.identifier == ExecuteNowIdentifier(f, r.command.id)
    requires Meta(r).orchestration.value.executor == ExecuteNowExecutor(f)
    ensures StepMoves(f, r, ExecuteNowRecordStep(f, r, now))
  {
    hide OwnedBy, SameSession, NeverReused, LedgerGrows;
    var s := ExecuteNowRecordStep(f, r, now);
    if s.Write? {
      ExecuteNowKeepsLedger(f, IdsOf(r), Meta(r), Meta(s.rows).executeNow.value);
      SpreadMoves(f, r, Meta(r).(executeNow := Meta(s.rows).executeNow));
    }
  }

  lemma CancelMoves(f: Family, r: Rows, reason: string, now: Time)
    requires FamilyInv(f, r)
    ensures StepMoves(f, r, CancelStep(r, reason, now))
  {
  }
}
