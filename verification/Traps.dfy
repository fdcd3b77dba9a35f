/**
 The states the protocol cannot leave: a command that reads as succeeded although its
 handoff was never recorded or its result cannot be settled, and a running attempt whose
 guard has expired.
 */
module Traps {
  import opened Wrappers
  import opened CommandModel
  import opened RuntimeHandoff
  import opened CommandExecution
  import opened Invariants
  import opened Phases
  import opened Safety
  import opened Recovery

  lemma LostFacts(f: Family, r: Rows)
    requires FamilyInv(f, r) && Lost(r)
    ensures r.command.status == CmdSucceeded && r.attempt.value.status == AttSucceeded
    ensures Meta(r).bootstrap.Some? && Meta(r).terminalization.None? && Meta(r).orchestration.None?
      && Meta(r).executeNow.None?
  {
  }

  /** A lost command reads as succeeded, and no operation commits anything to it any more. */
  lemma LostIsFrozen(f: Family, g: Family, op: Operation, c: Cell, amb: Ambient)
    requires CellOk(g, c) && Lost(c.rows)
    ensures c.rows.command.status == CmdSucceeded
    ensures Perform(f, op, c, amb).progress.Refused? && Perform(f, op, c, amb).History() == [c]
  {
    hide FamilyInv, HandoffBody, OrchestrateBody;
    LostFacts(g, c.rows);
  }

  lemma UnsettleableFacts(f: Family, r: Rows)
    requires FamilyInv(f, r) && Unsettleable(f, r)
    ensures r.command.status == CmdSucceeded && r.command.category == CategoryOf(f)
    ensures Meta(r).bootstrap.Some? && Meta(r).executeNow.None? && r.job.Some? && r.attempt.value.jobRunId.Some?
    ensures f == ProfileCapture && Meta(r).execution.value.outcome == OutSucceeded
            && Meta(r).terminalStatus.value.category != Acknowledged
  {
  }

  /** A handed-over command whose result its family cannot express reads as succeeded, and no
      operation commits anything to it any more; it is a capture answered succeeded without
      the meter's acknowledgement. */
  lemma UnsettleableIsFrozen(f: Family, g: Family, op: Operation, c: Cell, amb: Ambient)
    requires CellOk(g, c) && Unsettleable(g, c.rows)
    ensures c.rows.command.status == CmdSucceeded
    ensures g == ProfileCapture && Meta(c.rows).execution.value.outcome == OutSucceeded
            && Meta(c.rows).terminalStatus.Some? && Meta(c.rows).terminalStatus.value.category != Acknowledged
    ensures Perform(f, op, c, amb).History() == [c]
    ensures op.Terminalize? || op.Orchestrate? || op.ExecuteDirectly? ==> Perform(f, op, c, amb).progress.Refused?
  {
    hide FamilyInv, HandoffBody, OrchestrateBody, CallsOnce;
    UnsettleableFacts(g, c.rows);
  }

  /** Reads as succeeded without a settlement that any call could still make. */
  ghost predicate Abandoned(f: Family, r: Rows) {
    Lost(r) || Unsettleable(f, r)
  }

  lemma AbandonedIsFrozen(f: Family, g: Family, op: Operation, c: Cell, amb: Ambient)
    requires CellOk(g, c) && Abandoned(g, c.rows)
    ensures c.rows.command.status == CmdSucceeded && Perform(f, op, c, amb).History() == [c]
  {
    hide FamilyInv, Perform, Lost, Unsettleable;
    if Lost(c.rows) { LostIsFrozen(f, g, op, c, amb); } else { UnsettleableIsFrozen(f, g, op, c, amb); }
  }

  lemma SettleableIsSettled(g: Family, c: Cell, now: Time)
    requires CellOk(g, c) && Ended(c.rows) && Meta(c.rows).terminalization.None? && !Abandoned(g, c.rows)
    ensures Meta(c.rows).handoff.Some?
    ensures TerminalizeStep(g, c.rows, "", Meta(c.rows).handoff.value.executor, now).Write?
  {
  }

  /** Of a command that has ended without an orchestration record, exactly the abandoned and
      the settled ones are beyond change: any other is settled by a terminalization that names
      the executor of its handoff. */
  lemma FrozenExactly(g: Family, c: Cell, amb: Ambient)
    requires CellOk(g, c) && Ended(c.rows) && Meta(c.rows).orchestration.None?
    ensures (forall op: Operation :: Perform(g, op, c, amb).History() == [c])
            <==> Abandoned(g, c.rows) || Meta(c.rows).terminalization.Some?
  {
    hide FamilyInv, Perform, Abandoned;
    if Abandoned(g, c.rows) {
      forall op: Operation ensures Perform(g, op, c, amb).History() == [c] { AbandonedIsFrozen(g, g, op, c, amb); }
    } else if Meta(c.rows).terminalization.Some? {
      forall op: Operation ensures Perform(g, op, c, amb).History() == [c] { SettledIsFrozen(g, op, c, amb); }
    } else {
      SettleableIsSettled(g, c, amb.now);
      var op := Terminalize("", Meta(c.rows).handoff.value.executor);
      TerminalizeWrites(g, c, amb, Meta(c.rows).handoff.value.executor);
      assert |Perform(g, op, c, amb).History()| == 2;
    }
  }

  lemma TerminalizeWrites(g: Family, c: Cell, amb: Ambient, executor: string)
    requires TerminalizeStep(g, c.rows, "", executor, amb.now).Write?
    ensures |Perform(g, Terminalize("", executor), c, amb).History()| == 2
  {
  }

  lemma SettledIsFrozen(g: Family, op: Operation, c: Cell, amb: Ambient)
    requires CellOk(g, c) && Ended(c.rows) && Meta(c.rows).orchestration.None? && Meta(c.rows).terminalization.Some?
    ensures Perform(g, op, c, amb).History() == [c]
  {
    hide FamilyInv, HandoffBody, OrchestrateBody, CallsOnce;
    EndedFacts(g, c.rows);
    SettledHasHandoffRecord(g, c.rows);
  }

  lemma SettledHasHandoffRecord(f: Family, r: Rows)
    requires FamilyInv(f, r) && Meta(r).terminalization.Some?
    ensures Meta(r).handoff.Some? && Meta(r).execution.Some?
  {
  }

  /** Once the attempt has ended without an orchestration record, none is ever written. */
  lemma UnsealedForever(f: Family, g: Family, op: Operation, c: Cell, amb: Ambient)
    requires CellOk(g, c) && Ended(c.rows) && Meta(c.rows).orchestration.None?
    ensures forall d :: d in Perform(f, op, c, amb).History() ==> Ended(d.rows) && Meta(d.rows).orchestration.None?
    ensures op.Orchestrate? || op.ExecuteDirectly? ==> Perform(f, op, c, amb).progress.Refused?
  {
    hide FamilyInv, HandoffBody, OrchestrateBody;
    EndedFacts(g, c.rows);
  }

  lemma EndedFacts(f: Family, r: Rows)
    requires FamilyInv(f, r) && Ended(r)
    ensures TerminalCommand(r.command.status) && Meta(r).bootstrap.Some?
    ensures Meta(r).handoff.Some? ==> Meta(r).execution.Some?
    ensures Meta(r).orchestration.None? ==> Meta(r).executeNow.None?
  {
  }

  // ---- every call that gets past the chain passes through a lost state ----

  lemma {:induction false} FirstEnded(h: seq<Cell>, n: nat) returns (k: nat)
    requires n < |h| && !Ended(h[0].rows) && Ended(h[n].rows)
    ensures 0 < k <= n && Ended(h[k].rows) && !Ended(h[k - 1].rows)
  {
    if Ended(h[n - 1].rows) { k := FirstEnded(h, n - 1); } else { k := n; }
  }

  lemma PhaseOfEnded(f: Family, r: Rows)
    requires FamilyInv(f, r)
    ensures var p := Abs(r); Ended(r) <==> !p.Waiting? && !p.Dropped? && !p.Started? && !p.Owned?
    ensures Abs(r).Closed? ==> Meta(r).handoff.None?
    ensures !Ended(r) ==> Meta(r).bridges == []
  {
  }

  lemma EndingIsClosing(f: Family, c: Cell, d: Cell)
    requires CellOk(f, c) && CellMoves(f, c, d) && !Ended(c.rows) && Ended(d.rows)
    ensures Lost(d.rows) && d.calls == 0
  {
    hide FamilyInv, Grows, Abs;
    PhaseOfEnded(f, c.rows);
    PhaseOfEnded(f, d.rows);
  }

  /** Every call that gets past the chain, whatever the adapter then does, commits a state in
      which the command reads as succeeded for good although the meter has not been called. */
  lemma FalseSuccessWindow(f: Family, c: Cell, req: OrchestrationRequest, amb: Ambient) returns (k: nat)
    requires CellOk(f, c) && !Ended(c.rows) && Enters(f, c.rows, req, amb)
    requires req.leaseSeconds >= MIN_SECONDS && req.sessionSeconds >= MIN_SECONDS
    ensures var h := OrchestrateOp(f, Begin(c), req, amb).History();
            && k < |h| && CellOk(f, h[k]) && Lost(h[k].rows)
            && h[k].calls == 0 && h[k].rows.command.status == CmdSucceeded
            && (OrchestrateOp(f, Begin(c), req, amb).progress.Going? ==> k < |h| - 1)
            && (forall g: Family, op: Operation, later: Ambient :: Perform(g, op, h[k], later).History() == [h[k]])
  {
    hide FamilyInv, OrchestrateOp, Perform, Lawful, CellMoves, CallsOnce, FullSet;
    var done := OrchestrateOp(f, Begin(c), req, amb);
    var h := done.History();
    BeginLawful(f, c);
    OrchestrateLawful(f, Begin(c), req, amb);
    OrchestrateFate(f, c, req, amb);
    k := FirstEnded(h, |h| - 1);
    LawfulOk(f, h, k - 1);
    LawfulOk(f, h, k);
    LawfulStep(f, h, k - 1);
    EndingIsClosing(f, h[k - 1], h[k]);
    LostFacts(f, h[k].rows);
    forall g: Family, op: Operation, later: Ambient ensures Perform(g, op, h[k], later).History() == [h[k]] {
      LostIsFrozen(g, f, op, h[k], later);
    }
  }

  lemma LawfulStep(f: Family, h: seq<Cell>, i: nat)
    requires Lawful(f, h) && i < |h| - 1
    ensures CellMoves(f, h[i], h[i + 1])
  {
  }

  // ---- an expired guard is never replaced ----

  /** A lawful history that is stale at both ends is stale throughout. */
  lemma StaleBetween(f: Family, h: seq<Cell>, t: Time, j: nat)
    requires Lawful(f, h) && j < |h|
    requires StaleGuard(Meta(h[0].rows), t) && StaleGuard(Meta(h[|h| - 1].rows), t)
    ensures StaleGuard(Meta(h[j].rows), t) && h[j].rows.command.status == CmdInProgress && !Ended(h[j].rows)
      && h[j].calls == 0
  {
    hide FamilyInv, Lawful;
    LawfulGrows(f, h, 0, j);
    LawfulGrows(f, h, j, |h| - 1);
    StaleFacts(f, h[j].rows, t);
    NotEndedNotCalled(f, h[j]);
  }

  lemma StaleHandoff(f: Family, run: Run, req: Request, amb: Ambient, t: Time)
    requires LawfulRun(f, run) && StaleGuard(Meta(run.cell.rows), t) && t <= amb.now
    ensures var done := HandoffOp(f, run, req, amb);
            && done.progress.Refused? && StaleGuard(Meta(done.cell.rows), t)
            && LawfulRun(f, done) && run.History() <= done.History()
  {
    hide FamilyInv, Chain, Lawful;
    StaleFacts(f, run.cell.rows, t);
    StaleChainRefused(f, 0, run, req, amb, t);
  }

  lemma StaleOrchestrate(f: Family, run: Run, req: OrchestrationRequest, amb: Ambient, t: Time)
    requires LawfulRun(f, run) && StaleGuard(Meta(run.cell.rows), t) && t <= amb.now
    ensures var done := OrchestrateOp(f, run, req, amb);
            && done.progress.Refused? && StaleGuard(Meta(done.cell.rows), t)
            && LawfulRun(f, done) && run.History() <= done.History()
  {
    hide FamilyInv, HandoffOp, Lawful;
    StaleFacts(f, run.cell.rows, t);
    var boot := BootstrapIdentifier(f, req.identifier);
    var booted := Commit(run, BootstrapStep(f, run.cell.rows, boot, amb));
    BootstrapLawful(f, run, boot, amb);
    StaleHandoff(f, booted, HandoffRequest(req), amb, t);
  }

  /** An attempt whose guard expired before its session was finalized stays in progress for
      ever: at any later time every operation is refused or leaves it as stuck as before. */
  lemma StaleForever(f: Family, g: Family, op: Operation, c: Cell, amb: Ambient, t: Time)
    requires CellOk(g, c) && StaleGuard(Meta(c.rows), t) && t <= amb.now
    ensures forall d :: d in Perform(f, op, c, amb).History() ==>
              StaleGuard(Meta(d.rows), t) && d.rows.command.status == CmdInProgress && d.calls == 0
    ensures !op.BootstrapAttempt? ==> Perform(f, op, c, amb).progress.Refused?
  {
    hide FamilyInv, HandoffOp, OrchestrateOp, Lawful, LedgerGrows;
    var run, done := Begin(c), Perform(f, op, c, amb);
    BeginLawful(g, c);
    StaleFacts(g, c.rows, t);
    PerformLawful(f, g, op, c, amb);
    if f != g && !op.Cancel? {
      OtherFamilyRefused(f, g, op, c, amb);
    } else if op.HandOff? {
      StaleHandoff(g, run, op.request, amb, t);
    } else if op.Orchestrate? {
      StaleOrchestrate(g, run, op.orchestration, amb, t);
    } else if op.ExecuteDirectly? {
      StaleOrchestrate(g, run, ExecuteNowRequest(g, c.rows), amb, t);
    }
    var h := done.History();
    forall d | d in h ensures StaleGuard(Meta(d.rows), t) && d.rows.command.status == CmdInProgress && d.calls == 0 {
      var j :| 0 <= j < |h| && h[j] == d;
      StaleBetween(g, h, t, j);
    }
  }

  // ---- every call that gets past the chain passes through a state that can go stale ----

  /** The run after the chain's steps before `j`, whose states are all durable on the way. */
  lemma {:induction false} ChainReaches(f: Family, i: nat, j: nat, run: Run, req: Request,
      amb: Ambient) returns (mid: Run)
    requires i <= j <= 5 && run.progress.Going? && LawfulRun(f, run)
      && Ready(f, i, run.cell.rows, req.executor, amb.now)
    requires req.leaseSeconds >= MIN_SECONDS && req.sessionSeconds >= MIN_SECONDS
    requires Meta(run.cell.rows).session.None?
    ensures Chain(i, run, req, amb) == Chain(j, mid, req, amb) && mid.progress.Going? && LawfulRun(f, mid)
    ensures Ready(f, j, mid.cell.rows, req.executor, amb.now) && Meta(mid.cell.rows).session.None?
    decreases j - i
  {
    hide Ready, ChainStep, Lawful, FamilyInv;
    mid := run;
    if i < j {
      ReadyStep(f, i, run.cell.rows, req, amb);
      EarlyKeepsSession(i, run.cell.rows, req, amb);
      ReadyPinnedAt(f, i, run.cell.rows, req.executor, amb.now);
      OneChainStep(f, i, run, req, amb);
      mid := ChainReaches(f, i + 1, j, Commit(run, ChainStep(i, run.cell.rows, req, amb)), req, amb);
    }
  }

  lemma EarlyKeepsSession(i: nat, r: Rows, req: Request, amb: Ambient)
    requires i < 5
    ensures Meta(After(r, ChainStep(i, r, req, amb))).session == Meta(r).session
  {
  }

  lemma ReadyPinnedAt(f: Family, i: nat, r: Rows, executor: string, now: Time)
    requires Ready(f, i, r, executor, now)
    ensures i >= 2 ==> Pinned(r, executor)
    ensures i == 5 ==> Meta(r).guard.Some?
  {
  }

  lemma ChainGrowsHistory(f: Family, run: Run, req: Request, amb: Ambient)
    requires LawfulRun(f, run) && Ready(f, 5, run.cell.rows, req.executor, amb.now)
    ensures run.History() <= Chain(5, run, req, amb).History() && LawfulRun(f, Chain(5, run, req, amb))
  {
    hide Ready, ChainStep, Lawful, FamilyInv;
    ReadyPinnedAt(f, 5, run.cell.rows, req.executor, amb.now);
    ChainLawful(f, 5, run, req, amb);
  }

  /** A completing handoff commits its guard while no session is open: stopped there, the
      attempt is stuck for ever once the clock reaches the guard's expiry. */
  lemma StaleWindow(f: Family, run: Run, req: Request, amb: Ambient) returns (k: nat, t: Time)
    requires LawfulRun(f, run) && run.progress.Going? && Ready(f, 0, run.cell.rows, req.executor, amb.now)
    requires req.leaseSeconds >= MIN_SECONDS && req.sessionSeconds >= MIN_SECONDS
    requires Meta(run.cell.rows).session.None?
    ensures k < |Chain(0, run, req, amb).History()| && StaleGuard(Meta(Chain(0, run, req, amb).History()[k].rows), t)
  {
    hide Ready, Chain, Lawful, FamilyInv;
    var mid := ChainReaches(f, 0, 5, run, req, amb);
    ChainGrowsHistory(f, mid, req, amb);
    ReadyPinnedAt(f, 5, mid.cell.rows, req.executor, amb.now);
    k := |mid.past|;
    t := Meta(mid.cell.rows).guard.value.expiresAt;
    assert Chain(0, run, req, amb).History()[k] == mid.History()[k] == mid.cell;
  }

  lemma HandoffExtendsChain(f: Family, run: Run, req: Request, amb: Ambient)
    requires LawfulRun(f, run) && run.progress.Going? && run.cell.rows.attempt.Some? && !Ended(run.cell.rows)
    requires run.cell.rows.command.payloadValid && amb.linkValid
    ensures Chain(0, run, req, amb).History() <= HandoffOp(f, run, req, amb).History()
  {
    hide FamilyInv, Chain, AdapterCall, Lawful;
    InvCategory(f, run.cell.rows);
    RunningAttempt(f, run.cell.rows, req.executor, amb.now);
    NotEndedNotCalled(f, run.cell);
    ChainLawful(f, 0, run, req, amb);
    AdapterLawful(f, Chain(0, run, req, amb), req, amb);
  }

  lemma OrchestrationExtendsHandoff(f: Family, c: Cell, req: OrchestrationRequest, amb: Ambient)
    requires CellOk(f, c) && !Ended(c.rows) && Enters(f, c.rows, req, amb)
    ensures var booted := Commit(Begin(c), BootstrapStep(f, c.rows, BootstrapIdentifier(f, req.identifier), amb));
            && HandoffOp(f, booted, HandoffRequest(req), amb).History()
               <= OrchestrateOp(f, Begin(c), req, amb).History()
            && booted.progress.Going? && booted.cell.rows.attempt.Some? && !Ended(booted.cell.rows)
            && booted.cell.rows.command.payloadValid && Meta(booted.cell.rows).session == Meta(c.rows).session
            && HandoffEnters(booted.cell.rows, req.executor, amb)
  {
    hide FamilyInv, HandoffOp, TerminalizeStep, BootstrapStep, OrchestrationRecordStep;
    LiveStatus(f, c.rows);
    InvCategory(f, c.rows);
    BootstrapGoesIff(f, c.rows, BootstrapIdentifier(f, req.identifier), amb);
  }

  /** Likewise for every orchestration that gets past the chain and starts before any session
      was opened. */
  lemma StaleWindowOfOrchestration(f: Family, c: Cell, req: OrchestrationRequest, amb: Ambient)
    returns (k: nat, t: Time)
    requires CellOk(f, c) && !Ended(c.rows) && Meta(c.rows).session.None? && Enters(f, c.rows, req, amb)
    requires req.leaseSeconds >= MIN_SECONDS && req.sessionSeconds >= MIN_SECONDS
    ensures var h := OrchestrateOp(f, Begin(c), req, amb).History();
            k < |h| && StaleGuard(Meta(h[k].rows), t)
  {
    hide FamilyInv, OrchestrateOp, BootstrapStep, Chain, HandoffOp, Lawful, Ready;
    BeginLawful(f, c);
    var boot := BootstrapIdentifier(f, req.identifier);
    var booted := Commit(Begin(c), BootstrapStep(f, c.rows, boot, amb));
    BootedLawful(f, Begin(c), boot, amb);
    OrchestrationExtendsHandoff(f, c, req, amb);
    RunningAttempt(f, booted.cell.rows, req.executor, amb.now);
    HandoffExtendsChain(f, booted, HandoffRequest(req), amb);
    k, t := StaleWindow(f, booted, HandoffRequest(req), amb);
  }
}
