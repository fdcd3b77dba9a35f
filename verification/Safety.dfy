/**
 Every history an operation can commit is lawful: each durable state keeps the
 invariant and each commit moves the phase forward.
 */
module Safety {
  import opened Wrappers
  import opened CommandModel
  import opened RuntimeHandoff
  import opened CommandExecution
  import opened Invariants
  import opened Phases

  /** The artifacts of the queued route, which the operations here leave alone. */
  ghost predicate SameQueuePart(r: Rows, q: Rows) {
    && q.command.summary.enqueue == r.command.summary.enqueue
    && q.command.summary.queuedNow == r.command.summary.queuedNow
    && q.command.summary.consumption == r.command.summary.consumption
  }

  /** One durable state after another. */
  ghost predicate CellMoves(f: Family, c: Cell, d: Cell) {
    && Moves(f, c.rows, d.rows) && CallsOnce(d) && SameQueuePart(c.rows, d.rows)
    && (d.calls == c.calls || (d.calls == c.calls + 1 && d.rows == c.rows))
  }

  ghost predicate CellOk(f: Family, c: Cell) {
    FamilyInv(f, c.rows) && CallsOnce(c)
  }

  ghost predicate Lawful(f: Family, h: seq<Cell>) {
    && |h| > 0
    && CellOk(f, h[0])
    && forall i :: 0 <= i < |h| - 1 ==> CellMoves(f, h[i], h[i + 1])
  }

  ghost predicate LawfulRun(f: Family, run: Run) {
    Lawful(f, run.History()) && CellOk(f, run.cell)
  }

  lemma BeginLawful(f: Family, c: Cell)
    requires CellOk(f, c)
    ensures LawfulRun(f, Begin(c)) && Begin(c).History() == [c]
  {
  }

  lemma ExtendLawful(f: Family, run: Run, d: Cell)
    requires LawfulRun(f, run) && CellMoves(f, run.cell, d)
    ensures LawfulRun(f, Run(run.past + [run.cell], d, Going))
  {
    hide FamilyInv, CallsOnce, Grows, Next;
    var h, g := run.History(), run.History() + [d];
    forall i | 0 <= i < |g| - 1 ensures CellMoves(f, g[i], g[i + 1]) {
      if i < |h| - 1 {
        assert CellMoves(f, h[i], h[i + 1]);
      }
    }
  }

  /** A commit of a lawful step that records no adapter result. */
  lemma CommitLawful(f: Family, run: Run, s: Step)
    requires LawfulRun(f, run) && StepMoves(f, run.cell.rows, s)
    requires s.Write? ==>
              Meta(s.rows).execution == Meta(run.cell.rows).execution && SameQueuePart(run.cell.rows, s.rows)
    ensures LawfulRun(f, Commit(run, s))
  {
    if run.progress.Going? && s.Write? {
      var d := run.cell.(rows := s.rows);
      assert Meta(run.cell.rows).bridges <= Meta(d.rows).bridges && |Meta(d.rows).bridges| <= BRIDGES;
      ExtendLawful(f, run, d);
    }
  }

  // ---- the chain before the adapter ----

  /** Only the artifacts of the runtime services may differ. */
  ghost predicate RuntimePart(m: Ledger, n: Ledger) {
    n == m.(envelope := n.envelope, lease := n.lease, gate := n.gate, guard := n.guard,
            session := n.session, outcome := n.outcome, bridges := n.bridges)
  }

  lemma ChainStepMoves(f: Family, i: nat, r: Rows, req: Request, amb: Ambient)
    requires FamilyInv(f, r) && i < CHAIN && (i >= 2 ==> Pinned(r, req.executor))
    ensures StepMoves(f, r, ChainStep(i, r, req, amb))
  {
    hide StepMoves, FamilyInv;
    match i
    case 0 => JobRunMoves(f, r, amb);
    case 1 => EnvelopeMoves(f, r, req);
    case 2 => LeaseMoves(f, r, req, amb.now);
    case 3 => GateMoves(f, r, req, amb.now);
    case 4 => GuardMoves(f, r, req, amb.now);
    case 5 => SessionStartMoves(f, r, req, amb);
    case 6 => SessionFinalizeMoves(f, r, req, amb.now);
    case 7 => OutcomeMoves(f, r, req);
    case _ => BridgeMoves(f, i - 8, r, req, amb.now);
  }

  ghost predicate KeepsRest(i: nat, r: Rows, s: Step, executor: string) {
    && (s.Write? ==> RuntimePart(Meta(r), Meta(s.rows)) && SameQueuePart(r, s.rows))
    && (i >= 1 && s.Write? ==> Pinned(s.rows, executor))
    && (i == 1 && s.Keep? && r.job.Some? && r.job.value.summary.envelope == Meta(r).envelope ==> Pinned(r, executor))
  }

  lemma BridgeKeepsRest(k: nat, r: Rows, req: Request, now: Time)
    requires Pinned(r, req.executor)
    ensures KeepsRest(k + 8, r, BridgeStep(k, r, req, now), req.executor)
  {
  }

  lemma ChainStepKeepsRest(i: nat, r: Rows, req: Request, amb: Ambient)
    requires i < CHAIN && (i >= 2 ==> Pinned(r, req.executor))
    ensures KeepsRest(i, r, ChainStep(i, r, req, amb), req.executor)
  {
    hide BridgeStep;
    if i >= 8 { BridgeKeepsRest(i - 8, r, req, amb.now); }
  }

  lemma JobEnvelope(f: Family, r: Rows)
    requires FamilyInv(f, r) && r.attempt.Some? && r.job.Some?
    ensures r.job.value.summary.envelope == Meta(r).envelope
  {
  }

  /** What a stretch of the chain leaves behind. */
  ghost predicate ChainResult(f: Family, before: Run, after: Run, executor: string) {
    && LawfulRun(f, after) && after.cell.calls == before.cell.calls
    && RuntimePart(Meta(before.cell.rows), Meta(after.cell.rows))
    && before.History() <= after.History()
  }

  lemma OneChainStep(f: Family, i: nat, run: Run, req: Request, amb: Ambient)
    requires i < CHAIN && LawfulRun(f, run) && run.progress.Going?
    requires i >= 2 ==> Pinned(run.cell.rows, req.executor)
    ensures var next := Commit(run, ChainStep(i, run.cell.rows, req, amb));
            && ChainResult(f, run, next, req.executor)
            && (i >= 1 && next.progress.Going? ==> Pinned(next.cell.rows, req.executor))
  {
    hide FamilyInv, Moves, CallsOnce, CellMoves;
    var r := run.cell.rows;
    var s := ChainStep(i, r, req, amb);
    if i == 1 && r.attempt.Some? && r.job.Some? { JobEnvelope(f, r); }
    ChainStepMoves(f, i, run.cell.rows, req, amb);
    ChainStepKeepsRest(i, run.cell.rows, req, amb);
    CommitLawful(f, run, s);
  }

  lemma {:induction false} ChainLawful(f: Family, i: nat, run: Run, req: Request, amb: Ambient)
    requires i <= CHAIN && LawfulRun(f, run)
    requires i >= 2 && run.progress.Going? ==> Pinned(run.cell.rows, req.executor)
    ensures var done := Chain(i, run, req, amb);
            && ChainResult(f, run, done, req.executor)
            && (done.progress.Going? ==> Pinned(done.cell.rows, req.executor))
    decreases CHAIN - i
  {
    hide FamilyInv, Moves, CallsOnce, ChainStep;
    if i < CHAIN && run.progress.Going? {
      OneChainStep(f, i, run, req, amb);
      ChainLawful(f, i + 1, Commit(run, ChainStep(i, run.cell.rows, req, amb)), req, amb);
    }
  }

  // ---- handoff ----

  lemma NotEndedNotCalled(f: Family, c: Cell)
    requires CellOk(f, c) && c.rows.attempt.Some? && c.rows.attempt.value.endedAt.None?
    ensures c.calls == 0 && Meta(c.rows).execution.None? && Meta(c.rows).handoff.None?
  {
  }

  /** Only the result of the adapter call may differ. */
  ghost predicate ExecutionPart(m: Ledger, n: Ledger) {
    n == m.(execution := n.execution, terminalStatus := n.terminalStatus)
  }

  lemma CalledIsOk(f: Family, run: Run, req: Request)
    requires LawfulRun(f, run) && run.cell.calls == 0 && Meta(run.cell.rows).execution.None?
    requires AdapterReady(Meta(run.cell.rows), req.executor)
    ensures LawfulRun(f, Run(run.past + [run.cell], run.cell.(calls := 1), Going))
  {
    ExtendLawful(f, run, run.cell.(calls := 1));
  }

  lemma AdapterLawful(f: Family, run: Run, req: Request, amb: Ambient)
    requires LawfulRun(f, run) && run.cell.calls == 0 && Meta(run.cell.rows).execution.None?
    ensures var done := AdapterCall(f, run, req, amb);
            && LawfulRun(f, done) && run.History() <= done.History()
            && ExecutionPart(Meta(run.cell.rows), Meta(done.cell.rows))
            && (done.progress.Going? ==>
                  && Meta(done.cell.rows).execution.Some?
                  && Meta(done.cell.rows).execution.value.executor == req.executor)
  {
    hide FamilyInv, Moves, CallsOnce;
    var r := run.cell.rows;
    if run.progress.Going? && r.attempt.Some? && AdapterReady(Meta(r), req.executor) && !amb.reply.Unsupported? {
      CalledIsOk(f, run, req);
      if amb.reply.Answered? && r.attempt.value.jobRunId.Some? {
        RecordLawful(f, run, req, amb);
      }
    }
  }

  lemma RecordLawful(f: Family, run: Run, req: Request, amb: Ambient)
    requires LawfulRun(f, run) && run.cell.calls == 0 && Meta(run.cell.rows).execution.None?
      && run.cell.rows.attempt.Some?
    requires run.cell.rows.attempt.value.jobRunId.Some?
    requires AdapterReady(Meta(run.cell.rows), req.executor) && amb.reply.Answered?
    ensures var called := Run(run.past + [run.cell], run.cell.(calls := 1), Going);
            var x := ExecutionOf(f, run.cell.rows, req, amb.reply);
            LawfulRun(f, Commit(called,
                                Write(PutAll(run.cell.rows, ExecutionArtifact(x, TerminalStatusOf(f, x, amb.reply))))))
  {
    hide Lawful, FamilyInv, Grows, Next;
    var called := Run(run.past + [run.cell], run.cell.(calls := 1), Going);
    var x := ExecutionOf(f, run.cell.rows, req, amb.reply);
    CalledIsOk(f, run, req);
    ExecutionMoves(f, run.cell.rows, req, amb.reply);
    ExtendLawful(f, called,
                 called.cell.(rows := PutAll(run.cell.rows, ExecutionArtifact(x, TerminalStatusOf(f, x, amb.reply)))));
  }

  /** What a handoff may have changed, and what a successful one leaves. */
  ghost predicate HandoffResult(f: Family, before: Run, after: Run, req: Request) {
    && LawfulRun(f, after) && before.History() <= after.History()
    && (var m, n := Meta(before.cell.rows), Meta(after.cell.rows);
        && n.bootstrap == m.bootstrap && n.terminalization == m.terminalization && n.orchestration == m.orchestration
        && n.executeNow == m.executeNow && n.consumption == m.consumption
        && (after.progress.Going? ==>
              && n.handoff.Some? && n.handoff.value.identifier == req.identifier
              && n.handoff.value.executor == req.executor))
  }

  lemma HandoffBodyLawful(f: Family, run: Run, req: Request, amb: Ambient)
    requires LawfulRun(f, run) && run.progress.Going? && run.cell.rows.attempt.Some?
    requires run.cell.rows.attempt.value.endedAt.None?
    ensures HandoffResult(f, run, HandoffBody(f, run, req, amb), req)
  {
    hide FamilyInv, Moves, CallsOnce, Chain, AdapterCall, Lawful;
    NotEndedNotCalled(f, run.cell);
    ChainLawful(f, 0, run, req, amb);
    var chained := Chain(0, run, req, amb);
    AdapterLawful(f, chained, req, amb);
    var executed := AdapterCall(f, chained, req, amb);
    var s := HandoffRecordStep(executed.cell.rows, req, amb.now, false, false);
    if executed.progress.Going? && executed.cell.rows.attempt.Some? {
      HandoffRecordMoves(f, executed.cell.rows, req, amb.now);
      CommitLawful(f, executed, s);
    }
  }

  lemma HandoffLawful(f: Family, run: Run, req: Request, amb: Ambient)
    requires LawfulRun(f, run)
    ensures HandoffResult(f, run, HandoffOp(f, run, req, amb), req)
  {
    hide FamilyInv, Moves, CallsOnce, Lawful, HandoffBody;
    var r := run.cell.rows;
    if run.progress.Going? && r.attempt.Some? && r.attempt.value.endedAt.None? {
      HandoffBodyLawful(f, run, req, amb);
    }
  }

  // ---- along a lawful history nothing is undone ----

  lemma GrowsTransitive(p: Rows, q: Rows, r: Rows)
    requires Grows(p, q) && Grows(q, r)
    ensures Grows(p, r)
  {
  }

  /** Every later state of a lawful history has grown from every earlier one. */
  lemma {:induction false} LawfulGrows(f: Family, h: seq<Cell>, i: nat, j: nat)
    requires Lawful(f, h) && i <= j < |h|
    ensures CellOk(f, h[i]) && CellOk(f, h[j]) && Grows(h[i].rows, h[j].rows) && h[i].calls <= h[j].calls
    ensures SameQueuePart(h[i].rows, h[j].rows)
    decreases j - i
  {
    hide FamilyInv, Grows, Next;
    if i < j {
      assert CellMoves(f, h[j - 1], h[j]);
      LawfulGrows(f, h, i, j - 1);
      GrowsTransitive(h[i].rows, h[j - 1].rows, h[j].rows);
    } else {
      LawfulOk(f, h, i);
      GrowsReflexive(h[i].rows);
    }
  }

  lemma {:induction false} LawfulOk(f: Family, h: seq<Cell>, i: nat)
    requires Lawful(f, h) && i < |h|
    ensures CellOk(f, h[i])
  {
    hide FamilyInv, Grows, Next;
    if i > 0 {
      assert CellMoves(f, h[i - 1], h[i - 1 + 1]);
    }
  }

  lemma GrowsReflexive(r: Rows)
    ensures Grows(r, r)
  {
  }

  lemma LawfulKeepsCommand(f: Family, run: Run, i: nat)
    requires LawfulRun(f, run) && i <= |run.past|
    ensures run.History()[i].rows.command.id == run.cell.rows.command.id
  {
    hide FamilyInv, Next, Lawful;
    var h := run.History();
    LawfulGrows(f, h, i, |h| - 1);
  }

  // ---- the operations ----

  /** The first bootstrap creates the only attempt; every later one finds it. */
  lemma BootstrapResult(f: Family, r: Rows, identifier: string, amb: Ambient)
    requires FamilyInv(f, r)
    ensures var s := BootstrapStep(f, r, identifier, amb);
            && (s.Write? ==>
                  && r.attempt.None? && SameQueuePart(r, s.rows) && s.rows.attempt.Some?
                  && s.rows.attempt.value.endedAt.None?
                  && Meta(s.rows) == EMPTY_LEDGER.(bootstrap := Some(Bootstrap(identifier, amb.now))))
            && (s.Keep? ==> Meta(r).bootstrap.Some? && Meta(r).bootstrap.value.identifier == identifier)
  {
  }

  lemma BootstrapLawful(f: Family, run: Run, identifier: string, amb: Ambient)
    requires LawfulRun(f, run)
    ensures LawfulRun(f, Commit(run, BootstrapStep(f, run.cell.rows, identifier, amb)))
  {
    hide FamilyInv, Moves, CallsOnce, Lawful, BootstrapStep;
    BootstrapMoves(f, run.cell.rows, identifier, amb);
    BootstrapResult(f, run.cell.rows, identifier, amb);
    CommitLawful(f, run, BootstrapStep(f, run.cell.rows, identifier, amb));
  }

  lemma TerminalizeLawful(f: Family, run: Run, identifier: string, executor: string, now: Time)
    requires LawfulRun(f, run)
    ensures LawfulRun(f, Commit(run, TerminalizeStep(f, run.cell.rows, identifier, executor, now)))
  {
    hide FamilyInv, Moves, CallsOnce, Lawful, VerdictOf, TerminalizationRefusal;
    TerminalizeMoves(f, run.cell.rows, identifier, executor, now);
    CommitLawful(f, run, TerminalizeStep(f, run.cell.rows, identifier, executor, now));
  }

  lemma CancelLawful(f: Family, run: Run, reason: string, now: Time)
    requires LawfulRun(f, run)
    ensures LawfulRun(f, Commit(run, CancelStep(run.cell.rows, reason, now)))
  {
    hide FamilyInv, Moves, CallsOnce, Lawful;
    CancelMoves(f, run.cell.rows, reason, now);
    CommitLawful(f, run, CancelStep(run.cell.rows, reason, now));
  }

  /** What an orchestration may have changed, and what a successful one leaves. */
  ghost predicate OrchestrationResult(f: Family, before: Run, after: Run, req: OrchestrationRequest) {
    && LawfulRun(f, after) && before.History() <= after.History()
    && Meta(after.cell.rows).executeNow == Meta(before.cell.rows).executeNow
    && (after.progress.Going? ==> SealedBy(Meta(after.cell.rows), req.identifier, req.executor))
  }

  ghost predicate SealedBy(m: Ledger, identifier: string, executor: string) {
    && m.orchestration.Some? && m.orchestration.value.identifier == identifier
    && m.orchestration.value.executor == executor
  }

  /** An attempt that has not ended was not terminalized, sealed or announced either. */
  lemma NotEndedNotSealed(f: Family, r: Rows)
    requires FamilyInv(f, r) && (r.attempt.Some? ==> r.attempt.value.endedAt.None?)
    ensures Meta(r).terminalization.None? && Meta(r).orchestration.None? && Meta(r).executeNow.None?
  {
  }

  ghost predicate BootedBy(m: Ledger, identifier: string) {
    m.bootstrap.Some? && m.bootstrap.value.identifier == identifier
  }

  ghost predicate NothingAfterHandoff(m: Ledger) {
    m.terminalization.None? && m.orchestration.None? && m.executeNow.None?
  }

  lemma BootedLawful(f: Family, run: Run, identifier: string, amb: Ambient)
    requires LawfulRun(f, run) && run.progress.Going?
    requires run.cell.rows.attempt.Some? ==> run.cell.rows.attempt.value.endedAt.None?
    ensures var booted := Commit(run, BootstrapStep(f, run.cell.rows, identifier, amb));
            && LawfulRun(f, booted) && run.History() <= booted.History()
            && NothingAfterHandoff(Meta(booted.cell.rows))
            && (booted.progress.Going? ==> BootedBy(Meta(booted.cell.rows), identifier))
  {
    hide FamilyInv, Moves, CallsOnce, Lawful, BootstrapStep;
    NotEndedNotSealed(f, run.cell.rows);
    BootstrapResult(f, run.cell.rows, identifier, amb);
    BootstrapLawful(f, run, identifier, amb);
  }

  lemma OrchestrateBodyLawful(f: Family, run: Run, req: OrchestrationRequest, amb: Ambient)
    requires LawfulRun(f, run) && run.progress.Going?
    requires run.cell.rows.attempt.Some? ==> run.cell.rows.attempt.value.endedAt.None?
    ensures OrchestrationResult(f, run, OrchestrateBody(f, run, req, amb), req)
  {
    hide FamilyInv, Moves, CallsOnce, Lawful, HandoffOp, BootstrapStep, TerminalizeStep;
    var boot := BootstrapIdentifier(f, req.identifier);
    NotEndedNotSealed(f, run.cell.rows);
    BootedLawful(f, run, boot, amb);
    var booted := Commit(run, BootstrapStep(f, run.cell.rows, boot, amb));
    HandoffLawful(f, booted, HandoffRequest(req), amb);
    var handed := HandoffOp(f, booted, HandoffRequest(req), amb);
    TerminalizeLawful(f, handed, req.identifier, req.executor, amb.now);
    TerminalizeResult(f, handed.cell.rows, req.identifier, req.executor, amb.now);
    var settled := Commit(handed, TerminalizeStep(f, handed.cell.rows, req.identifier, req.executor, amb.now));
    if settled.progress.Going? {
      RefusalIsFinal(booted, handed, settled, f, req, amb);
      OrchestrationRecordMoves(f, settled.cell.rows, req, amb.now);
      CommitLawful(f, settled, OrchestrationRecordStep(settled.cell.rows, req, amb.now));
    }
  }

  /** A run that is going was going before each of its parts. */
  lemma RefusalIsFinal(booted: Run, handed: Run, settled: Run, f: Family, req: OrchestrationRequest, amb: Ambient)
    requires handed == HandoffOp(f, booted, HandoffRequest(req), amb)
    requires settled == Commit(handed, TerminalizeStep(f, handed.cell.rows, req.identifier, req.executor, amb.now))
    requires settled.progress.Going?
    ensures handed.progress.Going? && booted.progress.Going?
  {
    hide HandoffBody, TerminalizeStep;
  }

  lemma TerminalizeResult(f: Family, r: Rows, identifier: string, executor: string, now: Time)
    ensures var s := TerminalizeStep(f, r, identifier, executor, now);
            !s.Refuse? ==>
              var n := Meta(if s.Write? then s.rows else r);
              && n.terminalization.Some? && n.terminalization.value.identifier == identifier
              && n.terminalization.value.executor == executor
              && n == Meta(r).(terminalization := n.terminalization)
  {
  }

  lemma OrchestrateLawful(f: Family, run: Run, req: OrchestrationRequest, amb: Ambient)
    requires LawfulRun(f, run)
    ensures OrchestrationResult(f, run, OrchestrateOp(f, run, req, amb), req)
  {
    hide FamilyInv, Moves, CallsOnce, Lawful, OrchestrateBody;
    var r := run.cell.rows;
    if run.progress.Going? && (r.attempt.Some? ==> r.attempt.value.endedAt.None?) {
      OrchestrateBodyLawful(f, run, req, amb);
    }
  }

  lemma ExecuteNowLawful(f: Family, run: Run, amb: Ambient)
    requires LawfulRun(f, run)
    ensures LawfulRun(f, ExecuteNowOp(f, run, amb)) && run.History() <= ExecuteNowOp(f, run, amb).History()
  {
    hide FamilyInv, Moves, CallsOnce, Lawful, OrchestrateOp;
    var req := ExecuteNowRequest(f, run.cell.rows);
    OrchestrateLawful(f, run, req, amb);
    var done := OrchestrateOp(f, run, req, amb);
    if run.progress.Going? && Meta(run.cell.rows).executeNow.None? && done.progress.Going? {
      LawfulKeepsCommand(f, done, |run.past|);
      ExecuteNowRecordMoves(f, done.cell.rows, amb.now);
      CommitLawful(f, done, ExecuteNowRecordStep(f, done.cell.rows, amb.now));
    }
  }

  lemma OtherFamilyRefused(f: Family, g: Family, op: Operation, c: Cell, amb: Ambient)
    requires CellOk(g, c) && f != g && !op.Cancel?
    ensures Perform(f, op, c, amb).History() == [c] && Perform(f, op, c, amb).progress.Refused?
  {
    hide LedgerInv, Statuses, HandoffBody, OrchestrateBody;
  }

  /** Whatever is called, by either family's operations, every durable state it leaves is
      sound and follows from the one before by a lawful move. */
  lemma PerformLawful(f: Family, g: Family, op: Operation, c: Cell, amb: Ambient)
    requires CellOk(g, c)
    ensures Lawful(g, Perform(f, op, c, amb).History()) && Perform(f, op, c, amb).History()[0] == c
  {
    hide FamilyInv, Moves, CallsOnce, Lawful, HandoffOp, OrchestrateOp, ExecuteNowOp, BootstrapStep, TerminalizeStep,
      CancelStep;
    BeginLawful(g, c);
    var run := Begin(c);
    if f != g && !op.Cancel? {
      OtherFamilyRefused(f, g, op, c, amb);
    } else {
      match op
      case BootstrapAttempt(identifier) => BootstrapLawful(g, run, identifier, amb);
      case HandOff(req) => HandoffLawful(g, run, req, amb);
      case Terminalize(settlement, executor) => TerminalizeLawful(g, run, settlement, executor, amb.now);
      case Orchestrate(req) => OrchestrateLawful(g, run, req, amb);
      case ExecuteDirectly => ExecuteNowLawful(g, run, amb);
      case Cancel(reason) => CancelLawful(g, run, reason, amb.now);
    }
  }
}
