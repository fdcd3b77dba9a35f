/**
 What a reader of one command's rows can rely on in every reachable state.
 */
module Guarantees {
  import opened Wrappers
  import opened CommandModel
  import opened RuntimeHandoff
  import opened CommandExecution
  import opened Invariants
  import opened Phases
  import opened Safety
  import opened Readback
  import opened Recovery
  import opened QueuedExecution
  import opened Traps
  import opened World
  import opened WorldTheorems

  /** The outcome a command status names, if it is one of the three outcomes. */
  function NamedByCommand(s: CommandStatus): Option<Final> {
    match s
    case CmdSucceeded => Some(FinalSucceeded)
    case CmdFailed => Some(FinalFailed)
    case CmdTimedOut => Some(FinalTimedOut)
    case _ => None
  }

  /** With an attempt, the three rows end together: attempt ended, command terminal, job run
      finished and first bridge recorded are one and the same fact, the three statuses name
      the same outcome, the three end times are equal, and error fields are null exactly on success. */
  lemma TerminalAgreement(env: Env, f: Family, c: Cell)
    requires Reachable(env, f, c) && c.rows.attempt.Some?
    ensures Ended(c.rows) <==> TerminalCommand(c.rows.command.status)
    ensures Ended(c.rows) <==> c.rows.job.Some? && c.rows.job.value.status != JobRunning
    ensures Ended(c.rows) <==> Meta(c.rows).bridges != []
    ensures Ended(c.rows) ==>
              && c.rows.attempt.value.endedAt == c.rows.command.completedAt == c.rows.job.value.completedAt
              && NamedByCommand(c.rows.command.status).Some?
              && var x := NamedByCommand(c.rows.command.status).value;
              && c.rows.attempt.value.status == AttemptFinal(x) && c.rows.job.value.status == JobFinal(x)
              && (x == FinalSucceeded <==> c.rows.command.errorCode.None?)
              && (x == FinalSucceeded <==> c.rows.command.errorMessage.None?)
              && c.rows.attempt.value.errorCode == c.rows.command.errorCode == c.rows.job.value.errorCode
              && c.rows.attempt.value.errorMessage == c.rows.command.errorMessage == c.rows.job.value.errorMessage
  {
    hide Reachable, LedgerInv;
    ReachableOk(env, f, c);
    ArtifactChain(env, f, c);
  }

  /** Before settlement an ended command always reads as succeeded; after it, success says
      what the stored execution says. */
  lemma SuccessMeans(env: Env, f: Family, c: Cell)
    requires Reachable(env, f, c) && Ended(c.rows)
    ensures Meta(c.rows).terminalization.None? ==> c.rows.command.status == CmdSucceeded
    ensures Meta(c.rows).terminalization.Some? ==>
              && Meta(c.rows).execution.Some?
              && var x := Meta(c.rows).execution.value;
              && (f == OnDemandRead ==> (c.rows.command.status == CmdSucceeded
                                         <==> x.outcome == OutSucceeded && x.accepted && x.billingCompleted))
              && (f == ProfileCapture ==> (c.rows.command.status == CmdSucceeded <==> x.outcome == OutSucceeded))
              && (f == ProfileCapture && c.rows.command.status == CmdSucceeded ==>
                    Meta(c.rows).terminalStatus.Some? && Meta(c.rows).terminalStatus.value.category == Acknowledged)
              && (c.rows.command.status == CmdTimedOut <==> x.outcome == OutTimedOut)
  {
    hide Reachable;
    ReachableOk(env, f, c);
  }

  /** Between the disposition and the settlement lie the phases in which a command has ended
      without a terminalization. */
  lemma UnsettledPhases(env: Env, f: Family, c: Cell)
    requires Reachable(env, f, c)
    ensures Ended(c.rows) && Meta(c.rows).terminalization.None?
            <==> Abs(c.rows).Closed? || Abs(c.rows).Executed? || Abs(c.rows).Handed?
  {
    hide Reachable, FamilyInv;
    ReachableOk(env, f, c);
    PhaseOfEnded(f, c.rows);
    PresenceTracksPhase(f, c.rows);
  }

  /** The three dictionaries agree on every artifact except the two that only the command
      carries; after settlement the job run differs from the command at most in a queued
      execute-now marker that landed late. */
  lemma MirrorInvariant(env: Env, f: Family, c: Cell)
    requires Reachable(env, f, c) && c.rows.attempt.Some?
    ensures Meta(c.rows) == c.rows.command.summary.(enqueue := None, queuedNow := None)
    ensures c.rows.job.Some? ==>
              && c.rows.job.value.summary == c.rows.command.summary.(queuedNow := c.rows.job.value.summary.queuedNow)
              && (c.rows.job.value.summary.queuedNow.Some? ==>
                    c.rows.job.value.summary.queuedNow == c.rows.command.summary.queuedNow)
    ensures Meta(c.rows).handoff.Some? ==> c.rows.job.Some?
  {
    hide Reachable;
    ReachableOk(env, f, c);
  }

  /** Each later artifact implies all earlier ones, and one executor, one session, one
      record and one outcome run through them. */
  lemma ArtifactChain(env: Env, f: Family, c: Cell)
    requires Reachable(env, f, c)
    ensures var m := Meta(c.rows);
            && (m.executeNow.Some? || m.consumption.Some? ==> m.orchestration.Some?)
            && (m.orchestration.Some? ==> m.terminalization.Some?)
            && (m.terminalization.Some? ==> m.handoff.Some?)
            && (m.handoff.Some? ==> m.execution.Some?)
            && (m.execution.Some? ==>
                  |m.bridges| == BRIDGES && m.outcome.Some? && m.session.Some? && m.guard.Some? && m.gate.Some?
                                      && m.lease.Some? && m.envelope.Some? && m.bootstrap.Some?)
            && (m.orchestration.Some? ==>
                  m.envelope.value.worker == m.lease.value.executor == m.gate.value.executor == m.guard.value.executor
                    == m.session.value.executor == m.execution.value.executor == m.handoff.value.executor
                    == m.terminalization.value.executor == m.orchestration.value.executor)
            && (m.orchestration.Some? ==>
                  m.execution.value.recordId == m.handoff.value.recordId == m.terminalization.value.recordId
                  == m.orchestration.value.recordId)
  {
    hide Reachable;
    ReachableOk(env, f, c);
  }

  /** While an execution session is unexpired, so are the guard, the gate and the lease under it. */
  lemma SessionIsCovered(env: Env, f: Family, c: Cell, now: Time)
    requires Reachable(env, f, c) && Meta(c.rows).session.Some? && Meta(c.rows).session.value.expiresAt > now
    ensures var m := Meta(c.rows);
            && m.guard.Some? && m.guard.value.expiresAt > now
            && m.gate.Some? && m.gate.value.expiresAt > now
            && m.lease.Some? && m.lease.value.expiresAt > now
  {
    hide Reachable;
    ReachableOk(env, f, c);
  }

  lemma OnDemandCodesDiffer(a: RuntimeOutcome, b: RuntimeOutcome)
    requires OnDemandErrorCode(a) == OnDemandErrorCode(b)
    ensures a == b
  {
    assert "ON_DEMAND_READ_SUCCEEDED"[15] != "ON_DEMAND_READ_CANCELLED"[15];
  }

  lemma CaptureCodesDiffer(a: TerminalCategory, b: TerminalCategory)
    requires CaptureErrorCode(a) == CaptureErrorCode(b)
    ensures a == b
  {
  }

  /** The stored error code of a settled command tells which outcome, or for a profile capture
      which terminal status, the meter adapter reported. */
  lemma ErrorCodeTells(env: Env, f: Family, c: Cell, outcome: RuntimeOutcome, category: TerminalCategory)
    requires Reachable(env, f, c) && Meta(c.rows).terminalization.Some? && c.rows.command.status != CmdSucceeded
    ensures Meta(c.rows).execution.Some? && (f == ProfileCapture ==> Meta(c.rows).terminalStatus.Some?)
    ensures f == OnDemandRead ==>
              (c.rows.command.errorCode == Some(OnDemandErrorCode(outcome))
               <==> Meta(c.rows).execution.value.outcome == outcome)
    ensures f == ProfileCapture && Meta(c.rows).execution.value.outcome != OutTimedOut ==>
              (c.rows.command.errorCode == Some(CaptureErrorCode(category))
               <==> Meta(c.rows).terminalStatus.value.category == category)
  {
    hide Reachable, OnDemandErrorCode, CaptureErrorCode, FamilyInv;
    ReachableOk(env, f, c);
    SettledVerdict(f, c.rows);
    var m := Meta(c.rows);
    if f == OnDemandRead && c.rows.command.errorCode == Some(OnDemandErrorCode(outcome)) {
      OnDemandCodesDiffer(outcome, m.execution.value.outcome);
    }
    if f == ProfileCapture && c.rows.command.errorCode == Some(CaptureErrorCode(category))
        && m.execution.value.outcome != OutTimedOut {
      CaptureCodesDiffer(category, m.terminalStatus.value.category);
    }
  }

  /** Spelled out: every code of a settled command that did not succeed names exactly one outcome, or
      one terminal status. */
  lemma ErrorCodeSpelled(env: Env, f: Family, c: Cell)
    requires Reachable(env, f, c) && Meta(c.rows).terminalization.Some? && c.rows.command.status != CmdSucceeded
    ensures Meta(c.rows).execution.Some? && (f == ProfileCapture ==> Meta(c.rows).terminalStatus.Some?)
    ensures f == OnDemandRead ==>
              var code, outcome := c.rows.command.errorCode, Meta(c.rows).execution.value.outcome;
              && (code == Some("ON_DEMAND_READ_SUCCEEDED") <==> outcome == OutSucceeded)
              && (code == Some("ON_DEMAND_READ_FAILED") <==> outcome == OutFailed)
              && (code == Some("ON_DEMAND_READ_RUNTIME_TIMED_OUT") <==> outcome == OutTimedOut)
              && (code == Some("ON_DEMAND_READ_CANCELLED") <==> outcome == OutCancelled)
              && (code == Some("ON_DEMAND_READ_PARTIAL") <==> outcome == OutPartial)
    ensures f == ProfileCapture && Meta(c.rows).execution.value.outcome == OutTimedOut ==>
              c.rows.command.errorCode == Some("PROFILE_CAPTURE_RUNTIME_TIMED_OUT")
    ensures f == ProfileCapture && Meta(c.rows).execution.value.outcome != OutTimedOut ==>
              var code, category := c.rows.command.errorCode, Meta(c.rows).terminalStatus.value.category;
              && (code == Some("PROFILE_CAPTURE_ACKNOWLEDGED") <==> category == Acknowledged)
              && (code == Some("PROFILE_CAPTURE_REJECTED") <==> category == RejectedByMeter)
              && (code == Some("PROFILE_CAPTURE_UNAVAILABLE") <==> category == Unavailable)
              && (code == Some("PROFILE_CAPTURE_UNUSABLE_RESPONSE") <==> category == UnusableResponse)
              && (code == Some("PROFILE_CAPTURE_BLOCKED_PRE_INVOCATION") <==> category == BlockedPreInvocation)
              && (code == Some("PROFILE_CAPTURE_BLOCKED_MID_PIPELINE") <==> category == BlockedMidPipeline)
  {
    hide Reachable, FamilyInv;
    ReachableOk(env, f, c);
    SettledVerdict(f, c.rows);
    forall outcome, category ensures
        && (f == OnDemandRead ==>
              (c.rows.command.errorCode == Some(OnDemandErrorCode(outcome))
               <==> Meta(c.rows).execution.value.outcome == outcome))
        && (f == ProfileCapture && Meta(c.rows).execution.value.outcome != OutTimedOut ==>
              (c.rows.command.errorCode == Some(CaptureErrorCode(category))
               <==> Meta(c.rows).terminalStatus.value.category == category))
    {
      ErrorCodeTells(env, f, c, outcome, category);
    }
    assert OnDemandErrorCode(OutSucceeded) == "ON_DEMAND_READ_SUCCEEDED"
        && OnDemandErrorCode(OutFailed) == "ON_DEMAND_READ_FAILED"
        && OnDemandErrorCode(OutTimedOut) == "ON_DEMAND_READ_RUNTIME_TIMED_OUT"
        && OnDemandErrorCode(OutCancelled) == "ON_DEMAND_READ_CANCELLED"
        && OnDemandErrorCode(OutPartial) == "ON_DEMAND_READ_PARTIAL";
    assert CaptureErrorCode(Acknowledged) == "PROFILE_CAPTURE_ACKNOWLEDGED"
        && CaptureErrorCode(RejectedByMeter) == "PROFILE_CAPTURE_REJECTED"
        && CaptureErrorCode(Unavailable) == "PROFILE_CAPTURE_UNAVAILABLE"
        && CaptureErrorCode(UnusableResponse) == "PROFILE_CAPTURE_UNUSABLE_RESPONSE"
        && CaptureErrorCode(BlockedPreInvocation) == "PROFILE_CAPTURE_BLOCKED_PRE_INVOCATION"
        && CaptureErrorCode(BlockedMidPipeline) == "PROFILE_CAPTURE_BLOCKED_MID_PIPELINE";
  }

  lemma SettledVerdict(f: Family, r: Rows)
    requires FamilyInv(f, r) && Meta(r).terminalization.Some?
    ensures Meta(r).execution.Some? && (f == ProfileCapture ==> Meta(r).terminalStatus.Some?)
    ensures var v := VerdictOf(f, Meta(r));
            v.Verdict? && r.command.status == CommandFinal(v.final) && r.command.errorCode == v.errorCode
  {
  }

  /** The continuation of a handoff whose record exists but whose execution does not is dead code. */
  lemma HandoffNeverContinues(f: Family, c: Cell, req: Request, amb: Ambient)
    requires CellOk(f, c) && Meta(c.rows).handoff.Some?
    ensures HandoffOp(f, Begin(c), req, amb).History() == [c]
    ensures HandoffOp(f, Begin(c), req, amb).progress.Going? <==>
              && Meta(c.rows).handoff.value.identifier == req.identifier
              && Meta(c.rows).handoff.value.executor == req.executor
  {
    hide HandoffBody;
  }

  /** At most one attempt exists per command, and once written its artifacts stay. */
  lemma WriteOnce(f: Family, g: Family, op: Operation, c: Cell, amb: Ambient, d: Cell)
    requires CellOk(g, c) && d in Perform(f, op, c, amb).History()
    ensures d.rows.earlier == []
    ensures var m, n := Meta(c.rows), Meta(d.rows);
            && Stays(m.bootstrap, n.bootstrap) && Stays(m.envelope, n.envelope) && Stays(m.execution, n.execution)
            && Stays(m.handoff, n.handoff) && Stays(m.terminalization, n.terminalization)
            && Stays(m.orchestration, n.orchestration) && Stays(m.executeNow, n.executeNow)
            && d.rows.command.summary.enqueue == c.rows.command.summary.enqueue
  {
    hide Perform, Lawful, LedgerInv, Statuses;
    PerformLawful(f, g, op, c, amb);
    var h := Perform(f, op, c, amb).History();
    var i :| 0 <= i < |h| && h[i] == d;
    LawfulGrows(g, h, 0, i);
  }

  // ---- ending is not settling: exactly when a call gets it right ----

  /** Having ended and carrying a terminalization are the same fact. */
  ghost predicate EndedIsSettled(r: Rows) {
    Ended(r) <==> Meta(r).terminalization.Some?
  }

  lemma FateIsSettled(f: Family, c: Cell, d: Cell, req: OrchestrationRequest, amb: Ambient)
    requires CellOk(f, d) && OrchestrationFate(f, c, d, req, amb)
    ensures EndedIsSettled(d.rows) <==> !Enters(f, c.rows, req, amb) || ReplyAccepted(f, amb.reply)
    ensures Lost(d.rows) <==> Enters(f, c.rows, req, amb) && !amb.reply.Answered?
    ensures Unsettleable(f, d.rows)
            <==> Enters(f, c.rows, req, amb) && amb.reply.Answered? && !ReplyAccepted(f, amb.reply)
  {
    EndingFacts(f, d.rows);
    hide FamilyInv;
  }

  lemma EndingFacts(f: Family, r: Rows)
    requires FamilyInv(f, r)
    ensures Meta(r).terminalization.Some? ==> Ended(r) && Meta(r).handoff.Some?
    ensures Meta(r).orchestration.Some? ==> Meta(r).terminalization.Some?
  {
  }

  lemma FinalOk(f: Family, c: Cell, req: OrchestrationRequest, amb: Ambient)
    requires CellOk(f, c)
    ensures CellOk(f, OrchestrateOp(f, Begin(c), req, amb).cell)
  {
    hide FamilyInv, OrchestrateOp, Lawful;
    BeginLawful(f, c);
    OrchestrateLawful(f, Begin(c), req, amb);
  }

  /** An orchestration that runs to its end leaves ending and settling in agreement exactly
      when it never gets past the chain or the adapter's reply is one its family can express. */
  lemma EndedIsSettledExactly(f: Family, c: Cell, req: OrchestrationRequest, amb: Ambient)
    requires CellOk(f, c) && !Ended(c.rows)
    requires req.leaseSeconds >= MIN_SECONDS && req.sessionSeconds >= MIN_SECONDS
    ensures EndedIsSettled(OrchestrateOp(f, Begin(c), req, amb).cell.rows)
            <==> !Enters(f, c.rows, req, amb) || ReplyAccepted(f, amb.reply)
  {
    hide FamilyInv, OrchestrateOp, OrchestrationFate, Enters, EndedIsSettled;
    FinalOk(f, c, req, amb);
    OrchestrateFate(f, c, req, amb);
    FateIsSettled(f, c, OrchestrateOp(f, Begin(c), req, amb).cell, req, amb);
  }

  /** It loses the command, with no crash at all, exactly when it gets past the chain and the
      adapter does not answer; it leaves a result nobody can settle exactly when the adapter
      answers with one its family cannot express. */
  lemma LostExactly(f: Family, c: Cell, req: OrchestrationRequest, amb: Ambient)
    requires CellOk(f, c) && !Ended(c.rows)
    requires req.leaseSeconds >= MIN_SECONDS && req.sessionSeconds >= MIN_SECONDS
    ensures var d := OrchestrateOp(f, Begin(c), req, amb).cell.rows;
            && (Lost(d) <==> Enters(f, c.rows, req, amb) && !amb.reply.Answered?)
            && (Unsettleable(f, d) <==>
                  Enters(f, c.rows, req, amb) && amb.reply.Answered? && !ReplyAccepted(f, amb.reply))
  {
    hide FamilyInv, OrchestrateOp, OrchestrationFate, Enters, Lost, Unsettleable;
    FinalOk(f, c, req, amb);
    OrchestrateFate(f, c, req, amb);
    FateIsSettled(f, c, OrchestrateOp(f, Begin(c), req, amb).cell, req, amb);
  }

  /** If it may also be stopped after any commit, agreement holds in every state it can leave
      exactly when it never gets past the chain. */
  lemma EndedIsSettledThroughout(f: Family, c: Cell, req: OrchestrationRequest, amb: Ambient)
    requires CellOk(f, c) && !Ended(c.rows)
    requires req.leaseSeconds >= MIN_SECONDS && req.sessionSeconds >= MIN_SECONDS
    ensures (forall d :: d in OrchestrateOp(f, Begin(c), req, amb).History() ==> EndedIsSettled(d.rows))
            <==> !Enters(f, c.rows, req, amb)
  {
    hide FamilyInv, OrchestrateOp, Enters, Lawful, EndedIsSettled, Perform;
    var h := OrchestrateOp(f, Begin(c), req, amb).History();
    BeginLawful(f, c);
    OrchestrateLawful(f, Begin(c), req, amb);
    if Enters(f, c.rows, req, amb) {
      var k := FalseSuccessWindow(f, c, req, amb);
      LostDisagrees(f, h[k].rows);
      assert h[k] in h;
    } else {
      OrchestrateFate(f, c, req, amb);
      forall d | d in h ensures EndedIsSettled(d.rows) {
        var k :| 0 <= k < |h| && h[k] == d;
        LawfulGrows(f, h, k, |h| - 1);
        NotEndedBefore(f, d.rows, h[|h| - 1].rows);
      }
    }
  }

  lemma LostDisagrees(f: Family, r: Rows)
    requires FamilyInv(f, r) && Lost(r)
    ensures !EndedIsSettled(r)
  {
    EndingFacts(f, r);
  }

  lemma NotEndedBefore(f: Family, r: Rows, q: Rows)
    requires FamilyInv(f, r) && FamilyInv(f, q) && Grows(r, q) && !Ended(q)
    ensures !Ended(r) && EndedIsSettled(r)
  {
    PhaseOfEnded(f, r);
    PhaseOfEnded(f, q);
    GrownIsForward(f, r, q);
    EndingFacts(f, r);
    hide FamilyInv, Grows;
  }

  /** The same for a direct handoff of a running attempt: it loses the command exactly when it
      gets past the chain and the adapter does not answer. */
  lemma HandoffLosesExactly(f: Family, c: Cell, req: Request, amb: Ambient)
    requires CellOk(f, c) && c.rows.attempt.Some? && !Ended(c.rows)
    requires req.leaseSeconds >= MIN_SECONDS && req.sessionSeconds >= MIN_SECONDS
    ensures Lost(HandoffOp(f, Begin(c), req, amb).cell.rows)
            <==> HandoffEnters(c.rows, req.executor, amb) && !amb.reply.Answered?
  {
    hide FamilyInv, HandoffOp, Lawful;
    BeginLawful(f, c);
    HandoffGoesIff(f, Begin(c), req, amb);
    HandoffLawful(f, Begin(c), req, amb);
  }

  /** And for the direct route. */
  lemma ExecuteNowLosesExactly(f: Family, c: Cell, amb: Ambient)
    requires CellOk(f, c) && !Ended(c.rows)
    ensures Lost(ExecuteNowOp(f, Begin(c), amb).cell.rows)
            <==> Enters(f, c.rows, ExecuteNowRequest(f, c.rows), amb) && !amb.reply.Answered?
  {
    hide FamilyInv, OrchestrateOp, Enters, Unsettleable, Lawful;
    var req := ExecuteNowRequest(f, c.rows);
    NotEndedNotSealed(f, c.rows);
    InvCategory(f, c.rows);
    LostExactly(f, c, req, amb);
    var done := OrchestrateOp(f, Begin(c), req, amb);
    FinalOk(f, c, req, amb);
    EndingFacts(f, done.cell.rows);
    BeginLawful(f, c);
    OrchestrateLawful(f, Begin(c), req, amb);
  }

  // ---- success without the meter ----

  lemma NewCellOk(f: Family, id: string)
    ensures CellOk(f, NewCell(id, CategoryOf(f), true)) && !Ended(NewCell(id, CategoryOf(f), true).rows)
    ensures Meta(NewCell(id, CategoryOf(f), true).rows) == EMPTY_LEDGER
  {
  }

  lemma AfterSubmitAndCall(env: Env, f: Family, id: string, op: Operation, amb: Ambient, cut: nat)
    ensures var c := NewCell(id, CategoryOf(f), true);
            var w := WorldAfter(env, [Submit(id, CategoryOf(f), true), Call(id, f, op, amb, cut)]);
            id in w.cells && w.cells[id] == Durable(Perform(f, op, c, amb), cut)
  {
    hide Perform, Durable;
    var first, second := Submit(id, CategoryOf(f), true), Call(id, f, op, amb, cut);
    var w := Apply(env, START, first);
    assert [first, second][1..] == [second] && [second][1..] == [];
    assert Replay(env, w, [second]) == Replay(env, Apply(env, w, second), []);
    assert WorldAfter(env, [first, second]) == Replay(env, w, [second]);
  }

  /** Ending is not settling: a submitted command whose orchestration crashed can read as
      succeeded without a terminalization, without a result, and without a call of the meter. */
  lemma SuccessWithoutMeterIsReachable(env: Env, f: Family) returns (c: Cell)
    ensures Reachable(env, f, c) && c.rows.command.status == CmdSucceeded && c.calls == 0
    ensures Meta(c.rows).terminalization.None? && Meta(c.rows).execution.None?
  {
    hide OrchestrateOp, Perform, Reachable, FamilyInv;
    var start := NewCell("command", CategoryOf(f), true);
    var req := OrchestrationRequest("orchestration", "executor", DEFAULT_SECONDS, DEFAULT_SECONDS);
    var amb := Ambient(0, true, "attempt", "job", "session",
                       Answered(OutFailed, false, false, None, "no answer", Unavailable, "no answer"));
    NewCellOk(f, "command");
    OrchestrateGoesIff(f, start, req, amb);
    assert Enters(f, start.rows, req, amb);
    var k := FalseSuccessWindow(f, start, req, amb);
    c := OrchestrateOp(f, Begin(start), req, amb).History()[k];
    InvCategory(f, c.rows);
    PerformIsOrchestrate(f, start, req, amb);
    AfterSubmitAndCall(env, f, "command", Orchestrate(req), amb, k);
    WitnessReachable(env, f, c, [Submit("command", CategoryOf(f), true), Call("command", f, Orchestrate(req), amb, k)],
                     "command");
    ReachableOk(env, f, c);
    NotCalledNotSettled(f, c);
  }

  /** No crash is needed for it: an uninterrupted orchestration whose adapter does not support
      the request ends refused and leaves such a command. */
  lemma SuccessWithoutCrashIsReachable(env: Env, f: Family, id: string)
    returns (req: OrchestrationRequest, amb: Ambient)
    ensures var run := Perform(f, Orchestrate(req), NewCell(id, CategoryOf(f), true), amb);
            && run.progress.Refused? && Reachable(env, f, run.cell)
            && run.cell.rows.command.status == CmdSucceeded && run.cell.calls == 0 && Lost(run.cell.rows)
  {
    hide OrchestrateOp, Perform, Reachable, FamilyInv;
    var start := NewCell(id, CategoryOf(f), true);
    req := OrchestrationRequest("orchestration", "executor", DEFAULT_SECONDS, DEFAULT_SECONDS);
    amb := Ambient(0, true, "attempt", "job", "session", Unsupported);
    NewCellOk(f, id);
    OrchestrateGoesIff(f, start, req, amb);
    OrchestrateFate(f, start, req, amb);
    FinalOk(f, start, req, amb);
    PerformIsOrchestrate(f, start, req, amb);
    var run := Perform(f, Orchestrate(req), start, amb);
    LostFacts(f, run.cell.rows);
    InvCategory(f, run.cell.rows);
    AfterSubmitAndCall(env, f, id, Orchestrate(req), amb, |run.past|);
    WitnessReachable(env, f, run.cell,
                     [Submit(id, CategoryOf(f), true), Call(id, f, Orchestrate(req), amb, |run.past|)], id);
  }

  lemma PerformIsOrchestrate(f: Family, c: Cell, req: OrchestrationRequest, amb: Ambient)
    ensures Perform(f, Orchestrate(req), c, amb) == OrchestrateOp(f, Begin(c), req, amb)
  {
  }

  lemma WitnessReachable(env: Env, f: Family, c: Cell, events: seq<Event>, id: string)
    requires id in WorldAfter(env, events).cells && WorldAfter(env, events).cells[id] == c
      && c.rows.command.category == CategoryOf(f)
    ensures Reachable(env, f, c)
  {
  }

  lemma NotCalledNotSettled(f: Family, c: Cell)
    requires CellOk(f, c) && c.calls == 0
    ensures Meta(c.rows).execution.None? && Meta(c.rows).terminalization.None?
  {
  }
}
