/**
 What an operation answers: which call is refused for which reason, as one table over the rows
 it finds, its request and the adapter's reply.
 */
module Answers {
  import opened Wrappers
  import opened CommandModel
  import opened RuntimeHandoff
  import opened CommandExecution
  import opened Invariants
  import opened Phases
  import opened Safety
  import opened Recovery
  import opened Settlement
  import opened Records

  // ---- why the chain refuses ----

  /** What the steps before the session have secured although the guard is outlived. */
  ghost predicate StaleSecured(i: nat, r: Rows, executor: string, now: Time) {
    && Unobstructed(r, executor) && StaleGuard(Meta(r), now) && Pinned(r, executor)
    && Meta(r).bridges == []
    && (i >= 1 ==> r.job.Some?)
    && (i >= 3 ==> Meta(r).lease.Some? && Meta(r).lease.value.expiresAt > now)
  }

  lemma StaleStepExpires(i: nat, r: Rows, req: Request, amb: Ambient)
    requires i <= 5 && StaleSecured(i, r, req.executor, amb.now) && req.leaseSeconds >= MIN_SECONDS
    ensures var s := ChainStep(i, r, req, amb);
            && (i < 5 ==> !s.Refuse? && StaleGuard(Meta(After(r, s)), amb.now) && After(r, s).job.Some?
                          && Pinned(After(r, s), req.executor) && Meta(After(r, s)).bridges == []
                          && (i >= 2 ==>
                                Meta(After(r, s)).lease.Some? && Meta(After(r, s)).lease.value.expiresAt > amb.now))
            && (i == 5 ==> s == Refuse(Expired))
  {
    hide SameSession;
  }

  lemma StaleNoBridges(f: Family, r: Rows, now: Time)
    requires FamilyInv(f, r) && StaleGuard(Meta(r), now)
    ensures Meta(r).bridges == []
  {
  }

  /** For the pinned executor an outlived guard shows only at the session. */
  lemma {:induction false} StaleChainExpires(f: Family, i: nat, run: Run, req: Request, amb: Ambient)
    requires i <= 5 && LawfulRun(f, run) && run.progress.Going? && req.leaseSeconds >= MIN_SECONDS
    requires StaleSecured(i, run.cell.rows, req.executor, amb.now)
    ensures Chain(i, run, req, amb).progress == Refused(Expired)
    decreases 5 - i
  {
    hide FamilyInv, ChainStep, Unobstructed, Lawful;
    var r := run.cell.rows;
    var s := ChainStep(i, r, req, amb);
    OneChainStep(f, i, run, req, amb);
    StaleStepExpires(i, r, req, amb);
    if i < 5 {
      StaleUnobstructed(f, After(r, s), req.executor, amb.now);
      StaleChainExpires(f, i + 1, Commit(run, s), req, amb);
    } else {
      RefusedStays(i + 1, Commit(run, s), req, amb);
    }
  }

  lemma OtherWorkerAnswer(f: Family, run: Run, req: Request, amb: Ambient)
    requires LawfulRun(f, run) && run.progress.Going? && Meta(run.cell.rows).envelope.Some?
      && !Pinned(run.cell.rows, req.executor)
    ensures Chain(0, run, req, amb).progress == Refused(OtherExecutor)
  {
    hide Lawful;
    var r := run.cell.rows;
    OtherWorkerSteps(f, r, req, amb);
    hide FamilyInv, JobRunStep, EnvelopeStep;
    assert Chain(0, run, req, amb) == Chain(1, run, req, amb);
  }

  lemma OtherWorkerSteps(f: Family, r: Rows, req: Request, amb: Ambient)
    requires FamilyInv(f, r) && Meta(r).envelope.Some? && !Pinned(r, req.executor)
    ensures JobRunStep(r, amb).Keep? && EnvelopeStep(r, req) == Refuse(OtherExecutor)
  {
    JobEnvelope(f, r);
  }

  // ---- the handoff ----

  /** The answer of a handoff to a command whose attempt is running. */
  function RunningAnswer(r: Rows, executor: string, stale: bool, amb: Ambient): Progress {
    if !r.command.payloadValid then Refused(PayloadInvalid)
    else if !amb.linkValid then Refused(LinkInvalid)
    else if Meta(r).envelope.Some? && Meta(r).envelope.value.worker != executor then Refused(OtherExecutor)
    else if stale then Refused(Expired)
    else match amb.reply
      case Unsupported => Refused(AdapterUnsupported)
      case Raised => Refused(AdapterRaised)
      case Answered(_, _, _, _, _, _, _) => Going
  }

  lemma TailAnswer(f: Family, chained: Run, req: Request, amb: Ambient, a: bool, b: bool)
    requires chained.progress.Going? && AdapterReady(Meta(chained.cell.rows), req.executor)
    requires var r := chained.cell.rows;
             && r.attempt.Some? && r.attempt.value.jobRunId.Some? && r.job.Some? && Meta(r).bootstrap.Some?
             && Meta(r).execution.None?
    ensures var executed := AdapterCall(f, chained, req, amb);
            Commit(executed, HandoffRecordStep(executed.cell.rows, req, amb.now, a, b)).progress
            == match amb.reply
               case Unsupported => Refused(AdapterUnsupported)
               case Raised => Refused(AdapterRaised)
               case Answered(_, _, _, _, _, _, _) => Going
  {
    hide AdapterReady;
    assert Meta(chained.cell.rows).session.Some? by { ReadyHasSession(Meta(chained.cell.rows), req.executor); }
  }

  lemma BodyAnswer(f: Family, run: Run, req: Request, amb: Ambient)
    requires LawfulRun(f, run) && run.progress.Going? && run.cell.rows.attempt.Some? && !Ended(run.cell.rows)
    requires req.leaseSeconds >= MIN_SECONDS && req.sessionSeconds >= MIN_SECONDS
    requires run.cell.rows.command.payloadValid && amb.linkValid
    ensures HandoffBody(f, run, req, amb).progress
            == RunningAnswer(run.cell.rows, req.executor, StaleGuard(Meta(run.cell.rows), amb.now), amb)
  {
    hide FamilyInv, LawfulRun, Chain, Secured, AdapterReady, AdapterCall, HandoffRecordStep;
    var r := run.cell.rows;
    LatestOk(f, run);
    RunningAttempt(f, r, req.executor, amb.now);
    if Meta(r).envelope.Some? && !Pinned(r, req.executor) {
      OtherWorkerAnswer(f, run, req, amb);
      AdapterStopped(f, Chain(0, run, req, amb), req, amb);
    } else if StaleGuard(Meta(r), amb.now) {
      StaleFacts(f, r, amb.now);
      StaleUnobstructed(f, r, req.executor, amb.now);
      StaleNoBridges(f, r, amb.now);
      StaleChainExpires(f, 0, run, req, amb);
      AdapterStopped(f, Chain(0, run, req, amb), req, amb);
    } else {
      ChainCompletes(f, 0, run, req, amb);
      ChainLawful(f, 0, run, req, amb);
      var chained := Chain(0, run, req, amb);
      ReadyForAdapter(f, chained.cell.rows, req.executor, amb.now);
      TailAnswer(f, chained, req, amb, Meta(r).handoff.Some?, Meta(chained.cell.rows).execution.Some?);
    }
  }

  lemma AdapterStopped(f: Family, run: Run, req: Request, amb: Ambient)
    requires run.progress.Refused?
    ensures AdapterCall(f, run, req, amb) == run
  {
  }

  /** The answer of a handoff, for every state of the command. */
  ghost function HandoffAnswer(r: Rows, req: Request, amb: Ambient): Progress {
    var handoff := Meta(r).handoff;
    if handoff.Some? then
      if handoff.value.identifier != req.identifier then Refused(OtherIdentifier)
      else if handoff.value.executor != req.executor then Refused(OtherExecutor)
      else Going
    else if Ended(r) || r.command.status == CmdCancelled then Refused(NotEligible)
    else if r.attempt.Some? then RunningAnswer(r, req.executor, StaleGuard(Meta(r), amb.now), amb)
    else if !r.command.payloadValid then Refused(PayloadInvalid)
    else if !amb.linkValid then Refused(LinkInvalid)
    else Refused(MissingAttempt)
  }

  lemma HandoffAnswers(f: Family, c: Cell, req: Request, amb: Ambient)
    requires CellOk(f, c)
    requires req.leaseSeconds >= MIN_SECONDS && req.sessionSeconds >= MIN_SECONDS
    ensures HandoffOp(f, Begin(c), req, amb).progress == HandoffAnswer(c.rows, req, amb)
  {
    hide HandoffBody, LedgerInv;
    BeginLawful(f, c);
    HandedFacts(f, c.rows);
    if c.rows.attempt.Some? && !Ended(c.rows) {
      RunningAttempt(f, c.rows, req.executor, amb.now);
      if c.rows.command.payloadValid && amb.linkValid { BodyAnswer(f, Begin(c), req, amb); }
    }
  }

  lemma HandedFacts(f: Family, r: Rows)
    requires FamilyInv(f, r)
    ensures Meta(r).handoff.Some? ==>
              Meta(r).execution.Some? && r.attempt.Some? && r.attempt.value.jobRunId.Some? && r.job.Some?
    ensures Ended(r) ==> TerminalCommand(r.command.status)
    ensures r.attempt.None? ==> (TerminalCommand(r.command.status) <==> r.command.status == CmdCancelled)
  {
  }

  // ---- settlement ----

  function TerminalizeAnswer(f: Family, r: Rows, identifier: string, executor: string): Progress {
    var m := Meta(r);
    if m.terminalization.Some? then
      if m.terminalization.value.identifier != identifier then Refused(OtherIdentifier)
      else if m.terminalization.value.executor != executor then Refused(OtherExecutor)
      else Going
    else if r.attempt.None? then Refused(MissingAttempt)
    else if m.handoff.None? then Refused(MissingArtifact)
    else if m.handoff.value.executor != executor then Refused(OtherExecutor)
    else if m.execution.Some? && m.execution.value.outcome == OutSucceeded && f == ProfileCapture
            && m.terminalStatus.Some? && m.terminalStatus.value.category != Acknowledged
    then Refused(IncompatibleTerminalStatus)
    else Going
  }

  lemma TerminalizeAnswers(f: Family, c: Cell, identifier: string, executor: string, amb: Ambient)
    requires CellOk(f, c)
    ensures Perform(f, Terminalize(identifier, executor), c, amb).progress
            == TerminalizeAnswer(f, c.rows, identifier, executor)
  {
    hide Settle, Nested, Statuses, NeverReused, SameIdentifier, CommandSide, Mirrored, OwnedBy, CallsOnce;
  }

  // ---- the orchestration ----

  /** The answer of an orchestration, for every state of the command. */
  ghost function OrchestrateAnswer(f: Family, r: Rows, req: OrchestrationRequest, amb: Ambient): Progress {
    var m := Meta(r);
    if m.orchestration.Some? then
      if m.orchestration.value.identifier != req.identifier then Refused(OtherIdentifier)
      else if m.orchestration.value.executor != req.executor then Refused(OtherExecutor)
      else Going
    else if Ended(r) then Refused(AlreadyFinalized)
    else if r.command.status == CmdCancelled then Refused(NotEligible)
    else if !r.command.payloadValid then Refused(PayloadInvalid)
    else if !amb.linkValid then Refused(LinkInvalid)
    else if m.bootstrap.Some? && m.bootstrap.value.identifier != BootstrapIdentifier(f, req.identifier)
    then Refused(OtherIdentifier)
    else if RunningAnswer(r, req.executor, StaleGuard(m, amb.now), amb).Refused?
    then RunningAnswer(r, req.executor, StaleGuard(m, amb.now), amb)
    else if !ReplyAccepted(f, amb.reply) then Refused(IncompatibleTerminalStatus)
    else Going
  }

  lemma BootstrapAnswer(f: Family, r: Rows, identifier: string, amb: Ambient)
    requires FamilyInv(f, r) && !Ended(r) && r.command.status != CmdCancelled && r.command.payloadValid
    ensures var s := BootstrapStep(f, r, identifier, amb);
            && (!amb.linkValid ==> s == Refuse(LinkInvalid))
            && (amb.linkValid && Meta(r).bootstrap.Some? && Meta(r).bootstrap.value.identifier != identifier ==>
                  s == Refuse(OtherIdentifier))
  {
  }

  lemma SettlementAnswer(f: Family, handed: Run, req: OrchestrationRequest, amb: Ambient)
    requires LawfulRun(f, handed) && handed.progress.Going? && amb.reply.Answered?
    requires var m := Meta(handed.cell.rows);
             && m.handoff.Some? && m.handoff.value.executor == req.executor && m.terminalization.None?
             && m.orchestration.None? && Recorded(f, m, amb.reply)
    ensures AfterHandoff(f, handed, req, amb).progress
            == if ReplyAccepted(f, amb.reply) then Going else Refused(IncompatibleTerminalStatus)
  {
    hide FamilyInv, Lawful, TerminalizeStep;
    LatestOk(f, handed);
    TerminalizeAnswers(f, handed.cell, req.identifier, req.executor, amb);
    TerminalizePerformed(f, handed.cell, req.identifier, req.executor, amb);
    RecordedVerdict(f, Meta(handed.cell.rows), amb.reply);
    RecordedOutcome(f, Meta(handed.cell.rows), amb.reply);
    SettledHasHandoff(f, handed.cell.rows, req.identifier, req.executor, amb.now);
    OnlyCaptureHasStatus(f, handed.cell.rows);
  }

  lemma OnlyCaptureHasStatus(f: Family, r: Rows)
    requires FamilyInv(f, r) && Meta(r).handoff.Some?
    ensures r.attempt.Some?
  {
  }

  lemma TerminalizePerformed(f: Family, c: Cell, identifier: string, executor: string, amb: Ambient)
    ensures Perform(f, Terminalize(identifier, executor), c, amb)
            == Commit(Begin(c), TerminalizeStep(f, c.rows, identifier, executor, amb.now))
  {
  }

  lemma OrchestrateBodyAnswer(f: Family, c: Cell, req: OrchestrationRequest, amb: Ambient)
    requires CellOk(f, c) && !Ended(c.rows) && c.rows.command.status != CmdCancelled && c.rows.command.payloadValid
    requires req.leaseSeconds >= MIN_SECONDS && req.sessionSeconds >= MIN_SECONDS
    ensures OrchestrateBody(f, Begin(c), req, amb).progress == OrchestrateAnswer(f, c.rows, req, amb)
  {
    hide FamilyInv, Lawful, HandoffOp, BootstrapStep, TerminalizeStep, Recorded;
    var r, run := c.rows, Begin(c);
    var boot := BootstrapIdentifier(f, req.identifier);
    var h := HandoffRequest(req);
    BeginLawful(f, c);
    NeverCalled(f, c);
    BootstrapAnswer(f, r, boot, amb);
    BootstrapGoesIff(f, r, boot, amb);
    BootedLawful(f, run, boot, amb);
    var booted := Commit(run, BootstrapStep(f, r, boot, amb));
    if booted.progress.Going? {
      LatestOk(f, booted);
      RunningAttempt(f, booted.cell.rows, req.executor, amb.now);
      HandoffAnswersRun(f, booted, h, amb);
      HandoffGoesIff(f, booted, h, amb);
      HandoffLawful(f, booted, h, amb);
      if HandoffOp(f, booted, h, amb).progress.Going? {
        SettlementAnswer(f, HandoffOp(f, booted, h, amb), req, amb);
      } else {
        RefusedHandoffEnds(f, run, req, amb);
      }
    } else {
      HandoffStaysRefused(f, booted, h, amb);
    }
  }

  lemma HandoffAnswersRun(f: Family, run: Run, req: Request, amb: Ambient)
    requires LawfulRun(f, run) && run.progress.Going? && run.cell.rows.attempt.Some? && !Ended(run.cell.rows)
    requires req.leaseSeconds >= MIN_SECONDS && req.sessionSeconds >= MIN_SECONDS
    requires run.cell.rows.command.payloadValid && amb.linkValid
    ensures HandoffOp(f, run, req, amb).progress
            == RunningAnswer(run.cell.rows, req.executor, StaleGuard(Meta(run.cell.rows), amb.now), amb)
  {
    hide HandoffBody, LedgerInv, Lawful;
    LatestOk(f, run);
    RunningAttempt(f, run.cell.rows, req.executor, amb.now);
    BodyAnswer(f, run, req, amb);
  }

  /** All the services of an orchestration together answer as this one table says. */
  lemma OrchestrateAnswers(f: Family, c: Cell, req: OrchestrationRequest, amb: Ambient)
    requires CellOk(f, c)
    requires req.leaseSeconds >= MIN_SECONDS && req.sessionSeconds >= MIN_SECONDS
    ensures OrchestrateOp(f, Begin(c), req, amb).progress == OrchestrateAnswer(f, c.rows, req, amb)
  {
    hide LedgerInv, Statuses, OrchestrateBody;
    var r := c.rows;
    SealedHasEnded(f, r);
    if Meta(r).orchestration.None? && !Ended(r) && r.command.status != CmdCancelled {
      LiveStatus(f, r);
      if r.command.payloadValid { OrchestrateBodyAnswer(f, c, req, amb); }
    }
  }

  lemma SealedHasEnded(f: Family, r: Rows)
    requires FamilyInv(f, r)
    ensures Meta(r).orchestration.Some? ==> Ended(r)
    ensures TerminalCommand(r.command.status) ==> Ended(r) || r.command.status == CmdCancelled
  {
  }

  /** And the direct route as its orchestration does. */
  lemma ExecuteNowAnswers(f: Family, c: Cell, amb: Ambient)
    requires CellOk(f, c)
    ensures ExecuteNowOp(f, Begin(c), amb).progress == OrchestrateAnswer(f, c.rows, ExecuteNowRequest(f, c.rows), amb)
  {
    hide FamilyInv, OrchestrateOp, Lawful;
    var req := ExecuteNowRequest(f, c.rows);
    InvCategory(f, c.rows);
    if Meta(c.rows).executeNow.Some? {
      AnnouncedIsSealed(f, c.rows);
    } else {
      OrchestrateAnswers(f, c, req, amb);
      ExecuteNowGoesIff(f, c, amb);
      OrchestrateGoesIff(f, c, req, amb);
    }
  }

  // ---- the other calls ----

  /** A bootstrap answers for the stored identifier only and starts nothing twice. */
  lemma BootstrapAnswers(f: Family, c: Cell, identifier: string, amb: Ambient)
    requires CellOk(f, c)
    ensures Perform(f, Operation.BootstrapAttempt(identifier), c, amb).progress
            == if Ended(c.rows) || c.rows.command.status == CmdCancelled then Refused(NotEligible)
               else if !c.rows.command.payloadValid then Refused(PayloadInvalid)
               else if !amb.linkValid then Refused(LinkInvalid)
               else if c.rows.attempt.Some? && Meta(c.rows).bootstrap.Some?
                       && Meta(c.rows).bootstrap.value.identifier != identifier then Refused(OtherIdentifier)
               else Going
  {
  }

  /** A command can be cancelled exactly while it waits for its first attempt, and then says when
      and why. */
  lemma CancelAnswers(f: Family, g: Family, c: Cell, reason: string, amb: Ambient)
    requires CellOk(g, c)
    ensures Perform(f, Cancel(reason), c, amb).progress == if Abs(c.rows).Waiting? then Going else Refused(NotEligible)
    ensures var q := Perform(f, Cancel(reason), c, amb).cell.rows;
            if Abs(c.rows).Waiting? then
              q == c.rows.(command := c.rows.command.(
                     status := CmdCancelled, completedAt := Some(amb.now), errorMessage := Some(reason)))
            else q == c.rows
  {
    hide LedgerInv, Mirrored, CommandSide, CallsOnce, VerdictOf;
  }

  /** A command of any other category is refused for its category by every operation but
      cancellation, whatever its rows, and nothing is committed. */
  lemma OtherCategoryAnswers(f: Family, op: Operation, c: Cell, amb: Ambient)
    requires c.rows.command.category != CategoryOf(f) && !op.Cancel?
    ensures Perform(f, op, c, amb) == Run([], c, Refused(IncompatibleCategory))
  {
    hide HandoffBody, OrchestrateBody;
  }

  // ---- the transition table, read by its targets ----

  /** From which statuses each status may be reached; the statuses that can be cancelled are those a
      cancel accepts, and those that can be queued are those an enqueue accepts. */
  lemma TransitionsExactly(s: CommandStatus)
    ensures !AllowedTransition(s, CmdPending)
    ensures AllowedTransition(s, CmdScheduled) <==> s == CmdPending
    ensures AllowedTransition(s, CmdQueued) <==> s in {CmdPending, CmdScheduled, CmdRetryWait}
    ensures AllowedTransition(s, CmdInProgress) <==> s in {CmdPending, CmdScheduled, CmdQueued, CmdRetryWait}
    ensures AllowedTransition(s, CmdRetryWait) <==> s == CmdInProgress
    ensures AllowedTransition(s, CmdSucceeded) <==> s == CmdInProgress
    ensures AllowedTransition(s, CmdFailed) <==> s == CmdInProgress
    ensures AllowedTransition(s, CmdCancelled) <==> s in {CmdPending, CmdScheduled, CmdQueued, CmdRetryWait}
    ensures AllowedTransition(s, CmdTimedOut) <==> !TerminalCommand(s)
    ensures forall t :: TerminalCommand(s) ==> !AllowedTransition(s, t)
  {
  }
}
