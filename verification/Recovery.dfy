/**
 When does an orchestration complete? Exactly which durable states a re-run with the
 same identifier and executor can finish from, and which states no run leaves again.
 */
module Recovery {
  import opened Wrappers
  import opened CommandModel
  import opened RuntimeHandoff
  import opened CommandExecution
  import opened Invariants
  import opened Phases
  import opened Safety

  /** The request schema's lower bound on lease and session lengths. */
  const MIN_SECONDS: nat := 5

  ghost predicate Ended(r: Rows) {
    r.attempt.Some? && r.attempt.value.endedAt.Some?
  }

  ghost predicate SessionClosed(m: Ledger) {
    m.session.Some? && m.session.value.finalizedBy.Some?
  }

  /** A guard outlived by the clock before its session was finalized. */
  ghost predicate StaleGuard(m: Ledger, now: Time) {
    m.guard.Some? && m.guard.value.expiresAt <= now && !SessionClosed(m)
  }

  ghost predicate ReplyAccepted(f: Family, reply: Reply) {
    reply.Answered? && (f == ProfileCapture && reply.outcome == OutSucceeded ==> reply.category == Acknowledged)
  }

  /** What a caller can check before the call of a command that has not ended: everything
      that decides whether the call reaches the adapter. */
  ghost predicate Enters(f: Family, r: Rows, req: OrchestrationRequest, amb: Ambient) {
    var m := Meta(r);
    && r.command.status != CmdCancelled && r.command.payloadValid && amb.linkValid
    && (m.bootstrap.Some? ==> m.bootstrap.value.identifier == BootstrapIdentifier(f, req.identifier))
    && (m.envelope.Some? ==> m.envelope.value.worker == req.executor)
    && !StaleGuard(m, amb.now)
  }

  /** That, and a reply the family can express, or an orchestration to replay. */
  ghost predicate Completes(f: Family, r: Rows, req: OrchestrationRequest, amb: Ambient) {
    var m := Meta(r);
    if m.orchestration.Some? then SealedBy(m, req.identifier, req.executor)
    else !Ended(r) && Enters(f, r, req, amb) && ReplyAccepted(f, amb.reply)
  }

  /** Ended by the disposition, without a handoff record. */
  ghost predicate Lost(r: Rows) {
    Ended(r) && Meta(r).handoff.None?
  }

  /** Handed over with a result that its family cannot settle. */
  ghost predicate Unsettleable(f: Family, r: Rows) {
    var m := Meta(r);
    && Ended(r) && m.handoff.Some? && m.execution.Some? && m.terminalization.None? && m.orchestration.None?
    && (f == ProfileCapture ==> m.terminalStatus.Some?) && VerdictOf(f, m).Incompatible?
  }

  // ---- the chain does not refuse ----

  /** What the first `i` steps of the chain have secured. */
  ghost predicate Secured(i: nat, m: Ledger, executor: string, now: Time) {
    && |m.bridges| == (if i <= 8 then 0 else i - 8)
    && (m.envelope.Some? ==> m.envelope.value.worker == executor)
    && (i >= 2 ==> m.envelope.Some?)
    && (3 <= i <= 8 ==> m.lease.Some? && m.lease.value.expiresAt > now)
    && (4 <= i <= 8 ==> m.gate.Some? && m.gate.value.expiresAt > now)
    && (i >= 5 ==> m.guard.Some?)
    && (i <= 8 ==> !StaleGuard(m, now))
    && (6 <= i <= 8 ==> m.session.Some? && (SessionClosed(m) || m.session.value.expiresAt > now))
    && (i >= 7 ==> SessionClosed(m))
    && (i >= 8 ==> m.outcome.Some?)
  }

  ghost predicate Ready(f: Family, i: nat, r: Rows, executor: string, now: Time) {
    FamilyInv(f, r) && r.attempt.Some? && (i >= 1 ==> r.job.Some?) && Secured(i, Meta(r), executor, now)
  }

  /** What the invariant says about the steps' own checks. */
  ghost predicate Unobstructed(r: Rows, executor: string) {
    var m := Meta(r);
    && r.attempt.Some? && Linked(r)
    && (r.job.Some? ==> r.job.value.summary.envelope == m.envelope)
    && (m.guard.Some? ==> m.gate.Some?) && (m.gate.Some? ==> m.lease.Some?) && (m.lease.Some? ==> m.envelope.Some?)
    && (m.session.Some? ==> m.guard.Some?)
    && OwnedBy(m, r.attempt.value.id, executor)
    && (m.session.Some? ==> SameSession(m, executor))
    && (m.bridges == [] ==> r.attempt.value.endedAt.None? && r.attempt.value.status == AttStarted
                            && r.command.status == CmdInProgress && m.execution.None?)
  }

  lemma ReadyUnobstructed(f: Family, i: nat, r: Rows, executor: string, now: Time)
    requires Ready(f, i, r, executor, now)
    ensures Unobstructed(r, executor)
  {
  }

  function After(r: Rows, s: Step): Rows {
    if s.Write? then s.rows else r
  }

  ghost predicate Secures(i: nat, r: Rows, s: Step, executor: string, now: Time) {
    !s.Refuse? && After(r, s).attempt.Some? && After(r, s).job.Some? && Secured(i + 1, Meta(After(r, s)), executor, now)
  }

  lemma EarlySecures(i: nat, r: Rows, req: Request, amb: Ambient)
    requires i < 5 && Unobstructed(r, req.executor) && Secured(i, Meta(r), req.executor, amb.now)
      && (i >= 1 ==> r.job.Some?)
    requires req.leaseSeconds >= MIN_SECONDS
    ensures Secures(i, r, ChainStep(i, r, req, amb), req.executor, amb.now)
  {
  }

  lemma SessionSecures(i: nat, r: Rows, req: Request, amb: Ambient)
    requires 5 <= i < 7 && Unobstructed(r, req.executor) && Secured(i, Meta(r), req.executor, amb.now) && r.job.Some?
    requires req.sessionSeconds >= MIN_SECONDS
    ensures Secures(i, r, ChainStep(i, r, req, amb), req.executor, amb.now)
  {
  }

  lemma LateSecures(i: nat, r: Rows, req: Request, amb: Ambient)
    requires 7 <= i < CHAIN && Unobstructed(r, req.executor) && Secured(i, Meta(r), req.executor, amb.now)
      && r.job.Some?
    ensures Secures(i, r, ChainStep(i, r, req, amb), req.executor, amb.now)
  {
  }

  lemma ReadyStep(f: Family, i: nat, r: Rows, req: Request, amb: Ambient)
    requires i < CHAIN && Ready(f, i, r, req.executor, amb.now)
    requires req.leaseSeconds >= MIN_SECONDS && req.sessionSeconds >= MIN_SECONDS
    ensures var s := ChainStep(i, r, req, amb);
            !s.Refuse? && Ready(f, i + 1, After(r, s), req.executor, amb.now)
  {
    hide FamilyInv, ChainStep, Unobstructed;
    ReadyUnobstructed(f, i, r, req.executor, amb.now);
    if i < 5 {
      EarlySecures(i, r, req, amb);
    } else if i < 7 {
      SessionSecures(i, r, req, amb);
    } else {
      LateSecures(i, r, req, amb);
    }
    ChainStepMoves(f, i, r, req, amb);
  }

  lemma {:induction false} ChainCompletes(f: Family, i: nat, run: Run, req: Request, amb: Ambient)
    requires i <= CHAIN && run.progress.Going? && Ready(f, i, run.cell.rows, req.executor, amb.now)
    requires req.leaseSeconds >= MIN_SECONDS && req.sessionSeconds >= MIN_SECONDS
    ensures var done := Chain(i, run, req, amb);
            done.progress.Going? && Ready(f, CHAIN, done.cell.rows, req.executor, amb.now)
    decreases CHAIN - i
  {
    hide Ready, ChainStep;
    if i < CHAIN {
      ReadyStep(f, i, run.cell.rows, req, amb);
      ChainCompletes(f, i + 1, Commit(run, ChainStep(i, run.cell.rows, req, amb)), req, amb);
    }
  }

  lemma ReadyForAdapter(f: Family, r: Rows, executor: string, now: Time)
    requires Ready(f, CHAIN, r, executor, now)
    ensures AdapterReady(Meta(r), executor) && r.attempt.value.jobRunId.Some? && r.job.Some?
            && Meta(r).bootstrap.Some? && Meta(r).session.Some? && Ended(r) && Pinned(r, executor)
  {
  }

  /** The handoff recorded this reply, field by field. */
  ghost predicate Recorded(f: Family, m: Ledger, reply: Reply)
    requires reply.Answered?
  {
    && m.execution.Some?
    && var x := m.execution.value;
    && x.outcome == reply.outcome && x.accepted == reply.accepted && x.billingCompleted == reply.billingCompleted
    && x.errorDetail == reply.errorDetail && x.summary == reply.summary
    && (f == ProfileCapture ==> m.terminalStatus.Some? && m.terminalStatus.value.category == reply.category
                                && m.terminalStatus.value.summary == reply.statusSummary)
  }

  /** What the adapter answers is what is stored, under the identifiers of the three rows. */
  lemma AdapterRecords(f: Family, run: Run, req: Request, amb: Ambient)
    requires Meta(run.cell.rows).execution.None?
    requires run.progress.Going? && AdapterCall(f, run, req, amb).progress.Going?
    ensures amb.reply.Answered?
    ensures var r, q := run.cell.rows, AdapterCall(f, run, req, amb).cell.rows;
            && r.attempt.Some? && r.job.Some? && Meta(r).session.Some?
            && Recorded(f, Meta(q), amb.reply)
            && var x := Meta(q).execution.value;
            && x.executor == req.executor && x.sessionIdentifier == Meta(r).session.value.identifier
            && x.commandId == r.command.id && x.attemptId == r.attempt.value.id
            && r.attempt.value.jobRunId == Some(x.jobRunId)
            && x.recordId == (if f == OnDemandRead then "runtime-on-demand-read:" else "runtime-profile-read:")
                             + x.attemptId + ":" + req.identifier
    ensures AdapterCall(f, run, req, amb).cell.calls == run.cell.calls + 1
  {
  }

  /** What a handoff leaves that got past the chain, whatever the adapter did. */
  ghost predicate HandedOrLost(before: Run, after: Run, executor: string, reply: Reply) {
    && Ended(after.cell.rows) && Pinned(after.cell.rows, executor)
    && after.cell.calls == before.cell.calls + (if reply.Unsupported? then 0 else 1)
    && (!reply.Answered? ==> Lost(after.cell.rows) && Meta(after.cell.rows).execution.None?)
  }

  /** The adapter call and the handoff record after a chain that completed. */
  lemma TailCompletes(f: Family, run: Run, chained: Run, req: Request, amb: Ambient, reused: bool, recorded: bool)
    requires chained.progress.Going? && AdapterReady(Meta(chained.cell.rows), req.executor)
    requires var r := chained.cell.rows;
             && r.attempt.Some? && r.attempt.value.jobRunId.Some? && r.job.Some? && Ended(r) && Pinned(r, req.executor)
             && Meta(r).bootstrap.Some? && Meta(r).execution.None? && Meta(r).handoff.None?
    requires chained.cell.calls == run.cell.calls
    ensures var executed := AdapterCall(f, chained, req, amb);
            var done := Commit(executed, HandoffRecordStep(executed.cell.rows, req, amb.now, reused, recorded));
            && done.progress.Going? == amb.reply.Answered?
            && (amb.reply.Answered? ==> Recorded(f, Meta(done.cell.rows), amb.reply))
            && HandedOrLost(run, done, req.executor, amb.reply)
  {
    hide AdapterReady;
    assert Meta(chained.cell.rows).session.Some? by { ReadyHasSession(Meta(chained.cell.rows), req.executor); }
  }

  lemma ReadyHasSession(m: Ledger, executor: string)
    requires AdapterReady(m, executor)
    ensures m.session.Some?
  {
  }

  lemma HandoffBodyCompletes(f: Family, run: Run, req: Request, amb: Ambient)
    requires run.progress.Going? && Ready(f, 0, run.cell.rows, req.executor, amb.now)
    requires Meta(run.cell.rows).execution.None? && LawfulRun(f, run)
    requires req.leaseSeconds >= MIN_SECONDS && req.sessionSeconds >= MIN_SECONDS
    ensures var done := HandoffBody(f, run, req, amb);
            && done.progress.Going? == amb.reply.Answered?
            && (amb.reply.Answered? ==> Recorded(f, Meta(done.cell.rows), amb.reply))
            && HandedOrLost(run, done, req.executor, amb.reply)
  {
    hide FamilyInv, Chain, Secured, AdapterReady, LawfulRun, Grows, AdapterCall, HandoffRecordStep, HandedOrLost,
      Recorded;
    ChainCompletes(f, 0, run, req, amb);
    ReadyPinned(f, run.cell.rows, req.executor, amb.now);
    ChainLawful(f, 0, run, req, amb);
    var chained := Chain(0, run, req, amb);
    ReadyForAdapter(f, chained.cell.rows, req.executor, amb.now);
    TailCompletes(f, run, chained, req, amb, Meta(run.cell.rows).handoff.Some?,
                  Meta(chained.cell.rows).execution.Some?);
  }

  lemma ReadyPinned(f: Family, r: Rows, executor: string, now: Time)
    requires Ready(f, 0, r, executor, now)
    ensures Meta(r).handoff.None? && r.attempt.value.endedAt.None? && r.command.status == CmdInProgress
            && r.attempt.value.status == AttStarted && Meta(r).bootstrap.Some?
  {
  }

  // ---- the chain refuses ----

  lemma WorkerFixed(f: Family, r: Rows, req: Request, amb: Ambient)
    requires FamilyInv(f, r) && Meta(r).envelope.Some? && Meta(r).envelope.value.worker != req.executor
    ensures JobRunStep(r, amb).Keep? && EnvelopeStep(r, req).Refuse?
  {
    JobEnvelope(f, r);
  }

  lemma OtherWorkerRefused(f: Family, run: Run, req: Request, amb: Ambient)
    requires LawfulRun(f, run) && Meta(run.cell.rows).envelope.Some?
      && Meta(run.cell.rows).envelope.value.worker != req.executor
    ensures Chain(0, run, req, amb).progress.Refused? && Chain(0, run, req, amb).cell == run.cell
  {
    hide Lawful;
    var r := run.cell.rows;
    if run.progress.Going? {
      WorkerFixed(f, r, req, amb);
      hide FamilyInv, JobRunStep, EnvelopeStep;
      assert Chain(0, run, req, amb) == Chain(1, run, req, amb);
    }
  }

  lemma StaleStep(i: nat, r: Rows, req: Request, amb: Ambient)
    requires i <= 5 && Unobstructed(r, req.executor) && StaleGuard(Meta(r), amb.now)
    ensures var s := ChainStep(i, r, req, amb);
            && (i < 5 ==> StaleGuard(Meta(After(r, s)), amb.now))
            && (i == 5 ==> s.Refuse?)
  {
  }

  lemma StaleUnobstructed(f: Family, r: Rows, executor: string, now: Time)
    requires FamilyInv(f, r) && StaleGuard(Meta(r), now) && Meta(r).envelope.value.worker == executor
    ensures Unobstructed(r, executor)
  {
  }

  lemma StillPinned(i: nat, r: Rows, req: Request, amb: Ambient)
    requires i <= 5 && Pinned(r, req.executor)
    ensures Pinned(After(r, ChainStep(i, r, req, amb)), req.executor)
  {
    if i >= 1 { ChainStepKeepsRest(i, r, req, amb); }
  }

  lemma StaleFacts(f: Family, r: Rows, t: Time)
    requires FamilyInv(f, r) && StaleGuard(Meta(r), t)
    ensures r.attempt.Some? && !Ended(r) && r.command.status == CmdInProgress && r.attempt.value.status == AttStarted
    ensures Meta(r).envelope.Some? && Meta(r).bootstrap.Some? && Meta(r).execution.None? && Meta(r).handoff.None?
    ensures Meta(r).terminalization.None? && Meta(r).orchestration.None? && Meta(r).executeNow.None?
  {
  }

  lemma {:induction false} StaleChainRefused(f: Family, i: nat, run: Run, req: Request, amb: Ambient, t: Time)
    requires i <= 5 && LawfulRun(f, run) && StaleGuard(Meta(run.cell.rows), t) && t <= amb.now
    requires i >= 2 && run.progress.Going? ==> Pinned(run.cell.rows, req.executor)
    ensures var done := Chain(i, run, req, amb);
            && done.progress.Refused? && StaleGuard(Meta(done.cell.rows), t)
            && LawfulRun(f, done) && run.History() <= done.History()
    decreases 5 - i
  {
    hide FamilyInv, ChainStep, Unobstructed, Lawful;
    if run.progress.Going? {
      var r := run.cell.rows;
      var s := ChainStep(i, r, req, amb);
      OneChainStep(f, i, run, req, amb);
      if Pinned(r, req.executor) {
        StaleUnobstructed(f, r, req.executor, t);
        StaleStep(i, r, req, amb);
        StaleKeepsGuard(i, r, req, amb, t);
        if i < 5 {
          StillPinned(i, r, req, amb);
          StaleChainRefused(f, i + 1, Commit(run, s), req, amb, t);
        } else {
          RefusedStays(i + 1, Commit(run, s), req, amb);
        }
      } else {
        StaleFacts(f, r, t);
        OtherWorkerStep(f, i, r, req, amb);
        if i == 0 {
          StaleChainRefused(f, 1, Commit(run, s), req, amb, t);
        } else {
          RefusedStays(2, Commit(run, s), req, amb);
        }
      }
    }
  }

  lemma OtherWorkerStep(f: Family, i: nat, r: Rows, req: Request, amb: Ambient)
    requires FamilyInv(f, r) && Meta(r).envelope.Some? && !Pinned(r, req.executor) && i < 2
    ensures var s := ChainStep(i, r, req, amb);
            (i == 0 ==> s.Keep?) && (i == 1 ==> s.Refuse?)
  {
    WorkerFixed(f, r, req, amb);
  }

  lemma StaleKeepsGuard(i: nat, r: Rows, req: Request, amb: Ambient, t: Time)
    requires i <= 5 && Unobstructed(r, req.executor) && StaleGuard(Meta(r), t) && t <= amb.now
    ensures StaleGuard(Meta(After(r, ChainStep(i, r, req, amb))), t)
  {
  }

  // ---- exactly when an orchestration completes ----

  /** The conditions under which a handoff of a running attempt reaches the adapter. */
  ghost predicate HandoffEnters(r: Rows, executor: string, amb: Ambient) {
    && r.command.payloadValid && amb.linkValid
    && (Meta(r).envelope.Some? ==> Meta(r).envelope.value.worker == executor)
    && !StaleGuard(Meta(r), amb.now)
  }

  /** Those under which it completes. */
  ghost predicate HandoffGoes(r: Rows, executor: string, amb: Ambient) {
    HandoffEnters(r, executor, amb) && amb.reply.Answered?
  }

  /** What a handoff of a running attempt leaves, refused or not. */
  ghost predicate HandoffFate(before: Run, after: Run, executor: string, amb: Ambient) {
    if HandoffEnters(before.cell.rows, executor, amb) then HandedOrLost(before, after, executor, amb.reply)
    else !Ended(after.cell.rows) && after.cell.calls == before.cell.calls
  }

  lemma RunningAttempt(f: Family, r: Rows, executor: string, now: Time)
    requires FamilyInv(f, r) && r.attempt.Some? && !Ended(r)
    ensures Meta(r).handoff.None? && Meta(r).execution.None? && r.attempt.value.status == AttStarted
    ensures r.command.status == CmdInProgress && Meta(r).bootstrap.Some? && Meta(r).orchestration.None?
    ensures (!StaleGuard(Meta(r), now) && (Meta(r).envelope.Some? ==> Meta(r).envelope.value.worker == executor))
            ==> Ready(f, 0, r, executor, now)
  {
  }

  lemma HandoffBodyGoesIff(f: Family, run: Run, req: Request, amb: Ambient)
    requires LawfulRun(f, run) && run.progress.Going? && run.cell.rows.attempt.Some? && !Ended(run.cell.rows)
    requires req.leaseSeconds >= MIN_SECONDS && req.sessionSeconds >= MIN_SECONDS
    requires run.cell.rows.command.payloadValid && amb.linkValid
    ensures var done := HandoffBody(f, run, req, amb);
            && done.progress.Going? == HandoffGoes(run.cell.rows, req.executor, amb)
            && (done.progress.Going? ==> Recorded(f, Meta(done.cell.rows), amb.reply))
            && HandoffFate(run, done, req.executor, amb)
  {
    hide FamilyInv, Lawful, Chain, Ready, Secured;
    var r := run.cell.rows;
    RunningAttempt(f, r, req.executor, amb.now);
    if Meta(r).envelope.Some? && Meta(r).envelope.value.worker != req.executor {
      OtherWorkerRefused(f, run, req, amb);
    } else if StaleGuard(Meta(r), amb.now) {
      StaleChainRefused(f, 0, run, req, amb, amb.now);
      ChainLawful(f, 0, run, req, amb);
      StaleNotEnded(f, Chain(0, run, req, amb).cell.rows, amb.now);
    } else {
      HandoffBodyCompletes(f, run, req, amb);
    }
  }

  lemma StaleNotEnded(f: Family, r: Rows, t: Time)
    requires FamilyInv(f, r) && StaleGuard(Meta(r), t)
    ensures !Ended(r)
  {
    StaleFacts(f, r, t);
  }

  lemma HandoffGoesIff(f: Family, run: Run, req: Request, amb: Ambient)
    requires LawfulRun(f, run) && run.progress.Going? && run.cell.rows.attempt.Some? && !Ended(run.cell.rows)
    requires req.leaseSeconds >= MIN_SECONDS && req.sessionSeconds >= MIN_SECONDS
    ensures var done := HandoffOp(f, run, req, amb);
            && done.progress.Going? == HandoffGoes(run.cell.rows, req.executor, amb)
            && (done.progress.Going? ==> Recorded(f, Meta(done.cell.rows), amb.reply))
            && HandoffFate(run, done, req.executor, amb)
  {
    hide Lawful, HandoffBody, LedgerInv, Statuses;
    RunningAttempt(f, run.cell.rows, req.executor, amb.now);
    if run.cell.rows.command.payloadValid && amb.linkValid {
      HandoffBodyGoesIff(f, run, req, amb);
    }
  }

  /** A handed-over command of this executor is refused settlement only for the one
      outcome its family cannot express. */
  lemma TerminalizeGoesIff(f: Family, r: Rows, identifier: string, executor: string, now: Time)
    requires FamilyInv(f, r) && Meta(r).handoff.Some? && Meta(r).terminalization.None?
    requires Meta(r).handoff.value.executor == executor
    ensures TerminalizeStep(f, r, identifier, executor, now).Refuse? <==> VerdictOf(f, Meta(r)).Incompatible?
  {
  }

  lemma OrchestrateBodyGoesIff(f: Family, run: Run, req: OrchestrationRequest, amb: Ambient)
    requires LawfulRun(f, run) && run.progress.Going? && !Ended(run.cell.rows)
      && Meta(run.cell.rows).orchestration.None?
    requires run.cell.rows.command.status != CmdCancelled && run.cell.rows.command.payloadValid
    requires req.leaseSeconds >= MIN_SECONDS && req.sessionSeconds >= MIN_SECONDS
    ensures OrchestrateBody(f, run, req, amb).progress.Going? <==> Completes(f, run.cell.rows, req, amb)
  {
    hide FamilyInv, Lawful, HandoffOp, BootstrapStep, TerminalizeStep;
    var r := run.cell.rows;
    var boot := BootstrapIdentifier(f, req.identifier);
    BootstrapGoesIff(f, r, boot, amb);
    BootedLawful(f, run, boot, amb);
    var booted := Commit(run, BootstrapStep(f, r, boot, amb));
    if booted.progress.Going? {
      HandoffGoesIff(f, booted, HandoffRequest(req), amb);
      HandoffLawful(f, booted, HandoffRequest(req), amb);
      var handed := HandoffOp(f, booted, HandoffRequest(req), amb);
      if handed.progress.Going? {
        TerminalizeGoesIff(f, handed.cell.rows, req.identifier, req.executor, amb.now);
        SettledHasHandoff(f, handed.cell.rows, req.identifier, req.executor, amb.now);
      }
    } else {
      HandoffStaysRefused(f, booted, HandoffRequest(req), amb);
    }
  }

  lemma SettledHasHandoff(f: Family, r: Rows, identifier: string, executor: string, now: Time)
    requires Meta(r).handoff.Some?
    ensures var q := After(r, TerminalizeStep(f, r, identifier, executor, now));
            && q.attempt.Some? && Meta(q).handoff.Some?
            && Meta(q).execution == Meta(r).execution && Meta(q).terminalStatus == Meta(r).terminalStatus
  {
  }

  lemma BootstrapGoesIff(f: Family, r: Rows, identifier: string, amb: Ambient)
    requires FamilyInv(f, r) && !Ended(r) && r.command.status != CmdCancelled && r.command.payloadValid
    ensures var s := BootstrapStep(f, r, identifier, amb);
            && (!s.Refuse?
                <==> amb.linkValid && (Meta(r).bootstrap.Some? ==> Meta(r).bootstrap.value.identifier == identifier))
            && (!s.Refuse? ==>
                  var q := After(r, s);
                  && q.attempt.Some? && !Ended(q) && q.command.payloadValid == r.command.payloadValid
                  && Meta(q).envelope == Meta(r).envelope && Meta(q).guard == Meta(r).guard
                  && Meta(q).session == Meta(r).session)
  {
  }

  lemma LiveStatus(f: Family, r: Rows)
    requires FamilyInv(f, r) && !Ended(r) && r.command.status != CmdCancelled
    ensures !TerminalCommand(r.command.status) && Meta(r).orchestration.None?
  {
  }

  /** An orchestration completes if and only if `Completes` holds of the rows it starts from. */
  lemma OrchestrateGoesIff(f: Family, c: Cell, req: OrchestrationRequest, amb: Ambient)
    requires CellOk(f, c)
    requires req.leaseSeconds >= MIN_SECONDS && req.sessionSeconds >= MIN_SECONDS
    ensures OrchestrateOp(f, Begin(c), req, amb).progress.Going? <==> Completes(f, c.rows, req, amb)
  {
    hide LedgerInv, Statuses, OrchestrateBody;
    var r := c.rows;
    if Meta(r).orchestration.None? && !Ended(r) && r.command.status != CmdCancelled {
      LiveStatus(f, r);
      if r.command.payloadValid {
        BeginLawful(f, c);
        OrchestrateBodyGoesIff(f, Begin(c), req, amb);
      }
    }
  }

  lemma AnnouncedIsSealed(f: Family, r: Rows)
    requires FamilyInv(f, r) && Meta(r).executeNow.Some?
    ensures Meta(r).executeNow.value.identifier == ExecuteNowIdentifier(f, r.command.id)
    ensures SealedBy(Meta(r), ExecuteNowIdentifier(f, r.command.id), ExecuteNowExecutor(f))
      && r.command.category == CategoryOf(f)
  {
  }

  /** The direct route completes, first time or after a crash, exactly when its orchestration does. */
  lemma ExecuteNowGoesIff(f: Family, c: Cell, amb: Ambient)
    requires CellOk(f, c)
    ensures ExecuteNowOp(f, Begin(c), amb).progress.Going? <==> Completes(f, c.rows, ExecuteNowRequest(f, c.rows), amb)
  {
    hide FamilyInv, OrchestrateOp, Lawful;
    var req := ExecuteNowRequest(f, c.rows);
    if Meta(c.rows).executeNow.Some? {
      AnnouncedIsSealed(f, c.rows);
    } else {
      OrchestrateGoesIff(f, c, req, amb);
      BeginLawful(f, c);
      OrchestrateLawful(f, Begin(c), req, amb);
      InvCategory(f, c.rows);
    }
  }

  // ---- what an orchestration leaves, completing or not ----

  /** The four fates of a call on a command that has not ended, told by what can be checked
      before the call and by the adapter's reply. */
  ghost predicate OrchestrationFate(f: Family, c: Cell, d: Cell, req: OrchestrationRequest, amb: Ambient) {
    if !Enters(f, c.rows, req, amb) then !Ended(d.rows) && d.calls == 0 && Meta(d.rows).orchestration.None?
    else
      && Ended(d.rows) && BootedBy(Meta(d.rows), BootstrapIdentifier(f, req.identifier)) && Pinned(d.rows, req.executor)
      && d.calls == (if amb.reply.Unsupported? then 0 else 1)
      && (if !amb.reply.Answered? then Lost(d.rows)
          else
            && Recorded(f, Meta(d.rows), amb.reply)
            && if !ReplyAccepted(f, amb.reply) then Unsettleable(f, d.rows)
               else SealedBy(Meta(d.rows), req.identifier, req.executor))
  }

  lemma SealedMatches(f: Family, c: Cell, req: OrchestrationRequest)
    requires CellOk(f, c) && SealedBy(Meta(c.rows), req.identifier, req.executor)
    ensures Ended(c.rows) && c.calls == 1
    ensures BootedBy(Meta(c.rows), BootstrapIdentifier(f, req.identifier)) && Pinned(c.rows, req.executor)
  {
  }

  lemma LostIsNotSealed(f: Family, r: Rows)
    requires FamilyInv(f, r) && Meta(r).handoff.None?
    ensures Meta(r).orchestration.None? && Meta(r).terminalization.None?
  {
  }

  /** Settlement and record after a handoff that completed. */
  function AfterHandoff(f: Family, handed: Run, req: OrchestrationRequest, amb: Ambient): Run {
    var settled := Commit(handed, TerminalizeStep(f, handed.cell.rows, req.identifier, req.executor, amb.now));
    Commit(settled, OrchestrationRecordStep(settled.cell.rows, req, amb.now))
  }

  lemma SettlementFate(f: Family, handed: Run, req: OrchestrationRequest, amb: Ambient)
    requires LawfulRun(f, handed) && handed.progress.Going? && amb.reply.Answered?
    requires var m := Meta(handed.cell.rows);
             && m.handoff.Some? && m.handoff.value.executor == req.executor && m.terminalization.None?
             && m.orchestration.None? && Ended(handed.cell.rows) && Recorded(f, m, amb.reply)
    ensures var done := AfterHandoff(f, handed, req, amb);
            && Recorded(f, Meta(done.cell.rows), amb.reply)
            && if ReplyAccepted(f, amb.reply) then done.progress.Going?
               else done.cell == handed.cell && Unsettleable(f, handed.cell.rows)
  {
    hide FamilyInv, Lawful, TerminalizeStep;
    TerminalizeGoesIff(f, handed.cell.rows, req.identifier, req.executor, amb.now);
    SettledHasHandoff(f, handed.cell.rows, req.identifier, req.executor, amb.now);
  }

  lemma OrchestrateBodyFate(f: Family, run: Run, req: OrchestrationRequest, amb: Ambient)
    requires LawfulRun(f, run) && run.progress.Going? && !Ended(run.cell.rows)
      && Meta(run.cell.rows).orchestration.None?
    requires run.cell.rows.command.status != CmdCancelled && run.cell.rows.command.payloadValid
    requires req.leaseSeconds >= MIN_SECONDS && req.sessionSeconds >= MIN_SECONDS
    ensures OrchestrationFate(f, run.cell, OrchestrateBody(f, run, req, amb).cell, req, amb)
  {
    hide FamilyInv, Lawful, HandoffOp, BootstrapStep, TerminalizeStep, Recorded, ReplyAccepted;
    var r := run.cell.rows;
    var boot := BootstrapIdentifier(f, req.identifier);
    NotEndedNotSealed(f, r);
    NeverCalled(f, run.cell);
    BootstrapGoesIff(f, r, boot, amb);
    BootedLawful(f, run, boot, amb);
    OrchestrateBodyLawful(f, run, req, amb);
    var booted := Commit(run, BootstrapStep(f, r, boot, amb));
    if booted.progress.Going? {
      HandoffGoesIff(f, booted, HandoffRequest(req), amb);
      HandoffLawful(f, booted, HandoffRequest(req), amb);
      var handed := HandoffOp(f, booted, HandoffRequest(req), amb);
      var done := OrchestrateBody(f, run, req, amb);
      if handed.progress.Going? {
        SettlementFate(f, handed, req, amb);
        if done.progress.Going? { SealedMatches(f, done.cell, req); }
      } else {
        RefusedHandoffEnds(f, run, req, amb);
      }
    } else {
      HandoffStaysRefused(f, booted, HandoffRequest(req), amb);
    }
  }

  lemma RefusedHandoffEnds(f: Family, run: Run, req: OrchestrationRequest, amb: Ambient)
    requires var booted := Commit(run, BootstrapStep(f, run.cell.rows, BootstrapIdentifier(f, req.identifier), amb));
             HandoffOp(f, booted, HandoffRequest(req), amb).progress.Refused?
    ensures var booted := Commit(run, BootstrapStep(f, run.cell.rows, BootstrapIdentifier(f, req.identifier), amb));
            OrchestrateBody(f, run, req, amb) == HandoffOp(f, booted, HandoffRequest(req), amb)
  {
    hide HandoffOp, BootstrapStep, TerminalizeStep;
  }

  lemma NeverCalled(f: Family, c: Cell)
    requires CellOk(f, c) && !Ended(c.rows)
    ensures c.calls == 0 && Meta(c.rows).orchestration.None?
  {
  }

  /** What an orchestration of a command that has not ended leaves behind. */
  lemma OrchestrateFate(f: Family, c: Cell, req: OrchestrationRequest, amb: Ambient)
    requires CellOk(f, c) && !Ended(c.rows)
    requires req.leaseSeconds >= MIN_SECONDS && req.sessionSeconds >= MIN_SECONDS
    ensures OrchestrationFate(f, c, OrchestrateOp(f, Begin(c), req, amb).cell, req, amb)
  {
    hide LedgerInv, Statuses, OrchestrateBody;
    NeverCalled(f, c);
    if c.rows.command.status != CmdCancelled {
      LiveStatus(f, c.rows);
      if c.rows.command.payloadValid {
        BeginLawful(f, c);
        OrchestrateBodyFate(f, Begin(c), req, amb);
      }
    }
  }

  // ---- a crash and a re-run ----

  /** Every artifact an orchestrated command carries. */
  ghost predicate FullSet(f: Family, m: Ledger) {
    && m.bootstrap.Some? && m.envelope.Some? && m.lease.Some? && m.gate.Some? && m.guard.Some? && m.session.Some?
    && m.outcome.Some? && |m.bridges| == 17 && m.execution.Some? && m.terminalStatus.Some? == (f == ProfileCapture)
    && m.handoff.Some? && m.terminalization.Some? && m.orchestration.Some?
  }

  lemma SealedIsFull(f: Family, r: Rows)
    requires FamilyInv(f, r) && Meta(r).orchestration.Some?
    ensures FullSet(f, Meta(r)) && TerminalCommand(r.command.status) && Ended(r)
  {
  }

  /** A completed orchestration leaves the whole artifact set, sealed under its identifier. */
  lemma CompletedIsSealed(f: Family, c: Cell, req: OrchestrationRequest, amb: Ambient)
    requires CellOk(f, c) && OrchestrateOp(f, Begin(c), req, amb).progress.Going?
    ensures var d := OrchestrateOp(f, Begin(c), req, amb).cell;
            && CellOk(f, d) && d.calls == 1 && FullSet(f, Meta(d.rows)) && TerminalCommand(d.rows.command.status)
            && var p := Abs(d.rows); p.Sealed? && p.owner == req.executor && p.orchestration == req.identifier
  {
    hide OrchestrateOp, LedgerInv, Statuses, Lawful;
    BeginLawful(f, c);
    OrchestrateLawful(f, Begin(c), req, amb);
    var d := OrchestrateOp(f, Begin(c), req, amb).cell;
    SealedIsFull(f, d.rows);
    SealedOwner(f, d.rows);
  }

  lemma SealedOwner(f: Family, r: Rows)
    requires FamilyInv(f, r) && Meta(r).orchestration.Some?
    ensures Abs(r).Sealed? && Abs(r).owner == Meta(r).orchestration.value.executor
            && Abs(r).orchestration == Meta(r).orchestration.value.identifier
  {
  }

  /** The states a re-run with the same identifier and executor finishes from. */
  ghost predicate Rerunnable(f: Family, r: Rows, later: Ambient) {
    || Meta(r).orchestration.Some?
    || (!Ended(r) && later.linkValid && !StaleGuard(Meta(r), later.now) && ReplyAccepted(f, later.reply))
  }

  lemma AgreesWithLater(f: Family, d: Cell, e: Cell, req: OrchestrationRequest)
    requires Grows(d.rows, e.rows) && FinalMatches(f, e.rows, req)
    ensures SealedOrMatching(f, d.rows, req)
  {
  }

  /** Bootstrap, envelope and, if there is one, orchestration record carry the request's names. */
  ghost predicate FinalMatches(f: Family, r: Rows, req: OrchestrationRequest) {
    && BootedBy(Meta(r), BootstrapIdentifier(f, req.identifier)) && Pinned(r, req.executor)
    && (Meta(r).orchestration.Some? ==> SealedBy(Meta(r), req.identifier, req.executor))
  }

  ghost predicate SealedOrMatching(f: Family, r: Rows, req: OrchestrationRequest) {
    var m := Meta(r);
    && (m.orchestration.Some? ==> SealedBy(m, req.identifier, req.executor))
    && (m.bootstrap.Some? ==> m.bootstrap.value.identifier == BootstrapIdentifier(f, req.identifier))
    && (m.envelope.Some? ==> m.envelope.value.worker == req.executor)
  }

  /** A call that replays its own orchestration or gets past the chain. */
  ghost predicate Proceeds(f: Family, r: Rows, req: OrchestrationRequest, amb: Ambient) {
    if Meta(r).orchestration.Some? then SealedBy(Meta(r), req.identifier, req.executor)
    else !Ended(r) && Enters(f, r, req, amb)
  }

  /** Exact crash classification: let a call get past the chain, whatever the adapter then
      does, and stop it after any commit or let it end. A re-run with the same identifier and
      executor completes unless the attempt had already ended without the orchestration
      record, or its guard has expired meanwhile. */
  lemma CrashThenRerun(f: Family, c: Cell, req: OrchestrationRequest, amb: Ambient, k: nat, later: Ambient)
    requires CellOk(f, c) && Proceeds(f, c.rows, req, amb)
    requires req.leaseSeconds >= MIN_SECONDS && req.sessionSeconds >= MIN_SECONDS
    requires k < |OrchestrateOp(f, Begin(c), req, amb).History()|
    ensures var d := OrchestrateOp(f, Begin(c), req, amb).History()[k];
            OrchestrateOp(f, Begin(d), req, later).progress.Going? <==> Rerunnable(f, d.rows, later)
  {
    hide OrchestrateOp, FamilyInv, Lawful, Grows;
    var done := OrchestrateOp(f, Begin(c), req, amb);
    var h := done.History();
    BeginLawful(f, c);
    OrchestrateLawful(f, Begin(c), req, amb);
    LawfulGrows(f, h, 0, k);
    LawfulGrows(f, h, k, |h| - 1);
    ProceedingMatches(f, c, req, amb);
    AgreesWithLater(f, h[k], h[|h| - 1], req);
    PayloadKept(c.rows, h[k].rows);
    NeverCancelled(f, h[k].rows, h[|h| - 1].rows);
    OrchestrateGoesIff(f, h[k], req, later);
  }

  lemma ProceedingMatches(f: Family, c: Cell, req: OrchestrationRequest, amb: Ambient)
    requires CellOk(f, c) && Proceeds(f, c.rows, req, amb)
    requires req.leaseSeconds >= MIN_SECONDS && req.sessionSeconds >= MIN_SECONDS
    ensures var d := OrchestrateOp(f, Begin(c), req, amb).cell;
            CellOk(f, d) && FinalMatches(f, d.rows, req) && Ended(d.rows)
  {
    hide OrchestrateOp, FamilyInv, Lawful;
    BeginLawful(f, c);
    OrchestrateLawful(f, Begin(c), req, amb);
    var d := OrchestrateOp(f, Begin(c), req, amb).cell;
    if Meta(c.rows).orchestration.Some? {
      OrchestrateGoesIff(f, c, req, amb);
      SealedMatches(f, d, req);
    } else {
      OrchestrateFate(f, c, req, amb);
      if Meta(d.rows).handoff.None? { LostIsNotSealed(f, d.rows); }
    }
  }

  lemma PayloadKept(r: Rows, q: Rows)
    requires Grows(r, q)
    ensures q.command.payloadValid == r.command.payloadValid
    ensures Meta(r).orchestration.Some? ==> Meta(q).orchestration.Some?
  {
  }

  lemma NeverCancelled(f: Family, r: Rows, q: Rows)
    requires Grows(r, q) && FamilyInv(f, q) && Ended(q)
    ensures r.command.status != CmdCancelled
  {
  }
}
