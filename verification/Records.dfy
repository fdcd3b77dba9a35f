/**
 What one orchestration writes, spelled out from the rows it finds, its request, the clock and
 the adapter's reply.
 */
module Records {
  import opened Wrappers
  import opened CommandModel
  import opened RuntimeHandoff
  import opened CommandExecution
  import opened Invariants
  import opened Phases
  import opened Safety
  import opened Recovery
  import opened Settlement

  // ---- what the chain grants ----

  predicate Active(expiresAt: Time, now: Time) { expiresAt > now }

  /** An active lease is kept; otherwise a new one runs from now. */
  function LeaseUntil(m: Ledger, req: Request, now: Time): Time {
    if m.lease.Some? && Active(m.lease.value.expiresAt, now) then m.lease.value.expiresAt
    else now + req.leaseSeconds
  }

  /** An active gate is kept; otherwise a new one lasts as long as the lease. */
  function GateUntil(m: Ledger, req: Request, now: Time): Time {
    if m.gate.Some? && Active(m.gate.value.expiresAt, now) then m.gate.value.expiresAt else LeaseUntil(m, req, now)
  }

  /** A guard is kept in any case; a new one lasts as long as the gate. */
  function GuardUntil(m: Ledger, req: Request, now: Time): Time {
    if m.guard.Some? then m.guard.value.expiresAt else GateUntil(m, req, now)
  }

  predicate OpenSession(m: Ledger, now: Time) {
    m.session.Some? && m.session.value.finalizedBy.None? && Active(m.session.value.expiresAt, now)
  }

  /** An open session is kept; a new one lasts as requested, but not longer than the guard. */
  function SessionUntil(m: Ledger, req: Request, now: Time): Time {
    if OpenSession(m, now) then m.session.value.expiresAt
    else if now + req.sessionSeconds <= GuardUntil(m, req, now) then now + req.sessionSeconds
    else GuardUntil(m, req, now)
  }

  function JobIdOf(r: Rows): Option<string> {
    if r.attempt.Some? then r.attempt.value.jobRunId else None
  }

  /** What is written after `i` steps of the chain that started from `r`. */
  ghost predicate Granted(i: nat, r: Rows, q: Rows, req: Request, amb: Ambient) {
    var m, n := Meta(r), Meta(q);
    && q.attempt.Some?
    && (i < 1 ==> JobIdOf(q) == JobIdOf(r))
    && (i >= 1 ==> JobIdOf(q) == if JobIdOf(r).Some? then JobIdOf(r) else Some(amb.jobRunId))
    && (i < 2 ==> n.envelope == m.envelope)
    && (i >= 2 ==> n.envelope == if m.envelope.Some? then m.envelope else Some(Envelope(req.executor, req.identifier)))
    && (i < 3 ==> n.lease == m.lease)
    && (i >= 3 ==> n.lease.Some? && n.lease.value.expiresAt == LeaseUntil(m, req, amb.now))
    && (i < 4 ==> n.gate == m.gate)
    && (i >= 4 ==> n.gate.Some? && n.gate.value.expiresAt == GateUntil(m, req, amb.now))
    && (i < 5 ==> n.guard == m.guard)
    && (i >= 5 ==> n.guard.Some? && n.guard.value.expiresAt == GuardUntil(m, req, amb.now))
    && (i < 6 ==> n.session == m.session)
    && (i >= 6 ==> n.session.Some? && SessionGranted(m, n.session.value, req, amb))
    && (i >= 9 ==> q.attempt.value.endedAt == Some(amb.now))
  }

  /** A finalized session is kept as it is; any other is the open one or a new one. */
  ghost predicate SessionGranted(m: Ledger, s: ExecSession, req: Request, amb: Ambient) {
    if SessionClosed(m) then s == m.session.value
    else
      && s.expiresAt == SessionUntil(m, req, amb.now)
      && s.identifier == (if OpenSession(m, amb.now) then m.session.value.identifier else amb.sessionId)
  }

  lemma EarlyGrants(i: nat, start: Rows, r: Rows, req: Request, amb: Ambient)
    requires i < 5 && Unobstructed(r, req.executor) && Secured(i, Meta(r), req.executor, amb.now)
      && (i >= 1 ==> r.job.Some?) && Nested(Meta(r))
    requires Granted(i, start, r, req, amb)
    ensures Granted(i + 1, start, After(r, ChainStep(i, r, req, amb)), req, amb)
  {
    hide SessionGranted, SameSession, SessionUntil;
  }

  lemma SessionGrants(i: nat, start: Rows, r: Rows, req: Request, amb: Ambient)
    requires 5 <= i < 7 && Unobstructed(r, req.executor) && Secured(i, Meta(r), req.executor, amb.now)
      && r.job.Some? && Nested(Meta(r)) && req.sessionSeconds >= MIN_SECONDS
    requires Granted(i, start, r, req, amb)
    ensures Granted(i + 1, start, After(r, ChainStep(i, r, req, amb)), req, amb)
  {
    hide LeaseUntil, GateUntil, SameSession;
  }

  lemma LateGrants(i: nat, start: Rows, r: Rows, req: Request, amb: Ambient)
    requires 7 <= i < CHAIN && Unobstructed(r, req.executor) && Secured(i, Meta(r), req.executor, amb.now)
      && r.job.Some?
    requires Granted(i, start, r, req, amb)
    ensures Granted(i + 1, start, After(r, ChainStep(i, r, req, amb)), req, amb)
  {
    hide SessionGranted, LeaseUntil, GateUntil, GuardUntil;
  }

  lemma ReadyNested(f: Family, i: nat, r: Rows, executor: string, now: Time)
    requires Ready(f, i, r, executor, now)
    ensures Nested(Meta(r))
  {
  }

  lemma {:induction false} ChainGrants(f: Family, i: nat, start: Rows, run: Run, req: Request, amb: Ambient)
    requires i <= CHAIN && run.progress.Going? && Ready(f, i, run.cell.rows, req.executor, amb.now)
    requires req.leaseSeconds >= MIN_SECONDS && req.sessionSeconds >= MIN_SECONDS
    requires Granted(i, start, run.cell.rows, req, amb)
    ensures Granted(CHAIN, start, Chain(i, run, req, amb).cell.rows, req, amb)
    decreases CHAIN - i
  {
    hide FamilyInv, Secured, Unobstructed, Granted, ChainStep, Nested;
    if i < CHAIN {
      var r := run.cell.rows;
      ReadyStep(f, i, r, req, amb);
      ReadyUnobstructed(f, i, r, req.executor, amb.now);
      ReadyNested(f, i, r, req.executor, amb.now);
      if i < 5 {
        EarlyGrants(i, start, r, req, amb);
      } else if i < 7 {
        SessionGrants(i, start, r, req, amb);
      } else {
        LateGrants(i, start, r, req, amb);
      }
      ChainGrants(f, i + 1, start, Commit(run, ChainStep(i, r, req, amb)), req, amb);
    }
  }

  // ---- what the handoff writes ----

  /** The stored result belongs to these rows and this executor. */
  ghost predicate ResultOf(f: Family, q: Rows, req: Request) {
    var n := Meta(q);
    && q.attempt.Some? && n.execution.Some? && n.session.Some?
    && var x := n.execution.value;
    && x.executor == req.executor && x.sessionIdentifier == n.session.value.identifier
    && x.commandId == q.command.id && x.attemptId == q.attempt.value.id && q.attempt.value.jobRunId == Some(x.jobRunId)
    && x.recordId == (if f == OnDemandRead then "runtime-on-demand-read:" else "runtime-profile-read:")
                     + x.attemptId + ":" + req.identifier
  }

  ghost predicate HandoffWritten(q: Rows, req: Request, now: Time) {
    var n := Meta(q);
    && n.bootstrap.Some? && n.execution.Some? && n.session.Some?
    && n.handoff == Some(Handoff(
         identifier := req.identifier, executor := req.executor,
         bootstrapIdentifier := n.bootstrap.value.identifier, jobRunId := n.execution.value.jobRunId,
         recordId := n.execution.value.recordId, sessionIdentifier := n.session.value.identifier,
         reusedHandoff := false, reusedExecution := false, at := now))
  }

  /** Only what the adapter call and the later records write may differ. */
  ghost predicate SameGrants(r: Rows, q: Rows) {
    var m, n := Meta(r), Meta(q);
    && r.attempt.Some? && q.attempt.Some? && JobIdOf(q) == JobIdOf(r)
    && q.attempt.value.id == r.attempt.value.id && q.attempt.value.endedAt == r.attempt.value.endedAt
    && n.bootstrap == m.bootstrap && n.envelope == m.envelope && n.lease == m.lease && n.gate == m.gate
    && n.guard == m.guard && n.session == m.session
  }

  lemma SameGrantsKeep(start: Rows, r: Rows, q: Rows, req: Request, amb: Ambient)
    requires Granted(CHAIN, start, r, req, amb) && SameGrants(r, q)
    ensures Granted(CHAIN, start, q, req, amb)
  {
    hide SessionGranted;
  }

  lemma AdapterWrites(f: Family, chained: Run, req: Request, amb: Ambient)
    requires chained.progress.Going? && AdapterReady(Meta(chained.cell.rows), req.executor)
    requires var r := chained.cell.rows;
             && r.attempt.Some? && r.attempt.value.jobRunId.Some? && r.job.Some?
             && Meta(r).execution.None? && Meta(r).handoff.None?
    ensures var executed := AdapterCall(f, chained, req, amb);
            && SameGrants(chained.cell.rows, executed.cell.rows) && executed.progress.Going? == amb.reply.Answered?
            && executed.cell.rows.job.Some? && executed.cell.rows.job.value.id == chained.cell.rows.job.value.id
            && (amb.reply.Answered? ==> ResultOf(f, executed.cell.rows, req))
  {
    hide AdapterReady;
    assert Meta(chained.cell.rows).session.Some? by { ReadyHasSession(Meta(chained.cell.rows), req.executor); }
  }

  lemma RecordWrites(f: Family, r: Rows, req: Request, now: Time)
    requires ResultOf(f, r, req) && r.job.Some? && Some(r.job.value.id) == r.attempt.value.jobRunId
    requires Meta(r).bootstrap.Some?
    ensures var s := HandoffRecordStep(r, req, now, false, false);
            s.Write? && SameGrants(r, s.rows) && ResultOf(f, s.rows, req) && HandoffWritten(s.rows, req, now)
  {
  }

  lemma TailWrites(f: Family, chained: Run, req: Request, amb: Ambient)
    requires chained.progress.Going? && AdapterReady(Meta(chained.cell.rows), req.executor)
    requires var r := chained.cell.rows;
             && r.attempt.Some? && r.attempt.value.jobRunId.Some? && r.job.Some? && Meta(r).bootstrap.Some?
             && r.job.value.id == r.attempt.value.jobRunId.value
             && Meta(r).execution.None? && Meta(r).handoff.None?
    ensures var executed := AdapterCall(f, chained, req, amb);
            var done := Commit(executed, HandoffRecordStep(executed.cell.rows, req, amb.now, false, false));
            && SameGrants(chained.cell.rows, done.cell.rows)
            && (amb.reply.Answered? ==>
                  ResultOf(f, done.cell.rows, req) && HandoffWritten(done.cell.rows, req, amb.now))
  {
    hide AdapterReady, AdapterCall, HandoffRecordStep, ResultOf, HandoffWritten;
    AdapterWrites(f, chained, req, amb);
    var executed := AdapterCall(f, chained, req, amb);
    if amb.reply.Answered? { RecordWrites(f, executed.cell.rows, req, amb.now); }
  }

  lemma StartGranted(r: Rows, req: Request, amb: Ambient)
    requires r.attempt.Some?
    ensures Granted(0, r, r, req, amb)
  {
  }

  lemma ReadyJob(f: Family, r: Rows, executor: string, now: Time)
    requires Ready(f, CHAIN, r, executor, now)
    ensures r.job.Some? && r.attempt.value.jobRunId == Some(r.job.value.id)
  {
  }

  lemma HandoffBodyWrites(f: Family, run: Run, req: Request, amb: Ambient)
    requires LawfulRun(f, run) && run.progress.Going? && run.cell.rows.attempt.Some? && !Ended(run.cell.rows)
    requires req.leaseSeconds >= MIN_SECONDS && req.sessionSeconds >= MIN_SECONDS
    requires HandoffEnters(run.cell.rows, req.executor, amb)
    ensures var done := HandoffBody(f, run, req, amb);
            && Granted(CHAIN, run.cell.rows, done.cell.rows, req, amb)
            && Meta(done.cell.rows).bootstrap == Meta(run.cell.rows).bootstrap
            && done.cell.rows.attempt.value.id == run.cell.rows.attempt.value.id
            && (amb.reply.Answered? ==>
                  ResultOf(f, done.cell.rows, req) && HandoffWritten(done.cell.rows, req, amb.now))
  {
    hide FamilyInv, LawfulRun, Chain, Secured, Granted, AdapterReady, AdapterCall, HandoffRecordStep, ResultOf,
      HandoffWritten;
    var r := run.cell.rows;
    LatestOk(f, run);
    RunningAttempt(f, r, req.executor, amb.now);
    StartGranted(r, req, amb);
    ChainGrants(f, 0, r, run, req, amb);
    ChainCompletes(f, 0, run, req, amb);
    ChainLawful(f, 0, run, req, amb);
    var chained := Chain(0, run, req, amb);
    ReadyForAdapter(f, chained.cell.rows, req.executor, amb.now);
    ReadyJob(f, chained.cell.rows, req.executor, amb.now);
    TailWrites(f, chained, req, amb);
    SameGrantsKeep(r, chained.cell.rows, HandoffBody(f, run, req, amb).cell.rows, req, amb);
    ChainKeepsAttempt(f, run, chained);
  }

  lemma LatestOk(f: Family, run: Run)
    requires LawfulRun(f, run)
    ensures CellOk(f, run.cell)
  {
  }

  lemma ChainKeepsAttempt(f: Family, run: Run, done: Run)
    requires LawfulRun(f, done) && run.History() <= done.History() && run.cell.rows.attempt.Some?
    ensures done.cell.rows.attempt.Some? && done.cell.rows.attempt.value.id == run.cell.rows.attempt.value.id
  {
    hide FamilyInv, Next, Lawful;
    var h := done.History();
    LawfulGrows(f, h, |run.past|, |h| - 1);
    assert h[|run.past|] == run.History()[|run.past|];
  }

  lemma HandoffWrites(f: Family, run: Run, req: Request, amb: Ambient)
    requires LawfulRun(f, run) && run.progress.Going? && run.cell.rows.attempt.Some? && !Ended(run.cell.rows)
    requires req.leaseSeconds >= MIN_SECONDS && req.sessionSeconds >= MIN_SECONDS
    requires HandoffEnters(run.cell.rows, req.executor, amb)
    ensures var done := HandoffOp(f, run, req, amb);
            && Granted(CHAIN, run.cell.rows, done.cell.rows, req, amb)
            && Meta(done.cell.rows).bootstrap == Meta(run.cell.rows).bootstrap
            && done.cell.rows.attempt.value.id == run.cell.rows.attempt.value.id
            && (amb.reply.Answered? ==>
                  ResultOf(f, done.cell.rows, req) && HandoffWritten(done.cell.rows, req, amb.now))
  {
    hide Lawful, HandoffBody, LedgerInv, Statuses, Granted, ResultOf, HandoffWritten;
    RunningAttempt(f, run.cell.rows, req.executor, amb.now);
    HandoffBodyWrites(f, run, req, amb);
  }

  // ---- what settlement and sealing write ----

  ghost predicate SettlementWritten(f: Family, q: Rows, req: OrchestrationRequest, amb: Ambient)
    requires amb.reply.Answered?
  {
    var n := Meta(q);
    && n.execution.Some? && n.terminalization.Some?
    && var t := n.terminalization.value;
    && t.identifier == req.identifier && t.executor == req.executor && t.recordId == n.execution.value.recordId
    && t.outcome == amb.reply.outcome
    && t.category == (if f == ProfileCapture then Some(amb.reply.category) else None)
    && t.at == amb.now && !t.reused
    && n.orchestration == Some(Orchestration(
         identifier := req.identifier, executor := req.executor, recordId := n.execution.value.recordId,
         terminalizationPresent := true, at := amb.now, reused := false))
  }

  lemma SettleWrites(f: Family, r: Rows, req: OrchestrationRequest, amb: Ambient)
    requires TerminalizeStep(f, r, req.identifier, req.executor, amb.now).Write?
    requires amb.reply.Answered? && Recorded(f, Meta(r), amb.reply) && Meta(r).handoff.Some?
      && Meta(r).handoff.value.recordId == Meta(r).execution.value.recordId
    requires r.attempt.Some? && r.attempt.value.endedAt == Some(amb.now)
    ensures var settled := TerminalizeStep(f, r, req.identifier, req.executor, amb.now).rows;
            var s := OrchestrationRecordStep(settled, req, amb.now);
            && s.Write? && SameGrants(r, s.rows) && SettlementWritten(f, s.rows, req, amb)
            && Meta(s.rows).execution == Meta(r).execution && Meta(s.rows).handoff == Meta(r).handoff
            && s.rows.command.id == r.command.id
  {
    hide VerdictOf, TerminalizationRefusal, Recorded;
    assert Meta(r).execution.Some? && Meta(r).execution.value.outcome == amb.reply.outcome
        && (f == ProfileCapture ==>
              Meta(r).terminalStatus.Some? && Meta(r).terminalStatus.value.category == amb.reply.category)
    by { RecordedOutcome(f, Meta(r), amb.reply); }
  }

  lemma RecordedOutcome(f: Family, m: Ledger, reply: Reply)
    requires reply.Answered? && Recorded(f, m, reply)
    ensures m.execution.Some? && m.execution.value.outcome == reply.outcome
    ensures f == ProfileCapture ==> m.terminalStatus.Some? && m.terminalStatus.value.category == reply.category
  {
  }

  // ---- the orchestration as a whole ----

  /** The attempt and its bootstrap record: those found, or new ones. */
  ghost predicate Bootstrapped(f: Family, r: Rows, q: Rows, req: OrchestrationRequest, amb: Ambient) {
    && q.attempt.Some?
    && q.attempt.value.id == (if r.attempt.Some? then r.attempt.value.id else amb.attemptId)
    && Meta(q).bootstrap ==
         if Meta(r).bootstrap.Some? then Meta(r).bootstrap
         else Some(Bootstrap(
                (if f == OnDemandRead then "on-demand-read-orchestrator:" else "profile-capture-orchestrator:")
                + req.identifier, amb.now))
  }

  /** Everything an orchestration that gets past the chain has written, whatever the adapter did. */
  ghost predicate Entered(f: Family, r: Rows, q: Rows, req: OrchestrationRequest, amb: Ambient) {
    && Bootstrapped(f, r, q, req, amb)
    && Granted(CHAIN, r, q,
               Request(identifier := req.identifier, executor := req.executor,
                       leaseSeconds := req.leaseSeconds, sessionSeconds := req.sessionSeconds), amb)
  }

  /** And with a result. */
  ghost predicate ResultWritten(f: Family, q: Rows, req: OrchestrationRequest, amb: Ambient)
    requires amb.reply.Answered?
  {
    && Recorded(f, Meta(q), amb.reply)
    && ResultOf(f, q, HandoffRequest(req)) && HandoffWritten(q, HandoffRequest(req), amb.now)
  }

  lemma BootWrites(f: Family, r: Rows, req: OrchestrationRequest, amb: Ambient)
    requires FamilyInv(f, r) && !Ended(r) && r.command.status != CmdCancelled && r.command.payloadValid
    requires amb.linkValid
    requires Meta(r).bootstrap.Some? ==> Meta(r).bootstrap.value.identifier == BootstrapIdentifier(f, req.identifier)
    ensures var s := BootstrapStep(f, r, BootstrapIdentifier(f, req.identifier), amb);
            && !s.Refuse? && Bootstrapped(f, r, After(r, s), req, amb)
            && JobIdOf(After(r, s)) == JobIdOf(r)
            && Meta(After(r, s)) == Meta(r).(bootstrap := Meta(After(r, s)).bootstrap)
  {
    BootstrapGoesIff(f, r, BootstrapIdentifier(f, req.identifier), amb);
  }

  lemma GrantedFromBoot(r: Rows, booted: Rows, q: Rows, req: Request, amb: Ambient)
    requires Granted(CHAIN, booted, q, req, amb)
    requires JobIdOf(booted) == JobIdOf(r) && Meta(booted) == Meta(r).(bootstrap := Meta(booted).bootstrap)
    ensures Granted(CHAIN, r, q, req, amb)
  {
  }

  lemma BodyWrites(f: Family, run: Run, req: OrchestrationRequest, amb: Ambient)
    requires LawfulRun(f, run) && run.progress.Going? && !Ended(run.cell.rows)
    requires Enters(f, run.cell.rows, req, amb)
    requires req.leaseSeconds >= MIN_SECONDS && req.sessionSeconds >= MIN_SECONDS
    ensures var q := OrchestrateBody(f, run, req, amb).cell.rows;
            && Entered(f, run.cell.rows, q, req, amb)
            && (amb.reply.Answered? ==> ResultWritten(f, q, req, amb))
            && (ReplyAccepted(f, amb.reply) ==> SettlementWritten(f, q, req, amb))
  {
    hide FamilyInv, Lawful, HandoffOp, BootstrapStep, TerminalizeStep, OrchestrationRecordStep, Granted, Recorded,
      ResultOf, HandoffWritten, SettlementWritten;
    var r := run.cell.rows;
    var boot := BootstrapIdentifier(f, req.identifier);
    BootWrites(f, r, req, amb);
    BootedLawful(f, run, boot, amb);
    BootstrapGoesIff(f, r, boot, amb);
    var booted := Commit(run, BootstrapStep(f, r, boot, amb));
    var h := HandoffRequest(req);
    HandoffWrites(f, booted, h, amb);
    HandoffGoesIff(f, booted, h, amb);
    HandoffLawful(f, booted, h, amb);
    var handed := HandoffOp(f, booted, h, amb);
    GrantedFromBoot(r, booted.cell.rows, handed.cell.rows, h, amb);
    if handed.progress.Going? {
      TerminalizeGoesIff(f, handed.cell.rows, req.identifier, req.executor, amb.now);
      RecordedVerdict(f, Meta(handed.cell.rows), amb.reply);
      if ReplyAccepted(f, amb.reply) {
        AcceptedWrites(f, r, handed, req, amb);
      }
    } else {
      RefusedHandoffEnds(f, run, req, amb);
    }
  }

  lemma RecordedVerdict(f: Family, m: Ledger, reply: Reply)
    requires reply.Answered? && Recorded(f, m, reply)
    ensures m.execution.Some? && (f == ProfileCapture ==> m.terminalStatus.Some?)
    ensures VerdictOf(f, m).Incompatible? <==> !ReplyAccepted(f, reply)
  {
  }

  lemma AcceptedWrites(f: Family, start: Rows, handed: Run, req: OrchestrationRequest, amb: Ambient)
    requires LawfulRun(f, handed) && handed.progress.Going? && ReplyAccepted(f, amb.reply)
    requires var r := handed.cell.rows;
             && Granted(CHAIN, start, r, HandoffRequest(req), amb)
             && ResultWritten(f, r, req, amb) && Meta(r).terminalization.None?
    ensures var q := AfterHandoff(f, handed, req, amb).cell.rows;
            && Granted(CHAIN, start, q, HandoffRequest(req), amb)
            && q.attempt.Some? && q.attempt.value.id == handed.cell.rows.attempt.value.id
            && Meta(q).bootstrap == Meta(handed.cell.rows).bootstrap
            && ResultWritten(f, q, req, amb) && SettlementWritten(f, q, req, amb)
  {
    hide FamilyInv, Lawful, TerminalizeStep, OrchestrationRecordStep;
    var r := handed.cell.rows;
    LatestOk(f, handed);
    TerminalizeGoesIff(f, r, req.identifier, req.executor, amb.now);
    RecordedVerdict(f, Meta(r), amb.reply);
    WritesWhenNew(f, r, req.identifier, req.executor, amb.now);
    SettleWrites(f, r, req, amb);
    var settled := TerminalizeStep(f, r, req.identifier, req.executor, amb.now).rows;
    var q := OrchestrationRecordStep(settled, req, amb.now).rows;
    SameGrantsKeep(start, r, q, HandoffRequest(req), amb);
    TerminalizeKeepsResult(f, r, req, amb.now);
  }

  lemma WritesWhenNew(f: Family, r: Rows, identifier: string, executor: string, now: Time)
    requires Meta(r).terminalization.None? && !TerminalizeStep(f, r, identifier, executor, now).Refuse?
    ensures TerminalizeStep(f, r, identifier, executor, now).Write?
  {
  }

  lemma TerminalizeKeepsResult(f: Family, r: Rows, req: OrchestrationRequest, now: Time)
    requires TerminalizeStep(f, r, req.identifier, req.executor, now).Write? && Meta(r).handoff.Some?
    ensures var s := OrchestrationRecordStep(TerminalizeStep(f, r, req.identifier, req.executor, now).rows, req, now);
            s.Write? && Meta(s.rows).terminalStatus == Meta(r).terminalStatus
  {
  }

  /** How the rows end once the adapter has answered, and until then. */
  ghost predicate EndsByReply(f: Family, q: Rows, now: Time, reply: Reply) {
    if !ReplyAccepted(f, reply) then EndedWell(q, now)
    else if f == OnDemandRead then
      ReadEnds(q, now, reply.outcome, reply.accepted, reply.billingCompleted, reply.errorDetail, reply.summary)
    else
      CaptureEnds(q, now, reply.outcome, reply.category, reply.errorDetail, reply.statusSummary, reply.summary)
  }

  lemma UnsettledEnds(f: Family, r: Rows)
    requires FamilyInv(f, r) && Ended(r) && Meta(r).terminalization.None?
    ensures EndedWell(r, r.attempt.value.endedAt.value)
  {
  }

  /** Whatever it finds, an orchestration that gets past the chain leaves exactly this: its own
      identifiers, its clock reading and its reply in every record it had to write, what was still
      good of what it found, and three rows that end as the reply says, or as succeeded when there
      is no reply its family can express. */
  lemma OrchestrationWrites(f: Family, c: Cell, req: OrchestrationRequest, amb: Ambient)
    requires CellOk(f, c) && !Ended(c.rows) && Enters(f, c.rows, req, amb)
    requires req.leaseSeconds >= MIN_SECONDS && req.sessionSeconds >= MIN_SECONDS
    ensures var q := OrchestrateOp(f, Begin(c), req, amb).cell.rows;
            && Entered(f, c.rows, q, req, amb) && EndsByReply(f, q, amb.now, amb.reply)
            && (amb.reply.Answered? ==> ResultWritten(f, q, req, amb))
            && (ReplyAccepted(f, amb.reply) ==> SettlementWritten(f, q, req, amb))
  {
    hide LedgerInv, Statuses, OrchestrateBody, Entered, ResultWritten, SettlementWritten, EndsByReply;
    LiveStatus(f, c.rows);
    BeginLawful(f, c);
    BodyWrites(f, Begin(c), req, amb);
    EndsSo(f, c, req, amb);
  }

  lemma EndsSo(f: Family, c: Cell, req: OrchestrationRequest, amb: Ambient)
    requires CellOk(f, c) && !Ended(c.rows) && Enters(f, c.rows, req, amb)
    requires req.leaseSeconds >= MIN_SECONDS && req.sessionSeconds >= MIN_SECONDS
    requires var q := OrchestrateOp(f, Begin(c), req, amb).cell.rows;
             && Entered(f, c.rows, q, req, amb)
             && (amb.reply.Answered? ==> ResultWritten(f, q, req, amb))
             && (ReplyAccepted(f, amb.reply) ==> SettlementWritten(f, q, req, amb))
    ensures EndsByReply(f, OrchestrateOp(f, Begin(c), req, amb).cell.rows, amb.now, amb.reply)
  {
    hide FamilyInv, OrchestrateOp, OrchestrationFate, Lawful, Enters, Bootstrapped, SessionGranted, ResultOf,
      HandoffWritten, ReadEnds, CaptureEnds, EndedWell;
    BeginLawful(f, c);
    OrchestrateLawful(f, Begin(c), req, amb);
    var q := OrchestrateOp(f, Begin(c), req, amb).cell.rows;
    if !ReplyAccepted(f, amb.reply) {
      OrchestrateFate(f, c, req, amb);
      FateUnsettled(f, c, OrchestrateOp(f, Begin(c), req, amb).cell, req, amb);
      UnsettledEnds(f, q);
    } else if f == OnDemandRead {
      ReadSettlement(q);
    } else {
      CaptureSettlement(q);
    }
  }

  lemma FateUnsettled(f: Family, c: Cell, d: Cell, req: OrchestrationRequest, amb: Ambient)
    requires FamilyInv(f, d.rows) && OrchestrationFate(f, c, d, req, amb) && Enters(f, c.rows, req, amb)
    requires !ReplyAccepted(f, amb.reply)
    ensures Ended(d.rows) && Meta(d.rows).terminalization.None?
  {
    if Meta(d.rows).handoff.None? { LostIsNotSealed(f, d.rows); }
  }

  /** A read succeeds exactly when the adapter says so. */
  lemma ReadSucceedsIff(c: Cell, req: OrchestrationRequest, amb: Ambient)
    requires CellOk(OnDemandRead, c) && !Ended(c.rows) && Enters(OnDemandRead, c.rows, req, amb) && amb.reply.Answered?
    requires req.leaseSeconds >= MIN_SECONDS && req.sessionSeconds >= MIN_SECONDS
    ensures OrchestrateOp(OnDemandRead, Begin(c), req, amb).cell.rows.command.status == CmdSucceeded
            <==> amb.reply.outcome == OutSucceeded && amb.reply.accepted && amb.reply.billingCompleted
  {
    hide FamilyInv, OrchestrateOp, Enters, Entered, ResultWritten, SettlementWritten, SaysFirst;
    OrchestrationWrites(OnDemandRead, c, req, amb);
  }

  /** The direct route asks for five minutes of lease and session under its own names. */
  lemma ExecuteNowWrites(f: Family, c: Cell, amb: Ambient)
    requires CellOk(f, c) && !Ended(c.rows) && Completes(f, c.rows, ExecuteNowRequest(f, c.rows), amb)
    ensures var q := ExecuteNowOp(f, Begin(c), amb).cell.rows;
            var id := (if f == OnDemandRead then "on-demand-read-execute-now:" else "profile-capture-execute-now:")
                      + c.rows.command.id;
            var req := OrchestrationRequest(
              identifier := id,
              executor := if f == OnDemandRead then "on_demand_read_execute_now" else "profile_capture_execute_now",
              leaseSeconds := 300, sessionSeconds := 300);
            && Entered(f, c.rows, q, req, amb) && ResultWritten(f, q, req, amb) && SettlementWritten(f, q, req, amb)
            && EndsByReply(f, q, amb.now, amb.reply)
            && Meta(q).executeNow == Some(ExecuteNow(
                 identifier := id, recordId := Meta(q).execution.value.recordId,
                 outcome := if f == OnDemandRead then Some(amb.reply.outcome) else None,
                 category := if f == ProfileCapture then Some(amb.reply.category) else None,
                 orchestrationPresent := true, terminalizationPresent := true, at := amb.now, reused := false))
  {
    hide FamilyInv, OrchestrateOp, Entered, ResultWritten, SettlementWritten, EndsByReply, Enters, Lawful;
    var req := ExecuteNowRequest(f, c.rows);
    NotEndedNotSealed(f, c.rows);
    OrchestrateGoesIff(f, c, req, amb);
    OrchestrationWrites(f, c, req, amb);
    InvCategory(f, c.rows);
    BeginLawful(f, c);
    OrchestrateLawful(f, Begin(c), req, amb);
    var done := OrchestrateOp(f, Begin(c), req, amb);
    LawfulKeepsCommand(f, done, 0);
    AnnouncementWrites(f, c.rows, done.cell.rows, req, amb);
  }

  /** The execute-now record changes none of it. */
  lemma AnnouncementWrites(f: Family, start: Rows, r: Rows, req: OrchestrationRequest, amb: Ambient)
    requires FamilyInv(f, r) && ReplyAccepted(f, amb.reply) && Entered(f, start, r, req, amb)
    requires ResultWritten(f, r, req, amb) && SettlementWritten(f, r, req, amb) && EndsByReply(f, r, amb.now, amb.reply)
    ensures var s := ExecuteNowRecordStep(f, r, amb.now);
            && s.Write? && Entered(f, start, s.rows, req, amb)
            && ResultWritten(f, s.rows, req, amb) && SettlementWritten(f, s.rows, req, amb)
            && EndsByReply(f, s.rows, amb.now, amb.reply)
            && Meta(s.rows).executeNow == Some(ExecuteNow(
                 identifier := ExecuteNowIdentifier(f, r.command.id), recordId := Meta(s.rows).execution.value.recordId,
                 outcome := if f == OnDemandRead then Some(amb.reply.outcome) else None,
                 category := if f == ProfileCapture then Some(amb.reply.category) else None,
                 orchestrationPresent := true, terminalizationPresent := true, at := amb.now, reused := false))
  {
    hide Recorded, SaysFirst, EndedWell, EndedBadly, LeaseUntil, GateUntil, GuardUntil, SessionGranted, FamilyInv,
      EndsByReply, Entered;
    RecordedOutcome(f, Meta(r), amb.reply);
    var s := ExecuteNowRecordStep(f, r, amb.now);
    assert r.attempt.Some?;
    NamedRecord(f, r);
    OnlyAnnounced(f, start, r, s.rows, req, amb);
  }

  lemma NamedRecord(f: Family, r: Rows)
    requires FamilyInv(f, r) && Meta(r).execution.Some?
    ensures Meta(r).execution.value.recordId != ""
    ensures f == OnDemandRead ==> Meta(r).terminalStatus.None?
  {
  }

  /** A step that leaves everything but the execute-now slot alone. */
  lemma OnlyAnnounced(f: Family, start: Rows, r: Rows, q: Rows, req: OrchestrationRequest, amb: Ambient)
    requires Entered(f, start, r, req, amb) && EndsByReply(f, r, amb.now, amb.reply)
      && ReplyAccepted(f, amb.reply) && Recorded(f, Meta(r), amb.reply)
    requires r.attempt.Some? && q.attempt.Some? && SameGrants(r, q)
    requires Meta(q).execution == Meta(r).execution && Meta(q).terminalStatus == Meta(r).terminalStatus
    requires SameEnding(r, q)
    ensures Entered(f, start, q, req, amb) && EndsByReply(f, q, amb.now, amb.reply) && Recorded(f, Meta(q), amb.reply)
  {
    hide SaysFirst, LeaseUntil, GateUntil, GuardUntil, SessionGranted, ReplyAccepted;
    SameEndingKeeps(f, r, q, amb.now, amb.reply);
  }

  /** Statuses, end times and error fields are the same. */
  ghost predicate SameEnding(r: Rows, q: Rows) {
    && q.attempt.Some? == r.attempt.Some? && q.job.Some? == r.job.Some?
    && q.command == r.command.(summary := q.command.summary)
    && (r.attempt.Some? ==> q.attempt.value == r.attempt.value.(metadata := q.attempt.value.metadata))
    && (r.job.Some? ==> q.job.value == r.job.value.(summary := q.job.value.summary))
  }

  lemma SameEndingKeeps(f: Family, r: Rows, q: Rows, now: Time, reply: Reply)
    requires EndsByReply(f, r, now, reply) && SameEnding(r, q)
    ensures EndsByReply(f, q, now, reply)
  {
    hide SaysFirst, ReplyAccepted;
    assert EndedWell(r, now) ==> EndedWell(q, now);
    forall timedOut, code, message | EndedBadly(r, now, timedOut, code, message)
      ensures EndedBadly(q, now, timedOut, code, message) {
    }
  }
}
