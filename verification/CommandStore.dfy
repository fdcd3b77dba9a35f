/**
 The imperative form: rows as objects whose fields the services assign, and a unit of work
 that commits them. Every method is proved equal to its specification as a `Run`.
 */
module CommandStore {
  import opened Wrappers
  import opened CommandModel
  import opened RuntimeHandoff
  import opened CommandExecution
  import opened QueuedExecution
  import opened Invariants
  import opened Phases
  import opened Safety

  class CommandRow {
    const id: string
    const category: Category
    const payloadValid: bool
    var status: CommandStatus
    var completedAt: Option<Time>
    var errorCode: Option<string>
    var errorMessage: Option<string>
    var summary: Ledger

    constructor (id: string, category: Category, payloadValid: bool)
      ensures View() == Command(id, category, payloadValid, CmdPending, None, None, None, EMPTY_LEDGER)
    {
      this.id, this.category, this.payloadValid := id, category, payloadValid;
      status, completedAt, errorCode, errorMessage, summary := CmdPending, None, None, None, EMPTY_LEDGER;
    }

    function View(): Command
      reads this
    {
      Command(id, category, payloadValid, status, completedAt, errorCode, errorMessage, summary)
    }
  }

  class AttemptRow {
    const id: string
    var status: AttemptStatus
    var endedAt: Option<Time>
    var jobRunId: Option<string>
    var errorCode: Option<string>
    var errorMessage: Option<string>
    var metadata: Ledger

    constructor (id: string, bootstrap: Bootstrap)
      ensures View() == Attempt(id, AttStarted, None, None, None, None, EMPTY_LEDGER.(bootstrap := Some(bootstrap)))
    {
      this.id := id;
      status, endedAt, jobRunId, errorCode, errorMessage := AttStarted, None, None, None, None;
      metadata := EMPTY_LEDGER.(bootstrap := Some(bootstrap));
    }

    function View(): Attempt
      reads this
    {
      Attempt(id, status, endedAt, jobRunId, errorCode, errorMessage, metadata)
    }

    method ApplyFinal(at: Time, v: Verdict, metadata: Ledger)
      requires v.Verdict?
      modifies this
      ensures View() == old(View()).(status := AttemptFinal(v.final), endedAt := Some(at), errorCode := v.errorCode,
                                     errorMessage := v.errorMessage, metadata := metadata)
    {
      this.metadata := metadata;
      status := AttemptFinal(v.final);
      endedAt := Some(at);
      errorCode := v.errorCode;
      errorMessage := v.errorMessage;
    }
  }

  class JobRunRow {
    const id: string
    var commandId: string
    var status: JobStatus
    var completedAt: Option<Time>
    var errorCode: Option<string>
    var errorMessage: Option<string>
    var summary: Ledger

    constructor (id: string, commandId: string, summary: Ledger)
      ensures View() == JobRun(id, commandId, JobRunning, None, None, None, summary)
    {
      this.id, this.commandId, this.summary := id, commandId, summary;
      status, completedAt, errorCode, errorMessage := JobRunning, None, None, None;
    }

    function View(): JobRun
      reads this
    {
      JobRun(id, commandId, status, completedAt, errorCode, errorMessage, summary)
    }

    method ApplyFinal(commandId: string, at: Time, v: Verdict, summary: Ledger)
      requires v.Verdict?
      modifies this
      ensures View() == old(View()).(status := JobFinal(v.final), completedAt := Some(at), commandId := commandId,
                                     errorCode := v.errorCode, errorMessage := v.errorMessage, summary := summary)
    {
      status := JobFinal(v.final);
      completedAt := Some(at);
      this.commandId := commandId;
      this.summary := summary;
      errorCode := v.errorCode;
      errorMessage := v.errorMessage;
    }
  }

  /** The rows of one command in one database session. */
  class UnitOfWork {
    const command: CommandRow
    var earlier: seq<Attempt>
    var attempt: AttemptRow?
    var job: JobRunRow?
    ghost var calls: nat
    ghost var past: seq<Cell>

    constructor (command: CommandRow)
      ensures this.command == command && View() == Rows(command.View(), [], None, None) && calls == 0 && past == []
    {
      this.command := command;
      earlier, attempt, job, calls, past := [], null, null, 0, [];
    }

    function Repr(): set<object>
      reads this
    {
      {this, command} + (if attempt == null then {} else {attempt}) + (if job == null then {} else {job})
    }

    function View(): Rows
      reads Repr()
    {
      Rows(command.View(), earlier,
           if attempt == null then None else Some(attempt.View()),
           if job == null then None else Some(job.View()))
    }

    ghost function Now(): Run
      reads Repr()
    {
      Run(past, Cell(View(), calls), Going)
    }

    /** Where a run stands after a method answered `p`. */
    ghost function After(p: Progress): Run
      reads Repr()
    {
      Now().(progress := p)
    }

    /** Everything committed so far was lawful. */
    ghost predicate Sound(f: Family)
      reads Repr()
    {
      LawfulRun(f, Now())
    }

    ghost predicate EndsTogether()
      reads Repr()
    {
      Together(Now().cell)
    }

    /** The objects a method may have left: the old ones and new ones. */
    twostate predicate SameObjects()
      reads this
    {
      fresh(Repr() - old(Repr()))
    }

    /** One artifact merged into the dictionaries of all rows. */
    method Persist(a: Artifact)
      requires attempt != null
      modifies Repr() - {this}
      ensures View() == PutAll(old(View()), a)
    {
      hide Put;
      attempt.metadata := Put(attempt.metadata, a);
      command.summary := Put(command.summary, a);
      if job != null {
        job.summary := Put(job.summary, a);
      }
    }

    /** A new database session starts from what the last one committed. */
    ghost method BeginSession()
      modifies this`past
      ensures SameObjects() && Now() == Begin(old(Now().cell))
    {
      past := [];
    }

    method BootstrapAttempt(f: Family, identifier: string, amb: Ambient) returns (p: Progress)
      modifies Repr()
      ensures SameObjects() && After(p) == Commit(old(Now()), BootstrapStep(f, old(View()), identifier, amb))
    {
      hide LawfulRun, Together, FamilyInv;
      ghost var before := Now().cell;
      if command.category != CategoryOf(f) { return Refused(IncompatibleCategory); }
      if TerminalCommand(command.status) { return Refused(NotEligible); }
      if !command.payloadValid { return Refused(PayloadInvalid); }
      if !amb.linkValid { return Refused(LinkInvalid); }
      if attempt != null && attempt.endedAt.None? && (attempt.status == AttStarted || attempt.status == AttRunning) {
        if attempt.metadata.bootstrap.None? { return Refused(MissingArtifact); }
        if attempt.metadata.bootstrap.value.identifier != identifier { return Refused(OtherIdentifier); }
        return Going;
      }
      if attempt != null && attempt.metadata.bootstrap.Some? && attempt.endedAt.Some? {
        return Refused(AlreadyFinalized);
      }
      if !AllowedTransition(command.status, CmdInProgress) { return Refused(InvalidTransition); }
      var record := Bootstrap(identifier, amb.now);
      if attempt != null { earlier := earlier + [attempt.View()]; }
      attempt := new AttemptRow(amb.attemptId, record);
      job := null;
      command.status := CmdInProgress;
      command.completedAt := None;
      command.summary := command.summary.(bootstrap := Some(record));
      past := past + [before];
      return Going;
    }

    method GetOrCreateJobRun(amb: Ambient) returns (p: Progress)
      modifies Repr()
      ensures SameObjects() && After(p) == Commit(old(Now()), JobRunStep(old(View()), amb))
    {
      ghost var before := Now().cell;
      if attempt == null { return Refused(MissingAttempt); }
      if attempt.jobRunId.Some? {
        if job == null { return Refused(MissingJobRun); }
        if job.commandId != command.id { return Refused(Inconsistent); }
        return Going;
      }
      job := new JobRunRow(amb.jobRunId, command.id, command.summary);
      attempt.jobRunId := Some(amb.jobRunId);
      past := past + [before];
      return Going;
    }

    method PersistEnvelope(req: Request) returns (p: Progress)
      modifies Repr()
      ensures SameObjects() && After(p) == Commit(old(Now()), EnvelopeStep(old(View()), req))
    {
      if attempt == null { return Refused(MissingAttempt); }
      if job == null { return Refused(MissingJobRun); }
      if job.summary.envelope.Some? {
        if job.summary.envelope.value.worker != req.executor { return Refused(OtherExecutor); }
        return Going;
      }
      ghost var before := Now().cell;
      Persist(EnvelopeArtifact(Envelope(req.executor, req.identifier)));
      past := past + [before];
      return Going;
    }

    /** The checks every service makes on the attempt it is given. */
    method CheckAttempt() returns (refusal: Option<Error>)
      ensures refusal == AttemptRefusal(View())
    {
      if attempt == null { return Some(MissingAttempt); }
      if attempt.endedAt.Some? { return Some(AlreadyFinalized); }
      if attempt.status != AttStarted { return Some(NotEligible); }
      if attempt.jobRunId.None? || job == null { return Some(MissingJobRun); }
      return None;
    }

    method LeaseWorkItem(req: Request, now: Time) returns (p: Progress)
      modifies Repr()
      ensures SameObjects() && After(p) == Commit(old(Now()), LeaseStep(old(View()), req, now))
    {
      hide PutAll;
      var refusal := CheckAttempt();
      if refusal.Some? { return Refused(refusal.value); }
      if job.summary.envelope.None? { return Refused(MissingArtifact); }
      var lease := attempt.metadata.lease;
      if lease.Some? && lease.value.expiresAt > now {
        if lease.value.executor != req.executor { return Refused(OtherExecutor); }
        return Going;
      }
      ghost var before := Now().cell;
      Persist(LeaseArtifact(Lease(LeaseRecordId(attempt.id, req.executor), req.executor, now + req.leaseSeconds)));
      past := past + [before];
      return Going;
    }

    method GateInvocation(req: Request, now: Time) returns (p: Progress)
      modifies Repr()
      ensures SameObjects() && After(p) == Commit(old(Now()), GateStep(old(View()), req, now))
    {
      hide PutAll;
      var refusal := CheckAttempt();
      if refusal.Some? { return Refused(refusal.value); }
      var lease, gate := attempt.metadata.lease, attempt.metadata.gate;
      if lease.None? { return Refused(MissingArtifact); }
      if lease.value.executor != req.executor { return Refused(OtherExecutor); }
      if lease.value.expiresAt <= now { return Refused(Expired); }
      if gate.Some? && gate.value.expiresAt > now {
        if gate.value.executor != req.executor { return Refused(OtherExecutor); }
        return Going;
      }
      ghost var before := Now().cell;
      Persist(GateArtifact(Gate(
        GateRecordId(attempt.id, req.executor), lease.value.recordId, req.executor, lease.value.expiresAt)));
      past := past + [before];
      return Going;
    }

    method EnsureGuard(req: Request, now: Time) returns (p: Progress)
      modifies Repr()
      ensures SameObjects() && After(p) == Commit(old(Now()), GuardStep(old(View()), req, now))
    {
      hide PutAll;
      if attempt == null { return Refused(MissingAttempt); }
      if job == null { return Refused(MissingJobRun); }
      var lease, gate, guard := attempt.metadata.lease, attempt.metadata.gate, attempt.metadata.guard;
      if guard.Some? && lease.Some? && gate.Some? && guard.value.executor == req.executor
         && guard.value.leaseRecordId == lease.value.recordId && guard.value.gateRecordId == gate.value.recordId {
        return Going;
      }
      if lease.None? { return Refused(MissingArtifact); }
      if lease.value.executor != req.executor { return Refused(OtherExecutor); }
      if lease.value.expiresAt <= now { return Refused(Expired); }
      if gate.None? { return Refused(MissingArtifact); }
      if gate.value.executor != req.executor { return Refused(OtherExecutor); }
      if gate.value.expiresAt <= now { return Refused(Expired); }
      if gate.value.leaseRecordId != lease.value.recordId { return Refused(Inconsistent); }
      ghost var before := Now().cell;
      var expiry :=
        if lease.value.expiresAt <= gate.value.expiresAt then lease.value.expiresAt else gate.value.expiresAt;
      Persist(GuardArtifact(Guard(req.executor, lease.value.recordId, gate.value.recordId, expiry)));
      past := past + [before];
      return Going;
    }

    method StartSession(req: Request, amb: Ambient) returns (p: Progress)
      modifies Repr()
      ensures SameObjects() && After(p) == Commit(old(Now()), SessionStartStep(old(View()), req, amb))
    {
      hide PutAll, PrerequisiteExpiry;
      var session := if attempt == null then None else attempt.metadata.session;
      if session.Some? && session.value.executor != req.executor { return Refused(OtherExecutor); }
      if session.Some? && session.value.finalizedBy.Some? { return Going; }
      var refusal := CheckAttempt();
      if refusal.Some? { return Refused(refusal.value); }
      var until := PrerequisiteExpiry(attempt.metadata, req.executor, amb.now);
      if until.None? { return Refused(Expired); }
      ghost var before := Now().cell;
      var next: ExecSession;
      if session.Some? && session.value.expiresAt > amb.now {
        if session.value.expiresAt <= until.value { return Going; }
        next := session.value.(expiresAt := until.value);
      } else {
        var effective := Min(amb.now + req.sessionSeconds, until.value);
        if effective <= amb.now { return Refused(Expired); }
        next := ExecSession(amb.sessionId, req.executor, effective, None);
      }
      Persist(SessionArtifact(next));
      past := past + [before];
      return Going;
    }

    method FinalizeSession(req: Request, now: Time) returns (p: Progress)
      modifies Repr()
      ensures SameObjects() && After(p) == Commit(old(Now()), SessionFinalizeStep(old(View()), req, now))
    {
      hide PutAll, PrerequisiteExpiry;
      var session := if attempt == null then None else attempt.metadata.session;
      if session.None? { return Refused(MissingArtifact); }
      if session.value.executor != req.executor { return Refused(OtherExecutor); }
      if session.value.finalizedBy.Some? { return Going; }
      var refusal := CheckAttempt();
      if refusal.Some? { return Refused(refusal.value); }
      if session.value.expiresAt <= now { return Refused(Expired); }
      if PrerequisiteExpiry(attempt.metadata, req.executor, now).None? { return Refused(Expired); }
      ghost var before := Now().cell;
      Persist(SessionArtifact(session.value.(finalizedBy := Some(req.executor))));
      past := past + [before];
      return Going;
    }

    method RecordOutcome(req: Request) returns (p: Progress)
      modifies Repr()
      ensures SameObjects() && After(p) == Commit(old(Now()), OutcomeStep(old(View()), req))
    {
      var refusal := CheckAttempt();
      if refusal.Some? { return Refused(refusal.value); }
      if !SessionFinalized(attempt.metadata, req.executor) { return Refused(MissingArtifact); }
      if !ContextMatches(attempt.metadata, req.executor) { return Refused(Inconsistent); }
      var mine := Checkpoint(attempt.metadata.session.value.identifier, req.executor);
      if attempt.metadata.outcome.Some? {
        if attempt.metadata.outcome.value != mine { return Refused(OtherExecutor); }
        return Going;
      }
      ghost var before := Now().cell;
      Persist(OutcomeArtifact(mine));
      past := past + [before];
      return Going;
    }

    /** One bridge; the first also ends the attempt and marks all three rows succeeded. */
    method RecordBridge(k: nat, req: Request, now: Time) returns (p: Progress)
      modifies Repr()
      ensures SameObjects() && After(p) == Commit(old(Now()), BridgeStep(k, old(View()), req, now))
    {
      hide PutAll, Dispose;
      if attempt == null { return Refused(MissingAttempt); }
      if attempt.jobRunId.None? || job == null { return Refused(MissingJobRun); }
      if attempt.metadata.session.None? { return Refused(MissingArtifact); }
      var mine := Checkpoint(attempt.metadata.session.value.identifier, req.executor);
      var bridges := attempt.metadata.bridges;
      if k < |bridges| {
        if bridges[k] != mine { return Refused(OtherExecutor); }
        return Going;
      }
      if !SessionFinalized(attempt.metadata, req.executor) { return Refused(MissingArtifact); }
      if attempt.metadata.outcome != Some(mine) { return Refused(MissingArtifact); }
      if k != |bridges| { return Refused(MissingArtifact); }
      if exists i | 0 <= i < |bridges| :: bridges[i] != mine { return Refused(OtherExecutor); }
      if !ContextMatches(attempt.metadata, req.executor) { return Refused(Inconsistent); }
      ghost var before := Now().cell;
      if k == 0 {
        if attempt.endedAt.Some? { return Refused(AlreadyFinalized); }
        if !AllowedTransition(command.status, CmdSucceeded) { return Refused(InvalidTransition); }
        DisposeRows(now);
      }
      Persist(BridgeArtifact(mine));
      past := past + [before];
      return Going;
    }

    method DisposeRows(now: Time)
      requires attempt != null && job != null
      modifies Repr() - {this}
      ensures View() == Dispose(old(View()), now)
    {
      attempt.status := AttSucceeded;
      attempt.endedAt := Some(now);
      attempt.errorCode := None;
      attempt.errorMessage := None;
      command.status := CmdSucceeded;
      command.completedAt := Some(now);
      job.status := JobSucceeded;
      job.completedAt := Some(now);
      job.commandId := command.id;
      job.errorCode := None;
      job.errorMessage := None;
    }

    /** Job run and envelope. */
    method PinExecutor(req: Request, amb: Ambient) returns (p: Progress)
      modifies Repr()
      ensures SameObjects() && Chain(0, old(Now()), req, amb) == Chain(2, After(p), req, amb)
    {
      hide Chain, JobRunStep, EnvelopeStep, LeaseStep, GateStep, GuardStep, SessionStartStep, SessionFinalizeStep,
        OutcomeStep, BridgeStep, Commit, View;
      p := GetOrCreateJobRun(amb);
      ChainUnrolls(0, old(Now()), After(p), req, amb);
      if p.Refused? { RefusedStays(2, After(p), req, amb); return; }
      ghost var start1 := Now();
      p := PersistEnvelope(req);
      ChainUnrolls(1, start1, After(p), req, amb);
    }

    /** Lease, gate and guard. */
    method AcquireGuard(req: Request, amb: Ambient) returns (p: Progress)
      modifies Repr()
      ensures SameObjects() && Chain(2, old(Now()), req, amb) == Chain(5, After(p), req, amb)
    {
      hide Chain, JobRunStep, EnvelopeStep, LeaseStep, GateStep, GuardStep, SessionStartStep, SessionFinalizeStep,
        OutcomeStep, BridgeStep, Commit, View;
      p := LeaseWorkItem(req, amb.now);
      ChainUnrolls(2, old(Now()), After(p), req, amb);
      if p.Refused? { RefusedStays(5, After(p), req, amb); return; }
      ghost var start3 := Now();
      p := GateInvocation(req, amb.now);
      ChainUnrolls(3, start3, After(p), req, amb);
      if p.Refused? { RefusedStays(5, After(p), req, amb); return; }
      ghost var start4 := Now();
      p := EnsureGuard(req, amb.now);
      ChainUnrolls(4, start4, After(p), req, amb);
    }

    /** Session and outcome checkpoint. */
    method RunSession(req: Request, amb: Ambient) returns (p: Progress)
      modifies Repr()
      ensures SameObjects() && Chain(5, old(Now()), req, amb) == Chain(8, After(p), req, amb)
    {
      hide Chain, JobRunStep, EnvelopeStep, LeaseStep, GateStep, GuardStep, SessionStartStep, SessionFinalizeStep,
        OutcomeStep, BridgeStep, Commit, View;
      p := StartSession(req, amb);
      ChainUnrolls(5, old(Now()), After(p), req, amb);
      if p.Refused? { RefusedStays(8, After(p), req, amb); return; }
      ghost var start6 := Now();
      p := FinalizeSession(req, amb.now);
      ChainUnrolls(6, start6, After(p), req, amb);
      if p.Refused? { RefusedStays(8, After(p), req, amb); return; }
      ghost var start7 := Now();
      p := RecordOutcome(req);
      ChainUnrolls(7, start7, After(p), req, amb);
    }

    /** The seventeen bridges, which the source writes out one after the other. */
    method RunBridges(req: Request, amb: Ambient) returns (p: Progress)
      modifies Repr()
      ensures SameObjects() && Chain(8, old(Now()), req, amb) == After(p)
    {
      hide Chain, JobRunStep, EnvelopeStep, LeaseStep, GateStep, GuardStep, SessionStartStep, SessionFinalizeStep,
        OutcomeStep, BridgeStep, Commit, View;
      p := Going;
      var k := 0;
      while k < BRIDGES
        invariant k <= BRIDGES && p.Going? && SameObjects()
        invariant Chain(8, old(Now()), req, amb) == Chain(8 + k, Now(), req, amb)
      {
        ghost var mid := Now();
        p := RecordBridge(k, req, amb.now);
        ChainUnrolls(8 + k, mid, After(p), req, amb);
        if p.Refused? { return; }
        k := k + 1;
      }
      ChainEnds(Now(), req, amb);
    }

    /** Everything the handoff runs before the adapter. */
    method RunChain(req: Request, amb: Ambient) returns (p: Progress)
      modifies Repr()
      ensures SameObjects() && After(p) == Chain(0, old(Now()), req, amb)
    {
      hide Chain, Commit, View;
      p := PinExecutor(req, amb);
      if p.Refused? { RefusedStays(2, After(p), req, amb); return; }
      p := AcquireGuard(req, amb);
      if p.Refused? { RefusedStays(5, After(p), req, amb); return; }
      p := RunSession(req, amb);
      if p.Refused? { RefusedStays(8, After(p), req, amb); return; }
      p := RunBridges(req, amb);
    }

    /** The adapter call and the commit of its result: a crash may fall between. */
    method ExecuteAdapter(f: Family, req: Request, amb: Ambient) returns (p: Progress)
      modifies Repr()
      ensures SameObjects() && After(p) == AdapterCall(f, old(Now()), req, amb)
    {
      hide PutAll, AdapterReady;
      if attempt == null { return Refused(MissingAttempt); }
      if attempt.jobRunId.None? || job == null { return Refused(MissingJobRun); }
      if attempt.metadata.session.None? { return Refused(MissingArtifact); }
      var session := attempt.metadata.session.value.identifier;
      var execution := attempt.metadata.execution;
      if execution.Some? {
        if execution.value.sessionIdentifier != session || execution.value.executor != req.executor {
          return Refused(OtherExecutor);
        }
        return Going;
      }
      if !AdapterReady(attempt.metadata, req.executor) { return Refused(MissingArtifact); }
      if amb.reply.Unsupported? { return Refused(AdapterUnsupported); }
      ghost var before := Now().cell;
      calls := calls + 1;
      past := past + [before];
      if amb.reply.Raised? { return Refused(AdapterRaised); }
      ghost var called := Now().cell;
      var x := Execution(ExecutionRecordId(f, attempt.id, req.identifier), session, req.executor,
                         command.id, attempt.id, attempt.jobRunId.value,
                         amb.reply.outcome, amb.reply.accepted, amb.reply.billingCompleted, amb.reply.errorDetail,
                         amb.reply.summary);
      Persist(ExecutionArtifact(x, TerminalStatusOf(f, x, amb.reply)));
      past := past + [called];
      return Going;
    }

    method RecordHandoff(req: Request, now: Time, reusedHandoff: bool, reusedExecution: bool) returns (p: Progress)
      modifies Repr()
      ensures SameObjects()
        && After(p) == Commit(old(Now()), HandoffRecordStep(old(View()), req, now, reusedHandoff, reusedExecution))
    {
      if attempt == null { return Refused(MissingAttempt); }
      var m := attempt.metadata;
      if job == null || m.session.None? || m.bootstrap.None? { return Refused(MissingArtifact); }
      if m.execution.None? { return Refused(MissingArtifact); }
      ghost var before := Now().cell;
      Persist(HandoffArtifact(Handoff(
        req.identifier, req.executor, m.bootstrap.value.identifier, job.id,
        m.execution.value.recordId, m.session.value.identifier, reusedHandoff, reusedExecution, now)));
      past := past + [before];
      return Going;
    }

    /** The checks of a handoff that has nothing to replay. */
    method CheckHandoff(amb: Ambient) returns (refusal: Option<Error>)
      ensures refusal == HandoffRefusal(View(), amb)
    {
      if TerminalCommand(command.status) { return Some(NotEligible); }
      if !command.payloadValid { return Some(PayloadInvalid); }
      if !amb.linkValid { return Some(LinkInvalid); }
      if attempt == null || attempt.endedAt.Some? { return Some(MissingAttempt); }
      if attempt.metadata.bootstrap.None? { return Some(MissingArtifact); }
      if attempt.status != AttStarted { return Some(NotEligible); }
      if attempt.metadata.handoff.None? && attempt.metadata.execution.Some? { return Some(Inconsistent); }
      return None;
    }

    /** Hand the bootstrapped attempt to the runtime, or replay the stored handoff. */
    method HandOffToRuntime(f: Family, req: Request, amb: Ambient) returns (p: Progress)
      modifies Repr()
      ensures SameObjects() && After(p) == HandoffOp(f, old(Now()), req, amb)
      ensures old(Sound(f)) ==> Sound(f) && EndsTogether()
    {
      hide Chain, AdapterCall, HandoffRecordStep, LawfulRun, Together;
      ghost var done := HandoffOp(f, Now(), req, amb).(progress := Going);
      if Sound(f) {
        HandoffLawful(f, Now(), req, amb);
        LawfulTogether(f, HandoffOp(f, Now(), req, amb));
      }
      assert old(Sound(f)) ==> SoundTogether(f, done);
      if command.category != CategoryOf(f) { return Refused(IncompatibleCategory); }
      var handoff, execution := None, None;
      if attempt != null { handoff, execution := attempt.metadata.handoff, attempt.metadata.execution; }
      if handoff.Some? && handoff.value.identifier != req.identifier { return Refused(OtherIdentifier); }
      if handoff.Some? && handoff.value.executor != req.executor { return Refused(OtherExecutor); }
      if handoff.Some? && execution.Some? {
        if attempt.jobRunId.None? || job == null { return Refused(MissingJobRun); }
        return Going;
      }
      var refusal := CheckHandoff(amb);
      if refusal.Some? { return Refused(refusal.value); }
      p := RunHandoffBody(f, req, amb, handoff.Some?);
    }

    method RunHandoffBody(f: Family, req: Request, amb: Ambient, reusedHandoff: bool) returns (p: Progress)
      requires attempt != null && reusedHandoff == attempt.metadata.handoff.Some?
      modifies Repr()
      ensures SameObjects() && After(p) == HandoffBody(f, old(Now()), req, amb)
    {
      hide Chain, AdapterCall, HandoffRecordStep, PutAll;
      p := RunChain(req, amb);
      if p.Refused? { AdapterStaysRefused(f, After(p), req, amb); return; }
      var recorded := attempt != null && attempt.metadata.execution.Some?;
      p := ExecuteAdapter(f, req, amb);
      if p.Refused? { return; }
      p := RecordHandoff(req, amb.now, reusedHandoff, recorded);
    }

    /** Why a settlement is refused, in the order the checks are made. */
    method CheckTerminalization(f: Family, executor: string) returns (refusal: Option<Error>)
      ensures refusal == TerminalizationRefusal(f, View(), executor)
    {
      if attempt == null { return Some(MissingAttempt); }
      var m := attempt.metadata;
      if m.handoff.None? || m.execution.None? { return Some(MissingArtifact); }
      if f == ProfileCapture && m.terminalStatus.None? { return Some(MissingArtifact); }
      if attempt.jobRunId.None? { return Some(MissingJobRun); }
      var handoff, execution := m.handoff.value, m.execution.value;
      if handoff.executor != executor { return Some(OtherExecutor); }
      if execution.commandId != command.id || execution.attemptId != attempt.id
         || execution.jobRunId != attempt.jobRunId.value { return Some(Inconsistent); }
      if execution.executor != executor { return Some(OtherExecutor); }
      if f == ProfileCapture {
        var status := m.terminalStatus.value;
        if status.recordId != execution.recordId || status.attemptId != attempt.id
           || status.sessionIdentifier != execution.sessionIdentifier { return Some(Inconsistent); }
      }
      if handoff.recordId != execution.recordId { return Some(Inconsistent); }
      if VerdictOf(f, m).Incompatible? { return Some(IncompatibleTerminalStatus); }
      return None;
    }

    /** Assign the final state to the three rows; the job run takes over the command's dictionary. */
    method ApplyTerminalState(f: Family, t: Terminalization, v: Verdict)
      requires attempt != null && v.Verdict?
      modifies Repr() - {this}
      ensures View() == Settle(f, old(View()), t, v)
    {
      hide Put, CommandFinal, AttemptFinal, JobFinal;
      var summary := Put(command.summary, TerminalizationArtifact(t));
      attempt.ApplyFinal(t.at, v, Put(attempt.metadata, TerminalizationArtifact(t)));
      command.status := CommandFinal(v.final);
      command.completedAt := Some(t.at);
      command.errorCode := v.errorCode;
      command.errorMessage := v.errorMessage;
      command.summary := summary;
      if job != null { job.ApplyFinal(command.id, t.at, v, summary); }
    }

    /** Settle the three rows by the adapter's result, or replay the stored settlement. */
    method TerminalizeExecution(f: Family, identifier: string, executor: string, now: Time) returns (p: Progress)
      modifies Repr()
      ensures SameObjects()
        && After(p) == Commit(old(Now()), TerminalizeStep(f, old(View()), identifier, executor, now))
      ensures old(Sound(f)) ==> Sound(f) && EndsTogether()
    {
      hide TerminalizationRefusal, Settle, LawfulRun, Together;
      ghost var done := Commit(Now(), TerminalizeStep(f, View(), identifier, executor, now)).(progress := Going);
      if Sound(f) {
        TerminalizeLawful(f, Now(), identifier, executor, now);
        LawfulTogether(f, Commit(Now(), TerminalizeStep(f, View(), identifier, executor, now)));
      }
      assert old(Sound(f)) ==> SoundTogether(f, done);
      if command.category != CategoryOf(f) { return Refused(IncompatibleCategory); }
      if attempt != null && attempt.metadata.terminalization.Some? {
        var t := attempt.metadata.terminalization.value;
        if t.identifier != identifier { return Refused(OtherIdentifier); }
        if t.executor != executor { return Refused(OtherExecutor); }
        return Going;
      }
      var refusal := CheckTerminalization(f, executor);
      if refusal.Some? { return Refused(refusal.value); }
      SettleableRows(f, View(), executor);
      ghost var before := Now().cell;
      var m := attempt.metadata;
      var v := VerdictOf(f, m);
      var t := Terminalization(
        identifier, executor, m.execution.value.recordId, m.execution.value.outcome,
        if f == ProfileCapture then Some(m.terminalStatus.value.category) else None,
        AttemptFinal(v.final), CommandFinal(v.final), JobFinal(v.final), now, false);
      ApplyTerminalState(f, t, v);
      past := past + [before];
      return Going;
    }

    method RecordOrchestration(req: OrchestrationRequest, now: Time) returns (p: Progress)
      modifies Repr()
      ensures SameObjects() && After(p) == Commit(old(Now()), OrchestrationRecordStep(old(View()), req, now))
    {
      hide PutAll;
      if attempt == null || attempt.metadata.handoff.None? { return Refused(MissingArtifact); }
      ghost var before := Now().cell;
      Persist(OrchestrationArtifact(Orchestration(
        req.identifier, req.executor, attempt.metadata.handoff.value.recordId,
        attempt.metadata.terminalization.Some?, now, false)));
      past := past + [before];
      return Going;
    }

    method RunOrchestrationBody(f: Family, req: OrchestrationRequest, amb: Ambient) returns (p: Progress)
      modifies Repr()
      ensures SameObjects() && After(p) == OrchestrateBody(f, old(Now()), req, amb)
    {
      hide BootstrapStep, HandoffOp, TerminalizeStep, OrchestrationRecordStep, LawfulRun, Together, View;
      p := BootstrapAttempt(f, BootstrapIdentifier(f, req.identifier), amb);
      if p.Refused? { HandoffStaysRefused(f, After(p), HandoffRequest(req), amb); return; }
      p := HandOffToRuntime(f, HandoffRequest(req), amb);
      if p.Refused? { return; }
      p := TerminalizeExecution(f, req.identifier, req.executor, amb.now);
      if p.Refused? { return; }
      p := RecordOrchestration(req, amb.now);
    }

    /** Run a command from bootstrap to its orchestration record, or replay the stored one. */
    method OrchestrateExecution(f: Family, req: OrchestrationRequest, amb: Ambient) returns (p: Progress)
      modifies Repr()
      ensures SameObjects() && After(p) == OrchestrateOp(f, old(Now()), req, amb)
      ensures old(Sound(f)) ==> Sound(f) && EndsTogether()
    {
      hide OrchestrateBody, LawfulRun, Together;
      ghost var done := OrchestrateOp(f, Now(), req, amb).(progress := Going);
      if Sound(f) {
        OrchestrateLawful(f, Now(), req, amb);
        LawfulTogether(f, OrchestrateOp(f, Now(), req, amb));
      }
      assert old(Sound(f)) ==> SoundTogether(f, done);
      if command.category != CategoryOf(f) { return Refused(IncompatibleCategory); }
      if attempt != null && attempt.metadata.orchestration.Some? {
        var o := attempt.metadata.orchestration.value;
        if o.identifier != req.identifier { return Refused(OtherIdentifier); }
        if o.executor != req.executor { return Refused(OtherExecutor); }
        return Going;
      }
      if attempt != null && attempt.endedAt.Some? { return Refused(AlreadyFinalized); }
      if TerminalCommand(command.status) { return Refused(NotEligible); }
      if !command.payloadValid { return Refused(PayloadInvalid); }
      p := RunOrchestrationBody(f, req, amb);
    }

    method RecordExecuteNow(f: Family, now: Time) returns (p: Progress)
      modifies Repr()
      ensures SameObjects() && After(p) == Commit(old(Now()), ExecuteNowRecordStep(f, old(View()), now))
    {
      hide PutAll;
      if attempt == null { return Refused(MissingAttempt); }
      ghost var before := Now().cell;
      var m := attempt.metadata;
      Persist(ExecuteNowArtifact(ExecuteNow(
        ExecuteNowIdentifier(f, command.id), NowRecordId(m),
        if f == OnDemandRead then NowOutcome(m) else None,
        if f == ProfileCapture then NowCategory(m) else None,
        m.orchestration.Some?, m.terminalization.Some?, now, false)));
      past := past + [before];
      return Going;
    }

    /** The direct route: orchestrate at once under the command's own identifier. */
    method ExecuteDirectlyNow(f: Family, amb: Ambient) returns (p: Progress)
      modifies Repr()
      ensures SameObjects() && After(p) == ExecuteNowOp(f, old(Now()), amb)
      ensures old(Sound(f)) ==> Sound(f) && EndsTogether()
    {
      hide OrchestrateOp, ExecuteNowRecordStep, LawfulRun, Together;
      ghost var done := ExecuteNowOp(f, Now(), amb).(progress := Going);
      if Sound(f) {
        ExecuteNowLawful(f, Now(), amb);
        LawfulTogether(f, ExecuteNowOp(f, Now(), amb));
      }
      assert old(Sound(f)) ==> SoundTogether(f, done);
      if command.category != CategoryOf(f) { return Refused(IncompatibleCategory); }
      if attempt != null && attempt.metadata.executeNow.Some? {
        if attempt.metadata.executeNow.value.identifier != ExecuteNowIdentifier(f, command.id) {
          return Refused(OtherIdentifier);
        }
        return Going;
      }
      var req := OrchestrationRequest(
        ExecuteNowIdentifier(f, command.id), ExecuteNowExecutor(f), DEFAULT_SECONDS, DEFAULT_SECONDS);
      p := OrchestrateExecution(f, req, amb);
      if p.Refused? { return; }
      p := RecordExecuteNow(f, amb.now);
    }

    method CancelCommand(reason: string, now: Time) returns (p: Progress)
      modifies Repr()
      ensures SameObjects() && After(p) == Commit(old(Now()), CancelStep(old(View()), reason, now))
    {
      if command.status !in {CmdPending, CmdScheduled, CmdQueued, CmdRetryWait} { return Refused(NotEligible); }
      ghost var before := Now().cell;
      command.status := CmdCancelled;
      command.completedAt := Some(now);
      command.errorMessage := Some(reason);
      past := past + [before];
      return Going;
    }

    /** Any operation of either family, in a database session of its own. Whatever it answers,
        each state it committed follows lawfully from the one before. */
    method RunOperation(f: Family, op: Operation, amb: Ambient) returns (p: Progress)
      modifies Repr()
      ensures SameObjects() && After(p) == Perform(f, op, old(Now().cell), amb)
      ensures forall g :: old(CellOk(g, Now().cell)) ==> Lawful(g, Now().History()) && EndsTogether()
    {
      hide BootstrapStep, HandoffOp, TerminalizeStep, OrchestrateOp, ExecuteNowOp, CancelStep, LawfulRun, CellOk,
        Lawful, Together, View;
      ghost var start := Now().cell;
      BeginSession();
      match op {
        case BootstrapAttempt(identifier) => p := BootstrapAttempt(f, identifier, amb);
        case HandOff(req) => p := HandOffToRuntime(f, req, amb);
        case Terminalize(settlement, executor) => p := TerminalizeExecution(f, settlement, executor, amb.now);
        case Orchestrate(req) => p := OrchestrateExecution(f, req, amb);
        case ExecuteDirectly => p := ExecuteDirectlyNow(f, amb);
        case Cancel(reason) => p := CancelCommand(reason, amb.now);
      }
      PerformTogether(f, op, start, amb);
    }

    // ---- the queued route ----

    /** May this command be enqueued under this identifier? */
    method CheckEnqueue(f: Family, enqueueId: string) returns (decision: EnqueueDecision)
      ensures decision == DecideEnqueue(f, View(), enqueueId)
    {
      if command.category != CategoryOf(f) { return Rejected(IncompatibleCategory); }
      if command.summary.enqueue.Some? {
        if command.summary.enqueue.value.identifier != enqueueId { return Rejected(OtherIdentifier); }
        return AlreadyEnqueued;
      }
      if command.status !in {CmdPending, CmdScheduled, CmdRetryWait} { return Rejected(NotEligible); }
      if attempt != null { return Rejected(AlreadyQueued); }
      if !command.payloadValid { return Rejected(PayloadInvalid); }
      return Eligible;
    }

    /** The commit that follows adding the message to the stream. */
    method CommitEnqueue(f: Family, enqueueId: string, messageId: nat, now: Time) returns (p: Progress)
      modifies Repr()
      ensures SameObjects() && After(p) == Commit(old(Now()), EnqueueStep(f, old(View()), enqueueId, messageId, now))
    {
      hide DecideEnqueue;
      var decision := CheckEnqueue(f, enqueueId);
      if !decision.Eligible? { return Refused(NotEligible); }
      ghost var before := Now().cell;
      command.status := CmdQueued;
      command.completedAt := None;
      command.summary := command.summary.(enqueue := Some(Enqueue(enqueueId, messageId, now, false)));
      past := past + [before];
      return Going;
    }

    /** The queued execute-now marker, on the command only. */
    method MarkQueuedNow(reusedEnqueue: bool) returns (p: Progress)
      modifies Repr()
      ensures SameObjects() && After(p) == Commit(old(Now()), QueuedNowStep(old(View()), reusedEnqueue))
    {
      if command.category != OnDemandReading { return Refused(IncompatibleCategory); }
      if command.summary.queuedNow.Some? {
        if command.summary.queuedNow.value.identifier != QueuedNowIdentifier(command.id) {
          return Refused(OtherIdentifier);
        }
        return Going;
      }
      var enqueue := command.summary.enqueue;
      if enqueue.None? || enqueue.value.identifier != QueuedNowIdentifier(command.id) {
        return Refused(OtherIdentifier);
      }
      ghost var before := Now().cell;
      command.summary := command.summary.(queuedNow := Some(
        QueuedNow(QueuedNowIdentifier(command.id), enqueue.value.messageId, reusedEnqueue, false)));
      past := past + [before];
      return Going;
    }

    /** The consumption record a worker writes after its acknowledgement. */
    method RecordConsumption(f: Family, worker: string, enqueueId: string, messageId: nat) returns (p: Progress)
      modifies Repr()
      ensures SameObjects()
        && After(p) == Commit(old(Now()), ConsumptionStep(f, old(View()), worker, enqueueId, messageId))
    {
      hide PutAll, ConsumptionOf;
      if command.category != CategoryOf(f) || attempt == null { return Refused(MissingAttempt); }
      ghost var before := Now().cell;
      Persist(ConsumptionArtifact(ConsumptionOf(f, View(), worker, enqueueId, messageId)));
      past := past + [before];
      return Going;
    }
  }

  /** The meter was called at most once; the three rows have ended together or not at all,
      at the same time and with statuses that name the same outcome. */
  ghost predicate Together(c: Cell) {
    var command, attempt, job := c.rows.command, c.rows.attempt, c.rows.job;
    && c.calls <= 1
    && (attempt.Some? && TerminalCommand(command.status) ==> attempt.value.endedAt.Some?)
    && (attempt.Some? && attempt.value.endedAt.Some? ==>
          && job.Some? && attempt.value.endedAt == command.completedAt == job.value.completedAt
          && TerminalCommand(command.status) && job.value.status != JobRunning
          && (command.status == CmdSucceeded <==> attempt.value.status == AttSucceeded)
          && (command.status == CmdSucceeded <==> job.value.status == JobSucceeded)
          && (command.status == CmdSucceeded <==> command.errorCode.None?))
  }

  lemma CellTogether(f: Family, c: Cell)
    requires CellOk(f, c)
    ensures Together(c)
  {
    hide Mirrored, CommandSide, Nested, SameRecord, NeverReused;
  }

  ghost predicate SoundTogether(f: Family, run: Run) {
    LawfulRun(f, run) && Together(run.cell)
  }

  /** What lawful commits mean for the stored rows, whatever the call answered. */
  lemma LawfulTogether(f: Family, run: Run)
    requires LawfulRun(f, run)
    ensures SoundTogether(f, run.(progress := Going))
  {
    hide CellOk, Lawful, Together;
    assert run.(progress := Going).History() == run.History();
    CellTogether(f, run.cell);
  }

  lemma PerformTogether(f: Family, op: Operation, c: Cell, amb: Ambient)
    ensures var run := Perform(f, op, c, amb);
            forall g, p ::
                CellOk(g, c) ==> Lawful(g, run.(progress := p).History()) && Together(run.(progress := p).cell)
  {
    hide CellOk, Lawful, Together, Perform, CellMoves;
    var run := Perform(f, op, c, amb);
    forall g, p: Progress | CellOk(g, c)
      ensures Lawful(g, run.(progress := p).History()) && Together(run.(progress := p).cell)
    {
      PerformLawful(f, g, op, c, amb);
      assert run.(progress := p).History() == run.History();
      LawfulOk(g, run.History(), |run.past|);
      CellTogether(g, run.cell);
    }
  }

  lemma SettleableRows(f: Family, r: Rows, executor: string)
    requires TerminalizationRefusal(f, r, executor).None?
    ensures r.attempt.Some? && Meta(r).execution.Some? && (f == ProfileCapture ==> Meta(r).terminalStatus.Some?)
    ensures VerdictOf(f, Meta(r)).Verdict?
  {
  }

  lemma AdapterStaysRefused(f: Family, run: Run, req: Request, amb: Ambient)
    requires run.progress.Refused?
    ensures AdapterCall(f, run, req, amb) == run
  {
  }

  lemma ChainEnds(run: Run, req: Request, amb: Ambient)
    ensures Chain(CHAIN, run, req, amb) == run
  {
  }

  /** After one service of the chain, the rest of the chain is what remains to run. */
  lemma ChainUnrolls(i: nat, run: Run, next: Run, req: Request, amb: Ambient)
    requires i < CHAIN && run.progress.Going? && next == Commit(run, ChainStep(i, run.cell.rows, req, amb))
    ensures Chain(i, run, req, amb) == Chain(i + 1, next, req, amb)
    ensures next.progress.Refused? ==> Chain(i, run, req, amb) == next
  {
    if next.progress.Refused? { RefusedStays(i + 1, next, req, amb); }
  }
}
