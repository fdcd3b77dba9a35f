/**
 The status readbacks: read-only views that search redundant artifact copies in a fixed
 priority order, and what they say about the phase of the command.
 */
module Readback {
  import opened Wrappers
  import opened CommandModel
  import opened RuntimeHandoff
  import opened CommandExecution
  import opened Invariants
  import opened Phases
  import opened Safety

  /** The attempt's copy of an artifact, or else the command's. */
  function Load<A>(own: Option<A>, shared: Option<A>): Option<A> {
    if own.Some? then own else shared
  }

  /** The first candidate that is there. */
  function FirstPresent<T>(candidates: seq<Option<T>>): Option<T> {
    if candidates == [] then None
    else if candidates[0].Some? then candidates[0]
    else FirstPresent(candidates[1..])
  }

  function NonEmpty(s: string): Option<string> {
    if s == "" then None else Some(s)
  }

  /** The record identifier each artifact carries, in the order the readback looks. */
  function RecordIdCandidates(m: Ledger, s: Ledger): seq<Option<string>> {
    var x := Load(m.execution, s.execution);
    var e := Load(m.executeNow, s.executeNow);
    var o := Load(m.orchestration, s.orchestration);
    var t := Load(m.terminalization, s.terminalization);
    [if x.Some? then NonEmpty(x.value.recordId) else None,
     if e.Some? then NonEmpty(e.value.recordId) else None,
     if o.Some? then NonEmpty(o.value.recordId) else None,
     if t.Some? then NonEmpty(t.value.recordId) else None]
  }

  /** The on-demand execution outcome, likewise. */
  function OutcomeCandidates(m: Ledger, s: Ledger): seq<Option<RuntimeOutcome>> {
    var x := Load(m.execution, s.execution);
    var e := Load(m.executeNow, s.executeNow);
    var t := Load(m.terminalization, s.terminalization);
    [if x.Some? then Some(x.value.outcome) else None,
     if e.Some? then e.value.outcome else None,
     if t.Some? then Some(t.value.outcome) else None]
  }

  /** The profile-capture terminal status category, likewise. */
  function CategoryCandidates(m: Ledger, s: Ledger): seq<Option<TerminalCategory>> {
    var x := Load(m.terminalStatus, s.terminalStatus);
    var e := Load(m.executeNow, s.executeNow);
    var t := Load(m.terminalization, s.terminalization);
    [if x.Some? then Some(x.value.category) else None,
     if e.Some? then e.value.category else None,
     if t.Some? then t.value.category else None]
  }

  datatype Status = Status(
    commandStatus: CommandStatus, attemptId: Option<string>,
    recordId: Option<string>, outcome: Option<RuntimeOutcome>, category: Option<TerminalCategory>,
    orchestrationPresent: bool, terminalizationPresent: bool, executeNowPresent: bool,
    reusedExecuteNow: Option<bool>, reusedOrchestration: Option<bool>, reusedTerminalization: Option<bool>)

  /** The status readback of one family; `None` stands for the category refusal. */
  function StatusOf(f: Family, r: Rows): Option<Status> {
    var m, s := Meta(r), r.command.summary;
    var e, o, t := Load(m.executeNow, s.executeNow), Load(m.orchestration, s.orchestration),
        Load(m.terminalization, s.terminalization);
    if r.command.category != CategoryOf(f) then None
    else Some(Status(
      r.command.status, if r.attempt.Some? then Some(r.attempt.value.id) else None,
      FirstPresent(RecordIdCandidates(m, s)),
      if f == OnDemandRead then FirstPresent(OutcomeCandidates(m, s)) else None,
      if f == ProfileCapture then FirstPresent(CategoryCandidates(m, s)) else None,
      o.Some?, t.Some?, e.Some?,
      if e.Some? then Some(e.value.reused) else None,
      if o.Some? then Some(o.value.reused) else None,
      if t.Some? then Some(t.value.reused) else None))
  }

  datatype QueuedStatus = QueuedStatus(
    messageId: Option<nat>, recordId: Option<string>, outcome: Option<RuntimeOutcome>,
    workerConsumed: bool, enqueuePresent: bool, queuedNowPresent: bool,
    orchestrationPresent: bool, terminalizationPresent: bool,
    reusedQueuedNow: Option<bool>, reusedEnqueue: Option<bool>)

  /** The queued status readback of an on-demand-read command. */
  function QueuedStatusOf(r: Rows): Option<QueuedStatus> {
    var m, s := Meta(r), r.command.summary;
    var n, q, c := Load(m.queuedNow, s.queuedNow), Load(m.enqueue, s.enqueue), Load(m.consumption, s.consumption);
    if r.command.category != OnDemandReading then None
    else Some(QueuedStatus(
      if q.Some? then Some(q.value.messageId) else None,
      FirstPresent(RecordIdCandidates(m, s)), FirstPresent(OutcomeCandidates(m, s)),
      c.Some?, q.Some?, n.Some?,
      Load(m.orchestration, s.orchestration).Some?, Load(m.terminalization, s.terminalization).Some?,
      if n.Some? then Some(n.value.reused) else None,
      if q.Some? then Some(q.value.reused) else None))
  }

  // ---- the priority order does not matter ----

  /** When all candidates that are there agree, the search returns any one of them. */
  lemma {:induction false} FirstPresentAgrees<T(!new)>(candidates: seq<Option<T>>, i: nat, v: Option<T>)
    requires i < |candidates| && candidates[i].Some?
    requires AllAgree(candidates, v)
    ensures FirstPresent(candidates) == candidates[i] == v
  {
    if candidates[0].None? {
      FirstPresentAgrees(candidates[1..], i - 1, v);
    }
  }

  ghost predicate AllAgree<T(!new)>(candidates: seq<Option<T>>, v: Option<T>) {
    forall i :: 0 <= i < |candidates| && candidates[i].Some? ==> candidates[i] == v
  }

  lemma {:induction false} FirstPresentNone<T(!new)>(candidates: seq<Option<T>>)
    requires AllAgree(candidates, None)
    ensures FirstPresent(candidates).None?
  {
    if candidates != [] {
      assert candidates[0].None?;
      FirstPresentNone(candidates[1..]);
    }
  }

  /** The copies on the attempt and on the command name the same candidates. */
  lemma CopiesAgree(f: Family, r: Rows)
    requires FamilyInv(f, r)
    ensures var m, s := Meta(r), r.command.summary;
            && RecordIdCandidates(m, s) == RecordIdCandidates(m, m) == RecordIdCandidates(s, s)
            && OutcomeCandidates(m, s) == OutcomeCandidates(m, m) == OutcomeCandidates(s, s)
            && CategoryCandidates(m, s) == CategoryCandidates(m, m) == CategoryCandidates(s, s)
  {
  }

  /** What the recorded execution says the readback should show. */
  ghost function Shown(f: Family, m: Ledger): (Option<string>, Option<RuntimeOutcome>, Option<TerminalCategory>) {
    if m.execution.None? then (None, None, None)
    else (Some(m.execution.value.recordId),
          if f == OnDemandRead then Some(m.execution.value.outcome) else None,
          if f == ProfileCapture then CategoryIn(m) else None)
  }

  lemma CandidatesShow(f: Family, ids: Ids, m: Ledger)
    requires Chained(f, m) && (m.execution.Some? ==> SameRecord(f, ids, m))
    ensures AllAgree(RecordIdCandidates(m, m), Shown(f, m).0)
    ensures f == OnDemandRead ==> AllAgree(OutcomeCandidates(m, m), Shown(f, m).1)
    ensures f == ProfileCapture ==> AllAgree(CategoryCandidates(m, m), Shown(f, m).2)
    ensures Shown(f, m).0.Some? ==>
              RecordIdCandidates(m, m)[0].Some? && OutcomeCandidates(m, m)[0].Some?
              && (f == ProfileCapture ==> CategoryCandidates(m, m)[0].Some?)
  {
  }

  /** Without an attempt there are no candidates at all. */
  lemma NothingShown(f: Family)
    ensures AllAgree(RecordIdCandidates(EMPTY_LEDGER, EMPTY_LEDGER), Shown(f, EMPTY_LEDGER).0)
    ensures AllAgree(OutcomeCandidates(EMPTY_LEDGER, EMPTY_LEDGER), Shown(f, EMPTY_LEDGER).1)
    ensures AllAgree(CategoryCandidates(EMPTY_LEDGER, EMPTY_LEDGER), Shown(f, EMPTY_LEDGER).2)
  {
  }

  lemma RowsShow(f: Family, r: Rows)
    requires FamilyInv(f, r)
    ensures var m := Meta(r);
            && AllAgree(RecordIdCandidates(m, m), Shown(f, m).0)
            && (f == OnDemandRead ==> AllAgree(OutcomeCandidates(m, m), Shown(f, m).1))
            && (f == ProfileCapture ==> AllAgree(CategoryCandidates(m, m), Shown(f, m).2))
            && (Shown(f, m).0.Some? ==>
                  RecordIdCandidates(m, m)[0].Some? && OutcomeCandidates(m, m)[0].Some?
                  && (f == ProfileCapture ==> CategoryCandidates(m, m)[0].Some?))
  {
    hide AllAgree, Chained, SameRecord, OwnedBy, SameSession, Statuses, Shown;
    if r.attempt.None? {
      NothingShown(f);
      assert Shown(f, Meta(r)).0.None? by { NothingShownIsNone(f); }
    } else {
      CandidatesShow(f, IdsOf(r), Meta(r));
    }
  }

  lemma NothingShownIsNone(f: Family)
    ensures Shown(f, EMPTY_LEDGER) == (None, None, None)
  {
  }

  lemma FirstPresentShows<T(!new)>(candidates: seq<Option<T>>, v: Option<T>)
    requires AllAgree(candidates, v) && |candidates| > 0 && (v.Some? ==> candidates[0].Some?)
    ensures FirstPresent(candidates) == v
  {
    if v.Some? { FirstPresentAgrees(candidates, 0, v); } else { FirstPresentNone(candidates); }
  }

  /** The readback shows exactly what the execution recorded. */
  lemma ReadbackShows(f: Family, r: Rows)
    requires FamilyInv(f, r)
    ensures StatusOf(f, r).Some?
      && var u := StatusOf(f, r).value; (u.recordId, u.outcome, u.category) == Shown(f, Meta(r))
  {
    hide FamilyInv, AllAgree;
    InvCategory(f, r);
    RowsShow(f, r);
    CopiesAgree(f, r);
    var m := Meta(r);
    FirstPresentShows(RecordIdCandidates(m, m), Shown(f, Meta(r)).0);
    if f == OnDemandRead {
      FirstPresentShows(OutcomeCandidates(m, m), Shown(f, Meta(r)).1);
    } else {
      FirstPresentShows(CategoryCandidates(m, m), Shown(f, Meta(r)).2);
    }
  }

  /** Whatever single artifact carries the record identifier, in whichever of the two
      copies, the readback returns that identifier; outcome and category likewise. */
  lemma SourceIndependent(f: Family, r: Rows, l: Ledger, i: nat)
    requires FamilyInv(f, r) && r.attempt.Some? && (l == Meta(r) || l == r.command.summary)
    ensures i < 4 && RecordIdCandidates(l, l)[i].Some? ==> StatusOf(f, r).value.recordId == RecordIdCandidates(l, l)[i]
    ensures f == OnDemandRead && i < 3 && OutcomeCandidates(l, l)[i].Some? ==>
              StatusOf(f, r).value.outcome == OutcomeCandidates(l, l)[i]
    ensures f == ProfileCapture && i < 3 && CategoryCandidates(l, l)[i].Some? ==>
              StatusOf(f, r).value.category == CategoryCandidates(l, l)[i]
  {
    hide FamilyInv;
    RowsShow(f, r);
    CopiesAgree(f, r);
    ReadbackShows(f, r);
    hide StatusOf;
  }

  // ---- the readback and the phase ----

  ghost function EffectIn(p: Phase): Option<Effect> {
    if p.Executed? || p.Handed? || p.Settled? || p.Sealed? then Some(p.effect) else None
  }

  lemma PresenceTracksPhase(f: Family, r: Rows)
    requires FamilyInv(f, r)
    ensures var p, m := Abs(r), Meta(r);
            && EffectIn(p) == (if m.execution.Some? then Some(EffectOf(m.execution.value)) else None)
            && (m.terminalization.Some? <==> p.Settled? || p.Sealed?) && (m.orchestration.Some? <==> p.Sealed?)
            && (m.executeNow.Some? ==> p.Sealed?) && (m.consumption.Some? ==> p.Sealed?)
  {
  }

  lemma LoadsFromEither(f: Family, r: Rows)
    requires FamilyInv(f, r)
    ensures var m, s := Meta(r), r.command.summary;
            && Load(m.executeNow, s.executeNow) == m.executeNow
            && Load(m.orchestration, s.orchestration) == m.orchestration
            && Load(m.terminalization, s.terminalization) == m.terminalization
            && Load(m.consumption, s.consumption) == m.consumption
            && Load(m.enqueue, s.enqueue) == s.enqueue && Load(m.queuedNow, s.queuedNow) == s.queuedNow
            && NeverReused(m) && CommandSide(s)
  {
  }

  /** A status readback is a view of the phase: record and outcome appear with the adapter
      result, the presence flags with settling and sealing, and no reuse flag is ever true. */
  lemma StatusTracksPhase(f: Family, r: Rows)
    requires FamilyInv(f, r)
    ensures StatusOf(f, r).Some?
    ensures var u, p := StatusOf(f, r).value, Abs(r);
            && u.commandStatus == r.command.status
            && u.recordId == (if EffectIn(p).Some? then Some(EffectIn(p).value.recordId) else None)
            && (f == OnDemandRead ==> u.outcome == if EffectIn(p).Some? then Some(EffectIn(p).value.outcome) else None)
            && (f == ProfileCapture ==> u.outcome.None? && u.category == CategoryIn(Meta(r)))
            && (u.terminalizationPresent <==> p.Settled? || p.Sealed?) && (u.orchestrationPresent <==> p.Sealed?)
            && (u.executeNowPresent ==> p.Sealed?)
            && u.reusedExecuteNow != Some(true) && u.reusedOrchestration != Some(true)
            && u.reusedTerminalization != Some(true)
  {
    hide FamilyInv, Abs;
    ReadbackShows(f, r);
    PresenceTracksPhase(f, r);
    LoadsFromEither(f, r);
  }

  /** The queued readback agrees with it, and a consumed command is sealed with a result. */
  lemma QueuedStatusTracksPhase(r: Rows)
    requires FamilyInv(OnDemandRead, r)
    ensures QueuedStatusOf(r).Some?
    ensures var u, v, p := QueuedStatusOf(r).value, StatusOf(OnDemandRead, r).value, Abs(r);
            && u.recordId == v.recordId && u.outcome == v.outcome
            && u.orchestrationPresent == v.orchestrationPresent && u.terminalizationPresent == v.terminalizationPresent
            && (u.workerConsumed ==> p.Sealed? && u.recordId.Some? && u.outcome.Some? && u.enqueuePresent
                                     && u.orchestrationPresent && u.terminalizationPresent)
            && (u.queuedNowPresent ==> u.enqueuePresent)
            && u.reusedQueuedNow != Some(true) && u.reusedEnqueue != Some(true)
  {
    hide FamilyInv, Abs;
    StatusTracksPhase(OnDemandRead, r);
    ReadbackShows(OnDemandRead, r);
    PresenceTracksPhase(OnDemandRead, r);
    LoadsFromEither(OnDemandRead, r);
    ConsumedHasEnqueue(r);
  }

  lemma ConsumedHasEnqueue(r: Rows)
    requires FamilyInv(OnDemandRead, r)
    ensures r.command.category == OnDemandReading
    ensures Meta(r).consumption.Some? ==> r.command.summary.enqueue.Some?
  {
  }

  /** The command's copies say whether an artifact is there. */
  lemma PresentInSummary(f: Family, r: Rows)
    requires FamilyInv(f, r)
    ensures var m, s := Meta(r), r.command.summary;
            && s.executeNow == m.executeNow && s.orchestration == m.orchestration
            && s.terminalization == m.terminalization && s.consumption == m.consumption
    ensures f == ProfileCapture ==> (Meta(r).terminalStatus.Some? <==> Meta(r).execution.Some?)
  {
  }

  function NotReused(present: bool): Option<bool> { if present then Some(false) else None }

  /** The whole answer of the status readback, read off the command's own copies and the stored
      result. */
  lemma StatusExactly(f: Family, r: Rows)
    requires FamilyInv(f, r)
    ensures var s, x, t := r.command.summary, Meta(r).execution, Meta(r).terminalStatus;
            StatusOf(f, r) == Some(Status(
              commandStatus := r.command.status,
              attemptId := if r.attempt.Some? then Some(r.attempt.value.id) else None,
              recordId := if x.Some? then Some(x.value.recordId) else None,
              outcome := if f == OnDemandRead && x.Some? then Some(x.value.outcome) else None,
              category := if f == ProfileCapture && t.Some? then Some(t.value.category) else None,
              orchestrationPresent := s.orchestration.Some?,
              terminalizationPresent := s.terminalization.Some?,
              executeNowPresent := s.executeNow.Some?,
              reusedExecuteNow := NotReused(s.executeNow.Some?),
              reusedOrchestration := NotReused(s.orchestration.Some?),
              reusedTerminalization := NotReused(s.terminalization.Some?)))
  {
    hide FamilyInv;
    InvCategory(f, r);
    ReadbackShows(f, r);
    LoadsFromEither(f, r);
    PresentInSummary(f, r);
  }

  /** The whole answer of the queued readback. A command reads as consumed exactly when its
      consumption record is there, and shows the message of its enqueue. */
  lemma QueuedStatusExactly(r: Rows)
    requires FamilyInv(OnDemandRead, r)
    ensures var s, x := r.command.summary, Meta(r).execution;
            QueuedStatusOf(r) == Some(QueuedStatus(
              messageId := if s.enqueue.Some? then Some(s.enqueue.value.messageId) else None,
              recordId := if x.Some? then Some(x.value.recordId) else None,
              outcome := if x.Some? then Some(x.value.outcome) else None,
              workerConsumed := s.consumption.Some?,
              enqueuePresent := s.enqueue.Some?,
              queuedNowPresent := s.queuedNow.Some?,
              orchestrationPresent := s.orchestration.Some?,
              terminalizationPresent := s.terminalization.Some?,
              reusedQueuedNow := NotReused(s.queuedNow.Some?),
              reusedEnqueue := NotReused(s.enqueue.Some?)))
  {
    hide FamilyInv;
    InvCategory(OnDemandRead, r);
    ReadbackShows(OnDemandRead, r);
    LoadsFromEither(OnDemandRead, r);
    PresentInSummary(OnDemandRead, r);
  }

  /** What a readback has once shown it shows in every later state. */
  lemma StatusNeverRegresses(f: Family, r: Rows, q: Rows)
    requires Moves(f, r, q)
    ensures var u, v := StatusOf(f, r), StatusOf(f, q);
            && u.Some? && v.Some?
            && (u.value.recordId.Some? ==> v.value.recordId == u.value.recordId)
            && (u.value.outcome.Some? ==> v.value.outcome == u.value.outcome)
            && (u.value.category.Some? ==> v.value.category == u.value.category)
            && (u.value.terminalizationPresent ==>
                  v.value.terminalizationPresent && v.value.commandStatus == u.value.commandStatus)
            && (u.value.orchestrationPresent ==> v.value.orchestrationPresent)
  {
    hide FamilyInv, StatusOf, Next, Abs;
    StatusTracksPhase(f, r);
    StatusTracksPhase(f, q);
    ReadbackShows(f, r);
    ReadbackShows(f, q);
    PresenceTracksPhase(f, r);
    PresenceTracksPhase(f, q);
  }
}
