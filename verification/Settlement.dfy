/**
 What a settled command says: statuses, error code and message of the three rows, spelled out
 for every result the adapter can report.
 */
module Settlement {
  import opened Wrappers
  import opened CommandModel
  import opened RuntimeHandoff
  import opened CommandExecution
  import opened Invariants
  import opened Phases
  import opened Safety
  import opened Recovery

  /** The three rows have ended at this time, succeeded and without an error. */
  ghost predicate EndedWell(r: Rows, at: Time) {
    && r.attempt.Some? && r.job.Some?
    && r.command.status == CmdSucceeded && r.attempt.value.status == AttSucceeded && r.job.value.status == JobSucceeded
    && r.command.completedAt == r.attempt.value.endedAt == r.job.value.completedAt == Some(at)
    && r.command.errorCode == r.attempt.value.errorCode == r.job.value.errorCode == None
    && r.command.errorMessage == r.attempt.value.errorMessage == r.job.value.errorMessage == None
  }

  /** They have ended at this time, timed out or failed, with this code and message. */
  ghost predicate EndedBadly(r: Rows, at: Time, timedOut: bool, code: string, message: string) {
    && r.attempt.Some? && r.job.Some?
    && r.command.status == (if timedOut then CmdTimedOut else CmdFailed)
    && r.attempt.value.status == (if timedOut then AttTimedOut else AttFailed)
    && r.job.value.status == (if timedOut then JobTimedOut else JobFailed)
    && r.command.completedAt == r.attempt.value.endedAt == r.job.value.completedAt == Some(at)
    && r.command.errorCode == r.attempt.value.errorCode == r.job.value.errorCode == Some(code)
    && r.command.errorMessage == r.attempt.value.errorMessage == r.job.value.errorMessage == Some(message)
  }

  /** The first text that says something, or else the last one. */
  ghost predicate SaysFirst(message: string, texts: seq<string>)
    requires texts != []
  {
    exists i :: 0 <= i < |texts| && message == texts[i] && (i < |texts| - 1 ==> message != "")
                && forall j :: 0 <= j < i ==> texts[j] == ""
  }

  ghost function TextOf(s: Option<string>): string { if s.Some? then s.value else "" }

  /** How a read that reported this ends. */
  ghost predicate ReadEnds(r: Rows, at: Time, outcome: RuntimeOutcome, accepted: bool, completed: bool,
      detail: Option<string>, summary: string) {
    if outcome == OutSucceeded && accepted && completed then EndedWell(r, at)
    else
      exists message :: SaysFirst(message, [TextOf(detail), summary]) &&
        match outcome
        case OutSucceeded => EndedBadly(r, at, false, "ON_DEMAND_READ_SUCCEEDED", message)
        case OutFailed => EndedBadly(r, at, false, "ON_DEMAND_READ_FAILED", message)
        case OutTimedOut => EndedBadly(r, at, true, "ON_DEMAND_READ_RUNTIME_TIMED_OUT", message)
        case OutCancelled => EndedBadly(r, at, false, "ON_DEMAND_READ_CANCELLED", message)
        case OutPartial => EndedBadly(r, at, false, "ON_DEMAND_READ_PARTIAL", message)
  }

  /** How a capture that reported this ends. */
  ghost predicate CaptureEnds(r: Rows, at: Time, outcome: RuntimeOutcome, category: TerminalCategory,
      detail: Option<string>, statusSummary: string, summary: string) {
    if outcome == OutSucceeded then category == Acknowledged && EndedWell(r, at)
    else
      exists message :: SaysFirst(message, [TextOf(detail), statusSummary, summary]) &&
        if outcome == OutTimedOut then EndedBadly(r, at, true, "PROFILE_CAPTURE_RUNTIME_TIMED_OUT", message)
        else
          match category
          case Acknowledged => EndedBadly(r, at, false, "PROFILE_CAPTURE_ACKNOWLEDGED", message)
          case RejectedByMeter => EndedBadly(r, at, false, "PROFILE_CAPTURE_REJECTED", message)
          case Unavailable => EndedBadly(r, at, false, "PROFILE_CAPTURE_UNAVAILABLE", message)
          case UnusableResponse => EndedBadly(r, at, false, "PROFILE_CAPTURE_UNUSABLE_RESPONSE", message)
          case BlockedPreInvocation => EndedBadly(r, at, false, "PROFILE_CAPTURE_BLOCKED_PRE_INVOCATION", message)
          case BlockedMidPipeline => EndedBadly(r, at, false, "PROFILE_CAPTURE_BLOCKED_MID_PIPELINE", message)
  }

  lemma SaysOrElse(detail: Option<string>, fallback: string)
    ensures SaysFirst(OrElse(detail, fallback), [TextOf(detail), fallback])
  {
    var texts := [TextOf(detail), fallback];
    if TextOf(detail) != "" { assert texts[0] == OrElse(detail, fallback); } else { assert texts[1] == fallback; }
  }

  lemma SaysOrElseOrElse(detail: Option<string>, second: string, fallback: string)
    ensures SaysFirst(OrElse(detail, OrElse(Some(second), fallback)), [TextOf(detail), second, fallback])
  {
    var texts := [TextOf(detail), second, fallback];
    if TextOf(detail) != "" {
      assert texts[0] == TextOf(detail);
    } else if second != "" {
      assert texts[1] == second;
    } else {
      assert texts[2] == fallback;
    }
  }

  lemma SettledRows(f: Family, r: Rows)
    requires FamilyInv(f, r) && Meta(r).terminalization.Some?
    ensures Meta(r).execution.Some? && (f == ProfileCapture ==> Meta(r).terminalStatus.Some?)
    ensures var v := VerdictOf(f, Meta(r));
            && v.Verdict? && AllSettled(r, v) && SameEnd(r)
            && r.attempt.value.endedAt == Some(Meta(r).terminalization.value.at)
  {
  }

  /** A settled read reads as its stored result says. */
  lemma ReadSettlement(r: Rows)
    requires FamilyInv(OnDemandRead, r) && Meta(r).terminalization.Some?
    ensures Meta(r).execution.Some?
    ensures var x := Meta(r).execution.value;
            ReadEnds(r, Meta(r).terminalization.value.at, x.outcome, x.accepted, x.billingCompleted, x.errorDetail,
                     x.summary)
  {
    hide FamilyInv, SaysFirst;
    SettledRows(OnDemandRead, r);
    var x := Meta(r).execution.value;
    SaysOrElse(x.errorDetail, x.summary);
  }

  /** So does a settled capture; one that succeeded was acknowledged. */
  lemma CaptureSettlement(r: Rows)
    requires FamilyInv(ProfileCapture, r) && Meta(r).terminalization.Some?
    ensures Meta(r).execution.Some? && Meta(r).terminalStatus.Some?
    ensures var x, t := Meta(r).execution.value, Meta(r).terminalStatus.value;
            CaptureEnds(r, Meta(r).terminalization.value.at, x.outcome, t.category, x.errorDetail, t.summary, x.summary)
  {
    hide FamilyInv, SaysFirst;
    SettledRows(ProfileCapture, r);
    var x, t := Meta(r).execution.value, Meta(r).terminalStatus.value;
    SaysOrElseOrElse(x.errorDetail, t.summary, x.summary);
  }
}
