/**
 What becomes of a case's timers in a run: a closing timer cannot have been used up, and a target timer
 that was has raised its alert.
 */
module CaseTimers {
  import opened Wrappers
  import opened Clock
  import opened Cases
  import opened CaseRuns

  /** The clock as an event reads it; `now` for one that reads none. */
  function Reading(e: Event, now: Time): Time {
    match e
    case Look(_, at) => at
    case Move(_, _, at, _) => at
    case Respond(_, _, at) => at
    case Fire(_, _, at, _) => at
    case _ => now
  }

  /** One clock for all transactions, none later than `now`, and no timer fired before it is due. */
  predicate OneClock(es: seq<Event>, now: Time) {
    es == [] || (
      var e := es[|es| - 1];
      (e.Fire? ==> e.due <= e.at) && Reading(e, now) <= now && OneClock(es[..|es| - 1], Reading(e, now)))
  }

  ghost predicate Fires(c: Cell, e: Event, id: Id, due: Time) {
    e.Fire? && e.id == id && e.due == due && id in c.w.files && RowFree(c, id)
  }

  /** Whether the timer put for `due` has been processed. */
  ghost predicate Fired(es: seq<Event>, id: Id, due: Time) {
    es != [] && (
      var e, rest := es[|es| - 1], es[..|es| - 1];
      Fired(rest, id, due) || Fires(Run(EMPTY, rest), e, id, due))
  }

  lemma {:induction false} FiredIsPast(es: seq<Event>, now: Time, id: Id, due: Time)
    requires OneClock(es, now) && Fired(es, id, due)
    ensures due <= now
  {
    var e, rest := es[|es| - 1], es[..|es| - 1];
    if Fired(rest, id, due) { FiredIsPast(rest, Reading(e, now), id, due); }
  }

  /** What a step can do to a resolved row's deadline: set a new one in the future, or leave it, but not past a firing that is due. */
  lemma DeadlineMoves(c: Cell, e: Event, id: Id)
    requires Inv(c) && id in Step(c, e).w.files && Step(c, e).w.files[id].row.status.Resolved?
    ensures var b := Step(c, e).w.files[id].row;
      || ((e.Move? || e.Respond?) && b.closeAt == Some(e.at + b.policy.closeAfter) && ValidPolicy(b.policy))
      || (&& id in c.w.files && c.w.files[id].row.status.Resolved? && b.closeAt == c.w.files[id].row.closeAt
          && (e.Fire? && e.id == id && RowFree(c, id) ==> b.closeAt.Some? && e.at < b.closeAt.value))
  {
    StepKeeps(c, e);
    assert RowInv(Step(c, e).w.files[id].row);
    if id in c.w.files { assert RowInv(c.w.files[id].row); }
    ResolvedRows(c, e, id);
  }

  /** A commit neither resolves a case nor moves a resolved one's deadline. */
  lemma CommitSparesResolved(c: Cell, newId: Id, policy: Policy, actor: Id, id: Id)
    requires var c' := CommitStep(c, newId, policy, actor); id in c'.w.files && c'.w.files[id].row.status.Resolved?
    requires c.holder.Some? && c.holder.value.command.Intake? ==> IsIntake(c.holder.value.command.initial)
    ensures var c' := CommitStep(c, newId, policy, actor);
      && id in c.w.files && c.w.files[id].row.status.Resolved? && c'.w.files[id].row.closeAt == c.w.files[id].row.closeAt
  {
  }

  lemma RowLevelMovesDeadline(c: Cell, e: Event, id: Id)
    requires (e.Move? || e.Respond? || e.Fire?) && id in c.w.files && RowInv(c.w.files[id].row)
    requires id in Step(c, e).w.files && Step(c, e).w.files[id].row.status.Resolved?
    ensures var b := Step(c, e).w.files[id].row;
      || ((e.Move? || e.Respond?) && b.closeAt == Some(e.at + b.policy.closeAfter))
      || (&& c.w.files[id].row.status.Resolved? && b.closeAt == c.w.files[id].row.closeAt
          && (e.Fire? && e.id == id && RowFree(c, id) ==> b.closeAt.Some? && e.at < b.closeAt.value))
  {
  }

  lemma ResolvedRows(c: Cell, e: Event, id: Id)
    requires id in Step(c, e).w.files && Step(c, e).w.files[id].row.status.Resolved?
    requires id in c.w.files ==> RowInv(c.w.files[id].row)
    requires c.holder.Some? && c.holder.value.command.Intake? ==> IsIntake(c.holder.value.command.initial)
    ensures var b := Step(c, e).w.files[id].row;
      || ((e.Move? || e.Respond?) && b.closeAt == Some(e.at + b.policy.closeAfter))
      || (&& id in c.w.files && c.w.files[id].row.status.Resolved? && b.closeAt == c.w.files[id].row.closeAt
          && (e.Fire? && e.id == id && RowFree(c, id) ==> b.closeAt.Some? && e.at < b.closeAt.value))
  {
    if e.Commit? { CommitSparesResolved(c, e.newId, e.policy, e.actor, id); }
    else if e.Move? || e.Respond? || e.Fire? { RowLevelMovesDeadline(c, e, id); }
  }

  lemma NewDeadlineNotFired(es: seq<Event>, now: Time, id: Id, window: int)
    requires es != [] && OneClock(es, now) && (es[|es| - 1].Move? || es[|es| - 1].Respond?) && window > 0
    ensures !Fired(es, id, es[|es| - 1].at + window)
  {
    var e, rest := es[|es| - 1], es[..|es| - 1];
    if Fired(rest, id, e.at + window) { FiredIsPast(rest, e.at, id, e.at + window); }
  }

  lemma OldDeadlineNotFired(es: seq<Event>, now: Time, id: Id, deadline: Time)
    requires es != [] && OneClock(es, now) && !Fired(es[..|es| - 1], id, deadline)
    requires var e := es[|es| - 1]; e.Fire? && e.id == id && RowFree(Run(EMPTY, es[..|es| - 1]), id) ==> e.at < deadline
    ensures !Fired(es, id, deadline)
  {
  }

  lemma {:induction false} NotYetFired(es: seq<Event>, now: Time, id: Id)
    requires OneClock(es, now) && id in Run(EMPTY, es).w.files && Run(EMPTY, es).w.files[id].row.status.Resolved?
    ensures var deadline := Run(EMPTY, es).w.files[id].row.closeAt; deadline.Some? && !Fired(es, id, deadline.value)
  {
    if es != [] {
      var e, rest := es[|es| - 1], es[..|es| - 1];
      RunKeeps(EMPTY, rest);
      DeadlineMoves(Run(EMPTY, rest), e, id);
      var row := Step(Run(EMPTY, rest), e).w.files[id].row;
      if (e.Move? || e.Respond?) && row.closeAt == Some(e.at + row.policy.closeAfter) && row.policy.closeAfter > 0 {
        NewDeadlineNotFired(es, now, id, row.policy.closeAfter);
      } else {
        NotYetFired(rest, Reading(e, now), id);
        OldDeadlineNotFired(es, now, id, row.closeAt.value);
      }
    }
  }

  /**
   With one clock, a resolved case's closing timer is not only in the outbox but still to fire: it
   cannot have been used up, neither by an earlier deadline at the same instant nor by a firing that did nothing.
   */
  lemma CloseTimerIsStillToCome(es: seq<Event>, now: Time, id: Id)
    requires OneClock(es, now) && id in Run(EMPTY, es).w.files && Run(EMPTY, es).w.files[id].row.status.Resolved?
    ensures var c := Run(EMPTY, es);
      var deadline := c.w.files[id].row.closeAt;
      deadline.Some? && (id, deadline.value) in c.w.timers && !Fired(es, id, deadline.value)
  {
    NotYetFired(es, now, id);
    TimersExist(Run(EMPTY, es), id);
  }

  /** While a holder keeps a row locked, no timer of it fires. */
  lemma {:induction false} LockedRowFiresNothing(es: seq<Event>, now: Time, id: Id, due: Time)
    requires OneClock(es, now) && Fired(es, id, due) && !RowFree(Run(EMPTY, es), id)
    ensures Run(EMPTY, es).holder.value.stage.Looked? && due <= Run(EMPTY, es).holder.value.stage.at
  {
    var e, rest := es[|es| - 1], es[..|es| - 1];
    if RowFree(Run(EMPTY, rest), id) {
      FiredIsPast(rest, Reading(e, now), id, due);
    } else {
      LockedRowFiresNothing(rest, Reading(e, now), id, due);
    }
  }

  /** The case still waits for its response. */
  predicate Awaited(row: Case) {
    !IsTerminal(row.status) && !row.status.Resolved?
  }

  /** What a processed target timer has left behind. */
  predicate Alerted(row: Case, due: Time) {
    && (due == row.approachingAt && row.policy.approach > 0 ==> row.target != OnTrack)
    && (due == row.targetAt ==> row.target == Overdue)
  }

  /** A timer processed once, or again later, leaves its alert raised. */
  lemma FiringAlerts(f: File, at: Time, actor: Id, due: Time)
    requires Awaited(f.row) && due <= at && f.row.approachingAt <= f.row.targetAt
    ensures Alerted(TimedFile(f, at, actor).row, due) && Awaited(TimedFile(f, at, actor).row)
  {
  }

  /** Any other step leaves the alert, or starts the response time anew from its own clock reading. */
  lemma AlertSurvives(a: Case, b: Case, at: Time, due: Time)
    requires RowStep(a, b, at, false) && Awaited(b) && ValidPolicy(b.policy)
    requires Awaited(a) ==> Alerted(a, due)
    ensures Alerted(b, due) || (a.status.Resolved? && b.status.Reopened? && due > at)
  {
  }

  lemma {:induction false} FiredHasFile(es: seq<Event>, id: Id, due: Time)
    requires Fired(es, id, due)
    ensures id in Run(EMPTY, es).w.files
  {
    var e, rest := es[|es| - 1], es[..|es| - 1];
    if Fired(rest, id, due) { FiredHasFile(rest, id, due); }
    RunKeeps(EMPTY, rest);
    StepEvolves(Run(EMPTY, rest), e);
  }

  /** Only the holder of its locked row reopens a case, or a transaction of its own. */
  lemma ReopeningLocks(c: Cell, e: Event, id: Id)
    requires id in c.w.files && c.w.files[id].row.status.Resolved?
    requires id in Step(c, e).w.files && Step(c, e).w.files[id].row.status.Reopened?
    ensures TimeOf(c, e).Some? && (e.Commit? ==> !RowFree(c, id))
  {
  }

  /** A case reopens only after every timer of it that was processed before. */
  lemma ReopenedAfterFiring(es: seq<Event>, now: Time, id: Id, due: Time)
    requires es != [] && OneClock(es, now) && Fired(es[..|es| - 1], id, due)
    requires id in Run(EMPTY, es[..|es| - 1]).w.files && id in Run(EMPTY, es).w.files
    requires Run(EMPTY, es[..|es| - 1]).w.files[id].row.status.Resolved? && Run(EMPTY, es).w.files[id].row.status.Reopened?
    ensures var at := TimeOf(Run(EMPTY, es[..|es| - 1]), es[|es| - 1]); at.Some? && due <= at.value
  {
    var e, rest := es[|es| - 1], es[..|es| - 1];
    ReopeningLocks(Run(EMPTY, rest), e, id);
    if e.Commit? { LockedRowFiresNothing(rest, Reading(e, now), id, due); } else { FiredIsPast(rest, e.at, id, due); }
  }

  /** The last step, when it fires no timer of this case. */
  lemma OtherStepKeepsAlert(es: seq<Event>, now: Time, id: Id, due: Time)
    requires es != [] && OneClock(es, now) && Fired(es[..|es| - 1], id, due)
    requires var e := es[|es| - 1]; !(e.Fire? && e.id == id && RowFree(Run(EMPTY, es[..|es| - 1]), id))
    requires id in Run(EMPTY, es[..|es| - 1]).w.files && id in Run(EMPTY, es).w.files
    requires var a := Run(EMPTY, es[..|es| - 1]).w.files[id].row; Awaited(a) ==> Alerted(a, due)
    requires Awaited(Run(EMPTY, es).w.files[id].row)
    ensures Alerted(Run(EMPTY, es).w.files[id].row, due)
  {
    var e, rest := es[|es| - 1], es[..|es| - 1];
    var c := Run(EMPTY, rest);
    RunKeeps(EMPTY, rest);
    StepEvolves(c, e);
    var a, b := c.w.files[id].row, Step(c, e).w.files[id].row;
    if !e.Fire? && TimeOf(c, e).Some? {
      assert ValidPolicy(b.policy) by { StepKeeps(c, e); assert RowInv(b); }
      AlertSurvives(a, b, TimeOf(c, e).value, due);
      if a.status.Resolved? && b.status.Reopened? { ReopenedAfterFiring(es, now, id, due); }
    }
  }

  /**
   With one clock, no alert is lost: while a case waits for its response, a target timer that has been
   processed has raised its alert, however often the case was resolved and reopened in between.  Only an
   approaching offset rounded down to nothing is excepted: it puts its instant at the reopening itself.
   */
  lemma {:induction false} AlertsAreNotLost(es: seq<Event>, now: Time, id: Id, due: Time)
    requires OneClock(es, now) && id in Run(EMPTY, es).w.files && Awaited(Run(EMPTY, es).w.files[id].row)
    requires Fired(es, id, due)
    ensures Alerted(Run(EMPTY, es).w.files[id].row, due)
  {
    var e, rest := es[|es| - 1], es[..|es| - 1];
    var c := Run(EMPTY, rest);
    RunKeeps(EMPTY, rest);
    if Fired(rest, id, due) { FiredHasFile(rest, id, due); }
    if e.Fire? && e.id == id && RowFree(c, id) {
      if Fired(rest, id, due) { FiredIsPast(rest, e.at, id, due); }
      assert RowInv(c.w.files[id].row);
      FiringAlerts(c.w.files[id], e.at, e.actor, due);
    } else {
      if Awaited(c.w.files[id].row) { AlertsAreNotLost(rest, Reading(e, now), id, due); }
      OtherStepKeepsAlert(es, now, id, due);
    }
  }
}
