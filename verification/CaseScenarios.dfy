/** Runs in which a case service under an allowed configuration does less than it seems to. */
module CaseScenarios {
  import opened Wrappers
  import opened Clock
  import opened Cases
  import opened CaseRuns
  import opened CaseTimers

  /** Every case opened in the run is opened under the configuration `p`. */
  predicate AllUnder(es: seq<Event>, p: CasePolicy)
    requires Allowed(p)
  {
    forall e :: e in es && e.Commit? ==> e.policy == Pinned(p)
  }

  ghost predicate OpensNothing(es: seq<Event>) {
    Run(EMPTY, es).w.files == map[]
  }

  lemma {:induction false} NothingOpens(es: seq<Event>, p: CasePolicy)
    requires Allowed(p) && NoRoom(p) && AllUnder(es, p)
    ensures OpensNothing(es)
  {
    if es != [] {
      var c, e := Run(EMPTY, es[..|es| - 1]), es[|es| - 1];
      NothingOpens(es[..|es| - 1], p);
      PinnedHasRoomIff(p);
      assert e in es;
    }
  }

  function Opening(k: Command, p: CasePolicy): seq<Event>
    requires Allowed(p)
  {
    [Lock(0, k), Look(None, 0), Commit(0, Pinned(p), 0)]
  }

  lemma RoomOpens(k: Command, p: CasePolicy)
    requires Allowed(p) && !NoRoom(p) && k.Intake? && IsIntake(k.initial) && k.known.None? && k.expected.None?
    ensures !OpensNothing(Opening(k, p))
  {
    var es := Opening(k, p);
    assert es[..2] == [Lock(0, k), Look(None, 0)] && es[..2][..1] == [Lock(0, k)] && es[..2][..1][..0] == [];
    var c1 := Step(EMPTY, Lock(0, k));
    var c2 := Step(c1, Look(None, 0));
    assert Run(EMPTY, es[..2][..1]) == c1;
    assert Run(EMPTY, es[..2]) == c2;
    assert MaySee(c1.w, k, None, 0);
    IntakeRefusedIff(c2.w, None, 0, k, 0, p, 0, 0);
    assert Run(EMPTY, es) == Step(c2, es[2]);
  }

  /** Under one configuration no run ever opens a case if and only if it leaves no room between the target instants. */
  lemma NoCaseEverOpensIff(p: CasePolicy)
    requires Allowed(p)
    ensures (forall es: seq<Event> :: AllUnder(es, p) ==> OpensNothing(es)) <==> NoRoom(p)
  {
    if NoRoom(p) {
      forall es: seq<Event> | AllUnder(es, p) ensures OpensNothing(es) { NothingOpens(es, p); }
    } else {
      var k := Intake(Content(0, false, []), Open, None, None);
      RoomOpens(k, p);
      assert AllUnder(Opening(k, p), p);
    }
  }

  /** Such a configuration is allowed: one minute, and the fraction 1 - 2^-27, which a float holds exactly. */
  lemma TightConfigurationIsAllowed()
    ensures var p := CasePolicy(72, 1, 0x7FF_FFFF, 0x800_0000); Allowed(p) && NoRoom(p)
  {
  }

  // ---- A lost alert ----

  lemma {:induction false} RunAppends(c: Cell, es: seq<Event>, fs: seq<Event>)
    ensures Run(c, es + fs) == Run(Run(c, es), fs)
  {
    if fs == [] {
      assert es + fs == es;
    } else {
      RunAppends(c, es, fs[..|fs| - 1]);
      assert (es + fs)[..|es + fs| - 1] == es + fs[..|fs| - 1];
    }
  }

  lemma RunThree(c: Cell, a: Event, b: Event, d: Event)
    ensures Run(c, [a, b, d]) == Step(Step(Step(c, a), b), d)
  {
    assert [a, b, d][..2] == [a, b] && [a, b][..1] == [a] && [a][..0] == [];
    assert Run(c, [a]) == Step(c, a);
    assert Run(c, [a, b]) == Step(Run(c, [a]), b);
  }

  /** Events that all read the clock at `now`, after a run on one clock up to then. */
  lemma {:induction false} ClockAppends(es: seq<Event>, fs: seq<Event>, before: Time, now: Time)
    requires OneClock(es, before) && before <= now
    requires forall e :: e in fs ==> Reading(e, now) == now && (e.Fire? ==> e.due <= now)
    ensures OneClock(es + fs, now)
  {
    if fs == [] {
      assert es + fs == es;
      ClockWidens(es, before, now);
    } else {
      ClockAppends(es, fs[..|fs| - 1], before, now);
      assert (es + fs)[..|es + fs| - 1] == es + fs[..|fs| - 1];
    }
  }

  lemma {:induction false} ClockWidens(es: seq<Event>, before: Time, now: Time)
    requires OneClock(es, before) && before <= now
    ensures OneClock(es, now)
  {
    if es != [] {
      var e := es[|es| - 1];
      if Reading(e, before) != Reading(e, now) { ClockWidens(es[..|es| - 1], before, now); }
    }
  }

  lemma {:induction false} FiredAppends(es: seq<Event>, fs: seq<Event>, id: Id, due: Time)
    requires Fired(es, id, due)
    ensures Fired(es + fs, id, due)
  {
    if fs == [] {
      assert es + fs == es;
    } else {
      FiredAppends(es, fs[..|fs| - 1], id, due);
      assert (es + fs)[..|es + fs| - 1] == es + fs[..|fs| - 1];
    }
  }

  /** One minute to respond, and a fraction so small that its offset rounds down to nothing. */
  const EAGER := CasePolicy(1, 1, 1, 0x4000_0000)

  const REPORT := Intake(Content(0, false, []), ReadyForReview, None, None)

  /** The case is opened and resolved at once; its target timer finds it resolved and does nothing. */
  const OPENING := [Lock(0, REPORT), Look(None, 0), Commit(0, Pinned(EAGER), 0)]
  const RESOLVING := [Move(1, Transition(0, 1, InProgress, false, None), 0, 0),
                      Move(2, Transition(0, 2, Status.Resolved, false, None), 0, 0)]
  const IDLING := [Fire(0, MINUTE, MINUTE, 0)]

  /** At that very instant the customer reports that the issue persists. */
  const REOPENING := [Lock(3, Persisting(0, [])), Look(Some(0), MINUTE), Commit(1, Pinned(EAGER), 0)]

  ghost predicate Only(c: Cell, row: Case, ops: set<Id>) {
    c.holder.None? && c.w.files.Keys == {0} && c.w.files[0].row == row && c.w.receipts.Keys == ops
  }

  lemma EagerHasNoOffset()
    ensures Allowed(EAGER) && Pinned(EAGER) == Policy(HOUR, 0, MINUTE)
  {
  }

  lemma Opens()
    ensures Only(Run(EMPTY, OPENING), NewCase(REPORT.content, ReadyForReview, Policy(HOUR, 0, MINUTE), 0), {0})
  {
    EagerHasNoOffset();
    RunThree(EMPTY, Lock(0, REPORT), Look(None, 0), Commit(0, Pinned(EAGER), 0));
    assert MaySee(Step(EMPTY, Lock(0, REPORT)).w, REPORT, None, 0);
  }

  function ResolvedRow(): Case {
    ChangedRow(ChangedRow(NewCase(REPORT.content, ReadyForReview, Policy(HOUR, 0, MINUTE), 0), InProgress, 0, None, 0),
               Status.Resolved, 0, None, 0)
  }

  lemma Resolves(c: Cell)
    requires Only(c, NewCase(REPORT.content, ReadyForReview, Policy(HOUR, 0, MINUTE), 0), {0})
    ensures Only(Run(c, RESOLVING), ResolvedRow(), {0, 1, 2})
  {
    assert RESOLVING[..1] == [RESOLVING[0]] && RESOLVING[..1][..0] == [];
    assert Run(c, RESOLVING[..1]) == Step(c, RESOLVING[0]);
  }

  lemma Idles(c: Cell)
    requires Only(c, ResolvedRow(), {0, 1, 2})
    ensures Only(Run(c, IDLING), ResolvedRow(), {0, 1, 2}) && Fires(c, IDLING[0], 0, MINUTE)
  {
    assert IDLING[..0] == [] && Run(c, IDLING) == Step(c, IDLING[0]);
  }

  lemma Reopens(c: Cell)
    requires Only(c, ResolvedRow(), {0, 1, 2})
    ensures Only(Run(c, REOPENING), ChangedRow(ResolvedRow(), Reopened, MINUTE, None, 0), {0, 1, 2, 3})
  {
    EagerHasNoOffset();
    RunThree(c, REOPENING[0], REOPENING[1], REOPENING[2]);
    assert MaySee(Step(c, REOPENING[0]).w, Persisting(0, []), Some(0), MINUTE);
  }

  lemma TicksForward()
    ensures OneClock(OPENING + RESOLVING + IDLING + REOPENING, MINUTE)
  {
    assert [] + OPENING == OPENING;
    ClockAppends([], OPENING, 0, 0);
    ClockAppends(OPENING, RESOLVING, 0, 0);
    ClockAppends(OPENING + RESOLVING, IDLING, 0, MINUTE);
    ClockAppends(OPENING + RESOLVING + IDLING, REOPENING, MINUTE, MINUTE);
  }

  /**
   The exception `AlertsAreNotLost` makes is real: the reopened case should be approaching its target from
   this instant on, but the timer for it has been processed, and the outbox takes no second one.
   */
  lemma EagerAlertIsLost()
    ensures var es := OPENING + RESOLVING + IDLING + REOPENING;
      && OneClock(es, MINUTE) && 0 in Run(EMPTY, es).w.files
      && var row := Run(EMPTY, es).w.files[0].row;
        row.status.Reopened? && row.approachingAt == MINUTE && row.target == OnTrack && Fired(es, 0, MINUTE)
  {
    RunAppends(EMPTY, OPENING, RESOLVING);
    RunAppends(EMPTY, OPENING + RESOLVING, IDLING);
    RunAppends(EMPTY, OPENING + RESOLVING + IDLING, REOPENING);
    Opens();
    Resolves(Run(EMPTY, OPENING));
    Idles(Run(EMPTY, OPENING + RESOLVING));
    Reopens(Run(EMPTY, OPENING + RESOLVING + IDLING));
    assert (OPENING + RESOLVING + IDLING)[..5] == OPENING + RESOLVING;
    FiredAppends(OPENING + RESOLVING + IDLING, REOPENING, 0, MINUTE);
    TicksForward();
  }
}
