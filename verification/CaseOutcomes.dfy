/**
 What each operation on a case comes to, told by its row, the clock and the command: when it takes effect,
 what it writes, what refuses it, and that a refusal leaves everything as it was.
 */
module CaseOutcomes {
  import opened Wrappers
  import opened Clock
  import opened Provenance
  import opened Cases
  import opened CaseRuns

  // ---- The transition table ----

  /** The table by its targets: from where alone each status can be entered. */
  lemma EnteredFrom(from: Status, to: Status)
    ensures CanMove(from, to) <==> match to
      case Open => false
      case AwaitingInformation => from == Open || from == ReadyForReview || from == InProgress || from == Reopened
      case ReadyForReview => from == Open || from == AwaitingInformation || from == Reopened
      case PendingApproval => from == ReadyForReview
      case InProgress => from == ReadyForReview || from == PendingApproval || from == Reopened
      case Resolved => from == InProgress
      case Reopened => from == Resolved
      case Closed => from == Resolved
      case Rejected => from == ReadyForReview || from == PendingApproval
      case Cancelled => from == Open || from == AwaitingInformation || from == ReadyForReview || from == PendingApproval
        || from == InProgress || from == Reopened
      case Expired => from == Open || from == AwaitingInformation || from == PendingApproval
      case Duplicate => from == Open || from == AwaitingInformation || from == ReadyForReview
  {
  }

  // ---- New cases ----

  /** A case as it is created: revision 1 on track, its two target instants counted from now, nothing closed, one event, both timers. */
  predicate IsNew(w: World, id: Id, content: Content, status: Status, policy: Policy, at: Time) {
    && id in w.files && w.files[id].history == [Entry(Created, 1, None, status)]
    && var row := w.files[id].row;
      && row.revision == 1 && row.status == status && row.content == content && row.policy == policy
      && row.target == OnTrack && row.approachingAt == at + policy.approach && row.targetAt == at + policy.respond
      && row.resolvedAt.None? && row.closeAt.None? && row.result.None? && row.recordedBy.None? && row.updatedAt == at
      && (id, at + policy.approach) in w.timers && (id, at + policy.respond) in w.timers
  }

  /** A resolved case whose reopen window is over. */
  predicate Over(c: Case, at: Time) {
    c.status == Resolved && c.closeAt.Some? && c.closeAt.value <= at
  }

  /** Closing for the elapsed window writes the status, the revision and the instant, and one event. */
  predicate ClosedFor(f: File, f': File, at: Time) {
    && f'.row == f.row.(status := Closed, revision := f.row.revision + 1, updatedAt := at)
    && f'.history == f.history + [Entry(StateChanged, f.row.revision + 1, Some(f.row.status), Closed)]
  }

  /** An intake that finds no case to go on with: refused without change, or a new case beside the closed one. */
  lemma IntakeOpensIff(w: World, seen: Option<Id>, op: Id, k: Command, newId: Id, policy: Policy, at: Time, actor: Id)
    requires k.Intake? && (seen.Some? ==> seen.value in w.files && Over(w.files[seen.value].row, at)) && newId !in w.files
    requires IsIntake(k.initial)
    ensures var (w', outcome) := IntakeSpec(w, seen, op, k, newId, policy, at, actor);
      var fitting := k.known.None? && (k.expected.None? || k.expected.value == 0);
      && (outcome == Refused(ChangedNeedsReview) <==> !fitting)
      && (outcome == Refused(TargetCheck) <==> fitting && policy.respond <= policy.approach)
      && (outcome.Answered? <==> fitting && policy.approach < policy.respond)
      && (outcome.Refused? ==> w' == w)
      && (outcome.Answered? ==>
           && outcome.id == newId && IsNew(w', newId, k.content, k.initial, policy, at) && outcome.row == w'.files[newId].row
           && w'.files.Keys == w.files.Keys + {newId} && w'.receipts == w.receipts[op := Receipt(k, newId, outcome.row)]
           && w'.timers == w.timers + {(newId, at + policy.approach), (newId, at + policy.respond)}
           && (forall id :: id in w.files && Some(id) != seen ==> w'.files[id] == w.files[id])
           && (seen.Some? ==> ClosedFor(w.files[seen.value], w'.files[seen.value], at)))
  {
  }

  /** An intake for an open case: what refuses it, and what an accepted one writes. */
  lemma IntakeGoesOnIff(w: World, id: Id, op: Id, k: Command, newId: Id, policy: Policy, at: Time, actor: Id)
    requires k.Intake? && id in w.files && !Over(w.files[id].row, at)
    ensures var (w', outcome) := IntakeSpec(w, Some(id), op, k, newId, policy, at, actor);
      var f := w.files[id];
      var c, merging := f.row, MergeSpec(f.row.content.claims, f.row.content.messages, k.content.messages);
      var changed := c.content.digest != k.content.digest;
      var intake := c.status == Open || c.status == AwaitingInformation || c.status == ReadyForReview;
      var meant := k.known.None? || k.known.value == id;
      var fits := if changed then k.expected == Some(c.revision) else c.status == k.initial;
      && (outcome.Answered? <==> meant && (k.expected.Some? ==> intake && fits && merging.Kept?))
      && (meant && k.expected.Some? && !intake ==> outcome == Refused(NeedsBackoffice))
      && (meant && k.expected.Some? && intake && !fits ==> outcome == Refused(if changed then ChangedNeedsReview else NeedsBackoffice))
      && (!meant ==> outcome == Refused(ChangedNeedsReview))
      && (meant && k.expected.Some? && intake && fits && merging.Conflict? ==> outcome == Refused(MessageConflict))
      && (meant && k.expected.Some? && intake && fits && merging.TooMany? ==> outcome == Refused(TooManyMessages))
      && (outcome.Refused? ==> w' == w)
      && (outcome.Answered? ==>
           && outcome.id == id && outcome.row == w'.files[id].row && w'.timers == w.timers
           && w'.files.Keys == w.files.Keys && (forall o :: o in w.files && o != id ==> w'.files[o] == w.files[o])
           && w'.receipts == w.receipts[op := Receipt(k, id, outcome.row)])
      && (outcome.Answered? && k.expected.None? ==>
           w'.files[id] == File(c, f.history + [Entry(IntakeReused, c.revision, Some(c.status), c.status)]))
      && (outcome.Answered? && k.expected.Some? ==>
           var revision := if changed then c.revision + 1 else c.revision;
           && outcome.row == c.(content := Content(k.content.digest, c.content.claims, merging.messages), status := k.initial,
                                revision := revision, updatedAt := at)
           && w'.files[id].history == f.history +
                [Entry(if changed then IntakeUpdated else IntakeReused, revision, Some(c.status), k.initial)])
  {
  }

  // ---- Persisting issues, responses, timers ----

  /** A persisting issue reopens inside the window, opens a related case after it, and reuses any other open case. */
  lemma PersistingOutcome(w: World, seen: Option<Id>, op: Id, k: Command, newId: Id, policy: Policy, at: Time, actor: Id)
    requires k.Persisting? && (seen.Some? ==> seen.value in w.files) && k.id in w.files && newId !in w.files
    requires w.files[k.id].row.status == Resolved ==> w.files[k.id].row.closeAt.Some?
    ensures var (w', outcome) := PersistingSpec(w, seen, op, k, newId, policy, at, actor);
      var f := w.files[k.id];
      var c := f.row;
      var inside, after := c.status == Resolved && at < c.closeAt.value, c.status == Closed || Over(c, at);
      && (inside ==>
           && outcome == Answered(k.id, w'.files[k.id].row)
           && outcome.row == c.(status := Reopened, revision := c.revision + 1, updatedAt := at, resolvedAt := None, closeAt := None,
                                result := None, recordedBy := None, target := OnTrack,
                                approachingAt := at + c.policy.approach, targetAt := at + c.policy.respond)
           && w'.files[k.id].history == f.history + [Entry(StateChanged, c.revision + 1, Some(Resolved), Reopened)]
           && {(k.id, at + c.policy.approach), (k.id, at + c.policy.respond)} <= w'.timers)
      && (after && seen.Some? ==> outcome.Answered? && outcome.id == seen.value && w'.files.Keys == w.files.Keys && w'.timers == w.timers)
      && (after && seen.None? && policy.respond <= policy.approach ==> outcome == Refused(TargetCheck) && w' == w)
      && (after && seen.None? && policy.approach < policy.respond ==>
           && outcome.Answered? && outcome.id == newId && IsNew(w', newId, c.content, Open, policy, at)
           && w'.timers == w.timers + {(newId, at + policy.approach), (newId, at + policy.respond)})
      && (after && outcome.Answered? && c.status == Resolved ==> ClosedFor(f, w'.files[k.id], at))
      && (!inside && !after && !IsTerminal(c.status) ==> outcome == Answered(k.id, c) && w'.files == w.files)
      && (!inside && !after && IsTerminal(c.status) ==> outcome == Refused(NotReopenable) && w' == w)
      && (outcome.Answered? ==> w'.receipts == w.receipts[op := Receipt(k, outcome.id, outcome.row)])
  {
  }

  /** A row nobody can find refuses the report and changes nothing. */
  lemma UnknownCaseIsRefused(w: World, seen: Option<Id>, op: Id, k: Command, newId: Id, policy: Policy, at: Time, actor: Id)
    requires (k.Persisting? || k.Response? || k.Transition?) && (seen.Some? ==> seen.value in w.files) && k.id !in w.files
    ensures k.Persisting? ==> PersistingSpec(w, seen, op, k, newId, policy, at, actor) == (w, Refused(NoSuchCase))
    ensures k.Response? ==> ResponseSpec(w, op, k, at) == (w, Refused(NoSuchCase))
    ensures k.Transition? ==> TransitionSpec(w, op, k, at, actor).1.Refused? && TransitionSpec(w, op, k, at, actor).0 == w
  {
  }

  /** A customer's response restarts the silence window exactly inside it, with a new timer; outside it is only recorded. */
  lemma ResponseOutcome(w: World, op: Id, k: Command, at: Time)
    requires k.Response? && k.id in w.files
    ensures var (w', outcome) := ResponseSpec(w, op, k, at);
      var f := w.files[k.id];
      var c := f.row;
      var inside := c.status == Resolved && c.closeAt.Some? && at < c.closeAt.value;
      && outcome == Answered(k.id, w'.files[k.id].row) && w'.receipts == w.receipts[op := Receipt(k, k.id, outcome.row)]
      && outcome.row == (if inside then c.(closeAt := Some(at + c.policy.closeAfter), updatedAt := at, revision := c.revision + 1) else c)
      && w'.files[k.id].history == f.history + [Entry(CustomerResponse, outcome.row.revision, Some(c.status), c.status)]
      && w'.timers == (if inside then w.timers + {(k.id, at + c.policy.closeAfter)} else w.timers)
  {
  }

  /**
   A timer closes a resolved case that is due, raises the alert its instant calls for on a waiting one,
   and does nothing else: no second alert of the same kind, nothing before its instant, nothing on a finished case.
   */
  lemma TimerOutcome(w: World, id: Id, at: Time, actor: Id)
    requires id in w.files
    ensures var w' := TimerSpec(w, id, at, actor);
      var f, f' := w.files[id], w'.files[id];
      var c := f.row;
      var called := if at >= c.targetAt then Overdue else if at >= c.approachingAt then Approaching else OnTrack;
      var waiting := !IsTerminal(c.status) && c.status != Resolved;
      && w'.files.Keys == w.files.Keys && w'.timers == w.timers && w'.receipts == w.receipts
      && (Over(c, at) ==> ClosedFor(f, f', at))
      && (waiting && called != OnTrack && called != c.target ==>
           && f'.row == c.(target := called, updatedAt := at)
           && f'.history == f.history + [Entry(TargetAlert, c.revision, Some(c.status), c.status)])
      && (!Over(c, at) && !(waiting && called != OnTrack && called != c.target) ==> f' == f)
  {
  }

  /** Resolving starts the reopen window and its timer, once, from that instant. */
  lemma ResolvingIs(w: World, op: Id, k: Command, at: Time, actor: Id)
    requires k.Transition? && k.id in w.files && TransitionSpec(w, op, k, at, actor).1.Answered?
    ensures var w' := TransitionSpec(w, op, k, at, actor).0;
      var c := w.files[k.id].row;
      && w'.timers == (if k.to == Resolved then w.timers + {(k.id, at + c.policy.closeAfter)} else w.timers)
      && w'.files[k.id].history == w.files[k.id].history + [Entry(StateChanged, c.revision + 1, Some(c.status), k.to)]
      && w'.files[k.id].row.target == c.target && w'.files[k.id].row.targetAt == c.targetAt
      && w'.files[k.id].row.approachingAt == c.approachingAt && w'.files[k.id].row.content == c.content
  {
  }

  /** An operation seen before is answered as it was, or refused if it is another one under the same id, and changes nothing. */
  lemma ReplayIff(w: World, op: Id, k: Command, done: (World, Outcome))
    ensures op !in w.receipts ==> Once(w, op, k, done) == done
    ensures op in w.receipts && w.receipts[op].command == k ==>
      Once(w, op, k, done) == (w, Answered(w.receipts[op].id, w.receipts[op].row))
    ensures op in w.receipts && w.receipts[op].command != k ==> Once(w, op, k, done) == (w, Refused(IdempotencyConflict))
  {
  }

  // ---- The transactions of the machine ----

  /** What counts as open to the holder of the lock: not the case it reports on, once that one's window is over. */
  predicate OpenTo(c: Cell, id: Id, at: Time)
    requires c.holder.Some?
  {
    var k := c.holder.value.command;
    id in c.w.files && !IsTerminal(c.w.files[id].row.status) && !(k.Persisting? && id == k.id && Over(c.w.files[id].row, at))
  }

  /** The query finds an open case if there is one, and nothing otherwise. */
  lemma LookTakesIff(c: Cell, seen: Option<Id>, at: Time)
    requires c.holder.Some? && c.holder.value.stage.Waiting?
    ensures Step(c, Look(seen, at)) != c <==>
      match seen case Some(id) => OpenTo(c, id, at) case None => forall id :: !OpenTo(c, id, at)
  {
    var q := QueriedBy(c.w, c.holder.value.command, at);
    forall id ensures Active(q, id) <==> OpenTo(c, id, at) { }
  }

  /** The row is not held by the report or intake under way, and the operation has neither been answered nor is that one. */
  predicate Unhindered(c: Cell, op: Id, id: Id) {
    op !in c.w.receipts && (c.holder.Some? ==>
      && c.holder.value.op != op
      && (c.holder.value.stage.Looked? ==>
           && c.holder.value.stage.seen != Some(id)
           && (c.holder.value.command.Persisting? ==> c.holder.value.command.id != id)))
  }

  /** A response is recorded exactly on a known case that is free, a transition exactly if it is also accepted. */
  lemma RowEventTakesEffectIff(c: Cell, op: Id, k: Command, at: Time, actor: Id)
    ensures k.Response? ==> (Step(c, Respond(op, k, at)) != c <==> k.id in c.w.files && Unhindered(c, op, k.id))
    ensures k.Transition? ==>
      (Step(c, Move(op, k, at, actor)) != c <==> Unhindered(c, op, k.id) && TransitionSpec(c.w, op, k, at, actor).1.Answered?)
  {
  }
}
