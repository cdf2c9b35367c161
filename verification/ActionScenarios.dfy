/**
 Runs in which the code is weaker than it looks, each for every choice of its free parameters:
 a rolled-back single-session write repeated, an edited or reordered route stranding an action, and a genuine
 success discarded by a duplicate where the mutex is not taken.
 */
module ActionScenarios {
  import opened Wrappers
  import opened Clock
  import opened Actions
  import opened Approvals
  import opened Execution
  import opened ActionRuns
  import opened ActionSafety
  import ApprovalService

  predicate Plain(terms: Terms) {
    terms.achievedLevel >= terms.requiredLevel && !terms.ConfirmationRequired()
  }

  const VALID := Precondition(true, Unavailable)

  /** Whatever the provider answers, a write whose transaction is rolled back is made again. */
  lemma SingleSessionWritesTwice(terms: Terms, serialized: bool, first: Reply, second: Reply)
    requires Plain(terms) && !terms.ApprovalRequired()
    ensures var es := [] + [Direct(VALID, first, first, false)] + [Direct(VALID, second, second, true)];
      Run(Start(terms, true, false, serialized), es).calls == [first, second]
  {
    var c := Start(terms, true, false, serialized);
    RunSnoc(c, [], Direct(VALID, first, first, false));
    RunSnoc(c, [] + [Direct(VALID, first, first, false)], Direct(VALID, second, second, true));
  }

  function Routed(terms: Terms, route: Policy): Cell {
    Start(terms, true, false, false).(route := Some(route))
  }

  /** A pending request under `route`. */
  function Pending(terms: Terms, route: Policy, id: Id, now: Time): Cell {
    Routed(terms, route).(approval := Approval(Some(Request(id, terms.ParameterDigest(), route, RequestPending, now,
                                                         Floored(now + route.expiresMinutes * MINUTE))), None))
  }

  predicate Serves(route: Policy, terms: Terms) {
    && ValidPolicy(route) && route.enabled && terms.routeRef == Some(route.ref)
    && route.capability == terms.capability && route.operation == terms.operation
  }

  lemma OpensPending(terms: Terms, route: Policy, id: Id, now: Time)
    requires Plain(terms) && Serves(route, terms)
    ensures Run(Start(terms, true, false, false), [] + [SaveRoute(route)] + [OpenRequest(true, id, now)])
         == Pending(terms, route, id, now)
  {
    var c := Start(terms, true, false, false);
    RunSnoc(c, [], SaveRoute(route));
    RunSnoc(c, [] + [SaveRoute(route)], OpenRequest(true, id, now));
  }

  /** Any edit of the route before the deadline, then any look at the request. */
  lemma EditedRouteInvalidates(terms: Terms, route: Policy, edited: Policy, id: Id, now: Time, later: Time)
    requires Plain(terms) && Serves(route, terms) && Serves(edited, terms) && edited != route
    requires later < Floored(now + route.expiresMinutes * MINUTE)
    ensures var es := [] + [SaveRoute(route)] + [OpenRequest(true, id, now)] + [SaveRoute(edited)] + [Touch(later)];
      var c := Run(Start(terms, true, false, false), es);
      && c.approval.request.Some? && c.approval.request.value.state == RequestInvalidated
      && c.record.action.state == AwaitingApproval
  {
    var c := Start(terms, true, false, false);
    var es := [] + [SaveRoute(route)] + [OpenRequest(true, id, now)];
    OpensPending(terms, route, id, now);
    RunSnoc(c, es, SaveRoute(edited));
    RunSnoc(c, es + [SaveRoute(edited)], Touch(later));
    PendingIsInvalidated(terms, route, edited, id, now, later);
  }

  /** Listing the same mailboxes in another order is such an edit: it stores a new revision and strands the action. */
  lemma ReorderedRouteInvalidates(terms: Terms, route: Policy, i: nat, k: nat, id: Id, now: Time, later: Time, revision: nat)
    requires Plain(terms) && Serves(route, terms) && i < k < |route.emails|
    requires later < Floored(now + route.expiresMinutes * MINUTE)
    ensures var reordered := route.(emails := route.emails[i := route.emails[k]][k := route.emails[i]]);
      var es := [] + [SaveRoute(route)] + [OpenRequest(true, id, now)] + [SaveRoute(reordered)] + [Touch(later)];
      && multiset(reordered.emails) == multiset(route.emails)
      && ApprovalService.SaveRouteSpec(Some(ApprovalService.Route(route, revision)), reordered, revision, true)
           == (Some(ApprovalService.Route(reordered, revision + 1)), ApprovalService.Stored)
      && Stranded(Run(Start(terms, true, false, false), es))
  {
    var reordered := route.(emails := route.emails[i := route.emails[k]][k := route.emails[i]]);
    assert reordered.emails[i] != route.emails[i];
    EditedRouteInvalidates(terms, route, reordered, id, now, later);
  }

  lemma PendingIsInvalidated(terms: Terms, route: Policy, edited: Policy, id: Id, now: Time, later: Time)
    requires Plain(terms) && Serves(route, terms) && Serves(edited, terms) && edited != route
    requires later < Floored(now + route.expiresMinutes * MINUTE)
    ensures var c := Step(Step(Pending(terms, route, id, now), SaveRoute(edited)), Touch(later));
      && c.approval.request.Some? && c.approval.request.value.state == RequestInvalidated
      && c.record.action.state == AwaitingApproval
  {
  }

  /** Inputs under which everything still holds at `now`. */
  function AllWell(now: Time): Inputs {
    Inputs(now, true, true, now, now, VALID, now)
  }

  function Approved(terms: Terms, route: Policy, id: Id, decision: Id, now: Time): Cell {
    var c := Pending(terms, route, id, now);
    c.(approval := Approval(Some(c.approval.request.value.(state := RequestApproved)),
                            Some(Decision(decision, terms.ParameterDigest(), Approve, now))))
  }

  lemma ApprovesPending(terms: Terms, route: Policy, id: Id, decision: Id, now: Time)
    requires Plain(terms) && Serves(route, terms) && now < Floored(now + route.expiresMinutes * MINUTE)
    ensures Step(Pending(terms, route, id, now), Decide(now, true, Approve, decision, now))
         == Approved(terms, route, id, decision, now)
  {
  }

  lemma ApprovedIsPermitted(terms: Terms, route: Policy, id: Id, decision: Id, now: Time)
    requires Plain(terms) && Serves(route, terms) && now < Floored(now + route.expiresMinutes * MINUTE)
    ensures var c := Approved(terms, route, id, decision, now);
      && Refusal(c.record, c.approval, Some(route), AllWell(now)).None?
      && Permit(c.record, c.approval, route, AllWell(now)).Permitted?
      && Permit(c.record, c.approval, route, AllWell(now)).record.action.state == Executing
      && Permit(c.record, c.approval, route, AllWell(now)).record.action.terms == terms
  {
  }

  lemma PreparesApproved(terms: Terms, route: Policy, id: Id, decision: Id, now: Time, x: Id)
    requires Plain(terms) && Serves(route, terms) && now < Floored(now + route.expiresMinutes * MINUTE)
    ensures var c, c' := Approved(terms, route, id, decision, now), Step(Approved(terms, route, id, decision, now), Prepare(x, AllWell(now)));
      && c' == c.(record := c'.record, workers := map[x := Calling(0)])
      && c'.record.action.state == Executing && c'.record.action.terms == terms
  {
    var c := Approved(terms, route, id, decision, now);
    ApprovedIsPermitted(terms, route, id, decision, now);
    assert PrepareExecution(c.record, c.approval, c.route, AllWell(now)) == Permit(c.record, c.approval, route, AllWell(now));
  }

  /** The run up to the worker's answered call. */
  function UntilCalled(route: Policy, id: Id, decision: Id, now: Time, x: Id, reply: Reply): seq<Event> {
    [] + [SaveRoute(route)] + [OpenRequest(true, id, now)] + [Decide(now, true, Approve, decision, now)]
      + [Prepare(x, AllWell(now))] + [Call(x, reply)]
  }

  lemma WriteIsCalledOnce(c: Cell, x: Id, reply: Reply)
    requires c.workers == map[x := Calling(0)] && c.calls == [] && !c.safeRead
    ensures Step(c, Call(x, reply)) == c.(calls := [reply], workers := map[x := Answered(reply)])
  {
  }

  lemma CallIsAnswered(terms: Terms, route: Policy, id: Id, decision: Id, now: Time, x: Id, reply: Reply)
    requires Plain(terms) && Serves(route, terms) && now < Floored(now + route.expiresMinutes * MINUTE)
    ensures var c := Run(Start(terms, true, false, false), UntilCalled(route, id, decision, now, x, reply));
      && c.calls == [reply] && c.workers == map[x := Answered(reply)] && !c.serialized
      && c.record.action.state == Executing && c.record.action.terms == terms && ApprovedRequest(c.approval)
  {
    var c := Start(terms, true, false, false);
    var e2 := [] + [SaveRoute(route)] + [OpenRequest(true, id, now)];
    OpensPending(terms, route, id, now);
    RunSnoc(c, e2, Decide(now, true, Approve, decision, now));
    ApprovesPending(terms, route, id, decision, now);
    var e3 := e2 + [Decide(now, true, Approve, decision, now)];
    RunSnoc(c, e3, Prepare(x, AllWell(now)));
    PreparesApproved(terms, route, id, decision, now, x);
    RunSnoc(c, e3 + [Prepare(x, AllWell(now))], Call(x, reply));
    WriteIsCalledOnce(Run(c, e3 + [Prepare(x, AllWell(now))]), x, reply);
  }

  /** Without the mutex: the provider succeeded, no worker crashed, and the action ends UNCERTAIN. */
  lemma DuplicateTurnsSuccessUncertain(terms: Terms, route: Policy, id: Id, decision: Id, now: Time, x: Id, y: Id, reply: Reply)
    requires Plain(terms) && Serves(route, terms) && x != y
    requires now < Floored(now + route.expiresMinutes * MINUTE)
    requires GenuineSuccess(terms.operation, reply)
    ensures var es := UntilCalled(route, id, decision, now, x, reply) + [Prepare(y, AllWell(now))] + [Complete(x)];
      var c := Run(Start(terms, true, false, false), es);
      c.calls == [reply] && c.record.action.state == Uncertain
  {
    var c, es := Start(terms, true, false, false), UntilCalled(route, id, decision, now, x, reply);
    CallIsAnswered(terms, route, id, decision, now, x, reply);
    RunSnoc(c, es, Prepare(y, AllWell(now)));
    RunSnoc(c, es + [Prepare(y, AllWell(now))], Complete(x));
    DuplicateCompletes(Run(c, es), x, y, AllWell(now));
  }
}
