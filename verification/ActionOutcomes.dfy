/**
 What each operation on an action and its approval comes to, told by the row's own columns, the clock and
 the inputs: when it takes effect, where it leads, what the customer is then told, and what it leaves alone.
 */
module ActionOutcomes {
  import opened Wrappers
  import opened Clock
  import opened Actions
  import opened Approvals
  import opened Execution
  import opened ActionRuns
  import opened ActionSafety
  import opened ActionService
  import ApprovalService

  // ---- The transition table ----

  /** The table by its targets: from where alone each state can be entered. */
  lemma EnteredFrom(from: State, to: State)
    ensures CanMove(from, to) <==> match to
      case Requested => false
      case IdentityVerified => from == Requested
      case AwaitingConfirmation => from == IdentityVerified
      case Confirmed => from == IdentityVerified || from == AwaitingConfirmation
      case AwaitingApproval => from == Confirmed
      case Executing => from == Confirmed || from == AwaitingApproval
      case Succeeded => from == Executing
      case Uncertain => from == Executing
      case HandedOff => from == Executing
      case Failed => from == Confirmed || from == AwaitingApproval || from == Executing
      case Rejected => from == Requested || from == AwaitingConfirmation || from == AwaitingApproval
      case Expired => from == AwaitingConfirmation || from == AwaitingApproval
  {
  }

  // ---- The action service ----

  /** The version an event is numbered after: none is higher, and one of them has it. */
  lemma {:induction false} MaxVersionIsHighest(events: seq<Entry>, k: nat)
    requires k < |events|
    ensures events[k].version <= MaxVersion(events)
    ensures exists j :: 0 <= j < |events| && events[j].version == MaxVersion(events)
  {
    var init, last := events[..|events| - 1], events[|events| - 1];
    if init == [] {
      assert events[0].version == MaxVersion(events);
    } else {
      MaxVersionIsHighest(init, if k < |init| then k else 0);
      var j :| 0 <= j < |init| && init[j].version == MaxVersion(init);
      assert events[j].version == MaxVersion(init) && events[|events| - 1].version == last.version;
    }
  }

  /** A repeated request is the same one exactly if it agrees on these five; other differences do not count. */
  lemma SameRequestIff(existing: Terms, wanted: Terms)
    ensures SameRequest(existing, wanted) <==>
      && existing.conversation == wanted.conversation && existing.customer == wanted.customer
      && existing.operation == wanted.operation && existing.parameters == wanted.parameters
      && existing.binding == wanted.binding
  {
  }

  /** The customer has a quarter of an hour from the request, and only where a confirmation is wanted at all. */
  lemma DeadlineIs(wanted: Terms, confirm: bool, now: Time)
    ensures var t := Deadlined(wanted, confirm, now);
      && (t.confirmationExpiresAt.Some? <==> confirm)
      && (confirm ==> t.confirmationExpiresAt.value - now == 15 * 60 * 1_000_000)
      && t == wanted.(confirmationExpiresAt := t.confirmationExpiresAt)
  {
  }

  /** The lifecycle job expires exactly the actions whose customer's time is up, and keeps what they had as a result. */
  lemma ExpiryIff(r: Record, now: Time)
    ensures var r' := ExpireSpec(r, now);
      var due := r.action.state == AwaitingConfirmation && r.action.terms.confirmationExpiresAt.Some?
        && now >= r.action.terms.confirmationExpiresAt.value;
      && (r' != r <==> due) && r'.action == r.action.(state := if due then Expired else r.action.state)
      && (due ==> |r'.events| == |r.events| + 1)
  {
  }

  /** The same instant never both expires an action in one place and confirms it in another. */
  lemma ExpiryAndConfirmationMeet(r: Record, digest: Digest, customer: string, now: Time)
    requires r.action.state == AwaitingConfirmation && customer == r.action.terms.customer
    requires r.action.terms.confirmationExpiresAt.Some?
    ensures ExpireSpec(r, now).action.state == Expired <==> ConfirmSpec(r, digest, customer, now).0.action.state == Expired
  {
  }

  /** What a single-session preparation makes of a row that needs no approval. */
  lemma DirectPreparationOutcome(r: Record, pre: Precondition)
    requires !r.action.terms.ApprovalRequired()
    ensures var (r', error) := PrepareSpec(r, false, pre, false, Untold);
      var a := r.action;
      && (a.state == Confirmed && pre.valid <==> r'.action.state == Executing)
      && (a.state == Confirmed && pre.valid ==> error.None? && r'.action == a.(state := Executing, attempts := a.attempts + 1))
      && (a.state == Confirmed && !pre.valid ==>
           error.None? && r'.action == a.(state := Failed, result := Payload(Some(pre.reason), None, None, false, None)))
      && (a.state == Executing ==>
           error.None? && r'.action == a.(state := Uncertain, result := Payload(Some(Interrupted), None, None, false, None)))
      && (error == Some(InvalidState) <==>
           a.state == Requested || a.state == IdentityVerified || a.state == AwaitingConfirmation || a.state == AwaitingApproval)
      && (error.Some? || IsTerminal(a.state) ==> r' == r)
  {
  }

  // ---- Approval requests ----

  /** Who may open a request: an enabled route that fits a waiting action, a mailer for it, and a confirmation that still stands. */
  lemma OpenIff(p: Approval, a: Action, route: Option<Policy>, mailer: bool, id: Id, now: Time)
    ensures var p' := OpenSpec(p, a, route, mailer, id, now);
      var fits := route.Some? && route.value.enabled && mailer && a.state == AwaitingApproval
        && a.terms.routeRef == Some(route.value.ref) && a.terms.capability == route.value.capability
        && a.terms.operation == route.value.operation && a.terms.achievedLevel >= a.terms.requiredLevel;
      var stands := a.terms.confirmationExpiresAt.Some? ==>
        && a.confirmedAt.Some? && a.confirmedAt.value < a.terms.confirmationExpiresAt.value
        && now < a.terms.confirmationExpiresAt.value
        && a.confirmationDigest == Some(OfConfirmation(a.terms.id, a.terms.customer, OfParameters(a.terms.parameters)));
      && (p' != p <==> p.request.None? && fits && stands)
      && (p' != p ==> p'.decision == p.decision && p'.request == Some(Request(
            id, OfParameters(a.terms.parameters), route.value, RequestPending, now,
            Floored(now + route.value.expiresMinutes * 60 * 1_000_000))))
  {
  }

  /** A route is stored exactly when it differs, can be mailed if enabled, and was edited from its current revision. */
  lemma SaveRouteIff(route: Option<ApprovalService.Route>, configuration: Policy, expected: nat, mailer: bool)
    ensures var (route', saved) := ApprovalService.SaveRouteSpec(route, configuration, expected, mailer);
      var mailable := configuration.enabled ==> mailer;
      var same := route.Some? && route.value.configuration == configuration;
      var current := match route case None => expected == 0 case Some(was) => expected == was.revision;
      && (saved == ApprovalService.Stored <==> mailable && !same && current)
      && (saved == ApprovalService.NoMailbox <==> !mailable)
      && (saved == ApprovalService.Unchanged <==> mailable && same)
      && (saved == ApprovalService.RevisionConflict <==> mailable && !same && !current)
      && route' == (if saved == ApprovalService.Stored then Some(ApprovalService.Route(configuration, expected + 1)) else route)
  {
  }

  /** The limits a route's own validation sets, on its mailboxes and its numbers. */
  lemma PolicyLimits(p: Policy)
    ensures ValidPolicy(p) <==>
      && |p.emails| > 0 && (forall i, k :: 0 <= i < k < |p.emails| ==> p.emails[i] != p.emails[k])
      && p.expiresMinutes > 0 && p.expiresMinutes <= 7 * 24 * 60
      && p.otpSeconds >= 30 && p.otpSeconds <= 10 * 60 && p.otpCooldown >= 30 && p.otpCooldown <= 10 * 60
      && p.otpMaxAttempts > 0 && p.otpMaxAttempts <= 5 && p.otpMaxSends > 0 && p.otpMaxSends <= 5
  {
  }

  /** When a request can still be used, and what becomes of a pending one that cannot: its time first, then its premises. */
  lemma UsabilityIff(request: Request, a: Action, route: Policy, now: Time)
    ensures var u := UsabilityOf(request, Matches(request, a, route), route, now);
      var pending, inTime := request.state == RequestPending, now < request.expiresAt;
      var premises := route.enabled && route == request.pinned && a.state == AwaitingApproval
        && a.terms.routeRef == Some(route.ref) && a.terms.capability == route.capability
        && a.terms.operation == route.operation && a.terms.achievedLevel >= a.terms.requiredLevel
        && request.parameterDigest == OfParameters(a.terms.parameters);
      && (u == Usable <==> pending && inTime && premises) && (u == Usability.Shut <==> !pending)
      && (u == MustClose(RequestExpired) <==> pending && !inTime)
      && (u == MustClose(RequestInvalidated) <==> pending && inTime && !premises)
  {
  }

  /** Closing what is closed already leaves request and decision as they are. */
  lemma ClosedOnce(p: Approval, r: Record, state: RequestState)
    requires p.request.Some?
    ensures var (p', r') := CloseSpec(p, r, state);
      && p'.decision == p.decision
      && p'.request == Some(p.request.value.(state := if p.request.value.state == RequestPending then state else p.request.value.state))
      && (r' != r <==> r.action.state == AwaitingApproval && (state == RequestRejected || state == RequestExpired))
      && (r' != r ==> r'.action.state == (if state == RequestRejected then Rejected else Expired) && |r'.events| == |r.events| + 1)
  {
  }

  /** While a request is pending, only a look, a decision and the expiry job write the action's row. */
  lemma PendingRowIsKept(c: Cell, e: Event)
    requires Reachable(c) && c.approval.request.Some? && c.approval.request.value.state == RequestPending
    requires !e.Touch? && !e.Decide? && !e.Lapse?
    ensures Step(c, e).record == c.record
  {
    ReachableInv(c);
    if e.Prepare? { OtherPreparations(c, e.inputs); }
  }

  /** What these three leave in it. */
  lemma ClosingWrites(c: Cell, e: Event)
    requires c.approval.request.Some? && c.record.action.state == AwaitingApproval
    requires e.Touch? || e.Decide? || e.Lapse?
    ensures var a := Step(c, e).record.action;
      || a == c.record.action
      || a == c.record.action.(state := Rejected, result := Payload(None, None, None, false, Some(ReviewerRejected)))
      || a == c.record.action.(state := Expired, result := Payload(None, None, None, false, Some(ApprovalExpired)))
  {
  }

  /** What a customer is told, and when, as a request closes without an execution. */
  lemma ClosingTells(c: Cell, e: Event)
    requires Reachable(c) && c.approval.request.Some? && c.approval.request.value.state == RequestPending
    ensures var a := Step(c, e).record.action;
      && (a.state == Rejected ==> a.result == Payload(None, None, None, false, Some(ReviewerRejected)))
      && (a.state == Expired ==> a.result == Payload(None, None, None, false, Some(ApprovalExpired)))
      && (a.state == AwaitingApproval ==> a.result == c.record.action.result)
  {
    ReachableInv(c);
    if e.Touch? || e.Decide? || e.Lapse? { ClosingWrites(c, e); } else { PendingRowIsKept(c, e); }
  }

  /** A decision is stored with its verdict, its instant and the action's own parameters. */
  lemma DecisionIs(c: Cell, at: Time, verdict: Verdict, id: Id, decidedAt: Time)
    requires Reachable(c) && c.approval.request.Some? && c.approval.request.value.state == RequestPending
    requires at < c.approval.request.value.expiresAt && c.route == Some(c.approval.request.value.pinned)
    ensures Step(c, Decide(at, true, verdict, id, decidedAt)).approval.decision ==
      Some(Decision(id, OfParameters(c.record.action.terms.parameters), verdict, decidedAt))
    ensures Step(c, Decide(at, false, verdict, id, decidedAt)) == c
  {
    ReachableInv(c);
    assert Matches(c.approval.request.value, c.record.action, c.route.value);
  }

  /** The verifier accepts exactly the attached, approving decision of an unexpired request on the same, enabled route. */
  lemma VerifiedIff(p: Approval, a: Action, route: Policy, reference: Option<Id>, now: Time)
    ensures Verified(p, a, route, reference, now) <==>
      && p.request.Some? && p.decision.Some?
      && var request, decision := p.request.value, p.decision.value;
        && reference == Some(decision.id) && decision.verdict == Approve
        && decision.parameterDigest == OfParameters(a.terms.parameters)
        && request.parameterDigest == OfParameters(a.terms.parameters)
        && request.state == RequestApproved && now < request.expiresAt
        && a.terms.routeRef == Some(route.ref) && route == request.pinned && route.enabled
  {
  }

  // ---- The execution worker ----

  /** An approved action waiting to be executed, with what its worker will find. */
  predicate Waits(c: Cell) {
    c.record.action.state == AwaitingApproval && ApprovedRequest(c.approval)
  }

  predicate InTime(c: Cell, at: Time)
    requires c.approval.request.Some?
  {
    at < c.approval.request.value.expiresAt
  }

  predicate Settles(a: Action, why: (State, Code)) {
    && a.state == why.0 && a.result.reason == Some(why.1) && a.result.error.None? && a.result.status.None?
    && a.result.told == Some(ExecutionTold(a.terms.operation, a.state, a.result))
  }

  /** From which rows the action service prepares at all, and how it settles one found in the middle of an execution. */
  lemma PreparesIff(r: Record, before: bool, pre: Precondition, after: bool)
    ensures var (r', error) := PrepareSpec(r, before, pre, after, Explained);
      var a := r.action;
      var ready := a.state == Confirmed && a.terms.routeRef.None?;
      var approved := a.state == AwaitingApproval && a.terms.routeRef.Some? && a.approvalReference.Some? && a.approvedAt.Some?;
      && (error == Some(InvalidState) <==> !IsTerminal(a.state) && a.state != Executing && !ready && !approved)
      && (error.Some? || IsTerminal(a.state) ==> r' == r)
      && (a.state == Executing ==> r'.action == a.(state := Uncertain,
            result := Payload(Some(Interrupted), None, None, false, Some(OutcomeUnknown))))
      && (r'.action.state == Executing <==> (ready && pre.valid) || (approved && before && pre.valid && after))
      && (approved && !(before && pre.valid && after) ==>
            && r'.action.state == (if before && !pre.valid && pre.reason == Unavailable then Failed else Rejected)
            && r'.action.result.reason == Some(if before && !pre.valid then pre.reason else NoLongerValid)
            && r'.action.result.told == Some(ExecutionTold(a.terms.operation, r'.action.state, r'.action.result)))
  {
  }

  /** The checks that speak before anything is attached. */
  lemma RefusalIs(c: Cell, i: Inputs)
    requires Reachable(c) && Waits(c)
    ensures Refusal(c.record, c.approval, c.route, i) ==
      if !InTime(c, i.now) then Some((Expired, Lapsed))
      else if c.route != Some(c.approval.request.value.pinned) || !i.specPermits then Some((Rejected, NoLongerValid))
      else if !i.connector then Some((Failed, Unavailable))
      else None
  {
    ReachableInv(c);
  }

  /** The verifier's answers on an approved action, at any instant, with its decision attached or about to be. */
  lemma VerifierIs(c: Cell, a: Action, reference: Option<Id>, at: Time)
    requires Reachable(c) && Waits(c) && c.route == Some(c.approval.request.value.pinned)
    requires a.terms == c.record.action.terms && reference == Some(c.approval.decision.value.id)
    ensures Verified(c.approval, a, c.route.value, reference, at) <==> InTime(c, at)
  {
    ReachableInv(c);
  }

  /** And what the rest comes to once they have passed. */
  lemma PermitIs(c: Cell, i: Inputs)
    requires Reachable(c) && Waits(c) && c.route == Some(c.approval.request.value.pinned)
    ensures var outcome := Permit(c.record, c.approval, c.route.value, i);
      && (outcome.Aborted? <==> !InTime(c, i.verifiedAt))
      && (outcome.Permitted? <==> InTime(c, i.verifiedAt) && InTime(c, i.beforeAt) && i.pre.valid && InTime(c, i.afterAt))
      && (outcome.Settled? ==> Settles(outcome.record.action,
            if InTime(c, i.beforeAt) && !i.pre.valid then (if i.pre.reason == Unavailable then Failed else Rejected, i.pre.reason)
            else (Rejected, NoLongerValid)))
      && (outcome.Permitted? ==>
            && outcome.record.action == c.record.action.(state := Executing, attempts := 1,
                 approvalReference := Some(c.approval.decision.value.id), approvedAt := Some(c.approval.decision.value.decidedAt)))
  {
    ReachableInv(c);
    var d := c.approval.decision.value;
    var r1 := ApprovedBy(c.record, d.id, d.decidedAt);
    VerifierIs(c, c.record.action, Some(d.id), i.verifiedAt);
    VerifierIs(c, r1.action, Some(d.id), i.beforeAt);
    VerifierIs(c, r1.action, Some(d.id), i.afterAt);
    PreparesIff(r1, InTime(c, i.beforeAt), i.pre, InTime(c, i.afterAt));
  }

  /** A refused preparation settles the action as the refusal says; any other goes on to the permit. */
  lemma RefusedSettles(c: Cell, i: Inputs)
    requires Waits(c) && c.record.action.terms.ApprovalRequired()
    ensures var outcome := PrepareExecution(c.record, c.approval, c.route, i);
      match Refusal(c.record, c.approval, c.route, i)
      case Some(why) => outcome.Settled? && Settles(outcome.record.action, why)
      case None => outcome == Permit(c.record, c.approval, c.route.value, i)
  {
  }

  /**
   What a worker's preparation of an approved action comes to, in the order in which its checks speak: expiry,
   a changed route or agent, a missing connector, expiry again at each later reading, and the revalidation.
   */
  lemma PreparationOutcome(c: Cell, i: Inputs)
    requires Reachable(c) && Waits(c)
    ensures var outcome := PrepareExecution(c.record, c.approval, c.route, i);
      var same := c.route == Some(c.approval.request.value.pinned) && i.specPermits;
      var asked := InTime(c, i.now) && same && i.connector && InTime(c, i.verifiedAt);
      && (outcome.Permitted? <==> asked && InTime(c, i.beforeAt) && i.pre.valid && InTime(c, i.afterAt))
      && (outcome.Aborted? <==> InTime(c, i.now) && same && i.connector && !InTime(c, i.verifiedAt))
      && (outcome.Settled? ==> Settles(outcome.record.action,
            if !InTime(c, i.now) then (Expired, Lapsed)
            else if !same then (Rejected, NoLongerValid)
            else if !i.connector then (Failed, Unavailable)
            else if !InTime(c, i.beforeAt) then (Rejected, NoLongerValid)
            else if !i.pre.valid then (if i.pre.reason == Unavailable then Failed else Rejected, i.pre.reason)
            else (Rejected, NoLongerValid)))
      && (outcome.Permitted? ==>
            && outcome.record.action == c.record.action.(state := Executing, attempts := 1,
                 approvalReference := Some(c.approval.decision.value.id), approvedAt := Some(c.approval.decision.value.decidedAt)))
  {
    assert c.record.action.terms.ApprovalRequired() by { ReachableInv(c); }
    RefusalIs(c, i);
    RefusedSettles(c, i);
    if Refusal(c.record, c.approval, c.route, i).None? { PermitIs(c, i); }
  }

  /** What the worker asks of any row, request and route before it goes on, besides time and connector. */
  lemma PremisesIff(r: Record, p: Approval, route: Policy, i: Inputs)
    requires p.request.Some? && p.decision.Some?
    ensures var t, request := r.action.terms, p.request.value;
      StillValid(r, p, route, i) <==>
        && request.state == RequestApproved && route.enabled && route == request.pinned && i.specPermits
        && t.routeRef == Some(route.ref) && t.operation == route.operation && t.capability == route.capability
        && request.parameterDigest == OfParameters(t.parameters)
        && p.decision.value.parameterDigest == OfParameters(t.parameters)
  {
  }

  /** A decision attached already is not attached again: the reference and its instant stay, with no event for them. */
  lemma AttachedOnce(r: Record, p: Approval, route: Policy, i: Inputs)
    requires p.decision.Some? && r.action.state == AwaitingApproval && r.action.approvalReference.Some?
    ensures var outcome := Permit(r, p, route, i);
      !outcome.Aborted? ==>
        && outcome.record.action.approvalReference == r.action.approvalReference
        && outcome.record.action.approvedAt == r.action.approvedAt && |outcome.record.events| == |r.events| + 1
  {
  }

  /** A preparation in any other state: finished actions are left alone, an interrupted one is settled, the rest rolls back. */
  lemma OtherPreparations(c: Cell, i: Inputs)
    requires Reachable(c) && !Waits(c)
    ensures var outcome := PrepareExecution(c.record, c.approval, c.route, i);
      var a, asked := c.record.action, c.record.action.terms.ApprovalRequired() && c.approval.request.Some?;
      && (asked && IsTerminal(a.state) ==> outcome == Settled(c.record))
      && (asked && a.state == Executing ==>
            outcome.Settled? && outcome.record.action == a.(state := Uncertain,
              result := Payload(Some(Interrupted), None, None, false, Some(OutcomeUnknown))))
      && (!asked || (!IsTerminal(a.state) && a.state != Executing) ==> outcome.Aborted?)
  {
    ReachableInv(c);
  }

  /** What the customer is told of an outcome, by its state and the code it was recorded with. */
  lemma ToldIs(operation: Operation, state: State, payload: Payload)
    ensures var told := ExecutionTold(operation, state, payload);
      var code := if payload.reason.Some? then payload.reason else payload.error;
      var down := code == Some(Unavailable) || code == Some(NotConnected) || code == Some(OrderProviderDown) || code == Some(ProviderDown);
      && (state == Uncertain ==> told == OutcomeUnknown) && (state == Expired ==> told == ApprovalExpired)
      && (state == Succeeded && operation.OtherOperation? ==> told == ActionCompleted)
      && (state == Succeeded && !operation.OtherOperation? ==>
            told == if payload.notCancelled then RequestRecorded else OutcomeUnknown)
      && (state == Failed || state == Rejected ==>
            && (told == OrderAlreadyShipped <==> code == Some(AlreadyShipped))
            && (told == AppointmentAlreadyCancelled <==> code == Some(AlreadyCancelled))
            && (told == ReviewerRejected <==> code == Some(ReviewerSaidNo))
            && (told == ConnectorUnavailable <==> down)
            && (told == ExecutionFailed ==> state == Failed && payload.status != Some(ConnectorStatus.Refused))
            && (told == PreconditionChanged ==> state == Rejected || payload.status == Some(ConnectorStatus.Refused)))
  {
  }

  /** A worker's crash leaves row, request and provider log as they were, and frees its place. */
  lemma CrashLeavesTheRow(c: Cell, x: Id)
    requires x in c.workers
    ensures var c' := Step(c, Crash(x));
      && x !in c'.workers && c'.record == c.record && c'.approval == c.approval && c'.calls == c.calls
      && (c.guard == Some(x) ==> c'.guard.None?)
  {
  }
}
