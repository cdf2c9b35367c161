/**
 Approval routes, requests and decisions for one action: who may open a request, when it is still
 usable, how it closes, and what the execution worker's verifier accepts.
 */
module Approvals {
  import opened Wrappers
  import opened Clock
  import opened Actions

  /**
   A route's configuration.  Its digest stands for the configuration itself, mailbox order included:
   the digest is taken over JSON whose lists keep their order.
   */
  datatype Policy = Policy(
    ref: string,
    capability: string,
    operation: Operation,
    emails: seq<string>,
    enabled: bool,
    expiresMinutes: nat,
    otpSeconds: nat,
    otpMaxAttempts: nat,
    otpMaxSends: nat,
    otpCooldown: nat)

  predicate Distinct<T(==)>(s: seq<T>) {
    forall i, k :: 0 <= i < k < |s| ==> s[i] != s[k]
  }

  /** The bounds the configuration model enforces. */
  predicate ValidPolicy(p: Policy) {
    && p.emails != [] && Distinct(p.emails) && 1 <= p.expiresMinutes <= 10080 && 30 <= p.otpSeconds <= 600
    && 1 <= p.otpMaxAttempts <= 5 && 1 <= p.otpMaxSends <= 5 && 30 <= p.otpCooldown <= 600
  }

  datatype RequestState = RequestPending | RequestApproved | RequestRejected | RequestExpired | RequestInvalidated

  datatype Request = Request(
    id: Id, parameterDigest: Digest, pinned: Policy, state: RequestState, createdAt: Time, expiresAt: Time)

  datatype Verdict = Approve | Reject

  datatype Decision = Decision(id: Id, parameterDigest: Digest, verdict: Verdict, decidedAt: Time)

  /** What the approval tables hold for one action: at most one request and one decision. */
  datatype Approval = Approval(request: Option<Request>, decision: Option<Decision>)

  predicate ActionMatches(a: Action, route: Policy) {
    && a.state == AwaitingApproval
    && a.terms.routeRef == Some(route.ref)
    && a.terms.capability == route.capability
    && a.terms.operation == route.operation
    && a.terms.achievedLevel >= a.terms.requiredLevel
  }

  predicate ConfirmationStands(a: Action, now: Time) {
    a.terms.ConfirmationRequired() ==>
      && a.confirmedAt.Some? && a.confirmedAt.value < a.terms.confirmationExpiresAt.value
      && now < a.terms.confirmationExpiresAt.value
      && a.confirmationDigest == Some(a.terms.Evidence())
  }

  /** ApprovalService.request: opens the action's one request, or returns the one it has. */
  function OpenSpec(p: Approval, a: Action, route: Option<Policy>, mailer: bool, id: Id, now: Time): Approval {
    if p.request.Some? then p
    else if route.None? || !route.value.enabled || !mailer then p
    else if !ActionMatches(a, route.value) || !ConfirmationStands(a, now) then p
    else p.(request := Some(Request(id, a.terms.ParameterDigest(), route.value, RequestPending, now,
                                    Floored(now + route.value.expiresMinutes * MINUTE))))
  }

  datatype Usability = Usable | Shut | MustClose(state: RequestState)

  /** `_usable` without its effect. */
  function UsabilityOf(request: Request, matches: bool, route: Policy, now: Time): Usability {
    if request.state != RequestPending then Shut
    else if now >= request.expiresAt then MustClose(RequestExpired)
    else if !route.enabled || route != request.pinned || !matches then MustClose(RequestInvalidated)
    else Usable
  }

  predicate Matches(request: Request, a: Action, route: Policy) {
    ActionMatches(a, route) && a.terms.ParameterDigest() == request.parameterDigest
  }

  function ToldOnClose(state: RequestState): Told {
    if state == RequestRejected then ReviewerRejected else ApprovalExpired
  }

  /** close_request, shared by decision, expiry, invalidation and the lifecycle job. */
  function CloseSpec(p: Approval, r: Record, state: RequestState): (Approval, Record)
    requires p.request.Some?
  {
    var request := p.request.value;
    var p' := if request.state == RequestPending then p.(request := Some(request.(state := state))) else p;
    if (state.RequestRejected? || state.RequestExpired?) && r.action.state == AwaitingApproval
    then (p', Finished(r, if state == RequestRejected then Rejected else Expired, EMPTY.(told := Some(ToldOnClose(state)))))
    else (p', r)
  }

  /** Any locked reviewer or backend call that only looks: closes the request when it must. */
  function TouchSpec(p: Approval, r: Record, route: Policy, now: Time): (Approval, Record) {
    if p.request.None? then (p, r)
    else
      match UsabilityOf(p.request.value, Matches(p.request.value, r.action, route), route, now)
      case MustClose(state) => CloseSpec(p, r, state)
      case _ => (p, r)
  }

  /** ApprovalService.decide; `verified` is what the link and the code proved. */
  function DecideSpec(p: Approval, r: Record, route: Policy, now: Time, verified: bool, verdict: Verdict,
                      id: Id, decidedAt: Time): (Approval, Record) {
    if p.request.None? then (p, r)
    else
      match UsabilityOf(p.request.value, Matches(p.request.value, r.action, route), route, now)
      case Shut => (p, r)
      case MustClose(state) => CloseSpec(p, r, state)
      case Usable =>
        if !verified then (p, r)
        else
          var d := Decision(id, r.action.terms.ParameterDigest(), verdict, decidedAt);
          CloseSpec(p.(decision := Some(d)), r, if verdict.Approve? then RequestApproved else RequestRejected)
  }

  /** The scheduler's approvals.expire job. */
  function LapseSpec(p: Approval, r: Record, now: Time): (Approval, Record) {
    if p.request.Some? && p.request.value.state == RequestPending && p.request.value.expiresAt <= now
    then CloseSpec(p, r, RequestExpired) else (p, r)
  }

  /** PersistedApprovalVerifier.verify. */
  predicate Verified(p: Approval, a: Action, route: Policy, reference: Option<Id>, now: Time) {
    && p.request.Some? && p.decision.Some?
    && reference == Some(p.decision.value.id)
    && p.decision.value.parameterDigest == a.terms.ParameterDigest()
    && p.request.value.parameterDigest == a.terms.ParameterDigest()
    && p.decision.value.verdict == Approve
    && p.request.value.state == RequestApproved
    && p.request.value.expiresAt > now
    && a.terms.routeRef == Some(route.ref)
    && route == p.request.value.pinned
    && route.enabled
  }
}
