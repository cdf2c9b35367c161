/**
 The approval service's transactions and the lifecycle job's, as they rewrite the rows of one
 action: proved to do what the specification functions say.
 */
module ApprovalService {
  import opened Wrappers
  import opened Clock
  import opened Actions
  import opened Approvals
  import opened ApprovalLinks

  datatype Route = Route(configuration: Policy, revision: nat)

  datatype Saved = Unchanged | Stored | NoMailbox | RevisionConflict

  function RevisionOf(route: Option<Route>): nat {
    if route.Some? then route.value.revision else 0
  }

  function SaveRouteSpec(route: Option<Route>, configuration: Policy, expected: nat, mailer: bool): (Option<Route>, Saved) {
    if configuration.enabled && !mailer then (route, NoMailbox)
    else if route.Some? && route.value.configuration == configuration then (route, Unchanged)
    else if RevisionOf(route) != expected then (route, RevisionConflict)
    else (Some(Route(configuration, expected + 1)), Stored)
  }

  /** Of two different edits based on the same revision, whichever comes second is refused. */
  lemma SecondEditIsRefused(route: Option<Route>, first: Policy, second: Policy, expected: nat)
    requires SaveRouteSpec(route, first, expected, true).1 == Stored && first != second
    ensures SaveRouteSpec(SaveRouteSpec(route, first, expected, true).0, second, expected, true).1 == RevisionConflict
    ensures SaveRouteSpec(SaveRouteSpec(route, first, expected, true).0, second, expected + 1, true).1 == Stored
  {
  }

  /** What the presented link, claim and code amount to, for any link id. */
  function Answered(links: map<Id, Link>, link: Id, claim: Claim, policy: Policy, challenge: Id, code: string, now: Time): Verification {
    if link in links then VerifyLink(links[link], claim, policy, challenge, code, now) else NotYours
  }

  datatype Receipt = RequestClosed | InvalidVerification | Recorded

  class Rows {
    var record: Record
    var approval: Approval
    var route: Option<Route>
    const desk: Desk

    constructor (record: Record)
      ensures this.record == record && approval == Approval(None, None) && route == None
      ensures fresh(desk) && desk.links == map[] && desk.mailed == []
    {
      this.record, approval, route := record, Approval(None, None), None;
      desk := new Desk();
    }

    method SaveRoute(configuration: Policy, expected: nat, mailer: bool) returns (outcome: Saved)
      modifies this`route
      ensures (route, outcome) == SaveRouteSpec(old(route), configuration, expected, mailer)
    {
      if configuration.enabled && !mailer { return NoMailbox; }
      if route.Some? && route.value.configuration == configuration { return Unchanged; }
      if (if route.Some? then route.value.revision else 0) != expected { return RevisionConflict; }
      route := Some(Route(configuration, expected + 1));
      return Stored;
    }

    /** Opens the request with one link for every authorized mailbox. */
    method OpenRequest(mailer: bool, id: Id, ids: seq<Id>, now: Time) returns (issued: bool)
      requires route.Some? ==> Distinct(route.value.configuration.emails) && |ids| == |route.value.configuration.emails|
      requires Distinct(ids)
      modifies this`approval, desk`links
      ensures approval == OpenSpec(old(approval), record.action,
                if route.Some? then Some(route.value.configuration) else None, mailer, id, now)
      ensures issued <==> old(approval).request.None? && approval.request.Some?
      ensures if issued then OneLinkEach(desk.links, approval.request.value.pinned.emails) else desk.links == old(desk.links)
    {
      if approval.request.Some? { return false; }
      if route.None? || !route.value.configuration.enabled || !mailer { return false; }
      var policy := route.value.configuration;
      var a := record.action;
      if !ActionMatches(a, policy) || !ConfirmationStands(a, now) { return false; }
      var expiry := Floored(now + policy.expiresMinutes * MINUTE);
      approval := approval.(request := Some(Request(id, a.terms.ParameterDigest(), policy, RequestPending, now, expiry)));
      desk.links := OpenLinks(policy.emails, ids);
      return true;
    }

    /** close_request: the request if still pending, its links, and an action that was waiting for it. */
    method Close(state: RequestState, now: Time)
      requires approval.request.Some?
      modifies this`record, this`approval, desk`links
      ensures (approval, record) == CloseSpec(old(approval), old(record), state)
      ensures desk.links == ShutAll(old(desk.links), now)
    {
      if approval.request.value.state == RequestPending {
        approval := approval.(request := Some(approval.request.value.(state := state)));
      }
      desk.links := map id | id in desk.links :: desk.links[id].(invalidatedAt := Some(now), otp := None);
      if (state == RequestRejected || state == RequestExpired) && record.action.state == AwaitingApproval {
        var target := if state == RequestRejected then Rejected else Expired;
        record := Finished(record, target, EMPTY.(told := Some(ToldOnClose(state))));
      }
    }

    /** `_usable`: closes the request when its time or its premises have gone. */
    method Usable(now: Time) returns (usable: bool)
      requires approval.request.Some? && route.Some?
      modifies this`record, this`approval, desk`links
      ensures var u := UsabilityOf(old(approval).request.value,
                Matches(old(approval).request.value, old(record).action, route.value.configuration), route.value.configuration, now);
        && usable == u.Usable?
        && desk.links == (if u.MustClose? then ShutAll(old(desk.links), now) else old(desk.links))
      ensures (approval, record) == TouchSpec(old(approval), old(record), route.value.configuration, now)
    {
      var request, policy := approval.request.value, route.value.configuration;
      if request.state != RequestPending { return false; }
      if now >= request.expiresAt {
        Close(RequestExpired, now);
        return false;
      }
      if !policy.enabled || policy != request.pinned || !ActionMatches(record.action, policy)
         || record.action.terms.ParameterDigest() != request.parameterDigest {
        Close(RequestInvalidated, now);
        return false;
      }
      return true;
    }

    /** A decision needs a usable request and the link's delivered code; a wrong code is counted. */
    method Decide(now: Time, link: Id, claim: Claim, challenge: Id, code: string, provedAt: Time, verdict: Verdict,
                  id: Id, decidedAt: Time)
      returns (receipt: Receipt)
      requires approval.request.Some? && route.Some?
      modifies this`record, this`approval, desk`links
      ensures var policy := route.value.configuration;
        var request := old(approval).request.value;
        var u := UsabilityOf(request, Matches(request, old(record).action, policy), policy, now);
        var v := Answered(old(desk.links), link, claim, policy, challenge, code, provedAt);
        && (approval, record) == DecideSpec(old(approval), old(record), policy, now, v.Right?, verdict, id, decidedAt)
        && receipt == (if !u.Usable? then RequestClosed else if v.Right? then Recorded else InvalidVerification)
        && desk.links ==
             (if u.MustClose? then ShutAll(old(desk.links), now)
              else if u.Shut? then old(desk.links)
              else match v
                case Right => ShutAll(old(desk.links), decidedAt)
                case Wrong(saved) => old(desk.links)[link := saved]
                case NotYours => old(desk.links))
    {
      var usable := Usable(now);
      if !usable { return RequestClosed; }
      var proved := desk.Verify(link, claim, route.value.configuration, challenge, code, provedAt);
      if !proved { return InvalidVerification; }
      var d := Decision(id, record.action.terms.ParameterDigest(), verdict, decidedAt);
      approval := approval.(decision := Some(d));
      Close(if verdict == Approve then RequestApproved else RequestRejected, decidedAt);
      return Recorded;
    }

    /** The approvals.expire job. */
    method Lapse(now: Time)
      modifies this`record, this`approval, desk`links
      ensures (approval, record) == LapseSpec(old(approval), old(record), now)
      ensures desk.links == if approval != old(approval) then ShutAll(old(desk.links), now) else old(desk.links)
    {
      if approval.request.Some? && approval.request.value.state == RequestPending && approval.request.value.expiresAt <= now {
        Close(RequestExpired, now);
      }
    }

    /** The actions.expire job. */
    method ExpireConfirmation(now: Time)
      modifies this`record
      ensures record == ExpireSpec(old(record), now)
    {
      var a := record.action;
      if a.state == AwaitingConfirmation && a.terms.confirmationExpiresAt.Some? && a.terms.confirmationExpiresAt.value <= now {
        record := Finished(record, Expired, a.result);
      }
    }
  }
}
