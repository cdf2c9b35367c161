/**
 The action repository's compare-and-set writes and the action service built on them, as one
 session runs them.  Each service method is proved to do what its specification function says.
 */
module ActionService {
  import opened Wrappers
  import opened Clock
  import opened Actions
  import opened Approvals

  const CONFIRMATION_TTL := 15 * MINUTE

  /** The actions and action_events tables. */
  class Repository {
    var records: map<Id, Record>

    constructor ()
      ensures records == map[]
    {
      records := map[];
    }

    /** Appends with the version after the highest one present. */
    method AppendEvent(id: Id, from: State)
      requires id in records
      modifies this
      ensures records == old(records)[id := Record(old(records)[id].action, old(records)[id].events +
        [Entry(MaxVersion(old(records)[id].events) + 1, Some(from), old(records)[id].action.state, old(records)[id].action)])]
    {
      var r := records[id];
      var highest, k := 0, 0;
      while k < |r.events|
        invariant k <= |r.events| && highest == MaxVersion(r.events[..k])
      {
        assert r.events[..k + 1][..k] == r.events[..k];
        if r.events[k].version > highest { highest := r.events[k].version; }
        k := k + 1;
      }
      assert r.events[..k] == r.events;
      records := records[id := r.(events := r.events + [Entry(highest + 1, Some(from), r.action.state, r.action)])];
    }

    /** INSERT ... ON CONFLICT (id) DO NOTHING. */
    method Create(terms: Terms) returns (created: bool)
      modifies this
      ensures created <==> terms.id !in old(records)
      ensures records == if created then old(records)[terms.id := Created(terms)] else old(records)
    {
      created := terms.id !in records;
      if created {
        records := records[terms.id := Created(terms)];
      }
    }

    /** UPDATE ... WHERE state = expected; a lost race raises. */
    method Update(id: Id, expected: State, row: Action) returns (ok: bool)
      modifies this
      ensures ok <==> id in old(records) && old(records)[id].action.state == expected
      ensures records == if ok then old(records)[id := Write(old(records)[id], row)] else old(records)
    {
      ok := id in records && records[id].action.state == expected;
      if ok {
        records := records[id := records[id].(action := row)];
        AppendEvent(id, expected);
      }
    }
  }

  predicate SameRequest(existing: Terms, wanted: Terms) {
    && existing.conversation == wanted.conversation && existing.customer == wanted.customer
    && existing.operation == wanted.operation && existing.ParameterDigest() == wanted.ParameterDigest()
    && existing.binding == wanted.binding
  }

  function Deadlined(wanted: Terms, confirm: bool, now: Time): Terms {
    wanted.(confirmationExpiresAt := if confirm then Some(now + CONFIRMATION_TTL) else None)
  }

  class Service {
    const repository: Repository

    constructor (repository: Repository)
      ensures this.repository == repository
    {
      this.repository := repository;
    }

    method Transition(id: Id, target: State)
      requires id in repository.records && CanMove(repository.records[id].action.state, target)
      modifies repository
      ensures repository.records == old(repository.records)[id := Moved(old(repository.records)[id], target)]
    {
      var a := repository.records[id].action;
      var ok := repository.Update(id, a.state, a.(state := target));
    }

    method Finish(id: Id, target: State, payload: Payload)
      requires id in repository.records
      modifies repository
      ensures repository.records == old(repository.records)[id := Finished(old(repository.records)[id], target, payload)]
    {
      var a := repository.records[id].action;
      var ok := repository.Update(id, a.state, a.(state := target, result := payload));
    }

    /** `wanted` is what the evaluated policy and the arguments make of the row, but for its deadline. */
    method Request(wanted: Terms, confirm: bool, approvalNeeded: bool, authorized: bool, now: Time)
      returns (error: Option<Error>)
      modifies repository
      ensures var id, before := wanted.id, old(repository.records);
        var terms := Deadlined(wanted, confirm, now);
        if approvalNeeded && (terms.routeRef.None? || terms.routeRef.value == []) then
          repository.records == before && error == Some(RouteRequired)
        else if !approvalNeeded && terms.routeRef.Some? then
          repository.records == before && error == Some(CheckViolated)
        else if id in before then
          repository.records == before && (error.None? <==> SameRequest(before[id].action.terms, terms))
        else repository.records == before[id := RequestSpec(terms, authorized).0] && error == RequestSpec(terms, authorized).1
    {
      var terms := Deadlined(wanted, confirm, now);
      if approvalNeeded && (terms.routeRef.None? || terms.routeRef.value == []) { return Some(RouteRequired); }
      // the table stores the requirement beside the route, and its CHECK wants both or neither
      if !approvalNeeded && terms.routeRef.Some? { return Some(CheckViolated); }
      var id := terms.id;
      var created := repository.Create(terms);
      if !created {
        return if SameRequest(repository.records[id].action.terms, terms) then None else Some(Conflict);
      }
      if !authorized || terms.achievedLevel < terms.requiredLevel {
        Transition(id, Rejected);
        return Some(NotAuthorized);
      }
      Transition(id, IdentityVerified);
      var target := if terms.ConfirmationRequired() then AwaitingConfirmation else Confirmed;
      Transition(id, target);
      if target == Confirmed && terms.ApprovalRequired() {
        Transition(id, AwaitingApproval);
      }
      return None;
    }

    method Confirm(id: Id, digest: Digest, customer: string, now: Time) returns (error: Option<Error>)
      modifies repository
      ensures var before := old(repository.records);
        if id !in before then repository.records == before && error == Some(NotFound)
        else (repository.records, error) == (before[id := ConfirmSpec(before[id], digest, customer, now).0],
                                             ConfirmSpec(before[id], digest, customer, now).1)
    {
      if id !in repository.records { return Some(NotFound); }
      assert repository.records[id := repository.records[id]] == repository.records;
      var a := repository.records[id].action;
      if a.state != AwaitingConfirmation { return Some(InvalidState); }
      if customer != a.terms.customer { return Some(Mismatch); }
      if a.terms.confirmationExpiresAt.None? || now >= a.terms.confirmationExpiresAt.value {
        Transition(id, Expired);
        return Some(TooLate);
      }
      if digest != a.terms.ParameterDigest() {
        Transition(id, Rejected);
        return Some(Mismatch);
      }
      var ok := repository.Update(id, AwaitingConfirmation, a.(state := Confirmed,
        confirmationDigest := Some(a.terms.Evidence()), confirmedAt := Some(now)));
      ghost var confirmed := ConfirmedBy(old(repository.records)[id], now);
      assert repository.records == old(repository.records)[id := confirmed];
      if a.terms.ApprovalRequired() {
        Transition(id, AwaitingApproval);
        assert repository.records == old(repository.records)[id := Moved(confirmed, AwaitingApproval)];
      }
      return None;
    }

    /** `verified` is the approval verifier's answer. */
    method ApproveReference(id: Id, digest: Digest, reference: Id, verified: bool, at: Time) returns (error: Option<Error>)
      modifies repository
      ensures var before := old(repository.records);
        if id !in before then repository.records == before && error == Some(NotFound)
        else
          var a := before[id].action;
          if a.state == AwaitingApproval && a.terms.ApprovalRequired() && digest == a.terms.ParameterDigest()
             && verified && a.approvalReference.None?
          then error.None? && repository.records == before[id := ApprovedBy(before[id], reference, at)]
          else error.Some? && repository.records == before
    {
      if id !in repository.records { return Some(NotFound); }
      assert repository.records[id := repository.records[id]] == repository.records;
      var a := repository.records[id].action;
      if a.state != AwaitingApproval || !a.terms.ApprovalRequired() || digest != a.terms.ParameterDigest() || !verified {
        return Some(InvalidApproval);
      }
      if a.approvalReference.Some? { return Some(InvalidApproval); }
      var ok := repository.Update(id, AwaitingApproval, a.(approvalReference := Some(reference), approvedAt := Some(at)));
      return None;
    }

    method PrepareExecution(id: Id, before: bool, pre: Precondition, after: bool,
                            explain: (Operation, State, Payload) -> Payload) returns (error: Option<Error>)
      modifies repository
      ensures var rows := old(repository.records);
        if id !in rows then repository.records == rows && error == Some(NotFound)
        else (repository.records, error) == (rows[id := PrepareSpec(rows[id], before, pre, after, explain).0],
                                             PrepareSpec(rows[id], before, pre, after, explain).1)
    {
      if id !in repository.records { return Some(NotFound); }
      assert repository.records[id := repository.records[id]] == repository.records;
      var a := repository.records[id].action;
      var op := a.terms.operation;
      if IsTerminal(a.state) { return None; }
      if a.state == Executing {
        Finish(id, Uncertain, explain(op, Uncertain, Because(Interrupted)));
        return None;
      }
      var ready := a.state == Confirmed && !a.terms.ApprovalRequired();
      var approved := a.state == AwaitingApproval && a.terms.ApprovalRequired()
        && a.approvalReference.Some? && a.approvedAt.Some?;
      if !ready && !approved { return Some(InvalidState); }
      if approved && !before {
        Finish(id, Rejected, explain(op, Rejected, Because(NoLongerValid)));
        return None;
      }
      if !pre.valid {
        var target := if approved && pre.reason != Unavailable then Rejected else Failed;
        Finish(id, target, explain(op, target, Because(pre.reason)));
        return None;
      }
      if approved && !after {
        Finish(id, Rejected, explain(op, Rejected, Because(NoLongerValid)));
        return None;
      }
      var ok := repository.Update(id, a.state, a.(state := Executing, attempts := a.attempts + 1));
      return None;
    }

    method CompleteExecution(id: Id, result: ConnectorResult, safeRead: bool,
                             explain: (Operation, State, Payload) -> Payload) returns (error: Option<Error>)
      modifies repository
      ensures var rows := old(repository.records);
        if id !in rows then repository.records == rows && error == Some(NotFound)
        else (repository.records, error) == (rows[id := CompleteSpec(rows[id], result, safeRead, explain).0],
                                             CompleteSpec(rows[id], result, safeRead, explain).1)
    {
      if id !in repository.records { return Some(NotFound); }
      assert repository.records[id := repository.records[id]] == repository.records;
      var a := repository.records[id].action;
      if IsTerminal(a.state) { return None; }
      if a.state != Executing { return Some(InvalidState); }
      var final := result;
      if result.sensitive {
        final := ConnectorResult(a.terms.operation, if safeRead then Broke else Unknown, false, false, Some(ResponseRejected));
      }
      var target := Uncertain;
      match final.status {
        case Ok => target := Succeeded;
        case Refused => target := Failed;
        case Broke => target := Failed;
        case Unknown => target := Uncertain;
      }
      Finish(id, target, explain(a.terms.operation, target, Payload(None, final.error, Some(final.status), final.notCancelled, None)));
      return None;
    }
  }
}
