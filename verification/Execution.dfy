/**
 The approval execution worker.  It commits EXECUTING with its evidence before it calls the
 connector, and records the answer afterwards; a later run that finds EXECUTING only ever
 settles it as UNCERTAIN.
 */
module Execution {
  import opened Wrappers
  import opened Clock
  import opened Actions
  import opened Approvals

  predicate IsCancellation(operation: Operation) {
    operation.OrderCancellation? || operation.AppointmentCancellation?
  }

  datatype ToldStatus = PendingExecution | ToldSucceeded | ToldRejected | ToldFailed | ToldUncertain | ToldExpired

  function StatusOf(told: Told): ToldStatus {
    match told
    case ApprovalRecorded => PendingExecution
    case ReviewerRejected => ToldRejected
    case OrderAlreadyShipped => ToldRejected
    case AppointmentAlreadyCancelled => ToldRejected
    case PreconditionChanged => ToldRejected
    case ActionCompleted => ToldSucceeded
    case RequestRecorded => ToldSucceeded
    case ExecutionFailed => ToldFailed
    case ConnectorUnavailable => ToldFailed
    case OutcomeUnknown => ToldUncertain
    case ApprovalExpired => ToldExpired
  }

  predicate MeansUnavailable(code: Code) {
    code.Unavailable? || code.NotConnected? || code.OrderProviderDown? || code.ProviderDown?
  }

  /** execution_result: verified backend outcomes only, never the reviewer's proposal. */
  function ExecutionTold(operation: Operation, state: State, payload: Payload): Told {
    var reason := if payload.reason.Some? then payload.reason else payload.error;
    if state == Uncertain then OutcomeUnknown
    else if state == Expired then ApprovalExpired
    else if state == Succeeded then
      if !IsCancellation(operation) then ActionCompleted
      else if payload.notCancelled then RequestRecorded
      else OutcomeUnknown
    else if reason == Some(AlreadyShipped) then OrderAlreadyShipped
    else if reason == Some(AlreadyCancelled) then AppointmentAlreadyCancelled
    else if reason == Some(ReviewerSaidNo) then ReviewerRejected
    else if reason.Some? && MeansUnavailable(reason.value) then ConnectorUnavailable
    else if state == Rejected || payload.status == Some(Refused) then PreconditionChanged
    else ExecutionFailed
  }

  function Explained(operation: Operation, state: State, payload: Payload): Payload {
    payload.(told := Some(ExecutionTold(operation, state, payload)))
  }

  /** What the worker reads while it prepares: clocks, the active spec, the connector and the revalidation. */
  datatype Inputs = Inputs(
    now: Time, specPermits: bool, connector: bool,
    verifiedAt: Time, beforeAt: Time, pre: Precondition, afterAt: Time)

  datatype Prepared = Aborted | Settled(record: Record) | Permitted(record: Record)

  predicate StillValid(r: Record, p: Approval, route: Policy, i: Inputs)
    requires p.request.Some? && p.decision.Some?
  {
    var a, request, decision := r.action, p.request.value, p.decision.value;
    && request.state == RequestApproved
    && route.enabled && route == request.pinned
    && a.terms.routeRef == Some(route.ref)
    && route.operation == a.terms.operation && route.capability == a.terms.capability
    && request.parameterDigest == a.terms.ParameterDigest()
    && decision.parameterDigest == a.terms.ParameterDigest()
    && i.specPermits
  }

  /** Why an approved action may not go ahead, and the state that ends it. */
  function Refusal(r: Record, p: Approval, route: Option<Policy>, i: Inputs): Option<(State, Code)>
    requires p.request.Some? && p.decision.Some?
  {
    if p.request.value.expiresAt <= i.now then Some((Expired, Lapsed))
    else if route.None? || !StillValid(r, p, route.value, i) then Some((Rejected, NoLongerValid))
    else if !i.connector then Some((Failed, Unavailable))
    else None
  }

  /** Attaches the decision unless it is attached already, and lets the action service prepare. */
  function Permit(r: Record, p: Approval, route: Policy, i: Inputs): Prepared
    requires p.decision.Some?
  {
    var d := p.decision.value;
    var approve := r.action.state == AwaitingApproval && r.action.approvalReference.None?;
    if approve && !Verified(p, r.action, route, Some(d.id), i.verifiedAt) then Aborted
    else
      var r1 := if approve then ApprovedBy(r, d.id, d.decidedAt) else r;
      var before := Verified(p, r1.action, route, r1.action.approvalReference, i.beforeAt);
      var after := Verified(p, r1.action, route, r1.action.approvalReference, i.afterAt);
      var (r2, error) := PrepareSpec(r1, before, i.pre, after, Explained);
      if error.Some? then Aborted
      else if IsTerminal(r2.action.state) then Settled(r2)
      else Permitted(r2)
  }

  /** Everything up to the commit that precedes the connector call; Aborted rolls back. */
  function PrepareExecution(r: Record, p: Approval, route: Option<Policy>, i: Inputs): Prepared {
    var a := r.action;
    if !a.terms.ApprovalRequired() || p.request.None? then Aborted
    else if IsTerminal(a.state) then Settled(r)
    else if p.decision.None? || p.decision.value.verdict != Approve then Aborted
    else if a.state == Executing then
      Settled(Finished(r, Uncertain, Because(Interrupted).(told := Some(OutcomeUnknown))))
    else
      match Refusal(r, p, route, i)
      case Some((state, code)) => Settled(Finished(r, state, Explained(a.terms.operation, state, Because(code))))
      case None => Permit(r, p, route.value, i)
  }

  /** A malformed successful receipt is not evidence of success. */
  function Receipt(operation: Operation, result: ConnectorResult): ConnectorResult {
    if result.status == Ok && (result.operation != operation || (IsCancellation(operation) && !result.notCancelled))
    then ConnectorResult(operation, Unknown, false, false, Some(InvalidReceipt))
    else result
  }

  /** The worker's second transaction, for the last reply it had. */
  function CompleteReply(r: Record, reply: Reply, safeRead: bool): (Record, Option<Error>) {
    var op := r.action.terms.operation;
    CompleteSpec(r, Receipt(op, ReplyResult(op, safeRead, reply)), safeRead, Explained)
  }

  /** Success as the worker means it: the right operation, and for a cancellation an explicit "not cancelled". */
  predicate GenuineSuccess(operation: Operation, reply: Reply) {
    && reply.Answer? && reply.result.status == Ok && !reply.result.sensitive
    && reply.result.operation == operation
    && (IsCancellation(operation) ==> reply.result.notCancelled)
  }

  /** The customer is told success, uncertainty or expiry exactly when that is the action's state. */
  predicate ToldFaithfully(state: State, told: Told) {
    && (state == Succeeded <==> StatusOf(told) == ToldSucceeded)
    && (state == Uncertain <==> StatusOf(told) == ToldUncertain)
    && (state == Expired <==> StatusOf(told) == ToldExpired)
    && StatusOf(told) != PendingExecution
  }

  /** The rows of one action and the connector's log, as the worker's three steps change them. */
  class Worker {
    var record: Record
    var approval: Approval
    var route: Option<Policy>
    var calls: seq<Reply>

    constructor (record: Record, approval: Approval, route: Option<Policy>)
      ensures this.record == record && this.approval == approval && this.route == route && calls == []
    {
      this.record, this.approval, this.route, calls := record, approval, route, [];
    }

    method Prepare(i: Inputs) returns (outcome: Prepared)
      modifies this`record
      ensures outcome == PrepareExecution(old(record), approval, route, i)
      ensures record == if outcome.Aborted? then old(record) else outcome.record
    {
      var r := record;
      var t := r.action.terms;
      if !t.ApprovalRequired() || approval.request.None? { return Aborted; }
      var request := approval.request.value;
      if IsTerminal(r.action.state) { return Settled(r); }
      if approval.decision.None? || approval.decision.value.verdict != Approve { return Aborted; }
      var decision := approval.decision.value;
      if r.action.state == Executing {
        r := Finished(r, Uncertain, Because(Interrupted).(told := Some(OutcomeUnknown)));
        record := r;
        return Settled(r);
      }
      var reason := None;
      if request.expiresAt <= i.now {
        reason := Some(Lapsed);
      } else if route.None? || !StillValid(r, approval, route.value, i) {
        reason := Some(NoLongerValid);
      }
      if reason.Some? {
        var target := if reason.value == Lapsed then Expired else Rejected;
        r := Finished(r, target, Explained(t.operation, target, Because(reason.value)));
        record := r;
        return Settled(r);
      }
      if !i.connector {
        r := Finished(r, Failed, Explained(t.operation, Failed, Because(Unavailable)));
        record := r;
        return Settled(r);
      }
      if r.action.state == AwaitingApproval && r.action.approvalReference.None? {
        if !Verified(approval, r.action, route.value, Some(decision.id), i.verifiedAt) { return Aborted; }
        r := ApprovedBy(r, decision.id, decision.decidedAt);
      }
      var before := Verified(approval, r.action, route.value, r.action.approvalReference, i.beforeAt);
      var after := Verified(approval, r.action, route.value, r.action.approvalReference, i.afterAt);
      var (r', error) := PrepareSpec(r, before, i.pre, after, Explained);
      if error.Some? { return Aborted; }
      record := r';
      return if IsTerminal(r'.action.state) then Settled(r') else Permitted(r');
    }

    /** The retry loop around the connector; `replies` is what the provider will answer. */
    method Invoke(safeRead: bool, replies: seq<Reply>) returns (result: ConnectorResult, made: nat)
      requires |replies| == MaxCalls(safeRead)
      modifies this`calls
      ensures 1 <= made <= MaxCalls(safeRead)
      ensures calls == old(calls) + replies[..made]
      ensures result == ReplyResult(record.action.terms.operation, safeRead, replies[made - 1])
      ensures forall k :: 0 <= k < made - 1 ==> CallsAgain(record.action.terms.operation, safeRead, k + 1, replies[k])
      ensures !CallsAgain(record.action.terms.operation, safeRead, made, replies[made - 1])
    {
      var operation := record.action.terms.operation;
      made := 0;
      result := ReplyResult(operation, safeRead, replies[0]);
      while made == 0 || (result.status == Broke && made < MaxCalls(safeRead))
        invariant made <= MaxCalls(safeRead)
        invariant calls == old(calls) + replies[..made]
        invariant made > 0 ==> result == ReplyResult(operation, safeRead, replies[made - 1])
        invariant forall k :: 0 <= k < made - 1 ==> CallsAgain(operation, safeRead, k + 1, replies[k])
        decreases MaxCalls(safeRead) - made
      {
        calls := calls + [replies[made]];
        result := ReplyResult(operation, safeRead, replies[made]);
        made := made + 1;
      }
    }

    method Complete(result: ConnectorResult, safeRead: bool) returns (error: Option<Error>)
      modifies this`record
      ensures (record, error) ==
        CompleteSpec(old(record), Receipt(old(record).action.terms.operation, result), safeRead, Explained)
    {
      var operation := record.action.terms.operation;
      var checked := result;
      if result.status == Ok && (result.operation != operation || (IsCancellation(operation) && !result.notCancelled)) {
        checked := ConnectorResult(operation, Unknown, false, false, Some(InvalidReceipt));
      }
      var (r, e) := CompleteSpec(record, checked, safeRead, Explained);
      record, error := r, e;
    }

    /** The call and its completion, for a row the worker has a permit for. */
    method Finish(safeRead: bool, replies: seq<Reply>) returns (made: nat)
      requires |replies| == MaxCalls(safeRead) && record.action.state == Executing
      modifies this`record, this`calls
      ensures 1 <= made <= MaxCalls(safeRead) && calls == old(calls) + replies[..made]
      ensures CompletedFrom(old(record).action, record.action, replies[made - 1])
    {
      ghost var before := record;
      var result;
      result, made := Invoke(safeRead, replies);
      var error := Complete(result, safeRead);
      assert (record, error) == CompleteReply(before, replies[made - 1], safeRead);
      CompletionIsFaithful(before, replies[made - 1], safeRead);
    }

    /** One undisturbed run: at most one write reaches the provider, and what it answered is what is recorded. */
    method Execute(i: Inputs, safeRead: bool, replies: seq<Reply>) returns (made: nat)
      requires |replies| == MaxCalls(safeRead)
      modifies this`record, this`calls
      ensures made <= MaxCalls(safeRead) && calls == old(calls) + replies[..made]
      ensures made > 0 <==> PrepareExecution(old(record), approval, route, i).Permitted?
      ensures made > 0 ==>
        CompletedFrom(PrepareExecution(old(record), approval, route, i).record.action, record.action, replies[made - 1])
    {
      var outcome := Prepare(i);
      if !outcome.Permitted? { return 0; }
      PermittedIsExecuting(old(record), approval, route, i);
      made := Finish(safeRead, replies);
    }
  }

  /** Nothing but success is ever told as success, uncertainty as uncertainty, expiry as expiry. */
  lemma ExplainedFaithfully(operation: Operation, state: State, payload: Payload)
    requires !state.Succeeded?
    ensures ToldFaithfully(state, ExecutionTold(operation, state, payload))
  {
  }

  lemma PermittedIsExecuting(r: Record, p: Approval, route: Option<Policy>, i: Inputs)
    requires PrepareExecution(r, p, route, i).Permitted?
    ensures PrepareExecution(r, p, route, i).record.action.state == Executing
    ensures PrepareExecution(r, p, route, i).record.action.terms == r.action.terms
  {
  }

  /** What completing with one reply records: success exactly for a genuine success, told faithfully. */
  lemma CompletionIsFaithful(r: Record, reply: Reply, safeRead: bool)
    requires r.action.state == Executing
    ensures var (r', error) := CompleteReply(r, reply, safeRead);
      && error.None? && CompletedFrom(r.action, r'.action, reply)
  {
  }

  /**
   The state each last reply leaves, and the evidence recorded with it.  A call without an answer has failed
   for a safe read but may have happened for a write; so may a write whose response is too sensitive to keep;
   and a receipt that does not fit proves nothing.
   */
  lemma CompletionOutcome(r: Record, reply: Reply, safeRead: bool)
    requires r.action.state == Executing
    ensures var a := CompleteReply(r, reply, safeRead).0.action;
      if !reply.Answer? then
        && a.state == (if safeRead then Failed else Uncertain)
        && a.result.error == Some(if reply.TimedOut? then CallTimedOut else CallFailed) && !a.result.notCancelled
      else
        var result, op := reply.result, r.action.terms.operation;
        if result.status == Ok && (result.operation != op || (!op.OtherOperation? && !result.notCancelled)) then
          a.state == Uncertain && a.result.error == Some(InvalidReceipt) && !a.result.notCancelled
        else if result.sensitive then
          a.state == (if safeRead then Failed else Uncertain) && a.result.error == Some(ResponseRejected) && !a.result.notCancelled
        else
          && a.state == (match result.status case Ok => Succeeded case Unknown => Uncertain case _ => Failed)
          && a.result.error == result.error && a.result.status == Some(result.status)
          && a.result.notCancelled == result.notCancelled
    ensures var a := CompleteReply(r, reply, safeRead).0.action;
      a.result.told == Some(ExecutionTold(a.terms.operation, a.state, a.result))
  {
  }

  /** Completing what is not executing: a finished action is left alone, any other state is an error, and neither is written. */
  lemma CompletionElsewhere(r: Record, reply: Reply, safeRead: bool)
    requires r.action.state != Executing
    ensures CompleteReply(r, reply, safeRead) == (r, if IsTerminal(r.action.state) then None else Some(InvalidState))
  {
  }

  /** The row after an answer: only state and outcome change. */
  predicate CompletedFrom(a: Action, a': Action, reply: Reply) {
    && a' == a.(state := a'.state, result := a'.result)
    && (a'.state.Succeeded? || a'.state.Failed? || a'.state.Uncertain?)
    && (a'.state.Succeeded? <==> GenuineSuccess(a.terms.operation, reply))
    && a'.result.told.Some? && ToldFaithfully(a'.state, a'.result.told.value)
  }
}
