/**
 Consequential actions: the row, its transition table, its event log, and what each service
 operation writes.  Every write appends one event; the event keeps the row it left behind.
 */
module Actions {
  import opened Wrappers
  import opened Clock

  type Id = nat    // a UUID

  datatype State =
    | Requested | IdentityVerified | AwaitingConfirmation | Confirmed | AwaitingApproval | Executing
    | Succeeded | Rejected | Failed | Uncertain | Expired | HandedOff

  /** The transition table. */
  predicate CanMove(from: State, to: State) {
    match from
    case Requested => to.IdentityVerified? || to.Rejected?
    case IdentityVerified => to.AwaitingConfirmation? || to.Confirmed?
    case AwaitingConfirmation => to.Confirmed? || to.Rejected? || to.Expired?
    case Confirmed => to.AwaitingApproval? || to.Executing? || to.Failed?
    case AwaitingApproval => to.Executing? || to.Rejected? || to.Failed? || to.Expired?
    case Executing => to.Succeeded? || to.Failed? || to.Uncertain? || to.HandedOff?
    case _ => false
  }

  predicate IsTerminal(s: State) {
    s.Succeeded? || s.Rejected? || s.Failed? || s.Uncertain? || s.Expired? || s.HandedOff?
  }

  /** Terminal means an empty row in the table. */
  lemma TerminalHasNoEdge(s: State)
    ensures IsTerminal(s) <==> forall to :: !CanMove(s, to)
  {
    var next := match s case Requested => Rejected case IdentityVerified => Confirmed case AwaitingConfirmation => Confirmed
      case Confirmed => Failed case AwaitingApproval => Failed case _ => Failed;
    assert !IsTerminal(s) ==> CanMove(s, next);
  }

  /** SHA-256 digests, symbolically: equal digests have equal preimages. */
  datatype Digest =
    | OfParameters(canonical: string)
    | OfConfirmation(action: Id, customer: string, parameters: Digest)

  /** The columns no update may change. */
  datatype Terms = Terms(
    id: Id,
    conversation: Id,
    customer: string,
    capability: string,
    operation: Operation,
    binding: Id,
    requiredLevel: nat,
    achievedLevel: nat,
    parameters: string,
    confirmationExpiresAt: Option<Time>,   // set exactly when confirmation is required
    routeRef: Option<string>)              // set exactly when approval is required
  {
    function ParameterDigest(): Digest { OfParameters(parameters) }
    function Evidence(): Digest { OfConfirmation(id, customer, ParameterDigest()) }
    predicate ConfirmationRequired() { confirmationExpiresAt.Some? }
    predicate ApprovalRequired() { routeRef.Some? }
  }

  datatype ConnectorStatus = Ok | Refused | Broke | Unknown

  /** The operation of an action; the two cancellation requests are treated specially. */
  datatype Operation =
    | OrderCancellation          // orders.request_order_cancellation
    | AppointmentCancellation    // appointments.request_cancellation
    | OtherOperation(name: string)

  /** Reason and error codes: the ones the code writes or looks for, and any other. */
  datatype Code =
    | Interrupted                // interrupted_execution
    | Lapsed                     // approval_expired
    | NoLongerValid              // approval_no_longer_valid
    | Unavailable                // connector_unavailable
    | NotConnected               // integration_not_connected
    | OrderProviderDown          // order_provider_unavailable
    | ProviderDown               // provider_unavailable
    | AlreadyShipped             // order_already_shipped
    | AlreadyCancelled           // appointment_already_cancelled
    | ReviewerSaidNo             // reviewer_rejected
    | CallTimedOut               // connector_timeout
    | CallFailed                 // connector_error
    | ResponseRejected           // connector_response_rejected
    | InvalidReceipt             // invalid_execution_receipt
    | OtherCode(text: string)

  /** What a customer may be told; one reviewed template per code. */
  datatype Told =
    | ApprovalRecorded | ReviewerRejected | OrderAlreadyShipped | AppointmentAlreadyCancelled
    | PreconditionChanged | ActionCompleted | RequestRecorded | ExecutionFailed
    | ConnectorUnavailable | OutcomeUnknown | ApprovalExpired

  datatype Payload = Payload(
    reason: Option<Code>,
    error: Option<Code>,
    status: Option<ConnectorStatus>,
    notCancelled: bool,           // data.cancellation_executed is False
    told: Option<Told>)

  const EMPTY := Payload(None, None, None, false, None)

  function Because(reason: Code): Payload {
    EMPTY.(reason := Some(reason))
  }

  datatype Action = Action(
    terms: Terms,
    state: State,
    confirmationDigest: Option<Digest>,
    confirmedAt: Option<Time>,
    approvalReference: Option<Id>,
    approvedAt: Option<Time>,
    result: Payload,
    attempts: nat)

  datatype Entry = Entry(version: nat, from: Option<State>, to: State, row: Action)

  datatype Record = Record(action: Action, events: seq<Entry>)

  // ---- The event log ----

  function MaxVersion(events: seq<Entry>): nat {
    if events == [] then 0
    else
      var m := MaxVersion(events[..|events| - 1]);
      var v := events[|events| - 1].version;
      if v > m then v else m
  }

  /** An update of the row followed by its event. */
  function Write(r: Record, a: Action): Record {
    Record(a, r.events + [Entry(MaxVersion(r.events) + 1, Some(r.action.state), a.state, a)])
  }

  function NewAction(terms: Terms): Action {
    Action(terms, Requested, None, None, None, None, EMPTY, 0)
  }

  function Created(terms: Terms): Record {
    Record(NewAction(terms), [Entry(1, None, Requested, NewAction(terms))])
  }

  /** The database's own row guard: every condition under which it would refuse an update. */
  predicate GuardAllows(before: Action, after: Action) {
    && after.terms == before.terms
    && (after.state != before.state ==> CanMove(before.state, after.state))
    && (after.attempts != before.attempts ==>
         after.state.Executing? && (before.state.Confirmed? || before.state.AwaitingApproval?) && after.attempts == before.attempts + 1)
    && ((after.confirmationDigest, after.confirmedAt) != (before.confirmationDigest, before.confirmedAt) ==>
         before.state == AwaitingConfirmation && after.state == Confirmed
         && before.confirmationDigest.None? && before.confirmedAt.None?
         && after.confirmationDigest.Some? && after.confirmedAt.Some?)
    && ((after.approvalReference, after.approvedAt) != (before.approvalReference, before.approvedAt) ==>
         before.state == AwaitingApproval && after.state == AwaitingApproval
         && before.approvalReference.None? && before.approvedAt.None?
         && after.approvalReference.Some? && after.approvedAt.Some?)
    && (after.result != before.result ==>
         || (before.state.Executing? && (after.state.Succeeded? || after.state.Failed? || after.state.Uncertain? || after.state.HandedOff?))
         || ((before.state.Confirmed? || before.state.AwaitingApproval?) && after.state.Failed?)
         || (before.state.AwaitingApproval? && (after.state.Rejected? || after.state.Expired?)))
  }

  /** The table's CHECK constraints on confirmation and approval columns. */
  predicate ChecksHold(a: Action) {
    && (a.confirmationDigest.Some? <==> a.confirmedAt.Some?)
    && (a.confirmedAt.Some? ==> a.terms.ConfirmationRequired())
    && (a.approvalReference.Some? <==> a.approvedAt.Some?)
    && (a.approvalReference.Some? ==> a.terms.ApprovalRequired())
  }

  /** Two consecutive events: chained, consecutively numbered, and a write the database accepts. */
  predicate Follows(e: Entry, f: Entry) {
    && f.version == e.version + 1 && f.from == Some(e.to) && f.to == f.row.state
    && (CanMove(e.to, f.to) || (f.to == AwaitingApproval && e.to == AwaitingApproval))
    && GuardAllows(e.row, f.row) && ChecksHold(f.row)
  }

  /** A log that starts with the insert and chains write by write. */
  predicate Chained(events: seq<Entry>, terms: Terms) {
    if |events| == 0 then false
    else if |events| == 1 then events[0] == Entry(1, None, Requested, NewAction(terms))
    else Chained(events[..|events| - 1], terms) && Follows(events[|events| - 2], events[|events| - 1])
  }

  /** The row is what its log says, numbered 1..n. */
  predicate Faithful(r: Record) {
    && Chained(r.events, r.action.terms)
    && r.events[|r.events| - 1].row == r.action && r.events[|r.events| - 1].to == r.action.state
  }

  // ---- What the service operations write ----

  function Moved(r: Record, target: State): Record {
    Write(r, r.action.(state := target))
  }

  function Finished(r: Record, target: State, payload: Payload): Record {
    Write(r, r.action.(state := target, result := payload))
  }

  function ConfirmedBy(r: Record, now: Time): Record {
    Write(r, r.action.(state := Confirmed, confirmationDigest := Some(r.action.terms.Evidence()),
                       confirmedAt := Some(now)))
  }

  function ApprovedBy(r: Record, reference: Id, at: Time): Record {
    Write(r, r.action.(approvalReference := Some(reference), approvedAt := Some(at)))
  }

  function Began(r: Record): Record {
    Write(r, r.action.(state := Executing, attempts := r.action.attempts + 1))
  }

  datatype Error = NotAuthorized | InvalidState | Mismatch | TooLate | InvalidApproval | RouteRequired | CheckViolated | Conflict | NotFound

  /** ActionService.request once the row has been inserted. */
  function RequestSpec(terms: Terms, authorized: bool): (Record, Option<Error>) {
    var r := Created(terms);
    if !authorized || terms.achievedLevel < terms.requiredLevel then (Moved(r, Rejected), Some(NotAuthorized))
    else
      var r1 := Moved(r, IdentityVerified);
      if terms.ConfirmationRequired() then (Moved(r1, AwaitingConfirmation), None)
      else if terms.ApprovalRequired() then (Moved(Moved(r1, Confirmed), AwaitingApproval), None)
      else (Moved(r1, Confirmed), None)
  }

  function ConfirmSpec(r: Record, digest: Digest, customer: string, now: Time): (Record, Option<Error>) {
    var t := r.action.terms;
    if r.action.state != AwaitingConfirmation then (r, Some(InvalidState))
    else if customer != t.customer then (r, Some(Mismatch))
    else if t.confirmationExpiresAt.None? || now >= t.confirmationExpiresAt.value then (Moved(r, Expired), Some(TooLate))
    else if digest != t.ParameterDigest() then (Moved(r, Rejected), Some(Mismatch))
    else if t.ApprovalRequired() then (Moved(ConfirmedBy(r, now), AwaitingApproval), None)
    else (ConfirmedBy(r, now), None)
  }

  /** The scheduler's actions.expire job: a third writer, outside the action service. */
  function ExpireSpec(r: Record, now: Time): Record {
    var due := r.action.terms.confirmationExpiresAt;
    if r.action.state == AwaitingConfirmation && due.Some? && due.value <= now
    then Finished(r, Expired, r.action.result) else r
  }

  datatype Precondition = Precondition(valid: bool, reason: Code)

  predicate ReadyToExecute(a: Action) {
    a.state == Confirmed && !a.terms.ApprovalRequired()
  }

  predicate ApprovedToExecute(a: Action) {
    a.state == AwaitingApproval && a.terms.ApprovalRequired() && a.approvalReference.Some? && a.approvedAt.Some?
  }

  /**
   prepare_execution; `before` and `after` are the verifier's answers around the revalidation,
   and `explain` decorates a terminal payload with what the customer may be told.
   */
  function PrepareSpec(r: Record, before: bool, pre: Precondition, after: bool,
                       explain: (Operation, State, Payload) -> Payload): (Record, Option<Error>) {
    var a := r.action;
    if IsTerminal(a.state) then (r, None)
    else if a.state == Executing then
      (Finished(r, Uncertain, explain(a.terms.operation, Uncertain, Because(Interrupted))), None)
    else if !ReadyToExecute(a) && !ApprovedToExecute(a) then (r, Some(InvalidState))
    else if ApprovedToExecute(a) && !before then
      (Finished(r, Rejected, explain(a.terms.operation, Rejected, Because(NoLongerValid))), None)
    else if !pre.valid then
      var target := if ApprovedToExecute(a) && pre.reason != Unavailable then Rejected else Failed;
      (Finished(r, target, explain(a.terms.operation, target, Because(pre.reason))), None)
    else if ApprovedToExecute(a) && !after then
      (Finished(r, Rejected, explain(a.terms.operation, Rejected, Because(NoLongerValid))), None)
    else (Began(r), None)
  }

  // ---- Calling the connector ----

  datatype ConnectorResult = ConnectorResult(
    operation: Operation, status: ConnectorStatus, notCancelled: bool, sensitive: bool, error: Option<Code>)

  datatype Reply = TimedOut | Raised | Answer(result: ConnectorResult)

  function MaxCalls(safeRead: bool): nat {
    if safeRead then 2 else 1
  }

  /** What one reply means; `last` when no call is left. */
  function ReplyResult(operation: Operation, safeRead: bool, reply: Reply): ConnectorResult {
    match reply
    case TimedOut => ConnectorResult(operation, if safeRead then Broke else Unknown, false, false, Some(CallTimedOut))
    case Raised => ConnectorResult(operation, if safeRead then Broke else Unknown, false, false, Some(CallFailed))
    case Answer(result) => result
  }

  /** invoke_connector: the call to make next, if any, after `done` calls ended with `reply`. */
  predicate CallsAgain(operation: Operation, safeRead: bool, done: nat, reply: Reply) {
    done < MaxCalls(safeRead) && ReplyResult(operation, safeRead, reply).status == Broke
  }

  function CompleteSpec(r: Record, result: ConnectorResult, safeRead: bool,
                        explain: (Operation, State, Payload) -> Payload): (Record, Option<Error>) {
    var a := r.action;
    if IsTerminal(a.state) then (r, None)
    else if a.state != Executing then (r, Some(InvalidState))
    else
      var f := if !result.sensitive then result
               else ConnectorResult(a.terms.operation, if safeRead then Broke else Unknown, false, false,
                                    Some(ResponseRejected));
      var target := match f.status case Ok => Succeeded case Refused => Failed case Broke => Failed case Unknown => Uncertain;
      var payload := Payload(None, f.error, Some(f.status), f.notCancelled, None);
      (Finished(r, target, explain(a.terms.operation, target, payload)), None)
  }

  // ---- Lemmas about the log ----

  lemma {:induction false} VersionsAreOneToN(events: seq<Entry>, terms: Terms)
    requires Chained(events, terms)
    ensures events[|events| - 1].version == |events| == MaxVersion(events)
  {
    if |events| > 1 {
      VersionsAreOneToN(events[..|events| - 1], terms);
    } else {
      assert MaxVersion(events[..0]) == 0;
    }
  }

  /** One write the database accepts keeps the log faithful. */
  lemma WriteKeepsFaithful(r: Record, a: Action)
    requires Faithful(r) && GuardAllows(r.action, a) && ChecksHold(a)
    requires CanMove(r.action.state, a.state) || (a.state == AwaitingApproval && r.action.state == AwaitingApproval)
    ensures Faithful(Write(r, a))
  {
    VersionsAreOneToN(r.events, r.action.terms);
    var r' := Write(r, a);
    assert r'.events[..|r'.events| - 1] == r.events;
  }
}
