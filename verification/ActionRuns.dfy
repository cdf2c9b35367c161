/**
 One action with its approval, every writer to either, and any number of execution workers, in
 every interleaving.  A worker may crash between any two of its transactions, or during a call.
 */
module ActionRuns {
  import opened Wrappers
  import opened Clock
  import opened Actions
  import opened Approvals
  import opened Execution

  /** Where a permitted worker is: about to make call `made + 1`, or holding the final answer. */
  datatype Phase = Calling(made: nat) | Answered(reply: Reply)

  /**
   `serialized` says whether workers take the advisory mutex; `guard` is who holds it.  `calls` is the
   provider's log; `lost` counts single-session executions rolled back after their call.
   */
  datatype Cell = Cell(
    record: Record, approval: Approval, route: Option<Policy>,
    workers: map<Id, Phase>, calls: seq<Reply>, lost: nat, guard: Option<Id>,
    safeRead: bool, serialized: bool)

  datatype Event =
    | Confirm(digest: Digest, customer: string, at: Time, keep: bool)
    | ExpireConfirmation(at: Time)
    | SaveRoute(policy: Policy)
    | OpenRequest(mailer: bool, id: Id, at: Time)
    | Touch(at: Time)
    | Decide(at: Time, verified: bool, verdict: Verdict, id: Id, decidedAt: Time)
    | Lapse(at: Time)
    | Prepare(worker: Id, inputs: Inputs)
    | Call(worker: Id, reply: Reply)
    | Complete(worker: Id)
    | Crash(worker: Id)
    | Direct(pre: Precondition, first: Reply, second: Reply, keep: bool)

  /** Rolling back is the other thing a transaction that raises may do. */
  function Kept(c: Cell, r: Record, error: Option<Error>, keep: bool): Cell {
    if error.Some? && !keep then c else c.(record := r)
  }

  /** Without a worker nobody decorates the outcome. */
  function Untold(operation: Operation, state: State, payload: Payload): Payload {
    payload
  }

  /** One of the action service's own single-session executions: prepare, call, complete, commit or lose it all. */
  function DirectSpec(c: Cell, pre: Precondition, first: Reply, second: Reply, keep: bool): Cell {
    var op := c.record.action.terms.operation;
    var (r, error) := PrepareSpec(c.record, false, pre, false, Untold);
    if error.Some? then c
    else if IsTerminal(r.action.state) then if keep then c.(record := r) else c
    else
      var made := if CallsAgain(op, c.safeRead, 1, first) then [first, second] else [first];
      var result := ReplyResult(op, c.safeRead, made[|made| - 1]);
      var done := CompleteSpec(r, result, c.safeRead, Untold).0;
      if keep then c.(record := done, calls := c.calls + made)
      else c.(calls := c.calls + made, lost := c.lost + 1)
  }

  function With(c: Cell, pr: (Approval, Record)): Cell {
    c.(approval := pr.0, record := pr.1)
  }

  /** What a preparation came to: nothing, a settled row, or a permit to call. */
  function Apply(c: Cell, x: Id, outcome: Prepared): Cell {
    match outcome
    case Aborted => c
    case Settled(r) => c.(record := r)
    case Permitted(r) =>
      c.(record := r, workers := c.workers[x := Calling(0)], guard := if c.serialized then Some(x) else c.guard)
  }

  function PrepareStep(c: Cell, x: Id, i: Inputs): Cell {
    if x in c.workers || (c.serialized && c.guard.Some?) then c
    else Apply(c, x, PrepareExecution(c.record, c.approval, c.route, i))
  }

  function CallStep(c: Cell, x: Id, reply: Reply): Cell {
    if x in c.workers && c.workers[x].Calling? then
      var made := c.workers[x].made + 1;
      var next := if CallsAgain(c.record.action.terms.operation, c.safeRead, made, reply)
                  then Calling(made) else Answered(reply);
      c.(calls := c.calls + [reply], workers := c.workers[x := next])
    else c
  }

  function Without(c: Cell, x: Id): Cell {
    c.(workers := c.workers - {x}, guard := if c.guard == Some(x) then None else c.guard)
  }

  function CompleteStep(c: Cell, x: Id): Cell {
    if x in c.workers && c.workers[x].Answered? then
      var (r, error) := CompleteReply(c.record, c.workers[x].reply, c.safeRead);
      if error.Some? then Without(c, x) else Without(c, x).(record := r)
    else c
  }

  function Step(c: Cell, e: Event): Cell {
    match e
    case Confirm(digest, customer, at, keep) =>
      var (r, error) := ConfirmSpec(c.record, digest, customer, at);
      Kept(c, r, error, keep)
    case ExpireConfirmation(at) => c.(record := ExpireSpec(c.record, at))
    case SaveRoute(policy) => if RouteKey(c, policy) then c.(route := Some(policy)) else c
    case OpenRequest(mailer, id, at) =>
      c.(approval := OpenSpec(c.approval, c.record.action, c.route, mailer, id, at))
    case Touch(at) => if c.route.Some? then With(c, TouchSpec(c.approval, c.record, c.route.value, at)) else c
    case Decide(at, verified, verdict, id, decidedAt) =>
      if c.route.Some?
      then With(c, DecideSpec(c.approval, c.record, c.route.value, at, verified, verdict, id, decidedAt)) else c
    case Lapse(at) => With(c, LapseSpec(c.approval, c.record, at))
    case Prepare(x, i) => PrepareStep(c, x, i)
    case Call(x, reply) => CallStep(c, x, reply)
    case Complete(x) => CompleteStep(c, x)
    case Crash(x) => if x in c.workers then Without(c, x) else c
    case Direct(pre, first, second, keep) =>
      // its callers run it on actions that need no approval
      if c.record.action.terms.ApprovalRequired() then c else DirectSpec(c, pre, first, second, keep)
  }

  /** A route row keeps its reference, capability and operation for life. */
  predicate RouteKey(c: Cell, policy: Policy) {
    ValidPolicy(policy) && ServesAction(c.record.action.terms, policy)
  }

  predicate ServesAction(terms: Terms, policy: Policy) {
    terms.routeRef == Some(policy.ref) && policy.capability == terms.capability && policy.operation == terms.operation
  }

  function Run(c: Cell, es: seq<Event>): Cell {
    if es == [] then c else Step(Run(c, es[..|es| - 1]), es[|es| - 1])
  }

  lemma RunSnoc(c: Cell, es: seq<Event>, e: Event)
    ensures Run(c, es + [e]) == Step(Run(c, es), e)
  {
    assert (es + [e])[..|es|] == es;
  }

  /** An action as ActionService.request commits it. */
  function Start(terms: Terms, authorized: bool, safeRead: bool, serialized: bool): Cell {
    Cell(RequestSpec(terms, authorized).0, Approval(None, None), None, map[], [], 0, None, safeRead, serialized)
  }

  // ---- The invariant ----

  /** Confirmed in time, with evidence over the action's own parameters, if confirmation is required at all. */
  predicate ConfirmedProperly(a: Action) {
    a.terms.ConfirmationRequired() ==>
      && a.confirmedAt.Some? && a.confirmedAt.value < a.terms.confirmationExpiresAt.value
      && a.confirmationDigest == Some(a.terms.Evidence())
  }

  predicate Unconfirmed(s: State) {
    s.Requested? || s.IdentityVerified? || s.AwaitingConfirmation?
  }

  /** What the row says of itself, also in the middle of a transaction. */
  predicate RowInv(a: Action) {
    && a.attempts <= 1
    && (!a.state.Requested? && !a.state.Rejected? ==> a.terms.achievedLevel >= a.terms.requiredLevel)
    && (Unconfirmed(a.state) ==> a.confirmationDigest.None? && a.approvalReference.None?)
    && (a.state.Confirmed? ==> a.approvalReference.None?)
    && (!Unconfirmed(a.state) && !a.state.Expired? && !a.state.Rejected? ==> ConfirmedProperly(a))
    && (a.state.Executing? || a.state.Succeeded? || a.state.Uncertain? ==> a.attempts == 1)
    && (a.attempts == 1 ==> a.state.Executing? || a.state.Succeeded? || a.state.Uncertain? || a.state.Failed?)
    && (a.state.AwaitingApproval? ==> a.terms.ApprovalRequired())
    && (a.state.AwaitingConfirmation? ==> a.terms.ConfirmationRequired())
    && ChecksHold(a)
  }

  /** Between transactions. */
  predicate AtRest(a: Action) {
    && !a.state.Requested? && !a.state.IdentityVerified?
    && (a.state.Confirmed? ==> !a.terms.ApprovalRequired())
    && (a.state.AwaitingApproval? ==> a.approvalReference.None?)
    && (a.state.Executing? ==> a.terms.ApprovalRequired())
    && (a.terms.ApprovalRequired() && a.attempts == 1 ==> a.approvalReference.Some?)
  }

  predicate RequestInv(a: Action, p: Approval)
    requires p.request.Some?
  {
    var request := p.request.value;
    && a.terms.ApprovalRequired() && !Unconfirmed(a.state) && !a.state.Confirmed?
    && a.terms.achievedLevel >= a.terms.requiredLevel && ConfirmedProperly(a)
    && request.parameterDigest == a.terms.ParameterDigest()
    && request.pinned.enabled && ServesAction(a.terms, request.pinned)
    && (p.decision.Some? <==> request.state.RequestApproved? || request.state.RequestRejected?)
    && (p.decision.Some? ==> p.decision.value.parameterDigest == a.terms.ParameterDigest())
    && (p.decision.Some? ==> (p.decision.value.verdict == Approve <==> request.state.RequestApproved?))
    && (request.state.RequestPending? || request.state.RequestInvalidated? ==> a.state.AwaitingApproval?)
    && (request.state.RequestRejected? ==> a.state.Rejected?)
    && (request.state.RequestExpired? ==> a.state.Expired?)
    && (IsTerminal(a.state) ==> a.result.told.Some? && ToldFaithfully(a.state, a.result.told.value))
  }

  predicate ApprovalInv(a: Action, p: Approval) {
    && (p.request.None? ==> p.decision.None?)
    && (p.request.Some? ==> RequestInv(a, p))
    && (a.approvalReference.Some? ==> p.decision.Some? && p.decision.value.id == a.approvalReference.value)
    && (a.approvalReference.Some? ==> p.decision.value.verdict == Approve)
  }

  predicate PhaseInv(phase: Phase, calls: seq<Reply>, safeRead: bool) {
    match phase
    case Calling(made) => |calls| == made && made < MaxCalls(safeRead)
    case Answered(reply) => 0 < |calls| <= MaxCalls(safeRead) && calls[|calls| - 1] == reply
  }

  predicate WorkersInv(c: Cell) {
    var a := c.record.action;
    && (forall x :: x in c.workers ==> PhaseInv(c.workers[x], c.calls, c.safeRead))
    && (forall x :: x in c.workers ==> a.terms.ApprovalRequired() && (a.state.Executing? || a.state.Uncertain?))
    && (forall x, y :: x in c.workers && y in c.workers ==> x == y)
    && (c.serialized && c.guard.Some? ==> c.guard.value in c.workers)
    && (c.serialized ==> forall x :: x in c.workers ==> c.guard == Some(x) && a.state.Executing?)
  }

  /** The provider's own word that nothing was done. */
  predicate SaysNo(reply: Reply) {
    reply.Answer? && !reply.result.sensitive && (reply.result.status.Refused? || reply.result.status.Broke?)
  }

  predicate CallsInv(c: Cell) {
    var a := c.record.action;
    && (a.terms.ApprovalRequired() ==>
         && (a.attempts == 0 ==> c.calls == []) && |c.calls| <= MaxCalls(c.safeRead)
         && (a.state.Succeeded? ==> c.calls != [] && GenuineSuccess(a.terms.operation, c.calls[|c.calls| - 1]))
         && (a.state.Failed? && c.calls != [] && !c.safeRead ==> SaysNo(c.calls[|c.calls| - 1])))
    && (!a.terms.ApprovalRequired() && a.attempts + c.lost > 0 ==>
         a.state.Confirmed? || a.state.Succeeded? || a.state.Failed? || a.state.Uncertain?)
    && (!a.terms.ApprovalRequired() ==>
         if c.safeRead then a.attempts + c.lost <= |c.calls| <= 2 * (a.attempts + c.lost)
         else |c.calls| == a.attempts + c.lost)
  }

  predicate Inv(c: Cell) {
    && RowInv(c.record.action) && AtRest(c.record.action)
    && ApprovalInv(c.record.action, c.approval) && (c.approval.request.Some? ==> c.route.Some?)
    && (c.route.Some? ==> ServesAction(c.record.action.terms, c.route.value))
    && WorkersInv(c) && CallsInv(c)
  }

  // ---- Every writer keeps it ----

  lemma StartIsSafe(terms: Terms, authorized: bool, safeRead: bool, serialized: bool)
    ensures Inv(Start(terms, authorized, safeRead, serialized))
  {
  }

  /** Any sound write to an action that awaits confirmation: it has no request, no worker and no call yet. */
  lemma ConfirmationWriteKeeps(c: Cell, r: Record)
    requires Inv(c) && c.record.action.state.AwaitingConfirmation?
    requires RowInv(r.action) && AtRest(r.action) && r.action.terms == c.record.action.terms
    requires r.action.attempts == 0 && r.action.approvalReference.None? && !r.action.state.Succeeded?
    ensures Inv(c.(record := r))
  {
    assert c.workers == map[] && c.approval.request.None?;
  }

  lemma ConfirmKeeps(c: Cell, digest: Digest, customer: string, at: Time, keep: bool)
    requires Inv(c)
    ensures Inv(Step(c, Confirm(digest, customer, at, keep)))
  {
    if c.record.action.state.AwaitingConfirmation? {
      ConfirmationWriteKeeps(c, ConfirmSpec(c.record, digest, customer, at).0);
    }
  }

  lemma ExpireKeeps(c: Cell, at: Time)
    requires Inv(c)
    ensures Inv(Step(c, ExpireConfirmation(at)))
  {
    if c.record.action.state.AwaitingConfirmation? {
      ConfirmationWriteKeeps(c, ExpireSpec(c.record, at));
    }
  }

  lemma OpenKeeps(c: Cell, e: Event)
    requires Inv(c) && (e.SaveRoute? || e.OpenRequest?)
    ensures Inv(Step(c, e))
  {
  }

  /** Closing a request, from whichever caller, with the decision (if any) already in place. */
  lemma CloseKeeps(c: Cell, p: Approval, state: RequestState)
    requires Inv(c) && state != RequestPending
    requires p.request == c.approval.request && p.request.Some? && p.request.value.state == RequestPending
    requires p.decision.Some? <==> state.RequestApproved? || state.RequestRejected?
    requires p.decision.Some? ==> p.decision.value.parameterDigest == c.record.action.terms.ParameterDigest()
    requires p.decision.Some? ==> (p.decision.value.verdict == Approve <==> state == RequestApproved)
    ensures Inv(With(c, CloseSpec(p, c.record, state)))
  {
  }

  lemma TouchKeeps(c: Cell, at: Time)
    requires Inv(c)
    ensures Inv(Step(c, Touch(at)))
  {
    if c.approval.request.Some? && c.approval.request.value.state == RequestPending {
      CloseKeeps(c, c.approval, RequestExpired);
      CloseKeeps(c, c.approval, RequestInvalidated);
    }
  }

  lemma LapseKeeps(c: Cell, at: Time)
    requires Inv(c)
    ensures Inv(Step(c, Lapse(at)))
  {
    if c.approval.request.Some? && c.approval.request.value.state == RequestPending {
      CloseKeeps(c, c.approval, RequestExpired);
    }
  }

  predicate Decidable(c: Cell, at: Time) {
    c.route.Some? && c.approval.request.Some? &&
      UsabilityOf(c.approval.request.value, Matches(c.approval.request.value, c.record.action, c.route.value), c.route.value, at).Usable?
  }

  /** A decision that is not proved, or not possible any more, is a look. */
  lemma OtherwiseLooks(c: Cell, at: Time, verified: bool, verdict: Verdict, id: Id, decidedAt: Time)
    requires !(verified && Decidable(c, at))
    ensures Step(c, Decide(at, verified, verdict, id, decidedAt)) == Step(c, Touch(at))
  {
  }

  lemma DecideKeeps(c: Cell, at: Time, verified: bool, verdict: Verdict, id: Id, decidedAt: Time)
    requires Inv(c)
    ensures Inv(Step(c, Decide(at, verified, verdict, id, decidedAt)))
  {
    if verified && Decidable(c, at) {
      var d := Decision(id, c.record.action.terms.ParameterDigest(), verdict, decidedAt);
      CloseKeeps(c, c.approval.(decision := Some(d)), if verdict.Approve? then RequestApproved else RequestRejected);
    } else {
      OtherwiseLooks(c, at, verified, verdict, id, decidedAt);
      TouchKeeps(c, at);
    }
  }

  predicate ApprovedRequest(p: Approval) {
    && p.request.Some? && p.request.value.state.RequestApproved?
    && p.decision.Some? && p.decision.value.verdict == Approve
  }

  /** The row with the decision attached. */
  function Attached(a: Action, d: Decision): Action {
    a.(approvalReference := Some(d.id), approvedAt := Some(d.decidedAt))
  }

  /** What a preparation can do to a row. */
  predicate Prepares(a: Action, d: Decision, outcome: Prepared) {
    match outcome
    case Aborted => true
    case Settled(r') =>
      var a' := r'.action;
      && IsTerminal(a'.state) && CanMove(a.state, a'.state) && !a'.state.Succeeded?
      && (a.state.Executing? ==> a'.state.Uncertain?)
      && a'.result.told.Some? && ToldFaithfully(a'.state, a'.result.told.value)
      && (a' == a.(state := a'.state, result := a'.result)
          || (a.state.AwaitingApproval? && a' == Attached(a, d).(state := a'.state, result := a'.result)))
    case Permitted(r') => a.state.AwaitingApproval? && r'.action == Attached(a, d).(state := Executing, attempts := 1)
  }

  lemma PermitOutcome(r: Record, p: Approval, route: Policy, i: Inputs)
    requires r.action.state.AwaitingApproval? && r.action.terms.ApprovalRequired()
    requires r.action.approvalReference.None? && r.action.attempts == 0 && ApprovedRequest(p)
    ensures Prepares(r.action, p.decision.value, Permit(r, p, route, i))
  {
    var op := r.action.terms.operation;
    ExplainedFaithfully(op, Rejected, Because(NoLongerValid));
    ExplainedFaithfully(op, Rejected, Because(i.pre.reason));
    ExplainedFaithfully(op, Failed, Because(i.pre.reason));
  }

  lemma PrepareOutcome(r: Record, p: Approval, route: Option<Policy>, i: Inputs)
    requires RowInv(r.action) && AtRest(r.action) && ApprovalInv(r.action, p) && p.request.Some?
    requires !IsTerminal(r.action.state)
    ensures var outcome := PrepareExecution(r, p, route, i);
      outcome.Aborted? || (ApprovedRequest(p) && Prepares(r.action, p.decision.value, outcome))
  {
    var op := r.action.terms.operation;
    ExplainedFaithfully(op, Expired, Because(Lapsed));
    ExplainedFaithfully(op, Rejected, Because(NoLongerValid));
    ExplainedFaithfully(op, Failed, Because(Unavailable));
    if ApprovedRequest(p) && r.action.state.AwaitingApproval? && Refusal(r, p, route, i).None? {
      PermitOutcome(r, p, route.value, i);
    }
  }

  lemma ApplyKeeps(c: Cell, x: Id, outcome: Prepared)
    requires Inv(c) && x !in c.workers && (c.serialized ==> c.guard.None?)
    requires ApprovedRequest(c.approval) && Prepares(c.record.action, c.approval.decision.value, outcome)
    ensures Inv(Apply(c, x, outcome))
  {
    if c.record.action.state.AwaitingApproval? {
      assert c.workers == map[];
    }
  }

  lemma PrepareKeeps(c: Cell, x: Id, i: Inputs)
    requires Inv(c)
    ensures Inv(Step(c, Prepare(x, i)))
  {
    if c.approval.request.Some? && !IsTerminal(c.record.action.state) {
      PrepareOutcome(c.record, c.approval, c.route, i);
      var outcome := PrepareExecution(c.record, c.approval, c.route, i);
      if x !in c.workers && !(c.serialized && c.guard.Some?) && !outcome.Aborted? {
        ApplyKeeps(c, x, outcome);
      }
    }
  }

  lemma CallKeeps(c: Cell, x: Id, reply: Reply)
    requires Inv(c)
    ensures Inv(Step(c, Call(x, reply)))
  {
    if x in c.workers && c.workers[x].Calling? {
      assert PhaseInv(c.workers[x], c.calls, c.safeRead);
    }
  }

  lemma AnswerKeeps(c: Cell, x: Id, r: Record)
    requires Inv(c) && x in c.workers && c.workers[x].Answered? && c.record.action.state.Executing?
    requires CompletedFrom(c.record.action, r.action, c.workers[x].reply)
    requires r.action.state.Failed? && !c.safeRead ==> SaysNo(c.workers[x].reply)
    ensures Inv(Without(c, x).(record := r))
  {
    assert PhaseInv(c.workers[x], c.calls, c.safeRead);
    assert Without(c, x).workers == map[];
  }

  lemma CompleteKeeps(c: Cell, x: Id)
    requires Inv(c)
    ensures Inv(Step(c, Complete(x)))
  {
    if x in c.workers && c.workers[x].Answered? {
      if c.record.action.state.Executing? {
        CompletionIsFaithful(c.record, c.workers[x].reply, c.safeRead);
        CompletionOutcome(c.record, c.workers[x].reply, c.safeRead);
        AnswerKeeps(c, x, CompleteReply(c.record, c.workers[x].reply, c.safeRead).0);
      } else {
        CrashKeeps(c, x);
      }
    }
  }

  lemma CrashKeeps(c: Cell, x: Id)
    requires Inv(c)
    ensures Inv(Step(c, Crash(x)))
  {
  }

  /** What a single-session execution can do to the cell. */
  predicate DirectEffect(c: Cell, c': Cell) {
    var a, a' := c.record.action, c'.record.action;
    || c' == c
    || (a.state.Confirmed? && c' == c.(record := c'.record) && a' == a.(state := Failed, result := a'.result))
    || (&& a.state.Confirmed? && |c.calls| < |c'.calls| <= |c.calls| + MaxCalls(c.safeRead)
        && (|| c' == c.(calls := c'.calls, lost := c.lost + 1)
            || (&& c' == c.(record := c'.record, calls := c'.calls) && (a'.state.Succeeded? || a'.state.Failed? || a'.state.Uncertain?)
                && a' == a.(state := a'.state, result := a'.result, attempts := a.attempts + 1))))
  }

  lemma DirectOutcome(c: Cell, pre: Precondition, first: Reply, second: Reply, keep: bool)
    requires !c.record.action.terms.ApprovalRequired() && !c.record.action.state.Executing?
    ensures DirectEffect(c, DirectSpec(c, pre, first, second, keep))
  {
  }

  lemma DirectKeeps(c: Cell, c': Cell)
    requires Inv(c) && !c.record.action.terms.ApprovalRequired() && DirectEffect(c, c')
    ensures Inv(c')
  {
  }

  lemma StepKeeps(c: Cell, e: Event)
    requires Inv(c)
    ensures Inv(Step(c, e))
  {
    match e
    case Confirm(digest, customer, at, keep) => ConfirmKeeps(c, digest, customer, at, keep);
    case ExpireConfirmation(at) => ExpireKeeps(c, at);
    case SaveRoute(_) => OpenKeeps(c, e);
    case OpenRequest(_, _, _) => OpenKeeps(c, e);
    case Touch(at) => TouchKeeps(c, at);
    case Decide(at, verified, verdict, id, decidedAt) => DecideKeeps(c, at, verified, verdict, id, decidedAt);
    case Lapse(at) => LapseKeeps(c, at);
    case Prepare(x, i) => PrepareKeeps(c, x, i);
    case Call(x, reply) => CallKeeps(c, x, reply);
    case Complete(x) => CompleteKeeps(c, x);
    case Crash(x) => CrashKeeps(c, x);
    case Direct(pre, first, second, keep) =>
      if !c.record.action.terms.ApprovalRequired() {
        DirectOutcome(c, pre, first, second, keep);
        DirectKeeps(c, Step(c, e));
      }
  }

  lemma {:induction false} RunKeeps(c: Cell, es: seq<Event>)
    requires Inv(c)
    ensures Inv(Run(c, es))
  {
    if es != [] {
      RunKeeps(c, es[..|es| - 1]);
      StepKeeps(Run(c, es[..|es| - 1]), es[|es| - 1]);
    }
  }
}
