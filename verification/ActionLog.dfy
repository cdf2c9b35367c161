/**
 The event log of one action under every writer: the action service, the execution worker, the
 closer of approval requests and the lifecycle job.  Most of them bypass the transition table, so
 that each committed write is one of its edges follows only from the invariant of whole runs.
 */
module ActionLog {
  import opened Wrappers
  import opened Clock
  import opened Actions
  import opened Approvals
  import opened Execution
  import opened ActionRuns

  lemma ChecksFollow(r: Record)
    requires Faithful(r)
    ensures ChecksHold(r.action)
  {
  }

  // ---- One write at a time ----

  lemma MoveLogs(r: Record, target: State)
    requires Faithful(r) && CanMove(r.action.state, target)
    ensures Faithful(Moved(r, target))
  {
    ChecksFollow(r);
    WriteKeepsFaithful(r, r.action.(state := target));
  }

  /** A write of the outcome; the database takes a new result from these states only. */
  lemma FinishLogs(r: Record, target: State, payload: Payload)
    requires Faithful(r) && CanMove(r.action.state, target)
    requires payload == r.action.result || r.action.state.Executing? || target.Failed?
      || (r.action.state.AwaitingApproval? && !target.Executing?)
    ensures Faithful(Finished(r, target, payload))
  {
    ChecksFollow(r);
    WriteKeepsFaithful(r, r.action.(state := target, result := payload));
  }

  lemma ConfirmedLogs(r: Record, now: Time)
    requires Faithful(r) && r.action.state.AwaitingConfirmation? && r.action.terms.ConfirmationRequired()
    requires r.action.confirmationDigest.None?
    ensures Faithful(ConfirmedBy(r, now))
  {
    ChecksFollow(r);
    WriteKeepsFaithful(r, ConfirmedBy(r, now).action);
  }

  lemma ApprovedLogs(r: Record, reference: Id, at: Time)
    requires Faithful(r) && r.action.state.AwaitingApproval? && r.action.terms.ApprovalRequired()
    requires r.action.approvalReference.None?
    ensures Faithful(ApprovedBy(r, reference, at))
  {
    ChecksFollow(r);
    WriteKeepsFaithful(r, ApprovedBy(r, reference, at).action);
  }

  lemma BeganLogs(r: Record)
    requires Faithful(r) && (r.action.state.Confirmed? || r.action.state.AwaitingApproval?)
    ensures Faithful(Began(r))
  {
    ChecksFollow(r);
    WriteKeepsFaithful(r, Began(r).action);
  }

  // ---- One transaction at a time ----

  lemma RequestLogs(terms: Terms, authorized: bool)
    ensures Faithful(RequestSpec(terms, authorized).0)
  {
    var r := Created(terms);
    if !authorized || terms.achievedLevel < terms.requiredLevel {
      MoveLogs(r, Rejected);
    } else {
      MoveLogs(r, IdentityVerified);
      var r1 := Moved(r, IdentityVerified);
      if terms.ConfirmationRequired() {
        MoveLogs(r1, AwaitingConfirmation);
      } else {
        MoveLogs(r1, Confirmed);
        if terms.ApprovalRequired() { MoveLogs(Moved(r1, Confirmed), AwaitingApproval); }
      }
    }
  }

  lemma ConfirmLogs(r: Record, digest: Digest, customer: string, at: Time)
    requires RowInv(r.action) && Faithful(r)
    ensures Faithful(ConfirmSpec(r, digest, customer, at).0)
  {
    if r.action.state.AwaitingConfirmation? {
      MoveLogs(r, Expired);
      MoveLogs(r, Rejected);
      ConfirmedLogs(r, at);
      MoveLogs(ConfirmedBy(r, at), AwaitingApproval);
    }
  }

  lemma CloseLogs(p: Approval, r: Record, state: RequestState)
    requires p.request.Some? && Faithful(r)
    ensures Faithful(CloseSpec(p, r, state).1)
  {
    if (state.RequestRejected? || state.RequestExpired?) && r.action.state.AwaitingApproval? {
      FinishLogs(r, if state.RequestRejected? then Rejected else Expired, EMPTY.(told := Some(ToldOnClose(state))));
    }
  }

  lemma PrepareSpecLogs(r: Record, before: bool, pre: Precondition, after: bool,
                        explain: (Operation, State, Payload) -> Payload)
    requires Faithful(r)
    ensures Faithful(PrepareSpec(r, before, pre, after, explain).0)
  {
    var op := r.action.terms.operation;
    if r.action.state.Executing? {
      FinishLogs(r, Uncertain, explain(op, Uncertain, Because(Interrupted)));
    } else if ReadyToExecute(r.action) || ApprovedToExecute(r.action) {
      BeganLogs(r);
      FinishLogs(r, Failed, explain(op, Failed, Because(pre.reason)));
      if ApprovedToExecute(r.action) {
        FinishLogs(r, Rejected, explain(op, Rejected, Because(NoLongerValid)));
        FinishLogs(r, Rejected, explain(op, Rejected, Because(pre.reason)));
      }
    }
  }

  lemma CompleteLogs(r: Record, result: ConnectorResult, safeRead: bool,
                     explain: (Operation, State, Payload) -> Payload)
    requires Faithful(r)
    ensures Faithful(CompleteSpec(r, result, safeRead, explain).0)
  {
    var (r', error) := CompleteSpec(r, result, safeRead, explain);
    if error.None? && r.action.state.Executing? {
      FinishLogs(r, r'.action.state, r'.action.result);
    }
  }

  lemma PermitLogs(r: Record, p: Approval, route: Policy, i: Inputs)
    requires r.action.state.AwaitingApproval? && r.action.terms.ApprovalRequired()
    requires r.action.approvalReference.None? && p.decision.Some? && Faithful(r)
    ensures Permit(r, p, route, i).Aborted? || Faithful(Permit(r, p, route, i).record)
  {
    var d := p.decision.value;
    ApprovedLogs(r, d.id, d.decidedAt);
    var r1 := ApprovedBy(r, d.id, d.decidedAt);
    PrepareSpecLogs(r1, Verified(p, r1.action, route, r1.action.approvalReference, i.beforeAt), i.pre,
                    Verified(p, r1.action, route, r1.action.approvalReference, i.afterAt), Explained);
  }

  /** The worker writes Expired, Rejected and Failed past the table; a request makes them its edges. */
  lemma PrepareLogs(r: Record, p: Approval, route: Option<Policy>, i: Inputs)
    requires RowInv(r.action) && AtRest(r.action) && ApprovalInv(r.action, p) && Faithful(r)
    ensures PrepareExecution(r, p, route, i).Aborted? || Faithful(PrepareExecution(r, p, route, i).record)
  {
    var a := r.action;
    if p.request.Some? && !IsTerminal(a.state) && p.decision.Some? {
      if a.state.Executing? {
        FinishLogs(r, Uncertain, Because(Interrupted).(told := Some(OutcomeUnknown)));
      } else {
        var refusal := Refusal(r, p, route, i);
        if refusal.Some? {
          var (state, code) := refusal.value;
          FinishLogs(r, state, Explained(a.terms.operation, state, Because(code)));
        } else {
          PermitLogs(r, p, route.value, i);
        }
      }
    }
  }

  // ---- Whole runs ----

  /** A single-session execution leaves the row as it was, as prepared, or as completed with some reply. */
  lemma DirectRows(c: Cell, pre: Precondition, first: Reply, second: Reply, keep: bool)
    ensures var r, r' := PrepareSpec(c.record, false, pre, false, Untold).0, DirectSpec(c, pre, first, second, keep).record;
      var op := c.record.action.terms.operation;
      || r' == c.record || r' == r
      || r' == CompleteSpec(r, ReplyResult(op, c.safeRead, first), c.safeRead, Untold).0
      || r' == CompleteSpec(r, ReplyResult(op, c.safeRead, second), c.safeRead, Untold).0
  {
  }

  lemma DirectLogs(c: Cell, pre: Precondition, first: Reply, second: Reply, keep: bool)
    requires Faithful(c.record)
    ensures Faithful(DirectSpec(c, pre, first, second, keep).record)
  {
    var op := c.record.action.terms.operation;
    DirectRows(c, pre, first, second, keep);
    PrepareSpecLogs(c.record, false, pre, false, Untold);
    var r := PrepareSpec(c.record, false, pre, false, Untold).0;
    CompleteLogs(r, ReplyResult(op, c.safeRead, first), c.safeRead, Untold);
    CompleteLogs(r, ReplyResult(op, c.safeRead, second), c.safeRead, Untold);
  }

  lemma ExpireLogs(c: Cell, at: Time)
    requires Faithful(c.record)
    ensures Faithful(Step(c, ExpireConfirmation(at)).record)
  {
    if c.record.action.state.AwaitingConfirmation? { FinishLogs(c.record, Expired, c.record.action.result); }
  }

  lemma TouchLogs(p: Approval, r: Record, route: Policy, at: Time)
    requires Faithful(r)
    ensures Faithful(TouchSpec(p, r, route, at).1)
  {
    if p.request.Some? {
      var u := UsabilityOf(p.request.value, Matches(p.request.value, r.action, route), route, at);
      if u.MustClose? { CloseLogs(p, r, u.state); }
    }
  }

  lemma DecideLogs(p: Approval, r: Record, route: Policy, at: Time, verified: bool, verdict: Verdict,
                   id: Id, decidedAt: Time)
    requires Faithful(r)
    ensures Faithful(DecideSpec(p, r, route, at, verified, verdict, id, decidedAt).1)
  {
    if p.request.Some? && verified
       && UsabilityOf(p.request.value, Matches(p.request.value, r.action, route), route, at).Usable? {
      var d := Decision(id, r.action.terms.ParameterDigest(), verdict, decidedAt);
      CloseLogs(p.(decision := Some(d)), r, if verdict.Approve? then RequestApproved else RequestRejected);
    } else {
      TouchLogs(p, r, route, at);
    }
  }

  lemma LapseLogs(c: Cell, at: Time)
    requires Faithful(c.record)
    ensures Faithful(Step(c, Lapse(at)).record)
  {
    if c.approval.request.Some? { CloseLogs(c.approval, c.record, RequestExpired); }
  }

  lemma CompleteStepLogs(c: Cell, x: Id)
    requires Faithful(c.record)
    ensures Faithful(CompleteStep(c, x).record)
  {
    if x in c.workers && c.workers[x].Answered? {
      var op := c.record.action.terms.operation;
      CompleteLogs(c.record, Receipt(op, ReplyResult(op, c.safeRead, c.workers[x].reply)), c.safeRead, Explained);
    }
  }

  lemma ReviewLogs(c: Cell, e: Event)
    requires (e.Touch? || e.Decide? || e.Lapse?) && Faithful(c.record)
    ensures Faithful(Step(c, e).record)
  {
    match e
    case Touch(at) =>
      if c.route.Some? { TouchLogs(c.approval, c.record, c.route.value, at); }
    case Decide(at, verified, verdict, id, decidedAt) =>
      if c.route.Some? {
        DecideLogs(c.approval, c.record, c.route.value, at, verified, verdict, id, decidedAt);
      }
    case Lapse(at) => LapseLogs(c, at);
  }

  lemma ExecutionLogs(c: Cell, e: Event)
    requires (e.Prepare? || e.Complete? || e.Direct?) && Inv(c) && Faithful(c.record)
    ensures Faithful(Step(c, e).record)
  {
    match e
    case Prepare(x, i) => PrepareLogs(c.record, c.approval, c.route, i);
    case Complete(x) => CompleteStepLogs(c, x);
    case Direct(pre, first, second, keep) => DirectLogs(c, pre, first, second, keep);
  }

  lemma StepLogs(c: Cell, e: Event)
    requires Inv(c) && Faithful(c.record)
    ensures Faithful(Step(c, e).record)
  {
    match e
    case Confirm(digest, customer, at, keep) => ConfirmLogs(c.record, digest, customer, at);
    case ExpireConfirmation(at) => ExpireLogs(c, at);
    case _ =>
      if e.Prepare? || e.Complete? || e.Direct? { ExecutionLogs(c, e); }
      else if e.Touch? || e.Decide? || e.Lapse? { ReviewLogs(c, e); }
  }

  lemma {:induction false} RunLogs(c: Cell, es: seq<Event>)
    requires Inv(c) && Faithful(c.record)
    ensures Faithful(Run(c, es).record)
  {
    if es != [] {
      RunLogs(c, es[..|es| - 1]);
      RunKeeps(c, es[..|es| - 1]);
      StepLogs(Run(c, es[..|es| - 1]), es[|es| - 1]);
    }
  }

  /**
   In every run: each committed write is an edge of the table or the approve self-step, and one
   the database's own guard accepts; events are numbered 1..n, each starts where the last ended,
   and the last is the row.
   */
  lemma EveryLogIsFaithful(terms: Terms, authorized: bool, safeRead: bool, serialized: bool, es: seq<Event>)
    ensures Faithful(Run(Start(terms, authorized, safeRead, serialized), es).record)
  {
    StartIsSafe(terms, authorized, safeRead, serialized);
    RequestLogs(terms, authorized);
    RunLogs(Start(terms, authorized, safeRead, serialized), es);
  }

  /** Event k of a faithful log is numbered k + 1 and follows event k - 1. */
  lemma {:induction false} LogAt(events: seq<Entry>, terms: Terms, k: nat)
    requires Chained(events, terms) && k < |events|
    ensures events[k].version == k + 1
    ensures k == 0 ==> events[k] == Entry(1, None, Requested, NewAction(terms))
    ensures k > 0 ==> Follows(events[k - 1], events[k])
  {
    if k < |events| - 1 {
      LogAt(events[..|events| - 1], terms, k);
    } else if k > 0 {
      LogAt(events[..|events| - 1], terms, k - 1);
    }
  }

  /** No event follows one that ended in a terminal state. */
  lemma NothingFollowsTerminal(r: Record, k: nat)
    requires Faithful(r) && k < |r.events| && IsTerminal(r.events[k].to)
    ensures k == |r.events| - 1 && r.action == r.events[k].row
  {
    if k < |r.events| - 1 {
      LogAt(r.events, r.action.terms, k + 1);
      TerminalHasNoEdge(r.events[k].to);
    }
  }

  /** A faithful log shows EXECUTING at most once. */
  lemma ExecutingOnceInLog(r: Record, j: nat, k: nat)
    requires Faithful(r) && j <= k < |r.events| && r.events[j].to == Executing && r.events[k].to == Executing
    ensures j == k
  {
    if j < k {
      LogAt(r.events, r.action.terms, j + 1);
      NothingFollowsTerminal(r, j + 1);
    }
  }
}
