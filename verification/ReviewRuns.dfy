/**
 One action and its reviewers' links together.  A reviewer's transaction holds the action and its route
 from its look at the request to its save; a decision is the save of one whose code proved.  Both sides
 keep every property they have alone, and what the action relies on is what the links established.
 */
module ReviewRuns {
  import opened Wrappers
  import opened Clock
  import opened Actions
  import opened Approvals
  import opened ApprovalLinks
  import Links = ApprovalLinkRuns
  import Runs = ActionRuns
  import Safety = ActionSafety

  datatype Cell = Cell(action: Runs.Cell, review: Option<Links.Cell>)

  datatype Event =
    | Act(e: Runs.Event)                                        // whoever leaves the request alone
    | Open(mailer: bool, id: Id, at: Time, links: map<Id, Link>)
    | Touch(at: Time)
    | Lapse(at: Time)
    | Look(link: Id, intent: Links.Intent, now: Time)
    | Save(decision: Id)
    | Post(x: Links.Event)                                      // mailing, its answers, a reviewer's rollback

  /** Nobody holds the action and its route. */
  predicate Free(c: Cell) {
    c.review.Some? ==> c.review.value.holder.None?
  }

  predicate LeavesRequest(e: Runs.Event) {
    !e.OpenRequest? && !e.Touch? && !e.Decide? && !e.Lapse?
  }

  predicate NeedsNoLock(e: Links.Event) {
    e.MailNotice? || e.LandNotice? || e.MailCode? || e.LandCode? || e.Abort?
  }

  /** A request as it is inserted, with its links. */
  function Reviewing(request: Request, links: map<Id, Link>): Links.Cell {
    Links.Cell(request, None, links, None, {}, [], [], {}, [], {}, {}, [], {})
  }

  ghost function Opened(c: Cell, mailer: bool, id: Id, at: Time, links: map<Id, Link>): Cell {
    var a := Runs.Step(c.action, Runs.OpenRequest(mailer, id, at));
    if c.review.None? && a.approval.request.Some? && OneLinkEach(links, a.approval.request.value.pinned.emails)
    then Cell(a, Some(Reviewing(a.approval.request.value, links))) else c
  }

  /** Whether the request still fits the action and the live route, as the holder of both sees it. */
  predicate Fits(c: Cell)
    requires c.review.Some? && c.action.route.Some?
  {
    Matches(c.review.value.request, c.action.record.action, c.action.route.value)
  }

  /** The save that decides. */
  predicate Decides(r: Links.Cell, h: Links.Holder) {
    && h.intent.Check? && h.intent.verdict.Some?
    && VerifyLink(h.read, h.intent.claim, r.request.pinned, h.intent.challenge, h.intent.code, h.now).Right?
  }

  /** The transaction of the action's machine that an event is, if any. */
  function OnAction(c: Cell, e: Event): Option<Runs.Event> {
    if e.Act? then if Free(c) && LeavesRequest(e.e) then Some(e.e) else None
    else if c.review.None? || c.action.route.None? then None
    else
      var r := c.review.value;
      match e
      case Touch(at) => if Free(c) then Some(Runs.Touch(at)) else None
      case Lapse(at) => if Free(c) && at >= r.request.expiresAt then Some(Runs.Lapse(at)) else None
      case Look(_, _, now) => if Free(c) then Some(Runs.Touch(now)) else None
      case Save(decision) =>
        if r.holder.Some? && Decides(r, r.holder.value)
        then Some(Runs.Decide(r.holder.value.now, true, r.holder.value.intent.verdict.value, decision, r.holder.value.now))
        else None
      case _ => None
  }

  /** The event of the links' machine that it is. */
  function OnReview(c: Cell, e: Event): Option<Links.Event> {
    if c.review.None? || c.action.route.None? then None
    else
      var r := c.review.value;
      match e
      case Touch(at) => if Free(c) then Some(Links.Touch(Fits(c), c.action.route.value, at)) else None
      case Lapse(at) =>
        if Free(c) && at >= r.request.expiresAt then Some(Links.Touch(true, r.request.pinned, at)) else None
      case Look(link, intent, now) =>
        if Free(c) then Some(Links.Look(link, intent, Fits(c), c.action.route.value, now)) else None
      case Save(_) => if r.holder.Some? then Some(Links.Save) else None
      case Post(x) => if NeedsNoLock(x) then Some(x) else None
      case _ => None
  }

  function Both(c: Cell, a: Option<Runs.Event>, r: Option<Links.Event>): Cell {
    Cell(if a.Some? then Runs.Step(c.action, a.value) else c.action,
         if r.Some? && c.review.Some? then Some(Links.Step(c.review.value, r.value)) else c.review)
  }

  ghost function Step(c: Cell, e: Event): Cell {
    if e.Open? then Opened(c, e.mailer, e.id, e.at, e.links) else Both(c, OnAction(c, e), OnReview(c, e))
  }

  ghost function Run(c: Cell, es: seq<Event>): Cell {
    if es == [] then c else Step(Run(c, es[..|es| - 1]), es[|es| - 1])
  }

  function Start(terms: Terms, authorized: bool, safeRead: bool, serialized: bool): Cell {
    Cell(Runs.Start(terms, authorized, safeRead, serialized), None)
  }

  // ---- The invariant ----

  predicate Holds(c: Cell)
    requires c.review.Some? && c.review.value.holder.Some?
  {
    c.action.route.Some?
    && UsabilityOf(c.review.value.request, Fits(c), c.action.route.value, c.review.value.holder.value.now).Usable?
  }

  function VerdictOf(decision: Option<Decision>): Option<Verdict> {
    if decision.Some? then Some(decision.value.verdict) else None
  }

  /** Both sides speak of the same request and the same decision. */
  predicate Coupled(c: Cell) {
    && c.action.approval.request == (if c.review.Some? then Some(c.review.value.request) else None)
    && (c.action.approval.decision.Some? ==> c.review.Some?)
    && (c.review.Some? ==> c.review.value.decision == VerdictOf(c.action.approval.decision))
    && (c.review.Some? && c.review.value.holder.Some? ==> Holds(c))
    && (c.action.route.Some? ==> ValidPolicy(c.action.route.value))
  }

  /** Whatever counts as delivered was handed to the mailer. */
  predicate Delivered(r: Links.Cell) {
    && (forall ch :: ch in r.dueCodes ==> ch in r.mailedCodes)
    && (forall id :: id in r.links ==> WasMailed(r, r.links[id]))
    && (r.holder.Some? ==> WasMailed(r, r.holder.value.read))
  }

  predicate WasMailed(r: Links.Cell, l: Link) {
    l.delivery == Sent ==> l.challenge.Some? && l.challenge.value in r.mailedCodes
  }

  ghost predicate Inv(c: Cell) {
    && Safety.Reachable(c.action) && Coupled(c)
    && (c.review.Some? ==> Links.Reachable(c.review.value) && Delivered(c.review.value))
  }

  lemma ActionSteps(a: Runs.Cell, e: Runs.Event)
    requires Safety.Reachable(a)
    ensures Safety.Reachable(Runs.Step(a, e))
  {
    var terms: Terms, authorized: bool, safeRead: bool, serialized: bool, es: seq<Runs.Event> :|
      a == Runs.Run(Runs.Start(terms, authorized, safeRead, serialized), es);
    Runs.RunSnoc(Runs.Start(terms, authorized, safeRead, serialized), es, e);
  }

  lemma ReviewSteps(r: Links.Cell, e: Links.Event)
    requires Links.Reachable(r)
    ensures Links.Reachable(Links.Step(r, e))
  {
    var r0: Links.Cell, es: seq<Links.Event> :| Links.Opened(r0) && r == Links.Run(r0, es);
    assert (es + [e])[..|es|] == es;
    assert Links.Step(r, e) == Links.Run(r0, es + [e]);
  }

  lemma DeliveredKept(r: Links.Cell, e: Links.Event)
    requires Delivered(r)
    ensures Delivered(Links.Step(r, e))
  {
  }

  lemma LeavingKeepsApproval(a: Runs.Cell, e: Runs.Event)
    requires LeavesRequest(e)
    ensures Runs.Step(a, e).approval == a.approval
    ensures Runs.Step(a, e).route == a.route || (e.SaveRoute? && ValidPolicy(e.policy) && Runs.Step(a, e).route == Some(e.policy))
  {
  }

  lemma ReviewOpens(request: Request, links: map<Id, Link>)
    requires ValidPolicy(request.pinned) && request.state == RequestPending && OneLinkEach(links, request.pinned.emails)
    ensures Links.Reachable(Reviewing(request, links)) && Delivered(Reviewing(request, links))
  {
    var r := Reviewing(request, links);
    assert Links.Opened(r);
    var none: seq<Links.Event> := [];
    assert r == Links.Run(r, none);
  }

  lemma OpenKeeps(c: Cell, mailer: bool, id: Id, at: Time, links: map<Id, Link>)
    requires Inv(c)
    ensures Inv(Opened(c, mailer, id, at, links))
  {
    var c' := Opened(c, mailer, id, at, links);
    if c' != c {
      ActionSteps(c.action, Runs.OpenRequest(mailer, id, at));
      ReviewOpens(c'.review.value.request, links);
    }
  }

  /** Under the lock, a look at the request closes it on both sides or on neither. */
  lemma TouchCouples(c: Cell, at: Time)
    requires Coupled(c)
    ensures Coupled(Step(c, Touch(at)))
  {
  }

  lemma LookCouples(c: Cell, link: Id, intent: Links.Intent, now: Time)
    requires Coupled(c)
    ensures Coupled(Step(c, Look(link, intent, now)))
  {
  }

  lemma LapseCouples(c: Cell, at: Time)
    requires Coupled(c)
    ensures Coupled(Step(c, Lapse(at)))
  {
  }

  /** What a save makes of request and decision on the side of the links. */
  lemma SavedReview(r: Links.Cell)
    requires r.holder.Some?
    ensures var h, r' := r.holder.value, Links.Step(r, Links.Save);
      && r'.holder.None?
      && (if Decides(r, h)
          then r'.decision == h.intent.verdict && r'.request == r.request.(state := Closing(h.intent.verdict.value))
          else r'.decision == r.decision && r'.request == r.request)
  {
  }

  function Closing(verdict: Verdict): RequestState {
    if verdict.Approve? then RequestApproved else RequestRejected
  }

  /** And what the same decision makes of them on the side of the action. */
  lemma SavedAction(a: Runs.Cell, now: Time, verdict: Verdict, id: Id)
    requires a.approval.request.Some? && a.route.Some?
    requires var request := a.approval.request.value;
      UsabilityOf(request, Matches(request, a.record.action, a.route.value), a.route.value, now).Usable?
    ensures var a' := Runs.Step(a, Runs.Decide(now, true, verdict, id, now));
      && a'.route == a.route && VerdictOf(a'.approval.decision) == Some(verdict)
      && a'.approval.request == Some(a.approval.request.value.(state := Closing(verdict)))
  {
  }

  lemma SaveCouples(c: Cell, decision: Id)
    requires Coupled(c)
    ensures Coupled(Step(c, Save(decision)))
  {
    if c.review.Some? && c.review.value.holder.Some? {
      var h := c.review.value.holder.value;
      SavedReview(c.review.value);
      if Decides(c.review.value, h) { SavedAction(c.action, h.now, h.intent.verdict.value, decision); }
    }
  }

  lemma PostCouples(c: Cell, x: Links.Event)
    requires Coupled(c)
    ensures Coupled(Step(c, Post(x)))
  {
  }

  lemma ActCouples(c: Cell, x: Runs.Event)
    requires Coupled(c)
    ensures Coupled(Step(c, Act(x)))
  {
    if LeavesRequest(x) { LeavingKeepsApproval(c.action, x); }
  }

  lemma BothKeep(c: Cell, a: Option<Runs.Event>, r: Option<Links.Event>)
    requires Inv(c) && Coupled(Both(c, a, r))
    ensures Inv(Both(c, a, r))
  {
    if a.Some? { ActionSteps(c.action, a.value); }
    if r.Some? && c.review.Some? {
      ReviewSteps(c.review.value, r.value);
      DeliveredKept(c.review.value, r.value);
    }
  }

  lemma StepCouples(c: Cell, e: Event)
    requires Coupled(c) && !e.Open?
    ensures Coupled(Step(c, e))
  {
    match e
    case Act(x) => ActCouples(c, x);
    case Touch(at) => TouchCouples(c, at);
    case Lapse(at) => LapseCouples(c, at);
    case Look(link, intent, now) => LookCouples(c, link, intent, now);
    case Save(decision) => SaveCouples(c, decision);
    case Post(x) => PostCouples(c, x);
  }

  lemma StepKeeps(c: Cell, e: Event)
    requires Inv(c)
    ensures Inv(Step(c, e))
  {
    if e.Open? {
      OpenKeeps(c, e.mailer, e.id, e.at, e.links);
    } else {
      StepCouples(c, e);
      BothKeep(c, OnAction(c, e), OnReview(c, e));
    }
  }

  lemma StartIsSafe(terms: Terms, authorized: bool, safeRead: bool, serialized: bool)
    ensures Inv(Start(terms, authorized, safeRead, serialized))
  {
    var none: seq<Runs.Event> := [];
    var a := Runs.Start(terms, authorized, safeRead, serialized);
    assert a == Runs.Run(a, none);
  }

  lemma {:induction false} RunKeeps(c: Cell, es: seq<Event>)
    requires Inv(c)
    ensures Inv(Run(c, es))
  {
    if es != [] {
      RunKeeps(c, es[..|es| - 1]);
      StepKeeps(Run(c, es[..|es| - 1]), es[|es| - 1]);
    }
  }

  // ---- What follows for whole runs ----

  ghost predicate Reachable(c: Cell) {
    exists terms: Terms, authorized: bool, safeRead: bool, serialized: bool, es: seq<Event> ::
      c == Run(Start(terms, authorized, safeRead, serialized), es)
  }

  /** Together, each side still does only what it could do alone, and they agree on request and decision. */
  lemma BothSidesAreReachable(c: Cell)
    requires Reachable(c)
    ensures Safety.Reachable(c.action)
    ensures c.review.Some? ==> Links.Reachable(c.review.value)
    ensures c.action.approval.request == if c.review.Some? then Some(c.review.value.request) else None
    ensures c.review.Some? ==> c.review.value.decision == VerdictOf(c.action.approval.decision)
  {
    var terms: Terms, authorized: bool, safeRead: bool, serialized: bool, es: seq<Event> :|
      c == Run(Start(terms, authorized, safeRead, serialized), es);
    StartIsSafe(terms, authorized, safeRead, serialized);
    RunKeeps(Start(terms, authorized, safeRead, serialized), es);
  }

  /**
   The event is the save of a reviewer who holds a live link of a mailbox the pinned route authorises, and
   presents it with a code that was mailed, delivered, is still in time, and decides before the deadline.
   */
  predicate Proved(c: Cell, e: Event, d: Decision) {
    && e.Save? && e.decision == d.id && c.review.Some? && c.review.value.holder.Some?
    && var r := c.review.value;
      var h := r.holder.value;
      && h.intent.Check? && h.intent.verdict == Some(d.verdict) && h.now < r.request.expiresAt
      && h.read.email in r.request.pinned.emails && Accepts(h.read, h.intent.claim, r.request.pinned)
      && Proves(h.read, h.intent.challenge, h.intent.code, h.now) && h.intent.challenge in r.mailedCodes
  }

  lemma OnlyDecisionsDecide(a: Runs.Cell, x: Runs.Event)
    requires a.approval.decision.None? && Runs.Step(a, x).approval.decision.Some?
    ensures x.Decide? && Runs.Step(a, x).approval.decision.value.id == x.id
    ensures Runs.Step(a, x).approval.decision.value.verdict == x.verdict
  {
  }

  lemma SaveProves(c: Cell, e: Event, d: Decision)
    requires Inv(c) && e.Save? && OnAction(c, e).Some? && d.id == e.decision && d.verdict == OnAction(c, e).value.verdict
    ensures Proved(c, e, d)
  {
    Links.ReachableInv(c.review.value);
  }

  /** A decision, once there, stays; and the event that brings it is a proved one. */
  lemma DecisionAppears(c: Cell, e: Event)
    requires Inv(c) && Step(c, e).action.approval.decision.Some?
    ensures c.action.approval.decision.Some? ==> Step(c, e).action.approval.decision == c.action.approval.decision
    ensures c.action.approval.decision.None? ==> Proved(c, e, Step(c, e).action.approval.decision.value)
  {
    if c.action.approval.decision.Some? {
      Safety.ReachableInv(c.action);
      if e.Open? {
        Safety.ClosedStays(c.action, Runs.OpenRequest(e.mailer, e.id, e.at));
      } else if OnAction(c, e).Some? {
        Safety.ClosedStays(c.action, OnAction(c, e).value);
      }
    } else if e.Open? {
      OpeningDecidesNothing(c.action, e.mailer, e.id, e.at);
    } else if OnAction(c, e).Some? {
      OnlyDecisionsDecide(c.action, OnAction(c, e).value);
      SaveProves(c, e, Step(c, e).action.approval.decision.value);
    }
  }

  lemma OpeningDecidesNothing(a: Runs.Cell, mailer: bool, id: Id, at: Time)
    ensures Runs.Step(a, Runs.OpenRequest(mailer, id, at)).approval.decision == a.approval.decision
  {
  }

  /** Some event of the run proved the decision. */
  ghost predicate ProvedIn(c: Cell, es: seq<Event>, d: Decision) {
    exists k :: 0 <= k < |es| && Proved(Run(c, es[..k]), es[k], d)
  }

  lemma ProvedLater(c: Cell, es: seq<Event>, d: Decision)
    requires es != [] && ProvedIn(c, es[..|es| - 1], d)
    ensures ProvedIn(c, es, d)
  {
    var rest := es[..|es| - 1];
    var k :| 0 <= k < |rest| && Proved(Run(c, rest[..k]), rest[k], d);
    assert es[..k] == rest[..k] && es[k] == rest[k];
  }

  /** Every decision on an action, approving or rejecting, was proved by a reviewer at some point of the run. */
  lemma {:induction false} DecisionWasProved(c: Cell, es: seq<Event>)
    requires Inv(c) && c.action.approval.decision.None? && Run(c, es).action.approval.decision.Some?
    ensures ProvedIn(c, es, Run(c, es).action.approval.decision.value)
  {
    var rest, e := es[..|es| - 1], es[|es| - 1];
    RunKeeps(c, rest);
    DecisionAppears(Run(c, rest), e);
    if Run(c, rest).action.approval.decision.Some? {
      DecisionWasProved(c, rest);
      ProvedLater(c, es, Run(c, es).action.approval.decision.value);
    }
  }

  /**
   No action that needs approval calls the provider unless a reviewer, with a code that reached an authorised
   mailbox, approved this action: the decision attached to it is theirs, over its own parameters.
   */
  lemma ExecutionWasApprovedByCode(terms: Terms, authorized: bool, safeRead: bool, serialized: bool, es: seq<Event>)
    requires var c := Run(Start(terms, authorized, safeRead, serialized), es).action;
      c.record.action.terms.ApprovalRequired() && (c.record.action.attempts > 0 || c.calls != [])
    ensures var start := Start(terms, authorized, safeRead, serialized);
      var c := Run(start, es).action;
      && c.approval.decision.Some? && c.approval.decision.value.verdict == Approve
      && c.record.action.approvalReference == Some(c.approval.decision.value.id)
      && c.approval.decision.value.parameterDigest == c.record.action.terms.ParameterDigest()
      && ProvedIn(start, es, c.approval.decision.value)
  {
    var start := Start(terms, authorized, safeRead, serialized);
    StartIsSafe(terms, authorized, safeRead, serialized);
    RunKeeps(start, es);
    Safety.GatesHold(Run(start, es).action);
    DecisionWasProved(start, es);
  }
}
