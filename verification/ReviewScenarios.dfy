/** An action approved and executed in a joint run: the guarantees about such runs are not empty. */
module ReviewScenarios {
  import opened Wrappers
  import opened Clock
  import opened Actions
  import opened Approvals
  import opened ApprovalLinks
  import opened ReviewRuns
  import Links = ApprovalLinkRuns
  import Linked = ApprovalLinkScenarios
  import Runs = ActionRuns
  import Acted = ActionScenarios

  lemma {:induction false} RunAppends(c: Cell, es: seq<Event>, fs: seq<Event>)
    ensures Run(c, es + fs) == Run(Run(c, es), fs)
  {
    if fs == [] {
      assert es + fs == es;
    } else {
      RunAppends(c, es, fs[..|fs| - 1]);
      assert (es + fs)[..|es + fs| - 1] == es + fs[..|fs| - 1];
    }
  }

  lemma RunThree(c: Cell, a: Event, b: Event, d: Event)
    ensures Run(c, [a, b, d]) == Step(Step(Step(c, a), b), d)
  {
    assert [a, b, d][..2] == [a, b] && [a, b][..1] == [a] && [a][..0] == [];
    assert Run(c, [a]) == Step(c, a);
    assert Run(c, [a, b]) == Step(Run(c, [a]), b);
  }

  /** What the run is about: a plain action, the route that serves it, and one of the route's reviewers with their link. */
  datatype Cast = Cast(terms: Terms, route: Policy, id: Id, links: map<Id, Link>, link: Id, claim: Claim, challenge: Id,
                       code: string, decision: Id, worker: Id, now: Time)

  ghost predicate Ready(t: Cast) {
    && Acted.Plain(t.terms) && Acted.Serves(t.route, t.terms) && OneLinkEach(t.links, t.route.emails)
    && t.link in t.links && t.claim == Claim(true, t.links[t.link].email) && SixDigits(t.code)
    && t.now < Floored(t.now + t.route.expiresMinutes * MINUTE)
  }

  function Asked(t: Cast): Cell {
    var a := Acted.Pending(t.terms, t.route, t.id, t.now);
    Cell(a, Some(Reviewing(a.approval.request.value, t.links)))
  }

  function Asking(t: Cast): seq<Event> {
    [Act(Runs.SaveRoute(t.route)), Open(true, t.id, t.now, t.links)]
  }

  lemma Asks(t: Cast)
    requires Ready(t)
    ensures Run(Start(t.terms, true, false, false), Asking(t)) == Asked(t)
  {
    var es := Asking(t);
    var c := Start(t.terms, true, false, false);
    assert es[..1] == [es[0]] && es[..1][..0] == [];
    assert Run(c, es[..1]) == Step(c, es[0]);
  }

  function Coding(t: Cast): seq<Event> {
    [Look(t.link, Links.Start(t.claim, t.challenge, t.code), t.now), Save(0), Post(Links.MailCode(t.challenge))]
  }

  function Coded(t: Cast): Cell
    requires t.link in t.links
  {
    var r := Asked(t).review.value;
    Cell(Asked(t).action, Some(Linked.Coded(r, t.link, t.challenge, t.code, t.now)))
  }

  function Approving(t: Cast): seq<Event> {
    [Post(Links.LandCode(t.link, t.challenge, Sent)),
     Look(t.link, Links.Check(t.claim, t.challenge, t.code, Some(Approve)), t.now), Save(t.decision)]
  }

  function Delivered(t: Cast): Cell
    requires t.link in t.links
  {
    var r := Coded(t).review.value;
    Cell(Coded(t).action, Some(r.(links := r.links[t.link := r.links[t.link].(delivery := Sent)],
                                  dueCodes := r.dueCodes - {t.challenge})))
  }

  function Presented(t: Cast): Cell
    requires t.link in t.links
  {
    var r := Delivered(t).review.value;
    var intent := Links.Check(t.claim, t.challenge, t.code, Some(Approve));
    Cell(Coded(t).action, Some(r.(holder := Some(Links.Holder(t.link, r.links[t.link], intent, t.now)))))
  }

  lemma Delivers(t: Cast)
    requires Ready(t)
    ensures Step(Coded(t), Approving(t)[0]) == Delivered(t)
  {
  }

  /** A look at a usable request takes the lock and changes nothing else. */
  lemma Looks(c: Cell, link: Id, intent: Links.Intent, now: Time)
    requires Coupled(c) && c.review.Some? && c.action.route.Some? && Free(c) && link in c.review.value.links
    requires UsabilityOf(c.review.value.request, Fits(c), c.action.route.value, now).Usable?
    ensures var r := c.review.value;
      Step(c, Look(link, intent, now)) == Cell(c.action, Some(r.(holder := Some(Links.Holder(link, r.links[link], intent, now)))))
  {
  }

  lemma AskedIsUsable(t: Cast)
    requires Ready(t)
    ensures Coupled(Asked(t)) && UsabilityOf(Asked(t).review.value.request, Fits(Asked(t)), t.route, t.now).Usable?
  {
  }

  /** The reviewer's request for a code holds the action. */
  function Requested(t: Cast): Cell
    requires t.link in t.links
  {
    var r := Asked(t).review.value;
    var intent := Links.Start(t.claim, t.challenge, t.code);
    Cell(Asked(t).action, Some(r.(holder := Some(Links.Holder(t.link, r.links[t.link], intent, t.now)))))
  }

  lemma Issues(t: Cast)
    requires Ready(t)
    ensures Step(Step(Requested(t), Coding(t)[1]), Coding(t)[2]) == Coded(t)
  {
    SavedReview(Requested(t).review.value);
  }

  lemma Codes(t: Cast)
    requires Ready(t)
    ensures Run(Asked(t), Coding(t)) == Coded(t)
  {
    RunThree(Asked(t), Coding(t)[0], Coding(t)[1], Coding(t)[2]);
    AskedIsUsable(t);
    Looks(Asked(t), t.link, Links.Start(t.claim, t.challenge, t.code), t.now);
    Issues(t);
  }

  lemma Presents(t: Cast)
    requires Ready(t)
    ensures Step(Delivered(t), Approving(t)[1]) == Presented(t)
  {
    AskedIsUsable(t);
    Looks(Delivered(t), t.link, Links.Check(t.claim, t.challenge, t.code, Some(Approve)), t.now);
  }

  lemma Proves(t: Cast)
    requires Ready(t)
    ensures Decides(Presented(t).review.value, Presented(t).review.value.holder.value)
  {
  }

  /** The action has its approval, and nobody holds it. */
  predicate Settled(t: Cast, c: Cell) {
    c.action == Acted.Approved(t.terms, t.route, t.id, t.decision, t.now) && Free(c)
  }

  lemma Saves(t: Cast)
    requires Ready(t)
    ensures Settled(t, Step(Presented(t), Approving(t)[2]))
  {
    Proves(t);
    Acted.ApprovesPending(t.terms, t.route, t.id, t.decision, t.now);
    SavedReview(Presented(t).review.value);
  }

  lemma Approves(t: Cast)
    requires Ready(t)
    ensures Settled(t, Run(Coded(t), Approving(t)))
  {
    RunThree(Coded(t), Approving(t)[0], Approving(t)[1], Approving(t)[2]);
    Delivers(t);
    Presents(t);
    Saves(t);
  }

  function Preparing(t: Cast): Event {
    Act(Runs.Prepare(t.worker, Acted.AllWell(t.now)))
  }

  lemma Prepares(t: Cast, c: Cell)
    requires Ready(t) && Settled(t, c)
    ensures Step(c, Preparing(t)).action.record.action.state == Executing
    ensures Step(c, Preparing(t)).action.record.action.terms == t.terms
  {
    Acted.PreparesApproved(t.terms, t.route, t.id, t.decision, t.now, t.worker);
  }

  lemma RunOne(c: Cell, e: Event)
    ensures Run(c, [e]) == Step(c, e)
  {
    assert [e][..0] == [];
  }

  /** A mailed and delivered code, an approval with it, and the worker's permit: EXECUTING is reached. */
  lemma ReviewerLetsActionExecute(t: Cast)
    requires Ready(t)
    ensures var c := Run(Start(t.terms, true, false, false), Asking(t) + Coding(t) + Approving(t) + [Preparing(t)]);
      c.action.record.action.state == Executing && c.action.record.action.terms == t.terms && t.terms.ApprovalRequired()
  {
    var c := Start(t.terms, true, false, false);
    RunAppends(c, Asking(t), Coding(t));
    RunAppends(c, Asking(t) + Coding(t), Approving(t));
    RunAppends(c, Asking(t) + Coding(t) + Approving(t), [Preparing(t)]);
    Asks(t);
    Codes(t);
    Approves(t);
    Prepares(t, Run(Coded(t), Approving(t)));
    RunOne(Run(Coded(t), Approving(t)), Preparing(t));
  }
}
