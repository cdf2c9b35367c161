/** A run in which a reviewer's code is mailed and delivered, and yet accepted in no later run. */
module ApprovalLinkScenarios {
  import opened Wrappers
  import opened Clock
  import opened Actions
  import opened Approvals
  import opened ApprovalLinks
  import opened ApprovalLinkRuns

  lemma {:induction false} RunAppends(c: Cell, es: seq<Event>, fs: seq<Event>)
    ensures Run(c, es + fs) == Run(Run(c, es), fs)
  {
    if fs == [] {
      assert es + fs == es;
    } else {
      RunAppends(c, es, fs[..|fs| - 1]);
      assert (es + fs)[..|es + fs| - 1] == es + fs[..|fs| - 1];
    }
  }

  lemma RunThree(c: Cell, a: Event, b: Event, d: Event)
    ensures Run(c, [a, b, d]) == Step(Step(Step(c, a), b), d)
  {
    assert [a, b, d][..2] == [a, b] && [a, b][..1] == [a] && [a][..0] == [];
    assert Run(c, [a]) == Step(c, a);
    assert Run(c, [a, b]) == Step(Run(c, [a]), b);
  }

  /** A request just opened on an enabled route, with a link the claim fits, still in time at `now`. */
  ghost predicate Ready(c: Cell, id: Id, claim: Claim, now: Time) {
    && Opened(c) && id in c.links && c.request.pinned.enabled && now < c.request.expiresAt
    && claim.tokenFits && claim.email == c.links[id].email
  }

  /** The reviewer gets the notice; its answer has not landed yet. */
  function Notifying(id: Id, policy: Policy, now: Time): seq<Event> {
    [Look(id, Notice, true, policy, now), Save, MailNotice(id)]
  }

  /** They ask for a code, which is mailed. */
  function Coding(id: Id, policy: Policy, claim: Claim, challenge: Id, code: string, now: Time): seq<Event> {
    [Look(id, Start(claim, challenge, code), true, policy, now), Save, MailCode(challenge)]
  }

  /** A repeated notice job reads the row, the mailer reports the code delivered, and the job saves what it read. */
  function Overwriting(id: Id, policy: Policy, challenge: Id, now: Time): seq<Event> {
    [Look(id, Notice, true, policy, now), LandCode(id, challenge, Sent), Save]
  }

  ghost predicate Idle(c: Cell, id: Id, now: Time) {
    && c.holder.None? && c.request.state == RequestPending && c.request.pinned.enabled
    && now < c.request.expiresAt && id in c.links && c.links[id].invalidatedAt.None?
  }

  function Notified(c: Cell, id: Id): Cell
    requires id in c.links
  {
    c.(links := c.links[id := c.links[id].(notice := Claimed)], mailedNotices := c.mailedNotices + [id],
       dueNotices := c.dueNotices + {id})
  }

  lemma Notifies(c: Cell, id: Id, now: Time)
    requires Idle(c, id, now) && c.links[id].notice == Unsent && c.owedNotices == {}
    ensures Run(c, Notifying(id, c.request.pinned, now)) == Notified(c, id)
  {
    RunThree(c, Look(id, Notice, true, c.request.pinned, now), Save, MailNotice(id));
  }

  function Coded(c: Cell, id: Id, challenge: Id, code: string, now: Time): Cell
    requires id in c.links
  {
    c.(links := c.links[id := Started(c.links[id], c.request.pinned, c.request.expiresAt, challenge, code, now)],
       used := c.used + {challenge}, codes := c.codes + [id], mailedCodes := c.mailedCodes + [challenge],
       dueCodes := c.dueCodes + {challenge})
  }

  lemma Codes(c: Cell, id: Id, claim: Claim, challenge: Id, code: string, now: Time)
    requires Idle(c, id, now) && MayStart(c.links[id], claim, c.request.pinned, now)
    requires challenge !in c.used && c.owedCodes == {}
    ensures Run(c, Coding(id, c.request.pinned, claim, challenge, code, now)) == Coded(c, id, challenge, code, now)
  {
    RunThree(c, Look(id, Start(claim, challenge, code), true, c.request.pinned, now), Save, MailCode(challenge));
  }

  /** The notice job holds the row it read, and then the answer lands. */
  function Reread(c: Cell, id: Id, now: Time): Cell
    requires id in c.links
  {
    c.(holder := Some(Holder(id, c.links[id], Notice, now)))
  }

  function Landed(c: Cell, id: Id, challenge: Id, now: Time): Cell
    requires id in c.links
  {
    Reread(c, id, now).(links := c.links[id := c.links[id].(delivery := Sent)], dueCodes := c.dueCodes - {challenge})
  }

  lemma Rereads(c: Cell, id: Id, now: Time)
    requires Idle(c, id, now)
    ensures Step(c, Look(id, Notice, true, c.request.pinned, now)) == Reread(c, id, now)
  {
  }

  lemma Lands(c: Cell, id: Id, challenge: Id, now: Time)
    requires id in c.links && c.links[id].delivery == Claimed
    requires c.links[id].challenge == Some(challenge) && challenge in c.dueCodes
    ensures Step(Reread(c, id, now), LandCode(id, challenge, Sent)) == Landed(c, id, challenge, now)
  {
  }

  lemma SavesOver(c: Cell, id: Id, challenge: Id, now: Time)
    requires id in c.links && c.links[id].notice == Claimed && c.links[id].invalidatedAt.None?
    ensures Step(Landed(c, id, challenge, now), Save) ==
      c.(links := c.links[id := c.links[id].(notice := Unclear)], dueCodes := c.dueCodes - {challenge}, holder := None)
  {
    var h := Holder(id, c.links[id], Notice, now);
    assert SaveStep(Landed(c, id, challenge, now)) == SaveNotice(Landed(c, id, challenge, now).(holder := None), h);
  }

  lemma Overwrites(c: Cell, id: Id, challenge: Id, now: Time)
    requires Idle(c, id, now) && c.links[id].notice == Claimed && c.links[id].delivery == Claimed
    requires c.links[id].challenge == Some(challenge) && challenge in c.dueCodes
    ensures Run(c, Overwriting(id, c.request.pinned, challenge, now)) ==
      c.(links := c.links[id := c.links[id].(notice := Unclear)], dueCodes := c.dueCodes - {challenge})
  {
    RunThree(c, Look(id, Notice, true, c.request.pinned, now), LandCode(id, challenge, Sent), Save);
    Rereads(c, id, now);
    Lands(c, id, challenge, now);
    SavesOver(c, id, challenge, now);
  }

  /** The code was mailed and reported delivered, its link is live, and no run from here on accepts it. */
  lemma DeliveredCodeDies(c: Cell, id: Id, claim: Claim, challenge: Id, code: string, now: Time, es: seq<Event>, later: Time)
    requires Ready(c, id, claim, now)
    ensures var p := c.request.pinned;
      var c' := Run(c, Notifying(id, p, now) + Coding(id, p, claim, challenge, code, now) + Overwriting(id, p, challenge, now));
      && c'.mailedCodes == [challenge] && c'.links.Keys == c.links.Keys
      && c'.links[id].otp == Some(Proof(challenge, code)) && c'.links[id].invalidatedAt.None?
      && c'.links[id].delivery == Claimed && Dead(c', id, challenge)
      && Dead(Run(c', es), id, challenge) && !Proves(Run(c', es).links[id], challenge, code, later)
  {
    var p := c.request.pinned;
    var a, b := Notifying(id, p, now), Coding(id, p, claim, challenge, code, now);
    var c1 := Notified(c, id);
    var c2 := Coded(c1, id, challenge, code, now);
    RunAppends(c, a, b);
    RunAppends(c, a + b, Overwriting(id, p, challenge, now));
    Notifies(c, id, now);
    Codes(c1, id, claim, challenge, code, now);
    Overwrites(c2, id, challenge, now);
    DeadCodeNeverProves(Run(c2, Overwriting(id, p, challenge, now)), id, challenge, es, code, later);
  }
}
