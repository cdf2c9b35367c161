/**
 The reviewers' links of one approval request: who may ask for a code, what a code proves, how
 wrong codes are counted, and how notices and codes are mailed.  Claims are committed under the
 action lock before anything is mailed; the mailer's answer is recorded afterwards, outside it.
 */
module ApprovalLinks {
  import opened Wrappers
  import opened Clock
  import opened Approvals
  import opened Actions

  datatype Mail = Unsent | Claimed | Sent | Bounced | Unclear

  /** HMAC of challenge and code, symbolically. */
  datatype Proof = Proof(challenge: Id, code: string)

  datatype Link = Link(
    email: string,
    notice: Mail,
    invalidatedAt: Option<Time>,
    challenge: Option<Id>,
    otp: Option<Proof>,
    otpExpiresAt: Option<Time>,
    attempts: nat,
    sends: nat,
    lastSentAt: Option<Time>,
    delivery: Mail)

  function NewLink(email: string): Link {
    Link(email, Unsent, None, None, None, None, 0, 0, None, Unsent)
  }

  /** What a reviewer presents: `tokenFits` is the link token against this link and request. */
  datatype Claim = Claim(tokenFits: bool, email: string)

  predicate Accepts(link: Link, claim: Claim, policy: Policy) {
    link.invalidatedAt.None? && claim.tokenFits && link.email in policy.emails && link.email == claim.email
  }

  predicate CoolingDown(link: Link, policy: Policy, now: Time) {
    link.lastSentAt.Some? && now < link.lastSentAt.value + policy.otpCooldown * SECOND
  }

  predicate MayStart(link: Link, claim: Claim, policy: Policy, now: Time) {
    && Accepts(link, claim, policy)
    && link.attempts < policy.otpMaxAttempts && link.sends < policy.otpMaxSends
    && !CoolingDown(link, policy, now)
  }

  function Earlier(a: Time, b: Time): Time {
    if b < a then b else a
  }

  function Started(link: Link, policy: Policy, deadline: Time, challenge: Id, code: string, now: Time): Link {
    link.(challenge := Some(challenge), otp := Some(Proof(challenge, code)),
          otpExpiresAt := Some(Earlier(deadline, now + policy.otpSeconds * SECOND)),
          sends := link.sends + 1, lastSentAt := Some(now), delivery := Claimed)
  }

  predicate SixDigits(code: string) {
    |code| == 6 && forall k :: 0 <= k < 6 ==> '0' <= code[k] <= '9'
  }

  /** The code answers the link's latest delivered challenge, in time. */
  predicate Proves(link: Link, challenge: Id, code: string, now: Time) {
    && link.challenge == Some(challenge) && link.otp == Some(Proof(challenge, code)) && SixDigits(code)
    && link.otpExpiresAt.Some? && now < link.otpExpiresAt.value && link.delivery == Sent
  }

  /** A counted failure; below the limit the save writes invalidated_at = NULL. */
  function Missed(link: Link, policy: Policy, now: Time): Link {
    var attempts := link.attempts + 1;
    var spent := attempts >= policy.otpMaxAttempts;
    link.(attempts := attempts, invalidatedAt := if spent then Some(now) else None,
          otp := if spent then None else link.otp)
  }

  datatype Verification = NotYours | Wrong(saved: Link) | Right

  function VerifyLink(link: Link, claim: Claim, policy: Policy, challenge: Id, code: string, now: Time): Verification {
    if !Accepts(link, claim, policy) || link.attempts >= policy.otpMaxAttempts then NotYours
    else if Proves(link, challenge, code, now) then Right
    else Wrong(Missed(link, policy, now))
  }

  /** What send_notices does with a link it reads: nothing, give up a claim, or claim it. */
  function Noticed(link: Link): Link {
    if link.invalidatedAt.Some? then link
    else if link.notice == Claimed then link.(notice := Unclear)
    else if link.notice == Unsent then link.(notice := Claimed)
    else link
  }

  predicate ClaimsNotice(link: Link) {
    link.invalidatedAt.None? && link.notice == Unsent
  }

  function LandedNotice(link: Link, status: Mail): Link {
    if link.notice == Claimed then link.(notice := status) else link
  }

  function LandedCode(link: Link, challenge: Id, status: Mail): Link {
    if link.challenge == Some(challenge) && link.delivery == Claimed then link.(delivery := status) else link
  }

  function Shut(link: Link, now: Time): Link {
    link.(invalidatedAt := Some(now), otp := None)
  }

  function ShutAll(links: map<Id, Link>, now: Time): map<Id, Link> {
    map id | id in links :: Shut(links[id], now)
  }

  predicate Settled(status: Mail) {
    status.Sent? || status.Bounced? || status.Unclear?
  }

  /** What one undisturbed pass of send_notices leaves of a link, given the mailer's answer. */
  function NoticedAndMailed(link: Link, status: Mail): Link {
    if ClaimsNotice(link) then Noticed(link).(notice := status) else Noticed(link)
  }

  /** One untouched link for every mailbox, and no other link. */
  ghost predicate OneLinkEach(links: map<Id, Link>, emails: seq<string>) {
    && (forall id :: id in links ==> links[id] == NewLink(links[id].email) && links[id].email in emails)
    && (forall a, b :: a in links && b in links && links[a].email == links[b].email ==> a == b)
    && (forall email :: email in emails ==> exists id :: id in links && links[id].email == email)
  }

  method OpenLinks(emails: seq<string>, ids: seq<Id>) returns (links: map<Id, Link>)
    requires Distinct(emails) && |ids| == |emails| && Distinct(ids)
    ensures OneLinkEach(links, emails)
    ensures forall k :: 0 <= k < |ids| ==> ids[k] in links && links[ids[k]] == NewLink(emails[k])
  {
    links := map[];
    var k := 0;
    while k < |emails|
      invariant k <= |emails|
      invariant forall i :: 0 <= i < k ==> ids[i] in links && links[ids[i]] == NewLink(emails[i])
      invariant forall id :: id in links ==> exists i :: 0 <= i < k && ids[i] == id
    {
      links := links[ids[k] := NewLink(emails[k])];
      k := k + 1;
    }
  }

  /** The link rows of one request, as its transactions change them one after another. */
  class Desk {
    var links: map<Id, Link>
    var mailed: seq<Id>

    constructor ()
      ensures links == map[] && mailed == []
    {
      links, mailed := map[], [];
    }

    method StartOtp(id: Id, claim: Claim, policy: Policy, deadline: Time, challenge: Id, code: string, now: Time)
      returns (issued: bool)
      modifies this`links
      ensures issued <==> id in old(links) && MayStart(old(links)[id], claim, policy, now)
      ensures links == if issued then old(links)[id := Started(old(links)[id], policy, deadline, challenge, code, now)]
                       else old(links)
    {
      if id !in links { return false; }
      var link := links[id];
      if link.invalidatedAt.Some? || !claim.tokenFits || link.email !in policy.emails { return false; }
      if link.email != claim.email || link.attempts >= policy.otpMaxAttempts || link.sends >= policy.otpMaxSends {
        return false;
      }
      if link.lastSentAt.Some? && now < link.lastSentAt.value + policy.otpCooldown * SECOND { return false; }
      var until := now + policy.otpSeconds * SECOND;
      link := link.(challenge := Some(challenge), otp := Some(Proof(challenge, code)));
      link := link.(otpExpiresAt := Some(if until < deadline then until else deadline));
      link := link.(sends := link.sends + 1, lastSentAt := Some(now), delivery := Claimed);
      links := links[id := link];
      return true;
    }

    /** `_verified_link`: a wrong code is counted and may shut the link. */
    method Verify(id: Id, claim: Claim, policy: Policy, challenge: Id, code: string, now: Time) returns (ok: bool)
      modifies this`links
      ensures ok <==> id in old(links) && VerifyLink(old(links)[id], claim, policy, challenge, code, now).Right?
      ensures links ==
        if id in old(links) && VerifyLink(old(links)[id], claim, policy, challenge, code, now).Wrong?
        then old(links)[id := Missed(old(links)[id], policy, now)] else old(links)
    {
      if id !in links { return false; }
      var link := links[id];
      if link.invalidatedAt.Some? || !claim.tokenFits || link.email !in policy.emails || link.email != claim.email {
        return false;
      }
      if link.attempts >= policy.otpMaxAttempts { return false; }
      if Proves(link, challenge, code, now) { return true; }
      var attempts := link.attempts + 1;
      link := link.(attempts := attempts);
      if attempts >= policy.otpMaxAttempts {
        link := link.(invalidatedAt := Some(now), otp := None);
      } else {
        link := link.(invalidatedAt := None);
      }
      links := links[id := link];
      return false;
    }

    /** One pass over the links, undisturbed: each claim is committed, mailed, and its answer recorded. */
    method SendNotices(ids: seq<Id>, answers: map<Id, Mail>)
      modifies this
      ensures (links, mailed) == Pass(old(links), old(mailed), ids, answers)
    {
      ghost var links0, mailed0 := links, mailed;
      var k := 0;
      while k < |ids|
        invariant k <= |ids|
        invariant (links, mailed) == Pass(links0, mailed0, ids[..k], answers)
      {
        assert ids[..k + 1][..k] == ids[..k];
        var id := ids[k];
        if id in links && links[id].invalidatedAt.None? {
          if links[id].notice == Claimed {
            links := links[id := links[id].(notice := Unclear)];
          } else if links[id].notice == Unsent {
            var link := links[id].(notice := Claimed);
            mailed := mailed + [id];
            links := links[id := LandedNotice(link, MailStatus(answers, id))];
          }
        }
        k := k + 1;
      }
      assert ids[..k] == ids;
    }
  }

  /** The mailer's answer; an exception or anything unexpected counts as unclear. */
  function MailStatus(answers: map<Id, Mail>, id: Id): Mail {
    if id in answers && Settled(answers[id]) then answers[id] else Unclear
  }

  function Pass(links: map<Id, Link>, mailed: seq<Id>, ids: seq<Id>, answers: map<Id, Mail>): (map<Id, Link>, seq<Id>) {
    if ids == [] then (links, mailed)
    else
      var (l, m) := Pass(links, mailed, ids[..|ids| - 1], answers);
      var id := ids[|ids| - 1];
      if id !in l || Noticed(l[id]) == l[id] then (l, m)
      else (l[id := NoticedAndMailed(l[id], MailStatus(answers, id))], if ClaimsNotice(l[id]) then m + [id] else m)
  }

  /** A pass mails each claimable link it visits exactly once, and no other. */
  lemma {:induction false} PassMailsOnce(links: map<Id, Link>, ids: seq<Id>, answers: map<Id, Mail>, id: Id)
    ensures var (l, m) := Pass(links, [], ids, answers);
      && l.Keys == links.Keys
      && Times(m, id) == (if id in ids && id in links && ClaimsNotice(links[id]) then 1 else 0)
      && (id in links && id in ids && Noticed(links[id]) != links[id] ==> l[id].notice != Unsent && l[id].notice != Claimed)
      && (id in links && (id !in ids || Noticed(links[id]) == links[id]) ==> l[id] == links[id])
  {
    if ids != [] {
      PassMailsOnce(links, ids[..|ids| - 1], answers, id);
      assert ids == ids[..|ids| - 1] + [ids[|ids| - 1]];
      var (l, m) := Pass(links, [], ids[..|ids| - 1], answers);
      TimesSnoc(m, ids[|ids| - 1], id);
    }
  }

  /** How often `id` occurs. */
  function Times(s: seq<Id>, id: Id): nat {
    if s == [] then 0 else Times(s[..|s| - 1], id) + if s[|s| - 1] == id then 1 else 0
  }

  lemma TimesSnoc(s: seq<Id>, x: Id, id: Id)
    ensures Times(s + [x], id) == Times(s, id) + if x == id then 1 else 0
  {
    assert (s + [x])[..|s|] == s;
  }
}
