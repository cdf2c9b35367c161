/**
 What each operation on a reviewer's link comes to, to the column: who gets a code and until when, what proves
 it, what a wrong one costs, and what the mailer's answers and a closing request leave.
 */
module LinkOutcomes {
  import opened Wrappers
  import opened Clock
  import opened Actions
  import opened Approvals
  import opened ApprovalLinks
  import opened ApprovalLinkRuns
  import ApprovalService

  /** Whose link it is: live, with its own token, of a mailbox still authorised, and claimed by that mailbox. */
  predicate Presents(link: Link, claim: Claim, policy: Policy) {
    link.invalidatedAt == None && claim.tokenFits && claim.email == link.email && claim.email in policy.emails
  }

  /** A link as it is made: nothing sent, nothing tried, no code, and neither notice nor code claimed for mailing. */
  lemma NewLinkIs(email: string)
    ensures var l := NewLink(email);
      && l.email == email && l.notice == Unsent && l.delivery == Unsent && l.invalidatedAt.None?
      && l.challenge.None? && l.otp.None? && l.otpExpiresAt.None? && l.attempts == 0 && l.sends == 0 && l.lastSentAt.None?
  {
  }

  /** Who is sent a code: the link's own mailbox, below both limits, and not within the cooldown of the last one. */
  lemma MayStartIff(link: Link, claim: Claim, policy: Policy, now: Time)
    ensures MayStart(link, claim, policy, now) <==>
      && Presents(link, claim, policy)
      && link.attempts < policy.otpMaxAttempts && link.sends < policy.otpMaxSends
      && (match link.lastSentAt case None => true case Some(last) => now - last >= policy.otpCooldown * 1_000_000)
  {
  }

  /** A new code replaces the old one, expires with its seconds or the request, and waits for the mailer. */
  lemma StartedIs(link: Link, policy: Policy, deadline: Time, challenge: Id, code: string, now: Time)
    ensures var l := Started(link, policy, deadline, challenge, code, now);
      && l == link.(challenge := Some(challenge), otp := Some(Proof(challenge, code)), otpExpiresAt := l.otpExpiresAt,
                    sends := link.sends + 1, lastSentAt := Some(now), delivery := Claimed)
      && l.otpExpiresAt.Some? && l.otpExpiresAt.value <= deadline
      && l.otpExpiresAt.value - now <= policy.otpSeconds * 1_000_000
      && (l.otpExpiresAt.value == deadline || l.otpExpiresAt.value - now == policy.otpSeconds * 1_000_000)
  {
  }

  /** What a presented code comes to: nothing for a stranger or a spent link, and otherwise a proof or a counted miss. */
  lemma VerificationOutcome(link: Link, claim: Claim, policy: Policy, challenge: Id, code: string, now: Time)
    ensures var v := VerifyLink(link, claim, policy, challenge, code, now);
      var mine := Presents(link, claim, policy) && link.attempts < policy.otpMaxAttempts;
      var right := link.challenge == Some(challenge) && link.otp == Some(Proof(challenge, code)) && |code| == 6
        && (forall k :: 0 <= k < 6 ==> '0' <= code[k] <= '9')
        && link.otpExpiresAt.Some? && now < link.otpExpiresAt.value && link.delivery == Sent;
      && (v.NotYours? <==> !mine) && (v.Right? <==> mine && right) && (v.Wrong? <==> mine && !right)
      && (v.Wrong? && link.attempts + 1 < policy.otpMaxAttempts ==> v.saved == link.(attempts := link.attempts + 1, invalidatedAt := None))
      && (v.Wrong? && link.attempts + 1 == policy.otpMaxAttempts ==>
            v.saved == link.(attempts := link.attempts + 1, invalidatedAt := Some(now), otp := None))
  {
  }

  /** A decision is proved only by a link of this very request, and then by what that link's own check says. */
  lemma AnsweredIs(links: map<Id, Link>, id: Id, claim: Claim, policy: Policy, challenge: Id, code: string, now: Time)
    ensures var v := ApprovalService.Answered(links, id, claim, policy, challenge, code, now);
      if id in links then v == VerifyLink(links[id], claim, policy, challenge, code, now) else v == NotYours
  {
  }

  /** What the notice job makes of a link it reads: a fresh one is claimed, an unfinished claim given up, the rest left alone. */
  lemma NoticedIs(link: Link)
    ensures var live := link.invalidatedAt == None;
      Noticed(link).notice ==
        if live && link.notice == Unsent then Claimed else if live && link.notice == Claimed then Unclear else link.notice
    ensures Noticed(link) == link.(notice := Noticed(link).notice)
    ensures ClaimsNotice(link) <==> link.invalidatedAt == None && link.notice == Unsent
  {
  }

  /** An answer lands only on a claim still waiting for it, a code's only on its own challenge. */
  lemma AnswersLandIff(link: Link, challenge: Id, status: Mail)
    ensures LandedNotice(link, status) == link.(notice := if link.notice == Claimed then status else link.notice)
    ensures LandedCode(link, challenge, status) ==
      link.(delivery := if link.delivery == Claimed && link.challenge == Some(challenge) then status else link.delivery)
  {
  }

  /** The mailer's clear answers are taken as they are, and everything else as unclear. */
  lemma MailStatusIs(answers: map<Id, Mail>, id: Id)
    ensures var status := MailStatus(answers, id);
      && (status == Sent <==> id in answers && answers[id] == Sent)
      && (status == Bounced <==> id in answers && answers[id] == Bounced)
      && (status != Sent && status != Bounced ==> status == Unclear)
  {
  }

  /** A closing request shuts each of its links at that instant and forgets its code. */
  lemma ClosingShuts(links: map<Id, Link>, now: Time, id: Id)
    ensures ShutAll(links, now).Keys == links.Keys
    ensures id in links ==> ShutAll(links, now)[id] == links[id].(invalidatedAt := Some(now), otp := None)
  {
  }

  /** One pass over a link by itself: what it is left with, given the mailer's answer. */
  lemma PassLeaves(link: Link, status: Mail)
    ensures var l := NoticedAndMailed(link, status);
      && l == link.(notice := l.notice)
      && l.notice == (if link.invalidatedAt.Some? then link.notice
                      else if link.notice == Unsent then status
                      else if link.notice == Claimed then Unclear
                      else link.notice)
  {
  }

  // ---- The transactions of the machine ----

  /** A look takes the lock and the row, exactly when the request is usable and nobody else holds it. */
  lemma LookTakesIff(c: Cell, link: Id, intent: Intent, matches: bool, route: Policy, now: Time)
    requires c.holder.None? && link in c.links
    ensures var c' := Step(c, Look(link, intent, matches, route, now));
      var usable := c.request.state == RequestPending && now < c.request.expiresAt && route.enabled
        && route == c.request.pinned && matches;
      && (c'.holder.Some? <==> usable)
      && (usable ==> c' == c.(holder := Some(Holder(link, c.links[link], intent, now))))
  {
  }

  /** A look at a request that must close closes it: expired in time's name, invalidated in its premises'. */
  lemma LookCloses(c: Cell, matches: bool, route: Policy, now: Time)
    requires c.holder.None? && c.request.state == RequestPending
    ensures var c' := Step(c, Touch(matches, route, now));
      && (c'.request.state == RequestExpired <==> now >= c.request.expiresAt)
      && (c'.request.state == RequestInvalidated <==>
           now < c.request.expiresAt && (!route.enabled || route != c.request.pinned || !matches))
      && (c'.request.state != RequestPending ==> c'.links == ShutAll(c.links, now) && c'.decision == c.decision)
      && (c'.request.state == RequestPending ==> c' == c)
  {
  }

  /** What a save writes, for each thing a transaction can be doing with the row it read. */
  lemma SaveWrites(c: Cell)
    requires c.holder.Some?
    ensures var h, c' := c.holder.value, Step(c, Save);
      && c'.holder.None?
      && (h.intent.Notice? ==>
           && c'.links == (if h.read.invalidatedAt.None? && (h.read.notice == Unsent || h.read.notice == Claimed)
                           then c.links[h.link := h.read.(notice := if h.read.notice == Unsent then Claimed else Unclear)] else c.links)
           && c'.owedNotices == (if h.read.invalidatedAt.None? && h.read.notice == Unsent
                                 then c.owedNotices + {h.link} else c.owedNotices))
      && (h.intent.Start? ==>
           var issued := h.intent.challenge !in c.used && MayStart(h.read, h.intent.claim, c.request.pinned, h.now);
           && c'.owedCodes == (if issued then c.owedCodes + {h.intent.challenge} else c.owedCodes)
           && c'.codes == (if issued then c.codes + [h.link] else c.codes) && (!issued ==> c'.links == c.links))
      && (h.intent.Check? ==>
           match VerifyLink(h.read, h.intent.claim, c.request.pinned, h.intent.challenge, h.intent.code, h.now)
           case NotYours => c' == c.(holder := None)
           case Wrong(saved) => c' == c.(holder := None, links := c.links[h.link := saved], wrong := c.wrong + [h.link])
           case Right =>
             && c'.decision == (if h.intent.verdict.Some? then h.intent.verdict else c.decision)
             && (h.intent.verdict.None? ==> c' == c.(holder := None)))
  {
  }

  /** Mailing hands over what is owed, once. */
  lemma MailIff(c: Cell, link: Id, challenge: Id)
    ensures var c' := Step(c, MailNotice(link));
      if link in c.owedNotices
      then c' == c.(owedNotices := c.owedNotices - {link}, mailedNotices := c.mailedNotices + [link], dueNotices := c.dueNotices + {link})
      else c' == c
    ensures var c' := Step(c, MailCode(challenge));
      if challenge in c.owedCodes
      then c' == c.(owedCodes := c.owedCodes - {challenge}, mailedCodes := c.mailedCodes + [challenge], dueCodes := c.dueCodes + {challenge})
      else c' == c
  {
  }

  /** An answer lands once, if it is final, for a mailed notice or code, and then only on a claim still waiting for it. */
  lemma LandingIff(c: Cell, link: Id, challenge: Id, status: Mail)
    requires link in c.links
    ensures var l, final := c.links[link], status == Sent || status == Bounced || status == Unclear;
      var notice, code := Step(c, LandNotice(link, status)), Step(c, LandCode(link, challenge, status));
      && notice == (if final && link in c.dueNotices
           then c.(links := c.links[link := l.(notice := if l.notice == Claimed then status else l.notice)], dueNotices := c.dueNotices - {link})
           else c)
      && code == (if final && challenge in c.dueCodes
           then c.(links := c.links[link := l.(delivery := if l.delivery == Claimed && l.challenge == Some(challenge) then status else l.delivery)],
                   dueCodes := c.dueCodes - {challenge})
           else c)
  {
  }
}
