/**
 One approval request with its links under every interleaving.  Reviewer and backend calls hold
 the action lock from reading a link to saving the whole row; the mailer's answers land in single
 columns without any lock, also in between, where the save overwrites them.
 */
module ApprovalLinkRuns {
  import opened Wrappers
  import opened Clock
  import opened Actions
  import opened Approvals
  import opened ApprovalLinks

  datatype Intent =
    | Notice
    | Start(claim: Claim, challenge: Id, code: string)
    | Check(claim: Claim, challenge: Id, code: string, verdict: Option<Verdict>)   // None: review only

  /** The transaction that holds the lock, with the link row as it read it. */
  datatype Holder = Holder(link: Id, read: Link, intent: Intent, now: Time)

  /**
   `wrong` and `codes` are the links whose code was missed or issued, in order; `owed` are committed
   claims not yet handed to the mailer, `mailed` those that were, `due` the answers still to land.
   */
  datatype Cell = Cell(
    request: Request, decision: Option<Verdict>, links: map<Id, Link>, holder: Option<Holder>,
    used: set<Id>, wrong: seq<Id>, codes: seq<Id>,
    owedNotices: set<Id>, mailedNotices: seq<Id>, dueNotices: set<Id>,
    owedCodes: set<Id>, mailedCodes: seq<Id>, dueCodes: set<Id>)

  datatype Event =
    | Look(link: Id, intent: Intent, matches: bool, route: Policy, now: Time)
    | Touch(matches: bool, route: Policy, now: Time)
    | Save
    | Abort
    | MailNotice(link: Id)
    | LandNotice(link: Id, status: Mail)
    | MailCode(challenge: Id)
    | LandCode(link: Id, challenge: Id, status: Mail)

  function Closed(c: Cell, state: RequestState, now: Time): Cell {
    c.(request := c.request.(state := state), links := ShutAll(c.links, now))
  }

  /** Under the lock: close when the request must close. */
  function TouchStep(c: Cell, matches: bool, route: Policy, now: Time): Cell {
    if c.holder.Some? then c
    else
      match UsabilityOf(c.request, matches, route, now)
      case MustClose(state) => Closed(c, state, now)
      case _ => c
  }

  function LookStep(c: Cell, link: Id, intent: Intent, matches: bool, route: Policy, now: Time): Cell {
    if c.holder.None? && UsabilityOf(c.request, matches, route, now).Usable? && link in c.links
    then c.(holder := Some(Holder(link, c.links[link], intent, now)))
    else TouchStep(c, matches, route, now)
  }

  function SaveNotice(c: Cell, h: Holder): Cell {
    if !ClaimsNotice(h.read) && h.read.notice != Claimed then c
    else if h.read.invalidatedAt.Some? then c
    else c.(links := c.links[h.link := Noticed(h.read)],
            owedNotices := if ClaimsNotice(h.read) then c.owedNotices + {h.link} else c.owedNotices)
  }

  function SaveStart(c: Cell, h: Holder): Cell
    requires h.intent.Start?
  {
    var ch := h.intent.challenge;
    if ch in c.used || !MayStart(h.read, h.intent.claim, c.request.pinned, h.now) then c
    else c.(links := c.links[h.link := Started(h.read, c.request.pinned, c.request.expiresAt, ch, h.intent.code, h.now)],
            used := c.used + {ch}, codes := c.codes + [h.link], owedCodes := c.owedCodes + {ch})
  }

  function SaveCheck(c: Cell, h: Holder): Cell
    requires h.intent.Check?
  {
    match VerifyLink(h.read, h.intent.claim, c.request.pinned, h.intent.challenge, h.intent.code, h.now)
    case NotYours => c
    case Wrong(saved) => c.(links := c.links[h.link := saved], wrong := c.wrong + [h.link])
    case Right =>
      if h.intent.verdict.None? then c
      else Closed(c.(decision := h.intent.verdict), if h.intent.verdict.value.Approve? then RequestApproved else RequestRejected, h.now)
  }

  function SaveStep(c: Cell): Cell {
    if c.holder.None? then c
    else
      var h := c.holder.value;
      var c' := c.(holder := None);
      match h.intent
      case Notice => SaveNotice(c', h)
      case Start(_, _, _) => SaveStart(c', h)
      case Check(_, _, _, _) => SaveCheck(c', h)
  }

  function LandStep(c: Cell, e: Event): Cell {
    match e
    case LandNotice(id, status) =>
      if id in c.dueNotices && id in c.links && Settled(status)
      then c.(links := c.links[id := LandedNotice(c.links[id], status)], dueNotices := c.dueNotices - {id}) else c
    case LandCode(id, ch, status) =>
      if ch in c.dueCodes && id in c.links && Settled(status)
      then c.(links := c.links[id := LandedCode(c.links[id], ch, status)], dueCodes := c.dueCodes - {ch}) else c
    case _ => c
  }

  function Step(c: Cell, e: Event): Cell {
    match e
    case Look(link, intent, matches, route, now) => LookStep(c, link, intent, matches, route, now)
    case Touch(matches, route, now) => TouchStep(c, matches, route, now)
    case Save => SaveStep(c)
    case Abort => c.(holder := None)
    case MailNotice(id) =>
      if id in c.owedNotices
      then c.(owedNotices := c.owedNotices - {id}, mailedNotices := c.mailedNotices + [id], dueNotices := c.dueNotices + {id})
      else c
    case MailCode(ch) =>
      if ch in c.owedCodes
      then c.(owedCodes := c.owedCodes - {ch}, mailedCodes := c.mailedCodes + [ch], dueCodes := c.dueCodes + {ch})
      else c
    case LandNotice(_, _) => LandStep(c, e)
    case LandCode(_, _, _) => LandStep(c, e)
  }

  function Run(c: Cell, es: seq<Event>): Cell {
    if es == [] then c else Step(Run(c, es[..|es| - 1]), es[|es| - 1])
  }

  /** A request just inserted, with one fresh link per mailbox. */
  ghost predicate Opened(c: Cell) {
    && ValidPolicy(c.request.pinned) && c.request.state == RequestPending && c.decision.None? && c.holder.None?
    && OneLinkEach(c.links, c.request.pinned.emails)
    && c.used == {} && c.wrong == [] && c.codes == []
    && c.owedNotices == {} && c.mailedNotices == [] && c.dueNotices == {}
    && c.owedCodes == {} && c.mailedCodes == [] && c.dueCodes == {}
  }

  // ---- The invariant ----

  predicate Bounded(l: Link, pinned: Policy) {
    && l.attempts <= pinned.otpMaxAttempts && l.sends <= pinned.otpMaxSends
    && (l.attempts == pinned.otpMaxAttempts ==> l.invalidatedAt.Some? && l.otp.None?)
    && (l.invalidatedAt.Some? ==> l.otp.None?)
  }

  predicate CodeInv(l: Link, expiresAt: Time, used: set<Id>) {
    && (l.otp.Some? ==> l.challenge == Some(l.otp.value.challenge))
    && (l.challenge.Some? ==> l.challenge.value in used && l.otpExpiresAt.Some? && l.otpExpiresAt.value <= expiresAt)
  }

  ghost predicate LinkInv(c: Cell, id: Id)
    requires id in c.links
  {
    var l := c.links[id];
    && Bounded(l, c.request.pinned) && CodeInv(l, c.request.expiresAt, c.used)
    && l.attempts == Times(c.wrong, id) && l.sends == Times(c.codes, id)
    && (c.request.state != RequestPending ==> l.invalidatedAt.Some?)
    && (l.notice == Unsent ==> id !in c.owedNotices && Times(c.mailedNotices, id) == 0)
  }

  /** What the holder read is the row still, but for the two columns that land without the lock. */
  predicate HolderInv(c: Cell) {
    c.holder.Some? ==>
      var h := c.holder.value;
      && c.request.state == RequestPending && h.link in c.links && h.now < c.request.expiresAt
      && c.links[h.link] == h.read.(notice := c.links[h.link].notice, delivery := c.links[h.link].delivery)
      && (h.read.notice == Unsent <==> c.links[h.link].notice == Unsent)
      && (h.read.delivery == Claimed || h.read.delivery == c.links[h.link].delivery)
  }

  /** Only codes that are done with have been handed over, each once. */
  ghost predicate OnceEach(mailed: seq<Id>, done: set<Id>) {
    forall ch :: Times(mailed, ch) <= if ch in done then 1 else 0
  }

  /** No notice has been handed over twice, and none that is still owed. */
  ghost predicate OnceUnlessOwed(mailed: seq<Id>, owed: set<Id>) {
    forall id :: Times(mailed, id) <= if id in owed then 0 else 1
  }

  ghost predicate MailInv(c: Cell) {
    && c.owedCodes <= c.used && c.dueCodes <= c.used && c.owedCodes !! c.dueCodes
    && OnceUnlessOwed(c.mailedNotices, c.owedNotices)
    && OnceEach(c.mailedCodes, c.used - c.owedCodes)
  }

  predicate DecisionInv(c: Cell) {
    c.decision == match c.request.state case RequestApproved => Some(Approve) case RequestRejected => Some(Reject) case _ => None
  }

  ghost predicate Inv(c: Cell) {
    && 1 <= c.request.pinned.otpMaxAttempts
    && (forall id :: id in c.links ==> LinkInv(c, id))
    && HolderInv(c) && MailInv(c) && DecisionInv(c)
  }

  lemma OpenedIsSafe(c: Cell)
    requires Opened(c)
    ensures Inv(c)
  {
  }

  lemma ClosedKeeps(c: Cell, decision: Option<Verdict>, state: RequestState, now: Time)
    requires Inv(c) && c.holder.None? && c.request.state == RequestPending && state != RequestPending
    requires decision == if state == RequestApproved then Some(Approve) else if state == RequestRejected then Some(Reject) else None
    ensures Inv(Closed(c.(decision := decision), state, now))
  {
    var c' := Closed(c.(decision := decision), state, now);
    forall id | id in c'.links ensures LinkInv(c', id) {
      assert LinkInv(c, id);
    }
  }

  lemma TouchKeeps(c: Cell, matches: bool, route: Policy, now: Time)
    requires Inv(c)
    ensures Inv(TouchStep(c, matches, route, now))
  {
    var u := UsabilityOf(c.request, matches, route, now);
    if c.holder.None? && u.MustClose? {
      ClosedKeeps(c, None, u.state, now);
      assert c.(decision := None) == c;
    }
  }

  lemma LookKeeps(c: Cell, link: Id, intent: Intent, matches: bool, route: Policy, now: Time)
    requires Inv(c)
    ensures Inv(LookStep(c, link, intent, matches, route, now))
  {
    var c' := LookStep(c, link, intent, matches, route, now);
    if c.holder.None? && UsabilityOf(c.request, matches, route, now).Usable? && link in c.links {
      forall id | id in c'.links ensures LinkInv(c', id) {
        assert LinkInv(c, id);
      }
    } else {
      TouchKeeps(c, matches, route, now);
    }
  }

  lemma ReleaseKeeps(c: Cell)
    requires Inv(c)
    ensures Inv(c.(holder := None))
  {
    var c' := c.(holder := None);
    forall id | id in c'.links ensures LinkInv(c', id) {
      assert LinkInv(c, id);
    }
  }

  /** What a holder read, seen after its lock is given up for the save. */
  predicate ReadHolds(c: Cell, h: Holder) {
    HolderInv(c.(holder := Some(h)))
  }

  lemma SaveNoticeKeeps(c: Cell, h: Holder)
    requires Inv(c) && c.holder.None? && ReadHolds(c, h)
    ensures Inv(SaveNotice(c, h))
  {
    var c' := SaveNotice(c, h);
    assert LinkInv(c, h.link);
    forall id | id in c'.links ensures LinkInv(c', id) {
      assert LinkInv(c, id);
    }
  }

  lemma SaveStartOwes(c: Cell, h: Holder)
    requires MailInv(c) && h.intent.Start?
    ensures MailInv(SaveStart(c, h))
  {
    var c' := SaveStart(c, h);
    if c'.used != c.used { assert c'.used - c'.owedCodes == c.used - c.owedCodes; }
  }

  lemma SaveStartKeeps(c: Cell, h: Holder)
    requires Inv(c) && c.holder.None? && h.intent.Start? && ReadHolds(c, h)
    ensures Inv(SaveStart(c, h))
  {
    var c' := SaveStart(c, h);
    SaveStartOwes(c, h);
    assert LinkInv(c, h.link);
    forall id | id in c'.links ensures LinkInv(c', id) {
      assert LinkInv(c, id);
      TimesSnoc(c.codes, h.link, id);
    }
  }

  lemma SaveCheckKeeps(c: Cell, h: Holder)
    requires Inv(c) && c.holder.None? && h.intent.Check? && ReadHolds(c, h)
    ensures Inv(SaveCheck(c, h))
  {
    var c' := SaveCheck(c, h);
    match VerifyLink(h.read, h.intent.claim, c.request.pinned, h.intent.challenge, h.intent.code, h.now)
    case NotYours =>
    case Wrong(saved) =>
      assert LinkInv(c, h.link);
      forall id | id in c'.links ensures LinkInv(c', id) {
        assert LinkInv(c, id);
        TimesSnoc(c.wrong, h.link, id);
      }
    case Right =>
      if h.intent.verdict.Some? {
        ClosedKeeps(c, h.intent.verdict, if h.intent.verdict.value.Approve? then RequestApproved else RequestRejected, h.now);
      }
  }

  lemma SaveKeeps(c: Cell)
    requires Inv(c)
    ensures Inv(SaveStep(c))
  {
    if c.holder.Some? {
      var h := c.holder.value;
      var c' := c.(holder := None);
      ReleaseKeeps(c);
      assert ReadHolds(c', h);
      match h.intent
      case Notice => SaveNoticeKeeps(c', h);
      case Start(_, _, _) => SaveStartKeeps(c', h);
      case Check(_, _, _, _) => SaveCheckKeeps(c', h);
    }
  }

  lemma OneMoreNotice(mailed: seq<Id>, owed: set<Id>, link: Id)
    requires OnceUnlessOwed(mailed, owed) && link in owed
    ensures OnceUnlessOwed(mailed + [link], owed - {link})
  {
    forall id ensures Times(mailed + [link], id) <= if id in owed - {link} then 0 else 1 {
      TimesSnoc(mailed, link, id);
    }
  }

  lemma MailNoticeKeeps(c: Cell, link: Id)
    requires Inv(c) && link in c.owedNotices
    ensures Inv(Step(c, MailNotice(link)))
  {
    var c' := Step(c, MailNotice(link));
    OneMoreNotice(c.mailedNotices, c.owedNotices, link);
    forall id | id in c'.links ensures LinkInv(c', id) {
      assert LinkInv(c, id);
      TimesSnoc(c.mailedNotices, link, id);
    }
  }

  lemma OneMore(mailed: seq<Id>, done: set<Id>, challenge: Id)
    requires OnceEach(mailed, done) && challenge !in done
    ensures OnceEach(mailed + [challenge], done + {challenge})
  {
    forall ch ensures Times(mailed + [challenge], ch) <= if ch in done + {challenge} then 1 else 0 {
      TimesSnoc(mailed, challenge, ch);
    }
  }

  lemma MailCodeKeeps(c: Cell, challenge: Id)
    requires Inv(c) && challenge in c.owedCodes
    ensures Inv(Step(c, MailCode(challenge)))
  {
    var c' := Step(c, MailCode(challenge));
    OneMore(c.mailedCodes, c.used - c.owedCodes, challenge);
    assert c'.used - c'.owedCodes == c.used - c.owedCodes + {challenge};
    forall id | id in c'.links ensures LinkInv(c', id) {
      assert LinkInv(c, id);
    }
  }

  lemma LandKeeps(c: Cell, e: Event)
    requires Inv(c) && (e.LandNotice? || e.LandCode?)
    ensures Inv(LandStep(c, e))
  {
    var c' := LandStep(c, e);
    forall id | id in c'.links ensures LinkInv(c', id) {
      assert LinkInv(c, id);
    }
  }

  lemma StepKeeps(c: Cell, e: Event)
    requires Inv(c)
    ensures Inv(Step(c, e))
  {
    match e
    case Look(link, intent, matches, route, now) => LookKeeps(c, link, intent, matches, route, now);
    case Touch(matches, route, now) => TouchKeeps(c, matches, route, now);
    case Save => SaveKeeps(c);
    case Abort => ReleaseKeeps(c);
    case MailNotice(id) => if id in c.owedNotices { MailNoticeKeeps(c, id); }
    case MailCode(ch) => if ch in c.owedCodes { MailCodeKeeps(c, ch); }
    case LandNotice(_, _) => LandKeeps(c, e);
    case LandCode(_, _, _) => LandKeeps(c, e);
  }

  lemma {:induction false} RunKeeps(c: Cell, es: seq<Event>)
    requires Inv(c)
    ensures Inv(Run(c, es))
  {
    if es != [] {
      RunKeeps(c, es[..|es| - 1]);
      StepKeeps(Run(c, es[..|es| - 1]), es[|es| - 1]);
    }
  }

  // ---- What follows for whole runs ----

  ghost predicate Reachable(c: Cell) {
    exists c0: Cell, es: seq<Event> :: Opened(c0) && c == Run(c0, es)
  }

  lemma ReachableInv(c: Cell)
    requires Reachable(c)
    ensures Inv(c)
  {
    var c0: Cell, es: seq<Event> :| Opened(c0) && c == Run(c0, es);
    OpenedIsSafe(c0);
    RunKeeps(c0, es);
  }

  /** Once the request is closed, every link is invalidated and no code is left to guess. */
  lemma ClosedShutsAllLinks(c: Cell, id: Id)
    requires Reachable(c) && c.request.state != RequestPending && id in c.links
    ensures c.links[id].invalidatedAt.Some? && c.links[id].otp.None?
  {
    ReachableInv(c);
    assert LinkInv(c, id);
  }

  /** First response wins: a closed request never leaves its state, and its decision never changes. */
  lemma {:induction false} FirstResponseWins(c: Cell, es: seq<Event>)
    requires Reachable(c) && c.request.state != RequestPending
    ensures Run(c, es).request == c.request && Run(c, es).decision == c.decision
    ensures Run(c, es).holder.None?
    ensures c.decision == if c.request.state == RequestApproved then Some(Approve) else if c.request.state == RequestRejected then Some(Reject) else None
  {
    ReachableInv(c);
    if es != [] {
      FirstResponseWins(c, es[..|es| - 1]);
      ClosedStays(Run(c, es[..|es| - 1]), es[|es| - 1]);
    }
  }

  lemma ClosedStays(c: Cell, e: Event)
    requires c.request.state != RequestPending && c.holder.None?
    ensures Step(c, e).request == c.request && Step(c, e).decision == c.decision && Step(c, e).holder.None?
  {
  }

  /** Wrong codes counted and codes issued never exceed the policy pinned when the request was opened. */
  lemma OtpBounds(c: Cell, id: Id)
    requires Reachable(c) && id in c.links
    ensures Times(c.wrong, id) == c.links[id].attempts <= c.request.pinned.otpMaxAttempts
    ensures Times(c.codes, id) == c.links[id].sends <= c.request.pinned.otpMaxSends
    ensures c.links[id].attempts == c.request.pinned.otpMaxAttempts ==> c.links[id].invalidatedAt.Some?
  {
    ReachableInv(c);
    assert LinkInv(c, id);
  }

  /** Each notice and each code is handed to the mailer at most once. */
  lemma MailedAtMostOnce(c: Cell, id: Id, challenge: Id)
    requires Reachable(c)
    ensures Times(c.mailedNotices, id) <= 1 && Times(c.mailedCodes, challenge) <= 1
  {
    ReachableInv(c);
  }

  /** An invalidated link stays so and can no longer be used, though a save may write NULL there. */
  lemma {:induction false} InvalidatedForever(c: Cell, id: Id, es: seq<Event>)
    requires Reachable(c) && id in c.links && c.links[id].invalidatedAt.Some?
    ensures var c' := Run(c, es);
      && id in c'.links && c'.links[id].invalidatedAt.Some? && c'.links[id].otp.None?
      && c'.links[id].attempts == c.links[id].attempts && c'.links[id].sends == c.links[id].sends
  {
    ReachableInv(c);
    assert LinkInv(c, id);
    if es != [] {
      var before := Run(c, es[..|es| - 1]);
      InvalidatedForever(c, id, es[..|es| - 1]);
      RunKeeps(c, es[..|es| - 1]);
      InvalidatedStays(before, id, es[|es| - 1]);
    }
  }

  lemma InvalidatedStays(c: Cell, id: Id, e: Event)
    requires Inv(c) && id in c.links && c.links[id].invalidatedAt.Some? && c.links[id].otp.None?
    ensures var c' := Step(c, e);
      && id in c'.links && c'.links[id].invalidatedAt.Some? && c'.links[id].otp.None?
      && c'.links[id].attempts == c.links[id].attempts && c'.links[id].sends == c.links[id].sends
  {
    if e.Save? && c.holder.Some? { SaveSparesInvalidated(c, id); }
  }

  lemma SaveSparesInvalidated(c: Cell, id: Id)
    requires Inv(c) && id in c.links && c.links[id].invalidatedAt.Some? && c.links[id].otp.None? && c.holder.Some?
    ensures var c' := SaveStep(c);
      && id in c'.links && c'.links[id].invalidatedAt.Some? && c'.links[id].otp.None?
      && c'.links[id].attempts == c.links[id].attempts && c'.links[id].sends == c.links[id].sends
  {
    if c.holder.value.link == id {
      assert c.holder.value.read.invalidatedAt.Some?;
    }
  }

  /** A decision is recorded only for the delivered, unexpired, latest code of a live link of the pinned route. */
  lemma DecisionNeedsProof(c: Cell, e: Event)
    requires Reachable(c) && c.decision.None? && Step(c, e).decision.Some?
    ensures e.Save? && c.holder.Some? && c.holder.value.intent.Check?
    ensures var h, id := c.holder.value, c.holder.value.link;
      && id in c.links && Accepts(c.links[id], h.intent.claim, c.request.pinned)
      && c.links[id].attempts < c.request.pinned.otpMaxAttempts
      && c.links[id].challenge == Some(h.intent.challenge)
      && Proves(c.links[id].(delivery := h.read.delivery), h.intent.challenge, h.intent.code, h.now)
      && h.now < c.request.expiresAt && Step(c, e).decision == h.intent.verdict
  {
    ReachableInv(c);
  }

  /** A code is issued only to a live link below both limits and past its cooldown, for a fresh challenge, and lives its seconds or until the request's deadline. */
  lemma IssuingFollowsPolicy(c: Cell, e: Event)
    requires Reachable(c) && Step(c, e).codes != c.codes
    ensures e.Save? && c.holder.Some? && c.holder.value.intent.Start? && c.holder.value.link in c.links
    ensures var h, p := c.holder.value, c.request.pinned;
      var before, after := c.links[h.link], Step(c, e).links[h.link];
      && before.invalidatedAt.None? && before.attempts < p.otpMaxAttempts && before.sends < p.otpMaxSends
      && (before.lastSentAt.Some? ==> h.now - before.lastSentAt.value >= p.otpCooldown * SECOND)
      && h.intent.challenge !in c.used && after.challenge == Some(h.intent.challenge)
      && after.otpExpiresAt.Some? && after.otpExpiresAt.value <= c.request.expiresAt
      && after.otpExpiresAt.value - h.now <= p.otpSeconds * SECOND
      && (after.otpExpiresAt.value == c.request.expiresAt || after.otpExpiresAt.value - h.now == p.otpSeconds * SECOND)
      && after.delivery == Claimed && Step(c, e).codes == c.codes + [h.link]
  {
    ReachableInv(c);
  }

  // ---- What the unlocked updates cost ----

  /** The guard of every save of a whole link row. */
  predicate SavesRow(c: Cell, h: Holder) {
    match h.intent
    case Notice => h.read.invalidatedAt.None? && (h.read.notice == Unsent || h.read.notice == Claimed)
    case Start(claim, ch, _) => ch !in c.used && MayStart(h.read, claim, c.request.pinned, h.now)
    case Check(claim, ch, code, _) => VerifyLink(h.read, claim, c.request.pinned, ch, code, h.now).Wrong?
  }

  /**
   An answer for the link's current code that lands between a holder's read and its save survives
   if and only if the save does not rewrite that row.
   */
  lemma DeliverySurvivesIff(c: Cell, id: Id, challenge: Id)
    requires Reachable(c) && c.holder.Some? && challenge in c.dueCodes && id in c.links
    requires c.links[id].challenge == Some(challenge) && c.links[id].delivery == Claimed
    ensures var c' := Step(Step(c, LandCode(id, challenge, Sent)), Save);
      id in c'.links && (c'.links[id].delivery == Sent <==> !(c.holder.value.link == id && SavesRow(c, c.holder.value)))
  {
    ReachableInv(c);
    SavedDelivery(LandStep(c, LandCode(id, challenge, Sent)), id);
  }

  /** A save that rewrites the row writes the delivery it read, or a new claim. */
  lemma SavedDelivery(c: Cell, id: Id)
    requires c.holder.Some? && id in c.links && c.holder.value.link in c.links
    ensures id in SaveStep(c).links
    ensures SaveStep(c).links[id].delivery ==
      if c.holder.value.link == id && SavesRow(c, c.holder.value)
      then if c.holder.value.intent.Start? then Claimed else c.holder.value.read.delivery
      else c.links[id].delivery
  {
  }

  /** A code whose answer was overwritten. */
  predicate Dead(c: Cell, id: Id, challenge: Id) {
    && id in c.links && challenge in c.used && challenge !in c.owedCodes && challenge !in c.dueCodes
    && (c.links[id].challenge == Some(challenge) ==> c.links[id].delivery != Sent)
    && (c.holder.Some? && c.holder.value.link == id && c.holder.value.read.challenge == Some(challenge) ==>
         c.holder.value.read.delivery != Sent)
  }

  /** It reached its reader, but no later run ever accepts it. */
  lemma {:induction false} DeadCodeNeverProves(c: Cell, id: Id, challenge: Id, es: seq<Event>, code: string, now: Time)
    requires Dead(c, id, challenge)
    ensures Dead(Run(c, es), id, challenge)
    ensures !Proves(Run(c, es).links[id], challenge, code, now)
  {
    if es != [] {
      DeadCodeNeverProves(c, id, challenge, es[..|es| - 1], code, now);
      DeadStays(Run(c, es[..|es| - 1]), id, challenge, es[|es| - 1]);
    }
  }

  lemma DeadStays(c: Cell, id: Id, challenge: Id, e: Event)
    requires Dead(c, id, challenge)
    ensures Dead(Step(c, e), id, challenge)
  {
    if e.Save? && c.holder.Some? { DeadThroughSave(c, id, challenge); }
  }

  lemma DeadThroughSave(c: Cell, id: Id, challenge: Id)
    requires Dead(c, id, challenge) && c.holder.Some?
    ensures Dead(SaveStep(c), id, challenge)
  {
  }

  /** A notice pass that read the row before a code's answer landed kills the code if and only if it rewrites the row. */
  lemma NoticeSaveKillsCode(c: Cell, id: Id, challenge: Id)
    requires Reachable(c) && c.holder.Some? && c.holder.value.link == id && c.holder.value.intent.Notice?
    requires id in c.links && c.links[id].challenge == Some(challenge) && c.links[id].delivery == Claimed
    requires challenge in c.dueCodes
    ensures Dead(Step(Step(c, LandCode(id, challenge, Sent)), Save), id, challenge) <==> SavesRow(c, c.holder.value)
  {
    ReachableInv(c);
    assert LinkInv(c, id);
    SavedDelivery(LandStep(c, LandCode(id, challenge, Sent)), id);
  }
}
