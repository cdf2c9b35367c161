/**
 Handoffs and conversation control under any order, duplication or loss of human events, inbound
 messages, requests, inactivity checks and stray control calls.
 */
module HandoffRuns {
  import opened Wrappers
  import opened Clock
  import opened Handoffs

  /** `verified` are the configurations whose surface was verified for a request still to commit. */
  datatype Cell = Cell(c: Conversation, verified: map<Id, Configuration>)

  datatype Event =
    | Configure(expected: nat, enabled: bool, surface: Id, hours: nat)
    | Verify(request: Id)
    | Commit(request: Id, handoff: Id, at: Time)
    | Human(event: HumanEvent, now: Time)
    | Inactive(handoff: Id, now: Time)
    | Inbound(message: Id, at: Time, silent: bool, reopen: bool)
    | Answer(message: Id, expected: nat, at: Time, silent: bool)
    | Stray(to: Control)

  function Step(s: Cell, e: Event): Cell {
    match e
    case Configure(expected, enabled, surface, hours) => s.(c := ConfigureSpec(s.c, expected, enabled, surface, hours))
    case Verify(x) =>
      if s.c.configuration.Some? && s.c.configuration.value.enabled
      then s.(verified := s.verified[x := s.c.configuration.value]) else s
    case Commit(x, id, at) =>
      if x in s.verified && id !in s.c.handoffs
      then Cell(RequestSpec(s.c, id, s.verified[x], at).0, s.verified - {x}) else s
    case Human(event, now) => s.(c := HandleSpec(s.c, event, now).0)
    case Inactive(id, now) => s.(c := InactiveSpec(s.c, id, now).0)
    case Inbound(m, at, silent, reopen) => s.(c := IngestSpec(s.c, m, at, silent, reopen))
    case Answer(m, expected, at, silent) => s.(c := ReplySpec(s.c, m, expected, silent, at))
    case Stray(to) => s.(c := ControlSpec(s.c, to))
  }

  function Run(s: Cell, es: seq<Event>): Cell {
    if es == [] then s else Step(Run(s, es[..|es| - 1]), es[|es| - 1])
  }

  const START := Cell(FRESH, map[])

  // ---- The invariant ----

  ghost predicate Lockstep(c: Conversation) {
    && (forall a, b :: Live(c, a) && Live(c, b) ==> a == b)
    && (c.control == AwaitingHuman <==> HasStatus(c, Requested))
    && (c.control == HumanActive <==> HasStatus(c, Active))
  }

  /** The CHECK constraints of the handoffs table, and a verified configuration. */
  predicate Sound(h: Handoff) {
    && (h.status == Ended <==> h.closedAt.Some?) && h.lastActivityAt >= h.requestedAt
    && h.sequence >= -1 && (h.status == Requested ==> h.sequence == -1) && h.configuration.enabled
  }

  predicate Logged(log: seq<Change>, control: Control) {
    if log == [] then control == AiActive
    else
      var l := log[|log| - 1];
      CanMove(l.from, l.to) && l.to == control && l.version == |log| + 1 && Logged(log[..|log| - 1], l.from)
  }

  predicate Numbered(messages: seq<Message>) {
    messages == [] || (messages[|messages| - 1].arrival == |messages| && Numbered(messages[..|messages| - 1]))
  }

  /** Every AI reply comes after the customer's message it answers. */
  predicate Grounded(messages: seq<Message>) {
    messages == [] || (
      var last := messages[|messages| - 1].origin;
      Grounded(messages[..|messages| - 1])
      && (last.AiReply? ==> Has(messages[..|messages| - 1], FromCustomer(last.to))))
  }

  ghost predicate RowsInv(c: Conversation) {
    && (forall id :: id in c.handoffs ==> Sound(c.handoffs[id]))
    && c.version == |c.log| + 1 && Logged(c.log, c.control)
  }

  /** No event has two messages, and no message two replies. */
  predicate Distinct(messages: seq<Message>) {
    messages == [] || (
      var last := messages[|messages| - 1].origin;
      Distinct(messages[..|messages| - 1]) && (last.WaitingNotice? || !Has(messages[..|messages| - 1], last)))
  }

  /** Turns are queued for received events, each once. */
  predicate Queued(messages: seq<Message>, turns: seq<Id>) {
    turns == [] || (
      var last := turns[|turns| - 1];
      Queued(messages, turns[..|turns| - 1]) && Has(messages, FromCustomer(last)) && last !in turns[..|turns| - 1])
  }

  predicate MessagesInv(messages: seq<Message>, turns: seq<Id>) {
    Numbered(messages) && Grounded(messages) && Distinct(messages) && Queued(messages, turns)
  }

  ghost predicate Inv(s: Cell) {
    && Lockstep(s.c) && RowsInv(s.c) && MessagesInv(s.c.messages, s.c.turns)
    && (forall x :: x in s.verified ==> s.verified[x].enabled)
  }

  // ---- Control ----

  lemma MovedLogs(c: Conversation, to: Control)
    requires c.version == |c.log| + 1 && Logged(c.log, c.control) && CanMove(c.control, to)
    ensures Moved(c, to).version == |Moved(c, to).log| + 1 && Logged(Moved(c, to).log, to)
  {
    assert Moved(c, to).log[..|c.log|] == c.log;
  }

  /** Writing one handoff settles which statuses exist, when no other is live. */
  lemma OnlyLive(c: Conversation, id: Id, h: Handoff)
    requires forall a :: Live(c, a) ==> a == id
    ensures var c1 := c.(handoffs := c.handoffs[id := h]);
      && (HasStatus(c1, Requested) <==> h.status == Requested) && (HasStatus(c1, Active) <==> h.status == Active)
      && (forall a, b :: Live(c1, a) && Live(c1, b) ==> a == b)
  {
    var c1 := c.(handoffs := c.handoffs[id := h]);
    assert c1.handoffs[id] == h;
    forall a | a in c1.handoffs && c1.handoffs[a].status != Ended ensures a == id {
      assert a != id ==> Live(c, a);
    }
  }

  lemma NoneLive(c: Conversation)
    requires !HasStatus(c, Requested) && !HasStatus(c, Active)
    ensures forall a :: !Live(c, a)
  {
  }

  // ---- Messages ----

  lemma {:induction false} LastArrivalCounts(messages: seq<Message>)
    requires Numbered(messages)
    ensures LastArrival(messages) == |messages|
  {
    if messages != [] { LastArrivalCounts(messages[..|messages| - 1]); }
  }

  /** What was there before one more message still is. */
  lemma HadStillHas(messages: seq<Message>, m: Message, other: Origin)
    ensures Has(messages + [m], other) <==> Has(messages, other) || m.origin == other
  {
    if Has(messages, other) {
      var k :| 0 <= k < |messages| && messages[k].origin == other;
      assert (messages + [m])[k].origin == other;
    }
    if m.origin == other { assert (messages + [m])[|messages|].origin == other; }
  }

  lemma {:induction false} QueuedStill(messages: seq<Message>, m: Message, turns: seq<Id>)
    requires Queued(messages, turns)
    ensures Queued(messages + [m], turns)
  {
    if turns != [] {
      QueuedStill(messages, m, turns[..|turns| - 1]);
      HadStillHas(messages, m, FromCustomer(turns[|turns| - 1]));
    }
  }

  lemma ReceivedKeeps(c: Conversation, origin: Origin, at: Time)
    requires MessagesInv(c.messages, c.turns) && (origin.WaitingNotice? || !Has(c.messages, origin))
    requires origin.AiReply? ==> Ingested(c, origin.to)
    ensures MessagesInv(Received(c, origin, at).messages, c.turns)
    ensures Has(Received(c, origin, at).messages, origin)
  {
    var m := Message(origin, at, LastArrival(c.messages) + 1);
    LastArrivalCounts(c.messages);
    assert (c.messages + [m])[..|c.messages|] == c.messages;
    HadStillHas(c.messages, m, origin);
    QueuedStill(c.messages, m, c.turns);
  }

  lemma {:induction false} QueuedHas(messages: seq<Message>, turns: seq<Id>, event: Id)
    requires Queued(messages, turns) && event in turns
    ensures Has(messages, FromCustomer(event))
  {
    if event != turns[|turns| - 1] { QueuedHas(messages, turns[..|turns| - 1], event); }
  }

  /** Queueing a turn for an event not received before. */
  lemma QueuedKeeps(c: Conversation, messages: seq<Message>, event: Id)
    requires Queued(c.messages, c.turns) && Queued(messages, c.turns)
    requires !Ingested(c, event) && Has(messages, FromCustomer(event))
    ensures Queued(messages, c.turns + [event])
  {
    if event in c.turns { QueuedHas(c.messages, c.turns, event); }
    assert (c.turns + [event])[..|c.turns|] == c.turns;
  }

  // ---- Steps ----

  /** In lockstep, the guard refuses none of the services' own moves. */
  lemma HandleIsAccepted(s: Cell, e: HumanEvent, now: Time)
    requires Inv(s)
    ensures HandleSpec(s.c, e, now).1 != Some(GuardRefused)
    ensures Inv(Step(s, Human(e, now)))
  {
    var (c', error) := HandleSpec(s.c, e, now);
    if error.None? && c' != s.c {
      var h := s.c.handoffs[e.handoff];
      assert Live(s.c, e.handoff);
      OnlyLive(s.c, e.handoff, h);
      assert s.c.(handoffs := s.c.handoffs[e.handoff := h]) == s.c;
      HandleKeeps(s, e, now);
    } else if InScope(s.c, e, now) {
      var h := s.c.handoffs[e.handoff];
      if h.status != Ended {
        assert Live(s.c, e.handoff);
        OnlyLive(s.c, e.handoff, h);
        assert s.c.(handoffs := s.c.handoffs[e.handoff := h]) == s.c;
        OnlyLive(s.c, e.handoff, Handled(h, e, now));
      }
    }
  }

  lemma HandleKeeps(s: Cell, e: HumanEvent, now: Time)
    requires Inv(s) && HandleSpec(s.c, e, now).1.None? && HandleSpec(s.c, e, now).0 != s.c
    requires forall a :: Live(s.c, a) ==> a == e.handoff
    requires s.c.handoffs[e.handoff].status == Requested <==> s.c.control == AwaitingHuman
    requires s.c.handoffs[e.handoff].status == Active <==> s.c.control == HumanActive
    ensures Inv(s.(c := HandleSpec(s.c, e, now).0))
  {
    var h := s.c.handoffs[e.handoff];
    var c1 := s.c.(handoffs := s.c.handoffs[e.handoff := Handled(h, e, now)]);
    OnlyLive(s.c, e.handoff, Handled(h, e, now));
    StatusesOf(c1, HandleSpec(s.c, e, now).0);
    if e.kind == End { MovedLogs(c1, Closed); }
    else if h.status == Requested { MovedLogs(c1, HumanActive); }
  }

  lemma InactiveIsAccepted(s: Cell, id: Id, now: Time)
    requires Inv(s)
    ensures InactiveSpec(s.c, id, now).1 != Some(GuardRefused)
    ensures Inv(Step(s, Inactive(id, now)))
  {
    if id in s.c.handoffs && s.c.handoffs[id].status != Ended && now >= Deadline(s.c, s.c.handoffs[id]) {
      var h := s.c.handoffs[id];
      var g := h.(status := Ended, closedAt := Some(now));
      assert Live(s.c, id);
      OnlyLive(s.c, id, h);
      assert s.c.(handoffs := s.c.handoffs[id := h]) == s.c;
      OnlyLive(s.c, id, g);
      MovedLogs(s.c.(handoffs := s.c.handoffs[id := g]), Closed);
    }
  }

  lemma RequestTakes(c: Conversation, id: Id, wanted: Configuration, at: Time)
    ensures var c' := RequestSpec(c, id, wanted, at).0;
      c'.turns == c.turns && (c'.messages == c.messages || c'.messages == Received(c, WaitingNotice, at).messages)
  {
  }

  lemma RequestKeepsMessages(c: Conversation, id: Id, wanted: Configuration, at: Time)
    requires MessagesInv(c.messages, c.turns)
    ensures var c' := RequestSpec(c, id, wanted, at).0; MessagesInv(c'.messages, c'.turns)
  {
    var c' := RequestSpec(c, id, wanted, at).0;
    RequestTakes(c, id, wanted, at);
    if c'.messages != c.messages { ReceivedKeeps(c, WaitingNotice, at); }
  }

  lemma RequestKeepsControl(c: Conversation, id: Id, wanted: Configuration, at: Time)
    requires Lockstep(c) && RowsInv(c) && id !in c.handoffs && wanted.enabled
    ensures RequestSpec(c, id, wanted, at).1 != Some(GuardRefused)
    ensures Lockstep(RequestSpec(c, id, wanted, at).0) && RowsInv(RequestSpec(c, id, wanted, at).0)
  {
    if !HasStatus(c, Requested) && !HasStatus(c, Active) && c.control == AiActive {
      NoneLive(c);
      OnlyLive(Received(c, WaitingNotice, at), id, NewHandoff(wanted, at));
      MovedLogs(Received(c, WaitingNotice, at).(handoffs := c.handoffs[id := NewHandoff(wanted, at)]), AwaitingHuman);
    }
  }

  lemma RequestIsAccepted(s: Cell, id: Id, wanted: Configuration, at: Time)
    requires Inv(s) && id !in s.c.handoffs && wanted.enabled
    ensures RequestSpec(s.c, id, wanted, at).1 != Some(GuardRefused)
    ensures Inv(s.(c := RequestSpec(s.c, id, wanted, at).0))
  {
    RequestKeepsMessages(s.c, id, wanted, at);
    RequestKeepsControl(s.c, id, wanted, at);
  }

  lemma StatusesOf(c: Conversation, d: Conversation)
    requires c.handoffs == d.handoffs
    ensures HasStatus(c, Requested) <==> HasStatus(d, Requested)
    ensures HasStatus(c, Active) <==> HasStatus(d, Active)
    ensures forall a :: Live(c, a) <==> Live(d, a)
  {
  }

  /** Messages and turns after an event not received before: one more message, at most one more turn. */
  predicate Takes(c: Conversation, m: Id, at: Time, messages: seq<Message>, turns: seq<Id>) {
    || (messages == c.messages && turns == c.turns)
    || (messages == Received(c, FromCustomer(m), at).messages && (turns == c.turns || turns == c.turns + [m]))
  }

  lemma IngestTakes(c: Conversation, m: Id, at: Time, silent: bool, reopen: bool)
    ensures var c' := IngestSpec(c, m, at, silent, reopen); Takes(c, m, at, c'.messages, c'.turns)
  {
  }

  lemma TakingKeeps(c: Conversation, m: Id, at: Time, messages: seq<Message>, turns: seq<Id>)
    requires MessagesInv(c.messages, c.turns) && !Ingested(c, m) && Takes(c, m, at, messages, turns)
    ensures MessagesInv(messages, turns)
  {
    ReceivedKeeps(c, FromCustomer(m), at);
    QueuedKeeps(c, Received(c, FromCustomer(m), at).messages, m);
  }

  lemma IngestKeepsMessages(c: Conversation, m: Id, at: Time, silent: bool, reopen: bool)
    requires MessagesInv(c.messages, c.turns)
    ensures var c' := IngestSpec(c, m, at, silent, reopen); MessagesInv(c'.messages, c'.turns)
  {
    if !Ingested(c, m) {
      var c' := IngestSpec(c, m, at, silent, reopen);
      IngestTakes(c, m, at, silent, reopen);
      TakingKeeps(c, m, at, c'.messages, c'.turns);
    }
  }

  lemma IngestKeepsControl(c: Conversation, m: Id, at: Time, silent: bool, reopen: bool)
    requires Lockstep(c) && RowsInv(c)
    ensures Lockstep(IngestSpec(c, m, at, silent, reopen)) && RowsInv(IngestSpec(c, m, at, silent, reopen))
  {
    if !Ingested(c, m) {
      var c1 := Received(c, FromCustomer(m), at);
      if c1.control == Closed && reopen { MovedLogs(c1, AiActive); }
      StatusesOf(c, c1);
      StatusesOf(c, IngestSpec(c, m, at, silent, reopen));
    }
  }

  lemma InboundKeeps(s: Cell, m: Id, at: Time, silent: bool, reopen: bool)
    requires Inv(s)
    ensures Inv(Step(s, Inbound(m, at, silent, reopen)))
  {
    IngestKeepsMessages(s.c, m, at, silent, reopen);
    IngestKeepsControl(s.c, m, at, silent, reopen);
  }

  lemma AnswerKeeps(s: Cell, m: Id, expected: nat, at: Time, silent: bool)
    requires Inv(s)
    ensures Inv(Step(s, Answer(m, expected, at, silent)))
  {
    if ReplySpec(s.c, m, expected, silent, at) != s.c {
      ReceivedKeeps(s.c, AiReply(m), at);
      StatusesOf(s.c, Received(s.c, AiReply(m), at));
    }
  }

  lemma StrayKeeps(s: Cell, to: Control)
    requires Inv(s)
    ensures Inv(Step(s, Stray(to)))
  {
    if Accepted(s.c, to) {
      StatusesOf(s.c, Moved(s.c, to));
      MovedLogs(s.c, to);
    }
  }

  lemma ConfigureKeeps(s: Cell, e: Event)
    requires Inv(s) && (e.Configure? || e.Verify?)
    ensures Inv(Step(s, e))
  {
    StatusesOf(s.c, Step(s, e).c);
  }

  lemma CommitKeeps(s: Cell, x: Id, id: Id, at: Time)
    requires Inv(s)
    ensures Inv(Step(s, Commit(x, id, at)))
  {
    if x in s.verified && id !in s.c.handoffs { RequestIsAccepted(s, id, s.verified[x], at); }
  }

  lemma StepKeeps(s: Cell, e: Event)
    requires Inv(s)
    ensures Inv(Step(s, e))
  {
    match e
    case Configure(_, _, _, _) => ConfigureKeeps(s, e);
    case Verify(_) => ConfigureKeeps(s, e);
    case Commit(x, id, at) => CommitKeeps(s, x, id, at);
    case Human(event, now) => HandleIsAccepted(s, event, now);
    case Inactive(id, now) => InactiveIsAccepted(s, id, now);
    case Inbound(m, at, silent, reopen) => InboundKeeps(s, m, at, silent, reopen);
    case Answer(m, expected, at, silent) => AnswerKeeps(s, m, expected, at, silent);
    case Stray(to) => StrayKeeps(s, to);
  }

  lemma {:induction false} RunKeeps(s: Cell, es: seq<Event>)
    requires Inv(s)
    ensures Inv(Run(s, es))
  {
    if es != [] {
      RunKeeps(s, es[..|es| - 1]);
      StepKeeps(Run(s, es[..|es| - 1]), es[|es| - 1]);
    }
  }

  // ---- What follows for whole runs ----

  ghost predicate Reachable(s: Cell) {
    exists es: seq<Event> :: s == Run(START, es)
  }

  lemma ReachableInv(s: Cell)
    requires Reachable(s)
    ensures Inv(s)
  {
    var es: seq<Event> :| s == Run(START, es);
    RunKeeps(START, es);
  }

  /** At most one live handoff; REQUESTED exactly when AWAITING_HUMAN, ACTIVE exactly when HUMAN_ACTIVE. */
  lemma ControlFollowsHandoff(s: Cell, a: Id, b: Id)
    requires Reachable(s)
    ensures Live(s.c, a) && Live(s.c, b) ==> a == b
    ensures s.c.control == AwaitingHuman <==> exists id :: id in s.c.handoffs && s.c.handoffs[id].status == Requested
    ensures s.c.control == HumanActive <==> exists id :: id in s.c.handoffs && s.c.handoffs[id].status == Active
    ensures Live(s.c, a) ==>
      s.c.control == if s.c.handoffs[a].status == Requested then AwaitingHuman else HumanActive
  {
    ReachableInv(s);
  }

  /** The two tables never disagree, so the database guard never refuses a handoff operation. */
  lemma GuardNeverRefuses(s: Cell, e: HumanEvent, id: Id, wanted: Configuration, at: Time)
    requires Reachable(s)
    ensures HandleSpec(s.c, e, at).1 != Some(GuardRefused) && InactiveSpec(s.c, id, at).1 != Some(GuardRefused)
    ensures id !in s.c.handoffs && wanted.enabled ==> RequestSpec(s.c, id, wanted, at).1 != Some(GuardRefused)
  {
    ReachableInv(s);
    HandleIsAccepted(s, e, at);
    InactiveIsAccepted(s, id, at);
    if id !in s.c.handoffs && wanted.enabled { RequestIsAccepted(s, id, wanted, at); }
  }

  /** Control can be moved without a handoff operation only between AI_ACTIVE and CLOSED. */
  lemma StrayControlIsConfined(s: Cell, to: Control)
    requires Reachable(s) && ControlSpec(s.c, to) != s.c
    ensures (s.c.control == AiActive && to == Closed) || (s.c.control == Closed && to == AiActive)
  {
    ReachableInv(s);
  }

  /** A handoff's sequence never falls, and an ended one never changes. */
  predicate Onward(a: Handoff, b: Handoff) {
    b.sequence >= a.sequence && b.lastActivityAt >= a.lastActivityAt && (a.status == Ended ==> b == a)
    && b.requestedAt == a.requestedAt && b.configuration == a.configuration
  }

  lemma {:induction false} HandoffsMoveOnward(s: Cell, id: Id, es: seq<Event>)
    requires id in s.c.handoffs
    ensures id in Run(s, es).c.handoffs && Onward(s.c.handoffs[id], Run(s, es).c.handoffs[id])
  {
    if es != [] {
      HandoffsMoveOnward(s, id, es[..|es| - 1]);
      StepMovesOnward(Run(s, es[..|es| - 1]), id, es[|es| - 1]);
    }
  }

  lemma StepMovesOnward(s: Cell, id: Id, e: Event)
    requires id in s.c.handoffs
    ensures id in Step(s, e).c.handoffs && Onward(s.c.handoffs[id], Step(s, e).c.handoffs[id])
  {
  }

  /** An event once accepted can be redelivered, or anything up to it arrive late, at any later time: nothing changes. */
  lemma RedeliveryChangesNothing(s: Cell, e: HumanEvent, now: Time, es: seq<Event>, again: HumanEvent, later: Time)
    requires HandleSpec(s.c, e, now).1.None? && InScope(s.c, e, now)
    requires again.handoff == e.handoff && again.sequence <= e.sequence
    ensures HandleSpec(Run(Step(s, Human(e, now)), es).c, again, later).0 == Run(Step(s, Human(e, now)), es).c
  {
    HandoffsMoveOnward(Step(s, Human(e, now)), e.handoff, es);
  }

  /** Under the SILENT policy no turn is queued and no AI reply is written while a handoff is live, whatever turn was loaded when. */
  lemma SilentWhileLive(s: Cell, m: Id, at: Time, reopen: bool, expected: nat, live: Id)
    requires Reachable(s) && Live(s.c, live)
    ensures IngestSpec(s.c, m, at, true, reopen).turns == s.c.turns
    ensures IngestSpec(s.c, m, at, true, reopen).handoffs == s.c.handoffs
    ensures IngestSpec(s.c, m, at, true, reopen).control == s.c.control
    ensures ReplySpec(s.c, m, expected, true, at) == s.c
  {
    ReachableInv(s);
    assert s.c.handoffs[live].status == Requested || s.c.handoffs[live].status == Active;
  }

  /**
   Who answers a new message, read off the handoffs: with a live one the AI gets a turn exactly while it is
   still REQUESTED and the policy is not silent; without one, unless the conversation is closed for good.
   */
  lemma TurnQueuedIff(s: Cell, m: Id, at: Time, silent: bool, reopen: bool, live: Id)
    requires Reachable(s) && !Ingested(s.c, m)
    ensures var c' := IngestSpec(s.c, m, at, silent, reopen);
      && (c'.turns == s.c.turns + [m] || c'.turns == s.c.turns)
      && (Live(s.c, live) ==> (c'.turns == s.c.turns + [m] <==> s.c.handoffs[live].status == Requested && !silent))
      && ((forall h :: !Live(s.c, h)) ==>
           && (c'.turns == s.c.turns + [m] <==> s.c.control != Closed || reopen)
           && c'.control == (if reopen then AiActive else s.c.control))
      && (Live(s.c, live) ==> c'.control == s.c.control)
  {
    ReachableInv(s);
    ControlFollowsHandoff(s, live, live);
    StatusesOf(s.c, Received(s.c, FromCustomer(m), at));
    if (forall h :: !Live(s.c, h)) && s.c.control != AiActive { NothingLiveIsClosed(s); }
  }

  lemma NothingLiveIsClosed(s: Cell)
    requires Inv(s) && forall h :: !Live(s.c, h)
    ensures s.c.control == AiActive || s.c.control == Closed
  {
    if s.c.control == AwaitingHuman {
      var id :| id in s.c.handoffs && s.c.handoffs[id].status == Requested;
      assert Live(s.c, id);
    }
    if s.c.control == HumanActive {
      var id :| id in s.c.handoffs && s.c.handoffs[id].status == Active;
      assert Live(s.c, id);
    }
  }

  /** The same for writing the reply: a received message not yet answered, its turn loaded at the current version. */
  lemma ReplyWrittenIff(s: Cell, m: Id, at: Time, silent: bool, expected: nat, live: Id)
    requires Reachable(s)
    ensures var c' := ReplySpec(s.c, m, expected, silent, at);
      var due := Has(s.c.messages, FromCustomer(m)) && !Has(s.c.messages, AiReply(m)) && expected == s.c.version;
      && (c' == s.c || (|c'.messages| == |s.c.messages| + 1 && c'.messages[|s.c.messages|].origin == AiReply(m)))
      && (Live(s.c, live) ==> (c' != s.c <==> due && s.c.handoffs[live].status == Requested && !silent))
      && ((forall h :: !Live(s.c, h)) ==> (c' != s.c <==> due && s.c.control != Closed))
  {
    ReachableInv(s);
    ControlFollowsHandoff(s, live, live);
    if forall h :: !Live(s.c, h) { NothingLiveIsClosed(s); }
  }

  lemma {:induction false} VersionNeverFalls(s: Cell, es: seq<Event>)
    ensures Run(s, es).c.version >= s.c.version
  {
    if es != [] {
      VersionNeverFalls(s, es[..|es| - 1]);
      StepRaisesVersion(Run(s, es[..|es| - 1]), es[|es| - 1]);
    }
  }

  lemma StepRaisesVersion(s: Cell, e: Event)
    ensures Step(s, e).c.version >= s.c.version + if Step(s, e).c.control != s.c.control then 1 else 0
  {
  }

  /**
   A turn loaded before control moved is never answered by the AI, under any policy and however much later,
   even when control has come back meanwhile; requesting a handoff is such a move.
   */
  lemma StaleTurnIsNeverAnswered(s: Cell, e: Event, es: seq<Event>, m: Id, expected: nat, silent: bool, at: Time)
    requires Reachable(s) && expected <= s.c.version
    requires Step(s, e).c.control != s.c.control || Step(s, e).c.handoffs.Keys != s.c.handoffs.Keys
    ensures ReplySpec(Run(Step(s, e), es).c, m, expected, silent, at) == Run(Step(s, e), es).c
  {
    if Step(s, e).c.handoffs.Keys != s.c.handoffs.Keys { HandoffMovesControl(s, e); }
    StepRaisesVersion(s, e);
    VersionNeverFalls(Step(s, e), es);
  }

  lemma HandoffMovesControl(s: Cell, e: Event)
    requires Reachable(s) && Step(s, e).c.handoffs.Keys != s.c.handoffs.Keys
    ensures Step(s, e).c.control != s.c.control
  {
    ReachableInv(s);
  }

  lemma {:induction false} RepliesFollow(messages: seq<Message>, k: nat)
    requires Grounded(messages) && k < |messages| && messages[k].origin.AiReply?
    ensures Has(messages[..k], FromCustomer(messages[k].origin.to))
  {
    if k < |messages| - 1 {
      RepliesFollow(messages[..|messages| - 1], k);
      assert messages[..|messages| - 1][..k] == messages[..k];
    }
  }

  lemma {:induction false} DistinctAt(messages: seq<Message>, i: nat, k: nat)
    requires Distinct(messages) && i < k < |messages| && !messages[k].origin.WaitingNotice?
    ensures messages[i].origin != messages[k].origin
  {
    var init := messages[..|messages| - 1];
    if k < |messages| - 1 {
      DistinctAt(init, i, k);
    } else {
      assert init[i].origin == messages[i].origin;
    }
  }

  /** At most one AI reply for each customer message, and only after it. */
  lemma RepliesAreExact(s: Cell, i: nat, k: nat)
    requires Reachable(s) && i <= k < |s.c.messages| && s.c.messages[k].origin.AiReply?
    ensures Has(s.c.messages[..k], FromCustomer(s.c.messages[k].origin.to))
    ensures s.c.messages[i].origin == s.c.messages[k].origin ==> i == k
  {
    ReachableInv(s);
    RepliesFollow(s.c.messages, k);
    if i < k { DistinctAt(s.c.messages, i, k); }
  }

  lemma {:induction false} TurnsAt(messages: seq<Message>, turns: seq<Id>, i: nat, k: nat)
    requires Queued(messages, turns) && i <= k < |turns|
    ensures Has(messages, FromCustomer(turns[k])) && (turns[i] == turns[k] ==> i == k)
  {
    if k < |turns| - 1 { TurnsAt(messages, turns[..|turns| - 1], i, k); }
  }

  /** One message and at most one turn for each webhook event, however often it is ingested. */
  lemma MessagesAreExact(s: Cell, m: Id, at: Time, silent: bool, reopen: bool, i: nat, k: nat)
    requires Reachable(s)
    ensures Ingested(s.c, m) ==> IngestSpec(s.c, m, at, silent, reopen) == s.c
    ensures !Ingested(s.c, m) ==> |IngestSpec(s.c, m, at, silent, reopen).messages| == |s.c.messages| + 1
    ensures i < k < |s.c.messages| && s.c.messages[k].origin.FromCustomer? ==> s.c.messages[i].origin != s.c.messages[k].origin
    ensures i <= k < |s.c.turns| ==> Ingested(s.c, s.c.turns[k]) && (s.c.turns[i] == s.c.turns[k] ==> i == k)
  {
    ReachableInv(s);
    if !Ingested(s.c, m) && s.c.control == Closed {
      StatusesOf(s.c, Received(s.c, FromCustomer(m), at));
    }
    if i < k < |s.c.messages| && s.c.messages[k].origin.FromCustomer? { DistinctAt(s.c.messages, i, k); }
    if i <= k < |s.c.turns| { TurnsAt(s.c.messages, s.c.turns, i, k); }
  }

  lemma {:induction false} ArrivalAt(messages: seq<Message>, k: nat)
    requires Numbered(messages) && k < |messages|
    ensures messages[k].arrival == k + 1
  {
    if k < |messages| - 1 { ArrivalAt(messages[..|messages| - 1], k); }
  }

  lemma ArrivalsAreGapless(s: Cell, k: nat)
    requires Reachable(s) && k < |s.c.messages|
    ensures s.c.messages[k].arrival == k + 1
  {
    ReachableInv(s);
    ArrivalAt(s.c.messages, k);
  }

  lemma {:induction false} MessagesOnlyGrow(s: Cell, es: seq<Event>)
    ensures s.c.messages <= Run(s, es).c.messages
  {
    if es != [] {
      MessagesOnlyGrow(s, es[..|es| - 1]);
      StepKeepsMessages(Run(s, es[..|es| - 1]), es[|es| - 1]);
    }
  }

  lemma StepKeepsMessages(s: Cell, e: Event)
    ensures s.c.messages <= Step(s, e).c.messages
  {
  }

  /** An accepted human event keeps the handoff from being ended for inactivity for its hours, whatever happens in between. */
  lemma RecentActivityPreventsClosing(s: Cell, e: HumanEvent, now: Time, es: seq<Event>, later: Time)
    requires Reachable(s) && InScope(s.c, e, now) && e.sequence > s.c.handoffs[e.handoff].sequence
    requires HandleSpec(s.c, e, now).1.None? && s.c.handoffs[e.handoff].status != Ended
    requires later < e.occurredAt + s.c.handoffs[e.handoff].configuration.inactivityHours * HOUR
    ensures InactiveSpec(Run(Step(s, Human(e, now)), es).c, e.handoff, later).0 == Run(Step(s, Human(e, now)), es).c
  {
    ReachableInv(s);
    HandleIsAccepted(s, e, now);
    var s1 := Step(s, Human(e, now));
    var c := Run(s1, es).c;
    HandoffsMoveOnward(s1, e.handoff, es);
    LastInboundIsLast(c.messages, c.handoffs[e.handoff].lastActivityAt, later - c.handoffs[e.handoff].configuration.inactivityHours * HOUR);
  }

  /** So does a message from the customer. */
  lemma RecentMessagePreventsClosing(s: Cell, m: Id, at: Time, silent: bool, reopen: bool, es: seq<Event>, id: Id, later: Time)
    requires Reachable(s) && !Ingested(s.c, m) && id in Run(Step(s, Inbound(m, at, silent, reopen)), es).c.handoffs
    requires later < at + Run(Step(s, Inbound(m, at, silent, reopen)), es).c.handoffs[id].configuration.inactivityHours * HOUR
    ensures InactiveSpec(Run(Step(s, Inbound(m, at, silent, reopen)), es).c, id, later).0
      == Run(Step(s, Inbound(m, at, silent, reopen)), es).c
  {
    var s1 := Step(s, Inbound(m, at, silent, reopen));
    var c := Run(s1, es).c;
    MessagesAreExact(s, m, at, silent, reopen, 0, 0);
    MessagesOnlyGrow(s1, es);
    var k := |s.c.messages|;
    assert s1.c.messages[k] == c.messages[k] && c.messages[k].origin.FromCustomer? && c.messages[k].at == at;
    LastInboundIsLast(c.messages, c.handoffs[id].lastActivityAt, later - c.handoffs[id].configuration.inactivityHours * HOUR);
  }

  /** Nobody has been heard for `quiet`: neither the human side nor any message from the customer. */
  predicate QuietFor(c: Conversation, h: Handoff, now: Time, quiet: int) {
    && now >= h.lastActivityAt + quiet
    && forall k :: 0 <= k < |c.messages| && c.messages[k].origin.FromCustomer? ==> now >= c.messages[k].at + quiet
  }

  /** The inactivity check ends a live handoff, and closes the conversation with it, exactly after its configured hours of silence. */
  lemma InactivityClosesIff(s: Cell, id: Id, now: Time)
    requires Reachable(s) && Live(s.c, id)
    ensures var h, c' := s.c.handoffs[id], InactiveSpec(s.c, id, now).0;
      if QuietFor(s.c, h, now, h.configuration.inactivityHours * HOUR)
      then c'.control == Closed && !Live(c', id) && c'.messages == s.c.messages
      else c' == s.c
  {
    ReachableInv(s);
    InactiveIsAccepted(s, id, now);
    LastInboundIsLast(s.c.messages, s.c.handoffs[id].lastActivityAt, now - s.c.handoffs[id].configuration.inactivityHours * HOUR);
  }

  lemma {:induction false} LastInboundIsLast(messages: seq<Message>, floor: Time, t: Time)
    ensures t >= LastInbound(messages, floor) <==>
      t >= floor && forall k :: 0 <= k < |messages| && messages[k].origin.FromCustomer? ==> t >= messages[k].at
  {
    if messages != [] {
      var rest := messages[..|messages| - 1];
      LastInboundIsLast(rest, floor, t);
      assert forall k :: 0 <= k < |rest| ==> rest[k] == messages[k];
    }
  }

  /** The control history replays: numbered from 2, each change legal, starting where the last one ended. */
  lemma {:induction false} ControlHistoryReplays(log: seq<Change>, control: Control, k: nat)
    requires Logged(log, control) && k < |log|
    ensures log[k].version == k + 2 && CanMove(log[k].from, log[k].to)
    ensures k == 0 ==> log[k].from == AiActive
    ensures k > 0 ==> log[k].from == log[k - 1].to
    ensures k == |log| - 1 ==> log[k].to == control
  {
    var rest := log[..|log| - 1];
    if k < |log| - 1 {
      ControlHistoryReplays(rest, log[|log| - 1].from, k);
    } else if k > 0 {
      ControlHistoryReplays(rest, log[|log| - 1].from, k - 1);
    }
  }

  lemma EveryControlHistoryIsLogged(s: Cell)
    requires Reachable(s)
    ensures Logged(s.c.log, s.c.control) && s.c.version == |s.c.log| + 1
  {
    ReachableInv(s);
  }

  /** A handoff is only ever made for the enabled configuration that was verified and is still current. */
  lemma HandoffNeedsCurrentConfiguration(s: Cell, e: Event, id: Id)
    requires Reachable(s) && id !in s.c.handoffs && id in Step(s, e).c.handoffs
    ensures e.Commit? && e.request in s.verified && s.c.configuration.Some?
    ensures var h := Step(s, e).c.handoffs[id];
      h.configuration == s.verified[e.request] && h.configuration.enabled
      && h.configuration.revision == s.c.configuration.value.revision
    ensures Step(s, e).c.control == AwaitingHuman && s.c.control == AiActive
  {
    ReachableInv(s);
  }
}
