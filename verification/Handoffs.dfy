/**
 One conversation: its control state, its messages, and the handoffs to a human.  Control lives in
 one table and handoffs in another; the database guards the first against the second.
 */
module Handoffs {
  import opened Wrappers
  import opened Clock

  type Id = nat    // a UUID

  datatype Control = AiActive | AwaitingHuman | HumanActive | Closed

  datatype Status = Requested | Active | Ended

  datatype Configuration = Configuration(revision: nat, enabled: bool, surface: Id, inactivityHours: nat)

  datatype Handoff = Handoff(
    status: Status, configuration: Configuration, requestedAt: Time, lastActivityAt: Time,
    closedAt: Option<Time>, sequence: int)

  /** A customer's message by its webhook event, a handoff's waiting notice, or the AI's reply to such an event. */
  datatype Origin = FromCustomer(event: Id) | WaitingNotice | AiReply(to: Id)

  datatype Message = Message(origin: Origin, at: Time, arrival: nat)

  /** A conversation_state_events row. */
  datatype Change = Change(from: Control, to: Control, version: nat)

  datatype Conversation = Conversation(
    control: Control,
    version: nat,
    log: seq<Change>,
    handoffs: map<Id, Handoff>,
    messages: seq<Message>,
    turns: seq<Id>,                        // webhook events an agent.turn was queued for
    configuration: Option<Configuration>)

  const FRESH := Conversation(AiActive, 1, [], map[], [], [], None)

  predicate Live(c: Conversation, id: Id) {
    id in c.handoffs && c.handoffs[id].status != Ended
  }

  // ---- Control ----

  /** The state machine and the database function agree on these moves. */
  predicate CanMove(from: Control, to: Control) {
    match from
    case AiActive => to.AwaitingHuman? || to.Closed?
    case AwaitingHuman => to.HumanActive? || to.Closed?
    case HumanActive => to.Closed?
    case Closed => to.AiActive?
  }

  predicate HasStatus(c: Conversation, s: Status) {
    exists id :: id in c.handoffs && c.handoffs[id].status == s
  }

  /** The trigger on the conversations table. */
  predicate GuardAllows(c: Conversation, to: Control) {
    match to
    case AwaitingHuman => HasStatus(c, Requested)
    case HumanActive => HasStatus(c, Active)
    case _ => !HasStatus(c, Requested) && !HasStatus(c, Active)
  }

  predicate Accepted(c: Conversation, to: Control) {
    CanMove(c.control, to) && GuardAllows(c, to)
  }

  function Moved(c: Conversation, to: Control): Conversation {
    c.(control := to, version := c.version + 1, log := c.log + [Change(c.control, to, c.version + 1)])
  }

  // ---- Messages ----

  function LastArrival(messages: seq<Message>): nat {
    if messages == [] then 0
    else
      var rest := LastArrival(messages[..|messages| - 1]);
      var a := messages[|messages| - 1].arrival;
      if a > rest then a else rest
  }

  function Received(c: Conversation, origin: Origin, at: Time): Conversation {
    c.(messages := c.messages + [Message(origin, at, LastArrival(c.messages) + 1)])
  }

  predicate Has(messages: seq<Message>, origin: Origin) {
    exists k :: 0 <= k < |messages| && messages[k].origin == origin
  }

  predicate Ingested(c: Conversation, event: Id) {
    Has(c.messages, FromCustomer(event))
  }

  predicate MayAiRespond(control: Control, silent: bool) {
    control == AiActive || (control == AwaitingHuman && !silent)
  }

  /** ingest: dedupes by webhook event, reopens a closed conversation, queues a turn if the AI may answer. */
  function IngestSpec(c: Conversation, event: Id, at: Time, silent: bool, reopen: bool): Conversation {
    if Ingested(c, event) then c
    else
      var c1 := Received(c, FromCustomer(event), at);
      if c1.control == Closed && reopen && !Accepted(c1, AiActive) then c
      else
        var c2 := if c1.control == Closed && reopen then Moved(c1, AiActive) else c1;
        if MayAiRespond(c2.control, silent) then c2.(turns := c2.turns + [event]) else c2
  }

  /** persist_assistant_reply, for a turn loaded when the conversation was at version `expected`. */
  function ReplySpec(c: Conversation, event: Id, expected: nat, silent: bool, at: Time): Conversation {
    if !Ingested(c, event) || c.version != expected || !MayAiRespond(c.control, silent) || Has(c.messages, AiReply(event)) then c
    else Received(c, AiReply(event), at)
  }

  /** The time of the last message from the customer, if later than `floor`. */
  function LastInbound(messages: seq<Message>, floor: Time): Time {
    if messages == [] then floor
    else
      var m := messages[|messages| - 1];
      var rest := LastInbound(messages[..|messages| - 1], floor);
      if m.origin.FromCustomer? && m.at > rest then m.at else rest
  }

  // ---- Handoffs ----

  datatype Error =
    | NotAiActive | ConfigurationConflict | Disabled | OutOfScope | HumanNotActive | GuardRefused | NoSuchHandoff

  function NewHandoff(configuration: Configuration, at: Time): Handoff {
    Handoff(Requested, configuration, at, at, None, -1)
  }

  /** The second transaction of request; `wanted` is the configuration its first one verified. */
  function RequestSpec(c: Conversation, id: Id, wanted: Configuration, at: Time): (Conversation, Option<Error>) {
    if HasStatus(c, Requested) || HasStatus(c, Active) then (c, None)
    else if c.control != AiActive then (c, Some(NotAiActive))
    else if c.configuration.None? || c.configuration.value.revision != wanted.revision then (c, Some(ConfigurationConflict))
    else
      var c1 := Received(c, WaitingNotice, at).(handoffs := c.handoffs[id := NewHandoff(wanted, at)]);
      if Accepted(c1, AwaitingHuman) then (Moved(c1, AwaitingHuman), None) else (c, Some(GuardRefused))
  }

  datatype Kind = Activate | Activity | End

  /** A verified event; `scoped` is what its account, conversation and surface binding come to. */
  datatype HumanEvent = HumanEvent(handoff: Id, sequence: nat, kind: Kind, occurredAt: Time, scoped: bool)

  function Later(a: Time, b: Time): Time {
    if b > a then b else a
  }

  predicate InScope(c: Conversation, e: HumanEvent, now: Time) {
    && e.occurredAt <= now + MINUTE && e.handoff in c.handoffs && e.scoped
    && e.occurredAt >= c.handoffs[e.handoff].requestedAt
  }

  function Handled(h: Handoff, e: HumanEvent, now: Time): Handoff {
    h.(status := if e.kind == End then Ended else Active, sequence := e.sequence,
       lastActivityAt := Later(h.lastActivityAt, e.occurredAt), closedAt := if e.kind == End then Some(now) else None)
  }

  /** handle_event. */
  function HandleSpec(c: Conversation, e: HumanEvent, now: Time): (Conversation, Option<Error>) {
    if !InScope(c, e, now) then (c, Some(OutOfScope))
    else
      var h := c.handoffs[e.handoff];
      if h.status == Ended || e.sequence <= h.sequence then (c, None)
      else if e.kind == Activity && h.status != Active then (c, Some(HumanNotActive))
      else
        var c1 := c.(handoffs := c.handoffs[e.handoff := Handled(h, e, now)]);
        if e.kind == End then
          if Accepted(c1, Closed) then (Moved(c1, Closed), None) else (c, Some(GuardRefused))
        else if h.status == Requested then
          if Accepted(c1, HumanActive) then (Moved(c1, HumanActive), None) else (c, Some(GuardRefused))
        else (c1, None)
  }

  function Deadline(c: Conversation, h: Handoff): Time {
    LastInbound(c.messages, h.lastActivityAt) + h.configuration.inactivityHours * HOUR
  }

  /** close_if_inactive. */
  function InactiveSpec(c: Conversation, id: Id, now: Time): (Conversation, Option<Error>) {
    if id !in c.handoffs then (c, Some(NoSuchHandoff))
    else
      var h := c.handoffs[id];
      if h.status == Ended || now < Deadline(c, h) then (c, None)
      else
        var c1 := c.(handoffs := c.handoffs[id := h.(status := Ended, closedAt := Some(now))]);
        if Accepted(c1, Closed) then (Moved(c1, Closed), None) else (c, Some(GuardRefused))
  }

  /** Conversation control used on its own, as the conversation service also offers it. */
  function ControlSpec(c: Conversation, to: Control): Conversation {
    if Accepted(c, to) then Moved(c, to) else c
  }

  function ConfigureSpec(c: Conversation, expected: nat, enabled: bool, surface: Id, hours: nat): Conversation {
    var revision := if c.configuration.Some? then c.configuration.value.revision else 0;
    if revision != expected then c else c.(configuration := Some(Configuration(expected + 1, enabled, surface, hours)))
  }

  // ---- As the services run them ----

  class Desk {
    var c: Conversation

    constructor ()
      ensures c == FRESH
    {
      c := FRESH;
    }

    /** transition_conversation_control: false when the database refuses, which rolls everything back. */
    method Transition(to: Control) returns (ok: bool)
      modifies this
      ensures ok <==> Accepted(old(c), to)
      ensures c == ControlSpec(old(c), to)
    {
      ok := CanMove(c.control, to) && GuardAllows(c, to);
      if ok {
        var from := c.control;
        c := c.(control := to, version := c.version + 1);
        c := c.(log := c.log + [Change(from, to, c.version)]);
      }
    }

    method Append(origin: Origin, at: Time)
      modifies this
      ensures c == Received(old(c), origin, at)
    {
      var highest, k := 0, 0;
      while k < |c.messages|
        invariant k <= |c.messages| && c == old(c) && highest == LastArrival(c.messages[..k])
      {
        assert c.messages[..k + 1][..k] == c.messages[..k];
        if c.messages[k].arrival > highest { highest := c.messages[k].arrival; }
        k := k + 1;
      }
      assert c.messages[..k] == c.messages;
      c := c.(messages := c.messages + [Message(origin, at, highest + 1)]);
    }

    method Ingest(event: Id, at: Time, silent: bool, reopen: bool) returns (created: bool, queued: bool)
      modifies this
      ensures c == IngestSpec(old(c), event, at, silent, reopen)
      ensures queued <==> |c.turns| == |old(c).turns| + 1
      ensures created <==> |c.messages| == |old(c).messages| + 1
    {
      var before := c;
      if Ingested(c, event) { return false, false; }
      Append(FromCustomer(event), at);
      if c.control == Closed && reopen {
        var ok := Transition(AiActive);
        if !ok {
          c := before;
          return false, false;
        }
      }
      queued := c.control == AiActive || (c.control == AwaitingHuman && !silent);
      if queued {
        c := c.(turns := c.turns + [event]);
      }
      created := true;
    }

    /** `authorized` is false when control or version moved since the turn was loaded. */
    method PersistReply(event: Id, expected: nat, silent: bool, at: Time) returns (authorized: bool, created: bool)
      requires Ingested(c, event)
      modifies this
      ensures c == ReplySpec(old(c), event, expected, silent, at)
      ensures authorized <==> old(c).version == expected && MayAiRespond(old(c).control, silent)
      ensures created <==> authorized && !Has(old(c).messages, AiReply(event))
    {
      authorized := c.version == expected && MayAiRespond(c.control, silent);
      created := authorized && !Has(c.messages, AiReply(event));
      if created {
        Append(AiReply(event), at);
      }
    }

    method Request(id: Id, wanted: Configuration, at: Time) returns (error: Option<Error>)
      modifies this
      ensures (c, error) == RequestSpec(old(c), id, wanted, at)
    {
      var before := c;
      if HasStatus(c, Requested) || HasStatus(c, Active) { return None; }
      if c.control != AiActive { return Some(NotAiActive); }
      if c.configuration.None? || c.configuration.value.revision != wanted.revision { return Some(ConfigurationConflict); }
      Append(WaitingNotice, at);
      c := c.(handoffs := c.handoffs[id := Handoff(Requested, wanted, at, at, None, -1)]);
      var ok := Transition(AwaitingHuman);
      if !ok {
        c := before;
        return Some(GuardRefused);
      }
      return None;
    }

    method HandleEvent(e: HumanEvent, now: Time) returns (error: Option<Error>)
      modifies this
      ensures (c, error) == HandleSpec(old(c), e, now)
    {
      var before := c;
      if e.occurredAt > now + MINUTE || e.handoff !in c.handoffs || !e.scoped { return Some(OutOfScope); }
      var h := c.handoffs[e.handoff];
      if e.occurredAt < h.requestedAt { return Some(OutOfScope); }
      if h.status == Ended || e.sequence <= h.sequence { return None; }
      if e.kind == Activity && h.status != Active { return Some(HumanNotActive); }
      var status := if e.kind == End then Ended else Active;
      var g := h.(status := status, sequence := e.sequence, closedAt := if status == Ended then Some(now) else None);
      if e.occurredAt > h.lastActivityAt { g := g.(lastActivityAt := e.occurredAt); }
      c := c.(handoffs := c.handoffs[e.handoff := g]);
      var ok := true;
      if status == Ended {
        ok := Transition(Closed);
      } else if h.status == Requested {
        ok := Transition(HumanActive);
      }
      if !ok {
        c := before;
        return Some(GuardRefused);
      }
      return None;
    }

    method CloseIfInactive(id: Id, now: Time) returns (error: Option<Error>)
      modifies this
      ensures (c, error) == InactiveSpec(old(c), id, now)
    {
      var before := c;
      if id !in c.handoffs { return Some(NoSuchHandoff); }
      var h := c.handoffs[id];
      if h.status == Ended { return None; }
      var last, k := h.lastActivityAt, 0;
      while k < |c.messages|
        invariant k <= |c.messages| && c == before && last == LastInbound(c.messages[..k], h.lastActivityAt)
      {
        assert c.messages[..k + 1][..k] == c.messages[..k];
        if c.messages[k].origin.FromCustomer? && c.messages[k].at > last { last := c.messages[k].at; }
        k := k + 1;
      }
      assert c.messages[..k] == c.messages;
      if now < last + h.configuration.inactivityHours * HOUR { return None; }
      c := c.(handoffs := c.handoffs[id := h.(status := Ended, closedAt := Some(now))]);
      var ok := Transition(Closed);
      if !ok {
        c := before;
        return Some(GuardRefused);
      }
      return None;
    }
  }
}
