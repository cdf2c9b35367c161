/**
 What each operation on a conversation comes to, told by its handoffs and its columns: when it takes effect,
 what it then leaves, and which error it gives otherwise.
 */
module HandoffOutcomes {
  import opened Wrappers
  import opened Clock
  import opened Handoffs
  import opened HandoffRuns

  /**
   When a request opens a handoff: nobody is handling the conversation, the AI has it, and the configuration
   verified beforehand is still the current one.  It then waits for a human, with one notice sent.
   */
  lemma RequestIff(s: Cell, id: Id, wanted: Configuration, at: Time)
    requires Reachable(s) && id !in s.c.handoffs && wanted.enabled
    ensures var (c', error) := RequestSpec(s.c, id, wanted, at);
      var free := forall h :: !Live(s.c, h);
      var current := s.c.configuration.Some? && s.c.configuration.value.revision == wanted.revision;
      && (c' != s.c <==> free && s.c.control != Closed && current)
      && (error == Some(NotAiActive) <==> free && s.c.control == Closed)
      && (error == Some(ConfigurationConflict) <==> free && s.c.control != Closed && !current)
      && (!free ==> error.None?) && error != Some(GuardRefused)
      && (c' != s.c ==>
           && error.None? && c'.control == AwaitingHuman && c'.version == s.c.version + 1
           && c'.handoffs == s.c.handoffs[id := Handoff(Requested, wanted, at, at, None, -1)]
           && |c'.messages| == |s.c.messages| + 1 && c'.messages[|s.c.messages|].origin == WaitingNotice
           && c'.turns == s.c.turns)
  {
    ReachableInv(s);
    RequestIsAccepted(s, id, wanted, at);
    if forall h :: !Live(s.c, h) {
      NothingLiveIsClosed(s);
    } else {
      var h :| Live(s.c, h);
      assert HasStatus(s.c, s.c.handoffs[h].status);
    }
  }

  /**
   A human's event, told by what it claims: one that is out of scope or too early is an error, an old one or
   one for an ended handoff is nothing, and any other moves the handoff, and control with it.
   */
  lemma HumanEventIff(s: Cell, e: HumanEvent, now: Time)
    requires Reachable(s)
    ensures var (c', error) := HandleSpec(s.c, e, now);
      var known := e.handoff in s.c.handoffs && e.scoped && e.occurredAt <= now + MINUTE
        && e.occurredAt >= s.c.handoffs[e.handoff].requestedAt;
      && (error == Some(OutOfScope) <==> !known)
      && (known ==>
           var h := s.c.handoffs[e.handoff];
           var newer := h.status != Ended && e.sequence > h.sequence;
           && (error == Some(HumanNotActive) <==> newer && e.kind == Activity && h.status == Requested)
           && (c' != s.c <==> newer && !(e.kind == Activity && h.status == Requested))
           && (c' != s.c ==>
                && error.None? && c'.handoffs.Keys == s.c.handoffs.Keys && c'.messages == s.c.messages
                && (var h' := c'.handoffs[e.handoff];
                    && h'.sequence == e.sequence && h'.configuration == h.configuration && h'.requestedAt == h.requestedAt
                    && h'.lastActivityAt == (if e.occurredAt > h.lastActivityAt then e.occurredAt else h.lastActivityAt)
                    && (if e.kind == End then h'.status == Ended && h'.closedAt == Some(now) && c'.control == Closed
                        else h'.status == Active && h'.closedAt.None? && c'.control == HumanActive))))
      && (error.Some? ==> c' == s.c)
  {
    ReachableInv(s);
    HandleIsAccepted(s, e, now);
    if e.handoff in s.c.handoffs && Live(s.c, e.handoff) {
      ControlFollowsHandoff(s, e.handoff, e.handoff);
    }
  }

  /** Ending a handoff for inactivity leaves it and the conversation closed at that instant, and nothing else changed. */
  lemma InactivityEnds(s: Cell, id: Id, now: Time)
    requires Reachable(s) && id in s.c.handoffs && InactiveSpec(s.c, id, now).0 != s.c
    ensures var c' := InactiveSpec(s.c, id, now).0;
      && c'.handoffs == s.c.handoffs[id := s.c.handoffs[id].(status := Ended, closedAt := Some(now))]
      && c'.control == Closed && c'.version == s.c.version + 1 && c'.messages == s.c.messages && c'.turns == s.c.turns
  {
    ReachableInv(s);
    InactiveIsAccepted(s, id, now);
  }

  /** Control moved on its own goes between AI_ACTIVE and CLOSED, and does so exactly while no handoff is live. */
  lemma StrayControlIff(s: Cell, to: Control)
    requires Reachable(s)
    ensures var c' := ControlSpec(s.c, to);
      && (c' != s.c <==> (forall h :: !Live(s.c, h)) && (to == AiActive || to == Closed) && to != s.c.control)
      && (c' != s.c ==> c'.control == to && c'.version == s.c.version + 1
                        && c'.log == s.c.log + [Change(s.c.control, to, s.c.version + 1)] && c'.handoffs == s.c.handoffs)
  {
    ReachableInv(s);
    if forall h :: !Live(s.c, h) {
      NothingLiveIsClosed(s);
    } else {
      var h :| Live(s.c, h);
      ControlFollowsHandoff(s, h, h);
      assert HasStatus(s.c, s.c.handoffs[h].status);
    }
  }

  /** A configuration is stored exactly on its current revision, as the next one. */
  lemma ConfigureIff(c: Conversation, expected: nat, enabled: bool, surface: Id, hours: nat)
    ensures var c' := ConfigureSpec(c, expected, enabled, surface, hours);
      var current := match c.configuration case None => expected == 0 case Some(was) => expected == was.revision;
      c' == if current then c.(configuration := Some(Configuration(expected + 1, enabled, surface, hours))) else c
  {
  }

  /** The number a new message gets is one above every number given before. */
  lemma {:induction false} LastArrivalIsHighest(messages: seq<Message>, k: nat)
    requires k < |messages|
    ensures messages[k].arrival <= LastArrival(messages)
    ensures exists j :: 0 <= j < |messages| && messages[j].arrival == LastArrival(messages)
  {
    var init := messages[..|messages| - 1];
    if init == [] {
      assert messages[0].arrival == LastArrival(messages);
    } else {
      LastArrivalIsHighest(init, if k < |init| then k else 0);
      var j :| 0 <= j < |init| && init[j].arrival == LastArrival(init);
      assert messages[j].arrival == LastArrival(init);
      assert messages[|messages| - 1].arrival <= LastArrival(messages);
    }
  }

  // ---- The database guard, for rows the services would never leave ----

  /** Were the tables out of step, the guard would refuse every move it can see, and the transaction changes nothing. */
  lemma GuardRefusalsChangeNothing(c: Conversation, id: Id, other: Id, e: HumanEvent, now: Time)
    requires id != other && Live(c, id) && Live(c, other)
    ensures InactiveSpec(c, id, now).0 == c
    ensures now >= LastInbound(c.messages, c.handoffs[id].lastActivityAt) + c.handoffs[id].configuration.inactivityHours * HOUR
      ==> InactiveSpec(c, id, now).1 == Some(GuardRefused)
    ensures e.handoff == id && e.kind == End ==> HandleSpec(c, e, now).0 == c
    ensures e.handoff == id && e.kind == End && HandleSpec(c, e, now).1 != Some(OutOfScope) && e.sequence > c.handoffs[id].sequence
      ==> HandleSpec(c, e, now).1 == Some(GuardRefused)
  {
    OtherKeepsItsStatus(c, id, other, c.handoffs[id].(status := Ended, closedAt := Some(now)));
    OtherKeepsItsStatus(c, id, other, Handled(c.handoffs[id], e, now));
  }

  /** Nor would it let a human take over a conversation that is not waiting for one. */
  lemma GuardedActivation(c: Conversation, e: HumanEvent, now: Time)
    requires Live(c, e.handoff) && c.handoffs[e.handoff].status == Requested && c.control != AwaitingHuman
    requires e.kind == Activate && e.sequence > c.handoffs[e.handoff].sequence && HandleSpec(c, e, now).1 != Some(OutOfScope)
    ensures HandleSpec(c, e, now) == (c, Some(GuardRefused))
  {
  }

  lemma OtherKeepsItsStatus(c: Conversation, id: Id, other: Id, h: Handoff)
    requires id != other && Live(c, other)
    ensures HasStatus(c.(handoffs := c.handoffs[id := h]), c.handoffs[other].status)
    ensures !GuardAllows(c.(handoffs := c.handoffs[id := h]), Closed)
  {
    var c1 := c.(handoffs := c.handoffs[id := h]);
    assert c1.handoffs[other].status == c.handoffs[other].status;
  }

  /** And a message would not reopen a closed conversation that still had a live handoff: its transaction rolls back. */
  lemma GuardedReopening(c: Conversation, live: Id, event: Id, at: Time, silent: bool)
    requires c.control == Closed && Live(c, live) && !Ingested(c, event)
    ensures IngestSpec(c, event, at, silent, true) == c
    ensures IngestSpec(c, event, at, silent, false).turns == c.turns
    ensures |IngestSpec(c, event, at, silent, false).messages| == |c.messages| + 1
  {
    var c1 := Received(c, FromCustomer(event), at);
    assert c1.handoffs[live].status == c.handoffs[live].status;
  }
}
