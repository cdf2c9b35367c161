/** What holds of every action in every interleaving of its writers and execution workers. */
module ActionSafety {
  import opened Wrappers
  import opened Clock
  import opened Actions
  import opened Approvals
  import opened Execution
  import opened ActionRuns
  import opened ActionLog

  ghost predicate Reachable(c: Cell) {
    exists terms: Terms, authorized: bool, safeRead: bool, serialized: bool, es: seq<Event> ::
      c == Run(Start(terms, authorized, safeRead, serialized), es)
  }

  lemma ReachableInv(c: Cell)
    requires Reachable(c)
    ensures Inv(c)
  {
    var terms: Terms, authorized: bool, safeRead: bool, serialized: bool, es: seq<Event> :|
      c == Run(Start(terms, authorized, safeRead, serialized), es);
    StartIsSafe(terms, authorized, safeRead, serialized);
    RunKeeps(Start(terms, authorized, safeRead, serialized), es);
  }

  lemma ReachableFaithful(c: Cell)
    requires Reachable(c)
    ensures Faithful(c.record)
  {
    var terms: Terms, authorized: bool, safeRead: bool, serialized: bool, es: seq<Event> :|
      c == Run(Start(terms, authorized, safeRead, serialized), es);
    EveryLogIsFaithful(terms, authorized, safeRead, serialized, es);
  }

  // ---- Calls to the connector ----

  /**
   However many workers run and wherever they crash, the provider sees at most one write (two
   safe reads), at most one worker ever holds a permit, and success needs its genuine answer.
   None of this needs the advisory mutex.
   */
  lemma AtMostOnce(c: Cell)
    requires Reachable(c) && c.record.action.terms.ApprovalRequired()
    ensures |c.calls| <= MaxCalls(c.safeRead)
    ensures forall x, y :: x in c.workers && y in c.workers ==> x == y
    ensures c.record.action.attempts <= 1 && (c.calls != [] ==> c.record.action.attempts == 1)
    ensures c.record.action.state == Succeeded ==>
      c.calls != [] && GenuineSuccess(c.record.action.terms.operation, c.calls[|c.calls| - 1])
  {
    ReachableInv(c);
  }

  /** An approved write that was called and is FAILED was refused, or failed, in the provider's own words: silence is never FAILED. */
  lemma FailedWriteWasRefused(c: Cell)
    requires Reachable(c) && c.record.action.terms.ApprovalRequired() && !c.safeRead
    requires c.record.action.state == Failed && c.calls != []
    ensures var reply := c.calls[|c.calls| - 1];
      reply.Answer? && !reply.result.sensitive && (reply.result.status.Refused? || reply.result.status.Broke?)
  {
    ReachableInv(c);
  }

  /** A worker's call is repeated exactly when it was the first of a safe read and was not answered, or answered as broken. */
  lemma RepeatsIff(c: Cell, x: Id, reply: Reply)
    requires Reachable(c) && x in c.workers && c.workers[x].Calling?
    ensures var c' := Step(c, Call(x, reply));
      && c'.calls == c.calls + [reply] && x in c'.workers && c'.record == c.record
      && (if c.safeRead && c.calls == [] && (reply.Answer? ==> reply.result.status.Broke?)
          then c'.workers[x].Calling? else c'.workers[x] == Answered(reply))
  {
    ReachableInv(c);
  }

  /** The log shows EXECUTING at most once, whoever executed. */
  lemma ExecutingIsEnteredOnce(c: Cell, j: nat, k: nat)
    requires Reachable(c) && j <= k < |c.record.events|
    requires c.record.events[j].to == Executing && c.record.events[k].to == Executing
    ensures j == k
  {
    ReachableFaithful(c);
    ExecutingOnceInLog(c.record, j, k);
  }

  /** A run interrupted between its two transactions never calls again and can only end UNCERTAIN. */
  lemma {:induction false} InterruptedEndsUncertain(c: Cell, es: seq<Event>)
    requires Reachable(c) && c.record.action.state == Executing && c.workers == map[]
    ensures var c' := Run(c, es);
      && (c'.record.action.state == Executing || c'.record.action.state == Uncertain)
      && c'.workers == map[] && c'.calls == c.calls && c'.record.action.terms == c.record.action.terms
  {
    ReachableInv(c);
    if es != [] {
      InterruptedEndsUncertain(c, es[..|es| - 1]);
      RunKeeps(c, es[..|es| - 1]);
      InterruptedStays(Run(c, es[..|es| - 1]), es[|es| - 1]);
    }
  }

  lemma InterruptedStays(c: Cell, e: Event)
    requires Inv(c) && c.record.action.terms.ApprovalRequired() && c.workers == map[]
    requires c.record.action.state == Executing || c.record.action.state == Uncertain
    ensures var c' := Step(c, e);
      && (c'.record.action.state == Executing || c'.record.action.state == Uncertain)
      && c'.workers == map[] && c'.calls == c.calls && c'.record.action.terms == c.record.action.terms
  {
  }

  /** With the mutex, the answer of a worker that does not crash is what gets recorded. */
  lemma AnswerIsRecorded(c: Cell, x: Id)
    requires Reachable(c) && c.serialized && x in c.workers && c.workers[x].Answered?
    ensures var done := Step(c, Complete(x)).record.action;
      && IsTerminal(done.state)
      && (done.state == Succeeded <==> GenuineSuccess(done.terms.operation, c.workers[x].reply))
  {
    ReachableInv(c);
    CompletionIsFaithful(c.record, c.workers[x].reply, c.safeRead);
  }

  /** Without it, a duplicate that prepares before the worker completes discards any answer. */
  lemma DuplicateDiscardsAnswer(c: Cell, x: Id, y: Id, i: Inputs)
    requires Reachable(c) && !c.serialized && c.record.action.state == Executing
    requires x in c.workers && c.workers[x].Answered? && y !in c.workers
    ensures Step(Step(c, Prepare(y, i)), Complete(x)).record.action.state == Uncertain
  {
    ReachableInv(c);
    DuplicateCompletes(c, x, y, i);
  }

  lemma DuplicateCompletes(c: Cell, x: Id, y: Id, i: Inputs)
    requires c.record.action.state == Executing && c.record.action.terms.ApprovalRequired() && !c.serialized
    requires ApprovedRequest(c.approval) && x in c.workers && c.workers[x].Answered? && y !in c.workers
    ensures var c' := Step(Step(c, Prepare(y, i)), Complete(x));
      c'.record.action.state == Uncertain && c'.calls == c.calls
  {
  }

  predicate SameAction(c: Cell, c': Cell) {
    c'.record.action.terms == c.record.action.terms && c'.safeRead == c.safeRead
  }

  lemma PreparingKeepsAction(c: Cell, x: Id, i: Inputs)
    requires Inv(c)
    ensures SameAction(c, PrepareStep(c, x, i))
  {
    if c.approval.request.Some? && !IsTerminal(c.record.action.state) {
      PrepareOutcome(c.record, c.approval, c.route, i);
    }
  }

  lemma CompletingKeepsAction(c: Cell, x: Id)
    ensures SameAction(c, CompleteStep(c, x))
  {
    if x in c.workers && c.workers[x].Answered? && c.record.action.state == Executing {
      CompletionIsFaithful(c.record, c.workers[x].reply, c.safeRead);
    }
  }

  lemma DirectKeepsAction(c: Cell, e: Event)
    requires Inv(c) && e.Direct?
    ensures SameAction(c, Step(c, e))
  {
    if !c.record.action.terms.ApprovalRequired() {
      DirectOutcome(c, e.pre, e.first, e.second, e.keep);
    }
  }

  lemma ReviewKeepsAction(c: Cell, e: Event)
    requires !e.Prepare? && !e.Complete? && !e.Direct?
    ensures SameAction(c, Step(c, e))
  {
  }

  lemma StepKeepsAction(c: Cell, e: Event)
    requires Inv(c)
    ensures SameAction(c, Step(c, e))
  {
    if e.Prepare? { PreparingKeepsAction(c, e.worker, e.inputs); }
    else if e.Complete? { CompletingKeepsAction(c, e.worker); }
    else if e.Direct? { DirectKeepsAction(c, e); }
    else { ReviewKeepsAction(c, e); }
  }

  /** An action's terms, and whether it is a safe read, never change. */
  lemma {:induction false} RunKeepsAction(c: Cell, es: seq<Event>)
    requires Inv(c)
    ensures SameAction(c, Run(c, es))
  {
    if es != [] {
      RunKeepsAction(c, es[..|es| - 1]);
      RunKeeps(c, es[..|es| - 1]);
      StepKeepsAction(Run(c, es[..|es| - 1]), es[|es| - 1]);
    }
  }

  predicate AllKept(es: seq<Event>) {
    es == [] || (AllKept(es[..|es| - 1]) && (es[|es| - 1].Direct? ==> es[|es| - 1].keep))
  }

  lemma {:induction false} KeptLosesNothing(c: Cell, es: seq<Event>)
    requires AllKept(es)
    ensures Run(c, es).lost == c.lost
  {
    if es != [] {
      KeptLosesNothing(c, es[..|es| - 1]);
      StepLosesNothing(Run(c, es[..|es| - 1]), es[|es| - 1]);
    }
  }

  lemma StepLosesNothing(c: Cell, e: Event)
    requires e.Direct? ==> e.keep
    ensures Step(c, e).lost == c.lost
  {
  }

  /**
   The action service's own single-session execution calls before it commits: its writes are exactly its
   committed attempts and the executions rolled back after the call.
   */
  lemma DirectCallsAreCounted(c: Cell)
    requires Reachable(c) && !c.record.action.terms.ApprovalRequired() && !c.safeRead
    ensures |c.calls| == c.record.action.attempts + c.lost
  {
    ReachableInv(c);
  }

  /** A single-session execution calls the provider if and only if the row says CONFIRMED and the revalidation passes. */
  lemma DirectCallsIff(c: Cell, pre: Precondition, first: Reply, second: Reply, keep: bool)
    requires !c.record.action.terms.ApprovalRequired()
    ensures Step(c, Direct(pre, first, second, keep)).calls != c.calls <==> c.record.action.state == Confirmed && pre.valid
  {
    DirectCallsFromRow(c, pre, first, second, keep);
  }

  lemma DirectCallsFromRow(c: Cell, pre: Precondition, first: Reply, second: Reply, keep: bool)
    requires !c.record.action.terms.ApprovalRequired()
    ensures var c' := DirectSpec(c, pre, first, second, keep);
      if c.record.action.state == Confirmed && pre.valid
      then c'.calls != c.calls && c'.lost == c.lost + (if keep then 0 else 1)
      else c'.calls == c.calls && c'.lost == c.lost
  {
  }

  /**
   What such an execution calls and records: a safe read that was not answered, or answered as broken, is made
   once more, and the last reply decides; rolled back, the row keeps nothing of it.
   */
  lemma DirectExecutionOutcome(c: Cell, pre: Precondition, first: Reply, second: Reply, keep: bool)
    requires !c.record.action.terms.ApprovalRequired() && c.record.action.state == Confirmed && pre.valid
    ensures var c' := Step(c, Direct(pre, first, second, keep));
      var again := c.safeRead && (first.Answer? ==> first.result.status.Broke?);
      var last := if again then second else first;
      && c'.calls == c.calls + (if again then [first, second] else [first])
      && (!keep ==> c'.record == c.record)
      && (keep ==>
           c'.record.action.state ==
           if !last.Answer? || last.result.sensitive then (if c.safeRead then Failed else Uncertain)
           else match last.result.status case Ok => Succeeded case Unknown => Uncertain case _ => Failed)
  {
  }

  /** Some execution of the run had called the provider when its transaction was rolled back. */
  predicate RolledBack(c: Cell, es: seq<Event>) {
    es != [] && (
      var before, e := Run(c, es[..|es| - 1]), es[|es| - 1];
      RolledBack(c, es[..|es| - 1]) || (e.Direct? && !e.keep && Step(before, e).calls != before.calls))
  }

  lemma {:induction false} LostCountsRollbacks(c: Cell, es: seq<Event>)
    requires c.lost == 0
    ensures Run(c, es).lost > 0 <==> RolledBack(c, es)
  {
    if es != [] {
      LostCountsRollbacks(c, es[..|es| - 1]);
      StepLoses(Run(c, es[..|es| - 1]), es[|es| - 1]);
    }
  }

  lemma StepLoses(c: Cell, e: Event)
    ensures Step(c, e).lost == c.lost + if e.Direct? && !e.keep && Step(c, e).calls != c.calls then 1 else 0
  {
    if e.Direct? && !c.record.action.terms.ApprovalRequired() {
      DirectCallsFromRow(c, e.pre, e.first, e.second, e.keep);
    } else if !e.Direct? {
      StepLosesNothing(c, e);
    }
  }

  /**
   So a single-session write reaches the provider a second time if and only if an earlier execution of
   the same action was rolled back after its call, and the row is CONFIRMED and revalidates.
   */
  lemma SecondWriteIff(terms: Terms, authorized: bool, serialized: bool, es: seq<Event>,
                       pre: Precondition, first: Reply, second: Reply, keep: bool)
    requires !terms.ApprovalRequired()
    ensures var c := Run(Start(terms, authorized, false, serialized), es);
      var c' := Step(c, Direct(pre, first, second, keep));
      c'.calls != c.calls && |c'.calls| >= 2 <==>
        c.record.action.state == Confirmed && pre.valid && RolledBack(Start(terms, authorized, false, serialized), es)
  {
    var start := Start(terms, authorized, false, serialized);
    var c := Run(start, es);
    StartIsSafe(terms, authorized, false, serialized);
    RunKeeps(start, es);
    RunKeepsAction(start, es);
    LostCountsRollbacks(start, es);
    DirectCallsFromRow(c, pre, first, second, keep);
    DirectAddsOneWrite(c, pre, first, second, keep);
  }

  lemma DirectAddsOneWrite(c: Cell, pre: Precondition, first: Reply, second: Reply, keep: bool)
    requires !c.safeRead
    ensures |DirectSpec(c, pre, first, second, keep).calls| <= |c.calls| + 1
    ensures |DirectSpec(c, pre, first, second, keep).calls| >= |c.calls|
    ensures DirectSpec(c, pre, first, second, keep).calls != c.calls ==>
      |DirectSpec(c, pre, first, second, keep).calls| == |c.calls| + 1
  {
  }

  /** So it writes at most once when every execution commits ... */
  lemma KeptDirectIsAtMostOnce(terms: Terms, authorized: bool, serialized: bool, es: seq<Event>)
    requires !terms.ApprovalRequired() && AllKept(es)
    ensures |Run(Start(terms, authorized, false, serialized), es).calls| <= 1
  {
    KeptLosesNothing(Start(terms, authorized, false, serialized), es);
    StartIsSafe(terms, authorized, false, serialized);
    RunKeeps(Start(terms, authorized, false, serialized), es);
    RunKeepsAction(Start(terms, authorized, false, serialized), es);
  }

  /** ... and any execution rolled back after its call is followed by a second one. */
  lemma RolledBackDirectCallsAgain(c: Cell, pre: Precondition, first: Reply, second: Reply, pre2: Precondition, keep: bool)
    requires !c.record.action.terms.ApprovalRequired() && c.record.action.state == Confirmed
    requires pre.valid && pre2.valid
    ensures var c1 := Step(c, Direct(pre, first, second, false));
      && |c1.calls| > |c.calls| && c1.record == c.record
      && |Step(c1, Direct(pre2, first, second, keep)).calls| > |c1.calls|
  {
  }

  // ---- Gates ----

  /**
   Where a request goes: identity or authorisation missing rejects it, and only then with an error; otherwise
   it waits for the customer, or for a reviewer, or for nobody.
   */
  lemma RequestOutcome(terms: Terms, authorized: bool)
    ensures var (r, error) := RequestSpec(terms, authorized);
      var admitted := authorized && terms.achievedLevel >= terms.requiredLevel;
      && r.action.terms == terms && r.action.attempts == 0
      && (r.action.state == Rejected <==> !admitted) && (error == Some(NotAuthorized) <==> !admitted)
      && (r.action.state == AwaitingConfirmation <==> admitted && terms.confirmationExpiresAt.Some?)
      && (r.action.state == AwaitingApproval <==> admitted && terms.confirmationExpiresAt.None? && terms.routeRef.Some?)
      && (r.action.state == Confirmed <==> admitted && terms.confirmationExpiresAt.None? && terms.routeRef.None?)
      && (admitted ==> error.None?)
  {
  }

  /** So nobody who was not admitted at the start ever executes anything. */
  lemma {:induction false} OnlyAdmittedExecute(terms: Terms, authorized: bool, safeRead: bool, serialized: bool, es: seq<Event>)
    requires !authorized || terms.achievedLevel < terms.requiredLevel
    ensures var c := Run(Start(terms, authorized, safeRead, serialized), es);
      c.record.action.state == Rejected && c.calls == [] && c.record.action.attempts == 0
  {
    var start := Start(terms, authorized, safeRead, serialized);
    StartIsSafe(terms, authorized, safeRead, serialized);
    RunKeeps(start, es);
    var none: seq<Event> := [];
    assert start == Run(start, none);
    TerminalIsFinal(start, es);
    RunKeepsAction(start, es);
    if es != [] { OnlyAdmittedExecute(terms, authorized, safeRead, serialized, es[..|es| - 1]); }
  }

  /**
   Who can confirm, what, and until when: each outcome of a confirmation of a waiting action, by who sent it,
   what they saw, and when.  Only the first is an error that changes nothing.
   */
  lemma ConfirmationOutcome(r: Record, digest: Digest, customer: string, at: Time)
    requires r.action.state == AwaitingConfirmation && r.action.terms.confirmationExpiresAt.Some?
    ensures var t := r.action.terms;
      var (r', error) := ConfirmSpec(r, digest, customer, at);
      var fits, inTime := digest == OfParameters(t.parameters), at < t.confirmationExpiresAt.value;
      && (r' == r <==> customer != t.customer)
      && (r'.action.state == Expired <==> customer == t.customer && !inTime)
      && (r'.action.state == Rejected <==> customer == t.customer && inTime && !fits)
      && (r'.action.state == Confirmed || r'.action.state == AwaitingApproval <==> customer == t.customer && inTime && fits)
      && (r'.action.state == AwaitingApproval ==> t.routeRef.Some?) && (r'.action.state == Confirmed ==> t.routeRef.None?)
      && (error.None? <==> customer == t.customer && inTime && fits)
      && (error == Some(TooLate) <==> customer == t.customer && !inTime)
      && (error.None? ==> r'.action.confirmedAt == Some(at))
  {
  }

  /** No other state can be confirmed. */
  lemma OnlyWaitingConfirms(r: Record, digest: Digest, customer: string, at: Time)
    requires r.action.state != AwaitingConfirmation
    ensures ConfirmSpec(r, digest, customer, at) == (r, Some(InvalidState))
  {
  }

  /** The event is its own customer's confirmation of exactly these parameters, in time. */
  predicate Confirms(c: Cell, e: Event) {
    && e.Confirm? && c.record.action.state == AwaitingConfirmation
    && e.customer == c.record.action.terms.customer
    && e.digest == OfParameters(c.record.action.terms.parameters)
    && c.record.action.terms.confirmationExpiresAt.Some? && e.at < c.record.action.terms.confirmationExpiresAt.value
  }

  /**
   In a run such an event always takes effect.  One that raises writes nothing for a stranger or in another
   state; its own customer's end the action, unless the transaction that raised is rolled back.
   */
  lemma ConfirmationTakesEffectIff(c: Cell, e: Event)
    requires Reachable(c) && e.Confirm?
    ensures var a, c' := c.record.action, Step(c, e);
      var mine := a.state == AwaitingConfirmation && e.customer == a.terms.customer;
      && (c' != c <==> Confirms(c, e) || (mine && e.keep)) && c' == c.(record := c'.record)
      && (Confirms(c, e) ==> c'.record.action.state == if a.terms.routeRef.Some? then AwaitingApproval else Confirmed)
      && (c' != c && !Confirms(c, e) ==>
           c'.record.action.state ==
             if a.terms.confirmationExpiresAt.Some? && e.at < a.terms.confirmationExpiresAt.value then Rejected else Expired)
  {
    ReachableInv(c);
    if c.record.action.state == AwaitingConfirmation { ConfirmationOutcome(c.record, e.digest, e.customer, e.at); }
  }

  ghost predicate ConfirmedIn(c: Cell, es: seq<Event>, at: Time) {
    exists k :: 0 <= k < |es| && Confirms(Run(c, es[..k]), es[k]) && es[k].at == at
  }

  lemma ConfirmedLater(c: Cell, es: seq<Event>, at: Time)
    requires es != [] && ConfirmedIn(c, es[..|es| - 1], at)
    ensures ConfirmedIn(c, es, at)
  {
    var rest := es[..|es| - 1];
    var k :| 0 <= k < |rest| && Confirms(Run(c, rest[..k]), rest[k]) && rest[k].at == at;
    assert es[..k] == rest[..k] && es[k] == rest[k];
  }

  lemma EvidenceAppears(c: Cell, e: Event)
    requires Inv(c) && Step(c, e).record.action.confirmedAt.Some?
    ensures Step(c, e).record.action.confirmedAt == c.record.action.confirmedAt
      || (Confirms(c, e) && Step(c, e).record.action.confirmedAt == Some(e.at))
  {
    if e.Prepare? { PreparingKeepsEvidence(c, e.worker, e.inputs); }
    else if e.Complete? { CompletingKeepsEvidence(c, e.worker); }
    else if e.Direct? { DirectKeepsEvidence(c, e); }
    else { ReviewKeepsEvidence(c, e); }
  }

  lemma PreparingKeepsEvidence(c: Cell, x: Id, i: Inputs)
    ensures PrepareStep(c, x, i).record.action.confirmedAt == c.record.action.confirmedAt
  {
  }

  lemma CompletingKeepsEvidence(c: Cell, x: Id)
    ensures CompleteStep(c, x).record.action.confirmedAt == c.record.action.confirmedAt
  {
  }

  lemma DirectKeepsEvidence(c: Cell, e: Event)
    requires e.Direct?
    ensures Step(c, e).record.action.confirmedAt == c.record.action.confirmedAt
  {
  }

  lemma ReviewKeepsEvidence(c: Cell, e: Event)
    requires !e.Prepare? && !e.Complete? && !e.Direct?
    ensures Step(c, e).record.action.confirmedAt == c.record.action.confirmedAt
      || (Confirms(c, e) && Step(c, e).record.action.confirmedAt == Some(e.at))
  {
  }

  lemma {:induction false} EvidenceWasGiven(c: Cell, es: seq<Event>)
    requires Inv(c) && c.record.action.confirmedAt.None? && Run(c, es).record.action.confirmedAt.Some?
    ensures ConfirmedIn(c, es, Run(c, es).record.action.confirmedAt.value)
  {
    var rest, e := es[..|es| - 1], es[|es| - 1];
    RunKeeps(c, rest);
    EvidenceAppears(Run(c, rest), e);
    if Run(c, es).record.action.confirmedAt == Run(c, rest).record.action.confirmedAt {
      EvidenceWasGiven(c, rest);
      ConfirmedLater(c, es, Run(c, es).record.action.confirmedAt.value);
    }
  }

  /** Nothing that required confirmation calls the provider unless its own customer confirmed it, in time, at that instant of the run. */
  lemma ExecutionWasConfirmed(terms: Terms, authorized: bool, safeRead: bool, serialized: bool, es: seq<Event>)
    requires var c := Run(Start(terms, authorized, safeRead, serialized), es);
      terms.ConfirmationRequired() && (c.record.action.attempts > 0 || c.calls != [])
    ensures var start := Start(terms, authorized, safeRead, serialized);
      var a := Run(start, es).record.action;
      a.confirmedAt.Some? && ConfirmedIn(start, es, a.confirmedAt.value)
  {
    var start := Start(terms, authorized, safeRead, serialized);
    StartIsSafe(terms, authorized, safeRead, serialized);
    RunKeepsAction(start, es);
    GatesHold(Run(start, es));
    EvidenceWasGiven(start, es);
  }

  /** Every action that has executed passed identity, confirmation and, where needed, approval. */
  lemma GatesHold(c: Cell)
    requires Reachable(c) && (c.record.action.attempts > 0 || c.calls != [])
    ensures var a := c.record.action;
      && a.terms.achievedLevel >= a.terms.requiredLevel
      && (a.terms.ConfirmationRequired() ==>
           && a.confirmedAt.Some? && a.confirmedAt.value < a.terms.confirmationExpiresAt.value
           && a.confirmationDigest == Some(OfConfirmation(a.terms.id, a.terms.customer, OfParameters(a.terms.parameters))))
      && (a.terms.ApprovalRequired() ==>
           && ApprovedRequest(c.approval)
           && a.approvalReference == Some(c.approval.decision.value.id)
           && c.approval.decision.value.parameterDigest == OfParameters(a.terms.parameters)
           && c.approval.request.value.parameterDigest == OfParameters(a.terms.parameters))
  {
    ReachableInv(c);
  }

  /** Everything that must hold at the moment EXECUTING is committed. */
  predicate Admitted(c: Cell, e: Event) {
    && e.Prepare? && c.record.action.state == AwaitingApproval && c.route.Some? && ApprovedRequest(c.approval)
    && c.route.value.enabled && c.route.value == c.approval.request.value.pinned
    && c.approval.request.value.expiresAt > e.inputs.now
    && c.approval.request.value.expiresAt > e.inputs.verifiedAt
    && c.approval.request.value.expiresAt > e.inputs.beforeAt && c.approval.request.value.expiresAt > e.inputs.afterAt
    && c.approval.request.value.parameterDigest == c.record.action.terms.ParameterDigest()
    && c.approval.decision.value.parameterDigest == c.record.action.terms.ParameterDigest()
    && e.inputs.specPermits && e.inputs.connector && e.inputs.pre.valid
    && c.record.action.terms.achievedLevel >= c.record.action.terms.requiredLevel
  }

  /** EXECUTING is entered only with the approval unexpired at every check and its route unchanged and enabled. */
  lemma EnteringExecution(c: Cell, e: Event)
    requires Reachable(c) && c.record.action.state != Executing
    ensures Step(c, e).record.action.state == Executing ==> Admitted(c, e)
  {
    ReachableInv(c);
    if Step(c, e).record.action.state == Executing {
      EnteringIsPreparing(c, e);
      PermitNeeds(c.record, c.approval, c.route, e.inputs);
    }
  }

  /** No writer but an execution commits EXECUTING. */
  lemma OthersDoNotEnter(c: Cell, e: Event)
    requires !e.Prepare? && !e.Direct? && c.record.action.state != Executing
    ensures Step(c, e).record.action.state != Executing
  {
  }

  lemma EnteringIsPreparing(c: Cell, e: Event)
    requires Inv(c) && c.record.action.state != Executing && Step(c, e).record.action.state == Executing
    ensures e.Prepare? && PrepareExecution(c.record, c.approval, c.route, e.inputs).Permitted?
    ensures c.record.action.state == AwaitingApproval && ApprovedRequest(c.approval)
  {
    match e
    case Prepare(_, i) =>
      if c.approval.request.Some? && !IsTerminal(c.record.action.state) {
        PrepareOutcome(c.record, c.approval, c.route, i);
      }
    case Direct(pre, first, second, keep) =>
      if !c.record.action.terms.ApprovalRequired() { DirectOutcome(c, pre, first, second, keep); }
    case _ => OthersDoNotEnter(c, e);
  }

  lemma PermitNeeds(r: Record, p: Approval, route: Option<Policy>, i: Inputs)
    requires r.action.state == AwaitingApproval && r.action.approvalReference.None?
    requires PrepareExecution(r, p, route, i).Permitted?
    ensures p.request.Some? && p.decision.Some? && route.Some?
    ensures route.value.enabled && route.value == p.request.value.pinned
    ensures p.request.value.expiresAt > i.now && p.request.value.expiresAt > i.verifiedAt
    ensures p.request.value.expiresAt > i.beforeAt && p.request.value.expiresAt > i.afterAt
    ensures i.specPermits && i.connector && i.pre.valid
  {
  }

  // ---- Requests, decisions, outcomes ----

  /** First response wins: a closed request and its decision never change again. */
  lemma {:induction false} ClosedIsFinal(c: Cell, es: seq<Event>)
    requires c.approval.request.Some? && c.approval.request.value.state != RequestPending
    ensures Run(c, es).approval == c.approval
  {
    if es != [] {
      ClosedIsFinal(c, es[..|es| - 1]);
      ClosedStays(Run(c, es[..|es| - 1]), es[|es| - 1]);
    }
  }

  lemma ClosedStays(c: Cell, e: Event)
    requires c.approval.request.Some? && c.approval.request.value.state != RequestPending
    ensures Step(c, e).approval == c.approval
  {
  }

  /** A request is APPROVED or REJECTED exactly when a decision says so, and a decision speaks of the action's own parameters. */
  lemma DecisionMatchesRequest(c: Cell)
    requires Reachable(c) && c.approval.request.Some?
    ensures var p := c.approval;
      && (p.request.value.state == RequestApproved <==> p.decision.Some? && p.decision.value.verdict == Approve)
      && (p.request.value.state == RequestRejected <==> p.decision.Some? && p.decision.value.verdict == Reject)
      && (p.decision.Some? ==> p.decision.value.parameterDigest == c.record.action.terms.ParameterDigest())
  {
    ReachableInv(c);
  }

  /** A terminal action is never written again, by anyone. */
  lemma {:induction false} TerminalIsFinal(c: Cell, es: seq<Event>)
    requires Reachable(c) && IsTerminal(c.record.action.state)
    ensures Run(c, es).record == c.record
  {
    ReachableInv(c);
    if es != [] {
      TerminalIsFinal(c, es[..|es| - 1]);
      RunKeeps(c, es[..|es| - 1]);
      TerminalStays(Run(c, es[..|es| - 1]), es[|es| - 1]);
    }
  }

  lemma TerminalStays(c: Cell, e: Event)
    requires Inv(c) && IsTerminal(c.record.action.state)
    ensures Step(c, e).record == c.record
  {
  }

  /**
   A terminal action that went through a request always carries what the customer is told, so
   queueing its result never fails; and success, uncertainty and expiry are told as such.
   */
  lemma OutcomeIsTold(c: Cell)
    requires Reachable(c) && c.approval.request.Some? && IsTerminal(c.record.action.state)
    ensures c.record.action.result.told.Some?
    ensures ToldFaithfully(c.record.action.state, c.record.action.result.told.value)
  {
    ReachableInv(c);
  }

  /**
   What the callers of single-session execution spare themselves by not running it on actions that need
   approval: it would change such an action exactly while a worker executes it, and tell the customer nothing.
   */
  lemma StrayExecutionSettlesIff(c: Cell, pre: Precondition, first: Reply, second: Reply, keep: bool)
    requires Reachable(c) && c.record.action.terms.ApprovalRequired()
    ensures var c' := DirectSpec(c, pre, first, second, keep);
      && (c' != c <==> keep && c.record.action.state == Executing)
      && (c' != c ==> c'.calls == c.calls && c'.record.action.state == Uncertain && c'.record.action.result.told.None?)
  {
    ReachableInv(c);
  }

  /** A request that closed without ending its action. */
  predicate Stranded(c: Cell) {
    && c.approval.request.Some? && c.approval.request.value.state == RequestInvalidated
    && c.record.action.state == AwaitingApproval
  }

  /**
   When the edit of a route strands an action: an event on a pending request does so if and only if it
   looks at the request before the deadline, as a reviewer, a backend call or a decision does, while the
   route is not the one pinned.  The lifecycle job never does.
   */
  lemma StrandsIff(c: Cell, e: Event)
    requires Reachable(c) && c.approval.request.Some? && c.approval.request.value.state == RequestPending
    ensures Stranded(Step(c, e)) <==>
      && (e.Touch? || e.Decide?) && e.at < c.approval.request.value.expiresAt
      && c.route != Some(c.approval.request.value.pinned)
  {
    ReachableInv(c);
    PendingOutcome(c, e);
  }

  /** What any event makes of a pending request and, with it, of the action. */
  function Closes(c: Cell, e: Event): RequestState
    requires c.approval.request.Some?
  {
    var request := c.approval.request.value;
    if !e.Touch? && !e.Decide? && !e.Lapse? then RequestPending
    else if e.at >= request.expiresAt then RequestExpired
    else if e.Lapse? then RequestPending
    else if c.route != Some(request.pinned) then RequestInvalidated
    else if e.Decide? && e.verified then if e.verdict.Approve? then RequestApproved else RequestRejected
    else RequestPending
  }

  lemma PendingOutcome(c: Cell, e: Event)
    requires Inv(c) && c.approval.request.Some? && c.approval.request.value.state == RequestPending
    ensures Step(c, e).approval.request == Some(c.approval.request.value.(state := Closes(c, e)))
    ensures Step(c, e).record.action.state ==
      match Closes(c, e) case RequestExpired => Expired case RequestRejected => Rejected case _ => AwaitingApproval
  {
    if e.Touch? || e.Decide? {
      assert Matches(c.approval.request.value, c.record.action, c.route.value)
        && (c.route == Some(c.approval.request.value.pinned) ==> c.route.value.enabled);
    }
  }

  /** Closing a request in any reachable state ends its action, or leaves it approved and waiting, exactly by this table. */
  lemma RequestAndActionCloseTogether(c: Cell, e: Event)
    requires Reachable(c) && c.approval.request.Some? && c.approval.request.value.state == RequestPending
    ensures Step(c, e).approval.request == Some(c.approval.request.value.(state := Closes(c, e)))
    ensures IsTerminal(Step(c, e).record.action.state) <==> Closes(c, e) == RequestExpired || Closes(c, e) == RequestRejected
  {
    ReachableInv(c);
    PendingOutcome(c, e);
  }

  /** An INVALIDATED request leaves its action in AWAITING_APPROVAL: no later event of any actor moves it on. */
  lemma {:induction false} InvalidatedStrandsTheAction(c: Cell, es: seq<Event>)
    requires Reachable(c) && c.approval.request.Some? && c.approval.request.value.state == RequestInvalidated
    ensures Run(c, es).record.action.state == AwaitingApproval && Run(c, es).approval == c.approval
  {
    ReachableInv(c);
    ClosedIsFinal(c, es);
    RunKeeps(c, es);
  }

  predicate StillWaits(c: Cell, es: seq<Event>) {
    Run(c, es).record.action.state == AwaitingApproval
  }

  /** Once its request is closed, an action waits for ever if and only if the request was INVALIDATED. */
  lemma WaitsForEverIff(c: Cell)
    requires Reachable(c) && c.approval.request.Some? && c.approval.request.value.state != RequestPending
    ensures (forall es: seq<Event> :: StillWaits(c, es)) <==> c.approval.request.value.state == RequestInvalidated
  {
    ReachableInv(c);
    if c.approval.request.value.state == RequestInvalidated {
      forall es: seq<Event> ensures StillWaits(c, es) { InvalidatedStrandsTheAction(c, es); }
    } else {
      var due := c.approval.request.value.expiresAt;
      var late := Inputs(due, true, true, due, due, Precondition(true, Unavailable), due);
      var settle := [Prepare(0, late)];
      assert settle[..0] == [] && Run(c, settle) == Step(c, settle[0]);
      if c.record.action.state == AwaitingApproval {
        assert c.workers == map[];
        assert !StillWaits(c, settle);
      } else {
        var none: seq<Event> := [];
        assert !StillWaits(c, none);
      }
    }
  }

  /** Opening a request satisfies the table's own check that it expires after it was created. */
  lemma OpenedRequestLasts(p: Approval, a: Action, route: Policy, mailer: bool, id: Id, now: Time)
    requires p.request.None? && ValidPolicy(route) && now >= 0
    requires OpenSpec(p, a, Some(route), mailer, id, now).request.Some?
    ensures var request := OpenSpec(p, a, Some(route), mailer, id, now).request.value;
      request.createdAt < request.expiresAt <= now + route.expiresMinutes * MINUTE
  {
    FlooredIsClose(now + route.expiresMinutes * MINUTE);
  }
}
