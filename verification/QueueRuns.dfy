/**
 Every interleaving of dispatchers, workers and operators over the outbox, as event sequences.
 An actor that crashes is one whose next event never comes.  The conversation lock around a
 worker is not assumed: nothing here needs it.
 */
module QueueRuns {
  import opened Wrappers
  import opened Clock
  import opened Queue

  /** A job with what its actors remember: leases claimed, leases that handed it to the queue, open permits. */
  datatype Cell = Cell(job: Job, claims: set<Id>, sent: set<Id>, open: set<Permit>)

  datatype Event =
    | Claim(lease: Id, now: Time, expires: Time)
    | HandOver(lease: Id)
    | ReleaseHold(lease: Id, at: Time)
    | MarkQueued(lease: Id)
    | DispatchFailed(lease: Id, at: Time)
    | Start(topic: string, aggregate: Id)
    | Defer(permit: Permit, at: Time)
    | Succeed(permit: Permit)
    | Fail(permit: Permit, code: string, fatal: bool, at: Time)
    | Operate(action: OperatorAction, now: Time)

  function Step(c: Cell, e: Event): Cell {
    match e
    case Claim(lease, now, expires) =>
      if lease !in c.claims && Claimable(c.job, now)
      then c.(job := Claimed(c.job, lease, expires), claims := c.claims + {lease}) else c
    case HandOver(lease) => if lease in c.claims then c.(sent := c.sent + {lease}) else c
    case ReleaseHold(lease, at) => if lease in c.claims then c.(job := Released(c.job, lease, at)) else c
    case MarkQueued(lease) => if lease in c.sent then c.(job := Marked(c.job, lease)) else c
    case DispatchFailed(lease, at) => if lease in c.claims then c.(job := Refused(c.job, lease, at)) else c
    case Start(topic, aggregate) =>
      var outcome := StartOutcomeOf(c.job, topic, aggregate);
      if outcome.Begun? then c.(job := Begin(c.job), open := c.open + {outcome.permit}) else c
    case Defer(p, at) =>
      if p in c.open then c.(job := FinishedDeferred(c.job, p, at), open := c.open - {p}) else c
    case Succeed(p) =>
      if p in c.open then c.(job := FinishedSuccess(c.job, p), open := c.open - {p}) else c
    case Fail(p, code, fatal, at) =>
      if p in c.open then c.(job := FinishedFailure(c.job, p, code, fatal, at), open := c.open - {p}) else c
    case Operate(a, now) => c.(job := Operated(c.job, a, now))
  }

  function Run(c: Cell, es: seq<Event>): Cell {
    if es == [] then c else Step(Run(c, es[..|es| - 1]), es[|es| - 1])
  }

  function Fresh(topic: string, aggregate: Option<Id>, at: Time, created: Time): Cell {
    Cell(NewJob(topic, aggregate, at, created), {}, {}, {})
  }

  // ---- The invariant ----

  /** How many of attempts 1..n were charged to the retry budget. */
  function ChargedUpTo(m: map<int, Attempt>, n: int): nat
    decreases n
  {
    if n <= 0 then 0 else ChargedUpTo(m, n - 1) + if n in m && m[n].Charged? then 1 else 0
  }

  ghost predicate LeaseInv(c: Cell) {
    && (c.job.leaseId.Some? <==> c.job.status == Dispatching)
    && (c.job.leaseExpiresAt.Some? <==> c.job.status == Dispatching)
    && (c.job.leaseId.Some? ==> c.job.leaseId.value in c.claims)
    && c.sent <= c.claims
    && (c.job.status == Queued ==> c.sent != {})
  }

  /** Attempts are numbered 1..attemptCount; only the last can be anything but failed. */
  ghost predicate AttemptInv(j: Job) {
    && 0 <= j.deferralCount <= j.attemptCount
    && (forall k :: k in j.attempts <==> 1 <= k <= j.attemptCount)
    && (forall k :: 1 <= k < j.attemptCount ==> j.attempts[k].Charged? || j.attempts[k].Deferred?)
    && (j.status == Processing <==> j.attemptCount > 0 && j.attempts[j.attemptCount].Started?)
    && (j.status == Succeeded <==> j.attemptCount > 0 && j.attempts[j.attemptCount].Completed?)
  }

  ghost predicate OwnerInv(c: Cell) {
    && (forall p :: p in c.open ==>
         p == Permit(c.job.attemptCount, c.job.maxAttempts, c.job.attemptCount - c.job.deferralCount))
    && (c.job.status == Processing <==> c.open != {})
  }

  ghost predicate BudgetInv(j: Job)
    requires AttemptInv(j)
  {
    var charged := ChargedUpTo(j.attempts, j.attemptCount);
    && j.attemptCount == j.deferralCount + charged + (if j.status in {Processing, Succeeded} then 1 else 0)
    && charged <= j.maxAttempts
    && (j.status != DeadLetter ==> charged < j.maxAttempts)
    && DEFAULT_MAX_ATTEMPTS <= j.maxAttempts <= DEFAULT_MAX_ATTEMPTS + 1 + j.deferralCount
    && j.maxAttempts <= MAX_ATTEMPTS_LIMIT
  }

  ghost predicate DeadLetterInv(j: Job) {
    && (j.deadLetter.None? || j.deadLetter.value.open ==>
         (j.deadLetter.Some? <==> j.status == DeadLetter) && j.maxAttempts == DEFAULT_MAX_ATTEMPTS)
    && (j.status == DeadLetter ==> j.deadLetter.Some?)
  }

  ghost predicate Inv(c: Cell) {
    LeaseInv(c) && AttemptInv(c.job) && OwnerInv(c) && BudgetInv(c.job) && DeadLetterInv(c.job)
  }

  lemma {:induction false} ChargedFrame(m: map<int, Attempt>, m': map<int, Attempt>, n: nat)
    requires forall k :: 1 <= k <= n ==> (k in m <==> k in m') && (k in m ==> m[k] == m'[k])
    ensures ChargedUpTo(m, n) == ChargedUpTo(m', n)
  {
    if n > 0 { ChargedFrame(m, m', n - 1); }
  }

  lemma StepKeepsDispatch(c: Cell, e: Event)
    requires Inv(c) && (e.Claim? || e.HandOver? || e.ReleaseHold? || e.MarkQueued? || e.DispatchFailed?)
    ensures Inv(Step(c, e))
  {
  }

  lemma StepKeepsStart(c: Cell, e: Event)
    requires Inv(c) && e.Start?
    ensures Inv(Step(c, e))
  {
    var j, j' := c.job, Step(c, e).job;
    ChargedFrame(j.attempts, j'.attempts, j.attemptCount);
  }

  lemma StepKeepsFinish(c: Cell, e: Event)
    requires Inv(c) && (e.Defer? || e.Succeed?)
    ensures Inv(Step(c, e))
  {
    var j, j' := c.job, Step(c, e).job;
    if e.permit in c.open {
      assert c.open == {e.permit};
      assert j.attemptCount > 0;
      ChargedFrame(j.attempts, j'.attempts, j.attemptCount - 1);
    }
  }

  lemma StepKeepsFailure(c: Cell, e: Event)
    requires Inv(c) && e.Fail?
    ensures Inv(Step(c, e))
  {
    var j, j' := c.job, Step(c, e).job;
    if e.permit in c.open {
      assert c.open == {e.permit};
      assert j.attemptCount > 0;
      ChargedFrame(j.attempts, j'.attempts, j.attemptCount - 1);
    }
  }

  lemma {:induction false} ChargedBound(m: map<int, Attempt>, n: nat)
    ensures ChargedUpTo(m, n) <= n
  {
    if n > 0 { ChargedBound(m, n - 1); }
  }

  lemma StepKeepsOperate(c: Cell, e: Event)
    requires Inv(c) && e.Operate?
    ensures Inv(Step(c, e))
  {
    ChargedBound(c.job.attempts, c.job.attemptCount);
  }

  lemma StepKeeps(c: Cell, e: Event)
    requires Inv(c)
    ensures Inv(Step(c, e))
  {
    if e.Start? { StepKeepsStart(c, e); }
    else if e.Operate? { StepKeepsOperate(c, e); }
    else if e.Defer? || e.Succeed? { StepKeepsFinish(c, e); }
    else if e.Fail? { StepKeepsFailure(c, e); }
    else { StepKeepsDispatch(c, e); }
  }

  lemma {:induction false} RunKeeps(c: Cell, es: seq<Event>)
    requires Inv(c)
    ensures Inv(Run(c, es))
  {
    if es != [] {
      RunKeeps(c, es[..|es| - 1]);
      StepKeeps(Run(c, es[..|es| - 1]), es[|es| - 1]);
    }
  }

  /** Every row reachable from an enqueue satisfies the invariant, in every interleaving. */
  lemma EveryRunIsSafe(topic: string, aggregate: Option<Id>, at: Time, created: Time, es: seq<Event>)
    ensures Inv(Run(Fresh(topic, aggregate, at, created), es))
  {
    RunKeeps(Fresh(topic, aggregate, at, created), es);
  }

  // ---- What follows for whole runs ----

  ghost predicate Reachable(c: Cell) {
    exists topic: string, aggregate: Option<Id>, at: Time, created: Time, es: seq<Event> ::
      c == Run(Fresh(topic, aggregate, at, created), es)
  }

  lemma ReachableInv(c: Cell)
    requires Reachable(c)
    ensures Inv(c)
  {
    var topic: string, aggregate: Option<Id>, at: Time, created: Time, es: seq<Event> :| c == Run(Fresh(topic, aggregate, at, created), es);
    EveryRunIsSafe(topic, aggregate, at, created, es);
  }

  /**
   A processing row has exactly one open permit, numbered attempt_count; the earlier attempts are
   all failed; and whatever changes the row is that permit being finished.
   */
  lemma OneAttemptInFlight(c: Cell, e: Event)
    requires Reachable(c)
    ensures c.job.status == Processing <==> c.open != {}
    ensures forall p, q :: p in c.open && q in c.open ==> p == q && Owns(c.job, p.attempt)
    ensures forall k :: 1 <= k < c.job.attemptCount ==>
      k in c.job.attempts && (c.job.attempts[k].Charged? || c.job.attempts[k].Deferred?)
    ensures c.job.status == Processing && Step(c, e).job != c.job ==>
      (e.Defer? || e.Succeed? || e.Fail?) && c.open == {e.permit}
  {
    ReachableInv(c);
    if c.job.status == Processing && (e.Defer? || e.Succeed? || e.Fail?) && e.permit in c.open {
      assert c.open == {e.permit};
    }
  }

  /** attempt_count is accounted for exactly, and the charged part never exceeds the budget. */
  lemma BudgetIsExact(c: Cell)
    requires Reachable(c)
    ensures c.job.attemptCount == c.job.deferralCount + ChargedUpTo(c.job.attempts, c.job.attemptCount)
      + (if c.job.status in {Processing, Succeeded} then 1 else 0)
    ensures ChargedUpTo(c.job.attempts, c.job.attemptCount) <= c.job.maxAttempts
    ensures c.job.status != DeadLetter ==>
      ChargedUpTo(c.job.attempts, c.job.attemptCount) < c.job.maxAttempts
    ensures ChecksHold(c.job)
  {
    ReachableInv(c);
  }

  /**
   The one update the database can refuse: an operator's retry of a dead-lettered job takes effect if
   and only if the record is still open and the job has had fewer than 100 attempts, deferrals included.
   */
  lemma RetryTakesEffectIff(c: Cell, now: Time)
    requires Reachable(c) && c.job.status == DeadLetter
    ensures Step(c, Operate(Retry, now)).job.status == Pending
      <==> c.job.deadLetter.Some? && c.job.deadLetter.value.open && c.job.attemptCount < MAX_ATTEMPTS_LIMIT
    ensures Step(c, Operate(Retry, now)).job.status != Pending ==> Step(c, Operate(Retry, now)) == c
  {
    ReachableInv(c);
  }

  /** A failed attempt dead-letters the job exactly when it is fatal or uses up the budget; otherwise the job can be retried. */
  lemma DeadLetteredExactlyAtBudget(c: Cell, e: Event)
    requires Reachable(c) && e.Fail? && e.permit in c.open
    ensures var j, j' := c.job, Step(c, e).job;
      j'.status == if e.fatal || ChargedUpTo(j.attempts, j.attemptCount) + 1 >= j.maxAttempts then DeadLetter else Failed
    ensures ChargedUpTo(Step(c, e).job.attempts, c.job.attemptCount) == ChargedUpTo(c.job.attempts, c.job.attemptCount) + 1
  {
    ReachableInv(c);
    ChargedFrame(c.job.attempts, Step(c, e).job.attempts, c.job.attemptCount - 1);
  }

  /** A deferral costs nothing: the budget is as before, and the job is claimable again when it is due. */
  lemma DeferralIsFree(c: Cell, p: Permit, at: Time)
    requires Reachable(c) && p in c.open
    ensures var j, j' := c.job, Step(c, Defer(p, at)).job;
      && ChargedUpTo(j'.attempts, j'.attemptCount) == ChargedUpTo(j.attempts, j.attemptCount)
      && j'.attemptCount - j'.deferralCount == j.attemptCount - j.deferralCount - 1
      && Claimable(j', at)
  {
    ReachableInv(c);
    ChargedFrame(c.job.attempts, Step(c, Defer(p, at)).job.attempts, c.job.attemptCount - 1);
  }

  /** Whatever sets a job back (a hold, a failed hand-over, a deferral, a failed attempt) also sets when it is due: no claim takes it earlier. */
  lemma SetBackJobWaits(c: Cell, e: Event, lease: Id, now: Time, expires: Time)
    requires Reachable(c) && (e.ReleaseHold? || e.DispatchFailed? || e.Defer? || e.Fail?) && now < e.at
    ensures var j, c' := c.job, Step(c, e);
      c'.job.status != j.status ==> Step(c', Claim(lease, now, expires)) == c'
  {
    ReachableInv(c);
  }

  /** And once that instant has come, a claim under a new lease takes it: no job that was set back is forgotten. */
  lemma SetBackJobReturns(c: Cell, e: Event, lease: Id, now: Time, expires: Time)
    requires Reachable(c) && (e.ReleaseHold? || e.DispatchFailed? || e.Defer? || e.Fail?) && now >= e.at
    requires Step(c, e).job.status != c.job.status && Step(c, e).job.status != DeadLetter && lease !in c.claims
    ensures var j, j' := Step(c, e).job, Step(Step(c, e), Claim(lease, now, expires)).job;
      j'.status == Dispatching && j'.leaseId == Some(lease) && j'.leaseExpiresAt == Some(expires)
      && j'.attemptCount == j.attemptCount && j'.attempts == j.attempts
  {
    ReachableInv(c);
  }

  function Deferrals(es: seq<Event>): nat {
    if es == [] then 0 else Deferrals(es[..|es| - 1]) + if es[|es| - 1].Defer? then 1 else 0
  }

  lemma {:induction false} DeferralsCount(c: Cell, es: seq<Event>)
    ensures Run(c, es).job.deferralCount <= c.job.deferralCount + Deferrals(es)
  {
    if es != [] { DeferralsCount(c, es[..|es| - 1]); }
  }

  /**
   However a run interleaves, it starts at most five attempts plus one per deferral until an operator
   closes the record, and at most six plus two per deferral ever.
   */
  lemma AttemptsAreBounded(topic: string, aggregate: Option<Id>, at: Time, created: Time, es: seq<Event>)
    ensures var j := Run(Fresh(topic, aggregate, at, created), es).job;
      && j.attemptCount <= DEFAULT_MAX_ATTEMPTS + 1 + 2 * Deferrals(es)
      && (j.deadLetter.None? || j.deadLetter.value.open ==> j.attemptCount <= DEFAULT_MAX_ATTEMPTS + Deferrals(es))
  {
    EveryRunIsSafe(topic, aggregate, at, created, es);
    DeferralsCount(Fresh(topic, aggregate, at, created), es);
  }

  predicate Retries(es: seq<Event>) {
    exists i :: 0 <= i < |es| && es[i].Operate? && es[i].action.Retry?
  }

  /** succeeded is absorbing: no later event of any actor changes the row. */
  lemma {:induction false} SucceededIsFinal(c: Cell, es: seq<Event>)
    requires Reachable(c) && c.job.status == Succeeded
    ensures Run(c, es).job == c.job
  {
    ReachableInv(c);
    if es != [] {
      var before := Run(c, es[..|es| - 1]);
      SucceededIsFinal(c, es[..|es| - 1]);
      RunKeeps(c, es[..|es| - 1]);
      assert before.open == {};
    }
  }

  /** dead_letter is left only by an operator's retry. */
  lemma {:induction false} DeadLetterIsFinal(c: Cell, es: seq<Event>)
    requires Reachable(c) && c.job.status == DeadLetter && !Retries(es)
    ensures Run(c, es).job == c.job.(deadLetter := Run(c, es).job.deadLetter)
  {
    ReachableInv(c);
    if es != [] {
      var rest := es[..|es| - 1];
      assert forall i :: 0 <= i < |rest| ==> rest[i] == es[i];
      DeadLetterIsFinal(c, rest);
      RunKeeps(c, rest);
      assert Run(c, rest).open == {};
    }
  }

  /**
   Although the dead-letter insert tests nothing, until an operator closes the record it exists
   exactly for dead_letter rows.
   */
  lemma DeadLetterRecordIsExact(c: Cell)
    requires Reachable(c)
    ensures c.job.deadLetter.None? || c.job.deadLetter.value.open ==>
      (c.job.deadLetter.Some? <==> c.job.status == DeadLetter)
    ensures c.job.status == DeadLetter ==> c.job.deadLetter.Some?
  {
    ReachableInv(c);
  }

  predicate WithinReach(j: Job) {
    j.deadLetter.Some? && j.deadLetter.value.open && j.attemptCount < MAX_ATTEMPTS_LIMIT
  }

  lemma {:induction false} StaysDead(c: Cell, es: seq<Event>)
    requires Inv(c) && c.job.status == DeadLetter && !WithinReach(c.job)
    ensures Run(c, es).job.status == DeadLetter && !WithinReach(Run(c, es).job)
  {
    if es != [] {
      StaysDead(c, es[..|es| - 1]);
      RunKeeps(c, es[..|es| - 1]);
      assert Run(c, es[..|es| - 1]).open == {};
    }
  }

  predicate EndsDead(c: Cell, es: seq<Event>) {
    Run(c, es).job.status == DeadLetter
  }

  /** A dead-lettered job stays dead in every run exactly when its record is closed or it has had 100 attempts. */
  lemma OutOfReachIff(c: Cell)
    requires Reachable(c) && c.job.status == DeadLetter
    ensures (forall es: seq<Event> :: EndsDead(c, es)) <==> !WithinReach(c.job)
  {
    ReachableInv(c);
    if WithinReach(c.job) {
      var retry := [Operate(Retry, 0)];
      RetryTakesEffectIff(c, 0);
      assert retry[..0] == [] && Run(c, retry) == Step(c, retry[0]);
      assert !EndsDead(c, retry);
    } else {
      forall es: seq<Event> ensures EndsDead(c, es) { StaysDead(c, es); }
    }
  }

  /**
   ON CONFLICT DO NOTHING never reopens a record: once an operator has closed it, no operator
   action ever changes the job again, however often it is dead-lettered.
   */
  lemma {:induction false} ClosedRecordIsNeverReopened(c: Cell, es: seq<Event>, a: OperatorAction, now: Time)
    requires c.job.deadLetter.Some? && !c.job.deadLetter.value.open
    ensures Run(c, es).job.deadLetter == c.job.deadLetter
    ensures Operated(Run(c, es).job, a, now) == Run(c, es).job
  {
    if es != [] { ClosedRecordIsNeverReopened(c, es[..|es| - 1], a, now); }
  }

  /**
   A dispatcher whose lease the row no longer carries (superseded, released, or the job already
   started) can change nothing for ever after, not even through the status-free hold release.
   */
  lemma {:induction false} StaleLeaseIsPowerless(c: Cell, lease: Id, es: seq<Event>, at: Time)
    requires lease in c.claims && c.job.leaseId != Some(lease)
    ensures lease in Run(c, es).claims
    ensures var j := Run(c, es).job;
      Marked(j, lease) == j && Refused(j, lease, at) == j && Released(j, lease, at) == j
  {
    LeaseNeverReturns(c, lease, es);
  }

  lemma {:induction false} LeaseNeverReturns(c: Cell, lease: Id, es: seq<Event>)
    requires lease in c.claims && c.job.leaseId != Some(lease)
    ensures lease in Run(c, es).claims && Run(c, es).job.leaseId != Some(lease)
  {
    if es != [] { LeaseNeverReturns(c, lease, es[..|es| - 1]); }
  }

  /** The lease is set exactly while dispatching, and a row becomes queued only by the lease that handed it over and still holds it. */
  lemma LeaseMarksDispatching(c: Cell, e: Event)
    requires Reachable(c)
    ensures c.job.leaseId.Some? <==> c.job.status == Dispatching
    ensures c.job.leaseExpiresAt.Some? <==> c.job.status == Dispatching
    ensures c.job.status == Queued ==> c.sent != {} && c.sent <= c.claims
    ensures c.job.status != Queued && Step(c, e).job.status == Queued ==>
      e.MarkQueued? && e.lease in c.sent && HoldsLease(c.job, e.lease)
  {
    ReachableInv(c);
  }

  /** Whatever its dispatcher does or fails to do, a dispatching row can be claimed once its lease expires. */
  lemma CrashedDispatcherIsReplaced(c: Cell, lease: Id, now: Time, expires: Time)
    requires Reachable(c) && c.job.status == Dispatching && lease !in c.claims
    requires c.job.leaseExpiresAt.Some? ==> now >= c.job.leaseExpiresAt.value
    ensures HoldsLease(Step(c, Claim(lease, now, expires)).job, lease)
    ensures forall other :: other in c.claims ==>
      Marked(Step(c, Claim(lease, now, expires)).job, other) == Step(c, Claim(lease, now, expires)).job
  {
    ReachableInv(c);
  }
}
