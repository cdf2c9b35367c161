/**
 What each step of a job's life comes to, told in the row's own columns: who may take the row and when,
 where it goes, that it does go there, and that nothing else moves.
 */
module QueueOutcomes {
  import opened Wrappers
  import opened Clock
  import opened Queue
  import opened QueueRuns

  // ---- Dispatch ----

  /** A new lease takes the row exactly when it is due, or when its dispatcher's lease has run out. */
  lemma ClaimIff(c: Cell, lease: Id, now: Time, expires: Time)
    requires lease !in c.claims
    ensures var j, j' := c.job, Step(c, Claim(lease, now, expires)).job;
      var due := (j.status == Pending || j.status == Failed) && j.availableAt <= now;
      var abandoned := j.status == Dispatching && j.leaseExpiresAt.Some? && j.leaseExpiresAt.value <= now;
      j' == if due || abandoned
            then j.(status := Dispatching, leaseId := Some(lease), leaseExpiresAt := Some(expires)) else j
  {
  }

  /** A job just enqueued is taken by the first dispatcher that looks at or after its instant, and by none before. */
  lemma EnqueuedIsTakenIff(topic: string, aggregate: Option<Id>, at: Time, created: Time, lease: Id, now: Time, expires: Time)
    ensures var j := Step(Fresh(topic, aggregate, at, created), Claim(lease, now, expires)).job;
      (j.leaseId == Some(lease) <==> at <= now) && j.attemptCount == 0 && j.maxAttempts == 5
    ensures var j := Fresh(topic, aggregate, at, created).job;
      j.status == Pending && j.availableAt == at && j.createdAt == created && j.topic == topic && j.aggregate == aggregate
  {
  }

  /** The rows a batch is taken from. */
  lemma CandidatesIff(jobs: map<Id, Job>, kinds: set<string>, now: Time, locked: set<Id>, id: Id)
    ensures id in Candidates(jobs, kinds, now, locked) <==>
      && id in jobs && id !in locked && jobs[id].topic in kinds
      && (|| (jobs[id].status == Pending && jobs[id].availableAt <= now)
          || (jobs[id].status == Failed && jobs[id].availableAt <= now)
          || (jobs[id].status == Dispatching && jobs[id].leaseExpiresAt.Some? && jobs[id].leaseExpiresAt.value <= now))
  {
  }

  /** Claiming a batch leases its rows and leaves every other row alone. */
  lemma OnlyTheBatchIsLeased(jobs: map<Id, Job>, ids: set<Id>, lease: Id, expires: Time, id: Id)
    requires id in jobs
    ensures var jobs' := ClaimedAll(jobs, ids, lease, expires);
      && jobs'.Keys == jobs.Keys && (id !in ids ==> jobs'[id] == jobs[id])
      && (id in ids ==> jobs'[id].status == Dispatching && jobs'[id].leaseId == Some(lease)
                        && jobs'[id].leaseExpiresAt == Some(expires) && jobs'[id].availableAt == jobs[id].availableAt)
  {
  }

  /** The queue's order is total and goes by due instant, then by age, then by id. */
  lemma QueueOrder(a: Job, aId: Id, b: Job, bId: Id)
    ensures NotAfter(a, aId, b, bId) || NotAfter(b, bId, a, aId)
    ensures a.availableAt < b.availableAt ==> !NotAfter(b, bId, a, aId)
    ensures a.availableAt == b.availableAt && a.createdAt < b.createdAt ==> !NotAfter(b, bId, a, aId)
    ensures a.availableAt == b.availableAt && a.createdAt == b.createdAt && aId < bId ==> !NotAfter(b, bId, a, aId)
  {
  }

  /** The ways a dispatcher gives up the lease it holds, each to the column; nothing else of the row changes. */
  lemma LeaseEndsAs(c: Cell, lease: Id, at: Time)
    requires Reachable(c) && c.job.leaseId == Some(lease)
    ensures var j := c.job.(leaseId := None, leaseExpiresAt := None);
      && Step(c, ReleaseHold(lease, at)).job == j.(status := Pending, availableAt := at)
      && Step(c, DispatchFailed(lease, at)).job == j.(status := Failed, availableAt := at)
      && Step(Step(c, HandOver(lease)), MarkQueued(lease)).job == j.(status := Queued)
      && Step(c, HandOver(lease)).job == c.job
  {
    ReachableInv(c);
  }

  /** A batch ends early exactly at a job the queue took although the row no longer carries the lease. */
  lemma LosesLeaseIff(j: Job, id: Id, lease: Id, w: Weather)
    ensures LosesLease(j, id, lease, w) <==>
      && (FateOf(j, id, w) == Sent(true) || FateOf(j, id, w) == Sent(false))
      && (j.status != Dispatching || j.leaseId != Some(lease))
  {
  }

  lemma DispatchedIs(j: Job, id: Id, lease: Id, w: Weather)
    requires j.status == Dispatching && j.leaseId == Some(lease)
    ensures var j' := Dispatched(j, id, lease, w);
      && j'.leaseId.None? && j'.leaseExpiresAt.None? && j'.attempts == j.attempts
      && (FateOf(j, id, w) == Held ==> j'.status == Pending && j'.availableAt == w.holdAt)
      && (FateOf(j, id, w) == Broken ==> j'.status == Failed && j'.availableAt == w.failAt)
      && (FateOf(j, id, w).Sent? ==> j'.status == Queued && j'.availableAt == j.availableAt)
  {
  }

  // ---- Attempts ----

  /** Which rows a worker may start: finished ones are answered, unready and foreign ones refused. */
  lemma StartIff(j: Job, topic: string, aggregate: Id)
    ensures var outcome := StartOutcomeOf(j, topic, aggregate);
      var ready := j.status == Queued || j.status == Failed || j.status == Dispatching;
      var own := j.topic == topic && j.aggregate == Some(aggregate);
      && (outcome == AlreadyComplete <==> j.status == Succeeded || j.status == DeadLetter)
      && (outcome == NotReady <==> j.status == Pending || j.status == Processing)
      && (outcome == Mismatch <==> ready && !own)
      && (outcome.Begun? <==> ready && own)
      && (outcome.Begun? ==> outcome.permit.attempt == j.attemptCount + 1 && outcome.permit.maxAttempts == j.maxAttempts
                             && outcome.permit.budgetAttempt == j.attemptCount + 1 - j.deferralCount)
  {
  }

  /** A started attempt is the next number, running, with no lease left; earlier attempts stay as they were. */
  lemma StartingIs(c: Cell, topic: string, aggregate: Id)
    requires Reachable(c) && StartOutcomeOf(c.job, topic, aggregate).Begun?
    ensures var j, c' := c.job, Step(c, Start(topic, aggregate));
      && c'.job == j.(status := Processing, attemptCount := j.attemptCount + 1, leaseId := None, leaseExpiresAt := None,
                      attempts := j.attempts[j.attemptCount + 1 := Started])
      && c'.open == {Permit(j.attemptCount + 1, j.maxAttempts, j.attemptCount + 1 - j.deferralCount)}
  {
    ReachableInv(c);
  }

  /** What each way of finishing leaves of an owned row, to the column. */
  lemma FinishingIs(c: Cell, p: Permit, code: string, at: Time)
    requires Reachable(c) && p in c.open
    ensures var j := c.job;
      && Step(c, Succeed(p)).job == j.(status := Succeeded, attempts := j.attempts[p.attempt := Completed])
      && Step(c, Defer(p, at)).job == j.(status := Pending, availableAt := at, deferralCount := j.deferralCount + 1,
                                         attempts := j.attempts[p.attempt := Deferred])
      && (var j' := Step(c, Fail(p, code, true, at)).job;
          && j'.status == DeadLetter && j'.attempts == j.attempts[p.attempt := Charged(code)]
          && j'.deadLetter == (if j.deadLetter.None? then Some(DeadLetterRecord(code, true)) else j.deadLetter))
      && (var j' := Step(c, Fail(p, code, false, at)).job;
          j'.status != DeadLetter ==>
            j' == j.(status := Failed, availableAt := at, attempts := j.attempts[p.attempt := Charged(code)]))
  {
    ReachableInv(c);
  }

  /** Whoever no longer owns the row changes no column of it: two of the finishers roll back, the third only keeps its books. */
  lemma StrangerIsSpared(j: Job, p: Permit, code: string, fatal: bool, at: Time)
    requires j.status != Processing || j.attemptCount != p.attempt
    ensures FinishedSuccess(j, p) == j && FinishedDeferred(j, p, at) == j
    ensures var j' := FinishedFailure(j, p, code, fatal, at);
      && j' == j.(attempts := j'.attempts, deadLetter := j'.deadLetter) && j'.attempts.Keys == j.attempts.Keys
      && (forall n :: n in j.attempts ==> j'.attempts[n] == if n == p.attempt then Charged(code) else j.attempts[n])
      && (j.deadLetter.Some? ==> j'.deadLetter == j.deadLetter)
      && (j.deadLetter.None? && j'.deadLetter.Some? <==> j.deadLetter.None? && (fatal || p.budgetAttempt >= p.maxAttempts))
  {
  }

  /** How the runner reports an attempt is how the row stands; a cancellation is charged, but is not fatal. */
  lemma EndingOutcome(j: Job, topic: string, aggregate: Id, end: Ending, retryAt: Time)
    requires StartOutcomeOf(j, topic, aggregate).Begun?
    ensures var p := StartOutcomeOf(j, topic, aggregate).permit;
      var (j', status) := EndedAs(Begin(j), p, end, retryAt);
      var spent := j.attemptCount + 1 - j.deferralCount >= j.maxAttempts;
      && (status == RunSucceeded <==> j'.status == Succeeded) && (status == RunSucceeded <==> end.Returned?)
      && (status == RunDeferred <==> j'.status == Pending) && (status == RunDeferred <==> end.Deferral?)
      && (status == RunRetry <==> j'.status == Failed) && (status == RunDeadLetter <==> j'.status == DeadLetter)
      && (status == RunDeadLetter <==> (end.Cancelled? && spent) || (end.Raised? && (!end.retryable || spent)))
      && (end.Deferral? ==> j'.availableAt == end.at) && (status == RunRetry ==> j'.availableAt == retryAt)
      && (end.Cancelled? ==> j'.attempts[p.attempt] == Charged(CANCELLED))
      && (end.Raised? ==> j'.attempts[p.attempt] == Charged(end.code))
  {
  }

  // ---- Operators ----

  /**
   What an operator's action does to any row: it needs an open record, a retry a dead-lettered row the CHECKs
   would accept with room for one more attempt; and it closes the record, which a retry alone does not stop at.
   */
  lemma OperatedIff(j: Job, a: OperatorAction, now: Time)
    ensures var j' := Operated(j, a, now);
      var room := if j.attemptCount < j.maxAttempts then j.maxAttempts else j.attemptCount + 1;
      var accepted := 0 <= j.deferralCount <= j.attemptCount && j.attemptCount - j.deferralCount <= room && 1 <= room <= 100;
      var allowed := j.deadLetter.Some? && j.deadLetter.value.open && (a == Retry ==> j.status == DeadLetter && accepted);
      && (j' != j <==> allowed)
      && (allowed ==> j'.deadLetter == Some(j.deadLetter.value.(open := false)) && j'.attempts == j.attempts
                      && j'.attemptCount == j.attemptCount && j'.deferralCount == j.deferralCount)
      && (allowed && a != Retry ==> j' == j.(deadLetter := j'.deadLetter))
      && (allowed && a == Retry ==> j'.status == Pending && j'.availableAt == now && j'.maxAttempts == room
                                    && j'.leaseId.None? && j'.leaseExpiresAt.None?)
  {
  }
}
