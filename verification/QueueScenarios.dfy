/**
 Runs from an enqueue that put a job out of its operators' reach: one retried once and dead again,
 and one deferred 99 times before its first failure.
 */
module QueueScenarios {
  import opened Wrappers
  import opened Clock
  import opened Queue
  import opened QueueRuns

  lemma {:induction false} RunAppends(c: Cell, es: seq<Event>, fs: seq<Event>)
    ensures Run(c, es + fs) == Run(Run(c, es), fs)
  {
    if fs == [] {
      assert es + fs == es;
    } else {
      var init := fs[..|fs| - 1];
      RunAppends(c, es, init);
      assert (es + fs)[..|es + fs| - 1] == es + init;
    }
  }

  lemma RunOne(c: Cell, e: Event)
    ensures Run(c, [e]) == Step(c, e)
  {
    assert [e][..0] == [];
  }

  /** One attempt: claimed under lease n, started straight from the queue, and ended by `end`. */
  function AttemptRun(n: nat, at: Time, topic: string, aggregate: Id, end: Event): seq<Event> {
    [Claim(n, at, at)] + [Start(topic, aggregate)] + [end]
  }

  lemma AttemptSteps(c: Cell, n: nat, at: Time, topic: string, aggregate: Id, end: Event)
    ensures Run(c, AttemptRun(n, at, topic, aggregate, end)) == Step(Step(Step(c, Claim(n, at, at)), Start(topic, aggregate)), end)
  {
    RunOne(c, Claim(n, at, at));
    RunAppends(c, [Claim(n, at, at)], [Start(topic, aggregate)]);
    RunOne(Step(c, Claim(n, at, at)), Start(topic, aggregate));
    RunAppends(c, [Claim(n, at, at)] + [Start(topic, aggregate)], [end]);
    RunOne(Step(Step(c, Claim(n, at, at)), Start(topic, aggregate)), end);
  }

  /** A job that can be claimed at `at`, after n attempts of which d were deferred. */
  predicate Waiting(c: Cell, topic: string, aggregate: Id, at: Time, n: nat, d: nat, max: nat) {
    && (c.job.status == Pending || c.job.status == Failed) && c.job.availableAt == at
    && c.job.topic == topic && c.job.aggregate == Some(aggregate)
    && c.job.attemptCount == n && c.job.deferralCount == d && c.job.maxAttempts == max
    && c.open == {} && forall lease :: lease in c.claims ==> lease < n
  }

  /** The permit the next attempt gets. */
  function NextPermit(n: nat, d: nat, max: nat): Permit {
    Permit(n + 1, max, n + 1 - d)
  }

  lemma DeferOnce(c: Cell, topic: string, aggregate: Id, at: Time, n: nat, d: nat, max: nat)
    requires Waiting(c, topic, aggregate, at, n, d, max)
    ensures var c' := Run(c, AttemptRun(n, at, topic, aggregate, Defer(NextPermit(n, d, max), at)));
      Waiting(c', topic, aggregate, at, n + 1, d + 1, max) && c'.job.deadLetter == c.job.deadLetter
  {
    AttemptSteps(c, n, at, topic, aggregate, Defer(NextPermit(n, d, max), at));
  }

  /** A failure that is not the last leaves the job waiting; the last, or a fatal one, dead-letters it. */
  lemma FailOnce(c: Cell, topic: string, aggregate: Id, at: Time, n: nat, d: nat, max: nat, code: string, fatal: bool)
    requires Waiting(c, topic, aggregate, at, n, d, max)
    ensures var c' := Run(c, AttemptRun(n, at, topic, aggregate, Fail(NextPermit(n, d, max), code, fatal, at)));
      if fatal || n + 1 - d >= max then
        && c'.job.status == DeadLetter && c'.job.attemptCount == n + 1 && c'.job.maxAttempts == max
        && c'.job.deadLetter == (if c.job.deadLetter.Some? then c.job.deadLetter else Some(DeadLetterRecord(code, true)))
        && c'.job.topic == topic && c'.job.aggregate == Some(aggregate) && c'.job.deferralCount == d
        && c'.open == {} && (forall lease :: lease in c'.claims ==> lease < n + 1)
      else Waiting(c', topic, aggregate, at, n + 1, d, max) && c'.job.deadLetter == c.job.deadLetter
  {
    AttemptSteps(c, n, at, topic, aggregate, Fail(NextPermit(n, d, max), code, fatal, at));
  }

  // ---- Deferred n times ----

  function Deferring(topic: string, aggregate: Id, at: Time, n: nat): seq<Event> {
    if n == 0 then []
    else
      var end := Defer(NextPermit(n - 1, n - 1, DEFAULT_MAX_ATTEMPTS), at);
      Deferring(topic, aggregate, at, n - 1) + AttemptRun(n - 1, at, topic, aggregate, end)
  }

  lemma {:induction false} DeferringWaits(topic: string, aggregate: Id, at: Time, created: Time, n: nat)
    ensures var c := Run(Fresh(topic, Some(aggregate), at, created), Deferring(topic, aggregate, at, n));
      Waiting(c, topic, aggregate, at, n, n, DEFAULT_MAX_ATTEMPTS) && c.job.deadLetter.None?
  {
    if n > 0 {
      var start := Fresh(topic, Some(aggregate), at, created);
      DeferringWaits(topic, aggregate, at, created, n - 1);
      RunAppends(start, Deferring(topic, aggregate, at, n - 1),
        AttemptRun(n - 1, at, topic, aggregate, Defer(NextPermit(n - 1, n - 1, DEFAULT_MAX_ATTEMPTS), at)));
      DeferOnce(Run(start, Deferring(topic, aggregate, at, n - 1)), topic, aggregate, at, n - 1, n - 1, DEFAULT_MAX_ATTEMPTS);
    }
  }

  /** n free deferrals and then one fatal failure: an operator can retry the job exactly when n is below 99. */
  lemma DeferredJobIsRetriableIff(topic: string, aggregate: Id, at: Time, created: Time, n: nat, code: string, now: Time)
    ensures var start, es := Fresh(topic, Some(aggregate), at, created), Deferring(topic, aggregate, at, n)
        + AttemptRun(n, at, topic, aggregate, Fail(NextPermit(n, n, DEFAULT_MAX_ATTEMPTS), code, true, at));
      var c := Run(start, es);
      && c.job.status == DeadLetter && c.job.attemptCount == n + 1
      && c.job.deadLetter == Some(DeadLetterRecord(code, true))
      && (Step(c, Operate(Retry, now)).job.status == Pending <==> n < 99)
  {
    var start, es := Fresh(topic, Some(aggregate), at, created), Deferring(topic, aggregate, at, n)
      + AttemptRun(n, at, topic, aggregate, Fail(NextPermit(n, n, DEFAULT_MAX_ATTEMPTS), code, true, at));
    DeferringWaits(topic, aggregate, at, created, n);
    RunAppends(start, Deferring(topic, aggregate, at, n),
      AttemptRun(n, at, topic, aggregate, Fail(NextPermit(n, n, DEFAULT_MAX_ATTEMPTS), code, true, at)));
    FailOnce(Run(start, Deferring(topic, aggregate, at, n)), topic, aggregate, at, n, n, DEFAULT_MAX_ATTEMPTS, code, true);
    assert Reachable(Run(start, es));
    RetryTakesEffectIff(Run(start, es), now);
  }

  // ---- Dead, retried, dead again ----

  function Failing(topic: string, aggregate: Id, at: Time, code: string, n: nat): seq<Event> {
    if n == 0 then []
    else
      var end := Fail(NextPermit(n - 1, 0, DEFAULT_MAX_ATTEMPTS), code, false, at);
      Failing(topic, aggregate, at, code, n - 1) + AttemptRun(n - 1, at, topic, aggregate, end)
  }

  /** One more failed attempt after a run that left the job waiting. */
  lemma FailsOnceMore(start: Cell, es: seq<Event>, topic: string, aggregate: Id, at: Time, code: string, n: nat)
    requires n + 1 < DEFAULT_MAX_ATTEMPTS && Waiting(Run(start, es), topic, aggregate, at, n, 0, DEFAULT_MAX_ATTEMPTS)
    requires Run(start, es).job.deadLetter.None?
    ensures var end := Fail(NextPermit(n, 0, DEFAULT_MAX_ATTEMPTS), code, false, at);
      var c := Run(start, es + AttemptRun(n, at, topic, aggregate, end));
      Waiting(c, topic, aggregate, at, n + 1, 0, DEFAULT_MAX_ATTEMPTS) && c.job.deadLetter.None?
  {
    var end := Fail(NextPermit(n, 0, DEFAULT_MAX_ATTEMPTS), code, false, at);
    RunAppends(start, es, AttemptRun(n, at, topic, aggregate, end));
    FailOnce(Run(start, es), topic, aggregate, at, n, 0, DEFAULT_MAX_ATTEMPTS, code, false);
  }

  lemma {:induction false} FailingWaits(topic: string, aggregate: Id, at: Time, created: Time, code: string, n: nat)
    requires n < DEFAULT_MAX_ATTEMPTS
    ensures var c := Run(Fresh(topic, Some(aggregate), at, created), Failing(topic, aggregate, at, code, n));
      Waiting(c, topic, aggregate, at, n, 0, DEFAULT_MAX_ATTEMPTS) && c.job.deadLetter.None?
  {
    if n > 0 {
      FailingWaits(topic, aggregate, at, created, code, n - 1);
      FailsOnceMore(Fresh(topic, Some(aggregate), at, created), Failing(topic, aggregate, at, code, n - 1),
                    topic, aggregate, at, code, n - 1);
    }
  }

  /** Five failures, a retry, and the sixth failure. */
  function DyingTwice(topic: string, aggregate: Id, at: Time, code: string): seq<Event> {
    Failing(topic, aggregate, at, code, 5) + [Operate(Retry, at)]
      + AttemptRun(5, at, topic, aggregate, Fail(NextPermit(5, 0, 6), code, false, at))
  }

  lemma FiveFailuresKill(topic: string, aggregate: Id, at: Time, created: Time, code: string)
    ensures var c := Run(Fresh(topic, Some(aggregate), at, created), Failing(topic, aggregate, at, code, 5));
      Buried(c, topic, aggregate, 5) && c.job.deadLetter == Some(DeadLetterRecord(code, true))
  {
    var start, four := Fresh(topic, Some(aggregate), at, created), Failing(topic, aggregate, at, code, 4);
    FailingWaits(topic, aggregate, at, created, code, 4);
    RunAppends(start, four, AttemptRun(4, at, topic, aggregate, Fail(NextPermit(4, 0, DEFAULT_MAX_ATTEMPTS), code, false, at)));
    FailOnce(Run(start, four), topic, aggregate, at, 4, 0, DEFAULT_MAX_ATTEMPTS, code, false);
  }

  /** Dead after n attempts, none of them deferred or still open. */
  predicate Buried(c: Cell, topic: string, aggregate: Id, n: nat) {
    && c.job.status == DeadLetter && c.job.attemptCount == n == c.job.maxAttempts && c.job.deferralCount == 0
    && c.job.topic == topic && c.job.aggregate == Some(aggregate)
    && c.open == {} && forall lease :: lease in c.claims ==> lease < n
  }

  lemma RetryRevives(c: Cell, topic: string, aggregate: Id, at: Time, code: string)
    requires Buried(c, topic, aggregate, 5) && c.job.deadLetter == Some(DeadLetterRecord(code, true))
    ensures var c' := Step(c, Operate(Retry, at));
      Waiting(c', topic, aggregate, at, 5, 0, 6) && c'.job.deadLetter == Some(DeadLetterRecord(code, false))
  {
  }

  /** The job is dead again with its record closed, and no operator can ever do anything about it. */
  lemma RetriedJobDiesForGood(topic: string, aggregate: Id, at: Time, created: Time, code: string, es: seq<Event>)
    ensures var c := Run(Fresh(topic, Some(aggregate), at, created), DyingTwice(topic, aggregate, at, code));
      && c.job.status == DeadLetter && c.job.attemptCount == 6
      && c.job.deadLetter == Some(DeadLetterRecord(code, false))
      && Run(c, es).job.status == DeadLetter
  {
    var start := Fresh(topic, Some(aggregate), at, created);
    var retried, last := Failing(topic, aggregate, at, code, 5) + [Operate(Retry, at)],
      AttemptRun(5, at, topic, aggregate, Fail(NextPermit(5, 0, 6), code, false, at));
    FiveFailuresKill(topic, aggregate, at, created, code);
    RunAppends(start, Failing(topic, aggregate, at, code, 5), [Operate(Retry, at)]);
    RunOne(Run(start, Failing(topic, aggregate, at, code, 5)), Operate(Retry, at));
    RetryRevives(Run(start, Failing(topic, aggregate, at, code, 5)), topic, aggregate, at, code);
    RunAppends(start, retried, last);
    FailOnce(Run(start, retried), topic, aggregate, at, 5, 0, 6, code, false);
    EveryRunIsSafe(topic, Some(aggregate), at, created, retried + last);
    StaysDead(Run(start, retried + last), es);
  }

  /** Two jobs claimed as one batch; when its lease has expired another dispatcher claims the first anew. */
  function Overtaken(topic: string, aggregate: Id, at: Time, expires: Time, later: Time): map<Id, Job> {
    var job := Claimed(NewJob(topic, Some(aggregate), at, at), 1, expires);
    map[0 := Claimed(job, 2, later), 1 := job]
  }

  method Overtake(topic: string, aggregate: Id, at: Time, expires: Time, now: Time, later: Time) returns (outbox: Outbox)
    requires at < expires <= now
    ensures fresh(outbox) && outbox.jobs == Overtaken(topic, aggregate, at, expires, later)
  {
    outbox := new Outbox();
    outbox.Enqueue(0, topic, Some(aggregate), at, at);
    outbox.Enqueue(1, topic, Some(aggregate), at, at);
    ghost var created := outbox.jobs;
    assert Candidates(created, {topic}, at, {}) == {0, 1};
    var batch := outbox.Claim({topic}, 2, at, 1, expires, {});
    BothOf(batch);
    ghost var claimed := outbox.jobs;
    assert Candidates(claimed, {topic}, now, {1}) == {0};
    var first := outbox.Claim({topic}, 1, now, 2, later, {1});
    assert first == {0};
    assert outbox.jobs == ClaimedAll(claimed, {0}, 2, later);
  }

  lemma BothOf(s: set<Id>)
    requires s <= {0, 1}
    ensures |s| == 2 ==> s == {0, 1}
  {
    if 0 !in s { assert s == {} || s == {1}; }
    if 1 !in s { assert s == {} || s == {0}; }
  }

  /**
   The queue would take both jobs, but the loop ends at the lost lease of the first: the second stays behind,
   dispatching under a lease nobody serves, until that has expired.
   */
  method LostLeaseEndsBatch(topic: string, aggregate: Id, at: Time, expires: Time, now: Time, later: Time)
    returns (jobs: map<Id, Job>, done: nat)
    requires topic != HELD && at < expires <= now
    ensures done == 0 && jobs == Overtaken(topic, aggregate, at, expires, later)
  {
    var outbox := Overtake(topic, aggregate, at, expires, now, later);
    var batch, w := [0, 1], Weather(map[], map[0 := Accepted, 1 := Accepted], now, now);
    ghost var before := outbox.jobs;
    assert LosesLease(before[batch[0]], batch[0], 1, w);
    var tally;
    done, tally := outbox.DispatchBatch(batch, 1, w);
    jobs := outbox.jobs;
  }
}
