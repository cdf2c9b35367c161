/**
 The durable job queue: outbox rows claimed under expiring leases by many dispatchers, handed
 to the queue, and run by many workers in numbered attempts.  One `Job` is an outbox row
 together with its job_attempts rows and its dead_letter_jobs row.
 */
module Queue {
  import opened Wrappers
  import opened Clock

  type Id = nat    // a UUID

  datatype Status = Pending | Dispatching | Queued | Processing | Succeeded | Failed | DeadLetter

  /** A job_attempts row; `Deferred` is 'failed' with the error code capacity_deferred. */
  datatype Attempt = Started | Completed | Charged(code: string) | Deferred

  /** A dead_letter_jobs row. */
  datatype DeadLetterRecord = DeadLetterRecord(reason: string, open: bool)

  datatype Job = Job(
    topic: string,
    aggregate: Option<Id>,
    status: Status,
    availableAt: Time,
    createdAt: Time,
    leaseId: Option<Id>,
    leaseExpiresAt: Option<Time>,
    attemptCount: int,
    maxAttempts: int,
    deferralCount: int,
    attempts: map<int, Attempt>,
    deadLetter: Option<DeadLetterRecord>)

  /** What a worker remembers between starting an attempt and finishing it. */
  datatype Permit = Permit(attempt: int, maxAttempts: int, budgetAttempt: int)

  const DEFAULT_MAX_ATTEMPTS := 5

  // ---- What each transaction does to one row ----

  function NewJob(topic: string, aggregate: Option<Id>, at: Time, created: Time): Job {
    Job(topic, aggregate, Pending, at, created, None, None, 0, DEFAULT_MAX_ATTEMPTS, 0, map[], None)
  }

  predicate Claimable(j: Job, now: Time) {
    || (j.status in {Pending, Failed} && j.availableAt <= now)
    || (j.status == Dispatching && j.leaseExpiresAt.Some? && j.leaseExpiresAt.value <= now)
  }

  function Claimed(j: Job, lease: Id, expires: Time): Job {
    j.(status := Dispatching, leaseId := Some(lease), leaseExpiresAt := Some(expires))
  }

  predicate HoldsLease(j: Job, lease: Id) {
    j.status == Dispatching && j.leaseId == Some(lease)
  }

  function Unleased(j: Job, status: Status, at: Time): Job {
    j.(status := status, availableAt := at, leaseId := None, leaseExpiresAt := None)
  }

  /** The hold release tests the lease column only, never the status. */
  function Released(j: Job, lease: Id, at: Time): Job {
    if j.leaseId == Some(lease) then Unleased(j, Pending, at) else j
  }

  function Marked(j: Job, lease: Id): Job {
    if HoldsLease(j, lease) then Unleased(j, Queued, j.availableAt) else j
  }

  function Refused(j: Job, lease: Id, at: Time): Job {
    if HoldsLease(j, lease) then Unleased(j, Failed, at) else j
  }

  datatype StartOutcome = AlreadyComplete | NotReady | Mismatch | Begun(permit: Permit)

  function StartOutcomeOf(j: Job, topic: string, aggregate: Id): StartOutcome {
    if j.status in {Succeeded, DeadLetter} then AlreadyComplete
    else if j.status !in {Queued, Failed, Dispatching} then NotReady
    else if j.topic != topic || j.aggregate != Some(aggregate) then Mismatch
    else Begun(Permit(j.attemptCount + 1, j.maxAttempts, j.attemptCount + 1 - j.deferralCount))
  }

  function Begin(j: Job): Job {
    var n := j.attemptCount + 1;
    j.(status := Processing, attemptCount := n, leaseId := None, leaseExpiresAt := None,
       attempts := j.attempts[n := Started])
  }

  predicate Owns(j: Job, attempt: int) {
    j.status == Processing && j.attemptCount == attempt
  }

  /** UPDATE job_attempts ... WHERE attempt_number = n: touches an existing row only. */
  function SetAttempt(m: map<int, Attempt>, n: int, a: Attempt): map<int, Attempt> {
    if n in m then m[n := a] else m
  }

  /** Raises, and so rolls the whole transaction back, when the row is no longer owned. */
  function FinishedDeferred(j: Job, p: Permit, at: Time): Job {
    if !Owns(j, p.attempt) then j
    else j.(attempts := SetAttempt(j.attempts, p.attempt, Deferred), status := Pending,
            availableAt := at, deferralCount := j.deferralCount + 1)
  }

  function FinishedSuccess(j: Job, p: Permit): Job {
    if !Owns(j, p.attempt) then j
    else j.(attempts := SetAttempt(j.attempts, p.attempt, Completed), status := Succeeded)
  }

  predicate Terminal(p: Permit, fatal: bool) {
    fatal || p.budgetAttempt >= p.maxAttempts
  }

  /** Never raises: the attempt row and the dead-letter row are written whoever owns the job. */
  function FinishedFailure(j: Job, p: Permit, code: string, fatal: bool, at: Time): Job {
    var j1 := j.(attempts := SetAttempt(j.attempts, p.attempt, Charged(code)));
    if Terminal(p, fatal) then
      var j2 := if Owns(j, p.attempt) then j1.(status := DeadLetter) else j1;
      if j2.deadLetter.None? then j2.(deadLetter := Some(DeadLetterRecord(code, true))) else j2
    else if Owns(j, p.attempt) then j1.(status := Failed, availableAt := at)
    else j1
  }

  datatype OperatorAction = Retry | Resolve | Discard

  const MAX_ATTEMPTS_LIMIT := 100

  /** The CHECK constraints on an outbox row's lease and counters. */
  predicate ChecksHold(j: Job) {
    && (j.leaseId.Some? <==> j.leaseExpiresAt.Some?)
    && 0 <= j.deferralCount <= j.attemptCount && j.attemptCount - j.deferralCount <= j.maxAttempts
    && 1 <= j.maxAttempts <= MAX_ATTEMPTS_LIMIT
  }

  /** An operator's retry gives a dead-lettered row room for one more attempt. */
  function Retried(j: Job, now: Time): Job {
    Unleased(j, Pending, now).(
      maxAttempts := if j.maxAttempts >= j.attemptCount + 1 then j.maxAttempts else j.attemptCount + 1)
  }

  /** A retry the database refuses rolls back with the record's closing. */
  function Operated(j: Job, a: OperatorAction, now: Time): Job {
    if j.deadLetter.None? || !j.deadLetter.value.open || (a.Retry? && j.status != DeadLetter) then j
    else
      var closed := j.(deadLetter := Some(j.deadLetter.value.(open := false)));
      if !a.Retry? then closed
      else if ChecksHold(Retried(closed, now)) then Retried(closed, now)
      else j
  }

  /** How a handler ends, and what the runner makes of it. */
  datatype Ending = Returned | Cancelled | Deferral(at: Time) | Raised(code: string, retryable: bool)

  datatype RunStatus = RunSucceeded | RunDeferred | RunRetry | RunDeadLetter | RunAlreadyComplete | RunRefused

  const CANCELLED := "cancelled"

  function EndedAs(j: Job, p: Permit, end: Ending, retryAt: Time): (Job, RunStatus) {
    match end
    case Returned => (FinishedSuccess(j, p), RunSucceeded)
    case Deferral(at) => (FinishedDeferred(j, p, at), RunDeferred)
    case Cancelled => (FinishedFailure(j, p, CANCELLED, false, retryAt), if Terminal(p, false) then RunDeadLetter else RunRetry)
    case Raised(code, retryable) =>
      (FinishedFailure(j, p, code, !retryable, retryAt), if Terminal(p, !retryable) then RunDeadLetter else RunRetry)
  }

  // ---- The tables ----

  function Candidates(jobs: map<Id, Job>, kinds: set<string>, now: Time, locked: set<Id>): set<Id> {
    set id | id in jobs && id !in locked && jobs[id].topic in kinds && Claimable(jobs[id], now)
  }

  function ClaimedAll(jobs: map<Id, Job>, ids: set<Id>, lease: Id, expires: Time): map<Id, Job> {
    map id | id in jobs :: if id in ids then Claimed(jobs[id], lease, expires) else jobs[id]
  }

  /** ORDER BY available_at, created_at, id. */
  predicate NotAfter(a: Job, aId: Id, b: Job, bId: Id) {
    if a.availableAt != b.availableAt then a.availableAt < b.availableAt
    else if a.createdAt != b.createdAt then a.createdAt < b.createdAt
    else aId <= bId
  }

  predicate OldestOf(jobs: map<Id, Job>, id: Id, ids: set<Id>) {
    id in jobs && forall o :: o in ids && o in jobs ==> NotAfter(jobs[id], id, jobs[o], o)
  }

  predicate OldestFirst(jobs: map<Id, Job>, chosen: set<Id>, all: set<Id>) {
    forall c :: c in chosen ==> OldestOf(jobs, c, all - chosen)
  }

  datatype HoldCheck = AiActive | HumanHeld | CheckFailed
  datatype QueueReply = Accepted | AlreadyEnqueued | Unreachable

  const HELD := "approvals.result.held"

  /** The environment's answers while one batch is dispatched, and the two retry instants. */
  datatype Weather = Weather(check: map<Id, HoldCheck>, reply: map<Id, QueueReply>, failAt: Time, holdAt: Time)

  datatype Fate = Held | Broken | Sent(already: bool)

  function FateOf(j: Job, id: Id, w: Weather): Fate {
    var check := if id in w.check then w.check[id] else CheckFailed;
    var reply := if id in w.reply then w.reply[id] else Unreachable;
    if j.aggregate.None? then Broken
    else if j.topic == HELD && check.HumanHeld? then Held
    else if j.topic == HELD && check.CheckFailed? then Broken
    else if reply.Unreachable? then Broken
    else Sent(reply.AlreadyEnqueued?)
  }

  /** A held result waits while a human has the conversation; whatever cannot be checked, addressed or handed over has failed. */
  lemma FateIff(j: Job, id: Id, w: Weather)
    ensures var fate := FateOf(j, id, w);
      var humanHas := j.topic == HELD && id in w.check && w.check[id] == HumanHeld;
      var cleared := j.topic == HELD ==> id in w.check && w.check[id] == AiActive;
      && (fate == Held <==> j.aggregate.Some? && humanHas)
      && (fate == Sent(false) <==> j.aggregate.Some? && cleared && id in w.reply && w.reply[id] == Accepted)
      && (fate == Sent(true) <==> j.aggregate.Some? && cleared && id in w.reply && w.reply[id] == AlreadyEnqueued)
  {
  }

  /** The fates of a batch, in its order. */
  function Fates(jobs: map<Id, Job>, claimed: seq<Id>, w: Weather): seq<Fate>
    requires forall id :: id in claimed ==> id in jobs
  {
    if claimed == [] then []
    else Fates(jobs, claimed[..|claimed| - 1], w) + [FateOf(jobs[claimed[|claimed| - 1]], claimed[|claimed| - 1], w)]
  }

  /** The batch's counters. */
  datatype Tally = Tally(dispatched: nat, already: nat, failed: nat, held: nat)

  function Counted(t: Tally, fate: Fate): Tally {
    match fate
    case Held => t.(held := t.held + 1)
    case Broken => t.(failed := t.failed + 1)
    case Sent(again) => if again then t.(already := t.already + 1) else t.(dispatched := t.dispatched + 1)
  }

  function TallyOf(fates: seq<Fate>): Tally {
    if fates == [] then Tally(0, 0, 0, 0) else Counted(TallyOf(fates[..|fates| - 1]), fates[|fates| - 1])
  }

  /** Each counter is the number of jobs that met its fate. */
  lemma {:induction false} TallyCounts(fates: seq<Fate>)
    ensures var t := TallyOf(fates);
      && t.dispatched == multiset(fates)[Sent(false)] && t.already == multiset(fates)[Sent(true)]
      && t.failed == multiset(fates)[Broken] && t.held == multiset(fates)[Held]
      && t.dispatched + t.already + t.failed + t.held == |fates|
  {
    if fates != [] {
      var rest, last := fates[..|fates| - 1], fates[|fates| - 1];
      TallyCounts(rest);
      assert fates == rest + [last];
    }
  }

  lemma TallyNext(t: Tally, jobs: map<Id, Job>, claimed: seq<Id>, w: Weather, id: Id, fate: Fate)
    requires (forall o :: o in claimed ==> o in jobs) && id in jobs && fate == FateOf(jobs[id], id, w)
    requires t == TallyOf(Fates(jobs, claimed, w))
    ensures Counted(t, fate) == TallyOf(Fates(jobs, claimed + [id], w))
  {
    assert (claimed + [id])[..|claimed|] == claimed;
    var fates := Fates(jobs, claimed, w);
    assert (fates + [fate])[..|fates|] == fates;
  }

  function Dispatched(j: Job, id: Id, lease: Id, w: Weather): Job {
    match FateOf(j, id, w)
    case Held => Released(j, lease, w.holdAt)
    case Broken => Refused(j, lease, w.failAt)
    case Sent(_) => Marked(j, lease)
  }

  /** The queue took the job, but its lease was lost meanwhile. */
  predicate LosesLease(j: Job, id: Id, lease: Id, w: Weather) {
    FateOf(j, id, w).Sent? && !HoldsLease(j, lease)
  }

  function AllDispatched(jobs: map<Id, Job>, ids: seq<Id>, lease: Id, w: Weather): map<Id, Job> {
    map id | id in jobs :: if id in ids then Dispatched(jobs[id], id, lease, w) else jobs[id]
  }

  lemma OneMoreDispatched(jobs: map<Id, Job>, ids: seq<Id>, lease: Id, w: Weather, id: Id)
    requires id in jobs && id !in ids
    ensures id in AllDispatched(jobs, ids, lease, w) && AllDispatched(jobs, ids, lease, w)[id] == jobs[id]
    ensures AllDispatched(jobs, ids, lease, w)[id := Dispatched(jobs[id], id, lease, w)]
         == AllDispatched(jobs, ids + [id], lease, w)
  {
  }

  class Outbox {
    var jobs: map<Id, Job>

    constructor ()
      ensures jobs == map[]
    {
      jobs := map[];
    }

    /** INSERT ... ON CONFLICT (idempotency key): an existing row is left as it is. */
    method Enqueue(id: Id, topic: string, aggregate: Option<Id>, at: Time, created: Time)
      modifies this
      ensures jobs == if id in old(jobs) then old(jobs) else old(jobs)[id := NewJob(topic, aggregate, at, created)]
    {
      if id !in jobs {
        jobs := jobs[id := NewJob(topic, aggregate, at, created)];
      }
    }

    /** Claims the oldest claimable rows nobody else has locked, at most `limit` of them. */
    method Claim(kinds: set<string>, limit: nat, now: Time, lease: Id, expires: Time, locked: set<Id>)
      returns (claimed: set<Id>)
      modifies this
      ensures |claimed| <= limit
      ensures claimed <= Candidates(old(jobs), kinds, now, locked)
      ensures jobs == ClaimedAll(old(jobs), claimed, lease, expires)
      // What was left behind was left because the batch is full, and is no older.
      ensures claimed != Candidates(old(jobs), kinds, now, locked) ==> |claimed| == limit
      ensures OldestFirst(old(jobs), claimed, Candidates(old(jobs), kinds, now, locked))
    {
      var rows := jobs;
      var candidates := Candidates(rows, kinds, now, locked);
      claimed := {};
      while claimed != candidates && |claimed| < limit
        invariant |claimed| <= limit && claimed <= candidates
        invariant jobs == ClaimedAll(rows, claimed, lease, expires)
        invariant OldestFirst(rows, claimed, candidates)
        decreases candidates - claimed
      {
        var rest := candidates - claimed;
        Oldest(rows, rest);
        var id :| id in rest && OldestOf(rows, id, rest);
        ClaimOneMore(rows, claimed, candidates, id, lease, expires);
        jobs := jobs[id := Claimed(jobs[id], lease, expires)];
        claimed := claimed + {id};
      }
    }

    method ReleaseHold(id: Id, lease: Id, at: Time)
      modifies this
      ensures jobs == if id in old(jobs) then old(jobs)[id := Released(old(jobs)[id], lease, at)] else old(jobs)
    {
      if id in jobs && jobs[id].leaseId == Some(lease) {
        var row := jobs[id].(status := Pending, leaseId := None, leaseExpiresAt := None);
        jobs := jobs[id := row.(availableAt := at)];
      }
    }

    /** `ok` is false when the lease was lost, which the source raises. */
    method MarkQueued(id: Id, lease: Id) returns (ok: bool)
      modifies this
      ensures ok <==> id in old(jobs) && HoldsLease(old(jobs)[id], lease)
      ensures jobs == if id in old(jobs) then old(jobs)[id := Marked(old(jobs)[id], lease)] else old(jobs)
    {
      ok := id in jobs && jobs[id].status == Dispatching && jobs[id].leaseId == Some(lease);
      if ok {
        jobs := jobs[id := jobs[id].(status := Queued, leaseId := None, leaseExpiresAt := None)];
      }
    }

    method RecordDispatchFailure(id: Id, lease: Id, at: Time)
      modifies this
      ensures jobs == if id in old(jobs) then old(jobs)[id := Refused(old(jobs)[id], lease, at)] else old(jobs)
    {
      if id in jobs && jobs[id].status == Dispatching && jobs[id].leaseId == Some(lease) {
        var row := jobs[id].(status := Failed, availableAt := at);
        jobs := jobs[id := row.(leaseId := None, leaseExpiresAt := None)];
      }
    }

    /** One job of the batch; `ok` is false when it was handed over but its lease was lost. */
    method DispatchJob(id: Id, lease: Id, w: Weather) returns (fate: Fate, ok: bool)
      requires id in jobs
      modifies this
      ensures fate == FateOf(old(jobs)[id], id, w)
      ensures ok <==> !LosesLease(old(jobs)[id], id, lease, w)
      ensures jobs == if ok then old(jobs)[id := Dispatched(old(jobs)[id], id, lease, w)] else old(jobs)
    {
      fate, ok := FateOf(jobs[id], id, w), true;
      match fate {
        case Held => ReleaseHold(id, lease, w.holdAt);
        case Broken => RecordDispatchFailure(id, lease, w.failAt);
        case Sent(_) =>
          assert jobs[id := jobs[id]] == jobs;
          ok := MarkQueued(id, lease);
      }
    }

    /**
     The loop over one claimed batch.  It leaves the batch at the first lost lease, after `done`
     jobs; every job it got through is where its fate sends it, and each counter counts its fate.
     */
    method DispatchBatch(claimed: seq<Id>, lease: Id, w: Weather) returns (done: nat, tally: Tally)
      requires forall id :: id in claimed ==> id in jobs
      requires forall i, k :: 0 <= i < k < |claimed| ==> claimed[i] != claimed[k]
      modifies this
      ensures done <= |claimed| && tally == TallyOf(Fates(old(jobs), claimed[..done], w))
      ensures jobs == AllDispatched(old(jobs), claimed[..done], lease, w)
      ensures forall id :: id in claimed[..done] ==> !LosesLease(old(jobs)[id], id, lease, w)
      ensures done < |claimed| ==> LosesLease(old(jobs)[claimed[done]], claimed[done], lease, w)
    {
      ghost var before := jobs;
      done, tally := 0, Tally(0, 0, 0, 0);
      while done < |claimed|
        invariant done <= |claimed| && tally == TallyOf(Fates(before, claimed[..done], w))
        invariant jobs == AllDispatched(before, claimed[..done], lease, w)
        invariant forall id :: id in claimed[..done] ==> !LosesLease(before[id], id, lease, w)
      {
        var id := claimed[done];
        assert claimed[..done + 1] == claimed[..done] + [id];
        OneMoreDispatched(before, claimed[..done], lease, w, id);
        var fate, ok := DispatchJob(id, lease, w);
        if !ok { return; }
        TallyNext(tally, before, claimed[..done], w, id, fate);
        tally := Counted(tally, fate);
        done := done + 1;
      }
    }

    method StartAttempt(id: Id, topic: string, aggregate: Id) returns (outcome: Option<StartOutcome>)
      modifies this
      ensures outcome == if id in old(jobs) then Some(StartOutcomeOf(old(jobs)[id], topic, aggregate)) else None
      ensures jobs == if outcome.Some? && outcome.value.Begun? then old(jobs)[id := Begin(old(jobs)[id])] else old(jobs)
    {
      if id !in jobs { return None; }
      var row := jobs[id];
      if row.status in {Succeeded, DeadLetter} { return Some(AlreadyComplete); }
      if row.status !in {Queued, Failed, Dispatching} { return Some(NotReady); }
      if row.topic != topic || row.aggregate != Some(aggregate) { return Some(Mismatch); }
      var number := row.attemptCount + 1;
      var budget := number - row.deferralCount;
      row := row.(status := Processing, attemptCount := number, leaseId := None, leaseExpiresAt := None);
      row := row.(attempts := row.attempts[number := Started]);
      jobs := jobs[id := row];
      return Some(Begun(Permit(number, row.maxAttempts, budget)));
    }

    method FinishDeferred(id: Id, p: Permit, at: Time) returns (ok: bool)
      requires id in jobs
      modifies this
      ensures ok <==> Owns(old(jobs)[id], p.attempt)
      ensures jobs == old(jobs)[id := FinishedDeferred(old(jobs)[id], p, at)]
    {
      var row := jobs[id].(attempts := SetAttempt(jobs[id].attempts, p.attempt, Deferred));
      ok := row.status == Processing && row.attemptCount == p.attempt;
      if ok {
        row := row.(status := Pending, availableAt := at, deferralCount := row.deferralCount + 1);
        jobs := jobs[id := row];
      }
    }

    method FinishSuccess(id: Id, p: Permit) returns (ok: bool)
      requires id in jobs
      modifies this
      ensures ok <==> Owns(old(jobs)[id], p.attempt)
      ensures jobs == old(jobs)[id := FinishedSuccess(old(jobs)[id], p)]
    {
      var row := jobs[id].(attempts := SetAttempt(jobs[id].attempts, p.attempt, Completed));
      ok := row.status == Processing && row.attemptCount == p.attempt;
      if ok {
        jobs := jobs[id := row.(status := Succeeded)];
      }
    }

    method FinishFailure(id: Id, p: Permit, code: string, fatal: bool, at: Time) returns (dead: bool)
      requires id in jobs
      modifies this
      ensures dead <==> Terminal(p, fatal)
      ensures jobs == old(jobs)[id := FinishedFailure(old(jobs)[id], p, code, fatal, at)]
    {
      dead := fatal || p.budgetAttempt >= p.maxAttempts;
      var row := jobs[id].(attempts := SetAttempt(jobs[id].attempts, p.attempt, Charged(code)));
      var owned := row.status == Processing && row.attemptCount == p.attempt;
      if dead {
        if owned {
          row := row.(status := DeadLetter);
        }
        if row.deadLetter.None? {
          row := row.(deadLetter := Some(DeadLetterRecord(code, true)));
        }
      } else if owned {
        row := row.(status := Failed, availableAt := at);
      }
      jobs := jobs[id := row];
    }

    /** One undisturbed run of a job by a worker. */
    method RunAttempt(id: Id, topic: string, aggregate: Id, end: Ending, retryAt: Time) returns (status: RunStatus)
      requires id in jobs
      modifies this
      ensures var j, start := old(jobs)[id], StartOutcomeOf(old(jobs)[id], topic, aggregate);
        if start.Begun? then
          jobs == old(jobs)[id := EndedAs(Begin(j), start.permit, end, retryAt).0]
          && status == EndedAs(Begin(j), start.permit, end, retryAt).1
        else jobs == old(jobs) && status == if start.AlreadyComplete? then RunAlreadyComplete else RunRefused
    {
      var outcome := StartAttempt(id, topic, aggregate);
      if !outcome.value.Begun? {
        return if outcome.value.AlreadyComplete? then RunAlreadyComplete else RunRefused;
      }
      var p := outcome.value.permit;
      match end {
        case Returned =>
          var ok := FinishSuccess(id, p);
          status := RunSucceeded;
        case Deferral(at) =>
          var ok := FinishDeferred(id, p, at);
          status := RunDeferred;
        case Cancelled =>
          var dead := FinishFailure(id, p, CANCELLED, false, retryAt);
          status := if dead then RunDeadLetter else RunRetry;
        case Raised(code, retryable) =>
          var dead := FinishFailure(id, p, code, !retryable, retryAt);
          status := if dead then RunDeadLetter else RunRetry;
      }
    }

    /** `ok` is false when the action is not allowed or the database refuses the row. */
    method Operate(id: Id, a: OperatorAction, now: Time) returns (ok: bool)
      requires id in jobs
      modifies this
      ensures jobs == old(jobs)[id := Operated(old(jobs)[id], a, now)]
      ensures ok <==> Operated(old(jobs)[id], a, now) != old(jobs)[id]
    {
      var row := jobs[id];
      assert jobs[id := row] == jobs;
      if row.deadLetter.None? || !row.deadLetter.value.open || (a.Retry? && row.status != DeadLetter) { return false; }
      if a.Retry? {
        row := row.(status := Pending, availableAt := now, leaseId := None, leaseExpiresAt := None);
        if row.maxAttempts < row.attemptCount + 1 {
          row := row.(maxAttempts := row.attemptCount + 1);
        }
        if !ChecksHold(row) { return false; }
      }
      row := row.(deadLetter := Some(row.deadLetter.value.(open := false)));
      jobs := jobs[id := row];
      return true;
    }
  }

  lemma ClaimOneMore(jobs: map<Id, Job>, chosen: set<Id>, all: set<Id>, id: Id, lease: Id, expires: Time)
    requires all <= jobs.Keys && id in all - chosen && OldestOf(jobs, id, all - chosen)
    requires OldestFirst(jobs, chosen, all)
    ensures ClaimedAll(jobs, chosen, lease, expires)[id := Claimed(jobs[id], lease, expires)]
         == ClaimedAll(jobs, chosen + {id}, lease, expires)
    ensures OldestFirst(jobs, chosen + {id}, all)
  {
    assert all - (chosen + {id}) <= all - chosen;
  }

  lemma Oldest(jobs: map<Id, Job>, ids: set<Id>)
    requires ids != {} && ids <= jobs.Keys
    ensures exists id :: id in ids && OldestOf(jobs, id, ids)
  {
    var id :| id in ids;
    if ids == {id} {
      assert OldestOf(jobs, id, ids);
    } else {
      Oldest(jobs, ids - {id});
      var m :| m in ids - {id} && OldestOf(jobs, m, ids - {id});
      assert OldestOf(jobs, if NotAfter(jobs[id], id, jobs[m], m) then id else m, ids);
    }
  }
}
