/**
 Customer cases under one deduplication key: rows, histories, timers and operation receipts, and
 what each service operation makes of them.
 */
module Cases {
  import opened Wrappers
  import opened Clock
  import opened Provenance

  type Id = nat    // a UUID

  datatype Status =
    | Open | AwaitingInformation | ReadyForReview | PendingApproval | InProgress | Resolved | Reopened
    | Closed | Rejected | Cancelled | Expired | Duplicate

  predicate IsTerminal(s: Status) {
    s.Closed? || s.Rejected? || s.Cancelled? || s.Expired? || s.Duplicate?
  }

  predicate IsIntake(s: Status) {
    s.Open? || s.AwaitingInformation? || s.ReadyForReview?
  }

  predicate CanMove(from: Status, to: Status) {
    match from
    case Open => to.AwaitingInformation? || to.ReadyForReview? || to.Cancelled? || to.Expired? || to.Duplicate?
    case AwaitingInformation => to.ReadyForReview? || to.Cancelled? || to.Expired? || to.Duplicate?
    case ReadyForReview => to.AwaitingInformation? || to.PendingApproval? || to.InProgress? || to.Rejected?
      || to.Cancelled? || to.Duplicate?
    case PendingApproval => to.InProgress? || to.Rejected? || to.Cancelled? || to.Expired?
    case InProgress => to.AwaitingInformation? || to.Resolved? || to.Cancelled?
    case Resolved => to.Reopened? || to.Closed?
    case Reopened => to.AwaitingInformation? || to.ReadyForReview? || to.InProgress? || to.Cancelled?
    case _ => false
  }

  /** Nothing leaves a terminal state, and everything else can still move. */
  lemma TerminalHasNoEdge(s: Status)
    ensures IsTerminal(s) <==> forall to :: !CanMove(s, to)
  {
    var next := match s case Resolved => Closed case _ => Cancelled;
    assert !IsTerminal(s) ==> CanMove(s, next);
  }

  datatype Target = OnTrack | Approaching | Overdue

  function Rank(t: Target): nat {
    match t case OnTrack => 0 case Approaching => 1 case Overdue => 2
  }

  /** The pinned policy for this issue's priority; `approach` is the rounded fraction of `respond`. */
  datatype Policy = Policy(closeAfter: int, approach: int, respond: int)

  predicate ValidPolicy(p: Policy) {
    p.closeAfter >= HOUR && 0 <= p.approach <= p.respond && p.respond >= MINUTE
  }

  /** A tenant's configuration for one priority; the fraction is `num` / `den`, as a float is. */
  datatype CasePolicy = CasePolicy(closeHours: nat, minutes: nat, num: nat, den: nat)

  predicate Allowed(p: CasePolicy) {
    1 <= p.closeHours <= 8760 && 1 <= p.minutes <= 525600 && 0 < p.num < p.den
  }

  /** timedelta * float: the exact product in microseconds, rounded to the nearest, ties to even. */
  function Scaled(duration: nat, num: nat, den: nat): nat
    requires den > 0
  {
    var q, r := duration * num / den, duration * num % den;
    if 2 * r > den || (2 * r == den && q % 2 == 1) then q + 1 else q
  }

  function Pinned(p: CasePolicy): Policy
    requires Allowed(p)
  {
    Policy(p.closeHours * HOUR, Scaled(p.minutes * MINUTE, p.num, p.den), p.minutes * MINUTE)
  }

  /** What is left of the response time after the approaching instant is at most half a microsecond. */
  predicate NoRoom(p: CasePolicy) {
    2 * (p.minutes * MINUTE * (p.den - p.num)) <= p.den
  }

  /** Exactly then the offset rounds up to the whole response time; it never exceeds it. */
  lemma ScaledIsWholeIff(duration: nat, num: nat, den: nat)
    requires duration > 0 && duration % 2 == 0 && 0 < num < den
    ensures Scaled(duration, num, den) <= duration
    ensures Scaled(duration, num, den) == duration <==> 2 * (duration * (den - num)) <= den
  {
    var q, r, rest := duration * num / den, duration * num % den, duration * (den - num);
    assert rest + duration * num == duration * den;
    assert duration * num == q * den + r;
    assert rest > 0;
    if rest < den {
      QuotientIs(duration * num, den, duration - 1, den - rest);
    } else {
      if q > duration - 1 { Monotone(duration, q, den); }
      if q == duration - 1 { assert r == den - rest; }
    }
  }

  lemma Monotone(a: int, b: int, den: nat)
    requires a <= b
    ensures a * den <= b * den
  {
  }

  lemma QuotientIs(n: int, den: nat, q: int, r: int)
    requires den > 0 && n == q * den + r && 0 <= r < den
    ensures n / den == q && n % den == r
  {
    if n / den > q { Monotone(q + 1, n / den, den); }
    if n / den < q { Monotone(n / den, q - 1, den); }
  }

  /** The rounding is to the nearest microsecond, and to the even one of two that are equally near. */
  lemma ScaledIsNearest(duration: nat, num: nat, den: nat)
    requires den > 0
    ensures var off := Scaled(duration, num, den) * den - duration * num;
      && 2 * off <= den && 0 <= 2 * off + den
      && (2 * off == den || 2 * off + den == 0 ==> Scaled(duration, num, den) % 2 == 0)
  {
    var q, r := duration * num / den, duration * num % den;
    assert duration * num == q * den + r;
    assert (q + 1) * den == q * den + den;
  }

  /** The limits the configuration's own validation sets. */
  lemma AllowedLimits(p: CasePolicy)
    ensures Allowed(p) <==> (p.closeHours > 0 && p.closeHours <= 8760) && (p.minutes > 0 && p.minutes <= 365 * 24 * 60) && p.num > 0 && p.den > p.num
  {
  }

  lemma PinnedHasRoomIff(p: CasePolicy)
    requires Allowed(p)
    ensures ValidPolicy(Pinned(p)) && (Pinned(p).approach < Pinned(p).respond <==> !NoRoom(p))
  {
    ScaledIsWholeIff(p.minutes * MINUTE, p.num, p.den);
  }

  /** target_status. */
  function TargetAt(at: Time, approachingAt: Time, targetAt: Time): Target {
    if at >= targetAt then Overdue else if at >= approachingAt then Approaching else OnTrack
  }

  /** The content digest, the capability, and the contributions of a claims intake (any other intake as it is). */
  datatype Content = Content(digest: nat, claims: bool, messages: seq<Contribution>)

  datatype Case = Case(
    revision: nat,
    status: Status,
    content: Content,
    policy: Policy,
    target: Target,
    approachingAt: Time,
    targetAt: Time,
    resolvedAt: Option<Time>,
    closeAt: Option<Time>,
    result: Option<string>,        // what the customer is told
    recordedBy: Option<Id>,
    updatedAt: Time)

  datatype Kind = Created | IntakeReused | IntakeUpdated | StateChanged | CustomerResponse | TargetAlert

  datatype Entry = Entry(kind: Kind, revision: nat, from: Option<Status>, to: Status)

  /** A case row with its events in append order. */
  datatype File = File(row: Case, history: seq<Entry>)

  // ---- One row ----

  function NewCase(content: Content, status: Status, policy: Policy, at: Time): Case {
    Case(1, status, content, policy, OnTrack, at + policy.approach, at + policy.respond, None, None, None, None, at)
  }

  function NewFile(content: Content, status: Status, policy: Policy, at: Time): File {
    File(NewCase(content, status, policy, at), [Entry(Created, 1, None, status)])
  }

  function Logged(f: File, row: Case, kind: Kind): File {
    File(row, f.history + [Entry(kind, row.revision, Some(f.row.status), row.status)])
  }

  /** The table's CHECK on the target instants: a policy whose offset rounds up to the whole response time fails it. */
  predicate TargetsFit(c: Case) {
    c.targetAt > c.approachingAt
  }

  /** `_change`, once the transition has been validated. */
  function ChangedRow(c: Case, to: Status, at: Time, result: Option<string>, actor: Id): Case {
    var moved := c.(status := to, revision := c.revision + 1, updatedAt := at);
    var timed :=
      if to.Resolved? then moved.(resolvedAt := Some(at), closeAt := Some(at + c.policy.closeAfter))
      else if to.Reopened? then
        moved.(resolvedAt := None, closeAt := None, result := None, recordedBy := None,
               approachingAt := at + c.policy.approach, targetAt := at + c.policy.respond, target := OnTrack)
      else moved;
    if result.Some? then timed.(result := result, recordedBy := Some(actor)) else timed
  }

  function ChangedFile(f: File, to: Status, at: Time, result: Option<string>, actor: Id): File {
    Logged(f, ChangedRow(f.row, to, at, result, actor), StateChanged)
  }

  predicate Elapsed(c: Case, at: Time) {
    c.status.Resolved? && c.closeAt.Some? && at >= c.closeAt.value
  }

  predicate Reopenable(c: Case, at: Time) {
    c.status.Resolved? && c.closeAt.Some? && at < c.closeAt.value
  }

  /** The timers `_schedule` puts into the outbox for a row. */
  function Timers(id: Id, c: Case): set<(Id, Time)> {
    if c.status.Resolved? then (if c.closeAt.Some? then {(id, c.closeAt.value)} else {})
    else {(id, c.approachingAt), (id, c.targetAt)}
  }

  /** process_timer on a row that has not reached its close. */
  function AlertedFile(f: File, at: Time): File {
    var target := TargetAt(at, f.row.approachingAt, f.row.targetAt);
    if target == f.row.target || target == OnTrack then f
    else Logged(f, f.row.(target := target, updatedAt := at), TargetAlert)
  }

  function TimedFile(f: File, at: Time, actor: Id): File {
    if Elapsed(f.row, at) then ChangedFile(f, Closed, at, None, actor)
    else if f.row.status.Resolved? || IsTerminal(f.row.status) then f
    else AlertedFile(f, at)
  }

  function RespondedFile(f: File, at: Time): File {
    if Reopenable(f.row, at)
    then Logged(f, f.row.(closeAt := Some(at + f.row.policy.closeAfter), updatedAt := at, revision := f.row.revision + 1),
                CustomerResponse)
    else Logged(f, f.row, CustomerResponse)
  }

  // ---- The tables under one key ----

  datatype Command =
    | Intake(content: Content, initial: Status, expected: Option<nat>, known: Option<Id>)
    | Transition(id: Id, revision: nat, to: Status, approval: bool, result: Option<string>)
    | Persisting(id: Id, reason: string)
    | Response(id: Id, reason: string)

  /** The operation's parameter digest, symbolically the command itself, and the row it answered with. */
  datatype Receipt = Receipt(command: Command, id: Id, row: Case)

  datatype World = World(files: map<Id, File>, timers: set<(Id, Time)>, receipts: map<Id, Receipt>)

  datatype Refusal =
    | ChangedNeedsReview | NeedsBackoffice | NoSuchCase | NotReopenable | BadTransition | ApprovalNeeded
    | ResultNeedsDecision | UseReopenOrTimer | IdempotencyConflict | TargetCheck | MessageConflict | TooManyMessages

  datatype Outcome = Answered(id: Id, row: Case) | Refused(why: Refusal)

  predicate Active(w: World, id: Id) {
    id in w.files && !IsTerminal(w.files[id].row.status)
  }

  /** What the equivalence query may return. */
  ghost predicate IsEquivalent(w: World, seen: Option<Id>) {
    if seen.Some? then Active(w, seen.value) else forall id :: !Active(w, id)
  }

  function Put(w: World, id: Id, f: File, schedule: bool): World {
    w.(files := w.files[id := f], timers := if schedule then w.timers + Timers(id, f.row) else w.timers)
  }

  function Filed(w: World, op: Id, command: Command, id: Id): World
    requires id in w.files
  {
    w.(receipts := w.receipts[op := Receipt(command, id, w.files[id].row)])
  }

  function CloseElapsed(w: World, id: Id, at: Time, actor: Id): World
    requires id in w.files
  {
    Put(w, id, ChangedFile(w.files[id], Closed, at, None, actor), false)
  }

  /** The case an intake goes on with: none when the reopen window of the one it found has elapsed. */
  function Previous(w: World, seen: Option<Id>, at: Time): Option<Id>
    requires seen.Some? ==> seen.value in w.files
  {
    if seen.Some? && Elapsed(w.files[seen.value].row, at) then None else seen
  }

  function Swept(w: World, seen: Option<Id>, at: Time, actor: Id): World
    requires seen.Some? ==> seen.value in w.files
  {
    if seen.Some? && Elapsed(w.files[seen.value].row, at) then CloseElapsed(w, seen.value, at, actor) else w
  }

  datatype Merge = Reuse | Update(file: File) | Refuse(why: Refusal)

  /** What an intake does to the open case it found. */
  function MergeInto(f: File, content: Content, initial: Status, expected: Option<nat>, at: Time): Merge {
    if expected.None? then Reuse
    else if !IsIntake(f.row.status) then Refuse(NeedsBackoffice)
    else if f.row.content.digest != content.digest && expected.value != f.row.revision then Refuse(ChangedNeedsReview)
    else if f.row.content.digest == content.digest && f.row.status != initial then Refuse(NeedsBackoffice)
    else
      match MergeSpec(f.row.content.claims, f.row.content.messages, content.messages)
      case Conflict => Refuse(MessageConflict)
      case TooMany => Refuse(TooManyMessages)
      case Kept(messages) =>
        var changed := f.row.content.digest != content.digest;
        var row := f.row.(content := f.row.content.(digest := content.digest, messages := messages),
                          status := initial, updatedAt := at,
                          revision := if changed then f.row.revision + 1 else f.row.revision);
        Update(Logged(f, row, if changed then IntakeUpdated else IntakeReused))
  }

  /** find_or_create, given what its equivalence query saw and the id it would give a new case. */
  function IntakeSpec(w: World, seen: Option<Id>, op: Id, k: Command, newId: Id, policy: Policy, at: Time, actor: Id): (World, Outcome)
    requires k.Intake? && (seen.Some? ==> seen.value in w.files)
  {
    var previous, w1 := Previous(w, seen, at), Swept(w, seen, at, actor);
    if k.known.Some? && previous != k.known then (w, Refused(ChangedNeedsReview))
    else if previous.None? then
      if k.expected.Some? && k.expected.value != 0 then (w, Refused(ChangedNeedsReview))
      else
        var f := NewFile(k.content, k.initial, policy, at);
        if !TargetsFit(f.row) then (w, Refused(TargetCheck))
        else (Filed(Put(w1, newId, f, true), op, k, newId), Answered(newId, f.row))
    else
      var id := previous.value;
      match MergeInto(w.files[id], k.content, k.initial, k.expected, at)
      case Refuse(why) => (w, Refused(why))
      case Reuse =>
        var f := Logged(w.files[id], w.files[id].row, IntakeReused);
        (Filed(Put(w, id, f, false), op, k, id), Answered(id, f.row))
      case Update(f) => (Filed(Put(w, id, f, false), op, k, id), Answered(id, f.row))
  }

  /**
   A configuration leaves no new case any room exactly when what is left after the approaching instant is
   at most half a microsecond: then the table refuses every intake that would open a case.
   */
  lemma IntakeRefusedIff(w: World, seen: Option<Id>, op: Id, k: Command, newId: Id, p: CasePolicy, at: Time, actor: Id)
    requires k.Intake? && Allowed(p) && (seen.Some? ==> seen.value in w.files)
    requires Previous(w, seen, at).None? && k.known.None? && (k.expected.None? || k.expected.value == 0)
    ensures IntakeSpec(w, seen, op, k, newId, Pinned(p), at, actor) == (w, Refused(TargetCheck)) <==> NoRoom(p)
    ensures IntakeSpec(w, seen, op, k, newId, Pinned(p), at, actor).1.Answered? <==> !NoRoom(p)
  {
    PinnedHasRoomIff(p);
  }

  function TransitionRefusal(c: Case, k: Command): Option<Refusal>
    requires k.Transition?
  {
    if c.revision != k.revision then Some(ChangedNeedsReview)
    else if c.status.PendingApproval? && (k.to.InProgress? || k.to.Rejected?) && !k.approval then Some(ApprovalNeeded)
    else if !CanMove(c.status, k.to) then Some(BadTransition)
    else None
  }

  function TransitionSpec(w: World, op: Id, k: Command, at: Time, actor: Id): (World, Outcome)
    requires k.Transition?
  {
    if k.to.Reopened? || k.to.Closed? then (w, Refused(UseReopenOrTimer))
    else if k.result.Some? && !k.to.Resolved? && !k.to.Rejected? then (w, Refused(ResultNeedsDecision))
    else if k.id !in w.files then (w, Refused(ChangedNeedsReview))
    else
      var refusal := TransitionRefusal(w.files[k.id].row, k);
      if refusal.Some? then (w, Refused(refusal.value))
      else
        var f := ChangedFile(w.files[k.id], k.to, at, k.result, actor);
        (Filed(Put(w, k.id, f, k.to.Resolved?), op, k, k.id), Answered(k.id, f.row))
  }

  /**
   Which backoffice moves are applied, and what refuses the others: reopening and closing have their own ways,
   a result needs a decision, the revision must be the row's, an approval step its reference, and every move
   an edge of the table.
   */
  lemma TransitionIff(w: World, op: Id, k: Command, at: Time, actor: Id)
    requires k.Transition? && k.id in w.files
    ensures var row := w.files[k.id].row;
      var (w', outcome) := TransitionSpec(w, op, k, at, actor);
      var plain := !k.to.Reopened? && !k.to.Closed? && (k.result.Some? ==> k.to.Resolved? || k.to.Rejected?);
      var approved := row.status.PendingApproval? && (k.to.InProgress? || k.to.Rejected?) ==> k.approval;
      && (outcome.Answered? <==> plain && k.revision == row.revision && approved && CanMove(row.status, k.to))
      && (outcome.Refused? ==> w' == w)
      && (plain ==> (outcome == Refused(ChangedNeedsReview) <==> k.revision != row.revision))
      && (plain && k.revision == row.revision ==> (outcome == Refused(ApprovalNeeded) <==> !approved))
      && (outcome.Answered? ==>
           && outcome.row.status == k.to && outcome.row.revision == row.revision + 1 && outcome.row.updatedAt == at
           && (outcome.row.resolvedAt, outcome.row.closeAt) ==
                (if k.to.Resolved? then (Some(at), Some(at + row.policy.closeAfter)) else (row.resolvedAt, row.closeAt))
           && (outcome.row.result, outcome.row.recordedBy) ==
                (if k.result.Some? then (k.result, Some(actor)) else (row.result, row.recordedBy))
           && w'.files[k.id].row == outcome.row && w'.receipts == w.receipts[op := Receipt(k, k.id, outcome.row)])
  {
  }

  /** report_persisting_issue; `seen` is what the equivalence query finds once the case itself is closed. */
  function PersistingSpec(w: World, seen: Option<Id>, op: Id, k: Command, newId: Id, policy: Policy, at: Time, actor: Id): (World, Outcome)
    requires k.Persisting? && (seen.Some? ==> seen.value in w.files)
  {
    if k.id !in w.files then (w, Refused(NoSuchCase))
    else
      var f := w.files[k.id];
      if Reopenable(f.row, at) then
        var g := ChangedFile(f, Reopened, at, None, actor);
        (Filed(Put(w, k.id, g, true), op, k, k.id), Answered(k.id, g.row))
      else if f.row.status.Closed? || Elapsed(f.row, at) then
        var w1 := if f.row.status.Resolved? then CloseElapsed(w, k.id, at, actor) else w;
        if seen.Some? then (Filed(w1, op, k, seen.value), Answered(seen.value, w1.files[seen.value].row))
        else
          var g := NewFile(f.row.content, Open, policy, at);
          if !TargetsFit(g.row) then (w, Refused(TargetCheck))
          else (Filed(Put(w1, newId, g, true), op, k, newId), Answered(newId, g.row))
      else if !IsTerminal(f.row.status) then (Filed(w, op, k, k.id), Answered(k.id, f.row))
      else (w, Refused(NotReopenable))
  }

  /** The same of a report that would open a related case. */
  lemma RelatedCaseRefusedIff(w: World, op: Id, k: Command, newId: Id, p: CasePolicy, at: Time, actor: Id)
    requires k.Persisting? && Allowed(p) && k.id in w.files
    requires w.files[k.id].row.status.Closed? || Elapsed(w.files[k.id].row, at)
    ensures PersistingSpec(w, None, op, k, newId, Pinned(p), at, actor) == (w, Refused(TargetCheck)) <==> NoRoom(p)
    ensures PersistingSpec(w, None, op, k, newId, Pinned(p), at, actor).1.Answered? <==> !NoRoom(p)
  {
    PinnedHasRoomIff(p);
  }

  /** record_customer_response when the issue does not persist. */
  function ResponseSpec(w: World, op: Id, k: Command, at: Time): (World, Outcome)
    requires k.Response?
  {
    if k.id !in w.files then (w, Refused(NoSuchCase))
    else
      var f := RespondedFile(w.files[k.id], at);
      (Filed(Put(w, k.id, f, Reopenable(w.files[k.id].row, at)), op, k, k.id), Answered(k.id, f.row))
  }

  function TimerSpec(w: World, id: Id, at: Time, actor: Id): World {
    if id in w.files then Put(w, id, TimedFile(w.files[id], at, actor), false) else w
  }

  /** What a repeated operation gets, before anything else is looked at. */
  function Replay(w: World, op: Id, k: Command): Option<Outcome> {
    if op !in w.receipts then None
    else if w.receipts[op].command != k then Some(Refused(IdempotencyConflict))
    else Some(Answered(w.receipts[op].id, w.receipts[op].row))
  }

  /** An operation seen before is answered from its receipt and changes nothing. */
  function Once(w: World, op: Id, k: Command, done: (World, Outcome)): (World, Outcome) {
    if Replay(w, op, k).Some? then (w, Replay(w, op, k).value) else done
  }
}
