/**
 Every interleaving over the cases of one deduplication key.  Intake and persisting-issue reports
 hold the dedupe lock from before they look for an equivalent case until they commit; transitions,
 customer responses and timers take only the row they change, also in between.
 */
module CaseRuns {
  import opened Wrappers
  import opened Clock
  import opened Cases
  import opened Provenance

  datatype Stage = Waiting | Looked(seen: Option<Id>, at: Time)

  datatype Holder = Holder(op: Id, command: Command, stage: Stage)

  datatype Cell = Cell(w: World, holder: Option<Holder>)

  datatype Event =
    | Lock(op: Id, command: Command)
    | Look(seen: Option<Id>, at: Time)
    | Commit(newId: Id, policy: Policy, actor: Id)
    | Abort
    | Move(op: Id, command: Command, at: Time, actor: Id)
    | Respond(op: Id, command: Command, at: Time)
    | Fire(id: Id, due: Time, at: Time, actor: Id)    // the timer put for `due`

  /** The tables as the holder's query sees them: a report closes its own elapsed case first. */
  function QueriedBy(w: World, k: Command, at: Time): World {
    if k.Persisting? && k.id in w.files && Elapsed(w.files[k.id].row, at) then CloseElapsed(w, k.id, at, 0) else w
  }

  ghost predicate MaySee(w: World, k: Command, seen: Option<Id>, at: Time) {
    IsEquivalent(QueriedBy(w, k, at), seen)
  }

  function LockedRows(h: Holder): set<Id> {
    match h.stage
    case Waiting => {}
    case Looked(seen, _) =>
      (if seen.Some? then {seen.value} else {}) + (if h.command.Persisting? then {h.command.id} else {})
  }

  predicate RowFree(c: Cell, id: Id) {
    c.holder.Some? ==> id !in LockedRows(c.holder.value)
  }

  predicate OpFree(c: Cell, op: Id) {
    op !in c.w.receipts && (c.holder.Some? ==> op != c.holder.value.op)
  }

  function CommitStep(c: Cell, newId: Id, policy: Policy, actor: Id): Cell {
    if c.holder.None? || c.holder.value.stage.Waiting? || newId in c.w.files || !ValidPolicy(policy) then c
    else
      var h := c.holder.value;
      var seen, at := h.stage.seen, h.stage.at;
      if seen.Some? && seen.value !in c.w.files then c
      else if h.command.Intake? then Cell(IntakeSpec(c.w, seen, h.op, h.command, newId, policy, at, actor).0, None)
      else if h.command.Persisting? then Cell(PersistingSpec(c.w, seen, h.op, h.command, newId, policy, at, actor).0, None)
      else c
  }

  ghost function Step(c: Cell, e: Event): Cell {
    match e
    case Lock(op, k) =>
      if c.holder.None? && op !in c.w.receipts && (k.Intake? ==> IsIntake(k.initial)) && (k.Intake? || k.Persisting?)
      then c.(holder := Some(Holder(op, k, Waiting))) else c
    case Look(seen, at) =>
      if c.holder.Some? && c.holder.value.stage.Waiting? && MaySee(c.w, c.holder.value.command, seen, at)
      then c.(holder := Some(c.holder.value.(stage := Looked(seen, at)))) else c
    case Commit(newId, policy, actor) => CommitStep(c, newId, policy, actor)
    case Abort => c.(holder := None)
    case Move(op, k, at, actor) =>
      if OpFree(c, op) && k.Transition? && RowFree(c, k.id) then c.(w := TransitionSpec(c.w, op, k, at, actor).0) else c
    case Respond(op, k, at) =>
      if OpFree(c, op) && k.Response? && RowFree(c, k.id) then c.(w := ResponseSpec(c.w, op, k, at).0) else c
    case Fire(id, _, at, actor) => if RowFree(c, id) then c.(w := TimerSpec(c.w, id, at, actor)) else c
  }

  ghost function Run(c: Cell, es: seq<Event>): Cell {
    if es == [] then c else Step(Run(c, es[..|es| - 1]), es[|es| - 1])
  }

  const EMPTY := Cell(World(map[], {}, map[]), None)

  // ---- One case ----

  predicate RowInv(c: Case) {
    && c.revision >= 1
    && (c.closeAt.Some? <==> c.status.Resolved? || c.status.Closed?)
    && (c.resolvedAt.Some? <==> c.status.Resolved? || c.status.Closed?)
    && (c.result.Some? ==> c.status.Resolved? || c.status.Rejected? || c.status.Closed?)
    && (c.result.Some? <==> c.recordedBy.Some?)
    && c.targetAt - c.approachingAt == c.policy.respond - c.policy.approach
    && TargetsFit(c) && ValidPolicy(c.policy)
    && (c.status.Resolved? ==> c.closeAt == Some(c.updatedAt + c.policy.closeAfter))
  }

  /** An edge of the table, an intake move inside the intake states, or no move. */
  predicate Legal(e: Entry) {
    e.from.Some? && match e.kind
    case StateChanged => CanMove(e.from.value, e.to)
    case IntakeUpdated => IsIntake(e.from.value) && IsIntake(e.to)
    case Created => false
    case _ => e.from.value == e.to
  }

  predicate Follows(e: Entry, f: Entry) {
    f.from == Some(e.to) && e.revision <= f.revision && Legal(f)
  }

  predicate Chained(h: seq<Entry>) {
    if |h| == 0 then false
    else if |h| == 1 then h[0].kind == Created && h[0].from == None && h[0].revision == 1
    else Chained(h[..|h| - 1]) && Follows(h[|h| - 2], h[|h| - 1])
  }

  /** The row is sound and its history replays to it. */
  predicate Sound(f: File) {
    && RowInv(f.row) && Chained(f.history)
    && f.history[|f.history| - 1].to == f.row.status && f.history[|f.history| - 1].revision == f.row.revision
  }

  lemma LoggedIsSound(f: File, row: Case, kind: Kind)
    requires Sound(f) && RowInv(row) && row.revision >= f.row.revision
    requires Legal(Entry(kind, row.revision, Some(f.row.status), row.status))
    ensures Sound(Logged(f, row, kind))
  {
    var h := Logged(f, row, kind).history;
    assert h[..|h| - 1] == f.history;
  }

  lemma ChangedIsSound(f: File, to: Status, at: Time, result: Option<string>, actor: Id)
    requires Sound(f) && CanMove(f.row.status, to) && (result.Some? ==> to.Resolved? || to.Rejected?)
    ensures Sound(ChangedFile(f, to, at, result, actor))
  {
    LoggedIsSound(f, ChangedRow(f.row, to, at, result, actor), StateChanged);
  }

  lemma TimedIsSound(f: File, at: Time, actor: Id)
    requires Sound(f)
    ensures Sound(TimedFile(f, at, actor))
  {
    var target := TargetAt(at, f.row.approachingAt, f.row.targetAt);
    if Elapsed(f.row, at) {
      ChangedIsSound(f, Closed, at, None, actor);
    } else if !f.row.status.Resolved? {
      LoggedIsSound(f, f.row.(target := target, updatedAt := at), TargetAlert);
    }
  }

  lemma RespondedIsSound(f: File, at: Time)
    requires Sound(f)
    ensures Sound(RespondedFile(f, at))
  {
    LoggedIsSound(f, f.row, CustomerResponse);
    if Reopenable(f.row, at) {
      LoggedIsSound(f, f.row.(closeAt := Some(at + f.row.policy.closeAfter), updatedAt := at, revision := f.row.revision + 1),
                    CustomerResponse);
    }
  }

  lemma MergedIsSound(id: Id, f: File, content: Content, initial: Status, expected: Option<nat>, at: Time)
    requires Sound(f) && IsIntake(initial)
    ensures var m := MergeInto(f, content, initial, expected, at); m.Update? ==> Sound(m.file)
    ensures var m := MergeInto(f, content, initial, expected, at); m.Update? ==>
      !IsTerminal(m.file.row.status) && Timers(id, m.file.row) == Timers(id, f.row)
    ensures Sound(Logged(f, f.row, IntakeReused))
  {
    LoggedIsSound(f, f.row, IntakeReused);
    var m := MergeInto(f, content, initial, expected, at);
    if m.Update? {
      var changed := f.row.content.digest != content.digest;
      LoggedIsSound(f, m.file.row, if changed then IntakeUpdated else IntakeReused);
    }
  }

  // ---- All cases ----

  ghost predicate OneOpen(w: World) {
    forall a, b :: Active(w, a) && Active(w, b) ==> a == b
  }

  /** The outbox holds a timer at each of the row's current instants. */
  ghost predicate Timed(w: World, id: Id, row: Case) {
    IsTerminal(row.status) || Timers(id, row) <= w.timers
  }

  ghost predicate WorldInv(w: World) {
    && OneOpen(w)
    && forall id :: id in w.files ==> Sound(w.files[id]) && Timed(w, id, w.files[id].row)
  }

  ghost predicate HolderInv(c: Cell) {
    c.holder.Some? ==>
      var h := c.holder.value;
      && (h.command.Intake? ==> IsIntake(h.command.initial))
      && (h.stage.Looked? ==> MaySee(c.w, h.command, h.stage.seen, h.stage.at))
  }

  ghost predicate Inv(c: Cell) {
    WorldInv(c.w) && HolderInv(c)
  }

  /** Writing one sound file: it may be open only if it was, or if nothing else is. */
  lemma PutKeeps(w: World, id: Id, f: File, schedule: bool)
    requires WorldInv(w) && Sound(f)
    requires !IsTerminal(f.row.status) ==> Active(w, id) || IsEquivalent(w, None)
    requires schedule || IsTerminal(f.row.status) || (Active(w, id) && Timers(id, f.row) == Timers(id, w.files[id].row))
    ensures WorldInv(Put(w, id, f, schedule))
  {
    var w' := Put(w, id, f, schedule);
    forall a, b | Active(w', a) && Active(w', b) ensures a == b {
      assert a != id ==> Active(w, a);
      assert b != id ==> Active(w, b);
    }
  }

  lemma FiledKeeps(w: World, op: Id, k: Command, id: Id)
    requires WorldInv(w) && id in w.files
    ensures WorldInv(Filed(w, op, k, id))
  {
    var w' := Filed(w, op, k, id);
    forall a, b | Active(w', a) && Active(w', b) ensures a == b {
      assert Active(w, a) && Active(w, b);
    }
  }

  lemma CloseElapsedKeeps(w: World, id: Id, at: Time, actor: Id)
    requires WorldInv(w) && id in w.files && Elapsed(w.files[id].row, at)
    ensures WorldInv(CloseElapsed(w, id, at, actor)) && IsEquivalent(CloseElapsed(w, id, at, actor), None)
  {
    var w' := CloseElapsed(w, id, at, actor);
    ChangedIsSound(w.files[id], Closed, at, None, actor);
    PutKeeps(w, id, ChangedFile(w.files[id], Closed, at, None, actor), false);
    assert Active(w, id);
    forall a ensures !Active(w', a) {
      if Active(w', a) { assert Active(w, a) && a != id; }
    }
  }

  /** A new case under a key nothing is open under, if the table takes it. */
  lemma CreateKeeps(w: World, op: Id, k: Command, newId: Id, content: Content, status: Status, policy: Policy, at: Time)
    requires WorldInv(w) && IsEquivalent(w, None) && IsIntake(status) && ValidPolicy(policy)
    ensures TargetsFit(NewCase(content, status, policy, at)) ==>
      WorldInv(Filed(Put(w, newId, NewFile(content, status, policy, at), true), op, k, newId))
  {
    if TargetsFit(NewCase(content, status, policy, at)) {
      PutKeeps(w, newId, NewFile(content, status, policy, at), true);
      FiledKeeps(Put(w, newId, NewFile(content, status, policy, at), true), op, k, newId);
    }
  }

  lemma MergeKeeps(w: World, id: Id, op: Id, k: Command, at: Time)
    requires WorldInv(w) && k.Intake? && IsIntake(k.initial) && Active(w, id)
    ensures WorldInv(Filed(Put(w, id, Logged(w.files[id], w.files[id].row, IntakeReused), false), op, k, id))
    ensures var m := MergeInto(w.files[id], k.content, k.initial, k.expected, at);
      m.Update? ==> WorldInv(Filed(Put(w, id, m.file, false), op, k, id))
  {
    var f := w.files[id];
    var reused := Logged(f, f.row, IntakeReused);
    MergedIsSound(id, f, k.content, k.initial, k.expected, at);
    PutKeeps(w, id, reused, false);
    FiledKeeps(Put(w, id, reused, false), op, k, id);
    var m := MergeInto(f, k.content, k.initial, k.expected, at);
    if m.Update? {
      PutKeeps(w, id, m.file, false);
      FiledKeeps(Put(w, id, m.file, false), op, k, id);
    }
  }

  lemma IntakeKeeps(w: World, seen: Option<Id>, op: Id, k: Command, newId: Id, policy: Policy, at: Time, actor: Id)
    requires WorldInv(w) && k.Intake? && IsIntake(k.initial) && IsEquivalent(w, seen) && newId !in w.files && ValidPolicy(policy)
    ensures WorldInv(IntakeSpec(w, seen, op, k, newId, policy, at, actor).0)
  {
    if seen.Some? && Elapsed(w.files[seen.value].row, at) {
      CloseElapsedKeeps(w, seen.value, at, actor);
      CreateKeeps(CloseElapsed(w, seen.value, at, actor), op, k, newId, k.content, k.initial, policy, at);
    } else if seen.None? {
      CreateKeeps(w, op, k, newId, k.content, k.initial, policy, at);
    } else {
      MergeKeeps(w, seen.value, op, k, at);
    }
  }

  lemma PersistingKeeps(w: World, seen: Option<Id>, op: Id, k: Command, newId: Id, policy: Policy, at: Time, actor: Id)
    requires WorldInv(w) && k.Persisting? && MaySee(w, k, seen, at) && newId !in w.files && ValidPolicy(policy)
    requires seen.Some? ==> seen.value in w.files
    ensures WorldInv(PersistingSpec(w, seen, op, k, newId, policy, at, actor).0)
  {
    if k.id in w.files {
      var f := w.files[k.id];
      if Reopenable(f.row, at) {
        var g := ChangedFile(f, Reopened, at, None, actor);
        assert Active(w, k.id);
        ChangedIsSound(f, Reopened, at, None, actor);
        PutKeeps(w, k.id, g, true);
        FiledKeeps(Put(w, k.id, g, true), op, k, k.id);
      } else if f.row.status.Closed? || Elapsed(f.row, at) {
        var w1 := if f.row.status.Resolved? then CloseElapsed(w, k.id, at, actor) else w;
        if f.row.status.Resolved? { CloseElapsedKeeps(w, k.id, at, actor); }
        if seen.None? {
          CreateKeeps(w1, op, k, newId, f.row.content, Open, policy, at);
        } else {
          FiledKeeps(w1, op, k, seen.value);
        }
      } else {
        FiledKeeps(w, op, k, k.id);
      }
    }
  }

  // ---- Steps ----

  lemma CommitKeeps(c: Cell, newId: Id, policy: Policy, actor: Id)
    requires Inv(c)
    ensures Inv(CommitStep(c, newId, policy, actor))
  {
    if c.holder.Some? && c.holder.value.stage.Looked? && newId !in c.w.files && ValidPolicy(policy) {
      var h := c.holder.value;
      if h.stage.seen.Some? ==> h.stage.seen.value in c.w.files {
        if h.command.Intake? {
          IntakeKeeps(c.w, h.stage.seen, h.op, h.command, newId, policy, h.stage.at, actor);
        } else if h.command.Persisting? {
          PersistingKeeps(c.w, h.stage.seen, h.op, h.command, newId, policy, h.stage.at, actor);
        }
      }
    }
  }

  /** One row, not locked by the holder, rewritten without ever being revived. */
  ghost predicate RowLevel(w: World, w': World, id: Id) {
    && w'.files.Keys == w.files.Keys
    && (forall other :: other in w.files && other != id ==> w'.files[other] == w.files[other])
    && (Active(w', id) ==> Active(w, id))
  }

  /** Whatever the holder's query saw is still right after another transaction's row-level write. */
  lemma QueryStaysRight(c: Cell, w': World, id: Id)
    requires Inv(c) && RowFree(c, id) && RowLevel(c.w, w', id)
    ensures HolderInv(c.(w := w'))
  {
    if c.holder.Some? && c.holder.value.stage.Looked? {
      var h := c.holder.value;
      var q, q' := QueriedBy(c.w, h.command, h.stage.at), QueriedBy(w', h.command, h.stage.at);
      if h.stage.seen.None? {
        forall a ensures !Active(q', a) {
          assert !Active(q, a);
        }
      }
    }
  }

  /** A row-level transaction: one free row rewritten soundly and never revived, with or without a receipt. */
  lemma RowWriteKeeps(c: Cell, id: Id, f: File, schedule: bool, op: Id, k: Command)
    requires Inv(c) && RowFree(c, id) && id in c.w.files && Sound(f)
    requires !IsTerminal(f.row.status) ==> Active(c.w, id)
    requires schedule || IsTerminal(f.row.status) || Timers(id, f.row) == Timers(id, c.w.files[id].row)
    ensures Inv(c.(w := Put(c.w, id, f, schedule)))
    ensures Inv(c.(w := Filed(Put(c.w, id, f, schedule), op, k, id)))
  {
    var w' := Put(c.w, id, f, schedule);
    PutKeeps(c.w, id, f, schedule);
    FiledKeeps(w', op, k, id);
    QueryStaysRight(c, w', id);
    QueryStaysRight(c, Filed(w', op, k, id), id);
  }

  lemma MoveKeeps(c: Cell, op: Id, k: Command, at: Time, actor: Id)
    requires Inv(c) && k.Transition? && RowFree(c, k.id)
    ensures Inv(c.(w := TransitionSpec(c.w, op, k, at, actor).0))
  {
    if TransitionSpec(c.w, op, k, at, actor).1.Answered? {
      var f := c.w.files[k.id];
      ChangedIsSound(f, k.to, at, k.result, actor);
      TerminalHasNoEdge(f.row.status);
      RowWriteKeeps(c, k.id, ChangedFile(f, k.to, at, k.result, actor), k.to.Resolved?, op, k);
    }
  }

  lemma RespondKeeps(c: Cell, op: Id, k: Command, at: Time)
    requires Inv(c) && k.Response? && RowFree(c, k.id)
    ensures Inv(c.(w := ResponseSpec(c.w, op, k, at).0))
  {
    if k.id in c.w.files {
      RespondedIsSound(c.w.files[k.id], at);
      RowWriteKeeps(c, k.id, RespondedFile(c.w.files[k.id], at), Reopenable(c.w.files[k.id].row, at), op, k);
    }
  }

  lemma FireKeeps(c: Cell, id: Id, at: Time, actor: Id)
    requires Inv(c) && RowFree(c, id)
    ensures Inv(c.(w := TimerSpec(c.w, id, at, actor)))
  {
    if id in c.w.files {
      TimedIsSound(c.w.files[id], at, actor);
      RowWriteKeeps(c, id, TimedFile(c.w.files[id], at, actor), false, 0, Response(id, []));
    }
  }

  lemma StepKeeps(c: Cell, e: Event)
    requires Inv(c)
    ensures Inv(Step(c, e))
  {
    match e
    case Lock(_, _) =>
    case Look(_, _) =>
    case Abort =>
    case Commit(newId, policy, actor) => CommitKeeps(c, newId, policy, actor);
    case Move(op, k, at, actor) => if k.Transition? && RowFree(c, k.id) { MoveKeeps(c, op, k, at, actor); }
    case Respond(op, k, at) => if k.Response? && RowFree(c, k.id) { RespondKeeps(c, op, k, at); }
    case Fire(id, _, at, actor) => if RowFree(c, id) { FireKeeps(c, id, at, actor); }
  }

  lemma {:induction false} RunKeeps(c: Cell, es: seq<Event>)
    requires Inv(c)
    ensures Inv(Run(c, es))
  {
    if es != [] {
      RunKeeps(c, es[..|es| - 1]);
      StepKeeps(Run(c, es[..|es| - 1]), es[|es| - 1]);
    }
  }

  // ---- What follows for whole runs ----

  ghost predicate Reachable(c: Cell) {
    exists es: seq<Event> :: c == Run(EMPTY, es)
  }

  lemma ReachableInv(c: Cell)
    requires Reachable(c)
    ensures Inv(c)
  {
    var es: seq<Event> :| c == Run(EMPTY, es);
    RunKeeps(EMPTY, es);
  }

  /**
   At most one case is open per key, although transitions, responses and timers take no dedupe lock:
   the equivalence query has exactly one answer, and the holder's stays right until it commits.
   */
  lemma OneOpenCase(c: Cell, a: Option<Id>, b: Option<Id>)
    requires Reachable(c)
    ensures IsEquivalent(c.w, a) && IsEquivalent(c.w, b) ==> a == b
    ensures c.holder.Some? && c.holder.value.stage.Looked? ==>
      MaySee(c.w, c.holder.value.command, c.holder.value.stage.seen, c.holder.value.stage.at)
  {
    ReachableInv(c);
  }

  lemma {:induction false} HistoryAt(h: seq<Entry>, k: nat)
    requires Chained(h) && k < |h|
    ensures k == 0 ==> h[0].kind == Created && h[0].from == None && h[0].revision == 1
    ensures k > 0 ==> Follows(h[k - 1], h[k])
  {
    if k < |h| - 1 {
      HistoryAt(h[..|h| - 1], k);
    }
  }

  /**
   The history replays to the case: it starts with CREATED, each event starts where the last ended,
   by a legal move and without lowering the revision, and the last is the row's status and revision.
   */
  lemma HistoryReplays(c: Cell, id: Id, k: nat)
    requires Reachable(c) && id in c.w.files && k < |c.w.files[id].history|
    ensures var h, row := c.w.files[id].history, c.w.files[id].row;
      && h[0].kind == Created && h[0].from == None && h[0].revision == 1
      && (k > 0 ==> h[k].from == Some(h[k - 1].to) && h[k - 1].revision <= h[k].revision)
      && (k > 0 ==> || CanMove(h[k - 1].to, h[k].to) || (IsIntake(h[k - 1].to) && IsIntake(h[k].to)) || h[k - 1].to == h[k].to)
      && h[|h| - 1].to == row.status && h[|h| - 1].revision == row.revision
  {
    ReachableInv(c);
    HistoryAt(c.w.files[id].history, 0);
    HistoryAt(c.w.files[id].history, k);
  }

  /**
   When the closing columns, the customer's result and its author are set; with these the table's CHECK
   constraints hold of every row.  Only an insert under a policy without room between its two instants
   is ever refused by them, and then nothing changes.
   */
  lemma ColumnsFollowStatus(c: Cell, id: Id)
    requires Reachable(c) && id in c.w.files
    ensures var row := c.w.files[id].row;
      && (row.closeAt.Some? <==> row.status.Resolved? || row.status.Closed?)
      && (row.resolvedAt.Some? <==> row.status.Resolved? || row.status.Closed?)
      && (row.result.Some? ==> row.status.Resolved? || row.status.Rejected? || row.status.Closed?)
      && (row.result.Some? <==> row.recordedBy.Some?)
      && row.targetAt > row.approachingAt
  {
    ReachableInv(c);
  }

  /** A resolved case closes exactly its policy's window after the resolution, or the last response that restarted it. */
  lemma ReopenWindowIsExact(c: Cell, id: Id, at: Time)
    requires Reachable(c) && id in c.w.files && c.w.files[id].row.status.Resolved?
    ensures c.w.files[id].row.policy.closeAfter >= HOUR
    ensures var row := c.w.files[id].row;
      && (Elapsed(row, at) <==> at - row.updatedAt >= row.policy.closeAfter)
      && (Reopenable(row, at) <==> at - row.updatedAt < row.policy.closeAfter)
  {
    ReachableInv(c);
  }

  /** Every open case has its timers in the outbox at the instants it currently carries. */
  lemma TimersExist(c: Cell, id: Id)
    requires Reachable(c) && Active(c.w, id)
    ensures var row := c.w.files[id].row;
      if row.status.Resolved? then row.closeAt.Some? && (id, row.closeAt.value) in c.w.timers
      else (id, row.approachingAt) in c.w.timers && (id, row.targetAt) in c.w.timers
  {
    ReachableInv(c);
    assert Timed(c.w, id, c.w.files[id].row) && RowInv(c.w.files[id].row);
  }

  /** The clock reading an event acts on; a commit acts on the one its holder looked with. */
  function TimeOf(c: Cell, e: Event): Option<Time> {
    match e
    case Commit(_, _, _) =>
      if c.holder.Some? && c.holder.value.stage.Looked? then Some(c.holder.value.stage.at) else None
    case Move(_, _, at, _) => Some(at)
    case Respond(_, _, at) => Some(at)
    case Fire(_, _, at, _) => Some(at)
    case _ => None
  }

  /** A later content of the same case: of a claims case every contribution is still there, unchanged and in its place. */
  predicate Keeps(a: Content, b: Content) {
    a.claims == b.claims && (a.claims ==> Collected(a.messages) <= Collected(b.messages))
  }

  predicate Restarted(c: Case, at: Time) {
    c.approachingAt == at + c.policy.approach && c.targetAt == at + c.policy.respond
  }

  /** How one event acting at `at` can change a row. */
  predicate RowStep(a: Case, b: Case, at: Time, fired: bool) {
    || b == a
    || (&& IsIntake(a.status) && IsIntake(b.status) && b.revision >= a.revision && Keeps(a.content, b.content)
        && b == a.(content := b.content, status := b.status, revision := b.revision, updatedAt := at))
    || (&& CanMove(a.status, b.status) && b.revision == a.revision + 1 && b.content == a.content && b.policy == a.policy
        && (b.status.Closed? ==> Elapsed(a, at)) && (b.status.Reopened? ==> Reopenable(a, at))
        && (!b.status.Reopened? ==> b.target == a.target && b.targetAt == a.targetAt && b.approachingAt == a.approachingAt)
        && (b.status.Reopened? ==> b.target == OnTrack && Restarted(b, at)))
    || (Reopenable(a, at) && b == a.(closeAt := b.closeAt, updatedAt := at, revision := a.revision + 1))
    || (&& fired && !IsTerminal(a.status) && !a.status.Resolved?
        && b == a.(target := TargetAt(at, a.approachingAt, a.targetAt), updatedAt := at) && b.target != OnTrack)
  }

  ghost predicate Evolves(w: World, w': World, at: Time, fired: bool) {
    forall id :: id in w.files ==> id in w'.files && RowStep(w.files[id].row, w'.files[id].row, at, fired)
  }

  lemma ChangedEvolves(f: File, to: Status, at: Time, result: Option<string>, actor: Id)
    requires CanMove(f.row.status, to) && (to.Closed? ==> Elapsed(f.row, at)) && (to.Reopened? ==> Reopenable(f.row, at))
    ensures RowStep(f.row, ChangedFile(f, to, at, result, actor).row, at, false)
  {
  }

  lemma MergeEvolves(f: File, content: Content, initial: Status, expected: Option<nat>, at: Time)
    requires IsIntake(initial)
    ensures var m := MergeInto(f, content, initial, expected, at); m.Update? ==> RowStep(f.row, m.file.row, at, false)
  {
    if f.row.content.claims && MergeSpec(true, f.row.content.messages, content.messages).Kept? {
      MergeKeepsAll(f.row.content.messages, content.messages);
    }
  }

  lemma IntakeEvolves(w: World, seen: Option<Id>, op: Id, k: Command, newId: Id, policy: Policy, at: Time, actor: Id)
    requires k.Intake? && IsIntake(k.initial) && (seen.Some? ==> seen.value in w.files) && newId !in w.files
    ensures Evolves(w, IntakeSpec(w, seen, op, k, newId, policy, at, actor).0, at, false)
  {
    if seen.Some? {
      var f := w.files[seen.value];
      if Elapsed(f.row, at) { ChangedEvolves(f, Closed, at, None, actor); }
      MergeEvolves(f, k.content, k.initial, k.expected, at);
    }
  }

  lemma PersistingEvolves(w: World, seen: Option<Id>, op: Id, k: Command, newId: Id, policy: Policy, at: Time, actor: Id)
    requires k.Persisting? && (seen.Some? ==> seen.value in w.files) && newId !in w.files
    ensures Evolves(w, PersistingSpec(w, seen, op, k, newId, policy, at, actor).0, at, false)
  {
    if k.id in w.files {
      var f := w.files[k.id];
      if Reopenable(f.row, at) { ChangedEvolves(f, Reopened, at, None, actor); }
      if Elapsed(f.row, at) { ChangedEvolves(f, Closed, at, None, actor); }
    }
  }

  lemma RowLevelEvolves(c: Cell, e: Event)
    requires e.Move? || e.Respond? || e.Fire?
    ensures Evolves(c.w, Step(c, e).w, e.at, e.Fire?)
  {
    if e.Move? && e.command.Transition? && TransitionSpec(c.w, e.op, e.command, e.at, e.actor).1.Answered? {
      ChangedEvolves(c.w.files[e.command.id], e.command.to, e.at, e.command.result, e.actor);
    } else if e.Fire? && e.id in c.w.files && Elapsed(c.w.files[e.id].row, e.at) {
      ChangedEvolves(c.w.files[e.id], Closed, e.at, None, e.actor);
    }
  }

  /** Every event, on every case that exists before it. */
  lemma StepEvolves(c: Cell, e: Event)
    requires Inv(c)
    ensures if TimeOf(c, e).Some? then Evolves(c.w, Step(c, e).w, TimeOf(c, e).value, e.Fire?) else Step(c, e).w == c.w
  {
    if e.Commit? && c.holder.Some? && c.holder.value.stage.Looked? && e.newId !in c.w.files && ValidPolicy(e.policy) {
      var h := c.holder.value;
      if h.stage.seen.Some? ==> h.stage.seen.value in c.w.files {
        if h.command.Intake? {
          IntakeEvolves(c.w, h.stage.seen, h.op, h.command, e.newId, e.policy, h.stage.at, e.actor);
        } else if h.command.Persisting? {
          PersistingEvolves(c.w, h.stage.seen, h.op, h.command, e.newId, e.policy, h.stage.at, e.actor);
        }
      }
    } else if e.Move? || e.Respond? || e.Fire? {
      RowLevelEvolves(c, e);
    }
  }

  /** CLOSED is entered only from RESOLVED at or after close_at; REOPENED only from RESOLVED before it. */
  lemma ClosingAndReopening(c: Cell, e: Event, id: Id)
    requires Reachable(c) && id in c.w.files
    ensures id in Step(c, e).w.files
    ensures var a, b := c.w.files[id].row, Step(c, e).w.files[id].row;
      && (a.status != Closed && b.status == Closed ==> TimeOf(c, e).Some? && Elapsed(a, TimeOf(c, e).value))
      && (a.status != Reopened && b.status == Reopened ==> TimeOf(c, e).Some? && Reopenable(a, TimeOf(c, e).value))
  {
    ReachableInv(c);
    StepEvolves(c, e);
  }

  /** An approval step is only ever taken by a backoffice move of its own that carries the approval's reference. */
  lemma ApprovalStepNeedsReference(c: Cell, e: Event, id: Id)
    requires Reachable(c) && id in c.w.files && c.w.files[id].row.status.PendingApproval?
    requires var to := Step(c, e).w.files; id in to && (to[id].row.status.InProgress? || to[id].row.status.Rejected?)
    ensures e.Move? && e.command.Transition? && e.command.id == id && e.command.approval
    ensures e.command.revision == c.w.files[id].row.revision
  {
    ReachableInv(c);
    if e.Commit? {
      CommitTakesNoApprovalStep(c, e.newId, e.policy, e.actor, id);
    } else if e.Move? && e.command.Transition? && e.command.id in c.w.files {
      TransitionIff(c.w, e.op, e.command, e.at, e.actor);
    }
  }

  lemma CommitTakesNoApprovalStep(c: Cell, newId: Id, policy: Policy, actor: Id, id: Id)
    requires id in c.w.files && c.w.files[id].row.status.PendingApproval?
    requires c.holder.Some? && c.holder.value.command.Intake? ==> IsIntake(c.holder.value.command.initial)
    ensures id in CommitStep(c, newId, policy, actor).w.files
    ensures CommitStep(c, newId, policy, actor).w.files[id].row.status == PendingApproval || newId == id
  {
  }

  /** A terminal case keeps its row whatever happens; every other row's revision never falls. */
  lemma {:induction false} TerminalIsFinal(c: Cell, id: Id, es: seq<Event>)
    requires Reachable(c) && id in c.w.files
    ensures id in Run(c, es).w.files && Run(c, es).w.files[id].row.revision >= c.w.files[id].row.revision
    ensures IsTerminal(c.w.files[id].row.status) ==> Run(c, es).w.files[id].row == c.w.files[id].row
  {
    ReachableInv(c);
    if es != [] {
      var before, e := Run(c, es[..|es| - 1]), es[|es| - 1];
      TerminalIsFinal(c, id, es[..|es| - 1]);
      RunKeeps(c, es[..|es| - 1]);
      StepKeepsTerminal(before, e, id);
    }
  }

  lemma RowStepKeepsTerminal(a: Case, b: Case, at: Time, fired: bool)
    requires RowStep(a, b, at, fired)
    ensures b.revision >= a.revision && (IsTerminal(a.status) ==> b == a)
  {
  }

  lemma StepKeepsTerminal(c: Cell, e: Event, id: Id)
    requires Inv(c) && id in c.w.files
    ensures id in Step(c, e).w.files && Step(c, e).w.files[id].row.revision >= c.w.files[id].row.revision
    ensures IsTerminal(c.w.files[id].row.status) ==> Step(c, e).w.files[id].row == c.w.files[id].row
  {
    StepEvolves(c, e);
    if TimeOf(c, e).Some? {
      RowStepKeepsTerminal(c.w.files[id].row, Step(c, e).w.files[id].row, TimeOf(c, e).value, e.Fire?);
    }
  }

  /** No contribution to a claims case is ever lost, moved or rewritten by later intakes, whatever else happens to the case. */
  lemma {:induction false} ContributionsAreKept(c: Cell, id: Id, es: seq<Event>)
    requires Reachable(c) && id in c.w.files
    ensures id in Run(c, es).w.files && Keeps(c.w.files[id].row.content, Run(c, es).w.files[id].row.content)
  {
    ReachableInv(c);
    if es != [] {
      var before, e := Run(c, es[..|es| - 1]), es[|es| - 1];
      ContributionsAreKept(c, id, es[..|es| - 1]);
      RunKeeps(c, es[..|es| - 1]);
      StepKeepsContent(before, e, id);
    }
  }

  lemma StepKeepsContent(c: Cell, e: Event, id: Id)
    requires Inv(c) && id in c.w.files
    ensures id in Step(c, e).w.files && Keeps(c.w.files[id].row.content, Step(c, e).w.files[id].row.content)
  {
    StepEvolves(c, e);
    if TimeOf(c, e).Some? {
      assert RowStep(c.w.files[id].row, Step(c, e).w.files[id].row, TimeOf(c, e).value, e.Fire?);
    }
  }

  lemma StepReachable(c: Cell, e: Event)
    requires Reachable(c)
    ensures Reachable(Step(c, e))
  {
    var es: seq<Event> :| c == Run(EMPTY, es);
    assert (es + [e])[..|es|] == es;
    assert Step(c, e) == Run(EMPTY, es + [e]);
  }

  /** No lost update: of two transitions prepared against the same revision, whichever comes second is refused, however much later. */
  lemma SecondWriterIsRefused(c: Cell, first: Event, es: seq<Event>, op: Id, second: Command, at: Time, actor: Id)
    requires Reachable(c) && first.Move? && first.command.Transition? && OpFree(c, first.op) && RowFree(c, first.command.id)
    requires TransitionSpec(c.w, first.op, first.command, first.at, first.actor).1.Answered?
    requires second.Transition? && second.id == first.command.id && second.revision == first.command.revision
    ensures TransitionSpec(Run(Step(c, first), es).w, op, second, at, actor).1.Refused?
  {
    ReachableInv(c);
    StepReachable(c, first);
    TerminalIsFinal(Step(c, first), second.id, es);
  }

  // ---- Response targets ----

  /** Timers fire in clock order, none later than `now`. */
  predicate FiresForward(es: seq<Event>, now: Time) {
    es == [] || (
      var e := es[|es| - 1];
      if e.Fire? then e.at <= now && FiresForward(es[..|es| - 1], e.at) else FiresForward(es[..|es| - 1], now))
  }

  predicate Justified(c: Case, now: Time) {
    (c.target == Overdue ==> now >= c.targetAt) && (c.target == Approaching ==> now >= c.approachingAt)
  }

  lemma {:induction false} TargetsAreJustified(es: seq<Event>, now: Time, id: Id)
    requires FiresForward(es, now) && id in Run(EMPTY, es).w.files
    ensures Justified(Run(EMPTY, es).w.files[id].row, now)
  {
    if es != [] {
      var rest, e := es[..|es| - 1], es[|es| - 1];
      var c := Run(EMPTY, rest);
      RunKeeps(EMPTY, rest);
      if id in c.w.files {
        TargetsAreJustified(rest, if e.Fire? then e.at else now, id);
        StepEvolves(c, e);
        if TimeOf(c, e).Some? {
          RowStepJustifies(c.w.files[id].row, Step(c, e).w.files[id].row, TimeOf(c, e).value, e.Fire?, now);
        }
      } else {
        NewIsOnTrack(c, e, id);
      }
    }
  }

  lemma RowStepJustifies(a: Case, b: Case, at: Time, fired: bool, now: Time)
    requires RowStep(a, b, at, fired) && Justified(a, if fired then at else now) && (fired ==> at <= now)
    ensures Justified(b, now)
    ensures Rank(b.target) >= Rank(a.target) || (a.status == Resolved && b.status == Reopened)
  {
  }

  lemma NewIsOnTrack(c: Cell, e: Event, id: Id)
    requires id !in c.w.files && id in Step(c, e).w.files
    ensures Step(c, e).w.files[id].row.target == OnTrack
  {
  }

  /** With a clock that does not go back, the response target only moves forward until the case is reopened. */
  lemma TargetMovesForward(es: seq<Event>, e: Event, now: Time, id: Id)
    requires FiresForward(es + [e], now) && id in Run(EMPTY, es).w.files
    ensures var a, b := Run(EMPTY, es).w.files[id].row, Run(EMPTY, es + [e]).w.files[id].row;
      Rank(b.target) >= Rank(a.target) || (a.status == Resolved && b.status == Reopened)
  {
    assert (es + [e])[..|es|] == es;
    var c := Run(EMPTY, es);
    RunKeeps(EMPTY, es);
    StepEvolves(c, e);
    TargetsAreJustified(es, if e.Fire? then e.at else now, id);
    if TimeOf(c, e).Some? {
      RowStepJustifies(c.w.files[id].row, Step(c, e).w.files[id].row, TimeOf(c, e).value, e.Fire?, now);
    }
  }

  /** And that is what it needs: a timer takes an alert back exactly when it reads an earlier clock. */
  lemma AlertTakenBackIff(f: File, at: Time)
    requires f.row.approachingAt <= f.row.targetAt
    ensures Rank(AlertedFile(f, at).row.target) < Rank(f.row.target)
      <==> f.row.target == Overdue && f.row.approachingAt <= at < f.row.targetAt
  {
  }

  /** A receipt never changes, so a repeated operation is answered as it was the first time. */
  lemma {:induction false} ReceiptIsFinal(c: Cell, op: Id, es: seq<Event>)
    requires op in c.w.receipts && (c.holder.Some? ==> c.holder.value.op != op)
    ensures op in Run(c, es).w.receipts && Run(c, es).w.receipts[op] == c.w.receipts[op]
    ensures Replay(Run(c, es).w, op, c.w.receipts[op].command)
      == Some(Answered(c.w.receipts[op].id, c.w.receipts[op].row))
    ensures Run(c, es).holder.Some? ==> Run(c, es).holder.value.op != op
  {
    if es != [] {
      ReceiptIsFinal(c, op, es[..|es| - 1]);
      ReceiptStays(Run(c, es[..|es| - 1]), op, es[|es| - 1]);
    }
  }

  lemma ReceiptStays(c: Cell, op: Id, e: Event)
    requires op in c.w.receipts && (c.holder.Some? ==> c.holder.value.op != op)
    ensures op in Step(c, e).w.receipts && Step(c, e).w.receipts[op] == c.w.receipts[op]
    ensures Step(c, e).holder.Some? ==> Step(c, e).holder.value.op != op
  {
  }
}
