/**
 The delivery ledger: an effect is run only by the caller whose claim was committed first, and
 whatever happens afterwards is recorded once.
 */
module Delivery {
  import opened Wrappers

  type Id = nat

  datatype Status = Succeeded | Refused | Failed | Uncertain

  datatype Note = Plain(text: string) | PayloadConflict | InterruptedDelivery | Unconfirmed

  datatype Outcome = Outcome(operation: string, status: Status, note: Note)

  /** What running the effect came to; `sensitive` is what the response filter rejects. */
  datatype Attempt = Raised | Returned(outcome: Outcome, sensitive: bool)

  datatype Progress = Claimed | Done(outcome: Outcome)

  datatype Row = Row(digest: string, operation: string, progress: Progress)

  function Rejection(operation: string): Outcome { Outcome(operation, Refused, PayloadConflict) }
  function Interruption(operation: string): Outcome { Outcome(operation, Uncertain, InterruptedDelivery) }

  function Confirmed(operation: string, attempt: Attempt): Outcome {
    if attempt.Returned? && attempt.outcome.operation == operation && !attempt.sensitive
    then attempt.outcome else Outcome(operation, Uncertain, Unconfirmed)
  }

  /** UPDATE ... WHERE status = 'CLAIMED'. */
  function Finished(row: Row, outcome: Outcome): Row {
    if row.progress.Claimed? then row.(progress := Done(outcome)) else row
  }

  predicate SameCall(row: Row, digest: string, operation: string) {
    row.digest == digest && row.operation == operation
  }

  /** What one undisturbed call leaves and answers. */
  function OnceSpec(row: Option<Row>, digest: string, operation: string, attempt: Attempt): (Row, Outcome) {
    if row.None? then (Row(digest, operation, Done(Confirmed(operation, attempt))), Confirmed(operation, attempt))
    else if !SameCall(row.value, digest, operation) then (row.value, Rejection(operation))
    else if row.value.progress.Done? then (row.value, row.value.progress.outcome)
    else (row.value.(progress := Done(Interruption(operation))), Interruption(operation))
  }

  class Ledger {
    var rows: map<string, Row>
    var effects: seq<string>

    constructor ()
      ensures rows == map[] && effects == []
    {
      rows, effects := map[], [];
    }

    method Finish(key: string, outcome: Outcome)
      requires key in rows
      modifies this`rows
      ensures rows == old(rows)[key := Finished(old(rows)[key], outcome)]
    {
      var row := rows[key];
      if row.progress.Claimed? {
        row := row.(progress := Done(outcome));
      }
      rows := rows[key := row];
    }

    /** `attempt` is what the effect would do if it were run now. */
    method Once(key: string, digest: string, operation: string, attempt: Attempt) returns (answer: Outcome)
      modifies this
      ensures var row := if key in old(rows) then Some(old(rows)[key]) else None;
        && rows == old(rows)[key := OnceSpec(row, digest, operation, attempt).0]
        && answer == OnceSpec(row, digest, operation, attempt).1
        && effects == (if row.None? then old(effects) + [key] else old(effects))
    {
      var interrupted := key in rows;
      if key in rows {
        assert rows[key := rows[key]] == rows;
        var row := rows[key];
        if (row.digest, row.operation) != (digest, operation) { return Rejection(operation); }
        if row.progress.Done? { return row.progress.outcome; }
      } else {
        rows := rows[key := Row(digest, operation, Claimed)];
      }
      if interrupted {
        answer := Interruption(operation);
      } else {
        effects := effects + [key];
        answer := Outcome(operation, Uncertain, Unconfirmed);
        if attempt.Returned? && attempt.outcome.operation == operation && !attempt.sensitive {
          answer := attempt.outcome;
        }
      }
      Finish(key, answer);
    }
  }

  /** An effect is confirmed only by its own operation's presentable answer; anything else may have happened. */
  lemma ConfirmationOutcome(operation: string, attempt: Attempt)
    ensures var outcome := Confirmed(operation, attempt);
      && outcome.operation == operation
      && (attempt.Raised? || attempt.sensitive || attempt.outcome.operation != operation ==>
           outcome.status == Uncertain && outcome.note == Unconfirmed)
      && (attempt.Returned? && !attempt.sensitive && attempt.outcome.operation == operation ==> outcome == attempt.outcome)
  {
  }

  /** What a caller is told when the effect was not run for it: refused for another payload, uncertain after an interruption. */
  lemma OnceWithoutEffect(row: Row, digest: string, operation: string, attempt: Attempt)
    ensures var (row', answer) := OnceSpec(Some(row), digest, operation, attempt);
      var same := row.digest == digest && row.operation == operation;
      && (!same ==> row' == row && answer.status == Refused && answer.note == PayloadConflict && answer.operation == operation)
      && (same && row.progress.Done? ==> row' == row && answer == row.progress.outcome)
      && (same && row.progress.Claimed? ==>
           row' == row.(progress := Done(answer)) && answer.status == Uncertain && answer.note == InterruptedDelivery)
  {
  }

  // ---- Every interleaving of callers of one key ----

  /** A caller between its two transactions: allowed to run the effect, or about to record an outcome. */
  datatype Phase = Allowed | Settling(outcome: Outcome)

  /**
   `serialized` says whether callers hold the key's advisory mutex; `answers` are the outcomes given
   to callers that came with the row's own digest and operation.
   */
  datatype Cell = Cell(
    row: Option<Row>, callers: map<Id, Phase>, guard: Option<Id>, effects: nat,
    returned: Option<Outcome>, answers: seq<Outcome>, serialized: bool)

  datatype Event =
    | Begin(caller: Id, digest: string, operation: string)
    | Effect(caller: Id, attempt: Attempt)
    | Record(caller: Id)
    | Crash(caller: Id)

  function Enter(c: Cell, x: Id, phase: Phase): Cell {
    c.(callers := c.callers[x := phase], guard := if c.serialized then Some(x) else c.guard)
  }

  function Leave(c: Cell, x: Id): Cell {
    c.(callers := c.callers - {x}, guard := if c.guard == Some(x) then None else c.guard)
  }

  function BeginStep(c: Cell, x: Id, digest: string, operation: string): Cell {
    if x in c.callers || (c.serialized && c.guard.Some?) then c
    else if c.row.None? then Enter(c.(row := Some(Row(digest, operation, Claimed))), x, Allowed)
    else if !SameCall(c.row.value, digest, operation) then c
    else if c.row.value.progress.Done? then c.(answers := c.answers + [c.row.value.progress.outcome])
    else Enter(c, x, Settling(Interruption(operation)))
  }

  function EffectStep(c: Cell, x: Id, attempt: Attempt): Cell {
    if x in c.callers && c.callers[x].Allowed? && c.row.Some? then
      var outcome := Confirmed(c.row.value.operation, attempt);
      c.(effects := c.effects + 1, returned := Some(outcome), callers := c.callers[x := Settling(outcome)])
    else c
  }

  function RecordStep(c: Cell, x: Id): Cell {
    if x in c.callers && c.callers[x].Settling? && c.row.Some? then
      var outcome := c.callers[x].outcome;
      Leave(c, x).(row := Some(Finished(c.row.value, outcome)), answers := c.answers + [outcome])
    else c
  }

  function Step(c: Cell, e: Event): Cell {
    match e
    case Begin(x, digest, operation) => BeginStep(c, x, digest, operation)
    case Effect(x, attempt) => EffectStep(c, x, attempt)
    case Record(x) => RecordStep(c, x)
    case Crash(x) => if x in c.callers then Leave(c, x) else c
  }

  function Run(c: Cell, es: seq<Event>): Cell {
    if es == [] then c else Step(Run(c, es[..|es| - 1]), es[|es| - 1])
  }

  function Untouched(serialized: bool): Cell {
    Cell(None, map[], None, 0, None, [], serialized)
  }

  predicate PhaseInv(c: Cell, phase: Phase)
    requires c.row.Some?
  {
    match phase
    case Allowed => c.effects == 0 && c.returned.None?
    case Settling(outcome) => outcome == Interruption(c.row.value.operation) || c.returned == Some(outcome)
  }

  ghost predicate EffectInv(c: Cell) {
    && c.effects == (if c.returned.Some? then 1 else 0)
    && (c.row.None? ==> c.callers == map[] && c.effects == 0 && c.answers == [])
    && (c.row.Some? ==> forall x :: x in c.callers ==> PhaseInv(c, c.callers[x]))
    && (forall x, y :: x in c.callers && y in c.callers && c.callers[x].Allowed? && c.callers[y].Allowed? ==> x == y)
    && (c.row.Some? && c.row.value.progress.Done? ==>
         c.row.value.progress.outcome == Interruption(c.row.value.operation)
         || c.returned == Some(c.row.value.progress.outcome))
  }

  ghost predicate MutexInv(c: Cell) {
    c.serialized ==>
      && (c.guard.Some? <==> c.callers != map[]) && (forall x :: x in c.callers ==> c.guard == Some(x))
      && (c.row.Some? && c.row.value.progress.Claimed? ==> c.answers == [])
      && (c.row.Some? && c.row.value.progress.Done? ==>
           c.callers == map[] && forall k :: 0 <= k < |c.answers| ==> c.answers[k] == c.row.value.progress.outcome)
  }

  ghost predicate Inv(c: Cell) {
    EffectInv(c) && MutexInv(c)
  }

  lemma BeginKeeps(c: Cell, x: Id, digest: string, operation: string)
    requires Inv(c)
    ensures Inv(BeginStep(c, x, digest, operation))
  {
  }

  lemma RecordKeeps(c: Cell, x: Id)
    requires Inv(c)
    ensures Inv(RecordStep(c, x))
  {
    if x in c.callers && c.callers[x].Settling? {
      assert PhaseInv(c, c.callers[x]);
      if c.serialized { assert Leave(c, x).callers == map[]; }
    }
  }

  lemma StepKeeps(c: Cell, e: Event)
    requires Inv(c)
    ensures Inv(Step(c, e))
  {
    match e
    case Begin(x, digest, operation) => BeginKeeps(c, x, digest, operation);
    case Record(x) => RecordKeeps(c, x);
    case Effect(x, _) =>
    case Crash(x) =>
  }

  lemma {:induction false} RunKeeps(c: Cell, es: seq<Event>)
    requires Inv(c)
    ensures Inv(Run(c, es))
  {
    if es != [] {
      RunKeeps(c, es[..|es| - 1]);
      StepKeeps(Run(c, es[..|es| - 1]), es[|es| - 1]);
    }
  }

  ghost predicate Reachable(c: Cell) {
    exists serialized: bool, es: seq<Event> :: c == Run(Untouched(serialized), es)
  }

  lemma ReachableInv(c: Cell)
    requires Reachable(c)
    ensures Inv(c)
  {
    var serialized: bool, es: seq<Event> :| c == Run(Untouched(serialized), es);
    RunKeeps(Untouched(serialized), es);
  }

  /**
   Over all retries and crashes the effect runs at most once, mutex or not; and what is recorded is
   what it came to, or that it was interrupted.
   */
  lemma EffectAtMostOnce(c: Cell)
    requires Reachable(c)
    ensures c.effects <= 1
    ensures c.row.Some? && c.row.value.progress.Done? ==>
      c.row.value.progress.outcome == Interruption(c.row.value.operation)
      || (c.effects == 1 && c.returned == Some(c.row.value.progress.outcome))
  {
    ReachableInv(c);
  }

  /** A recorded outcome is never changed, and every later matching call is answered with it; another payload never is. */
  lemma {:induction false} RecordIsFinal(c: Cell, es: seq<Event>, digest: string, operation: string)
    requires c.row.Some? && c.row.value.progress.Done?
    ensures Run(c, es).row == c.row
    ensures OnceSpec(Run(c, es).row, digest, operation, Raised) ==
      (c.row.value, if SameCall(c.row.value, digest, operation) then c.row.value.progress.outcome else Rejection(operation))
  {
    if es != [] { RecordIsFinal(c, es[..|es| - 1], digest, operation); }
  }

  /** With the mutex, every matching caller that got an answer got the same one. */
  lemma AnswersAgree(c: Cell, i: nat, k: nat)
    requires Reachable(c) && c.serialized && i < |c.answers| && k < |c.answers|
    ensures c.answers[i] == c.answers[k] && c.row.Some? && c.row.value.progress == Done(c.answers[i])
  {
    ReachableInv(c);
  }

  /** Without it, a retry that arrives while the effect runs records UNCERTAIN, and the effect's own caller is told otherwise. */
  lemma WithoutMutexAnswersDiffer(digest: string, operation: string, attempt: Attempt, x: Id, y: Id)
    requires x != y
    ensures var es := [] + [Begin(x, digest, operation)] + [Begin(y, digest, operation)] + [Effect(x, attempt)]
                      + [Record(y)] + [Record(x)];
      Run(Untouched(false), es).answers == [Interruption(operation), Confirmed(operation, attempt)]
  {
    var c := Untouched(false);
    RunSnoc(c, [], Begin(x, digest, operation));
    var e1 := [] + [Begin(x, digest, operation)];
    RunSnoc(c, e1, Begin(y, digest, operation));
    var e2 := e1 + [Begin(y, digest, operation)];
    RunSnoc(c, e2, Effect(x, attempt));
    var e3 := e2 + [Effect(x, attempt)];
    RunSnoc(c, e3, Record(y));
    RunSnoc(c, e3 + [Record(y)], Record(x));
  }

  lemma RunSnoc(c: Cell, es: seq<Event>, e: Event)
    ensures Run(c, es + [e]) == Step(Run(c, es), e)
  {
    assert (es + [e])[..|es|] == es;
  }

  /** A claim whose caller crashed never runs its effect again and can only be recorded as interrupted. */
  lemma {:induction false} InterruptedClaimEndsUncertain(c: Cell, es: seq<Event>)
    requires Reachable(c) && c.row.Some? && c.row.value.progress.Claimed? && c.callers == map[]
    ensures var c' := Run(c, es);
      && c'.row.Some? && c'.effects == c.effects && c'.row.value.operation == c.row.value.operation
      && (c'.row.value.progress.Claimed? || c'.row.value.progress == Done(Interruption(c.row.value.operation)))
      && forall x :: x in c'.callers ==> c'.callers[x] == Settling(Interruption(c.row.value.operation))
  {
    if es != [] { InterruptedClaimEndsUncertain(c, es[..|es| - 1]); }
  }

  function Undisturbed(x: Id, digest: string, operation: string, attempt: Attempt): seq<Event> {
    [Begin(x, digest, operation), Effect(x, attempt), Record(x)]
  }

  /** The ledger's single call is exactly an undisturbed run of its two transactions with the effect between them. */
  lemma OnceIsARun(c: Cell, x: Id, digest: string, operation: string, attempt: Attempt)
    requires c.callers == map[] && c.guard.None?
    ensures var c' := Run(c, Undisturbed(x, digest, operation, attempt));
      var (row, answer) := OnceSpec(c.row, digest, operation, attempt);
      && c'.row == Some(row) && c'.callers == map[] && c'.guard.None?
      && c'.effects == c.effects + (if c.row.None? then 1 else 0)
      && c'.answers == (if c.row.Some? && !SameCall(c.row.value, digest, operation) then c.answers else c.answers + [answer])
  {
    var es := Undisturbed(x, digest, operation, attempt);
    assert es[..2] == [es[0], es[1]] && es[..2][..1] == [es[0]] && es[..1][..0] == [];
    assert Run(c, es[..2][..1]) == Step(c, es[0]);
    assert Run(c, es[..2]) == Step(Step(c, es[0]), es[1]);
    assert Step(c, es[0]).callers - {x} == map[];
  }

  /** A crashed caller blocks nobody: the next one is admitted, mutex or not, and settles an unfinished claim. */
  lemma CrashedCallerIsReplaced(c: Cell, x: Id, y: Id)
    requires Reachable(c) && x in c.callers && y !in c.callers
    requires c.row.Some? && c.row.value.progress.Claimed? && (!c.serialized ==> c.callers.Keys == {x})
    ensures var row := c.row.value;
      var c1 := Step(c, Crash(x));
      var c2 := Step(Step(c1, Begin(y, row.digest, row.operation)), Record(y));
      && x !in c1.callers && c1.row == c.row && c1.effects == c.effects
      && c2.row == Some(row.(progress := Done(Interruption(row.operation)))) && c2.effects == c.effects
  {
    ReachableInv(c);
  }
}
