/** The case service's methods as one transaction runs them, statement by statement. */
module CaseService {
  import opened Wrappers
  import opened Clock
  import opened Cases
  import opened Provenance

  /** The cases, case_events, case_operations and timer rows under one deduplication key. */
  class Desk {
    var files: map<Id, File>
    var timers: set<(Id, Time)>
    var receipts: map<Id, Receipt>

    function State(): World
      reads this
    {
      World(files, timers, receipts)
    }

    constructor ()
      ensures State() == World(map[], {}, map[])
    {
      files, timers, receipts := map[], {}, map[];
    }

    /** The equivalence query: finds the open case, and `many` when it would meet two. */
    method Equivalent() returns (seen: Option<Id>, many: bool)
      ensures !many ==> IsEquivalent(State(), seen)
      ensures many <==> exists a, b :: Active(State(), a) && Active(State(), b) && a != b
    {
      seen, many := None, false;
      var rest := files.Keys;
      while rest != {}
        invariant rest <= files.Keys
        invariant seen.Some? ==> Active(State(), seen.value) && seen.value !in rest
        invariant many ==> exists a, b :: Active(State(), a) && Active(State(), b) && a != b
        invariant forall id :: Active(State(), id) && id !in rest ==> seen.Some? && (many || id == seen.value)
        decreases |rest|
      {
        var id :| id in rest;
        if !IsTerminal(files[id].row.status) {
          if seen.Some? {
            assert Active(State(), id) && Active(State(), seen.value) && id != seen.value;
            many := true;
          } else {
            seen := Some(id);
          }
        }
        rest := rest - {id};
      }
    }

    method Schedule(id: Id)
      requires id in files
      modifies this`timers
      ensures timers == old(timers) + Timers(id, files[id].row)
    {
      var row := files[id].row;
      if row.status == Resolved {
        if row.closeAt.Some? {
          timers := timers + {(id, row.closeAt.value)};
        }
      } else {
        timers := timers + {(id, row.approachingAt)} + {(id, row.targetAt)};
      }
    }

    method Save(id: Id, row: Case, kind: Kind)
      requires id in files
      modifies this`files
      ensures files == old(files)[id := Logged(old(files)[id], row, kind)]
    {
      var before := files[id];
      files := files[id := before.(row := row)];
      files := files[id := files[id].(history := before.history + [Entry(kind, row.revision, Some(before.row.status), row.status)])];
    }

    /** `_change`: refused, and so rolled back, when the table has no such edge. */
    method Change(id: Id, to: Status, at: Time, result: Option<string>, actor: Id) returns (ok: bool)
      requires id in files
      modifies this`files, this`timers
      ensures ok <==> CanMove(old(files)[id].row.status, to)
      ensures State() == if ok
        then Put(old(State()), id, ChangedFile(old(files)[id], to, at, result, actor), to.Resolved? || to.Reopened?)
        else old(State())
    {
      var c := files[id].row;
      ok := CanMove(c.status, to);
      if !ok { return; }
      var row := c.(status := to, revision := c.revision + 1, updatedAt := at);
      if to == Resolved {
        row := row.(resolvedAt := Some(at), closeAt := Some(at + c.policy.closeAfter));
      } else if to == Reopened {
        row := row.(resolvedAt := None, closeAt := None, result := None, recordedBy := None);
        row := row.(approachingAt := at + c.policy.approach, targetAt := at + c.policy.respond, target := OnTrack);
      }
      if result.Some? {
        row := row.(result := result, recordedBy := Some(actor));
      }
      Save(id, row, StateChanged);
      if to == Resolved || to == Reopened {
        Schedule(id);
      }
    }

    /** False when the table's CHECK on the target instants refuses the row. */
    method Create(newId: Id, content: Content, status: Status, policy: Policy, at: Time) returns (ok: bool)
      modifies this`files, this`timers
      ensures ok <==> TargetsFit(NewCase(content, status, policy, at))
      ensures State() == if ok then Put(old(State()), newId, NewFile(content, status, policy, at), true) else old(State())
    {
      ok := TargetsFit(NewCase(content, status, policy, at));
      if !ok { return; }
      files := files[newId := File(NewCase(content, status, policy, at), [Entry(Created, 1, None, status)])];
      Schedule(newId);
    }

    function Replayed(op: Id, k: Command): Outcome
      requires op in receipts
      reads this
    {
      if receipts[op].command != k then Refused(IdempotencyConflict) else Answered(receipts[op].id, receipts[op].row)
    }

    method FindOrCreate(op: Id, k: Command, seen: Option<Id>, newId: Id, policy: Policy, at: Time, actor: Id)
      returns (outcome: Outcome)
      requires k.Intake? && (seen.Some? ==> seen.value in files)
      modifies this
      ensures (State(), outcome) == Once(old(State()), op, k, IntakeSpec(old(State()), seen, op, k, newId, policy, at, actor))
    {
      if op in receipts { return Replayed(op, k); }
      var files0, timers0 := files, timers;
      var previous := seen;
      if previous.Some? && Elapsed(files[previous.value].row, at) {
        var ok := Change(previous.value, Closed, at, None, actor);
        previous := None;
      }
      // a conflict raised after the sweep rolls it back with everything else
      if k.known.Some? && previous != k.known {
        files, timers := files0, timers0;
        return Refused(ChangedNeedsReview);
      }
      var id := newId;
      if previous.None? {
        if k.expected.Some? && k.expected.value != 0 {
          files, timers := files0, timers0;
          return Refused(ChangedNeedsReview);
        }
        var created := Create(newId, k.content, k.initial, policy, at);
        if !created {
          files, timers := files0, timers0;
          return Refused(TargetCheck);
        }
      } else {
        id := previous.value;
        var row := files[id].row;
        var kind := IntakeReused;
        if k.expected.Some? {
          if !IsIntake(row.status) { return Refused(NeedsBackoffice); }
          var changed := row.content.digest != k.content.digest;
          if changed && k.expected.value != row.revision { return Refused(ChangedNeedsReview); }
          if !changed && row.status != k.initial { return Refused(NeedsBackoffice); }
          var merging := MergeProvenance(row.content.claims, row.content.messages, k.content.messages);
          if merging.Conflict? { return Refused(MessageConflict); }
          if merging.TooMany? { return Refused(TooManyMessages); }
          if changed { kind := IntakeUpdated; }
          row := row.(content := row.content.(digest := k.content.digest, messages := merging.messages), status := k.initial, updatedAt := at,
                      revision := row.revision + if changed then 1 else 0);
        }
        Save(id, row, kind);
      }
      receipts := receipts[op := Receipt(k, id, files[id].row)];
      return Answered(id, files[id].row);
    }

    method Transition(op: Id, k: Command, at: Time, actor: Id) returns (outcome: Outcome)
      requires k.Transition?
      modifies this
      ensures (State(), outcome) == Once(old(State()), op, k, TransitionSpec(old(State()), op, k, at, actor))
    {
      if op in receipts { return Replayed(op, k); }
      if k.to == Reopened || k.to == Closed { return Refused(UseReopenOrTimer); }
      if k.result.Some? && k.to != Resolved && k.to != Rejected { return Refused(ResultNeedsDecision); }
      if k.id !in files || files[k.id].row.revision != k.revision { return Refused(ChangedNeedsReview); }
      if files[k.id].row.status == PendingApproval && (k.to == InProgress || k.to == Rejected) && !k.approval {
        return Refused(ApprovalNeeded);
      }
      var ok := Change(k.id, k.to, at, k.result, actor);
      if !ok { return Refused(BadTransition); }
      receipts := receipts[op := Receipt(k, k.id, files[k.id].row)];
      return Answered(k.id, files[k.id].row);
    }

    /** `seen` is what the equivalence query returns after the case itself has been closed. */
    method ReportPersisting(op: Id, k: Command, seen: Option<Id>, newId: Id, policy: Policy, at: Time, actor: Id)
      returns (outcome: Outcome)
      requires k.Persisting? && (seen.Some? ==> seen.value in files)
      modifies this
      ensures (State(), outcome) == Once(old(State()), op, k, PersistingSpec(old(State()), seen, op, k, newId, policy, at, actor))
    {
      if op in receipts { return Replayed(op, k); }
      if k.id !in files { return Refused(NoSuchCase); }
      var files0, timers0 := files, timers;
      var row := files[k.id].row;
      var id := k.id;
      if row.status == Resolved && row.closeAt.Some? && at < row.closeAt.value {
        var ok := Change(k.id, Reopened, at, None, actor);
      } else if row.status == Closed || (row.status == Resolved && row.closeAt.Some? && at >= row.closeAt.value) {
        if row.status == Resolved {
          var ok := Change(k.id, Closed, at, None, actor);
        }
        if seen.Some? {
          id := seen.value;
        } else {
          id := newId;
          var created := Create(newId, row.content, Open, policy, at);
          if !created {
            files, timers := files0, timers0;
            return Refused(TargetCheck);
          }
        }
      } else if IsTerminal(row.status) {
        return Refused(NotReopenable);
      }
      receipts := receipts[op := Receipt(k, id, files[id].row)];
      return Answered(id, files[id].row);
    }

    method RecordResponse(op: Id, k: Command, at: Time) returns (outcome: Outcome)
      requires k.Response?
      modifies this
      ensures (State(), outcome) == Once(old(State()), op, k, ResponseSpec(old(State()), op, k, at))
    {
      if op in receipts { return Replayed(op, k); }
      if k.id !in files { return Refused(NoSuchCase); }
      var row := files[k.id].row;
      if row.status == Resolved && row.closeAt.Some? && at < row.closeAt.value {
        Save(k.id, row.(closeAt := Some(at + row.policy.closeAfter), updatedAt := at, revision := row.revision + 1), CustomerResponse);
        Schedule(k.id);
      } else {
        Save(k.id, row, CustomerResponse);
      }
      receipts := receipts[op := Receipt(k, k.id, files[k.id].row)];
      return Answered(k.id, files[k.id].row);
    }

    method ProcessTimer(id: Id, at: Time, actor: Id)
      modifies this
      ensures State() == TimerSpec(old(State()), id, at, actor)
    {
      if id !in files { return; }
      assert files[id := files[id]] == files;
      var row := files[id].row;
      if row.status == Resolved {
        if row.closeAt.Some? && at >= row.closeAt.value {
          var ok := Change(id, Closed, at, None, actor);
        }
        return;
      }
      if IsTerminal(row.status) { return; }
      var target := if at >= row.targetAt then Overdue else if at >= row.approachingAt then Approaching else OnTrack;
      if target == row.target || target == OnTrack { return; }
      Save(id, row.(target := target, updatedAt := at), TargetAlert);
    }
  }
}
