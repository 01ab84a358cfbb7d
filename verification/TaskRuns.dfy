/** Task transactions run alone: what each of them does when nothing interferes. */
module TaskRuns {
  import opened Domain
  import opened RowLocks
  import opened TaskUpdate
  import opened TaskLocks
  import opened UnassignHistory

  /** No transaction is open. */
  predicate Idle(s: State)
  {
    s.work == map[] && s.db.sessions == map[]
  }

  /** Some run leads from `s` to `s'`. */
  ghost predicate Leads(s: State, s': State)
  {
    exists steps :: Feasible(s, steps) && Execute(s, steps) == s'
  }

  lemma LeadsNowhere(s: State)
    ensures Leads(s, s)
  {
    assert Feasible(s, []) && Execute(s, []) == s;
  }

  lemma LeadsOn(s: State, s': State, step: Step)
    requires Leads(s, s') && Enabled(s', step)
    ensures Leads(s, Apply(s', step))
  {
    hide Enabled, Apply;
    var steps :| Feasible(s, steps) && Execute(s, steps) == s';
    AppendStep(s, steps, step);
  }

  /** The state of a lone transaction between two steps. */
  function Alone(s: State, tid: nat, w: Work, locked: map<Id, Option<Task>>, writes: map<Id, Option<Task>>, clock: nat): State
  {
    State(Database(s.db.rows, map[tid := Session(locked, writes)]), map[tid := w], s.log, s.entries, clock)
  }

  lemma FreeAlone(s: State, tid: nat, w: Work, locked: map<Id, Option<Task>>, writes: map<Id, Option<Task>>, clock: nat)
    ensures forall i :: Free(Alone(s, tid, w, locked, writes, clock).db, tid, i)
  {
  }

  lemma StartAlone(s: State, tid: nat, op: Op)
    requires Idle(s) && (op.Create? ==> op.row.version == 1)
    ensures Leads(s, Alone(s, tid, Work(op, 0, {}, 0), map[], map[], s.clock + 1))
  {
    hide Leads;
    LeadsNowhere(s);
    LeadsOn(s, s, Start(tid, op));
    assert Apply(s, Start(tid, op)) == Alone(s, tid, Work(op, 0, {}, 0), map[], map[], s.clock + 1);
  }

  /** The commit of a lone transaction. */
  lemma FinishAlone(s: State, tid: nat, w: Work, locked: map<Id, Option<Task>>, writes: map<Id, Option<Task>>, clock: nat) returns (s': State)
    requires Leads(s, Alone(s, tid, w, locked, writes, clock)) && 0 < w.stage && (w.op.Delete? || w.op.Unassign? ==> w.stage == 2)
    ensures Leads(s, s') && Idle(s') && s'.db.rows == Written(s.db.rows, writes)
    ensures forall i :: EntriesOf(s', i) == EntriesOf(s, i) + if i in Recorded(writes, w) then 1 else 0
  {
    hide Leads, KindOf;
    var st := Alone(s, tid, w, locked, writes, clock);
    LeadsOn(s, st, Finish(tid));
    s' := Apply(st, Finish(tid));
  }

  /** A creation adds its row and one audit entry. */
  lemma CreateAlone(s: State, tid: nat, row: Task) returns (s': State)
    requires Idle(s) && row.version == 1 && row.id !in s.log && row.id !in s.db.rows
    ensures Leads(s, s') && Idle(s') && s'.db.rows == s.db.rows[row.id := row]
    ensures forall i :: EntriesOf(s', i) == EntriesOf(s, i) + if i == row.id then 1 else 0
  {
    hide Leads, Free;
    var op, i := Create(row), row.id;
    StartAlone(s, tid, op);
    var s0 := Alone(s, tid, Work(op, 0, {}, 0), map[], map[], s.clock + 1);
    FreeAlone(s, tid, Work(op, 0, {}, 0), map[], map[], s.clock + 1);
    LeadsOn(s, s0, InsertRow(tid));
    assert Apply(s0, InsertRow(tid)) == Alone(s, tid, Work(op, 1, {}, 0), map[i := None], map[i := Some(row)], s.clock + 2);
    s' := FinishAlone(s, tid, Work(op, 1, {}, 0), map[i := None], map[i := Some(row)], s.clock + 2);
  }

  lemma LockAlone(s: State, tid: nat, op: Op, i: Id)
    requires Idle(s) && i in s.db.rows && ((op.Update? && op.target == i) || (op.Delete? && op.victim == i))
    ensures Leads(s, Alone(s, tid, Work(op, 1, {}, 0), map[i := Some(s.db.rows[i])], map[], s.clock + 2))
  {
    hide Leads, Free;
    StartAlone(s, tid, op);
    var s0 := Alone(s, tid, Work(op, 0, {}, 0), map[], map[], s.clock + 1);
    FreeAlone(s, tid, Work(op, 0, {}, 0), map[], map[], s.clock + 1);
    LeadsOn(s, s0, LockForUpdate(tid));
    assert Apply(s0, LockForUpdate(tid)) == Alone(s, tid, Work(op, 1, {}, 0), map[i := Some(s.db.rows[i])], map[], s.clock + 2);
  }

  /** An accepted update writes the row it asks for and one audit entry. */
  lemma UpdateAlone(s: State, tid: nat, op: Op) returns (s': State)
    requires Idle(s) && op.Update? && op.target in s.db.rows && Accepted(s.db.rows[op.target], op)
    ensures Leads(s, s') && Idle(s') && s'.db.rows == s.db.rows[op.target := UpdatedRow(s.db.rows[op.target], op)]
    ensures forall i :: EntriesOf(s', i) == EntriesOf(s, i) + if i == op.target then 1 else 0
  {
    hide Leads, Free, Accepted, UpdatedRow;
    var i, row := op.target, s.db.rows[op.target];
    var held, writes := map[i := Some(row)], map[i := Some(UpdatedRow(row, op))];
    LockAlone(s, tid, op, i);
    var s1 := Alone(s, tid, Work(op, 1, {}, 0), held, map[], s.clock + 2);
    FreeAlone(s, tid, Work(op, 1, {}, 0), held, map[], s.clock + 2);
    LeadsOn(s, s1, UpdateRow(tid));
    assert held[i := Some(row)] == held;
    assert Apply(s1, UpdateRow(tid)).db.sessions == map[tid := Session(held, writes)];
    assert Apply(s1, UpdateRow(tid)) == Alone(s, tid, Work(op, 2, {}, 0), held, writes, s.clock + 3);
    s' := FinishAlone(s, tid, Work(op, 2, {}, 0), held, writes, s.clock + 3);
    assert Written(s.db.rows, writes) == s.db.rows[i := UpdatedRow(row, op)];
  }

  /** A deletion takes its row. */
  lemma DeleteAlone(s: State, tid: nat, i: Id) returns (s': State)
    requires Idle(s) && i in s.db.rows
    ensures Leads(s, s') && Idle(s') && s'.db.rows == s.db.rows - {i}
  {
    hide Leads, Free;
    var op, held, writes := Delete(i), map[i := Some(s.db.rows[i])], map[i := None];
    LockAlone(s, tid, op, i);
    var s1 := Alone(s, tid, Work(op, 1, {}, 0), held, map[], s.clock + 2);
    FreeAlone(s, tid, Work(op, 1, {}, 0), held, map[], s.clock + 2);
    LeadsOn(s, s1, DeleteRow(tid));
    assert held[i := Some(s.db.rows[i])] == held;
    assert Apply(s1, DeleteRow(tid)).db.sessions == map[tid := Session(held, writes)];
    assert Apply(s1, DeleteRow(tid)) == Alone(s, tid, Work(op, 2, {}, 0), held, writes, s.clock + 3);
    s' := FinishAlone(s, tid, Work(op, 2, {}, 0), held, writes, s.clock + 3);
  }

  // ----- unassign -----

  lemma RecordOne(s: State, tid: nat, op: Op, recorded: set<Id>, locked: map<Id, Option<Task>>, clock: nat, i: Id)
    requires op.Unassign? && i in s.db.rows && Affected(s.db.rows[i], op)
    ensures var st := Alone(s, tid, Work(op, 0, recorded, 0), locked, map[], clock);
      && Enabled(st, RecordRow(tid, i))
      && Apply(st, RecordRow(tid, i)) == Alone(s, tid, Work(op, 0, recorded + {i}, 0), locked[i := Some(s.db.rows[i])], map[], clock + 1)
  {
    hide Free, Affected;
    FreeAlone(s, tid, Work(op, 0, recorded, 0), locked, map[], clock);
  }

  lemma {:induction false} RecordAll(s: State, tid: nat, op: Op, recorded: set<Id>, locked: map<Id, Option<Task>>, clock: nat, ids: seq<Id>)
    returns (locked': map<Id, Option<Task>>, clock': nat)
    requires op.Unassign? && forall i :: i in ids ==> i in s.db.rows && Affected(s.db.rows[i], op)
    requires Leads(s, Alone(s, tid, Work(op, 0, recorded, 0), locked, map[], clock))
    ensures Leads(s, Alone(s, tid, Work(op, 0, recorded + (set i | i in ids), 0), locked', map[], clock'))
    decreases |ids|
  {
    hide Leads, Enabled, Apply, Affected, Alone;
    if ids == [] {
      locked', clock' := locked, clock;
      assert recorded + (set i | i in ids) == recorded;
    } else {
      RecordOne(s, tid, op, recorded, locked, clock, ids[0]);
      LeadsOn(s, Alone(s, tid, Work(op, 0, recorded, 0), locked, map[], clock), RecordRow(tid, ids[0]));
      locked', clock' := RecordAll(s, tid, op, recorded + {ids[0]}, locked[ids[0] := Some(s.db.rows[ids[0]])], clock + 1, ids[1..]);
      assert ids == [ids[0]] + ids[1..];
      assert recorded + {ids[0]} + (set i | i in ids[1..]) == recorded + set i | i in ids;
    }
  }

  lemma UnassignOne(s: State, tid: nat, w: Work, locked: map<Id, Option<Task>>, writes: map<Id, Option<Task>>, clock: nat, i: Id)
    requires w.op.Unassign? && w.stage == 1 && i in s.db.rows && Affected(s.db.rows[i], w.op) && i !in writes
    ensures var st := Alone(s, tid, w, locked, writes, clock);
      && Enabled(st, UnassignRow(tid, i))
      && Apply(st, UnassignRow(tid, i)) ==
         Alone(s, tid, w, locked[i := Some(s.db.rows[i])], writes[i := Some(s.db.rows[i].Unassigned(w.op.when))], clock + 1)
  {
    hide Free, Affected;
    FreeAlone(s, tid, w, locked, writes, clock);
  }

  lemma {:induction false} UnassignAll(s: State, tid: nat, w: Work, locked: map<Id, Option<Task>>, writes: map<Id, Option<Task>>, clock: nat, ids: seq<Id>)
    returns (locked': map<Id, Option<Task>>, writes': map<Id, Option<Task>>, clock': nat)
    requires w.op.Unassign? && w.stage == 1 && forall i :: i in ids ==> i in s.db.rows && Affected(s.db.rows[i], w.op) && i !in writes
    requires forall a, b :: 0 <= a < b < |ids| ==> ids[a] != ids[b]
    requires Leads(s, Alone(s, tid, w, locked, writes, clock))
    requires forall i :: i in writes ==> i in s.db.rows && writes[i] == Some(s.db.rows[i].Unassigned(w.op.when))
    ensures Leads(s, Alone(s, tid, w, locked', writes', clock'))
    ensures forall i :: i in writes' <==> i in writes || i in ids
    ensures forall i :: i in writes' ==> i in s.db.rows && writes'[i] == Some(s.db.rows[i].Unassigned(w.op.when))
    decreases |ids|
  {
    hide Leads, Enabled, Apply, Affected, Alone;
    if ids == [] {
      locked', writes', clock' := locked, writes, clock;
    } else {
      var i := ids[0];
      UnassignOne(s, tid, w, locked, writes, clock, i);
      LeadsOn(s, Alone(s, tid, w, locked, writes, clock), UnassignRow(tid, i));
      locked', writes', clock' :=
        UnassignAll(s, tid, w, locked[i := Some(s.db.rows[i])], writes[i := Some(s.db.rows[i].Unassigned(w.op.when))], clock + 1, ids[1..]);
      assert ids == [i] + ids[1..];
    }
  }

  lemma EndRecordingAlone(s: State, tid: nat, op: Op, recorded: set<Id>, locked: map<Id, Option<Task>>, clock: nat)
    requires op.Unassign? && Leads(s, Alone(s, tid, Work(op, 0, recorded, 0), locked, map[], clock))
    requires forall i :: i in s.db.rows && Affected(s.db.rows[i], op) ==> i in recorded
    ensures Leads(s, Alone(s, tid, Work(op, 1, recorded, clock), locked, map[], clock + 1))
  {
    hide Leads, Affected;
    var st := Alone(s, tid, Work(op, 0, recorded, 0), locked, map[], clock);
    LeadsOn(s, st, EndRecording(tid));
    assert Apply(st, EndRecording(tid)) == Alone(s, tid, Work(op, 1, recorded, clock), locked, map[], clock + 1);
  }

  lemma EndUnassigningAlone(s: State, tid: nat, w: Work, locked: map<Id, Option<Task>>, writes: map<Id, Option<Task>>, clock: nat)
    requires w.op.Unassign? && w.stage == 1 && Leads(s, Alone(s, tid, w, locked, writes, clock))
    requires forall i :: i in s.db.rows && Affected(s.db.rows[i], w.op) ==> i in writes
    ensures Leads(s, Alone(s, tid, w.(stage := 2), locked, writes, clock + 1))
  {
    hide Leads, Affected;
    var st := Alone(s, tid, w, locked, writes, clock);
    LeadsOn(s, st, EndUnassigning(tid));
    assert Apply(st, EndUnassigning(tid)) == Alone(s, tid, w.(stage := 2), locked, writes, clock + 1);
  }

  /** Alone, an unassign takes the user off every task of theirs in the team, each with one audit
      entry, and touches no other task. `ids` lists those tasks. */
  lemma UnassignAlone(s: State, tid: nat, op: Op, ids: seq<Id>) returns (s': State)
    requires Idle(s) && op.Unassign? && forall a, b :: 0 <= a < b < |ids| ==> ids[a] != ids[b]
    requires forall i :: i in ids <==> i in s.db.rows && s.db.rows[i].team == op.team && s.db.rows[i].assignee == Some(op.member)
    ensures Leads(s, s') && Idle(s') && s'.db.rows.Keys == s.db.rows.Keys
    ensures forall i :: i in ids ==> s'.db.rows[i] == s.db.rows[i].(assignee := None, updatedAt := op.when, version := s.db.rows[i].version + 1)
    ensures forall i :: i in s.db.rows && i !in ids ==> s'.db.rows[i] == s.db.rows[i]
    ensures forall i :: EntriesOf(s', i) == EntriesOf(s, i) + if i in ids then 1 else 0
  {
    hide Leads, Alone, Enabled, Apply;
    assert forall i :: i in ids <==> i in s.db.rows && Affected(s.db.rows[i], op);
    hide Affected;
    var all := set i | i in ids;
    StartAlone(s, tid, op);
    var locked, clock := RecordAll(s, tid, op, {}, map[], s.clock + 1, ids);
    assert {} + all == all;
    EndRecordingAlone(s, tid, op, all, locked, clock);
    var w := Work(op, 1, all, clock);
    var locked', writes, clock' := UnassignAll(s, tid, w, locked, map[], clock + 1, ids);
    EndUnassigningAlone(s, tid, w, locked', writes, clock');
    s' := FinishAlone(s, tid, w.(stage := 2), locked', writes, clock' + 1);
  }

  /** Any transaction may abort at any point, and leaves no trace in rows, log or audit entries. */
  lemma AbortLeavesNothing(s: State, tid: nat)
    requires tid in s.work && tid in s.db.sessions
    ensures Enabled(s, Abort(tid))
    ensures var s' := Apply(s, Abort(tid));
      s'.db.rows == s.db.rows && s'.log == s.log && s'.entries == s.entries && tid !in s'.work && tid !in s'.db.sessions
  {
  }
}
