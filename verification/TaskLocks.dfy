/** Concurrent create, update, delete and unassign transactions on task rows. */
module TaskLocks {
  import opened Domain
  import opened Rbac
  import opened RowLocks
  import opened TaskUpdate

  /** Roles and members are whatever the unlocked reads of the transaction returned. */
  datatype Op =
    | Create(row: Task)
    | Update(target: Id, user: Id, role: Role, members: set<Id>, req: UpdateRequest, at: int)
    | Delete(victim: Id)
    | Unassign(team: Id, member: Id, when: int)

  /** An operation, the statements it has run, and for an unassign the rows its history statement
      recorded and the moment that statement ended. */
  datatype Work = Work(op: Op, stage: nat, recorded: set<Id>, ended: nat)

  /** What one commit did to one task. An update carries the version its client sent; an unassign
      whom it took off, whether it recorded that, and when its history statement had ended. */
  datatype Kind =
    | WasCreated
    | WasUpdated(carried: int)
    | WasUnassigned(from: Id, user: Id, recorded: bool, ended: nat)
    | WasDeleted

  /** A committed change: its kind, the version it found, the row it left and when. */
  datatype Logged = Logged(kind: Kind, before: int, after: Option<Task>, at: nat)

  /** The rows under lock control, the open transactions, every task's committed changes, the
      entries in its audit log, and a count of the steps taken. */
  datatype State = State(db: Database<Id, Task>, work: map<nat, Work>, log: map<Id, seq<Logged>>, entries: map<Id, nat>, clock: nat)

  datatype Step =
    | Start(tid: nat, op: Op)
    | InsertRow(tid: nat)
    | LockForUpdate(tid: nat)
    | UpdateRow(tid: nat)
    | DeleteRow(tid: nat)
    | RecordRow(tid: nat, row: Id)
    | EndRecording(tid: nat)
    | UnassignRow(tid: nat, row: Id)
    | EndUnassigning(tid: nat)
    | Finish(tid: nat)
    | Abort(tid: nat)

  /** The row UpdateTask writes once its request is accepted against the locked row. */
  function UpdatedRow(t: Task, op: Op): Task
    requires op.Update?
  {
    Requested(t, op.req, op.at).(updatedAt := op.at, version := t.version + 1)
  }

  /** The request matches the locked row's version, is allowed, and changes something. */
  predicate Accepted(t: Task, op: Op)
    requires op.Update?
  {
    && op.req.version == t.version && Refused(op.role, op.user, t, op.req, op.members) == None
    && Diff(t, Requested(t, op.req, op.at)) != map[]
  }

  predicate Affected(t: Task, op: Op)
    requires op.Unassign?
  {
    t.AssignedTo(op.team, op.member)
  }

  /** The transaction holds the row it read with FOR UPDATE. */
  predicate Loaded(s: Session<Id, Task>, i: Id)
  {
    i in s.locked && s.locked[i].Some?
  }

  ghost predicate LockableRow(db: Database<Id, Task>, tid: nat, i: Id)
  {
    tid in db.sessions && i in db.rows && Free(db, tid, i)
  }

  /** Every row the statement looks for is among `found`; a row someone else has locked makes it wait. */
  predicate FoundAll(db: Database<Id, Task>, op: Op, found: set<Id>)
    requires op.Unassign?
  {
    forall i :: i in db.rows && Affected(db.rows[i], op) ==> i in found
  }

  ghost predicate CanRun(s: State, step: Step, w: Work)
  {
    match step
    case Start(_, _) => false
    case InsertRow(tid) => w.op.Create? && w.stage == 0 && w.op.row.id !in s.log && w.op.row.id !in s.db.rows && Free(s.db, tid, w.op.row.id)
    case LockForUpdate(tid) =>
      w.stage == 0 && ((w.op.Update? && LockableRow(s.db, tid, w.op.target)) || (w.op.Delete? && LockableRow(s.db, tid, w.op.victim)))
    case UpdateRow(tid) =>
      && w.op.Update? && w.stage == 1 && LockableRow(s.db, tid, w.op.target) && Loaded(s.db.sessions[tid], w.op.target)
      && Accepted(s.db.sessions[tid].locked[w.op.target].value, w.op)
      && s.db.rows[w.op.target].version == s.db.sessions[tid].locked[w.op.target].value.version
    case DeleteRow(tid) => w.op.Delete? && w.stage == 1 && LockableRow(s.db, tid, w.op.victim)
    case RecordRow(tid, i) => w.op.Unassign? && w.stage == 0 && LockableRow(s.db, tid, i) && Affected(s.db.rows[i], w.op)
    case EndRecording(tid) => w.op.Unassign? && w.stage == 0 && FoundAll(s.db, w.op, w.recorded)
    case UnassignRow(tid, i) =>
      w.op.Unassign? && w.stage == 1 && LockableRow(s.db, tid, i) && i !in s.db.sessions[tid].writes && Affected(s.db.rows[i], w.op)
    case EndUnassigning(tid) => w.op.Unassign? && w.stage == 1 && tid in s.db.sessions && FoundAll(s.db, w.op, s.db.sessions[tid].writes.Keys)
    case Finish(tid) => 0 < w.stage && (w.op.Delete? || w.op.Unassign? ==> w.stage == 2)
    case Abort(_) => true
  }

  ghost predicate Enabled(s: State, step: Step)
  {
    if step.Start? then step.tid !in s.work && step.tid !in s.db.sessions && (step.op.Create? ==> step.op.row.version == 1)
    else step.tid in s.work && step.tid in s.db.sessions && CanRun(s, step, s.work[step.tid])
  }

  /** The kind of change a transaction makes to a row it writes. */
  function KindOf(w: Work, i: Id): Kind
  {
    match w.op
    case Create(_) => WasCreated
    case Update(_, _, _, _, req, _) => WasUpdated(req.version)
    case Delete(_) => WasDeleted
    case Unassign(team, member, _) => WasUnassigned(team, member, i in w.recorded, w.ended)
  }

  function LogOf(log: map<Id, seq<Logged>>, i: Id): seq<Logged>
  {
    if i in log then log[i] else []
  }

  function EntriesOf(s: State, i: Id): nat
  {
    if i in s.entries then s.entries[i] else 0
  }

  function VersionOf(rows: map<Id, Task>, i: Id): int
  {
    if i in rows then rows[i].version else 0
  }

  /** Each row a commit writes gets one log entry. */
  function Extended(log: map<Id, seq<Logged>>, rows: map<Id, Task>, writes: map<Id, Option<Task>>, w: Work, now: nat): map<Id, seq<Logged>>
  {
    map i | i in log.Keys + writes.Keys ::
      if i in writes then LogOf(log, i) + [Logged(KindOf(w, i), VersionOf(rows, i), writes[i], now)] else log[i]
  }

  /** The rows a commit adds an audit entry for: those an unassign recorded, or those written. */
  function Recorded(writes: map<Id, Option<Task>>, w: Work): set<Id>
  {
    if w.op.Unassign? then w.recorded else if w.op.Delete? then {} else writes.Keys
  }

  ghost function Counted(s: State, writes: map<Id, Option<Task>>, w: Work): map<Id, nat>
  {
    map i | i in s.entries.Keys + Recorded(writes, w) :: EntriesOf(s, i) + if i in Recorded(writes, w) then 1 else 0
  }

  /** The effect of a statement on the session and the work of its transaction. */
  ghost function Effect(s: State, step: Step): State
    requires Enabled(s, step)
  {
    if step.Start? then s.(db := Begin(s.db, step.tid), work := s.work[step.tid := Work(step.op, 0, {}, 0)])
    else
      var tid, w := step.tid, s.work[step.tid];
      match step
      case Start(_, _) => s
      case InsertRow(_) => s.(db := Write(LockNew(s.db, tid, w.op.row.id), tid, w.op.row.id, Some(w.op.row)), work := s.work[tid := w.(stage := 1)])
      case LockForUpdate(_) => s.(db := LockRow(s.db, tid, if w.op.Update? then w.op.target else w.op.victim), work := s.work[tid := w.(stage := 1)])
      case UpdateRow(_) =>
        s.(db := Write(LockRow(s.db, tid, w.op.target), tid, w.op.target, Some(UpdatedRow(s.db.sessions[tid].locked[w.op.target].value, w.op))), work := s.work[tid := w.(stage := 2)])
      case DeleteRow(_) => s.(db := Write(LockRow(s.db, tid, w.op.victim), tid, w.op.victim, None), work := s.work[tid := w.(stage := 2)])
      case RecordRow(_, i) => s.(db := LockRow(s.db, tid, i), work := s.work[tid := w.(recorded := w.recorded + {i})])
      case EndRecording(_) => s.(work := s.work[tid := w.(stage := 1, ended := s.clock)])
      case UnassignRow(_, i) => s.(db := Write(LockRow(s.db, tid, i), tid, i, Some(s.db.rows[i].Unassigned(w.op.when))))
      case EndUnassigning(_) => s.(work := s.work[tid := w.(stage := 2)])
      case Finish(_) =>
        var writes := s.db.sessions[tid].writes;
        State(Commit(s.db, tid), s.work - {tid}, Extended(s.log, s.db.rows, writes, w, s.clock), Counted(s, writes, w), s.clock)
      case Abort(_) => s.(db := Rollback(s.db, tid), work := s.work - {tid})
  }

  ghost function Apply(s: State, step: Step): State
    requires Enabled(s, step)
  {
    Effect(s, step).(clock := s.clock + 1)
  }

  ghost predicate Feasible(s: State, steps: seq<Step>)
    decreases |steps|
  {
    steps == [] || (Enabled(s, steps[0]) && Feasible(Apply(s, steps[0]), steps[1..]))
  }

  ghost function Execute(s: State, steps: seq<Step>): State
    requires Feasible(s, steps)
    decreases |steps|
  {
    if steps == [] then s else Execute(Apply(s, steps[0]), steps[1..])
  }

  const EMPTY := State(Database(map[], map[]), map[], map[], map[], 0)

  // ----- the invariant -----

  /** Entry `k` of a task's log found it at version `k`; an update only if its client sent `k`;
      the first entry creates, and nothing follows a deletion. */
  predicate Chain(l: seq<Logged>)
  {
    forall k :: 0 <= k < |l| ==>
      && l[k].before == k
      && (l[k].kind.WasUpdated? ==> l[k].kind.carried == k)
      && (l[k].kind.WasCreated? <==> k == 0)
      && (l[k].kind.WasDeleted? ==> k == |l| - 1)
  }

  predicate Deleted(l: seq<Logged>)
  {
    l != [] && l[|l| - 1].kind.WasDeleted?
  }

  predicate HistoryOk(row: Option<Task>, l: seq<Logged>)
  {
    && Chain(l) && (l != [] ==> l[|l| - 1].after == row)
    && (row.Some? <==> l != [] && !Deleted(l))
    && (row.Some? ==> row.value.version == |l|)
  }

  /** A write that fits what was locked: it creates at version 1, deletes, or adds one to the version. */
  predicate WriteOk(locked: Option<Task>, written: Option<Task>, w: Work)
  {
    if w.op.Create? then locked.None? && written.Some? && written.value.version == 1
    else if w.op.Delete? then locked.Some? && written.None?
    else
      && locked.Some? && written.Some? && written.value.version == locked.value.version + 1
      && (w.op.Update? ==> w.op.req.version == locked.value.version)
  }

  predicate WorkOk(s: Session<Id, Task>, w: Work)
  {
    && (w.stage == 0 ==> s.writes == map[]) && s.writes.Keys <= s.locked.Keys
    && (w.op.Update? && 0 < w.stage ==> Loaded(s, w.op.target))
    && (w.op.Create? ==> w.op.row.version == 1 && s.writes.Keys <= {w.op.row.id})
    && forall i :: i in s.writes ==> i in s.locked && WriteOk(s.locked[i], s.writes[i], w)
  }

  ghost predicate Inv(s: State)
  {
    && Consistent(s.db) && s.work.Keys == s.db.sessions.Keys
    && (forall tid :: tid in s.work ==> WorkOk(s.db.sessions[tid], s.work[tid]))
    && (forall i :: HistoryOk(Row(s.db, i), LogOf(s.log, i)))
    && (forall tid, i :: tid in s.work && s.work[tid].op.Create? && i in s.db.sessions[tid].writes ==> LogOf(s.log, i) == [])
  }

  // ----- every step keeps it -----

  /** A statement that locks one row, or creates its key, and writes it or not. */
  lemma SessionStepKeeps(s: State, s': State, tid: nat, k: Id)
    requires Inv(s) && tid in s.work && tid in s'.db.sessions && Consistent(s'.db)
    requires s'.log == s.log && s'.db.rows == s.db.rows && s'.db.sessions == s.db.sessions[tid := s'.db.sessions[tid]]
    requires tid in s'.work && s'.work == s.work[tid := s'.work[tid]] && WorkOk(s'.db.sessions[tid], s'.work[tid])
    requires s'.work[tid].op == s.work[tid].op
    requires forall i :: i in s'.db.sessions[tid].writes && i != k ==> i in s.db.sessions[tid].writes
    requires s.work[tid].op.Create? && k in s'.db.sessions[tid].writes ==> LogOf(s.log, k) == []
    ensures Inv(s')
  {
    hide Consistent, WorkOk, HistoryOk;
    assert forall i :: Row(s'.db, i) == Row(s.db, i);
  }

  predicate RowStatement(step: Step)
  {
    step.InsertRow? || step.LockForUpdate? || step.UpdateRow? || step.DeleteRow? || step.RecordRow? || step.UnassignRow?
  }

  /** The row a statement of a transaction is about. */
  function RowOf(step: Step, w: Work): Id
    requires RowStatement(step) && (step.InsertRow? ==> w.op.Create?) && (step.LockForUpdate? ==> w.op.Update? || w.op.Delete?)
    requires (step.UpdateRow? ==> w.op.Update?) && (step.DeleteRow? ==> w.op.Delete?)
  {
    if step.InsertRow? then w.op.row.id
    else if step.RecordRow? || step.UnassignRow? then step.row
    else if w.op.Update? then w.op.target else w.op.victim
  }

  lemma StatementConsistent(s: State, step: Step)
    requires Consistent(s.db) && Enabled(s, step) && RowStatement(step)
    ensures Consistent(Apply(s, step).db)
  {
    hide Consistent, Accepted, Affected, UpdatedRow;
    var tid, w := step.tid, s.work[step.tid];
    var k := RowOf(step, w);
    LockKeeps(s.db, tid, k);
    if !step.LockForUpdate? && !step.RecordRow? {
      var db1 := if step.InsertRow? then LockNew(s.db, tid, k) else LockRow(s.db, tid, k);
      WriteKeeps(db1, tid, k, Apply(s, step).db.sessions[tid].writes[k]);
    }
  }

  lemma StatementWorkOk(s: State, step: Step)
    requires Enabled(s, step) && RowStatement(step)
    requires WorkOk(s.db.sessions[step.tid], s.work[step.tid]) && SessionOk(s.db.rows, s.db.sessions[step.tid])
    ensures WorkOk(Apply(s, step).db.sessions[step.tid], Apply(s, step).work[step.tid])
  {
    hide Requested, Refused, Diff;
  }

  lemma StatementKeeps(s: State, step: Step)
    requires Inv(s) && Enabled(s, step) && RowStatement(step)
    ensures Inv(Apply(s, step))
  {
    hide HistoryOk, Consistent, WorkOk, SessionOk, Accepted, Affected, UpdatedRow, Free;
    StatementConsistent(s, step);
    OneSession(s.db, step.tid);
    StatementWorkOk(s, step);
    SessionStepKeeps(s, Apply(s, step), step.tid, RowOf(step, s.work[step.tid]));
  }

  lemma OneSession(db: Database<Id, Task>, tid: nat)
    requires Consistent(db) && tid in db.sessions
    ensures SessionOk(db.rows, db.sessions[tid])
  {
  }

  /** One committed change: the task's version goes up by exactly one, or the task goes away. */
  lemma HistoryGrows(row: Option<Task>, l: seq<Logged>, written: Option<Task>, w: Work, i: Id, now: nat)
    requires HistoryOk(row, l) && WriteOk(row, written, w) && (w.op.Create? ==> l == [])
    ensures HistoryOk(written, l + [Logged(KindOf(w, i), if row.Some? then row.value.version else 0, written, now)])
  {
  }

  lemma FinishKeeps(s: State, tid: nat)
    requires Inv(s) && Enabled(s, Finish(tid))
    ensures Inv(Apply(s, Finish(tid)))
  {
    hide HistoryOk, WriteOk;
    var s' := Apply(s, Finish(tid));
    var writes := s.db.sessions[tid].writes;
    CommitKeeps(s.db, tid);
    OneSession(s.db, tid);
    forall i
      ensures HistoryOk(Row(s'.db, i), LogOf(s'.log, i))
    {
      if i in writes {
        assert i in s.db.sessions[tid].locked && s.db.sessions[tid].locked[i] == Row(s.db, i);
        HistoryGrows(Row(s.db, i), LogOf(s.log, i), writes[i], s.work[tid], i, s.clock);
      } else {
        assert Row(s'.db, i) == Row(s.db, i);
      }
    }
    forall a, i | a in s'.work && s'.work[a].op.Create? && i in s'.db.sessions[a].writes
      ensures LogOf(s'.log, i) == []
    {
      OneSession(s.db, a);
      assert Holds(s.db, a, i) && !Holds(s.db, tid, i);
      assert i !in writes && LogOf(s.log, i) == [];
    }
  }

  lemma StartKeeps(s: State, tid: nat, op: Op)
    requires Inv(s) && Enabled(s, Start(tid, op))
    ensures Inv(Apply(s, Start(tid, op)))
  {
    hide Consistent, HistoryOk;
    BeginKeeps(s.db, tid);
    assert forall i :: Row(Apply(s, Start(tid, op)).db, i) == Row(s.db, i);
  }

  lemma AbortKeeps(s: State, tid: nat)
    requires Inv(s) && Enabled(s, Abort(tid))
    ensures Inv(Apply(s, Abort(tid)))
  {
    hide Consistent, HistoryOk, WorkOk;
    RollbackKeeps(s.db, tid);
    assert forall i :: Row(Apply(s, Abort(tid)).db, i) == Row(s.db, i);
  }

  /** The end of a statement of an unassign. */
  lemma EndKeeps(s: State, step: Step)
    requires Inv(s) && Enabled(s, step) && (step.EndRecording? || step.EndUnassigning?)
    ensures Inv(Apply(s, step))
  {
    hide Consistent, HistoryOk, FoundAll;
  }

  lemma StepKeeps(s: State, step: Step)
    requires Inv(s) && Enabled(s, step)
    ensures Inv(Apply(s, step))
  {
    hide Inv, Enabled, Apply;
    match step
    case Start(tid, op) => StartKeeps(s, tid, op);
    case Finish(tid) => FinishKeeps(s, tid);
    case Abort(tid) => AbortKeeps(s, tid);
    case EndRecording(_) => EndKeeps(s, step);
    case EndUnassigning(_) => EndKeeps(s, step);
    case _ => StatementKeeps(s, step);
  }

  lemma {:induction false} RunKeeps(s: State, steps: seq<Step>)
    requires Inv(s) && Feasible(s, steps)
    ensures Inv(Execute(s, steps))
    decreases |steps|
  {
    hide Inv, Enabled, Apply;
    if steps != [] {
      StepKeeps(s, steps[0]);
      RunKeeps(Apply(s, steps[0]), steps[1..]);
    }
  }

  // ----- over every interleaving -----

  /** A stored task's version is the number of changes committed to it: each added exactly one. */
  lemma VersionCountsCommits(steps: seq<Step>, i: Id)
    requires Feasible(EMPTY, steps) && i in Execute(EMPTY, steps).db.rows
    ensures var s := Execute(EMPTY, steps); i in s.log && s.db.rows[i].version == |s.log[i]|
  {
    RunKeeps(EMPTY, steps);
    hide Feasible, Execute;
    var s := Execute(EMPTY, steps);
    assert HistoryOk(Row(s.db, i), LogOf(s.log, i));
  }

  /** No lost update: of all committed updates of a task, no two carried the same version, and
      each found the task at the version it carried. */
  lemma NoLostUpdate(steps: seq<Step>, i: Id, j: nat, k: nat)
    requires Feasible(EMPTY, steps) && i in Execute(EMPTY, steps).log
    requires var l := Execute(EMPTY, steps).log[i]; j < k < |l| && l[j].kind.WasUpdated? && l[k].kind.WasUpdated?
    ensures var l := Execute(EMPTY, steps).log[i];
      && l[j].kind.carried == l[j].before && l[k].kind.carried == l[k].before
      && l[j].kind.carried < l[k].kind.carried
  {
    RunKeeps(EMPTY, steps);
    hide Feasible, Execute;
    var s := Execute(EMPTY, steps);
    assert HistoryOk(Row(s.db, i), LogOf(s.log, i));
  }

  /** While an update holds the row it read, the stored row is still that row, so the version
      test repeated in the UPDATE statement never refuses it. */
  lemma VersionTestHolds(steps: seq<Step>, tid: nat)
    requires Feasible(EMPTY, steps)
    requires var s := Execute(EMPTY, steps); tid in s.work && s.work[tid].op.Update? && 0 < s.work[tid].stage
    ensures var s := Execute(EMPTY, steps); var i := s.work[tid].op.target;
      tid in s.db.sessions && Loaded(s.db.sessions[tid], i) && Row(s.db, i) == s.db.sessions[tid].locked[i]
  {
    RunKeeps(EMPTY, steps);
    hide Feasible, Execute, HistoryOk;
    var s := Execute(EMPTY, steps);
    OneSession(s.db, tid);
  }
}
