/** The history and update statements of an unassign, and what commits between them. */
module UnassignHistory {
  import opened Domain
  import opened Rbac
  import opened RowLocks
  import opened TaskUpdate
  import opened TaskLocks

  /** After change `k` the task was assigned to the user in the team. */
  predicate AssignedAfter(l: seq<Logged>, k: int, team: Id, user: Id)
    requires k < |l|
  {
    0 <= k && l[k].after.Some? && l[k].after.value.AssignedTo(team, user)
  }

  /** When the assignment in force after change `k` was committed. */
  function Since(l: seq<Logged>, k: nat, team: Id, user: Id): nat
    requires k < |l|
  {
    if AssignedAfter(l, k - 1, team, user) then Since(l, k - 1, team, user) else l[k].at
  }

  /** How many unassigns changed the task without recording it. */
  function Skips(l: seq<Logged>): nat
  {
    if l == [] then 0
    else
      var e := l[|l| - 1];
      Skips(l[..|l| - 1]) + if e.kind.WasUnassigned? && !e.kind.recorded then 1 else 0
  }

  /** Change `k`, if an unassign, took off a user assigned until then, and recorded it exactly
      when their assignment was committed before its history statement ended. */
  predicate UnassignAt(l: seq<Logged>, k: nat)
    requires k < |l|
  {
    l[k].kind.WasUnassigned? ==>
      var WasUnassigned(team, user, recorded, ended) := l[k].kind;
      && AssignedAfter(l, k - 1, team, user)
      && (recorded ==> Since(l, k - 1, team, user) < ended)
      && (!recorded ==> ended < Since(l, k - 1, team, user))
  }

  /** The log of one task and the entries in its audit log. */
  predicate TaskOk(l: seq<Logged>, entries: nat, clock: nat)
  {
    && (forall k :: 0 <= k < |l| ==> l[k].at < clock && UnassignAt(l, k))
    && (!Deleted(l) ==> entries + Skips(l) == |l|)
  }

  predicate LockedAffected(s: Session<Id, Task>, op: Op, i: Id)
    requires op.Unassign?
  {
    i in s.locked && s.locked[i].Some? && Affected(s.locked[i].value, op)
  }

  /** A row the unassign affects was recorded exactly if assigned before the recording ended. */
  predicate FoundInTime(l: seq<Logged>, w: Work, i: Id)
    requires w.op.Unassign?
  {
    l != [] &&
    if i in w.recorded then Since(l, |l| - 1, w.op.team, w.op.member) < w.ended
    else w.ended < Since(l, |l| - 1, w.op.team, w.op.member)
  }

  predicate GapOk(rows: map<Id, Task>, log: map<Id, seq<Logged>>, clock: nat, s: Session<Id, Task>, w: Work)
  {
    w.op.Unassign? ==>
      && (forall i :: i in w.recorded ==> LockedAffected(s, w.op, i))
      && (forall i :: i in s.writes ==> LockedAffected(s, w.op, i))
      && (0 < w.stage ==> w.ended < clock && forall i :: i in rows && Affected(rows[i], w.op) ==> FoundInTime(LogOf(log, i), w, i))
      && (w.stage == 2 ==> w.recorded <= s.writes.Keys)
  }

  ghost predicate GapInv(s: State)
  {
    && Inv(s)
    && (forall i :: TaskOk(LogOf(s.log, i), EntriesOf(s, i), s.clock))
    && (forall tid :: tid in s.work ==> GapOk(s.db.rows, s.log, s.clock, s.db.sessions[tid], s.work[tid]))
  }

  // ----- the log of one task -----

  lemma {:induction false} SincePrefix(l: seq<Logged>, e: Logged, k: nat, team: Id, user: Id)
    requires k < |l|
    ensures Since(l + [e], k, team, user) == Since(l, k, team, user)
  {
    if AssignedAfter(l, k - 1, team, user) {
      SincePrefix(l, e, k - 1, team, user);
    }
  }

  /** One more change, made now. */
  lemma TaskGrows(l: seq<Logged>, entries: nat, e: Logged, entries': nat, clock: nat)
    requires TaskOk(l, entries, clock) && e.at == clock && !Deleted(l)
    requires UnassignAt(l + [e], |l|)
    requires entries' == entries + if e.kind.WasDeleted? || (e.kind.WasUnassigned? && !e.kind.recorded) then 0 else 1
    ensures TaskOk(l + [e], entries', clock + 1)
  {
    var l' := l + [e];
    assert l'[..|l'| - 1] == l;
    forall k | 0 <= k < |l|
      ensures UnassignAt(l', k)
    {
      assert UnassignAt(l, k) && l'[k] == l[k];
      if l[k].kind.WasUnassigned? {
        SincePrefix(l, e, k - 1, l[k].kind.from, l[k].kind.user);
      }
    }
  }

  /** A change made now continues the assignment it found or begins one now. */
  lemma SinceGrows(l: seq<Logged>, e: Logged, team: Id, user: Id)
    ensures Since(l + [e], |l|, team, user) ==
      if l != [] && AssignedAfter(l, |l| - 1, team, user) then Since(l, |l| - 1, team, user) else e.at
  {
    if l != [] && AssignedAfter(l, |l| - 1, team, user) {
      SincePrefix(l, e, |l| - 1, team, user);
    }
  }

  // ----- steps other than a commit -----

  /** Time passing keeps a task's log and a transaction's view of it. */
  lemma Later(l: seq<Logged>, entries: nat, clock: nat)
    requires TaskOk(l, entries, clock)
    ensures TaskOk(l, entries, clock + 1)
  {
    hide UnassignAt, Skips;
  }

  /** A step of transaction `tid` that commits nothing. */
  lemma OwnStepKeeps(s: State, s': State, tid: nat)
    requires GapInv(s) && Inv(s') && s'.db.rows == s.db.rows && s'.log == s.log && s'.entries == s.entries && s'.clock == s.clock + 1
    requires forall other :: other in s'.work && other != tid ==>
      other in s.work && s'.work[other] == s.work[other] && s'.db.sessions[other] == s.db.sessions[other]
    requires tid in s'.work ==> GapOk(s'.db.rows, s'.log, s'.clock, s'.db.sessions[tid], s'.work[tid])
    ensures GapInv(s')
  {
    hide Inv, TaskOk, FoundInTime, Affected, LockedAffected;
    forall i
      ensures TaskOk(LogOf(s'.log, i), EntriesOf(s', i), s'.clock)
    {
      Later(LogOf(s.log, i), EntriesOf(s, i), s.clock);
    }
  }

  /** The rows an unassign holds are still affected. */
  lemma HeldIsAffected(s: State, tid: nat, i: Id)
    requires Inv(s) && tid in s.work && s.work[tid].op.Unassign? && LockedAffected(s.db.sessions[tid], s.work[tid].op, i)
    ensures i in s.db.rows && Affected(s.db.rows[i], s.work[tid].op)
  {
    hide HistoryOk, WorkOk;
    OneSession(s.db, tid);
  }

  lemma RecordRowGap(s: State, tid: nat, i: Id)
    requires GapInv(s) && Enabled(s, RecordRow(tid, i))
    ensures var s' := Apply(s, RecordRow(tid, i)); GapOk(s'.db.rows, s'.log, s'.clock, s'.db.sessions[tid], s'.work[tid])
  {
    hide Inv, TaskOk, FoundInTime, Free;
    assert GapOk(s.db.rows, s.log, s.clock, s.db.sessions[tid], s.work[tid]);
  }

  lemma EndRecordingGap(s: State, tid: nat)
    requires GapInv(s) && Enabled(s, EndRecording(tid))
    ensures var s' := Apply(s, EndRecording(tid)); GapOk(s'.db.rows, s'.log, s'.clock, s'.db.sessions[tid], s'.work[tid])
  {
    hide TaskOk, UnassignAt, LockedAffected, Consistent, WorkOk;
    var w, s' := s.work[tid], Apply(s, EndRecording(tid));
    assert GapOk(s.db.rows, s.log, s.clock, s.db.sessions[tid], w);
    forall i | i in s.db.rows && Affected(s.db.rows[i], w.op)
      ensures FoundInTime(LogOf(s'.log, i), s'.work[tid], i)
    {
      var l := LogOf(s.log, i);
      assert HistoryOk(Row(s.db, i), l) && TaskOk(l, EntriesOf(s, i), s.clock);
      SinceIsPast(l, EntriesOf(s, i), |l| - 1, w.op.team, w.op.member, s.clock);
    }
  }

  lemma {:induction false} SinceIsPast(l: seq<Logged>, entries: nat, k: nat, team: Id, user: Id, clock: nat)
    requires TaskOk(l, entries, clock) && k < |l|
    ensures Since(l, k, team, user) < clock
  {
    hide UnassignAt, Skips;
    if AssignedAfter(l, k - 1, team, user) {
      SinceIsPast(l, entries, k - 1, team, user, clock);
    }
  }

  lemma UnassignRowGap(s: State, tid: nat, i: Id)
    requires GapInv(s) && Enabled(s, UnassignRow(tid, i))
    ensures var s' := Apply(s, UnassignRow(tid, i)); GapOk(s'.db.rows, s'.log, s'.clock, s'.db.sessions[tid], s'.work[tid])
  {
    hide Inv, TaskOk, FoundInTime, Free, Effect;
    var s' := Apply(s, UnassignRow(tid, i));
    assert GapOk(s.db.rows, s.log, s.clock, s.db.sessions[tid], s.work[tid]);
    UnassignRowShape(s, tid, i);
  }

  lemma UnassignRowShape(s: State, tid: nat, i: Id)
    requires Enabled(s, UnassignRow(tid, i))
    ensures var s' := Apply(s, UnassignRow(tid, i));
      && s'.db.rows == s.db.rows && s'.log == s.log && s'.clock == s.clock + 1 && s'.work == s.work && tid in s'.db.sessions
      && var sess, sess' := s.db.sessions[tid], s'.db.sessions[tid];
         sess'.locked == sess.locked[i := Some(s.db.rows[i])] && sess'.writes.Keys == sess.writes.Keys + {i}
  {
    hide Free, Affected;
  }

  /** What was recorded is still assigned when the update statement ends, so it was updated too. */
  lemma EndUnassigningGap(s: State, tid: nat)
    requires GapInv(s) && Enabled(s, EndUnassigning(tid))
    ensures var s' := Apply(s, EndUnassigning(tid)); GapOk(s'.db.rows, s'.log, s'.clock, s'.db.sessions[tid], s'.work[tid])
  {
    hide Inv, TaskOk, Since, LockedAffected, Affected;
    var w := s.work[tid];
    assert GapOk(s.db.rows, s.log, s.clock, s.db.sessions[tid], w);
    forall i | i in w.recorded
      ensures i in s.db.sessions[tid].writes
    {
      HeldIsAffected(s, tid, i);
    }
  }

  lemma StatementGap(s: State, step: Step)
    requires GapInv(s) && Enabled(s, step) && !step.Finish? && !step.Abort?
    ensures var s' := Apply(s, step);
      step.tid in s'.work && step.tid in s'.db.sessions && GapOk(s'.db.rows, s'.log, s'.clock, s'.db.sessions[step.tid], s'.work[step.tid])
  {
    hide GapInv, UpdatedRow, Accepted, Affected, FoundAll, Free;
    match step
    case RecordRow(tid, i) => RecordRowGap(s, tid, i);
    case EndRecording(tid) => EndRecordingGap(s, tid);
    case UnassignRow(tid, i) => UnassignRowGap(s, tid, i);
    case EndUnassigning(tid) => EndUnassigningGap(s, tid);
    case _ =>
  }

  lemma OtherSteps(s: State, step: Step)
    requires Enabled(s, step) && !step.Finish? && s.work.Keys == s.db.sessions.Keys
    ensures var s' := Apply(s, step);
      && s'.db.rows == s.db.rows && s'.log == s.log && s'.entries == s.entries && s'.clock == s.clock + 1
      && (step.Abort? ==> step.tid !in s'.work)
      && forall other :: other in s'.work && other != step.tid ==>
           other in s.work && s'.work[other] == s.work[other] && other in s'.db.sessions && s'.db.sessions[other] == s.db.sessions[other]
  {
    hide UpdatedRow, Accepted, Affected, FoundAll, Free;
  }

  // ----- commits -----

  /** A row about to be written is new, or stored as its log says. */
  lemma WrittenRow(s: State, tid: nat, i: Id)
    requires Inv(s) && tid in s.work && i in s.db.sessions[tid].writes
    ensures var l := LogOf(s.log, i);
      && !Deleted(l)
      && (!s.work[tid].op.Create? ==> i in s.db.rows && l != [] && l[|l| - 1].after == Some(s.db.rows[i]))
  {
    OneSession(s.db, tid);
    hide Chain, Consistent;
    assert WorkOk(s.db.sessions[tid], s.work[tid]);
    assert HistoryOk(Row(s.db, i), LogOf(s.log, i));
  }

  lemma WrittenByUnassign(s: State, tid: nat, i: Id, e: Logged)
    requires GapInv(s) && Enabled(s, Finish(tid)) && i in s.db.sessions[tid].writes && s.work[tid].op.Unassign?
    requires e.kind == KindOf(s.work[tid], i)
    ensures UnassignAt(LogOf(s.log, i) + [e], |LogOf(s.log, i)|)
  {
    hide Inv, TaskOk, LockedAffected;
    var w, l := s.work[tid], LogOf(s.log, i);
    assert GapOk(s.db.rows, s.log, s.clock, s.db.sessions[tid], w);
    WrittenRow(s, tid, i);
    HeldIsAffected(s, tid, i);
    assert FoundInTime(l, w, i);
    SincePrefix(l, e, |l| - 1, w.op.team, w.op.member);
  }

  lemma EntriesCounted(s: State, tid: nat, i: Id)
    requires GapInv(s) && Enabled(s, Finish(tid))
    ensures var s', w := Apply(s, Finish(tid)), s.work[tid];
      var k := KindOf(w, i);
      EntriesOf(s', i) == EntriesOf(s, i) +
        if i !in s.db.sessions[tid].writes || k.WasDeleted? || (k.WasUnassigned? && !k.recorded) then 0 else 1
  {
    hide Inv, TaskOk, LockedAffected, FoundInTime;
    assert GapOk(s.db.rows, s.log, s.clock, s.db.sessions[tid], s.work[tid]);
  }

  lemma TaskAfterCommit(s: State, tid: nat, i: Id)
    requires GapInv(s) && Enabled(s, Finish(tid))
    ensures var s' := Apply(s, Finish(tid)); TaskOk(LogOf(s'.log, i), EntriesOf(s', i), s'.clock)
  {
    hide Inv, TaskOk, GapOk, UnassignAt;
    var s', w, l := Apply(s, Finish(tid)), s.work[tid], LogOf(s.log, i);
    var writes := s.db.sessions[tid].writes;
    assert TaskOk(l, EntriesOf(s, i), s.clock);
    EntriesCounted(s, tid, i);
    if i in writes {
      var e := Logged(KindOf(w, i), VersionOf(s.db.rows, i), writes[i], s.clock);
      WrittenRow(s, tid, i);
      if w.op.Unassign? {
        WrittenByUnassign(s, tid, i, e);
      } else {
        NoUnassign(l + [e], |l|);
      }
      TaskGrows(l, EntriesOf(s, i), e, EntriesOf(s', i), s.clock);
    } else {
      Later(l, EntriesOf(s, i), s.clock);
    }
  }

  lemma NoUnassign(l: seq<Logged>, k: nat)
    requires k < |l| && !l[k].kind.WasUnassigned?
    ensures UnassignAt(l, k)
  {
  }

  /** A commit of another transaction changes nothing this one holds, and what it assigns now it assigns late. */
  lemma OtherSeesLate(s: State, tid: nat, other: nat, i: Id)
    requires GapInv(s) && Enabled(s, Finish(tid)) && other in s.work && other != tid
    requires var w, s' := s.work[other], Apply(s, Finish(tid));
      w.op.Unassign? && 0 < w.stage && i in s'.db.rows && Affected(s'.db.rows[i], w.op)
    ensures FoundInTime(LogOf(Apply(s, Finish(tid)).log, i), s.work[other], i)
  {
    hide Inv, TaskOk, Since, LockedAffected;
    SameKeys(s);
    var w, l, writes := s.work[other], LogOf(s.log, i), s.db.sessions[tid].writes;
    assert GapOk(s.db.rows, s.log, s.clock, s.db.sessions[other], w);
    if i in writes {
      NotRecordedByOther(s, tid, other, i);
      LateGrows(s, tid, i, w);
    }
  }

  /** A change committed now leaves an assignment that was late, or begins one that is. */
  lemma LateGrows(s: State, tid: nat, i: Id, w: Work)
    requires Inv(s) && tid in s.work && i in s.db.sessions[tid].writes
    requires w.op.Unassign? && w.ended < s.clock && i !in w.recorded
    requires i in s.db.rows && Affected(s.db.rows[i], w.op) ==> FoundInTime(LogOf(s.log, i), w, i)
    ensures var e := Logged(KindOf(s.work[tid], i), VersionOf(s.db.rows, i), s.db.sessions[tid].writes[i], s.clock);
      FoundInTime(LogOf(s.log, i) + [e], w, i)
  {
    hide Inv, Since, KindOf;
    SameKeys(s);
    var l := LogOf(s.log, i);
    WrittenRow(s, tid, i);
    var e := Logged(KindOf(s.work[tid], i), VersionOf(s.db.rows, i), s.db.sessions[tid].writes[i], s.clock);
    SinceGrows(l, e, w.op.team, w.op.member);
    if l != [] {
      CreatesFromNothing(s, tid, i);
    }
  }

  /** What one transaction writes no other has recorded: both would hold its lock. */
  lemma NotRecordedByOther(s: State, tid: nat, other: nat, i: Id)
    requires GapInv(s) && tid in s.work && other in s.work && other != tid
    requires i in s.db.sessions[tid].writes && s.work[other].op.Unassign?
    ensures i !in s.work[other].recorded
  {
    hide HistoryOk, WorkOk, TaskOk, FoundInTime;
    OneSession(s.db, tid);
    assert GapOk(s.db.rows, s.log, s.clock, s.db.sessions[other], s.work[other]);
    assert Holds(s.db, tid, i) && !Holds(s.db, other, i);
  }

  lemma CreatesFromNothing(s: State, tid: nat, i: Id)
    requires Inv(s) && tid in s.work && i in s.db.sessions[tid].writes && LogOf(s.log, i) != []
    ensures !s.work[tid].op.Create?
  {
  }

  lemma OtherAfterCommit(s: State, tid: nat, other: nat)
    requires GapInv(s) && Enabled(s, Finish(tid)) && other in s.work && other != tid
    ensures var s' := Apply(s, Finish(tid)); GapOk(s'.db.rows, s'.log, s'.clock, s.db.sessions[other], s.work[other])
  {
    hide Inv, TaskOk, FoundInTime, LockedAffected, Affected;
    SameKeys(s);
    var w, s' := s.work[other], Apply(s, Finish(tid));
    assert GapOk(s.db.rows, s.log, s.clock, s.db.sessions[other], w);
    if w.op.Unassign? && 0 < w.stage {
      forall i | i in s'.db.rows && Affected(s'.db.rows[i], w.op)
        ensures FoundInTime(LogOf(s'.log, i), w, i)
      {
        OtherSeesLate(s, tid, other, i);
      }
    }
  }

  lemma CommitGap(s: State, tid: nat)
    requires GapInv(s) && Enabled(s, Finish(tid))
    ensures GapInv(Apply(s, Finish(tid)))
  {
    hide TaskOk, GapOk, Inv;
    var s' := Apply(s, Finish(tid));
    StepKeeps(s, Finish(tid));
    forall i
      ensures TaskOk(LogOf(s'.log, i), EntriesOf(s', i), s'.clock)
    {
      TaskAfterCommit(s, tid, i);
    }
    forall other | other in s'.work
      ensures other in s'.db.sessions && GapOk(s'.db.rows, s'.log, s'.clock, s'.db.sessions[other], s'.work[other])
    {
      SessionOfOther(s, tid, other);
      OtherAfterCommit(s, tid, other);
    }
  }

  lemma SessionOfOther(s: State, tid: nat, other: nat)
    requires Inv(s) && Enabled(s, Finish(tid)) && other in s.work && other != tid
    ensures var s' := Apply(s, Finish(tid)); other in s'.db.sessions && s'.db.sessions[other] == s.db.sessions[other] && s'.work[other] == s.work[other]
  {
  }

  lemma SameKeys(s: State)
    requires Inv(s)
    ensures s.work.Keys == s.db.sessions.Keys
  {
  }

  lemma StepGap(s: State, step: Step)
    requires GapInv(s) && Enabled(s, step)
    ensures GapInv(Apply(s, step))
  {
    hide Inv, TaskOk, GapOk, Enabled, Apply;
    if step.Finish? {
      CommitGap(s, step.tid);
    } else {
      var s' := Apply(s, step);
      SameKeys(s);
      StepKeeps(s, step);
      SameKeys(s');
      OtherSteps(s, step);
      if !step.Abort? {
        StatementGap(s, step);
      }
      OwnStepKeeps(s, s', step.tid);
    }
  }

  lemma {:induction false} RunGap(s: State, steps: seq<Step>)
    requires GapInv(s) && Feasible(s, steps)
    ensures GapInv(Execute(s, steps))
    decreases |steps|
  {
    hide GapInv, Enabled, Apply;
    if steps != [] {
      StepGap(s, steps[0]);
      RunGap(Apply(s, steps[0]), steps[1..]);
    }
  }

  lemma EmptyGap()
    ensures GapInv(EMPTY)
  {
  }

  // ----- over every interleaving -----

  /** In every run, a committed unassign of a task went unrecorded if and only if the assignment it
      undid was committed after its history statement had ended. */
  lemma UnrecordedIff(steps: seq<Step>, i: Id, k: nat)
    requires Feasible(EMPTY, steps) && i in Execute(EMPTY, steps).log
    requires var l := Execute(EMPTY, steps).log[i]; k < |l| && l[k].kind.WasUnassigned?
    ensures var l := Execute(EMPTY, steps).log[i];
      var WasUnassigned(team, user, recorded, ended) := l[k].kind;
      AssignedAfter(l, k - 1, team, user) && (!recorded <==> ended < Since(l, k - 1, team, user))
  {
    hide Feasible, Execute, Inv, GapOk;
    EmptyGap();
    RunGap(EMPTY, steps);
    var s := Execute(EMPTY, steps);
    assert TaskOk(LogOf(s.log, i), EntriesOf(s, i), s.clock);
    assert UnassignAt(s.log[i], k);
  }

  /** A stored task's version counts its audit entries and, besides them, exactly those unassigns. */
  lemma VersionCountsEntriesAndSkips(steps: seq<Step>, i: Id)
    requires Feasible(EMPTY, steps) && i in Execute(EMPTY, steps).db.rows
    ensures var s := Execute(EMPTY, steps); i in s.log && s.db.rows[i].version == EntriesOf(s, i) + Skips(s.log[i])
  {
    hide Feasible, Execute, GapOk, Consistent, WorkOk;
    EmptyGap();
    RunGap(EMPTY, steps);
    var s := Execute(EMPTY, steps);
    assert TaskOk(LogOf(s.log, i), EntriesOf(s, i), s.clock);
    assert HistoryOk(Row(s.db, i), LogOf(s.log, i));
  }

  // ----- it happens -----

  ghost predicate Reachable(s: State)
  {
    exists steps :: Feasible(EMPTY, steps) && s == Execute(EMPTY, steps)
  }

  lemma ReachableStep(s: State, step: Step)
    requires Reachable(s) && Enabled(s, step)
    ensures Reachable(Apply(s, step))
  {
    hide Enabled, Apply;
    var steps :| Feasible(EMPTY, steps) && s == Execute(EMPTY, steps);
    AppendStep(EMPTY, steps, step);
  }

  lemma {:induction false} AppendStep(s: State, steps: seq<Step>, step: Step)
    requires Feasible(s, steps) && Enabled(Execute(s, steps), step)
    ensures Feasible(s, steps + [step]) && Execute(s, steps + [step]) == Apply(Execute(s, steps), step)
    decreases |steps|
  {
    hide Enabled, Apply;
    var all := steps + [step];
    if steps == [] {
      assert all[0] == step && all[1..] == [];
      assert Feasible(Apply(s, step), all[1..]);
      assert Execute(Apply(s, step), all[1..]) == Apply(s, step);
    } else {
      assert all[0] == steps[0] && all[1..] == steps[1..] + [step];
      AppendStep(Apply(s, steps[0]), steps[1..], step);
    }
  }

  const FREE_TASK := Task("task", "team", "title", "", Todo, Medium, None, "boss", None, 0, 0, None, 1)
  const ASSIGN := Update("task", "boss", Owner, {"user"}, UpdateRequest(None, None, None, Some("user"), None, Unset, 1), 0)

  lemma AssignAccepted()
    ensures Accepted(FREE_TASK, ASSIGN)
    ensures UpdatedRow(FREE_TASK, ASSIGN) == FREE_TASK.(assignee := Some("user"), version := 2)
  {
    var reasons := Refusals(TaskPermissionsFor(Owner, "boss", FREE_TASK), FREE_TASK, ASSIGN.req, ASSIGN.members);
    FirstRefusalIs(reasons, |reasons|);
    var r := Requested(FREE_TASK, ASSIGN.req, 0);
    assert AssigneeId in Diff(FREE_TASK, r);
  }

  /** A task exists, assigned to no one; an unassign has found nothing to record. */
  lemma AfterRecording() returns (s: State)
    ensures Reachable(s) && s.db.rows == map["task" := FREE_TASK] && s.log.Keys == {"task"} && s.clock == 5
    ensures s.work == map[1 := Work(Unassign("team", "user", 0), 1, {}, 4)] && s.db.sessions == map[1 := Session(map[], map[])]
  {
    hide Reachable;
    assert Reachable(EMPTY) by { InitiallyReachable(); }
    var s1 := Apply(EMPTY, Start(0, Create(FREE_TASK)));
    ReachableStep(EMPTY, Start(0, Create(FREE_TASK)));
    var s2 := Apply(s1, InsertRow(0));
    ReachableStep(s1, InsertRow(0));
    var s3 := Apply(s2, Finish(0));
    ReachableStep(s2, Finish(0));
    var s4 := Apply(s3, Start(1, Unassign("team", "user", 0)));
    ReachableStep(s3, Start(1, Unassign("team", "user", 0)));
    s := Apply(s4, EndRecording(1));
    ReachableStep(s4, EndRecording(1));
  }

  lemma InitiallyReachable()
    ensures Reachable(EMPTY)
  {
    assert Feasible(EMPTY, []) && EMPTY == Execute(EMPTY, []);
  }

  /** Another transaction starts an assignment to the user meanwhile. */
  lemma LockedMeanwhile() returns (s: State)
    ensures Reachable(s) && s.db.rows == map["task" := FREE_TASK] && s.log.Keys == {"task"}
    ensures s.work == map[1 := Work(Unassign("team", "user", 0), 1, {}, 4), 2 := Work(ASSIGN, 1, {}, 0)]
    ensures s.db.sessions == map[1 := Session(map[], map[]), 2 := Session(map["task" := Some(FREE_TASK)], map[])]
  {
    hide Reachable, Accepted, UpdatedRow;
    var s0 := AfterRecording();
    var s1 := Apply(s0, Start(2, ASSIGN));
    ReachableStep(s0, Start(2, ASSIGN));
    assert s1.db.sessions == map[1 := Session(map[], map[]), 2 := Session(map[], map[])];
    s := Apply(s1, LockForUpdate(2));
    ReachableStep(s1, LockForUpdate(2));
  }

  /** It commits. */
  lemma AssignedMeanwhile() returns (s: State)
    ensures Reachable(s) && s.db.rows == map["task" := FREE_TASK.(assignee := Some("user"), version := 2)] && s.log.Keys == {"task"}
    ensures s.work == map[1 := Work(Unassign("team", "user", 0), 1, {}, 4)] && s.db.sessions == map[1 := Session(map[], map[])]
  {
    hide Reachable, Accepted, UpdatedRow;
    var s2 := LockedMeanwhile();
    AssignAccepted();
    var s3 := Apply(s2, UpdateRow(2));
    ReachableStep(s2, UpdateRow(2));
    assert s3.db.sessions[2].writes == map["task" := Some(UpdatedRow(FREE_TASK, ASSIGN))];
    s := Apply(s3, Finish(2));
    ReachableStep(s3, Finish(2));
  }

  /** Between the two statements of an unassign another transaction can commit an assignment to the
      same user; that task is then changed with no history recorded. */
  lemma UnassignCanSkipHistory() returns (s: State)
    ensures Reachable(s) && "task" in s.db.rows && "task" in s.log && s.log["task"] != []
    ensures s.log["task"][|s.log["task"]| - 1].kind == WasUnassigned("team", "user", false, 4)
    ensures s.db.rows["task"].version > EntriesOf(s, "task")
  {
    hide Reachable, Accepted, UpdatedRow, Feasible, Execute;
    var s4 := AssignedMeanwhile();
    var s5 := Apply(s4, UnassignRow(1, "task"));
    ReachableStep(s4, UnassignRow(1, "task"));
    assert s5.db.sessions[1].writes.Keys == {"task"};
    var s6 := Apply(s5, EndUnassigning(1));
    ReachableStep(s5, EndUnassigning(1));
    s := Apply(s6, Finish(1));
    ReachableStep(s6, Finish(1));
    SkipShows(s, "task");
  }

  lemma SkipShows(s: State, i: Id)
    requires Reachable(s) && i in s.db.rows && i in s.log && s.log[i] != []
    requires var k := s.log[i][|s.log[i]| - 1].kind; k.WasUnassigned? && !k.recorded
    ensures s.db.rows[i].version > EntriesOf(s, i)
  {
    var steps :| Feasible(EMPTY, steps) && s == Execute(EMPTY, steps);
    VersionCountsEntriesAndSkips(steps, i);
  }
}
