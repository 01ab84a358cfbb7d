/** Membership operations as lock-level statements of concurrent transactions. */
module TeamLocks {
  import opened Domain
  import opened RowLocks
  import opened Rbac

  datatype Key = TeamRow(team: Id) | MemberRow(team: Id, user: Id)

  datatype Cell = Exists | Has(role: Role)

  datatype Op =
    | CreateTeam(team: Id, user: Id)
    | DeleteTeam(team: Id, actor: Id)
    | LeaveTeam(team: Id, user: Id)
    | TransferOwnership(team: Id, actor: Id, heir: Id)
    | ChangeMemberRole(team: Id, actor: Id, target: Id, role: Role)
    | RemoveMember(team: Id, actor: Id, target: Id)

  datatype Sql =
    | InsertTeam
    | InsertMember(who: Id, as_: Role)
    | ReadRole(who: Id)
    | LockRole(who: Id)
    | SetRole(who: Id, as_: Role)
    | DeleteMember(who: Id)
    | DropTeam

  /** The statements each operation runs, in order. */
  function Program(op: Op): seq<Sql>
  {
    match op
    case CreateTeam(_, u) => [InsertTeam, InsertMember(u, Owner)]
    case DeleteTeam(_, a) => [LockRole(a), DropTeam]
    case LeaveTeam(_, u) => [LockRole(u), DeleteMember(u)]
    case TransferOwnership(_, a, h) => [LockRole(a), LockRole(h), SetRole(h, Owner), SetRole(a, Admin)]
    case ChangeMemberRole(_, a, x, r) => [ReadRole(a), LockRole(x), SetRole(x, r)]
    case RemoveMember(_, a, x) => [ReadRole(a), LockRole(x), DeleteMember(x)]
  }

  /** The policy check made on the role a statement has just read. */
  predicate Passes(op: Op, stage: nat, actorRole: Role, read: Role)
  {
    match op
    case DeleteTeam(_, _) => CanDeleteTeam(read) == None
    case LeaveTeam(_, _) => CanLeave(read) == None
    case TransferOwnership(_, a, h) => stage == 0 ==> CanTransferOwnership(read, a == h) == None
    case ChangeMemberRole(_, a, x, r) => stage == 1 ==> CanChangeRole(actorRole, read, r, a == x) == None
    case RemoveMember(_, a, x) => stage == 1 ==> CanRemoveMember(actorRole, read, a == x) == None
    case CreateTeam(_, _) => true
  }

  /** A transaction in progress: the statements run so far and the unlocked role read, if any. */
  datatype Work = Work(op: Op, stage: nat, actorRole: Role)

  /** An invitation between its unlocked role check and its INSERT. */
  datatype Invitation = Invitation(team: Id, user: Id, role: Role)

  datatype State = State(db: Database<Key, Cell>, work: map<nat, Work>, invitations: set<Invitation>)

  datatype Step =
    | Start(tid: nat, op: Op)
    | Statement(tid: nat)
    | Cascade(tid: nat, member: Id)
    | Finish(tid: nat)
    | Abort(tid: nat)
    | CheckInvite(team: Id, actor: Id, user: Id, role: Role)
    | Invite(invitation: Invitation)

  ghost predicate CanRun(db: Database<Key, Cell>, tid: nat, w: Work)
  {
    && tid in db.sessions && w.stage < |Program(w.op)|
    && var t := w.op.team;
       match Program(w.op)[w.stage]
       case InsertTeam => Free(db, tid, TeamRow(t)) && Visible(db, tid, TeamRow(t)).None?
       case InsertMember(u, _) => Free(db, tid, MemberRow(t, u)) && Visible(db, tid, MemberRow(t, u)).None?
       case ReadRole(u) => Visible(db, tid, MemberRow(t, u)).Some? && Visible(db, tid, MemberRow(t, u)).value.Has?
       case LockRole(u) =>
         && Free(db, tid, MemberRow(t, u)) && Row(db, MemberRow(t, u)).Some? && Row(db, MemberRow(t, u)).value.Has?
         && Passes(w.op, w.stage, w.actorRole, Row(db, MemberRow(t, u)).value.role)
       case SetRole(u, _) => Free(db, tid, MemberRow(t, u)) && MemberRow(t, u) in db.rows
       case DeleteMember(u) => Free(db, tid, MemberRow(t, u)) && MemberRow(t, u) in db.rows
       case DropTeam => Free(db, tid, TeamRow(t)) && TeamRow(t) in db.rows
  }

  ghost function RunSql(db: Database<Key, Cell>, tid: nat, w: Work): Database<Key, Cell>
    requires CanRun(db, tid, w)
  {
    var t := w.op.team;
    match Program(w.op)[w.stage]
    case InsertTeam => Write(LockNew(db, tid, TeamRow(t)), tid, TeamRow(t), Some(Exists))
    case InsertMember(u, r) => Write(LockNew(db, tid, MemberRow(t, u)), tid, MemberRow(t, u), Some(Has(r)))
    case ReadRole(_) => db
    case LockRole(u) => LockRow(db, tid, MemberRow(t, u))
    case SetRole(u, r) => Write(LockRow(db, tid, MemberRow(t, u)), tid, MemberRow(t, u), Some(Has(r)))
    case DeleteMember(u) => Write(LockRow(db, tid, MemberRow(t, u)), tid, MemberRow(t, u), None)
    case DropTeam => Write(LockRow(db, tid, TeamRow(t)), tid, TeamRow(t), None)
  }

  ghost predicate Enabled(s: State, step: Step)
  {
    match step
    case Start(tid, _) => tid !in s.work && tid !in s.db.sessions
    case Statement(tid) => tid in s.work && CanRun(s.db, tid, s.work[tid])
    case Cascade(tid, u) =>
      && tid in s.work && tid in s.db.sessions && s.work[tid].op.DeleteTeam? && s.work[tid].stage == 2
      && Free(s.db, tid, MemberRow(s.work[tid].op.team, u)) && MemberRow(s.work[tid].op.team, u) in s.db.rows
    case Finish(tid) =>
      && tid in s.work && tid in s.db.sessions && s.work[tid].stage == |Program(s.work[tid].op)|
      && (s.work[tid].op.DeleteTeam? ==>
            forall u :: MemberRow(s.work[tid].op.team, u) in s.db.rows ==> MemberRow(s.work[tid].op.team, u) in s.db.sessions[tid].writes)
    case Abort(tid) => tid in s.work
    case CheckInvite(t, a, u, r) =>
      MemberRow(t, a) in s.db.rows && s.db.rows[MemberRow(t, a)].Has? && CanInvite(s.db.rows[MemberRow(t, a)].role, r) == None && u != a
    case Invite(i) =>
      && i in s.invitations && TeamRow(i.team) in s.db.rows && MemberRow(i.team, i.user) !in s.db.rows
      && forall a :: !Holds(s.db, a, TeamRow(i.team)) && !Holds(s.db, a, MemberRow(i.team, i.user))
  }

  ghost function Apply(s: State, step: Step): State
    requires Enabled(s, step)
  {
    match step
    case Start(tid, op) => s.(db := Begin(s.db, tid), work := s.work[tid := Work(op, 0, Member)])
    case Statement(tid) =>
      var w := s.work[tid];
      var read := if Program(w.op)[w.stage].ReadRole? then Visible(s.db, tid, MemberRow(w.op.team, Program(w.op)[w.stage].who)).value.role else w.actorRole;
      s.(db := RunSql(s.db, tid, w), work := s.work[tid := Work(w.op, w.stage + 1, read)])
    case Cascade(tid, u) =>
      var k := MemberRow(s.work[tid].op.team, u);
      s.(db := Write(LockRow(s.db, tid, k), tid, k, None))
    case Finish(tid) => s.(db := Commit(s.db, tid), work := s.work - {tid})
    case Abort(tid) => s.(db := Rollback(s.db, tid), work := s.work - {tid})
    case CheckInvite(t, _, u, r) => s.(invitations := s.invitations + {Invitation(t, u, r)})
    case Invite(i) => s.(db := s.db.(rows := s.db.rows[MemberRow(i.team, i.user) := Has(i.role)]), invitations := s.invitations - {i})
  }

  ghost predicate Feasible(s: State, steps: seq<Step>)
    decreases |steps|
  {
    steps == [] || (Enabled(s, steps[0]) && Feasible(Apply(s, steps[0]), steps[1..]))
  }

  ghost function Execute(s: State, steps: seq<Step>): State
    requires Feasible(s, steps)
    decreases |steps|
  {
    if steps == [] then s else Execute(Apply(s, steps[0]), steps[1..])
  }

  const EMPTY := State(Database(map[], map[]), map[], {})

  // ----- committed integrity -----

  predicate Owns(rows: map<Key, Cell>, t: Id, u: Id)
  {
    MemberRow(t, u) in rows && rows[MemberRow(t, u)] == Has(Owner)
  }

  ghost predicate SoleOwner(rows: map<Key, Cell>, t: Id)
  {
    exists u :: Owns(rows, t, u) && forall v :: Owns(rows, t, v) ==> v == u
  }

  /** Every team has exactly one owner, and memberships belong to existing teams. */
  ghost predicate Integrity(rows: map<Key, Cell>)
  {
    && (forall t :: TeamRow(t) in rows ==> SoleOwner(rows, t))
    && (forall t, u :: MemberRow(t, u) in rows ==> TeamRow(t) in rows && rows[MemberRow(t, u)].Has?)
  }

  /** The cell was locked as the row of a member with a role other than owner. */
  predicate LockedNonOwner(s: Session<Key, Cell>, k: Key)
  {
    k in s.locked && s.locked[k].Some? && s.locked[k].value.Has? && s.locked[k].value.role != Owner
  }

  /** What a transaction holds and has buffered after its first `stage` statements. */
  predicate WorkOk(s: Session<Key, Cell>, w: Work)
  {
    var t := w.op.team;
    w.stage <= |Program(w.op)| &&
    match w.op
    case CreateTeam(_, u) =>
      && (0 < w.stage ==> TeamRow(t) in s.locked && s.locked[TeamRow(t)] == None)
      && s.writes == (if w.stage == 0 then map[]
                      else if w.stage == 1 then map[TeamRow(t) := Some(Exists)]
                      else map[TeamRow(t) := Some(Exists), MemberRow(t, u) := Some(Has(Owner))])
    case DeleteTeam(_, _) =>
      && (w.stage < 2 ==> s.writes == map[])
      && (w.stage == 2 ==> TeamRow(t) in s.writes && forall k :: k in s.writes ==> k.team == t && s.writes[k] == None)
    case LeaveTeam(_, u) =>
      && (0 < w.stage ==> LockedNonOwner(s, MemberRow(t, u)))
      && s.writes == (if w.stage < 2 then map[] else map[MemberRow(t, u) := None])
    case TransferOwnership(_, a, h) =>
      && (0 < w.stage ==> a != h && MemberRow(t, a) in s.locked && s.locked[MemberRow(t, a)] == Some(Has(Owner)))
      && (1 < w.stage ==> MemberRow(t, h) in s.locked && s.locked[MemberRow(t, h)].Some?)
      && s.writes == (if w.stage < 3 then map[]
                      else if w.stage == 3 then map[MemberRow(t, h) := Some(Has(Owner))]
                      else map[MemberRow(t, h) := Some(Has(Owner)), MemberRow(t, a) := Some(Has(Admin))])
    case ChangeMemberRole(_, _, x, r) =>
      && (1 < w.stage ==> LockedNonOwner(s, MemberRow(t, x)) && r != Owner)
      && s.writes == (if w.stage < 3 then map[] else map[MemberRow(t, x) := Some(Has(r))])
    case RemoveMember(_, _, x) =>
      && (1 < w.stage ==> LockedNonOwner(s, MemberRow(t, x)))
      && s.writes == (if w.stage < 3 then map[] else map[MemberRow(t, x) := None])
  }

  ghost predicate Inv(s: State)
  {
    && Consistent(s.db) && Integrity(s.db.rows)
    && s.work.Keys == s.db.sessions.Keys
    && (forall tid :: tid in s.work ==> WorkOk(s.db.sessions[tid], s.work[tid]))
    && (forall i :: i in s.invitations ==> i.role != Owner)
  }

  // ----- every step keeps it -----

  lemma StatementKeeps(s: State, tid: nat)
    requires Inv(s) && Enabled(s, Statement(tid))
    ensures Inv(Apply(s, Statement(tid)))
  {
    hide Integrity, Consistent, WorkOk, CanRun, RunSql;
    var w := s.work[tid];
    var s' := Apply(s, Statement(tid));
    assert SessionOk(s.db.rows, s.db.sessions[tid]) by { OneSession(s.db, tid); }
    StatementConsistent(s, tid);
    StatementWorkOk(s.db, tid, w, s'.work[tid].actorRole);
  }

  lemma OneSession(db: Database<Key, Cell>, tid: nat)
    requires Consistent(db) && tid in db.sessions
    ensures SessionOk(db.rows, db.sessions[tid])
  {
  }

  lemma StatementConsistent(s: State, tid: nat)
    requires Consistent(s.db) && tid in s.work && CanRun(s.db, tid, s.work[tid])
    ensures Consistent(RunSql(s.db, tid, s.work[tid])) && RunSql(s.db, tid, s.work[tid]).rows == s.db.rows
    ensures var db' := RunSql(s.db, tid, s.work[tid]); tid in db'.sessions && db'.sessions == s.db.sessions[tid := db'.sessions[tid]]
  {
    hide Passes, Consistent;
    var w := s.work[tid];
    var sql, t := Program(w.op)[w.stage], w.op.team;
    if !sql.ReadRole? {
      var k := if sql.InsertTeam? || sql.DropTeam? then TeamRow(t) else MemberRow(t, sql.who);
      LockKeeps(s.db, tid, k);
      var db1 := if sql.InsertTeam? || sql.InsertMember? then LockNew(s.db, tid, k) else LockRow(s.db, tid, k);
      if !sql.LockRole? {
        var db' := RunSql(s.db, tid, w);
        WriteKeeps(db1, tid, k, db'.sessions[tid].writes[k]);
      }
    }
  }

  lemma StatementWorkOk(db: Database<Key, Cell>, tid: nat, w: Work, actorRole: Role)
    requires CanRun(db, tid, w) && WorkOk(db.sessions[tid], w) && SessionOk(db.rows, db.sessions[tid])
    ensures WorkOk(RunSql(db, tid, w).sessions[tid], Work(w.op, w.stage + 1, actorRole))
  {
    hide WorkOk, CanRun, RunSql, Program;
    match w.op
    case TransferOwnership(_, _, _) => TransferWorkOk(db, tid, w, actorRole);
    case ChangeMemberRole(_, _, _, _) => TargetWorkOk(db, tid, w, actorRole);
    case RemoveMember(_, _, _) => TargetWorkOk(db, tid, w, actorRole);
    case _ => SelfWorkOk(db, tid, w, actorRole);
  }

  lemma SelfWorkOk(db: Database<Key, Cell>, tid: nat, w: Work, actorRole: Role)
    requires CanRun(db, tid, w) && WorkOk(db.sessions[tid], w) && SessionOk(db.rows, db.sessions[tid])
    requires w.op.CreateTeam? || w.op.DeleteTeam? || w.op.LeaveTeam?
    ensures WorkOk(RunSql(db, tid, w).sessions[tid], Work(w.op, w.stage + 1, actorRole))
  {
  }

  lemma TransferWorkOk(db: Database<Key, Cell>, tid: nat, w: Work, actorRole: Role)
    requires CanRun(db, tid, w) && WorkOk(db.sessions[tid], w) && SessionOk(db.rows, db.sessions[tid])
    requires w.op.TransferOwnership?
    ensures WorkOk(RunSql(db, tid, w).sessions[tid], Work(w.op, w.stage + 1, actorRole))
  {
  }

  lemma TargetWorkOk(db: Database<Key, Cell>, tid: nat, w: Work, actorRole: Role)
    requires CanRun(db, tid, w) && WorkOk(db.sessions[tid], w) && SessionOk(db.rows, db.sessions[tid])
    requires w.op.ChangeMemberRole? || w.op.RemoveMember?
    ensures WorkOk(RunSql(db, tid, w).sessions[tid], Work(w.op, w.stage + 1, actorRole))
  {
  }

  lemma CascadeKeeps(s: State, tid: nat, u: Id)
    requires Inv(s) && Enabled(s, Cascade(tid, u))
    ensures Inv(Apply(s, Cascade(tid, u)))
  {
    hide Integrity, Consistent, WorkOk;
    var k := MemberRow(s.work[tid].op.team, u);
    LockKeeps(s.db, tid, k);
    WriteKeeps(LockRow(s.db, tid, k), tid, k, None);
    CascadeWorkOk(s.db, tid, s.work[tid], u);
  }

  lemma CascadeWorkOk(db: Database<Key, Cell>, tid: nat, w: Work, u: Id)
    requires tid in db.sessions && w.op.DeleteTeam? && w.stage == 2 && WorkOk(db.sessions[tid], w)
    ensures var k := MemberRow(w.op.team, u); WorkOk(Write(LockRow(db, tid, k), tid, k, None).sessions[tid], w)
  {
  }

  lemma FinishKeeps(s: State, tid: nat)
    requires Inv(s) && Enabled(s, Finish(tid))
    ensures Inv(Apply(s, Finish(tid)))
  {
    hide Integrity, WorkOk;
    CommitKeeps(s.db, tid);
    assert SessionOk(s.db.rows, s.db.sessions[tid]);
    CommitSafe(s.db.rows, s.db.sessions[tid], s.work[tid]);
  }

  /** Committing a finished transaction keeps every team at exactly one owner. The proof uses
      what the transaction locked; the roles read without a lock play no part. */
  lemma CommitSafe(rows: map<Key, Cell>, s: Session<Key, Cell>, w: Work)
    requires Integrity(rows) && SessionOk(rows, s) && WorkOk(s, w) && w.stage == |Program(w.op)|
    requires w.op.DeleteTeam? ==> forall u :: MemberRow(w.op.team, u) in rows ==> MemberRow(w.op.team, u) in s.writes
    ensures Integrity(Written(rows, s.writes))
  {
    var rows' := Written(rows, s.writes);
    forall t | TeamRow(t) in rows'
      ensures SoleOwner(rows', t)
    {
      if t != w.op.team {
        OtherTeam(rows, s, w, t);
      } else {
        SameTeam(rows, s, w);
      }
    }
  }

  lemma OtherTeam(rows: map<Key, Cell>, s: Session<Key, Cell>, w: Work, t: Id)
    requires Integrity(rows) && WorkOk(s, w) && w.stage == |Program(w.op)| && t != w.op.team && TeamRow(t) in Written(rows, s.writes)
    ensures SoleOwner(Written(rows, s.writes), t)
  {
    var rows' := Written(rows, s.writes);
    assert forall k :: k in s.writes ==> k.team == w.op.team;
    assert forall u :: Owns(rows', t, u) == Owns(rows, t, u);
    assert TeamRow(t) in rows && SoleOwner(rows, t);
  }

  lemma SameTeam(rows: map<Key, Cell>, s: Session<Key, Cell>, w: Work)
    requires Integrity(rows) && SessionOk(rows, s) && WorkOk(s, w) && w.stage == |Program(w.op)|
    requires TeamRow(w.op.team) in Written(rows, s.writes)
    ensures SoleOwner(Written(rows, s.writes), w.op.team)
  {
    var t, rows' := w.op.team, Written(rows, s.writes);
    match w.op {
      case CreateTeam(_, u) =>
        assert TeamRow(t) !in rows;
        assert Owns(rows', t, u) && forall v :: Owns(rows', t, v) ==> v == u;
      case DeleteTeam(_, _) =>
        assert false;
      case TransferOwnership(_, a, h) =>
        assert Owns(rows, t, a) && SoleOwner(rows, t);
        assert forall v :: Owns(rows, t, v) ==> v == a;
        assert rows'[MemberRow(t, a)] == Has(Admin) && !Owns(rows', t, a);
        assert forall v :: v != a && v != h ==> Owns(rows', t, v) == Owns(rows, t, v);
        assert Owns(rows', t, h) && forall v :: Owns(rows', t, v) ==> v == h;
      case _ =>
        assert forall v :: Owns(rows', t, v) == Owns(rows, t, v);
        assert SoleOwner(rows, t);
    }
  }

  lemma InviteKeeps(s: State, i: Invitation)
    requires Inv(s) && Enabled(s, Invite(i))
    ensures Inv(Apply(s, Invite(i)))
  {
    var k := MemberRow(i.team, i.user);
    InsertKeeps(s.db, k, Has(i.role));
    var rows' := s.db.rows[k := Has(i.role)];
    forall t | TeamRow(t) in rows'
      ensures SoleOwner(rows', t)
    {
      assert forall v :: Owns(rows', t, v) == Owns(s.db.rows, t, v);
      assert SoleOwner(s.db.rows, t);
    }
  }

  lemma StartKeeps(s: State, tid: nat, op: Op)
    requires Inv(s) && Enabled(s, Start(tid, op))
    ensures Inv(Apply(s, Start(tid, op)))
  {
    hide Integrity, Consistent;
    BeginKeeps(s.db, tid);
  }

  lemma AbortKeeps(s: State, tid: nat)
    requires Inv(s) && Enabled(s, Abort(tid))
    ensures Inv(Apply(s, Abort(tid)))
  {
    hide Integrity, Consistent, WorkOk;
    RollbackKeeps(s.db, tid);
  }

  lemma CheckInviteKeeps(s: State, step: Step)
    requires Inv(s) && Enabled(s, step) && step.CheckInvite?
    ensures Inv(Apply(s, step))
  {
    hide Integrity, Consistent, WorkOk;
  }

  lemma StepKeeps(s: State, step: Step)
    requires Inv(s) && Enabled(s, step)
    ensures Inv(Apply(s, step))
  {
    hide Inv;
    match step
    case Start(tid, op) => StartKeeps(s, tid, op);
    case Statement(tid) => StatementKeeps(s, tid);
    case Cascade(tid, u) => CascadeKeeps(s, tid, u);
    case Finish(tid) => FinishKeeps(s, tid);
    case Abort(tid) => AbortKeeps(s, tid);
    case CheckInvite(_, _, _, _) => CheckInviteKeeps(s, step);
    case Invite(i) => InviteKeeps(s, i);
  }

  lemma {:induction false} RunKeeps(s: State, steps: seq<Step>)
    requires Inv(s) && Feasible(s, steps)
    ensures Inv(Execute(s, steps))
    decreases |steps|
  {
    hide Inv, Enabled, Apply;
    if steps != [] {
      StepKeeps(s, steps[0]);
      RunKeeps(Apply(s, steps[0]), steps[1..]);
    }
  }

  /** In every committed state reached by any interleaving of lock-level statements of create,
      delete, leave, transfer, change-role and remove, with invitations and aborts anywhere,
      each existing team has exactly one owner and no membership outlives its team. */
  lemma ExactlyOneOwner(steps: seq<Step>, t: Id)
    requires Feasible(EMPTY, steps)
    ensures var rows := Execute(EMPTY, steps).db.rows;
      && (TeamRow(t) in rows ==> exists u :: Owns(rows, t, u) && forall v :: Owns(rows, t, v) ==> v == u)
      && (forall u :: MemberRow(t, u) in rows ==> TeamRow(t) in rows)
  {
    RunKeeps(EMPTY, steps);
    hide Feasible, Execute, Consistent, WorkOk;
    assert TeamRow(t) in Execute(EMPTY, steps).db.rows ==> SoleOwner(Execute(EMPTY, steps).db.rows, t);
  }
}
