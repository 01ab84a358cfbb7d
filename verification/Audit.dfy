/** What every serial run of service calls keeps true of teams, task rows and the audit log. */
module Audit {
  import opened Domain
  import opened Rbac
  import opened Strings
  import opened TaskUpdate
  import opened Service

  type Values = map<Field, FieldValue>

  /** A row with no values, where the log starts. */
  const BLANK: Values := map f | f in TRACKED :: NoValue

  function Snapshot(t: Task): Values
  {
    map f | f in TRACKED :: FieldOf(t, f)
  }

  /** One entry's new values laid over what was there. */
  function Overlay(v: Values, changes: Changes): Values
  {
    map f | f in v :: if f in changes then changes[f].new_ else v[f]
  }

  /** Folding the entries in insertion order from an empty row. */
  function Replay(log: seq<Entry>): Values
  {
    if log == [] then BLANK else Overlay(Replay(log[..|log| - 1]), log[|log| - 1].changes)
  }

  predicate Follows(v: Values, changes: Changes)
  {
    forall f :: f in changes ==> f in v && changes[f].old_ == v[f]
  }

  /** Every entry's old values are the values left by the entries before it. */
  predicate Chained(log: seq<Entry>)
  {
    log == [] || (Chained(log[..|log| - 1]) && Follows(Replay(log[..|log| - 1]), log[|log| - 1].changes))
  }

  predicate AuditOk(t: Task, log: seq<Entry>)
  {
    t.version == |log| && Replay(log) == Snapshot(t) && Chained(log)
  }

  predicate RowOk(d: Data, id: Id)
    requires id in d.tasks
  {
    var t := d.tasks[id];
    && t.id == id && t.team in d.members
    && (t.assignee.Some? ==> t.assignee.value in d.members[t.team])
    && (t.closedAt.Some? <==> t.status == Done)
    && id in d.history && AuditOk(t, d.history[id])
  }

  predicate OwnedBy(roles: map<Id, Role>, u: Id)
  {
    u in roles && roles[u] == Owner
  }

  ghost predicate OneOwner(roles: map<Id, Role>)
  {
    exists u :: OwnedBy(roles, u) && forall v :: OwnedBy(roles, v) ==> v == u
  }

  ghost predicate Inv(d: Data)
  {
    && d.tasks.Keys == d.history.Keys
    && (forall id :: id in d.tasks ==> RowOk(d, id))
    && (forall t :: t in d.members ==> OneOwner(d.members[t]))
  }

  // ----- the log -----

  /** Appending an accurate entry keeps row and log in step. */
  lemma AppendEntry(t: Task, log: seq<Entry>, t': Task, e: Entry)
    requires AuditOk(t, log) && t'.version == t.version + 1
    requires e.changes.Keys <= TRACKED
    requires forall f :: f in e.changes ==> e.changes[f] == Change(FieldOf(t, f), FieldOf(t', f))
    requires forall f :: f in TRACKED && f !in e.changes ==> FieldOf(t, f) == FieldOf(t', f)
    ensures AuditOk(t', log + [e])
  {
    hide FieldOf;
    var log' := log + [e];
    assert log'[..|log'| - 1] == log;
    assert Overlay(Snapshot(t), e.changes) == Snapshot(t');
  }

  lemma FirstEntry(t: Task, e: Entry)
    requires t.version == 1 && t.closedAt.None? && e.changes == CreatedChanges(t)
    ensures AuditOk(t, [e])
  {
    var log := [e];
    assert log[..0] == [];
    assert Replay(log) == Overlay(BLANK, e.changes);
    CreatedCoversAll(t);
  }

  lemma CreatedCoversAll(t: Task)
    requires t.closedAt.None?
    ensures Overlay(BLANK, CreatedChanges(t)) == Snapshot(t) && Follows(BLANK, CreatedChanges(t))
  {
    var v := Overlay(BLANK, CreatedChanges(t));
    forall f | f in TRACKED
      ensures f in v && v[f] == FieldOf(t, f)
    {
      match f
      case Title =>
      case Description =>
      case StatusField =>
      case PriorityField =>
      case DueAt =>
      case ClosedAt =>
      case AssigneeId =>
    }
  }

  // ----- each call -----

  lemma CreateTaskKeeps(d: Data, user: Id, id: Id, req: CreateRequest, now: int)
    requires Inv(d)
    ensures Inv(CreateTask(d, user, id, req, now).data)
  {
    hide AuditOk;
    var d' := CreateTask(d, user, id, req, now).data;
    if d' != d {
      var t := NewTask(user, id, req, now);
      FirstEntry(t, Entry(user, Created, CreatedChanges(t), now));
      forall i | i in d'.tasks
        ensures RowOk(d', i)
      {
        assert i != id ==> RowOk(d, i);
      }
    }
  }

  lemma UpdateTaskKeeps(d: Data, user: Id, id: Id, req: UpdateRequest, now: int)
    requires Inv(d)
    ensures Inv(UpdateTask(d, user, id, req, now).data)
  {
    hide AuditOk, Requested, Refused, Diff, OneOwner;
    var o := UpdateTask(d, user, id, req, now);
    if o.invalidated.Some? {
      var t, d' := d.tasks[id], o.data;
      assert RowOk(d, id);
      AcceptedAssigneeIsMember(RoleIn(d, t.team, user).value, user, t, req, MembersOf(d, t.team), now);
      UpdatedRow(t, d.history[id], user, req, now);
      forall i | i in d'.tasks
        ensures RowOk(d', i)
      {
        assert i != id ==> RowOk(d, i);
      }
    }
  }

  /** The row an update writes and the entry it records stay in step; its assignee is the one asked for. */
  lemma UpdatedRow(t: Task, log: seq<Entry>, user: Id, req: UpdateRequest, now: int)
    requires AuditOk(t, log) && (t.closedAt.Some? <==> t.status == Done)
    ensures var r := Requested(t, req, now).(updatedAt := now, version := t.version + 1);
      && AuditOk(r, log + [Entry(user, Updated, Diff(t, Requested(t, req, now)), now)])
      && r.id == t.id && r.team == t.team && r.assignee == RequestedAssignee(t, req)
      && (r.closedAt.Some? <==> r.status == Done)
  {
    hide AuditOk;
    ClosedTracksDone(t, req, now);
    var g := Requested(t, req, now);
    var r := g.(updatedAt := now, version := t.version + 1);
    assert g.id == t.id && g.team == t.team;
    hide Requested;
    assert forall f :: FieldOf(r, f) == FieldOf(g, f);
    AppendEntry(t, log, r, Entry(user, Updated, Diff(t, g), now));
  }

  lemma DeleteTaskKeeps(d: Data, user: Id, id: Id)
    requires Inv(d)
    ensures Inv(DeleteTask(d, user, id).data)
  {
    hide AuditOk;
    var d' := DeleteTask(d, user, id).data;
    forall i | i in d'.tasks
      ensures RowOk(d', i)
    {
      assert RowOk(d, i);
    }
  }

  /** Unassigning a user from a team's tasks, each with its entry, leaves none assigned to them. */
  lemma UnassignKeeps(d: Data, team: Id, user: Id, author: Id, now: int, i: Id)
    requires i in d.tasks && i in d.history && AuditOk(d.tasks[i], d.history[i])
    ensures var d' := UnassignUser(d, team, user, author, now);
      && d'.tasks.Keys == d.tasks.Keys && d'.history.Keys == d.history.Keys && AuditOk(d'.tasks[i], d'.history[i])
      && (d'.tasks[i] == d.tasks[i] || d'.tasks[i] == d.tasks[i].(assignee := None, updatedAt := now, version := d.tasks[i].version + 1))
      && !d'.tasks[i].AssignedTo(team, user)
  {
    var t, t' := d.tasks[i], UnassignUser(d, team, user, author, now).tasks[i];
    if t.AssignedTo(team, user) {
      hide AuditOk;
      assert forall f :: f in TRACKED && f != AssigneeId ==> FieldOf(t, f) == FieldOf(t', f);
      AppendEntry(t, d.history[i], t', UnassignEntry(user, author, now));
    }
  }

  lemma ExpelKeeps(d: Data, team: Id, user: Id, author: Id, now: int)
    requires Inv(d) && team in d.members && !OwnedBy(d.members[team], user)
    ensures Inv(Expel(d, team, user, author, now).data)
  {
    hide AuditOk, OneOwner;
    var d1 := d.(members := d.members[team := d.members[team] - {user}]);
    var d' := UnassignUser(d1, team, user, author, now);
    forall i | i in d'.tasks
      ensures RowOk(d', i)
    {
      assert RowOk(d, i);
      UnassignKeeps(d1, team, user, author, now, i);
    }
    OwnerStays(d.members[team], user);
  }

  lemma OwnerStays(roles: map<Id, Role>, u: Id)
    requires OneOwner(roles) && !OwnedBy(roles, u)
    ensures OneOwner(roles - {u})
  {
    var o :| OwnedBy(roles, o) && forall v :: OwnedBy(roles, v) ==> v == o;
    var roles' := roles - {u};
    assert forall v :: OwnedBy(roles', v) ==> OwnedBy(roles, v);
    assert OwnedBy(roles', o);
  }

  /** Calls that change memberships and nothing else, and take nobody out. */
  lemma MembershipKeeps(d: Data, d': Data)
    requires Inv(d) && d'.tasks == d.tasks && d'.history == d.history
    requires forall t :: t in d.members ==> t in d'.members && d.members[t].Keys <= d'.members[t].Keys
    requires forall t :: t in d'.members ==> OneOwner(d'.members[t])
    ensures Inv(d')
  {
    hide AuditOk, OneOwner;
    forall i | i in d'.tasks
      ensures RowOk(d', i)
    {
      assert RowOk(d, i);
    }
  }

  lemma CreateTeamKeeps(d: Data, user: Id, team: Id)
    requires Inv(d)
    ensures Inv(CreateTeam(d, user, team).data)
  {
    hide RowOk;
    var roles: map<Id, Role> := map[user := Owner];
    assert OwnedBy(roles, user) && forall v :: OwnedBy(roles, v) ==> v == user;
    MembershipKeeps(d, CreateTeam(d, user, team).data);
  }

  /** A member set to a role other than owner, who was not the owner. */
  lemma NonOwnerRole(roles: map<Id, Role>, u: Id, r: Role)
    requires OneOwner(roles) && r != Owner && !OwnedBy(roles, u)
    ensures OneOwner(roles[u := r])
  {
    var o :| OwnedBy(roles, o) && forall v :: OwnedBy(roles, v) ==> v == o;
    var roles' := roles[u := r];
    assert forall v :: OwnedBy(roles', v) ==> OwnedBy(roles, v);
    assert OwnedBy(roles', o);
  }

  lemma InviteKeeps(d: Data, actor: Id, team: Id, invitee: Id, asked: Option<Role>)
    requires Inv(d)
    ensures Inv(InviteMember(d, actor, team, invitee, asked).data)
  {
    hide RowOk;
    var d' := InviteMember(d, actor, team, invitee, asked).data;
    if d' != d {
      NonOwnerRole(d.members[team], invitee, if asked.Some? then asked.value else Member);
      hide OneOwner;
      MembershipKeeps(d, d');
    }
  }

  lemma ChangeRoleKeeps(d: Data, actor: Id, team: Id, target: Id, role: Role)
    requires Inv(d)
    ensures Inv(ChangeMemberRole(d, actor, team, target, role).data)
  {
    hide RowOk;
    var d' := ChangeMemberRole(d, actor, team, target, role).data;
    if d' != d {
      NonOwnerRole(d.members[team], target, role);
      hide OneOwner;
      MembershipKeeps(d, d');
    }
  }

  lemma TransferKeeps(d: Data, actor: Id, team: Id, heir: Id)
    requires Inv(d)
    ensures Inv(TransferOwnership(d, actor, team, heir).data)
  {
    hide RowOk;
    var d' := TransferOwnership(d, actor, team, heir).data;
    if d' != d {
      HeirOwns(d.members[team], actor, heir);
      hide OneOwner;
      MembershipKeeps(d, d');
    }
  }

  lemma HeirOwns(roles: map<Id, Role>, actor: Id, heir: Id)
    requires OneOwner(roles) && OwnedBy(roles, actor) && actor != heir
    ensures OneOwner(roles[heir := Owner][actor := Admin])
  {
    var roles' := roles[heir := Owner][actor := Admin];
    assert forall v :: OwnedBy(roles', v) ==> v == heir || (v != actor && OwnedBy(roles, v));
    assert OwnedBy(roles', heir);
  }

  lemma DeleteTeamKeeps(d: Data, user: Id, team: Id)
    requires Inv(d)
    ensures Inv(DeleteTeam(d, user, team).data)
  {
    hide AuditOk, OneOwner;
    var d' := DeleteTeam(d, user, team).data;
    forall i | i in d'.tasks
      ensures RowOk(d', i)
    {
      assert RowOk(d, i);
    }
  }

  lemma PerformKeeps(d: Data, c: Call)
    requires Inv(d)
    ensures Inv(Perform(d, c).data)
  {
    hide Inv;
    match c
    case CallCreateTeam(u, t) => CreateTeamKeeps(d, u, t);
    case CallDeleteTeam(u, t) => DeleteTeamKeeps(d, u, t);
    case CallInvite(a, t, u, r) => InviteKeeps(d, a, t, u, r);
    case CallLeave(u, t, now) =>
      if LeaveTeam(d, u, t, now).data != d {
        ExpelKeeps(d, t, u, u, now);
      }
    case CallTransfer(a, t, h) => TransferKeeps(d, a, t, h);
    case CallChangeRole(a, t, x, r) => ChangeRoleKeeps(d, a, t, x, r);
    case CallRemove(a, t, x, now) =>
      if RemoveMember(d, a, t, x, now).data != d {
        ExpelKeeps(d, t, x, a, now);
      }
    case CallCreateTask(u, id, req, now) => CreateTaskKeeps(d, u, id, req, now);
    case CallUpdateTask(u, id, req, now) => UpdateTaskKeeps(d, u, id, req, now);
    case CallDeleteTask(u, id) => DeleteTaskKeeps(d, u, id);
  }

  lemma {:induction false} RunKeeps(d: Data, calls: seq<Call>)
    requires Inv(d)
    ensures Inv(Run(d, calls))
    decreases |calls|
  {
    hide Inv, Perform;
    if calls != [] {
      PerformKeeps(d, calls[0]);
      RunKeeps(Perform(d, calls[0]).data, calls[1..]);
    }
  }

  // ----- over every serial run -----

  /** Folding a task's history from an empty row yields exactly its stored fields, each entry's old
      values are what the entries before it left, and the version counts the entries. */
  lemma HistoryReplaysToRow(users: set<Id>, calls: seq<Call>, id: Id)
    requires id in Run(Fresh(users), calls).tasks
    ensures var d := Run(Fresh(users), calls);
      && id in d.history && d.tasks[id].version == |d.history[id]|
      && Replay(d.history[id]) == Snapshot(d.tasks[id]) && Chained(d.history[id])
  {
    RunKeeps(Fresh(users), calls);
    assert RowOk(Run(Fresh(users), calls), id);
  }

  /** Every assignee is a member of the task's team, and closed_at is set exactly when the task is done. */
  lemma RowsStayConsistent(users: set<Id>, calls: seq<Call>, id: Id)
    requires id in Run(Fresh(users), calls).tasks
    ensures var d := Run(Fresh(users), calls); var t := d.tasks[id];
      && t.id == id && t.team in d.members
      && (t.assignee.Some? ==> t.assignee.value in d.members[t.team])
      && (t.closedAt.Some? <==> t.status == Done)
  {
    RunKeeps(Fresh(users), calls);
    assert RowOk(Run(Fresh(users), calls), id);
  }

  // ----- the cache is told -----

  /** The row of task `id`, if it is one of the team's. */
  function TeamRow(d: Data, team: Id, id: Id): Option<Task>
  {
    if id in d.tasks && d.tasks[id].team == team then Some(d.tasks[id]) else None
  }

  /** A call that changes a task row of a team invalidates that team's cached pages; as it
      invalidates one team at most, it changes the rows of one team only. */
  lemma ChangedTeamIsInvalidated(d: Data, c: Call, team: Id, id: Id)
    requires TeamRow(Perform(d, c).data, team, id) != TeamRow(d, team, id)
    ensures Perform(d, c).error.None? && Perform(d, c).invalidated == Some(team)
  {
    hide Refused, Requested, CreateTaskCheck, NormalizeDueAt, Diff, OneOwner;
    match c
    case CallUpdateTask(u, i, req, now) =>
      if i in d.tasks {
        KeepsTeam(d.tasks[i], req, now);
      }
    case CallLeave(u, t, now) => ExpelTouches(d, t, u, u, now, team, id);
    case CallRemove(a, t, x, now) => ExpelTouches(d, t, x, a, now, team, id);
    case CallCreateTask(u, i, req, now) => CreateTouches(d, u, i, req, now, team, id);
    case _ =>
  }

  lemma CreateTouches(d: Data, user: Id, i: Id, req: CreateRequest, now: int, team: Id, id: Id)
    requires TeamRow(CreateTask(d, user, i, req, now).data, team, id) != TeamRow(d, team, id)
    ensures CreateTask(d, user, i, req, now).error.None? && CreateTask(d, user, i, req, now).invalidated == Some(team)
  {
    hide CreateTaskCheck, NormalizeDueAt;
  }

  lemma ExpelTouches(d: Data, t: Id, user: Id, author: Id, now: int, team: Id, id: Id)
    ensures t in d.members && TeamRow(Expel(d, t, user, author, now).data, team, id) != TeamRow(d, team, id) ==>
      Expel(d, t, user, author, now).invalidated == Some(team)
  {
    if t in d.members && id in d.tasks && d.tasks[id].AssignedTo(t, user) {
      assert HasAssigned(d, t, user);
    }
  }

  lemma KeepsTeam(t: Task, req: UpdateRequest, now: int)
    ensures Requested(t, req, now).team == t.team
  {
  }
}
