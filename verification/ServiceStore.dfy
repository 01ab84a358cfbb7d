/** The task and team services as they run: tables updated in place, call by call. */
module ServiceStore {
  import opened Domain
  import opened Rbac
  import opened Strings
  import opened TaskUpdate
  import Service
  import Audit
  import Effects

  class Store {
    const users: set<Id>
    var members: map<Id, map<Id, Role>>
    var tasks: map<Id, Task>
    var history: map<Id, seq<Service.Entry>>

    constructor (users: set<Id>)
      ensures Valid() && View() == Service.Fresh(users)
    {
      this.users := users;
      members, tasks, history := map[], map[], map[];
    }

    /** The committed tables as a value. */
    function View(): Service.Data
      reads this
    {
      Service.Data(users, members, tasks, history)
    }

    /** Every team has one owner, every assignee is a member, every history replays to its row. */
    ghost predicate Valid()
      reads this
    {
      Audit.Inv(View())
    }

    /** The tables, the error and the invalidated team are those of outcome `o`. */
    predicate Reached(o: Service.Outcome, e: Option<Error>, invalidated: Option<Id>)
      reads this
    {
      View() == o.data && e == o.error && invalidated == o.invalidated
    }

    method CreateTask(user: Id, id: Id, req: Service.CreateRequest, now: int) returns (e: Option<Error>, invalidated: Option<Id>)
      requires Valid()
      modifies this
      ensures Valid() && Effects.TaskCreated(old(View()), Service.Outcome(View(), e, invalidated), user, id, req, now)
      ensures Reached(Service.CreateTask(old(View()), user, id, req, now), e, invalidated)
    {
      hide Audit.Inv, Effects.TaskCreated;
      ghost var was := View();
      Audit.PerformKeeps(was, Service.CallCreateTask(user, id, req, now));
      Effects.CreateTaskEffect(was, user, id, req, now);
      if req.team !in members || user !in members[req.team] {
        return Some(Forbidden), None;
      }
      var assignee := user;
      if req.assignee.Some? && req.assignee.value != "" {
        assignee := req.assignee.value;
      }
      if assignee !in members[req.team] {
        return Some(AssigneeNotInTeam), None;
      }
      var due := NormalizeDueAt(req.dueAt);
      if due.Err? {
        return Some(due.error), None;
      }
      var priority := Medium;
      if req.priority.Some? {
        priority := req.priority.value;
      }
      var task := Task(id, req.team, Trim(req.title), Trim(req.description), Todo, priority, due.value, user, Some(assignee), now, now, None, 1);
      if id in tasks {
        return Some(Internal), None;
      }
      tasks := tasks[id := task];
      history := history[id := [Service.Entry(user, Service.Created, Service.CreatedChanges(task), now)]];
      return None, Some(req.team);
    }

    method UpdateTask(user: Id, id: Id, req: UpdateRequest, now: int) returns (e: Option<Error>, invalidated: Option<Id>)
      requires Valid()
      modifies this
      ensures Valid() && Effects.TaskUpdated(old(View()), Service.Outcome(View(), e, invalidated), user, id, req, now)
      ensures Reached(Service.UpdateTask(old(View()), user, id, req, now), e, invalidated)
    {
      hide Audit.Inv, Effects.TaskUpdated;
      hide Requested, Refused, Diff, TaskPermissionsFor;
      ghost var was := View();
      Audit.PerformKeeps(was, Service.CallUpdateTask(user, id, req, now));
      Effects.UpdateTaskEffect(was, user, id, req, now);
      if req.IsEmpty() {
        return Some(InvalidInput), None;
      }
      if id !in tasks || id !in history {
        return Some(NotFound), None;
      }
      var task := tasks[id];
      if task.team !in members || user !in members[task.team] {
        return Some(NotFound), None;
      }
      if req.version != task.version {
        return Some(VersionConflict), None;
      }
      var record := new TaskRecord(task);
      var r := record.ApplyUpdate(members[task.team][user], user, req, members[task.team].Keys, now);
      if r.Err? {
        return Some(r.error), None;
      }
      if |r.value| == 0 {
        return None, None;
      }
      tasks := tasks[id := record.row.(updatedAt := now, version := task.version + 1)];
      history := history[id := history[id] + [Service.Entry(user, Service.Updated, r.value, now)]];
      return None, Some(task.team);
    }

    method DeleteTask(user: Id, id: Id) returns (e: Option<Error>, invalidated: Option<Id>)
      requires Valid()
      modifies this
      ensures Valid() && Effects.TaskDeleted(old(View()), Service.Outcome(View(), e, invalidated), user, id)
      ensures Reached(Service.DeleteTask(old(View()), user, id), e, invalidated)
    {
      hide Audit.Inv, Effects.TaskDeleted;
      ghost var was := View();
      Audit.PerformKeeps(was, Service.CallDeleteTask(user, id));
      Effects.DeleteTaskEffect(was, user, id);
      if id !in tasks {
        return Some(NotFound), None;
      }
      var task := tasks[id];
      if task.team !in members || user !in members[task.team] {
        return Some(NotFound), None;
      }
      if !TaskPermissionsFor(members[task.team][user], user, task).delete {
        return Some(Forbidden), None;
      }
      tasks := tasks - {id};
      history := history - {id};
      return None, Some(task.team);
    }

    /** History first, as it needs the old assignee; returns the number of tasks changed. */
    method UnassignUser(team: Id, user: Id, author: Id, now: int) returns (n: nat)
      modifies this`tasks, this`history
      ensures View() == Service.UnassignUser(old(View()), team, user, author, now)
      ensures n == |Service.AssignedIds(old(View()), team, user)|
      ensures Service.AssignedIds(View(), team, user) == {}
    {
      var held := set id | id in tasks && tasks[id].AssignedTo(team, user);
      history := map id | id in history :: if id in held then history[id] + [Service.UnassignEntry(user, author, now)] else history[id];
      tasks := map id | id in tasks :: if id in held then tasks[id].Unassigned(now) else tasks[id];
      n := |held|;
    }

    method CreateTeam(user: Id, team: Id) returns (e: Option<Error>)
      requires Valid()
      modifies this`members
      ensures Valid() && Effects.TeamCreated(old(View()), Service.Outcome(View(), e, None), user, team)
      ensures Reached(Service.CreateTeam(old(View()), user, team), e, None)
    {
      hide Audit.Inv, Effects.TeamCreated;
      ghost var was := View();
      Audit.PerformKeeps(was, Service.CallCreateTeam(user, team));
      Effects.CreateTeamEffect(was, user, team);
      if user !in users || team in members {
        return Some(Internal);
      }
      members := members[team := map[]];
      members := members[team := members[team][user := Owner]];
      assert members == was.members[team := map[user := Owner]];
      return None;
    }

    method DeleteTeam(user: Id, team: Id) returns (e: Option<Error>, invalidated: Option<Id>)
      requires Valid()
      modifies this
      ensures Valid() && Effects.TeamDeleted(old(View()), Service.Outcome(View(), e, invalidated), user, team)
      ensures Reached(Service.DeleteTeam(old(View()), user, team), e, invalidated)
    {
      hide Audit.Inv, Effects.TeamDeleted;
      ghost var was := View();
      Audit.PerformKeeps(was, Service.CallDeleteTeam(user, team));
      Effects.DeleteTeamEffect(was, user, team);
      if team !in members || user !in members[team] {
        return Some(Forbidden), None;
      }
      var denied := CanDeleteTeam(members[team][user]);
      if denied.Some? {
        return denied, None;
      }
      var gone := set id | id in tasks && tasks[id].team == team;
      members := members - {team};
      tasks := tasks - gone;
      history := history - gone;
      return None, Some(team);
    }

    method InviteMember(actor: Id, team: Id, invitee: Id, asked: Option<Role>) returns (e: Option<Error>)
      requires Valid()
      modifies this`members
      ensures Valid() && Effects.Invited(old(View()), Service.Outcome(View(), e, None), actor, team, invitee, asked)
      ensures Reached(Service.InviteMember(old(View()), actor, team, invitee, asked), e, None)
    {
      hide Audit.Inv, Effects.Invited;
      ghost var was := View();
      Audit.PerformKeeps(was, Service.CallInvite(actor, team, invitee, asked));
      Effects.InviteEffect(was, actor, team, invitee, asked);
      if team !in members || actor !in members[team] {
        return Some(Forbidden);
      }
      var role := Member;
      if asked.Some? {
        role := asked.value;
      }
      var denied := CanInvite(members[team][actor], role);
      if denied.Some? {
        return denied;
      }
      if invitee !in users {
        return Some(NotFound);
      }
      if invitee == actor {
        return Some(InvalidInput);
      }
      if invitee in members[team] {
        return Some(AlreadyExists);
      }
      members := members[team := members[team][invitee := role]];
      return None;
    }

    method LeaveTeam(user: Id, team: Id, now: int) returns (e: Option<Error>, invalidated: Option<Id>)
      requires Valid()
      modifies this
      ensures Valid() && Effects.Left(old(View()), Service.Outcome(View(), e, invalidated), user, team, now)
      ensures Reached(Service.LeaveTeam(old(View()), user, team, now), e, invalidated)
    {
      hide Audit.Inv, Effects.Left;
      ghost var was := View();
      Audit.PerformKeeps(was, Service.CallLeave(user, team, now));
      Effects.LeaveEffect(was, user, team, now);
      if team !in members || user !in members[team] {
        return Some(Forbidden), None;
      }
      var denied := CanLeave(members[team][user]);
      if denied.Some? {
        return denied, None;
      }
      members := members[team := members[team] - {user}];
      var unassigned := UnassignUser(team, user, user, now);
      CountsAssigned(old(View()), team, user);
      invalidated := if unassigned > 0 then Some(team) else None;
      return None, invalidated;
    }

    method TransferOwnership(actor: Id, team: Id, heir: Id) returns (e: Option<Error>)
      requires Valid()
      modifies this`members
      ensures Valid() && Effects.Transferred(old(View()), Service.Outcome(View(), e, None), actor, team, heir)
      ensures Reached(Service.TransferOwnership(old(View()), actor, team, heir), e, None)
    {
      hide Audit.Inv, Effects.Transferred;
      ghost var was := View();
      Audit.PerformKeeps(was, Service.CallTransfer(actor, team, heir));
      Effects.TransferEffect(was, actor, team, heir);
      if team !in members || actor !in members[team] {
        return Some(Forbidden);
      }
      var denied := CanTransferOwnership(members[team][actor], actor == heir);
      if denied.Some? {
        return denied;
      }
      if heir !in members[team] {
        return Some(NotFound);
      }
      members := members[team := members[team][heir := Owner]];
      members := members[team := members[team][actor := Admin]];
      return None;
    }

    method ChangeMemberRole(actor: Id, team: Id, target: Id, role: Role) returns (e: Option<Error>)
      requires Valid()
      modifies this`members
      ensures Valid() && Effects.RoleChanged(old(View()), Service.Outcome(View(), e, None), actor, team, target, role)
      ensures Reached(Service.ChangeMemberRole(old(View()), actor, team, target, role), e, None)
    {
      hide Audit.Inv, Effects.RoleChanged;
      ghost var was := View();
      Audit.PerformKeeps(was, Service.CallChangeRole(actor, team, target, role));
      Effects.ChangeRoleEffect(was, actor, team, target, role);
      if team !in members || actor !in members[team] {
        return Some(Forbidden);
      }
      if target !in members[team] {
        return Some(NotFound);
      }
      var denied := CanChangeRole(members[team][actor], members[team][target], role, actor == target);
      if denied.Some? {
        return denied;
      }
      members := members[team := members[team][target := role]];
      return None;
    }

    method RemoveMember(actor: Id, team: Id, target: Id, now: int) returns (e: Option<Error>, invalidated: Option<Id>)
      requires Valid()
      modifies this
      ensures Valid() && Effects.Removed(old(View()), Service.Outcome(View(), e, invalidated), actor, team, target, now)
      ensures Reached(Service.RemoveMember(old(View()), actor, team, target, now), e, invalidated)
    {
      hide Audit.Inv, Effects.Removed;
      ghost var was := View();
      Audit.PerformKeeps(was, Service.CallRemove(actor, team, target, now));
      Effects.RemoveEffect(was, actor, team, target, now);
      if team !in members || actor !in members[team] {
        return Some(Forbidden), None;
      }
      if target !in members[team] {
        return Some(NotFound), None;
      }
      var denied := CanRemoveMember(members[team][actor], members[team][target], actor == target);
      if denied.Some? {
        return denied, None;
      }
      members := members[team := members[team] - {target}];
      var unassigned := UnassignUser(team, target, actor, now);
      CountsAssigned(old(View()), team, target);
      invalidated := if unassigned > 0 then Some(team) else None;
      return None, invalidated;
    }
  }

  lemma CountsAssigned(d: Service.Data, team: Id, user: Id)
    ensures |Service.AssignedIds(d, team, user)| > 0 <==> Service.HasAssigned(d, team, user)
  {
    var hit := Service.AssignedIds(d, team, user);
    if Service.HasAssigned(d, team, user) {
      var id :| id in d.tasks && d.tasks[id].AssignedTo(team, user);
      assert id in hit;
    } else {
      assert hit == {};
    }
  }
}
