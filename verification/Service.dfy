/** Whole service calls on teams, tasks and the audit log, run one after the other. */
module Service {
  import opened Domain
  import opened Rbac
  import opened Strings
  import opened TaskUpdate

  datatype Action = Created | Updated

  /** One audit-log entry; a task's entries are kept in insertion order. */
  datatype Entry = Entry(changedBy: Id, action: Action, changes: Changes, at: int)

  datatype CreateRequest = CreateRequest(
    team: Id,
    title: string,
    description: string,
    assignee: Option<Id>,
    priority: Option<Priority>,
    dueAt: Option<int>)

  /** Registered users, memberships by team, tasks, and each task's audit log. */
  datatype Data = Data(
    users: set<Id>,
    members: map<Id, map<Id, Role>>,
    tasks: map<Id, Task>,
    history: map<Id, seq<Entry>>)

  /** The committed data, the error if the call was refused, and the team whose cached pages are invalidated. */
  datatype Outcome = Outcome(data: Data, error: Option<Error>, invalidated: Option<Id>)

  function Refuse(d: Data, e: Error): Outcome
  {
    Outcome(d, Some(e), None)
  }

  function RoleIn(d: Data, team: Id, user: Id): Option<Role>
  {
    if team in d.members && user in d.members[team] then Some(d.members[team][user]) else None
  }

  function MembersOf(d: Data, team: Id): set<Id>
  {
    if team in d.members then d.members[team].Keys else {}
  }

  function SetRole(d: Data, team: Id, user: Id, role: Role): Data
    requires team in d.members
  {
    d.(members := d.members[team := d.members[team][user := role]])
  }

  // ----- tasks -----

  function NewTask(user: Id, id: Id, req: CreateRequest, now: int): Task
  {
    Task(id, req.team, Trim(req.title), Trim(req.description), Todo,
         if req.priority.Some? then req.priority.value else Medium,
         if NormalizeDueAt(req.dueAt).Ok? then NormalizeDueAt(req.dueAt).value else None,
         user, Some(InitialAssignee(user, req)), now, now, None, 1)
  }

  /** The assignee defaults to the creator. */
  function InitialAssignee(user: Id, req: CreateRequest): Id
  {
    if req.assignee.Some? && req.assignee.value != "" then req.assignee.value else user
  }

  /** Every initial field, recorded with no old value. */
  function CreatedChanges(t: Task): Changes
  {
    map[Title := Change(NoValue, Text(t.title)),
        Description := Change(NoValue, Text(t.description)),
        StatusField := Change(NoValue, StatusValue(t.status)),
        PriorityField := Change(NoValue, PriorityValue(t.priority)),
        DueAt := Change(NoValue, TimeValue(t.dueAt)),
        AssigneeId := Change(NoValue, IdValue(t.assignee))]
  }

  /** The checks CreateTask makes before it opens its transaction. */
  function CreateTaskCheck(d: Data, user: Id, req: CreateRequest): Option<Error>
  {
    if RoleIn(d, req.team, user).None? then Some(Forbidden)
    else if InitialAssignee(user, req) !in MembersOf(d, req.team) then Some(AssigneeNotInTeam)
    else if NormalizeDueAt(req.dueAt).Err? then Some(NormalizeDueAt(req.dueAt).error)
    else None
  }

  /** The transaction: the task and its "created" entry commit together. */
  function CreateTaskCommit(d: Data, user: Id, id: Id, req: CreateRequest, now: int): Outcome
  {
    var t := NewTask(user, id, req, now);
    if id in d.tasks then Refuse(d, Internal)
    else if req.team !in d.members then Refuse(d, NotFound)
    else Outcome(d.(tasks := d.tasks[id := t], history := d.history[id := [Entry(user, Created, CreatedChanges(t), now)]]), None, Some(req.team))
  }

  function CreateTask(d: Data, user: Id, id: Id, req: CreateRequest, now: int): Outcome
  {
    var e := CreateTaskCheck(d, user, req);
    if e.Some? then Refuse(d, e.value) else CreateTaskCommit(d, user, id, req, now)
  }

  /** The transaction, deciding on the locked row and on the role and members as read without a lock. */
  function UpdateTaskCommit(d: Data, user: Id, id: Id, req: UpdateRequest, now: int, role: Option<Role>, members: set<Id>): Outcome
  {
    if req.IsEmpty() then Refuse(d, InvalidInput)
    else if id !in d.tasks || id !in d.history then Refuse(d, NotFound)
    else
      var t := d.tasks[id];
      if role.None? then Refuse(d, NotFound)
      else if req.version != t.version then Refuse(d, VersionConflict)
      else
        var e := Refused(role.value, user, t, req, members);
        var r := Requested(t, req, now);
        if e.Some? then Refuse(d, e.value)
        else if Diff(t, r) == map[] then Outcome(d, None, None)
        else Outcome(d.(tasks := d.tasks[id := r.(updatedAt := now, version := t.version + 1)],
                        history := d.history[id := d.history[id] + [Entry(user, Updated, Diff(t, r), now)]]), None, Some(t.team))
  }

  function UpdateTask(d: Data, user: Id, id: Id, req: UpdateRequest, now: int): Outcome
  {
    var team := if id in d.tasks then d.tasks[id].team else "";
    UpdateTaskCommit(d, user, id, req, now, RoleIn(d, team, user), MembersOf(d, team))
  }

  function DeleteTask(d: Data, user: Id, id: Id): Outcome
  {
    if id !in d.tasks then Refuse(d, NotFound)
    else
      var t := d.tasks[id];
      var role := RoleIn(d, t.team, user);
      if role.None? then Refuse(d, NotFound)
      else if !TaskPermissionsFor(role.value, user, t).delete then Refuse(d, Forbidden)
      else Outcome(d.(tasks := d.tasks - {id}, history := d.history - {id}), None, Some(t.team))
  }

  // ----- memberships -----

  function UnassignEntry(user: Id, author: Id, now: int): Entry
  {
    Entry(author, Updated, map[AssigneeId := Change(Text(user), NoValue)], now)
  }

  /** First the history of every affected task, then the tasks; both set-based. */
  function UnassignUser(d: Data, team: Id, user: Id, author: Id, now: int): Data
  {
    d.(history := map id | id in d.history ::
         if id in d.tasks && d.tasks[id].AssignedTo(team, user) then d.history[id] + [UnassignEntry(user, author, now)] else d.history[id],
       tasks := map id | id in d.tasks ::
         if d.tasks[id].AssignedTo(team, user)
         then d.tasks[id].Unassigned(now) else d.tasks[id])
  }

  predicate HasAssigned(d: Data, team: Id, user: Id)
  {
    exists id :: id in d.tasks && d.tasks[id].AssignedTo(team, user)
  }

  /** Delete the membership and unassign the user's tasks in one transaction. */
  function Expel(d: Data, team: Id, user: Id, author: Id, now: int): Outcome
    requires team in d.members
  {
    var d' := d.(members := d.members[team := d.members[team] - {user}]);
    Outcome(UnassignUser(d', team, user, author, now), None, if HasAssigned(d, team, user) then Some(team) else None)
  }

  function AssignedIds(d: Data, team: Id, user: Id): set<Id>
  {
    set id | id in d.tasks && d.tasks[id].AssignedTo(team, user)
  }

  /** The transaction, with the tasks its history statement and its update statement found. */
  function ExpelCommit(d: Data, team: Id, user: Id, author: Id, now: int, recorded: set<Id>, written: set<Id>): Outcome
    requires team in d.members
  {
    Outcome(d.(members := d.members[team := d.members[team] - {user}],
               history := map id | id in d.history :: if id in recorded then d.history[id] + [UnassignEntry(user, author, now)] else d.history[id],
               tasks := map id | id in d.tasks :: if id in written then d.tasks[id].Unassigned(now) else d.tasks[id]),
            None, if written != {} then Some(team) else None)
  }

  function CreateTeam(d: Data, user: Id, team: Id): Outcome
  {
    if user !in d.users || team in d.members then Refuse(d, Internal)
    else Outcome(d.(members := d.members[team := map[user := Owner]]), None, None)
  }

  function DeleteTeam(d: Data, user: Id, team: Id): Outcome
  {
    var role := RoleIn(d, team, user);
    if role.None? then Refuse(d, Forbidden)
    else if CanDeleteTeam(role.value).Some? then Refuse(d, CanDeleteTeam(role.value).value)
    else
      var gone := set id | id in d.tasks && d.tasks[id].team == team;
      Outcome(d.(members := d.members - {team}, tasks := d.tasks - gone, history := d.history - gone), None, Some(team))
  }

  function InviteMember(d: Data, actor: Id, team: Id, invitee: Id, asked: Option<Role>): Outcome
  {
    var role := RoleIn(d, team, actor);
    var given := if asked.Some? then asked.value else Member;
    if role.None? then Refuse(d, Forbidden)
    else if CanInvite(role.value, given).Some? then Refuse(d, CanInvite(role.value, given).value)
    else if invitee !in d.users then Refuse(d, NotFound)
    else if invitee == actor then Refuse(d, InvalidInput)
    else if invitee in d.members[team] then Refuse(d, AlreadyExists)
    else Outcome(SetRole(d, team, invitee, given), None, None)
  }

  function LeaveTeam(d: Data, user: Id, team: Id, now: int): Outcome
  {
    var role := RoleIn(d, team, user);
    if role.None? then Refuse(d, Forbidden)
    else if CanLeave(role.value).Some? then Refuse(d, CanLeave(role.value).value)
    else Expel(d, team, user, user, now)
  }

  function TransferOwnership(d: Data, actor: Id, team: Id, heir: Id): Outcome
  {
    var role := RoleIn(d, team, actor);
    if role.None? then Refuse(d, Forbidden)
    else if CanTransferOwnership(role.value, actor == heir).Some? then Refuse(d, CanTransferOwnership(role.value, actor == heir).value)
    else if RoleIn(d, team, heir).None? then Refuse(d, NotFound)
    else Outcome(SetRole(SetRole(d, team, heir, Owner), team, actor, Admin), None, None)
  }

  function ChangeMemberRole(d: Data, actor: Id, team: Id, target: Id, role: Role): Outcome
  {
    var a, t := RoleIn(d, team, actor), RoleIn(d, team, target);
    if a.None? then Refuse(d, Forbidden)
    else if t.None? then Refuse(d, NotFound)
    else if CanChangeRole(a.value, t.value, role, actor == target).Some? then Refuse(d, CanChangeRole(a.value, t.value, role, actor == target).value)
    else Outcome(SetRole(d, team, target, role), None, None)
  }

  function RemoveMember(d: Data, actor: Id, team: Id, target: Id, now: int): Outcome
  {
    var a, t := RoleIn(d, team, actor), RoleIn(d, team, target);
    if a.None? then Refuse(d, Forbidden)
    else if t.None? then Refuse(d, NotFound)
    else if CanRemoveMember(a.value, t.value, actor == target).Some? then Refuse(d, CanRemoveMember(a.value, t.value, actor == target).value)
    else Expel(d, team, target, actor, now)
  }

  // ----- runs of calls -----

  datatype Call =
    | CallCreateTeam(user: Id, team: Id)
    | CallDeleteTeam(user: Id, team: Id)
    | CallInvite(actor: Id, team: Id, invitee: Id, asked: Option<Role>)
    | CallLeave(user: Id, team: Id, now: int)
    | CallTransfer(actor: Id, team: Id, heir: Id)
    | CallChangeRole(actor: Id, team: Id, target: Id, role: Role)
    | CallRemove(actor: Id, team: Id, target: Id, now: int)
    | CallCreateTask(user: Id, id: Id, create: CreateRequest, now: int)
    | CallUpdateTask(user: Id, id: Id, update: UpdateRequest, now: int)
    | CallDeleteTask(user: Id, id: Id)

  function Perform(d: Data, c: Call): Outcome
  {
    match c
    case CallCreateTeam(u, t) => CreateTeam(d, u, t)
    case CallDeleteTeam(u, t) => DeleteTeam(d, u, t)
    case CallInvite(a, t, u, r) => InviteMember(d, a, t, u, r)
    case CallLeave(u, t, now) => LeaveTeam(d, u, t, now)
    case CallTransfer(a, t, h) => TransferOwnership(d, a, t, h)
    case CallChangeRole(a, t, x, r) => ChangeMemberRole(d, a, t, x, r)
    case CallRemove(a, t, x, now) => RemoveMember(d, a, t, x, now)
    case CallCreateTask(u, id, req, now) => CreateTask(d, u, id, req, now)
    case CallUpdateTask(u, id, req, now) => UpdateTask(d, u, id, req, now)
    case CallDeleteTask(u, id) => DeleteTask(d, u, id)
  }

  function Run(d: Data, calls: seq<Call>): Data
    decreases |calls|
  {
    if calls == [] then d else Run(Perform(d, calls[0]).data, calls[1..])
  }

  /** Registered users and nothing else. */
  function Fresh(users: set<Id>): Data
  {
    Data(users, map[], map[], map[])
  }
}
