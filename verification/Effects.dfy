/** What each service call changes and what it leaves alone, told without the call's own code. */
module Effects {
  import opened Domain
  import opened Rbac
  import opened Strings
  import opened TaskUpdate
  import opened Service
  import opened Audit

  /** Nothing of any other team changes. */
  ghost predicate OnlyTeam(d: Data, d': Data, team: Id)
  {
    && d'.users == d.users && d'.members - {team} == d.members - {team}
    && (forall id :: id in d.tasks && d.tasks[id].team != team ==>
          id in d'.tasks && d'.tasks[id] == d.tasks[id] && id in d.history && id in d'.history && d'.history[id] == d.history[id])
    && (forall id :: id in d'.tasks && d'.tasks[id].team != team ==> id in d.tasks && d.tasks[id].team != team)
  }

  /** Nothing but one task and its history changes. */
  predicate OnlyTask(d: Data, d': Data, id: Id)
  {
    d'.users == d.users && d'.members == d.members && d'.tasks - {id} == d.tasks - {id} && d'.history - {id} == d.history - {id}
  }

  /** Nothing but the roles in one team changes, and there of one user at most. */
  predicate OnlyRole(d: Data, d': Data, team: Id, user: Id)
  {
    && d'.users == d.users && d'.tasks == d.tasks && d'.history == d.history && d'.members - {team} == d.members - {team}
    && team in d.members && team in d'.members && d'.members[team] - {user} == d.members[team] - {user}
  }

  predicate IsManagerOf(d: Data, team: Id, user: Id)
  {
    RoleIn(d, team, user) == Some(Owner) || RoleIn(d, team, user) == Some(Admin)
  }

  // ----- tasks -----

  /** A creation is refused for an outsider, for an assignee who is not a member and for a date out of
      range; else it adds one to-do with the fields sent, cleaned up or defaulted, and a first entry. */
  ghost predicate TaskCreated(d: Data, o: Outcome, user: Id, id: Id, req: CreateRequest, now: int)
  {
    var assignee := if req.assignee.Some? && req.assignee.value != "" then req.assignee.value else user;
    && OnlyTask(d, o.data, id)
    && (o.error.Some? ==> o.data == d && o.invalidated.None?)
    && o.error == (
      if RoleIn(d, req.team, user).None? then Some(Forbidden)
      else if RoleIn(d, req.team, assignee).None? then Some(AssigneeNotInTeam)
      else if req.dueAt.Some? && !(946684800000 <= req.dueAt.value < 253402300800000) then Some(InvalidInput)
      else if id in d.tasks then Some(Internal)
      else None)
    && (o.error.None? ==>
          && id in o.data.tasks && id in o.data.history && |o.data.history[id]| == 1 && o.invalidated == Some(req.team)
          && (var t := o.data.tasks[id];
              && t.id == id && t.team == req.team && t.createdBy == user && t.assignee == Some(assignee)
              && t.title == Trim(req.title) && t.description == Trim(req.description)
              && t.status == Todo && t.closedAt.None? && t.version == 1
              && t.priority == (if req.priority.Some? then req.priority.value else Medium)
              && t.dueAt == (if req.dueAt.Some? then Some(req.dueAt.value / 1000) else None)
              && t.createdAt == t.updatedAt == now)
          && (var e := o.data.history[id][0]; e.changedBy == user && e.action == Created && e.at == now))
  }

  lemma CreateTaskEffect(d: Data, user: Id, id: Id, req: CreateRequest, now: int)
    requires Inv(d)
    ensures TaskCreated(d, CreateTask(d, user, id, req, now), user, id, req, now)
  {
    hide Inv, Trim, CreatedChanges;
    var o := CreateTask(d, user, id, req, now);
    assert o.error.None? ==> o.data.tasks - {id} == d.tasks - {id} && o.data.history - {id} == d.history - {id};
  }

  /** Which update is refused and why, told on roles, versions and fields. */
  predicate UpdateDecided(d: Data, e: Option<Error>, user: Id, id: Id, req: UpdateRequest)
  {
    if req.title.None? && req.description.None? && req.status.None? && req.assignee.None? && req.priority.None? && req.dueAt.Unset? then
      e == Some(InvalidInput)
    else if id !in d.tasks || RoleIn(d, d.tasks[id].team, user).None? then e == Some(NotFound)
    else
      var t := d.tasks[id];
      var role := RoleIn(d, t.team, user).value;
      var full := role == Owner || role == Admin || t.createdBy == user;
      e ==
        if req.version != t.version then Some(VersionConflict)
        else if !full && t.assignee != Some(user) then Some(Forbidden)
        else if !full && req.title.Some? && Trim(req.title.value) != t.title then Some(Forbidden)
        else if !full && req.description.Some? && Trim(req.description.value) != t.description then Some(Forbidden)
        else if !full && req.priority.Some? && req.priority.value != t.priority then Some(Forbidden)
        else if req.dueAt.Value? && !(946684800000 <= req.dueAt.ms < 253402300800000) then Some(InvalidInput)
        else if !full && req.dueAt.Null? && t.dueAt.Some? then Some(Forbidden)
        else if !full && req.dueAt.Value? && t.dueAt != Some(req.dueAt.ms / 1000) then Some(Forbidden)
        else if !full && req.assignee.Some? && t.assignee != (if req.assignee.value == "" then None else req.assignee) then Some(Forbidden)
        else if req.assignee.Some? && req.assignee.value != "" && t.assignee != req.assignee && RoleIn(d, t.team, req.assignee.value).None? then Some(AssigneeNotInTeam)
        else None
  }

  /** What an accepted update makes of the row: the fields sent, cleaned up, closed_at with the status,
      and one version more unless nothing differs. */
  predicate UpdateWrote(t: Task, t': Task, req: UpdateRequest, now: int)
  {
    && t'.id == t.id && t'.team == t.team && t'.createdBy == t.createdBy && t'.createdAt == t.createdAt
    && t'.title == (if req.title.Some? then Trim(req.title.value) else t.title)
    && t'.description == (if req.description.Some? then Trim(req.description.value) else t.description)
    && t'.status == (if req.status.Some? then req.status.value else t.status)
    && t'.priority == (if req.priority.Some? then req.priority.value else t.priority)
    && t'.dueAt == (match req.dueAt case Unset => t.dueAt case Null => None case Value(ms) => Some(ms / 1000))
    && t'.assignee == (match req.assignee case None => t.assignee case Some(id) => if id == "" then None else Some(id))
    && t'.closedAt == (if t'.status == t.status then t.closedAt
                       else if t'.status != Done then None
                       else if t.closedAt.Some? then t.closedAt else Some(now))
    && (if SameFields(t, t') then t' == t else t'.version == t.version + 1 && t'.updatedAt == now)
  }

  predicate SameFields(t: Task, t': Task)
  {
    && t'.title == t.title && t'.description == t.description && t'.status == t.status && t'.priority == t.priority
    && t'.dueAt == t.dueAt && t'.closedAt == t.closedAt && t'.assignee == t.assignee
  }

  /** An accepted update changes one task as asked, by one version and one entry holding exactly the
      difference, or leaves everything alone when nothing differs. */
  ghost predicate TaskUpdated(d: Data, o: Outcome, user: Id, id: Id, req: UpdateRequest, now: int)
  {
    && OnlyTask(d, o.data, id)
    && UpdateDecided(d, o.error, user, id, req)
    && (o.error.Some? ==> o.data == d && o.invalidated.None?)
    && (o.error.None? ==>
          && id in d.tasks && id in o.data.tasks && id in d.history && id in o.data.history
          && var t, t' := d.tasks[id], o.data.tasks[id];
             && UpdateWrote(t, t', req, now)
             && o.data.history[id] == d.history[id] + (if SameFields(t, t') then [] else [Entry(user, Updated, Diff(t, t'), now)])
             && o.invalidated == if SameFields(t, t') then None else Some(t.team))
  }

  lemma UpdateTaskEffect(d: Data, user: Id, id: Id, req: UpdateRequest, now: int)
    requires Inv(d)
    ensures TaskUpdated(d, UpdateTask(d, user, id, req, now), user, id, req, now)
  {
    hide Inv, Refused, Requested, Diff, Trim, UpdateDecided, UpdateWrote, SameFields;
    var o := UpdateTask(d, user, id, req, now);
    UpdateIsDecided(d, user, id, req, now);
    assert d.tasks.Keys == d.history.Keys by { SameKeys(d); }
    if o.error.None? {
      var t := d.tasks[id];
      var r := Requested(t, req, now);
      UpdateIsWritten(t, r, RoleIn(d, t.team, user).value, user, req, MembersOf(d, t.team), now);
      if Diff(t, r) == map[] {
        assert o.data.history[id] + [] == o.data.history[id];
      } else {
        assert o.data.tasks - {id} == d.tasks - {id} && o.data.history - {id} == d.history - {id};
      }
    }
  }

  lemma SameKeys(d: Data)
    requires Inv(d)
    ensures d.tasks.Keys == d.history.Keys
  {
    hide RowOk, OneOwner;
  }

  lemma UpdateIsDecided(d: Data, user: Id, id: Id, req: UpdateRequest, now: int)
    requires Inv(d)
    ensures UpdateDecided(d, UpdateTask(d, user, id, req, now).error, user, id, req)
  {
    hide Inv, Refused, Requested, Diff, Trim;
    SameKeys(d);
    if id in d.tasks && RoleIn(d, d.tasks[id].team, user).Some? {
      RefusedIs(RoleIn(d, d.tasks[id].team, user).value, user, d.tasks[id], req, MembersOf(d, d.tasks[id].team));
    }
  }

  lemma UpdateIsWritten(t: Task, r: Task, role: Role, user: Id, req: UpdateRequest, members: set<Id>, now: int)
    requires Refused(role, user, t, req, members) == None && r == Requested(t, req, now)
    ensures var t' := if Diff(t, r) == map[] then t else r.(updatedAt := now, version := t.version + 1);
      UpdateWrote(t, t', req, now) && (SameFields(t, t') <==> Diff(t, r) == map[]) && Diff(t, t') == Diff(t, r)
  {
    hide Refused, Requested, Trim;
    RequestedFields(role, user, t, req, members, now);
    DiffShows(t, r, now);
    DiffIgnoresVersion(t, r, now);
  }

  lemma DiffShows(t: Task, r: Task, now: int)
    ensures SameFields(t, r) <==> Diff(t, r) == map[]
  {
    if Diff(t, r) == map[] {
      assert forall f :: f in TRACKED ==> f !in Diff(t, r);
      assert Title in TRACKED && Description in TRACKED && StatusField in TRACKED && PriorityField in TRACKED;
      assert DueAt in TRACKED && ClosedAt in TRACKED && AssigneeId in TRACKED;
      assert forall f :: f in TRACKED ==> FieldOf(t, f) == FieldOf(r, f);
      assert FieldOf(t, Title) == FieldOf(r, Title) && FieldOf(t, Description) == FieldOf(r, Description);
      assert FieldOf(t, StatusField) == FieldOf(r, StatusField) && FieldOf(t, PriorityField) == FieldOf(r, PriorityField);
      assert FieldOf(t, DueAt) == FieldOf(r, DueAt) && FieldOf(t, ClosedAt) == FieldOf(r, ClosedAt) && FieldOf(t, AssigneeId) == FieldOf(r, AssigneeId);
    }
  }

  lemma DiffIgnoresVersion(t: Task, r: Task, now: int)
    ensures Diff(t, r.(updatedAt := now, version := t.version + 1)) == Diff(t, r)
  {
  }

  /** A deletion takes one task and its history, by a manager's or the creator's hand. */
  ghost predicate TaskDeleted(d: Data, o: Outcome, user: Id, id: Id)
  {
    && OnlyTask(d, o.data, id)
    && (o.error.Some? ==> o.data == d && o.invalidated.None?)
    && (o.error.None? ==> id in d.tasks && id !in o.data.tasks && id !in o.data.history && o.invalidated == Some(d.tasks[id].team))
    && o.error == (
      if id !in d.tasks || RoleIn(d, d.tasks[id].team, user).None? then Some(NotFound)
      else if !IsManagerOf(d, d.tasks[id].team, user) && d.tasks[id].createdBy != user then Some(Forbidden)
      else None)
  }

  lemma DeleteTaskEffect(d: Data, user: Id, id: Id)
    requires Inv(d)
    ensures TaskDeleted(d, DeleteTask(d, user, id), user, id)
  {
    hide Inv;
    var o := DeleteTask(d, user, id);
    assert o.error.None? ==> o.data.tasks - {id} == d.tasks - {id} && o.data.history - {id} == d.history - {id};
  }

  // ----- teams -----

  ghost predicate TeamCreated(d: Data, o: Outcome, user: Id, team: Id)
  {
    && OnlyTeam(d, o.data, team) && o.data.tasks == d.tasks
    && (o.error.Some? ==> o.data == d)
    && o.error == (if user in d.users && team !in d.members then None else Some(Internal))
    && (o.error.None? ==> forall u :: RoleIn(o.data, team, u) == if u == user then Some(Owner) else None)
  }

  lemma CreateTeamEffect(d: Data, user: Id, team: Id)
    requires Inv(d)
    ensures TeamCreated(d, CreateTeam(d, user, team), user, team)
  {
    hide AuditOk, OneOwner;
    var o := CreateTeam(d, user, team);
    assert o.error.None? ==> o.data.members - {team} == d.members - {team};
    assert forall id :: id in d.tasks ==> RowOk(d, id);
  }

  /** Deleting a team, the owner's right, leaves no member and no task of it. */
  ghost predicate TeamDeleted(d: Data, o: Outcome, user: Id, team: Id)
  {
    && OnlyTeam(d, o.data, team)
    && (o.error.Some? ==> o.data == d && o.invalidated.None?)
    && o.error == (if RoleIn(d, team, user) == Some(Owner) then None else Some(Forbidden))
    && (o.error.None? ==> team !in o.data.members && o.invalidated == Some(team) && forall id :: id in o.data.tasks ==> o.data.tasks[id].team != team)
  }

  lemma DeleteTeamEffect(d: Data, user: Id, team: Id)
    requires Inv(d)
    ensures TeamDeleted(d, DeleteTeam(d, user, team), user, team)
  {
    hide AuditOk, OneOwner;
    var o := DeleteTeam(d, user, team);
    assert o.error.None? ==> o.data.members - {team} == d.members - {team};
    assert forall id :: id in d.tasks ==> RowOk(d, id);
  }

  ghost predicate Invited(d: Data, o: Outcome, actor: Id, team: Id, invitee: Id, asked: Option<Role>)
  {
    && (o.error.Some? ==> o.data == d)
    && o.error == (
      if !IsManagerOf(d, team, actor) then Some(Forbidden)
      else if asked == Some(Owner) then Some(InvalidInput)
      else if invitee !in d.users then Some(NotFound)
      else if invitee == actor then Some(InvalidInput)
      else if RoleIn(d, team, invitee).Some? then Some(AlreadyExists)
      else None)
    && (o.error.None? ==>
          OnlyRole(d, o.data, team, invitee) && RoleIn(o.data, team, invitee) == Some(if asked.Some? then asked.value else Member))
  }

  lemma InviteEffect(d: Data, actor: Id, team: Id, invitee: Id, asked: Option<Role>)
    requires Inv(d)
    ensures Invited(d, InviteMember(d, actor, team, invitee, asked), actor, team, invitee, asked)
  {
    hide Inv;
    var o := InviteMember(d, actor, team, invitee, asked);
    assert o.error.None? ==> o.data.members - {team} == d.members - {team} && o.data.members[team] - {invitee} == d.members[team] - {invitee};
  }

  /** Ownership moves: the heir is the one owner, the former owner an admin, everyone else as before. */
  ghost predicate Transferred(d: Data, o: Outcome, actor: Id, team: Id, heir: Id)
  {
    && (o.error.Some? ==> o.data == d)
    && o.error == (
      if RoleIn(d, team, actor) != Some(Owner) then Some(Forbidden)
      else if heir == actor then Some(InvalidInput)
      else if RoleIn(d, team, heir).None? then Some(NotFound)
      else None)
    && (o.error.None? ==>
          && OnlyTeam(d, o.data, team) && o.data.tasks == d.tasks && o.data.history == d.history
          && (forall u :: RoleIn(o.data, team, u) == Some(Owner) <==> u == heir)
          && RoleIn(o.data, team, actor) == Some(Admin)
          && (forall u :: u != actor && u != heir ==> RoleIn(o.data, team, u) == RoleIn(d, team, u)))
  }

  lemma TransferEffect(d: Data, actor: Id, team: Id, heir: Id)
    requires Inv(d)
    ensures Transferred(d, TransferOwnership(d, actor, team, heir), actor, team, heir)
  {
    hide AuditOk, OneOwner;
    var o := TransferOwnership(d, actor, team, heir);
    if o.error.None? {
      assert o.data.members - {team} == d.members - {team};
      assert forall id :: id in d.tasks ==> RowOk(d, id);
      OwnerIsUnique(d.members[team], actor);
      forall u
        ensures RoleIn(o.data, team, u) == Some(Owner) <==> u == heir
      {
        assert u != heir ==> !OwnedBy(d.members[team], u) || u == actor;
      }
    }
  }

  lemma OwnerIsUnique(roles: map<Id, Role>, u: Id)
    requires OneOwner(roles) && u in roles && roles[u] == Owner
    ensures forall v :: OwnedBy(roles, v) ==> v == u
  {
    assert OwnedBy(roles, u);
  }

  /** A role change sets one lesser member's role, never to or from owner. */
  ghost predicate RoleChanged(d: Data, o: Outcome, actor: Id, team: Id, target: Id, role: Role)
  {
    && (o.error.Some? ==> o.data == d)
    && o.error == (
      if RoleIn(d, team, actor).None? then Some(Forbidden)
      else if RoleIn(d, team, target).None? then Some(NotFound)
      else if role == Owner || target == actor then Some(InvalidInput)
      else if !IsManagerOf(d, team, actor) || RoleIn(d, team, target) == Some(Owner) then Some(Forbidden)
      else if RoleIn(d, team, actor) == Some(Admin) && RoleIn(d, team, target) == Some(Admin) then Some(Forbidden)
      else if RoleIn(d, team, target) == Some(role) then Some(InvalidInput)
      else None)
    && (o.error.None? ==> OnlyRole(d, o.data, team, target) && RoleIn(o.data, team, target) == Some(role))
  }

  lemma ChangeRoleEffect(d: Data, actor: Id, team: Id, target: Id, role: Role)
    requires Inv(d)
    ensures RoleChanged(d, ChangeMemberRole(d, actor, team, target, role), actor, team, target, role)
  {
    hide Inv;
    var o := ChangeMemberRole(d, actor, team, target, role);
    assert o.error.None? ==> o.data.members - {team} == d.members - {team} && o.data.members[team] - {target} == d.members[team] - {target};
  }

  /** The user is out, everyone else as before, and holds no task of the team; their tasks lose the
      assignee, with one version and one entry more; every other task is as it was. */
  ghost predicate Expelled(d: Data, o: Outcome, team: Id, user: Id, author: Id, now: int)
  {
    && OnlyTeam(d, o.data, team)
    && team in d.members && team in o.data.members && user in d.members[team] && o.data.members[team] == d.members[team] - {user}
    && o.data.tasks.Keys == d.tasks.Keys && o.data.history.Keys == d.history.Keys == d.tasks.Keys
    && (forall id :: id in d.tasks ==>
          var t, t' := d.tasks[id], o.data.tasks[id];
          if t.team == team && t.assignee == Some(user) then
            && t' == t.(assignee := None, updatedAt := now, version := t.version + 1)
            && o.data.history[id] == d.history[id] + [Entry(author, Updated, map[AssigneeId := Change(Text(user), NoValue)], now)]
          else t' == t && o.data.history[id] == d.history[id])
    && (o.invalidated == if o.data.tasks == d.tasks then None else Some(team))
  }

  lemma ExpelEffect(d: Data, team: Id, user: Id, author: Id, now: int)
    requires Inv(d) && team in d.members && user in d.members[team]
    ensures Expelled(d, Expel(d, team, user, author, now), team, user, author, now)
  {
    hide RowOk, OneOwner, UnassignUser, HasAssigned, OnlyTeam;
    var o := Expel(d, team, user, author, now);
    UnassignEffect(d.(members := d.members[team := d.members[team] - {user}]), team, user, author, now);
    ExpelElsewhere(d, team, user, author, now);
    TellsCache(d, team, user, author, now);
  }

  lemma ExpelElsewhere(d: Data, team: Id, user: Id, author: Id, now: int)
    requires Inv(d) && team in d.members
    ensures OnlyTeam(d, Expel(d, team, user, author, now).data, team)
  {
    hide RowOk, OneOwner;
    assert Expel(d, team, user, author, now).data.members - {team} == d.members - {team};
  }

  /** Each task of the user's in the team is unassigned, with one version and one entry more. */
  lemma UnassignEffect(d: Data, team: Id, user: Id, author: Id, now: int)
    requires d.tasks.Keys == d.history.Keys
    ensures var d' := UnassignUser(d, team, user, author, now);
      && d'.users == d.users && d'.members == d.members && d'.tasks.Keys == d.tasks.Keys && d'.history.Keys == d.history.Keys
      && (forall id :: id in d.tasks ==>
            var t, t' := d.tasks[id], d'.tasks[id];
            if t.team == team && t.assignee == Some(user) then
              && t' == t.(assignee := None, updatedAt := now, version := t.version + 1)
              && d'.history[id] == d.history[id] + [Entry(author, Updated, map[AssigneeId := Change(Text(user), NoValue)], now)]
            else t' == t && d'.history[id] == d.history[id])
  {
  }

  lemma TellsCache(d: Data, team: Id, user: Id, author: Id, now: int)
    requires team in d.members
    ensures var o := Expel(d, team, user, author, now); o.invalidated == if o.data.tasks == d.tasks then None else Some(team)
  {
    var o := Expel(d, team, user, author, now);
    if HasAssigned(d, team, user) {
      var id :| id in d.tasks && d.tasks[id].AssignedTo(team, user);
      assert o.data.tasks[id] != d.tasks[id];
    } else {
      assert o.data.tasks == d.tasks;
    }
  }

  ghost predicate Left(d: Data, o: Outcome, user: Id, team: Id, now: int)
  {
    && (o.error.Some? ==> o.data == d && o.invalidated.None?)
    && o.error == (if RoleIn(d, team, user).None? || RoleIn(d, team, user) == Some(Owner) then Some(Forbidden) else None)
    && (o.error.None? ==> Expelled(d, o, team, user, user, now))
  }

  lemma LeaveEffect(d: Data, user: Id, team: Id, now: int)
    requires Inv(d)
    ensures Left(d, LeaveTeam(d, user, team, now), user, team, now)
  {
    hide Inv, UnassignUser, Expelled;
    if LeaveTeam(d, user, team, now).error.None? {
      ExpelEffect(d, team, user, user, now);
    }
  }

  /** The owner may remove anyone else, an admin plain members, nobody themselves. */
  ghost predicate Removed(d: Data, o: Outcome, actor: Id, team: Id, target: Id, now: int)
  {
    var a, t := RoleIn(d, team, actor), RoleIn(d, team, target);
    && (o.error.Some? ==> o.data == d && o.invalidated.None?)
    && (o.error.None? <==> t.Some? && target != actor && (a == Some(Owner) || (a == Some(Admin) && t == Some(Member))))
    && o.error == (
      if a.None? then Some(Forbidden)
      else if t.None? then Some(NotFound)
      else if target == actor then Some(InvalidInput)
      else if a == Some(Owner) || (a == Some(Admin) && t == Some(Member)) then None
      else Some(Forbidden))
    && (o.error.None? ==> Expelled(d, o, team, target, actor, now))
  }

  lemma RemoveEffect(d: Data, actor: Id, team: Id, target: Id, now: int)
    requires Inv(d)
    ensures Removed(d, RemoveMember(d, actor, team, target, now), actor, team, target, now)
  {
    hide Inv, UnassignUser, Expelled;
    if RoleIn(d, team, actor) == Some(Owner) && RoleIn(d, team, target).Some? && actor != target {
      OneOwnerOnly(d, team, actor, target);
    }
    if RemoveMember(d, actor, team, target, now).error.None? {
      ExpelEffect(d, team, target, actor, now);
    }
  }

  lemma OneOwnerOnly(d: Data, team: Id, a: Id, b: Id)
    requires Inv(d) && RoleIn(d, team, a) == Some(Owner) && a != b
    ensures RoleIn(d, team, b) != Some(Owner)
  {
    hide RowOk;
    OwnerIsUnique(d.members[team], a);
    assert !OwnedBy(d.members[team], b);
  }
}
