/** Who can change what: the role policy, stated over whole service calls. */
module Authority {
  import opened Domain
  import opened Rbac
  import opened Strings
  import opened TaskUpdate
  import opened Service
  import Audit

  /** The user a call acts for. */
  function Actor(c: Call): Id
  {
    match c
    case CallCreateTeam(u, _) => u
    case CallDeleteTeam(u, _) => u
    case CallInvite(a, _, _, _) => a
    case CallLeave(u, _, _) => u
    case CallTransfer(a, _, _) => a
    case CallChangeRole(a, _, _, _) => a
    case CallRemove(a, _, _, _) => a
    case CallCreateTask(u, _, _, _) => u
    case CallUpdateTask(u, _, _, _) => u
    case CallDeleteTask(u, _) => u
  }

  /**
   * How an actor may change a user's role in an existing team: the owner's only by handing
   * the team over, anyone else's own by leaving, and a lesser one from above. Admins touch
   * neither the owner nor each other, and nobody becomes owner but by the owner's hand.
   */
  predicate RoleChangeAllowed(actor: Role, self: bool, before: Option<Role>, after: Option<Role>)
  {
    match (before, after)
    case (Some(Owner), _) => self && after == Some(Admin)
    case (_, Some(Owner)) => actor == Owner && !self && before.Some?
    case (None, _) => actor.IsManager() && !self
    case (Some(r), None) => self || (actor.IsManager() && !(actor == Admin && r == Admin))
    case (Some(r), Some(_)) => !self && actor.IsManager() && !(actor == Admin && r == Admin)
  }

  /** Whoever's membership a call changes, its actor had the authority to change it. */
  lemma MembershipNeedsAuthority(d: Data, c: Call, team: Id, user: Id)
    requires RoleIn(Perform(d, c).data, team, user) != RoleIn(d, team, user)
    ensures var before, after := RoleIn(d, team, user), RoleIn(Perform(d, c).data, team, user);
      if team !in d.members then user == Actor(c) && after == Some(Owner)
      else
        RoleIn(d, team, Actor(c)).Some? &&
        var actor := RoleIn(d, team, Actor(c)).value;
        if team !in Perform(d, c).data.members then actor == Owner
        else RoleChangeAllowed(actor, user == Actor(c), before, after)
  {
    hide Refused, Requested, Diff, NormalizeDueAt, CreateTaskCheck, Trim, TaskPermissionsFor;
    if c.CallChangeRole? || c.CallTransfer? || c.CallInvite? {
      RoleCalls(d, c, team, user);
    }
  }

  lemma RoleCalls(d: Data, c: Call, team: Id, user: Id)
    requires c.CallChangeRole? || c.CallTransfer? || c.CallInvite?
    requires RoleIn(Perform(d, c).data, team, user) != RoleIn(d, team, user)
    ensures team in d.members && team in Perform(d, c).data.members && RoleIn(d, team, Actor(c)).Some?
    ensures RoleChangeAllowed(RoleIn(d, team, Actor(c)).value, user == Actor(c), RoleIn(d, team, user), RoleIn(Perform(d, c).data, team, user))
  {
    hide CreateTask, UpdateTask, DeleteTask, UnassignUser;
  }

  /** `t'` differs from `t` in the named fields at most. */
  predicate OnlyUnassigned(t: Task, t': Task)
  {
    t' == t.(assignee := None, updatedAt := t'.updatedAt, version := t.version + 1)
  }

  predicate OnlyStatus(t: Task, t': Task)
  {
    t' == t.(status := t'.status, closedAt := t'.closedAt, updatedAt := t'.updatedAt, version := t.version + 1)
  }

  predicate SameIdentity(t: Task, t': Task)
  {
    t'.id == t.id && t'.team == t.team && t'.createdBy == t.createdBy && t'.createdAt == t.createdAt
  }

  /** A task row only changes by a member's hand: a manager's or the creator's, the assignee's
      for its status alone, or by losing an assignee who leaves or is removed. */
  lemma TaskChangesNeedAuthority(d: Data, c: Call, id: Id)
    requires id in d.tasks && id in Perform(d, c).data.tasks && Perform(d, c).data.tasks[id] != d.tasks[id]
    ensures var t, t' := d.tasks[id], Perform(d, c).data.tasks[id];
      && SameIdentity(t, t') && t'.version == t.version + 1
      && RoleIn(d, t.team, Actor(c)).Some?
      && var actor := RoleIn(d, t.team, Actor(c)).value;
         || actor.IsManager() || t.createdBy == Actor(c)
         || (t.assignee == Some(Actor(c)) && (OnlyStatus(t, t') || OnlyUnassigned(t, t')))
  {
    hide Refused, Requested, Diff, NormalizeDueAt, CreateTaskCheck, Trim, TaskPermissionsFor;
    if c.CallUpdateTask? {
      var t := d.tasks[id];
      var role := RoleIn(d, t.team, c.user);
      IdentityStays(t, c.update, c.now);
      if !role.value.IsManager() && t.createdBy != c.user {
        AssigneeChangesStatusOnly(role.value, c.user, t, c.update, MembersOf(d, t.team), c.now);
      }
    }
  }

  lemma IdentityStays(t: Task, req: UpdateRequest, now: int)
    ensures SameIdentity(t, Requested(t, req, now)) && Requested(t, req, now).version == t.version
    ensures Requested(t, req, now).updatedAt == t.updatedAt
  {
  }

  /** A task only goes by a manager's or its creator's hand, or with its team by the owner's. */
  lemma TaskRemovalNeedsAuthority(d: Data, c: Call, id: Id)
    requires id in d.tasks && id !in Perform(d, c).data.tasks
    ensures var t := d.tasks[id];
      && RoleIn(d, t.team, Actor(c)).Some?
      && var actor := RoleIn(d, t.team, Actor(c)).value;
         if t.team in Perform(d, c).data.members then actor.IsManager() || t.createdBy == Actor(c) else actor == Owner
  {
    hide Refused, Requested, Diff, NormalizeDueAt, CreateTaskCheck, Trim;
  }

  /** A task only appears as its creator's, who is a member of its team. */
  lemma NewTasksAreTheirCreators(d: Data, c: Call, id: Id)
    requires id !in d.tasks && id in Perform(d, c).data.tasks
    ensures var t := Perform(d, c).data.tasks[id];
      t.id == id && t.createdBy == Actor(c) && RoleIn(d, t.team, Actor(c)).Some? && t.version == 1 && t.status == Todo
  {
    hide Refused, Requested, Diff, NormalizeDueAt, Trim;
  }

  /** An invitation as admin takes effect exactly when a manager invites a registered outsider: an
      admin's as much as the owner's. Nobody else's role changes. */
  lemma InviteAsAdminIff(d: Data, actor: Id, team: Id, invitee: Id)
    ensures var o := InviteMember(d, actor, team, invitee, Some(Admin));
      var role := RoleIn(d, team, actor);
      && (o.error.None? <==> role.Some? && role.value.IsManager() && invitee in d.users && RoleIn(d, team, invitee).None?)
      && (o.error.None? ==> RoleIn(o.data, team, invitee) == Some(Admin))
      && (o.error.Some? ==> o.data == d)
      && forall t, u :: (t, u) != (team, invitee) ==> RoleIn(o.data, t, u) == RoleIn(d, t, u)
  {
  }

  /** The call hands the team over or deletes it, in the name of `user`. */
  predicate GivesUp(c: Call, user: Id, team: Id)
  {
    (c.CallTransfer? && c.actor == user && c.team == team) || (c.CallDeleteTeam? && c.user == user && c.team == team)
  }

  lemma OwnerKeepsTeam(d: Data, c: Call, user: Id, team: Id)
    requires Audit.Inv(d) && RoleIn(d, team, user) == Some(Owner) && !GivesUp(c, user, team)
    ensures RoleIn(Perform(d, c).data, team, user) == Some(Owner)
  {
    hide Refused, Requested, Diff, NormalizeDueAt, CreateTaskCheck, Trim, TaskPermissionsFor, Audit.RowOk, Audit.AuditOk;
    assert Audit.OwnedBy(d.members[team], user) && Audit.OneOwner(d.members[team]);
    assert forall v :: Audit.OwnedBy(d.members[team], v) ==> v == user;
    var d' := Perform(d, c).data;
    if RoleIn(d', team, user) != Some(Owner) {
      MembershipNeedsAuthority(d, c, team, user);
      assert RoleIn(d, team, Actor(c)) == Some(Owner) ==> Audit.OwnedBy(d.members[team], Actor(c));
      OnlyTheseLose(d, c, team, user);
    }
  }

  lemma OnlyTheseLose(d: Data, c: Call, team: Id, user: Id)
    requires Actor(c) == user && RoleIn(d, team, user) == Some(Owner) && RoleIn(Perform(d, c).data, team, user) != Some(Owner)
    ensures GivesUp(c, user, team)
  {
    hide Refused, Requested, Diff, NormalizeDueAt, CreateTaskCheck, Trim, TaskPermissionsFor;
  }

  /** The owner cannot be removed or demoted: whatever others do, only the owner ends the ownership. */
  lemma {:induction false} OwnershipEndsByOwnerOnly(d: Data, calls: seq<Call>, user: Id, team: Id)
    requires Audit.Inv(d) && RoleIn(d, team, user) == Some(Owner)
    requires forall i :: 0 <= i < |calls| ==> !GivesUp(calls[i], user, team)
    ensures RoleIn(Run(d, calls), team, user) == Some(Owner)
    decreases |calls|
  {
    hide Audit.Inv, Perform, GivesUp, RoleIn;
    if calls != [] {
      OwnerKeepsTeam(d, calls[0], user, team);
      Audit.PerformKeeps(d, calls[0]);
      OwnershipEndsByOwnerOnly(Perform(d, calls[0]).data, calls[1..], user, team);
    }
  }
}
