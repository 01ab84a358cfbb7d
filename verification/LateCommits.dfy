/** Transactions whose unlocked reads are older than their commit: exactly when they keep the tables consistent. */
module LateCommits {
  import opened Domain
  import opened Rbac
  import opened TaskUpdate
  import opened Service
  import opened Audit

  /**
   * A commit against the tables as they are by then. CreateTask checked memberships before its
   * transaction, UpdateTask read role and members without a lock, the two statements of an
   * unassign each found their own set of tasks, and the actor's role in the last three was read
   * without a lock. A whole call is one that nothing overtakes.
   */
  datatype Late =
    | LateCreate(user: Id, id: Id, create: CreateRequest, now: int)
    | LateUpdate(user: Id, id: Id, update: UpdateRequest, now: int, role: Option<Role>, members: set<Id>)
    | LateExpel(team: Id, user: Id, author: Id, now: int, recorded: set<Id>, written: set<Id>)
    | LateDelete(id: Id)
    | LateInvite(team: Id, user: Id, given: Role)
    | LateChangeRole(team: Id, user: Id, given: Role)
    | Whole(call: Call)

  predicate LesserMember(d: Data, team: Id, user: Id)
  {
    RoleIn(d, team, user).Some? && RoleIn(d, team, user) != Some(Owner)
  }

  /** What row locks and keys guarantee at the commit: the one who leaves or changes role still is a
      member other than the owner, the tasks found are still assigned, the team invited to exists.
      No request may give ownership. */
  predicate LocksHold(d: Data, l: Late)
  {
    match l
    case LateExpel(team, user, _, _, recorded, written) =>
      LesserMember(d, team, user) && recorded <= AssignedIds(d, team, user) && written <= AssignedIds(d, team, user)
    case LateInvite(team, _, given) => team in d.members && given != Owner
    case LateChangeRole(team, user, given) => LesserMember(d, team, user) && given != Owner
    case _ => true
  }

  function Committed(d: Data, l: Late): Outcome
    requires LocksHold(d, l)
  {
    match l
    case LateCreate(user, id, req, now) => CreateTaskCommit(d, user, id, req, now)
    case LateUpdate(user, id, req, now, role, members) => UpdateTaskCommit(d, user, id, req, now, role, members)
    case LateExpel(team, user, author, now, recorded, written) => ExpelCommit(d, team, user, author, now, recorded, written)
    case LateDelete(id) => Outcome(d.(tasks := d.tasks - {id}, history := d.history - {id}), None, None)
    case LateInvite(team, user, given) =>
      if user in d.members[team] then Refuse(d, AlreadyExists) else Outcome(SetRole(d, team, user, given), None, None)
    case LateChangeRole(team, user, given) => Outcome(SetRole(d, team, user, given), None, None)
    case Whole(c) => Perform(d, c)
  }

  /** A new assignee is a member by now, and an unassign found every task of the leaver, twice. */
  predicate Sound(d: Data, l: Late)
    requires LocksHold(d, l)
  {
    match l
    case LateCreate(user, id, req, now) => Committed(d, l).error.None? ==> InitialAssignee(user, req) in MembersOf(d, req.team)
    case LateUpdate(user, id, req, now, role, members) =>
      Committed(d, l).invalidated.Some? && id in d.tasks ==>
        var t := d.tasks[id];
        var next := RequestedAssignee(t, req);
        next == t.assignee || next.None? || next.value in MembersOf(d, t.team)
    case LateExpel(team, user, author, now, recorded, written) => recorded == written == AssignedIds(d, team, user)
    case _ => true
  }

  lemma CreateCommitKeepsIff(d: Data, user: Id, id: Id, req: CreateRequest, now: int)
    requires Inv(d) && CreateTaskCommit(d, user, id, req, now).error.None?
    ensures Inv(CreateTaskCommit(d, user, id, req, now).data) <==> InitialAssignee(user, req) in MembersOf(d, req.team)
  {
    hide AuditOk, OneOwner;
    var d' := CreateTaskCommit(d, user, id, req, now).data;
    var t := NewTask(user, id, req, now);
    FirstEntry(t, Entry(user, Created, CreatedChanges(t), now));
    if InitialAssignee(user, req) in MembersOf(d, req.team) {
      forall i | i in d'.tasks
        ensures RowOk(d', i)
      {
        assert i != id ==> RowOk(d, i);
      }
    } else {
      assert !RowOk(d', id);
    }
  }

  lemma UpdateCommitKeepsIff(d: Data, user: Id, id: Id, req: UpdateRequest, now: int, role: Option<Role>, members: set<Id>)
    requires Inv(d) && id in d.tasks && UpdateTaskCommit(d, user, id, req, now, role, members).invalidated.Some?
    ensures var t := d.tasks[id];
      var next := RequestedAssignee(t, req);
      Inv(UpdateTaskCommit(d, user, id, req, now, role, members).data) <==> next == t.assignee || next.None? || next.value in MembersOf(d, t.team)
  {
    hide Inv, AuditOk, Diff, Requested, RequestedAssignee, UpdateTaskCommit;
    var t, d' := d.tasks[id], UpdateTaskCommit(d, user, id, req, now, role, members).data;
    RowIsOk(d, id);
    UpdatedRow(t, d.history[id], user, req, now);
    UpdateCommitWrites(d, user, id, req, now, role, members);
    OneTaskDecides(d, d', id);
  }

  lemma RowIsOk(d: Data, id: Id)
    requires Inv(d) && id in d.tasks
    ensures RowOk(d, id)
  {
    hide AuditOk;
  }

  lemma UpdateCommitWrites(d: Data, user: Id, id: Id, req: UpdateRequest, now: int, role: Option<Role>, members: set<Id>)
    requires id in d.tasks && UpdateTaskCommit(d, user, id, req, now, role, members).invalidated.Some?
    ensures var t, d' := d.tasks[id], UpdateTaskCommit(d, user, id, req, now, role, members).data;
      var r := Requested(t, req, now);
      && d'.members == d.members && id in d.history
      && d'.tasks == d.tasks[id := r.(updatedAt := now, version := t.version + 1)]
      && d'.history == d.history[id := d.history[id] + [Entry(user, Updated, Diff(t, r), now)]]
  {
    hide Refused, Diff, Requested;
  }

  /** When one task is rewritten, consistency hangs on its row alone. */
  lemma OneTaskDecides(d: Data, d': Data, id: Id)
    requires Inv(d) && id in d.tasks && id in d'.tasks && id in d'.history && d'.members == d.members
    requires d'.tasks == d.tasks[id := d'.tasks[id]] && d'.history == d.history[id := d'.history[id]]
    ensures Inv(d') <==> RowOk(d', id)
  {
    hide AuditOk, OneOwner;
    forall i | i in d'.tasks && i != id
      ensures RowOk(d', i)
    {
      assert RowOk(d, i);
    }
  }

  /** An unassign that found every task of the leaver, twice, is the whole call. */
  lemma ExpelCommitIsExpel(d: Data, team: Id, user: Id, author: Id, now: int)
    requires Inv(d) && team in d.members
    ensures var all := AssignedIds(d, team, user);
      ExpelCommit(d, team, user, author, now, all, all) == Expel(d, team, user, author, now)
  {
    hide RowOk, OneOwner;
    var all := AssignedIds(d, team, user);
    var a, b := ExpelCommit(d, team, user, author, now, all, all), Expel(d, team, user, author, now);
    assert a.data.tasks == b.data.tasks;
    assert a.data.history == b.data.history;
    if HasAssigned(d, team, user) {
      var id :| id in d.tasks && d.tasks[id].AssignedTo(team, user);
      assert id in all;
    }
  }

  /** A task the update missed stays with someone outside; one the history missed has a version too many. */
  lemma MissedTaskBreaks(d: Data, l: Late, i: Id)
    requires Inv(d) && l.LateExpel? && LocksHold(d, l)
    requires i in AssignedIds(d, l.team, l.user) && !(i in l.recorded && i in l.written)
    ensures !Inv(Committed(d, l).data)
  {
    hide Replay, Snapshot, Chained, OneOwner;
    var d' := Committed(d, l).data;
    assert RowOk(d, i);
    assert !RowOk(d', i);
  }

  lemma ExpelCommitKeepsIff(d: Data, l: Late)
    requires Inv(d) && l.LateExpel? && LocksHold(d, l)
    ensures Inv(Committed(d, l).data) <==> Sound(d, l)
  {
    hide Inv, ExpelCommit;
    if i :| i in AssignedIds(d, l.team, l.user) && !(i in l.recorded && i in l.written) {
      MissedTaskBreaks(d, l, i);
    } else {
      assert l.recorded == l.written == AssignedIds(d, l.team, l.user);
      ExpelCommitIsExpel(d, l.team, l.user, l.author, l.now);
      ExpelKeeps(d, l.team, l.user, l.author, l.now);
    }
  }

  lemma DeleteCommitKeeps(d: Data, id: Id)
    requires Inv(d)
    ensures Inv(Committed(d, LateDelete(id)).data)
  {
    hide AuditOk, OneOwner;
    var d' := Committed(d, LateDelete(id)).data;
    forall i | i in d'.tasks
      ensures RowOk(d', i)
    {
      assert RowOk(d, i);
    }
  }

  lemma RoleCommitKeeps(d: Data, team: Id, user: Id, given: Role)
    requires Inv(d) && team in d.members && given != Owner && RoleIn(d, team, user) != Some(Owner)
    ensures Inv(SetRole(d, team, user, given))
  {
    hide RowOk;
    NonOwnerRole(d.members[team], user, given);
    MembershipKeeps(d, SetRole(d, team, user, given));
  }

  /** Every commit, whatever was committed since its reads, keeps the tables consistent exactly when it is sound. */
  lemma CommitKeepsIff(d: Data, l: Late)
    requires Inv(d) && LocksHold(d, l)
    ensures Inv(Committed(d, l).data) <==> Sound(d, l)
  {
    hide Inv, Perform, ExpelCommit, Refused, Requested, Diff;
    match l
    case LateCreate(user, id, req, now) =>
      if CreateTaskCommit(d, user, id, req, now).error.None? {
        CreateCommitKeepsIff(d, user, id, req, now);
      }
    case LateUpdate(user, id, req, now, role, members) =>
      if UpdateTaskCommit(d, user, id, req, now, role, members).invalidated.Some? {
        UpdateCommitKeepsIff(d, user, id, req, now, role, members);
      }
    case LateExpel(_, _, _, _, _, _) => ExpelCommitKeepsIff(d, l);
    case LateDelete(id) => DeleteCommitKeeps(d, id);
    case LateInvite(team, user, given) =>
      if user !in d.members[team] {
        RoleCommitKeeps(d, team, user, given);
      }
    case LateChangeRole(team, user, given) => RoleCommitKeeps(d, team, user, given);
    case Whole(c) => PerformKeeps(d, c);
  }

  // ----- over runs of commits -----

  ghost predicate LocksHoldThroughout(d: Data, run: seq<Late>)
    decreases |run|
  {
    run == [] || (LocksHold(d, run[0]) && LocksHoldThroughout(Committed(d, run[0]).data, run[1..]))
  }

  ghost predicate ConsistentThroughout(d: Data, run: seq<Late>)
    requires LocksHoldThroughout(d, run)
    decreases |run|
  {
    Inv(d) && (run != [] ==> ConsistentThroughout(Committed(d, run[0]).data, run[1..]))
  }

  ghost predicate SoundThroughout(d: Data, run: seq<Late>)
    requires LocksHoldThroughout(d, run)
    decreases |run|
  {
    run == [] || (Sound(d, run[0]) && SoundThroughout(Committed(d, run[0]).data, run[1..]))
  }

  /** A run of commits is consistent after each of them exactly when each is sound where it commits. */
  lemma {:induction false} RunKeepsIff(d: Data, run: seq<Late>)
    requires Inv(d) && LocksHoldThroughout(d, run)
    ensures ConsistentThroughout(d, run) <==> SoundThroughout(d, run)
    decreases |run|
  {
    hide Inv, Committed, Sound, LocksHold;
    if run != [] {
      CommitKeepsIff(d, run[0]);
      if Sound(d, run[0]) {
        RunKeepsIff(Committed(d, run[0]).data, run[1..]);
      }
    }
  }

  // ----- each can be overtaken -----

  /** A creation whose assignee leaves between its checks and its commit. */
  lemma CreationIsOvertaken(d: Data, user: Id, id: Id, req: CreateRequest, now: int)
    requires Inv(d) && CreateTask(d, user, id, req, now).error.None?
    requires var leaver := InitialAssignee(user, req); LeaveTeam(d, leaver, req.team, now).error.None?
    ensures var left := LeaveTeam(d, InitialAssignee(user, req), req.team, now).data;
      CreateTaskCommit(left, user, id, req, now).error.None? && !Inv(CreateTaskCommit(left, user, id, req, now).data)
  {
    hide Inv, NewTask, CreatedChanges, NormalizeDueAt;
    var leaver := InitialAssignee(user, req);
    var left := LeaveTeam(d, leaver, req.team, now).data;
    PerformKeeps(d, CallLeave(leaver, req.team, now));
    assert left.tasks.Keys == d.tasks.Keys && leaver !in MembersOf(left, req.team);
    CreateCommitKeepsIff(left, user, id, req, now);
  }

  /** An update whose new assignee leaves between its unlocked membership read and its commit. */
  lemma UpdateIsOvertaken(d: Data, user: Id, id: Id, req: UpdateRequest, now: int, leaver: Id)
    requires Inv(d) && id in d.tasks && UpdateTask(d, user, id, req, now).error.None?
    requires var t := d.tasks[id];
      RequestedAssignee(t, req) == Some(leaver) != t.assignee && LeaveTeam(d, leaver, t.team, now).error.None?
    ensures var t := d.tasks[id];
      var left := LeaveTeam(d, leaver, t.team, now).data;
      var o := UpdateTaskCommit(left, user, id, req, now, RoleIn(d, t.team, user), MembersOf(d, t.team));
      o.error.None? && !Inv(o.data)
  {
    hide Inv, Refused, Requested, Diff, RequestedAssignee;
    var t := d.tasks[id];
    var left := LeaveTeam(d, leaver, t.team, now).data;
    PerformKeeps(d, CallLeave(leaver, t.team, now));
    assert left.tasks[id] == t && id in left.history && leaver !in MembersOf(left, t.team);
    AssigneeIsDiff(t, req, now);
    UpdateCommitKeepsIff(left, user, id, req, now, RoleIn(d, t.team, user), MembersOf(d, t.team));
  }

  lemma AssigneeIsDiff(t: Task, req: UpdateRequest, now: int)
    requires RequestedAssignee(t, req) != t.assignee
    ensures Diff(t, Requested(t, req, now)) != map[]
  {
    assert AssigneeId in Diff(t, Requested(t, req, now));
  }

  /** A member on their way out who is given one more task after the unassign has looked. */
  lemma UnassignIsOvertaken(d: Data, user: Id, id: Id, req: UpdateRequest, now: int, leaver: Id)
    requires Inv(d) && id in d.tasks && UpdateTask(d, user, id, req, now).error.None?
    requires var t := d.tasks[id];
      RequestedAssignee(t, req) == Some(leaver) != t.assignee && LeaveTeam(d, leaver, t.team, now).error.None?
    ensures var seen := AssignedIds(d, d.tasks[id].team, leaver);
      var l := LateExpel(d.tasks[id].team, leaver, leaver, now, seen, seen);
      var given := UpdateTask(d, user, id, req, now).data;
      LocksHold(given, l) && !Inv(Committed(given, l).data)
  {
    hide Inv, Refused, Requested, Diff, RequestedAssignee;
    var t := d.tasks[id];
    var given := UpdateTask(d, user, id, req, now).data;
    PerformKeeps(d, CallUpdateTask(user, id, req, now));
    AssigneeIsDiff(t, req, now);
    RequestedIs(t, req, now);
    var seen := AssignedIds(d, t.team, leaver);
    var l := LateExpel(t.team, leaver, leaver, now, seen, seen);
    assert id in AssignedIds(given, t.team, leaver) && id !in seen;
    MissedTaskBreaks(given, l, id);
  }

  lemma RequestedIs(t: Task, req: UpdateRequest, now: int)
    ensures Requested(t, req, now).assignee == RequestedAssignee(t, req) && Requested(t, req, now).team == t.team
  {
  }

  const PAIR := Data({"boss", "dev"}, map["team" := map["boss" := Owner, "dev" := Member]], map[], map[])
  const FOR_BOSS := CreateRequest("team", "title", "", None, None, None)
  const FOR_DEV := FOR_BOSS.(assignee := Some("dev"))
  const TO_DEV := UpdateRequest(None, None, None, Some("dev"), None, Unset, 1)

  /** An owner and a member, as two calls leave them. */
  lemma PairIsReached()
    ensures PAIR == Run(Fresh({"boss", "dev"}), [CallCreateTeam("boss", "team"), CallInvite("boss", "team", "dev", None)])
    ensures Inv(PAIR)
  {
    var calls := [CallCreateTeam("boss", "team"), CallInvite("boss", "team", "dev", None)];
    var d1 := Perform(Fresh({"boss", "dev"}), calls[0]).data;
    assert calls[1..] == [calls[1]] && calls[1..][1..] == [];
    assert Run(d1, calls[1..]) == Perform(d1, calls[1]).data;
    assert Perform(d1, calls[1]).data.members == PAIR.members;
    RunKeeps(Fresh({"boss", "dev"}), calls);
  }

  /** The premises of all three meet in one small team. */
  lemma OvertakingHappens()
    ensures Inv(PAIR) && CreateTask(PAIR, "boss", "task", FOR_DEV, 0).error.None?
    ensures LeaveTeam(PAIR, "dev", "team", 0).error.None?
    ensures var d := CreateTask(PAIR, "boss", "task", FOR_BOSS, 0).data;
      && Inv(d) && "task" in d.tasks && UpdateTask(d, "boss", "task", TO_DEV, 0).error.None?
      && RequestedAssignee(d.tasks["task"], TO_DEV) == Some("dev") != d.tasks["task"].assignee
      && LeaveTeam(d, "dev", "team", 0).error.None?
  {
    hide Inv, Refused, Diff, Requested, UnassignUser;
    PairIsReached();
    PerformKeeps(PAIR, CallCreateTask("boss", "task", FOR_BOSS, 0));
    var d := CreateTask(PAIR, "boss", "task", FOR_BOSS, 0).data;
    var t := d.tasks["task"];
    ManagersMayReassign(t, TO_DEV, MembersOf(d, "team"));
    AssigneeIsDiff(t, TO_DEV, 0);
  }

  lemma ManagersMayReassign(t: Task, req: UpdateRequest, members: set<Id>)
    requires req.dueAt.Unset? && req.assignee.Some? && req.assignee.value in members
    ensures Refused(Owner, "boss", t, req, members) == None
  {
    var reasons := Refusals(TaskPermissionsFor(Owner, "boss", t), t, req, members);
    FirstRefusalIs(reasons, |reasons|);
  }
}
