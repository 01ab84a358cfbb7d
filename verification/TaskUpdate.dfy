/** Partial updates of a task: permissions, the in-place mutation and the recorded diff. */
module TaskUpdate {
  import opened Domain
  import opened Rbac
  import opened Strings

  /** A field omitted, sent as null, or sent with a value (milliseconds since the epoch). */
  datatype Nullable = Unset | Null | Value(ms: int)

  /** Omitted fields are `None`; an empty assignee id unassigns. */
  datatype UpdateRequest = UpdateRequest(
    title: Option<string>,
    description: Option<string>,
    status: Option<Status>,
    assignee: Option<Id>,
    priority: Option<Priority>,
    dueAt: Nullable,
    version: int)
  {
    predicate IsEmpty()
    {
      title.None? && description.None? && status.None? && assignee.None? && priority.None? && dueAt.Unset?
    }
  }

  // ----- normalisation -----

  const YEAR_2000 := 946684800
  const YEAR_10000 := 253402300800

  /** Second precision, years 2000 to 9999. */
  function NormalizeDueAt(ms: Option<int>): (r: Result<Option<int>>)
    ensures r.Err? <==> ms.Some? && !(YEAR_2000 * 1000 <= ms.value < YEAR_10000 * 1000)
    ensures r.Err? ==> r.error == InvalidInput
    ensures r.Ok? ==> (r.value.Some? <==> ms.Some?)
    ensures r.Ok? && r.value.Some? ==> r.value.value * 1000 <= ms.value < r.value.value * 1000 + 1000
  {
    if ms.None? then Ok(None)
    else
      var seconds := ms.value / 1000;
      if seconds < YEAR_2000 || seconds >= YEAR_10000 then Err(InvalidInput) else Ok(Some(seconds))
  }

  // ----- diffs -----

  datatype Field = Title | Description | StatusField | PriorityField | DueAt | ClosedAt | AssigneeId

  const TRACKED: set<Field> := {Title, Description, StatusField, PriorityField, DueAt, ClosedAt, AssigneeId}

  /** A field's value as the audit log stores it. */
  datatype FieldValue = NoValue | Text(text: string) | StatusValue(status: Status) | PriorityValue(priority: Priority) | Time(seconds: int)

  datatype Change = Change(old_: FieldValue, new_: FieldValue)

  type Changes = map<Field, Change>

  function TimeValue(t: Option<int>): FieldValue
  {
    if t.Some? then Time(t.value) else NoValue
  }

  function IdValue(i: Option<Id>): FieldValue
  {
    if i.Some? then Text(i.value) else NoValue
  }

  function FieldOf(t: Task, f: Field): FieldValue
  {
    match f
    case Title => Text(t.title)
    case Description => Text(t.description)
    case StatusField => StatusValue(t.status)
    case PriorityField => PriorityValue(t.priority)
    case DueAt => TimeValue(t.dueAt)
    case ClosedAt => TimeValue(t.closedAt)
    case AssigneeId => IdValue(t.assignee)
  }

  /** A key for exactly those of `fields` that differ, with their true old and new values. */
  function DiffOf(fields: set<Field>, before: Task, after: Task): Changes
  {
    map f | f in fields && FieldOf(before, f) != FieldOf(after, f) :: Change(FieldOf(before, f), FieldOf(after, f))
  }

  function Diff(before: Task, after: Task): Changes
  {
    DiffOf(TRACKED, before, after)
  }

  // ----- what a request asks for -----

  function RequestedDue(req: UpdateRequest): Result<Option<int>>
  {
    NormalizeDueAt(if req.dueAt.Value? then Some(req.dueAt.ms) else None)
  }

  function RequestedAssignee(t: Task, req: UpdateRequest): Option<Id>
  {
    if req.assignee.None? then t.assignee else if req.assignee.value == "" then None else req.assignee
  }

  /** closed_at follows the status: set on reaching done, cleared on leaving it. */
  function RequestedClosedAt(t: Task, req: UpdateRequest, now: int): Option<int>
  {
    if req.status.None? || req.status.value == t.status then t.closedAt
    else if req.status.value == Done then (if t.closedAt.None? then Some(now) else t.closedAt)
    else None
  }

  function WithText(t: Task, req: UpdateRequest): Task
  {
    t.(title := if req.title.Some? then Trim(req.title.value) else t.title,
       description := if req.description.Some? then Trim(req.description.value) else t.description)
  }

  function WithPlan(t: Task, req: UpdateRequest): Task
  {
    t.(priority := if req.priority.Some? then req.priority.value else t.priority,
       dueAt := if !req.dueAt.Unset? && RequestedDue(req).Ok? then RequestedDue(req).value else t.dueAt)
  }

  function WithStatus(t: Task, req: UpdateRequest, now: int): Task
  {
    t.(status := if req.status.Some? then req.status.value else t.status, closedAt := RequestedClosedAt(t, req, now))
  }

  function WithAssignee(t: Task, req: UpdateRequest): Task
  {
    t.(assignee := RequestedAssignee(t, req))
  }

  /** The row the request describes. */
  function Requested(t: Task, req: UpdateRequest, now: int): Task
  {
    WithAssignee(WithStatus(WithPlan(WithText(t, req), req), req, now), req)
  }

  /** The reasons to refuse a request, in the order they are looked for. */
  function TextRefusals(perms: TaskPermissions, t: Task, req: UpdateRequest): seq<(bool, Error)>
  {
    var r := WithText(t, req);
    [ (r.title != t.title && !perms.editContent, Forbidden),
      (r.description != t.description && !perms.editContent, Forbidden) ]
  }

  function PlanRefusals(perms: TaskPermissions, t: Task, req: UpdateRequest): seq<(bool, Error)>
  {
    var r := WithPlan(t, req);
    [ (r.priority != t.priority && !perms.editContent, Forbidden),
      (!req.dueAt.Unset? && RequestedDue(req).Err?, InvalidInput),
      (r.dueAt != t.dueAt && !perms.editContent, Forbidden) ]
  }

  function StatusRefusals(perms: TaskPermissions, t: Task, req: UpdateRequest): seq<(bool, Error)>
  {
    [ (req.status.Some? && req.status.value != t.status && !perms.changeStatus, Forbidden) ]
  }

  function AssigneeRefusals(perms: TaskPermissions, t: Task, req: UpdateRequest, members: set<Id>): seq<(bool, Error)>
  {
    var next := RequestedAssignee(t, req);
    [ (next != t.assignee && !perms.reassign, Forbidden),
      (next != t.assignee && next.Some? && next.value !in members, AssigneeNotInTeam) ]
  }

  function Refusals(perms: TaskPermissions, t: Task, req: UpdateRequest, members: set<Id>): seq<(bool, Error)>
  {
    [(!perms.Any(), Forbidden)] + TextRefusals(perms, t, req) + PlanRefusals(perms, t, req)
    + StatusRefusals(perms, t, req) + AssigneeRefusals(perms, t, req, members)
  }

  function FirstRefusal(reasons: seq<(bool, Error)>): Option<Error>
  {
    if reasons == [] then None else if reasons[0].0 then Some(reasons[0].1) else FirstRefusal(reasons[1..])
  }

  /** The first reason to refuse the update, if any. */
  function Refused(role: Role, user: Id, t: Task, req: UpdateRequest, members: set<Id>): Option<Error>
  {
    FirstRefusal(Refusals(TaskPermissionsFor(role, user, t), t, req, members))
  }

  lemma {:induction false} FirstRefusalIs(reasons: seq<(bool, Error)>, i: nat)
    requires i <= |reasons| && forall j :: 0 <= j < i ==> !reasons[j].0
    ensures i < |reasons| && reasons[i].0 ==> FirstRefusal(reasons) == Some(reasons[i].1)
    ensures i == |reasons| ==> FirstRefusal(reasons) == None
  {
    if i > 0 {
      FirstRefusalIs(reasons[1..], i - 1);
    }
  }

  lemma {:induction false} FirstRefusalOfBoth(a: seq<(bool, Error)>, b: seq<(bool, Error)>)
    ensures FirstRefusal(a + b) == if FirstRefusal(a).Some? then FirstRefusal(a) else FirstRefusal(b)
  {
    if a == [] {
      assert a + b == b;
    } else {
      assert (a + b)[1..] == a[1..] + b;
      FirstRefusalOfBoth(a[1..], b);
    }
  }

  lemma {:induction false} AllowedMeansNone(reasons: seq<(bool, Error)>, i: nat)
    requires FirstRefusal(reasons) == None && i < |reasons|
    ensures !reasons[i].0
  {
    if i > 0 {
      AllowedMeansNone(reasons[1..], i - 1);
    }
  }

  /** The diff of one field. */
  function FieldDiff(f: Field, before: Task, after: Task): Changes
  {
    if FieldOf(before, f) != FieldOf(after, f) then map[f := Change(FieldOf(before, f), FieldOf(after, f))] else map[]
  }

  lemma DiffOfTwo(f: Field, g: Field, before: Task, after: Task)
    ensures DiffOf({f, g}, before, after) == FieldDiff(f, before, after) + FieldDiff(g, before, after)
  {
  }

  /** The task the service loaded and mutates in place, with the diff collected so far. */
  class TaskRecord {
    var row: Task
    var changes: Changes

    constructor (t: Task)
      ensures row == t && changes == map[]
    {
      row := t;
      changes := map[];
    }

    /** Title and description. */
    method EditText(perms: TaskPermissions, req: UpdateRequest) returns (e: Option<Error>)
      modifies this
      ensures e == FirstRefusal(TextRefusals(perms, old(row), req))
      ensures e.None? ==>
        && row == old(row).(title := row.title, description := row.description)
        && row.title == (if req.title.Some? then Trim(req.title.value) else old(row).title)
        && row.description == (if req.description.Some? then Trim(req.description.value) else old(row).description)
      ensures e.None? ==> row == WithText(old(row), req) && changes == old(changes) + DiffOf({Title, Description}, old(row), row)
    {
      hide Trim, FirstRefusal, DiffOf;
      ghost var t, goal, reasons := row, WithText(row, req), TextRefusals(perms, row, req);
      DiffOfTwo(Title, Description, t, goal);
      if req.title.Some? {
        var title := Trim(req.title.value);
        if title != row.title {
          if !perms.editContent {
            FirstRefusalIs(reasons, 0);
            return Some(Forbidden);
          }
          changes := changes[Title := Change(Text(row.title), Text(title))];
          row := row.(title := title);
        }
      }
      if req.description.Some? {
        var desc := Trim(req.description.value);
        if desc != row.description {
          if !perms.editContent {
            FirstRefusalIs(reasons, 1);
            return Some(Forbidden);
          }
          changes := changes[Description := Change(Text(row.description), Text(desc))];
          row := row.(description := desc);
        }
      }
      FirstRefusalIs(reasons, 2);
      return None;
    }

    method EditPriority(perms: TaskPermissions, req: UpdateRequest) returns (e: Option<Error>)
      modifies this
      ensures e == if req.priority.Some? && req.priority.value != old(row).priority && !perms.editContent then Some(Forbidden) else None
      ensures e.None? ==>
        && row == old(row).(priority := if req.priority.Some? then req.priority.value else old(row).priority)
        && changes == old(changes) + FieldDiff(PriorityField, old(row), row)
    {
      if req.priority.Some? && req.priority.value != row.priority {
        if !perms.editContent {
          return Some(Forbidden);
        }
        changes := changes[PriorityField := Change(PriorityValue(row.priority), PriorityValue(req.priority.value))];
        row := row.(priority := req.priority.value);
      }
      return None;
    }

    method EditDueAt(perms: TaskPermissions, req: UpdateRequest) returns (e: Option<Error>)
      modifies this
      ensures e == if req.dueAt.Unset? then None
        else if RequestedDue(req).Err? then Some(InvalidInput)
        else if RequestedDue(req).value != old(row).dueAt && !perms.editContent then Some(Forbidden) else None
      ensures e.None? ==>
        && row == old(row).(dueAt := if req.dueAt.Unset? then old(row).dueAt else RequestedDue(req).value)
        && changes == old(changes) + FieldDiff(DueAt, old(row), row)
    {
      if !req.dueAt.Unset? {
        var next := NormalizeDueAt(if req.dueAt.Value? then Some(req.dueAt.ms) else None);
        if next.Err? {
          return Some(next.error);
        }
        if row.dueAt != next.value {
          if !perms.editContent {
            return Some(Forbidden);
          }
          changes := changes[DueAt := Change(TimeValue(row.dueAt), TimeValue(next.value))];
          row := row.(dueAt := next.value);
        }
      }
      return None;
    }

    /** Priority and due date. */
    method EditPlan(perms: TaskPermissions, req: UpdateRequest) returns (e: Option<Error>)
      modifies this
      ensures e == FirstRefusal(PlanRefusals(perms, old(row), req))
      ensures e.None? ==> row == WithPlan(old(row), req) && changes == old(changes) + DiffOf({PriorityField, DueAt}, old(row), row)
    {
      hide RequestedDue, FirstRefusal, DiffOf;
      ghost var t, reasons := row, PlanRefusals(perms, row, req);
      DiffOfTwo(PriorityField, DueAt, t, WithPlan(t, req));
      e := EditPriority(perms, req);
      if e.Some? {
        FirstRefusalIs(reasons, 0);
        return;
      }
      e := EditDueAt(perms, req);
      FirstRefusalIs(reasons, if e.None? then 3 else if e == Some(InvalidInput) then 1 else 2);
    }

    /** Status, and closed_at with it. */
    method EditStatus(perms: TaskPermissions, req: UpdateRequest, now: int) returns (e: Option<Error>)
      modifies this
      ensures e == FirstRefusal(StatusRefusals(perms, old(row), req))
      ensures e.None? ==> row == WithStatus(old(row), req, now) && changes == old(changes) + DiffOf({StatusField, ClosedAt}, old(row), row)
    {
      DiffOfTwo(StatusField, ClosedAt, row, WithStatus(row, req, now));
      hide DiffOf;
      if req.status.Some? && req.status.value != row.status {
        if !perms.changeStatus {
          return Some(Forbidden);
        }
        changes := changes[StatusField := Change(StatusValue(row.status), StatusValue(req.status.value))];
        row := row.(status := req.status.value);
        if row.status == Done && row.closedAt.None? {
          changes := changes[ClosedAt := Change(NoValue, Time(now))];
          row := row.(closedAt := Some(now));
        } else if row.status != Done && row.closedAt.Some? {
          changes := changes[ClosedAt := Change(Time(row.closedAt.value), NoValue)];
          row := row.(closedAt := None);
        }
      }
      return None;
    }

    method EditAssignee(perms: TaskPermissions, req: UpdateRequest, members: set<Id>) returns (e: Option<Error>)
      modifies this
      ensures e == FirstRefusal(AssigneeRefusals(perms, old(row), req, members))
      ensures e.None? ==> row == WithAssignee(old(row), req) && changes == old(changes) + DiffOf({AssigneeId}, old(row), row)
    {
      ghost var reasons := AssigneeRefusals(perms, row, req, members);
      if req.assignee.Some? {
        var next := if req.assignee.value != "" then req.assignee else None;
        if row.assignee != next {
          if !perms.reassign {
            return Some(Forbidden);
          }
          if next.Some? && next.value !in members {
            FirstRefusalIs(reasons, 1);
            return Some(AssigneeNotInTeam);
          }
          changes := changes[AssigneeId := Change(IdValue(row.assignee), IdValue(next))];
          row := row.(assignee := next);
        }
      }
      FirstRefusalIs(reasons, 2);
      return None;
    }

    /** Checks permissions for every field the request touches, mutates the row and returns the diff. */
    method ApplyUpdate(role: Role, user: Id, req: UpdateRequest, members: set<Id>, now: int) returns (r: Result<Changes>)
      requires changes == map[]
      modifies this
      ensures r.Err? <==> Refused(role, user, old(row), req, members).Some?
      ensures r.Err? ==> Some(r.error) == Refused(role, user, old(row), req, members)
      ensures r.Ok? ==> row == Requested(old(row), req, now) && r.value == Diff(old(row), row)
      ensures r.Ok? ==>
        && row == old(row).(title := row.title, description := row.description, status := row.status, priority := row.priority,
                            dueAt := row.dueAt, closedAt := row.closedAt, assignee := row.assignee)
        && row.title == (if req.title.Some? then Trim(req.title.value) else old(row).title)
        && row.description == (if req.description.Some? then Trim(req.description.value) else old(row).description)
        && row.status == (if req.status.Some? then req.status.value else old(row).status)
        && row.priority == (if req.priority.Some? then req.priority.value else old(row).priority)
        && row.dueAt == (match req.dueAt case Unset => old(row).dueAt case Null => None case Value(ms) => Some(ms / 1000))
        && row.closedAt == (if row.status == old(row).status then old(row).closedAt
                            else if row.status != Done then None
                            else if old(row).closedAt.Some? then old(row).closedAt else Some(now))
        && row.assignee == (match req.assignee case None => old(row).assignee case Some(id) => if id == "" then None else Some(id))
    {
      RequestedFields(role, user, row, req, members, now);
      var perms := TaskPermissionsFor(role, user, row);
      ghost var t := row;
      RefusalsInOrder(role, user, t, req, members, now);
      DiffInParts(t, req, now);
      hide *;
      if !perms.Any() {
        return Err(Forbidden);
      }
      var e := EditText(perms, req);
      if e.Some? {
        return Err(e.value);
      }
      assert changes == DiffOf({Title, Description}, t, row);
      e := EditPlan(perms, req);
      if e.Some? {
        return Err(e.value);
      }
      e := EditStatus(perms, req, now);
      if e.Some? {
        return Err(e.value);
      }
      e := EditAssignee(perms, req, members);
      if e.Some? {
        return Err(e.value);
      }
      return Ok(changes);
    }
  }

  /** No edit changes what a later one looks at. */
  lemma RefusalsInOrder(role: Role, user: Id, t: Task, req: UpdateRequest, members: set<Id>, now: int)
    ensures var perms := TaskPermissionsFor(role, user, t);
      var c := WithText(t, req);
      var p := WithPlan(c, req);
      var s := WithStatus(p, req, now);
      Refused(role, user, t, req, members) ==
      if !perms.Any() then Some(Forbidden)
      else if FirstRefusal(TextRefusals(perms, t, req)).Some? then FirstRefusal(TextRefusals(perms, t, req))
      else if FirstRefusal(PlanRefusals(perms, c, req)).Some? then FirstRefusal(PlanRefusals(perms, c, req))
      else if FirstRefusal(StatusRefusals(perms, p, req)).Some? then FirstRefusal(StatusRefusals(perms, p, req))
      else FirstRefusal(AssigneeRefusals(perms, s, req, members))
  {
    var perms := TaskPermissionsFor(role, user, t);
    var any := [(!perms.Any(), Forbidden)];
    var text, plan := TextRefusals(perms, t, req), PlanRefusals(perms, t, req);
    var status, assignee := StatusRefusals(perms, t, req), AssigneeRefusals(perms, t, req, members);
    FirstRefusalOfBoth(any + text + plan + status, assignee);
    FirstRefusalOfBoth(any + text + plan, status);
    FirstRefusalOfBoth(any + text, plan);
    FirstRefusalOfBoth(any, text);
  }

  lemma DiffInParts(t: Task, req: UpdateRequest, now: int)
    ensures var c := WithText(t, req);
      var p := WithPlan(c, req);
      var s := WithStatus(p, req, now);
      var a := WithAssignee(s, req);
      DiffOf({Title, Description}, t, c) + DiffOf({PriorityField, DueAt}, c, p) + DiffOf({StatusField, ClosedAt}, p, s)
      + DiffOf({AssigneeId}, s, a) == Diff(t, a) && a == Requested(t, req, now)
  {
    hide DiffOf, Trim, NormalizeDueAt, RequestedClosedAt;
    var c := WithText(t, req);
    var p := WithPlan(c, req);
    var s := WithStatus(p, req, now);
    var a := WithAssignee(s, req);
    DiffSame({Title, Description}, t, c, t, a);
    DiffSame({PriorityField, DueAt}, c, p, t, a);
    DiffSame({StatusField, ClosedAt}, p, s, t, a);
    DiffSame({AssigneeId}, s, a, t, a);
    DiffUnion({Title, Description}, {PriorityField, DueAt}, t, a);
    DiffUnion({Title, Description} + {PriorityField, DueAt}, {StatusField, ClosedAt}, t, a);
    DiffUnion({Title, Description} + {PriorityField, DueAt} + {StatusField, ClosedAt}, {AssigneeId}, t, a);
    assert {Title, Description} + {PriorityField, DueAt} + {StatusField, ClosedAt} + {AssigneeId} == TRACKED;
  }

  lemma DiffUnion(fields: set<Field>, more: set<Field>, before: Task, after: Task)
    ensures DiffOf(fields + more, before, after) == DiffOf(fields, before, after) + DiffOf(more, before, after)
  {
    hide FieldOf;
  }

  lemma DiffSame(fields: set<Field>, before: Task, after: Task, before': Task, after': Task)
    requires forall f :: f in fields ==> FieldOf(before, f) == FieldOf(before', f) && FieldOf(after, f) == FieldOf(after', f)
    ensures DiffOf(fields, before, after) == DiffOf(fields, before', after')
  {
    hide FieldOf;
  }

  // ----- what an accepted update can and cannot do -----

  /** The row an accepted request asks for, field by field: what is sent, cleaned up, and nothing else. */
  lemma RequestedFields(role: Role, user: Id, t: Task, req: UpdateRequest, members: set<Id>, now: int)
    ensures Refused(role, user, t, req, members) == None ==>
      var r := Requested(t, req, now);
      && r == t.(title := r.title, description := r.description, status := r.status, priority := r.priority,
                 dueAt := r.dueAt, closedAt := r.closedAt, assignee := r.assignee)
      && r.title == (if req.title.Some? then Trim(req.title.value) else t.title)
      && r.description == (if req.description.Some? then Trim(req.description.value) else t.description)
      && r.status == (if req.status.Some? then req.status.value else t.status)
      && r.priority == (if req.priority.Some? then req.priority.value else t.priority)
      && r.dueAt == (match req.dueAt case Unset => t.dueAt case Null => None case Value(ms) => Some(ms / 1000))
      && r.closedAt == (if r.status == t.status then t.closedAt
                        else if r.status != Done then None
                        else if t.closedAt.Some? then t.closedAt else Some(now))
      && r.assignee == (match req.assignee case None => t.assignee case Some(id) => if id == "" then None else Some(id))
  {
    hide Trim, FirstRefusal;
    if Refused(role, user, t, req, members) == None {
      var reasons := Refusals(TaskPermissionsFor(role, user, t), t, req, members);
      AllowedMeansNone(reasons, 4);
      assert !reasons[4].0;
    }
  }

  /** Which update is refused and why, told on roles and fields. Managers and the creator may change
      everything, the assignee the status alone; dates lie in years 2000 to 9999; assignees are members. */
  lemma RefusedIs(role: Role, user: Id, t: Task, req: UpdateRequest, members: set<Id>)
    ensures var full := role == Owner || role == Admin || t.createdBy == user;
      Refused(role, user, t, req, members) ==
        if !full && t.assignee != Some(user) then Some(Forbidden)
        else if !full && req.title.Some? && Trim(req.title.value) != t.title then Some(Forbidden)
        else if !full && req.description.Some? && Trim(req.description.value) != t.description then Some(Forbidden)
        else if !full && req.priority.Some? && req.priority.value != t.priority then Some(Forbidden)
        else if req.dueAt.Value? && !(946684800000 <= req.dueAt.ms < 253402300800000) then Some(InvalidInput)
        else if !full && req.dueAt.Null? && t.dueAt.Some? then Some(Forbidden)
        else if !full && req.dueAt.Value? && t.dueAt != Some(req.dueAt.ms / 1000) then Some(Forbidden)
        else if !full && req.assignee.Some? && t.assignee != (if req.assignee.value == "" then None else req.assignee) then Some(Forbidden)
        else if req.assignee.Some? && req.assignee.value != "" && t.assignee != req.assignee && req.assignee.value !in members then Some(AssigneeNotInTeam)
        else None
  {
    hide Trim, FirstRefusal, Refused, RequestedDue, NormalizeDueAt, TextRefusals, PlanRefusals, StatusRefusals, AssigneeRefusals;
    var perms := TaskPermissionsFor(role, user, t);
    RefusalsInOrder(role, user, t, req, members, 0);
    var c := WithText(t, req);
    var p := WithPlan(c, req);
    TextRefusalIs(perms, t, req);
    PlanRefusalIs(perms, c, req);
    StatusRefusalIs(perms, p, req);
    AssigneeRefusalIs(perms, WithStatus(p, req, 0), req, members);
  }

  lemma TextRefusalIs(perms: TaskPermissions, t: Task, req: UpdateRequest)
    ensures FirstRefusal(TextRefusals(perms, t, req)) ==
      if !perms.editContent && req.title.Some? && Trim(req.title.value) != t.title then Some(Forbidden)
      else if !perms.editContent && req.description.Some? && Trim(req.description.value) != t.description then Some(Forbidden)
      else None
  {
    hide Trim, FirstRefusal;
    var reasons := TextRefusals(perms, t, req);
    FirstRefusalIs(reasons, if reasons[0].0 then 0 else if reasons[1].0 then 1 else 2);
  }

  lemma PlanRefusalIs(perms: TaskPermissions, t: Task, req: UpdateRequest)
    ensures FirstRefusal(PlanRefusals(perms, t, req)) ==
      if !perms.editContent && req.priority.Some? && req.priority.value != t.priority then Some(Forbidden)
      else if req.dueAt.Value? && !(946684800000 <= req.dueAt.ms < 253402300800000) then Some(InvalidInput)
      else if !perms.editContent && req.dueAt.Null? && t.dueAt.Some? then Some(Forbidden)
      else if !perms.editContent && req.dueAt.Value? && t.dueAt != Some(req.dueAt.ms / 1000) then Some(Forbidden)
      else None
  {
    hide FirstRefusal;
    var reasons := PlanRefusals(perms, t, req);
    FirstRefusalIs(reasons, if reasons[0].0 then 0 else if reasons[1].0 then 1 else if reasons[2].0 then 2 else 3);
  }

  lemma StatusRefusalIs(perms: TaskPermissions, t: Task, req: UpdateRequest)
    ensures FirstRefusal(StatusRefusals(perms, t, req)) ==
      if !perms.changeStatus && req.status.Some? && req.status.value != t.status then Some(Forbidden) else None
  {
    hide FirstRefusal;
    var reasons := StatusRefusals(perms, t, req);
    FirstRefusalIs(reasons, if reasons[0].0 then 0 else 1);
  }

  lemma AssigneeRefusalIs(perms: TaskPermissions, t: Task, req: UpdateRequest, members: set<Id>)
    ensures FirstRefusal(AssigneeRefusals(perms, t, req, members)) ==
      if !perms.reassign && req.assignee.Some? && t.assignee != (if req.assignee.value == "" then None else req.assignee) then Some(Forbidden)
      else if req.assignee.Some? && req.assignee.value != "" && t.assignee != req.assignee && req.assignee.value !in members then Some(AssigneeNotInTeam)
      else None
  {
    hide FirstRefusal;
    var reasons := AssigneeRefusals(perms, t, req, members);
    FirstRefusalIs(reasons, if reasons[0].0 then 0 else if reasons[1].0 then 1 else 2);
  }

  /** An assignee who is neither manager nor creator alters only the status and closed_at. */
  lemma AssigneeChangesStatusOnly(role: Role, user: Id, t: Task, req: UpdateRequest, members: set<Id>, now: int)
    requires Refused(role, user, t, req, members) == None
    requires !role.IsManager() && t.createdBy != user
    ensures t.IsAssignee(user)
    ensures var r := Requested(t, req, now); r == t.(status := r.status, closedAt := r.closedAt)
    ensures Diff(t, Requested(t, req, now)).Keys <= {StatusField, ClosedAt}
  {
    var reasons := Refusals(TaskPermissionsFor(role, user, t), t, req, members);
    forall i | 0 <= i < 9
      ensures !reasons[i].0
    {
      AllowedMeansNone(reasons, i);
    }
    assert !reasons[0].0 && !reasons[1].0 && !reasons[2].0 && !reasons[3].0 && !reasons[5].0 && !reasons[7].0;
  }

  /** An accepted new assignee is a member of the team. */
  lemma AcceptedAssigneeIsMember(role: Role, user: Id, t: Task, req: UpdateRequest, members: set<Id>, now: int)
    requires Refused(role, user, t, req, members) == None
    ensures var r := Requested(t, req, now); r.assignee != t.assignee && r.assignee.Some? ==> r.assignee.value in members
  {
    var reasons := Refusals(TaskPermissionsFor(role, user, t), t, req, members);
    AllowedMeansNone(reasons, 8);
    assert !reasons[8].0;
  }

  /** closed_at is set exactly when the task is done, before and after. */
  lemma ClosedTracksDone(t: Task, req: UpdateRequest, now: int)
    requires t.closedAt.Some? <==> t.status == Done
    ensures var r := Requested(t, req, now); r.closedAt.Some? <==> r.status == Done
  {
  }

  lemma RequestedTwice(t: Task, req: UpdateRequest, now: int, later: int)
    ensures Requested(Requested(t, req, now), req, later) == Requested(t, req, now)
  {
    if req.title.Some? {
      TrimIdempotent(req.title.value);
    }
    if req.description.Some? {
      TrimIdempotent(req.description.value);
    }
  }

  /** The same request by the same user, applied again at any later time and whoever the
      members are by then, is accepted and changes nothing. */
  lemma ReapplyChangesNothing(role: Role, user: Id, t: Task, req: UpdateRequest, members: set<Id>, members': set<Id>, now: int, later: int)
    requires Refused(role, user, t, req, members) == None
    ensures var r := Requested(t, req, now);
      && Refused(role, user, r, req, members') == None
      && Diff(r, Requested(r, req, later)) == map[]
  {
    var r := Requested(t, req, now);
    RequestedTwice(t, req, now, later);
    RequestedTwice(t, req, now, 0);
    var reasons := Refusals(TaskPermissionsFor(role, user, t), t, req, members);
    AllowedMeansNone(reasons, 0);
    AllowedMeansNone(reasons, 4);
    assert !reasons[0].0 && !reasons[4].0;
    if !role.IsManager() && t.createdBy != user {
      AssigneeChangesStatusOnly(role, user, t, req, members, now);
    }
    var again := Refusals(TaskPermissionsFor(role, user, r), r, req, members');
    assert forall i :: 0 <= i < 9 ==> !again[i].0;
    FirstRefusalIs(again, 9);
  }
}
