/** Authorisation rules: pure decisions on roles, ids and a task. `None` means allowed. */
module Rbac {
  import opened Domain

  function CanInvite(actor: Role, invitee: Role): Option<Error>
  {
    if !actor.IsManager() then Some(Forbidden)
    else if invitee == Member || invitee == Admin then None
    else Some(InvalidInput)
  }

  function CanChangeRole(actor: Role, target: Role, newRole: Role, self: bool): Option<Error>
  {
    if newRole != Admin && newRole != Member then Some(InvalidInput)
    else if self then Some(InvalidInput)
    else if !actor.IsManager() then Some(Forbidden)
    else if target == Owner then Some(Forbidden)
    else if actor == Admin && target == Admin then Some(Forbidden)
    else if target == newRole then Some(InvalidInput)
    else None
  }

  function CanRemoveMember(actor: Role, target: Role, self: bool): Option<Error>
  {
    if self then Some(InvalidInput)
    else if !actor.IsManager() then Some(Forbidden)
    else if target == Owner then Some(Forbidden)
    else if actor == Admin && target == Admin then Some(Forbidden)
    else None
  }

  function CanDeleteTeam(role: Role): Option<Error>
  {
    if role != Owner then Some(Forbidden) else None
  }

  function CanLeave(role: Role): Option<Error>
  {
    if role == Owner then Some(Forbidden) else None
  }

  function CanTransferOwnership(actor: Role, self: bool): Option<Error>
  {
    if actor != Owner then Some(Forbidden) else if self then Some(InvalidInput) else None
  }

  datatype TaskPermissions = TaskPermissions(editContent: bool, changeStatus: bool, reassign: bool, delete: bool) {
    predicate Any() { editContent || changeStatus || reassign }
  }

  function TaskPermissionsFor(role: Role, user: Id, task: Task): TaskPermissions
  {
    if role.IsManager() || task.createdBy == user then TaskPermissions(true, true, true, true)
    else if task.IsAssignee(user) then TaskPermissions(false, true, false, false)
    else TaskPermissions(false, false, false, false)
  }
}
