# Verified model of the task-management API

A Dafny model of the parts of the task-management service whose correctness
depends on more than one function at a time: the generation-stamped cache of
task listings, team membership and task transactions under row locks, the
in-place task update with its audit log, filtering and keyset pagination,
refresh-token rotation, the fixed-window rate limiter and the team report.
Every statement is proved for all inputs, all interleavings or all runs.

`dafny verify dfyconfig.toml` checks the whole project.

## How it is laid out

| file | what it holds |
|---|---|
| `Domain.dfy` | entities, errors, filtering, the lexicographic order, trimming |
| `Like.dfy`, `TaskQuery.dfy`, `Pagination.dfy` | LIKE and its escaping; the listing statements and page assembly; what pages and cursor walks guarantee |
| `TaskCache.dfy`, `CacheProtocol.dfy`, `CacheSafety.dfy`, `CacheTheorems.dfy`, `CacheRestart.dfy` | the cache client; readers and writers as interleaved steps; the invariant every step keeps; agreement, freshness, staleness and restart; exactly when a restart is a hazard |
| `Rbac.dfy`, `TaskUpdate.dfy` | authorisation rules; the in-place update and its diff |
| `Service.dfy`, `ServiceStore.dfy`, `Effects.dfy` | each service call as a function of the tables; the same calls as methods that update the tables in place; what each changes and leaves alone |
| `Audit.dfy`, `Authority.dfy`, `LateCommits.dfy` | what serial runs keep; the role policy over whole calls; exactly when a commit overtaken by others keeps it |
| `RowLocks.dfy`, `TeamLocks.dfy`, `TaskLocks.dfy`, `UnassignHistory.dfy` | READ COMMITTED transactions with row locks; membership operations and task operations as lock-level statements; the gap between the two statements of an unassign |
| `TeamRuns.dfy`, `TaskRuns.dfy` | the same transactions run alone: when they get through and exactly what they leave |
| `Tokens.dfy`, `TokenSafety.dfy` | the token store and session calls; every interleaving of sign-in, refresh and logout |
| `RateLimiter.dfy` | the script and the middleware; bounds over every request sequence |
| `Stats.dfy` | the report query, the loop that scans its rows, what the report says |

A protocol is a `State`, a `Step`, `Enabled` and `Apply`; a run is any
sequence of enabled steps, and a theorem about runs follows from an invariant
that each step keeps. Code that updates an object in place is a class whose
methods are proved against functions of the old state.

## What the code does that its comments do not say

- **Counter restart** (`internal/cache/task.go:34-38`). The comment argues that
  a restart at 0 is safe because pages of generation 0 have expired. Pages of
  the *last* generation have not: one stored just before the counter expires is
  served again if the counter climbs back to it in time. `RestartHazardIff`:
  that can happen for every generation but 0, from the first moment after the
  last lifetime until page TTL plus reader delay after it, and never otherwise.
- **Cursor walks by updated_at** (`internal/domain/cursor.go:9-12`). A walk by
  created_at repeats and misses nothing while tasks are added, edited and
  removed. By updated_at an edit can repeat a task (`UpdatedAtCanRepeat`) or
  hide it (`UpdatedAtCanMiss`). `PageHolds` says exactly what a page returns:
  the matching rows between the cursor it was read with and the one it hands
  out; so a task is missed when no page's interval holds its key in the state
  that page reads (`MissedIff`) and repeated when two do (`RepeatedIff`).
- **Assignee membership** (`internal/service/team.go:272-274`). "A task is never
  left assigned to someone outside its team" holds when service calls run one
  at a time. It fails in three ways: CreateTask checks membership before its
  transaction, UpdateTask reads it without a lock, and an unassign cannot see
  an assignment that commits after its statements (`CreationIsOvertaken`,
  `UpdateIsOvertaken`, `UnassignIsOvertaken`). `CommitKeepsIff` is the exact
  condition for every commit and `RunKeepsIff` for every run of commits.
- **Inviting admins** (`internal/service/rbac.go:19-22`). The comment reserves
  this to owners; the code lets admins do it too (`InviteAsAdminIff`).
- **Unassign history** (`internal/repository/task.go:216-245`). History and
  update are two statements. An unassign goes unrecorded exactly when the
  assignment it undoes was committed after its history statement ended
  (`UnrecordedIff`), which happens (`UnassignCanSkipHistory`); a task's version
  counts its history entries and these skips (`VersionCountsEntriesAndSkips`).
- **Logout during a refresh** (`internal/cache/token.go:61-85`). A rotation
  caught between GETDEL and SET survives a logout with the token that started
  it (`LogoutMissesRotation`); `LogoutEndsChainIff` is the exact condition.
- **Retry-After** (`internal/server/http/middleware/rate_limiter.go:61`). A key is
  still live in the millisecond it expires in, so a client that waits exactly
  the advertised seconds is refused again when the remaining time was a whole
  number of seconds (`RefusingWindowIsOverIff`, `RetryPassesIff`).
- **Short windows** (`internal/config/config.go:226`). Limits must be positive
  but windows are not checked: below one millisecond nothing is ever refused
  (`LimitsIff`).

## Model

| member | source | states |
|---|---|---|
| `CacheSafety.StepKeeps` | internal/cache/task.go:73-135 | every atomic step of any reader or writer, failed Redis commands and clock ticks included, keeps the invariant tying stored pages, stamps, program counters and commits together |
| `CacheSafety.RunKeeps` | internal/service/task.go:147-188 | the invariant holds after every interleaving of any number of readers and writers |
| `CacheTheorems.ServedPagesAgree` | internal/cache/task.go:84-135 | in every reachable state, a page stored under the team's current generation equals direct evaluation of its query on the current table, unless a commit of the team has had no successful bump since or the counter restarted unsafely; earlier failed bumps do no harm |
| `CacheTheorems.PagesToStoreAgree` | internal/service/task.go:157-186 | the same of a page a reader is about to store under the current generation |
| `CacheTheorems.BumpCatchesUp` | internal/cache/task.go:124-135 | a successful bump covers every commit of the team so far, whoever failed to bump before |
| `CacheTheorems.StaysCaughtUp` | internal/service/task.go:506-510 | only a commit of the team itself leaves it uncovered again |
| `CacheTheorems.SettledIsCaughtUp` | internal/service/task.go:224-224 | with no bump outstanding and none lost, every commit of the team is covered |
| `CacheTheorems.ReadersSeeBumpedCommits` | internal/cache/task.go:40-50 | a reader that reads the generation after a writer's bump answers, from cache or database, with data at least as new as that writer's commit, whatever steps come in between without a counter restart; earlier restarts are allowed once the pages of those lifetimes are gone |
| `CacheTheorems.StalenessIsBounded` | internal/service/task.go:506-510 | with failed bumps and restarts allowed, a page served from cache was read no earlier than page TTL plus reader delay before it was served |
| `CacheTheorems.CacheServes` | internal/cache/task.go:84-104 | the answer from the cache is the page found there, whose table reads are that recent |
| `CacheTheorems.MissReadsTable` | internal/service/task.go:155-188 | a reader that misses, undisturbed, returns and stores exactly the query evaluated on the table |
| `CacheTheorems.CommandsMayFail` | internal/service/task.go:146-153 | every Redis command may go unanswered, and what the reader or writer then does |
| `CacheTheorems.DeployedPagesAgree` | internal/config/config.go:224-225 | with the counter TTL of 24 hours, a page TTL within its configured hour and readers under 23 hours, served pages agree |
| `CacheRestart.LostBumpCanServeStale` | internal/service/task.go:506-510 | after one lost bump the page stored before the commit is still served |
| `CacheTheorems.RestartServesOnlyLastGeneration` | internal/cache/task.go:34-38 | after a restart a page of an earlier counter lifetime can be served only under the last generation of the lifetime before, and only within page TTL plus reader delay of its end |
| `CacheTheorems.OldPageIsLastGeneration` | internal/cache/task.go:106-135 | if page TTL plus reader delay is below the counter TTL, no page of any older generation is still stored |
| `CacheRestart.RestartCanServeStale` | internal/cache/task.go:34-38 | for every generation but 0 and every moment up to page TTL plus reader delay after the last lifetime there is a run, every bump succeeding, that is back at that generation at that moment and serves a page not agreeing with the table |
| `CacheRestart.RestartHazardIff` | internal/cache/task.go:34-38 | a stale page can be served with the counter back at its last generation at a given moment if and only if the generation is not 0 and the moment lies in that window |
| `CacheTheorems.EvaluationIgnoresOthers` | internal/repository/task.go:97-123 | the rows a query without the overdue filter reads, and its count, depend on its own team's rows only |
| `CacheTheorems.RowsUnchanged` | internal/repository/task.go:97-101 | a team's rows are the same in two table states with none of its commits in between |
| `TaskCache.Client.Get` | internal/cache/task.go:73-104 | a hit returns the page stored under the current generation, a miss or an entry that does not decode the stamp to store under, a Redis failure neither |
| `TaskCache.Client.Set` | internal/cache/task.go:106-122 | the page is stored under the stamp it was computed for, and nothing is stored without one |
| `TaskCache.Client.InvalidateTeam` | internal/cache/task.go:124-135 | the team's generation goes up by one with its full TTL, from 0 when absent, and nothing else changes |
| `TaskQuery.ListRequest.NormalizePage` | internal/service/task.go:512-522 | the query becomes its normal form: limit between 1 and 100, offset not negative |
| `TaskQuery.ListRequest.ListTasks` | internal/service/task.go:132-182 | on a miss with no writer in between, the response is the direct evaluation of the normalised query, or the error a bad cursor gets; every task listed is in the table, of the team, with the status, assignee and priority asked for, overdue if asked, and with the search literally in its title; a first page without more lists them all |
| `TaskQuery.MatchesIff` | internal/repository/task.go:97-123 | the WHERE clause condition by condition, the search being a contiguous occurrence in the title |
| `TaskQuery.PageLists` | internal/repository/task.go:152-189 | the same of the page of any query |
| `Pagination.TotalCounts` | internal/repository/task.go:181-189 | the total is the number of table positions whose row meets every condition asked for |
| `Pagination.OffsetPagesListExactly` | internal/repository/task.go:152-179 | a row is on some offset page exactly when it is in the table and meets every condition asked for |
| `Pagination.WalkPagesListExactly` | internal/repository/task.go:152-179 | the same of a page of a walk over a changing table, between its two cursors |
| `Pagination.PageIsOrdered` | internal/repository/task.go:125-145 | any two rows of a page compare as the sort and order asked for say: newest first by default, ties by id, no due date last, equal priorities newest first, low to urgent |
| `Pagination.CursorAcceptedIff` | internal/domain/cursor.go:44-59 | exactly the cursors with an id and a time, issued for the same sort and order, are accepted, with the defaults created_at and desc |
| `Pagination.PageEchoes` | internal/service/task.go:173-179 | the response names the limit and offset used, 20 by default and at most 100, and holds no more rows |
| `Like.SearchIsSubstring` | internal/repository/task.go:117-150 | the bound LIKE pattern matches a title exactly when the search occurs in it contiguously, for any character equivalence |
| `Like.EscapedPrefix` | internal/repository/task.go:148-150 | an escaped needle followed by a percent sign matches exactly the texts that begin with it |
| `Pagination.OrderIsStrictTotal` | internal/repository/task.go:125-145 | all four orderings, both directions, are irreflexive, transitive and total on rows with distinct ids |
| `Pagination.ListingIgnoresRowOrder` | internal/repository/task.go:171-172 | two tables with the same rows in any storage order give the same listing |
| `Pagination.NoDueDateSortsLast` | internal/repository/task.go:136-138 | sorted by due date, a task without one never comes before a task with one, in either direction |
| `Pagination.OffsetPageIs` | internal/service/task.go:157-179 | the page at offset kL is the k-th slice of the listing, has_more says truthfully whether rows remain, and total is the length of the listing |
| `Pagination.OffsetPagesPartition` | internal/repository/task.go:152-179 | over the offset pages of a fixed table every matching row is on exactly one page and no other row is on any |
| `Pagination.CursorIsPosition` | internal/domain/cursor.go:26-33 | a cursor taken at a row selects exactly the rows the ordering puts after it |
| `Pagination.KeysetIsSuffix` | internal/repository/task.go:156-169 | restricting a listing to the rows past one of its own rows leaves exactly the rest of it, in order |
| `Pagination.PageTakes` | internal/service/task.go:155-182 | a page holds the next rows, has_more is true exactly when more remain, and next_cursor points at its last row |
| `Pagination.CursorIsAccepted` | internal/domain/cursor.go:44-59 | a cursor taken at a stored row is accepted by the listing it was taken for |
| `Pagination.PageContinues` | internal/domain/cursor.go:44-59 | the cursor a page hands out is accepted, and what remains past it is exactly what the page left |
| `Pagination.FixedWalk` | internal/service/task.go:155-182 | on a fixed table, for both cursor sorts and both orders, the walk ends and its pages concatenate to the sorted filtered list |
| `Pagination.KeysetRefinesOffset` | internal/repository/task.go:152-179 | page by page, the cursor walk returns the tasks and has_more of the offset pages at 0, L, 2L, ... |
| `Pagination.WalkMovesForward` | internal/repository/task.go:156-169 | even when each page reads a different table state, rows come out in strict key order across pages |
| `Pagination.RepeatedOnlyIfMovedForward` | internal/domain/cursor.go:9-12 | a task can come out twice only if its sort key moved forward between the two reads |
| `Pagination.CreatedAtNeverRepeats` | internal/domain/cursor.go:9-12 | by created_at, following next_cursor over a changing table never returns a task twice |
| `Pagination.WalkMissesNothing` | internal/domain/cursor.go:9-12 | a completed walk returns every task present and matching in all the states read whose key never moved backward, which by created_at is every such task |
| `Pagination.PageHolds` | internal/repository/task.go:155-172 | over a changing table a page returns a row if and only if it is present and matches in the state read, past the cursor the page was read with, and not past the one it hands out |
| `Pagination.MissedIff` | internal/domain/cursor.go:9-12 | a walk misses a task if and only if no page's cursor interval holds its key in the state that page reads |
| `Pagination.RepeatedIff` | internal/domain/cursor.go:9-12 | a walk repeats a task if and only if the intervals of two pages do |
| `Pagination.UpdatedAtCanRepeat` | internal/repository/task.go:134-135 | ascending by updated_at, a task edited between pages comes out twice |
| `Pagination.UpdatedAtCanMiss` | internal/repository/task.go:134-135 | descending by updated_at, a task edited between pages is missed by a completed walk |
| `RowLocks.CommitKeeps` | pkg/database/tx.go:27-66 | a commit leaves every value other open transactions have locked as they saw it |
| `RowLocks.LockKeeps` | internal/repository/team.go:119-121 | a lock on a free row keeps locks exclusive and locked values current |
| `TeamLocks.CommitSafe` | internal/service/team.go:116-309 | committing a finished membership transaction keeps every team at exactly one owner, using only what the transaction locked |
| `TeamLocks.ExactlyOneOwner` | internal/service/team.go:215-245 | in every committed state of any interleaving of lock-level statements, invitations and aborts, each existing team has exactly one owner and no membership outlives its team |
| `TeamRuns.TransferAlone` | internal/service/team.go:218-237 | alone, a transfer gets through exactly from the owner to another member, and changes those two rows |
| `TeamRuns.RemoveAlone` | internal/service/team.go:275-295 | alone, a removal gets through exactly for the owner against anyone else or an admin against a plain member, and takes that row |
| `TeamRuns.ChangeRoleAlone` | internal/service/team.go:254-269 | alone, a role change gets through by the same rule, to a different role other than owner, and sets that row |
| `TeamRuns.LeaveAlone` | internal/service/team.go:188-204 | alone, leaving gets through exactly for a member who is not the owner, and takes that row |
| `TeamRuns.CreateAlone` | internal/service/team.go:68-73 | alone, a creation adds the team and its owner together |
| `TeamRuns.DeleteAlone` | internal/service/team.go:117-129 | alone, a deletion gets through exactly for the owner, and takes the team and all its memberships |
| `TeamRuns.InviteAlone` | internal/service/team.go:140-176 | an invitation passes its check exactly for a manager and a role other than owner, and then adds that membership |
| `TaskUpdate.NormalizeDueAt` | internal/service/task.go:526-535 | refuses exactly the instants outside years 2000 to 9999; an accepted one becomes its whole second, and none stays none |
| `TaskUpdate.TaskRecord.EditText` | internal/service/task.go:314-332 | refused with the first applicable reason; else title and description are those sent, trimmed, or as they were, with their diff added |
| `TaskUpdate.TaskRecord.EditPriority` | internal/service/task.go:334-340 | refused exactly when it differs and content may not be edited; else changed with its diff added |
| `TaskUpdate.TaskRecord.EditDueAt` | internal/service/task.go:342-354 | the same, an out-of-range date being refused before permissions on it |
| `TaskUpdate.TaskRecord.EditPlan` | internal/service/task.go:334-354 | priority and due date together: the first applicable refusal, else both changed with their diff |
| `TaskUpdate.TaskRecord.EditStatus` | internal/service/task.go:356-373 | the same for status, with closed_at set on reaching done and cleared on leaving it |
| `TaskUpdate.TaskRecord.EditAssignee` | internal/service/task.go:375-392 | the same for the assignee, who must be a member |
| `TaskUpdate.TaskRecord.ApplyUpdate` | internal/service/task.go:300-395 | fails exactly when some reason to refuse holds, with the first one in order; otherwise each field of the row is the one sent, cleaned up, or as it was, and the changes have a key exactly for the tracked fields that differ, with true old and new values |
| `TaskUpdate.RequestedFields` | internal/service/task.go:314-392 | the row an accepted request asks for, field by field |
| `TaskUpdate.RefusedIs` | internal/service/task.go:307-391 | which update is refused, and why, told on roles and fields |
| `TaskUpdate.AssigneeChangesStatusOnly` | internal/service/rbac.go:94-103 | an accepted update by someone neither manager nor creator is the assignee's and alters only status and closed_at |
| `TaskUpdate.AcceptedAssigneeIsMember` | internal/service/task.go:380-391 | an accepted update that changes the assignee to someone names a member |
| `TaskUpdate.ClosedTracksDone` | internal/service/task.go:363-372 | an update keeps closed_at set exactly when the status is done |
| `TaskUpdate.ReapplyChangesNothing` | internal/service/task.go:267-274 | the same request by the same user on the updated row is accepted and yields an empty diff |
| `Strings.TrimIs` | internal/service/task.go:89-90 | trimming takes the white space off both ends and nothing else |
| `Strings.TrimIdempotent` | internal/service/task.go:89-90 | trimming a trimmed text changes nothing |
| `ServiceStore.Store.CreateTask` | internal/service/task.go:62-123 | refused, with the right error, for an outsider, an assignee outside the team, a date out of range or a taken id; else adds one to-do at version 1 with title and description trimmed, priority and due date as sent or defaulted, and one entry in the creator's name, touching nothing else; keeps the tables consistent |
| `ServiceStore.Store.UpdateTask` | internal/service/task.go:238-295 | accepted exactly for something sent, by a member, at the current version and within their permissions, with the right error otherwise; each field of the row is then the one sent, cleaned up, or as it was; one version and one entry more holding exactly the difference, or nothing at all when nothing differs |
| `ServiceStore.Store.DeleteTask` | internal/service/task.go:199-227 | succeeds exactly for a member who manages the team or created the task; takes it and its history and nothing else |
| `ServiceStore.Store.UnassignUser` | internal/repository/task.go:216-245 | afterwards no task of the team is assigned to the user, and the count returned is that of the tasks that were |
| `ServiceStore.Store.CreateTeam` | internal/service/team.go:59-80 | a registered user becomes the owner and only member of a new team; nothing else changes |
| `ServiceStore.Store.DeleteTeam` | internal/service/team.go:116-137 | the owner's right alone; no member and no task of the team is left, and no other team's is touched |
| `ServiceStore.Store.InviteMember` | internal/service/team.go:140-182 | takes effect exactly when a manager invites a registered outsider to a role other than owner, and gives that user that role alone |
| `ServiceStore.Store.LeaveTeam` | internal/service/team.go:185-213 | succeeds exactly for a member who is not the owner; the leaver is out and holds no task of the team, their tasks have one version and one entry more, everyone and everything else is as before, and cached pages are invalidated exactly when a task changed |
| `ServiceStore.Store.TransferOwnership` | internal/service/team.go:218-245 | succeeds exactly from the owner to another member; the heir is then the one owner, the former owner an admin, all other roles and all tasks as before |
| `ServiceStore.Store.ChangeMemberRole` | internal/service/team.go:254-270 | succeeds exactly for another member below the actor and a different role other than owner, with the right error otherwise; sets that role and nothing else |
| `ServiceStore.Store.RemoveMember` | internal/service/team.go:275-309 | succeeds exactly when the owner removes someone else or an admin a plain member, with the right error otherwise: the effect of leaving, recorded in the actor's name |
| `Effects.CreateTaskEffect` | internal/service/task.go:62-119 | decision and effect of a creation on any consistent tables, field by field |
| `Effects.UpdateTaskEffect` | internal/service/task.go:238-292 | decision and effect of an update on any consistent tables, field by field |
| `Effects.RemoveEffect` | internal/service/rbac.go:54-67 | decision and effect of a removal, told on the two roles |
| `Effects.ChangeRoleEffect` | internal/service/rbac.go:35-52 | decision and effect of a role change, told on the two roles |
| `Effects.InviteEffect` | internal/service/team.go:140-176 | decision and effect of an invitation |
| `Effects.LeaveEffect` | internal/service/team.go:185-213 | decision and effect of leaving |
| `Effects.DeleteTaskEffect` | internal/service/task.go:199-227 | decision and effect of a deletion |
| `Effects.DeleteTeamEffect` | internal/service/team.go:116-137 | decision and effect of deleting a team |
| `Effects.ExpelEffect` | internal/repository/task.go:216-245 | the effect of leaving or being removed on any consistent tables |
| `Effects.TransferEffect` | internal/service/team.go:218-237 | the effect of a transfer on any consistent tables |
| `Audit.PerformKeeps` | internal/service/task.go:101-114 | every service call keeps rows, histories, memberships and ownership consistent |
| `Audit.HistoryReplaysToRow` | internal/service/task.go:267-283 | in every serial run, folding a task's history from an empty row yields exactly its stored fields, each entry's old values are those the entries before it left, and version counts the entries |
| `Audit.RowsStayConsistent` | internal/service/team.go:272-309 | in every serial run every assignee is a member of the task's team and closed_at is set exactly when status is done |
| `LateCommits.CreateCommitKeepsIff` | internal/service/task.go:63-114 | whatever committed since its checks, the commit of CreateTask keeps the tables consistent exactly when the assignee is still a member |
| `LateCommits.UpdateCommitKeepsIff` | internal/service/task.go:248-284 | with role and members as read earlier, the commit of UpdateTask keeps them consistent exactly when the new assignee is unchanged, none, or still a member |
| `LateCommits.ExpelCommitKeepsIff` | internal/repository/task.go:219-238 | the commit of a departure does exactly when both statements of its unassign found every task of the leaver |
| `LateCommits.CommitKeepsIff` | internal/service/team.go:272-309 | every commit of every call, against whatever the tables are by then, keeps them consistent exactly when it is sound in that sense |
| `LateCommits.RunKeepsIff` | internal/service/team.go:272-309 | a run of such commits is consistent throughout exactly when each is sound where it commits |
| `LateCommits.CreationIsOvertaken` | internal/service/task.go:67-102 | any accepted creation breaks consistency if its assignee leaves before it commits |
| `LateCommits.UpdateIsOvertaken` | internal/service/task.go:380-391 | any accepted update does if its new assignee leaves before it commits |
| `LateCommits.UnassignIsOvertaken` | internal/repository/task.go:231-238 | any departure does if an accepted update gives the leaver a task after its statements ran |
| `LateCommits.OvertakingHappens` | internal/service/task.go:67-102 | a reachable small team in which all three can happen |
| `Audit.ChangedTeamIsInvalidated` | internal/service/task.go:289-292 | a call that changes the rows of a team's tasks invalidates that team, and changes no other team's rows |
| `Authority.MembershipNeedsAuthority` | internal/service/rbac.go:7-67 | whoever's membership any call changes, its actor had the authority: owners lose their role only by handing the team over, nobody becomes owner but by the owner's hand, admins touch neither the owner nor each other, members only themselves |
| `Authority.OwnershipEndsByOwnerOnly` | internal/service/rbac.go:12-13 | over every run, a team's owner stays owner until they hand the team over or delete it themselves |
| `Authority.InviteAsAdminIff` | internal/service/rbac.go:19-33 | an invitation as admin takes effect exactly when the actor is a manager and the invitee is registered and not yet a member, and changes nobody else's role |
| `Authority.TaskChangesNeedAuthority` | internal/service/rbac.go:88-103 | a task row changes only by a member of its team: a manager, its creator, its assignee for the status alone, or by losing an assignee who leaves or is removed; its identity never changes and its version goes up by one |
| `Authority.TaskRemovalNeedsAuthority` | internal/service/task.go:199-219 | a task goes only by a manager's or its creator's hand, or with its team by the owner's |
| `Authority.NewTasksAreTheirCreators` | internal/service/task.go:60-99 | a task appears only as a to-do at version 1 created by a member of its team |
| `TaskLocks.VersionCountsCommits` | internal/repository/task.go:191-214 | in every interleaving of create, update, delete and unassign transactions a stored task's version is the number of changes committed to it |
| `TaskLocks.NoLostUpdate` | internal/service/task.go:248-284 | no two committed updates of a task carried the same version, and each found the task at the version it carried |
| `TaskLocks.VersionTestHolds` | internal/repository/task.go:192-210 | while an update holds the row it read, the stored row is still that row, so the version test in its UPDATE never refuses |
| `TaskRuns.CreateAlone` | internal/service/task.go:101-114 | alone, a creation adds its row and one audit entry |
| `TaskRuns.UpdateAlone` | internal/service/task.go:248-284 | alone, an accepted update writes the row asked for and one audit entry |
| `TaskRuns.DeleteAlone` | internal/service/task.go:202-219 | alone, a deletion takes its row |
| `TaskRuns.UnassignAlone` | internal/repository/task.go:216-245 | alone, an unassign takes the user off every task of theirs in the team, each with one audit entry, and touches no other |
| `UnassignHistory.UnrecordedIff` | internal/repository/task.go:216-245 | in every interleaving, a committed unassign of a task went unrecorded if and only if the assignment it undid was committed after its history statement had ended |
| `UnassignHistory.VersionCountsEntriesAndSkips` | internal/repository/task.go:219-238 | in every interleaving a stored task's version is the number of its history entries plus the number of such unassigns |
| `UnassignHistory.UnassignCanSkipHistory` | internal/repository/task.go:219-238 | a reachable state with such an unassign |
| `Tokens.TokenCache.SetRefreshToken` | internal/cache/token.go:36-44 | the token maps to its user for the refresh TTL, or nothing changes and the call is unavailable |
| `Tokens.TokenCache.GetRefreshToken` | internal/cache/token.go:46-59 | the user of a stored token; not found and unavailable told apart |
| `Tokens.TokenCache.RotateRefreshToken` | internal/cache/token.go:61-85 | succeeds exactly when the token is stored for that user and Redis answers; a found token is gone in every case |
| `Tokens.TokenCache.DeleteRefreshToken` | internal/cache/token.go:87-95 | exactly that token goes |
| `Tokens.AuthService.IssueTokens` | internal/service/auth.go:173-186 | the new token is returned only if it is stored |
| `Tokens.AuthService.Refresh` | internal/service/auth.go:108-149 | run alone, succeeds exactly for a stored token of an existing user, hands its user over to the new token and spends the old one |
| `Tokens.AuthService.Logout` | internal/service/auth.go:165-170 | removes the presented refresh token and nothing else; a missing token is no error |
| `TokenSafety.StepKeeps` | internal/cache/token.go:36-95 | every command of every sign-in, refresh and logout, lost replies and expiry included, keeps chains linear and their sessions consistent |
| `TokenSafety.UninterruptedRefresh` | internal/service/auth.go:115-146 | the four steps of a refresh run back to back have the effect of the whole call |
| `TokenSafety.SingleUse` | internal/service/auth.go:105-108 | in every interleaving each token wins at most one rotation |
| `TokenSafety.ReplayIsRefused` | internal/cache/token.go:65-74 | a token that won a rotation is never stored again, in any continuation |
| `TokenSafety.OneCarrierPerChain` | internal/cache/token.go:61-85 | a sign-in chain has at most one live token, counting a rotation caught between GETDEL and SET |
| `TokenSafety.OwnerAlwaysMatches` | internal/cache/token.go:76-78 | a rotation that finds its token finds its own user: the owner test never refuses |
| `TokenSafety.TokensExpire` | internal/cache/token.go:39-39 | in every run a stored token expires within the refresh TTL and is gone once past it |
| `TokenSafety.TokensLast` | internal/cache/token.go:61-95 | until then only a rotation or a logout of that very token ends it |
| `TokenSafety.CommandsMayFail` | internal/cache/token.go:68-82 | a SET may store nothing, and a GETDEL whose reply is lost has spent the token all the same |
| `TokenSafety.LogoutIsFinal` | internal/service/auth.go:165-170 | logging out a stored token ends its chain: no token of it is accepted in any continuation |
| `TokenSafety.LogoutEndsChainIff` | internal/cache/token.go:87-95 | a logout leaves a chain without session exactly when it had none or the presented token is the stored one |
| `TokenSafety.LogoutMissesRotation` | internal/cache/token.go:68-82 | a rotation in flight still stores its new token after a logout with the old one |
| `TokenSafety.RotationCanBeCaught` | internal/cache/token.go:68-82 | a run that reaches such a rotation |
| `RateLimiter.Limiter.Hit` | internal/server/http/middleware/rate_limiter.go:20-28 | count, remaining time and counter are those of one atomic run of the script; other keys are untouched |
| `RateLimiter.Limiter.Limit` | internal/server/http/middleware/rate_limiter.go:50-80 | passes when Redis fails, refuses exactly above the limit, with the remainder and reset computed from the script's answer |
| `RateLimiter.KeysAreDistinct` | internal/server/http/middleware/rate_limiter.go:54-54 | two scopes, or two clients of a scope, never share a counter |
| `RateLimiter.Quotient` | internal/server/http/middleware/rate_limiter.go:61-61 | Go's integer division, truncated toward zero for either sign |
| `RateBounds.CountersExpire` | internal/server/http/middleware/rate_limiter.go:15-28 | after any request the counter exists and expires within one window |
| `RateBounds.MissingExpiryIsRepaired` | internal/server/http/middleware/rate_limiter.go:22-26 | a counter found without expiry gets one of a full window |
| `RateBounds.RateBound` | internal/server/http/middleware/rate_limiter.go:50-80 | any half-open interval one window long lets through at most twice the limit less one |
| `RateBounds.RateBoundIsTight` | internal/server/http/middleware/rate_limiter.go:20-28 | every policy with a window of at least two milliseconds reaches that bound |
| `RateBounds.RemainingIsExact` | internal/server/http/middleware/rate_limiter.go:63-63 | of the requests before the reset, exactly the advertised remainder pass |
| `RateBounds.RefusingWindowIsOverIff` | internal/server/http/middleware/rate_limiter.go:61-68 | after the advertised seconds the refusing window is over, whoever came in between, except at the very instant of an expiry on a whole second |
| `RateBounds.RetryPassesIff` | internal/server/http/middleware/rate_limiter.go:66-70 | a client that waits them alone passes, with the same exception |
| `RateBounds.LimitsIff` | internal/server/http/middleware/rate_limiter.go:74-79 | some request sequence is refused exactly when the window is at least one millisecond |
| `Stats.GetStats` | internal/repository/team.go:234-279 | scanning the result rows gives the report, aggregates included when the team is empty |
| `Stats.StatusCounted` | internal/repository/team.go:192-199 | each status count is the number of the team's tasks with that status, and the total of them all |
| `Stats.OverdueCounted` | internal/repository/team.go:200-202 | the overdue count is the number of the team's tasks past due and neither done nor cancelled |
| `Stats.CommentsCounted` | internal/repository/team.go:208-212 | the comment count is the number of comments on a task of the team |
| `Stats.AverageIs` | internal/repository/team.go:203-205 | the average is the total closing time of the team's done tasks over their number, in hours, and zero without any |
| `Stats.CountsAgree` | internal/repository/team.go:192-204 | the five status counts add up to the total and overdue tasks are at most the open ones |
| `Stats.GroupsCount` | internal/repository/team.go:213-221 | there is one group for each user who closed a task, holding how many, and no other |
| `Stats.ListedAreFirst` | internal/repository/team.go:213-223 | a user is listed only with the number of the team's tasks done, assigned to them and closed within thirty days; whoever closed any and is not listed has three others ahead by closes, name and id |
| `Stats.ListIsOrdered` | internal/repository/team.go:213-223 | at most three known users, once each, by closes descending, name, id |
| `Stats.ListedClosesAreDone` | internal/repository/team.go:213-223 | the listed closes together are at most the team's done tasks |
| `Stats.AverageLiesBetween` | internal/repository/team.go:202-204 | the average closing time lies between any bounds the team's closing times do |

## Left out

- HTTP handlers, routing, logging, metrics and error-to-status tables: plumbing around the services.
- The Redis circuit breaker: its state machine is library code; a failed or unanswered command is an input of every step.
- JWT, bcrypt, SHA-256 and random tokens: tokens are distinct values, hashes are taken to be injective, and page keys stand for the whole query.
- Access-token blacklisting and password sign-in: only the refresh-token side of Logout and Login is modelled.
- JSON and base64url encoding of cursors, pages and change sets: an exact round trip is assumed; a cursor is absent, garbled or given, and a cached entry decodes or not.
- Comments, profile, password, team renaming and listing endpoints, and the role check of the statistics endpoint: they would only add easy members.
- Configuration and migrations: only the constants and schema rules the models need (primary keys, foreign keys with cascade, defaults).
- MySQL internals: a deadlock or lock timeout is an abort that rolls back; a statement over several rows locks them one at a time and ends when none it looks for is left; an INSERT's shared locks on parent rows are one atomic step of an invitation; index and gap locks are not modelled.
- Nested WithinTx: no service call nests transactions; commit, rollback and row locks are in `RowLocks`.
- Character sets: LIKE is proved for any character equivalence; listings and names use ASCII case folding for the collation, and ids compare by code point.
- Calendar and time zones: times are integers, seconds in rows and milliseconds in Redis, and the year range is an interval.
- Redis expiry: a key is live up to and including the millisecond it expires in.
- CacheTheorems.ServedPagesAgree: excludes queries for overdue tasks, whose result changes with the clock alone.
- CacheTheorems.StalenessIsBounded: the delay is counted from reading the stamp to storing the page; the request timeout bounds it where one is configured.
- Audit.HistoryReplaysToRow: serial runs of whole calls; `UnrecordedIff` is the exact exception in other runs.
- Audit.RowsStayConsistent: serial runs of whole calls; `RunKeepsIff` is the exact condition in other runs.
- Pagination.WalkMissesNothing: a sufficient condition in terms of the task alone; `MissedIff` is the exact one, in terms of the walk.
- RateBounds.RateBound: requests of one key with Redis answering; requests let through because Redis failed are not counted.
- Stats.AverageLiesBetween: the average is a real number; DECIMAL rounding is not modelled.
- Two readings of the clock within one call (closed_at and updated_at) are one value.
