# RBAC core of the Trello-clone backend, in Dafny

This project models the access-control engine of the backend:

- the role and permission constants, with their groups and the coarse privilege levels;
- the provider's strict role ranking and its fixed role-to-permission table;
- the access decisions: who may view a workspace or a board, whether a caller holds a permission, and which role applies on a board;
- the cache-aside lookups the decisions use;
- the Redis-backed RBAC cache with its key layout, time-to-live and invalidation.

It proves properties of that model.

Modules, in dependency order:

| module | file | models |
|---|---|---|
| `Wrappers` | wrappers.dfy | `Option` |
| `Strings` | strings.dfy | facts about `:`-separated strings |
| `Ids` | ids.dfy | uuid identifiers: non-empty, no `:` and no glob characters |
| `Roles` | roles.dfy | `backend/src/common/constants/roles.ts` |
| `Permissions` | permissions.dfy | `backend/src/common/constants/permissions.ts` |
| `RbacTables` | rbac_tables.dfy | `ROLE_HIERARCHY`, `ROLE_PERMISSIONS` and the static helpers of `backend/src/common/utils/rbac.ts` |
| `RbacPolicy` | rbac_policy.dfy | the branching of the `RBACProvider` checks over already-fetched facts |
| `Glob` | glob.dfy | the `*` wildcard of Redis `KEYS` patterns |
| `RbacCache` | rbac_cache.dfy | `backend/src/common/utils/rbacCache.ts` |
| `RbacService` | rbac_service.dfy | `RBACProvider` as an object over the datastore and the cache |

## Design

- **Roles and permissions.**
  - A role is a datatype constructor.
  - Every `PERMISSIONS` value is written `<resource>:<action>`. A permission is therefore a pair of a group and an action.
  - `Declared` says which of the 13 × 15 pairs exist: 53 of them. `Name` spells a permission out as its string.
- **Two hierarchies.**
  - The levels of `roles.ts` (`Roles.Level`, which has ties) and the ranks of `rbac.ts` (`RbacTables.Rank`, pairwise distinct) are kept apart.
  - Every role comparison in `rbac.ts` uses the ranks.
- **Decisions are pure functions.**
  - `RbacPolicy` states each decision as a function of the rows and memberships it depends on.
  - Each contract gives the decision declaratively: `MaySeeBoard` for boards, the exact denial per case, and the attached context.
  - `RbacService.RbacProvider` fetches the facts in the order and under the conditions the source does, then calls those functions.
- **The datastore** is a value with one map per queried table.
  - Memberships are maps keyed by `(userId, workspaceId)` and by `(userId, boardId)`. The unique constraints at `backend/src/common/entities/workspace-member.entity.ts:17` and `backend/src/common/entities/board-member.entity.ts:17` make them functions.
- **The cache** is a class holding a map from key strings to `Entry(value, expiresAt)`.
  - The clock is an explicit argument, in seconds.
  - An `up` flag stands for the Redis connection. While it is false, `get` returns nothing and every write or delete leaves the store as it was.
  - A key that pattern deletion targets is selected by `Glob.Match`.
- **Roles' rows.** `RbacTables.RowActions` lists, per role and resource, the actions of that role's row of `ROLE_PERMISSIONS` in the order written. Every row other than admin's lists its resources in one fixed order (`RowGroups`), so the row is those lists read in that order.
- **Cache-aside reads.** `RbacService.Fetched` is one read through the cache: a live entry of the right kind, else the datastore's answer (`Stored`), written back when there is one. `FetchBoardFacts` chains the reads of the board checks.
  - Every provider method states its result and the store it leaves in these terms, whether or not the cache is coherent.
  - `Refreshed` is the frame: the store changes only at the keys looked up, and only by entries the datastore justifies.
- **Coherence.** `RbacService.Coherent` says that every live entry the provider may read agrees with the datastore.
  - Every lookup preserves it, and under it returns exactly the datastore's answer. Without it a stale cached role can decide a check, which `RemovedMembershipIsStale` illustrates.
  - Invalidation restores it after a change, or `RemovedMembershipIsStale` shows the stale answer.

Where the documentation and the code differ, the model follows the code:

- When a board membership exists and the workspace role is not admin or moderator, `getEffectiveBoardRole` returns the higher-ranked of the two roles (`rbac.ts:676-678`). It does not simply return the board role; for example, `workspace_member` beats `board_member`.
- Cache keys are `rbac:<type>:<ids>` with the type names `ws_member`, `board_member`, `board_info`, `workspace_info`, `list_board` and `card_board`.
- `canViewWorkspace` reads the workspace row from the datastore, never from the workspace-info cache (`rbac.ts:434-437`).

## Model

| member | source | states |
|---|---|---|
| Roles.RoleValues | backend/src/common/constants/roles.ts:6-25 | the values of ROLES are the eleven role strings, in declaration order |
| Roles.Index | backend/src/common/constants/roles.ts:6-25 | every role has a position among the ROLES values |
| Roles.ParseName | backend/src/common/constants/roles.ts:6-25 | every role string reads back as its role |
| Roles.NameInjective | backend/src/common/constants/roles.ts:6-25 | two roles have the same string exactly when they are the same role |
| Roles.AllRolesDistinct | backend/src/common/constants/roles.ts:6-25 | the ROLES values list every role, each exactly once |
| Roles.IsValidRoleExactly | backend/src/common/constants/roles.ts:30-33 | isValidRole(s) holds exactly when s is the string of one of the eleven roles, and exactly when s reads back as a role |
| Roles.Level | backend/src/common/constants/roles.ts:54-67 | every level lies between 1 (guest) and 10 (admin) |
| Roles.LevelsDecreaseWithinGroups | backend/src/common/constants/roles.ts:54-67 | inside WORKSPACE and inside BOARD the levels strictly decrease in group order: admin > moderator > member > observer, and owner > admin > member > observer |
| Roles.PrivilegeIsTotalPreorder | backend/src/common/constants/roles.ts:87-90 | hasHigherOrEqualPrivilege is reflexive, total and transitive |
| Roles.PrivilegeNotAntisymmetric | backend/src/common/constants/roles.ts:55-67 | board_observer and workspace_observer each dominate the other though distinct, because both have level 3; other cross-group pairs tie too |
| Roles.AdminIsTop | backend/src/common/constants/roles.ts:87-90 | admin is at least as privileged as every role, and no other role is at least as privileged as admin |
| Roles.RoleGroupsPartition | backend/src/common/constants/roles.ts:69-85 | a role is listed under a group exactly when that is its own group, and no group lists a role twice |
| Roles.RoleGroupsCoverAllRoles | backend/src/common/constants/roles.ts:69-85 | SYSTEM, WORKSPACE, BOARD and BASIC read in order are exactly the ROLES values in order |
| Roles.DefaultUserRole | backend/src/common/constants/roles.ts:92-95 | the default user role is in BASIC |
| Roles.DefaultWorkspaceRole | backend/src/common/constants/roles.ts:97-100 | the default workspace role is in WORKSPACE |
| Roles.DefaultBoardRole | backend/src/common/constants/roles.ts:102-105 | the default board role is in BOARD |
| Permissions.PermissionValues | backend/src/common/constants/permissions.ts:6-85 | the values of PERMISSIONS are the strings of the declared permissions, in declaration order |
| Permissions.NameShape | backend/src/common/constants/permissions.ts:8-84 | every permission string is a non-empty resource word and a non-empty action word, neither holding ':' |
| Permissions.ResourceWordColonFree | backend/src/common/constants/permissions.ts:8-84 | every resource word is non-empty and has no ':' |
| Permissions.ActionWordColonFree | backend/src/common/constants/permissions.ts:8-84 | every action word is non-empty and has no ':' |
| Permissions.ExactlyOneColon | backend/src/common/constants/permissions.ts:8-84 | a permission string has a ':' at exactly one position, right after the resource word |
| Permissions.GroupResourceInjective | backend/src/common/constants/permissions.ts:8-84 | distinct groups have distinct resource words |
| Permissions.ActionNameInjective | backend/src/common/constants/permissions.ts:8-84 | distinct actions have distinct action words |
| Permissions.NameInjective | backend/src/common/constants/permissions.ts:6-85 | two permissions have the same string exactly when they are the same permission, so the strings are pairwise distinct |
| Permissions.AllPermissionsExactlyOnce | backend/src/common/constants/permissions.ts:6-85 | there are 53 values; they are exactly the declared permissions, and none is repeated |
| Permissions.ListedExactlyWhenDeclared | backend/src/common/constants/permissions.ts:6-85 | a permission is among the PERMISSIONS values exactly when it is declared |
| Permissions.IsValidPermissionExactly | backend/src/common/constants/permissions.ts:90-93 | isValidPermission(s) holds exactly when s is the string of a declared permission |
| Permissions.GroupsPartitionPermissions | backend/src/common/constants/permissions.ts:95-173 | a permission is listed under a group exactly when it is declared and that group is its own; no group lists one twice |
| Permissions.GroupWellFormed | backend/src/common/constants/permissions.ts:95-173 | every member of a group is a declared permission of that group, listed once |
| Permissions.GroupsCoverAllPermissions | backend/src/common/constants/permissions.ts:95-173 | the thirteen groups read in order are exactly the PERMISSIONS values in order |
| Permissions.AllGroupsDistinct | backend/src/common/constants/permissions.ts:95-173 | the thirteen groups together list every permission only once |
| Permissions.GroupSharesResourcePrefix | backend/src/common/constants/permissions.ts:95-173 | every member of a group starts with that group's resource word and ':' |
| RbacTables.Rank | backend/src/common/utils/rbac.ts:30-42 | the ranks lie between 10 (guest) and 100 (admin) |
| RbacTables.RanksDistinct | backend/src/common/utils/rbac.ts:30-42 | two roles have the same rank exactly when they are the same role |
| RbacTables.HierarchiesDisagree | backend/src/common/utils/rbac.ts:30-42 | board_owner ranks below workspace_moderator in this table, but has the higher level in the constants file |
| RbacTables.RolePermissions | backend/src/common/utils/rbac.ts:692-694 | the permissions of admin are every PERMISSIONS value |
| RbacTables.RowMembership | backend/src/common/utils/rbac.ts:56-298 | a role other than admin holds a permission exactly when its row lists that action for that resource |
| RbacTables.RolePermissionsWellFormed | backend/src/common/utils/rbac.ts:52-299 | every row is non-empty, holds only declared permissions, and lists none twice |
| RbacTables.AdminHoldsEveryPermission | backend/src/common/utils/rbac.ts:687-690 | roleHasPermission(admin, p) holds for every declared permission p |
| RbacTables.ViewOnlyRolesOnlyRead | backend/src/common/utils/rbac.ts:164-299 | workspace_observer, board_observer and guest hold only `:read` permissions |
| RbacTables.WorkspaceRolesNested | backend/src/common/utils/rbac.ts:56-176 | each workspace role's permissions include those of the role below it: observer ⊆ member ⊆ moderator ⊆ admin |
| RbacTables.BoardRolesNested | backend/src/common/utils/rbac.ts:177-287 | each board role's permissions include those of the role below it: observer ⊆ member ⊆ admin ⊆ owner |
| RbacTables.RankDoesNotOrderPermissions | backend/src/common/utils/rbac.ts:30-216 | the rank order is not permission inclusion: board_owner ranks below workspace_moderator, yet each holds a permission the other lacks (boards:delete, boards:create) |
| RbacTables.CompareRoles | backend/src/common/utils/rbac.ts:696-698 | compareRoles is 0 exactly for equal roles, and its sign is the rank order |
| RbacTables.CompareRolesAntisymmetric | backend/src/common/utils/rbac.ts:696-698 | swapping the arguments negates compareRoles |
| RbacTables.GetHigherRole | backend/src/common/utils/rbac.ts:309-313 | null only when both are null; otherwise one of the arguments ranked at least as high as each present one |
| RbacTables.GetHigherRoleCommutes | backend/src/common/utils/rbac.ts:309-313 | the result does not depend on the argument order, because ranks never tie |
| RbacPolicy.WorkspaceAccess | backend/src/common/utils/rbac.ts:430-486 | not found and archived are decided first; a live workspace is allowed exactly when it is public or the caller is a member; a private one denies with "Authentication required" to anonymous callers and with "Not a workspace member" to non-members; a context exists exactly for a member, with the workspace role, isWorkspaceMember true and isBoardMember false |
| RbacPolicy.BoardAccess | backend/src/common/utils/rbac.ts:488-594 | a missing board is "not found"; a board is refused as "closed" exactly when it is closed and the caller is anonymous or neither a board member nor a workspace admin or moderator; otherwise access is exactly MaySeeBoard, and a refusal is "Authentication required" for anonymous callers and "Not authorized" otherwise; a signed-in caller who is admitted gets the context of both memberships |
| RbacPolicy.WorkspacePermission | backend/src/common/utils/rbac.ts:596-612 | true exactly when there is a membership whose role holds the permission |
| RbacPolicy.BoardPermission | backend/src/common/utils/rbac.ts:614-648 | false for a missing board; otherwise true exactly when the board role's row or the workspace role's row holds the permission, and no row without a membership |
| RbacPolicy.EffectiveBoardRole | backend/src/common/utils/rbac.ts:650-685 | a role exactly when the board exists and the caller is a board member, a workspace admin or moderator, or a workspace member of a 'workspace' board; it is one of the caller's roles and ranks at least as high as each of them |
| RbacPolicy.ArchivedWorkspaceDeniedToAll | backend/src/common/utils/rbac.ts:443-445 | an archived workspace is refused as archived to every caller, members included, whatever its visibility |
| RbacPolicy.PublicWorkspaceAdmitsAnonymous | backend/src/common/utils/rbac.ts:447-466 | a live public workspace admits anonymous callers, with no context |
| RbacPolicy.WorkspaceAccessMonotone | backend/src/common/utils/rbac.ts:430-486 | gaining a membership or signing in never takes workspace access away |
| RbacPolicy.AnonymousBoardAccess | backend/src/common/utils/rbac.ts:509-545 | anonymous callers see exactly the open public boards: "closed" on a closed board, "Authentication required" on an open non-public one |
| RbacPolicy.BoardAccessMonotone | backend/src/common/utils/rbac.ts:488-594 | gaining a board membership, a workspace membership or a workspace admin/moderator role never takes board access away |
| RbacPolicy.SigningInKeepsBoardAccess | backend/src/common/utils/rbac.ts:488-594 | what an anonymous caller may see, a signed-in caller may see too |
| RbacPolicy.ModeratorOverridesBoardObserver | backend/src/common/utils/rbac.ts:668-674 | workspace_moderator with board_observer acts as workspace_moderator |
| RbacPolicy.WorkspaceMemberOutranksBoardMember | backend/src/common/utils/rbac.ts:676-678 | workspace_member with board_member acts as workspace_member, the higher-ranked role, not the board role |
| RbacPolicy.EffectiveRoleWithinBoardPermission | backend/src/common/utils/rbac.ts:614-685 | every permission of the effective board role is granted by hasBoardPermission |
| RbacPolicy.EffectiveRoleUnderstatesBoardPermission | backend/src/common/utils/rbac.ts:614-685 | the converse fails: board_owner with workspace_moderator acts as the moderator, which lacks boards:delete, though hasBoardPermission grants it |
| RbacPolicy.EffectiveRoleCanView | backend/src/common/utils/rbac.ts:488-685 | on an open board, whoever has an effective role may view the board |
| RbacPolicy.ClosedBoardKeepsEffectiveRole | backend/src/common/utils/rbac.ts:509-524 | on a closed 'workspace' board a plain workspace member keeps an effective role but is told the board is closed |
| RbacCache.Join | backend/src/common/utils/rbacCache.ts:8 | no parts join to "", one part to itself, two parts to a ':' b; with several parts the first is followed by ':' |
| RbacCache.GetKey | backend/src/common/utils/rbacCache.ts:7-9 | a key starts with PREFIX, the type and ':'; one- and two-part keys are PREFIX + type:a and PREFIX + type:a:b |
| RbacCache.WorkspaceMembershipKey | backend/src/common/utils/rbacCache.ts:53-55 | the key is "rbac:ws_member:" + userId + ":" + workspaceId |
| RbacCache.BoardMembershipKey | backend/src/common/utils/rbacCache.ts:74-76 | the key is "rbac:board_member:" + userId + ":" + boardId |
| RbacCache.BoardInfoKey | backend/src/common/utils/rbacCache.ts:95-97 | the key is "rbac:board_info:" + boardId |
| RbacCache.WorkspaceInfoKey | backend/src/common/utils/rbacCache.ts:113-115 | the key is "rbac:workspace_info:" + workspaceId |
| RbacCache.ListBoardKey | backend/src/common/utils/rbacCache.ts:163-165 | the key is "rbac:list_board:" + listId |
| RbacCache.CardBoardKey | backend/src/common/utils/rbacCache.ts:177-179 | the key is "rbac:card_board:" + cardId |
| RbacCache.KeyOf | backend/src/common/utils/rbacCache.ts:4-9 | every builder key is PREFIX, the type, ':' and the ids joined by ':' |
| RbacCache.KeyOfInjective | backend/src/common/utils/rbacCache.ts:4-9 | two builder keys are equal strings exactly when they are the same kind over the same ids; in particular ws_member and board_member keys never collide |
| RbacCache.UserPatternSelects | backend/src/common/utils/rbacCache.ts:131-133 | among builder keys, `rbac:*:u:*` matches exactly u's ws_member and board_member keys |
| RbacCache.BoardPatternSelects | backend/src/common/utils/rbacCache.ts:149-154 | among builder keys, `rbac:board_member:*:b` matches exactly the board_member keys of board b |
| RbacCache.WorkspacePatternSelects | backend/src/common/utils/rbacCache.ts:156-161 | among builder keys, `rbac:ws_member:*:w` matches exactly the ws_member keys of workspace w |
| RbacCache.AllPatternSelects | backend/src/common/utils/rbacCache.ts:191-193 | `rbac:*` matches exactly the strings that start with "rbac:" |
| RbacCache.Live | backend/src/common/utils/rbacCache.ts:11-20 | an entry is seen exactly while it is present and unexpired, with its stored value |
| RbacCache.Without | backend/src/common/utils/rbacCache.ts:42-51 | exactly the entries the pattern does not match remain, with their values |
| RbacCache.SetThenGet | backend/src/common/utils/rbacCache.ts:11-32 | after set, get on the same key returns the value until the time-to-live runs out, then nothing; every other key reads as before |
| RbacCache.UnmatchedPatternKeepsStore | backend/src/common/utils/rbacCache.ts:42-51 | a pattern that matches no key changes nothing |
| RbacCache.Cache.constructor | backend/src/common/utils/rbacCache.ts:196 | the cache starts empty, with the given availability |
| RbacCache.Cache.Peek | backend/src/common/utils/rbacCache.ts:11-20 | get yields a value exactly when Redis answers and the key is present and unexpired |
| RbacCache.Cache.Get | backend/src/common/utils/rbacCache.ts:11-20 | returns what Peek describes: null on a miss, on expiry or on failure |
| RbacCache.Cache.Set | backend/src/common/utils/rbacCache.ts:22-32 | stores the value expiring ttl seconds from now (60 by default); a failure changes nothing and is not raised |
| RbacCache.Cache.Delete | backend/src/common/utils/rbacCache.ts:34-40 | removes exactly the key; a failure changes nothing |
| RbacCache.Cache.DeleteByPattern | backend/src/common/utils/rbacCache.ts:42-51 | removes exactly the keys that PREFIX + pattern matches; a failure changes nothing |
| RbacCache.Cache.GetWorkspaceMembership | backend/src/common/utils/rbacCache.ts:57-63 | get on the ws_member key |
| RbacCache.Cache.SetWorkspaceMembership | backend/src/common/utils/rbacCache.ts:65-72 | set on the ws_member key for 60 s |
| RbacCache.Cache.GetBoardMembership | backend/src/common/utils/rbacCache.ts:78-84 | get on the board_member key |
| RbacCache.Cache.SetBoardMembership | backend/src/common/utils/rbacCache.ts:86-93 | set on the board_member key for 60 s |
| RbacCache.Cache.GetBoardInfo | backend/src/common/utils/rbacCache.ts:99-102 | get on the board_info key |
| RbacCache.Cache.SetBoardInfo | backend/src/common/utils/rbacCache.ts:104-111 | set on the board_info key, for 120 s by default |
| RbacCache.Cache.GetWorkspaceInfo | backend/src/common/utils/rbacCache.ts:117-120 | get on the workspace_info key |
| RbacCache.Cache.SetWorkspaceInfo | backend/src/common/utils/rbacCache.ts:122-129 | set on the workspace_info key, for 120 s by default |
| RbacCache.Cache.GetListBoardId | backend/src/common/utils/rbacCache.ts:167-170 | get on the list_board key |
| RbacCache.Cache.SetListBoardId | backend/src/common/utils/rbacCache.ts:172-175 | set on the list_board key for 300 s |
| RbacCache.Cache.GetCardBoardId | backend/src/common/utils/rbacCache.ts:181-184 | get on the card_board key |
| RbacCache.Cache.SetCardBoardId | backend/src/common/utils/rbacCache.ts:186-189 | set on the card_board key for 300 s |
| RbacCache.Cache.ClearUserCache | backend/src/common/utils/rbacCache.ts:131-133 | removes exactly the user's ws_member and board_member entries among the builder keys |
| RbacCache.Cache.ClearWorkspaceMembershipCache | backend/src/common/utils/rbacCache.ts:135-140 | removes exactly one key and leaves every other entry unchanged |
| RbacCache.Cache.ClearBoardMembershipCache | backend/src/common/utils/rbacCache.ts:142-147 | removes exactly one key and leaves every other entry unchanged |
| RbacCache.Cache.ClearBoardCache | backend/src/common/utils/rbacCache.ts:149-154 | removes the board's info and all its board_member entries; every other builder key, ws_member keys included, stays |
| RbacCache.Cache.ClearWorkspaceCache | backend/src/common/utils/rbacCache.ts:156-161 | removes the workspace's info and all its ws_member entries; every other builder key stays |
| RbacCache.Cache.ClearAll | backend/src/common/utils/rbacCache.ts:191-193 | afterwards no key starting with "rbac:" is left |
| RbacService.InfoOf | backend/src/common/utils/rbac.ts:319-339 | the board info exists exactly for a stored board, with that board's id, visibility, isClosed flag and workspace |
| RbacService.Stored | backend/src/common/utils/rbac.ts:344-428 | the datastore's answer for a key is the one value the datastore justifies there, in the form the provider caches |
| RbacService.Fetched | backend/src/common/utils/rbac.ts:315-428 | a cache-aside read differs from the datastore only when a live cached entry answers; it drops no entry, touches no other key, and writes only the datastore's value |
| RbacService.FetchCoherent | backend/src/common/utils/rbac.ts:315-428 | over a coherent cache a read yields the datastore's answer and keeps the cache coherent |
| RbacService.FetchRefreshes | backend/src/common/utils/rbac.ts:315-428 | a read refreshes the store at its own key only |
| RbacService.RefreshedElsewhere | backend/src/common/utils/rbac.ts:315-428 | after a refresh every key outside the looked-up ones holds the entry it held before |
| RbacService.RefreshedKeepsCoherent | backend/src/common/utils/rbac.ts:315-428 | a refresh keeps a coherent cache coherent |
| RbacService.FetchBoardFacts | backend/src/common/utils/rbac.ts:492-507 | no membership is read for an anonymous caller or a board not found |
| RbacService.BoardFactsRefresh | backend/src/common/utils/rbac.ts:492-507 | the board reads change the store only at the board-info key and, for a signed-in caller of a board found, its two membership keys |
| RbacService.BoardFactsCoherent | backend/src/common/utils/rbac.ts:492-507 | over a coherent cache the board reads yield the datastore's board and, when it exists, the caller's two roles, and keep the cache coherent |
| RbacService.WriteKeepsCoherent | backend/src/common/utils/rbac.ts:315-428 | writing a value the datastore justifies keeps the cache coherent |
| RbacService.RemovalKeepsCoherent | backend/src/common/utils/rbac.ts:700-719 | deleting entries keeps the cache coherent |
| RbacService.CoherenceLasts | backend/src/common/utils/rbacCache.ts:22-32 | entries only expire as time passes, so coherence lasts |
| RbacService.MembershipChangeThenClear | backend/src/common/utils/rbac.ts:700-711 | after a change to one membership in the datastore, clearCache(user, resource) makes the cache coherent again |
| RbacService.BoardChangeThenClear | backend/src/common/utils/rbac.ts:713-715 | after a change to one board's row, clearBoardCache makes the cache coherent again |
| RbacService.RemovedMembershipIsStale | backend/src/common/utils/rbac.ts:344-368 | without invalidation, a live cached membership that the datastore drops makes the cache incoherent |
| RbacService.RbacProvider.constructor | backend/src/common/utils/rbac.ts:300-307 | the provider reads the given datastore and uses the given cache |
| RbacService.RbacProvider.GetBoardInfo | backend/src/common/utils/rbac.ts:315-342 | the result and the new store are those of Fetched; a cache hit is returned as it is; on a miss the datastore's info is returned and cached for 120 s only when found; under coherence the answer is the datastore's, and coherence is kept |
| RbacService.RbacProvider.GetWorkspaceMembership | backend/src/common/utils/rbac.ts:344-368 | the same, for the workspace role, cached for 60 s |
| RbacService.RbacProvider.GetBoardMembership | backend/src/common/utils/rbac.ts:370-394 | the same, for the board role, cached for 60 s |
| RbacService.RbacProvider.GetBoardIdFromList | backend/src/common/utils/rbac.ts:396-411 | the same, for a list's board id, cached for 300 s |
| RbacService.RbacProvider.GetBoardIdFromCard | backend/src/common/utils/rbac.ts:413-428 | the same, for a card's board id, cached for 300 s |
| RbacService.RbacProvider.CanViewWorkspace | backend/src/common/utils/rbac.ts:430-486 | decides WorkspaceAccess on the workspace row read straight from the datastore and, for a signed-in caller of a live workspace, the membership Fetched reads, leaving Fetched's store; otherwise no membership and the cache untouched; under coherence, the decision uses the datastore's membership |
| RbacService.RbacProvider.CanViewBoard | backend/src/common/utils/rbac.ts:488-594 | decides BoardAccess on FetchBoardFacts and leaves its store, refreshed only at the keys looked up; under coherence, decides BoardAccess on the datastore's board and, for a signed-in caller, both of the caller's roles |
| RbacService.RbacProvider.HasWorkspacePermission | backend/src/common/utils/rbac.ts:596-612 | WorkspacePermission of the membership Fetched reads, leaving Fetched's store; under coherence, WorkspacePermission of the datastore's membership |
| RbacService.RbacProvider.HasBoardPermission | backend/src/common/utils/rbac.ts:614-648 | BoardPermission of FetchBoardFacts, leaving its store, refreshed only at the keys looked up; under coherence, BoardPermission of the datastore's board and roles |
| RbacService.RbacProvider.GetEffectiveBoardRole | backend/src/common/utils/rbac.ts:650-685 | EffectiveBoardRole of FetchBoardFacts, leaving its store, refreshed only at the keys looked up; under coherence, EffectiveBoardRole of the datastore's board and roles |
| RbacService.RbacProvider.ClearCache | backend/src/common/utils/rbac.ts:700-711 | with a user and a resource, removes that pair's two membership keys; with a user only, the user's entries; otherwise everything, even when only a resource is given; it never adds or changes an entry |
| RbacService.RbacProvider.ClearBoardCache | backend/src/common/utils/rbac.ts:713-715 | delegates to the cache's clearBoardCache |
| RbacService.RbacProvider.ClearWorkspaceCache | backend/src/common/utils/rbac.ts:717-719 | delegates to the cache's clearWorkspaceCache |

## Left out

- Redis itself is replaced by a map:
  - Its own expiry is a comparison with the explicit clock.
  - The server-side work of `KEYS` is `Glob.Match`, which gives meaning only to `*`. The other glob characters cannot occur, because the patterns are built from identifiers that exclude them.
- Concurrency is not modelled. The `Promise.all` fan-outs in `rbac.ts` and `rbacCache.ts` are sequential calls in the order written.
- `console.log`/`console.error` are not modelled.
- Partial Redis failures inside a single call (for example `KEYS` succeeding and `DEL` failing) are not modelled. Availability is one flag, fixed for a call.
- JSON serialisation of cached values is not modelled. A value of the wrong shape at a key reads as a miss; under coherence this cannot happen.
- Only the role of the cached `member` row object is kept (`rbac.ts:364`, `rbac.ts:390`).
- The TypeORM queries are map lookups.
  - A board is assumed to have its workspace. `board.entity.ts` is not part of this model, and a missing join would make `getBoardInfo` throw.
  - A role name read from the database is assumed to be one of the eleven roles, so the `|| []` fallback for an unknown role never applies.
  - `BoardVisibility` and `WorkspaceVisibility` are closed enumerations.
- `ROLE_DESCRIPTIONS` (`roles.ts:35-52`) is documentation text and is not modelled.
- `RbacCache.Cache.Set`: a ttl of 0 is treated as a failing call (Redis rejects `SETEX` with a non-positive expiry). Every caller passes 60, 120 or 300 s.
