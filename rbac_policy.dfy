/**
 * The decisions of RBACProvider (backend/src/common/utils/rbac.ts) once the facts they
 * depend on have been fetched: the workspace or board row, and the caller's workspace
 * and board memberships. Fetching those facts, through the cache, is RbacService's job;
 * here every decision is a function of them.
 */
module RbacPolicy {
  import opened Wrappers
  import opened Ids
  import opened Roles
  import opened Permissions
  import opened RbacTables

  /** BoardVisibility: 'private' | 'workspace' | 'public'. */
  datatype BoardVisibility = PrivateBoard | WorkspaceBoard | PublicBoard

  /** WorkspaceVisibility: 'private' | 'public'. */
  datatype WorkspaceVisibility = PrivateWorkspace | PublicWorkspace

  /** CachedBoardInfo: the board columns an access decision needs. */
  datatype BoardInfo = BoardInfo(id: Id, visibility: BoardVisibility, isClosed: bool, workspaceId: Id)

  /** The columns canViewWorkspace selects from the workspace row. */
  datatype WorkspaceRow = WorkspaceRow(visibility: WorkspaceVisibility, isArchived: bool)

  /** UserContext; an absent optional field is None. */
  datatype UserContext = UserContext(
    userId: Id,
    workspaceRole: Option<Role>,
    boardRole: Option<Role>,
    isWorkspaceMember: bool,
    isBoardMember: bool)

  /** The reasons an access check gives when it denies. */
  datatype Denial =
    | WorkspaceNotFound | WorkspaceArchived | AuthenticationRequired | NotWorkspaceMember
    | BoardNotFound | BoardClosed | NotAuthorizedForBoard

  /** The reason string returned for each denial. */
  function Message(d: Denial): string
  {
    match d
    case WorkspaceNotFound => "Workspace not found"
    case WorkspaceArchived => "Workspace is archived"
    case AuthenticationRequired => "Authentication required"
    case NotWorkspaceMember => "Not a workspace member"
    case BoardNotFound => "Board not found"
    case BoardClosed => "Board is closed"
    case NotAuthorizedForBoard => "Not authorized to view this board"
  }

  /** AccessResult, with the reason kept as a Denial (its text is Message). */
  datatype AccessResult = AccessResult(allowed: bool, reason: Option<Denial>, userContext: Option<UserContext>)

  function Deny(d: Denial): AccessResult
  {
    AccessResult(false, Some(d), None)
  }

  function Allow(ctx: Option<UserContext>): AccessResult
  {
    AccessResult(true, None, ctx)
  }

  /** The adminRoles list of canViewBoard and getEffectiveBoardRole. */
  const ManagerRoles: seq<Role> := [WorkspaceAdmin, WorkspaceModerator]

  /** A workspace membership whose role is in adminRoles. */
  predicate IsManager(wm: Option<Role>)
  {
    wm.Some? && wm.value in ManagerRoles
  }

  /** The context canViewBoard attaches for a signed-in caller with the given memberships. */
  function BoardContext(u: Id, bm: Option<Role>, wm: Option<Role>): UserContext
  {
    UserContext(u, wm, bm, wm.Some?, bm.Some?)
  }

  /**
   * canViewWorkspace over the fetched workspace row and the caller's workspace membership
   * (the membership is only consulted when there is a caller).
   */
  function WorkspaceAccess(user: Option<Id>, ws: Option<WorkspaceRow>, membership: Option<Role>): (r: AccessResult)
    // the two existence checks come before anything else
    ensures ws.None? ==> r == Deny(WorkspaceNotFound)
    ensures ws.Some? && ws.value.isArchived ==> r == Deny(WorkspaceArchived)
    // the policy: a live workspace that is public, or whose member is asking
    ensures r.allowed <==>
              ws.Some? && !ws.value.isArchived &&
              (ws.value.visibility == PublicWorkspace || (user.Some? && membership.Some?))
    ensures r.allowed ==> r.reason.None?
    ensures !r.allowed ==> r.reason.Some? && r.userContext.None?
    // the private-workspace denials
    ensures ws.Some? && !ws.value.isArchived && ws.value.visibility == PrivateWorkspace ==>
              (user.None? ==> r == Deny(AuthenticationRequired)) &&
              (user.Some? && membership.None? ==> r == Deny(NotWorkspaceMember))
    // a context exactly for a member, naming the workspace role only
    ensures r.userContext.Some? <==> r.allowed && user.Some? && membership.Some?
    ensures r.userContext.Some? ==>
              r.userContext.value == UserContext(user.value, membership, None, true, false)
  {
    if ws.None? then Deny(WorkspaceNotFound)
    else if ws.value.isArchived then Deny(WorkspaceArchived)
    else if ws.value.visibility == PublicWorkspace then
      if user.Some? then
        Allow(if membership.Some? then Some(UserContext(user.value, membership, None, true, false)) else None)
      else Allow(None)
    else if user.None? then Deny(AuthenticationRequired)
    else if membership.None? then Deny(NotWorkspaceMember)
    else Allow(Some(UserContext(user.value, membership, None, true, false)))
  }

  /**
   * Who may see a board that exists, stated without the order of the checks: a closed
   * board only to a board member or a workspace manager; otherwise a public board to
   * everyone, and any other board to a signed-in board member, to a workspace manager,
   * or, on a 'workspace' board, to any workspace member.
   */
  predicate MaySeeBoard(user: Option<Id>, b: BoardInfo, bm: Option<Role>, wm: Option<Role>)
  {
    (b.isClosed ==> user.Some? && (bm.Some? || IsManager(wm))) &&
    (b.visibility == PublicBoard ||
     (user.Some? && (bm.Some? || IsManager(wm) || (b.visibility == WorkspaceBoard && wm.Some?))))
  }

  /**
   * canViewBoard over the fetched board info and the caller's board and workspace
   * memberships. Without a caller no membership is fetched, so bm and wm are then ignored.
   */
  function BoardAccess(user: Option<Id>, board: Option<BoardInfo>, bm: Option<Role>, wm: Option<Role>): (r: AccessResult)
    ensures board.None? ==> r == Deny(BoardNotFound)
    ensures r.allowed <==> board.Some? && MaySeeBoard(user, board.value, bm, wm)
    ensures r.allowed ==> r.reason.None?
    ensures !r.allowed ==> r.reason.Some? && r.userContext.None?
    // closed boards, whatever the visibility
    ensures r == Deny(BoardClosed) <==>
              board.Some? && board.value.isClosed && (user.None? || (bm.None? && !IsManager(wm)))
    // the rest of the ladder
    ensures board.Some? && !r.allowed && r.reason != Some(BoardClosed) ==>
              board.value.visibility != PublicBoard &&
              r.reason == Some(if user.None? then AuthenticationRequired else NotAuthorizedForBoard)
    // a signed-in caller who is let in gets the context of both memberships; nobody else gets one
    ensures r.userContext.Some? <==> r.allowed && user.Some?
    ensures r.userContext.Some? ==> r.userContext.value == BoardContext(user.value, bm, wm)
  {
    var bm := if user.Some? then bm else None;
    var wm := if user.Some? then wm else None;
    if board.None? then Deny(BoardNotFound)
    else
      var b := board.value;
      if b.isClosed && (user.None? || (bm.None? && !IsManager(wm))) then Deny(BoardClosed)
      else if b.visibility == PublicBoard then
        Allow(if user.Some? then Some(BoardContext(user.value, bm, wm)) else None)
      else if user.None? then Deny(AuthenticationRequired)
      else if b.visibility == WorkspaceBoard && wm.Some? then
        Allow(Some(UserContext(user.value, wm, bm, true, bm.Some?)))
      else if bm.Some? then
        Allow(Some(UserContext(user.value, wm, bm, wm.Some?, true)))
      else if IsManager(wm) then
        Allow(Some(UserContext(user.value, wm, None, true, false)))
      else Deny(NotAuthorizedForBoard)
  }

  /** hasWorkspacePermission over the caller's workspace membership. */
  function WorkspacePermission(wm: Option<Role>, p: Permission): (ok: bool)
    ensures ok <==> exists r :: wm == Some(r) && p in RolePermissions(r)
  {
    wm.Some? && RoleHasPermission(wm.value, p)
  }

  /**
   * hasBoardPermission over the fetched board info and both memberships: the union of
   * what the board role and the workspace role grant, and nothing on a missing board.
   */
  function BoardPermission(board: Option<BoardInfo>, bm: Option<Role>, wm: Option<Role>, p: Permission): (ok: bool)
    ensures ok <==> board.Some? && ((bm.Some? && p in RolePermissions(bm.value)) || (wm.Some? && p in RolePermissions(wm.value)))
    ensures ok <==> board.Some? && (WorkspacePermission(bm, p) || WorkspacePermission(wm, p))
  {
    if board.None? then false
    else
      var boardPermissions := if bm.Some? then RolePermissions(bm.value) else [];
      var workspacePermissions := if wm.Some? then RolePermissions(wm.value) else [];
      p in boardPermissions || p in workspacePermissions
  }

  /** getEffectiveBoardRole over the fetched board info and both memberships. */
  function EffectiveBoardRole(board: Option<BoardInfo>, bm: Option<Role>, wm: Option<Role>): (r: Option<Role>)
    // a role exactly when the board exists and the caller is a board member, a workspace
    // manager, or a workspace member of a 'workspace' board
    ensures r.Some? <==>
              board.Some? && (bm.Some? || IsManager(wm) || (board.value.visibility == WorkspaceBoard && wm.Some?))
    // it is one of the caller's roles, and the highest-ranked of them
    ensures r.Some? ==> r == bm || r == wm
    ensures r.Some? && bm.Some? ==> Rank(bm.value) <= Rank(r.value)
    ensures r.Some? && wm.Some? ==> Rank(wm.value) <= Rank(r.value)
  {
    if board.None? then None
    else if IsManager(wm) then GetHigherRole(wm, bm)
    else if bm.Some? then GetHigherRole(bm, wm)
    else if board.value.visibility == WorkspaceBoard && wm.Some? then wm
    else None
  }

  /** An archived workspace is denied to everyone, its members included. */
  lemma ArchivedWorkspaceDeniedToAll(user: Option<Id>, v: WorkspaceVisibility, membership: Option<Role>)
    ensures WorkspaceAccess(user, Some(WorkspaceRow(v, true)), membership) == Deny(WorkspaceArchived)
    ensures Message(WorkspaceAccess(user, Some(WorkspaceRow(v, true)), membership).reason.value) == "Workspace is archived"
  {
  }

  /** A public, live workspace admits anonymous callers, with no context. */
  lemma PublicWorkspaceAdmitsAnonymous(ws: WorkspaceRow, membership: Option<Role>)
    requires ws.visibility == PublicWorkspace && !ws.isArchived
    ensures WorkspaceAccess(None, Some(ws), membership) == Allow(None)
  {
  }

  /** Joining a workspace never takes access away, nor does signing in. */
  lemma WorkspaceAccessMonotone(user: Option<Id>, u: Id, ws: Option<WorkspaceRow>, r: Role, membership: Option<Role>)
    ensures WorkspaceAccess(user, ws, None).allowed ==> WorkspaceAccess(user, ws, Some(r)).allowed
    ensures WorkspaceAccess(None, ws, None).allowed ==> WorkspaceAccess(Some(u), ws, membership).allowed
  {
  }

  /** Anonymous callers see exactly the open public boards. */
  lemma AnonymousBoardAccess(board: BoardInfo, bm: Option<Role>, wm: Option<Role>)
    ensures BoardAccess(None, Some(board), bm, wm).allowed <==> board.visibility == PublicBoard && !board.isClosed
    ensures board.isClosed ==> BoardAccess(None, Some(board), bm, wm) == Deny(BoardClosed)
    ensures !board.isClosed && board.visibility != PublicBoard ==>
              BoardAccess(None, Some(board), bm, wm) == Deny(AuthenticationRequired)
  {
  }

  /** Gaining a board membership, a workspace membership or a manager role never takes board access away. */
  lemma BoardAccessMonotone(user: Option<Id>, board: Option<BoardInfo>, bm: Option<Role>, wm: Option<Role>, b: Role, w: Role)
    ensures BoardAccess(user, board, None, wm).allowed ==> BoardAccess(user, board, Some(b), wm).allowed
    ensures BoardAccess(user, board, bm, None).allowed ==> BoardAccess(user, board, bm, Some(w)).allowed
    ensures BoardAccess(user, board, bm, wm).allowed && w in ManagerRoles ==>
              BoardAccess(user, board, bm, Some(w)).allowed
  {
  }

  /** Signing in never takes board access away. */
  lemma SigningInKeepsBoardAccess(u: Id, board: Option<BoardInfo>, bm: Option<Role>, wm: Option<Role>)
    ensures BoardAccess(None, board, bm, wm).allowed ==> BoardAccess(Some(u), board, bm, wm).allowed
  {
  }

  /** A workspace moderator who is also a board observer acts as the workspace moderator. */
  lemma ModeratorOverridesBoardObserver(b: BoardInfo)
    ensures EffectiveBoardRole(Some(b), Some(BoardObserver), Some(WorkspaceModerator)) == Some(WorkspaceModerator)
  {
  }

  /**
   * For a non-manager workspace member with a board membership the higher-ranked role wins,
   * not the board role: a workspace member outranks a board member.
   */
  lemma WorkspaceMemberOutranksBoardMember(b: BoardInfo)
    ensures EffectiveBoardRole(Some(b), Some(BoardMember), Some(WorkspaceMember)) == Some(WorkspaceMember)
  {
  }

  /** Whatever the effective role allows, hasBoardPermission allows too. */
  lemma EffectiveRoleWithinBoardPermission(board: Option<BoardInfo>, bm: Option<Role>, wm: Option<Role>, p: Permission)
    requires EffectiveBoardRole(board, bm, wm).Some?
    requires RoleHasPermission(EffectiveBoardRole(board, bm, wm).value, p)
    ensures BoardPermission(board, bm, wm, p)
  {
  }

  /**
   * ... but not the other way round: a board owner who is also a workspace moderator acts
   * as the moderator, which may not delete the board, although hasBoardPermission allows it
   * through the board role.
   */
  lemma EffectiveRoleUnderstatesBoardPermission(b: BoardInfo)
    ensures EffectiveBoardRole(Some(b), Some(BoardOwner), Some(WorkspaceModerator)) == Some(WorkspaceModerator)
    ensures !RoleHasPermission(WorkspaceModerator, BoardsDelete)
    ensures BoardPermission(Some(b), Some(BoardOwner), Some(WorkspaceModerator), BoardsDelete)
  {
    RankDoesNotOrderPermissions();
  }

  /** On an open board, whoever has an effective role may view the board. */
  lemma EffectiveRoleCanView(u: Id, b: BoardInfo, bm: Option<Role>, wm: Option<Role>)
    requires !b.isClosed
    requires EffectiveBoardRole(Some(b), bm, wm).Some?
    ensures BoardAccess(Some(u), Some(b), bm, wm).allowed
  {
  }

  /**
   * On a closed board that is not the case: a plain workspace member of a 'workspace' board
   * keeps an effective role but is told the board is closed.
   */
  lemma ClosedBoardKeepsEffectiveRole(u: Id, b: BoardInfo)
    requires b.isClosed && b.visibility == WorkspaceBoard
    ensures EffectiveBoardRole(Some(b), None, Some(WorkspaceMember)) == Some(WorkspaceMember)
    ensures BoardAccess(Some(u), Some(b), None, Some(WorkspaceMember)) == Deny(BoardClosed)
  {
  }
}
