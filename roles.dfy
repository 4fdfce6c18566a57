/**
 * The closed set of roles, their names, the coarse privilege levels and the
 * role groups of backend/src/common/constants/roles.ts.
 *
 * The levels here are the ones of the constants file (with ties); the stricter
 * ranking used for access decisions lives in RbacTables and is kept apart.
 */
module Roles {
  import opened Wrappers

  /** The eleven roles, one constructor per entry of ROLES. */
  datatype Role =
    | Admin
    | WorkspaceAdmin | WorkspaceModerator | WorkspaceMember | WorkspaceObserver
    | BoardOwner | BoardAdmin | BoardMember | BoardObserver
    | User | Guest

  /** The string value of each ROLES entry. */
  function Name(r: Role): string
  {
    match r
    case Admin => "admin"
    case WorkspaceAdmin => "workspace_admin"
    case WorkspaceModerator => "workspace_moderator"
    case WorkspaceMember => "workspace_member"
    case WorkspaceObserver => "workspace_observer"
    case BoardOwner => "board_owner"
    case BoardAdmin => "board_admin"
    case BoardMember => "board_member"
    case BoardObserver => "board_observer"
    case User => "user"
    case Guest => "guest"
  }

  /** The roles in the order in which ROLES declares them. */
  const AllRoles: seq<Role> := [
    Admin,
    WorkspaceAdmin, WorkspaceModerator, WorkspaceMember, WorkspaceObserver,
    BoardOwner, BoardAdmin, BoardMember, BoardObserver,
    User, Guest
  ]

  /** Object.values(ROLES): the role strings in declaration order. */
  function RoleValues(): (vs: seq<string>)
    ensures |vs| == |AllRoles|
    ensures forall i :: 0 <= i < |vs| ==> vs[i] == Name(AllRoles[i])
  {
    seq(|AllRoles|, i requires 0 <= i < |AllRoles| => Name(AllRoles[i]))
  }

  /** isValidRole: the string is one of the ROLES values. */
  predicate IsValidRole(s: string)
  {
    s in RoleValues()
  }

  /** Position of a role in AllRoles. */
  function Index(r: Role): (i: nat)
    ensures i < |AllRoles| && AllRoles[i] == r
  {
    match r
    case Admin => 0
    case WorkspaceAdmin => 1
    case WorkspaceModerator => 2
    case WorkspaceMember => 3
    case WorkspaceObserver => 4
    case BoardOwner => 5
    case BoardAdmin => 6
    case BoardMember => 7
    case BoardObserver => 8
    case User => 9
    case Guest => 10
  }

  /** Reads a role string back; the inverse of Name. */
  function Parse(s: string): (r: Option<Role>)
    ensures r.Some? ==> Name(r.value) == s
  {
    if s == "admin" then Some(Admin)
    else if s == "workspace_admin" then Some(WorkspaceAdmin)
    else if s == "workspace_moderator" then Some(WorkspaceModerator)
    else if s == "workspace_member" then Some(WorkspaceMember)
    else if s == "workspace_observer" then Some(WorkspaceObserver)
    else if s == "board_owner" then Some(BoardOwner)
    else if s == "board_admin" then Some(BoardAdmin)
    else if s == "board_member" then Some(BoardMember)
    else if s == "board_observer" then Some(BoardObserver)
    else if s == "user" then Some(User)
    else if s == "guest" then Some(Guest)
    else None
  }

  /** Every role name reads back as that role, so the role strings are pairwise distinct. */
  lemma ParseName(r: Role)
    ensures Parse(Name(r)) == Some(r)
  {
  }

  lemma NameInjective(r1: Role, r2: Role)
    ensures Name(r1) == Name(r2) <==> r1 == r2
  {
    ParseName(r1);
    ParseName(r2);
  }

  /** isValidRole(s) holds exactly when s is the name of one of the eleven roles. */
  lemma IsValidRoleExactly(s: string)
    ensures IsValidRole(s) <==> exists r :: Name(r) == s
    ensures IsValidRole(s) <==> Parse(s).Some?
  {
    if IsValidRole(s) {
      var i :| 0 <= i < |RoleValues()| && RoleValues()[i] == s;
      assert Name(AllRoles[i]) == s;
      ParseName(AllRoles[i]);
    }
    if r :| Name(r) == s {
      assert RoleValues()[Index(r)] == s;
    }
  }

  /** ROLE_HIERARCHY of the constants file: higher number, more privileges. */
  function Level(r: Role): (n: nat)
    ensures 1 <= n <= 10
  {
    match r
    case Guest => 1
    case User => 2
    case BoardObserver => 3
    case BoardMember => 4
    case BoardAdmin => 5
    case BoardOwner => 6
    case WorkspaceObserver => 3
    case WorkspaceMember => 4
    case WorkspaceModerator => 5
    case WorkspaceAdmin => 7
    case Admin => 10
  }

  /** hasHigherOrEqualPrivilege. */
  predicate HasHigherOrEqualPrivilege(r1: Role, r2: Role)
  {
    Level(r1) >= Level(r2)
  }

  /** The comparison is a total preorder: reflexive, total and transitive. */
  lemma PrivilegeIsTotalPreorder(r1: Role, r2: Role, r3: Role)
    ensures HasHigherOrEqualPrivilege(r1, r1)
    ensures HasHigherOrEqualPrivilege(r1, r2) || HasHigherOrEqualPrivilege(r2, r1)
    ensures HasHigherOrEqualPrivilege(r1, r2) && HasHigherOrEqualPrivilege(r2, r3) ==> HasHigherOrEqualPrivilege(r1, r3)
  {
  }

  /** ... but not antisymmetric: the two observer roles share level 3, and so do several other pairs. */
  lemma PrivilegeNotAntisymmetric()
    ensures HasHigherOrEqualPrivilege(BoardObserver, WorkspaceObserver)
    ensures HasHigherOrEqualPrivilege(WorkspaceObserver, BoardObserver)
    ensures BoardObserver != WorkspaceObserver
    ensures Level(BoardAdmin) == Level(WorkspaceModerator) && Level(BoardMember) == Level(WorkspaceMember)
  {
  }

  /** The system administrator has the top level, so it is at least as privileged as every role. */
  lemma AdminIsTop(r: Role)
    ensures HasHigherOrEqualPrivilege(Admin, r)
    ensures r != Admin ==> !HasHigherOrEqualPrivilege(r, Admin)
  {
  }

  /** The keys of ROLE_GROUPS. */
  datatype RoleGroup = System | Workspace | Board | Basic

  /** ROLE_GROUPS: the roles listed under each group, in the source's order. */
  function GroupMembers(g: RoleGroup): seq<Role>
  {
    match g
    case System => [Admin]
    case Workspace => [WorkspaceAdmin, WorkspaceModerator, WorkspaceMember, WorkspaceObserver]
    case Board => [BoardOwner, BoardAdmin, BoardMember, BoardObserver]
    case Basic => [User, Guest]
  }

  /** The group a role is listed under. */
  function GroupOf(r: Role): RoleGroup
  {
    match r
    case Admin => System
    case WorkspaceAdmin | WorkspaceModerator | WorkspaceMember | WorkspaceObserver => Workspace
    case BoardOwner | BoardAdmin | BoardMember | BoardObserver => Board
    case User | Guest => Basic
  }

  /** ROLE_GROUPS is a partition: each role is listed once, and under exactly one group. */
  lemma RoleGroupsPartition(r: Role, g: RoleGroup)
    ensures r in GroupMembers(g) <==> g == GroupOf(r)
    ensures forall i, j :: 0 <= i < j < |GroupMembers(g)| ==> GroupMembers(g)[i] != GroupMembers(g)[j]
  {
  }

  /** Read together, in ROLE_GROUPS order, the groups list exactly the roles of ROLES in declaration order. */
  lemma RoleGroupsCoverAllRoles()
    ensures GroupMembers(System) + GroupMembers(Workspace) + GroupMembers(Board) + GroupMembers(Basic) == AllRoles
  {
  }

  /** AllRoles lists every role exactly once. */
  lemma AllRolesDistinct()
    ensures forall r :: r in AllRoles
    ensures forall i, j :: 0 <= i < j < |AllRoles| ==> AllRoles[i] != AllRoles[j]
  {
    forall r
      ensures r in AllRoles
    {
      assert AllRoles[Index(r)] == r;
    }
    forall i, j | 0 <= i < j < |AllRoles|
      ensures AllRoles[i] != AllRoles[j]
    {
      assert Index(AllRoles[i]) == i && Index(AllRoles[j]) == j;
    }
  }

  /** "Higher number = more privileges" inside the workspace and board groups. */
  lemma LevelsDecreaseWithinGroups()
    ensures Level(WorkspaceAdmin) > Level(WorkspaceModerator) > Level(WorkspaceMember) > Level(WorkspaceObserver)
    ensures Level(BoardOwner) > Level(BoardAdmin) > Level(BoardMember) > Level(BoardObserver)
    ensures forall i, j :: 0 <= i < j < |GroupMembers(Workspace)| ==>
              Level(GroupMembers(Workspace)[i]) > Level(GroupMembers(Workspace)[j])
    ensures forall i, j :: 0 <= i < j < |GroupMembers(Board)| ==>
              Level(GroupMembers(Board)[i]) > Level(GroupMembers(Board)[j])
  {
  }

  /** getDefaultUserRole. */
  function DefaultUserRole(): (r: Role)
    ensures r in GroupMembers(Basic)
  {
    User
  }

  /** getDefaultWorkspaceRole. */
  function DefaultWorkspaceRole(): (r: Role)
    ensures r in GroupMembers(Workspace)
  {
    WorkspaceMember
  }

  /** getDefaultBoardRole. */
  function DefaultBoardRole(): (r: Role)
    ensures r in GroupMembers(Board)
  {
    BoardMember
  }
}
