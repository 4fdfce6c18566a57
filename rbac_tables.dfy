/**
 * The tables and static helpers of backend/src/common/utils/rbac.ts: the stricter role
 * ranking used for access decisions, the fixed role-to-permission table and the
 * helpers built on them (getHigherRole, roleHasPermission, getRolePermissions,
 * compareRoles).
 *
 * This ranking is not the one of Roles.Level: here every role has its own rank.
 */
module RbacTables {
  import opened Wrappers
  import opened Roles
  import opened Permissions

  /** ROLE_HIERARCHY of rbac.ts. */
  function Rank(r: Role): (n: nat)
    ensures 10 <= n <= 100
  {
    match r
    case Admin => 100
    case WorkspaceAdmin => 90
    case WorkspaceModerator => 80
    case BoardOwner => 75
    case BoardAdmin => 70
    case WorkspaceMember => 60
    case BoardMember => 50
    case WorkspaceObserver => 40
    case BoardObserver => 30
    case User => 20
    case Guest => 10
  }

  /** No two roles share a rank, so the ranking is a strict total order on roles. */
  lemma RanksDistinct(a: Role, b: Role)
    ensures Rank(a) == Rank(b) <==> a == b
  {
  }

  /** The two hierarchies disagree: the board owner ranks below the workspace moderator
      here, and above it in the constants file. */
  lemma HierarchiesDisagree()
    ensures Rank(BoardOwner) < Rank(WorkspaceModerator)
    ensures Level(BoardOwner) > Level(WorkspaceModerator)
  {
  }

  /** ROLE_PERMISSIONS, read through getRolePermissions: the permissions each role holds,
      in the table's order. The system administrator holds every permission; every other
      row lists its resources in the order of RowGroups, each resource with RowActions. */
  function RolePermissions(r: Role): (ps: seq<Permission>)
    ensures r == Role.Admin ==> ps == AllPermissions
  {
    if r == Role.Admin then AllPermissions else RowPrefix(r, |RowGroups|)
  }

  /** The resources in the order in which every row other than admin's lists them. */
  const RowGroups: seq<PermissionGroup> :=
    [Workspaces, Boards, Members, Lists, Cards, Comments, Labels, Checklists, Attachments, Users,
     Notifications, Reports, PermissionGroup.System]

  /** The position of a resource in RowGroups. */
  function GroupIndex(g: PermissionGroup): (n: nat)
    ensures n < |RowGroups| && RowGroups[n] == g
  {
    match g
    case Workspaces => 0 case Boards => 1 case Members => 2 case Lists => 3 case Cards => 4
    case Comments => 5 case Labels => 6 case Checklists => 7 case Attachments => 8 case Users => 9
    case Notifications => 10 case Reports => 11 case System => 12
  }

  /** RowGroups names each resource once: a position holds the resource whose index it is. */
  lemma RowGroupsIndexed(k: nat)
    requires k < |RowGroups|
    ensures GroupIndex(RowGroups[k]) == k
  {
  }

  /** The actions a role other than the system administrator holds on one resource, in
      the order its row of ROLE_PERMISSIONS lists them. */
  function RowActions(r: Role, g: PermissionGroup): seq<Action>
  {
    match r
    case WorkspaceAdmin => WorkspaceAdminActions(g)
    case WorkspaceModerator => WorkspaceModeratorActions(g)
    case WorkspaceMember => WorkspaceMemberActions(g)
    case WorkspaceObserver => WorkspaceObserverActions(g)
    case BoardOwner => BoardOwnerActions(g)
    case BoardAdmin => BoardAdminActions(g)
    case BoardMember => BoardMemberActions(g)
    case BoardObserver => BoardObserverActions(g)
    case User => UserActions(g)
    case Guest => GuestActions(g)
    case Admin => []
  }

  /** The WorkspaceAdmin row: manages the workspace. */
  function WorkspaceAdminActions(g: PermissionGroup): seq<Action>
  {
    match g
    case Workspaces => [Read, Update, Delete, Manage]
    case Boards => [Create, Read, Update, Delete, Manage]
    case Members => [Invite, Remove, Read, Manage]
    case Lists => [Create, Read, Update, Delete, Archive]
    case Cards => [Create, Read, Update, Delete, Assign, Move, Archive]
    case Comments => [Create, Read, Update, Delete, Moderate]
    case Labels => [Create, Read, Update, Delete]
    case Checklists => [Create, Read, Update, Delete]
    case Attachments => [Create, Read, Delete]
    case _ => []
  }

  /** The WorkspaceModerator row: moderates content. */
  function WorkspaceModeratorActions(g: PermissionGroup): seq<Action>
  {
    match g
    case Workspaces => [Read]
    case Boards => [Create, Read, Update]
    case Members => [Invite, Read]
    case Lists => [Create, Read, Update, Delete, Archive]
    case Cards => [Create, Read, Update, Delete, Assign, Move, Archive]
    case Comments => [Create, Read, Update, Delete, Moderate]
    case Labels => [Create, Read, Update, Delete]
    case Checklists => [Create, Read, Update, Delete]
    case Attachments => [Create, Read, Delete]
    case _ => []
  }

  /** The WorkspaceMember row: standard workspace member. */
  function WorkspaceMemberActions(g: PermissionGroup): seq<Action>
  {
    match g
    case Workspaces => [Read]
    case Boards => [Create, Read]
    case Members => [Read]
    case Lists => [Create, Read, Update]
    case Cards => [Create, Read, Update, Assign, Move]
    case Comments => [Create, Read, Update]
    case Labels => [Read]
    case Checklists => [Create, Read, Update]
    case Attachments => [Create, Read]
    case _ => []
  }

  /** The WorkspaceObserver row: view only. */
  function WorkspaceObserverActions(g: PermissionGroup): seq<Action>
  {
    match g
    case Workspaces => [Read]
    case Boards => [Read]
    case Members => [Read]
    case Lists => [Read]
    case Cards => [Read]
    case Comments => [Read]
    case Labels => [Read]
    case Checklists => [Read]
    case Attachments => [Read]
    case _ => []
  }

  /** The BoardOwner row: full board control. */
  function BoardOwnerActions(g: PermissionGroup): seq<Action>
  {
    match g
    case Boards => [Read, Update, Delete, Manage]
    case Members => [Invite, Remove, Read, Manage]
    case Lists => [Create, Read, Update, Delete, Archive]
    case Cards => [Create, Read, Update, Delete, Assign, Move, Archive]
    case Comments => [Create, Read, Update, Delete, Moderate]
    case Labels => [Create, Read, Update, Delete]
    case Checklists => [Create, Read, Update, Delete]
    case Attachments => [Create, Read, Delete]
    case _ => []
  }

  /** The BoardAdmin row: manages the board. */
  function BoardAdminActions(g: PermissionGroup): seq<Action>
  {
    match g
    case Boards => [Read, Update]
    case Members => [Invite, Remove, Read]
    case Lists => [Create, Read, Update, Delete, Archive]
    case Cards => [Create, Read, Update, Delete, Assign, Move, Archive]
    case Comments => [Create, Read, Update, Delete]
    case Labels => [Create, Read, Update, Delete]
    case Checklists => [Create, Read, Update, Delete]
    case Attachments => [Create, Read, Delete]
    case _ => []
  }

  /** The BoardMember row: standard board member. */
  function BoardMemberActions(g: PermissionGroup): seq<Action>
  {
    match g
    case Boards => [Read]
    case Members => [Read]
    case Lists => [Create, Read, Update]
    case Cards => [Create, Read, Update, Assign, Move]
    case Comments => [Create, Read, Update]
    case Labels => [Read]
    case Checklists => [Create, Read, Update]
    case Attachments => [Create, Read]
    case _ => []
  }

  /** The BoardObserver row: view only. */
  function BoardObserverActions(g: PermissionGroup): seq<Action>
  {
    match g
    case Boards => [Read]
    case Members => [Read]
    case Lists => [Read]
    case Cards => [Read]
    case Comments => [Read]
    case Labels => [Read]
    case Checklists => [Read]
    case Attachments => [Read]
    case _ => []
  }

  /** The User row: regular user. */
  function UserActions(g: PermissionGroup): seq<Action>
  {
    match g
    case Workspaces => [Create, Read]
    case Boards => [Read]
    case Users => [Read, Update]
    case _ => []
  }

  /** The Guest row: very limited. */
  function GuestActions(g: PermissionGroup): seq<Action>
  {
    match g
    case Boards => [Read]
    case Cards => [Read]
    case _ => []
  }

  /** The permissions on one resource with the given actions, in their order. */
  function OfGroup(g: PermissionGroup, acts: seq<Action>): (ps: seq<Permission>)
    ensures |ps| == |acts|
  {
    seq(|acts|, i requires 0 <= i < |acts| => Permission(g, acts[i]))
  }

  /** A permission is on OfGroup(g, acts) exactly when it is on resource g with one of the actions. */
  lemma OfGroupMembership(g: PermissionGroup, acts: seq<Action>, p: Permission)
    ensures p in OfGroup(g, acts) <==> p.group == g && p.action in acts
  {
    if p.group == g && p.action in acts {
      var i :| 0 <= i < |acts| && acts[i] == p.action;
      assert OfGroup(g, acts)[i] == p;
    }
  }

  /** The entries of a row for its first n resources of RowGroups. */
  function RowPrefix(r: Role, n: nat): seq<Permission>
    requires n <= |RowGroups|
  {
    if n == 0 then [] else RowPrefix(r, n - 1) + OfGroup(RowGroups[n - 1], RowActions(r, RowGroups[n - 1]))
  }

  /** A permission is on a row's first n resources exactly when its resource is among them
      and its action is listed for that resource. */
  lemma {:induction false} RowPrefixMembership(r: Role, n: nat, p: Permission)
    requires n <= |RowGroups|
    ensures p in RowPrefix(r, n) <==> GroupIndex(p.group) < n && p.action in RowActions(r, p.group)
  {
    if n > 0 {
      RowPrefixMembership(r, n - 1, p);
      RowGroupsIndexed(n - 1);
      OfGroupMembership(RowGroups[n - 1], RowActions(r, RowGroups[n - 1]), p);
    }
  }

  /** A role other than admin holds a permission exactly when its row lists the action for
      the permission's resource. */
  lemma RowMembership(r: Role, p: Permission)
    requires r != Role.Admin
    ensures p in RolePermissions(r) <==> p.action in RowActions(r, p.group)
  {
    RowPrefixMembership(r, |RowGroups|, p);
  }

  /** No action occurs twice on the list. */
  predicate DistinctActions(acts: seq<Action>)
  {
    forall i, j :: 0 <= i < j < |acts| ==> acts[i] != acts[j]
  }

  /** Distinct actions on one resource give distinct permissions. */
  lemma OfGroupDistinct(g: PermissionGroup, acts: seq<Action>)
    requires DistinctActions(acts)
    ensures Distinct(OfGroup(g, acts))
  {
  }

  /** Two lists without repeats and without a common entry join to a list without repeats. */
  lemma AppendDistinct(xs: seq<Permission>, ys: seq<Permission>)
    requires Distinct(xs) && Distinct(ys)
    requires forall p :: p in xs ==> p !in ys
    ensures Distinct(xs + ys)
  {
    var all := xs + ys;
    forall i, j | 0 <= i < j < |all|
      ensures all[i] != all[j]
    {
      if i < |xs| && |xs| <= j {
        assert all[i] in xs && all[j] == ys[j - |xs|];
      }
    }
  }

  /** A row's prefix repeats no entry when no resource lists an action twice. */
  lemma {:induction false} RowPrefixDistinct(r: Role, n: nat)
    requires n <= |RowGroups|
    requires forall g :: DistinctActions(RowActions(r, g))
    ensures Distinct(RowPrefix(r, n))
  {
    if n > 0 {
      var g := RowGroups[n - 1];
      RowPrefixDistinct(r, n - 1);
      OfGroupDistinct(g, RowActions(r, g));
      RowGroupsIndexed(n - 1);
      forall p | p in RowPrefix(r, n - 1)
        ensures p !in OfGroup(g, RowActions(r, g))
      {
        RowPrefixMembership(r, n - 1, p);
        OfGroupMembership(g, RowActions(r, g), p);
      }
      AppendDistinct(RowPrefix(r, n - 1), OfGroup(g, RowActions(r, g)));
    }
  }

  /** No resource of the table lists an action twice. */
  lemma RowActionsDistinct(r: Role, g: PermissionGroup)
    ensures DistinctActions(RowActions(r, g))
  {
  }

  /** Every action the table lists is declared for its resource. */
  lemma RowActionsDeclared(r: Role, g: PermissionGroup)
    ensures forall i :: 0 <= i < |RowActions(r, g)| ==> Declared(Permission(g, RowActions(r, g)[i]))
  {
  }

  /** Every row is non-empty, holds only declared permissions, and lists none of them twice. */
  lemma RolePermissionsWellFormed(r: Role)
    ensures |RolePermissions(r)| > 0
    ensures forall i :: 0 <= i < |RolePermissions(r)| ==> Declared(RolePermissions(r)[i])
    ensures Distinct(RolePermissions(r))
  {
    var ps := RolePermissions(r);
    if r == Role.Admin {
      AllPermissionsDistinct();
      forall i | 0 <= i < |AllPermissions|
        ensures Declared(AllPermissions[i])
      {
        ListedExactlyWhenDeclared(AllPermissions[i]);
      }
    } else {
      RowMembership(r, BoardsRead);
      forall i | 0 <= i < |ps|
        ensures Declared(ps[i])
      {
        var p := ps[i];
        RowMembership(r, p);
        RowActionsDeclared(r, p.group);
        var k :| 0 <= k < |RowActions(r, p.group)| && RowActions(r, p.group)[k] == p.action;
      }
      forall g
        ensures DistinctActions(RowActions(r, g))
      {
        RowActionsDistinct(r, g);
      }
      RowPrefixDistinct(r, |RowGroups|);
    }
  }

  /** roleHasPermission: the role's list includes the permission. */
  predicate RoleHasPermission(r: Role, p: Permission)
  {
    p in RolePermissions(r)
  }

  /** compareRoles: the difference of the two ranks. */
  function CompareRoles(a: Role, b: Role): (c: int)
    ensures c == 0 <==> a == b
    ensures c > 0 <==> Rank(a) > Rank(b)
    ensures c < 0 <==> Rank(a) < Rank(b)
  {
    Rank(a) - Rank(b)
  }

  /** compareRoles is antisymmetric. */
  lemma CompareRolesAntisymmetric(a: Role, b: Role)
    ensures CompareRoles(a, b) == -CompareRoles(b, a)
    ensures CompareRoles(a, b) > 0 ==> CompareRoles(b, a) < 0
  {
  }

  /** getHigherRole: one absent argument gives the other, and two present ones give the
      higher-ranked (the first one on a tie of ranks). */
  function GetHigherRole(a: Option<Role>, b: Option<Role>): (r: Option<Role>)
    ensures r.None? <==> a.None? && b.None?
    ensures r == a || r == b
    ensures a.Some? && r.Some? ==> Rank(r.value) >= Rank(a.value)
    ensures b.Some? && r.Some? ==> Rank(r.value) >= Rank(b.value)
  {
    if a.None? then b
    else if b.None? then a
    else if Rank(a.value) >= Rank(b.value) then a
    else b
  }

  /** Because the ranks are distinct, the order of the arguments never matters. */
  lemma GetHigherRoleCommutes(a: Option<Role>, b: Option<Role>)
    ensures GetHigherRole(a, b) == GetHigherRole(b, a)
  {
    if a.Some? && b.Some? {
      RanksDistinct(a.value, b.value);
    }
  }

  /** The system administrator holds every value of PERMISSIONS. */
  lemma AdminHoldsEveryPermission(p: Permission)
    requires Declared(p)
    ensures RoleHasPermission(Role.Admin, p)
  {
    AllPermissionsExactlyOnce();
  }

  /** Every permission on the first list is also on the second. */
  predicate Included(xs: seq<Permission>, ys: seq<Permission>)
  {
    forall i :: 0 <= i < |xs| ==> xs[i] in ys
  }

  /** Every permission on the list has the given action. */
  predicate AllOfAction(xs: seq<Permission>, a: Action)
  {
    forall i :: 0 <= i < |xs| ==> xs[i].action == a
  }


  /** A row of the table holds only the given action when the table lists no other for any resource. */
  lemma AllOfActionByTable(r: Role, a: Action)
    requires r != Role.Admin
    requires forall g, x :: x in RowActions(r, g) ==> x == a
    ensures AllOfAction(RolePermissions(r), a)
  {
    var ps := RolePermissions(r);
    forall i | 0 <= i < |ps|
      ensures ps[i].action == a
    {
      RowMembership(r, ps[i]);
    }
  }

  /** One row is included in another when, resource by resource, its actions are. */
  lemma IncludedByTable(lo: Role, hi: Role)
    requires lo != Role.Admin && hi != Role.Admin
    requires forall g, x :: x in RowActions(lo, g) ==> x in RowActions(hi, g)
    ensures Included(RolePermissions(lo), RolePermissions(hi))
  {
    var ps := RolePermissions(lo);
    forall i | 0 <= i < |ps|
      ensures ps[i] in RolePermissions(hi)
    {
      RowMembership(lo, ps[i]);
      RowMembership(hi, ps[i]);
    }
  }

  /** The view-only roles (and the guest) hold nothing but read permissions. */
  lemma ViewOnlyRolesOnlyRead()
    ensures AllOfAction(RolePermissions(WorkspaceObserver), Read)
    ensures AllOfAction(RolePermissions(BoardObserver), Read)
    ensures AllOfAction(RolePermissions(Guest), Read)
  {
    AllOfActionByTable(WorkspaceObserver, Read);
    AllOfActionByTable(BoardObserver, Read);
    AllOfActionByTable(Guest, Read);
  }

  /** Within the workspace roles, each role holds every permission of the role below it. */
  lemma WorkspaceRolesNested()
    ensures Included(RolePermissions(WorkspaceObserver), RolePermissions(WorkspaceMember))
    ensures Included(RolePermissions(WorkspaceMember), RolePermissions(WorkspaceModerator))
    ensures Included(RolePermissions(WorkspaceModerator), RolePermissions(WorkspaceAdmin))
  {
    IncludedByTable(WorkspaceObserver, WorkspaceMember);
    IncludedByTable(WorkspaceMember, WorkspaceModerator);
    IncludedByTable(WorkspaceModerator, WorkspaceAdmin);
  }

  /** Within the board roles, each role holds every permission of the role below it. */
  lemma BoardRolesNested()
    ensures Included(RolePermissions(BoardObserver), RolePermissions(BoardMember))
    ensures Included(RolePermissions(BoardMember), RolePermissions(BoardAdmin))
    ensures Included(RolePermissions(BoardAdmin), RolePermissions(BoardOwner))
  {
    IncludedByTable(BoardObserver, BoardMember);
    IncludedByTable(BoardMember, BoardAdmin);
    IncludedByTable(BoardAdmin, BoardOwner);
  }

  /** Rank does not order the permission sets: the board owner ranks below the workspace
      moderator and may still delete boards, which the moderator may not, while only the
      moderator may create boards. */
  lemma RankDoesNotOrderPermissions()
    ensures Rank(BoardOwner) < Rank(WorkspaceModerator)
    ensures RoleHasPermission(BoardOwner, BoardsDelete) && !RoleHasPermission(WorkspaceModerator, BoardsDelete)
    ensures RoleHasPermission(WorkspaceModerator, BoardsCreate) && !RoleHasPermission(BoardOwner, BoardsCreate)
  {
    RowMembership(BoardOwner, BoardsDelete);
    RowMembership(BoardOwner, BoardsCreate);
    RowMembership(WorkspaceModerator, BoardsDelete);
    RowMembership(WorkspaceModerator, BoardsCreate);
  }
}
