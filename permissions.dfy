/**
 * The closed set of permissions of backend/src/common/constants/permissions.ts: the
 * PERMISSIONS constants and their string values, isValidPermission and PERMISSION_GROUPS.
 *
 * Every PERMISSIONS value is "<resource>:<action>", and the resource word is the one of the
 * group the permission is listed under. A permission is therefore represented by its group
 * and its action, restricted to the 53 combinations PERMISSIONS defines.
 */
module Permissions {
  import opened Strings

  /** The keys of PERMISSION_GROUPS, one per resource. */
  datatype PermissionGroup =
    | Boards | Lists | Cards | Comments | Members | Labels | Checklists | Attachments
    | Notifications | Workspaces | Users | Reports | System

  /** The resource word that starts the string of every permission of a group. */
  function GroupResource(g: PermissionGroup): string
  {
    match g
    case Boards => "boards"
    case Lists => "lists"
    case Cards => "cards"
    case Comments => "comments"
    case Members => "members"
    case Labels => "labels"
    case Checklists => "checklists"
    case Attachments => "attachments"
    case Notifications => "notifications"
    case Workspaces => "workspaces"
    case Users => "users"
    case Reports => "reports"
    case System => "system"
  }

  /** The action words that follow the ':' in the permission strings. */
  datatype Action =
    | Create | Read | Update | Delete | Manage | Archive | Assign | Move | Moderate | Invite | Remove
    | Export | Admin | Backup | Maintenance

  function ActionName(a: Action): string
  {
    match a
    case Create => "create"
    case Read => "read"
    case Update => "update"
    case Delete => "delete"
    case Manage => "manage"
    case Archive => "archive"
    case Assign => "assign"
    case Move => "move"
    case Moderate => "moderate"
    case Invite => "invite"
    case Remove => "remove"
    case Export => "export"
    case Admin => "admin"
    case Backup => "backup"
    case Maintenance => "maintenance"
  }

  /** A permission: a resource (named by its group) and an action on it. Only the pairs
      PERMISSIONS declares are permissions of the application; see Declared. */
  datatype Permission = Permission(group: PermissionGroup, action: Action)

  /** The pairs PERMISSIONS declares: the actions each resource has. */
  predicate Declared(p: Permission)
  {
    var a := p.action;
    match p.group
    case Boards => a == Create || a == Read || a == Update || a == Delete || a == Manage
    case Lists => a == Create || a == Read || a == Update || a == Delete || a == Archive
    case Cards => a == Create || a == Read || a == Update || a == Delete || a == Assign || a == Move || a == Archive
    case Comments => a == Create || a == Read || a == Update || a == Delete || a == Moderate
    case Members => a == Invite || a == Remove || a == Read || a == Manage
    case Labels => a == Create || a == Read || a == Update || a == Delete
    case Checklists => a == Create || a == Read || a == Update || a == Delete
    case Attachments => a == Create || a == Read || a == Delete
    case Notifications => a == Read || a == Manage
    case Workspaces => a == Create || a == Read || a == Update || a == Delete || a == Manage
    case Users => a == Read || a == Update || a == Manage || a == Delete
    case Reports => a == Read || a == Export
    case System => a == Admin || a == Backup || a == Maintenance
  }

  // Boards
  const BoardsCreate: Permission := Permission(Boards, Create)
  const BoardsRead: Permission := Permission(Boards, Read)
  const BoardsUpdate: Permission := Permission(Boards, Update)
  const BoardsDelete: Permission := Permission(Boards, Delete)
  const BoardsManage: Permission := Permission(Boards, Manage)
  // Lists
  const ListsCreate: Permission := Permission(Lists, Create)
  const ListsRead: Permission := Permission(Lists, Read)
  const ListsUpdate: Permission := Permission(Lists, Update)
  const ListsDelete: Permission := Permission(Lists, Delete)
  const ListsArchive: Permission := Permission(Lists, Archive)
  // Cards
  const CardsCreate: Permission := Permission(Cards, Create)
  const CardsRead: Permission := Permission(Cards, Read)
  const CardsUpdate: Permission := Permission(Cards, Update)
  const CardsDelete: Permission := Permission(Cards, Delete)
  const CardsAssign: Permission := Permission(Cards, Assign)
  const CardsMove: Permission := Permission(Cards, Move)
  const CardsArchive: Permission := Permission(Cards, Archive)
  // Comments
  const CommentsCreate: Permission := Permission(Comments, Create)
  const CommentsRead: Permission := Permission(Comments, Read)
  const CommentsUpdate: Permission := Permission(Comments, Update)
  const CommentsDelete: Permission := Permission(Comments, Delete)
  const CommentsModerate: Permission := Permission(Comments, Moderate)
  // Members
  const MembersInvite: Permission := Permission(Members, Invite)
  const MembersRemove: Permission := Permission(Members, Remove)
  const MembersRead: Permission := Permission(Members, Read)
  const MembersManage: Permission := Permission(Members, Manage)
  // Labels
  const LabelsCreate: Permission := Permission(Labels, Create)
  const LabelsRead: Permission := Permission(Labels, Read)
  const LabelsUpdate: Permission := Permission(Labels, Update)
  const LabelsDelete: Permission := Permission(Labels, Delete)
  // Checklists
  const ChecklistsCreate: Permission := Permission(Checklists, Create)
  const ChecklistsRead: Permission := Permission(Checklists, Read)
  const ChecklistsUpdate: Permission := Permission(Checklists, Update)
  const ChecklistsDelete: Permission := Permission(Checklists, Delete)
  // Attachments
  const AttachmentsCreate: Permission := Permission(Attachments, Create)
  const AttachmentsRead: Permission := Permission(Attachments, Read)
  const AttachmentsDelete: Permission := Permission(Attachments, Delete)
  // Notifications
  const NotificationsRead: Permission := Permission(Notifications, Read)
  const NotificationsManage: Permission := Permission(Notifications, Manage)
  // Workspaces
  const WorkspacesCreate: Permission := Permission(Workspaces, Create)
  const WorkspacesRead: Permission := Permission(Workspaces, Read)
  const WorkspacesUpdate: Permission := Permission(Workspaces, Update)
  const WorkspacesDelete: Permission := Permission(Workspaces, Delete)
  const WorkspacesManage: Permission := Permission(Workspaces, Manage)
  // Users
  const UsersRead: Permission := Permission(Users, Read)
  const UsersUpdate: Permission := Permission(Users, Update)
  const UsersManage: Permission := Permission(Users, Manage)
  const UsersDelete: Permission := Permission(Users, Delete)
  // Reports
  const ReportsRead: Permission := Permission(Reports, Read)
  const ReportsExport: Permission := Permission(Reports, Export)
  // System
  const SystemAdmin: Permission := Permission(System, Admin)
  const SystemBackup: Permission := Permission(System, Backup)
  const SystemMaintenance: Permission := Permission(System, Maintenance)

  /** The string value of a permission: its resource word, a ':' and its action word. */
  function Name(p: Permission): string
  {
    GroupResource(p.group) + ":" + ActionName(p.action)
  }

  /** The permissions in the order in which PERMISSIONS declares them, section by section. */
  const AllPermissions: seq<Permission> :=
    [BoardsCreate, BoardsRead, BoardsUpdate, BoardsDelete, BoardsManage]
    + [ListsCreate, ListsRead, ListsUpdate, ListsDelete, ListsArchive]
    + [CardsCreate, CardsRead, CardsUpdate, CardsDelete, CardsAssign, CardsMove, CardsArchive]
    + [CommentsCreate, CommentsRead, CommentsUpdate, CommentsDelete, CommentsModerate]
    + [MembersInvite, MembersRemove, MembersRead, MembersManage]
    + [LabelsCreate, LabelsRead, LabelsUpdate, LabelsDelete]
    + [ChecklistsCreate, ChecklistsRead, ChecklistsUpdate, ChecklistsDelete]
    + [AttachmentsCreate, AttachmentsRead, AttachmentsDelete]
    + [NotificationsRead, NotificationsManage]
    + [WorkspacesCreate, WorkspacesRead, WorkspacesUpdate, WorkspacesDelete, WorkspacesManage]
    + [UsersRead, UsersUpdate, UsersManage, UsersDelete]
    + [ReportsRead, ReportsExport]
    + [SystemAdmin, SystemBackup, SystemMaintenance]

  /** Object.values(PERMISSIONS): the permission strings in declaration order. */
  function PermissionValues(): (vs: seq<string>)
    ensures |vs| == |AllPermissions|
    ensures forall i :: 0 <= i < |vs| ==> vs[i] == Name(AllPermissions[i])
  {
    seq(|AllPermissions|, i requires 0 <= i < |AllPermissions| => Name(AllPermissions[i]))
  }

  /** isValidPermission: the string is one of the PERMISSIONS values. */
  predicate IsValidPermission(s: string)
  {
    s in PermissionValues()
  }

  /** PERMISSION_GROUPS: the permissions listed under each group, in the source's order. */
  function GroupMembers(g: PermissionGroup): seq<Permission>
  {
    match g
    case Boards => BoardsGroup
    case Lists => ListsGroup
    case Cards => CardsGroup
    case Comments => CommentsGroup
    case Members => MembersGroup
    case Labels => LabelsGroup
    case Checklists => ChecklistsGroup
    case Attachments => AttachmentsGroup
    case Notifications => NotificationsGroup
    case Workspaces => WorkspacesGroup
    case Users => UsersGroup
    case Reports => ReportsGroup
    case System => SystemGroup
  }

  const BoardsGroup: seq<Permission> :=
    [BoardsCreate, BoardsRead, BoardsUpdate, BoardsDelete, BoardsManage]
  const ListsGroup: seq<Permission> :=
    [ListsCreate, ListsRead, ListsUpdate, ListsDelete, ListsArchive]
  const CardsGroup: seq<Permission> :=
    [CardsCreate, CardsRead, CardsUpdate, CardsDelete, CardsAssign, CardsMove, CardsArchive]
  const CommentsGroup: seq<Permission> :=
    [CommentsCreate, CommentsRead, CommentsUpdate, CommentsDelete, CommentsModerate]
  const MembersGroup: seq<Permission> := [MembersInvite, MembersRemove, MembersRead, MembersManage]
  const LabelsGroup: seq<Permission> := [LabelsCreate, LabelsRead, LabelsUpdate, LabelsDelete]
  const ChecklistsGroup: seq<Permission> :=
    [ChecklistsCreate, ChecklistsRead, ChecklistsUpdate, ChecklistsDelete]
  const AttachmentsGroup: seq<Permission> := [AttachmentsCreate, AttachmentsRead, AttachmentsDelete]
  const NotificationsGroup: seq<Permission> := [NotificationsRead, NotificationsManage]
  const WorkspacesGroup: seq<Permission> :=
    [WorkspacesCreate, WorkspacesRead, WorkspacesUpdate, WorkspacesDelete, WorkspacesManage]
  const UsersGroup: seq<Permission> := [UsersRead, UsersUpdate, UsersManage, UsersDelete]
  const ReportsGroup: seq<Permission> := [ReportsRead, ReportsExport]
  const SystemGroup: seq<Permission> := [SystemAdmin, SystemBackup, SystemMaintenance]

  /** Both words of a permission string are non-empty and free of ':'. */
  lemma NameShape(p: Permission)
    ensures GroupResource(p.group) != [] && ColonFree(GroupResource(p.group))
    ensures ActionName(p.action) != [] && ColonFree(ActionName(p.action))
  {
    ResourceWordColonFree(p.group);
    ActionWordColonFree(p.action);
  }

  lemma ResourceWordColonFree(g: PermissionGroup)
    ensures GroupResource(g) != [] && ColonFree(GroupResource(g))
  {
  }

  lemma ActionWordColonFree(a: Action)
    ensures ActionName(a) != [] && ColonFree(ActionName(a))
  {
  }

  /** Each permission string holds exactly one ':', right after its resource word. */
  lemma ExactlyOneColon(p: Permission, i: int)
    requires 0 <= i < |Name(p)|
    ensures Name(p)[i] == ':' <==> i == |GroupResource(p.group)|
  {
    NameShape(p);
    if Name(p)[i] == ':' {
      OnlyColon(GroupResource(p.group), ActionName(p.action), i);
    }
  }

  /** The resource words of distinct groups differ. */
  lemma GroupResourceInjective(g: PermissionGroup, h: PermissionGroup)
    ensures GroupResource(g) == GroupResource(h) <==> g == h
  {
  }

  /** The action words of distinct actions differ. */
  lemma ActionNameInjective(a: Action, b: Action)
    ensures ActionName(a) == ActionName(b) <==> a == b
  {
  }

  /** The 53 permission strings are pairwise distinct. */
  lemma NameInjective(p: Permission, q: Permission)
    ensures Name(p) == Name(q) <==> p == q
  {
    if Name(p) == Name(q) {
      NameShape(p);
      NameShape(q);
      SplitAtFirstColon(GroupResource(p.group), ActionName(p.action),
                        GroupResource(q.group), ActionName(q.action));
      GroupResourceInjective(p.group, q.group);
      ActionNameInjective(p.action, q.action);
    }
  }

  /** A permission is listed under a group exactly when that is its group, and no group
      lists a permission twice: the groups together hold every permission exactly once. */
  lemma GroupsPartitionPermissions(p: Permission, g: PermissionGroup)
    ensures p in GroupMembers(g) <==> Declared(p) && g == p.group
    ensures forall i, j :: 0 <= i < j < |GroupMembers(g)| ==> GroupMembers(g)[i] != GroupMembers(g)[j]
  {
    if Declared(p) {
      ListedUnderOwnGroup(p);
    }
    GroupWellFormed(g);
  }

  /** Every declared permission is listed under its own group. */
  lemma ListedUnderOwnGroup(p: Permission)
    requires Declared(p)
    ensures p in GroupMembers(p.group)
  {
  }

  /** The entries listed under g are declared permissions of g, and none is listed twice. */
  lemma GroupWellFormed(g: PermissionGroup)
    ensures forall i :: 0 <= i < |GroupMembers(g)| ==> GroupMembers(g)[i].group == g
    ensures forall i :: 0 <= i < |GroupMembers(g)| ==> Declared(GroupMembers(g)[i])
    ensures forall i, j :: 0 <= i < j < |GroupMembers(g)| ==> GroupMembers(g)[i] != GroupMembers(g)[j]
  {
    match g
    case Boards => GroupListWellFormed(BoardsGroup, Boards);
    case Lists => GroupListWellFormed(ListsGroup, Lists);
    case Cards => GroupListWellFormed(CardsGroup, Cards);
    case Comments => GroupListWellFormed(CommentsGroup, Comments);
    case Members => GroupListWellFormed(MembersGroup, Members);
    case Labels => GroupListWellFormed(LabelsGroup, Labels);
    case Checklists => GroupListWellFormed(ChecklistsGroup, Checklists);
    case Attachments => GroupListWellFormed(AttachmentsGroup, Attachments);
    case Notifications => GroupListWellFormed(NotificationsGroup, Notifications);
    case Workspaces => GroupListWellFormed(WorkspacesGroup, Workspaces);
    case Users => GroupListWellFormed(UsersGroup, Users);
    case Reports => GroupListWellFormed(ReportsGroup, Reports);
    case System => GroupListWellFormed(SystemGroup, System);
  }

  lemma GroupListWellFormed(xs: seq<Permission>, g: PermissionGroup)
    requires xs == GroupMembers(g)
    ensures forall i :: 0 <= i < |xs| ==> xs[i].group == g && Declared(xs[i])
    ensures forall i, j :: 0 <= i < j < |xs| ==> xs[i] != xs[j]
  {
  }

  /** Read together, in PERMISSION_GROUPS order, the groups list exactly the permissions
      of PERMISSIONS in declaration order. */
  lemma GroupsCoverAllPermissions()
    ensures BoardsGroup + ListsGroup + CardsGroup + CommentsGroup
            + MembersGroup + LabelsGroup + ChecklistsGroup + AttachmentsGroup
            + NotificationsGroup + WorkspacesGroup + UsersGroup + ReportsGroup
            + SystemGroup == AllPermissions
  {
  }

  /** Every member of a group starts with that group's resource word and a ':'. */
  lemma GroupSharesResourcePrefix(p: Permission, g: PermissionGroup)
    requires p in GroupMembers(g)
    ensures GroupResource(g) + ":" <= Name(p)
  {
    GroupsPartitionPermissions(p, g);
  }

  /** Object.values(PERMISSIONS) holds exactly the declared permissions. */
  lemma ListedExactlyWhenDeclared(p: Permission)
    ensures p in AllPermissions <==> Declared(p)
  {
    GroupsCoverAllPermissions();
    AllGroupsDistinct();
    if Declared(p) {
      ListedUnderOwnGroup(p);
    }
  }

  /** isValidPermission(s) holds exactly when s is the string of one of the permissions. */
  lemma IsValidPermissionExactly(s: string)
    ensures IsValidPermission(s) <==> exists p :: Declared(p) && Name(p) == s
  {
    if IsValidPermission(s) {
      var i :| 0 <= i < |PermissionValues()| && PermissionValues()[i] == s;
      assert Name(AllPermissions[i]) == s;
      ListedExactlyWhenDeclared(AllPermissions[i]);
    }
    if p :| Declared(p) && Name(p) == s {
      ListedExactlyWhenDeclared(p);
      var i :| 0 <= i < |AllPermissions| && AllPermissions[i] == p;
      assert PermissionValues()[i] == s;
    }
  }

  /** The position of a group among the keys of PERMISSION_GROUPS. */
  function Ordinal(g: PermissionGroup): (k: nat)
    ensures k < 13
  {
    match g
    case Boards => 0
    case Lists => 1
    case Cards => 2
    case Comments => 3
    case Members => 4
    case Labels => 5
    case Checklists => 6
    case Attachments => 7
    case Notifications => 8
    case Workspaces => 9
    case Users => 10
    case Reports => 11
    case System => 12
  }

  /** No entry of the list occurs twice. */
  predicate Distinct(xs: seq<Permission>)
  {
    forall i, j :: 0 <= i < j < |xs| ==> xs[i] != xs[j]
  }

  /** Every entry of the list is declared and belongs to a group whose ordinal lies in
      [lo, hi). */
  predicate OrdinalsWithin(xs: seq<Permission>, lo: nat, hi: nat)
  {
    forall i :: 0 <= i < |xs| ==> Declared(xs[i]) && lo <= Ordinal(xs[i].group) < hi
  }

  /** Joining distinct entries of earlier groups to distinct entries of later groups keeps
      the entries distinct. */
  lemma JoinDistinct(xs: seq<Permission>, ys: seq<Permission>, lo: nat, mid: nat, hi: nat)
    requires lo <= mid <= hi
    requires OrdinalsWithin(xs, lo, mid) && OrdinalsWithin(ys, mid, hi)
    requires Distinct(xs) && Distinct(ys)
    ensures OrdinalsWithin(xs + ys, lo, hi)
    ensures Distinct(xs + ys)
  {
    var all := xs + ys;
    forall i, j | 0 <= i < j < |all|
      ensures all[i] != all[j]
    {
      if i < |xs| <= j {
        assert all[i] == xs[i] && all[j] == ys[j - |xs|];
      }
    }
    forall i | 0 <= i < |all|
      ensures Declared(all[i]) && lo <= Ordinal(all[i].group) < hi
    {
      if i < |xs| {
        assert all[i] == xs[i];
      } else {
        assert all[i] == ys[i - |xs|];
      }
    }
  }

  /** A group's own list: its entries are distinct and all of that group. */
  lemma GroupWithin(g: PermissionGroup)
    ensures OrdinalsWithin(GroupMembers(g), Ordinal(g), Ordinal(g) + 1)
    ensures Distinct(GroupMembers(g))
  {
    GroupWellFormed(g);
  }

  /** The group lists joined in PERMISSION_GROUPS order: the first four, the first eight,
      and all thirteen. */
  const FirstFourGroups: seq<Permission> := BoardsGroup + ListsGroup + CardsGroup + CommentsGroup
  const FirstEightGroups: seq<Permission> :=
    FirstFourGroups + MembersGroup + LabelsGroup + ChecklistsGroup + AttachmentsGroup
  const AllGroups: seq<Permission> :=
    FirstEightGroups + NotificationsGroup + WorkspacesGroup + UsersGroup + ReportsGroup + SystemGroup

  lemma FirstFourGroupsDistinct()
    ensures OrdinalsWithin(FirstFourGroups, 0, 4)
    ensures Distinct(FirstFourGroups)
  {
    GroupWithin(Boards);
    GroupWithin(Lists);
    GroupWithin(Cards);
    GroupWithin(Comments);
    var s1 := BoardsGroup;
    JoinDistinct(s1, ListsGroup, 0, 1, 2);
    var s2 := s1 + ListsGroup;
    JoinDistinct(s2, CardsGroup, 0, 2, 3);
    var s3 := s2 + CardsGroup;
    JoinDistinct(s3, CommentsGroup, 0, 3, 4);
  }

  lemma FirstEightGroupsDistinct()
    ensures OrdinalsWithin(FirstEightGroups, 0, 8)
    ensures Distinct(FirstEightGroups)
  {
    FirstFourGroupsDistinct();
    GroupWithin(Members);
    GroupWithin(Labels);
    GroupWithin(Checklists);
    GroupWithin(Attachments);
    var s4 := FirstFourGroups;
    JoinDistinct(s4, MembersGroup, 0, 4, 5);
    var s5 := s4 + MembersGroup;
    JoinDistinct(s5, LabelsGroup, 0, 5, 6);
    var s6 := s5 + LabelsGroup;
    JoinDistinct(s6, ChecklistsGroup, 0, 6, 7);
    var s7 := s6 + ChecklistsGroup;
    JoinDistinct(s7, AttachmentsGroup, 0, 7, 8);
  }

  lemma AllGroupsDistinct()
    ensures OrdinalsWithin(AllGroups, 0, 13)
    ensures Distinct(AllGroups)
  {
    FirstEightGroupsDistinct();
    GroupWithin(Notifications);
    GroupWithin(Workspaces);
    GroupWithin(Users);
    GroupWithin(Reports);
    GroupWithin(System);
    var s8 := FirstEightGroups;
    JoinDistinct(s8, NotificationsGroup, 0, 8, 9);
    var s9 := s8 + NotificationsGroup;
    JoinDistinct(s9, WorkspacesGroup, 0, 9, 10);
    var s10 := s9 + WorkspacesGroup;
    JoinDistinct(s10, UsersGroup, 0, 10, 11);
    var s11 := s10 + UsersGroup;
    JoinDistinct(s11, ReportsGroup, 0, 11, 12);
    var s12 := s11 + ReportsGroup;
    JoinDistinct(s12, SystemGroup, 0, 12, 13);
  }

  /** AllPermissions lists every declared permission exactly once: PERMISSIONS has 53
      distinct entries. */
  lemma AllPermissionsExactlyOnce()
    ensures |AllPermissions| == 53
    ensures forall p :: p in AllPermissions <==> Declared(p)
    ensures Distinct(AllPermissions)
  {
    forall p
      ensures p in AllPermissions <==> Declared(p)
    {
      ListedExactlyWhenDeclared(p);
    }
    AllPermissionsDistinct();
  }

  lemma AllPermissionsDistinct()
    ensures Distinct(AllPermissions)
  {
    AllGroupsDistinct();
    GroupsCoverAllPermissions();
  }
}
