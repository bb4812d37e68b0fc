/**
 * The role context of the team workspace: four ranked roles, the
 * `hasPermission` test that compares ranks, and the per-role configuration
 * (badge colour, label and permission names).
 */
module RoleProvider {
  import opened Seqs

  datatype UserRole = Guest | Contributor | Manager | Admin

  /** The signed-in user; only the role takes part in the decisions. */
  datatype User = User(id: string, name: string, email: string, role: UserRole)

  datatype RoleConfig = RoleConfig(color: string, badge: string, permissions: seq<string>)

  /** The role hierarchy: guest 0, contributor 1, manager 2, admin 3. */
  function Rank(r: UserRole): nat
  {
    match r
    case Guest => 0
    case Contributor => 1
    case Manager => 2
    case Admin => 3
  }

  /** Without a user only 'guest' is granted; with one, its role must rank at least as high as the required one. */
  predicate HasPermission(user: Option<User>, required: UserRole)
  {
    if user.None? then required == Guest
    else Rank(user.value.role) >= Rank(required)
  }

  const ViewContent := "view_content"
  const CreateContent := "create_content"
  const EditOwnContent := "edit_own_content"
  const EditContent := "edit_content"
  const ManageTeam := "manage_team"
  const ViewAnalytics := "view_analytics"
  const SystemSettings := "system_settings"
  const UserManagement := "user_management"

  /** The configuration table of the four roles. */
  function RoleConfigs(r: UserRole): RoleConfig
  {
    match r
    case Guest => RoleConfig("from-gray-500 to-gray-600", "Guest", [ViewContent])
    case Contributor => RoleConfig("from-blue-500 to-blue-600", "Contributor", [ViewContent, CreateContent, EditOwnContent])
    case Manager => RoleConfig("from-purple-500 to-purple-600", "Manager",
                               [ViewContent, CreateContent, EditContent, ManageTeam, ViewAnalytics])
    case Admin => RoleConfig("from-red-500 to-red-600", "Admin",
                             [ViewContent, CreateContent, EditContent, ManageTeam, ViewAnalytics, SystemSettings, UserManagement])
  }

  /** The configuration in effect: the guest's without a user, else the user's role's. */
  function CurrentRoleConfig(user: Option<User>): (c: RoleConfig)
    ensures user.None? ==> c.badge == "Guest" && c.permissions == [ViewContent]
    ensures user.Some? ==> c == RoleConfigs(user.value.role)
  {
    if user.Some? then RoleConfigs(user.value.role) else RoleConfigs(Guest)
  }

  /** Without a user, exactly the 'guest' requirement passes. */
  lemma NoUserOnlyGuest(required: UserRole)
    ensures HasPermission(None, required) <==> required == Guest
  {
  }

  /** An admin passes every requirement and every signed-in user passes 'guest'. */
  lemma AdminAndGuestExtremes(u: User, required: UserRole)
    ensures u.role == Admin ==> HasPermission(Some(u), required)
    ensures HasPermission(Some(u), Guest)
  {
  }

  /** Monotone: a higher-ranked role passes whatever a lower-ranked one passes. */
  lemma HasPermissionMonotone(u: User, v: User, required: UserRole)
    requires Rank(u.role) <= Rank(v.role)
    ensures HasPermission(Some(u), required) ==> HasPermission(Some(v), required)
  {
  }

  /** The ranks form a chain: of two roles one always passes the other's requirement, and both only when equal. */
  lemma RanksAreAChain(u: User, v: User)
    ensures HasPermission(Some(u), v.role) || HasPermission(Some(v), u.role)
    ensures HasPermission(Some(u), v.role) && HasPermission(Some(v), u.role) ==> u.role == v.role
  {
  }

  /** A signed-in user passes a requirement exactly when its role is one of those at or below it. */
  lemma PassedRequirements(u: User, required: UserRole)
    ensures HasPermission(Some(u), required) <==>
      match u.role
      case Guest => required == Guest
      case Contributor => required in {Guest, Contributor}
      case Manager => required != Admin
      case Admin => true
  {
  }

  /**
   * Admin's permissions include all of the manager's, every role can view
   * content, and the contributor's 'edit_own_content' appears in neither
   * the manager's nor the admin's list, so the lists do not form a chain.
   */
  lemma PermissionListsShape()
    ensures forall p :: p in RoleConfigs(Manager).permissions ==> p in RoleConfigs(Admin).permissions
    ensures forall r: UserRole :: ViewContent in RoleConfigs(r).permissions
    ensures EditOwnContent in RoleConfigs(Contributor).permissions
    ensures EditOwnContent !in RoleConfigs(Manager).permissions && EditOwnContent !in RoleConfigs(Admin).permissions
  {
    assert RoleConfigs(Manager).permissions == RoleConfigs(Admin).permissions[..5];
    assert EditOwnContent != ViewContent && EditOwnContent != CreateContent && EditOwnContent != EditContent;
    assert EditOwnContent != ManageTeam && EditOwnContent != ViewAnalytics;
    assert EditOwnContent != SystemSettings && EditOwnContent != UserManagement;
  }
}
