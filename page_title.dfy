/**
 * The header title of the user-administration client: a table of exact
 * paths, then two prefixes for the edit pages, then a default.
 */
module PageTitle {
  import opened Text

  const Dashboard := "/dashboard"
  const Users := "/users"
  const UsersNew := "/users/new"
  const Roles := "/roles"
  const RolesNew := "/roles/new"
  const UsersEdit := "/users/edit/"
  const RolesEdit := "/roles/edit/"

  const EditUser := "Edit User"
  const EditRole := "Edit Role"
  const AdminDashboard := "Admin Dashboard"

  /** `pageTitles` */
  const PageTitles: map<string, string> := map[
    Dashboard := "Dashboard",
    Users := "User Management",
    UsersNew := "Create User",
    Roles := "Role Management",
    RolesNew := "Create Role"
  ]

  /**
   * `getPageTitle`: a path in the table gets its (non-empty) title; else an
   * edit prefix decides; else the default.
   */
  function GetPageTitle(titles: map<string, string>, path: string): (t: string)
    ensures path in titles && titles[path] != [] ==> t == titles[path]
    ensures !(path in titles && titles[path] != []) && StartsWith(path, UsersEdit) ==> t == EditUser
    ensures !(path in titles && titles[path] != []) && !StartsWith(path, UsersEdit) && StartsWith(path, RolesEdit) ==> t == EditRole
    ensures !(path in titles && titles[path] != []) && !StartsWith(path, UsersEdit) && !StartsWith(path, RolesEdit) ==> t == AdminDashboard
  {
    if path in titles && titles[path] != [] then titles[path]
    else if StartsWith(path, UsersEdit) then EditUser
    else if StartsWith(path, RolesEdit) then EditRole
    else AdminDashboard
  }

  /**
   * Over the app's table: every title is non-empty, no table path starts
   * with an edit prefix (so the prefix rules never override an exact match),
   * and the two prefixes never apply to the same path.
   */
  lemma TableShape()
    ensures forall p :: p in PageTitles ==> PageTitles[p] != [] && !StartsWith(p, UsersEdit) && !StartsWith(p, RolesEdit)
    ensures forall p :: StartsWith(p, UsersEdit) ==> !StartsWith(p, RolesEdit)
  {
    assert PageTitles.Keys == {Dashboard, Users, UsersNew, Roles, RolesNew};
    assert |Dashboard| < |UsersEdit| && |Users| < |UsersEdit| && |UsersNew| < |UsersEdit|;
    assert |Roles| < |RolesEdit| && |RolesNew| < |RolesEdit|;
    forall p | StartsWith(p, UsersEdit) ensures !StartsWith(p, RolesEdit) {
      assert p[1] == UsersEdit[1] == 'u' && RolesEdit[1] == 'r';
    }
  }

  /** The edit pages get their titles: any id under "/users/edit/" or "/roles/edit/". */
  lemma EditPages(id: string)
    ensures GetPageTitle(PageTitles, UsersEdit + id) == EditUser
    ensures GetPageTitle(PageTitles, RolesEdit + id) == EditRole
  {
    TableShape();
    assert (UsersEdit + id)[..|UsersEdit|] == UsersEdit;
    assert (RolesEdit + id)[..|RolesEdit|] == RolesEdit;
    assert StartsWith(UsersEdit + id, UsersEdit);
    assert StartsWith(RolesEdit + id, RolesEdit);
  }
}
