/**
 * The left navigation drawer of the team workspace: the tool items it can
 * show, the role filter that decides which are visible, their grouping by
 * category, and the footer count.
 */
module NavDrawer {
  import opened Seqs
  import Grouping
  import RoleProvider

  type UserRole = RoleProvider.UserRole

  /** A drawer entry (its `label` is `title` here); the icon is left out. A missing `requiredRole` means anyone may see it. */
  datatype DrawerItem = DrawerItem(id: string, title: string, description: string,
                                   requiredRole: Option<UserRole>, category: string)

  const Account := "Account"
  const Insights := "Insights"
  const Management := "Management"
  const System := "System"

  const DrawerItems: seq<DrawerItem> := [
    DrawerItem("profile", "Profile", "Your account info", None, Account),
    DrawerItem("alerts", "Alerts", "Notifications", None, Account),
    DrawerItem("analytics", "Analytics", "Performance insights", Some(RoleProvider.Manager), Insights),
    DrawerItem("reports", "Reports", "Data exports", Some(RoleProvider.Manager), Insights),
    DrawerItem("team", "Team Management", "Manage members", Some(RoleProvider.Manager), Management),
    DrawerItem("permissions", "Permissions", "Access control", Some(RoleProvider.Admin), Management),
    DrawerItem("settings", "Settings", "App preferences", None, System),
    DrawerItem("themes", "Appearance", "Customize look", None, System),
    DrawerItem("help", "Help & Support", "Get assistance", None, System)
  ]

  /** An item is shown when it has no required role or the user passes that role. */
  predicate IsVisible(user: Option<RoleProvider.User>, item: DrawerItem)
  {
    item.requiredRole.None? || RoleProvider.HasPermission(user, item.requiredRole.value)
  }

  /** The filter predicate "the item is shown to `user`". */
  function VisibleTo(user: Option<RoleProvider.User>): DrawerItem -> bool
  {
    (x: DrawerItem) => IsVisible(user, x)
  }

  /** `drawerItems.filter(...)` for the given user: the shown items, in table order. */
  function VisibleItems(user: Option<RoleProvider.User>, items: seq<DrawerItem>): (r: seq<DrawerItem>)
    ensures forall x :: x in r <==> x in items && IsVisible(user, x)
    ensures r == Filter(items, VisibleTo(user))
  {
    var r := Filter(items, VisibleTo(user));
    forall x ensures x in r <==> x in items && IsVisible(user, x) {
      FilterMembership(items, VisibleTo(user), x);
    }
    r
  }

  function Category(x: DrawerItem): string
  {
    x.category
  }

  /** The visible entries of `items` grouped by category, as the drawer renders `drawerItems`. */
  method GroupedItems(user: Option<RoleProvider.User>, items: seq<DrawerItem>) returns (groups: seq<Grouping.Group<DrawerItem>>)
    ensures groups == Grouping.GroupAll(VisibleItems(user, items), Category)
    ensures Grouping.Distinct(Grouping.Keys(groups))
    ensures forall k :: Grouping.MembersOf(groups, k) == Filter(VisibleItems(user, items), Grouping.KeyIs(Category, k))
    ensures Grouping.TotalSize(groups) == FooterCount(user, items)
  {
    var visible := VisibleItems(user, items);
    groups := Grouping.GroupItems(visible, Category);
    Grouping.GroupAllSpec(visible, Category);
  }

  /** The footer's "N tools available". */
  function FooterCount(user: Option<RoleProvider.User>, items: seq<DrawerItem>): nat
  {
    |VisibleItems(user, items)|
  }

  /** Items without a required role are shown to everyone, signed in or not. */
  lemma UnrestrictedAlwaysVisible(user: Option<RoleProvider.User>, x: DrawerItem)
    requires x in DrawerItems && x.requiredRole.None?
    ensures x in VisibleItems(user, DrawerItems)
  {
  }

  /** Profile, Alerts, Settings, Appearance and Help carry no required role. */
  lemma UnrestrictedItems()
    ensures forall i :: 0 <= i < |DrawerItems| ==>
              (DrawerItems[i].requiredRole.None? <==> i in {0, 1, 6, 7, 8})
  {
  }

  /** A manager sees all but the admin-only Permissions entry. */
  lemma ManagerSeesAllButPermissions(u: RoleProvider.User)
    requires u.role == RoleProvider.Manager
    ensures forall i :: 0 <= i < |DrawerItems| ==>
              (DrawerItems[i] in VisibleItems(Some(u), DrawerItems) <==> i != 5)
  {
    assert forall i :: 0 <= i < |DrawerItems| && i != 5 ==> DrawerItems[i] != DrawerItems[5];
  }

  /** A contributor, a guest or nobody signed in sees exactly the five unrestricted entries. */
  lemma LowRolesSeeUnrestricted(user: Option<RoleProvider.User>)
    requires user.None? || user.value.role in {RoleProvider.Guest, RoleProvider.Contributor}
    ensures forall x :: x in VisibleItems(user, DrawerItems) <==> x in DrawerItems && x.requiredRole.None?
  {
  }
}
