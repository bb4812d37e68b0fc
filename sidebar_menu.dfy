/**
 * The water-station dashboard's sidebar: the menu built for the user's role
 * and the colour of the role badge.
 */
module SidebarMenu {
  import opened AquaTypes

  datatype MenuItem = MenuItem(id: string, title: string)

  const Overview := MenuItem("overview", "Overview")
  const Sales := MenuItem("sales", "Sales")
  const Inventory := MenuItem("inventory", "Inventory")
  const Orders := MenuItem("orders", "Orders")
  const DeliveryItem := MenuItem("delivery", "Delivery")

  /** The menu each role is meant to see. */
  function MenuFor(role: Role): seq<MenuItem>
  {
    match role
    case Owner => [Overview, Sales, Inventory, Orders, DeliveryItem]
    case Manager => [Overview, Sales, Inventory, Orders, DeliveryItem]
    case DeliveryRole => [Overview, DeliveryItem]
  }

  /** `getMenuItems`: start from the overview, push the station pages for owners and managers, then the delivery page. */
  method GetMenuItems(user: User) returns (items: seq<MenuItem>)
    ensures items == MenuFor(user.role)
  {
    items := [Overview];
    if user.role == Owner || user.role == Manager {
      items := items + [Sales, Inventory, Orders];
    }
    if user.role == Owner || user.role == Manager || user.role == DeliveryRole {
      items := items + [DeliveryItem];
    }
  }

  predicate DistinctIds(items: seq<MenuItem>)
  {
    forall i, j :: 0 <= i < j < |items| ==> items[i].id != items[j].id
  }

  /**
   * Every menu starts with the overview and ends with the delivery page, no
   * menu repeats an id, and riders see nothing of the station's sales,
   * inventory or orders.
   */
  lemma MenuShape(role: Role)
    ensures |MenuFor(role)| >= 2 && MenuFor(role)[0] == Overview && MenuFor(role)[|MenuFor(role)| - 1] == DeliveryItem
    ensures DistinctIds(MenuFor(role))
    ensures role == DeliveryRole ==> Sales !in MenuFor(role) && Inventory !in MenuFor(role) && Orders !in MenuFor(role)
    ensures IsStaffManager(role) <==> |MenuFor(role)| == 5
  {
    var ids := ["overview", "sales", "inventory", "orders", "delivery"];
    assert ids[0] != ids[1] && ids[0] != ids[2] && ids[0] != ids[3] && ids[0] != ids[4];
    assert ids[1] != ids[2] && ids[1] != ids[3] && ids[1] != ids[4];
    assert ids[2] != ids[3] && ids[2] != ids[4] && ids[3] != ids[4];
  }

  const OwnerColor := "bg-purple-100 text-purple-800"
  const ManagerColor := "bg-blue-100 text-blue-800"
  const DeliveryColor := "bg-green-100 text-green-800"

  /** `getRoleColor` */
  function GetRoleColor(role: Role): (c: string)
    ensures c in {OwnerColor, ManagerColor, DeliveryColor}
  {
    match role
    case Owner => OwnerColor
    case Manager => ManagerColor
    case DeliveryRole => DeliveryColor
  }

  /** The three roles get three different badge colours. */
  lemma RoleColorsDistinct(a: Role, b: Role)
    ensures GetRoleColor(a) == GetRoleColor(b) <==> a == b
  {
    assert OwnerColor[3] != ManagerColor[3] && OwnerColor[3] != DeliveryColor[3] && ManagerColor[3] != DeliveryColor[3];
  }
}
