/** `getRestaurantMenu`: which menu a POS user sees, and the menu's items
    with their images.

    A cashier (a user holding one of the profile's billing roles) gets the
    active menu of the restaurant of their branch; anyone else gets the
    menu of the table's restaurant, either its active menu or, when the
    restaurant has room-wise menus, the menu set for the table's room. */
module RestaurantMenu {
  import opened Wrappers
  import opened Roles

  /** A "URY Menu Item" row, in the query's `item_name asc` order. */
  datatype MenuItemRow = MenuItemRow(
    item: string,
    itemName: string,
    rate: real,
    specialDish: int,
    disabled: int,
    course: Option<string>)

  /** One entry of the reply: the row plus the item's image. */
  datatype MenuEntry = MenuEntry(
    item: string,
    itemName: string,
    rate: real,
    specialDish: int,
    disabled: int,
    itemImage: Option<string>,
    course: Option<string>)

  /** The `restaurant`, `branch` and `restaurant_room` of a "URY Table". */
  datatype TableRow = TableRow(restaurant: string, branch: string, room: string)

  /** The reads the handler makes. `userBranch` is what `getBranch` finds
      for the session user (`None` when the user belongs to no branch);
      `branchActiveMenu` gives the active menu of a branch's restaurant. */
  datatype MenuStore = MenuStore(
    userBranch: Option<string>,
    branchActiveMenu: string -> Option<string>,
    tables: string -> Option<TableRow>,
    roomWiseMenu: string -> Option<int>,
    activeMenu: string -> Option<string>,
    roomMenu: (string, string) -> Option<string>,
    menuItems: string -> seq<MenuItemRow>,
    images: string -> Option<string>)

  /** What the handler raises: `getBranch`'s `frappe.throw` for a user of no
      branch, the table lookup returned nothing to unpack, or `frappe.throw`
      for a restaurant without a menu. */
  datatype MenuError = NoBranch | TableNotFound | NoActiveMenu(restaurant: string)

  /** A Python truthy integer field. */
  predicate Flag(v: Option<int>)
  {
    v.Some? && v.value != 0
  }

  /** The menu whose items are listed: `Ok(None)` means the reply is `[]`. */
  function ChooseMenu(userRoles: seq<string>, billingRoles: seq<string>, table: Option<string>, store: MenuStore)
    : (r: Result<Option<string>, MenuError>)
    ensures AnyIn(billingRoles, userRoles) && store.userBranch.None? ==> r == Err(NoBranch)
    ensures AnyIn(billingRoles, userRoles) && store.userBranch.Some? ==>
      var menu := store.branchActiveMenu(store.userBranch.value);
      r == Ok(if Truthy(menu) then menu else None)
    ensures !AnyIn(billingRoles, userRoles) && !Truthy(table) ==> r == Ok(None)
    ensures !AnyIn(billingRoles, userRoles) && Truthy(table) ==>
      match store.tables(table.value)
      case None => r == Err(TableNotFound)
      case Some(t) =>
        var menu := if Flag(store.roomWiseMenu(t.restaurant)) then store.roomMenu(t.restaurant, t.room)
                    else store.activeMenu(t.restaurant);
        r == if Truthy(menu) then Ok(menu) else Err(NoActiveMenu(t.restaurant))
    ensures r.Ok? && r.value.Some? ==> r.value.value != ""
  {
    if AnyIn(billingRoles, userRoles) then
      match store.userBranch
      case None => Err(NoBranch)
      case Some(branch) =>
        var menu := store.branchActiveMenu(branch);
        if Truthy(menu) then Ok(menu) else Ok(None)
    else if Truthy(table) then
      match store.tables(table.value)
      case None => Err(TableNotFound)
      case Some(t) =>
        var menu :=
          if !Flag(store.roomWiseMenu(t.restaurant)) then store.activeMenu(t.restaurant)
          else store.roomMenu(t.restaurant, t.room);
        if !Truthy(menu) then Err(NoActiveMenu(t.restaurant)) else Ok(menu)
    else Ok(None)
  }

  /** The comprehension building the reply from the menu's rows. */
  function MenuEntries(rows: seq<MenuItemRow>, images: string -> Option<string>): (entries: seq<MenuEntry>)
    ensures |entries| == |rows|
    ensures forall k :: 0 <= k < |rows| ==>
      var row, e := rows[k], entries[k];
      && e.item == row.item && e.itemName == row.itemName && e.rate == row.rate
      && e.specialDish == row.specialDish && e.disabled == row.disabled && e.course == row.course
      && e.itemImage == images(row.item)
  {
    seq(|rows|, k requires 0 <= k < |rows| =>
      var row := rows[k];
      MenuEntry(row.item, row.itemName, row.rate, row.specialDish, row.disabled, images(row.item), row.course))
  }

  /** `getRestaurantMenu(pos_profile, table)`. */
  function GetRestaurantMenu(userRoles: seq<string>, billingRoles: seq<string>, table: Option<string>, store: MenuStore)
    : (r: Result<seq<MenuEntry>, MenuError>)
    ensures var choice := ChooseMenu(userRoles, billingRoles, table, store);
      && (choice.Err? ==> r == Err(choice.error))
      && (choice == Ok(None) ==> r == Ok([]))
      && (choice.Ok? && choice.value.Some? ==> r == Ok(MenuEntries(store.menuItems(choice.value.value), store.images)))
  {
    match ChooseMenu(userRoles, billingRoles, table, store)
    case Err(e) => Err(e)
    case Ok(None) => Ok([])
    case Ok(Some(menu)) => Ok(MenuEntries(store.menuItems(menu), store.images))
  }

  /** The cashier test comes first: a cashier never reaches the table path,
      so the table argument and the table's restaurant do not matter, and a
      cashier's request raises exactly when the user belongs to no branch. */
  lemma CashierIgnoresTable(userRoles: seq<string>, billingRoles: seq<string>, table: Option<string>,
                            otherTable: Option<string>, store: MenuStore)
    requires AnyIn(billingRoles, userRoles)
    ensures GetRestaurantMenu(userRoles, billingRoles, table, store)
         == GetRestaurantMenu(userRoles, billingRoles, otherTable, store)
    ensures GetRestaurantMenu(userRoles, billingRoles, table, store).Ok? <==> store.userBranch.Some?
  {
  }

  /** A user with no roles, or a profile with no billing roles, is never a
      cashier: without a table such a user gets no items. */
  lemma NoRolesNoTableEmpty(userRoles: seq<string>, billingRoles: seq<string>, store: MenuStore)
    requires userRoles == [] || billingRoles == []
    ensures GetRestaurantMenu(userRoles, billingRoles, None, store) == Ok([])
    ensures GetRestaurantMenu(userRoles, billingRoles, Some(""), store) == Ok([])
  {
    AnyInIsIntersection(billingRoles, userRoles);
  }
}
