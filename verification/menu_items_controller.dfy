/** The `/menu-items` endpoints: reads for every role and every country, writes for ADMIN only. */
module MenuItemsController {
  import opened Wrappers
  import opened Domain
  import MenuItems

  datatype Request =
    | PostMenuItem(dto: MenuItem)                                // POST   /menu-items
    | GetMenuItems(restaurantId: Option<string>)                 // GET    /menu-items[?restaurantId=]
    | GetMenuItem(id: Id)                                        // GET    /menu-items/:id
    | PatchMenuItem(id: Id, patch: MenuItems.MenuItemPatch)      // PATCH  /menu-items/:id
    | DeleteMenuItem(id: Id)                                     // DELETE /menu-items/:id

  datatype Reply =
    | MenuItemReply(id: Id, item: MenuItem)
    | MenuList(items: map<Id, MenuItem>)

  /** The `@Roles(...)` list of each endpoint. */
  function AllowedRoles(req: Request): (roles: set<Role>)
    ensures Admin in roles
    ensures roles == {Admin} <==> !(req.GetMenuItems? || req.GetMenuItem?)
    ensures req.GetMenuItems? || req.GetMenuItem? ==> roles == AllRoles
  {
    match req
    case GetMenuItems(_) => AllRoles
    case GetMenuItem(_) => AllRoles
    case _ => {Admin}
  }

  /**
   * One request: the role gate, then the service call. A truthy `restaurantId`
   * query selects one restaurant's menu, otherwise every available item.
   */
  function Handle(s: Store, user: Principal, req: Request, newId: Id): (r: Result<(Store, Reply), Error>)
    requires Fresh(s, newId)
    ensures user.role !in AllowedRoles(req) ==> r == Failure(Forbidden)
    ensures r.Success? ==> r.value.0 == s.(menuItems := r.value.0.menuItems)
    ensures req.GetMenuItems? ==> r.Success? && r.value.0 == s
    ensures req.GetMenuItems? && Truthy(req.restaurantId) ==>
      r.value.1 == MenuList(MenuItems.FindByRestaurant(s, req.restaurantId.value))
    ensures req.GetMenuItems? && !Truthy(req.restaurantId) ==> r.value.1 == MenuList(MenuItems.FindAll(s))
  {
    AllRolesComplete(user.role);
    if user.role !in AllowedRoles(req) then Failure(Forbidden)
    else match req
      case PostMenuItem(dto) =>
        Success((MenuItems.Create(s, dto, newId), MenuItemReply(newId, dto)))
      case GetMenuItems(restaurantId) =>
        if Truthy(restaurantId) then Success((s, MenuList(MenuItems.FindByRestaurant(s, restaurantId.value))))
        else Success((s, MenuList(MenuItems.FindAll(s))))
      case GetMenuItem(id) =>
        (match MenuItems.FindOne(s, id)
         case Failure(e) => Failure(e)
         case Success(item) => Success((s, MenuItemReply(id, item))))
      case PatchMenuItem(id, patch) =>
        (match MenuItems.Update(s, id, patch)
         case Failure(e) => Failure(e)
         case Success(s') => Success((s', MenuItemReply(id, s'.menuItems[id]))))
      case DeleteMenuItem(id) =>
        (match MenuItems.Remove(s, id)
         case Failure(e) => Failure(e)
         case Success(s') => Success((s', MenuItemReply(id, s.menuItems[id]))))
  }

  /** Menu reads apply no country filter: two callers of any role and country get the same answer. */
  lemma MenuReadsIgnoreCountry(s: Store, u1: Principal, u2: Principal, req: Request, newId: Id)
    requires Fresh(s, newId) && (req.GetMenuItems? || req.GetMenuItem?)
    ensures Handle(s, u1, req, newId) == Handle(s, u2, req, newId)
  {
    AllRolesComplete(u1.role);
    AllRolesComplete(u2.role);
  }
}
