/** The menu-item service: availability-filtered listings, admin writes behind an existence check. */
module MenuItems {
  import opened Wrappers
  import opened Domain

  /** The partial update the admin sends; `None` leaves a field as it is. */
  datatype MenuItemPatch = MenuItemPatch(
    name: Option<string>,
    description: Option<string>,
    price: Option<int>,
    category: Option<string>,
    imageUrl: Option<string>,
    isAvailable: Option<bool>)

  /** `create`: the admin's record is stored under a fresh id. */
  function Create(s: Store, dto: MenuItem, newId: Id): (s': Store)
    requires Fresh(s, newId)
    ensures s' == s.(menuItems := s'.menuItems)
    ensures s'.menuItems.Keys == s.menuItems.Keys + {newId} && s'.menuItems[newId] == dto
    ensures forall i | i in s.menuItems :: s'.menuItems[i] == s.menuItems[i]
  {
    s.(menuItems := s.menuItems[newId := dto])
  }

  /** `findAll`: exactly the available items, of every restaurant and country. */
  function FindAll(s: Store): (r: map<Id, MenuItem>)
    ensures forall i :: i in r <==> i in s.menuItems && s.menuItems[i].isAvailable
    ensures forall i | i in r :: r[i] == s.menuItems[i]
  {
    map i | i in s.menuItems && s.menuItems[i].isAvailable :: s.menuItems[i]
  }

  /** `findByRestaurant`: exactly the available items of one restaurant. */
  function FindByRestaurant(s: Store, restaurantId: Id): (r: map<Id, MenuItem>)
    ensures forall i :: i in r <==> i in s.menuItems && s.menuItems[i].restaurantId == restaurantId && s.menuItems[i].isAvailable
    ensures forall i | i in r :: r[i] == s.menuItems[i]
  {
    map i | i in s.menuItems && s.menuItems[i].restaurantId == restaurantId && s.menuItems[i].isAvailable :: s.menuItems[i]
  }

  /** `findOne`: the item whatever its availability, or NotFound. */
  function FindOne(s: Store, id: Id): (r: Result<MenuItem, Error>)
    ensures r.Failure? <==> id !in s.menuItems
    ensures r.Failure? ==> r.error == NotFound
    ensures r.Success? ==> r.value == s.menuItems[id]
  {
    if id !in s.menuItems then Failure(NotFound) else Success(s.menuItems[id])
  }

  function ApplyPatch(m: MenuItem, p: MenuItemPatch): MenuItem {
    MenuItem(
      m.restaurantId,
      p.name.GetOr(m.name),
      if p.description.Some? then p.description else m.description,
      p.price.GetOr(m.price),
      p.category.GetOr(m.category),
      if p.imageUrl.Some? then p.imageUrl else m.imageUrl,
      p.isAvailable.GetOr(m.isAvailable))
  }

  /**
   * `update`: NotFound when absent, otherwise the patch is applied. Order lines
   * keep the price they captured, so no total changes.
   */
  function Update(s: Store, id: Id, patch: MenuItemPatch): (r: Result<Store, Error>)
    ensures r.Failure? <==> id !in s.menuItems
    ensures r.Failure? ==> r.error == NotFound
    ensures r.Success? ==>
      && r.value == s.(menuItems := r.value.menuItems)
      && r.value.menuItems.Keys == s.menuItems.Keys
      && (forall i | i in s.menuItems && i != id :: r.value.menuItems[i] == s.menuItems[i])
      && r.value.menuItems[id].price == patch.price.GetOr(s.menuItems[id].price)
      && r.value.menuItems[id].isAvailable == patch.isAvailable.GetOr(s.menuItems[id].isAvailable)
      && r.value.menuItems[id].restaurantId == s.menuItems[id].restaurantId
      && r.value.menuItems[id].name == patch.name.GetOr(s.menuItems[id].name)
      && r.value.menuItems[id].category == patch.category.GetOr(s.menuItems[id].category)
      && r.value.menuItems[id].description == (if patch.description.Some? then patch.description else s.menuItems[id].description)
      && r.value.menuItems[id].imageUrl == (if patch.imageUrl.Some? then patch.imageUrl else s.menuItems[id].imageUrl)
  {
    match FindOne(s, id)
    case Failure(e) => Failure(e)
    case Success(item) => Success(s.(menuItems := s.menuItems[id := ApplyPatch(item, patch)]))
  }

  /** `remove`: NotFound when absent; afterwards no item has that id. */
  function Remove(s: Store, id: Id): (r: Result<Store, Error>)
    ensures r.Failure? <==> id !in s.menuItems
    ensures r.Failure? ==> r.error == NotFound
    ensures r.Success? ==>
      && r.value == s.(menuItems := r.value.menuItems)
      && id !in r.value.menuItems
      && r.value.menuItems.Keys == s.menuItems.Keys - {id}
      && (forall i | i in r.value.menuItems :: r.value.menuItems[i] == s.menuItems[i])
  {
    match FindOne(s, id)
    case Failure(e) => Failure(e)
    case Success(_) => Success(s.(menuItems := s.menuItems - {id}))
  }

  /** A created item is then found by id, as the record the admin sent. */
  lemma CreateThenFind(s: Store, dto: MenuItem, newId: Id)
    requires Fresh(s, newId)
    ensures FindOne(Create(s, dto, newId), newId) == Success(dto)
  {
  }

  /** After `update`, looking the item up shows the patched price and availability, and the same restaurant. */
  lemma UpdateThenFind(s: Store, id: Id, patch: MenuItemPatch)
    requires Update(s, id, patch).Success?
    ensures var m := FindOne(Update(s, id, patch).value, id);
      && m.Success?
      && m.value.price == patch.price.GetOr(s.menuItems[id].price)
      && m.value.isAvailable == patch.isAvailable.GetOr(s.menuItems[id].isAvailable)
      && m.value.restaurantId == s.menuItems[id].restaurantId
  {
  }

  /** After `remove`, looking the item up gives NotFound, and no listing shows it. */
  lemma RemoveThenFind(s: Store, id: Id)
    requires Remove(s, id).Success?
    ensures FindOne(Remove(s, id).value, id) == Failure(NotFound)
    ensures id !in FindAll(Remove(s, id).value)
  {
  }

  /** Listing one restaurant's menu is listing every menu restricted to that restaurant. */
  lemma FindByRestaurantRefinesFindAll(s: Store, restaurantId: Id)
    ensures forall i :: i in FindByRestaurant(s, restaurantId) <==> i in FindAll(s) && FindAll(s)[i].restaurantId == restaurantId
  {
  }
}
