/** The restaurant service: country-filtered reads, unconditional admin writes. */
module Restaurants {
  import opened Wrappers
  import opened Domain
  import opened Access
  import MenuItems

  /** A restaurant as the reads return it: with its available menu items embedded. */
  datatype RestaurantView = RestaurantView(id: Id, restaurant: Restaurant, menuItems: map<Id, MenuItem>)

  /** The partial update the admin sends; `None` leaves a field as it is. */
  datatype RestaurantPatch = RestaurantPatch(
    name: Option<string>,
    description: Option<string>,
    country: Option<Country>,
    imageUrl: Option<string>)

  /** The view of restaurant `id`: the record and its available menu items. */
  function ViewOf(s: Store, id: Id): RestaurantView
    requires id in s.restaurants
  {
    RestaurantView(id, s.restaurants[id], MenuItems.FindByRestaurant(s, id))
  }

  /** `create`: the admin's record is stored under a fresh id. */
  function Create(s: Store, dto: Restaurant, newId: Id): (s': Store)
    requires Fresh(s, newId)
    ensures s' == s.(restaurants := s'.restaurants)
    ensures s'.restaurants.Keys == s.restaurants.Keys + {newId} && s'.restaurants[newId] == dto
    ensures forall i | i in s.restaurants :: s'.restaurants[i] == s.restaurants[i]
  {
    s.(restaurants := s.restaurants[newId := dto])
  }

  /** `findAll`: every restaurant for ADMIN, otherwise exactly those of the caller's country. */
  function FindAll(s: Store, userCountry: Country, userRole: Role): (r: map<Id, RestaurantView>)
    ensures forall i :: i in r <==> i in s.restaurants && CountryAllows(userRole, userCountry, s.restaurants[i].country)
    ensures forall i | i in r :: r[i] == ViewOf(s, i)
  {
    if userRole == Admin then map i | i in s.restaurants :: ViewOf(s, i)
    else map i | i in s.restaurants && s.restaurants[i].country == userCountry :: ViewOf(s, i)
  }

  /**
   * `findOne`: NotFound when absent, Forbidden when a non-ADMIN caller's
   * country differs. The admin write paths call it with no country at all,
   * which the ADMIN role makes irrelevant.
   */
  function FindOne(s: Store, id: Id, userCountry: Option<Country>, userRole: Role): (r: Result<RestaurantView, Error>)
    ensures id !in s.restaurants <==> r == Failure(NotFound)
    ensures r.Success? <==> id in s.restaurants && (userRole == Admin || userCountry == Some(s.restaurants[id].country))
    ensures r.Failure? ==> r.error in {NotFound, Forbidden}
    ensures r.Success? ==> r.value == ViewOf(s, id)
  {
    if id !in s.restaurants then Failure(NotFound)
    else if userRole != Admin && Some(s.restaurants[id].country) != userCountry then Failure(Forbidden)
    else Success(ViewOf(s, id))
  }

  function ApplyPatch(r: Restaurant, p: RestaurantPatch): Restaurant {
    Restaurant(
      p.name.GetOr(r.name),
      if p.description.Some? then p.description else r.description,
      p.country.GetOr(r.country),
      if p.imageUrl.Some? then p.imageUrl else r.imageUrl)
  }

  /**
   * `update`: the only failure is NotFound; otherwise the patch is applied,
   * possibly moving the restaurant to another country. Orders keep the country
   * they copied at creation.
   */
  function Update(s: Store, id: Id, patch: RestaurantPatch): (r: Result<Store, Error>)
    ensures r.Failure? <==> id !in s.restaurants
    ensures r.Failure? ==> r.error == NotFound
    ensures r.Success? ==>
      && r.value == s.(restaurants := r.value.restaurants)
      && r.value.restaurants.Keys == s.restaurants.Keys
      && (forall i | i in s.restaurants && i != id :: r.value.restaurants[i] == s.restaurants[i])
      && r.value.restaurants[id].country == patch.country.GetOr(s.restaurants[id].country)
      && r.value.restaurants[id].name == patch.name.GetOr(s.restaurants[id].name)
      && r.value.restaurants[id].description == (if patch.description.Some? then patch.description else s.restaurants[id].description)
      && r.value.restaurants[id].imageUrl == (if patch.imageUrl.Some? then patch.imageUrl else s.restaurants[id].imageUrl)
  {
    match FindOne(s, id, None, Admin)
    case Failure(e) => Failure(e)
    case Success(_) => Success(s.(restaurants := s.restaurants[id := ApplyPatch(s.restaurants[id], patch)]))
  }

  /** `remove`: the only failure is NotFound; otherwise the restaurant row is gone. */
  function Remove(s: Store, id: Id): (r: Result<Store, Error>)
    ensures r.Failure? <==> id !in s.restaurants
    ensures r.Failure? ==> r.error == NotFound
    ensures r.Success? ==>
      && r.value == s.(restaurants := r.value.restaurants)
      && r.value.restaurants.Keys == s.restaurants.Keys - {id}
      && (forall i | i in r.value.restaurants :: r.value.restaurants[i] == s.restaurants[i])
  {
    match FindOne(s, id, None, Admin)
    case Failure(e) => Failure(e)
    case Success(_) => Success(s.(restaurants := s.restaurants - {id}))
  }

  /** A created restaurant is then found by id, as the record the admin sent. */
  lemma CreateThenFind(s: Store, dto: Restaurant, newId: Id)
    requires Fresh(s, newId)
    ensures var s' := Create(s, dto, newId);
      FindOne(s', newId, None, Admin).Success? && FindOne(s', newId, None, Admin).value.restaurant == dto
  {
  }

  /** After `remove`, looking the restaurant up gives NotFound, whoever asks. */
  lemma RemoveThenFind(s: Store, id: Id, userCountry: Option<Country>, userRole: Role)
    requires Remove(s, id).Success?
    ensures FindOne(Remove(s, id).value, id, userCountry, userRole) == Failure(NotFound)
  {
  }

  /**
   * Moving a restaurant to another country leaves its existing orders in the
   * country they were created in, so country checks on those orders keep
   * using the old country.
   */
  lemma UpdateKeepsOrderCountry(s: Store, id: Id, patch: RestaurantPatch, orderId: Id)
    requires orderId in s.orders && s.orders[orderId].restaurantId == id
    requires Update(s, id, patch).Success?
    ensures orderId in Update(s, id, patch).value.orders
    ensures Update(s, id, patch).value.orders[orderId].country == s.orders[orderId].country
  {
  }
}
