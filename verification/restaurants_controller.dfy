/** The `/restaurants` endpoints: reads for every role, writes for ADMIN only. */
module RestaurantsController {
  import opened Wrappers
  import opened Domain
  import Restaurants

  datatype Request =
    | PostRestaurant(dto: Restaurant)                                  // POST   /restaurants
    | GetRestaurants                                                   // GET    /restaurants
    | GetRestaurant(id: Id)                                            // GET    /restaurants/:id
    | PatchRestaurant(id: Id, patch: Restaurants.RestaurantPatch)      // PATCH  /restaurants/:id
    | DeleteRestaurant(id: Id)                                         // DELETE /restaurants/:id

  datatype Reply =
    | RestaurantReply(id: Id, restaurant: Restaurant)
    | RestaurantDetail(view: Restaurants.RestaurantView)
    | RestaurantList(views: map<Id, Restaurants.RestaurantView>)

  /** The `@Roles(...)` list of each endpoint. */
  function AllowedRoles(req: Request): (roles: set<Role>)
    ensures Admin in roles
    ensures roles == {Admin} <==> !(req.GetRestaurants? || req.GetRestaurant?)
    ensures req.GetRestaurants? || req.GetRestaurant? ==> roles == AllRoles
  {
    match req
    case GetRestaurants => AllRoles
    case GetRestaurant(_) => AllRoles
    case _ => {Admin}
  }

  /** One request: the role gate, then the service call with the caller's own country and role. */
  function Handle(s: Store, user: Principal, req: Request, newId: Id): (r: Result<(Store, Reply), Error>)
    requires Fresh(s, newId)
    ensures user.role !in AllowedRoles(req) ==> r == Failure(Forbidden)
    ensures r.Success? ==> r.value.0 == s.(restaurants := r.value.0.restaurants)
    ensures r.Success? && (req.GetRestaurants? || req.GetRestaurant?) ==> r.value.0 == s
  {
    AllRolesComplete(user.role);
    if user.role !in AllowedRoles(req) then Failure(Forbidden)
    else match req
      case PostRestaurant(dto) =>
        var s' := Restaurants.Create(s, dto, newId);
        Success((s', RestaurantReply(newId, dto)))
      case GetRestaurants =>
        Success((s, RestaurantList(Restaurants.FindAll(s, user.country, user.role))))
      case GetRestaurant(id) =>
        (match Restaurants.FindOne(s, id, Some(user.country), user.role)
         case Failure(e) => Failure(e)
         case Success(v) => Success((s, RestaurantDetail(v))))
      case PatchRestaurant(id, patch) =>
        (match Restaurants.Update(s, id, patch)
         case Failure(e) => Failure(e)
         case Success(s') => Success((s', RestaurantReply(id, s'.restaurants[id]))))
      case DeleteRestaurant(id) =>
        (match Restaurants.Remove(s, id)
         case Failure(e) => Failure(e)
         case Success(s') => Success((s', RestaurantReply(id, s.restaurants[id]))))
  }

  /**
   * A non-ADMIN caller sees, by list or by id, exactly the restaurants of their
   * own country.
   */
  lemma NonAdminSeesOwnCountry(s: Store, user: Principal, id: Id, newId: Id)
    requires Fresh(s, newId) && user.role != Admin
    ensures Handle(s, user, GetRestaurants, newId).Success?
    ensures var list := Handle(s, user, GetRestaurants, newId).value.1.views;
      forall i :: i in list <==> i in s.restaurants && s.restaurants[i].country == user.country
    ensures id in s.restaurants ==>
      (Handle(s, user, GetRestaurant(id), newId).Success? <==> s.restaurants[id].country == user.country)
  {
  }
}
