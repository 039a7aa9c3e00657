/**
 * The `/orders` endpoints: each admits a fixed set of roles, validates its body,
 * and calls the order service with the authenticated caller's own id, role and
 * country, never with values taken from the request.
 */
module OrdersController {
  import opened Wrappers
  import opened Domain
  import opened Validation
  import Orders

  datatype Request =
    | PostOrder(restaurantId: Id)                        // POST   /orders
    | PostItem(orderId: Id, body: Body)                  // POST   /orders/:id/items
    | PatchItem(orderId: Id, itemId: Id, body: Body)     // PATCH  /orders/:id/items/:itemId
    | DeleteItem(orderId: Id, itemId: Id)                // DELETE /orders/:id/items/:itemId
    | PostCheckout(orderId: Id)                          // POST   /orders/:id/checkout
    | DeleteOrder(orderId: Id)                           // DELETE /orders/:id (cancel)
    | GetMyOrders                                        // GET    /orders/my-orders
    | GetOrders                                          // GET    /orders
    | GetOrder(orderId: Id)                              // GET    /orders/:id
    | PatchStatus(orderId: Id, status: OrderStatus)      // PATCH  /orders/:id/status

  datatype Reply =
    | OrderReply(id: Id, order: Order)
    | LineReply(line: OrderItem)
    | ItemRemoved
    | OrderList(orders: map<Id, Order>)

  const Operators: set<Role> := {Admin, Manager}

  /** The `@Roles(...)` list of each endpoint. */
  function AllowedRoles(req: Request): (roles: set<Role>)
    ensures Operators <= roles
    ensures Member in roles <==> !(req.PostCheckout? || req.DeleteOrder? || req.GetOrders? || req.PatchStatus?)
  {
    match req
    case PostOrder(_) => AllRoles
    case PostItem(_, _) => AllRoles
    case PatchItem(_, _, _) => AllRoles
    case DeleteItem(_, _) => AllRoles
    case PostCheckout(_) => Operators
    case DeleteOrder(_) => Operators
    case GetMyOrders => AllRoles
    case GetOrders => Operators
    case GetOrder(_) => AllRoles
    case PatchStatus(_, _) => Operators
  }

  predicate IsRead(req: Request) {
    req.GetMyOrders? || req.GetOrders? || req.GetOrder?
  }

  /** No order disappears and none changes hands. */
  predicate KeepsOrders(s: Store, s': Store) {
    && s'.orders.Keys >= s.orders.Keys
    && forall o | o in s.orders :: s'.orders[o].userId == s.orders[o].userId
  }

  /** The cart endpoints: body validation, then `addItem`, `updateItem` or `removeItem`. */
  function CartRequest(s: Store, user: Principal, req: Request, newId: Id): (r: Result<(Store, Reply), Error>)
    requires Fresh(s, newId) && (req.PostItem? || req.PatchItem? || req.DeleteItem?)
    ensures req.PostItem? && ValidateAddItem(req.body).None? ==> r == Failure(BadRequest)
    ensures req.PatchItem? && ValidateUpdateItem(req.body).None? ==> r == Failure(BadRequest)
    ensures r.Success? ==> KeepsOrders(s, r.value.0)
  {
    match req
    case PostItem(orderId, body) =>
      (match ValidateAddItem(body)
       case None => Failure(BadRequest)
       case Some(dto) =>
         (match Orders.AddItem(s, orderId, dto.menuItemId, dto.quantity, user.id, newId)
          case Failure(e) => Failure(e)
          case Success(v) => Success((v.0, LineReply(v.1)))))
    case PatchItem(orderId, itemId, body) =>
      (match ValidateUpdateItem(body)
       case None => Failure(BadRequest)
       case Some(dto) =>
         (match Orders.UpdateItem(s, orderId, itemId, dto.quantity, user.id)
          case Failure(e) => Failure(e)
          case Success(v) => Success((v.0, LineReply(v.1)))))
    case DeleteItem(orderId, itemId) =>
      (match Orders.RemoveItem(s, orderId, itemId, user.id)
       case Failure(e) => Failure(e)
       case Success(s') => Success((s', ItemRemoved)))
  }

  /** The lifecycle endpoints: checkout, cancel and the operator status update. */
  function LifecycleRequest(s: Store, user: Principal, req: Request): (r: Result<(Store, Reply), Error>)
    requires req.PostCheckout? || req.DeleteOrder? || req.PatchStatus?
    ensures r.Success? ==> KeepsOrders(s, r.value.0)
  {
    match req
    case PostCheckout(orderId) =>
      (match Orders.Checkout(s, orderId, user.id, user.role)
       case Failure(e) => Failure(e)
       case Success(s') => Success((s', OrderReply(orderId, s'.orders[orderId]))))
    case DeleteOrder(orderId) =>
      (match Orders.Cancel(s, orderId, user.id, user.role, user.country)
       case Failure(e) => Failure(e)
       case Success(s') => Success((s', OrderReply(orderId, s'.orders[orderId]))))
    case PatchStatus(orderId, status) =>
      (match Orders.UpdateOrderStatus(s, orderId, status, user)
       case Failure(e) => Failure(e)
       case Success(s') => Success((s', OrderReply(orderId, s'.orders[orderId]))))
  }

  /** The read endpoints never change the store. */
  function ReadRequest(s: Store, user: Principal, req: Request): (r: Result<(Store, Reply), Error>)
    requires IsRead(req)
    ensures r.Success? ==> r.value.0 == s
  {
    match req
    case GetMyOrders =>
      Success((s, OrderList(Orders.FindUserOrders(s, user.id))))
    case GetOrders =>
      Success((s, OrderList(Orders.FindAll(s, user.role, user.country))))
    case GetOrder(orderId) =>
      (match Orders.FindOne(s, orderId, user.id, user.role, user.country)
       case Failure(e) => Failure(e)
       case Success(o) => Success((s, OrderReply(orderId, o))))
  }

  /**
   * One request: the role gate (the roles guard runs first), then body
   * validation, then the service call.
   */
  function Handle(s: Store, user: Principal, req: Request, newId: Id): (r: Result<(Store, Reply), Error>)
    requires Fresh(s, newId)
    ensures user.role !in AllowedRoles(req) ==> r == Failure(Forbidden)
    ensures req.PostItem? && user.role in AllowedRoles(req) && ValidateAddItem(req.body).None? ==> r == Failure(BadRequest)
    ensures req.PatchItem? && user.role in AllowedRoles(req) && ValidateUpdateItem(req.body).None? ==> r == Failure(BadRequest)
    ensures r.Success? && IsRead(req) ==> r.value.0 == s
    ensures r.Success? ==> r.value.0.orders.Keys >= s.orders.Keys
    ensures r.Success? ==> forall o | o in s.orders :: r.value.0.orders[o].userId == s.orders[o].userId
  {
    if user.role !in AllowedRoles(req) then Failure(Forbidden)
    else if req.PostItem? || req.PatchItem? || req.DeleteItem? then CartRequest(s, user, req, newId)
    else if req.PostCheckout? || req.DeleteOrder? || req.PatchStatus? then LifecycleRequest(s, user, req)
    else if IsRead(req) then ReadRequest(s, user, req)
    else
      match Orders.Create(s, req.restaurantId, user.id, user.country, newId)
      case Failure(e) => Failure(e)
      case Success(s') => Success((s', OrderReply(newId, s'.orders[newId])))
  }

  /** A MEMBER can never check out, not even their own cart. */
  lemma MemberCannotCheckOut(s: Store, user: Principal, orderId: Id, newId: Id)
    requires Fresh(s, newId) && user.role == Member
    ensures Handle(s, user, PostCheckout(orderId), newId) == Failure(Forbidden)
  {
  }

  /**
   * `GET /orders` never shows a MANAGER an order of another country, and shows
   * an ADMIN every order.
   */
  lemma ListOrdersByCountry(s: Store, user: Principal, newId: Id)
    requires Fresh(s, newId) && user.role in Operators
    ensures Handle(s, user, GetOrders, newId).Success?
    ensures var list := Handle(s, user, GetOrders, newId).value.1.orders;
      && (user.role == Manager ==> forall o | o in list :: list[o].country == user.country)
      && (user.role == Admin ==> list == s.orders)
  {
  }

  /** A MEMBER reading another user's order by id is refused, whatever the countries. */
  lemma MemberCannotReadOthersOrder(s: Store, user: Principal, orderId: Id, newId: Id)
    requires Fresh(s, newId) && user.role == Member
    requires orderId in s.orders && s.orders[orderId].userId != user.id
    ensures Handle(s, user, GetOrder(orderId), newId) == Failure(Forbidden)
  {
  }
}
