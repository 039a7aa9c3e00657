/**
 * The whole API: one request to any of the four controllers, and what holds
 * across all of them.
 */
module App {
  import opened Wrappers
  import opened Domain
  import opened Validation
  import Orders
  import OrderProofs
  import OrdersController
  import RestaurantsController
  import MenuItemsController
  import PaymentsController

  datatype Request =
    | ToOrders(orders: OrdersController.Request)
    | ToRestaurants(restaurants: RestaurantsController.Request)
    | ToMenuItems(menuItems: MenuItemsController.Request)
    | ToPayments(payments: PaymentsController.Request)

  datatype Reply =
    | FromOrders(orders: OrdersController.Reply)
    | FromRestaurants(restaurants: RestaurantsController.Reply)
    | FromMenuItems(menuItems: MenuItemsController.Reply)
    | FromPayments(payments: PaymentsController.Reply)

  /**
   * Routes a request to its controller. Only the orders controller touches
   * orders and order lines; every other controller leaves both as they were.
   */
  function Handle(s: Store, user: Principal, req: Request, seal: string -> string, newId: Id)
    : (r: Result<(Store, Reply), Error>)
    requires Fresh(s, newId)
    ensures r.Success? && !req.ToOrders? ==>
      r.value.0.orders == s.orders && r.value.0.orderItems == s.orderItems
    ensures r.Success? ==> r.value.0.orders.Keys >= s.orders.Keys
  {
    match req
    case ToOrders(q) =>
      (match OrdersController.Handle(s, user, q, newId)
       case Failure(e) => Failure(e)
       case Success(v) => Success((v.0, FromOrders(v.1))))
    case ToRestaurants(q) =>
      (match RestaurantsController.Handle(s, user, q, newId)
       case Failure(e) => Failure(e)
       case Success(v) => Success((v.0, FromRestaurants(v.1))))
    case ToMenuItems(q) =>
      (match MenuItemsController.Handle(s, user, q, newId)
       case Failure(e) => Failure(e)
       case Success(v) => Success((v.0, FromMenuItems(v.1))))
    case ToPayments(q) =>
      (match PaymentsController.Handle(s, user, q, seal, newId)
       case Failure(e) => Failure(e)
       case Success(v) => Success((v.0, FromPayments(v.1))))
  }

  /**
   * Every request, by any caller, keeps order lines well formed: unique ids,
   * an existing order, a positive quantity, one line per menu item per order.
   * The item endpoints rely on body validation for the positive quantity.
   */
  lemma HandleKeepsLinesWellFormed(s: Store, user: Principal, req: Request, seal: string -> string, newId: Id)
    requires Fresh(s, newId) && OrderProofs.LinesWellFormed(s)
    ensures Handle(s, user, req, seal, newId).Success? ==>
      OrderProofs.LinesWellFormed(Handle(s, user, req, seal, newId).value.0)
  {
    var r := Handle(s, user, req, seal, newId);
    if r.Success? && req.ToOrders? {
      var s' := r.value.0;
      match req.orders
      case PostItem(orderId, body) =>
        var dto := ValidateAddItem(body).value;
        OrderProofs.AddItemKeepsLinesWellFormed(s, orderId, dto.menuItemId, dto.quantity, user.id, newId);
      case PatchItem(orderId, itemId, body) =>
        var dto := ValidateUpdateItem(body).value;
        OrderProofs.LineEditsKeepLinesWellFormed(s, orderId, itemId, dto.quantity, user.id);
      case DeleteItem(orderId, itemId) =>
        OrderProofs.LineEditsKeepLinesWellFormed(s, orderId, itemId, 1, user.id);
      case _ =>
        assert s'.orderItems == s.orderItems;
    }
  }

  /**
   * A cart leaves CART only to be PLACED by its own owner acting as ADMIN or
   * MANAGER, or CANCELLED by an ADMIN or MANAGER of its country. So the cart
   * of a MEMBER can never be placed, and its owner cannot cancel it either.
   */
  lemma CartLeavesOnlyByOperator(s: Store, user: Principal, req: Request, seal: string -> string, newId: Id, o: Id)
    requires Fresh(s, newId) && o in s.orders && s.orders[o].status == Cart
    requires Handle(s, user, req, seal, newId).Success?
    ensures var st := Handle(s, user, req, seal, newId).value.0.orders[o].status;
      && st in {Cart, Placed, Cancelled}
      && (st == Placed ==> req == ToOrders(OrdersController.PostCheckout(o)) && user.id == s.orders[o].userId && user.role != Member)
      && (st == Cancelled ==> req == ToOrders(OrdersController.DeleteOrder(o)) && user.role != Member
                               && (user.role == Admin || user.country == s.orders[o].country))
  {
  }
}
