/**
 * The order service: cart mutation, total recomputation, checkout, cancel,
 * operator status updates and the order read filters.
 */
module Orders {
  import opened Wrappers
  import opened Domain
  import opened Access

  // ---- totals ----

  /** What one line contributes to the total of `orderId`. */
  function LineAmount(line: OrderItem, orderId: Id): int {
    if line.orderId == orderId then line.price * line.quantity else 0
  }

  /** Σ price × quantity over the lines of `orderId`: never negative when no price or quantity is. */
  function LinesTotal(lines: seq<OrderItem>, orderId: Id): (r: int)
    ensures (forall i | 0 <= i < |lines| :: lines[i].price >= 0 && lines[i].quantity >= 0) ==> r >= 0
  {
    if lines == [] then 0 else LineAmount(lines[0], orderId) + LinesTotal(lines[1..], orderId)
  }

  /** The order has at least one line. */
  predicate HasLines(lines: seq<OrderItem>, orderId: Id) {
    exists i | 0 <= i < |lines| :: lines[i].orderId == orderId
  }

  /** The first line of `orderId` for `menuItemId` (the `findFirst` of `addItem`). */
  function FindLine(lines: seq<OrderItem>, orderId: Id, menuItemId: Id): (r: Option<nat>)
    ensures r.Some? ==> r.value < |lines| && lines[r.value].orderId == orderId && lines[r.value].menuItemId == menuItemId
    ensures r.Some? ==> forall j | 0 <= j < r.value :: lines[j].orderId != orderId || lines[j].menuItemId != menuItemId
    ensures r.None? <==> forall j | 0 <= j < |lines| :: lines[j].orderId != orderId || lines[j].menuItemId != menuItemId
  {
    FirstMatch(lines, (l: OrderItem) => l.orderId == orderId && l.menuItemId == menuItemId)
  }

  /** The line with id `itemId`, whichever order it belongs to (the `where: { id: itemId }` of the line writes). */
  function LineIndex(lines: seq<OrderItem>, itemId: Id): (r: Option<nat>)
    ensures r.Some? ==> r.value < |lines| && lines[r.value].id == itemId
    ensures r.Some? ==> forall j | 0 <= j < r.value :: lines[j].id != itemId
    ensures r.None? <==> forall j | 0 <= j < |lines| :: lines[j].id != itemId
  {
    FirstMatch(lines, (l: OrderItem) => l.id == itemId)
  }

  /** `updateOrderTotal`: store Σ price × quantity of the order's lines as its total. */
  function UpdateOrderTotal(s: Store, orderId: Id): (s': Store)
    requires orderId in s.orders
    ensures s'.orders.Keys == s.orders.Keys
    ensures s'.orders[orderId].totalAmount == LinesTotal(s.orderItems, orderId)
    ensures s'.orders[orderId] == s.orders[orderId].(totalAmount := s'.orders[orderId].totalAmount)
    ensures forall o | o in s.orders && o != orderId :: s'.orders[o] == s.orders[o]
    ensures s' == s.(orders := s'.orders)
  {
    s.(orders := s.orders[orderId := s.orders[orderId].(totalAmount := LinesTotal(s.orderItems, orderId))])
  }

  /** `s'` differs from `s` at most in the record of order `orderId`. */
  predicate OnlyOrderChanged(s: Store, s': Store, orderId: Id) {
    && s' == s.(orders := s'.orders)
    && s'.orders.Keys == s.orders.Keys
    && (forall o | o in s.orders && o != orderId :: s'.orders[o] == s.orders[o])
  }

  /** `s'` differs from `s` at most in the order lines and in the total of order `orderId`. */
  predicate OnlyLinesAndTotalChanged(s: Store, s': Store, orderId: Id) {
    && s' == s.(orders := s'.orders, orderItems := s'.orderItems)
    && s'.orders.Keys == s.orders.Keys
    && orderId in s.orders
    && (forall o | o in s.orders && o != orderId :: s'.orders[o] == s.orders[o])
    && s'.orders[orderId] == s.orders[orderId].(totalAmount := s'.orders[orderId].totalAmount)
  }

  // ---- create ----

  /**
   * `create`: a new cart for `userId` at the restaurant, in the restaurant's
   * country. `userCountry` is accepted and ignored.
   */
  function Create(s: Store, restaurantId: Id, userId: Id, userCountry: Country, newId: Id): (r: Result<Store, Error>)
    requires Fresh(s, newId)
    ensures r.Failure? <==> restaurantId !in s.restaurants
    ensures r.Failure? ==> r.error == NotFound
    ensures r.Success? ==>
      && r.value == s.(orders := r.value.orders)
      && r.value.orders.Keys == s.orders.Keys + {newId}
      && (forall o | o in s.orders :: r.value.orders[o] == s.orders[o])
      && r.value.orders[newId].userId == userId
      && r.value.orders[newId].restaurantId == restaurantId
      && r.value.orders[newId].country == s.restaurants[restaurantId].country
      && r.value.orders[newId].status == Cart
      && r.value.orders[newId].totalAmount == 0
  {
    if restaurantId !in s.restaurants then Failure(NotFound)
    else
      var order := Order(userId, restaurantId, s.restaurants[restaurantId].country, Cart, 0);
      Success(s.(orders := s.orders[newId := order]))
  }

  // ---- cart mutation ----

  /** The guard shared by `addItem`, `updateItem` and `removeItem`: the order exists, is the caller's, and is a cart. */
  function CartGuard(s: Store, orderId: Id, userId: Id): (r: Option<Error>)
    ensures r.None? <==> orderId in s.orders && s.orders[orderId].userId == userId && s.orders[orderId].status == Cart
    ensures orderId !in s.orders ==> r == Some(NotFound)
    ensures orderId in s.orders && s.orders[orderId].userId != userId ==> r == Some(Forbidden)
    ensures orderId in s.orders && s.orders[orderId].userId == userId && s.orders[orderId].status != Cart ==> r == Some(BadRequest)
  {
    if orderId !in s.orders then Some(NotFound)
    else if s.orders[orderId].userId != userId then Some(Forbidden)
    else if s.orders[orderId].status != Cart then Some(BadRequest)
    else None
  }

  /**
   * `addItem`: checks order, ownership, cart status, menu item and its
   * availability, in that order. A menu item already in the order has its
   * quantity increased; otherwise a line is inserted at the menu item's current
   * price. Returns the line. The menu item's restaurant is never compared with
   * the order's.
   */
  function AddItem(s: Store, orderId: Id, menuItemId: Id, quantity: int, userId: Id, newId: Id): (r: Result<(Store, OrderItem), Error>)
    requires Fresh(s, newId)
    ensures CartGuard(s, orderId, userId).Some? ==> r == Failure(CartGuard(s, orderId, userId).value)
    ensures CartGuard(s, orderId, userId).None? && menuItemId !in s.menuItems ==> r == Failure(NotFound)
    ensures CartGuard(s, orderId, userId).None? && menuItemId in s.menuItems && !s.menuItems[menuItemId].isAvailable ==>
      r == Failure(BadRequest)
    ensures r.Success? <==>
      CartGuard(s, orderId, userId).None? && menuItemId in s.menuItems && s.menuItems[menuItemId].isAvailable
    ensures r.Success? ==>
      var (s', line) := r.value;
      && line.orderId == orderId && line.menuItemId == menuItemId
      && OnlyLinesAndTotalChanged(s, s', orderId)
      && s'.orders[orderId].totalAmount == LinesTotal(s'.orderItems, orderId)
      && (FindLine(s.orderItems, orderId, menuItemId).None? ==>
            && line == OrderItem(newId, orderId, menuItemId, quantity, s.menuItems[menuItemId].price)
            && s'.orderItems == s.orderItems + [line])
      && (FindLine(s.orderItems, orderId, menuItemId).Some? ==>
            var k := FindLine(s.orderItems, orderId, menuItemId).value;
            && line == s.orderItems[k].(quantity := s.orderItems[k].quantity + quantity)
            && s'.orderItems == s.orderItems[k := line])
  {
    var guard := CartGuard(s, orderId, userId);
    if guard.Some? then Failure(guard.value)
    else if menuItemId !in s.menuItems then Failure(NotFound)
    else if !s.menuItems[menuItemId].isAvailable then Failure(BadRequest)
    else
      match FindLine(s.orderItems, orderId, menuItemId)
      case Some(k) =>
        var line := s.orderItems[k].(quantity := s.orderItems[k].quantity + quantity);
        Success((UpdateOrderTotal(s.(orderItems := s.orderItems[k := line]), orderId), line))
      case None =>
        var line := OrderItem(newId, orderId, menuItemId, quantity, s.menuItems[menuItemId].price);
        Success((UpdateOrderTotal(s.(orderItems := s.orderItems + [line]), orderId), line))
  }

  /**
   * `updateItem`: after the cart guard on `orderId`, sets the quantity of the
   * line `itemId` wherever that line lives, then recomputes the total of
   * `orderId`. A missing line makes the store throw.
   */
  function UpdateItem(s: Store, orderId: Id, itemId: Id, quantity: int, userId: Id): (r: Result<(Store, OrderItem), Error>)
    ensures CartGuard(s, orderId, userId).Some? ==> r == Failure(CartGuard(s, orderId, userId).value)
    ensures CartGuard(s, orderId, userId).None? && LineIndex(s.orderItems, itemId).None? ==> r == Failure(StoreRejected)
    ensures r.Success? <==> CartGuard(s, orderId, userId).None? && LineIndex(s.orderItems, itemId).Some?
    ensures r.Success? ==>
      var (s', line) := r.value;
      var k := LineIndex(s.orderItems, itemId).value;
      && line.id == itemId && line.quantity == quantity
      && line == s.orderItems[k].(quantity := quantity)
      && s'.orderItems == s.orderItems[k := line]
      && OnlyLinesAndTotalChanged(s, s', orderId)
      && s'.orders[orderId].totalAmount == LinesTotal(s'.orderItems, orderId)
  {
    var guard := CartGuard(s, orderId, userId);
    if guard.Some? then Failure(guard.value)
    else
      match LineIndex(s.orderItems, itemId)
      case None => Failure(StoreRejected)
      case Some(k) =>
        var line := s.orderItems[k].(quantity := quantity);
        Success((UpdateOrderTotal(s.(orderItems := s.orderItems[k := line]), orderId), line))
  }

  /**
   * `removeItem`: after the cart guard on `orderId`, deletes the line `itemId`
   * wherever that line lives, then recomputes the total of `orderId`.
   */
  function RemoveItem(s: Store, orderId: Id, itemId: Id, userId: Id): (r: Result<Store, Error>)
    ensures CartGuard(s, orderId, userId).Some? ==> r == Failure(CartGuard(s, orderId, userId).value)
    ensures CartGuard(s, orderId, userId).None? && LineIndex(s.orderItems, itemId).None? ==> r == Failure(StoreRejected)
    ensures r.Success? <==> CartGuard(s, orderId, userId).None? && LineIndex(s.orderItems, itemId).Some?
    ensures r.Success? ==>
      var k := LineIndex(s.orderItems, itemId).value;
      && |r.value.orderItems| == |s.orderItems| - 1
      && r.value.orderItems == s.orderItems[..k] + s.orderItems[k + 1..]
      && OnlyLinesAndTotalChanged(s, r.value, orderId)
      && r.value.orders[orderId].totalAmount == LinesTotal(r.value.orderItems, orderId)
  {
    var guard := CartGuard(s, orderId, userId);
    if guard.Some? then Failure(guard.value)
    else
      match LineIndex(s.orderItems, itemId)
      case None => Failure(StoreRejected)
      case Some(k) =>
        Success(UpdateOrderTotal(s.(orderItems := s.orderItems[..k] + s.orderItems[k + 1..]), orderId))
  }

  // ---- lifecycle ----

  /**
   * `checkout`: ownership, cart status, a non-empty cart and a payment method on
   * file, in that order; then the order is PLACED and nothing else changes.
   * `userRole` is accepted and unused.
   */
  function Checkout(s: Store, orderId: Id, userId: Id, userRole: Role): (r: Result<Store, Error>)
    ensures CartGuard(s, orderId, userId).Some? ==> r == Failure(CartGuard(s, orderId, userId).value)
    ensures CartGuard(s, orderId, userId).None? && !HasLines(s.orderItems, orderId) ==> r == Failure(BadRequest)
    ensures CartGuard(s, orderId, userId).None? && userId !in s.paymentMethods ==> r == Failure(BadRequest)
    ensures r.Success? <==>
      CartGuard(s, orderId, userId).None? && HasLines(s.orderItems, orderId) && userId in s.paymentMethods
    ensures r.Success? ==>
      && OnlyOrderChanged(s, r.value, orderId)
      && r.value.orders[orderId] == s.orders[orderId].(status := Placed)
  {
    var guard := CartGuard(s, orderId, userId);
    if guard.Some? then Failure(guard.value)
    else if !HasLines(s.orderItems, orderId) then Failure(BadRequest)
    else if s.orders[orderId].userId !in s.paymentMethods then Failure(BadRequest)
    else Success(s.(orders := s.orders[orderId := s.orders[orderId].(status := Placed)]))
  }

  /** The two states no operator action may leave. */
  predicate Terminal(status: OrderStatus) {
    status == Cancelled || status == Delivered
  }

  /**
   * `cancel`: country (skipped for ADMIN), then not already CANCELLED or
   * DELIVERED; every other status, CART and PREPARING included, becomes
   * CANCELLED. There is no ownership check: `userId` is unused.
   */
  function Cancel(s: Store, orderId: Id, userId: Id, userRole: Role, userCountry: Country): (r: Result<Store, Error>)
    ensures orderId !in s.orders ==> r == Failure(NotFound)
    ensures orderId in s.orders && !CountryAllows(userRole, userCountry, s.orders[orderId].country) ==> r == Failure(Forbidden)
    ensures orderId in s.orders && CountryAllows(userRole, userCountry, s.orders[orderId].country) && Terminal(s.orders[orderId].status) ==>
      r == Failure(BadRequest)
    ensures r.Success? <==>
      && orderId in s.orders
      && CountryAllows(userRole, userCountry, s.orders[orderId].country)
      && !Terminal(s.orders[orderId].status)
    ensures r.Success? ==>
      && OnlyOrderChanged(s, r.value, orderId)
      && r.value.orders[orderId] == s.orders[orderId].(status := Cancelled)
  {
    if orderId !in s.orders then Failure(NotFound)
    else if userRole != Admin && s.orders[orderId].country != userCountry then Failure(Forbidden)
    else if s.orders[orderId].status == Cancelled then Failure(BadRequest)
    else if s.orders[orderId].status == Delivered then Failure(BadRequest)
    else Success(s.(orders := s.orders[orderId := s.orders[orderId].(status := Cancelled)]))
  }

  /**
   * `updateOrderStatus`: country (skipped for ADMIN), not terminal, not CART;
   * then the requested status, whatever it is, is written.
   */
  function UpdateOrderStatus(s: Store, orderId: Id, status: OrderStatus, user: Principal): (r: Result<Store, Error>)
    ensures orderId !in s.orders ==> r == Failure(NotFound)
    ensures orderId in s.orders && !CountryAllows(user.role, user.country, s.orders[orderId].country) ==> r == Failure(Forbidden)
    ensures (&& orderId in s.orders
             && CountryAllows(user.role, user.country, s.orders[orderId].country)
             && (Terminal(s.orders[orderId].status) || s.orders[orderId].status == Cart)) ==> r == Failure(BadRequest)
    ensures r.Success? <==>
      && orderId in s.orders
      && CountryAllows(user.role, user.country, s.orders[orderId].country)
      && s.orders[orderId].status in {Placed, Confirmed, Preparing}
    ensures r.Success? ==>
      && OnlyOrderChanged(s, r.value, orderId)
      && r.value.orders[orderId] == s.orders[orderId].(status := status)
  {
    if orderId !in s.orders then Failure(NotFound)
    else if user.role != Admin && s.orders[orderId].country != user.country then Failure(Forbidden)
    else if s.orders[orderId].status == Cancelled || s.orders[orderId].status == Delivered then Failure(BadRequest)
    else if s.orders[orderId].status == Cart then Failure(BadRequest)
    else Success(s.(orders := s.orders[orderId := s.orders[orderId].(status := status)]))
  }

  // ---- reads ----

  /** `findUserOrders`: exactly the caller's orders. */
  function FindUserOrders(s: Store, userId: Id): (r: map<Id, Order>)
    ensures forall o :: o in r <==> o in s.orders && s.orders[o].userId == userId
    ensures forall o | o in r :: r[o] == s.orders[o]
  {
    map o | o in s.orders && s.orders[o].userId == userId :: s.orders[o]
  }

  /** `findAll`: every order for ADMIN, otherwise exactly the orders of the caller's country. */
  function FindAll(s: Store, userRole: Role, userCountry: Country): (r: map<Id, Order>)
    ensures forall o :: o in r <==> o in s.orders && CountryAllows(userRole, userCountry, s.orders[o].country)
    ensures forall o | o in r :: r[o] == s.orders[o]
  {
    if userRole == Admin then s.orders
    else map o | o in s.orders && s.orders[o].country == userCountry :: s.orders[o]
  }

  /**
   * `findOne`: a MEMBER may read only their own orders, a MANAGER only orders of
   * their country, an ADMIN any order.
   */
  function FindOne(s: Store, orderId: Id, userId: Id, userRole: Role, userCountry: Country): (r: Result<Order, Error>)
    ensures orderId !in s.orders <==> r == Failure(NotFound)
    ensures r.Failure? ==> r.error in {NotFound, Forbidden}
    ensures r.Success? <==>
      && orderId in s.orders
      && (userRole == Member ==> s.orders[orderId].userId == userId)
      && (userRole != Member ==> CountryAllows(userRole, userCountry, s.orders[orderId].country))
    ensures r.Success? ==> r.value == s.orders[orderId]
  {
    if orderId !in s.orders then Failure(NotFound)
    else if userRole == Member && s.orders[orderId].userId != userId then Failure(Forbidden)
    else if userRole == Manager && s.orders[orderId].country != userCountry then Failure(Forbidden)
    else Success(s.orders[orderId])
  }
}
