/**
 * The entities of the food-ordering backend and the in-memory store that stands in
 * for its relational database.
 */
module Domain {
  import opened Wrappers

  /** Database identifiers (uuids) and user ids. */
  type Id = string

  datatype Role = Admin | Manager | Member

  /** The three roles, the `@Roles(...)` list of an endpoint open to every caller. */
  const AllRoles: set<Role> := {Admin, Manager, Member}

  lemma AllRolesComplete(r: Role)
    ensures r in AllRoles
  {
  }

  datatype Country = India | America

  /** The six lifecycle phases of an order. */
  datatype OrderStatus = Cart | Placed | Confirmed | Preparing | Delivered | Cancelled

  /** The authenticated caller, as the authentication layer supplies it. */
  datatype Principal = Principal(id: Id, role: Role, country: Country)

  /** JavaScript truthiness of a possibly undefined string: present and not empty. */
  predicate Truthy(v: Option<string>) {
    v.Some? && v.value != ""
  }

  /** The string value of the `Country` enum, as it travels in requests. */
  function CountryName(c: Country): string {
    match c
    case India => "INDIA"
    case America => "AMERICA"
  }

  datatype Restaurant = Restaurant(
    name: string,
    description: Option<string>,
    country: Country,
    imageUrl: Option<string>)

  /** A menu item; `price` is in cents, so totals are exact. */
  datatype MenuItem = MenuItem(
    restaurantId: Id,
    name: string,
    description: Option<string>,
    price: int,
    category: string,
    imageUrl: Option<string>,
    isAvailable: bool)

  datatype Order = Order(
    userId: Id,
    restaurantId: Id,
    country: Country,
    status: OrderStatus,
    totalAmount: int)

  /** An order line; `price` is captured from the menu item when the line is inserted. */
  datatype OrderItem = OrderItem(
    id: Id,
    orderId: Id,
    menuItemId: Id,
    quantity: int,
    price: int)

  /** A stored payment method; `cvv` holds the ciphertext, never the plaintext. */
  datatype PaymentMethod = PaymentMethod(
    id: Id,
    cardNumber: string,
    cardHolderName: string,
    expiryDate: string,
    cvv: string)

  /**
   * The persisted tables. Order lines are kept in creation order; payment
   * methods are keyed by the owning user's id (the column is unique).
   */
  datatype Store = Store(
    restaurants: map<Id, Restaurant>,
    menuItems: map<Id, MenuItem>,
    orders: map<Id, Order>,
    orderItems: seq<OrderItem>,
    paymentMethods: map<Id, PaymentMethod>)

  /**
   * The exceptions a call can end in. `StoreRejected` is the persistence layer
   * throwing (a write to a row that does not exist, a row missing a required
   * column); no handler maps it, so it reaches the caller as a server error.
   */
  datatype Error = NotFound | Forbidden | BadRequest | StoreRejected

  /** `id` is not yet used as the key of any row: what the database's uuid default provides. */
  predicate Fresh(s: Store, id: Id) {
    && id !in s.restaurants
    && id !in s.menuItems
    && id !in s.orders
    && (forall i | 0 <= i < |s.orderItems| :: s.orderItems[i].id != id)
    && (forall u | u in s.paymentMethods :: s.paymentMethods[u].id != id)
  }

  /** The key of the first element of a sequence satisfying `p`, if any. */
  function FirstMatch<T>(xs: seq<T>, p: T -> bool): (r: Option<nat>)
    ensures r.Some? ==> r.value < |xs| && p(xs[r.value])
    ensures r.Some? ==> forall j | 0 <= j < r.value :: !p(xs[j])
    ensures r.None? ==> forall j | 0 <= j < |xs| :: !p(xs[j])
  {
    if xs == [] then None
    else if p(xs[0]) then Some(0)
    else match FirstMatch(xs[1..], p)
      case None => None
      case Some(k) => Some(k + 1)
  }
}
