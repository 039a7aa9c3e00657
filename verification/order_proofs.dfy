/**
 * What the order service keeps true, and where it does not: totals stay equal
 * to Σ price × quantity, lines stay well formed, and the one gap, that a line
 * of another order can be edited through a caller's own cart.
 */
module OrderProofs {
  import opened Wrappers
  import opened Domain
  import opened Orders

  // ---- the invariants ----

  /** Every order's stored total is Σ price × quantity over its lines. */
  predicate TotalsConsistent(s: Store) {
    forall o | o in s.orders :: s.orders[o].totalAmount == LinesTotal(s.orderItems, o)
  }

  /**
   * Line ids are unique, every line belongs to an existing order and has a
   * quantity of at least one, and an order has at most one line per menu item.
   */
  predicate LinesWellFormed(s: Store) {
    && (forall i, j | 0 <= i < j < |s.orderItems| :: s.orderItems[i].id != s.orderItems[j].id)
    && (forall i | 0 <= i < |s.orderItems| :: s.orderItems[i].orderId in s.orders && s.orderItems[i].quantity >= 1)
    && (forall i, j | 0 <= i < j < |s.orderItems| ::
          s.orderItems[i].orderId != s.orderItems[j].orderId || s.orderItems[i].menuItemId != s.orderItems[j].menuItemId)
  }

  predicate Valid(s: Store) {
    TotalsConsistent(s) && LinesWellFormed(s)
  }

  // ---- arithmetic of the total ----

  /** Appending a line adds exactly its amount. */
  lemma {:induction false} LinesTotalAppend(xs: seq<OrderItem>, x: OrderItem, o: Id)
    ensures LinesTotal(xs + [x], o) == LinesTotal(xs, o) + LineAmount(x, o)
  {
    if xs == [] {
      assert [x][1..] == [];
    } else {
      assert (xs + [x])[1..] == xs[1..] + [x];
      LinesTotalAppend(xs[1..], x, o);
    }
  }

  /** Replacing one line swaps its amount for the new line's. */
  lemma {:induction false} LinesTotalReplace(xs: seq<OrderItem>, k: nat, y: OrderItem, o: Id)
    requires k < |xs|
    ensures LinesTotal(xs[k := y], o) == LinesTotal(xs, o) - LineAmount(xs[k], o) + LineAmount(y, o)
  {
    if k == 0 {
      assert xs[k := y][1..] == xs[1..];
    } else {
      assert xs[k := y][1..] == xs[1..][k - 1 := y];
      LinesTotalReplace(xs[1..], k - 1, y, o);
    }
  }

  /** Deleting one line subtracts exactly its amount. */
  lemma {:induction false} LinesTotalDelete(xs: seq<OrderItem>, k: nat, o: Id)
    requires k < |xs|
    ensures LinesTotal(xs[..k] + xs[k + 1..], o) == LinesTotal(xs, o) - LineAmount(xs[k], o)
  {
    if k == 0 {
      assert xs[..0] + xs[1..] == xs[1..];
    } else {
      assert (xs[..k] + xs[k + 1..])[1..] == xs[1..][..k - 1] + xs[1..][k..];
      LinesTotalDelete(xs[1..], k - 1, o);
    }
  }

  /** An order that fails the empty-cart test of checkout totals zero. */
  lemma {:induction false} LinesTotalNoLines(xs: seq<OrderItem>, o: Id)
    requires !HasLines(xs, o)
    ensures LinesTotal(xs, o) == 0
  {
    if xs != [] {
      LinesTotalNoLines(xs[1..], o);
    }
  }

  // ---- create ----

  /** A new cart has no lines, so its zero total is consistent. */
  lemma CreatePreservesValid(s: Store, restaurantId: Id, userId: Id, userCountry: Country, newId: Id)
    requires Fresh(s, newId) && Valid(s)
    ensures Create(s, restaurantId, userId, userCountry, newId).Success? ==>
              Valid(Create(s, restaurantId, userId, userCountry, newId).value)
  {
    var r := Create(s, restaurantId, userId, userCountry, newId);
    if r.Success? {
      LinesTotalNoLines(s.orderItems, newId);
    }
  }

  /** The caller's own country plays no part in creating an order. */
  lemma CreateIgnoresUserCountry(s: Store, restaurantId: Id, userId: Id, c1: Country, c2: Country, newId: Id)
    requires Fresh(s, newId)
    ensures Create(s, restaurantId, userId, c1, newId) == Create(s, restaurantId, userId, c2, newId)
  {
  }

  // ---- addItem ----

  /**
   * A successful `addItem` raises the order's Σ by the line's price times the
   * added quantity, whether it merged into an existing line (at that line's
   * captured price) or inserted a new one (at the menu item's current price).
   */
  lemma AddItemRaisesTotal(s: Store, orderId: Id, menuItemId: Id, quantity: int, userId: Id, newId: Id)
    requires Fresh(s, newId)
    ensures var r := AddItem(s, orderId, menuItemId, quantity, userId, newId);
      r.Success? ==>
        r.value.0.orders[orderId].totalAmount == LinesTotal(s.orderItems, orderId) + r.value.1.price * quantity
  {
    var r := AddItem(s, orderId, menuItemId, quantity, userId, newId);
    if r.Success? {
      var found := FindLine(s.orderItems, orderId, menuItemId);
      if found.Some? {
        MergeRaisesTotal(s.orderItems, found.value, quantity, orderId);
      } else {
        LinesTotalAppend(s.orderItems, r.value.1, orderId);
      }
    }
  }

  /** Raising the quantity of a line of `o` raises its total by price × the increase. */
  lemma MergeRaisesTotal(xs: seq<OrderItem>, k: nat, quantity: int, o: Id)
    requires k < |xs| && xs[k].orderId == o
    ensures LinesTotal(xs[k := xs[k].(quantity := xs[k].quantity + quantity)], o) == LinesTotal(xs, o) + xs[k].price * quantity
  {
    var y := xs[k].(quantity := xs[k].quantity + quantity);
    LinesTotalReplace(xs, k, y, o);
    Distributes(xs[k].price, xs[k].quantity, quantity);
  }

  lemma Distributes(p: int, a: int, b: int)
    ensures p * (a + b) == p * a + p * b
  {
  }

  /**
   * `addItem` with a validated quantity (at least one) keeps every total
   * consistent and the lines well formed: in particular a menu item appears
   * at most once per order, however often it is added.
   */
  lemma AddItemPreservesValid(s: Store, orderId: Id, menuItemId: Id, quantity: int, userId: Id, newId: Id)
    requires Fresh(s, newId) && Valid(s) && quantity >= 1
    ensures var r := AddItem(s, orderId, menuItemId, quantity, userId, newId);
      r.Success? ==> Valid(r.value.0)
  {
    var r := AddItem(s, orderId, menuItemId, quantity, userId, newId);
    if r.Success? {
      var (s', line) := r.value;
      AddItemKeepsLinesWellFormed(s, orderId, menuItemId, quantity, userId, newId);
      forall o | o in s'.orders && o != orderId
        ensures s'.orders[o].totalAmount == LinesTotal(s'.orderItems, o)
      {
        match FindLine(s.orderItems, orderId, menuItemId)
        case Some(k) =>
          LinesTotalReplace(s.orderItems, k, line, o);
        case None =>
          LinesTotalAppend(s.orderItems, line, o);
      }
    }
  }

  /** `addItem` with a validated quantity keeps the lines well formed, totals aside. */
  lemma AddItemKeepsLinesWellFormed(s: Store, orderId: Id, menuItemId: Id, quantity: int, userId: Id, newId: Id)
    requires Fresh(s, newId) && LinesWellFormed(s) && quantity >= 1
    ensures var r := AddItem(s, orderId, menuItemId, quantity, userId, newId);
      r.Success? ==> LinesWellFormed(r.value.0)
  {
    var r := AddItem(s, orderId, menuItemId, quantity, userId, newId);
    if r.Success? {
      var (s', line) := r.value;
      var found := FindLine(s.orderItems, orderId, menuItemId);
      if found.Some? {
        ReplaceKeepsLinesWellFormed(s, s', found.value, line);
      } else {
        AppendKeepsLinesWellFormed(s, s', line);
      }
    }
  }

  /** Replacing a line by one with the same id, order and menu item and a positive quantity keeps the lines well formed. */
  lemma ReplaceKeepsLinesWellFormed(s: Store, s': Store, k: nat, line: OrderItem)
    requires LinesWellFormed(s) && k < |s.orderItems|
    requires line.id == s.orderItems[k].id && line.orderId == s.orderItems[k].orderId
    requires line.menuItemId == s.orderItems[k].menuItemId && line.quantity >= 1
    requires s'.orderItems == s.orderItems[k := line] && s'.orders.Keys == s.orders.Keys
    ensures LinesWellFormed(s')
  {
    assert forall i | 0 <= i < |s'.orderItems| && i != k :: s'.orderItems[i] == s.orderItems[i];
  }

  /** Appending a fresh line of an existing order whose menu item it does not yet hold keeps the lines well formed. */
  lemma AppendKeepsLinesWellFormed(s: Store, s': Store, line: OrderItem)
    requires LinesWellFormed(s) && line.orderId in s.orders && line.quantity >= 1
    requires forall i | 0 <= i < |s.orderItems| :: s.orderItems[i].id != line.id
    requires forall i | 0 <= i < |s.orderItems| :: s.orderItems[i].orderId != line.orderId || s.orderItems[i].menuItemId != line.menuItemId
    requires s'.orderItems == s.orderItems + [line] && s'.orders.Keys == s.orders.Keys
    ensures LinesWellFormed(s')
  {
    assert forall i | 0 <= i < |s.orderItems| :: s'.orderItems[i] == s.orderItems[i];
  }

  /**
   * Adding quantity `q1` and then `q2` of a menu item the cart did not hold
   * leaves one line with quantity `q1 + q2` at the menu item's price, and a
   * total raised by price × (q1 + q2).
   */
  lemma AddItemTwiceAccumulates(s: Store, orderId: Id, menuItemId: Id, q1: int, q2: int, userId: Id, id1: Id, id2: Id)
    requires Fresh(s, id1)
    requires FindLine(s.orderItems, orderId, menuItemId).None?
    requires AddItem(s, orderId, menuItemId, q1, userId, id1).Success?
    requires Fresh(AddItem(s, orderId, menuItemId, q1, userId, id1).value.0, id2)
    ensures var s1 := AddItem(s, orderId, menuItemId, q1, userId, id1).value.0;
      var r2 := AddItem(s1, orderId, menuItemId, q2, userId, id2);
      && r2.Success?
      && |r2.value.0.orderItems| == |s.orderItems| + 1
      && r2.value.1 == OrderItem(id1, orderId, menuItemId, q1 + q2, s.menuItems[menuItemId].price)
      && r2.value.0.orders[orderId].totalAmount
           == LinesTotal(s.orderItems, orderId) + s.menuItems[menuItemId].price * (q1 + q2)
  {
    var (s1, line1) := AddItem(s, orderId, menuItemId, q1, userId, id1).value;
    var k := |s.orderItems|;
    assert s1.orderItems[k] == line1;
    assert forall j | 0 <= j < k :: s1.orderItems[j] == s.orderItems[j];
    assert FindLine(s1.orderItems, orderId, menuItemId) == Some(k);
    AddItemRaisesTotal(s, orderId, menuItemId, q1, userId, id1);
    AddItemRaisesTotal(s1, orderId, menuItemId, q2, userId, id2);
    var price := s.menuItems[menuItemId].price;
    assert price * q1 + price * q2 == price * (q1 + q2);
  }

  // ---- updateItem / removeItem ----

  /** `updateItem` on a line of the caller's own order, with a validated quantity, keeps the store valid. */
  lemma UpdateItemOwnLinePreservesValid(s: Store, orderId: Id, itemId: Id, quantity: int, userId: Id)
    requires Valid(s) && quantity >= 1
    requires forall i | 0 <= i < |s.orderItems| && s.orderItems[i].id == itemId :: s.orderItems[i].orderId == orderId
    ensures var r := UpdateItem(s, orderId, itemId, quantity, userId);
      r.Success? ==> Valid(r.value.0)
  {
    var r := UpdateItem(s, orderId, itemId, quantity, userId);
    if r.Success? {
      var (s', line) := r.value;
      forall o | o in s'.orders && o != orderId
        ensures s'.orders[o].totalAmount == LinesTotal(s'.orderItems, o)
      {
        LinesTotalReplace(s.orderItems, LineIndex(s.orderItems, itemId).value, line, o);
      }
    }
  }

  /**
   * Lines stay well formed under `updateItem` with a validated quantity and
   * under `removeItem`, whichever order the line belongs to.
   */
  lemma LineEditsKeepLinesWellFormed(s: Store, orderId: Id, itemId: Id, quantity: int, userId: Id)
    requires LinesWellFormed(s) && quantity >= 1
    ensures var r := UpdateItem(s, orderId, itemId, quantity, userId);
      r.Success? ==> LinesWellFormed(r.value.0)
    ensures var r := RemoveItem(s, orderId, itemId, userId);
      r.Success? ==> LinesWellFormed(r.value)
  {
    var r := RemoveItem(s, orderId, itemId, userId);
    if r.Success? {
      DeleteKeepsLinesWellFormed(s, r.value, LineIndex(s.orderItems, itemId).value);
    }
  }

  /** Deleting one line, with the orders' ids unchanged, keeps the lines well formed. */
  lemma DeleteKeepsLinesWellFormed(s: Store, s': Store, k: nat)
    requires LinesWellFormed(s) && k < |s.orderItems|
    requires s'.orderItems == s.orderItems[..k] + s.orderItems[k + 1..] && s'.orders.Keys == s.orders.Keys
    ensures LinesWellFormed(s')
  {
    var xs := s.orderItems;
    forall i, j | 0 <= i < j < |s'.orderItems|
      ensures s'.orderItems[i].id != s'.orderItems[j].id
      ensures s'.orderItems[i].orderId != s'.orderItems[j].orderId || s'.orderItems[i].menuItemId != s'.orderItems[j].menuItemId
    {
      var i', j' := if i < k then i else i + 1, if j < k then j else j + 1;
      assert s'.orderItems[i] == xs[i'] && s'.orderItems[j] == xs[j'];
    }
    forall i | 0 <= i < |s'.orderItems|
      ensures s'.orderItems[i].orderId in s'.orders && s'.orderItems[i].quantity >= 1
    {
      assert s'.orderItems[i] == xs[if i < k then i else i + 1];
    }
  }

  /** `removeItem` on a line of the caller's own order keeps the store valid. */
  lemma RemoveItemOwnLinePreservesValid(s: Store, orderId: Id, itemId: Id, userId: Id)
    requires Valid(s)
    requires forall i | 0 <= i < |s.orderItems| && s.orderItems[i].id == itemId :: s.orderItems[i].orderId == orderId
    ensures var r := RemoveItem(s, orderId, itemId, userId);
      r.Success? ==> Valid(r.value)
  {
    var r := RemoveItem(s, orderId, itemId, userId);
    if r.Success? {
      var s' := r.value;
      var k := LineIndex(s.orderItems, itemId).value;
      forall o | o in s'.orders && o != orderId
        ensures s'.orders[o].totalAmount == LinesTotal(s'.orderItems, o)
      {
        LinesTotalDelete(s.orderItems, k, o);
      }
      LineEditsKeepLinesWellFormed(s, orderId, itemId, 1, userId);
    }
  }

  /**
   * `updateItem` does not check that the line belongs to `orderId`: a caller
   * holding a cart can change the quantity of a line of another order (another
   * user's, in any status). That order's stored total is left as it was, so it
   * no longer equals Σ price × quantity of its lines.
   */
  lemma UpdateItemForeignLine(s: Store, orderId: Id, itemId: Id, quantity: int, userId: Id)
    requires Valid(s)
    requires UpdateItem(s, orderId, itemId, quantity, userId).Success?
    requires
      var k := LineIndex(s.orderItems, itemId).value;
      s.orderItems[k].orderId != orderId && s.orderItems[k].price * s.orderItems[k].quantity != s.orderItems[k].price * quantity
    ensures var s' := UpdateItem(s, orderId, itemId, quantity, userId).value.0;
      var other := s.orderItems[LineIndex(s.orderItems, itemId).value].orderId;
      && other in s'.orders
      && s'.orders[other] == s.orders[other]
      && s'.orderItems != s.orderItems
      && !TotalsConsistent(s')
  {
    var (s', line) := UpdateItem(s, orderId, itemId, quantity, userId).value;
    var k := LineIndex(s.orderItems, itemId).value;
    var other := s.orderItems[k].orderId;
    LinesTotalReplace(s.orderItems, k, line, other);
    assert s'.orderItems[k] != s.orderItems[k];
  }

  /**
   * Likewise `removeItem` deletes a line of another order through the caller's
   * cart, leaving that order's total stale whenever the line was worth anything.
   */
  lemma RemoveItemForeignLine(s: Store, orderId: Id, itemId: Id, userId: Id)
    requires Valid(s)
    requires RemoveItem(s, orderId, itemId, userId).Success?
    requires
      var k := LineIndex(s.orderItems, itemId).value;
      s.orderItems[k].orderId != orderId && s.orderItems[k].price * s.orderItems[k].quantity != 0
    ensures var s' := RemoveItem(s, orderId, itemId, userId).value;
      var other := s.orderItems[LineIndex(s.orderItems, itemId).value].orderId;
      && other in s'.orders
      && s'.orders[other] == s.orders[other]
      && !TotalsConsistent(s')
  {
    var s' := RemoveItem(s, orderId, itemId, userId).value;
    var k := LineIndex(s.orderItems, itemId).value;
    LinesTotalDelete(s.orderItems, k, s.orderItems[k].orderId);
  }

  // ---- lifecycle ----

  /**
   * The caller's own orders are exactly the orders a MEMBER with the caller's
   * id may read one by one, whatever the MEMBER's country.
   */
  lemma UserOrdersAreTheReadableOnes(s: Store, userId: Id, country: Country, o: Id)
    ensures o in FindUserOrders(s, userId) <==> FindOne(s, o, userId, Member, country).Success?
    ensures o in FindUserOrders(s, userId) ==> FindOne(s, o, userId, Member, country).value == FindUserOrders(s, userId)[o]
  {
  }

  /** A change confined to one order's status keeps the store valid. */
  lemma StatusChangePreservesValid(s: Store, s': Store, orderId: Id)
    requires Valid(s) && OnlyOrderChanged(s, s', orderId) && orderId in s.orders
    requires s'.orders[orderId] == s.orders[orderId].(status := s'.orders[orderId].status)
    ensures Valid(s')
  {
  }

  /** `checkout`, `cancel` and `updateOrderStatus` change one status and nothing else, so they keep the store valid. */
  lemma LifecyclePreservesValid(s: Store, orderId: Id, user: Principal, status: OrderStatus)
    requires Valid(s)
    ensures Checkout(s, orderId, user.id, user.role).Success? ==> Valid(Checkout(s, orderId, user.id, user.role).value)
    ensures Cancel(s, orderId, user.id, user.role, user.country).Success? ==>
              Valid(Cancel(s, orderId, user.id, user.role, user.country).value)
    ensures UpdateOrderStatus(s, orderId, status, user).Success? ==>
              Valid(UpdateOrderStatus(s, orderId, status, user).value)
  {
    if Checkout(s, orderId, user.id, user.role).Success? {
      StatusChangePreservesValid(s, Checkout(s, orderId, user.id, user.role).value, orderId);
    }
    if Cancel(s, orderId, user.id, user.role, user.country).Success? {
      StatusChangePreservesValid(s, Cancel(s, orderId, user.id, user.role, user.country).value, orderId);
    }
    if UpdateOrderStatus(s, orderId, status, user).Success? {
      StatusChangePreservesValid(s, UpdateOrderStatus(s, orderId, status, user).value, orderId);
    }
  }

  /**
   * Cancelling is not an owner action: its outcome does not depend on who the
   * caller is beyond role and country, and it succeeds from CART and PREPARING
   * as from PLACED and CONFIRMED.
   */
  lemma CancelFromAnyLiveStatus(s: Store, orderId: Id, u1: Id, u2: Id, role: Role, country: Country)
    requires orderId in s.orders && s.orders[orderId].status in {Cart, Placed, Confirmed, Preparing}
    requires role == Admin || s.orders[orderId].country == country
    ensures Cancel(s, orderId, u1, role, country) == Cancel(s, orderId, u2, role, country)
    ensures Cancel(s, orderId, u1, role, country).Success?
  {
  }

  /** An operator may move an order backwards, e.g. from PREPARING to CONFIRMED or PLACED. */
  lemma StatusUpdateNotForwardOnly(s: Store, orderId: Id, user: Principal, status: OrderStatus)
    requires orderId in s.orders && s.orders[orderId].status == Preparing
    requires user.role == Admin || s.orders[orderId].country == user.country
    ensures UpdateOrderStatus(s, orderId, status, user).Success?
    ensures UpdateOrderStatus(s, orderId, status, user).value.orders[orderId].status == status
  {
  }
}
