# Food-ordering backend: order lifecycle and access control

A Dafny model of the NestJS backend of a role-based food-ordering system. The
model covers:

- the orders, restaurants, menu-items and payment-methods services and their
  controllers;
- the country-access guard;
- the validation of the order-item and payment-method request bodies.

The database is an immutable `Store`. It holds restaurants, menu items, orders
and payment methods as maps keyed by id; payment methods are keyed by the
owning user, whose column is unique. Order lines are a sequence in creation
order.

Each service call is a pure function from a store to `Result<.., Error>`. The
errors are `NotFound`, `Forbidden` and `BadRequest`, which are the Nest
exceptions the code throws, plus `StoreRejected`. `StoreRejected` stands for
the persistence layer throwing:

- an update or delete of a row that does not exist;
- a create that lacks a required column.

Nothing maps that exception, so the caller sees a server error.

A controller call is a function of three things: the authenticated caller
(`Principal`), a request, and the store. The roles gate runs first, then the
global validation pipe (whitelist with forbidNonWhitelisted), then the
service. `App.Handle` routes a request to one of the four controllers.

Modules, one per source file or concern:

- `Domain`: entities and the store.
- `Access`: the country predicate and `CountryAccessGuard`.
- `Validation`: the DTO decorators.
- `Orders` and `OrderProofs`: the order service and its invariants.
- `Restaurants`, `MenuItems`, `Payments`: the other services.
- One module per controller.
- `App`: the whole API.

Three facts of the code are modelled as they are written, and stated as
lemmas:

- `updateItem` and `removeItem` look up the line by its own id. The line may
  belong to another order, and only the caller's order total is recomputed.
- `cancel` has no ownership check and cancels from CART and PREPARING too.
- `updateOrderStatus` writes any requested status, backwards moves included.

## Model

| member | source | states |
|---|---|---|
| Access.ResourceCountry | food-ordering-backend/src/auth/guards/country-access.guard.ts:29 | the resource country is the body country if truthy, else the params country if truthy, else the query country if truthy; it is absent exactly when all three are falsy |
| Access.CountryAllows | food-ordering-backend/src/restaurants/restaurants.service.ts:60-62 | the country rule the services apply inline (restaurant reads, order listing, cancel and status updates): ADMIN always, anyone else only for a resource of their own country |
| Access.CanActivate | food-ordering-backend/src/auth/guards/country-access.guard.ts:10-36 | the guard never answers false. It admits when the flag is off or the caller is ADMIN. It throws Forbidden exactly when the flag is on, the caller is not ADMIN, and a resource country is present that differs from the caller's |
| Access.GuardAgreesWithCountryAllows | food-ordering-backend/src/auth/guards/country-access.guard.ts:24-35 | for a request naming a real country, the guard admits exactly when the country rule the services apply inline admits |
| Validation.FormatExpiryMatches | food-ordering-backend/src/payments/dto/create-payment-method.dto.ts:15-17 | every month 1-12 and two-digit year formats as an MM/YY string that passes the expiry pattern and reads back as the same month and year |
| Validation.MatchesExpiryIsFormatted | food-ordering-backend/src/payments/dto/create-payment-method.dto.ts:15-17 | every string passing the expiry pattern is the MM/YY rendering of a month 1-12 and a year 0-99 |
| Validation.ValidateAddItem | food-ordering-backend/src/orders/dto/add-item.dto.ts:3-11 | a body is accepted exactly when it has a uuid `menuItemId` and an integer `quantity` of at least 1, and nothing else. An accepted body is exactly the body of the DTO it yields |
| Validation.AddItemRoundTrip | food-ordering-backend/src/orders/dto/add-item.dto.ts:3-11 | a DTO with a uuid and a positive quantity validates from its own body back to itself |
| Validation.ValidateUpdateItem | food-ordering-backend/src/orders/dto/update-item.dto.ts:3-7 | a body is accepted exactly when it holds only an integer `quantity` of at least 1. An accepted body is exactly the body of its DTO |
| Validation.UpdateItemRoundTrip | food-ordering-backend/src/orders/dto/update-item.dto.ts:3-7 | a positive quantity validates from its own body back to itself |
| Validation.UpdateItemRejects | food-ordering-backend/src/main.ts:17-23 | a line-edit body that carries `price`, or a quantity of 0, is rejected |
| Validation.ValidateCreatePayment | food-ordering-backend/src/payments/dto/create-payment-method.dto.ts:3-23 | a body is accepted exactly when it carries all four properties and nothing else: a 16-character card number, a non-empty holder name, an MM/YY expiry and a 3-character CVV. An accepted body is exactly the body of the DTO it yields, so every field is the string sent |
| Validation.ValidateUpdatePayment | food-ordering-backend/src/payments/dto/update-payment-method.dto.ts:3-21 | every property is optional. A field is supplied exactly when its property is neither absent nor null, and a supplied field meets the same length and pattern rules as on create. The non-null properties of an accepted body are exactly the body of the DTO it yields |
| Validation.CreatePaymentRoundTrip | food-ordering-backend/src/payments/dto/create-payment-method.dto.ts:3-23 | a DTO meeting every create rule validates from its own body back to itself |
| Validation.UpdatePaymentRoundTrip | food-ordering-backend/src/payments/dto/update-payment-method.dto.ts:3-21 | a DTO whose supplied fields meet the update rules validates from its own body back to itself |
| Validation.EmptyUpdatePaymentValid | food-ordering-backend/src/payments/dto/update-payment-method.dto.ts:3-21 | the empty body is a valid update that supplies nothing |
| Validation.CreatePaymentIsUpdatePayment | food-ordering-backend/src/payments/dto/update-payment-method.dto.ts:3-21 | a valid create body is a valid update body and is read the same way |
| Orders.UpdateOrderTotal | food-ordering-backend/src/orders/orders.service.ts:414-429 | the order's total becomes Σ price × quantity over its lines; no other order, line or table changes |
| Orders.LinesTotal | food-ordering-backend/src/orders/orders.service.ts:420-423 | the `reduce` of Σ price × quantity over an order's lines is never negative when no price or quantity is |
| Orders.HasLines | food-ordering-backend/src/orders/orders.service.ts:242-244 | the empty-cart test of checkout: the order has at least one line; its partner is OrderProofs.LinesTotalNoLines |
| Orders.FindLine | food-ordering-backend/src/orders/orders.service.ts:74-79 | the `findFirst` of addItem: the first line of that order for that menu item, or none exactly when the order has no such line |
| Orders.LineIndex | food-ordering-backend/src/orders/orders.service.ts:174-176 | the line a write `where: { id: itemId }` addresses: the line with that id, or none exactly when no line has it, whatever order it belongs to |
| Orders.Create | food-ordering-backend/src/orders/orders.service.ts:15-41 | NotFound exactly when the restaurant is absent. Otherwise one new order: the caller's, a CART with total 0, in the restaurant's country (not the caller's). Existing orders are untouched |
| Orders.CartGuard | food-ordering-backend/src/orders/orders.service.ts:49-59 | passes exactly for an existing CART of the caller. Failures are NotFound, then Forbidden for another user's order, then BadRequest for a non-CART |
| Orders.AddItem | food-ordering-backend/src/orders/orders.service.ts:44-113 | the cart guard comes first, then NotFound for a missing menu item and BadRequest for an unavailable one; it succeeds exactly when all checks pass. A menu item already in the order has its quantity raised, otherwise a line is appended at the current price. The order total is the sum of its lines. Only the lines and that order's total change: its other fields, every other order and every other table stay as they were |
| Orders.UpdateItem | food-ordering-backend/src/orders/orders.service.ts:157-187 | the cart guard on the addressed order comes first. A missing line gives StoreRejected. Otherwise the line with that id, whichever order it belongs to, takes the new quantity, and the addressed order's total is recomputed. Nothing else changes: the addressed order's other fields, every other order and every other table stay as they were |
| Orders.RemoveItem | food-ordering-backend/src/orders/orders.service.ts:190-214 | the cart guard comes first. A missing line gives StoreRejected. Otherwise exactly that line is deleted, wherever it lives, and the addressed order's total is recomputed. Nothing else changes: the addressed order's other fields, every other order and every other table stay as they were |
| Orders.Checkout | food-ordering-backend/src/orders/orders.service.ts:217-267 | the cart guard comes first, then BadRequest for an empty cart or a missing payment method; it succeeds exactly when none applies. Success sets PLACED and changes nothing else |
| Orders.Cancel | food-ordering-backend/src/orders/orders.service.ts:270-306 | NotFound, then Forbidden for a non-ADMIN of another country, then BadRequest for CANCELLED or DELIVERED. It succeeds from every other status and sets CANCELLED, nothing else |
| Orders.UpdateOrderStatus | food-ordering-backend/src/orders/orders.service.ts:116-154 | NotFound, then Forbidden for a non-ADMIN of another country, then BadRequest for a terminal or CART order. It succeeds exactly from PLACED, CONFIRMED or PREPARING and writes the requested status, nothing else |
| Orders.FindUserOrders | food-ordering-backend/src/orders/orders.service.ts:309-324 | exactly the caller's orders |
| Orders.FindAll | food-ordering-backend/src/orders/orders.service.ts:327-373 | every order for ADMIN, otherwise exactly the orders of the caller's country |
| Orders.FindOne | food-ordering-backend/src/orders/orders.service.ts:376-411 | NotFound exactly when the order is absent. An existing order is returned exactly to an ADMIN, its MEMBER owner, or a MANAGER of its country; anyone else gets Forbidden |
| OrderProofs.LinesTotalAppend | food-ordering-backend/src/orders/orders.service.ts:420-423 | appending a line adds exactly its amount to its order's sum and nothing to any other order's |
| OrderProofs.LinesTotalReplace | food-ordering-backend/src/orders/orders.service.ts:420-423 | replacing a line changes a sum by the difference of the two lines' amounts in that order |
| OrderProofs.LinesTotalDelete | food-ordering-backend/src/orders/orders.service.ts:420-423 | deleting a line subtracts exactly its amount |
| OrderProofs.LinesTotalNoLines | food-ordering-backend/src/orders/orders.service.ts:420-423 | an order that fails the empty-cart test of checkout sums to 0 |
| OrderProofs.CreatePreservesValid | food-ordering-backend/src/orders/orders.service.ts:24-31 | a new cart keeps every total consistent and every line well formed |
| OrderProofs.CreateIgnoresUserCountry | food-ordering-backend/src/orders/orders.service.ts:15-41 | the caller's country plays no part in creating an order |
| OrderProofs.AddItemRaisesTotal | food-ordering-backend/src/orders/orders.service.ts:83-110 | adding raises the order total by exactly price × added quantity |
| OrderProofs.AddItemPreservesValid | food-ordering-backend/src/orders/orders.service.ts:44-113 | adding a positive quantity keeps every order's total equal to its sum of lines, and keeps lines well formed |
| OrderProofs.AddItemKeepsLinesWellFormed | food-ordering-backend/src/orders/orders.service.ts:73-107 | adding keeps line ids unique and keeps at most one line per menu item per order |
| OrderProofs.AddItemTwiceAccumulates | food-ordering-backend/src/orders/orders.service.ts:83-107 | adding the same menu item twice leaves one line with the sum of both quantities at the price of the first add |
| OrderProofs.UpdateItemOwnLinePreservesValid | food-ordering-backend/src/orders/orders.service.ts:157-187 | editing a line of the addressed order to a positive quantity keeps the store valid |
| OrderProofs.LineEditsKeepLinesWellFormed | food-ordering-backend/src/orders/orders.service.ts:174-209 | line edits and deletes, of any order's line, keep lines well formed |
| OrderProofs.RemoveItemOwnLinePreservesValid | food-ordering-backend/src/orders/orders.service.ts:190-214 | removing a line of the addressed order keeps the store valid |
| OrderProofs.UpdateItemForeignLine | food-ordering-backend/src/orders/orders.service.ts:174-184 | editing through one's own cart a line of another order with a different amount changes that order's line while its stored total stays as it was, so totals become inconsistent |
| OrderProofs.RemoveItemForeignLine | food-ordering-backend/src/orders/orders.service.ts:207-211 | deleting through one's own cart a line of another order makes that order's stored total stale |
| OrderProofs.StatusChangePreservesValid | food-ordering-backend/src/orders/orders.service.ts:253-257 | a change confined to one order's status keeps the store valid |
| OrderProofs.LifecyclePreservesValid | food-ordering-backend/src/orders/orders.service.ts:116-306 | checkout, cancel and status updates keep the store valid |
| OrderProofs.CancelFromAnyLiveStatus | food-ordering-backend/src/orders/orders.service.ts:270-306 | cancel succeeds from CART, PLACED, CONFIRMED and PREPARING for ADMIN or a caller of the order's country, whoever the caller is |
| OrderProofs.StatusUpdateNotForwardOnly | food-ordering-backend/src/orders/orders.service.ts:136-153 | from PREPARING an in-country operator can write any status, CART and PLACED included |
| OrderProofs.UserOrdersAreTheReadableOnes | food-ordering-backend/src/orders/orders.service.ts:309-324 | the caller's own orders are exactly the orders a MEMBER with the caller's id may read by id, and they read the same |
| Restaurants.Create | food-ordering-backend/src/restaurants/restaurants.service.ts:12-19 | one new restaurant under a fresh id; nothing else changes |
| Restaurants.FindAll | food-ordering-backend/src/restaurants/restaurants.service.ts:22-43 | every restaurant for ADMIN, otherwise exactly those of the caller's country |
| Restaurants.FindOne | food-ordering-backend/src/restaurants/restaurants.service.ts:45-65 | NotFound exactly when absent. Success exactly for ADMIN or a caller of the restaurant's country; otherwise Forbidden |
| Restaurants.Update | food-ordering-backend/src/restaurants/restaurants.service.ts:67-77 | NotFound exactly when absent. Otherwise each field the patch supplies is written and each other field is kept, possibly moving the restaurant to another country; no other restaurant or table changes |
| Restaurants.Remove | food-ordering-backend/src/restaurants/restaurants.service.ts:79-85 | NotFound exactly when absent; otherwise exactly that restaurant is gone |
| Restaurants.CreateThenFind | food-ordering-backend/src/restaurants/restaurants.service.ts:12-65 | a created restaurant is then found by id as the record sent |
| Restaurants.RemoveThenFind | food-ordering-backend/src/restaurants/restaurants.service.ts:45-85 | after a removal, looking the restaurant up gives NotFound to every caller |
| Restaurants.UpdateKeepsOrderCountry | food-ordering-backend/src/orders/orders.service.ts:28 | moving a restaurant leaves its existing orders in the country copied at their creation |
| MenuItems.Create | food-ordering-backend/src/menu-items/menu-items.service.ts:10-17 | one new item under a fresh id; nothing else changes |
| MenuItems.FindAll | food-ordering-backend/src/menu-items/menu-items.service.ts:19-26 | exactly the available items of every restaurant and country |
| MenuItems.FindByRestaurant | food-ordering-backend/src/menu-items/menu-items.service.ts:28-35 | exactly the available items of one restaurant; the same set is embedded in every restaurant read (restaurants.service.ts filters the included items the same way) |
| MenuItems.FindOne | food-ordering-backend/src/menu-items/menu-items.service.ts:37-50 | the item whatever its availability, NotFound exactly when absent |
| MenuItems.Update | food-ordering-backend/src/menu-items/menu-items.service.ts:52-62 | NotFound exactly when absent. Otherwise each field the patch supplies is written and each other field is kept, the item keeps its restaurant, and no other item changes |
| MenuItems.Remove | food-ordering-backend/src/menu-items/menu-items.service.ts:64-70 | NotFound exactly when absent; otherwise exactly that item is gone |
| MenuItems.CreateThenFind | food-ordering-backend/src/menu-items/menu-items.service.ts:10-50 | a created item is then found by id as the record sent |
| MenuItems.UpdateThenFind | food-ordering-backend/src/menu-items/menu-items.service.ts:37-62 | after an update, looking the item up shows the patched price and availability and the same restaurant |
| MenuItems.RemoveThenFind | food-ordering-backend/src/menu-items/menu-items.service.ts:19-70 | after a removal, looking the item up gives NotFound and the full listing no longer shows it |
| MenuItems.FindByRestaurantRefinesFindAll | food-ordering-backend/src/menu-items/menu-items.service.ts:19-35 | one restaurant's menu is the full listing restricted to that restaurant |
| Payments.LastFour | food-ordering-backend/src/payments/payments.service.ts:30 | the stored card number is the last four characters, or the whole string when shorter |
| Payments.ToData | food-ordering-backend/src/payments/payments.service.ts:28-37 | a falsy card number or CVV is dropped. Otherwise the card number is cut to four characters and the CVV is encrypted. Holder name and expiry are copied |
| Payments.CreateOrUpdate | food-ordering-backend/src/payments/payments.service.ts:23-65 | an existing record is updated, keeping its id, and takes every supplied field. A missing one is created under a fresh id from the DTO: last four of the card number, holder name, expiry and sealed CVV; the store refuses it exactly when a required column is missing. Other users' records are untouched, and the reply is the stored record |
| Payments.FindByUser | food-ordering-backend/src/payments/payments.service.ts:67-85 | the caller's record without CVV, NotFound exactly when absent |
| Payments.Remove | food-ordering-backend/src/payments/payments.service.ts:87-101 | NotFound exactly when absent; otherwise exactly the caller's record is gone |
| Payments.ViewHidesCvv | food-ordering-backend/src/payments/payments.service.ts:43-50 | two records differing only in CVV produce the same reply |
| Payments.CreateOrUpdateThenFind | food-ordering-backend/src/payments/payments.service.ts:23-85 | what an upsert answers is what a later read of the caller's record answers |
| Payments.UpdateChangesOnlySuppliedFields | food-ordering-backend/src/payments/payments.service.ts:36-51 | an update leaves every field the DTO does not supply as it was, and writes the supplied holder name and expiry |
| Payments.ValidCreateAlwaysStores | food-ordering-backend/src/payments/payments.service.ts:23-65 | a validated create body always stores a record whose card number is the last four of the sixteen characters sent |
| Payments.RemoveThenFind | food-ordering-backend/src/payments/payments.service.ts:67-101 | after a removal the caller has no record |
| OrdersController.AllowedRoles | food-ordering-backend/src/orders/orders.controller.ts:19-101 | ADMIN and MANAGER may call every endpoint. MEMBER may call all but checkout, cancel, list-all and status update |
| OrdersController.Handle | food-ordering-backend/src/orders/orders.controller.ts:14-101 | a role outside the endpoint's list gives Forbidden before validation. An invalid item body gives BadRequest. Reads leave the store unchanged. No request removes an order or changes its owner |
| OrdersController.MemberCannotCheckOut | food-ordering-backend/src/orders/orders.controller.ts:60-64 | a MEMBER's checkout is always Forbidden, even of their own cart |
| OrdersController.ListOrdersByCountry | food-ordering-backend/src/orders/orders.controller.ts:81-85 | the full listing shows a MANAGER only orders of their country and an ADMIN every order |
| OrdersController.MemberCannotReadOthersOrder | food-ordering-backend/src/orders/orders.controller.ts:88-92 | a MEMBER reading another user's order is refused |
| RestaurantsController.AllowedRoles | food-ordering-backend/src/restaurants/restaurants.controller.ts:16-46 | reads are open to every role; writes are ADMIN-only |
| RestaurantsController.Handle | food-ordering-backend/src/restaurants/restaurants.controller.ts:11-47 | the role gate comes first. Only the restaurants table changes, and reads change nothing |
| RestaurantsController.NonAdminSeesOwnCountry | food-ordering-backend/src/restaurants/restaurants.controller.ts:23-34 | a non-ADMIN caller sees, by list and by id, exactly the restaurants of their own country |
| MenuItemsController.AllowedRoles | food-ordering-backend/src/menu-items/menu-items.controller.ts:15-47 | reads are open to every role; writes are ADMIN-only |
| MenuItemsController.Handle | food-ordering-backend/src/menu-items/menu-items.controller.ts:22-29 | the role gate comes first. A truthy `restaurantId` query lists that restaurant's menu, otherwise every available item. Only the menu table changes |
| MenuItemsController.MenuReadsIgnoreCountry | food-ordering-backend/src/menu-items/menu-items.controller.ts:22-35 | menu reads give every caller, whatever their role or country, the same answer |
| PaymentsController.AllowedRoles | food-ordering-backend/src/payments/payments.controller.ts:17-42 | POST and GET are open to every role; PUT and DELETE are ADMIN-only |
| PaymentsController.Handle | food-ordering-backend/src/payments/payments.controller.ts:11-43 | the role gate comes first, then the create or update DTO. Only the caller's own record can change; every other user's record is untouched |
| PaymentsController.AdminPostIsPut | food-ordering-backend/src/payments/payments.controller.ts:17-28 | for an ADMIN, POST and PUT of a valid create body have the same outcome: both reach the same upsert of the caller's record |
| PaymentsController.PostOverwritesExisting | food-ordering-backend/src/payments/payments.controller.ts:17-21 | a MEMBER or MANAGER posting a valid body over their existing record overwrites its card number and CVV, although PUT is ADMIN-only |
| App.Handle | food-ordering-backend/src/app.module.ts:1-25 | only the orders controller touches orders and order lines, and no request removes an order |
| App.HandleKeepsLinesWellFormed | food-ordering-backend/src/orders/orders.service.ts:44-214 | every request by any caller keeps order lines well formed: unique ids, an existing order, a positive quantity, one line per menu item per order |
| App.CartLeavesOnlyByOperator | food-ordering-backend/src/orders/orders.controller.ts:59-71 | a cart leaves CART only by becoming PLACED, through its owner's checkout as ADMIN or MANAGER, or by becoming CANCELLED, through an ADMIN, or a MANAGER of its country, cancelling it. A MEMBER's cart can never be placed |

## Left out

- Persistence details: the relations that reads include, `orderBy: createdAt desc`, timestamps and the selected user fields. A read returns the set of matching rows as a map.
- Referential integrity is not modelled. Creates do not check foreign keys, so a menu item may name a restaurant that does not exist. Deletes do not cascade and have no foreign-key effect: deleting a restaurant or menu item leaves dependent rows as they were. The schema's referential actions are not part of this model.
- Money is exact integer cents. The source reads a decimal `price` through `Number(...)`, with floating-point rounding; the `Int` width of `quantity` is not modelled either.
- Concurrency: each request is atomic here, while the source reads and then writes without a transaction.
- `encrypt` is the parameter `seal`; its AES key, random IV and hex format are not modelled.
- Database uuids are the parameter `newId` together with the freshness precondition.
- JWT authentication, the roles guard and the `@GetUser` decorator are not part of this model. The caller arrives as a `Principal`, and the roles guard is the membership test in each controller's `AllowedRoles`.
- The DTOs for orders, order status, restaurants and menu items are not part of this model. Their bodies arrive already typed: `CreateOrderDto` is the restaurant id, `UpdateOrderStatusDto` an `OrderStatus`, and restaurant and menu-item bodies a record or a patch.
- No controller shown attaches `@RequireCountryAccess()`, so the guard is modelled on its own (`Access.CanActivate`) and not wired into `App.Handle`.
- String lengths count code points. This approximates two different library counts: `slice(-4)` counts UTF-16 code units, and the `@Length` check counts a surrogate pair once but skips the variation selectors U+FE0E and U+FE0F.
- `Validation.IsUuid` accepts any 8-4-4-4-12 hex string. It approximates `@IsUUID()`, whose default also constrains the version and variant digits.
- Validation.ValidateUpdatePayment: a JSON `null` for an optional field is treated as not supplied. In the source a `null` card number or CVV is indeed dropped, but a `null` holder name or expiry date reaches the store as `null`, and what the store then does depends on a schema that is not part of this model.
- Frontend, seed script, CORS and bootstrap are not modelled.
