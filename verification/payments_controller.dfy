/**
 * The `/payment-methods` endpoints. Every action is keyed on the caller's own
 * id; POST and PUT both upsert.
 */
module PaymentsController {
  import opened Wrappers
  import opened Domain
  import opened Validation
  import Payments

  datatype Request =
    | PostPayment(body: Body)     // POST   /payment-methods
    | PutPayment(body: Body)      // PUT    /payment-methods
    | GetPayment                  // GET    /payment-methods
    | DeletePayment               // DELETE /payment-methods

  datatype Reply =
    | PaymentReply(view: Payments.PaymentView)
    | PaymentRemoved

  /** The `@Roles(...)` list of each endpoint. */
  function AllowedRoles(req: Request): (roles: set<Role>)
    ensures Admin in roles
    ensures roles == {Admin} <==> req.PutPayment? || req.DeletePayment?
    ensures req.PostPayment? || req.GetPayment? ==> roles == AllRoles
  {
    match req
    case PostPayment(_) => AllRoles
    case PutPayment(_) => {Admin}
    case GetPayment => AllRoles
    case DeletePayment => {Admin}
  }

  /**
   * One request: the role gate, then body validation (create DTO for POST,
   * update DTO for PUT), then the service call for the caller's own id.
   * `seal` is the service's encryption of the CVV.
   */
  function Handle(s: Store, user: Principal, req: Request, seal: string -> string, newId: Id)
    : (r: Result<(Store, Reply), Error>)
    requires Fresh(s, newId)
    ensures user.role !in AllowedRoles(req) ==> r == Failure(Forbidden)
    ensures req.PostPayment? && ValidateCreatePayment(req.body).None? ==> r == Failure(BadRequest)
    ensures req.PutPayment? && user.role == Admin && ValidateUpdatePayment(req.body).None? ==> r == Failure(BadRequest)
    ensures r.Success? ==> r.value.0 == s.(paymentMethods := r.value.0.paymentMethods)
    ensures r.Success? ==>
      forall u | u != user.id :: (u in r.value.0.paymentMethods <==> u in s.paymentMethods)
    ensures r.Success? ==>
      forall u | u != user.id && u in s.paymentMethods :: r.value.0.paymentMethods[u] == s.paymentMethods[u]
  {
    AllRolesComplete(user.role);
    if user.role !in AllowedRoles(req) then Failure(Forbidden)
    else match req
      case PostPayment(body) =>
        (match ValidateCreatePayment(body)
         case None => Failure(BadRequest)
         case Some(dto) => Upsert(s, user.id, dto, seal, newId))
      case PutPayment(body) =>
        (match ValidateUpdatePayment(body)
         case None => Failure(BadRequest)
         case Some(dto) => Upsert(s, user.id, dto, seal, newId))
      case GetPayment =>
        (match Payments.FindByUser(s, user.id)
         case Failure(e) => Failure(e)
         case Success(v) => Success((s, PaymentReply(v))))
      case DeletePayment =>
        (match Payments.Remove(s, user.id)
         case Failure(e) => Failure(e)
         case Success(s') => Success((s', PaymentRemoved)))
  }

  function Upsert(s: Store, userId: Id, dto: PaymentInput, seal: string -> string, newId: Id)
    : Result<(Store, Reply), Error>
    requires Fresh(s, newId)
  {
    match Payments.CreateOrUpdate(s, userId, dto, seal, newId)
    case Failure(e) => Failure(e)
    case Success(v) => Success((v.0, PaymentReply(v.1)))
  }

  /** For an ADMIN, POST and PUT of a valid create body do the same thing: both are the same upsert. */
  lemma AdminPostIsPut(s: Store, user: Principal, body: Body, seal: string -> string, newId: Id)
    requires Fresh(s, newId) && user.role == Admin && ValidateCreatePayment(body).Some?
    ensures Handle(s, user, PostPayment(body), seal, newId) == Handle(s, user, PutPayment(body), seal, newId)
  {
    CreatePaymentIsUpdatePayment(body);
  }

  /**
   * POST is open to every role and upserts: a MEMBER or MANAGER posting a valid
   * body over an existing record overwrites it, although PUT is ADMIN-only.
   */
  lemma PostOverwritesExisting(s: Store, user: Principal, body: Body, seal: string -> string, newId: Id)
    requires Fresh(s, newId) && user.id in s.paymentMethods
    requires ValidateCreatePayment(body).Some?
    ensures var r := Handle(s, user, PostPayment(body), seal, newId);
      && r.Success?
      && r.value.0.paymentMethods[user.id].cardNumber == Payments.LastFour(body["cardNumber"].s)
      && r.value.0.paymentMethods[user.id].cvv == seal(body["cvv"].s)
  {
    AllRolesComplete(user.role);
    var dto := ValidateCreatePayment(body).value;
    assert body["cardNumber"] == JStr(dto.cardNumber.value);
    assert body["cvv"] == JStr(dto.cvv.value);
  }
}
