/**
 * The payment-method service: one record per user, upserted from either
 * payment DTO; the card number is cut to its last four characters, the CVV is
 * stored only encrypted, and no response carries the CVV.
 */
module Payments {
  import opened Wrappers
  import opened Domain
  import opened Validation

  /** What every response selects from a record: no `cvv`. */
  datatype PaymentView = PaymentView(id: Id, cardNumber: string, cardHolderName: string, expiryDate: string)

  function View(m: PaymentMethod): PaymentView {
    PaymentView(m.id, m.cardNumber, m.cardHolderName, m.expiryDate)
  }

  /** `s.slice(-4)`: the last four characters, or the whole string when shorter. */
  function LastFour(s: string): (r: string)
    ensures |r| == if |s| < 4 then |s| else 4
    ensures r == s[|s| - |r|..]
  {
    if |s| <= 4 then s else s[|s| - 4..]
  }

  /** The `data` object of `createOrUpdate` after its undefined properties are removed; `None` is a removed property. */
  datatype PaymentData = PaymentData(
    cardNumber: Option<string>,
    cardHolderName: Option<string>,
    expiryDate: Option<string>,
    cvv: Option<string>)

  /**
   * Builds `data` from the DTO. A falsy card number or CVV is dropped; the
   * holder name and expiry date are copied as given. `seal` is the service's
   * `encrypt`, whose key and random IV are not modelled.
   */
  function ToData(dto: PaymentInput, seal: string -> string): (d: PaymentData)
    ensures d.cardNumber.Some? <==> Truthy(dto.cardNumber)
    ensures d.cardNumber.Some? ==> |d.cardNumber.value| <= 4 && d.cardNumber.value == LastFour(dto.cardNumber.value)
    ensures d.cvv.Some? <==> Truthy(dto.cvv)
    ensures d.cvv.Some? ==> d.cvv.value == seal(dto.cvv.value)
    ensures d.cardHolderName == dto.cardHolderName && d.expiryDate == dto.expiryDate
  {
    PaymentData(
      if Truthy(dto.cardNumber) then Some(LastFour(dto.cardNumber.value)) else None,
      dto.cardHolderName,
      dto.expiryDate,
      if Truthy(dto.cvv) then Some(seal(dto.cvv.value)) else None)
  }

  /** An update writes the supplied fields and keeps the rest. */
  function Merge(m: PaymentMethod, d: PaymentData): PaymentMethod {
    PaymentMethod(
      m.id,
      d.cardNumber.GetOr(m.cardNumber),
      d.cardHolderName.GetOr(m.cardHolderName),
      d.expiryDate.GetOr(m.expiryDate),
      d.cvv.GetOr(m.cvv))
  }

  predicate Complete(d: PaymentData) {
    d.cardNumber.Some? && d.cardHolderName.Some? && d.expiryDate.Some? && d.cvv.Some?
  }

  /**
   * `createOrUpdate`: updates the caller's record when there is one, creates it
   * otherwise (the store refuses a new row missing a required column). Returns
   * the stored record without its CVV.
   */
  function CreateOrUpdate(s: Store, userId: Id, dto: PaymentInput, seal: string -> string, newId: Id)
    : (r: Result<(Store, PaymentView), Error>)
    requires Fresh(s, newId)
    ensures r.Failure? <==> userId !in s.paymentMethods && !Complete(ToData(dto, seal))
    ensures r.Failure? ==> r.error == StoreRejected
    ensures r.Success? ==>
      var (s', view) := r.value;
      && s' == s.(paymentMethods := s'.paymentMethods)
      && s'.paymentMethods.Keys == s.paymentMethods.Keys + {userId}
      && (forall u | u in s.paymentMethods && u != userId :: s'.paymentMethods[u] == s.paymentMethods[u])
      && view == View(s'.paymentMethods[userId])
      && (userId in s.paymentMethods ==> s'.paymentMethods[userId].id == s.paymentMethods[userId].id)
      && (userId !in s.paymentMethods ==> s'.paymentMethods[userId].id == newId)
      && (Truthy(dto.cardNumber) ==> s'.paymentMethods[userId].cardNumber == LastFour(dto.cardNumber.value))
      && (Truthy(dto.cvv) ==> s'.paymentMethods[userId].cvv == seal(dto.cvv.value))
      && (dto.cardHolderName.Some? ==> s'.paymentMethods[userId].cardHolderName == dto.cardHolderName.value)
      && (dto.expiryDate.Some? ==> s'.paymentMethods[userId].expiryDate == dto.expiryDate.value)
      && (userId !in s.paymentMethods ==>
            s'.paymentMethods[userId] == PaymentMethod(
              newId, LastFour(dto.cardNumber.value), dto.cardHolderName.value, dto.expiryDate.value, seal(dto.cvv.value)))
  {
    var data := ToData(dto, seal);
    if userId !in s.paymentMethods && !Complete(data) then Failure(StoreRejected)
    else
      var m := Stored(s.paymentMethods, userId, data, newId);
      Success((s.(paymentMethods := s.paymentMethods[userId := m]), View(m)))
  }

  /** The record `createOrUpdate` writes: the existing one merged with `data`, or a new one under `newId`. */
  function Stored(methods: map<Id, PaymentMethod>, userId: Id, data: PaymentData, newId: Id): (m: PaymentMethod)
    requires userId in methods || Complete(data)
    ensures m.id == if userId in methods then methods[userId].id else newId
    ensures userId in methods ==> m == Merge(methods[userId], data)
    ensures userId !in methods ==>
      m == PaymentMethod(newId, data.cardNumber.value, data.cardHolderName.value, data.expiryDate.value, data.cvv.value)
  {
    if userId in methods then Merge(methods[userId], data)
    else PaymentMethod(newId, data.cardNumber.value, data.cardHolderName.value, data.expiryDate.value, data.cvv.value)
  }

  /** `findByUser`: the caller's record without its CVV, or NotFound. */
  function FindByUser(s: Store, userId: Id): (r: Result<PaymentView, Error>)
    ensures r.Failure? <==> userId !in s.paymentMethods
    ensures r.Failure? ==> r.error == NotFound
    ensures r.Success? ==> r.value == View(s.paymentMethods[userId])
  {
    if userId !in s.paymentMethods then Failure(NotFound) else Success(View(s.paymentMethods[userId]))
  }

  /** `remove`: NotFound when absent; afterwards the user has no record. */
  function Remove(s: Store, userId: Id): (r: Result<Store, Error>)
    ensures r.Failure? <==> userId !in s.paymentMethods
    ensures r.Failure? ==> r.error == NotFound
    ensures r.Success? ==>
      && r.value == s.(paymentMethods := r.value.paymentMethods)
      && r.value.paymentMethods.Keys == s.paymentMethods.Keys - {userId}
      && (forall u | u in r.value.paymentMethods :: r.value.paymentMethods[u] == s.paymentMethods[u])
  {
    if userId !in s.paymentMethods then Failure(NotFound)
    else Success(s.(paymentMethods := s.paymentMethods - {userId}))
  }

  /** No response can reveal the stored CVV: two records differing only in it look the same. */
  lemma ViewHidesCvv(m: PaymentMethod, cvv: string)
    ensures View(m.(cvv := cvv)) == View(m)
  {
  }

  /** What `createOrUpdate` answers is what `findByUser` then reads back. */
  lemma CreateOrUpdateThenFind(s: Store, userId: Id, dto: PaymentInput, seal: string -> string, newId: Id)
    requires Fresh(s, newId)
    ensures var r := CreateOrUpdate(s, userId, dto, seal, newId);
      r.Success? ==> FindByUser(r.value.0, userId) == Success(r.value.1)
  {
  }

  /**
   * Updating an existing record changes exactly the fields the DTO supplies:
   * a falsy card number or CVV, and an absent holder name or expiry date,
   * leave the stored value as it was.
   */
  lemma UpdateChangesOnlySuppliedFields(s: Store, userId: Id, dto: PaymentInput, seal: string -> string, newId: Id)
    requires Fresh(s, newId) && userId in s.paymentMethods
    ensures var m := s.paymentMethods[userId];
      var m' := CreateOrUpdate(s, userId, dto, seal, newId).value.0.paymentMethods[userId];
      && (!Truthy(dto.cardNumber) ==> m'.cardNumber == m.cardNumber)
      && (dto.cardHolderName.None? ==> m'.cardHolderName == m.cardHolderName)
      && (dto.cardHolderName.Some? ==> m'.cardHolderName == dto.cardHolderName.value)
      && (dto.expiryDate.None? ==> m'.expiryDate == m.expiryDate)
      && (dto.expiryDate.Some? ==> m'.expiryDate == dto.expiryDate.value)
      && (!Truthy(dto.cvv) ==> m'.cvv == m.cvv)
  {
  }

  /** A validated create body always produces a record: the create DTO supplies every column. */
  lemma ValidCreateAlwaysStores(s: Store, userId: Id, body: Body, seal: string -> string, newId: Id)
    requires Fresh(s, newId) && ValidateCreatePayment(body).Some?
    ensures var r := CreateOrUpdate(s, userId, ValidateCreatePayment(body).value, seal, newId);
      && r.Success?
      && |r.value.0.paymentMethods[userId].cardNumber| == 4
      && r.value.0.paymentMethods[userId].cardNumber == body["cardNumber"].s[12..]
  {
    var dto := ValidateCreatePayment(body).value;
    assert body["cardNumber"] == JStr(dto.cardNumber.value);
  }

  /** After `remove`, `findByUser` fails: no record remains for the user. */
  lemma RemoveThenFind(s: Store, userId: Id)
    requires Remove(s, userId).Success?
    ensures FindByUser(Remove(s, userId).value, userId) == Failure(NotFound)
  {
  }
}
