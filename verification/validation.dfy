/**
 * The request DTOs of the order-item and payment-method endpoints, checked the
 * way the global validation pipe checks them: every declared constraint must
 * hold, and a property the DTO does not declare rejects the whole body
 * (`whitelist` together with `forbidNonWhitelisted`).
 */
module Validation {
  import opened Wrappers
  import opened Domain

  /** A JSON value as it arrives in a request body; numbers are JavaScript numbers. */
  datatype Json = JNull | JBool(b: bool) | JNum(n: real) | JStr(s: string) | JArray | JObject

  /** A parsed request body: property name to value. */
  type Body = map<string, Json>

  /** The property `key` of a body; `None` is `undefined`. */
  function Get(body: Body, key: string): Option<Json> {
    if key in body then Some(body[key]) else None
  }

  /** Only declared properties are present. */
  predicate OnlyDeclared(body: Body, declared: set<string>) {
    body.Keys <= declared
  }

  // ---- the class-validator decorators used by these DTOs ----

  /** `@IsNotEmpty()`: not `undefined`, not `null`, not the empty string. */
  predicate IsNotEmpty(v: Option<Json>) {
    v.Some? && v.value != JNull && v.value != JStr("")
  }

  /** `@IsString()`. */
  predicate IsString(v: Option<Json>) {
    v.Some? && v.value.JStr?
  }

  /** `@IsInt()`: a number with no fractional part. */
  predicate IsInt(v: Option<Json>) {
    v.Some? && v.value.JNum? && v.value.n.Floor as real == v.value.n
  }

  /** `@Min(m)`: a number no smaller than `m`. */
  predicate Min(v: Option<Json>, m: int) {
    v.Some? && v.value.JNum? && v.value.n >= m as real
  }

  /** `@IsOptional()`: `null` and `undefined` skip every other decorator of the property. */
  predicate Skipped(v: Option<Json>) {
    v.None? || v.value == JNull
  }

  /** `@Length(n, n)` on a string already known to be one. */
  predicate HasLength(v: Option<Json>, n: nat)
    requires IsString(v)
  {
    |v.value.s| == n
  }

  predicate IsDigit(c: char) {
    '0' <= c <= '9'
  }

  predicate IsHexDigit(c: char) {
    IsDigit(c) || 'a' <= c <= 'f' || 'A' <= c <= 'F'
  }

  /** `@IsUUID()`: the 8-4-4-4-12 hexadecimal shape, case-insensitive. */
  predicate IsUuid(s: string) {
    && |s| == 36
    && (forall i | 0 <= i < |s| :: if i == 8 || i == 13 || i == 18 || i == 23 then s[i] == '-' else IsHexDigit(s[i]))
  }

  /** `@Matches(/^(0[1-9]|1[0-2])\/\d{2}$/)`: MM/YY with a month from 01 to 12. */
  predicate MatchesExpiry(s: string) {
    && |s| == 5
    && ((s[0] == '0' && '1' <= s[1] <= '9') || (s[0] == '1' && '0' <= s[1] <= '2'))
    && s[2] == '/'
    && IsDigit(s[3])
    && IsDigit(s[4])
  }

  // ---- MM/YY: the pattern accepts exactly the formatted (month, year) pairs ----

  function DigitChar(d: int): (c: char)
    requires 0 <= d <= 9
    ensures IsDigit(c)
  {
    ('0' as int + d) as char
  }

  function DigitValue(c: char): (d: int)
    requires IsDigit(c)
    ensures 0 <= d <= 9
  {
    c as int - '0' as int
  }

  /** The MM/YY text of a month 1..12 and a two-digit year 0..99. */
  function FormatExpiry(month: int, year: int): (s: string)
    requires 1 <= month <= 12 && 0 <= year <= 99
    ensures |s| == 5 && s[2] == '/'
  {
    [DigitChar(month / 10), DigitChar(month % 10), '/', DigitChar(year / 10), DigitChar(year % 10)]
  }

  function ExpiryMonth(s: string): int
    requires MatchesExpiry(s)
  {
    DigitValue(s[0]) * 10 + DigitValue(s[1])
  }

  function ExpiryYear(s: string): int
    requires MatchesExpiry(s)
  {
    DigitValue(s[3]) * 10 + DigitValue(s[4])
  }

  /** Every well-formed month and year formats to a string the pattern accepts, and reads back unchanged. */
  lemma FormatExpiryMatches(month: int, year: int)
    requires 1 <= month <= 12 && 0 <= year <= 99
    ensures MatchesExpiry(FormatExpiry(month, year))
    ensures ExpiryMonth(FormatExpiry(month, year)) == month
    ensures ExpiryYear(FormatExpiry(month, year)) == year
  {
    var s := FormatExpiry(month, year);
    assert DigitValue(s[0]) == month / 10 && DigitValue(s[1]) == month % 10;
    assert DigitValue(s[3]) == year / 10 && DigitValue(s[4]) == year % 10;
  }

  /** Every string the pattern accepts is the formatting of a month in 1..12 and a year in 0..99. */
  lemma MatchesExpiryIsFormatted(s: string)
    requires MatchesExpiry(s)
    ensures 1 <= ExpiryMonth(s) <= 12 && 0 <= ExpiryYear(s) <= 99
    ensures FormatExpiry(ExpiryMonth(s), ExpiryYear(s)) == s
  {
    var m, y := ExpiryMonth(s), ExpiryYear(s);
    assert m / 10 == DigitValue(s[0]) && m % 10 == DigitValue(s[1]);
    assert y / 10 == DigitValue(s[3]) && y % 10 == DigitValue(s[4]);
    var t := FormatExpiry(m, y);
    assert t[0] == s[0] && t[1] == s[1] && t[3] == s[3] && t[4] == s[4];
  }

  // ---- AddItemDto ----

  /** The validated body of `POST /orders/:id/items`. */
  datatype AddItemDto = AddItemDto(menuItemId: Id, quantity: int)

  const AddItemFields: set<string> := {"menuItemId", "quantity"}

  /** Every decorator of `AddItemDto` holds, and nothing else is present. */
  predicate AddItemValid(body: Body) {
    var id, q := Get(body, "menuItemId"), Get(body, "quantity");
    && OnlyDeclared(body, AddItemFields)
    && IsString(id) && IsUuid(id.value.s) && IsNotEmpty(id)
    && IsInt(q) && Min(q, 1) && IsNotEmpty(q)
  }

  /** The body a client sends for `dto`. */
  function AddItemBody(dto: AddItemDto): Body {
    map["menuItemId" := JStr(dto.menuItemId), "quantity" := JNum(dto.quantity as real)]
  }

  function ValidateAddItem(body: Body): (r: Option<AddItemDto>)
    ensures r.Some? <==> AddItemValid(body)
    ensures r.Some? ==> r.value.quantity >= 1 && IsUuid(r.value.menuItemId)
    ensures r.Some? ==> AddItemBody(r.value) == body
  {
    if AddItemValid(body) then
      assert body.Keys == AddItemFields;
      Some(AddItemDto(body["menuItemId"].s, body["quantity"].n.Floor))
    else None
  }

  /** A DTO with a uuid and a positive quantity is exactly what its own body validates to. */
  lemma AddItemRoundTrip(dto: AddItemDto)
    requires IsUuid(dto.menuItemId) && dto.quantity >= 1
    ensures ValidateAddItem(AddItemBody(dto)) == Some(dto)
  {
    var body := AddItemBody(dto);
    assert Get(body, "menuItemId") == Some(JStr(dto.menuItemId));
    assert Get(body, "quantity") == Some(JNum(dto.quantity as real));
    assert JStr(dto.menuItemId) != JStr("") by {
      assert |dto.menuItemId| == 36;
    }
  }

  // ---- UpdateItemDto ----

  /** The validated body of `PATCH /orders/:id/items/:itemId`: the new quantity, nothing else. */
  datatype UpdateItemDto = UpdateItemDto(quantity: int)

  const UpdateItemFields: set<string> := {"quantity"}

  predicate UpdateItemValid(body: Body) {
    var q := Get(body, "quantity");
    OnlyDeclared(body, UpdateItemFields) && IsInt(q) && Min(q, 1) && IsNotEmpty(q)
  }

  function UpdateItemBody(dto: UpdateItemDto): Body {
    map["quantity" := JNum(dto.quantity as real)]
  }

  function ValidateUpdateItem(body: Body): (r: Option<UpdateItemDto>)
    ensures r.Some? <==> UpdateItemValid(body)
    ensures r.Some? ==> r.value.quantity >= 1
    ensures r.Some? ==> UpdateItemBody(r.value) == body
  {
    if UpdateItemValid(body) then
      assert body.Keys == UpdateItemFields;
      Some(UpdateItemDto(body["quantity"].n.Floor))
    else None
  }

  lemma UpdateItemRoundTrip(dto: UpdateItemDto)
    requires dto.quantity >= 1
    ensures ValidateUpdateItem(UpdateItemBody(dto)) == Some(dto)
  {
    assert Get(UpdateItemBody(dto), "quantity") == Some(JNum(dto.quantity as real));
  }

  /**
   * The quantity is the only property a client can send for an existing line:
   * a body carrying anything else, the captured `price` included, is rejected,
   * and so is a quantity below one.
   */
  lemma UpdateItemRejects(body: Body)
    requires "price" in body || Get(body, "quantity") == Some(JNum(0.0))
    ensures ValidateUpdateItem(body).None?
  {
  }

  // ---- payment-method DTOs ----

  /** The payment DTO the service receives; `None` is an absent (or `null`) property. */
  datatype PaymentInput = PaymentInput(
    cardNumber: Option<string>,
    cardHolderName: Option<string>,
    expiryDate: Option<string>,
    cvv: Option<string>)

  const PaymentFields: set<string> := {"cardNumber", "cardHolderName", "expiryDate", "cvv"}

  /** The string value of a property known to be a string, else `None`. */
  function StringField(body: Body, key: string): (r: Option<string>)
    ensures r.Some? <==> IsString(Get(body, key))
    ensures r.Some? ==> body[key] == JStr(r.value)
  {
    if key in body && body[key].JStr? then Some(body[key].s) else None
  }

  /** The body a client sends for `dto`: one string property per supplied field. */
  function PaymentBody(dto: PaymentInput): Body {
    (if dto.cardNumber.Some? then map["cardNumber" := JStr(dto.cardNumber.value)] else map[])
    + (if dto.cardHolderName.Some? then map["cardHolderName" := JStr(dto.cardHolderName.value)] else map[])
    + (if dto.expiryDate.Some? then map["expiryDate" := JStr(dto.expiryDate.value)] else map[])
    + (if dto.cvv.Some? then map["cvv" := JStr(dto.cvv.value)] else map[])
  }

  /** `body` without its `null` properties: what an update body supplies. */
  function NonNull(body: Body): Body {
    map k | k in body && body[k] != JNull :: body[k]
  }

  /** Every decorator of `CreatePaymentMethodDto` holds, and nothing else is present. */
  predicate CreatePaymentValid(body: Body) {
    var card, holder, expiry, cvv :=
      Get(body, "cardNumber"), Get(body, "cardHolderName"), Get(body, "expiryDate"), Get(body, "cvv");
    && OnlyDeclared(body, PaymentFields)
    && IsString(card) && IsNotEmpty(card) && HasLength(card, 16)
    && IsString(holder) && IsNotEmpty(holder)
    && IsString(expiry) && IsNotEmpty(expiry) && MatchesExpiry(expiry.value.s)
    && IsString(cvv) && IsNotEmpty(cvv) && HasLength(cvv, 3)
  }

  function ValidateCreatePayment(body: Body): (r: Option<PaymentInput>)
    ensures r.Some? <==> CreatePaymentValid(body)
    ensures r.Some? ==>
      && r.value.cardNumber.Some? && |r.value.cardNumber.value| == 16
      && r.value.cardHolderName.Some? && r.value.cardHolderName.value != ""
      && r.value.expiryDate.Some? && MatchesExpiry(r.value.expiryDate.value)
      && r.value.cvv.Some? && |r.value.cvv.value| == 3
    ensures r.Some? ==> PaymentBody(r.value) == body
  {
    if CreatePaymentValid(body) then
      Some(PaymentInput(
        StringField(body, "cardNumber"), StringField(body, "cardHolderName"),
        StringField(body, "expiryDate"), StringField(body, "cvv")))
    else None
  }

  /** An optional property: skipped when `null`/absent, otherwise a string meeting `ok`. */
  predicate OptionalString(v: Option<Json>, ok: string -> bool) {
    Skipped(v) || (IsString(v) && ok(v.value.s))
  }

  /** Every decorator of `UpdatePaymentMethodDto` holds, and nothing else is present. */
  predicate UpdatePaymentValid(body: Body) {
    && OnlyDeclared(body, PaymentFields)
    && OptionalString(Get(body, "cardNumber"), s => |s| == 16)
    && OptionalString(Get(body, "cardHolderName"), s => true)
    && OptionalString(Get(body, "expiryDate"), MatchesExpiry)
    && OptionalString(Get(body, "cvv"), s => |s| == 3)
  }

  function ValidateUpdatePayment(body: Body): (r: Option<PaymentInput>)
    ensures r.Some? <==> UpdatePaymentValid(body)
    ensures r.Some? ==>
      && (r.value.cardNumber.Some? ==> |r.value.cardNumber.value| == 16)
      && (r.value.expiryDate.Some? ==> MatchesExpiry(r.value.expiryDate.value))
      && (r.value.cvv.Some? ==> |r.value.cvv.value| == 3)
    ensures r.Some? ==>
      && (r.value.cardNumber.None? <==> Skipped(Get(body, "cardNumber")))
      && (r.value.cardHolderName.None? <==> Skipped(Get(body, "cardHolderName")))
      && (r.value.expiryDate.None? <==> Skipped(Get(body, "expiryDate")))
      && (r.value.cvv.None? <==> Skipped(Get(body, "cvv")))
    ensures r.Some? ==> PaymentBody(r.value) == NonNull(body)
  {
    if UpdatePaymentValid(body) then
      var dto := PaymentInput(
        StringField(body, "cardNumber"), StringField(body, "cardHolderName"),
        StringField(body, "expiryDate"), StringField(body, "cvv"));
      UpdateBodyIsPaymentBody(body, dto);
      Some(dto)
    else None
  }

  /** A valid update body, read field by field, serialises back to its non-null properties. */
  lemma UpdateBodyIsPaymentBody(body: Body, dto: PaymentInput)
    requires UpdatePaymentValid(body)
    requires dto == PaymentInput(
      StringField(body, "cardNumber"), StringField(body, "cardHolderName"),
      StringField(body, "expiryDate"), StringField(body, "cvv"))
    ensures PaymentBody(dto) == NonNull(body)
  {
    PaymentBodyFields(dto);
    forall k | k in PaymentFields
      ensures Get(PaymentBody(dto), k) == Get(NonNull(body), k)
    {
    }
  }

  /**
   * A DTO with every field, a 16-character card number, a non-empty holder
   * name, an MM/YY expiry and a 3-character CVV validates from its own body
   * back to itself.
   */
  lemma CreatePaymentRoundTrip(dto: PaymentInput)
    requires dto.cardNumber.Some? && |dto.cardNumber.value| == 16
    requires dto.cardHolderName.Some? && dto.cardHolderName.value != ""
    requires dto.expiryDate.Some? && MatchesExpiry(dto.expiryDate.value)
    requires dto.cvv.Some? && |dto.cvv.value| == 3
    ensures ValidateCreatePayment(PaymentBody(dto)) == Some(dto)
  {
  }

  /** Any DTO whose supplied fields meet the update rules validates from its own body back to itself. */
  lemma UpdatePaymentRoundTrip(dto: PaymentInput)
    requires dto.cardNumber.Some? ==> |dto.cardNumber.value| == 16
    requires dto.expiryDate.Some? ==> MatchesExpiry(dto.expiryDate.value)
    requires dto.cvv.Some? ==> |dto.cvv.value| == 3
    ensures ValidateUpdatePayment(PaymentBody(dto)) == Some(dto)
  {
    PaymentBodyFields(dto);
  }

  /** Each property of a payment body is the corresponding DTO field, as a string. */
  lemma PaymentBodyFields(dto: PaymentInput)
    ensures PaymentBody(dto).Keys <= PaymentFields
    ensures Get(PaymentBody(dto), "cardNumber") == if dto.cardNumber.Some? then Some(JStr(dto.cardNumber.value)) else None
    ensures Get(PaymentBody(dto), "cardHolderName") == if dto.cardHolderName.Some? then Some(JStr(dto.cardHolderName.value)) else None
    ensures Get(PaymentBody(dto), "expiryDate") == if dto.expiryDate.Some? then Some(JStr(dto.expiryDate.value)) else None
    ensures Get(PaymentBody(dto), "cvv") == if dto.cvv.Some? then Some(JStr(dto.cvv.value)) else None
  {
  }

  /** Every field of the update DTO is optional: the empty body is valid and supplies nothing. */
  lemma EmptyUpdatePaymentValid()
    ensures ValidateUpdatePayment(map[]) == Some(PaymentInput(None, None, None, None))
  {
  }

  /** The create DTO is the update DTO with every field made required: a valid create body is a valid update body, read the same way. */
  lemma CreatePaymentIsUpdatePayment(body: Body)
    requires CreatePaymentValid(body)
    ensures ValidateUpdatePayment(body) == ValidateCreatePayment(body)
  {
  }
}
