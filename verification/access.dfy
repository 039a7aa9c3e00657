/**
 * Country isolation: the predicate the services apply inline, and the
 * `CountryAccessGuard` that applies it to a raw request.
 */
module Access {
  import opened Wrappers
  import opened Domain

  /** A caller may act on a resource of `resourceCountry`: ADMIN always, anyone else only at home. */
  predicate CountryAllows(role: Role, userCountry: Country, resourceCountry: Country) {
    role == Admin || resourceCountry == userCountry
  }

  /** The `country` value found in one part of the request; `None` is `undefined`. */
  datatype GuardRequest = GuardRequest(
    bodyCountry: Option<string>,
    paramsCountry: Option<string>,
    queryCountry: Option<string>)

  /**
   * `body?.country || params?.country || query?.country`: the first truthy value,
   * or `None` when all three are falsy.
   */
  function ResourceCountry(req: GuardRequest): (r: Option<string>)
    ensures r.Some? ==> r.value != ""
    ensures r.None? <==> !Truthy(req.bodyCountry) && !Truthy(req.paramsCountry) && !Truthy(req.queryCountry)
    ensures Truthy(req.bodyCountry) ==> r == req.bodyCountry
    ensures !Truthy(req.bodyCountry) && Truthy(req.paramsCountry) ==> r == req.paramsCountry
    ensures !Truthy(req.bodyCountry) && !Truthy(req.paramsCountry) && Truthy(req.queryCountry) ==> r == req.queryCountry
  {
    if Truthy(req.bodyCountry) then req.bodyCountry
    else if Truthy(req.paramsCountry) then req.paramsCountry
    else if Truthy(req.queryCountry) then req.queryCountry
    else None
  }

  /**
   * `CountryAccessGuard.canActivate`. `requireCountryAccess` is the handler's
   * `countryAccess` metadata flag. The guard either admits or throws Forbidden;
   * it never answers `false`.
   */
  function CanActivate(requireCountryAccess: bool, user: Principal, req: GuardRequest): (r: Result<bool, Error>)
    ensures r != Success(false)
    ensures r.Failure? ==> r.error == Forbidden
    ensures !requireCountryAccess ==> r == Success(true)
    ensures user.role == Admin ==> r == Success(true)
    ensures r.Failure? <==>
      && requireCountryAccess
      && user.role != Admin
      && ResourceCountry(req).Some?
      && ResourceCountry(req).value != CountryName(user.country)
  {
    if !requireCountryAccess then Success(true)
    else if user.role == Admin then Success(true)
    else
      var resourceCountry := ResourceCountry(req);
      if resourceCountry.Some? && resourceCountry.value != CountryName(user.country) then Failure(Forbidden)
      else Success(true)
  }

  /** Distinct countries travel as distinct strings. */
  lemma CountryNameInjective(a: Country, b: Country)
    ensures CountryName(a) == CountryName(b) <==> a == b
  {
    if a != b {
      assert CountryName(a)[0] != CountryName(b)[0];
    }
  }

  /**
   * When the request names a real country, the guard is exactly the inline
   * country predicate the services use.
   */
  lemma GuardAgreesWithCountryAllows(user: Principal, req: GuardRequest, c: Country)
    requires ResourceCountry(req) == Some(CountryName(c))
    ensures CanActivate(true, user, req).Success? <==> CountryAllows(user.role, user.country, c)
  {
    CountryNameInjective(c, user.country);
  }
}
