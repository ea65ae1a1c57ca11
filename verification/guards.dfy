/** The two role guards that run after the JWT guard has set `req.user`:
    `MultiEntrepriseGuard` lets a SuperAdmin through and requires everyone
    else to carry a company, `SuperAdminGuard` lets only a SuperAdmin
    through. A refusal is a ForbiddenException. */
module Guards {
  import opened Common

  const NoCompanyMessage := "Aucune entreprise associée à cet utilisateur"
  const SuperAdminOnlyMessage := "Accès réservé au SuperAdmin"

  /** `MultiEntrepriseGuard.canActivate`. */
  function MultiEntreprise(user: Option<JwtPayload>): (r: Result<bool>)
    ensures r.Ok? <==> IsSuperAdmin(user) || Truthy(TokenCompany(user))
    ensures r.Ok? ==> r.value
    ensures r.Err? ==> r.error == Forbidden(NoCompanyMessage)
  {
    if IsSuperAdmin(user) then Ok(true)
    else if !Truthy(TokenCompany(user)) then Err(Forbidden(NoCompanyMessage))
    else Ok(true)
  }

  /** `SuperAdminGuard.canActivate`. */
  function SuperAdminOnly(user: Option<JwtPayload>): (r: Result<bool>)
    ensures r.Ok? <==> IsSuperAdmin(user)
    ensures r.Ok? ==> r.value
    ensures r.Err? ==> r.error == Forbidden(SuperAdminOnlyMessage)
  {
    if IsSuperAdmin(user) then Ok(true) else Err(Forbidden(SuperAdminOnlyMessage))
  }

  /** A request that passes the SuperAdmin guard passes the tenant guard;
      a request with no user passes neither. */
  lemma GuardsNest(user: Option<JwtPayload>)
    ensures SuperAdminOnly(user).Ok? ==> MultiEntreprise(user).Ok?
    ensures user.None? ==> MultiEntreprise(user).Err? && SuperAdminOnly(user).Err?
  {
  }

  /** Behind the tenant guard, a non-SuperAdmin's list filter names a real
      company: the `{ companyId: undefined }` filter cannot be reached. */
  lemma GuardedListFilterNamesCompany(user: Option<JwtPayload>)
    requires MultiEntreprise(user).Ok? && !IsSuperAdmin(user)
    ensures exists c :: c != "" && ListFilter(user) == CompanyIs(Some(c))
  {
    assert ListFilter(user) == CompanyIs(Some(TokenCompany(user).value));
  }
}
