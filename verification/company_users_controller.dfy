/** `CompanyUsersController` (`/api/company-users`): every route first
    requires a manager (SuperAdmin or AdminEntreprise), then forwards the
    token's `companyId` and, except on create, its role to the service. */
module CompanyUsersApi {
  import opened Common
  import opened Users
  import opened CompanyUsers

  const RefusedMessage := "Accès refusé"

  /** `mustBeManager(req)`. */
  function MustBeManager(user: Option<JwtPayload>): (r: Result<bool>)
    ensures r.Ok? <==> user.Some? && user.value.role in {Some("SuperAdmin"), Some("AdminEntreprise")}
    ensures r.Ok? ==> r.value
    ensures r.Err? ==> r.error == Forbidden(RefusedMessage)
  {
    var role := if user.Some? then user.value.role else None;
    if role != Some("SuperAdmin") && role != Some("AdminEntreprise") then Err(Forbidden(RefusedMessage))
    else Ok(true)
  }

  /** The token's role as the service receives it. */
  function RoleClaim(user: Option<JwtPayload>): Option<string> {
    if user.Some? then user.value.role else None
  }

  /** A Technicien or plain User is refused every route, and an
      AdminEntreprise who passes is confined to the company in the token. */
  lemma ManagerScope(user: Option<JwtPayload>, s: seq<UserRecord>, id: string)
    ensures user.Some? && user.value.role in {Some("Technicien"), Some("User"), None} ==> MustBeManager(user).Err?
    ensures MustBeManager(user).Ok? && !IsSuperAdmin(user) && TokenCompany(user).Some?
            && Authorize(s, id, TokenCompany(user), RoleClaim(user)).Ok? ==>
              s[Authorize(s, id, TokenCompany(user), RoleClaim(user)).value].companyId == TokenCompany(user).value
  {
  }

  class CompanyUsersController {
    const service: CompanyUsersService

    constructor (service: CompanyUsersService)
      ensures this.service == service
    {
      this.service := service;
    }

    method List(user: Option<JwtPayload>) returns (r: Result<seq<SafeUser>>)
      ensures MustBeManager(user).Err? ==> r == Err(MustBeManager(user).error)
      ensures MustBeManager(user).Ok? ==> r == Ok(Roster(service.store.users, TokenCompany(user), RoleClaim(user)))
    {
      var m := MustBeManager(user);
      if m.Err? {
        return Err(m.error);
      }
      var list := service.List(TokenCompany(user), RoleClaim(user));
      r := Ok(list);
    }

    method Create(user: Option<JwtPayload>, dto: CreateUserDto, random: string) returns (r: Result<CreatedUser>)
      requires service.store.Valid()
      modifies service.store
      ensures service.store.Valid()
      ensures MustBeManager(user).Err? ==> r == Err(MustBeManager(user).error) && service.store.users == old(service.store.users)
      ensures r.Ok? ==>
                MustBeManager(user).Ok? && TokenCompany(user) == Some(r.value.user.companyId)
                && r.value.user.role == dto.role && r.value.user.email == dto.email
      ensures MustBeManager(user).Ok? && FindByEmail(old(service.store.users), dto.email).Some? ==>
                r == Err(BadRequest(EmailTakenMessage)) && service.store.users == old(service.store.users)
      ensures MustBeManager(user).Ok? && FindByEmail(old(service.store.users), dto.email).None? ==>
                var n := NewCompanyUser(TokenCompany(user), dto, random);
                if MissingUserPaths(n) == [] then
                  r == Ok(CreatedUser(Safe(Complete(ObjectIdOf(old(service.store.issued)), n)), ReturnedTemp(dto, random)))
                  && service.store.users == old(service.store.users) + [Complete(ObjectIdOf(old(service.store.issued)), n)]
                else
                  r == Err(ValidationFailed(MissingUserPaths(n))) && service.store.users == old(service.store.users)
    {
      var m := MustBeManager(user);
      if m.Err? {
        return Err(m.error);
      }
      r := service.Create(TokenCompany(user), dto, random);
    }

    method Update(user: Option<JwtPayload>, id: string, dto: UpdateUserDto) returns (r: Result<SafeUser>)
      requires service.store.Valid()
      modifies service.store
      ensures service.store.Valid()
      ensures MustBeManager(user).Err? ==> r == Err(MustBeManager(user).error) && service.store.users == old(service.store.users)
      ensures var a := Authorize(old(service.store.users), id, TokenCompany(user), RoleClaim(user));
              MustBeManager(user).Ok? && a.Err? ==> r == Err(a.error) && service.store.users == old(service.store.users)
      ensures r.Ok? ==>
                MustBeManager(user).Ok? && r.value.id == id && r.value.name == dto.name.GetOr(r.value.name)
                && (dto.role.Some? ==> r.value.role == dto.role.value)
      ensures MustBeManager(user).Ok? ==> service.store.issued == old(service.store.issued)
      ensures var a := Authorize(old(service.store.users), id, TokenCompany(user), RoleClaim(user));
              MustBeManager(user).Ok? && a.Ok? ==>
                var v := Renamed(old(service.store.users)[a.value], dto);
                if InvalidPaths(v) == [] then
                  r == Ok(Safe(v)) && service.store.users == old(service.store.users)[a.value := v]
                else
                  r == Err(ValidationFailed(InvalidPaths(v))) && service.store.users == old(service.store.users)
    {
      var m := MustBeManager(user);
      if m.Err? {
        return Err(m.error);
      }
      r := service.Update(TokenCompany(user), id, dto, RoleClaim(user));
    }

    method Remove(user: Option<JwtPayload>, id: string) returns (r: Result<bool>)
      requires service.store.Valid()
      modifies service.store
      ensures service.store.Valid()
      ensures MustBeManager(user).Err? ==> r == Err(MustBeManager(user).error) && service.store.users == old(service.store.users)
      ensures var a := Authorize(old(service.store.users), id, TokenCompany(user), RoleClaim(user));
              MustBeManager(user).Ok? ==>
                if a.Err? then r == Err(a.error) && service.store.users == old(service.store.users)
                else r == Ok(true) && service.store.users == RemoveAt(old(service.store.users), a.value)
    {
      var m := MustBeManager(user);
      if m.Err? {
        return Err(m.error);
      }
      r := service.Remove(TokenCompany(user), id, RoleClaim(user));
    }

    method UpdatePassword(user: Option<JwtPayload>, id: string, newPassword: string) returns (r: Result<bool>)
      requires service.store.Valid()
      modifies service.store
      ensures service.store.Valid()
      ensures MustBeManager(user).Err? ==> r == Err(MustBeManager(user).error) && service.store.users == old(service.store.users)
      ensures var a := Authorize(old(service.store.users), id, TokenCompany(user), RoleClaim(user));
              MustBeManager(user).Ok? && a.Err? ==> r == Err(a.error) && service.store.users == old(service.store.users)
      ensures MustBeManager(user).Ok? ==> service.store.issued == old(service.store.issued)
      ensures var a := Authorize(old(service.store.users), id, TokenCompany(user), RoleClaim(user));
              MustBeManager(user).Ok? && a.Ok? ==>
                var v := old(service.store.users)[a.value].(password := Bcrypt(newPassword));
                if InvalidPaths(v) == [] then
                  r == Ok(true) && service.store.users == old(service.store.users)[a.value := v]
                else
                  r == Err(ValidationFailed(InvalidPaths(v))) && service.store.users == old(service.store.users)
      ensures r.Ok? ==>
                var k := Authorize(old(service.store.users), id, TokenCompany(user), RoleClaim(user)).value;
                service.store.users == old(service.store.users)[k := old(service.store.users)[k].(password := Bcrypt(newPassword))]
    {
      var m := MustBeManager(user);
      if m.Err? {
        return Err(m.error);
      }
      r := service.UpdatePassword(TokenCompany(user), id, RoleClaim(user), newPassword);
    }
  }
}
