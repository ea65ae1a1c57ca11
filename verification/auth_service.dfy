/** `AuthService`: `login` checks the password of the user with the given
    email and signs a token whose claims are the user's id, role and, when
    it has one, company; `getProfile` returns a user without the password.
    The signature itself is not modelled: a token is its claims and its
    lifetime. */
module Auth {
  import opened Common
  import opened Users
  import opened Guards
  import opened MaintenanceApi

  const UnknownUserMessage := "Utilisateur non trouvé"
  const WrongPasswordMessage := "Mot de passe incorrect"
  const TokenLifetime := "7d"

  /** `{ access_token }`: the claims signed, and `expiresIn`. */
  datatype AccessToken = AccessToken(claims: JwtPayload, expiresIn: string)

  /** The payload `login` signs: `sub` is the id, `role` the role's string,
      `companyId` only when the user's is truthy. */
  function Claims(u: UserRecord): (c: JwtPayload)
    ensures c.sub == Some(u.id) && c.role == Some(RoleName(u.role))
    ensures c.id.None? && c.underscoreId.None?
    ensures c.companyId.Some? <==> u.companyId != ""
    ensures c.companyId.Some? ==> c.companyId.value == u.companyId
  {
    JwtPayload(Some(u.id), None, None, Some(RoleName(u.role)), if u.companyId != "" then Some(u.companyId) else None)
  }

  /** `login(email, password)`. */
  function Login(users: seq<UserRecord>, email: string, password: string): (r: Result<AccessToken>)
    ensures FindByEmail(users, email).None? ==> r == Err(NotFound(UnknownUserMessage))
    ensures FindByEmail(users, email).Some? && !Compare(password, FindByEmail(users, email).value.password) ==>
              r == Err(Unauthorized(WrongPasswordMessage))
    ensures r.Ok? <==> exists u :: u in users && u.email == email && u.password == Bcrypt(password)
                                  && FindByEmail(users, email) == Some(u)
    ensures r.Ok? ==> r.value.expiresIn == TokenLifetime
                      && exists u :: u in users && u.email == email && r.value.claims == Claims(u)
  {
    var found := FindByEmail(users, email);
    if found.None? then Err(NotFound(UnknownUserMessage))
    else if !Compare(password, found.value.password) then Err(Unauthorized(WrongPasswordMessage))
    else Ok(AccessToken(Claims(found.value), TokenLifetime))
  }

  /** With unique emails the user found is the only one with that email, so
      a login succeeds exactly for the password that user set. */
  lemma LoginSucceedsExactly(users: seq<UserRecord>, u: UserRecord, password: string)
    requires UniqueEmails(users) && u in users
    ensures Login(users, u.email, password).Ok? <==> u.password == Bcrypt(password)
    ensures Login(users, u.email, password).Ok? ==> Login(users, u.email, password).value.claims == Claims(u)
  {
    var k := IndexOfEmail(users, u.email);
    var i :| 0 <= i < |users| && users[i] == u;
    assert k.Some?;
    assert users[k.value].email == users[i].email;
    assert users[k.value] == u;
  }

  /** The claims of a signed token pass the tenant guard exactly when the
      user is a SuperAdmin or has a company; the SuperAdmin guard exactly for
      a SuperAdmin. */
  lemma ClaimsPassGuards(u: UserRecord)
    ensures MultiEntreprise(Some(Claims(u))).Ok? <==> u.role == SuperAdmin || u.companyId != ""
    ensures SuperAdminOnly(Some(Claims(u))).Ok? <==> u.role == SuperAdmin
  {
    if IsSuperAdmin(Some(Claims(u))) {
      RoleNameInjective(u.role, SuperAdmin);
    }
  }

  /** The controllers read the author of a work order from the claims: for a
      token `login` signed, that is the user's id, and a non-SuperAdmin's
      lists are filtered by the user's own company. */
  lemma ClaimsIdentifyUser(u: UserRecord)
    ensures UserIdClaim(Some(Claims(u))) == Some(u.id)
    ensures u.role != SuperAdmin && u.companyId != "" ==> ListFilter(Some(Claims(u))) == CompanyIs(Some(u.companyId))
  {
    if IsSuperAdmin(Some(Claims(u))) {
      RoleNameInjective(u.role, SuperAdmin);
    }
  }

  /** `getProfile(userId)`. */
  function GetProfile(users: seq<UserRecord>, userId: string): (r: Result<SafeUser>)
    ensures r.Err? <==> forall i :: 0 <= i < |users| ==> users[i].id != userId
    ensures r.Err? ==> r == Err(NotFound(UnknownUserMessage))
    ensures r.Ok? ==> exists u :: u in users && u.id == userId && r.value == Safe(u)
  {
    var safe := GetSafeById(users, userId);
    if safe.None? then Err(NotFound(UnknownUserMessage)) else Ok(safe.value)
  }

  /** A user whose password was written by `UserService.update` can no
      longer log in, under whatever email the same patch leaves them with
      (under the symbolic hash: a submitted bcrypt hash is not modelled).
      The update stores the patch only when the emails stay unique (its
      `DuplicateKey` branch refuses the rest), which is the second requires. */
  lemma PatchedUserLockedOut(users: seq<UserRecord>, k: nat, p: UserPatch, attempt: string)
    requires k < |users| && p.password.Some?
    requires UniqueEmails(users[k := ApplyPatch(users[k], p)])
    ensures Login(users[k := ApplyPatch(users[k], p)], ApplyPatch(users[k], p).email, attempt).Err?
  {
    var after := users[k := ApplyPatch(users[k], p)];
    PatchedPasswordNeverMatches(users[k], p, attempt);
    assert after[k] in after;
    LoginSucceedsExactly(after, after[k], attempt);
  }
}
