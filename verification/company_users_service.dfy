/** `CompanyUsersService`: a manager's view of the users of a company. The
    list hides SuperAdmins and, for anyone but a SuperAdmin, other
    companies; update, remove and password reset look the user up, refuse a
    SuperAdmin target, then refuse a target outside the requester's company
    unless the requester is a SuperAdmin. */
module CompanyUsers {
  import opened Common
  import opened Users

  const NotFoundMessage := "Utilisateur introuvable"
  const SuperAdminTargetMessage := "Interdit sur SuperAdmin"
  const OtherCompanyMessage := "Hors de votre entreprise"
  const EmailTakenMessage := "Email déjà utilisé"

  /** `String(x)` of a value that may be undefined. */
  function StringForm(s: Option<string>): (r: string)
    ensures s.Some? ==> r == s.value
  {
    if s.Some? then s.value else "undefined"
  }

  /** `sameCompany(u, cid)`: the two `String(...)` forms are equal. */
  predicate SameCompany(u: UserRecord, cid: Option<string>) {
    u.companyId == StringForm(cid)
  }

  /** A named company matches exactly its own users; a missing one is the
      string "undefined", so it matches only a user stored with that literal
      company id. */
  lemma SameCompanyMeaning(u: UserRecord, cid: Option<string>)
    ensures cid.Some? ==> (SameCompany(u, cid) <==> u.companyId == cid.value)
    ensures cid.None? ==> (SameCompany(u, cid) <==> u.companyId == "undefined")
  {
  }

  /** `requesterRole === 'SuperAdmin'`. */
  predicate RequesterIsSuperAdmin(requesterRole: Option<string>) {
    requesterRole == Some("SuperAdmin")
  }

  /** The `find` filter of `list`: never a SuperAdmin; within the company
      unless the requester is a SuperAdmin. */
  predicate Listed(u: UserRecord, companyId: Option<string>, requesterRole: Option<string>) {
    u.role != SuperAdmin && (RequesterIsSuperAdmin(requesterRole) || Matches(CompanyIs(companyId), Some(u.companyId)))
  }

  function SafeAll(s: seq<UserRecord>): (r: seq<SafeUser>)
    ensures |r| == |s|
    ensures forall i :: 0 <= i < |s| ==> r[i] == Safe(s[i])
  {
    seq(|s|, i requires 0 <= i < |s| => Safe(s[i]))
  }

  /** `list(companyId, requesterRole)`, the password projected out. */
  function Roster(s: seq<UserRecord>, companyId: Option<string>, requesterRole: Option<string>): seq<SafeUser> {
    SafeAll(Select(s, (u: UserRecord) => Listed(u, companyId, requesterRole)))
  }

  /** The list shows exactly the listed users, without their passwords. */
  lemma RosterExact(s: seq<UserRecord>, companyId: Option<string>, requesterRole: Option<string>, x: SafeUser)
    ensures x in Roster(s, companyId, requesterRole) <==>
              exists u :: u in s && Listed(u, companyId, requesterRole) && x == Safe(u)
  {
    var keep := (u: UserRecord) => Listed(u, companyId, requesterRole);
    var picked := Select(s, keep);
    if x in Roster(s, companyId, requesterRole) {
      var i :| 0 <= i < |picked| && SafeAll(picked)[i] == x;
      assert picked[i] in picked;
    }
    if exists u :: u in s && Listed(u, companyId, requesterRole) && x == Safe(u) {
      var u :| u in s && Listed(u, companyId, requesterRole) && x == Safe(u);
      SelectComplete(s, keep, u);
      var i :| 0 <= i < |picked| && picked[i] == u;
      assert SafeAll(picked)[i] == x;
    }
  }

  /** No SuperAdmin is ever listed, and a non-SuperAdmin requester sees only
      users of the company in the token. */
  lemma RosterIsolation(s: seq<UserRecord>, companyId: Option<string>, requesterRole: Option<string>, x: SafeUser)
    requires x in Roster(s, companyId, requesterRole)
    ensures x.role != SuperAdmin
    ensures !RequesterIsSuperAdmin(requesterRole) ==> Some(x.companyId) == companyId
  {
    RosterExact(s, companyId, requesterRole, x);
  }

  /** The checks `update`, `remove` and `updatePassword` run before they
      touch the target: the position of the user they may change. */
  function Authorize(s: seq<UserRecord>, id: string, companyId: Option<string>, requesterRole: Option<string>): (r: Result<nat>)
    ensures IndexOfId(s, id).None? ==> r == Err(NotFound(NotFoundMessage))
    ensures IndexOfId(s, id).Some? && s[IndexOfId(s, id).value].role == SuperAdmin ==>
              r == Err(Forbidden(SuperAdminTargetMessage))
    ensures r.Ok? <==>
              IndexOfId(s, id).Some? && s[IndexOfId(s, id).value].role != SuperAdmin
              && (RequesterIsSuperAdmin(requesterRole) || SameCompany(s[IndexOfId(s, id).value], companyId))
    ensures r.Ok? ==> r == Ok(IndexOfId(s, id).value)
    ensures r.Err? ==> r.error in {NotFound(NotFoundMessage), Forbidden(SuperAdminTargetMessage), Forbidden(OtherCompanyMessage)}
  {
    var k := IndexOfId(s, id);
    if k.None? then Err(NotFound(NotFoundMessage))
    else if s[k.value].role == SuperAdmin then Err(Forbidden(SuperAdminTargetMessage))
    else if !RequesterIsSuperAdmin(requesterRole) && !SameCompany(s[k.value], companyId) then Err(Forbidden(OtherCompanyMessage))
    else Ok(k.value)
  }

  /** A requester who is not a SuperAdmin and whose token names a company
      can only reach users of that company, and nobody can reach a
      SuperAdmin. */
  lemma AuthorizeIsolation(s: seq<UserRecord>, id: string, c: string, requesterRole: Option<string>)
    requires Authorize(s, id, Some(c), requesterRole).Ok?
    ensures var k := Authorize(s, id, Some(c), requesterRole).value;
            s[k].id == id && s[k].role != SuperAdmin
            && (!RequesterIsSuperAdmin(requesterRole) ==> s[k].companyId == c)
  {
  }

  /** What `create` returns: the stored user without its password, and the
      generated password when the body had none. */
  datatype CreatedUser = CreatedUser(user: SafeUser, tempPassword: Option<string>)

  /** The create body. */
  datatype CreateUserDto = CreateUserDto(name: string, email: string, role: Role, password: Option<string>)

  /** The update body: only name and role. */
  datatype UpdateUserDto = UpdateUserDto(name: Option<string>, role: Option<Role>)

  /** `dto.password ?? Math.random()...`: the random string is a parameter. */
  function TempPassword(dto: CreateUserDto, random: string): string {
    dto.password.GetOr(random)
  }

  /** `tempPassword: dto.password ? undefined : temp`. An empty password in
      the body is used as the password and also returned as the "temporary"
      one. */
  function ReturnedTemp(dto: CreateUserDto, random: string): (t: Option<string>)
    ensures Truthy(dto.password) <==> t.None?
    ensures dto.password == Some("") ==> t == Some("")
    ensures dto.password.None? ==> t == Some(random)
  {
    if Truthy(dto.password) then None else Some(TempPassword(dto, random))
  }

  /** The new record `create` asks the collection to insert. */
  function NewCompanyUser(companyId: Option<string>, dto: CreateUserDto, random: string): (n: NewUser)
    ensures n.companyId == companyId && n.role == Some(dto.role)
    ensures n.password == Some(Bcrypt(TempPassword(dto, random)))
  {
    NewUser(Some(dto.name), Some(dto.email), Some(Bcrypt(TempPassword(dto, random))), Some(dto.role), companyId)
  }

  /** The user `update` saves: name and role when the body has them. */
  function Renamed(u: UserRecord, dto: UpdateUserDto): (v: UserRecord)
    ensures v.id == u.id && v.email == u.email && v.password == u.password && v.companyId == u.companyId
    ensures v.name == dto.name.GetOr(u.name) && v.role == dto.role.GetOr(u.role)
  {
    u.(name := dto.name.GetOr(u.name), role := dto.role.GetOr(u.role))
  }

  /** Neither the create nor the update body is checked against the
      requester's role: a manager can make a SuperAdmin, who then sees every
      company. */
  lemma ManagerCanGrantSuperAdmin(u: UserRecord)
    requires u.role != SuperAdmin
    ensures Renamed(u, UpdateUserDto(None, Some(SuperAdmin))).role == SuperAdmin
    ensures NewCompanyUser(Some(u.companyId), CreateUserDto(u.name, u.email, SuperAdmin, None), "").role == Some(SuperAdmin)
  {
  }

  class CompanyUsersService {
    const store: UserStore

    constructor (store: UserStore)
      ensures this.store == store
    {
      this.store := store;
    }

    method List(companyId: Option<string>, requesterRole: Option<string>) returns (list: seq<SafeUser>)
      ensures list == Roster(store.users, companyId, requesterRole)
      ensures forall x :: x in list ==>
                x.role != SuperAdmin && (RequesterIsSuperAdmin(requesterRole) || Some(x.companyId) == companyId)
    {
      list := Roster(store.users, companyId, requesterRole);
      forall x | x in list
        ensures x.role != SuperAdmin && (RequesterIsSuperAdmin(requesterRole) || Some(x.companyId) == companyId)
      {
        RosterIsolation(store.users, companyId, requesterRole, x);
      }
    }

    /** `create(companyId, dto)`; `random` is the `Math.random()` string. */
    method Create(companyId: Option<string>, dto: CreateUserDto, random: string) returns (r: Result<CreatedUser>)
      requires store.Valid()
      modifies store
      ensures store.Valid()
      ensures FindByEmail(old(store.users), dto.email).Some? ==>
                r == Err(BadRequest(EmailTakenMessage)) && store.users == old(store.users)
      ensures FindByEmail(old(store.users), dto.email).None? ==>
                var n := NewCompanyUser(companyId, dto, random);
                if MissingUserPaths(n) == [] then
                  r == Ok(CreatedUser(Safe(Complete(ObjectIdOf(old(store.issued)), n)), ReturnedTemp(dto, random)))
                  && store.users == old(store.users) + [Complete(ObjectIdOf(old(store.issued)), n)]
                else
                  r == Err(ValidationFailed(MissingUserPaths(n))) && store.users == old(store.users)
    {
      if FindByEmail(store.users, dto.email).Some? {
        return Err(BadRequest(EmailTakenMessage));
      }
      var doc := store.Insert(NewCompanyUser(companyId, dto, random));
      if doc.Err? {
        return Err(doc.error);
      }
      r := Ok(CreatedUser(Safe(doc.value), ReturnedTemp(dto, random)));
    }

    method Update(companyId: Option<string>, id: string, dto: UpdateUserDto, requesterRole: Option<string>)
      returns (r: Result<SafeUser>)
      requires store.Valid()
      modifies store
      ensures store.Valid() && store.issued == old(store.issued)
      ensures var a := Authorize(old(store.users), id, companyId, requesterRole);
              if a.Err? then
                r == Err(a.error) && store.users == old(store.users)
              else
                var v := Renamed(old(store.users)[a.value], dto);
                if InvalidPaths(v) == [] then
                  r == Ok(Safe(v)) && store.users == old(store.users)[a.value := v]
                else
                  r == Err(ValidationFailed(InvalidPaths(v))) && store.users == old(store.users)
    {
      var a := Authorize(store.users, id, companyId, requesterRole);
      if a.Err? {
        return Err(a.error);
      }
      var saved := store.Save(a.value, Renamed(store.users[a.value], dto));
      if saved.Err? {
        return Err(saved.error);
      }
      r := Ok(Safe(saved.value));
    }

    method Remove(companyId: Option<string>, id: string, requesterRole: Option<string>) returns (r: Result<bool>)
      requires store.Valid()
      modifies store
      ensures store.Valid() && store.issued == old(store.issued)
      ensures var a := Authorize(old(store.users), id, companyId, requesterRole);
              if a.Err? then
                r == Err(a.error) && store.users == old(store.users)
              else
                r == Ok(true) && store.users == RemoveAt(old(store.users), a.value)
    {
      var a := Authorize(store.users, id, companyId, requesterRole);
      if a.Err? {
        return Err(a.error);
      }
      store.Delete(a.value);
      r := Ok(true);
    }

    /** `updatePassword`: the new password is hashed; no current password
        is asked for. */
    method UpdatePassword(companyId: Option<string>, id: string, requesterRole: Option<string>, newPassword: string)
      returns (r: Result<bool>)
      requires store.Valid()
      modifies store
      ensures store.Valid() && store.issued == old(store.issued)
      ensures var a := Authorize(old(store.users), id, companyId, requesterRole);
              if a.Err? then
                r == Err(a.error) && store.users == old(store.users)
              else
                var v := old(store.users)[a.value].(password := Bcrypt(newPassword));
                if InvalidPaths(v) == [] then
                  r == Ok(true) && store.users == old(store.users)[a.value := v]
                else
                  r == Err(ValidationFailed(InvalidPaths(v))) && store.users == old(store.users)
    {
      var a := Authorize(store.users, id, companyId, requesterRole);
      if a.Err? {
        return Err(a.error);
      }
      var saved := store.Save(a.value, store.users[a.value].(password := Bcrypt(newPassword)));
      if saved.Err? {
        return Err(saved.error);
      }
      r := Ok(true);
    }
  }
}
