/** The user collection and `UserService`. Passwords are kept as `Secret`s:
    `bcrypt.hash(p)` is `Bcrypt(p)`, and a value written without hashing is
    `Raw`. The schema requires every field and has a unique index on
    `email`. */
module Users {
  import opened Common

  /** A stored password. `Bcrypt(p)` stands for `bcrypt.hash(p, 10)`; the
      salt and the digest are not modelled. */
  datatype Secret = Bcrypt(plain: string) | Raw(value: string)

  /** `bcrypt.compare(plain, stored)`: true exactly for the hash of `plain`;
      a string that is not a bcrypt hash never matches. */
  predicate Compare(plain: string, stored: Secret) {
    stored == Bcrypt(plain)
  }

  datatype UserRecord = UserRecord(
    id: string,
    name: string,
    email: string,
    password: Secret,
    role: Role,
    companyId: string)

  /** `SafeUser`: a user without the password. */
  datatype SafeUser = SafeUser(id: string, name: string, email: string, role: Role, companyId: string)

  function Safe(u: UserRecord): (s: SafeUser)
    ensures s.id == u.id && s.name == u.name && s.email == u.email
    ensures s.role == u.role && s.companyId == u.companyId
  {
    SafeUser(u.id, u.name, u.email, u.role, u.companyId)
  }

  /** A document about to be inserted; any field may be missing. */
  datatype NewUser = NewUser(
    name: Option<string>,
    email: Option<string>,
    password: Option<Secret>,
    role: Option<Role>,
    companyId: Option<string>)

  /** `Partial<User>` as `update` receives it. */
  datatype UserPatch = UserPatch(
    name: Option<string>,
    email: Option<string>,
    password: Option<string>,
    role: Option<Role>,
    companyId: Option<string>)

  predicate SecretPresent(s: Option<Secret>) {
    s.Some? && s.value != Raw("")
  }

  /** The required paths a new document lacks, in schema order. */
  function MissingUserPaths(n: NewUser): (paths: seq<string>)
    ensures paths == [] <==>
              Truthy(n.name) && Truthy(n.email) && SecretPresent(n.password) && n.role.Some? && Truthy(n.companyId)
  {
    (if !Truthy(n.name) then ["name"] else [])
    + (if !Truthy(n.email) then ["email"] else [])
    + (if !SecretPresent(n.password) then ["password"] else [])
    + (if n.role.None? then ["role"] else [])
    + (if !Truthy(n.companyId) then ["companyId"] else [])
  }

  /** The required paths a stored document would fail when saved again. */
  function InvalidPaths(u: UserRecord): (paths: seq<string>)
    ensures paths == [] <==> u.name != "" && u.email != "" && u.password != Raw("") && u.companyId != ""
  {
    MissingUserPaths(NewUser(Some(u.name), Some(u.email), Some(u.password), Some(u.role), Some(u.companyId)))
  }

  function Complete(id: string, n: NewUser): (u: UserRecord)
    requires MissingUserPaths(n) == []
    ensures u.id == id && Some(u.name) == n.name && Some(u.email) == n.email
    ensures Some(u.password) == n.password && Some(u.role) == n.role && Some(u.companyId) == n.companyId
  {
    UserRecord(id, n.name.value, n.email.value, n.password.value, n.role.value, n.companyId.value)
  }

  /** `findByIdAndUpdate(id, patch)`: a `$set` of the keys the patch carries;
      a password in the patch is written as it is, unhashed. */
  function ApplyPatch(u: UserRecord, p: UserPatch): (r: UserRecord)
    ensures r.id == u.id
    ensures r.password == if p.password.Some? then Raw(p.password.value) else u.password
    ensures r.name == p.name.GetOr(u.name) && r.email == p.email.GetOr(u.email)
    ensures r.role == p.role.GetOr(u.role) && r.companyId == p.companyId.GetOr(u.companyId)
    ensures p == UserPatch(None, None, None, None, None) ==> r == u
  {
    UserRecord(
      u.id,
      p.name.GetOr(u.name),
      p.email.GetOr(u.email),
      if p.password.Some? then Raw(p.password.value) else u.password,
      p.role.GetOr(u.role),
      p.companyId.GetOr(u.companyId))
  }

  predicate DistinctIds(s: seq<UserRecord>) {
    forall i, j :: 0 <= i < j < |s| ==> s[i].id != s[j].id
  }

  /** The unique index on `email`. */
  predicate UniqueEmails(s: seq<UserRecord>) {
    forall i, j :: 0 <= i < j < |s| ==> s[i].email != s[j].email
  }

  function IndexOfId(s: seq<UserRecord>, id: string): Option<nat> {
    IndexWhere(s, (u: UserRecord) => u.id == id)
  }

  function IndexOfEmail(s: seq<UserRecord>, email: string): Option<nat> {
    IndexWhere(s, (u: UserRecord) => u.email == email)
  }

  /** `findOne({ email })`. */
  function FindByEmail(s: seq<UserRecord>, email: string): (r: Option<UserRecord>)
    ensures r.Some? ==> r.value in s && r.value.email == email
    ensures r.None? <==> forall u :: u in s ==> u.email != email
  {
    var k := IndexOfEmail(s, email);
    if k.None? then None else Some(s[k.value])
  }

  /** Whether another user than the one at `k` holds `email`. */
  predicate EmailTakenByOther(s: seq<UserRecord>, k: nat, email: string) {
    exists j :: 0 <= j < |s| && j != k && s[j].email == email
  }

  /** `findById(id).select('-password')`. */
  function GetSafeById(s: seq<UserRecord>, id: string): (r: Option<SafeUser>)
    ensures r.Some? <==> exists i :: 0 <= i < |s| && s[i].id == id
    ensures r.Some? ==> exists u :: u in s && u.id == id && r.value == Safe(u)
  {
    var k := IndexOfId(s, id);
    if k.None? then None else Some(Safe(s[k.value]))
  }

  /** An update that carries a password stores it unhashed, so the login's
      `bcrypt.compare` rejects every password for that user afterwards.
      (A submitted string that is itself a bcrypt hash would match its
      preimage; the symbolic `Bcrypt` has no such strings.) */
  lemma PatchedPasswordNeverMatches(u: UserRecord, p: UserPatch, attempt: string)
    requires p.password.Some?
    ensures !Compare(attempt, ApplyPatch(u, p).password)
  {
  }

  /** The user collection, shared by `UserService`, `CompanyUsersService` and
      `AuthService`. */
  class UserStore {
    var users: seq<UserRecord>
    var issued: nat

    ghost predicate Valid()
      reads this
    {
      DistinctIds(users) && UniqueEmails(users)
      && forall i :: 0 <= i < |users| ==> Issued(users[i].id, issued)
    }

    constructor ()
      ensures Valid() && users == []
    {
      users := [];
      issued := 0;
    }

    /** `save()` of a new document: the required check, then the unique
        index on `email`. */
    method Insert(n: NewUser) returns (r: Result<UserRecord>)
      requires Valid()
      modifies this
      ensures Valid()
      ensures MissingUserPaths(n) != [] ==>
                r == Err(ValidationFailed(MissingUserPaths(n))) && users == old(users) && issued == old(issued)
      ensures MissingUserPaths(n) == [] && FindByEmail(old(users), n.email.value).Some? ==>
                r == Err(DuplicateKey("email")) && users == old(users) && issued == old(issued)
      ensures MissingUserPaths(n) == [] && FindByEmail(old(users), n.email.value).None? ==>
                r == Ok(Complete(ObjectIdOf(old(issued)), n))
                && users == old(users) + [r.value] && issued == old(issued) + 1
    {
      var missing := MissingUserPaths(n);
      if missing != [] {
        return Err(ValidationFailed(missing));
      }
      if FindByEmail(users, n.email.value).Some? {
        return Err(DuplicateKey("email"));
      }
      var u := Complete(ObjectIdOf(issued), n);
      forall i | 0 <= i < |users| ensures users[i].id != u.id && users[i].email != u.email {
        NextIdIsFresh(users[i].id, issued);
      }
      users := users + [u];
      issued := issued + 1;
      r := Ok(u);
    }

    /** `save()` of an existing document changed in memory: the validators
        run on the whole document. The email is not changed this way. */
    method Save(k: nat, u: UserRecord) returns (r: Result<UserRecord>)
      requires Valid() && k < |users| && u.id == users[k].id && u.email == users[k].email
      modifies this
      ensures Valid() && issued == old(issued)
      ensures InvalidPaths(u) != [] ==> r == Err(ValidationFailed(InvalidPaths(u))) && users == old(users)
      ensures InvalidPaths(u) == [] ==> r == Ok(u) && users == old(users)[k := u]
    {
      var invalid := InvalidPaths(u);
      if invalid != [] {
        return Err(ValidationFailed(invalid));
      }
      users := users[k := u];
      r := Ok(u);
    }

    method Delete(k: nat)
      requires Valid() && k < |users|
      modifies this
      ensures Valid() && issued == old(issued)
      ensures users == RemoveAt(old(users), k)
    {
      users := RemoveAt(users, k);
    }
  }

  class UserService {
    const store: UserStore

    constructor (store: UserStore)
      ensures this.store == store
    {
      this.store := store;
    }

    /** `create(data)`: a password is required; it is hashed before the
        document is saved. */
    method Create(data: UserPatch) returns (r: Result<UserRecord>)
      requires store.Valid()
      modifies store
      ensures store.Valid()
      ensures !Truthy(data.password) ==>
                r == Err(Failed("Password is required")) && store.users == old(store.users)
      ensures r.Ok? ==>
                Truthy(data.password) && r.value.password == Bcrypt(data.password.value)
                && Some(r.value.email) == data.email && Some(r.value.role) == data.role
                && store.users == old(store.users) + [r.value]
      ensures r.Ok? ==>
                var n := NewUser(data.name, data.email, Some(Bcrypt(data.password.value)), data.role, data.companyId);
                MissingUserPaths(n) == [] && r.value == Complete(ObjectIdOf(old(store.issued)), n)
      ensures r.Err? ==> store.users == old(store.users)
      ensures Truthy(data.password) ==>
                var n := NewUser(data.name, data.email, Some(Bcrypt(data.password.value)), data.role, data.companyId);
                (r.Ok? <==> MissingUserPaths(n) == [] && FindByEmail(old(store.users), n.email.value).None?)
    {
      if !Truthy(data.password) {
        return Err(Failed("Password is required"));
      }
      var n := NewUser(data.name, data.email, Some(Bcrypt(data.password.value)), data.role, data.companyId);
      r := store.Insert(n);
    }

    /** `findAll()`: every user, password included, in collection order. */
    method FindAll() returns (list: seq<UserRecord>)
      ensures list == store.users
    {
      list := store.users;
    }

    method FindOne(id: string) returns (r: Result<UserRecord>)
      ensures r.Ok? <==> IndexOfId(store.users, id).Some?
      ensures r.Ok? ==> r.value in store.users && r.value.id == id
      ensures r.Err? ==> r == Err(NotFound("User not found"))
    {
      var k := IndexOfId(store.users, id);
      if k.None? {
        return Err(NotFound("User not found"));
      }
      r := Ok(store.users[k.value]);
    }

    /** `update(id, patch)`: no validators run, but the unique index still
        refuses an email another user holds. */
    method Update(id: string, patch: UserPatch) returns (r: Result<UserRecord>)
      requires store.Valid()
      modifies store
      ensures store.Valid() && store.issued == old(store.issued)
      ensures var k := IndexOfId(old(store.users), id);
              if k.None? then
                r == Err(NotFound("User not found")) && store.users == old(store.users)
              else if patch.email.Some? && EmailTakenByOther(old(store.users), k.value, patch.email.value) then
                r == Err(DuplicateKey("email")) && store.users == old(store.users)
              else
                r == Ok(ApplyPatch(old(store.users)[k.value], patch))
                && store.users == old(store.users)[k.value := r.value]
    {
      var k := IndexOfId(store.users, id);
      if k.None? {
        return Err(NotFound("User not found"));
      }
      if patch.email.Some? && EmailTakenByOther(store.users, k.value, patch.email.value) {
        return Err(DuplicateKey("email"));
      }
      var u := ApplyPatch(store.users[k.value], patch);
      store.users := store.users[k.value := u];
      r := Ok(u);
    }

    method Remove(id: string) returns (r: Result<UserRecord>)
      requires store.Valid()
      modifies store
      ensures store.Valid() && store.issued == old(store.issued)
      ensures var k := IndexOfId(old(store.users), id);
              if k.None? then
                r == Err(NotFound("User not found")) && store.users == old(store.users)
              else
                r == Ok(old(store.users)[k.value]) && store.users == RemoveAt(old(store.users), k.value)
    {
      var k := IndexOfId(store.users, id);
      if k.None? {
        return Err(NotFound("User not found"));
      }
      r := Ok(store.users[k.value]);
      store.Delete(k.value);
    }

    /** `signUp`: always a SuperAdmin of the company "GLOBAL". */
    method SignUp(name: string, email: string, password: string) returns (r: Result<UserRecord>)
      requires store.Valid()
      modifies store
      ensures store.Valid()
      ensures r.Ok? ==>
                r.value.role == SuperAdmin && r.value.companyId == "GLOBAL"
                && r.value.password == Bcrypt(password) && r.value.email == email
                && store.users == old(store.users) + [r.value]
      ensures r.Ok? ==>
                var n := NewUser(Some(name), Some(email), Some(Bcrypt(password)), Some(SuperAdmin), Some("GLOBAL"));
                MissingUserPaths(n) == [] && r.value == Complete(ObjectIdOf(old(store.issued)), n)
      ensures r.Err? ==> store.users == old(store.users)
      ensures r.Ok? <==> name != "" && email != "" && FindByEmail(old(store.users), email).None?
    {
      r := store.Insert(NewUser(Some(name), Some(email), Some(Bcrypt(password)), Some(SuperAdmin), Some("GLOBAL")));
    }

    /** `createAdminForCompany`: refuses a known email, defaults the role to
        AdminEntreprise and uses the given company. */
    method CreateAdminForCompany(name: string, email: string, password: string, companyId: string, role: Option<Role>)
      returns (r: Result<UserRecord>)
      requires store.Valid()
      modifies store
      ensures store.Valid()
      ensures FindByEmail(old(store.users), email).Some? ==>
                r == Err(Failed("Email already in use")) && store.users == old(store.users)
      ensures r.Ok? ==>
                r.value.role == role.GetOr(AdminEntreprise) && r.value.companyId == companyId
                && r.value.password == Bcrypt(password) && r.value.email == email
                && store.users == old(store.users) + [r.value]
      ensures r.Ok? ==>
                var n := NewUser(Some(name), Some(email), Some(Bcrypt(password)), Some(role.GetOr(AdminEntreprise)), Some(companyId));
                MissingUserPaths(n) == [] && r.value == Complete(ObjectIdOf(old(store.issued)), n)
      ensures r.Err? ==> store.users == old(store.users)
      ensures r.Ok? <==> name != "" && email != "" && companyId != "" && FindByEmail(old(store.users), email).None?
    {
      if FindByEmail(store.users, email).Some? {
        return Err(Failed("Email already in use"));
      }
      r := store.Insert(NewUser(Some(name), Some(email), Some(Bcrypt(password)), Some(role.GetOr(AdminEntreprise)), Some(companyId)));
    }

    /** `updatePassword`: NotFound, then the current password must match;
        the new one is hashed and the document saved. */
    method UpdatePassword(id: string, current: string, next: string) returns (r: Result<UserRecord>)
      requires store.Valid()
      modifies store
      ensures store.Valid() && store.issued == old(store.issued)
      ensures var k := IndexOfId(old(store.users), id);
              if k.None? then
                r == Err(NotFound("User not found")) && store.users == old(store.users)
              else if !Compare(current, old(store.users)[k.value].password) then
                r == Err(Failed("Bad current password")) && store.users == old(store.users)
              else
                var u := old(store.users)[k.value].(password := Bcrypt(next));
                (InvalidPaths(u) == [] ==> r == Ok(u) && store.users == old(store.users)[k.value := u])
                && (InvalidPaths(u) != [] ==> r.Err? && store.users == old(store.users))
    {
      var k := IndexOfId(store.users, id);
      if k.None? {
        return Err(NotFound("User not found"));
      }
      if !Compare(current, store.users[k.value].password) {
        return Err(Failed("Bad current password"));
      }
      r := store.Save(k.value, store.users[k.value].(password := Bcrypt(next)));
    }
  }
}
