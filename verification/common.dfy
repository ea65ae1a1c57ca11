/** Values shared by every part of the backend model: optional values, the
    exceptions the NestJS services throw, JavaScript truthiness of optional
    strings, the stored user roles, the tenant filter the controllers build
    and the ids MongoDB hands out. */
module Common {

  datatype Option<T> = None | Some(value: T) {
    /** JavaScript's `x ?? d` for a value that is either present or undefined. */
    function GetOr(d: T): T {
      match this
      case Some(v) => v
      case None => d
    }
  }

  /** The exceptions the services and guards raise. */
  datatype Error =
    | NotFound(message: string)         // NotFoundException
    | Forbidden(message: string)        // ForbiddenException
    | Unauthorized(message: string)     // UnauthorizedException
    | BadRequest(message: string)       // BadRequestException
    | Failed(message: string)           // a plain `throw new Error(...)`
    | ValidationFailed(paths: seq<string>)  // Mongoose ValidationError: the missing required paths
    | DuplicateKey(path: string)        // MongoDB E11000 on a unique index

  datatype Result<T> = Ok(value: T) | Err(error: Error)

  /** `if (s)` on a string that may be undefined: the empty string is falsy. */
  predicate Truthy(s: Option<string>) {
    s.Some? && s.value != ""
  }

  /** The `Role` enum of the user schema. */
  datatype Role = SuperAdmin | AdminEntreprise | Technicien | User

  /** `String(role)`: the enum's string value. */
  function RoleName(r: Role): (name: string)
    ensures name != ""
  {
    match r
    case SuperAdmin => "SuperAdmin"
    case AdminEntreprise => "AdminEntreprise"
    case Technicien => "Technicien"
    case User => "User"
  }

  lemma RoleNameInjective(a: Role, b: Role)
    requires RoleName(a) == RoleName(b)
    ensures a == b
  {
  }

  /** The claims a verified bearer token carries (`req.user`). Every field may
      be absent, because the guards only trust what the signature covers. */
  datatype JwtPayload = JwtPayload(
    sub: Option<string>,
    id: Option<string>,
    underscoreId: Option<string>,   // the `_id` claim
    role: Option<string>,
    companyId: Option<string>)

  /** `r.user?.role === 'SuperAdmin'` for a request whose user may be missing. */
  predicate IsSuperAdmin(user: Option<JwtPayload>) {
    user.Some? && user.value.role == Some("SuperAdmin")
  }

  /** `r.user?.companyId`. */
  function TokenCompany(user: Option<JwtPayload>): Option<string> {
    if user.Some? then user.value.companyId else None
  }

  /** A list query's tenant filter: `{}` or `{ companyId }`. The value of
      `companyId` may be undefined, which the driver sends as null. */
  datatype TenantFilter = AllCompanies | CompanyIs(companyId: Option<string>)

  /** Whether a record with the given `companyId` satisfies the filter; a null
      filter value matches the records that have no `companyId`. */
  predicate Matches(f: TenantFilter, companyId: Option<string>) {
    match f
    case AllCompanies => true
    case CompanyIs(c) => companyId == c
  }

  /** The filter every list endpoint computes from the token. */
  function ListFilter(user: Option<JwtPayload>): (f: TenantFilter)
    ensures IsSuperAdmin(user) <==> f == AllCompanies
    ensures !IsSuperAdmin(user) ==> f == CompanyIs(TokenCompany(user))
  {
    if IsSuperAdmin(user) then AllCompanies else CompanyIs(TokenCompany(user))
  }

  /** A tenant-scoped list shows a non-SuperAdmin exactly the records of the
      token's company, and a SuperAdmin everything. */
  lemma ListFilterScopesToTenant(user: Option<JwtPayload>, c: string, recordCompany: Option<string>)
    requires TokenCompany(user) == Some(c)
    ensures Matches(ListFilter(user), recordCompany) <==> IsSuperAdmin(user) || recordCompany == Some(c)
  {
  }

  /** Decimal digits of a natural number, most significant first. */
  function Decimal(n: nat): (s: string)
    ensures |s| >= 1
    ensures forall i :: 0 <= i < |s| ==> '0' <= s[i] <= '9'
    decreases n
  {
    if n < 10 then [DigitChar(n)] else Decimal(n / 10) + [DigitChar(n % 10)]
  }

  function DigitChar(k: nat): (c: char)
    requires k < 10
    ensures '0' <= c <= '9'
  {
    ['0', '1', '2', '3', '4', '5', '6', '7', '8', '9'][k]
  }

  lemma DigitCharInjective(a: nat, b: nat)
    requires a < 10 && b < 10
    requires DigitChar(a) == DigitChar(b)
    ensures a == b
  {
  }

  lemma {:induction false} DecimalInjective(a: nat, b: nat)
    requires Decimal(a) == Decimal(b)
    ensures a == b
    decreases a
  {
    if a < 10 && b < 10 {
      DigitCharInjective(a, b);
    } else if a >= 10 && b >= 10 {
      var sa, sb := Decimal(a), Decimal(b);
      assert sa[|sa| - 1] == DigitChar(a % 10);
      assert sb[|sb| - 1] == DigitChar(b % 10);
      DigitCharInjective(a % 10, b % 10);
      assert sa[..|sa| - 1] == Decimal(a / 10);
      assert sb[..|sb| - 1] == Decimal(b / 10);
      DecimalInjective(a / 10, b / 10);
    }
  }

  /** The id MongoDB gives the n-th document inserted into a collection. The
      real ObjectId is opaque; all the model needs is that distinct insertions
      get distinct ids. */
  function ObjectIdOf(n: nat): string {
    "oid" + Decimal(n)
  }

  lemma ObjectIdOfInjective(a: nat, b: nat)
    requires ObjectIdOf(a) == ObjectIdOf(b)
    ensures a == b
  {
    assert Decimal(a) == ObjectIdOf(a)[3..];
    assert Decimal(b) == ObjectIdOf(b)[3..];
    DecimalInjective(a, b);
  }

  /** The ids issued by a collection that has handed out `n` ids so far. */
  predicate Issued(id: string, n: nat) {
    exists k: nat :: k < n && id == ObjectIdOf(k)
  }

  /** A freshly issued id is not among those issued before. */
  lemma NextIdIsFresh(id: string, n: nat)
    requires Issued(id, n)
    ensures id != ObjectIdOf(n)
  {
    var k: nat :| k < n && id == ObjectIdOf(k);
    if id == ObjectIdOf(n) {
      ObjectIdOfInjective(k, n);
    }
  }

  // ---------------------------------------------------------------------
  // Queries over a collection kept in insertion order.

  /** `find(filter)`: the elements that satisfy `keep`, in collection order. */
  function Select<T>(s: seq<T>, keep: T -> bool): (r: seq<T>)
    ensures |r| <= |s|
    ensures forall x :: x in r ==> x in s && keep(x)
    decreases s
  {
    if s == [] then []
    else if keep(s[0]) then [s[0]] + Select(s[1..], keep)
    else Select(s[1..], keep)
  }

  /** Nothing that satisfies `keep` is left out. */
  lemma {:induction false} SelectComplete<T>(s: seq<T>, keep: T -> bool, x: T)
    requires x in s && keep(x)
    ensures x in Select(s, keep)
    decreases s
  {
    if s[0] != x {
      SelectComplete(s[1..], keep, x);
    }
  }

  /** When every element is kept, the selection is the whole sequence. */
  lemma {:induction false} SelectAllKept<T>(s: seq<T>, keep: T -> bool)
    requires forall i :: 0 <= i < |s| ==> keep(s[i])
    ensures Select(s, keep) == s
    decreases s
  {
    if s != [] {
      SelectAllKept(s[1..], keep);
    }
  }

  /** Selecting from a concatenation selects from each part. */
  lemma {:induction false} SelectAppend<T>(a: seq<T>, b: seq<T>, keep: T -> bool)
    ensures Select(a + b, keep) == Select(a, keep) + Select(b, keep)
    decreases a
  {
    if a != [] {
      assert (a + b)[0] == a[0] && (a + b)[1..] == a[1..] + b;
      SelectAppend(a[1..], b, keep);
    } else {
      assert a + b == b;
    }
  }

  lemma {:induction false} SelectEmpty<T>(s: seq<T>, keep: T -> bool)
    requires forall x :: x in s ==> !keep(x)
    ensures Select(s, keep) == []
    decreases s
  {
    if s != [] {
      SelectEmpty(s[1..], keep);
    }
  }

  /** The position of the first element that satisfies `p`
      (`findById`, `findOne` on a unique field). */
  function IndexWhere<T>(s: seq<T>, p: T -> bool): (r: Option<nat>)
    ensures r.Some? ==> r.value < |s| && p(s[r.value])
                        && forall j :: 0 <= j < r.value ==> !p(s[j])
    ensures r.None? ==> forall j :: 0 <= j < |s| ==> !p(s[j])
    decreases s
  {
    if s == [] then None
    else if p(s[0]) then Some(0)
    else
      var t := IndexWhere(s[1..], p);
      if t.Some? then Some(t.value + 1) else None
  }

  /** The sequence without its element at position k (a delete). */
  function RemoveAt<T>(s: seq<T>, k: nat): (r: seq<T>)
    requires k < |s|
    ensures |r| == |s| - 1
    ensures forall j :: 0 <= j < k ==> r[j] == s[j]
    ensures forall j :: k <= j < |r| ==> r[j] == s[j + 1]
  {
    s[..k] + s[k + 1..]
  }
}
