/** `EquipmentController` (`/api/equipments`): a non-SuperAdmin's create and
    update bodies take the token's `companyId`, falling back to the body's
    only when the token has none; the list is tenant-filtered. */
module EquipmentApi {
  import opened Common
  import opened Calendar

  /** A create or update body (every field optional in an update). */
  datatype EquipmentDto = EquipmentDto(
    name: Option<string>,
    kind: Option<string>,
    dateMES: Option<Date>,
    location: Option<string>,
    companyId: Option<string>)

  /** A stored equipment record. */
  datatype Equipment = Equipment(
    id: string,
    name: string,
    kind: string,
    dateMES: Option<Date>,
    location: Option<string>,
    companyId: Option<string>)

  /** The body `create` and `update` forward:
      `role === 'SuperAdmin' ? body : { ...body, companyId: companyId ?? body.companyId }`. */
  function ScopedBody(user: Option<JwtPayload>, body: EquipmentDto): (p: EquipmentDto)
    ensures p == body.(companyId := p.companyId)
    ensures IsSuperAdmin(user) ==> p == body
    ensures !IsSuperAdmin(user) && TokenCompany(user).Some? ==> p.companyId == TokenCompany(user)
    ensures !IsSuperAdmin(user) && TokenCompany(user).None? ==> p.companyId == body.companyId
  {
    if IsSuperAdmin(user) then body
    else body.(companyId := if TokenCompany(user).Some? then TokenCompany(user) else body.companyId)
  }

  /** Unlike the scheduling and report controllers, a caller whose token has
      no company keeps the body's; and because `??` skips only a missing
      value, an empty token company still wins over the body. */
  lemma FallbackPolicy(user: Option<JwtPayload>, body: EquipmentDto)
    requires !IsSuperAdmin(user)
    ensures TokenCompany(user).None? ==> ScopedBody(user, body) == body
    ensures TokenCompany(user) == Some("") ==> ScopedBody(user, body).companyId == Some("")
    ensures TokenCompany(user).Some? ==>
              forall other: EquipmentDto {:trigger ScopedBody(user, other)} ::
                ScopedBody(user, other).companyId == ScopedBody(user, body).companyId
  {
  }

  /** `findAll`: `find({})` for a SuperAdmin, `find({ companyId })` otherwise. */
  function FindAll(user: Option<JwtPayload>, store: seq<Equipment>): (list: seq<Equipment>)
    ensures forall e :: e in list ==> e in store
  {
    Select(store, (e: Equipment) => Matches(ListFilter(user), e.companyId))
  }

  lemma FindAllScoped(user: Option<JwtPayload>, store: seq<Equipment>, e: Equipment)
    ensures e in FindAll(user, store) <==>
              e in store && (IsSuperAdmin(user) || e.companyId == TokenCompany(user))
  {
    if e in store && (IsSuperAdmin(user) || e.companyId == TokenCompany(user)) {
      SelectComplete(store, (e: Equipment) => Matches(ListFilter(user), e.companyId), e);
    }
  }
}
