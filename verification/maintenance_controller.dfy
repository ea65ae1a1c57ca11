/** `MaintenanceController` (`/api/maintenances`): `toMaintenancePayload`
    turns a request body and the caller's claims into the partial record the
    service stores; the list is tenant-filtered; `findOne` and `remove`
    forward the id with no tenant check. */
module MaintenanceApi {
  import opened Common
  import opened Calendar
  import opened Maintenance

  /** A create or update body once validated. The dates are the parsed
      values; an absent or empty date string is `None`. */
  datatype MaintenanceDto = MaintenanceDto(
    kind: Option<MaintenanceType>,
    plannedDate: Option<Date>,
    dueDate: Option<Date>,
    status: Option<MaintenanceStatus>,
    description: Option<string>,
    equipmentId: Option<string>,
    companyId: Option<string>)

  /** The `opts` argument of `toMaintenancePayload`, defaults applied. */
  datatype PayloadOptions = PayloadOptions(
    companyId: Option<string>,
    isSuperAdmin: bool,
    userId: Option<string>,
    includeUserId: bool)

  /** `toMaintenancePayload(dto, opts)`. */
  function ToMaintenancePayload(dto: MaintenanceDto, opts: PayloadOptions): (p: Payload)
    ensures p.kind == dto.kind && p.status == dto.status
    ensures p.description == dto.description && p.equipmentId == dto.equipmentId
    ensures p.userId.Some? <==> opts.includeUserId && Truthy(opts.userId)
    ensures p.userId.Some? ==> p.userId == opts.userId
    ensures opts.isSuperAdmin ==> (p.companyId.Some? <==> Truthy(dto.companyId))
    ensures !opts.isSuperAdmin ==> (p.companyId.Some? <==> Truthy(opts.companyId))
    ensures p.companyId.Some? ==> p.companyId == if opts.isSuperAdmin then dto.companyId else opts.companyId
    ensures p.plannedDate == dto.plannedDate && p.dueDate == dto.dueDate
  {
    var base := Payload(dto.kind, None, None, dto.status, dto.description, dto.equipmentId, None, None);
    var withUser := if opts.includeUserId && Truthy(opts.userId) then base.(userId := opts.userId) else base;
    var withCompany :=
      if opts.isSuperAdmin then
        (if Truthy(dto.companyId) then withUser.(companyId := dto.companyId) else withUser)
      else if Truthy(opts.companyId) then withUser.(companyId := opts.companyId)
      else withUser;
    var withPlanned := if dto.plannedDate.Some? then withCompany.(plannedDate := dto.plannedDate) else withCompany;
    if dto.dueDate.Some? then withPlanned.(dueDate := dto.dueDate) else withPlanned
  }

  /** `r.user?.id ?? r.user?._id ?? r.user?.sub`: `??` skips only missing
      claims, so an empty `id` claim is taken as it is. */
  function UserIdClaim(user: Option<JwtPayload>): (u: Option<string>)
    ensures user.None? ==> u.None?
    ensures user.Some? && user.value.id.Some? ==> u == user.value.id
    ensures user.Some? && user.value.id.None? && user.value.underscoreId.Some? ==> u == user.value.underscoreId
    ensures user.Some? && user.value.id.None? && user.value.underscoreId.None? ==> u == user.value.sub
  {
    if user.None? then None
    else if user.value.id.Some? then user.value.id
    else if user.value.underscoreId.Some? then user.value.underscoreId
    else user.value.sub
  }

  /** The options `create` passes. */
  function CreateOptions(user: Option<JwtPayload>): PayloadOptions {
    PayloadOptions(TokenCompany(user), IsSuperAdmin(user), UserIdClaim(user), true)
  }

  /** The options `update` passes: no user id. */
  function UpdateOptions(user: Option<JwtPayload>): PayloadOptions {
    PayloadOptions(TokenCompany(user), IsSuperAdmin(user), None, false)
  }

  /** For anyone but a SuperAdmin the body's `companyId` has no effect on the
      payload; a SuperAdmin's token company has none either. */
  lemma CompanySourcePolicy(d1: MaintenanceDto, d2: MaintenanceDto, opts: PayloadOptions)
    ensures !opts.isSuperAdmin ==>
              ToMaintenancePayload(d1, opts).companyId == ToMaintenancePayload(d2, opts).companyId
    ensures opts.isSuperAdmin ==>
              ToMaintenancePayload(d1, opts.(companyId := None)) == ToMaintenancePayload(d1, opts)
  {
  }

  /** An update never writes `userId`: the author of a work order survives
      every update. */
  lemma UpdateKeepsAuthor(w: WorkOrder, dto: MaintenanceDto, user: Option<JwtPayload>, equipment: map<string, Option<string>>)
    ensures Patch(w, BackFill(ToMaintenancePayload(dto, UpdateOptions(user)), equipment)).userId == w.userId
  {
  }

  /** A work order created through the controller carries the caller's user
      claim, and for a non-SuperAdmin whose token names a company, that
      company. */
  lemma CreateStampsCaller(dto: MaintenanceDto, user: Option<JwtPayload>, equipment: map<string, Option<string>>, id: string)
    requires MissingRequired(BackFill(ToMaintenancePayload(dto, CreateOptions(user)), equipment)) == []
    ensures var w := Stored(id, BackFill(ToMaintenancePayload(dto, CreateOptions(user)), equipment));
            Some(w.userId) == UserIdClaim(user) && w.userId != ""
            && (!IsSuperAdmin(user) && Truthy(TokenCompany(user)) ==> Some(w.companyId) == TokenCompany(user))
  {
    var p := ToMaintenancePayload(dto, CreateOptions(user));
    BackFillSpec(p, equipment);
  }

  /** An empty `id` claim shadows a usable `sub`: the create then lacks its
      required `userId` and fails. */
  lemma EmptyIdClaimFailsCreate(dto: MaintenanceDto, user: Option<JwtPayload>, equipment: map<string, Option<string>>)
    requires user.Some? && user.value.id == Some("")
    ensures "userId" in MissingRequired(BackFill(ToMaintenancePayload(dto, CreateOptions(user)), equipment))
  {
    var p := ToMaintenancePayload(dto, CreateOptions(user));
    BackFillSpec(p, equipment);
    var q := BackFill(p, equipment);
    assert q.userId.None?;
    var m := MissingRequired(q);
    var pre := (if q.kind.None? then ["type"] else []) + (if !Truthy(q.equipmentId) then ["equipmentId"] else []);
    assert m == pre + ["userId"] + (if !Truthy(q.companyId) then ["companyId"] else []);
    assert m[|pre|] == "userId";
  }

  /** A SuperAdmin who names no company in the body gets the company of the
      equipment, or a failed save. */
  lemma SuperAdminCompanyFromBodyOrEquipment(dto: MaintenanceDto, user: Option<JwtPayload>, equipment: map<string, Option<string>>)
    requires IsSuperAdmin(user) && !Truthy(dto.companyId)
    ensures var q := BackFill(ToMaintenancePayload(dto, CreateOptions(user)), equipment);
            q.companyId.Some? ==>
              Truthy(dto.equipmentId) && dto.equipmentId.value in equipment
              && q.companyId == equipment[dto.equipmentId.value]
  {
    BackFillSpec(ToMaintenancePayload(dto, CreateOptions(user)), equipment);
  }

  class MaintenanceController {
    const service: MaintenanceService

    constructor (service: MaintenanceService)
      ensures this.service == service
    {
      this.service := service;
    }

    method Create(user: Option<JwtPayload>, dto: MaintenanceDto) returns (r: Result<WorkOrder>)
      requires service.Valid()
      modifies service
      ensures service.Valid()
      ensures var p := BackFill(ToMaintenancePayload(dto, CreateOptions(user)), old(service.equipment));
              if MissingRequired(p) == [] then
                r == Ok(Stored(ObjectIdOf(old(service.issued)), p))
                && service.orders == old(service.orders) + [r.value]
              else
                r == Err(ValidationFailed(MissingRequired(p))) && service.orders == old(service.orders)
    {
      r := service.Create(ToMaintenancePayload(dto, CreateOptions(user)));
    }

    method FindAll(user: Option<JwtPayload>) returns (list: seq<WorkOrder>)
      ensures forall w :: w in list <==>
                w in service.orders && (IsSuperAdmin(user) || Some(w.companyId) == TokenCompany(user))
    {
      list := service.FindAll(ListFilter(user));
    }

    /** No tenant check: any authenticated caller reads any work order. */
    method FindOne(id: string) returns (r: Result<WorkOrder>)
      requires service.Valid()
      ensures r.Ok? <==> exists i :: 0 <= i < |service.orders| && service.orders[i].id == id
      ensures r.Ok? ==> r.value in service.orders && r.value.id == id
    {
      r := service.FindOne(id);
    }

    method Update(user: Option<JwtPayload>, id: string, dto: MaintenanceDto) returns (r: Result<WorkOrder>)
      requires service.Valid()
      modifies service
      ensures service.Valid()
      ensures var k := IndexOfId(old(service.orders), id);
              if k.None? then
                r == Err(NotFound("Maintenance not found")) && service.orders == old(service.orders)
              else
                r == Ok(Patch(old(service.orders)[k.value],
                              BackFill(ToMaintenancePayload(dto, UpdateOptions(user)), old(service.equipment))))
                && service.orders == old(service.orders)[k.value := r.value]
                && r.value.userId == old(service.orders)[k.value].userId
    {
      r := service.Update(id, ToMaintenancePayload(dto, UpdateOptions(user)));
      if r.Ok? {
        UpdateKeepsAuthor(old(service.orders)[IndexOfId(old(service.orders), id).value], dto, user, old(service.equipment));
      }
    }

    /** No tenant check: any authenticated caller deletes any work order. */
    method Remove(id: string) returns (r: Result<WorkOrder>)
      requires service.Valid()
      modifies service
      ensures service.Valid()
      ensures forall w :: w in service.orders <==> w in old(service.orders) && w.id != id
      ensures r.Err? <==> IndexOfId(old(service.orders), id).None?
    {
      r := service.Remove(id);
    }
  }
}
