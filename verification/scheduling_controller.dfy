/** `SchedulingController` (`/api/scheduling`): a non-SuperAdmin's create and
    update bodies get the token's `companyId` written over theirs, the list
    is tenant-filtered, and the other routes forward to the service with no
    tenant check. */
module SchedulingApi {
  import opened Common
  import opened Calendar
  import opened Maintenance
  import opened Scheduling

  /** The `companyId` a body ends up with under
      `role === 'SuperAdmin' ? dto : { ...dto, companyId }`: the body's own
      for a SuperAdmin, the token's for anyone else. */
  function ScopedCompany(user: Option<JwtPayload>, bodyCompany: Option<string>): Option<string>
  {
    if IsSuperAdmin(user) then bodyCompany else TokenCompany(user)
  }

  /** That rewrite for a create body. */
  function CreatePayload(user: Option<JwtPayload>, dto: CreateSchedulingDto): (p: CreateSchedulingDto)
    ensures p.equipmentId == dto.equipmentId && p.frequency == dto.frequency && p.nextDate == dto.nextDate
  {
    dto.(companyId := ScopedCompany(user, dto.companyId))
  }

  /** The same rewrite for an update body. */
  function UpdatePayload(user: Option<JwtPayload>, dto: UpdateSchedulingDto): (p: UpdateSchedulingDto)
    ensures p.equipmentId == dto.equipmentId && p.frequency == dto.frequency && p.nextDate == dto.nextDate
  {
    dto.(companyId := ScopedCompany(user, dto.companyId))
  }

  /** A SuperAdmin's bodies pass through unchanged; anyone else's
      `companyId` is the token's, whatever the body said, even when the
      token has none. */
  lemma PayloadPolicy(user: Option<JwtPayload>, c: CreateSchedulingDto, u: UpdateSchedulingDto)
    ensures IsSuperAdmin(user) ==> CreatePayload(user, c) == c && UpdatePayload(user, u) == u
    ensures !IsSuperAdmin(user) ==>
              CreatePayload(user, c).companyId == TokenCompany(user)
              && UpdatePayload(user, u).companyId == TokenCompany(user)
    ensures !IsSuperAdmin(user) && TokenCompany(user).None? ==>
              CreatePayload(user, c).companyId.None? && !Truthy(UpdatePayload(user, u).companyId)
  {
  }

  /** An update by a non-SuperAdmin whose token names a company moves the
      record into that company; with no company in the token the record's
      `companyId` is left alone. Neither depends on the body. */
  lemma UpdateReassignsTenant(user: Option<JwtPayload>, x: Schedule, u: UpdateSchedulingDto)
    requires !IsSuperAdmin(user)
    ensures Truthy(TokenCompany(user)) ==> PatchSchedule(x, UpdatePayload(user, u)).companyId == TokenCompany(user)
    ensures !Truthy(TokenCompany(user)) ==> PatchSchedule(x, UpdatePayload(user, u)).companyId == x.companyId
  {
  }

  class SchedulingController {
    const service: SchedulingService

    constructor (service: SchedulingService)
      ensures this.service == service
    {
      this.service := service;
    }

    method Create(user: Option<JwtPayload>, dto: CreateSchedulingDto) returns (r: Result<Schedule>)
      requires service.Valid()
      modifies service
      ensures service.Valid()
      ensures r.Err? <==> dto.equipmentId == "" || !Calendar.Valid(dto.nextDate)
      ensures r.Err? ==> service.schedules == old(service.schedules)
      ensures r.Ok? ==>
                service.schedules == old(service.schedules) + [r.value]
                && r.value.equipmentId == dto.equipmentId && r.value.nextDate == dto.nextDate
                && r.value.companyId == (if IsSuperAdmin(user) then dto.companyId else TokenCompany(user))
    {
      r := service.Create(CreatePayload(user, dto));
    }

    method FindAll(user: Option<JwtPayload>) returns (list: seq<Schedule>)
      ensures forall x :: x in list <==>
                x in service.schedules && (IsSuperAdmin(user) || x.companyId == TokenCompany(user))
    {
      list := service.FindAll(ListFilter(user));
    }

    /** No tenant check: any authenticated caller reads any schedule. */
    method FindOne(id: string) returns (r: Result<Schedule>)
      ensures r.Ok? <==> exists i :: 0 <= i < |service.schedules| && service.schedules[i].id == id
      ensures r.Ok? ==> r.value in service.schedules && r.value.id == id
    {
      r := service.FindOne(id);
    }

    method Update(user: Option<JwtPayload>, id: string, dto: UpdateSchedulingDto) returns (r: Result<Schedule>)
      requires service.Valid()
      modifies service
      ensures service.Valid() && service.issued == old(service.issued)
      ensures var k := IndexOfSchedule(old(service.schedules), id);
              if dto.nextDate.Some? && !Calendar.Valid(dto.nextDate.value) then
                r == Err(ValidationFailed(["nextDate"])) && service.schedules == old(service.schedules)
              else if k.None? then
                r == Err(NotFound("Scheduling not found")) && service.schedules == old(service.schedules)
              else
                r == Ok(PatchSchedule(old(service.schedules)[k.value], UpdatePayload(user, dto)))
                && service.schedules == old(service.schedules)[k.value := r.value]
    {
      r := service.Update(id, UpdatePayload(user, dto));
    }

    /** No tenant check: any authenticated caller deletes any schedule. */
    method Remove(id: string) returns (r: Result<Schedule>)
      requires service.Valid()
      modifies service
      ensures service.Valid()
      ensures forall x :: x in service.schedules <==> x in old(service.schedules) && x.id != id
      ensures r.Err? <==> IndexOfSchedule(old(service.schedules), id).None?
    {
      r := service.Remove(id);
    }

    /** `POST run-due`: open to every authenticated caller, whatever the role
        or company. */
    method RunDue(now: Date) returns (r: Result<nat>)
      requires service.Valid()
      modifies service, service.maintenance
      ensures service.Valid() && service.issued == old(service.issued)
      ensures service.maintenance.equipment == old(service.maintenance.equipment)
      ensures var due := DueList(old(service.schedules), now);
              var done := Processed(due, old(service.maintenance.equipment));
              service.schedules == AdvanceIds(old(service.schedules), IdsOf(done))
              && service.maintenance.orders
                   == old(service.maintenance.orders)
                      + GeneratedOrders(done, old(service.maintenance.equipment), old(service.maintenance.issued))
              && service.maintenance.issued == old(service.maintenance.issued) + |done|
              && (FirstFailure(due, old(service.maintenance.equipment)).None? <==> r.Ok?)
              && (r.Ok? ==> r.value == |due|)
      ensures DueList(old(service.schedules), now) == [] ==>
                r == Ok(0) && service.schedules == old(service.schedules)
                && service.maintenance.orders == old(service.maintenance.orders)
    {
      r := service.RunDue(now);
    }
  }
}
