/** `ReportController` (`/api/reports`): a non-SuperAdmin's create and update
    bodies get the token's `companyId` written over theirs; the list is
    tenant-filtered. */
module ReportApi {
  import opened Common

  /** A create or update body (every field optional in an update). */
  datatype ReportDto = ReportDto(
    maintenanceId: Option<string>,
    description: Option<string>,
    partsReplaced: Option<string>,
    duration: Option<string>,
    submittedBy: Option<string>,
    companyId: Option<string>)

  /** A stored intervention report. */
  datatype Report = Report(
    id: string,
    maintenanceId: string,
    description: Option<string>,
    partsReplaced: Option<string>,
    duration: Option<string>,
    submittedBy: Option<string>,
    companyId: Option<string>)

  /** The body `create` and `update` forward:
      `role === 'SuperAdmin' ? body : { ...body, companyId }`. */
  function ScopedBody(user: Option<JwtPayload>, body: ReportDto): (p: ReportDto)
    ensures p == body.(companyId := p.companyId)
    ensures IsSuperAdmin(user) ==> p == body
    ensures !IsSuperAdmin(user) ==> p.companyId == TokenCompany(user)
  {
    if IsSuperAdmin(user) then body else body.(companyId := TokenCompany(user))
  }

  /** A non-SuperAdmin cannot choose the company of a report: the body's
      `companyId` is dropped even when the token has none. */
  lemma OverwritePolicy(user: Option<JwtPayload>, b1: ReportDto, b2: ReportDto)
    requires !IsSuperAdmin(user)
    ensures ScopedBody(user, b1).companyId == ScopedBody(user, b2).companyId
    ensures TokenCompany(user).None? ==> ScopedBody(user, b1).companyId.None?
  {
  }

  /** `findAll`: `find({})` for a SuperAdmin, `find({ companyId })` otherwise. */
  function FindAll(user: Option<JwtPayload>, store: seq<Report>): (list: seq<Report>)
    ensures forall x :: x in list ==> x in store
  {
    Select(store, (x: Report) => Matches(ListFilter(user), x.companyId))
  }

  lemma FindAllScoped(user: Option<JwtPayload>, store: seq<Report>, x: Report)
    ensures x in FindAll(user, store) <==>
              x in store && (IsSuperAdmin(user) || x.companyId == TokenCompany(user))
  {
    if x in store && (IsSuperAdmin(user) || x.companyId == TokenCompany(user)) {
      SelectComplete(store, (x: Report) => Matches(ListFilter(user), x.companyId), x);
    }
  }
}
