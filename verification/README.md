# GMAO core, modelled in Dafny

GMAO is a multi-tenant maintenance-management application. A NestJS backend
keeps equipment, work orders ("maintenances"), recurring maintenance
schedules ("planifications"), reports and users, each tagged with the
company (tenant) it belongs to. An Angular frontend shows a role-filtered
side menu and a dashboard. This project models the logic of that core:

- **Recurrence engine** (`Calendar`, `Scheduling`). `bump` advances a date
  by a day, a week, a month or three months, with JavaScript's
  `setDate`/`setMonth` normalisation: an overflowing day rolls into the
  following month and is never clamped. `runOnce` saves one preventive work
  order and moves the schedule's `nextDate` by one period. `runDue` runs
  every schedule whose `nextDate` is at or before today, and stops at the
  first failure.
- **Tenant scoping** (`Common`, `SchedulingApi`, `MaintenanceApi`,
  `Maintenance`, `EquipmentApi`, `ReportApi`, `Guards`, `CompanyUsers`,
  `CompanyUsersApi`):
  - the list filter, `{}` for a SuperAdmin and `{ companyId }` otherwise;
  - the three payload policies: equipment falls back to the body's
    company, scheduling and reports overwrite it, and maintenance builds
    its payload field by field;
  - the work-order company back-fill from the equipment;
  - the ordered checks of company-user management.
- **Identity plumbing** (`JwtAuth`, `Auth`, `Users`): the Bearer-header
  parsing of the JWT guard, the claims and error order of `login`, and the
  user-creation defaults. Signing, verifying and hashing are parameters or
  symbolic values.
- **Frontend** (`Navigation`, `Home`): the menu filter, role defaulting,
  initials, `isActive`, the sidebar toggle, and the dashboard's counts,
  its six most recent work orders, its seven-day window and its display
  helpers.

Stores are Dafny classes. Each store holds its collection as a `seq`
field in insertion order, and its methods state the whole new state. A
Mongo ObjectId is `ObjectIdOf(n)` for a counter `n` the store issues;
`NextIdIsFresh` proves that a new id is never already in use. Dates are
`(year, month, day)` triples. `Calendar.DayNumber` maps a date to its day
number, following ECMAScript's `MakeDay`. "Today" is a parameter.

The model follows the code wherever the two disagree with a description of
the system. For example:

- the JWT guard takes the text up to the next space after `"Bearer "`;
- a `companyId` that is `undefined` is compared as the string
  `"undefined"` in `sameCompany`;
- `UserService.update` stores a new password unhashed.

## Model

| member | source | states |
|---|---|---|
| Common.RoleName | gmao-nest/src/user/user.schema.ts:6-11 | every role has a non-empty string value |
| Common.RoleNameInjective | gmao-nest/src/user/user.schema.ts:6-11 | two roles with the same string value are the same role |
| Common.ListFilter | gmao-nest/src/scheduling/scheduling.controller.ts:44-50 | the filter is `{}` exactly for a SuperAdmin; every other caller gets `{ companyId }` with the token's company, even when the token has none |
| Common.ListFilterScopesToTenant | gmao-nest/src/maintenance/maintenance.controller.ts:88-94 | for a token with company c, a record passes the list filter iff the caller is a SuperAdmin or the record belongs to c |
| Calendar.DaysInMonth | gmao-nest/src/scheduling/scheduling.service.ts:119-136 | a month has 28 to 31 days, and 29 exactly for February of a Gregorian leap year |
| Calendar.Normalise | gmao-nest/src/scheduling/scheduling.service.ts:123-133 | `new Date(y, m, d)` for a day past the month's end gives a valid date with the same ECMAScript day number: the overflow rolls forward |
| Calendar.AddMonths | gmao-nest/src/scheduling/scheduling.service.ts:128-133 | `setMonth(getMonth() + k)` gives a valid date whose day number is that of the same day-of-month k months on |
| Calendar.Bump | gmao-nest/src/scheduling/scheduling.service.ts:119-136 | the result is a valid date: one day later (daily), seven days later (weekly), one month on (monthly) or three months on (quarterly) |
| Calendar.BumpIsLater | gmao-nest/src/scheduling/scheduling.service.ts:119-136 | for every frequency the bumped date is strictly later, both by day number and in calendar order |
| Calendar.AddMonthsLater | gmao-nest/src/scheduling/scheduling.service.ts:128-133 | moving k ≥ 1 months on advances the date by at least 28·k days |
| Calendar.AddMonthsKeepsOrOverflows | gmao-nest/src/scheduling/scheduling.service.ts:128-133 | the day-of-month is kept when the target month has it; otherwise the date is that many days into the next month, and never clamped to the month's end |
| Calendar.NormaliseShortOverflow | gmao-nest/src/scheduling/scheduling.service.ts:123-126 | a day up to 56 stays in the month when it exists, else rolls into the next month by the excess |
| Calendar.BumpTargetMonth | gmao-nest/src/scheduling/scheduling.service.ts:128-133 | monthly targets the next month, across a year end; quarterly targets the month three on, in the next year from October onwards |
| Calendar.BeforeIsDayOrder | gmao-nest/src/scheduling/scheduling.service.ts:163-164 | on valid dates, calendar order is day-number order, the order `$lte` compares |
| Calendar.AtOrBeforeIsDayOrder | gmao-nest/src/scheduling/scheduling.service.ts:163-164 | `nextDate <= now` on valid dates iff the day number is not greater |
| Calendar.DayNumberInjective | gmao-nest/src/scheduling/scheduling.service.ts:119-136 | two valid dates with the same day number are equal |
| Calendar.ExampleJanuary31Monthly | gmao-nest/src/scheduling/scheduling.service.ts:128-130 | 31 January 2025 plus a month is 3 March 2025 |
| Calendar.ExampleJanuary31MonthlyLeapYear | gmao-nest/src/scheduling/scheduling.service.ts:128-130 | 31 January 2024 plus a month is 2 March 2024 |
| Calendar.ExampleNovember30Quarterly | gmao-nest/src/scheduling/scheduling.service.ts:131-133 | 30 November 2025 plus a quarter is 2 March 2026 |
| Calendar.ExampleDailyAndWeekly | gmao-nest/src/scheduling/scheduling.service.ts:122-127 | a day after 9 June is 10 June; a week after 28 December 2025 is 4 January 2026 |
| Maintenance.BackFill | gmao-nest/src/maintenance/maintenance.service.ts:20-26 | the back-fill changes no field but `companyId` |
| Maintenance.BackFillSpec | gmao-nest/src/maintenance/maintenance.service.ts:20-26 | a truthy `companyId` is never replaced; the payload changes iff it has no truthy company, a truthy `equipmentId`, and that equipment exists with a truthy (different) company, which it then takes |
| Maintenance.MissingRequired | gmao-nest/src/maintenance/maintenance.schema.ts:19-38 | validation passes iff `type` is set and `equipmentId`, `userId` and `companyId` are non-empty |
| Maintenance.Stored | gmao-nest/src/maintenance/maintenance.schema.ts:17-39 | the saved record carries every field of the payload and the new id |
| Maintenance.Patch | gmao-nest/src/maintenance/maintenance.service.ts:56 | `findByIdAndUpdate` keeps the id, sets each of the eight fields the payload carries (kind, dates, status, description, equipment, user, company) and keeps the others; an empty payload changes nothing |
| Maintenance.FilterOrdersExact | gmao-nest/src/maintenance/maintenance.service.ts:32-34 | `find(filter)` returns exactly the stored records that match the filter |
| Maintenance.RemoveById | gmao-nest/src/maintenance/maintenance.service.ts:61-65 | deleting the record with a given id keeps ids distinct and leaves exactly the records with another id |
| Maintenance.MaintenanceService.Create | gmao-nest/src/maintenance/maintenance.service.ts:15-30 | the back-filled payload is saved under a fresh id when validation passes; otherwise a validation error lists the missing paths and nothing is stored |
| Maintenance.MaintenanceService.FindAll | gmao-nest/src/maintenance/maintenance.service.ts:32-34 | the list holds exactly the stored records matching the filter, in store order |
| Maintenance.MaintenanceService.FindOne | gmao-nest/src/maintenance/maintenance.service.ts:36-40 | the record with that id, or NotFound "Maintenance not found" exactly when no record has it |
| Maintenance.MaintenanceService.Update | gmao-nest/src/maintenance/maintenance.service.ts:42-59 | NotFound for an unknown id; otherwise the record is patched with the back-filled payload in place and returned |
| Maintenance.MaintenanceService.Remove | gmao-nest/src/maintenance/maintenance.service.ts:61-65 | NotFound for an unknown id; otherwise exactly that record is removed and returned |
| Scheduling.PatchSchedule | gmao-nest/src/scheduling/scheduling.service.ts:86-90 | `update` sets `equipmentId` and `companyId` only when truthy, `frequency` and `nextDate` only when given, and keeps the id |
| Scheduling.DueListExact | gmao-nest/src/scheduling/scheduling.service.ts:163-164 | a schedule is in the due list iff it is stored and its `nextDate` is at or before now |
| Scheduling.DueListDistinct | gmao-nest/src/scheduling/scheduling.service.ts:163-170 | the due list of a store with distinct ids has distinct ids |
| Scheduling.GeneratedPayload | gmao-nest/src/scheduling/scheduling.service.ts:140-149 | the payload is Preventive, "En attente", planned for the schedule's `nextDate`, for its equipment and company, by user "SYSTEM" |
| Scheduling.GeneratedOrderFields | gmao-nest/src/scheduling/scheduling.service.ts:140-149 | the saved work order has those fields; its company is the schedule's, or the equipment's when the schedule has none |
| Scheduling.SucceedsExactly | gmao-nest/src/scheduling/scheduling.service.ts:140-149 | `runOnce`'s create succeeds iff the back-filled payload passes the schema's required check |
| Scheduling.Advance | gmao-nest/src/scheduling/scheduling.service.ts:151-157 | advancing a schedule keeps its id, equipment, frequency and company, and moves `nextDate` to the bumped date, which is valid and strictly later |
| Scheduling.SetNextDate | gmao-nest/src/scheduling/scheduling.service.ts:152-156 | the `$set` changes only the `nextDate` of the schedule with that id; every other schedule is unchanged |
| Scheduling.AdvanceIds | gmao-nest/src/scheduling/scheduling.service.ts:171-173 | each schedule whose id was run is advanced one period, every other one is unchanged |
| Scheduling.AdvanceStep | gmao-nest/src/scheduling/scheduling.service.ts:171-173 | running one more due schedule is the same as adding its id to the advanced set |
| Scheduling.GeneratedOrdersAt | gmao-nest/src/scheduling/scheduling.service.ts:171-173 | the i-th order a batch saves is the order of the i-th schedule run, with the i-th fresh id |
| Scheduling.Processed | gmao-nest/src/scheduling/scheduling.service.ts:171-173 | the schedules a run gets through are a prefix of the due list, and each of them succeeds |
| Scheduling.FailureAt | gmao-nest/src/scheduling/scheduling.service.ts:171-173 | when the first failure is at i, exactly the schedules before i are processed |
| Scheduling.NoFailure | gmao-nest/src/scheduling/scheduling.service.ts:171-174 | without a failure the whole due list is processed |
| Scheduling.RunStep | gmao-nest/src/scheduling/scheduling.service.ts:171-173 | one successful `runOnce` extends the batch's progress: one order more, one schedule more advanced |
| Scheduling.OverdueStaysDue | gmao-nest/src/scheduling/scheduling.service.ts:151-157 | a daily schedule overdue by more than a day is still due after one advance |
| Scheduling.ExampleOverdueWeekly | gmao-nest/src/scheduling/scheduling.service.ts:151-157 | a weekly schedule of 1 June is still due on 20 June after one run |
| Scheduling.SchedulingService.Create | gmao-nest/src/scheduling/scheduling.service.ts:44-62 | a schedule with an equipment and a valid date is stored under a fresh id with the DTO's fields; otherwise nothing is stored |
| Scheduling.SchedulingService.FindAll | gmao-nest/src/scheduling/scheduling.service.ts:64-73 | exactly the stored schedules matching the filter |
| Scheduling.SchedulingService.FindOne | gmao-nest/src/scheduling/scheduling.service.ts:75-83 | the schedule with that id, or NotFound "Scheduling not found" exactly when there is none |
| Scheduling.SchedulingService.Update | gmao-nest/src/scheduling/scheduling.service.ts:85-102 | an invalid date is refused, an unknown id is NotFound, otherwise the patched schedule replaces the stored one |
| Scheduling.SchedulingService.Remove | gmao-nest/src/scheduling/scheduling.service.ts:104-115 | NotFound for an unknown id; otherwise exactly the schedules with another id remain |
| Scheduling.SchedulingService.RunOnce | gmao-nest/src/scheduling/scheduling.service.ts:139-158 | on success exactly one work order is added and only this schedule's `nextDate` moves by one period; on failure nothing changes and the validation error propagates |
| Scheduling.SchedulingService.RunAll | gmao-nest/src/scheduling/scheduling.service.ts:170-174 | the loop runs the due schedules in order up to the first failure: those schedules advance once, their orders are appended with consecutive ids, and the count is returned only when none failed |
| Scheduling.SchedulingService.RunDue | gmao-nest/src/scheduling/scheduling.service.ts:161-175 | the same for the schedules due now; with none due it returns 0 and writes nothing |
| SchedulingApi.CreatePayload | gmao-nest/src/scheduling/scheduling.controller.ts:38-40 | the create body keeps its equipment, frequency and date |
| SchedulingApi.UpdatePayload | gmao-nest/src/scheduling/scheduling.controller.ts:63-65 | the update body keeps its equipment, frequency and date |
| SchedulingApi.PayloadPolicy | gmao-nest/src/scheduling/scheduling.controller.ts:33-67 | a SuperAdmin's bodies pass unchanged; anyone else's company is the token's, and missing when the token has none |
| SchedulingApi.UpdateReassignsTenant | gmao-nest/src/scheduling/scheduling.controller.ts:57-67 | a non-SuperAdmin's update moves the schedule to the token's company, or keeps its company when the token has none |
| SchedulingApi.SchedulingController.Create | gmao-nest/src/scheduling/scheduling.controller.ts:33-42 | the stored schedule has the body's equipment and date and the company the policy picks |
| SchedulingApi.SchedulingController.FindAll | gmao-nest/src/scheduling/scheduling.controller.ts:44-50 | a SuperAdmin lists every schedule, anyone else exactly those of the token's company |
| SchedulingApi.SchedulingController.FindOne | gmao-nest/src/scheduling/scheduling.controller.ts:52-55 | any schedule is found by id, with no tenant check |
| SchedulingApi.SchedulingController.Update | gmao-nest/src/scheduling/scheduling.controller.ts:57-67 | the service's update with the rewritten body: an unreadable date is refused with `ValidationFailed(["nextDate"])` first, then an unknown id with NotFound, otherwise the schedule is patched in place |
| SchedulingApi.SchedulingController.Remove | gmao-nest/src/scheduling/scheduling.controller.ts:69-72 | any schedule is removed by id, with no tenant check |
| SchedulingApi.SchedulingController.RunDue | gmao-nest/src/scheduling/scheduling.controller.ts:74-77 | the service's `runDue` with its whole contract (advanced schedules, appended orders, issued counter, failure exactly when a due schedule's equipment is missing, nothing changed when nothing is due), with no role or tenant restriction |
| MaintenanceApi.ToMaintenancePayload | gmao-nest/src/maintenance/maintenance.controller.ts:35-65 | type, status, description and equipment are copied; the user id only when asked for and truthy; the company from the body for a SuperAdmin and from the token otherwise, each only when truthy; the dates as given |
| MaintenanceApi.UserIdClaim | gmao-nest/src/maintenance/maintenance.controller.ts:76 | the author is the token's `id`, else `_id`, else `sub` |
| MaintenanceApi.CompanySourcePolicy | gmao-nest/src/maintenance/maintenance.controller.ts:53-58 | a non-SuperAdmin's body company has no effect; a SuperAdmin's token company has none |
| MaintenanceApi.UpdateKeepsAuthor | gmao-nest/src/maintenance/maintenance.controller.ts:110-114 | an update never changes the work order's author |
| MaintenanceApi.CreateStampsCaller | gmao-nest/src/maintenance/maintenance.controller.ts:72-86 | a created work order's author is the caller's id claim, and a non-SuperAdmin's is in the token's company |
| MaintenanceApi.EmptyIdClaimFailsCreate | gmao-nest/src/maintenance/maintenance.controller.ts:76-83 | a token whose `id` is the empty string makes create fail on `userId`, as `??` does not fall through to `_id` or `sub` |
| MaintenanceApi.SuperAdminCompanyFromBodyOrEquipment | gmao-nest/src/maintenance/maintenance.controller.ts:54-55 | a SuperAdmin body without a company gets one only from the equipment record |
| MaintenanceApi.MaintenanceController.Create | gmao-nest/src/maintenance/maintenance.controller.ts:72-86 | the service saves the payload built with the caller's id claim and company |
| MaintenanceApi.MaintenanceController.FindAll | gmao-nest/src/maintenance/maintenance.controller.ts:88-94 | a SuperAdmin lists every work order, anyone else exactly those of the token's company |
| MaintenanceApi.MaintenanceController.FindOne | gmao-nest/src/maintenance/maintenance.controller.ts:96-99 | any work order is found by id, with no tenant check |
| MaintenanceApi.MaintenanceController.Update | gmao-nest/src/maintenance/maintenance.controller.ts:101-117 | the record is patched with the payload built without a user id, so its author is kept |
| MaintenanceApi.MaintenanceController.Remove | gmao-nest/src/maintenance/maintenance.controller.ts:119-122 | any work order is removed by id, with no tenant check |
| EquipmentApi.ScopedBody | gmao-nest/src/equipment/equipment.controller.ts:61-64 | a SuperAdmin's body passes unchanged; anyone else's company is the token's, falling back to the body's only when the token has none; nothing else changes |
| EquipmentApi.FallbackPolicy | gmao-nest/src/equipment/equipment.controller.ts:109-112 | with no token company the body is kept; with one, every body gets that same company, even the empty string |
| EquipmentApi.FindAll | gmao-nest/src/equipment/equipment.controller.ts:74-83 | the list is drawn from the store |
| EquipmentApi.FindAllScoped | gmao-nest/src/equipment/equipment.controller.ts:79-82 | an equipment is listed iff the caller is a SuperAdmin or it is in the token's company |
| ReportApi.ScopedBody | gmao-nest/src/report/report.controller.ts:28-31 | a SuperAdmin's body passes unchanged; anyone else's company is the token's, missing when the token has none |
| ReportApi.OverwritePolicy | gmao-nest/src/report/report.controller.ts:47-53 | for a non-SuperAdmin the body's company never matters, and a token without a company yields none |
| ReportApi.FindAll | gmao-nest/src/report/report.controller.ts:34-40 | the list is drawn from the store |
| ReportApi.FindAllScoped | gmao-nest/src/report/report.controller.ts:36-38 | a report is listed iff the caller is a SuperAdmin or it is in the token's company |
| Guards.MultiEntreprise | gmao-nest/src/auth/multi-entreprise.guard.ts:12-25 | passes iff the user is a SuperAdmin or has a truthy company; otherwise Forbidden with the guard's message |
| Guards.SuperAdminOnly | gmao-nest/src/auth/superadmin.guard.ts:20-27 | passes iff the role is "SuperAdmin"; otherwise Forbidden, also with no user or no role |
| Guards.GuardsNest | gmao-nest/src/auth/superadmin.guard.ts:20-27 | a request the SuperAdmin guard passes also passes the tenant guard; a request without a user passes neither |
| Guards.GuardedListFilterNamesCompany | gmao-nest/src/auth/multi-entreprise.guard.ts:21-24 | behind the tenant guard a non-SuperAdmin's list filter names a non-empty company |
| JwtAuth.Split | gmao-nest/src/auth/jwt.auth.ts:30 | `split(sep)` yields at least one piece, and no piece contains the separator |
| JwtAuth.TakeUntil | gmao-nest/src/auth/jwt.auth.ts:30 | the text before the first separator is a prefix without the separator, ended by one or by the end of the string |
| JwtAuth.SplitJoin | gmao-nest/src/auth/jwt.auth.ts:30 | joining the pieces with the separator gives the header back |
| JwtAuth.BearerToken | gmao-nest/src/auth/jwt.auth.ts:26-30 | a token is read iff the header is present, non-empty and starts with "Bearer " |
| JwtAuth.BearerSplit | gmao-nest/src/auth/jwt.auth.ts:30 | after "Bearer " the split has a second piece: the text up to the next space |
| JwtAuth.TokenIsFirstWord | gmao-nest/src/auth/jwt.auth.ts:30 | the token is the first word after "Bearer " and holds no space |
| JwtAuth.Request.constructor | gmao-nest/src/auth/jwt.auth.ts:23-24 | a request carries its header and no user yet |
| JwtAuth.CanActivate | gmao-nest/src/auth/jwt.auth.ts:22-45 | no Bearer token gives "Token invalide ou manquant", a failed verify "Token invalide", both leave `request.user` unset; on success `request.user` is the decoded payload and the result is true |
| Users.Safe | gmao-nest/src/user/user.service.ts:88-94 | the safe projection keeps every field but the password |
| Users.MissingUserPaths | gmao-nest/src/user/user.schema.ts:13-29 | a new user passes the required check iff name, email, password and company are non-empty and a role is set |
| Users.InvalidPaths | gmao-nest/src/user/user.schema.ts:13-29 | a stored user saves again iff none of its required strings is empty |
| Users.Complete | gmao-nest/src/user/user.schema.ts:13-29 | the inserted record carries the document's fields and the new id |
| Users.ApplyPatch | gmao-nest/src/user/user.service.ts:33-39 | `findByIdAndUpdate` keeps the id, sets the name, email, role and company the patch carries and keeps the others, and writes a given password as it is, unhashed; an empty patch changes nothing |
| Users.FindByEmail | gmao-nest/src/user/user.service.ts:47-49 | a stored user with that email, and none exactly when no user has it |
| Users.GetSafeById | gmao-nest/src/user/user.service.ts:88-94 | a user is returned iff one has that id, without the password |
| Users.PatchedPasswordNeverMatches | gmao-nest/src/user/user.service.ts:33-39 | after an update that carries a password, `bcrypt.compare` fails for every attempt, unless the submitted string is itself a bcrypt hash of the attempt (not representable under the symbolic hash) |
| Users.UserStore.constructor | gmao-nest/src/user/user.schema.ts:13-29 | the collection starts empty |
| Users.UserStore.Insert | gmao-nest/src/user/user.schema.ts:13-29 | a document missing a required field is refused with the missing paths, a known email with a duplicate-key error; otherwise it is appended under a fresh id, keeping ids and emails unique |
| Users.UserStore.Save | gmao-nest/src/user/user.schema.ts:13-29 | an edited document is stored in place iff it still passes the required check |
| Users.UserStore.Delete | gmao-nest/src/user/user.service.ts:41-45 | exactly the record at that position is removed |
| Users.UserService.Create | gmao-nest/src/user/user.service.ts:14-21 | no password: "Password is required" and nothing stored; otherwise the insert succeeds iff the document is complete and the email is free, and the stored record is exactly the given name, email, role and company with the hashed password under a fresh id |
| Users.UserService.FindAll | gmao-nest/src/user/user.service.ts:23-25 | every stored user, in collection order |
| Users.UserService.FindOne | gmao-nest/src/user/user.service.ts:27-31 | the user with that id, or NotFound "User not found" exactly when there is none |
| Users.UserService.Update | gmao-nest/src/user/user.service.ts:33-39 | NotFound for an unknown id, a duplicate-key error for an email another user holds, otherwise the patched user replaces the stored one |
| Users.UserService.Remove | gmao-nest/src/user/user.service.ts:41-45 | NotFound for an unknown id; otherwise exactly that user is removed and returned |
| Users.UserService.SignUp | gmao-nest/src/user/user.service.ts:52-62 | the new user is always a SuperAdmin of company "GLOBAL" with the hashed password; it is created iff name and email are non-empty and the email is free, and the stored record is exactly the given name and email with those fields under a fresh id |
| Users.UserService.CreateAdminForCompany | gmao-nest/src/user/user.service.ts:65-85 | a known email is refused first; the role defaults to AdminEntreprise, the company is the given one, the password is hashed; the stored record is exactly those fields with the given name under a fresh id |
| Users.UserService.UpdatePassword | gmao-nest/src/user/user.service.ts:96-103 | NotFound, then "Bad current password" with nothing changed; otherwise only the password is replaced by the new hash |
| Auth.Claims | gmao-nest/src/auth/auth.service.ts:34-38 | `sub` is the user's id and `role` its string; `companyId` is present iff the user's is truthy |
| Auth.Login | gmao-nest/src/auth/auth.service.ts:18-52 | unknown email: NotFound before any password check; wrong password: Unauthorized; success iff the found user's password is the hash of the given one, and the token then carries that user's claims for "7d" |
| Auth.LoginSucceedsExactly | gmao-nest/src/auth/auth.service.ts:22-29 | with unique emails a user logs in exactly with the password they set, and gets their own claims |
| Auth.ClaimsPassGuards | gmao-nest/src/auth/auth.service.ts:34-38 | a signed token passes the tenant guard iff the user is a SuperAdmin or has a company, and the SuperAdmin guard iff a SuperAdmin |
| Auth.ClaimsIdentifyUser | gmao-nest/src/auth/auth.service.ts:34-38 | the controllers read the user's id from a signed token, and scope a non-SuperAdmin to their own company |
| Auth.GetProfile | gmao-nest/src/auth/auth.service.ts:55-59 | NotFound iff no user has that id; otherwise the user without the password |
| Auth.PatchedUserLockedOut | gmao-nest/src/auth/auth.service.ts:27-28 | a user whose password went through `UserService.update`, with or without a new email, can no longer log in under the email the patch leaves them with, given the uniqueness that update's duplicate-key check keeps; unless the submitted string is itself a bcrypt hash of the attempt (not representable under the symbolic hash) |
| CompanyUsers.StringForm | gmao-nest/src/company-users/company-users.service.ts:13-15 | `String(x)` of a present value is the value |
| CompanyUsers.SameCompanyMeaning | gmao-nest/src/company-users/company-users.service.ts:13-15 | a named company matches exactly its users; a missing one matches only a user stored with company "undefined" |
| CompanyUsers.SafeAll | gmao-nest/src/company-users/company-users.service.ts:20-23 | each listed user is projected without the password, in order |
| CompanyUsers.RosterExact | gmao-nest/src/company-users/company-users.service.ts:17-24 | the list holds exactly the safe forms of the non-SuperAdmin users of the company, or of every company for a SuperAdmin requester |
| CompanyUsers.RosterIsolation | gmao-nest/src/company-users/company-users.service.ts:17-24 | no SuperAdmin is ever listed, and a non-SuperAdmin requester sees only their company |
| CompanyUsers.Authorize | gmao-nest/src/company-users/company-users.service.ts:53-57 | the checks run in order: unknown id NotFound, SuperAdmin target Forbidden (even for a SuperAdmin requester), another company Forbidden unless the requester is a SuperAdmin; success gives the target's position |
| CompanyUsers.AuthorizeIsolation | gmao-nest/src/company-users/company-users.service.ts:70-74 | an authorised target has the id, is not a SuperAdmin, and is in the requester's company unless the requester is a SuperAdmin |
| CompanyUsers.ReturnedTemp | gmao-nest/src/company-users/company-users.service.ts:43 | the temporary password is returned iff the body's password is not truthy: the random one when absent, "" when empty |
| CompanyUsers.NewCompanyUser | gmao-nest/src/company-users/company-users.service.ts:33-41 | the new user has the requester's company, the body's role and the hash of the body's or the random password |
| CompanyUsers.Renamed | gmao-nest/src/company-users/company-users.service.ts:59-63 | only name and role change, each only when given |
| CompanyUsers.ManagerCanGrantSuperAdmin | gmao-nest/src/company-users/company-users.service.ts:26-66 | neither create nor update checks the role given against the requester, so a manager can make a SuperAdmin |
| CompanyUsers.CompanyUsersService.List | gmao-nest/src/company-users/company-users.service.ts:17-24 | the roster, in which no SuperAdmin appears and a non-SuperAdmin requester sees only their company |
| CompanyUsers.CompanyUsersService.Create | gmao-nest/src/company-users/company-users.service.ts:26-44 | a known email is BadRequest and adds nothing; otherwise the user is stored in the requester's company and returned without a password, with the temporary password when none was given |
| CompanyUsers.CompanyUsersService.Update | gmao-nest/src/company-users/company-users.service.ts:46-66 | a failed check leaves the store unchanged; otherwise only name and role of the target change and the result has no password |
| CompanyUsers.CompanyUsersService.Remove | gmao-nest/src/company-users/company-users.service.ts:68-77 | a failed check leaves the store unchanged; otherwise exactly the target is deleted and the result is ok |
| CompanyUsers.CompanyUsersService.UpdatePassword | gmao-nest/src/company-users/company-users.service.ts:80-95 | a failed check leaves the store unchanged; otherwise only the target's password changes, to the new hash |
| CompanyUsersApi.MustBeManager | gmao-nest/src/company-users/company-users.controller.ts:30-35 | passes iff the role is SuperAdmin or AdminEntreprise; anything else, or no role, is Forbidden "Accès refusé" |
| CompanyUsersApi.ManagerScope | gmao-nest/src/company-users/company-users.controller.ts:49-59 | a Technicien, a User or a token without a role is refused; an AdminEntreprise reaches only users of the token's company |
| CompanyUsersApi.CompanyUsersController.List | gmao-nest/src/company-users/company-users.controller.ts:37-41 | the gate first, then the roster for the token's company and role |
| CompanyUsersApi.CompanyUsersController.Create | gmao-nest/src/company-users/company-users.controller.ts:43-47 | the gate first; then the service's create for the token's company: a known email is refused with "Email déjà utilisé", a failed required check with `ValidationFailed`, both leaving the store unchanged; otherwise exactly the new user is appended under a fresh id and the temporary password is returned only when the body had none |
| CompanyUsersApi.CompanyUsersController.Update | gmao-nest/src/company-users/company-users.controller.ts:49-53 | the gate, then the service's checks, leave the store unchanged on refusal; otherwise the renamed user is saved in place if it passes the required check, else `ValidationFailed` with the store unchanged |
| CompanyUsersApi.CompanyUsersController.Remove | gmao-nest/src/company-users/company-users.controller.ts:55-59 | the gate, then the service's checks; on success exactly the target is removed |
| CompanyUsersApi.CompanyUsersController.UpdatePassword | gmao-nest/src/company-users/company-users.controller.ts:62-70 | the gate, then the service's checks leave the store unchanged on refusal; otherwise the target with the new hash is saved in place if it passes the required check (`Ok(true)`), else `ValidationFailed` with the store unchanged |
| Navigation.MenuRoles | gmao-angular/src/app/components/navigation/navigation.component.ts:20-30 | each menu item is shown to all roles, to the managers or to the managers and technicians |
| Navigation.VisibleMenuExact | gmao-angular/src/app/components/navigation/navigation.component.ts:99 | an item is visible iff it is in the menu and lists the role |
| Navigation.SuperAdminSeesEverything | gmao-angular/src/app/components/navigation/navigation.component.ts:20-30 | a SuperAdmin sees all eight items, in order |
| Navigation.OperateurMenu | gmao-angular/src/app/components/navigation/navigation.component.ts:18-30 | the default role "Operateur" sees Tableau de bord, Assistant and Paramètres |
| Navigation.BackendUserRoleSeesNothing | gmao-angular/src/app/components/navigation/navigation.component.ts:18-30 | the backend's role "User" is in no item's list, so the menu is empty |
| Navigation.RoleOf | gmao-angular/src/app/components/navigation/navigation.component.ts:91 | the role is the user's when truthy and "Operateur" otherwise, never empty |
| Navigation.UpperAscii | gmao-angular/src/app/components/navigation/navigation.component.ts:90 | lower-case ASCII letters become upper case, other characters are kept |
| Navigation.Initials | gmao-angular/src/app/components/navigation/navigation.component.ts:90 | one character: the upper-cased first letter of the name, or "U" for an empty name |
| Navigation.IsActiveMeaning | gmao-angular/src/app/components/navigation/navigation.component.ts:124-126 | a route is active iff it is the current one or the current one continues it after a "/" |
| Navigation.IsActiveExamples | gmao-angular/src/app/components/navigation/navigation.component.ts:124-126 | "/maintenance/42" activates "/maintenance", "/maintenances" does not |
| Navigation.NavigationComponent.constructor | gmao-angular/src/app/components/navigation/navigation.component.ts:60-73 | the sidebar state comes from storage (expanded by default); a cached user fills name, email, role and the matching menu; without one the defaults show and the menu is empty |
| Navigation.NavigationComponent.OnUser | gmao-angular/src/app/components/navigation/navigation.component.ts:86-100 | a user fills the display fields with defaults for missing values, no user resets them; the menu always matches the role; nothing else changes |
| Navigation.NavigationComponent.OnNavigationEnd | gmao-angular/src/app/components/navigation/navigation.component.ts:77-83 | the current route becomes the URL and the profile menu closes; nothing else changes |
| Navigation.NavigationComponent.ToggleSidebar | gmao-angular/src/app/components/navigation/navigation.component.ts:103-106 | the sidebar flips and the stored value is the new state; nothing else changes |
| Navigation.NavigationComponent.ToggleProfileMenu | gmao-angular/src/app/components/navigation/navigation.component.ts:108-110 | the profile menu flips; nothing else changes |
| Navigation.NavigationComponent.OpenProfileModal | gmao-angular/src/app/components/navigation/navigation.component.ts:128-131 | the modal opens and the profile menu closes |
| Navigation.NavigationComponent.CloseProfileModal | gmao-angular/src/app/components/navigation/navigation.component.ts:133-135 | the modal closes; nothing else changes |
| Navigation.NavigationComponent.IsActiveRoute | gmao-angular/src/app/components/navigation/navigation.component.ts:124-126 | true iff the route is current or the current route continues it after a "/" |
| Home.DateMs | gmao-angular/src/app/pages/home/home.component.ts:287-292 | a readable date gives its epoch milliseconds; a missing or unreadable one gives 0 |
| Home.InsertBy | gmao-angular/src/app/pages/home/home.component.ts:254-256 | inserting adds exactly one copy of the element |
| Home.SortBy | gmao-angular/src/app/pages/home/home.component.ts:254-256 | the sort is a permutation |
| Home.SortSorted | gmao-angular/src/app/pages/home/home.component.ts:254-256 | the sort orders by the comparator's key |
| Home.SortStable | gmao-angular/src/app/pages/home/home.component.ts:254-256 | elements of equal key keep their relative order, as `Array.prototype.sort` does |
| Home.SortPrefixIsSmallest | gmao-angular/src/app/pages/home/home.component.ts:257 | the first n sorted elements are sorted, drawn from the input, and no greater than any element left out |
| Home.RecentSpec | gmao-angular/src/app/pages/home/home.component.ts:254-257 | at most six rows (fewer only when the list is shorter), latest planned date first, drawn from the list, and none left out is later than any kept |
| Home.RecentKeepsTies | gmao-angular/src/app/pages/home/home.component.ts:254-256 | rows with the same planned date keep their list order |
| Home.InWindowMeaning | gmao-angular/src/app/pages/home/home.component.ts:260-264 | a dated row is in the window iff it falls on one of the next seven days from today or exactly at midnight seven days on |
| Home.Next7DaysPicked | gmao-angular/src/app/pages/home/home.component.ts:262-266 | every row shown is in the list and in the window, and they come earliest first |
| Home.Next7DaysEarliest | gmao-angular/src/app/pages/home/home.component.ts:262-266 | no row in the window that is left out is earlier than a row shown |
| Home.Next7DaysSpec | gmao-angular/src/app/pages/home/home.component.ts:260-266 | min(6, rows in the window) rows, drawn from the window's rows, each dated, earliest first, and none left out earlier than one shown |
| Home.WindowPicked | gmao-angular/src/app/pages/home/home.component.ts:262-264 | every row of the list that is in the window passes the filter |
| Home.StatusCountsBounded | gmao-angular/src/app/pages/home/home.component.ts:250-251 | pending and done counts together never exceed the number of rows |
| Home.CountStatusAppend | gmao-angular/src/app/pages/home/home.component.ts:250-251 | a status count over two lists is the sum of the counts |
| Home.LengthOrZero | gmao-angular/src/app/pages/home/home.component.ts:234 | `(rows \|\| []).length`: 0 for null, the length otherwise |
| Home.Short | gmao-angular/src/app/pages/home/home.component.ts:281 | "—" for a missing or empty id; otherwise its first eight characters (fewer for a short id) followed by "…" |
| Home.ShortCollides | gmao-angular/src/app/pages/home/home.component.ts:281 | two ids display alike iff both are missing or empty, or they share their first eight characters |
| Home.PadValue | gmao-angular/src/app/pages/home/home.component.ts:279 | a zero-padded field has exactly the width and the value padded |
| Home.ToDate | gmao-angular/src/app/pages/home/home.component.ts:275-280 | "" for a missing or unreadable date, otherwise ten characters |
| Home.ToDateRoundTrip | gmao-angular/src/app/pages/home/home.component.ts:275-280 | for a year between 0 and 9999 the ten characters read back as the UTC calendar day |
| Home.ToDateTruncatesExtendedYears | gmao-angular/src/app/pages/home/home.component.ts:279 | a year past 9999 keeps only "+0yyyy-mm" after the cut at ten characters |
| Home.HomeComponent.constructor | gmao-angular/src/app/pages/home/home.component.ts:197-210 | the counts start at zero, the lists empty, loading on and no error |
| Home.HomeComponent.OnEquipments | gmao-angular/src/app/pages/home/home.component.ts:233-236 | rows set the equipment count to their length (0 for null); an error keeps the first message |
| Home.HomeComponent.OnSchedules | gmao-angular/src/app/pages/home/home.component.ts:239-242 | rows set the schedule count to their length; an error keeps the first message |
| Home.HomeComponent.OnMaintenanceRows | gmao-angular/src/app/pages/home/home.component.ts:246-267 | the two status counts, the recent list and the seven-day list are computed from the rows (none for null); nothing else changes |
| Home.HomeComponent.OnMaintenanceError | gmao-angular/src/app/pages/home/home.component.ts:268 | the error becomes "Erreur maintenances" unless one is already shown |
| Home.HomeComponent.OnMaintenanceComplete | gmao-angular/src/app/pages/home/home.component.ts:269 | loading ends |
| Home.HomeComponent.Refresh | gmao-angular/src/app/pages/home/home.component.ts:228-271 | each tile reflects its response, or keeps its value on error; loading ends only when the work orders arrive; the error is empty iff all three succeed, and otherwise names the first that failed |

## Left out

- Persistence: MongoDB and Mongoose are an in-memory `seq` per collection. A filter `{ companyId: undefined }` is taken to match only records without a company. Indexes, `lean`, timestamps and the `createdAt` order of `list` are not modelled; lists come in store order.
- Crypto: `bcrypt.hash` is the symbolic `Bcrypt(p)` and `compare` is equality with it. `jwtService.verify` is a parameter of `JwtAuth.CanActivate`. `sign` is the `AccessToken` datatype. The secret and its fallback are left out.
- Time: "now" and "today" are parameters. Time zones, daylight saving and the time of day are left out. A schedule's `nextDate` is a calendar day, and the dashboard reads instants as UTC days.
- Randomness: the `Math.random` temporary password is a parameter of `CompanyUsers.CompanyUsersService.Create`.
- Concurrency: the cron trigger and overlapping `runDue` calls are left out, because the source has no locking. Promises are modelled as sequential calls.
- Subscriptions: the dashboard's three responses are taken to arrive in request order (equipment, schedules, work orders). `Home.HomeComponent.Refresh` states the result for that order only.
- DTO validation decorators (`IsEmail`, `MinLength`, …) are not modelled. A date string `new Date` cannot read is modelled as a refused date in `Scheduling.SchedulingService.Create` and `Update`, and as `Unparseable` on the dashboard.
- The DTO files, `scheduling.schema.ts` beyond its required fields, and `equipment.service.ts` and `report.service.ts` are not part of this model. The equipment and report `findOne`, `remove` and the services' own create and update are pass-throughs with no logic.
- Users.PatchedPasswordNeverMatches and Auth.PatchedUserLockedOut: they hold because `Raw(s)` never equals a symbolic `Bcrypt(_)`. In the source, a password sent through `PUT /users/:id` that is itself a valid bcrypt hash of some string would let that string log in; the model cannot express such a string.
- Ids are taken to be well-formed ObjectIds. In the source a malformed id makes `findById`, `findByIdAndUpdate` and `findByIdAndDelete` throw a cast error, which reaches the client as a server error; here such an id is simply not found (`NotFound`), and a malformed `equipmentId` gets no back-fill.
- The "Scheduling not found after create" error cannot happen in the model: a created schedule is always found again.
- Frontend: `logout`, `navigateTo` and `go` only call the router, and `trackById` is a template helper. The username copied in the dashboard's `ngOnInit`, the frontend `auth.service.ts` and the API clients are not part of this model.
- Navigation.UpperAscii: upper-cases ASCII letters only, not the full Unicode `toUpperCase`.
- Navigation.NavigationComponent.constructor: a stored sidebar value is read as a boolean. Other JSON held under `sidebar_expanded` is not modelled.
- Home.Next7DaysSpec: stability among rows with equal planned dates is proved for the sort in general (`Home.SortStable`), not stated for this list.
- Scheduling.SchedulingService.Remove: the tenant-free removal is modelled. The work orders a removed schedule generated are not touched, as in the source.
