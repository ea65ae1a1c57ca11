/** `SchedulingService`: CRUD over the schedule collection and the recurrence
    engine. `RunOnce` turns one schedule into a preventive work order and
    moves that schedule's `nextDate` on by one period; `RunDue` does this for
    every schedule due at `now`, in collection order, and stops at the first
    work order that cannot be saved. */
module Scheduling {
  import opened Common
  import opened Calendar
  import opened Maintenance

  datatype Schedule = Schedule(
    id: string,
    equipmentId: string,
    frequency: Frequency,
    nextDate: Date,
    companyId: Option<string>)

  /** The create body once validated: `nextDate` is already the parsed date. */
  datatype CreateSchedulingDto = CreateSchedulingDto(
    equipmentId: string,
    frequency: Frequency,
    nextDate: Date,
    companyId: Option<string>)

  /** The update body: every field optional. */
  datatype UpdateSchedulingDto = UpdateSchedulingDto(
    equipmentId: Option<string>,
    frequency: Option<Frequency>,
    nextDate: Option<Date>,
    companyId: Option<string>)

  const AutoDescription: string := "Générée automatiquement par la planification"

  /** The user id stamped on generated work orders. */
  const SystemUser: string := "SYSTEM"

  predicate DistinctScheduleIds(s: seq<Schedule>) {
    forall i, j :: 0 <= i < j < |s| ==> s[i].id != s[j].id
  }

  predicate DatesValid(s: seq<Schedule>) {
    forall i :: 0 <= i < |s| ==> Valid(s[i].nextDate)
  }

  function IndexOfSchedule(s: seq<Schedule>, id: string): Option<nat> {
    IndexWhere(s, (x: Schedule) => x.id == id)
  }

  function FilterSchedules(s: seq<Schedule>, f: TenantFilter): seq<Schedule> {
    Select(s, (x: Schedule) => Matches(f, x.companyId))
  }

  /** `update`'s patch: only the fields the body gives a truthy value. */
  function PatchSchedule(x: Schedule, dto: UpdateSchedulingDto): (r: Schedule)
    ensures r.id == x.id
    ensures r.equipmentId == (if Truthy(dto.equipmentId) then dto.equipmentId.value else x.equipmentId)
    ensures r.frequency == dto.frequency.GetOr(x.frequency)
    ensures r.nextDate == dto.nextDate.GetOr(x.nextDate)
    ensures r.companyId == (if Truthy(dto.companyId) then dto.companyId else x.companyId)
  {
    Schedule(
      x.id,
      if Truthy(dto.equipmentId) then dto.equipmentId.value else x.equipmentId,
      dto.frequency.GetOr(x.frequency),
      dto.nextDate.GetOr(x.nextDate),
      if Truthy(dto.companyId) then dto.companyId else x.companyId)
  }

  // ---------------------------------------------------------------------
  // The recurrence engine as functions of the collection.

  /** A schedule is due when its `nextDate` is at or before `now`. */
  predicate IsDue(x: Schedule, now: Date) {
    AtOrBefore(x.nextDate, now)
  }

  /** `find({ nextDate: { $lte: now } })`, in collection order. */
  function DueList(s: seq<Schedule>, now: Date): seq<Schedule> {
    Select(s, (x: Schedule) => IsDue(x, now))
  }

  /** The payload `runOnce` hands to the maintenance service. */
  function GeneratedPayload(x: Schedule): (p: Payload)
    ensures p.kind == Some(Preventive) && p.status == Some(EnAttente)
    ensures p.plannedDate == Some(x.nextDate) && p.dueDate.None?
    ensures p.equipmentId == Some(x.equipmentId) && p.companyId == x.companyId
    ensures p.userId == Some(SystemUser) && p.description == Some(AutoDescription)
  {
    Payload(Some(Preventive), Some(x.nextDate), None, Some(EnAttente), Some(AutoDescription),
            Some(x.equipmentId), Some(SystemUser), x.companyId)
  }

  /** The payload as the maintenance service completes it. */
  function BackFilledPayload(x: Schedule, equipment: map<string, Option<string>>): Payload {
    BackFill(GeneratedPayload(x), equipment)
  }

  /** Whether the work order for `x` can be saved: the schedule names an
      equipment, and a company comes from the schedule or from that
      equipment. `SucceedsExactly` ties this to the schema's required check. */
  predicate Succeeds(x: Schedule, equipment: map<string, Option<string>>) {
    x.equipmentId != ""
    && (Truthy(x.companyId) || (x.equipmentId in equipment && Truthy(equipment[x.equipmentId])))
  }

  /** The work order `runOnce` saves for `x`. */
  function GeneratedOrder(x: Schedule, equipment: map<string, Option<string>>, id: string): WorkOrder
    requires Succeeds(x, equipment)
  {
    SucceedsExactly(x, equipment);
    Stored(id, BackFilledPayload(x, equipment))
  }

  /** The schedule with its `nextDate` moved on by one period: a later,
      valid date, and every other field as it was. */
  function Advance(x: Schedule): (r: Schedule)
    requires Valid(x.nextDate)
    ensures r.id == x.id && r.equipmentId == x.equipmentId
    ensures r.frequency == x.frequency && r.companyId == x.companyId
    ensures r.nextDate == Bump(x.nextDate, x.frequency)
    ensures Valid(r.nextDate) && Before(x.nextDate, r.nextDate)
  {
    BumpIsLater(x.nextDate, x.frequency);
    x.(nextDate := Bump(x.nextDate, x.frequency))
  }

  /** `updateOne({ _id: id }, { $set: { nextDate: d } })`. */
  function SetNextDate(s: seq<Schedule>, id: string, d: Date): (r: seq<Schedule>)
    ensures |r| == |s|
    ensures forall i :: 0 <= i < |s| ==> r[i] == if s[i].id == id then s[i].(nextDate := d) else s[i]
  {
    seq(|s|, i requires 0 <= i < |s| => if s[i].id == id then s[i].(nextDate := d) else s[i])
  }

  /** The collection after the schedules with the given ids were each
      advanced once. */
  function AdvanceIds(s: seq<Schedule>, ids: set<string>): (r: seq<Schedule>)
    requires DatesValid(s)
    ensures |r| == |s|
    ensures forall i :: 0 <= i < |s| ==> r[i] == if s[i].id in ids then Advance(s[i]) else s[i]
  {
    seq(|s|, i requires 0 <= i < |s| && Valid(s[i].nextDate) =>
               if s[i].id in ids then Advance(s[i]) else s[i])
  }

  function IdsOf(s: seq<Schedule>): set<string> {
    set x | x in s :: x.id
  }

  /** The work orders saved for the schedules of `done`, with consecutive
      ObjectIds from `start`. */
  function GeneratedOrders(done: seq<Schedule>, equipment: map<string, Option<string>>, start: nat): (r: seq<WorkOrder>)
    requires forall j :: 0 <= j < |done| ==> Succeeds(done[j], equipment)
    ensures |r| == |done|
    decreases |done|
  {
    if done == [] then []
    else
      var k := |done| - 1;
      GeneratedOrders(done[..k], equipment, start) + [GeneratedOrder(done[k], equipment, ObjectIdOf(start + k))]
  }

  /** The i-th order generated is the one for the i-th processed schedule,
      with the i-th fresh ObjectId. */
  lemma {:induction false} GeneratedOrdersAt(done: seq<Schedule>, equipment: map<string, Option<string>>, start: nat, i: nat)
    requires forall j :: 0 <= j < |done| ==> Succeeds(done[j], equipment)
    requires i < |done|
    ensures GeneratedOrders(done, equipment, start)[i] == GeneratedOrder(done[i], equipment, ObjectIdOf(start + i))
    decreases |done|
  {
    var k := |done| - 1;
    if i < k {
      GeneratedOrdersAt(done[..k], equipment, start, i);
    }
  }

  /** The position of the first due schedule whose work order fails. */
  function FirstFailure(due: seq<Schedule>, equipment: map<string, Option<string>>): Option<nat> {
    IndexWhere(due, (x: Schedule) => !Succeeds(x, equipment))
  }

  /** The schedules a `runDue` gets through: all of them, or those before the
      first failure. */
  function Processed(due: seq<Schedule>, equipment: map<string, Option<string>>): (done: seq<Schedule>)
    ensures forall j :: 0 <= j < |done| ==> Succeeds(done[j], equipment)
    ensures |done| <= |due| && done == due[..|done|]
  {
    var stop := FirstFailure(due, equipment);
    if stop.Some? then due[..stop.value] else due
  }

  // ---------------------------------------------------------------------
  // Lemmas about the recurrence engine.

  /** The due list holds exactly the schedules with `nextDate <= now`. */
  lemma DueListExact(s: seq<Schedule>, now: Date, x: Schedule)
    ensures x in DueList(s, now) <==> x in s && IsDue(x, now)
  {
    if x in s && IsDue(x, now) {
      SelectComplete(s, (x: Schedule) => IsDue(x, now), x);
    }
  }

  lemma {:induction false} SelectKeepsDistinct(s: seq<Schedule>, keep: Schedule -> bool)
    requires DistinctScheduleIds(s)
    ensures DistinctScheduleIds(Select(s, keep))
    decreases s
  {
    if s != [] {
      SelectKeepsDistinct(s[1..], keep);
      var t := Select(s[1..], keep);
      forall x | x in t ensures x.id != s[0].id {
        var j :| 0 <= j < |s[1..]| && s[1..][j] == x;
        assert s[j + 1] == x;
      }
    }
  }

  lemma DueListDistinct(s: seq<Schedule>, now: Date)
    requires DistinctScheduleIds(s)
    ensures DistinctScheduleIds(DueList(s, now))
  {
    SelectKeepsDistinct(s, (x: Schedule) => IsDue(x, now));
  }

  /** One `runOnce` step on a collection where `x` has not been advanced yet
      adds `x` to the advanced ids. */
  lemma AdvanceStep(s: seq<Schedule>, ids: set<string>, x: Schedule)
    requires DistinctScheduleIds(s) && DatesValid(s)
    requires x in s && x.id !in ids
    ensures DatesValid(AdvanceIds(s, ids))
    ensures SetNextDate(AdvanceIds(s, ids), x.id, Bump(x.nextDate, x.frequency))
            == AdvanceIds(s, ids + {x.id})
  {
    var a := AdvanceIds(s, ids);
    assert DatesValid(a) by {
      forall i | 0 <= i < |a| ensures Valid(a[i].nextDate) {
        if s[i].id in ids {
          assert Valid(Bump(s[i].nextDate, s[i].frequency));
        }
      }
    }
    var l := SetNextDate(a, x.id, Bump(x.nextDate, x.frequency));
    var r := AdvanceIds(s, ids + {x.id});
    forall i | 0 <= i < |s| ensures l[i] == r[i] {
      if s[i].id == x.id {
        var j :| 0 <= j < |s| && s[j] == x;
        assert i == j;
      }
    }
  }

  /** What `runOnce` writes for a schedule, field by field, and when its
      save fails. */
  lemma GeneratedOrderFields(x: Schedule, equipment: map<string, Option<string>>, id: string)
    requires Succeeds(x, equipment)
    ensures var w := GeneratedOrder(x, equipment, id);
            w.id == id && w.kind == Preventive && w.status == Some(EnAttente)
            && w.plannedDate == Some(x.nextDate) && w.equipmentId == x.equipmentId
            && w.userId == SystemUser
            && (Truthy(x.companyId) ==> Some(w.companyId) == x.companyId)
            && (!Truthy(x.companyId) ==> Some(w.companyId) == equipment[x.equipmentId])
  {
    BackFillSpec(GeneratedPayload(x), equipment);
  }

  /** The generated work order passes the schema's required check exactly
      when `Succeeds` holds. */
  lemma SucceedsExactly(x: Schedule, equipment: map<string, Option<string>>)
    ensures Succeeds(x, equipment) <==> MissingRequired(BackFilledPayload(x, equipment)) == []
  {
    BackFillSpec(GeneratedPayload(x), equipment);
  }

  /** A schedule overdue by more than one period is still due after one
      run: `runDue` does not catch up. */
  lemma OverdueStaysDue(x: Schedule, now: Date)
    requires Valid(x.nextDate) && Valid(now)
    requires x.frequency == Daily && DayNumber(x.nextDate) + 1 <= DayNumber(now)
    ensures IsDue(x, now) && IsDue(Advance(x), now)
  {
    var next := Advance(x).nextDate;
    AtOrBeforeIsDayOrder(x.nextDate, now);
    AtOrBeforeIsDayOrder(next, now);
  }

  lemma ExampleOverdueWeekly()
    ensures var x := Schedule("s", "e", Weekly, Date(2025, 6, 1), Some("c"));
            IsDue(x, Date(2025, 6, 20)) && Valid(x.nextDate) && IsDue(Advance(x), Date(2025, 6, 20))
  {
    var x := Schedule("s", "e", Weekly, Date(2025, 6, 1), Some("c"));
    NormaliseShortOverflow(2025, 6, 8);
  }

  lemma PrefixIdsExclude(due: seq<Schedule>, i: nat)
    requires DistinctScheduleIds(due) && i < |due|
    ensures due[i].id !in IdsOf(due[..i])
  {
  }

  lemma PrefixStep(due: seq<Schedule>, i: nat, equipment: map<string, Option<string>>, start: nat)
    requires i < |due| && forall j :: 0 <= j <= i ==> Succeeds(due[j], equipment)
    ensures IdsOf(due[..i + 1]) == IdsOf(due[..i]) + {due[i].id}
    ensures GeneratedOrders(due[..i + 1], equipment, start)
            == GeneratedOrders(due[..i], equipment, start) + [GeneratedOrder(due[i], equipment, ObjectIdOf(start + i))]
  {
    assert due[..i + 1] == due[..i] + [due[i]];
  }

  lemma MemberDateValid(s: seq<Schedule>, x: Schedule)
    requires DatesValid(s) && x in s
    ensures Valid(x.nextDate)
  {
  }

  /** The state after `runDue` has got through the first `i` due schedules:
      those were advanced and their work orders appended, in order. */
  predicate Progress(sched: seq<Schedule>, orders: seq<WorkOrder>, issued: nat,
                     s0: seq<Schedule>, orders0: seq<WorkOrder>, issued0: nat,
                     equipment: map<string, Option<string>>, due: seq<Schedule>, i: nat)
  {
    && DatesValid(s0) && i <= |due|
    && (forall j :: 0 <= j < i ==> Succeeds(due[j], equipment))
    && sched == AdvanceIds(s0, IdsOf(due[..i]))
    && orders == orders0 + GeneratedOrders(due[..i], equipment, issued0)
    && issued == issued0 + i
  }

  /** The loop step of `runDue`: one more successful `runOnce` extends the
      advanced ids and the generated orders by the next due schedule. */
  lemma RunStep(sched: seq<Schedule>, orders: seq<WorkOrder>, issued: nat,
                s0: seq<Schedule>, orders0: seq<WorkOrder>, issued0: nat,
                equipment: map<string, Option<string>>, due: seq<Schedule>, i: nat)
    requires DistinctScheduleIds(s0) && DistinctScheduleIds(due) && forall x :: x in due ==> x in s0
    requires Progress(sched, orders, issued, s0, orders0, issued0, equipment, due, i)
    requires i < |due| && Succeeds(due[i], equipment) && Valid(due[i].nextDate)
    ensures Progress(SetNextDate(sched, due[i].id, Bump(due[i].nextDate, due[i].frequency)),
                     orders + [GeneratedOrder(due[i], equipment, ObjectIdOf(issued))], issued + 1,
                     s0, orders0, issued0, equipment, due, i + 1)
  {
    PrefixIdsExclude(due, i);
    AdvanceStep(s0, IdsOf(due[..i]), due[i]);
    PrefixStep(due, i, equipment, issued0);
  }

  lemma FailureAt(due: seq<Schedule>, equipment: map<string, Option<string>>, i: nat)
    requires i < |due| && !Succeeds(due[i], equipment)
    requires forall j :: 0 <= j < i ==> Succeeds(due[j], equipment)
    ensures FirstFailure(due, equipment) == Some(i)
    ensures Processed(due, equipment) == due[..i]
  {
  }

  lemma NoFailure(due: seq<Schedule>, equipment: map<string, Option<string>>)
    requires forall j :: 0 <= j < |due| ==> Succeeds(due[j], equipment)
    ensures FirstFailure(due, equipment).None?
    ensures Processed(due, equipment) == due == due[..|due|]
  {
  }

  // ---------------------------------------------------------------------

  class SchedulingService {
    /** The schedule collection, in natural order. */
    var schedules: seq<Schedule>
    var issued: nat
    const maintenance: MaintenanceService

    ghost predicate Valid()
      reads this, maintenance
    {
      && DistinctScheduleIds(schedules) && DatesValid(schedules)
      && (forall i :: 0 <= i < |schedules| ==> Issued(schedules[i].id, issued))
      && maintenance.Valid()
    }

    constructor (maintenance: MaintenanceService)
      requires maintenance.Valid()
      ensures Valid() && schedules == [] && this.maintenance == maintenance
    {
      schedules := [];
      issued := 0;
      this.maintenance := maintenance;
    }

    method Create(dto: CreateSchedulingDto) returns (r: Result<Schedule>)
      requires Valid()
      modifies this
      ensures Valid()
      ensures if dto.equipmentId == "" || !Calendar.Valid(dto.nextDate) then
                r.Err? && schedules == old(schedules) && issued == old(issued)
              else
                r == Ok(Schedule(ObjectIdOf(old(issued)), dto.equipmentId, dto.frequency, dto.nextDate, dto.companyId))
                && schedules == old(schedules) + [r.value] && issued == old(issued) + 1
    {
      if dto.equipmentId == "" {
        return Err(ValidationFailed(["equipmentId"]));
      }
      if !Calendar.Valid(dto.nextDate) {
        return Err(ValidationFailed(["nextDate"]));
      }
      var x := Schedule(ObjectIdOf(issued), dto.equipmentId, dto.frequency, dto.nextDate, dto.companyId);
      forall i | 0 <= i < |schedules| ensures schedules[i].id != x.id {
        NextIdIsFresh(schedules[i].id, issued);
      }
      schedules := schedules + [x];
      issued := issued + 1;
      r := Ok(x);
    }

    method FindAll(filter: TenantFilter) returns (list: seq<Schedule>)
      ensures list == FilterSchedules(schedules, filter)
      ensures forall x :: x in list <==> x in schedules && Matches(filter, x.companyId)
    {
      list := FilterSchedules(schedules, filter);
      forall x ensures x in list <==> x in schedules && Matches(filter, x.companyId) {
        if x in schedules && Matches(filter, x.companyId) {
          SelectComplete(schedules, (x: Schedule) => Matches(filter, x.companyId), x);
        }
      }
    }

    method FindOne(id: string) returns (r: Result<Schedule>)
      ensures r.Ok? <==> exists i :: 0 <= i < |schedules| && schedules[i].id == id
      ensures r.Ok? ==> r.value in schedules && r.value.id == id
      ensures r.Err? ==> r == Err(NotFound("Scheduling not found"))
    {
      var k := IndexOfSchedule(schedules, id);
      if k.None? {
        return Err(NotFound("Scheduling not found"));
      }
      r := Ok(schedules[k.value]);
    }

    method Update(id: string, dto: UpdateSchedulingDto) returns (r: Result<Schedule>)
      requires Valid()
      modifies this
      ensures Valid() && issued == old(issued)
      ensures var k := IndexOfSchedule(old(schedules), id);
              if dto.nextDate.Some? && !Calendar.Valid(dto.nextDate.value) then
                r == Err(ValidationFailed(["nextDate"])) && schedules == old(schedules)
              else if k.None? then
                r == Err(NotFound("Scheduling not found")) && schedules == old(schedules)
              else
                r == Ok(PatchSchedule(old(schedules)[k.value], dto))
                && schedules == old(schedules)[k.value := r.value]
    {
      if dto.nextDate.Some? && !Calendar.Valid(dto.nextDate.value) {
        return Err(ValidationFailed(["nextDate"]));
      }
      var k := IndexOfSchedule(schedules, id);
      if k.None? {
        return Err(NotFound("Scheduling not found"));
      }
      var x := PatchSchedule(schedules[k.value], dto);
      schedules := schedules[k.value := x];
      r := Ok(x);
    }

    method Remove(id: string) returns (r: Result<Schedule>)
      requires Valid()
      modifies this
      ensures Valid() && issued == old(issued)
      ensures var k := IndexOfSchedule(old(schedules), id);
              if k.None? then
                r == Err(NotFound("Scheduling not found")) && schedules == old(schedules)
              else
                r == Ok(old(schedules)[k.value]) && schedules == RemoveAt(old(schedules), k.value)
      ensures forall x :: x in schedules <==> x in old(schedules) && x.id != id
    {
      var k := IndexOfSchedule(schedules, id);
      if k.None? {
        return Err(NotFound("Scheduling not found"));
      }
      r := Ok(schedules[k.value]);
      schedules := RemoveAt(schedules, k.value);
    }

    /** `runOnce(planif)`: save the generated work order, then set the
        schedule's `nextDate` to `bump(planif.nextDate, planif.frequency)`.
        A failed save throws before the schedule is touched. */
    method RunOnce(planif: Schedule) returns (r: Result<()>)
      requires Valid() && Calendar.Valid(planif.nextDate)
      modifies this, maintenance
      ensures Valid() && issued == old(issued)
      ensures maintenance.equipment == old(maintenance.equipment)
      ensures if Succeeds(planif, old(maintenance.equipment)) then
                r == Ok(())
                && maintenance.orders == old(maintenance.orders)
                     + [GeneratedOrder(planif, old(maintenance.equipment), ObjectIdOf(old(maintenance.issued)))]
                && maintenance.issued == old(maintenance.issued) + 1
                && schedules == SetNextDate(old(schedules), planif.id, Bump(planif.nextDate, planif.frequency))
              else
                r == Err(ValidationFailed(MissingRequired(BackFilledPayload(planif, old(maintenance.equipment)))))
                && maintenance.orders == old(maintenance.orders)
                && maintenance.issued == old(maintenance.issued)
                && schedules == old(schedules)
    {
      SucceedsExactly(planif, maintenance.equipment);
      var created := maintenance.Create(GeneratedPayload(planif));
      if created.Err? {
        return Err(created.error);
      }
      var next := Bump(planif.nextDate, planif.frequency);
      var updated := SetNextDate(schedules, planif.id, next);
      assert DatesValid(updated) by {
        forall i | 0 <= i < |updated| ensures Calendar.Valid(updated[i].nextDate) {
        }
      }
      schedules := updated;
      r := Ok(());
    }

    /** The `for (const p of due) await this.runOnce(p)` loop of `runDue`. */
    method RunAll(due: seq<Schedule>) returns (r: Result<nat>)
      requires Valid()
      requires DistinctScheduleIds(due) && forall x :: x in due ==> x in schedules
      modifies this, maintenance
      ensures Valid() && issued == old(issued)
      ensures maintenance.equipment == old(maintenance.equipment)
      ensures var done := Processed(due, old(maintenance.equipment));
              schedules == AdvanceIds(old(schedules), IdsOf(done))
              && maintenance.orders
                   == old(maintenance.orders) + GeneratedOrders(done, old(maintenance.equipment), old(maintenance.issued))
              && maintenance.issued == old(maintenance.issued) + |done|
      ensures FirstFailure(due, old(maintenance.equipment)).None? <==> r.Ok?
      ensures r.Ok? ==> r.value == |due|
    {
      ghost var s0, orders0, issued0, eq := schedules, maintenance.orders, maintenance.issued, maintenance.equipment;
      assert AdvanceIds(s0, {}) == s0;
      var i := 0;
      while i < |due|
        invariant 0 <= i <= |due|
        invariant Valid() && issued == old(issued)
        invariant maintenance.equipment == eq
        invariant Progress(schedules, maintenance.orders, maintenance.issued, s0, orders0, issued0, eq, due, i)
      {
        var p := due[i];
        MemberDateValid(s0, p);
        label step:
        var res := RunOnce(p);
        if res.Err? {
          FailureAt(due, eq, i);
          return Err(res.error);
        }
        RunStep(old@step(schedules), old@step(maintenance.orders), old@step(maintenance.issued),
                s0, orders0, issued0, eq, due, i);
        i := i + 1;
      }
      NoFailure(due, eq);
      r := Ok(|due|);
    }

    /** `runDue()`: run every schedule due at `now`, in collection order, and
        return how many there were. A failure propagates at once and the
        schedules after it are not run. */
    method RunDue(now: Date) returns (r: Result<nat>)
      requires Valid()
      modifies this, maintenance
      ensures Valid() && issued == old(issued)
      ensures maintenance.equipment == old(maintenance.equipment)
      ensures var due := DueList(old(schedules), now);
              var done := Processed(due, old(maintenance.equipment));
              schedules == AdvanceIds(old(schedules), IdsOf(done))
              && maintenance.orders
                   == old(maintenance.orders) + GeneratedOrders(done, old(maintenance.equipment), old(maintenance.issued))
              && maintenance.issued == old(maintenance.issued) + |done|
              && (FirstFailure(due, old(maintenance.equipment)).None? <==> r.Ok?)
              && (r.Ok? ==> r.value == |due|)
      ensures DueList(old(schedules), now) == [] ==>
                r == Ok(0) && schedules == old(schedules) && maintenance.orders == old(maintenance.orders)
    {
      var due := DueList(schedules, now);
      DueListDistinct(schedules, now);
      assert AdvanceIds(schedules, {}) == schedules;
      r := RunAll(due);
    }
  }
}
