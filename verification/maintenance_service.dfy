/** The work-order (maintenance) collection and `MaintenanceService`: create
    and update back-fill a missing `companyId` from the equipment record, the
    schema's required paths are checked when a new record is saved, and the
    lookups raise NotFound for an unknown id. */
module Maintenance {
  import opened Common
  import opened Calendar

  datatype MaintenanceType = Preventive | Corrective

  datatype MaintenanceStatus = EnAttente | EnCours | Terminee

  /** The enum's stored string value. */
  function StatusName(s: MaintenanceStatus): string {
    match s
    case EnAttente => "En attente"
    case EnCours => "En cours"
    case Terminee => "terminée"
  }

  /** `Partial<Maintenance>`: every field may be missing. */
  datatype Payload = Payload(
    kind: Option<MaintenanceType>,
    plannedDate: Option<Date>,
    dueDate: Option<Date>,
    status: Option<MaintenanceStatus>,
    description: Option<string>,
    equipmentId: Option<string>,
    userId: Option<string>,
    companyId: Option<string>)

  /** A stored maintenance record. `type`, `equipmentId`, `userId` and
      `companyId` are required by the schema, so a saved record has them. */
  datatype WorkOrder = WorkOrder(
    id: string,
    kind: MaintenanceType,
    plannedDate: Option<Date>,
    dueDate: Option<Date>,
    status: Option<MaintenanceStatus>,
    description: Option<string>,
    equipmentId: string,
    userId: string,
    companyId: string)

  /** The company a maintenance record counts for in a tenant filter. */
  function CompanyOf(w: WorkOrder): Option<string> {
    Some(w.companyId)
  }

  /** The `companyId` back-fill of `create` and `update`: a payload without a
      truthy `companyId` but with a truthy `equipmentId` takes the company of
      that equipment, when the equipment exists and has one. */
  function BackFill(p: Payload, equipment: map<string, Option<string>>): (q: Payload)
    ensures q == p.(companyId := q.companyId)
  {
    if !Truthy(p.companyId) && Truthy(p.equipmentId)
       && p.equipmentId.value in equipment && Truthy(equipment[p.equipmentId.value])
    then p.(companyId := equipment[p.equipmentId.value])
    else p
  }

  /** What the back-fill does and does not do, in both directions. */
  lemma BackFillSpec(p: Payload, equipment: map<string, Option<string>>)
    ensures Truthy(p.companyId) ==> BackFill(p, equipment) == p
    ensures BackFill(p, equipment) != p <==>
              !Truthy(p.companyId) && Truthy(p.equipmentId)
              && p.equipmentId.value in equipment && Truthy(equipment[p.equipmentId.value])
              && equipment[p.equipmentId.value] != p.companyId
    ensures BackFill(p, equipment) != p ==>
              BackFill(p, equipment).companyId == equipment[p.equipmentId.value]
  {
  }

  /** The required paths of the schema that a new record would lack, in
      schema order. Mongoose's required check refuses an empty string. */
  function MissingRequired(p: Payload): (paths: seq<string>)
    ensures paths == [] <==>
              p.kind.Some? && Truthy(p.equipmentId) && Truthy(p.userId) && Truthy(p.companyId)
  {
    (if p.kind.None? then ["type"] else [])
    + (if !Truthy(p.equipmentId) then ["equipmentId"] else [])
    + (if !Truthy(p.userId) then ["userId"] else [])
    + (if !Truthy(p.companyId) then ["companyId"] else [])
  }

  /** The record `save()` writes for a complete payload. */
  function Stored(id: string, p: Payload): (w: WorkOrder)
    requires MissingRequired(p) == []
    ensures w.id == id && Some(w.kind) == p.kind && w.plannedDate == p.plannedDate
    ensures w.dueDate == p.dueDate && w.status == p.status && w.description == p.description
    ensures Some(w.equipmentId) == p.equipmentId && Some(w.userId) == p.userId
    ensures Some(w.companyId) == p.companyId
  {
    WorkOrder(id, p.kind.value, p.plannedDate, p.dueDate, p.status, p.description,
              p.equipmentId.value, p.userId.value, p.companyId.value)
  }

  /** `findByIdAndUpdate(id, patch)`: a `$set` of the fields the payload
      carries; the keys it leaves undefined are not written. */
  function Patch(w: WorkOrder, p: Payload): (r: WorkOrder)
    ensures r.id == w.id
    ensures r.kind == p.kind.GetOr(w.kind) && r.plannedDate == (if p.plannedDate.Some? then p.plannedDate else w.plannedDate)
    ensures r.companyId == p.companyId.GetOr(w.companyId) && r.equipmentId == p.equipmentId.GetOr(w.equipmentId)
    ensures r.dueDate == (if p.dueDate.Some? then p.dueDate else w.dueDate)
    ensures r.status == (if p.status.Some? then p.status else w.status)
    ensures r.description == (if p.description.Some? then p.description else w.description)
    ensures r.userId == p.userId.GetOr(w.userId)
    ensures p == Payload(None, None, None, None, None, None, None, None) ==> r == w
  {
    WorkOrder(
      w.id,
      p.kind.GetOr(w.kind),
      if p.plannedDate.Some? then p.plannedDate else w.plannedDate,
      if p.dueDate.Some? then p.dueDate else w.dueDate,
      if p.status.Some? then p.status else w.status,
      if p.description.Some? then p.description else w.description,
      p.equipmentId.GetOr(w.equipmentId),
      p.userId.GetOr(w.userId),
      p.companyId.GetOr(w.companyId))
  }

  predicate DistinctIds(s: seq<WorkOrder>) {
    forall i, j :: 0 <= i < j < |s| ==> s[i].id != s[j].id
  }

  function IndexOfId(s: seq<WorkOrder>, id: string): Option<nat> {
    IndexWhere(s, (w: WorkOrder) => w.id == id)
  }

  /** The records a `find(filter)` returns. */
  function FilterOrders(s: seq<WorkOrder>, f: TenantFilter): seq<WorkOrder> {
    Select(s, (w: WorkOrder) => Matches(f, CompanyOf(w)))
  }

  /** `findAll(filter)` returns exactly the records that match the filter. */
  lemma FilterOrdersExact(s: seq<WorkOrder>, f: TenantFilter, w: WorkOrder)
    ensures w in FilterOrders(s, f) <==> w in s && Matches(f, CompanyOf(w))
  {
    if w in s && Matches(f, CompanyOf(w)) {
      SelectComplete(s, (w: WorkOrder) => Matches(f, CompanyOf(w)), w);
    }
  }

  /** Deleting the record with a unique id removes that record and keeps
      every other one. */
  lemma RemoveById(s: seq<WorkOrder>, k: nat, id: string)
    requires DistinctIds(s) && k < |s| && s[k].id == id
    ensures DistinctIds(RemoveAt(s, k))
    ensures forall w :: w in RemoveAt(s, k) <==> w in s && w.id != id
  {
    var r := RemoveAt(s, k);
    forall w | w in s && w.id != id ensures w in r {
      var j :| 0 <= j < |s| && s[j] == w;
      if j < k { assert r[j] == w; } else { assert r[j - 1] == w; }
    }
  }

  class MaintenanceService {
    /** The maintenance collection, in insertion order. */
    var orders: seq<WorkOrder>
    /** How many ObjectIds the collection has handed out. */
    var issued: nat
    /** The equipment collection, read for the back-fill: equipment id to
        its `companyId`. */
    var equipment: map<string, Option<string>>

    ghost predicate Valid()
      reads this
    {
      DistinctIds(orders) && forall i :: 0 <= i < |orders| ==> Issued(orders[i].id, issued)
    }

    constructor (equipment: map<string, Option<string>>)
      ensures Valid() && orders == [] && this.equipment == equipment
    {
      orders := [];
      issued := 0;
      this.equipment := equipment;
    }

    /** `create(data)`: copy the payload, back-fill `companyId`, save. */
    method Create(data: Payload) returns (r: Result<WorkOrder>)
      requires Valid()
      modifies this
      ensures Valid() && equipment == old(equipment)
      ensures var p := BackFill(data, old(equipment));
              if MissingRequired(p) == [] then
                r == Ok(Stored(ObjectIdOf(old(issued)), p))
                && orders == old(orders) + [r.value] && issued == old(issued) + 1
              else
                r == Err(ValidationFailed(MissingRequired(p)))
                && orders == old(orders) && issued == old(issued)
    {
      var payload := BackFill(data, equipment);
      var missing := MissingRequired(payload);
      if missing != [] {
        return Err(ValidationFailed(missing));
      }
      var w := Stored(ObjectIdOf(issued), payload);
      forall i | 0 <= i < |orders| ensures orders[i].id != w.id {
        NextIdIsFresh(orders[i].id, issued);
      }
      orders := orders + [w];
      issued := issued + 1;
      r := Ok(w);
    }

    method FindAll(filter: TenantFilter) returns (list: seq<WorkOrder>)
      ensures list == FilterOrders(orders, filter)
      ensures forall w :: w in list <==> w in orders && Matches(filter, CompanyOf(w))
    {
      list := FilterOrders(orders, filter);
      forall w ensures w in list <==> w in orders && Matches(filter, CompanyOf(w)) {
        FilterOrdersExact(orders, filter, w);
      }
    }

    method FindOne(id: string) returns (r: Result<WorkOrder>)
      requires Valid()
      ensures r.Ok? <==> exists i :: 0 <= i < |orders| && orders[i].id == id
      ensures r.Ok? ==> r.value in orders && r.value.id == id
      ensures r.Err? ==> r == Err(NotFound("Maintenance not found"))
    {
      var k := IndexOfId(orders, id);
      if k.None? {
        return Err(NotFound("Maintenance not found"));
      }
      r := Ok(orders[k.value]);
    }

    /** `update(id, data)`: back-fill as in `create`, then patch the record.
        `findByIdAndUpdate` runs no validators. */
    method Update(id: string, data: Payload) returns (r: Result<WorkOrder>)
      requires Valid()
      modifies this
      ensures Valid() && equipment == old(equipment) && issued == old(issued)
      ensures var k := IndexOfId(old(orders), id);
              if k.None? then
                r == Err(NotFound("Maintenance not found")) && orders == old(orders)
              else
                r == Ok(Patch(old(orders)[k.value], BackFill(data, old(equipment))))
                && orders == old(orders)[k.value := r.value]
    {
      var updated := BackFill(data, equipment);
      var k := IndexOfId(orders, id);
      if k.None? {
        return Err(NotFound("Maintenance not found"));
      }
      var w := Patch(orders[k.value], updated);
      orders := orders[k.value := w];
      r := Ok(w);
    }

    method Remove(id: string) returns (r: Result<WorkOrder>)
      requires Valid()
      modifies this
      ensures Valid() && equipment == old(equipment) && issued == old(issued)
      ensures var k := IndexOfId(old(orders), id);
              if k.None? then
                r == Err(NotFound("Maintenance not found")) && orders == old(orders)
              else
                r == Ok(old(orders)[k.value]) && orders == RemoveAt(old(orders), k.value)
      ensures forall w :: w in orders <==> w in old(orders) && w.id != id
    {
      var k := IndexOfId(orders, id);
      if k.None? {
        return Err(NotFound("Maintenance not found"));
      }
      RemoveById(orders, k.value, id);
      r := Ok(orders[k.value]);
      orders := RemoveAt(orders, k.value);
    }
  }
}
