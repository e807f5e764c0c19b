/**
 Schema discovery: provisioning, drift detection, self-healing and the use case that runs them in
 one transaction (app/application/discovery, app/domain/discovery/services/schema_drift_service.py,
 app/domain/discovery/discovery_run.py).
 */
module Discovery {
  import opened Wrappers
  import opened Schema
  import opened SchemaDiffer
  import opened PlatformStore
  import opened ObjectService
  import opened UnitOfWork

  /** What a discovery runner returns for one table; it has no object id yet. */
  datatype RawSnapshot = RawSnapshot(objectName: string, fields: seq<SchemaField>)

  // ---------- Provisioning ----------

  function ObjectsOf(objects: seq<DataObject>, assetId: Id): seq<DataObject> {
    if objects == [] then []
    else
      var last := objects[|objects| - 1];
      ObjectsOf(objects[..|objects| - 1], assetId) + (if last.assetId == assetId then [last] else [])
  }

  /** {obj.name: obj.id for obj in existing_objects} */
  function NameIndex(existing: seq<DataObject>): map<string, Id> {
    if existing == [] then map[]
    else NameIndex(existing[..|existing| - 1])[existing[|existing| - 1].name := existing[|existing| - 1].id]
  }

  function DiscoveredElement(id: Id, objectId: Id, f: SchemaField): DataElement {
    var t := MappedType(if f.normalizedType == "" then "string" else f.normalizedType);
    DataElement(id, objectId, f.name, Some(t), t, false, f.nullable, f.isPrimaryKey, "", true)
  }

  function DiscoveredElements(objectId: Id, fields: seq<SchemaField>, next: nat): seq<DataElement> {
    if fields == [] then []
    else
      var n := |fields| - 1;
      DiscoveredElements(objectId, fields[..n], next) + [DiscoveredElement(Uuid(next + n), objectId, fields[n])]
  }

  datatype Provision = Provision(objects: seq<DataObject>, names: map<string, Id>, next: nat)

  /** A uuid is drawn for every snapshot; it is used only if the object is not known. */
  function ProvisionOne(assetId: Id, p: Provision, raw: RawSnapshot): Provision {
    var id := Uuid(p.next);
    if raw.objectName in p.names then p.(next := p.next + 1)
    else Provision(
      p.objects + [DataObject(id, assetId, raw.objectName, DiscoveredElements(id, raw.fields, p.next + 1))],
      p.names[raw.objectName := id], p.next + 1 + |raw.fields|)
  }

  function Provisioned(assetId: Id, p: Provision, raws: seq<RawSnapshot>): (r: Provision)
    ensures p.names.Keys <= r.names.Keys
    ensures forall i :: 0 <= i < |raws| ==> raws[i].objectName in r.names
  {
    if raws == [] then p else ProvisionOne(assetId, Provisioned(assetId, p, raws[..|raws| - 1]), raws[|raws| - 1])
  }

  lemma ProvisionedNext(assetId: Id, p: Provision, raws: seq<RawSnapshot>, i: nat)
    requires i < |raws|
    ensures Provisioned(assetId, p, raws[..i + 1]) == ProvisionOne(assetId, Provisioned(assetId, p, raws[..i]), raws[i])
  {
    assert raws[..i + 1][..i] == raws[..i];
  }

  function Identified(names: map<string, Id>, raws: seq<RawSnapshot>): (r: seq<SchemaSnapshot>)
    requires forall i :: 0 <= i < |raws| ==> raws[i].objectName in names
    ensures |r| == |raws|
    ensures forall i :: 0 <= i < |raws| ==> r[i] == SchemaSnapshot(names[raws[i].objectName], raws[i].objectName, raws[i].fields)
  {
    seq(|raws|, i requires 0 <= i < |raws| => SchemaSnapshot(names[raws[i].objectName], raws[i].objectName, raws[i].fields))
  }

  lemma {:induction false} ElementsFollowFields(objectId: Id, fields: seq<SchemaField>, next: nat)
    ensures |DiscoveredElements(objectId, fields, next)| == |fields|
    ensures forall i :: 0 <= i < |fields| ==>
      var e := DiscoveredElements(objectId, fields, next)[i];
      && e.id == Uuid(next + i) && e.objectId == objectId && e.name == fields[i].name
      && e.sourceType == Some(MappedType(fields[i].normalizedType)) && e.destinationType == MappedType(fields[i].normalizedType)
      && e.nullable == fields[i].nullable && !e.required && e.isPrimaryKey == fields[i].isPrimaryKey
      && e.description == "" && e.autoGenerated
  {
    hide ElementTypeOf;
    if fields != [] {
      var n := |fields| - 1;
      ElementsFollowFields(objectId, fields[..n], next);
      NoTypeIsString();
    }
  }

  lemma NoTypeIsString()
    ensures MappedType("") == MappedType("string") == STRING
  {
  }

  method BuildDataElements(objectId: Id, fields: seq<SchemaField>, next: nat) returns (elements: seq<DataElement>)
    ensures elements == DiscoveredElements(objectId, fields, next)
    ensures |elements| == |fields|
    ensures forall i :: 0 <= i < |fields| ==>
      && elements[i].id == Uuid(next + i) && elements[i].objectId == objectId && elements[i].name == fields[i].name
      && elements[i].sourceType == Some(MappedType(fields[i].normalizedType))
      && elements[i].destinationType == MappedType(fields[i].normalizedType)
      && elements[i].nullable == fields[i].nullable && !elements[i].required && elements[i].isPrimaryKey == fields[i].isPrimaryKey
      && elements[i].description == "" && elements[i].autoGenerated
  {
    hide DiscoveredElement, MappedType;
    elements := [];
    for i := 0 to |fields|
      invariant elements == DiscoveredElements(objectId, fields[..i], next)
    {
      assert fields[..i + 1][..i] == fields[..i];
      elements := elements + [DiscoveredElement(Uuid(next + i), objectId, fields[i])];
    }
    assert fields[..|fields|] == fields;
    ElementsFollowFields(objectId, fields, next);
  }

  class DiscoveryProvisioningService {
    const uow: SqlUnitOfWork<Store>

    constructor (uow: SqlUnitOfWork<Store>)
      ensures this.uow == uow
    {
      this.uow := uow;
    }

    method ProvisionMissingObjects(assetId: Id, raws: seq<RawSnapshot>, existing: seq<DataObject>, next: nat)
      returns (updated: seq<SchemaSnapshot>, newNext: nat)
      requires uow.session.Some?
      modifies uow
      ensures var p := Provisioned(assetId, Provision(old(uow.session.value.objects), NameIndex(existing), next), raws);
        && updated == Identified(p.names, raws) && newNext == p.next
        && uow.State() == old(uow.State()).(session := Some(old(uow.session.value).(objects := p.objects)))
    {
      hide DiscoveredElements, NameIndex;
      var existingNames := NameIndex(existing);
      newNext := next;
      ghost var store := uow.session.value;
      ghost var start := Provision(store.objects, existingNames, next);
      for i := 0 to |raws|
        invariant uow.session.Some?
        invariant Provisioned(assetId, start, raws[..i]) == Provision(uow.session.value.objects, existingNames, newNext)
        invariant uow.State() == old(uow.State()).(session := Some(store.(objects := uow.session.value.objects)))
      {
        var snap := raws[i];
        ghost var p := Provision(uow.session.value.objects, existingNames, newNext);
        ProvisionedNext(assetId, start, raws, i);
        var objId := Uuid(newNext);
        newNext := newNext + 1;
        if snap.objectName !in existingNames {
          var elements := BuildDataElements(objId, snap.fields, newNext);
          newNext := newNext + |snap.fields|;
          var s := uow.session.value;
          var ok := uow.Stage(s.(objects := s.objects + [DataObject(objId, assetId, snap.objectName, elements)]));
          existingNames := existingNames[snap.objectName := objId];
        }
        assert Provision(uow.session.value.objects, existingNames, newNext) == ProvisionOne(assetId, p, snap);
      }
      assert raws[..|raws|] == raws;
      updated := [];
      for i := 0 to |raws|
        invariant updated == Identified(existingNames, raws)[..i]
      {
        var snap := raws[i];
        updated := updated + [SchemaSnapshot(existingNames[snap.objectName], snap.objectName, snap.fields)];
      }
    }
  }

  // ---------- Drift over all snapshots of a run ----------

  function SnapshotIndex(snapshots: seq<SchemaSnapshot>): map<Id, SchemaSnapshot> {
    if snapshots == [] then map[]
    else SnapshotIndex(snapshots[..|snapshots| - 1])[snapshots[|snapshots| - 1].objectId := snapshots[|snapshots| - 1]]
  }

  function Lookup(prev: map<Id, SchemaSnapshot>, id: Id): Option<SchemaSnapshot> {
    if id in prev then Some(prev[id]) else None
  }

  function Drifts(prev: map<Id, SchemaSnapshot>, snapshots: seq<SchemaSnapshot>): seq<DriftEvent> {
    if snapshots == [] then []
    else
      var snap := snapshots[|snapshots| - 1];
      Drifts(prev, snapshots[..|snapshots| - 1]) + DiffOptional(Lookup(prev, snap.objectId), Some(snap))
  }

  method ComputeDrifts(prev: map<Id, SchemaSnapshot>, snapshots: seq<SchemaSnapshot>) returns (events: seq<DriftEvent>)
    ensures events == Drifts(prev, snapshots)
  {
    events := [];
    for i := 0 to |snapshots|
      invariant events == Drifts(prev, snapshots[..i])
    {
      assert snapshots[..i + 1][..i] == snapshots[..i];
      var more := ComputeDiff(Lookup(prev, snapshots[i].objectId), Some(snapshots[i]));
      events := events + more;
    }
    assert snapshots[..|snapshots|] == snapshots;
  }

  // ---------- Self-healing and approvals ----------

  function EventsOf(events: seq<DriftEvent>, objectId: Id, critical: bool): seq<DriftEvent> {
    if events == [] then []
    else
      var last := events[|events| - 1];
      EventsOf(events[..|events| - 1], objectId, critical)
      + (if last.objectId == objectId && last.IsCritical() == critical then [last] else [])
  }

  function ApprovalFor(id: Id, runId: Id, assetId: Id, objectId: Id, ev: DriftEvent): DriftApproval {
    DriftApproval(id, runId, assetId, objectId, ev.changeType, ev.fieldName, UNDECIDED)
  }

  function Filed(runId: Id, assetId: Id, objectId: Id, events: seq<DriftEvent>, next: nat): seq<DriftApproval> {
    if events == [] then []
    else
      var n := |events| - 1;
      Filed(runId, assetId, objectId, events[..n], next) + [ApprovalFor(Uuid(next + n), runId, assetId, objectId, events[n])]
  }

  lemma {:induction false} FiledAre(runId: Id, assetId: Id, objectId: Id, events: seq<DriftEvent>, next: nat)
    ensures |Filed(runId, assetId, objectId, events, next)| == |events|
    ensures forall i :: 0 <= i < |events| ==> Filed(runId, assetId, objectId, events, next)[i] == DriftApproval(
      Uuid(next + i), runId, assetId, objectId, events[i].changeType, events[i].fieldName, UNDECIDED)
  {
    if events != [] {
      FiledAre(runId, assetId, objectId, events[..|events| - 1], next);
    }
  }

  datatype Repair = Repair(objects: seq<DataObject>, approvals: seq<DriftApproval>, next: nat, error: Option<Error>)

  /** A snapshot is applied for informative drift, or when there is nothing to compare with. */
  predicate AppliesNow(first: bool, events: seq<DriftEvent>, objectId: Id) {
    first || EventsOf(events, objectId, false) != []
  }

  function RepairOne(runId: Id, assetId: Id, first: bool, events: seq<DriftEvent>, r: Repair, snap: SchemaSnapshot): Repair {
    if r.error.Some? then r
    else
      var a := if AppliesNow(first, events, snap.objectId) then Applied(r.objects, snap.objectId, snap.fields, r.next)
               else Application(r.objects, r.next, None);
      if a.error.Some? then Repair(a.objects, r.approvals, a.next, a.error)
      else
        var critical := EventsOf(events, snap.objectId, true);
        Repair(a.objects, r.approvals + Filed(runId, assetId, snap.objectId, critical, a.next), a.next + |critical|, None)
  }

  function Repaired(runId: Id, assetId: Id, first: bool, events: seq<DriftEvent>, r: Repair, snapshots: seq<SchemaSnapshot>): Repair {
    if snapshots == [] then r
    else RepairOne(runId, assetId, first, events, Repaired(runId, assetId, first, events, r, snapshots[..|snapshots| - 1]),
                   snapshots[|snapshots| - 1])
  }

  lemma {:induction false} RepairStopped(runId: Id, assetId: Id, first: bool, events: seq<DriftEvent>, r: Repair,
                                         snapshots: seq<SchemaSnapshot>, i: nat)
    requires i <= |snapshots| && Repaired(runId, assetId, first, events, r, snapshots[..i]).error.Some?
    ensures Repaired(runId, assetId, first, events, r, snapshots) == Repaired(runId, assetId, first, events, r, snapshots[..i])
    decreases |snapshots| - i
  {
    if i < |snapshots| {
      assert snapshots[..i + 1][..i] == snapshots[..i];
      RepairStopped(runId, assetId, first, events, r, snapshots, i + 1);
    } else {
      assert snapshots[..i] == snapshots;
    }
  }

  lemma RepairedStep(runId: Id, assetId: Id, first: bool, events: seq<DriftEvent>, r: Repair, snapshots: seq<SchemaSnapshot>, i: nat)
    requires i < |snapshots|
    ensures Repaired(runId, assetId, first, events, r, snapshots[..i + 1])
         == RepairOne(runId, assetId, first, events, Repaired(runId, assetId, first, events, r, snapshots[..i]), snapshots[i])
  {
    assert snapshots[..i + 1][..i] == snapshots[..i];
  }

  lemma AppliedKeepsIds(objects: seq<DataObject>, objectId: Id, fields: seq<SchemaField>, next: nat)
    requires UniqueIds(objects)
    ensures UniqueIds(Applied(objects, objectId, fields, next).objects)
  {
  }

  class MetadataSelfHealingService {
    const uow: SqlUnitOfWork<Store>

    constructor (uow: SqlUnitOfWork<Store>)
      ensures this.uow == uow
    {
      this.uow := uow;
    }

    /** The inner loop: one approval per critical event. */
    method FileApprovals(runId: Id, assetId: Id, objectId: Id, critical: seq<DriftEvent>, next: nat)
      requires uow.session.Some?
      modifies uow
      ensures uow.State() == old(uow.State()).(session := Some(old(uow.session.value).(
                approvals := old(uow.session.value.approvals) + Filed(runId, assetId, objectId, critical, next))))
      ensures var filed := uow.session.value.approvals[|old(uow.session.value.approvals)|..];
        && |filed| == |critical|
        && forall i :: 0 <= i < |filed| ==> filed[i] == DriftApproval(
          Uuid(next + i), runId, assetId, objectId, critical[i].changeType, critical[i].fieldName, UNDECIDED)
    {
      hide ApprovalFor;
      ghost var store := uow.session.value;
      assert store.approvals + [] == store.approvals;
      for i := 0 to |critical|
        invariant uow.session.Some?
        invariant uow.State() == old(uow.State()).(session := Some(store.(
                    approvals := store.approvals + Filed(runId, assetId, objectId, critical[..i], next))))
      {
        assert critical[..i + 1][..i] == critical[..i];
        var s := uow.session.value;
        var ok := uow.Stage(s.(approvals := s.approvals + [ApprovalFor(Uuid(next + i), runId, assetId, objectId, critical[i])]));
        assert store.approvals + Filed(runId, assetId, objectId, critical[..i + 1], next)
            == s.approvals + [ApprovalFor(Uuid(next + i), runId, assetId, objectId, critical[i])];
      }
      assert critical[..|critical|] == critical;
      FiledAre(runId, assetId, objectId, critical, next);
      ghost var filed := Filed(runId, assetId, objectId, critical, next);
      assert (store.approvals + filed)[|store.approvals|..] == filed;
    }

    /** One turn of the outer loop. */
    method HealSnapshot(
      assetId: Id, runId: Id, snap: SchemaSnapshot, driftEvents: seq<DriftEvent>, first: bool, next: nat)
      returns (newNext: nat, error: Option<Error>)
      requires uow.session.Some? && UniqueIds(uow.session.value.objects)
      modifies uow
      ensures var s := old(uow.session.value);
        var r := RepairOne(runId, assetId, first, driftEvents, Repair(s.objects, s.approvals, next, None), snap);
        && newNext == r.next && error == r.error && UniqueIds(r.objects)
        && uow.State() == old(uow.State()).(session := Some(s.(objects := r.objects, approvals := r.approvals)))
    {
      hide Applied, UniqueIds, EventsOf, Filed;
      newNext, error := next, None;
      var informativeEvents := EventsOf(driftEvents, snap.objectId, false);
      var criticalEvents := EventsOf(driftEvents, snap.objectId, true);
      if informativeEvents != [] || first {
        AppliedKeepsIds(uow.session.value.objects, snap.objectId, snap.fields, next);
        var service := new DataObjectService(uow);
        newNext, error := service.ApplySchemaSnapshot(snap.objectId, snap.fields, next);
        if error.Some? {
          return;
        }
      }
      FileApprovals(runId, assetId, snap.objectId, criticalEvents, newNext);
      newNext := newNext + |criticalEvents|;
    }

    method ApplySelfHealingAndApprovals(
      assetId: Id, runId: Id, snapshots: seq<SchemaSnapshot>, driftEvents: seq<DriftEvent>, first: bool, next: nat)
      returns (newNext: nat, error: Option<Error>)
      requires uow.session.Some? && UniqueIds(uow.session.value.objects)
      modifies uow
      ensures var s := old(uow.session.value);
        var r := Repaired(runId, assetId, first, driftEvents, Repair(s.objects, s.approvals, next, None), snapshots);
        && newNext == r.next && error == r.error
        && uow.State() == old(uow.State()).(session := Some(s.(objects := r.objects, approvals := r.approvals)))
    {
      ghost var store := uow.session.value;
      ghost var start := Repair(store.objects, store.approvals, next, None);
      ghost var r := start;
      hide UniqueIds, RepairOne;
      newNext, error := next, None;
      for i := 0 to |snapshots|
        invariant r == Repaired(runId, assetId, first, driftEvents, start, snapshots[..i])
        invariant error.None? && r.error.None? && newNext == r.next && UniqueIds(r.objects)
        invariant uow.State() == old(uow.State()).(session := Some(store.(objects := r.objects, approvals := r.approvals)))
      {
        RepairedStep(runId, assetId, first, driftEvents, start, snapshots, i);
        r := RepairOne(runId, assetId, first, driftEvents, r, snapshots[i]);
        newNext, error := HealSnapshot(assetId, runId, snapshots[i], driftEvents, first, newNext);
        if error.Some? {
          RepairStopped(runId, assetId, first, driftEvents, start, snapshots, i + 1);
          return;
        }
      }
      assert snapshots[..|snapshots|] == snapshots;
    }
  }
}
