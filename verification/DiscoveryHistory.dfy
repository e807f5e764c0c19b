/** Discovery runs and decisions over whole histories of the platform database. */
module DiscoveryHistory {
  import opened Wrappers
  import opened Schema
  import opened SchemaDiffer
  import opened SchemaDrift
  import opened PlatformStore
  import opened ObjectService
  import opened Discovery
  import opened DiscoveryUseCases

  // ---------- Well-kept object tables ----------

  ghost predicate NamesUnique(objects: seq<DataObject>) {
    forall i, j :: 0 <= i < j < |objects| && objects[i].assetId == objects[j].assetId ==> objects[i].name != objects[j].name
  }

  ghost predicate ObjectsOk(objects: seq<DataObject>, next: nat) {
    && UniqueIds(objects) && NamesUnique(objects)
    && (forall i :: 0 <= i < |objects| && objects[i].id.Uuid? ==> objects[i].id.n < next)
    && (forall i :: 0 <= i < |objects| ==> ElementsOk(objects[i].elements, next))
  }

  lemma ElementsOkLater(elements: seq<DataElement>, next: nat, later: nat)
    requires ElementsOk(elements, next) && next <= later
    ensures ElementsOk(elements, later)
  {
  }

  lemma ObjectsOkLater(objects: seq<DataObject>, next: nat, later: nat)
    requires ObjectsOk(objects, next) && next <= later
    ensures ObjectsOk(objects, later)
  {
    hide ElementsOk;
    forall i | 0 <= i < |objects|
      ensures ElementsOk(objects[i].elements, later)
    {
      ElementsOkLater(objects[i].elements, next, later);
    }
  }

  // ---------- Provisioning gives every snapshot its object ----------

  /** The index holds exactly the asset's objects. */
  ghost predicate IndexOk(assetId: Id, objects: seq<DataObject>, names: map<string, Id>) {
    && (forall i :: 0 <= i < |objects| && objects[i].assetId == assetId ==>
          objects[i].name in names && names[objects[i].name] == objects[i].id)
    && (forall n :: n in names ==> Indexed(assetId, objects, names, n))
  }

  ghost predicate Indexed(assetId: Id, objects: seq<DataObject>, names: map<string, Id>, n: string)
    requires n in names
  {
    exists i :: 0 <= i < |objects| && objects[i].assetId == assetId && objects[i].name == n && objects[i].id == names[n]
  }

  lemma {:induction false} NameIndexOk(assetId: Id, objects: seq<DataObject>)
    requires NamesUnique(objects)
    ensures IndexOk(assetId, objects, NameIndex(ObjectsOf(objects, assetId)))
  {
    if objects == [] {
      EmptyIndex(assetId);
    } else {
      hide IndexOk, ObjectsOf, NameIndex;
      var front, last := objects[..|objects| - 1], objects[|objects| - 1];
      NameIndexOk(assetId, front);
      var names := NameIndex(ObjectsOf(front, assetId));
      NameIndexSnoc(assetId, front, last);
      assert objects == front + [last];
      if last.assetId == assetId {
        IndexGrows(assetId, front, last, names);
      } else {
        IndexUnchanged(assetId, front, last, names);
      }
    }
  }

  lemma NameIndexSnoc(assetId: Id, front: seq<DataObject>, last: DataObject)
    ensures NameIndex(ObjectsOf(front + [last], assetId))
         == if last.assetId == assetId then NameIndex(ObjectsOf(front, assetId))[last.name := last.id]
            else NameIndex(ObjectsOf(front, assetId))
  {
    assert (front + [last])[..|front|] == front;
    var mine := ObjectsOf(front, assetId);
    assert (mine + [last])[..|mine|] == mine && mine + [] == mine;
  }

  lemma EmptyIndex(assetId: Id)
    ensures IndexOk(assetId, [], map[])
  {
  }

  lemma IndexUnchanged(assetId: Id, objects: seq<DataObject>, o: DataObject, names: map<string, Id>)
    requires IndexOk(assetId, objects, names) && o.assetId != assetId
    ensures IndexOk(assetId, objects + [o], names)
  {
    var all := objects + [o];
    forall n | n in names
      ensures Indexed(assetId, all, names, n)
    {
      assert Indexed(assetId, objects, names, n);
      var i :| 0 <= i < |objects| && objects[i].assetId == assetId && objects[i].name == n && objects[i].id == names[n];
      assert all[i] == objects[i];
    }
  }

  lemma IndexGrows(assetId: Id, objects: seq<DataObject>, o: DataObject, names: map<string, Id>)
    requires IndexOk(assetId, objects, names) && o.assetId == assetId && NamesUnique(objects + [o])
    ensures IndexOk(assetId, objects + [o], names[o.name := o.id])
  {
    var all, more := objects + [o], names[o.name := o.id];
    assert all[|objects|] == o;
    forall n | n in more
      ensures Indexed(assetId, all, more, n)
    {
      if n == o.name {
        assert all[|objects|].name == n && all[|objects|].id == more[n];
      } else {
        assert Indexed(assetId, objects, names, n);
        var i :| 0 <= i < |objects| && objects[i].assetId == assetId && objects[i].name == n && objects[i].id == names[n];
        assert all[i] == objects[i];
        assert all[i].name != o.name;
      }
    }
    forall i | 0 <= i < |all| && all[i].assetId == assetId
      ensures all[i].name in more && more[all[i].name] == all[i].id
    {
      if i < |objects| {
        assert all[i] == objects[i] && all[i].name != all[|objects|].name;
      }
    }
  }

  lemma {:induction false} DiscoveredElementsAre(objectId: Id, fields: seq<SchemaField>, next: nat)
    ensures |DiscoveredElements(objectId, fields, next)| == |fields|
    ensures forall i :: 0 <= i < |fields| ==> DiscoveredElements(objectId, fields, next)[i] == DiscoveredElement(Uuid(next + i), objectId, fields[i])
  {
    hide DiscoveredElement;
    if fields != [] {
      DiscoveredElementsAre(objectId, fields[..|fields| - 1], next);
    }
  }

  lemma DiscoveredElementsOk(objectId: Id, fields: seq<SchemaField>, next: nat)
    requires DistinctFields(fields)
    ensures ElementsOk(DiscoveredElements(objectId, fields, next), next + |fields|)
  {
    hide DiscoveredElements;
    DiscoveredElementsAre(objectId, fields, next);
  }

  lemma NewObjectOk(assetId: Id, p: Provision, raw: RawSnapshot)
    requires ObjectsOk(p.objects, p.next) && IndexOk(assetId, p.objects, p.names) && DistinctFields(raw.fields)
    requires raw.objectName !in p.names
    ensures var r := ProvisionOne(assetId, p, raw);
      ObjectsOk(r.objects, r.next) && IndexOk(assetId, r.objects, r.names)
  {
    hide ElementsOk, DiscoveredElements, IndexOk;
    var r := ProvisionOne(assetId, p, raw);
    var o := r.objects[|p.objects|];
    DiscoveredElementsOk(o.id, raw.fields, p.next + 1);
    ObjectsOkLater(p.objects, p.next, r.next);
    AbsentFromIndex(assetId, p, raw.objectName);
    IndexGrows(assetId, p.objects, o, p.names);
  }

  lemma AbsentFromIndex(assetId: Id, p: Provision, name: string)
    requires IndexOk(assetId, p.objects, p.names) && name !in p.names
    ensures forall i :: 0 <= i < |p.objects| && p.objects[i].assetId == assetId ==> p.objects[i].name != name
  {
  }

  /** Provisioning keeps the table in order, keeps old rows, and indexes every snapshot. */
  lemma {:induction false} ProvisionedOk(assetId: Id, p: Provision, raws: seq<RawSnapshot>)
    requires ObjectsOk(p.objects, p.next) && IndexOk(assetId, p.objects, p.names)
    requires forall i :: 0 <= i < |raws| ==> DistinctFields(raws[i].fields)
    ensures var r := Provisioned(assetId, p, raws);
      && ObjectsOk(r.objects, r.next) && IndexOk(assetId, r.objects, r.names) && p.next <= r.next
      && |p.objects| <= |r.objects| && r.objects[..|p.objects|] == p.objects
  {
    hide ObjectsOk, IndexOk;
    if raws != [] {
      var front, last := raws[..|raws| - 1], raws[|raws| - 1];
      ProvisionedOk(assetId, p, front);
      var q := Provisioned(assetId, p, front);
      if last.objectName in q.names {
        ObjectsOkLater(q.objects, q.next, q.next + 1);
      } else {
        NewObjectOk(assetId, q, last);
      }
    }
  }

  lemma FindInPrefix(objects: seq<DataObject>, n: nat, id: Id)
    requires n <= |objects| && FindObject(objects[..n], id).Some?
    ensures FindObject(objects, id) == FindObject(objects[..n], id)
  {
    if n > 0 && objects[0].id != id {
      assert objects[..n][1..] == objects[1..][..n - 1];
      FindInPrefix(objects[1..], n - 1, id);
    }
  }

  // ---------- The events of a run, object by object ----------

  function Judged(events: seq<DriftEvent>, critical: bool): seq<DriftEvent> {
    if events == [] then []
    else
      var last := events[|events| - 1];
      Judged(events[..|events| - 1], critical) + (if last.IsCritical() == critical then [last] else [])
  }

  lemma {:induction false} EventsOfConcat(a: seq<DriftEvent>, b: seq<DriftEvent>, id: Id, critical: bool)
    ensures EventsOf(a + b, id, critical) == EventsOf(a, id, critical) + EventsOf(b, id, critical)
  {
    if b == [] {
      assert a + b == a;
    } else {
      EventsOfConcat(a, b[..|b| - 1], id, critical);
      assert (a + b)[..|a + b| - 1] == a + b[..|b| - 1];
    }
  }

  lemma {:induction false} JudgedConcat(a: seq<DriftEvent>, b: seq<DriftEvent>, critical: bool)
    ensures Judged(a + b, critical) == Judged(a, critical) + Judged(b, critical)
  {
    if b == [] {
      assert a + b == a;
    } else {
      JudgedConcat(a, b[..|b| - 1], critical);
      assert (a + b)[..|a + b| - 1] == a + b[..|b| - 1];
    }
  }

  lemma {:induction false} EventsOfOwn(events: seq<DriftEvent>, id: Id, other: Id, critical: bool)
    requires forall ev :: ev in events ==> ev.objectId == id
    ensures EventsOf(events, other, critical) == if other == id then Judged(events, critical) else []
  {
    if events != [] {
      var front, last := events[..|events| - 1], events[|events| - 1];
      assert events == front + [last];
      EventsOfOwn(front, id, other, critical);
    }
  }

  function SnapshotEvents(prev: map<Id, SchemaSnapshot>, snap: SchemaSnapshot): seq<DriftEvent> {
    DiffOptional(Lookup(prev, snap.objectId), Some(snap))
  }

  lemma SnapshotEventsAreItsOwn(prev: map<Id, SchemaSnapshot>, snap: SchemaSnapshot)
    requires snap.objectId in prev ==> prev[snap.objectId].objectId == snap.objectId
    ensures forall ev :: ev in SnapshotEvents(prev, snap) ==> ev.objectId == snap.objectId && !ev.changeType.OBJECT_REMOVED?
  {
    hide Index;
    forall ev | ev in SnapshotEvents(prev, snap)
      ensures ev.objectId == snap.objectId && !ev.changeType.OBJECT_REMOVED?
    {
      if snap.objectId in prev {
        DiffHolds(prev[snap.objectId], snap, ev);
      }
    }
  }

  ghost predicate SnapshotsDistinct(snapshots: seq<SchemaSnapshot>) {
    forall i, j :: 0 <= i < j < |snapshots| ==> snapshots[i].objectId != snapshots[j].objectId
  }

  ghost predicate PrevOk(prev: map<Id, SchemaSnapshot>) {
    forall id :: id in prev ==> prev[id].objectId == id
  }

  /** With distinct objects, the events filtered for an object are those of its own snapshot. */
  lemma {:induction false} EventsOfSnapshot(prev: map<Id, SchemaSnapshot>, snapshots: seq<SchemaSnapshot>, i: nat, critical: bool)
    requires PrevOk(prev) && SnapshotsDistinct(snapshots) && i < |snapshots|
    ensures EventsOf(Drifts(prev, snapshots), snapshots[i].objectId, critical) == Judged(SnapshotEvents(prev, snapshots[i]), critical)
  {
    hide DiffOptional;
    var front, last := snapshots[..|snapshots| - 1], snapshots[|snapshots| - 1];
    var id := snapshots[i].objectId;
    EventsOfConcat(Drifts(prev, front), SnapshotEvents(prev, last), id, critical);
    SnapshotEventsAreItsOwn(prev, last);
    EventsOfOwn(SnapshotEvents(prev, last), last.objectId, id, critical);
    if i < |front| {
      EventsOfSnapshot(prev, front, i, critical);
    } else {
      OtherSnapshotsEvents(prev, front, id, critical);
    }
  }

  lemma {:induction false} OtherSnapshotsEvents(prev: map<Id, SchemaSnapshot>, snapshots: seq<SchemaSnapshot>, id: Id, critical: bool)
    requires PrevOk(prev)
    requires forall i :: 0 <= i < |snapshots| ==> snapshots[i].objectId != id
    ensures EventsOf(Drifts(prev, snapshots), id, critical) == []
  {
    hide DiffOptional;
    if snapshots != [] {
      var front, last := snapshots[..|snapshots| - 1], snapshots[|snapshots| - 1];
      OtherSnapshotsEvents(prev, front, id, critical);
      EventsOfConcat(Drifts(prev, front), SnapshotEvents(prev, last), id, critical);
      SnapshotEventsAreItsOwn(prev, last);
      EventsOfOwn(SnapshotEvents(prev, last), last.objectId, id, critical);
    }
  }

  /** A discovery never reports a removed object: it only looks at what is still there. */
  lemma {:induction false} RemovedObjectsGoUnreported(prev: map<Id, SchemaSnapshot>, snapshots: seq<SchemaSnapshot>)
    requires PrevOk(prev)
    ensures forall ev :: ev in Drifts(prev, snapshots) ==> !ev.changeType.OBJECT_REMOVED?
  {
    hide DiffOptional;
    if snapshots != [] {
      RemovedObjectsGoUnreported(prev, snapshots[..|snapshots| - 1]);
      SnapshotEventsAreItsOwn(prev, snapshots[|snapshots| - 1]);
    }
  }

  // ---------- Approvals filed by a run ----------

  /** Approval a asks for a decision on event ev. */
  predicate Asks(a: DriftApproval, ev: DriftEvent, runId: Id, assetId: Id) {
    && a.objectId == ev.objectId && a.fieldName == ev.fieldName && a.changeType == ev.changeType
    && a.discoveryRunId == runId && a.assetId == assetId && a.decision == UNDECIDED
  }

  lemma {:induction false} FiledAsks(runId: Id, assetId: Id, objectId: Id, events: seq<DriftEvent>, next: nat)
    requires forall i :: 0 <= i < |events| ==> events[i].objectId == objectId
    ensures |Filed(runId, assetId, objectId, events, next)| == |events|
    ensures forall i :: 0 <= i < |events| ==> Asks(Filed(runId, assetId, objectId, events, next)[i], events[i], runId, assetId)
  {
    if events != [] {
      FiledAsks(runId, assetId, objectId, events[..|events| - 1], next);
    }
  }

  lemma {:induction false} JudgedOwn(events: seq<DriftEvent>, id: Id, critical: bool)
    requires forall ev :: ev in events ==> ev.objectId == id
    ensures forall i :: 0 <= i < |Judged(events, critical)| ==> Judged(events, critical)[i].objectId == id
  {
    if events != [] {
      var front, last := events[..|events| - 1], events[|events| - 1];
      assert events == front + [last];
      JudgedOwn(front, id, critical);
    }
  }

  /** One approval per critical event, in order. */
  ghost predicate FiledFor(old_: seq<DriftApproval>, new_: seq<DriftApproval>, critical: seq<DriftEvent>, runId: Id, assetId: Id) {
    && |new_| == |old_| + |critical| && new_[..|old_|] == old_
    && forall i :: 0 <= i < |critical| ==> Asks(new_[|old_| + i], critical[i], runId, assetId)
  }

  lemma FiledForMore(old_: seq<DriftApproval>, new_: seq<DriftApproval>, critical: seq<DriftEvent>, runId: Id, assetId: Id,
                     more: seq<DriftApproval>, events: seq<DriftEvent>)
    requires FiledFor(old_, new_, critical, runId, assetId)
    requires |more| == |events| && forall i :: 0 <= i < |events| ==> Asks(more[i], events[i], runId, assetId)
    ensures FiledFor(old_, new_ + more, critical + events, runId, assetId)
  {
    hide Asks;
    var all, evs := new_ + more, critical + events;
    assert all[..|old_|] == new_[..|old_|];
    forall i | 0 <= i < |evs|
      ensures Asks(all[|old_| + i], evs[i], runId, assetId)
    {
      if i >= |critical| {
        assert all[|old_| + i] == more[i - |critical|];
      }
    }
  }

  lemma NothingFiled(approvals: seq<DriftApproval>, runId: Id, assetId: Id)
    ensures FiledFor(approvals, approvals, [], runId, assetId)
  {
  }

  lemma RepairOneFiles(runId: Id, assetId: Id, first: bool, events: seq<DriftEvent>, r: Repair, snap: SchemaSnapshot) returns (from: nat)
    requires RepairOne(runId, assetId, first, events, r, snap).error.None?
    ensures r.error.None?
    ensures RepairOne(runId, assetId, first, events, r, snap).approvals
         == r.approvals + Filed(runId, assetId, snap.objectId, EventsOf(events, snap.objectId, true), from)
  {
    from := if AppliesNow(first, events, snap.objectId) then Applied(r.objects, snap.objectId, snap.fields, r.next).next else r.next;
  }

  /** A run that is not stopped by an error files exactly one pending approval per critical event. */
  lemma {:induction false} OneApprovalPerCriticalEvent(
    runId: Id, assetId: Id, prev: map<Id, SchemaSnapshot>, first: bool, r: Repair, snapshots: seq<SchemaSnapshot>, k: nat)
    requires PrevOk(prev) && SnapshotsDistinct(snapshots) && k <= |snapshots|
    requires Repaired(runId, assetId, first, Drifts(prev, snapshots), r, snapshots[..k]).error.None?
    ensures FiledFor(r.approvals, Repaired(runId, assetId, first, Drifts(prev, snapshots), r, snapshots[..k]).approvals,
                     Judged(Drifts(prev, snapshots[..k]), true), runId, assetId)
  {
    hide RepairOne, DiffOptional, Asks, FiledFor, Filed, EventsOf;
    var events := Drifts(prev, snapshots);
    if k == 0 {
      NothingFiled(r.approvals, runId, assetId);
    } else {
      RepairedStep(runId, assetId, first, events, r, snapshots, k - 1);
      var snap := snapshots[k - 1];
      var before := Repaired(runId, assetId, first, events, r, snapshots[..k - 1]);
      var from := RepairOneFiles(runId, assetId, first, events, before, snap);
      OneApprovalPerCriticalEvent(runId, assetId, prev, first, r, snapshots, k - 1);
      var own := SnapshotEvents(prev, snap);
      assert snapshots[..k][..k - 1] == snapshots[..k - 1];
      JudgedConcat(Drifts(prev, snapshots[..k - 1]), own, true);
      EventsOfSnapshot(prev, snapshots, k - 1, true);
      SnapshotEventsAreItsOwn(prev, snap);
      JudgedOwn(own, snap.objectId, true);
      FiledAsks(runId, assetId, snap.objectId, Judged(own, true), from);
      FiledForMore(r.approvals, before.approvals, Judged(Drifts(prev, snapshots[..k - 1]), true), runId, assetId,
                   Filed(runId, assetId, snap.objectId, Judged(own, true), from), Judged(own, true));
    }
  }

  // ---------- What a run does to the objects ----------

  /** Two object tables with the same rows up to their elements. */
  ghost predicate SameHeads(a: seq<DataObject>, b: seq<DataObject>) {
    forall id :: SameHead(FindObject(a, id), FindObject(b, id))
  }

  predicate SameHead(a: Option<DataObject>, b: Option<DataObject>) {
    match (a, b)
    case (None, None) => true
    case (Some(x), Some(y)) => x.id == y.id && x.assetId == y.assetId && x.name == y.name
    case _ => false
  }

  /** The elements the table holds for an object. */
  function ElementsOf(objects: seq<DataObject>, id: Id): seq<DataElement> {
    match FindObject(objects, id)
    case None => []
    case Some(o) => o.elements
  }

  lemma WithElementsOk(objects: seq<DataObject>, id: Id, elements: seq<DataElement>, next: nat, later: nat)
    requires ObjectsOk(objects, next) && next <= later && ElementsOk(elements, later)
    ensures ObjectsOk(WithElements(objects, id, elements), later)
  {
    hide ElementsOk;
    ObjectsOkLater(objects, next, later);
  }

  /** A successful application: the object is in step, every other object is as it was. */
  lemma AppliedFacts(objects: seq<DataObject>, id: Id, fields: seq<SchemaField>, next: nat)
    requires ObjectsOk(objects, next) && DistinctFields(fields)
    requires Applied(objects, id, fields, next).error.None?
    ensures var r := Applied(objects, id, fields, next);
      && ObjectsOk(r.objects, r.next) && next <= r.next && SameHeads(objects, r.objects)
      && InStep(ElementsOf(r.objects, id), fields)
      && (forall other :: other != id ==> ElementsOf(r.objects, other) == ElementsOf(objects, other))
  {
    hide ObjectsOk, InStep, Healed, ElementsOk, WithElements;
    var o := FindObject(objects, id).value;
    FoundElementsOk(objects, id, next);
    ApplyConverges(id, o.elements, next, fields);
    var h := Healed(id, o.elements, next, fields);
    WithElementsOk(objects, id, h.elements, next, h.next);
    forall other
      ensures SameHead(FindObject(objects, other), FindObject(WithElements(objects, id, h.elements), other))
      ensures ElementsOf(WithElements(objects, id, h.elements), other) == if other == id then h.elements else ElementsOf(objects, other)
    {
      FindAfterWithElements(objects, id, h.elements, other);
      FoundObject(objects, other);
    }
  }

  lemma FoundElementsOk(objects: seq<DataObject>, id: Id, next: nat)
    requires ObjectsOk(objects, next) && FindObject(objects, id).Some?
    ensures ElementsOk(FindObject(objects, id).value.elements, next)
  {
    hide ElementsOk, UniqueIds, NamesUnique;
    FoundObject(objects, id);
    var o := FindObject(objects, id).value;
    var i :| 0 <= i < |objects| && objects[i] == o;
  }

  /** The objects a run writes to. */
  function Touched(first: bool, events: seq<DriftEvent>, snapshots: seq<SchemaSnapshot>): set<Id> {
    set s | s in snapshots && AppliesNow(first, events, s.objectId) :: s.objectId
  }

  ghost predicate RepairFacts(first: bool, events: seq<DriftEvent>, before: Repair, after: Repair, snapshots: seq<SchemaSnapshot>) {
    && ObjectsOk(after.objects, after.next) && before.next <= after.next
    && SameHeads(before.objects, after.objects)
    && (forall id :: id !in Touched(first, events, snapshots) ==> ElementsOf(after.objects, id) == ElementsOf(before.objects, id))
    && (forall i :: 0 <= i < |snapshots| && AppliesNow(first, events, snapshots[i].objectId) ==>
          InStep(ElementsOf(after.objects, snapshots[i].objectId), snapshots[i].fields))
  }

  lemma NothingRepaired(first: bool, events: seq<DriftEvent>, r: Repair)
    requires ObjectsOk(r.objects, r.next)
    ensures RepairFacts(first, events, r, r, [])
  {
  }

  lemma TouchedStep(first: bool, events: seq<DriftEvent>, front: seq<SchemaSnapshot>, snap: SchemaSnapshot)
    ensures Touched(first, events, front + [snap]) ==
      Touched(first, events, front) + (if AppliesNow(first, events, snap.objectId) then {snap.objectId} else {})
  {
    hide AppliesNow;
    var all := front + [snap];
    forall id
      ensures id in Touched(first, events, all) <==>
        id in Touched(first, events, front) || (AppliesNow(first, events, snap.objectId) && id == snap.objectId)
    {
      if id in Touched(first, events, all) {
        var s :| s in all && AppliesNow(first, events, s.objectId) && s.objectId == id;
        assert s in front || s == snap;
      }
      if id in Touched(first, events, front) {
        var s :| s in front && AppliesNow(first, events, s.objectId) && s.objectId == id;
        assert s in all;
      }
      assert snap in all;
    }
  }

  lemma HeadsCompose(a: seq<DataObject>, b: seq<DataObject>, c: seq<DataObject>)
    requires SameHeads(a, b) && SameHeads(b, c)
    ensures SameHeads(a, c)
  {
    hide FindObject;
    forall id
      ensures SameHead(FindObject(a, id), FindObject(c, id))
    {
      assert SameHead(FindObject(a, id), FindObject(b, id)) && SameHead(FindObject(b, id), FindObject(c, id));
    }
  }

  lemma RepairOneFacts(runId: Id, assetId: Id, first: bool, events: seq<DriftEvent>, before: Repair, r: Repair,
                       front: seq<SchemaSnapshot>, snap: SchemaSnapshot)
    requires r.error.None? && RepairFacts(first, events, before, r, front)
    requires DistinctFields(snap.fields) && forall i :: 0 <= i < |front| ==> front[i].objectId != snap.objectId
    requires RepairOne(runId, assetId, first, events, r, snap).error.None?
    ensures RepairFacts(first, events, before, RepairOne(runId, assetId, first, events, r, snap), front + [snap])
  {
    hide Applied, ObjectsOk, InStep, SameHeads, AppliesNow, ElementsOf, EventsOf, Filed, Touched, DistinctFields;
    var after := RepairOne(runId, assetId, first, events, r, snap);
    TouchedStep(first, events, front, snap);
    var n := |EventsOf(events, snap.objectId, true)|;
    if AppliesNow(first, events, snap.objectId) {
      AppliedFacts(r.objects, snap.objectId, snap.fields, r.next);
      var a := Applied(r.objects, snap.objectId, snap.fields, r.next);
      HeadsCompose(before.objects, r.objects, a.objects);
      ObjectsOkLater(a.objects, a.next, a.next + n);
    } else {
      ObjectsOkLater(r.objects, r.next, r.next + n);
    }
  }

  /** A run that succeeds: applied snapshots are in step, and nothing else is written. */
  lemma {:induction false} RepairedFacts(runId: Id, assetId: Id, first: bool, events: seq<DriftEvent>, r: Repair, snapshots: seq<SchemaSnapshot>)
    requires ObjectsOk(r.objects, r.next) && r.error.None? && SnapshotsDistinct(snapshots)
    requires forall i :: 0 <= i < |snapshots| ==> DistinctFields(snapshots[i].fields)
    requires Repaired(runId, assetId, first, events, r, snapshots).error.None?
    ensures RepairFacts(first, events, r, Repaired(runId, assetId, first, events, r, snapshots), snapshots)
  {
    hide RepairFacts, RepairOne, ObjectsOk, DistinctFields;
    if snapshots == [] {
      NothingRepaired(first, events, r);
    } else {
      var front, snap := snapshots[..|snapshots| - 1], snapshots[|snapshots| - 1];
      var q := Repaired(runId, assetId, first, events, r, front);
      var from := RepairOneFiles(runId, assetId, first, events, q, snap);
      RepairedFacts(runId, assetId, first, events, r, front);
      assert front + [snap] == snapshots;
      RepairOneFacts(runId, assetId, first, events, r, q, front, snap);
    }
  }
}
