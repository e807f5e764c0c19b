/**
 When a discovery applies a snapshot at once, and when it raises while it does
 (app/application/discovery/metadata_self_healing_service.py).
 */
module HealingOutcomes {
  import opened Wrappers
  import opened Schema
  import opened SchemaDiffer
  import opened SchemaDrift
  import opened PlatformStore
  import opened ObjectService
  import opened Discovery
  import opened DiscoveryUseCases
  import opened DiscoveryHistory
  import opened CatalogueInStep
  import opened DiscoveryResults

  // ---------- Which snapshots are applied at once ----------

  /** There is nothing to compare with, or the diff holds an event that is not critical. */
  ghost predicate AppliedUnasked(baseline: seq<SchemaSnapshot>, snap: SchemaSnapshot) {
    || (forall before :: before in baseline ==> before.objectId != snap.objectId)
    || exists before, ev :: before in baseline && before.objectId == snap.objectId && Harmless(before, snap, ev)
  }

  ghost predicate Harmless(before: SchemaSnapshot, snap: SchemaSnapshot, ev: DriftEvent) {
    ev in Diff(before, snap) && !ev.IsCritical()
  }

  lemma AppliesIff(s: Sys, assetId: Id, raws: seq<RawSnapshot>, i: nat)
    requires StoreOk(s) && ScanOk(raws) && i < |Planned(s.store, assetId, raws, s.next).snapshots|
    ensures var plan := Planned(s.store, assetId, raws, s.next);
      AppliesNow(plan.first, plan.events, plan.snapshots[i].objectId)
      <==> AppliedUnasked(BaselineSnapshots(s.store.runs, assetId), plan.snapshots[i])
  {
    hide StoreOk, ScanOk, Repaired, Drifts, Provisioned, Identified, BaselineSnapshots, SnapshotIndex, Diff, SnapshotOk, ObjectsOk;
    var plan := Planned(s.store, assetId, raws, s.next);
    var baseline := BaselineSnapshots(s.store.runs, assetId);
    var prev := PrevOf(s.store, assetId);
    PlanSnapshots(s, assetId, raws);
    BaselineOk(s, assetId);
    SnapshotIndexIs(baseline);
    EventsOfSnapshot(prev, plan.snapshots, i, false);
    var snap := plan.snapshots[i];
    if snap.objectId in prev {
      InformativeIff(SnapshotEvents(prev, snap));
      OnlyBefore(baseline, prev, snap);
    } else {
      NewMeansInformative(prev, snap);
      NotIndexed(baseline, prev, snap.objectId);
    }
  }

  lemma InformativeIff(events: seq<DriftEvent>)
    ensures Judged(events, false) != [] <==> exists ev :: ev in events && !ev.IsCritical()
  {
    if ev :| ev in events && !ev.IsCritical() {
      JudgedHolds(events, ev);
    } else {
      NoneJudged(events);
    }
  }

  lemma OnlyBefore(baseline: seq<SchemaSnapshot>, prev: map<Id, SchemaSnapshot>, snap: SchemaSnapshot)
    requires SnapshotsDistinct(baseline) && snap.objectId in prev && PrevOk(prev) && prev[snap.objectId] in baseline
    ensures forall before :: before in baseline && before.objectId == snap.objectId ==> before == prev[snap.objectId]
    ensures (exists ev :: ev in SnapshotEvents(prev, snap) && !ev.IsCritical()) <==> AppliedUnasked(baseline, snap)
  {
    hide Diff;
    var known := prev[snap.objectId];
    var k :| 0 <= k < |baseline| && baseline[k] == known;
    forall before | before in baseline && before.objectId == snap.objectId
      ensures before == known
    {
      var j :| 0 <= j < |baseline| && baseline[j] == before;
      assert j == k;
    }
    assert SnapshotEvents(prev, snap) == Diff(known, snap);
    if ev :| ev in SnapshotEvents(prev, snap) && !ev.IsCritical() {
      assert Harmless(known, snap, ev);
    }
  }

  lemma NotIndexed(baseline: seq<SchemaSnapshot>, prev: map<Id, SchemaSnapshot>, id: Id)
    requires id !in prev
    requires forall i :: 0 <= i < |baseline| ==> baseline[i].objectId in prev
    ensures forall before :: before in baseline ==> before.objectId != id
  {
  }

  /**
   A snapshot reaches the catalogue before anyone is asked - its critical changes with it - iff its
   object was not in the last run or its diff also holds an event that is not critical; otherwise
   the elements stay as they are.
   */
  lemma AppliedAtOnceIff(s: Sys, assetId: Id, raws: seq<RawSnapshot>, i: nat)
    requires StoreOk(s) && ScanOk(raws)
    requires Planned(s.store, assetId, raws, s.next).repair.error.None? && i < |Planned(s.store, assetId, raws, s.next).snapshots|
    ensures var plan := Planned(s.store, assetId, raws, s.next);
      var snap := plan.snapshots[i];
      var after := ElementsOf(DiscoveredAsset(s.store, assetId, Ok(raws), s.next).store.objects, snap.objectId);
      if AppliedUnasked(BaselineSnapshots(s.store.runs, assetId), snap) then InStep(after, snap.fields)
      else after == ElementsOf(s.store.objects, snap.objectId)
  {
    hide StoreOk, ScanOk, Planned, BaselineSnapshots, Diff, SnapshotOk, ObjectsOk, ElementsOf, InStep, AppliesNow, Touched, FindObject, SavedRun;
    var plan := Planned(s.store, assetId, raws, s.next);
    AppliesIff(s, assetId, raws, i);
    DiscoveryFacts(s, assetId, raws);
    TouchedMeansApplied(plan, i);
    var snap := plan.snapshots[i];
    if !AppliedUnasked(BaselineSnapshots(s.store.runs, assetId), snap) {
      var before :| before in BaselineSnapshots(s.store.runs, assetId) && before.objectId == snap.objectId;
      BaselineOk(s, assetId);
      KnownObject(s, assetId, before);
    }
  }

  lemma KnownObject(s: Sys, assetId: Id, snap: SchemaSnapshot)
    requires SnapshotOk(s.store.objects, assetId, snap)
    ensures FindObject(s.store.objects, snap.objectId).Some?
  {
  }

  // ---------- When a discovery raises while it heals ----------

  /** A snapshot that is applied asks an element for a lossy change. */
  ghost predicate ClashesNow(objects: seq<DataObject>, first: bool, events: seq<DriftEvent>, snap: SchemaSnapshot) {
    AppliesNow(first, events, snap.objectId) && exists f :: f in snap.fields && Clashes(ByName(ElementsOf(objects, snap.objectId)), f)
  }

  lemma ClashAfterOthers(before: seq<DataObject>, after: seq<DataObject>, first: bool, events: seq<DriftEvent>, snap: SchemaSnapshot)
    requires ElementsOf(before, snap.objectId) == ElementsOf(after, snap.objectId)
    ensures ClashesNow(before, first, events, snap) <==> ClashesNow(after, first, events, snap)
  {
  }

  lemma RepairOneRaisesIff(runId: Id, assetId: Id, first: bool, events: seq<DriftEvent>, r: Repair, snap: SchemaSnapshot)
    requires r.error.None? && FindObject(r.objects, snap.objectId).Some?
    ensures RepairOne(runId, assetId, first, events, r, snap).error.Some? <==> ClashesNow(r.objects, first, events, snap)
  {
    hide AppliesNow, HealFields, ByName, Clashes, WithElements, Filed, EventsOf;
    var els := ElementsOf(r.objects, snap.objectId);
    HealedRaisesIff(snap.objectId, ByName(els), Healing(els, r.next, 0, None), snap.fields);
  }

  lemma {:induction false} RepairedRaisesIff(runId: Id, assetId: Id, first: bool, events: seq<DriftEvent>, r: Repair, snapshots: seq<SchemaSnapshot>)
    requires ObjectsOk(r.objects, r.next) && r.error.None? && SnapshotsDistinct(snapshots)
    requires forall i :: 0 <= i < |snapshots| ==> DistinctFields(snapshots[i].fields)
    requires forall i :: 0 <= i < |snapshots| ==> FindObject(r.objects, snapshots[i].objectId).Some?
    ensures Repaired(runId, assetId, first, events, r, snapshots).error.Some?
       <==> exists i :: 0 <= i < |snapshots| && ClashesNow(r.objects, first, events, snapshots[i])
  {
    hide ObjectsOk, DistinctFields, FindObject, RepairOne, ClashesNow;
    if snapshots != [] {
      var front, snap := snapshots[..|snapshots| - 1], snapshots[|snapshots| - 1];
      var q := Repaired(runId, assetId, first, events, r, front);
      RepairedRaisesIff(runId, assetId, first, events, r, front);
      if q.error.Some? {
        StoppedBefore(runId, assetId, first, events, q, snap);
        var i :| 0 <= i < |front| && ClashesNow(r.objects, first, events, front[i]);
        assert snapshots[i] == front[i];
      } else {
        RepairedFacts(runId, assetId, first, events, r, front);
        OthersUntouched(r, q, first, events, front, snap);
        RepairOneRaisesIff(runId, assetId, first, events, q, snap);
        ClashAfterOthers(r.objects, q.objects, first, events, snap);
        assert forall i :: 0 <= i < |front| ==> snapshots[i] == front[i];
      }
    }
  }

  lemma StoppedBefore(runId: Id, assetId: Id, first: bool, events: seq<DriftEvent>, q: Repair, snap: SchemaSnapshot)
    requires q.error.Some?
    ensures RepairOne(runId, assetId, first, events, q, snap) == q
  {
  }

  lemma OthersUntouched(r: Repair, q: Repair, first: bool, events: seq<DriftEvent>, front: seq<SchemaSnapshot>, snap: SchemaSnapshot)
    requires RepairFacts(first, events, r, q, front)
    requires forall i :: 0 <= i < |front| ==> front[i].objectId != snap.objectId
    requires FindObject(r.objects, snap.objectId).Some?
    ensures ElementsOf(q.objects, snap.objectId) == ElementsOf(r.objects, snap.objectId)
    ensures FindObject(q.objects, snap.objectId).Some?
  {
    hide AppliesNow, ObjectsOk, InStep, ElementsOf, FindObject;
    assert SameHead(FindObject(r.objects, snap.objectId), FindObject(q.objects, snap.objectId));
  }

  // ---------- New objects never clash ----------

  /** No field asks the elements for a lossy change. */
  ghost predicate Fits(elements: seq<DataElement>, fields: seq<SchemaField>) {
    forall f :: f in fields ==> !Clashes(ByName(elements), f)
  }

  lemma DiscoveredFits(objectId: Id, fields: seq<SchemaField>, next: nat)
    requires DistinctFields(fields)
    ensures Fits(DiscoveredElements(objectId, fields, next), fields)
  {
    hide DiscoveredElements, ByName, Matches, Destructive, MappedType;
    var els := DiscoveredElements(objectId, fields, next);
    DiscoveredElementsAre(objectId, fields, next);
    forall f | f in fields
      ensures !Clashes(ByName(els), f)
    {
      if f.name in ByName(els) {
        var i := ByNameFinds(els, f.name);
        var k :| 0 <= k < |fields| && fields[k] == f;
        assert fields[i].name == fields[k].name;
        DiscoveredMatches(Uuid(next + i), objectId, f);
      }
    }
  }

  lemma DiscoveredMatches(id: Id, objectId: Id, f: SchemaField)
    ensures Matches(DiscoveredElement(id, objectId, f), f) && DiscoveredElement(id, objectId, f).name == f.name
  {
  }

  lemma {:induction false} NamesAfterProvisioning(assetId: Id, p: Provision, raws: seq<RawSnapshot>)
    ensures var names := Provisioned(assetId, p, raws).names;
      && (forall n :: n in p.names ==> names[n] == p.names[n])
      && (forall n :: n in names ==> n in p.names || exists i :: 0 <= i < |raws| && raws[i].objectName == n)
  {
    hide DiscoveredElements;
    if raws != [] {
      var front := raws[..|raws| - 1];
      NamesAfterProvisioning(assetId, p, front);
      assert forall i :: 0 <= i < |front| ==> front[i] == raws[i];
    }
  }

  lemma {:induction false} ProvisionedFits(assetId: Id, p: Provision, raws: seq<RawSnapshot>, i: nat)
    requires ObjectsOk(p.objects, p.next) && IndexOk(assetId, p.objects, p.names) && ScanOk(raws)
    requires i < |raws| && raws[i].objectName !in p.names
    ensures var r := Provisioned(assetId, p, raws);
      Fits(ElementsOf(r.objects, r.names[raws[i].objectName]), raws[i].fields)
  {
    hide ObjectsOk, IndexOk, ElementsOf, FindObject, Fits, DistinctFields, DiscoveredElements;
    var front, last := raws[..|raws| - 1], raws[|raws| - 1];
    var q := Provisioned(assetId, p, front);
    assert ScanOk(front);
    ProvisionedOk(assetId, p, front);
    NamesAfterProvisioning(assetId, p, front);
    if i < |front| {
      ProvisionedFits(assetId, p, front, i);
      assert last.objectName != front[i].objectName;
      IndexedObject(assetId, q.objects, q.names, front[i].objectName, q.next);
      LaterRowsHidden(assetId, q, last, q.names[front[i].objectName]);
    } else {
      assert last.objectName !in q.names;
      NewRowFits(assetId, q, last);
    }
  }

  lemma LaterRowsHidden(assetId: Id, q: Provision, last: RawSnapshot, id: Id)
    requires FindObject(q.objects, id).Some?
    ensures ElementsOf(ProvisionOne(assetId, q, last).objects, id) == ElementsOf(q.objects, id)
  {
    hide DiscoveredElements;
    var r := ProvisionOne(assetId, q, last);
    assert r.objects[..|q.objects|] == q.objects;
    FindInPrefix(r.objects, |q.objects|, id);
  }

  lemma NewRowFits(assetId: Id, q: Provision, last: RawSnapshot)
    requires ObjectsOk(q.objects, q.next) && IndexOk(assetId, q.objects, q.names) && DistinctFields(last.fields)
    requires last.objectName !in q.names
    ensures var r := ProvisionOne(assetId, q, last);
      Fits(ElementsOf(r.objects, r.names[last.objectName]), last.fields)
  {
    hide DiscoveredElements, Fits, ElementsOk, IndexOk, FindObject;
    var r := ProvisionOne(assetId, q, last);
    NewObjectOk(assetId, q, last);
    UniqueNamesOf(r.objects, r.next);
    FindUnique(r.objects, |q.objects|);
    DiscoveredFits(Uuid(q.next), last.fields, q.next + 1);
  }

  /** The elements a snapshot meets are those of before the run, or ones made from the snapshot itself. */
  lemma ClashesKnownOnly(s: Sys, assetId: Id, raws: seq<RawSnapshot>, i: nat)
    requires StoreOk(s) && ScanOk(raws) && i < |raws|
    ensures var plan := Planned(s.store, assetId, raws, s.next);
      ClashesNow(ProvisionFor(s.store, assetId, raws, s.next).objects, plan.first, plan.events, plan.snapshots[i])
      <==> ClashesNow(s.store.objects, plan.first, plan.events, plan.snapshots[i])
  {
    hide StoreOk, ScanOk, Repaired, Drifts, SnapshotIndex, BaselineSnapshots, AppliesNow, FindObject, Clashes, ByName, ObjectsOk, IndexOk, NameIndex, ObjectsOf, SnapshotOk;
    PlanSnapshots(s, assetId, raws);
    var p := ProvisionFor(s.store, assetId, raws, s.next);
    var id := p.names[raws[i].objectName];
    if FindObject(s.store.objects, id).None? {
      UnknownName(s, assetId, raws, i);
      var start := Provision(s.store.objects, NameIndex(ObjectsOf(s.store.objects, assetId)), s.next + 1);
      StartOk(s, assetId);
      ProvisionedFits(assetId, start, raws, i);
      UnknownNeverClashes(s.store.objects, id);
    }
  }

  lemma UnknownNeverClashes(objects: seq<DataObject>, id: Id)
    requires FindObject(objects, id).None?
    ensures forall f :: !Clashes(ByName(ElementsOf(objects, id)), f)
  {
  }

  lemma StartOk(s: Sys, assetId: Id)
    requires StoreOk(s)
    ensures ObjectsOk(s.store.objects, s.next + 1)
    ensures IndexOk(assetId, s.store.objects, NameIndex(ObjectsOf(s.store.objects, assetId)))
  {
    hide IndexOk, RunOk, ObjectsOf, NameIndex;
    ObjectsOkOf(s);
    ObjectsOkLater(s.store.objects, s.next, s.next + 1);
    UniqueNamesOf(s.store.objects, s.next);
    NameIndexOk(assetId, s.store.objects);
  }

  lemma UnknownName(s: Sys, assetId: Id, raws: seq<RawSnapshot>, i: nat)
    requires StoreOk(s) && i < |raws|
    requires FindObject(s.store.objects, ProvisionFor(s.store, assetId, raws, s.next).names[raws[i].objectName]).None?
    ensures raws[i].objectName !in NameIndex(ObjectsOf(s.store.objects, assetId))
  {
    hide StoreOk, IndexOk, ObjectsOf, NameIndex, FindObject, ObjectsOk, ProvisionOne;
    StartOk(s, assetId);
    var names := NameIndex(ObjectsOf(s.store.objects, assetId));
    NamesAfterProvisioning(assetId, Provision(s.store.objects, names, s.next + 1), raws);
    if raws[i].objectName in names {
      IndexedObject(assetId, s.store.objects, names, raws[i].objectName, s.next + 1);
    }
  }

  /** A discovery raises while it heals iff some snapshot it applies asks an element for a lossy change. */
  lemma HealingRaisesIff(s: Sys, assetId: Id, raws: seq<RawSnapshot>)
    requires StoreOk(s) && ScanOk(raws)
    ensures var plan := Planned(s.store, assetId, raws, s.next);
      plan.repair.error.Some?
      <==> exists i :: 0 <= i < |plan.snapshots| && ClashesNow(s.store.objects, plan.first, plan.events, plan.snapshots[i])
  {
    hide StoreOk, ScanOk, Repaired, Drifts, SnapshotIndex, BaselineSnapshots, AppliesNow, FindObject, ClashesNow, ObjectsOk, SnapshotsDistinct, SnapshotOk;
    PlanSnapshots(s, assetId, raws);
    var plan := Planned(s.store, assetId, raws, s.next);
    var p := ProvisionFor(s.store, assetId, raws, s.next);
    forall i | 0 <= i < |plan.snapshots|
      ensures DistinctFields(plan.snapshots[i].fields) && FindObject(p.objects, plan.snapshots[i].objectId).Some?
      ensures ClashesNow(p.objects, plan.first, plan.events, plan.snapshots[i])
         <==> ClashesNow(s.store.objects, plan.first, plan.events, plan.snapshots[i])
    {
      SnapshotOkFields(p.objects, assetId, plan.snapshots[i]);
      KnownObject(Sys(s.store.(objects := p.objects), p.next), assetId, plan.snapshots[i]);
      ClashesKnownOnly(s, assetId, raws, i);
    }
    RepairedRaisesIff(Uuid(s.next), assetId, plan.first, plan.events, Repair(p.objects, s.store.approvals, p.next, None), plan.snapshots);
  }

  // ---------- And raises again ----------

  /** Two fields alike in what drift and the catalogue see of them. */
  predicate Alike(f: SchemaField, g: SchemaField) {
    f.name == g.name && f.normalizedType == g.normalizedType && f.nullable == g.nullable
  }

  lemma AlikeByShape(a: seq<SchemaField>, b: seq<SchemaField>, n: string)
    requires Shape(a) == Shape(b) && n in Index(a)
    ensures n in Index(b) && Alike(Index(a)[n], Index(b)[n])
  {
    hide Index;
    IndexEntries(a);
    IndexEntries(b);
    assert n in Shape(a) && n in Shape(b);
  }

  lemma HarmlessByShape(before: SchemaSnapshot, a: SchemaSnapshot, b: SchemaSnapshot, ev: DriftEvent)
    requires a.objectId == b.objectId && Shape(a.fields) == Shape(b.fields) && Harmless(before, a, ev)
    ensures Harmless(before, b, ev)
  {
    hide Diff, Index, Shape, FieldEvents, RemovedEvent;
    DiffHolds(before, a, ev);
    DiffHolds(before, b, ev);
    if n :| HasFieldEvent(before, a, n, ev) {
      AlikeByShape(a.fields, b.fields, n);
      AlikeEvents(a.objectId, Index(before.fields), Index(a.fields)[n], Index(b.fields)[n]);
      assert HasFieldEvent(before, b, n, ev);
    } else {
      var n :| HasRemoval(before, a, n, ev);
      SameKeysByShape(a.fields, b.fields);
      assert HasRemoval(before, b, n, ev);
    }
  }

  lemma AlikeEvents(objectId: Id, prev: map<string, SchemaField>, f: SchemaField, g: SchemaField)
    requires Alike(f, g)
    ensures FieldEvents(objectId, prev, f) == FieldEvents(objectId, prev, g)
  {
  }

  lemma SameKeysByShape(a: seq<SchemaField>, b: seq<SchemaField>)
    requires Shape(a) == Shape(b)
    ensures Index(a).Keys == Index(b).Keys
  {
    hide Index;
    assert Index(a).Keys == Shape(a).Keys && Index(b).Keys == Shape(b).Keys;
  }

  lemma UnaskedByShape(baseline: seq<SchemaSnapshot>, a: SchemaSnapshot, b: SchemaSnapshot)
    requires a.objectId == b.objectId && Shape(a.fields) == Shape(b.fields) && AppliedUnasked(baseline, a)
    ensures AppliedUnasked(baseline, b)
  {
    hide Shape, Harmless;
    if before, ev :| before in baseline && before.objectId == a.objectId && Harmless(before, a, ev) {
      HarmlessByShape(before, a, b, ev);
    }
  }

  lemma ClashByShape(existing: map<string, DataElement>, a: seq<SchemaField>, b: seq<SchemaField>, f: SchemaField)
    requires Shape(a) == Shape(b) && DistinctFields(a) && f in a && Clashes(existing, f)
    ensures exists g :: g in b && Clashes(existing, g)
  {
    hide Shape, Index, Clashes;
    IndexOfDistinct(a);
    AlikeByShape(a, b, f.name);
    IndexEntries(b);
    AlikeClash(existing, f, Index(b)[f.name]);
  }

  lemma AlikeClash(existing: map<string, DataElement>, f: SchemaField, g: SchemaField)
    requires Alike(f, g)
    ensures Clashes(existing, f) <==> Clashes(existing, g)
  {
  }

  /** The same table, with the same shape. */
  predicate SameTable(a: RawSnapshot, b: RawSnapshot) {
    a.objectName == b.objectName && Shape(a.fields) == Shape(b.fields)
  }

  /** The table's object is found again under its name. */
  lemma SameObject(s: Sys, assetId: Id, raws: seq<RawSnapshot>, i: nat, t: Sys, again: seq<RawSnapshot>, j: nat)
    requires StoreOk(s) && StoreOk(t) && ScanOk(raws) && i < |raws| && j < |again|
    requires again[j].objectName == raws[i].objectName
    requires var id := Planned(s.store, assetId, raws, s.next).snapshots[i].objectId;
      FindObject(s.store.objects, id).Some? && SameHead(FindObject(s.store.objects, id), FindObject(t.store.objects, id))
    ensures Planned(t.store, assetId, again, t.next).snapshots[j].objectId == Planned(s.store, assetId, raws, s.next).snapshots[i].objectId
  {
    hide StoreOk, ScanOk, Repaired, Drifts, SnapshotIndex, BaselineSnapshots, ObjectsOk, NameIndex, ObjectsOf, ProvisionOne;
    PlanSnapshots(s, assetId, raws);
    var id := Planned(s.store, assetId, raws, s.next).snapshots[i].objectId;
    var n := raws[i].objectName;
    assert FindObject(ProvisionFor(s.store, assetId, raws, s.next).objects, id) == FindObject(s.store.objects, id);
    StartOk(t, assetId);
    var names := NameIndex(ObjectsOf(t.store.objects, assetId));
    FoundObject(t.store.objects, id);
    var o := FindObject(t.store.objects, id).value;
    var k :| 0 <= k < |t.store.objects| && t.store.objects[k] == o;
    assert o.name == n && o.assetId == assetId && o.id == id;
    assert n in names && names[n] == id;
    NamesAfterProvisioning(assetId, Provision(t.store.objects, names, t.next + 1), again);
  }

  /**
   What raised once raises again: as long as the asset's last run and the element stay as they are,
   every scan that finds the table in the same shape.
   */
  lemma RaisesAgain(s: Sys, assetId: Id, raws: seq<RawSnapshot>, i: nat, t: Sys, again: seq<RawSnapshot>, j: nat)
    requires StoreOk(s) && StoreOk(t) && ScanOk(raws) && ScanOk(again) && i < |raws| && j < |again| && SameTable(raws[i], again[j])
    requires var plan := Planned(s.store, assetId, raws, s.next);
      ClashesNow(s.store.objects, plan.first, plan.events, plan.snapshots[i])
    requires BaselineSnapshots(t.store.runs, assetId) == BaselineSnapshots(s.store.runs, assetId)
    requires var id := Planned(s.store, assetId, raws, s.next).snapshots[i].objectId;
      && SameHead(FindObject(s.store.objects, id), FindObject(t.store.objects, id))
      && ElementsOf(s.store.objects, id) == ElementsOf(t.store.objects, id)
    ensures Planned(t.store, assetId, again, t.next).repair.error.Some?
  {
    hide StoreOk, ScanOk, Planned, BaselineSnapshots, AppliesNow, FindObject, Clashes, ByName, ElementsOf, Shape, AppliedUnasked, SnapshotOk, ObjectsOk;
    var plan, next := Planned(s.store, assetId, raws, s.next), Planned(t.store, assetId, again, t.next);
    PlanParts(s, assetId, raws);
    PlanParts(t, assetId, again);
    var f :| f in raws[i].fields && Clashes(ByName(ElementsOf(s.store.objects, plan.snapshots[i].objectId)), f);
    ClashMeansKnown(s.store.objects, plan.snapshots[i].objectId, f);
    SameObject(s, assetId, raws, i, t, again, j);
    AppliesIff(s, assetId, raws, i);
    AppliesIff(t, assetId, again, j);
    UnaskedByShape(BaselineSnapshots(s.store.runs, assetId), plan.snapshots[i], next.snapshots[j]);
    ClashByShape(ByName(ElementsOf(t.store.objects, next.snapshots[j].objectId)), raws[i].fields, again[j].fields, f);
    HealingRaisesIff(t, assetId, again);
    assert ClashesNow(t.store.objects, next.first, next.events, next.snapshots[j]);
  }

  lemma PlanParts(s: Sys, assetId: Id, raws: seq<RawSnapshot>)
    requires ScanOk(raws)
    ensures var snapshots := Planned(s.store, assetId, raws, s.next).snapshots;
      && |snapshots| == |raws|
      && forall i :: 0 <= i < |raws| ==> snapshots[i].fields == raws[i].fields && DistinctFields(raws[i].fields)
  {
    hide Provisioned, Repaired, Drifts, DistinctFields;
  }

  lemma ClashMeansKnown(objects: seq<DataObject>, id: Id, f: SchemaField)
    requires Clashes(ByName(ElementsOf(objects, id)), f)
    ensures FindObject(objects, id).Some?
  {
  }

  /** Scans that find every table of the first in the same shape, one after the other. */
  ghost predicate Retries(raws: seq<RawSnapshot>, scans: seq<seq<RawSnapshot>>) {
    forall k :: 0 <= k < |scans| ==> ScanOk(scans[k]) && FindsAgain(raws, scans[k])
  }

  ghost predicate FindsAgain(raws: seq<RawSnapshot>, again: seq<RawSnapshot>) {
    forall i :: 0 <= i < |raws| ==> exists j :: 0 <= j < |again| && SameTable(raws[i], again[j])
  }

  function Discoveries(s: Sys, assetId: Id, scans: seq<seq<RawSnapshot>>): Sys {
    if scans == [] then s
    else
      var t := Discoveries(s, assetId, scans[..|scans| - 1]);
      var a := DiscoveredAsset(t.store, assetId, Ok(scans[|scans| - 1]), t.next);
      Sys(a.store, a.next)
  }

  /** A discovery that raised while healing keeps raising, and leaves the store as it was, however often it is tried again. */
  lemma {:induction false} RetriesRaise(s: Sys, assetId: Id, raws: seq<RawSnapshot>, scans: seq<seq<RawSnapshot>>)
    requires StoreOk(s) && ScanOk(raws) && Planned(s.store, assetId, raws, s.next).repair.error.Some? && Retries(raws, scans)
    ensures var t := Discoveries(s, assetId, scans);
      && StoreOk(t) && t.store == s.store
      && forall again :: ScanOk(again) && FindsAgain(raws, again) ==> DiscoveredAsset(t.store, assetId, Ok(again), t.next).outcome.Err?
  {
    hide StoreOk, ScanOk, Planned, FindsAgain, ClashesNow;
    if scans != [] {
      var front, last := scans[..|scans| - 1], scans[|scans| - 1];
      assert Retries(raws, front);
      RetriesRaise(s, assetId, raws, front);
      var t := Discoveries(s, assetId, front);
      assert DiscoveredAsset(t.store, assetId, Ok(last), t.next).outcome.Err?;
      DiscoverKeepsOk(t, assetId, Ok(last));
    }
    var t := Discoveries(s, assetId, scans);
    forall again | ScanOk(again) && FindsAgain(raws, again)
      ensures DiscoveredAsset(t.store, assetId, Ok(again), t.next).outcome.Err?
    {
      RetryRaises(s, assetId, raws, t, again);
    }
  }

  lemma RetryRaises(s: Sys, assetId: Id, raws: seq<RawSnapshot>, t: Sys, again: seq<RawSnapshot>)
    requires StoreOk(s) && StoreOk(t) && t.store == s.store && ScanOk(raws) && ScanOk(again) && FindsAgain(raws, again)
    requires Planned(s.store, assetId, raws, s.next).repair.error.Some?
    ensures Planned(t.store, assetId, again, t.next).repair.error.Some?
  {
    hide StoreOk, ScanOk, Planned, ClashesNow, SameTable, FindObject, ElementsOf;
    HealingRaisesIff(s, assetId, raws);
    var plan := Planned(s.store, assetId, raws, s.next);
    var i :| 0 <= i < |plan.snapshots| && ClashesNow(s.store.objects, plan.first, plan.events, plan.snapshots[i]);
    PlanParts(s, assetId, raws);
    var j :| 0 <= j < |again| && SameTable(raws[i], again[j]);
    SameHeadItself(FindObject(s.store.objects, plan.snapshots[i].objectId));
    RaisesAgain(s, assetId, raws, i, t, again, j);
  }

  lemma SameHeadItself(o: Option<DataObject>)
    ensures SameHead(o, o)
  {
  }
}
