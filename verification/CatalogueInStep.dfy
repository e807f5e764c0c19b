/** The catalogue over any history of discovery runs and approval decisions. */
module CatalogueInStep {
  import opened Wrappers
  import opened Schema
  import opened SchemaDiffer
  import opened SchemaDrift
  import opened PlatformStore
  import opened ObjectService
  import opened Discovery
  import opened DiscoveryUseCases
  import opened DiscoveryHistory

  datatype Sys = Sys(store: Store, next: nat)

  datatype Event =
    | Discover(assetId: Option<Id>, assetName: string, scan: Result<seq<RawSnapshot>, Error>)
    | Decide(approvalId: Id, approve: bool)

  function Step(s: Sys, ev: Event): Sys {
    match ev
    case Discover(assetId, assetName, scan) =>
      var a := Discovered(s.store, assetId, assetName, scan, s.next); Sys(a.store, a.next)
    case Decide(approvalId, approve) =>
      var r := Decided(s.store, approvalId, if approve then APPROVED else REJECTED, s.next); Sys(r.store, r.next)
  }

  function Play(s: Sys, events: seq<Event>): Sys {
    if events == [] then s else Step(Play(s, events[..|events| - 1]), events[|events| - 1])
  }

  // ---------- Well-kept databases ----------

  ghost predicate SnapshotOk(objects: seq<DataObject>, assetId: Id, s: SchemaSnapshot) {
    && DistinctFields(s.fields)
    && FindObject(objects, s.objectId).Some?
    && FindObject(objects, s.objectId).value.assetId == assetId
    && FindObject(objects, s.objectId).value.name == s.objectName
  }

  ghost predicate RunOk(objects: seq<DataObject>, r: RunRow) {
    && SnapshotsDistinct(r.snapshots)
    && forall i :: 0 <= i < |r.snapshots| ==> SnapshotOk(objects, r.assetId, r.snapshots[i])
  }

  ghost predicate StoreOk(s: Sys) {
    && ObjectsOk(s.store.objects, s.next)
    && (forall i :: 0 <= i < |s.store.runs| ==> RunOk(s.store.objects, s.store.runs[i]))
    && (forall i :: 0 <= i < |s.store.runs| && s.store.runs[i].id.Uuid? ==> s.store.runs[i].id.n < s.next)
  }

  /** What a runner reports in one scan: object names and field names without repetition. */
  ghost predicate ScanOk(raws: seq<RawSnapshot>) {
    && (forall i, j :: 0 <= i < j < |raws| ==> raws[i].objectName != raws[j].objectName)
    && (forall i :: 0 <= i < |raws| ==> DistinctFields(raws[i].fields))
  }

  ghost predicate EventOk(ev: Event) {
    ev.Discover? && ev.scan.Ok? ==> ScanOk(ev.scan.value)
  }

  /** Old rows are still found, with the same asset and name. */
  ghost predicate HeadsKept(before: seq<DataObject>, after: seq<DataObject>) {
    forall id :: FindObject(before, id).Some? ==> SameHead(FindObject(before, id), FindObject(after, id))
  }

  lemma RunStaysOk(before: seq<DataObject>, after: seq<DataObject>, r: RunRow)
    requires RunOk(before, r) && HeadsKept(before, after)
    ensures RunOk(after, r)
  {
    hide FindObject, DistinctFields;
    forall i | 0 <= i < |r.snapshots|
      ensures SnapshotOk(after, r.assetId, r.snapshots[i])
    {
      assert SnapshotOk(before, r.assetId, r.snapshots[i]);
      assert SameHead(FindObject(before, r.snapshots[i].objectId), FindObject(after, r.snapshots[i].objectId));
    }
  }

  // ---------- Snapshots of a plan ----------

  lemma IndexedObject(assetId: Id, objects: seq<DataObject>, names: map<string, Id>, n: string, next: nat)
    requires ObjectsOk(objects, next) && IndexOk(assetId, objects, names) && n in names
    ensures var o := FindObject(objects, names[n]);
      o.Some? && o.value.assetId == assetId && o.value.name == n
  {
    assert Indexed(assetId, objects, names, n);
    var i :| 0 <= i < |objects| && objects[i].assetId == assetId && objects[i].name == n && objects[i].id == names[n];
    FindUnique(objects, i);
  }

  lemma IdentifiedOk(assetId: Id, objects: seq<DataObject>, names: map<string, Id>, raws: seq<RawSnapshot>, next: nat)
    requires ObjectsOk(objects, next) && IndexOk(assetId, objects, names) && ScanOk(raws)
    requires forall i :: 0 <= i < |raws| ==> raws[i].objectName in names
    ensures SnapshotsDistinct(Identified(names, raws))
    ensures forall i :: 0 <= i < |raws| ==> SnapshotOk(objects, assetId, Identified(names, raws)[i])
  {
    hide ObjectsOk, IndexOk, FindObject, DistinctFields;
    var snapshots := Identified(names, raws);
    forall i | 0 <= i < |raws|
      ensures SnapshotOk(objects, assetId, snapshots[i])
    {
      IndexedObject(assetId, objects, names, raws[i].objectName, next);
    }
    forall i, j | 0 <= i < j < |snapshots|
      ensures snapshots[i].objectId != snapshots[j].objectId
    {
      assert SnapshotOk(objects, assetId, snapshots[i]) && SnapshotOk(objects, assetId, snapshots[j]);
      assert raws[i].objectName != raws[j].objectName;
    }
  }

  lemma {:induction false} SnapshotIndexHolds(snapshots: seq<SchemaSnapshot>)
    ensures PrevOk(SnapshotIndex(snapshots))
    ensures forall id :: id in SnapshotIndex(snapshots) ==> SnapshotIndex(snapshots)[id] in snapshots
    ensures SnapshotIndex(snapshots) == map[] ==> snapshots == []
  {
    if snapshots != [] {
      var front, last := snapshots[..|snapshots| - 1], snapshots[|snapshots| - 1];
      SnapshotIndexHolds(front);
      assert snapshots == front + [last];
      assert last.objectId in SnapshotIndex(snapshots);
    }
  }

  lemma {:induction false} SnapshotIndexFinds(snapshots: seq<SchemaSnapshot>, i: nat)
    requires SnapshotsDistinct(snapshots) && i < |snapshots|
    ensures snapshots[i].objectId in SnapshotIndex(snapshots) && SnapshotIndex(snapshots)[snapshots[i].objectId] == snapshots[i]
  {
    if i < |snapshots| - 1 {
      SnapshotIndexFinds(snapshots[..|snapshots| - 1], i);
    }
  }

  lemma SnapshotIndexIs(snapshots: seq<SchemaSnapshot>)
    ensures PrevOk(SnapshotIndex(snapshots))
    ensures forall id :: id in SnapshotIndex(snapshots) ==> SnapshotIndex(snapshots)[id] in snapshots
    ensures SnapshotIndex(snapshots) == map[] ==> snapshots == []
    ensures SnapshotsDistinct(snapshots) ==> forall i :: 0 <= i < |snapshots| ==>
      snapshots[i].objectId in SnapshotIndex(snapshots) && SnapshotIndex(snapshots)[snapshots[i].objectId] == snapshots[i]
  {
    hide SnapshotIndex;
    SnapshotIndexHolds(snapshots);
    if SnapshotsDistinct(snapshots) {
      forall i | 0 <= i < |snapshots|
        ensures snapshots[i].objectId in SnapshotIndex(snapshots) && SnapshotIndex(snapshots)[snapshots[i].objectId] == snapshots[i]
      {
        SnapshotIndexFinds(snapshots, i);
      }
    }
  }

  function ProvisionFor(store: Store, assetId: Id, raws: seq<RawSnapshot>, next: nat): Provision {
    Provisioned(assetId, Provision(store.objects, NameIndex(ObjectsOf(store.objects, assetId)), next + 1), raws)
  }

  function PrevOf(store: Store, assetId: Id): map<Id, SchemaSnapshot> {
    SnapshotIndex(BaselineSnapshots(store.runs, assetId))
  }

  /** The first half of a plan: every snapshot has its object, old rows are as they were. */
  lemma PlanSnapshots(s: Sys, assetId: Id, raws: seq<RawSnapshot>)
    requires StoreOk(s) && ScanOk(raws)
    ensures var p := ProvisionFor(s.store, assetId, raws, s.next);
      var snapshots := Planned(s.store, assetId, raws, s.next).snapshots;
      && ObjectsOk(p.objects, p.next) && s.next < p.next
      && SnapshotsDistinct(snapshots)
      && (forall i :: 0 <= i < |snapshots| ==> SnapshotOk(p.objects, assetId, snapshots[i]))
      && (forall id :: FindObject(s.store.objects, id).Some? ==> FindObject(p.objects, id) == FindObject(s.store.objects, id))
  {
    hide ObjectsOk, IndexOk, FindObject, DistinctFields, SnapshotOk, Repaired, Drifts, SnapshotIndex, RunOk;
    ObjectsOkLater(s.store.objects, s.next, s.next + 1);
    UniqueNamesOf(s.store.objects, s.next);
    NameIndexOk(assetId, s.store.objects);
    ProvisionedOk(assetId, Provision(s.store.objects, NameIndex(ObjectsOf(s.store.objects, assetId)), s.next + 1), raws);
    var p := ProvisionFor(s.store, assetId, raws, s.next);
    IdentifiedOk(assetId, p.objects, p.names, raws, p.next);
    forall id | FindObject(s.store.objects, id).Some?
      ensures FindObject(p.objects, id) == FindObject(s.store.objects, id)
    {
      FindInPrefix(p.objects, |s.store.objects|, id);
    }
  }

  lemma UniqueNamesOf(objects: seq<DataObject>, next: nat)
    requires ObjectsOk(objects, next)
    ensures NamesUnique(objects) && UniqueIds(objects)
  {
  }

  /** What a successful discovery has done to the database. */
  ghost predicate PlanFacts(s: Sys, assetId: Id, plan: Plan) {
    && plan.repair.error.None?
    && ObjectsOk(plan.repair.objects, plan.repair.next) && s.next < plan.repair.next
    && HeadsKept(s.store.objects, plan.repair.objects)
    && RunOk(plan.repair.objects, RunRow(Uuid(s.next), assetId, COMPLETED, plan.snapshots, plan.events))
    && (forall id :: FindObject(s.store.objects, id).Some? && id !in Touched(plan.first, plan.events, plan.snapshots) ==>
          ElementsOf(plan.repair.objects, id) == ElementsOf(s.store.objects, id))
    && (forall i :: 0 <= i < |plan.snapshots| && AppliesNow(plan.first, plan.events, plan.snapshots[i].objectId) ==>
          InStep(ElementsOf(plan.repair.objects, plan.snapshots[i].objectId), plan.snapshots[i].fields))
  }

  lemma DiscoveryFacts(s: Sys, assetId: Id, raws: seq<RawSnapshot>)
    requires StoreOk(s) && ScanOk(raws) && Planned(s.store, assetId, raws, s.next).repair.error.None?
    ensures PlanFacts(s, assetId, Planned(s.store, assetId, raws, s.next))
  {
    hide ObjectsOk, FindObject, DistinctFields, Repaired, Drifts, SnapshotIndex, InStep, Touched, AppliesNow, ElementsOf, StoreOk;
    PlanSnapshots(s, assetId, raws);
    var plan := Planned(s.store, assetId, raws, s.next);
    var p := ProvisionFor(s.store, assetId, raws, s.next);
    var start := Repair(p.objects, s.store.approvals, p.next, None);
    RepairedFacts(Uuid(s.next), assetId, plan.first, plan.events, start, plan.snapshots);
    ElementsByRow(s.store.objects, p.objects);
    forall id | FindObject(s.store.objects, id).Some?
      ensures SameHead(FindObject(s.store.objects, id), FindObject(plan.repair.objects, id))
    {
      assert SameHead(FindObject(p.objects, id), FindObject(plan.repair.objects, id));
    }
    forall i | 0 <= i < |plan.snapshots|
      ensures SnapshotOk(plan.repair.objects, assetId, plan.snapshots[i])
    {
      assert SnapshotOk(p.objects, assetId, plan.snapshots[i]);
      assert SameHead(FindObject(p.objects, plan.snapshots[i].objectId), FindObject(plan.repair.objects, plan.snapshots[i].objectId));
    }
  }

  lemma ElementsByRow(a: seq<DataObject>, b: seq<DataObject>)
    ensures forall id :: FindObject(a, id) == FindObject(b, id) ==> ElementsOf(a, id) == ElementsOf(b, id)
  {
  }

  // ---------- Every event keeps the database well-kept ----------

  lemma NewRunRow(s: Sys, row: RunRow)
    requires StoreOk(s) && row.id == Uuid(s.next)
    ensures SavedRun(s.store.runs, row) == s.store.runs + [row]
  {
    NoSuchRun(s.store.runs, row.id);
    SavedNewRun(s.store.runs, row);
  }

  lemma StoreOkAfterRun(s: Sys, objects: seq<DataObject>, approvals: seq<DriftApproval>, row: RunRow, next: nat)
    requires StoreOk(s) && row.id == Uuid(s.next) && s.next < next
    requires ObjectsOk(objects, next) && HeadsKept(s.store.objects, objects) && RunOk(objects, row)
    ensures StoreOk(Sys(s.store.(objects := objects, approvals := approvals, runs := s.store.runs + [row]), next))
  {
    hide ObjectsOk, HeadsKept, RunOk;
    var runs := s.store.runs + [row];
    forall i | 0 <= i < |runs|
      ensures RunOk(objects, runs[i])
    {
      if i < |s.store.runs| {
        RunStaysOk(s.store.objects, objects, s.store.runs[i]);
      }
    }
  }

  lemma HeadsKeptItself(objects: seq<DataObject>)
    ensures HeadsKept(objects, objects)
  {
    forall id | FindObject(objects, id).Some?
      ensures SameHead(FindObject(objects, id), FindObject(objects, id))
    {
    }
  }

  lemma StoreOkLater(s: Sys, next: nat)
    requires StoreOk(s) && s.next <= next
    ensures StoreOk(Sys(s.store, next))
  {
    hide ObjectsOk, RunOk;
    ObjectsOkLater(s.store.objects, s.next, next);
  }

  /** A discovery that heals in vain has still drawn its uuids. */
  lemma {:induction false} RepairedDraws(runId: Id, assetId: Id, first: bool, events: seq<DriftEvent>, r: Repair, snapshots: seq<SchemaSnapshot>)
    ensures Repaired(runId, assetId, first, events, r, snapshots).next >= r.next
  {
    if snapshots != [] {
      RepairedDraws(runId, assetId, first, events, r, snapshots[..|snapshots| - 1]);
      var q := Repaired(runId, assetId, first, events, r, snapshots[..|snapshots| - 1]);
      AppliedDraws(q.objects, snapshots[|snapshots| - 1].objectId, snapshots[|snapshots| - 1].fields, q.next);
    }
  }

  lemma AppliedDraws(objects: seq<DataObject>, id: Id, fields: seq<SchemaField>, next: nat)
    ensures Applied(objects, id, fields, next).next >= next
  {
    if FindObject(objects, id).Some? {
      HealingDraws(id, ByName(FindObject(objects, id).value.elements), Healing(FindObject(objects, id).value.elements, next, 0, None), fields);
    }
  }

  lemma {:induction false} HealingDraws(objectId: Id, existing: map<string, DataElement>, h: Healing, fields: seq<SchemaField>)
    ensures HealFields(objectId, existing, h, fields).next >= h.next
  {
    if fields != [] {
      HealingDraws(objectId, existing, h, fields[..|fields| - 1]);
    }
  }

  lemma DiscoverKeepsOk(s: Sys, assetId: Id, scan: Result<seq<RawSnapshot>, Error>)
    requires StoreOk(s) && (scan.Ok? ==> ScanOk(scan.value))
    ensures var a := DiscoveredAsset(s.store, assetId, scan, s.next);
      StoreOk(Sys(a.store, a.next)) && a.next > s.next
  {
    hide StoreOk, Planned, ScanOk, RunOk, HeadsKept, ObjectsOk, SavedRun;
    match scan
    case Err(e) =>
      var row := RunRow(Uuid(s.next), assetId, FAILED, [], []);
      NewRunRow(s, row);
      HeadsKeptItself(s.store.objects);
      EmptyRunOk(s.store.objects, row);
      ObjectsOkOf(s);
      ObjectsOkLater(s.store.objects, s.next, s.next + 1);
      StoreOkAfterRun(s, s.store.objects, s.store.approvals, row, s.next + 1);
    case Ok(raws) =>
      var plan := Planned(s.store, assetId, raws, s.next);
      PlanDraws(s, assetId, raws);
      if plan.repair.error.None? {
        DiscoveryFacts(s, assetId, raws);
        var row := RunRow(Uuid(s.next), assetId, COMPLETED, plan.snapshots, plan.events);
        NewRunRow(s, row);
        StoreOkAfterRun(s, plan.repair.objects, plan.repair.approvals, row, plan.repair.next);
      } else {
        StoreOkLater(s, plan.repair.next);
      }
  }

  lemma EmptyRunOk(objects: seq<DataObject>, row: RunRow)
    requires row.snapshots == []
    ensures RunOk(objects, row)
  {
  }

  lemma ObjectsOkOf(s: Sys)
    requires StoreOk(s)
    ensures ObjectsOk(s.store.objects, s.next)
  {
  }

  lemma PlanDraws(s: Sys, assetId: Id, raws: seq<RawSnapshot>)
    requires StoreOk(s) && ScanOk(raws)
    ensures Planned(s.store, assetId, raws, s.next).repair.next > s.next
  {
    hide ObjectsOk, Repaired, Drifts, SnapshotIndex, RunOk, SnapshotOk;
    PlanSnapshots(s, assetId, raws);
    var plan := Planned(s.store, assetId, raws, s.next);
    var p := ProvisionFor(s.store, assetId, raws, s.next);
    RepairedDraws(Uuid(s.next), assetId, plan.first, plan.events, Repair(p.objects, s.store.approvals, p.next, None), plan.snapshots);
  }

  lemma DecideKeepsOk(s: Sys, approvalId: Id, d: Decision)
    requires StoreOk(s)
    ensures var r := Decided(s.store, approvalId, d, s.next);
      StoreOk(Sys(r.store, r.next)) && r.next >= s.next
  {
    hide ObjectsOk, RunOk, Applied, FindObject, SavedApproval, FindApproval;
    var r := Decided(s.store, approvalId, d, s.next);
    var found := FindApproval(s.store.approvals, approvalId);
    if found.Some? && SnapshotOf(s.store, found.value).Some? {
      var snap := SnapshotOf(s.store, found.value).value;
      AppliedDraws(s.store.objects, found.value.objectId, snap.fields, s.next);
      if r.store.objects != s.store.objects {
        SnapshotOfOk(s, found.value);
        AppliedFacts(s.store.objects, found.value.objectId, snap.fields, s.next);
        forall i | 0 <= i < |s.store.runs|
          ensures RunOk(r.store.objects, s.store.runs[i])
        {
          RunStaysOk(s.store.objects, r.store.objects, s.store.runs[i]);
        }
      } else {
        StoreOkLater(s, r.next);
      }
    }
  }

  /** The snapshot behind an approval is one of a recorded run, of the approval's object. */
  lemma SnapshotOfOk(s: Sys, a: DriftApproval)
    requires StoreOk(s) && SnapshotOf(s.store, a).Some?
    ensures var snap := SnapshotOf(s.store, a).value;
      && snap.objectId == a.objectId && FindRun(s.store.runs, a.discoveryRunId).Some?
      && SnapshotOk(s.store.objects, FindRun(s.store.runs, a.discoveryRunId).value.assetId, snap)
  {
    hide ObjectsOk, SnapshotOk, SnapshotsDistinct;
    var i := FoundRun(s.store.runs, a.discoveryRunId);
    assert RunOk(s.store.objects, s.store.runs[i]);
    var j := FoundSnapshot(s.store.runs[i].snapshots, a.objectId);
  }

  lemma FoundRun(runs: seq<RunRow>, id: Id) returns (i: nat)
    requires FindRun(runs, id).Some?
    ensures i < |runs| && runs[i] == FindRun(runs, id).value && runs[i].id == id
  {
    if runs[0].id == id {
      i := 0;
    } else {
      i := FoundRun(runs[1..], id);
      i := i + 1;
    }
  }

  lemma FoundSnapshot(snapshots: seq<SchemaSnapshot>, id: Id) returns (i: nat)
    requires FirstSnapshot(snapshots, id).Some?
    ensures i < |snapshots| && snapshots[i] == FirstSnapshot(snapshots, id).value && snapshots[i].objectId == id
  {
    if snapshots[0].objectId == id {
      i := 0;
    } else {
      i := FoundSnapshot(snapshots[1..], id);
      i := i + 1;
    }
  }

  lemma StepKeepsOk(s: Sys, ev: Event)
    requires StoreOk(s) && EventOk(ev)
    ensures StoreOk(Step(s, ev))
  {
    hide StoreOk, DiscoveredAsset, Decided, ScanOk;
    match ev
    case Discover(assetId, assetName, scan) =>
      if ResolveAsset(s.store, assetId, assetName).Ok? {
        DiscoverKeepsOk(s, ResolveAsset(s.store, assetId, assetName).value, scan);
      }
    case Decide(approvalId, approve) => DecideKeepsOk(s, approvalId, if approve then APPROVED else REJECTED);
  }

  // ---------- In step with the latest snapshot ----------

  predicate IsDone(r: RunRow) {
    r.status.COMPLETED? || r.status.PARTIAL_RUN?
  }

  /** The object's latest snapshot: in the last completed or partial run that still found it. */
  function LastSeen(runs: seq<RunRow>, id: Id): Option<SchemaSnapshot> {
    if runs == [] then None
    else
      var last := runs[|runs| - 1];
      if IsDone(last) && FirstSnapshot(last.snapshots, id).Some? then FirstSnapshot(last.snapshots, id)
      else LastSeen(runs[..|runs| - 1], id)
  }

  /** The stale objects are exactly those whose elements do not match their latest snapshot. */
  ghost predicate StaleAre(store: Store, stale: set<Id>) {
    forall id :: LastSeen(store.runs, id).Some? ==>
      (InStep(ElementsOf(store.objects, id), LastSeen(store.runs, id).value.fields) <==> id !in stale)
  }

  /** Objects of a run whose changes are all critical: reported for approval, not applied. */
  function Withheld(plan: Plan): set<Id> {
    set s | s in plan.snapshots && !AppliesNow(plan.first, plan.events, s.objectId)
            && EventsOf(plan.events, s.objectId, true) != [] :: s.objectId
  }

  /** Withheld objects of which a field has no matching element: a withheld removal alone leaves none behind. */
  function LeftBehind(objects: seq<DataObject>, plan: Plan): set<Id> {
    set s | s in plan.snapshots && s.objectId in Withheld(plan)
            && (exists f | f in s.fields :: !HasField(ElementsOf(objects, s.objectId), f)) :: s.objectId
  }

  /** Some field of the latest snapshot does not survive applying the approved one. */
  predicate Regresses(store: Store, a: DriftApproval) {
    match (SnapshotOf(store, a), LastSeen(store.runs, a.objectId))
    case (Some(snap), Some(latest)) =>
      exists f | f in latest.fields :: !StillFits(ElementsOf(store.objects, a.objectId), snap.fields, f)
    case _ => false
  }

  /** Which objects fall behind and which catch up, judged by the elements before the event. */
  function StaleAfter(s: Sys, ev: Event, stale: set<Id>): set<Id> {
    match ev
    case Discover(assetId, assetName, scan) =>
      if Discovered(s.store, assetId, assetName, scan, s.next).outcome.Err? then stale
      else
        var plan := Planned(s.store, ResolveAsset(s.store, assetId, assetName).value, scan.value, s.next);
        StaleAfterPlan(s.store.objects, plan, stale)
    case Decide(approvalId, approve) =>
      if !approve || Decided(s.store, approvalId, APPROVED, s.next).outcome.Err? then stale
      else
        var a := FindApproval(s.store.approvals, approvalId).value;
        if SnapshotOf(s.store, a).None? then stale
        else if Regresses(s.store, a) then stale + {a.objectId}
        else stale - {a.objectId}
  }

  function StaleAfterPlan(objects: seq<DataObject>, plan: Plan, stale: set<Id>): set<Id> {
    (stale - Touched(plan.first, plan.events, plan.snapshots) - Withheld(plan)) + LeftBehind(objects, plan)
  }

  function StaleOver(s: Sys, events: seq<Event>): set<Id> {
    if events == [] then {}
    else
      var front := events[..|events| - 1];
      StaleAfter(Play(s, front), events[|events| - 1], StaleOver(s, front))
  }

  /** Being in step depends on the shape of the snapshot only. */
  lemma InStepByShape(elements: seq<DataElement>, a: seq<SchemaField>, b: seq<SchemaField>)
    requires DistinctFields(a) && DistinctFields(b) && Shape(a) == Shape(b) && InStep(elements, a)
    ensures InStep(elements, b)
  {
    IndexOfDistinct(a);
    IndexOfDistinct(b);
    IndexEntries(a);
    forall f | f in b
      ensures f.name in ByName(elements) && Matches(ByName(elements)[f.name], f)
    {
      assert f.name in Shape(b) && Shape(b)[f.name] == Column(f.normalizedType, f.nullable);
      assert f.name in Shape(a);
      var g := Index(a)[f.name];
      assert g in a && g.normalizedType == f.normalizedType && g.nullable == f.nullable;
    }
  }

  lemma InStepByShapeIff(elements: seq<DataElement>, a: seq<SchemaField>, b: seq<SchemaField>)
    requires DistinctFields(a) && DistinctFields(b) && Shape(a) == Shape(b)
    ensures InStep(elements, a) <==> InStep(elements, b)
  {
    hide InStep, Shape;
    if InStep(elements, a) {
      InStepByShape(elements, a, b);
    } else if InStep(elements, b) {
      InStepByShape(elements, b, a);
    }
  }

  lemma LatestIsRecorded(runs: seq<RunRow>, assetId: Id)
    ensures LatestRun(runs, assetId).Some? ==> LatestRun(runs, assetId).value in runs && LatestRun(runs, assetId).value.assetId == assetId
  {
  }

  lemma BaselineOk(s: Sys, assetId: Id)
    requires StoreOk(s)
    ensures SnapshotsDistinct(BaselineSnapshots(s.store.runs, assetId))
    ensures forall snap :: snap in BaselineSnapshots(s.store.runs, assetId) ==> SnapshotOk(s.store.objects, assetId, snap)
  {
    hide SnapshotOk, ObjectsOk;
    LatestIsRecorded(s.store.runs, assetId);
    if LatestRun(s.store.runs, assetId).Some? {
      var r := LatestRun(s.store.runs, assetId).value;
      var i :| 0 <= i < |s.store.runs| && s.store.runs[i] == r;
      assert RunOk(s.store.objects, r);
    }
  }

  /** Without events a snapshot has the shape of its predecessor. */
  lemma NoEventsSameShape(prev: map<Id, SchemaSnapshot>, snap: SchemaSnapshot)
    requires Judged(SnapshotEvents(prev, snap), true) == [] && Judged(SnapshotEvents(prev, snap), false) == []
    ensures snap.objectId in prev && Shape(prev[snap.objectId].fields) == Shape(snap.fields)
  {
    hide Diff, Shape;
    var events := SnapshotEvents(prev, snap);
    if events != [] {
      JudgedMisses(events);
    }
    if snap.objectId in prev {
      EmptyDiffIff(prev[snap.objectId], snap);
    }
  }

  lemma JudgedMisses(events: seq<DriftEvent>)
    requires events != []
    ensures Judged(events, true) != [] || Judged(events, false) != []
  {
  }

  /** The snapshot of a successful run that is neither applied nor withheld has not changed. */
  lemma UnchangedSnapshot(s: Sys, assetId: Id, raws: seq<RawSnapshot>, i: nat)
    requires StoreOk(s) && ScanOk(raws)
    requires var plan := Planned(s.store, assetId, raws, s.next);
      && i < |plan.snapshots| && !AppliesNow(plan.first, plan.events, plan.snapshots[i].objectId)
      && plan.snapshots[i].objectId !in Withheld(plan)
    ensures var plan := Planned(s.store, assetId, raws, s.next);
      var snap := plan.snapshots[i];
      exists before :: before in BaselineSnapshots(s.store.runs, assetId)
        && before.objectId == snap.objectId && Shape(before.fields) == Shape(snap.fields)
  {
    hide ObjectsOk, RunOk, SnapshotOk, Shape, Repaired, Drifts, SnapshotEvents, Provisioned;
    var plan := Planned(s.store, assetId, raws, s.next);
    var prev := PrevOf(s.store, assetId);
    PlanSnapshots(s, assetId, raws);
    SnapshotIndexIs(BaselineSnapshots(s.store.runs, assetId));
    EventsOfSnapshot(prev, plan.snapshots, i, true);
    EventsOfSnapshot(prev, plan.snapshots, i, false);
    assert plan.snapshots[i] in plan.snapshots;
    NoEventsSameShape(prev, plan.snapshots[i]);
    assert prev[plan.snapshots[i].objectId] in BaselineSnapshots(s.store.runs, assetId);
  }

  lemma LastSeenAfter(runs: seq<RunRow>, row: RunRow, id: Id)
    ensures LastSeen(runs + [row], id)
         == if IsDone(row) && FirstSnapshot(row.snapshots, id).Some? then FirstSnapshot(row.snapshots, id) else LastSeen(runs, id)
  {
    assert (runs + [row])[..|runs|] == runs;
  }

  /** Whatever was seen is catalogued, under the name it was seen with. */
  lemma {:induction false} SeenIsCatalogued(objects: seq<DataObject>, runs: seq<RunRow>, id: Id)
    requires forall i :: 0 <= i < |runs| ==> RunOk(objects, runs[i])
    requires LastSeen(runs, id).Some?
    ensures var snap := LastSeen(runs, id).value;
      && snap.objectId == id && FindObject(objects, id).Some? && DistinctFields(snap.fields)
  {
    hide RunOk, FindObject, DistinctFields;
    var last := runs[|runs| - 1];
    if IsDone(last) && FirstSnapshot(last.snapshots, id).Some? {
      RunSnapshotOk(objects, last, id);
    } else {
      SeenIsCatalogued(objects, runs[..|runs| - 1], id);
    }
  }

  lemma RunSnapshotOk(objects: seq<DataObject>, r: RunRow, id: Id)
    requires RunOk(objects, r) && FirstSnapshot(r.snapshots, id).Some?
    ensures var snap := FirstSnapshot(r.snapshots, id).value;
      snap.objectId == id && snap in r.snapshots && SnapshotOk(objects, r.assetId, snap)
  {
    hide FindObject, DistinctFields;
    var i := FoundSnapshot(r.snapshots, id);
    assert SnapshotOk(objects, r.assetId, r.snapshots[i]);
  }

  /** What the asset's last run found was seen last there: objects do not change assets. */
  lemma {:induction false} BaselineIsLastSeen(objects: seq<DataObject>, runs: seq<RunRow>, assetId: Id, snap: SchemaSnapshot)
    requires forall i :: 0 <= i < |runs| ==> RunOk(objects, runs[i])
    requires snap in BaselineSnapshots(runs, assetId)
    ensures LastSeen(runs, snap.objectId) == Some(snap)
  {
    hide FindObject, DistinctFields, SnapshotsDistinct;
    var front, last := runs[..|runs| - 1], runs[|runs| - 1];
    assert RunOk(objects, last);
    if IsBaseline(last, assetId) {
      FirstIsThe(last.snapshots, snap);
    } else {
      assert snap in BaselineSnapshots(front, assetId);
      BaselineIsLastSeen(objects, front, assetId, snap);
      BaselineAsset(objects, front, assetId, snap);
      if FirstSnapshot(last.snapshots, snap.objectId).Some? {
        RunSnapshotOk(objects, last, snap.objectId);
      }
    }
  }

  lemma BaselineAsset(objects: seq<DataObject>, runs: seq<RunRow>, assetId: Id, snap: SchemaSnapshot)
    requires forall i :: 0 <= i < |runs| ==> RunOk(objects, runs[i])
    requires snap in BaselineSnapshots(runs, assetId)
    ensures SnapshotOk(objects, assetId, snap)
  {
    hide SnapshotOk, SnapshotsDistinct;
    LatestIsRecorded(runs, assetId);
    var r := LatestRun(runs, assetId).value;
    var i :| 0 <= i < |runs| && runs[i] == r;
    assert RunOk(objects, r);
  }

  lemma NotInPlan(objects: seq<DataObject>, plan: Plan, stale: set<Id>, id: Id)
    requires forall snap :: snap in plan.snapshots ==> snap.objectId != id
    ensures id !in Touched(plan.first, plan.events, plan.snapshots)
    ensures id in StaleAfterPlan(objects, plan, stale) <==> id in stale
  {
    hide AppliesNow, EventsOf, HasField, ElementsOf;
  }

  /** A withheld object was in the latest run already. */
  lemma WithheldIsKnown(s: Sys, assetId: Id, raws: seq<RawSnapshot>, i: nat)
    requires StoreOk(s) && ScanOk(raws)
    requires var plan := Planned(s.store, assetId, raws, s.next);
      i < |plan.snapshots| && plan.snapshots[i].objectId in Withheld(plan)
    ensures FindObject(s.store.objects, Planned(s.store, assetId, raws, s.next).snapshots[i].objectId).Some?
    ensures exists before ::
              before in BaselineSnapshots(s.store.runs, assetId) && before.objectId == Planned(s.store, assetId, raws, s.next).snapshots[i].objectId
  {
    hide ObjectsOk, RunOk, Repaired, Drifts, SnapshotEvents, Provisioned, FindObject, SnapshotIndex;
    var plan := Planned(s.store, assetId, raws, s.next);
    var prev := PrevOf(s.store, assetId);
    var snap := plan.snapshots[i];
    PlanSnapshots(s, assetId, raws);
    SnapshotIndexIs(BaselineSnapshots(s.store.runs, assetId));
    BaselineOk(s, assetId);
    EventsOfSnapshot(prev, plan.snapshots, i, false);
    NewMeansInformative(prev, snap);
    assert snap.objectId in prev;
    assert SnapshotOk(s.store.objects, assetId, prev[snap.objectId]);
  }

  lemma NewMeansInformative(prev: map<Id, SchemaSnapshot>, snap: SchemaSnapshot)
    ensures snap.objectId !in prev ==> Judged(SnapshotEvents(prev, snap), false) != []
  {
    hide Diff;
    assert snap.objectId !in prev ==> SnapshotEvents(prev, snap) == [DriftEvent(snap.objectId, OBJECT_ADDED, None, None, None)];
  }

  lemma LeftBehindIff(objects: seq<DataObject>, plan: Plan, i: nat)
    requires SnapshotsDistinct(plan.snapshots) && i < |plan.snapshots|
    ensures plan.snapshots[i].objectId in LeftBehind(objects, plan)
       <==> plan.snapshots[i].objectId in Withheld(plan)
            && !InStep(ElementsOf(objects, plan.snapshots[i].objectId), plan.snapshots[i].fields)
  {
    hide Withheld, ElementsOf, ByName, Matches;
    var snap := plan.snapshots[i];
    assert snap in plan.snapshots;
    if snap.objectId in LeftBehind(objects, plan) {
      var other :| other in plan.snapshots && other.objectId == snap.objectId
                   && exists f :: f in other.fields && !HasField(ElementsOf(objects, other.objectId), f);
      var k :| 0 <= k < |plan.snapshots| && plan.snapshots[k] == other;
      assert k == i;
    }
    if !InStep(ElementsOf(objects, snap.objectId), snap.fields) {
      var f :| f in snap.fields && !HasField(ElementsOf(objects, snap.objectId), f);
    }
  }

  lemma TouchedMeansApplied(plan: Plan, i: nat)
    requires i < |plan.snapshots|
    ensures plan.snapshots[i].objectId in Touched(plan.first, plan.events, plan.snapshots)
       <==> AppliesNow(plan.first, plan.events, plan.snapshots[i].objectId)
    ensures plan.snapshots[i].objectId in Withheld(plan) ==> !AppliesNow(plan.first, plan.events, plan.snapshots[i].objectId)
  {
    hide AppliesNow, EventsOf;
    assert plan.snapshots[i] in plan.snapshots;
  }

  /** One snapshot of the new run. */
  lemma OwnSnapshotStale(s: Sys, assetId: Id, raws: seq<RawSnapshot>, stale: set<Id>, i: nat)
    requires StoreOk(s) && ScanOk(raws) && StaleAre(s.store, stale)
    requires PlanFacts(s, assetId, Planned(s.store, assetId, raws, s.next))
    requires i < |Planned(s.store, assetId, raws, s.next).snapshots|
    ensures var plan := Planned(s.store, assetId, raws, s.next);
      InStep(ElementsOf(plan.repair.objects, plan.snapshots[i].objectId), plan.snapshots[i].fields)
      <==> plan.snapshots[i].objectId !in StaleAfterPlan(s.store.objects, plan, stale)
  {
    hide FindObject, ObjectsOk, InStep, Planned, StoreOk, ScanOk, SnapshotsDistinct, DistinctFields, Shape, ElementsOf, StaleAre,
      Withheld, Touched, LeftBehind, AppliesNow;
    var plan := Planned(s.store, assetId, raws, s.next);
    var snap := plan.snapshots[i];
    TouchedMeansApplied(plan, i);
    LeftBehindIff(s.store.objects, plan, i);
    if snap.objectId in Withheld(plan) {
      WithheldIsKnown(s, assetId, raws, i);
    } else if !AppliesNow(plan.first, plan.events, snap.objectId) {
      UnchangedStale(s, assetId, raws, stale, i);
    }
  }

  lemma UnchangedStale(s: Sys, assetId: Id, raws: seq<RawSnapshot>, stale: set<Id>, i: nat)
    requires StoreOk(s) && ScanOk(raws) && StaleAre(s.store, stale)
    requires PlanFacts(s, assetId, Planned(s.store, assetId, raws, s.next))
    requires var plan := Planned(s.store, assetId, raws, s.next);
      && i < |plan.snapshots| && !AppliesNow(plan.first, plan.events, plan.snapshots[i].objectId)
      && plan.snapshots[i].objectId !in Withheld(plan)
    ensures var plan := Planned(s.store, assetId, raws, s.next);
      InStep(ElementsOf(plan.repair.objects, plan.snapshots[i].objectId), plan.snapshots[i].fields)
      <==> plan.snapshots[i].objectId !in stale
  {
    hide FindObject, ObjectsOk, InStep, Planned, StoreOk, ScanOk, SnapshotsDistinct, DistinctFields, Shape, ElementsOf, StaleAre,
      Withheld, Touched, AppliesNow;
    var plan := Planned(s.store, assetId, raws, s.next);
    var snap := plan.snapshots[i];
    TouchedMeansApplied(plan, i);
    UnchangedSnapshot(s, assetId, raws, i);
    var before :| before in BaselineSnapshots(s.store.runs, assetId)
      && before.objectId == snap.objectId && Shape(before.fields) == Shape(snap.fields);
    BaselineOk(s, assetId);
    assert SnapshotOk(s.store.objects, assetId, before) && SnapshotOk(plan.repair.objects, assetId, snap);
    BaselineSeen(s, assetId, before);
    StaleAt(s.store, stale, snap.objectId);
    InStepByShapeIff(ElementsOf(s.store.objects, snap.objectId), before.fields, snap.fields);
  }

  lemma BaselineSeen(s: Sys, assetId: Id, snap: SchemaSnapshot)
    requires StoreOk(s) && snap in BaselineSnapshots(s.store.runs, assetId)
    ensures LastSeen(s.store.runs, snap.objectId) == Some(snap)
  {
    hide RunOk, ObjectsOk;
    BaselineIsLastSeen(s.store.objects, s.store.runs, assetId, snap);
  }

  lemma StaleAt(store: Store, stale: set<Id>, id: Id)
    requires StaleAre(store, stale) && LastSeen(store.runs, id).Some?
    ensures InStep(ElementsOf(store.objects, id), LastSeen(store.runs, id).value.fields) <==> id !in stale
  {
  }

  lemma SeenInStore(s: Sys, id: Id)
    requires StoreOk(s) && LastSeen(s.store.runs, id).Some?
    ensures FindObject(s.store.objects, id).Some?
  {
    hide RunOk, ObjectsOk;
    SeenIsCatalogued(s.store.objects, s.store.runs, id);
  }

  lemma DiscoveryKeepsStale(s: Sys, assetId: Id, raws: seq<RawSnapshot>, stale: set<Id>)
    requires StoreOk(s) && ScanOk(raws) && StaleAre(s.store, stale)
    requires Planned(s.store, assetId, raws, s.next).repair.error.None?
    ensures StaleAre(DiscoveredAsset(s.store, assetId, Ok(raws), s.next).store,
                     StaleAfterPlan(s.store.objects, Planned(s.store, assetId, raws, s.next), stale))
  {
    hide FindObject, ObjectsOk, InStep, Planned, StoreOk, ScanOk, ElementsOf, LastSeen, Touched, Withheld, SavedRun, RunOk, HeadsKept,
      AppliesNow, StaleAfterPlan, FirstSnapshot;
    var plan := Planned(s.store, assetId, raws, s.next);
    DiscoveryFacts(s, assetId, raws);
    var row := RunRow(Uuid(s.next), assetId, COMPLETED, plan.snapshots, plan.events);
    NewRunRow(s, row);
    var after := DiscoveredAsset(s.store, assetId, Ok(raws), s.next).store;
    forall id | LastSeen(after.runs, id).Some?
      ensures InStep(ElementsOf(after.objects, id), LastSeen(after.runs, id).value.fields)
         <==> id !in StaleAfterPlan(s.store.objects, plan, stale)
    {
      LastSeenAfter(s.store.runs, row, id);
      if FirstSnapshot(plan.snapshots, id).Some? {
        var i := FoundSnapshot(plan.snapshots, id);
        OwnSnapshotStale(s, assetId, raws, stale, i);
      } else {
        NotAmong(plan.snapshots, id);
        NotInPlan(s.store.objects, plan, stale, id);
        SeenInStore(s, id);
        StaleAt(s.store, stale, id);
      }
    }
  }

  lemma NotAmong(snapshots: seq<SchemaSnapshot>, id: Id)
    requires FirstSnapshot(snapshots, id).None?
    ensures forall snap :: snap in snapshots ==> snap.objectId != id
  {
  }

  lemma FailedScanKeepsStale(s: Sys, assetId: Id, e: Error, stale: set<Id>)
    requires StoreOk(s) && StaleAre(s.store, stale)
    ensures StaleAre(DiscoveredAsset(s.store, assetId, Err(e), s.next).store, stale)
  {
    hide InStep, ElementsOf, LastSeen, SavedRun, StoreOk;
    var row := RunRow(Uuid(s.next), assetId, FAILED, [], []);
    NewRunRow(s, row);
    forall id
      ensures LastSeen(s.store.runs + [row], id) == LastSeen(s.store.runs, id)
    {
      LastSeenAfter(s.store.runs, row, id);
    }
  }

  /**
   An approval that goes through leaves its object in step with a snapshot - its latest, say - iff
   each field there is asked for alike by the approved snapshot, or is not named by it and has its
   element already.
   */
  lemma ApprovalInStepIff(s: Sys, approvalId: Id, fields: seq<SchemaField>)
    requires StoreOk(s) && Decided(s.store, approvalId, APPROVED, s.next).outcome.Ok?
    requires SnapshotOf(s.store, FindApproval(s.store.approvals, approvalId).value).Some?
    ensures var a := FindApproval(s.store.approvals, approvalId).value;
      InStep(ElementsOf(Decided(s.store, approvalId, APPROVED, s.next).store.objects, a.objectId), fields)
      <==> forall f :: f in fields ==> StillFits(ElementsOf(s.store.objects, a.objectId), SnapshotOf(s.store, a).value.fields, f)
  {
    hide FindObject, ObjectsOk, InStep, Healed, BaselineSnapshots, SavedApproval, FindApproval, StoreOk, SnapshotOk, StillFits, WithElements;
    var a := FindApproval(s.store.approvals, approvalId).value;
    var snap := SnapshotOf(s.store, a).value;
    SnapshotOfOk(s, a);
    ObjectsOkOf(s);
    SnapshotOkFields(s.store.objects, FindRun(s.store.runs, a.discoveryRunId).value.assetId, snap);
    var o := FindObject(s.store.objects, a.objectId).value;
    FoundElementsOk(s.store.objects, a.objectId, s.next);
    AppliedFitsIff(a.objectId, o.elements, s.next, snap.fields, fields);
    FindAfterWithElements(s.store.objects, a.objectId, Healed(a.objectId, o.elements, s.next, snap.fields).elements, a.objectId);
  }

  lemma ApprovalKeepsStale(s: Sys, approvalId: Id, stale: set<Id>)
    requires StoreOk(s) && StaleAre(s.store, stale)
    requires Decided(s.store, approvalId, APPROVED, s.next).outcome.Ok?
    ensures StaleAre(Decided(s.store, approvalId, APPROVED, s.next).store, StaleAfter(s, Decide(approvalId, true), stale))
  {
    hide FindObject, ObjectsOk, InStep, Applied, ElementsOf, LastSeen, SavedApproval, FindApproval, StoreOk, SnapshotOk, StillFits;
    var a := FindApproval(s.store.approvals, approvalId).value;
    var after := Decided(s.store, approvalId, APPROVED, s.next).store;
    var stale' := StaleAfter(s, Decide(approvalId, true), stale);
    if SnapshotOf(s.store, a).None? {
      StaleSameObjects(s.store, after, stale);
    } else {
      var snap := SnapshotOf(s.store, a).value;
      SnapshotOfOk(s, a);
      ObjectsOkOf(s);
      SnapshotOkFields(s.store.objects, FindRun(s.store.runs, a.discoveryRunId).value.assetId, snap);
      AppliedFacts(s.store.objects, a.objectId, snap.fields, s.next);
      forall id | LastSeen(after.runs, id).Some?
        ensures InStep(ElementsOf(after.objects, id), LastSeen(after.runs, id).value.fields) <==> id !in stale'
      {
        if id == a.objectId {
          ApprovalInStepIff(s, approvalId, LastSeen(s.store.runs, id).value.fields);
        } else {
          StaleAt(s.store, stale, id);
        }
      }
    }
  }

  lemma SnapshotOkFields(objects: seq<DataObject>, assetId: Id, s: SchemaSnapshot)
    requires SnapshotOk(objects, assetId, s)
    ensures DistinctFields(s.fields)
  {
  }

  lemma StaleSameObjects(a: Store, b: Store, stale: set<Id>)
    requires StaleAre(a, stale) && a.objects == b.objects && a.runs == b.runs
    ensures StaleAre(b, stale)
  {
  }

  lemma FirstIsThe(snapshots: seq<SchemaSnapshot>, snap: SchemaSnapshot)
    requires SnapshotsDistinct(snapshots) && snap in snapshots
    ensures FirstSnapshot(snapshots, snap.objectId) == Some(snap)
  {
    if snapshots[0] != snap {
      assert snap in snapshots[1..];
      FirstIsThe(snapshots[1..], snap);
      var i :| 0 <= i < |snapshots| && snapshots[i] == snap;
      assert snapshots[0].objectId != snapshots[i].objectId;
    }
  }

  lemma StepKeepsStale(s: Sys, ev: Event, stale: set<Id>)
    requires StoreOk(s) && EventOk(ev) && StaleAre(s.store, stale)
    ensures StaleAre(Step(s, ev).store, StaleAfter(s, ev, stale))
  {
    hide StoreOk, StaleAre, Planned, ScanOk, StaleAfterPlan, ResolveAsset;
    match ev
    case Discover(assetId, assetName, scan) =>
      var asset := ResolveAsset(s.store, assetId, assetName);
      if asset.Ok? {
        match scan
        case Err(e) => FailedScanKeepsStale(s, asset.value, e, stale);
        case Ok(raws) =>
          if Planned(s.store, asset.value, raws, s.next).repair.error.None? {
            DiscoveryKeepsStale(s, asset.value, raws, stale);
          }
      }
    case Decide(approvalId, approve) =>
      if approve && Decided(s.store, approvalId, APPROVED, s.next).outcome.Ok? {
        ApprovalKeepsStale(s, approvalId, stale);
      } else {
        RejectionKeepsObjects(s, approvalId, approve);
        StaleSameObjects(s.store, Step(s, ev).store, stale);
      }
  }

  lemma RejectionKeepsObjects(s: Sys, approvalId: Id, approve: bool)
    requires !approve || Decided(s.store, approvalId, APPROVED, s.next).outcome.Err?
    ensures Step(s, Decide(approvalId, approve)).store.objects == s.store.objects
    ensures Step(s, Decide(approvalId, approve)).store.runs == s.store.runs
  {
    hide Applied, SavedApproval;
  }

  ghost predicate EventsOk(events: seq<Event>) {
    forall i :: 0 <= i < |events| ==> EventOk(events[i])
  }

  /**
   Over every history of discoveries and decisions, from a database without runs: an object has,
   for every field of its latest snapshot, an element of the mapped type and nullability iff no
   withheld change left it behind and no approval took it back since it was last in step.
   */
  lemma {:induction false} CatalogueInStepIff(s: Sys, events: seq<Event>)
    requires StoreOk(s) && s.store.runs == [] && EventsOk(events)
    ensures StoreOk(Play(s, events)) && StaleAre(Play(s, events).store, StaleOver(s, events))
  {
    hide StoreOk, StaleAre, Step, StaleAfter, EventOk;
    if events == [] {
      NoRunsNoStale(s);
    } else {
      var front, ev := events[..|events| - 1], events[|events| - 1];
      assert EventOk(ev);
      CatalogueInStepIff(s, front);
      StepKeepsOk(Play(s, front), ev);
      StepKeepsStale(Play(s, front), ev, StaleOver(s, front));
    }
  }

  lemma NoRunsNoStale(s: Sys)
    requires s.store.runs == []
    ensures StaleAre(s.store, {})
  {
  }

  /**
   A withheld change leaves an object that was in step out of step iff some field has another
   mapped type or nullability than before; a withheld removal does not.
   */
  lemma WithheldInStepIff(s: Sys, assetId: Id, raws: seq<RawSnapshot>, i: nat, before: SchemaSnapshot)
    requires StoreOk(s) && ScanOk(raws)
    requires var plan := Planned(s.store, assetId, raws, s.next);
      && plan.repair.error.None? && i < |plan.snapshots| && plan.snapshots[i].objectId in Withheld(plan)
      && before in BaselineSnapshots(s.store.runs, assetId) && before.objectId == plan.snapshots[i].objectId
      && InStep(ElementsOf(s.store.objects, before.objectId), before.fields)
    ensures var plan := Planned(s.store, assetId, raws, s.next);
      InStep(ElementsOf(plan.repair.objects, plan.snapshots[i].objectId), plan.snapshots[i].fields)
      <==> forall f :: f in plan.snapshots[i].fields ==>
             f.name in Index(before.fields) && SameDemand(Index(before.fields)[f.name], f)
  {
    hide FindObject, ObjectsOk, InStep, Planned, StoreOk, ScanOk, SnapshotsDistinct, DistinctFields, ElementsOf, Withheld, Touched, AppliesNow, Index;
    var plan := Planned(s.store, assetId, raws, s.next);
    DiscoveryFacts(s, assetId, raws);
    TouchedMeansApplied(plan, i);
    WithheldIsKnown(s, assetId, raws, i);
    WithheldAddsNoField(s, assetId, raws, i, before);
    InStepWithBothIff(ElementsOf(s.store.objects, before.objectId), before.fields, plan.snapshots[i].fields);
  }

  lemma WithheldAddsNoField(s: Sys, assetId: Id, raws: seq<RawSnapshot>, i: nat, before: SchemaSnapshot)
    requires StoreOk(s) && ScanOk(raws)
    requires var plan := Planned(s.store, assetId, raws, s.next);
      && i < |plan.snapshots| && plan.snapshots[i].objectId in Withheld(plan)
      && before in BaselineSnapshots(s.store.runs, assetId) && before.objectId == plan.snapshots[i].objectId
    ensures forall f :: f in Planned(s.store, assetId, raws, s.next).snapshots[i].fields ==> f.name in Index(before.fields)
  {
    hide ObjectsOk, RunOk, Repaired, Drifts, SnapshotEvents, Provisioned, FindObject, SnapshotIndex, Index, Diff, SnapshotOk;
    var plan := Planned(s.store, assetId, raws, s.next);
    var prev := PrevOf(s.store, assetId);
    var snap := plan.snapshots[i];
    PlanSnapshots(s, assetId, raws);
    BaselineOk(s, assetId);
    SnapshotIndexIs(BaselineSnapshots(s.store.runs, assetId));
    EventsOfSnapshot(prev, plan.snapshots, i, false);
    assert prev[snap.objectId] == before;
    AddedFieldIsInformative(prev, snap);
  }

  lemma AddedFieldIsInformative(prev: map<Id, SchemaSnapshot>, snap: SchemaSnapshot)
    requires snap.objectId in prev && Judged(SnapshotEvents(prev, snap), false) == []
    ensures forall f :: f in snap.fields ==> f.name in Index(prev[snap.objectId].fields)
  {
    hide Index, Diff;
    forall f | f in snap.fields
      ensures f.name in Index(prev[snap.objectId].fields)
    {
      if f.name !in Index(prev[snap.objectId].fields) {
        NewFieldIsInformative(prev, snap, f);
      }
    }
  }

  lemma NewFieldIsInformative(prev: map<Id, SchemaSnapshot>, snap: SchemaSnapshot, f: SchemaField)
    requires snap.objectId in prev && f in snap.fields && f.name !in Index(prev[snap.objectId].fields)
    ensures Judged(SnapshotEvents(prev, snap), false) != []
  {
    hide Index, Diff;
    var before := prev[snap.objectId];
    IndexEntries(snap.fields);
    var ev := AddedEvent(snap.objectId, Index(snap.fields)[f.name]);
    assert HasFieldEvent(before, snap, f.name, ev);
    DiffHolds(before, snap, ev);
    JudgedHolds(SnapshotEvents(prev, snap), ev);
  }

  lemma {:induction false} JudgedHolds(events: seq<DriftEvent>, ev: DriftEvent)
    ensures ev in events && !ev.IsCritical() ==> Judged(events, false) != []
  {
    if events != [] {
      JudgedHolds(events[..|events| - 1], ev);
    }
  }
}
