/** What follows for callers of discovery and of approvals. */
module DiscoveryResults {
  import opened Wrappers
  import opened Schema
  import opened SchemaDiffer
  import opened SchemaDrift
  import opened PlatformStore
  import opened ObjectService
  import opened Discovery
  import opened DiscoveryUseCases
  import opened DiscoveryHistory
  import opened CatalogueInStep

  // ---------- Histories without withheld changes ----------

  /** A discovery that withholds nothing, or a refused or failing event. */
  ghost predicate WithholdsNothing(s: Sys, ev: Event) {
    match ev
    case Decide(_, approve) => !approve
    case Discover(assetId, assetName, scan) =>
      Discovered(s.store, assetId, assetName, scan, s.next).outcome.Ok? ==>
        Withheld(Planned(s.store, ResolveAsset(s.store, assetId, assetName).value, scan.value, s.next)) == {}
  }

  ghost predicate NeverWithholds(s: Sys, events: seq<Event>) {
    events == [] || (
      && NeverWithholds(s, events[..|events| - 1])
      && WithholdsNothing(Play(s, events[..|events| - 1]), events[|events| - 1]))
  }

  lemma {:induction false} NothingGoesStale(s: Sys, events: seq<Event>)
    requires NeverWithholds(s, events)
    ensures StaleOver(s, events) == {}
  {
    hide Discovered, Planned, Withheld, Touched, Step;
    if events != [] {
      NothingGoesStale(s, events[..|events| - 1]);
    }
  }

  /** As long as no change is critical only, every object ever recorded mirrors its latest snapshot. */
  lemma CatalogueAlwaysInStep(s: Sys, events: seq<Event>, id: Id)
    requires StoreOk(s) && s.store.runs == [] && EventsOk(events) && NeverWithholds(s, events)
    requires LastSeen(Play(s, events).store.runs, id).Some?
    ensures var store := Play(s, events).store;
      FindObject(store.objects, id).Some? && InStep(ElementsOf(store.objects, id), LastSeen(store.runs, id).value.fields)
  {
    hide StoreOk, Play, InStep, StaleOver, NeverWithholds, LastSeen;
    CatalogueInStepIff(s, events);
    NothingGoesStale(s, events);
    SeenInStore(Play(s, events), id);
    StaleAt(Play(s, events).store, {}, id);
  }

  // ---------- A run on an unchanged source ----------

  /** Every scanned table was in the latest run under the same name with the same shape. */
  ghost predicate SourceUnchanged(store: Store, assetId: Id, raws: seq<RawSnapshot>) {
    forall i :: 0 <= i < |raws| ==> KnownUnchanged(store, assetId, raws[i])
  }

  ghost predicate KnownUnchanged(store: Store, assetId: Id, raw: RawSnapshot) {
    exists before :: before in BaselineSnapshots(store.runs, assetId)
      && before.objectName == raw.objectName && Shape(before.fields) == Shape(raw.fields)
  }

  lemma {:induction false} NothingProvisioned(assetId: Id, p: Provision, raws: seq<RawSnapshot>)
    requires forall i :: 0 <= i < |raws| ==> raws[i].objectName in p.names
    ensures Provisioned(assetId, p, raws).objects == p.objects && Provisioned(assetId, p, raws).names == p.names
  {
    if raws != [] {
      NothingProvisioned(assetId, p, raws[..|raws| - 1]);
    }
  }

  /** A known table keeps its object id. */
  lemma KnownTable(s: Sys, assetId: Id, raw: RawSnapshot) returns (before: SchemaSnapshot)
    requires StoreOk(s) && KnownUnchanged(s.store, assetId, raw)
    ensures before in BaselineSnapshots(s.store.runs, assetId) && Shape(before.fields) == Shape(raw.fields)
    ensures var names := NameIndex(ObjectsOf(s.store.objects, assetId));
      raw.objectName in names && names[raw.objectName] == before.objectId
  {
    hide Shape, ObjectsOf, NameIndex, DistinctFields, RunOk, BaselineSnapshots;
    before :| before in BaselineSnapshots(s.store.runs, assetId)
      && before.objectName == raw.objectName && Shape(before.fields) == Shape(raw.fields);
    BaselineOk(s, assetId);
    assert SnapshotOk(s.store.objects, assetId, before);
    ObjectsOkOf(s);
    UniqueNamesOf(s.store.objects, s.next);
    NameIndexOk(assetId, s.store.objects);
    FoundObject(s.store.objects, before.objectId);
    var o := FindObject(s.store.objects, before.objectId).value;
    var i :| 0 <= i < |s.store.objects| && s.store.objects[i] == o;
  }

  lemma {:induction false} NoDrifts(prev: map<Id, SchemaSnapshot>, snapshots: seq<SchemaSnapshot>)
    requires forall i :: 0 <= i < |snapshots| ==> SnapshotEvents(prev, snapshots[i]) == []
    ensures Drifts(prev, snapshots) == []
  {
    if snapshots != [] {
      NoDrifts(prev, snapshots[..|snapshots| - 1]);
      assert SnapshotEvents(prev, snapshots[|snapshots| - 1]) == [];
    }
  }

  lemma {:induction false} NothingToRepair(runId: Id, assetId: Id, r: Repair, snapshots: seq<SchemaSnapshot>)
    ensures Repaired(runId, assetId, false, [], r, snapshots) == r
  {
    if snapshots != [] {
      NothingToRepair(runId, assetId, r, snapshots[..|snapshots| - 1]);
      assert r.approvals + [] == r.approvals;
    }
  }

  /** A further run on an unchanged source reports no event, creates no object, writes no element and files nothing. */
  lemma UnchangedSourceIsQuiet(s: Sys, assetId: Id, raws: seq<RawSnapshot>)
    requires StoreOk(s) && SourceUnchanged(s.store, assetId, raws)
    ensures var a := DiscoveredAsset(s.store, assetId, Ok(raws), s.next);
      && a.outcome.Ok? && a.outcome.value.driftEvents == []
      && a.store.objects == s.store.objects && a.store.approvals == s.store.approvals
  {
    hide StoreOk, Shape, ObjectsOf, NameIndex, BaselineSnapshots, Diff, SavedRun, KnownUnchanged;
    var names := NameIndex(ObjectsOf(s.store.objects, assetId));
    var prev := PrevOf(s.store, assetId);
    BaselineOk(s, assetId);
    SnapshotIndexIs(BaselineSnapshots(s.store.runs, assetId));
    forall i | 0 <= i < |raws|
      ensures raws[i].objectName in names
      ensures SnapshotEvents(prev, SchemaSnapshot(names[raws[i].objectName], raws[i].objectName, raws[i].fields)) == []
      ensures prev != map[]
    {
      assert KnownUnchanged(s.store, assetId, raws[i]);
      var before := KnownTable(s, assetId, raws[i]);
      var snap := SchemaSnapshot(before.objectId, raws[i].objectName, raws[i].fields);
      assert before.objectId in prev && prev[before.objectId] == before;
      EmptyDiffIff(before, snap);
    }
    NothingProvisioned(assetId, Provision(s.store.objects, names, s.next + 1), raws);
    var plan := Planned(s.store, assetId, raws, s.next);
    NoDrifts(prev, plan.snapshots);
    var p := ProvisionFor(s.store, assetId, raws, s.next);
    if raws == [] {
      assert plan.snapshots == [];
    } else {
      assert raws[0].objectName in names;
      NothingToRepair(Uuid(s.next), assetId, Repair(p.objects, s.store.approvals, p.next, None), plan.snapshots);
    }
  }

  // ---------- Critical drift ----------

  /** A successful run files exactly one pending approval per critical event of its record, in order. */
  lemma ApprovalAccounting(s: Sys, assetId: Id, raws: seq<RawSnapshot>)
    requires StoreOk(s) && ScanOk(raws)
    requires DiscoveredAsset(s.store, assetId, Ok(raws), s.next).outcome.Ok?
    ensures var a := DiscoveredAsset(s.store, assetId, Ok(raws), s.next);
      FiledFor(s.store.approvals, a.store.approvals, Judged(a.outcome.value.driftEvents, true), a.outcome.value.id, assetId)
  {
    hide StoreOk, Repaired, Drifts, FiledFor, ScanOk, SnapshotIndex, SnapshotsDistinct, PrevOk;
    PlanSnapshots(s, assetId, raws);
    SnapshotIndexIs(BaselineSnapshots(s.store.runs, assetId));
    var plan := Planned(s.store, assetId, raws, s.next);
    var p := ProvisionFor(s.store, assetId, raws, s.next);
    assert plan.snapshots[..|plan.snapshots|] == plan.snapshots;
    OneApprovalPerCriticalEvent(Uuid(s.next), assetId, PrevOf(s.store, assetId), plan.first,
                                Repair(p.objects, s.store.approvals, p.next, None), plan.snapshots, |plan.snapshots|);
  }

  /** An object all of whose events are critical keeps its elements when there was a run to compare with. */
  lemma CriticalOnlyObjectsAreNotWritten(s: Sys, assetId: Id, raws: seq<RawSnapshot>, i: nat)
    requires StoreOk(s) && ScanOk(raws)
    requires DiscoveredAsset(s.store, assetId, Ok(raws), s.next).outcome.Ok?
    requires BaselineSnapshots(s.store.runs, assetId) != []
    requires var plan := Planned(s.store, assetId, raws, s.next);
      && i < |plan.snapshots|
      && forall ev :: ev in SnapshotEvents(PrevOf(s.store, assetId), plan.snapshots[i]) ==> ev.IsCritical()
    ensures var id := Planned(s.store, assetId, raws, s.next).snapshots[i].objectId;
      && FindObject(s.store.objects, id).Some?
      && ElementsOf(DiscoveredAsset(s.store, assetId, Ok(raws), s.next).store.objects, id) == ElementsOf(s.store.objects, id)
  {
    hide StoreOk, Repaired, Drifts, ScanOk, SnapshotIndex, SnapshotsDistinct, PrevOk, ObjectsOk, RunOk, ElementsOf, SnapshotOk, HeadsKept, InStep;
    var plan := Planned(s.store, assetId, raws, s.next);
    var snap := plan.snapshots[i];
    var prev := PrevOf(s.store, assetId);
    PlanSnapshots(s, assetId, raws);
    DiscoveryFacts(s, assetId, raws);
    SnapshotIndexIs(BaselineSnapshots(s.store.runs, assetId));
    EventsOfSnapshot(prev, plan.snapshots, i, false);
    NoneJudged(SnapshotEvents(prev, snap));
    CriticalMeansKnown(s, assetId, snap);
  }

  lemma {:induction false} NoneJudged(events: seq<DriftEvent>)
    requires forall ev :: ev in events ==> ev.IsCritical()
    ensures Judged(events, false) == []
  {
    if events != [] {
      var front, last := events[..|events| - 1], events[|events| - 1];
      assert events == front + [last];
      NoneJudged(front);
    }
  }

  lemma CriticalMeansKnown(s: Sys, assetId: Id, snap: SchemaSnapshot)
    requires StoreOk(s)
    requires forall ev :: ev in SnapshotEvents(PrevOf(s.store, assetId), snap) ==> ev.IsCritical()
    ensures FindObject(s.store.objects, snap.objectId).Some?
  {
    hide StoreOk, Diff, SnapshotIndex;
    var prev := PrevOf(s.store, assetId);
    BaselineOk(s, assetId);
    SnapshotIndexIs(BaselineSnapshots(s.store.runs, assetId));
    AddedIsInformative(prev, snap);
    if snap.objectId in prev {
      assert SnapshotOk(s.store.objects, assetId, prev[snap.objectId]);
    }
  }

  lemma AddedIsInformative(prev: map<Id, SchemaSnapshot>, snap: SchemaSnapshot)
    ensures snap.objectId !in prev ==> exists ev :: ev in SnapshotEvents(prev, snap) && !ev.IsCritical()
  {
    hide Diff;
    var ev := DriftEvent(snap.objectId, OBJECT_ADDED, None, None, None);
    assert snap.objectId !in prev ==> SnapshotEvents(prev, snap) == [ev] && ev in SnapshotEvents(prev, snap);
  }

  // ---------- All or nothing ----------

  /**
   A discovery that raises leaves the database as it was, but for a FAILED record when - and only
   when - it was the scan that raised: errors while healing leave no record at all.
   */
  lemma RaisingDiscoveryLeavesARecordIff(s: Sys, assetId: Option<Id>, assetName: string, scan: Result<seq<RawSnapshot>, Error>)
    requires StoreOk(s) && Discovered(s.store, assetId, assetName, scan, s.next).outcome.Err?
    ensures var after := Discovered(s.store, assetId, assetName, scan, s.next).store;
      var asset := ResolveAsset(s.store, assetId, assetName);
      && (after != s.store <==> asset.Ok? && scan.Err?)
      && (after != s.store ==>
            after == s.store.(runs := s.store.runs + [RunRow(Uuid(s.next), asset.value, FAILED, [], [])]))
      && (forall a :: LatestRun(after.runs, a) == LatestRun(s.store.runs, a))
  {
    hide StoreOk, Planned, SavedRun, LatestRun;
    var asset := ResolveAsset(s.store, assetId, assetName);
    if asset.Ok? && scan.Err? {
      var row := RunRow(Uuid(s.next), asset.value, FAILED, [], []);
      NewRunRow(s, row);
      assert |s.store.runs + [row]| != |s.store.runs|;
      forall a
        ensures LatestRun(s.store.runs + [row], a) == LatestRun(s.store.runs, a)
      {
        LatestAfterAppend(s.store.runs, row, a);
      }
    }
  }

  /** An approval takes effect whole - decision and schema - or not at all. */
  lemma ApprovalIsAtomic(s: Sys, approvalId: Id)
    requires StoreOk(s)
    ensures var r := Decided(s.store, approvalId, APPROVED, s.next);
      && (r.outcome.Err? ==> r.store == s.store)
      && (r.outcome.Ok? ==>
            && FindApproval(s.store.approvals, approvalId).Some?
            && var a := FindApproval(s.store.approvals, approvalId).value;
              && a.decision == UNDECIDED
              && FindApproval(r.store.approvals, approvalId) == Some(a.(decision := APPROVED))
              && r.store.runs == s.store.runs
              && (if SnapshotOf(s.store, a).None? then r.store.objects == s.store.objects
                  else InStep(ElementsOf(r.store.objects, a.objectId), SnapshotOf(s.store, a).value.fields)))
  {
    hide Applied, SavedApproval, InStep, SnapshotOk, StoreOk, ObjectsOk;
    var found := FindApproval(s.store.approvals, approvalId);
    if found.Some? {
      FoundApproval(s.store.approvals, approvalId);
      FindAfterSave(s.store.approvals, found.value.(decision := APPROVED), approvalId);
      if SnapshotOf(s.store, found.value).Some? && Decided(s.store, approvalId, APPROVED, s.next).outcome.Ok? {
        var snap := SnapshotOf(s.store, found.value).value;
        SnapshotOfOk(s, found.value);
        SnapshotOkFields(s.store.objects, FindRun(s.store.runs, found.value.discoveryRunId).value.assetId, snap);
        ObjectsOkOf(s);
        AppliedFacts(s.store.objects, found.value.objectId, snap.fields, s.next);
      }
    }
  }

  lemma FoundApproval(approvals: seq<DriftApproval>, id: Id)
    requires FindApproval(approvals, id).Some?
    ensures FindApproval(approvals, id).value.id == id
  {
  }

  /** One event changes an approval at most from pending to the decision it asks for. */
  lemma StepOnApproval(s: Sys, ev: Event, id: Id)
    requires StoreOk(s) && EventOk(ev) && FindApproval(s.store.approvals, id).Some?
    ensures var before := FindApproval(s.store.approvals, id).value;
      var after := FindApproval(Step(s, ev).store.approvals, id);
      && after.Some?
      && (after.value == before
          || (before.decision == UNDECIDED && ev.Decide? && ev.approvalId == id
              && after.value == before.(decision := if ev.approve then APPROVED else REJECTED)))
  {
    hide StoreOk, ScanOk, Applied, SavedApproval, Planned, FiledFor, SavedRun;
    match ev
    case Discover(assetId, assetName, scan) =>
      var a := Discovered(s.store, assetId, assetName, scan, s.next);
      if a.outcome.Ok? {
        var asset := ResolveAsset(s.store, assetId, assetName).value;
        ApprovalAccounting(s, asset, scan.value);
        FiledForGrows(s.store.approvals, a.store.approvals, Judged(a.outcome.value.driftEvents, true), a.outcome.value.id, asset);
        FindApprovalAfterAppend(s.store.approvals, a.store.approvals[|s.store.approvals|..], id);
      }
    case Decide(approvalId, approve) =>
      var d := if approve then APPROVED else REJECTED;
      var found := FindApproval(s.store.approvals, approvalId);
      if found.Some? {
        FoundApproval(s.store.approvals, approvalId);
        FindAfterSave(s.store.approvals, found.value.(decision := d), id);
      }
  }

  lemma FiledForGrows(old_: seq<DriftApproval>, new_: seq<DriftApproval>, critical: seq<DriftEvent>, runId: Id, assetId: Id)
    requires FiledFor(old_, new_, critical, runId, assetId)
    ensures |old_| <= |new_| && new_ == old_ + new_[|old_|..]
  {
  }

  /** Once taken, a decision stands for ever. */
  lemma {:induction false} DecisionsStand(s: Sys, events: seq<Event>, id: Id)
    requires StoreOk(s) && EventsOk(events)
    requires FindApproval(s.store.approvals, id).Some? && FindApproval(s.store.approvals, id).value.decision != UNDECIDED
    ensures StoreOk(Play(s, events))
    ensures FindApproval(Play(s, events).store.approvals, id) == FindApproval(s.store.approvals, id)
  {
    hide StoreOk, Step, EventOk;
    if events != [] {
      var front, ev := events[..|events| - 1], events[|events| - 1];
      assert EventOk(ev);
      DecisionsStand(s, front, id);
      StepKeepsOk(Play(s, front), ev);
      StepOnApproval(Play(s, front), ev, id);
    }
  }

  // ---------- Approvals that can never be granted ----------

  /** The object has an element that came as a string and is not catalogued as t, to which strings may not be cast. */
  ghost predicate Stuck(objects: seq<DataObject>, id: Id, name: string, t: ElementType) {
    && Destructive(Some(STRING), t)
    && name in ByName(ElementsOf(objects, id))
    && ByName(ElementsOf(objects, id))[name].sourceType == Some(STRING)
    && ByName(ElementsOf(objects, id))[name].destinationType != t
  }

  lemma StuckBlocks(objects: seq<DataObject>, id: Id, f: SchemaField, fields: seq<SchemaField>, next: nat)
    requires Stuck(objects, id, f.name, MappedType(f.normalizedType)) && f in fields
    ensures Applied(objects, id, fields, next).error.Some?
  {
    if FindObject(objects, id).Some? {
      var els := FindObject(objects, id).value.elements;
      assert Clashes(ByName(els), f);
      HealedRaisesIff(id, ByName(els), Healing(els, next, 0, None), fields);
    }
  }

  /** No application that goes through frees a stuck element. */
  lemma StuckAfterHealing(objectId: Id, elements: seq<DataElement>, next: nat, fields: seq<SchemaField>, name: string, t: ElementType)
    requires ElementsOk(elements, next) && DistinctFields(fields) && Healed(objectId, elements, next, fields).error.None?
    requires Destructive(Some(STRING), t) && name in ByName(elements)
    requires ByName(elements)[name].sourceType == Some(STRING) && ByName(elements)[name].destinationType != t
    ensures var after := ByName(Healed(objectId, elements, next, fields).elements);
      name in after && after[name].sourceType == Some(STRING) && after[name].destinationType != t
  {
    hide Healed, ElementsOk, ByName, Index;
    var h := Healed(objectId, elements, next, fields);
    HealedClosedForm(objectId, elements, next, fields);
    ClosedFormOk(objectId, elements, next, fields, h);
    DistinctOfOk(h.elements, h.next);
    var i := ByNameFinds(elements, name);
    ByNameHas(h.elements, i);
    IndexEntries(fields);
    if name in Index(fields) {
      NoClash(objectId, elements, next, fields, Index(fields)[name]);
    }
  }

  lemma NoClash(objectId: Id, elements: seq<DataElement>, next: nat, fields: seq<SchemaField>, f: SchemaField)
    requires Healed(objectId, elements, next, fields).error.None? && f in fields
    ensures !Clashes(ByName(elements), f)
  {
    HealedRaisesIff(objectId, ByName(elements), Healing(elements, next, 0, None), fields);
  }

  lemma StuckAfterApplied(objects: seq<DataObject>, other: Id, fields: seq<SchemaField>, next: nat, id: Id, name: string, t: ElementType)
    requires ObjectsOk(objects, next) && DistinctFields(fields) && Applied(objects, other, fields, next).error.None?
    requires Stuck(objects, id, name, t)
    ensures Stuck(Applied(objects, other, fields, next).objects, id, name, t)
  {
    hide ObjectsOk, ByName, Healed, ElementsOk, WithElements;
    var o := FindObject(objects, other).value;
    FindAfterWithElements(objects, other, Healed(other, o.elements, next, fields).elements, id);
    if other == id {
      FoundElementsOk(objects, id, next);
      StuckAfterHealing(id, o.elements, next, fields, name, t);
    }
  }

  lemma {:induction false} StuckAfterRepair(runId: Id, assetId: Id, first: bool, events: seq<DriftEvent>, r: Repair, snapshots: seq<SchemaSnapshot>,
                                            id: Id, name: string, t: ElementType)
    requires ObjectsOk(r.objects, r.next) && r.error.None? && SnapshotsDistinct(snapshots)
    requires forall i :: 0 <= i < |snapshots| ==> DistinctFields(snapshots[i].fields)
    requires Repaired(runId, assetId, first, events, r, snapshots).error.None?
    requires Stuck(r.objects, id, name, t)
    ensures Stuck(Repaired(runId, assetId, first, events, r, snapshots).objects, id, name, t)
  {
    hide ObjectsOk, Stuck, Applied, DistinctFields, AppliesNow, Filed;
    if snapshots != [] {
      var front, snap := snapshots[..|snapshots| - 1], snapshots[|snapshots| - 1];
      var q := Repaired(runId, assetId, first, events, r, front);
      var from := RepairOneFiles(runId, assetId, first, events, q, snap);
      StuckAfterRepair(runId, assetId, first, events, r, front, id, name, t);
      RepairedFacts(runId, assetId, first, events, r, front);
      if AppliesNow(first, events, snap.objectId) {
        StuckAfterApplied(q.objects, snap.objectId, snap.fields, q.next, id, name, t);
      }
    }
  }

  lemma StuckAfterDiscovery(s: Sys, assetId: Id, raws: seq<RawSnapshot>, id: Id, name: string, t: ElementType)
    requires StoreOk(s) && ScanOk(raws) && Planned(s.store, assetId, raws, s.next).repair.error.None?
    requires Stuck(s.store.objects, id, name, t)
    ensures Stuck(Planned(s.store, assetId, raws, s.next).repair.objects, id, name, t)
  {
    hide StoreOk, ScanOk, Repaired, ObjectsOk, ByName, Drifts, SnapshotsDistinct, FindObject, SnapshotIndex;
    PlanSnapshots(s, assetId, raws);
    var p := ProvisionFor(s.store, assetId, raws, s.next);
    var plan := Planned(s.store, assetId, raws, s.next);
    HasElements(s.store.objects, id, name);
    ElementsByRow(s.store.objects, p.objects);
    forall i | 0 <= i < |plan.snapshots|
      ensures DistinctFields(plan.snapshots[i].fields)
    {
      SnapshotOkFields(p.objects, assetId, plan.snapshots[i]);
    }
    StuckAfterRepair(Uuid(s.next), assetId, plan.first, plan.events, Repair(p.objects, s.store.approvals, p.next, None),
                     plan.snapshots, id, name, t);
  }

  lemma HasElements(objects: seq<DataObject>, id: Id, name: string)
    requires name in ByName(ElementsOf(objects, id))
    ensures FindObject(objects, id).Some?
  {
  }

  /** The approval's run, object and snapshot, and the stuck element it would have to change. */
  ghost predicate Hopeless(s: Sys, approvalId: Id, f: SchemaField, a: DriftApproval, snap: SchemaSnapshot) {
    && FindApproval(s.store.approvals, approvalId).Some?
    && FindApproval(s.store.approvals, approvalId).value == a.(decision := FindApproval(s.store.approvals, approvalId).value.decision)
    && SnapshotOf(s.store, a) == Some(snap) && f in snap.fields
    && Stuck(s.store.objects, a.objectId, f.name, MappedType(f.normalizedType))
  }

  lemma SnapshotOfKept(s: Sys, runs: seq<RunRow>, a: DriftApproval)
    requires SnapshotOf(s.store, a).Some?
    requires runs == s.store.runs || exists row :: runs == s.store.runs + [row]
    ensures SnapshotOf(s.store.(runs := runs), a) == SnapshotOf(s.store, a)
  {
    if runs != s.store.runs {
      var row :| runs == s.store.runs + [row];
      FindRunAfterAppend(s.store.runs, row, a.discoveryRunId);
    }
  }

  lemma StepOnRuns(s: Sys, ev: Event)
    requires StoreOk(s)
    ensures Step(s, ev).store.runs == s.store.runs || exists row :: Step(s, ev).store.runs == s.store.runs + [row]
  {
    hide StoreOk, Planned, SavedRun, Applied, SavedApproval;
    match ev
    case Discover(assetId, assetName, scan) =>
      var asset := ResolveAsset(s.store, assetId, assetName);
      if asset.Ok? {
        NewRunRow(s, RunRow(Uuid(s.next), asset.value, FAILED, [], []));
        if scan.Ok? {
          var plan := Planned(s.store, asset.value, scan.value, s.next);
          NewRunRow(s, RunRow(Uuid(s.next), asset.value, COMPLETED, plan.snapshots, plan.events));
        }
      }
    case Decide(_, _) =>
  }

  lemma StepOnStuck(s: Sys, ev: Event, id: Id, name: string, t: ElementType)
    requires StoreOk(s) && EventOk(ev) && Stuck(s.store.objects, id, name, t)
    ensures Stuck(Step(s, ev).store.objects, id, name, t)
  {
    hide StoreOk, ScanOk, Planned, SavedRun, Applied, SavedApproval, Stuck, ObjectsOk, SnapshotOk;
    match ev
    case Discover(assetId, assetName, scan) =>
      var a := Discovered(s.store, assetId, assetName, scan, s.next);
      if a.outcome.Ok? {
        StuckAfterDiscovery(s, ResolveAsset(s.store, assetId, assetName).value, scan.value, id, name, t);
      }
    case Decide(approvalId, approve) =>
      var found := FindApproval(s.store.approvals, approvalId);
      if approve && found.Some? && SnapshotOf(s.store, found.value).Some? && Decided(s.store, approvalId, APPROVED, s.next).outcome.Ok? {
        var snap := SnapshotOf(s.store, found.value).value;
        SnapshotOfOk(s, found.value);
        SnapshotOkFields(s.store.objects, FindRun(s.store.runs, found.value.discoveryRunId).value.assetId, snap);
        ObjectsOkOf(s);
        StuckAfterApplied(s.store.objects, found.value.objectId, snap.fields, s.next, id, name, t);
      }
  }

  /**
   A change from string to a number, date, timestamp or boolean can be rejected but never approved:
   whatever happens in between, every attempt to approve it raises.
   */
  lemma {:induction false} DestructiveApprovalNeverSucceeds(
    s: Sys, events: seq<Event>, approvalId: Id, f: SchemaField, a: DriftApproval, snap: SchemaSnapshot)
    requires StoreOk(s) && EventsOk(events) && Hopeless(s, approvalId, f, a, snap)
    ensures var t := Play(s, events);
      && StoreOk(t) && Hopeless(t, approvalId, f, a, snap)
      && Decided(t.store, approvalId, APPROVED, t.next).outcome.Err?
  {
    hide StoreOk, Step, EventOk, Hopeless, Decided;
    if events != [] {
      var front, ev := events[..|events| - 1], events[|events| - 1];
      assert EventOk(ev);
      DestructiveApprovalNeverSucceeds(s, front, approvalId, f, a, snap);
      StepKeepsOk(Play(s, front), ev);
      StepKeepsHopeless(Play(s, front), ev, approvalId, f, a, snap);
    }
    HopelessRaises(Play(s, events), approvalId, f, a, snap);
  }

  lemma StepKeepsHopeless(s: Sys, ev: Event, approvalId: Id, f: SchemaField, a: DriftApproval, snap: SchemaSnapshot)
    requires StoreOk(s) && EventOk(ev) && Hopeless(s, approvalId, f, a, snap)
    ensures Hopeless(Step(s, ev), approvalId, f, a, snap)
  {
    hide StoreOk, Step, EventOk, Stuck, FindApproval;
    StepOnApproval(s, ev, approvalId);
    StepOnStuck(s, ev, a.objectId, f.name, MappedType(f.normalizedType));
    StepOnRuns(s, ev);
    SnapshotOfKept(s, Step(s, ev).store.runs, a);
  }

  lemma HopelessRaises(s: Sys, approvalId: Id, f: SchemaField, a: DriftApproval, snap: SchemaSnapshot)
    requires Hopeless(s, approvalId, f, a, snap)
    ensures Decided(s.store, approvalId, APPROVED, s.next).outcome.Err?
  {
    hide Applied, Stuck, FindApproval, FindRun, FirstSnapshot;
    StuckBlocks(s.store.objects, a.objectId, f, snap.fields, s.next);
  }

  /**
   An approval raises iff it is unknown or decided already, or its snapshot asks an element for a
   lossy change, or the snapshot's object is gone.
   */
  lemma ApprovalRaisesIff(s: Sys, approvalId: Id)
    ensures Decided(s.store, approvalId, APPROVED, s.next).outcome.Err?
       <==> var found := FindApproval(s.store.approvals, approvalId);
            || found.None? || found.value.decision != UNDECIDED
            || (SnapshotOf(s.store, found.value).Some?
                && (FindObject(s.store.objects, found.value.objectId).None?
                    || exists f :: f in SnapshotOf(s.store, found.value).value.fields
                                   && Clashes(ByName(ElementsOf(s.store.objects, found.value.objectId)), f)))
  {
    hide FindApproval, SnapshotOf, SavedApproval, HealFields, Clashes, ByName, WithElements;
    var found := FindApproval(s.store.approvals, approvalId);
    if found.Some? && SnapshotOf(s.store, found.value).Some? {
      var els := ElementsOf(s.store.objects, found.value.objectId);
      HealedRaisesIff(found.value.objectId, ByName(els), Healing(els, s.next, 0, None), SnapshotOf(s.store, found.value).value.fields);
    }
  }
}
