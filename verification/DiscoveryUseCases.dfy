/**
 The two use cases around discovery: running it, and deciding on a critical change
 (app/application/discovery/run_discovery_use_case.py, approve_drift_use_case.py,
 app/domain/discovery/discovery_run.py, drift_approval.py).
 */
module DiscoveryUseCases {
  import opened Wrappers
  import opened Schema
  import opened SchemaDiffer
  import opened PlatformStore
  import opened ObjectService
  import opened UnitOfWork
  import opened Discovery

  // ---------- The run object and its guards ----------

  class DiscoveryRun {
    const id: Id
    const assetId: Id
    var status: RunStatus
    var snapshots: seq<SchemaSnapshot>
    var driftEvents: seq<DriftEvent>

    function Row(): RunRow
      reads this
    {
      RunRow(id, assetId, status, snapshots, driftEvents)
    }

    constructor (id: Id, assetId: Id)
      ensures Row() == RunRow(id, assetId, PENDING, [], [])
    {
      this.id, this.assetId := id, assetId;
      status, snapshots, driftEvents := PENDING, [], [];
    }

    /** start, complete and fail return false where the source raises ValueError. */
    method Start() returns (ok: bool)
      modifies this
      ensures ok == (old(status) == PENDING)
      ensures Row() == if ok then old(Row()).(status := RUNNING) else old(Row())
    {
      ok := status == PENDING;
      if ok {
        status := RUNNING;
      }
    }

    method Complete(snapshots: seq<SchemaSnapshot>, driftEvents: seq<DriftEvent>, softFailures: seq<string>) returns (ok: bool)
      modifies this
      ensures ok == (old(status) == RUNNING)
      ensures Row() == if ok then RunRow(id, assetId, if softFailures == [] then COMPLETED else PARTIAL_RUN, snapshots, driftEvents)
                       else old(Row())
    {
      ok := status == RUNNING;
      if ok {
        this.snapshots, this.driftEvents := snapshots, driftEvents;
        status := if softFailures == [] then COMPLETED else PARTIAL_RUN;
      }
    }

    method Fail() returns (ok: bool)
      modifies this
      ensures ok == (old(status) == RUNNING)
      ensures Row() == if ok then old(Row()).(status := FAILED) else old(Row())
    {
      ok := status == RUNNING;
      if ok {
        status := FAILED;
      }
    }
  }

  // ---------- Running discovery ----------

  function FindAsset(assets: seq<DataAsset>, id: Id): Option<DataAsset> {
    if assets == [] then None else if assets[0].id == id then Some(assets[0]) else FindAsset(assets[1..], id)
  }

  function FindAssetByName(assets: seq<DataAsset>, name: string): Option<DataAsset> {
    if assets == [] then None else if assets[0].name == name then Some(assets[0]) else FindAssetByName(assets[1..], name)
  }

  /** The asset a request means, if it exists and has a known endpoint. */
  function ResolveAsset(store: Store, assetId: Option<Id>, assetName: string): Result<Id, Error> {
    if assetName == "" && assetId in {None, Some(Named(""))} then Err(Validation("Either asset_id or asset_name must be provided"))
    else
      var asset := if assetName != "" then FindAssetByName(store.assets, assetName) else FindAsset(store.assets, assetId.value);
      if asset.None? then Err(NotFound("asset"))
      else if asset.value.endpointId in {None, Some(Named(""))} then Err(Validation("Asset has no endpoint"))
      else if asset.value.endpointId.value !in store.endpoints then Err(NotFound("endpoint"))
      else Ok(asset.value.id)
  }

  /** A name, if given, decides which asset is meant, else the id; the first such asset is taken. */
  predicate IsMeant(a: DataAsset, assetId: Option<Id>, assetName: string) {
    if assetName != "" then a.name == assetName else assetId == Some(a.id) && a.id != Named("")
  }

  /** The request is for the first asset meant, and is refused without one or without its endpoint. */
  lemma {:induction false} ResolveAssetIs(store: Store, assetId: Option<Id>, assetName: string, i: nat)
    ensures (forall a :: a in store.assets ==> !IsMeant(a, assetId, assetName)) ==> ResolveAsset(store, assetId, assetName).Err?
    ensures i < |store.assets| && IsMeant(store.assets[i], assetId, assetName)
            && (forall j :: 0 <= j < i ==> !IsMeant(store.assets[j], assetId, assetName)) ==>
      match store.assets[i].endpointId
      case None => ResolveAsset(store, assetId, assetName).Err?
      case Some(endpoint) =>
        if endpoint == Named("") then ResolveAsset(store, assetId, assetName) == Err(Validation("Asset has no endpoint"))
        else if endpoint in store.endpoints then ResolveAsset(store, assetId, assetName) == Ok(store.assets[i].id)
        else ResolveAsset(store, assetId, assetName) == Err(NotFound("endpoint"))
  {
    FirstByName(store.assets, assetName, i);
    if assetId.Some? {
      FirstById(store.assets, assetId.value, i);
    }
  }

  lemma {:induction false} FirstByName(assets: seq<DataAsset>, name: string, i: nat)
    ensures (forall a :: a in assets ==> a.name != name) ==> FindAssetByName(assets, name).None?
    ensures i < |assets| && assets[i].name == name && (forall j :: 0 <= j < i ==> assets[j].name != name)
      ==> FindAssetByName(assets, name) == Some(assets[i])
  {
    if assets != [] && assets[0].name != name {
      FirstByName(assets[1..], name, if i > 0 then i - 1 else 0);
    }
  }

  lemma {:induction false} FirstById(assets: seq<DataAsset>, id: Id, i: nat)
    ensures (forall a :: a in assets ==> a.id != id) ==> FindAsset(assets, id).None?
    ensures i < |assets| && assets[i].id == id && (forall j :: 0 <= j < i ==> assets[j].id != id)
      ==> FindAsset(assets, id) == Some(assets[i])
  {
    if assets != [] && assets[0].id != id {
      FirstById(assets[1..], id, if i > 0 then i - 1 else 0);
    }
  }

  datatype Attempt = Attempt(outcome: Result<RunRow, Error>, store: Store, next: nat)

  function BaselineSnapshots(runs: seq<RunRow>, assetId: Id): seq<SchemaSnapshot> {
    if LatestRun(runs, assetId).Some? then LatestRun(runs, assetId).value.snapshots else []
  }

  /** Everything one discovery works out before it is recorded. */
  datatype Plan = Plan(snapshots: seq<SchemaSnapshot>, first: bool, events: seq<DriftEvent>, repair: Repair)

  function Planned(store: Store, assetId: Id, raws: seq<RawSnapshot>, next: nat): Plan {
    var runId := Uuid(next);
    var p := Provisioned(assetId, Provision(store.objects, NameIndex(ObjectsOf(store.objects, assetId)), next + 1), raws);
    var snapshots := Identified(p.names, raws);
    var prev := SnapshotIndex(BaselineSnapshots(store.runs, assetId));
    var events := Drifts(prev, snapshots);
    Plan(snapshots, prev == map[], events,
         Repaired(runId, assetId, prev == map[], events, Repair(p.objects, store.approvals, p.next, None), snapshots))
  }

  /**
   A discovery as the database sees it. A scan that raises leaves a FAILED record; an error while
   healing comes after the run object was completed, so not even that.
   */
  function Discovered(store: Store, assetId: Option<Id>, assetName: string, scan: Result<seq<RawSnapshot>, Error>, next: nat): Attempt {
    match ResolveAsset(store, assetId, assetName)
    case Err(e) => Attempt(Err(e), store, next)
    case Ok(id) => DiscoveredAsset(store, id, scan, next)
  }

  function DiscoveredAsset(store: Store, assetId: Id, scan: Result<seq<RawSnapshot>, Error>, next: nat): Attempt {
    match scan
    case Err(e) =>
      Attempt(Err(e), store.(runs := SavedRun(store.runs, RunRow(Uuid(next), assetId, FAILED, [], []))), next + 1)
    case Ok(raws) =>
      var plan := Planned(store, assetId, raws, next);
      if plan.repair.error.Some? then Attempt(Err(plan.repair.error.value), store, plan.repair.next)
      else
        var row := RunRow(Uuid(next), assetId, COMPLETED, plan.snapshots, plan.events);
        Attempt(Ok(row),
                store.(objects := plan.repair.objects, approvals := plan.repair.approvals, runs := SavedRun(store.runs, row)),
                plan.repair.next)
  }

  /** Ids are unique and none of them is still to be drawn. */
  ghost predicate FreshSupply(store: Store, next: nat) {
    && UniqueIds(store.objects)
    && (forall i :: 0 <= i < |store.objects| && store.objects[i].id.Uuid? ==> store.objects[i].id.n < next)
    && (forall i :: 0 <= i < |store.runs| && store.runs[i].id.Uuid? ==> store.runs[i].id.n < next)
  }

  lemma {:induction false} ProvisionedKeepsIds(assetId: Id, p: Provision, raws: seq<RawSnapshot>)
    requires UniqueIds(p.objects)
    requires forall i :: 0 <= i < |p.objects| && p.objects[i].id.Uuid? ==> p.objects[i].id.n < p.next
    ensures var r := Provisioned(assetId, p, raws);
      && UniqueIds(r.objects) && p.next <= r.next
      && forall i :: 0 <= i < |r.objects| && r.objects[i].id.Uuid? ==> r.objects[i].id.n < r.next
  {
    if raws != [] {
      ProvisionedKeepsIds(assetId, p, raws[..|raws| - 1]);
    }
  }

  lemma NoSuchRun(runs: seq<RunRow>, id: Id)
    requires forall i :: 0 <= i < |runs| ==> runs[i].id != id
    ensures FindRun(runs, id).None?
  {
  }

  class RunDiscoveryUseCase {
    const uow: SqlUnitOfWork<Store>
    var next: nat

    constructor (uow: SqlUnitOfWork<Store>, next: nat)
      ensures this.uow == uow && this.next == next
    {
      this.uow, this.next := uow, next;
    }

    method SaveRun(run: DiscoveryRun)
      requires uow.session.Some?
      modifies uow
      ensures uow.State() == old(uow.State()).(session := Some(old(uow.session.value).(
                runs := SavedRun(old(uow.session.value.runs), run.Row()))))
    {
      var s := uow.session.value;
      var ok := uow.Stage(s.(runs := SavedRun(s.runs, run.Row())));
    }

    /** The second transaction of a failed discovery. */
    method FailRunIfStarted(run: DiscoveryRun?)
      requires uow.depth == 0 && uow.session.None?
      modifies uow, run
      ensures uow.depth == 0 && uow.session.None?
      ensures uow.durable == if run == null || old(run.status) != RUNNING then old(uow.durable)
              else old(uow.durable).(runs := SavedRun(old(uow.durable.runs), old(run.Row()).(status := FAILED)))
    {
      if run == null {
        return;
      }
      uow.Enter();
      var ok := run.Fail();
      if !ok {
        uow.Exit(true);
        return;
      }
      SaveRun(run);
      var committed := uow.Commit();
      uow.Exit(false);
    }

    /** The body of the transaction, from the saved RUNNING record to the commit. */
    method Process(run: DiscoveryRun, scan: Result<seq<RawSnapshot>, Error>) returns (error: Option<Error>)
      requires uow.session.Some? && run.Row() == RunRow(run.id, run.assetId, RUNNING, [], [])
      requires run.id == Uuid(next) && FreshSupply(uow.session.value, next)
      modifies this, uow, run
      ensures uow.depth == old(uow.depth) && uow.session.Some?
      ensures var a := DiscoveredAsset(old(uow.session.value), run.assetId, scan, old(next));
        && next == a.next
        && (error.Some? <==> a.outcome.Err?)
        && (error.Some? ==> error.value == a.outcome.error && uow.durable == old(uow.durable))
        && (error.None? ==> uow.durable == a.store && run.Row() == a.outcome.value)
        && (run.status == RUNNING <==> scan.Err?)
        && (scan.Err? ==> run.Row() == old(run.Row()))
    {
      hide Repaired, Drifts, SnapshotIndex, ObjectsOf, NameIndex;
      var before := uow.session.value;
      next := next + 1;
      forall i | 0 <= i < |before.runs| ensures before.runs[i].id != run.id {
      }
      NoSuchRun(before.runs, run.id);
      SavedNewRun(before.runs, run.Row());
      SaveRun(run);
      if scan.Err? {
        return Some(scan.error);
      }
      var provisioning := new DiscoveryProvisioningService(uow);
      var snapshots;
      ProvisionedKeepsIds(run.assetId, Provision(before.objects, NameIndex(ObjectsOf(before.objects, run.assetId)), next), scan.value);
      snapshots, next := provisioning.ProvisionMissingObjects(run.assetId, scan.value, ObjectsOf(before.objects, run.assetId), next);
      LatestAfterAppend(before.runs, run.Row(), run.assetId);
      var prev := SnapshotIndex(BaselineSnapshots(uow.session.value.runs, run.assetId));
      var events := ComputeDrifts(prev, snapshots);
      ghost var first := run.Row();
      var completed := run.Complete(snapshots, events, []);
      var healing := new MetadataSelfHealingService(uow);
      next, error := healing.ApplySelfHealingAndApprovals(run.assetId, run.id, snapshots, events, prev == map[], next);
      if error.Some? {
        return;
      }
      SaveRun(run);
      SavedAgain(before.runs, first, run.Row());
      SavedNewRun(before.runs, run.Row());
      var committed := uow.Commit();
    }

    method Execute(assetId: Option<Id>, assetName: string, scan: Result<seq<RawSnapshot>, Error>) returns (r: Result<RunRow, Error>)
      requires uow.depth == 0 && uow.session.None? && FreshSupply(uow.durable, next)
      modifies this, uow
      ensures uow.depth == 0 && uow.session.None?
      ensures Attempt(r, uow.durable, next) == Discovered(old(uow.durable), assetId, assetName, scan, old(next))
    {
      uow.Enter();
      var resolved := ResolveAsset(uow.session.value, assetId, assetName);
      if resolved.Err? {
        uow.Exit(true);
        return Err(resolved.error);
      }
      var run := new DiscoveryRun(Uuid(next), resolved.value);
      var started := run.Start();
      var error := Process(run, scan);
      if error.Some? {
        uow.Exit(true);
        FailRunIfStarted(run);
        return Err(error.value);
      }
      uow.Exit(false);
      r := Ok(run.Row());
    }
  }

  // ---------- Deciding on a critical change ----------

  class DriftApprovalRecord {
    const row: DriftApproval
    var decision: Decision

    function Row(): DriftApproval
      reads this
    {
      row.(decision := decision)
    }

    constructor (row: DriftApproval)
      ensures Row() == row
    {
      this.row := row;
      decision := row.decision;
    }

    /** approve and reject: false where the source raises because a decision was taken before. */
    method Decide(d: Decision) returns (ok: bool)
      modifies this
      ensures ok == (old(decision) == UNDECIDED)
      ensures Row() == if ok then old(Row()).(decision := d) else old(Row())
    {
      ok := decision == UNDECIDED;
      if ok {
        decision := d;
      }
    }
  }

  datatype Ruling = Ruling(outcome: Result<DriftApproval, Error>, store: Store, next: nat)

  function FirstSnapshot(snapshots: seq<SchemaSnapshot>, objectId: Id): Option<SchemaSnapshot> {
    if snapshots == [] then None
    else if snapshots[0].objectId == objectId then Some(snapshots[0])
    else FirstSnapshot(snapshots[1..], objectId)
  }

  /** The snapshot an approval would apply: that of its own discovery run. */
  function SnapshotOf(store: Store, a: DriftApproval): Option<SchemaSnapshot> {
    match FindRun(store.runs, a.discoveryRunId)
    case None => None
    case Some(run) => FirstSnapshot(run.snapshots, a.objectId)
  }

  /** A decision as the database sees it: decision and schema together, or nothing. */
  function Decided(store: Store, approvalId: Id, d: Decision, next: nat): Ruling {
    match FindApproval(store.approvals, approvalId)
    case None => Ruling(Err(NotFound("approval")), store, next)
    case Some(a) =>
      if a.decision != UNDECIDED then Ruling(Err(AlreadyDecided(a.decision)), store, next)
      else
        var decided := store.(approvals := SavedApproval(store.approvals, a.(decision := d)));
        if d != APPROVED || SnapshotOf(store, a).None? then Ruling(Ok(a.(decision := d)), decided, next)
        else
          var applied := Applied(store.objects, a.objectId, SnapshotOf(store, a).value.fields, next);
          if applied.error.Some? then Ruling(Err(applied.error.value), store, applied.next)
          else Ruling(Ok(a.(decision := d)), decided.(objects := applied.objects), applied.next)
  }

  class ApproveDriftUseCase {
    const uow: SqlUnitOfWork<Store>
    var next: nat

    constructor (uow: SqlUnitOfWork<Store>, next: nat)
      ensures this.uow == uow && this.next == next
    {
      this.uow, this.next := uow, next;
    }

    method ApplyApprovedSchema(a: DriftApproval) returns (error: Option<Error>)
      requires uow.session.Some? && UniqueIds(uow.session.value.objects)
      modifies this, uow
      ensures uow.session.Some?
      ensures var s := old(uow.session.value);
        && uow.State() == old(uow.State()).(session := Some(s.(objects := uow.session.value.objects)))
        && (match SnapshotOf(s, a)
            case None => error == None && next == old(next) && uow.session.value.objects == s.objects
            case Some(snap) =>
              var r := Applied(s.objects, a.objectId, snap.fields, old(next));
              error == r.error && next == r.next && uow.session.value.objects == r.objects)
    {
      error := None;
      var run := FindRun(uow.session.value.runs, a.discoveryRunId);
      if run.None? {
        return;
      }
      var snapshot := FirstSnapshot(run.value.snapshots, a.objectId);
      if snapshot.None? {
        return;
      }
      var service := new DataObjectService(uow);
      next, error := service.ApplySchemaSnapshot(a.objectId, snapshot.value.fields, next);
    }

    /** approve */
    method Approve(approvalId: Id) returns (r: Result<DriftApproval, Error>)
      requires uow.depth == 0 && uow.session.None? && UniqueIds(uow.durable.objects)
      modifies this, uow
      ensures uow.depth == 0 && uow.session.None?
      ensures Ruling(r, uow.durable, next) == Decided(old(uow.durable), approvalId, APPROVED, old(next))
    {
      uow.Enter();
      var store := uow.session.value;
      var found := FindApproval(store.approvals, approvalId);
      if found.None? {
        uow.Exit(true);
        return Err(NotFound("approval"));
      }
      var approval := new DriftApprovalRecord(found.value);
      var ok := approval.Decide(APPROVED);
      if !ok {
        uow.Exit(true);
        return Err(AlreadyDecided(approval.decision));
      }
      var staged := uow.Stage(store.(approvals := SavedApproval(store.approvals, approval.Row())));
      var error := ApplyApprovedSchema(approval.Row());
      if error.Some? {
        uow.Exit(true);
        return Err(error.value);
      }
      var committed := uow.Commit();
      uow.Exit(false);
      r := Ok(approval.Row());
    }

    /** reject */
    method Reject(approvalId: Id) returns (r: Result<DriftApproval, Error>)
      requires uow.depth == 0 && uow.session.None?
      modifies uow
      ensures uow.depth == 0 && uow.session.None?
      ensures Ruling(r, uow.durable, next) == Decided(old(uow.durable), approvalId, REJECTED, next)
    {
      uow.Enter();
      var store := uow.session.value;
      var found := FindApproval(store.approvals, approvalId);
      if found.None? {
        uow.Exit(true);
        return Err(NotFound("approval"));
      }
      var approval := new DriftApprovalRecord(found.value);
      var ok := approval.Decide(REJECTED);
      if !ok {
        uow.Exit(true);
        return Err(AlreadyDecided(approval.decision));
      }
      var staged := uow.Stage(store.(approvals := SavedApproval(store.approvals, approval.Row())));
      var committed := uow.Commit();
      uow.Exit(false);
      r := Ok(approval.Row());
    }
  }
}
