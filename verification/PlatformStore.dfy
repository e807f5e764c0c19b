/**
 The platform database as the discovery use cases see it: one table of each kind, rows in
 storage order (app/infrastructure/persistence/repositories).
 */
module PlatformStore {
  import opened Wrappers
  import opened Schema
  import opened SchemaDiffer

  datatype DataElement = DataElement(
    id: Id, objectId: Id, name: string, sourceType: Option<ElementType>, destinationType: ElementType,
    required: bool, nullable: bool, isPrimaryKey: bool, description: string, autoGenerated: bool)

  datatype DataObject = DataObject(id: Id, assetId: Id, name: string, elements: seq<DataElement>)

  datatype DataAsset = DataAsset(id: Id, name: string, endpointId: Option<Id>)

  datatype RunStatus = PENDING | RUNNING | COMPLETED | FAILED | PARTIAL_RUN

  datatype RunRow = RunRow(
    id: Id, assetId: Id, status: RunStatus, snapshots: seq<SchemaSnapshot>, driftEvents: seq<DriftEvent>)

  datatype Decision = UNDECIDED | APPROVED | REJECTED

  datatype DriftApproval = DriftApproval(
    id: Id, discoveryRunId: Id, assetId: Id, objectId: Id,
    changeType: DriftChangeType, fieldName: Option<string>, decision: Decision)

  datatype Store = Store(
    assets: seq<DataAsset>, endpoints: set<Id>, objects: seq<DataObject>,
    runs: seq<RunRow>, approvals: seq<DriftApproval>)

  datatype Error =
    | NotFound(what: string)
    | Validation(what: string)
    | DestructiveOverride(element: string)
    | DiscoveryFailed(reason: string)
    | AlreadyDecided(decision: Decision)

  // ---------- Objects ----------

  /** find_by_id */
  function FindObject(objects: seq<DataObject>, id: Id): Option<DataObject> {
    if objects == [] then None
    else if objects[0].id == id then Some(objects[0])
    else FindObject(objects[1..], id)
  }

  function WithElements(objects: seq<DataObject>, id: Id, elements: seq<DataElement>): (r: seq<DataObject>)
    ensures |r| == |objects|
  {
    seq(|objects|, i requires 0 <= i < |objects| =>
      if objects[i].id == id then objects[i].(elements := elements) else objects[i])
  }

  lemma FindAfterWithElements(objects: seq<DataObject>, id: Id, elements: seq<DataElement>, other: Id)
    ensures FindObject(WithElements(objects, id, elements), other) ==
      match FindObject(objects, other)
      case None => None
      case Some(o) => Some(if other == id then o.(elements := elements) else o)
  {
    if objects != [] {
      var r := WithElements(objects, id, elements);
      assert r[1..] == WithElements(objects[1..], id, elements);
      FindAfterWithElements(objects[1..], id, elements, other);
    }
  }

  lemma FoundObject(objects: seq<DataObject>, id: Id)
    ensures FindObject(objects, id).Some? ==> FindObject(objects, id).value in objects && FindObject(objects, id).value.id == id
    ensures FindObject(objects, id).None? ==> forall i :: 0 <= i < |objects| ==> objects[i].id != id
  {
    if objects != [] {
      FoundObject(objects[1..], id);
    }
  }

  // ---------- Runs ----------

  /** save: the row of a known id is replaced, a new one appended. */
  function SavedRun(runs: seq<RunRow>, run: RunRow): seq<RunRow> {
    if runs == [] then [run]
    else if runs[0].id == run.id then [run] + runs[1..]
    else [runs[0]] + SavedRun(runs[1..], run)
  }

  function FindRun(runs: seq<RunRow>, id: Id): Option<RunRow> {
    if runs == [] then None
    else if runs[0].id == id then Some(runs[0])
    else FindRun(runs[1..], id)
  }

  predicate IsBaseline(r: RunRow, assetId: Id) {
    r.assetId == assetId && (r.status.COMPLETED? || r.status.PARTIAL_RUN?)
  }

  /** find_latest_by_asset_id: the last completed or partial run of the asset. */
  function LatestRun(runs: seq<RunRow>, assetId: Id): Option<RunRow> {
    if runs == [] then None
    else if IsBaseline(runs[|runs| - 1], assetId) then Some(runs[|runs| - 1])
    else LatestRun(runs[..|runs| - 1], assetId)
  }

  lemma SavedNewRun(runs: seq<RunRow>, run: RunRow)
    requires FindRun(runs, run.id).None?
    ensures SavedRun(runs, run) == runs + [run]
  {
  }

  lemma SavedAgain(runs: seq<RunRow>, first: RunRow, second: RunRow)
    requires FindRun(runs, first.id).None? && second.id == first.id
    ensures SavedRun(runs + [first], second) == runs + [second]
  {
    if runs == [] {
      assert runs + [first] == [first] && runs + [second] == [second];
      assert [second] + [first][1..] == [second];
    } else {
      assert (runs + [first])[1..] == runs[1..] + [first] && (runs + [first])[0] == runs[0];
      SavedAgain(runs[1..], first, second);
      assert [runs[0]] + (runs[1..] + [second]) == runs + [second];
    }
  }

  lemma LatestAfterAppend(runs: seq<RunRow>, run: RunRow, assetId: Id)
    ensures LatestRun(runs + [run], assetId) == if IsBaseline(run, assetId) then Some(run) else LatestRun(runs, assetId)
  {
    assert (runs + [run])[..|runs|] == runs;
  }

  lemma FindRunAfterAppend(runs: seq<RunRow>, run: RunRow, id: Id)
    ensures FindRun(runs + [run], id) ==
      if FindRun(runs, id).Some? then FindRun(runs, id) else if run.id == id then Some(run) else None
  {
    if runs == [] {
      assert runs + [run] == [run];
      assert [run][1..] == [];
    } else {
      assert (runs + [run])[1..] == runs[1..] + [run];
      FindRunAfterAppend(runs[1..], run, id);
    }
  }

  // ---------- Approvals ----------

  function FindApproval(approvals: seq<DriftApproval>, id: Id): Option<DriftApproval> {
    if approvals == [] then None
    else if approvals[0].id == id then Some(approvals[0])
    else FindApproval(approvals[1..], id)
  }

  function SavedApproval(approvals: seq<DriftApproval>, a: DriftApproval): seq<DriftApproval> {
    if approvals == [] then [a]
    else if approvals[0].id == a.id then [a] + approvals[1..]
    else [approvals[0]] + SavedApproval(approvals[1..], a)
  }

  lemma FindAfterSave(approvals: seq<DriftApproval>, a: DriftApproval, id: Id)
    ensures FindApproval(SavedApproval(approvals, a), id) == if id == a.id then Some(a) else FindApproval(approvals, id)
  {
  }

  lemma FindApprovalAfterAppend(approvals: seq<DriftApproval>, more: seq<DriftApproval>, id: Id)
    requires FindApproval(approvals, id).Some?
    ensures FindApproval(approvals + more, id) == FindApproval(approvals, id)
  {
    if approvals[0].id != id {
      assert (approvals + more)[1..] == approvals[1..] + more;
      FindApprovalAfterAppend(approvals[1..], more, id);
    }
  }
}
