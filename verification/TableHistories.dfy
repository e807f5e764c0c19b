/**
 Concrete histories of one table with one column: an approval that takes the catalogue back, one
 that can never be granted, and a discovery that raises while it heals.
 */
module TableHistories {
  import opened Wrappers
  import opened Schema
  import opened SchemaDiffer
  import opened PlatformStore
  import opened ObjectService
  import opened Discovery
  import opened DiscoveryUseCases
  import opened DiscoveryHistory
  import opened CatalogueInStep
  import opened DiscoveryResults

  const ASSET := Named("asset")
  const TABLE := Uuid(1)

  /** An asset with an endpoint, and nothing discovered yet. */
  const BLANK := Sys(Store([DataAsset(ASSET, "a", Some(Named("ep")))], {Named("ep")}, [], [], []), 0)

  function Field(type_: string, nullable: bool): SchemaField {
    SchemaField("c", "", type_, nullable, false, None)
  }

  function Raws(f: SchemaField): seq<RawSnapshot> {
    [RawSnapshot("t", [f])]
  }

  function Scan(f: SchemaField): Event {
    Discover(Some(ASSET), "", Ok(Raws(f)))
  }

  function SnapshotWith(f: SchemaField): SchemaSnapshot {
    SchemaSnapshot(TABLE, "t", [f])
  }

  function Table(el: DataElement): DataObject {
    DataObject(TABLE, ASSET, "t", [el])
  }

  /** The table is catalogued with one element, and its latest snapshot has one field. */
  ghost predicate OneTable(s: Sys, el: DataElement, f: SchemaField) {
    && s.store.assets == BLANK.store.assets && s.store.endpoints == BLANK.store.endpoints
    && s.store.objects == [Table(el)] && el.name == "c" && f.name == "c"
    && BaselineSnapshots(s.store.runs, ASSET) == [SnapshotWith(f)]
    && (forall i :: 0 <= i < |s.store.runs| ==> s.store.runs[i].id.Uuid? && s.store.runs[i].id.n < s.next)
  }

  /** A further scan of the table is compared with the latest field and applied or withheld. */
  lemma ScanPlan(s: Sys, el: DataElement, f0: SchemaField, f1: SchemaField)
    requires OneTable(s, el, f0) && f1.name == "c"
    ensures var plan := Planned(s.store, ASSET, Raws(f1), s.next);
      && plan.snapshots == [SnapshotWith(f1)] && !plan.first
      && plan.events == FieldEvents(TABLE, map["c" := f0], f1)
      && plan.repair == RepairOne(Uuid(s.next), ASSET, false, plan.events,
                                  Repair(s.store.objects, s.store.approvals, s.next + 2, None), SnapshotWith(f1))
  {
    hide RepairOne, FieldEvents, BaselineSnapshots, Provisioned, NameIndex, ObjectsOf, Drifts, SnapshotIndex, Repaired, Identified;
    OneNamed(el);
    OneProvisioned(s, el, f1);
    OneIdentified(f1);
    OnePrevious(f0);
    assert TABLE in map[TABLE := SnapshotWith(f0)];
    OneDiff(f0, f1);
    OneRepaired(Uuid(s.next), FieldEvents(TABLE, map["c" := f0], f1),
                Repair(s.store.objects, s.store.approvals, s.next + 2, None), SnapshotWith(f1), false);
  }

  lemma OneIdentified(f: SchemaField)
    ensures Identified(map["t" := TABLE], Raws(f)) == [SnapshotWith(f)]
  {
  }

  lemma OnePrevious(f: SchemaField)
    ensures SnapshotIndex([SnapshotWith(f)]) == map[TABLE := SnapshotWith(f)]
  {
    assert [SnapshotWith(f)][..0] == [];
  }

  lemma OneNamed(el: DataElement)
    ensures NameIndex(ObjectsOf([Table(el)], ASSET)) == map["t" := TABLE]
  {
    assert [Table(el)][..0] == [];
    assert ObjectsOf([Table(el)], ASSET) == [Table(el)];
  }

  lemma OneProvisioned(s: Sys, el: DataElement, f: SchemaField)
    ensures Provisioned(ASSET, Provision([Table(el)], map["t" := TABLE], s.next + 1), Raws(f))
         == Provision([Table(el)], map["t" := TABLE], s.next + 2)
  {
    assert Raws(f)[..0] == [];
  }

  lemma OneDiff(f0: SchemaField, f1: SchemaField)
    requires f0.name == "c" && f1.name == "c"
    ensures Drifts(map[TABLE := SnapshotWith(f0)], [SnapshotWith(f1)]) == FieldEvents(TABLE, map["c" := f0], f1)
  {
    hide FieldEvents, Diff;
    OneFieldDiff(f0, f1);
    assert [SnapshotWith(f1)][..0] == [];
    assert Lookup(map[TABLE := SnapshotWith(f0)], TABLE) == Some(SnapshotWith(f0));
    assert Drifts(map[TABLE := SnapshotWith(f0)], []) == [];
  }

  lemma OneIndex(f: SchemaField)
    ensures Index([f]) == map[f.name := f] && Names([f]) == [f.name]
  {
    assert [f][..0] == [];
    assert Index([]) == map[] && Names([]) == [];
  }

  lemma OneFieldDiff(f0: SchemaField, f1: SchemaField)
    requires f0.name == "c" && f1.name == "c"
    ensures Diff(SnapshotWith(f0), SnapshotWith(f1)) == FieldEvents(TABLE, map["c" := f0], f1)
  {
    hide FieldEvents;
    OneIndex(f0);
    OneIndex(f1);
    assert ["c"][..0] == [];
    assert AddedAndChanged(TABLE, map["c" := f0], map["c" := f1], []) == [];
    assert Removed(TABLE, map["c" := f0], map["c" := f1], []) == [];
  }

  lemma OneRepaired(runId: Id, events: seq<DriftEvent>, r: Repair, snap: SchemaSnapshot, first: bool)
    ensures Repaired(runId, ASSET, first, events, r, [snap]) == RepairOne(runId, ASSET, first, events, r, snap)
  {
    hide RepairOne;
    assert [snap][..0] == [];
  }

  // ---------- The first scan ----------

  function FirstElement(f: SchemaField): DataElement {
    DiscoveredElement(Uuid(2), TABLE, f)
  }

  /** It creates the table and its element, in step, and asks for no approval. */
  lemma FirstScan(f: SchemaField)
    requires f.name == "c"
    ensures var s := Step(BLANK, Scan(f));
      && OneTable(s, FirstElement(f), f) && s.next == 3 && s.store.approvals == []
      && |s.store.runs| == 1 && s.store.runs[0].id == Uuid(0) && s.store.runs[0].assetId == ASSET
      && s.store.runs[0].snapshots == [SnapshotWith(f)] && s.store.runs[0].status == COMPLETED
  {
    hide RepairOne;
    var raws := Raws(f);
    var table := Table(FirstElement(f));
    FirstProvision(f);
    assert Identified(map["t" := TABLE], raws) == [SnapshotWith(f)];
    var events := Drifts(map[], [SnapshotWith(f)]);
    OneRepaired(Uuid(0), events, Repair([table], [], 3, None), SnapshotWith(f), true);
    FirstRepair(f);
    var plan := Planned(BLANK.store, ASSET, raws, 0);
    assert plan.repair == Repair([table], [], 3, None);
    assert ResolveAsset(BLANK.store, Some(ASSET), "") == Ok(ASSET);
    assert [] + [RunRow(Uuid(0), ASSET, COMPLETED, plan.snapshots, plan.events)] == [RunRow(Uuid(0), ASSET, COMPLETED, plan.snapshots, plan.events)];
  }

  lemma FirstProvision(f: SchemaField)
    ensures Provisioned(ASSET, Provision([], NameIndex(ObjectsOf([], ASSET)), 1), Raws(f))
         == Provision([Table(FirstElement(f))], map["t" := TABLE], 3)
  {
    assert Raws(f)[..0] == [] && [f][..0] == [];
    assert DiscoveredElements(TABLE, [f], 2) == [FirstElement(f)];
  }

  lemma FirstRepair(f: SchemaField)
    requires f.name == "c"
    ensures Drifts(map[], [SnapshotWith(f)]) == [DriftEvent(TABLE, OBJECT_ADDED, None, None, None)]
    ensures RepairOne(Uuid(0), ASSET, true, Drifts(map[], [SnapshotWith(f)]), Repair([Table(FirstElement(f))], [], 3, None), SnapshotWith(f))
         == Repair([Table(FirstElement(f))], [], 3, None)
  {
    var el := FirstElement(f);
    assert [SnapshotWith(f)][..0] == [] && [f][..0] == [];
    var events := [DriftEvent(TABLE, OBJECT_ADDED, None, None, None)];
    assert Drifts(map[], [SnapshotWith(f)]) == [] + events;
    assert events[..0] == [] && EventsOf(events, TABLE, true) == [];
    FirstHealing(f);
    assert WithElements([Table(el)], TABLE, [el]) == [Table(el)];
    assert Filed(Uuid(0), ASSET, TABLE, [], 3) == [];
    assert Applied([Table(el)], TABLE, [f], 3) == Application([Table(el)], 3, None);
  }

  lemma FirstHealing(f: SchemaField)
    requires f.name == "c"
    ensures Healed(TABLE, [FirstElement(f)], 3, [f]) == Healing([FirstElement(f)], 3, 0, None)
  {
    OneElement(FirstElement(f));
    var existing, h := map["c" := FirstElement(f)], Healing([FirstElement(f)], 3, 0, None);
    assert Matches(FirstElement(f), f);
    OneHealed(existing, h, f);
  }

  lemma OneHealed(existing: map<string, DataElement>, h: Healing, f: SchemaField)
    ensures HealFields(TABLE, existing, h, [f]) == HealField(TABLE, existing, h, f)
  {
    hide HealField;
    assert [f][..0] == [];
    assert HealFields(TABLE, existing, h, []) == h;
  }

  lemma OneElement(el: DataElement)
    ensures ByName([el]) == map[el.name := el]
  {
    assert [el][..0] == [];
  }

  // ---------- A change that is withheld ----------

  function Asked(s: Sys): DriftApproval {
    DriftApproval(Uuid(s.next + 2), Uuid(s.next), ASSET, TABLE, TYPE_INCOMPATIBLE, Some("c"), UNDECIDED)
  }

  function TypeEvents(f0: SchemaField, f1: SchemaField): seq<DriftEvent> {
    [DriftEvent(TABLE, TYPE_INCOMPATIBLE, Some("c"), Some(f0.normalizedType), Some(f1.normalizedType))]
  }

  /** An incompatible type is only put up for approval. */
  lemma WithheldScan(s: Sys, el: DataElement, f0: SchemaField, f1: SchemaField)
    requires OneTable(s, el, f0) && f1.name == "c" && f1.nullable == f0.nullable
    requires !IsCompatibleWith(f1.normalizedType, f0.normalizedType)
    ensures var t := Step(s, Scan(f1));
      && OneTable(t, el, f1) && t.next == s.next + 3
      && t.store.approvals == s.store.approvals + [Asked(s)]
      && t.store.runs == s.store.runs + [RunRow(Uuid(s.next), ASSET, COMPLETED, [SnapshotWith(f1)], TypeEvents(f0, f1))]
  {
    hide IsCompatibleWith, Planned, SavedRun, FindAsset, RepairOne, LatestRun, FieldEvents, ResolveAsset;
    ScanPlan(s, el, f0, f1);
    OnlyTheType(f0, f1);
    WithheldRepair(s, el, f0, f1);
    KnownAsset(s);
    var row := RunRow(Uuid(s.next), ASSET, COMPLETED, [SnapshotWith(f1)], TypeEvents(f0, f1));
    NoSuchRun(s.store.runs, Uuid(s.next));
    SavedNewRun(s.store.runs, row);
    LatestAfterAppend(s.store.runs, row, ASSET);
  }

  lemma OnlyTheType(f0: SchemaField, f1: SchemaField)
    requires f1.name == "c" && f1.nullable == f0.nullable && !IsCompatibleWith(f1.normalizedType, f0.normalizedType)
    ensures FieldEvents(TABLE, map["c" := f0], f1) == TypeEvents(f0, f1)
  {
    assert TypeEvents(f0, f1) + [] == TypeEvents(f0, f1);
  }

  lemma KnownAsset(s: Sys)
    requires s.store.assets == BLANK.store.assets && s.store.endpoints == BLANK.store.endpoints
    ensures ResolveAsset(s.store, Some(ASSET), "") == Ok(ASSET)
  {
  }

  lemma WithheldRepair(s: Sys, el: DataElement, f0: SchemaField, f1: SchemaField)
    requires f1.name == "c"
    ensures RepairOne(Uuid(s.next), ASSET, false, TypeEvents(f0, f1), Repair(s.store.objects, s.store.approvals, s.next + 2, None), SnapshotWith(f1))
         == Repair(s.store.objects, s.store.approvals + [Asked(s)], s.next + 3, None)
  {
    hide EventsOf, Filed, Applied;
    var events := TypeEvents(f0, f1);
    OneEvent(events[0], false);
    OneEvent(events[0], true);
    OneFiled(Uuid(s.next), events[0], s.next + 2);
    assert events == [events[0]];
  }

  lemma OneEvent(ev: DriftEvent, critical: bool)
    ensures EventsOf([ev], TABLE, critical) == if ev.objectId == TABLE && ev.IsCritical() == critical then [ev] else []
  {
    assert [ev][..0] == [];
    assert EventsOf([], TABLE, critical) == [];
  }

  lemma OneFiled(runId: Id, ev: DriftEvent, next: nat)
    ensures Filed(runId, ASSET, TABLE, [ev], next) == [ApprovalFor(Uuid(next), runId, ASSET, TABLE, ev)]
  {
    assert [ev][..0] == [];
    assert Filed(runId, ASSET, TABLE, [], next) == [];
  }

  // ---------- A change that is granted ----------

  function Granted(el: DataElement, f: SchemaField): DataElement {
    if Matches(el, f) then el else Overridden(el, f)
  }

  lemma GrantedHealing(el: DataElement, f: SchemaField, next: nat)
    requires el.name == "c" && f.name == "c"
    ensures Healed(TABLE, [el], next, [f]).error.Some? <==> Clashes(map["c" := el], f)
    ensures !Clashes(map["c" := el], f) ==>
      Healed(TABLE, [el], next, [f]).elements == [Granted(el, f)] && Healed(TABLE, [el], next, [f]).next == next
  {
    hide Matches, Destructive, Overridden;
    OneElement(el);
    OneHealed(map["c" := el], Healing([el], next, 0, None), f);
  }

  /** An approval of the snapshot with field f. */
  lemma GrantedApproval(s: Sys, el: DataElement, latest: SchemaField, a: DriftApproval, f: SchemaField)
    requires OneTable(s, el, latest) && FindApproval(s.store.approvals, a.id) == Some(a) && a.decision == UNDECIDED
    requires SnapshotOf(s.store, a) == Some(SnapshotWith(f)) && a.objectId == TABLE && f.name == "c"
    ensures Clashes(map["c" := el], f) ==> Decided(s.store, a.id, APPROVED, s.next).outcome.Err?
    ensures !Clashes(map["c" := el], f) ==>
      var t := Step(s, Decide(a.id, true));
      && OneTable(t, Granted(el, f), latest) && t.store.runs == s.store.runs && t.next == s.next
      && t.store.approvals == SavedApproval(s.store.approvals, a.(decision := APPROVED))
  {
    hide Matches, Destructive, Overridden, FindApproval, SavedApproval, SnapshotOf, BaselineSnapshots, Healed, Clashes;
    GrantedHealing(el, f, s.next);
    GrantedKeepsName(el, f);
    assert WithElements([Table(el)], TABLE, [Granted(el, f)]) == [Table(Granted(el, f))];
  }

  lemma GrantedKeepsName(el: DataElement, f: SchemaField)
    ensures Granted(el, f).name == el.name && Granted(el, f).sourceType == el.sourceType && Matches(Granted(el, f), f)
  {
  }

  lemma InStepWithOne(el: DataElement, f: SchemaField)
    requires el.name == "c" && f.name == "c"
    ensures ElementsOf([Table(el)], TABLE) == [el]
    ensures InStep([el], [f]) <==> Matches(el, f)
  {
    OneElement(el);
    assert f in [f];
  }

  // ---------- An outdated approval ----------

  lemma PlayOne(s: Sys, events: seq<Event>, ev: Event)
    ensures Play(s, events + [ev]) == Step(Play(s, events), ev)
  {
    assert (events + [ev])[..|events|] == events;
  }

  lemma IncompatibleTypes()
    ensures !IsCompatibleWith("string", "integer") && !IsCompatibleWith("boolean", "string") && !IsCompatibleWith("integer", "string")
  {
    assert Lower("string") == "string" && Lower("integer") == "integer" && Lower("boolean") == "boolean";
    assert "string"[0] != "integer"[0] && "boolean"[0] != "string"[0];
    assert |"string"| == 6 && |"integer"| == 7 && |"bigint"| == 6;
    assert "string"[0] != "bigint"[0] && "string" != "float" && "string" != "decimal";
  }

  lemma Mapped()
    ensures MappedType("integer") == INTEGER && MappedType("string") == STRING && MappedType("boolean") == BOOLEAN
  {
  }

  function Pending(id: nat, run: nat): DriftApproval {
    DriftApproval(Uuid(id), Uuid(run), ASSET, TABLE, TYPE_INCOMPATIBLE, Some("c"), UNDECIDED)
  }

  const INTEGERS := Field("integer", true)
  const STRINGS := Field("string", true)
  const BOOLEANS := Field("boolean", true)

  /** The column turns from integer to string to boolean; both changes wait for a decision. */
  const CHANGES := [] + [Scan(INTEGERS)] + [Scan(STRINGS)] + [Scan(BOOLEANS)]

  lemma PlayNothing(s: Sys)
    ensures Play(s, []) == s
  {
  }

  lemma AfterTwoScans(f0: SchemaField, f1: SchemaField)
    requires f0.name == "c" && f1.name == "c" && f0.nullable == f1.nullable
    requires !IsCompatibleWith(f1.normalizedType, f0.normalizedType)
    ensures var s := Play(BLANK, [] + [Scan(f0)] + [Scan(f1)]);
      && OneTable(s, FirstElement(f0), f1) && s.next == 6 && s.store.approvals == [Pending(5, 3)]
      && SnapshotOf(s.store, Pending(5, 3)) == Some(SnapshotWith(f1))
      && FindRun(s.store.runs, Uuid(6)).None?
  {
    hide Step, IsCompatibleWith, OneTable, TypeEvents, Play, FirstSnapshot;
    PlayNothing(BLANK);
    PlayOne(BLANK, [], Scan(f0));
    PlayOne(BLANK, [] + [Scan(f0)], Scan(f1));
    FirstScan(f0);
    var s := Play(BLANK, [] + [Scan(f0)]);
    WithheldScan(s, FirstElement(f0), f0, f1);
    var row := RunRow(Uuid(3), ASSET, COMPLETED, [SnapshotWith(f1)], TypeEvents(f0, f1));
    assert s.store.runs == [s.store.runs[0]];
    FindRunAfterAppend(s.store.runs, row, Uuid(3));
    FindRunAfterAppend(s.store.runs, row, Uuid(6));
    OnlySnapshot(f1);
    assert [] + [Pending(5, 3)] == [Pending(5, 3)];
  }

  lemma OnlySnapshot(f: SchemaField)
    ensures FirstSnapshot([SnapshotWith(f)], TABLE) == Some(SnapshotWith(f))
  {
  }

  lemma AfterTheChanges()
    ensures var s := Play(BLANK, CHANGES);
      && OneTable(s, FirstElement(INTEGERS), BOOLEANS) && s.store.approvals == [Pending(5, 3), Pending(8, 6)]
      && SnapshotOf(s.store, Pending(5, 3)) == Some(SnapshotWith(STRINGS))
      && SnapshotOf(s.store, Pending(8, 6)) == Some(SnapshotWith(BOOLEANS))
  {
    hide Step, IsCompatibleWith, OneTable;
    IncompatibleTypes();
    AfterTwoScans(INTEGERS, STRINGS);
    var front := [] + [Scan(INTEGERS)] + [Scan(STRINGS)];
    PlayOne(BLANK, front, Scan(BOOLEANS));
    var s := Play(BLANK, front);
    WithheldScan(s, FirstElement(INTEGERS), STRINGS, BOOLEANS);
    var row := RunRow(Uuid(6), ASSET, COMPLETED, [SnapshotWith(BOOLEANS)], TypeEvents(STRINGS, BOOLEANS));
    FindRunAfterAppend(s.store.runs, row, Uuid(3));
    FindRunAfterAppend(s.store.runs, row, Uuid(6));
    assert [Pending(5, 3)] + [Pending(8, 6)] == [Pending(5, 3), Pending(8, 6)];
  }

  /** Granting the later change puts the table in step with its latest snapshot; granting the earlier one takes it out again. */
  lemma OutdatedApprovalTakesBack()
    ensures var s := Play(BLANK, CHANGES + [Decide(Uuid(8), true)]);
      && BaselineSnapshots(s.store.runs, ASSET) == [SnapshotWith(BOOLEANS)]
      && InStep(ElementsOf(s.store.objects, TABLE), [BOOLEANS])
    ensures var t := Play(BLANK, CHANGES + [Decide(Uuid(8), true)] + [Decide(Uuid(5), true)]);
      && BaselineSnapshots(t.store.runs, ASSET) == [SnapshotWith(BOOLEANS)]
      && !InStep(ElementsOf(t.store.objects, TABLE), [BOOLEANS])
  {
    Mapped();
    AfterTheChanges();
    hide Step, Play, InStep, BaselineSnapshots, MappedType, SnapshotOf;
    PlayOne(BLANK, CHANGES, Decide(Uuid(8), true));
    PlayOne(BLANK, CHANGES + [Decide(Uuid(8), true)], Decide(Uuid(5), true));
    var s3 := Play(BLANK, CHANGES);
    var el0 := FirstElement(INTEGERS);
    TwoPending(Pending(5, 3), Pending(8, 6));
    GrantedApproval(s3, el0, BOOLEANS, Pending(8, 6), BOOLEANS);
    var el1 := Granted(el0, BOOLEANS);
    GrantedKeepsName(el0, BOOLEANS);
    InStepWithOne(el1, BOOLEANS);
    var s4 := Step(s3, Decide(Uuid(8), true));
    SnapshotByRuns(s3.store, s4.store, Pending(5, 3));
    GrantedApproval(s4, el1, BOOLEANS, Pending(5, 3), STRINGS);
    GrantedKeepsName(el1, STRINGS);
    InStepWithOne(Granted(el1, STRINGS), BOOLEANS);
  }

  lemma TwoPending(a: DriftApproval, b: DriftApproval)
    requires a.id != b.id
    ensures FindApproval([a, b], a.id) == Some(a) && FindApproval([a, b], b.id) == Some(b)
    ensures forall d :: FindApproval(SavedApproval([a, b], b.(decision := d)), a.id) == Some(a)
  {
    assert [a, b][1..] == [b] && [b][1..] == [];
  }

  lemma SnapshotByRuns(a: Store, b: Store, approval: DriftApproval)
    requires a.runs == b.runs
    ensures SnapshotOf(a, approval) == SnapshotOf(b, approval)
  {
  }

  // ---------- An approval that can never be granted ----------

  /** The column turns from string to integer: the change waits for an approval that cannot come. */
  lemma HopelessIsReached()
    ensures var s := Play(BLANK, [] + [Scan(STRINGS)] + [Scan(INTEGERS)]);
      StoreOk(s) && Hopeless(s, Uuid(5), INTEGERS, Pending(5, 3), SnapshotWith(INTEGERS))
  {
    Mapped();
    IncompatibleTypes();
    TwoScansOk(STRINGS, INTEGERS);
    hide Step, Play, SnapshotOf, MappedType, IsCompatibleWith, StoreOk;
    AfterTwoScans(STRINGS, INTEGERS);
    OneElement(FirstElement(STRINGS));
    InStepWithOne(FirstElement(STRINGS), STRINGS);
    OnePending(Pending(5, 3));
    assert INTEGERS in SnapshotWith(INTEGERS).fields;
  }

  lemma BlankIsOk()
    ensures StoreOk(BLANK)
  {
  }

  lemma TwoScansOk(f0: SchemaField, f1: SchemaField)
    ensures StoreOk(Play(BLANK, [] + [Scan(f0)] + [Scan(f1)]))
  {
    hide StoreOk, Step, Play;
    BlankIsOk();
    PlayNothing(BLANK);
    PlayOne(BLANK, [], Scan(f0));
    PlayOne(BLANK, [] + [Scan(f0)], Scan(f1));
    StepKeepsOk(BLANK, Scan(f0));
    StepKeepsOk(Play(BLANK, [] + [Scan(f0)]), Scan(f1));
  }

  lemma OnePending(a: DriftApproval)
    ensures FindApproval([a], a.id) == Some(a)
  {
  }

  // ---------- A discovery that raises while it heals ----------

  /** The column also becomes nullable, so the change is applied at once, and raises: no run is recorded. */
  lemma HealingRaises()
    ensures var s := Play(BLANK, [] + [Scan(Field("string", false))]);
      var a := Discovered(s.store, Some(ASSET), "", Ok(Raws(INTEGERS)), s.next);
      && a.outcome == Err(DestructiveOverride("c")) && a.store == s.store
  {
    var f0 := Field("string", false);
    var el := FirstElement(f0);
    Mapped();
    IncompatibleTypes();
    PlayOne(BLANK, [], Scan(f0));
    FirstScan(f0);
    var s := Play(BLANK, [] + [Scan(f0)]);
    hide Step, Play, MappedType, IsCompatibleWith, Planned, ResolveAsset, RepairOne, SavedRun;
    ScanPlan(s, el, f0, INTEGERS);
    KnownAsset(s);
    HealingClashes(s, el, f0);
  }

  lemma HealingClashes(s: Sys, el: DataElement, f0: SchemaField)
    requires s.store.objects == [Table(el)] && el.name == "c" && el.sourceType == Some(STRING) && el.destinationType == STRING
    requires f0 == Field("string", false)
    ensures RepairOne(Uuid(s.next), ASSET, false, FieldEvents(TABLE, map["c" := f0], INTEGERS),
                      Repair(s.store.objects, s.store.approvals, s.next + 2, None), SnapshotWith(INTEGERS)).error == Some(DestructiveOverride("c"))
  {
    Mapped();
    IncompatibleTypes();
    var events := FieldEvents(TABLE, map["c" := f0], INTEGERS);
    var nullable := DriftEvent(TABLE, REQUIRED_TO_NULLABLE, Some("c"), None, None);
    assert events == TypeEvents(f0, INTEGERS) + [nullable];
    hide MappedType, IsCompatibleWith, FieldEvents, Filed;
    assert events[..1] == TypeEvents(f0, INTEGERS);
    assert nullable in EventsOf(events, TABLE, false);
    OneElement(el);
    OneHealed(map["c" := el], Healing([el], s.next + 2, 0, None), INTEGERS);
  }

  // ---------- A critical change that is applied before anyone is asked ----------

  /** The column turns from integer to string and becomes nullable: catalogued at once, with the approval still pending. */
  lemma ChangeSlipsThrough()
    ensures var s := Play(BLANK, [] + [Scan(Field("integer", false))] + [Scan(STRINGS)]);
      && s.store.approvals == [Pending(5, 3)]
      && |s.store.objects| == 1 && |s.store.objects[0].elements| == 1
      && s.store.objects[0].elements[0].sourceType == Some(INTEGER)
      && s.store.objects[0].elements[0].destinationType == STRING
  {
    var f0 := Field("integer", false);
    var el := FirstElement(f0);
    Mapped();
    IncompatibleTypes();
    PlayNothing(BLANK);
    PlayOne(BLANK, [], Scan(f0));
    PlayOne(BLANK, [] + [Scan(f0)], Scan(STRINGS));
    FirstScan(f0);
    var s := Play(BLANK, [] + [Scan(f0)]);
    hide Step, Play, MappedType, IsCompatibleWith, Planned, ResolveAsset, RepairOne, SavedRun, FieldEvents;
    ScanPlan(s, el, f0, STRINGS);
    KnownAsset(s);
    SlippedRepair(s, el, f0);
    SlippedStep(s);
  }

  lemma SlippedStep(s: Sys)
    requires ResolveAsset(s.store, Some(ASSET), "") == Ok(ASSET)
    requires Planned(s.store, ASSET, Raws(STRINGS), s.next).repair.error.None?
    ensures var r := Planned(s.store, ASSET, Raws(STRINGS), s.next).repair;
      Step(s, Scan(STRINGS)).store.objects == r.objects && Step(s, Scan(STRINGS)).store.approvals == r.approvals
  {
    hide Planned, ResolveAsset, SavedRun;
  }

  lemma SlippedRepair(s: Sys, el: DataElement, f0: SchemaField)
    requires s.store.objects == [Table(el)] && el.name == "c" && el.sourceType == Some(INTEGER) && el.destinationType == INTEGER
    requires f0 == Field("integer", false) && s.next == 3 && s.store.approvals == []
    ensures RepairOne(Uuid(s.next), ASSET, false, FieldEvents(TABLE, map["c" := f0], STRINGS),
                      Repair(s.store.objects, s.store.approvals, s.next + 2, None), SnapshotWith(STRINGS))
         == Repair([Table(Overridden(el, STRINGS))], [Pending(5, 3)], s.next + 3, None)
    ensures Overridden(el, STRINGS).destinationType == STRING && Overridden(el, STRINGS).sourceType == Some(INTEGER)
  {
    Mapped();
    IncompatibleTypes();
    var events := FieldEvents(TABLE, map["c" := f0], STRINGS);
    var nullable := DriftEvent(TABLE, REQUIRED_TO_NULLABLE, Some("c"), None, None);
    var type_ := TypeEvents(f0, STRINGS)[0];
    assert events == [type_] + [nullable];
    hide MappedType, IsCompatibleWith, FieldEvents, Filed, Overridden, EventsOf;
    EventsOfConcat([type_], [nullable], TABLE, false);
    EventsOfConcat([type_], [nullable], TABLE, true);
    OneEvent(type_, false);
    OneEvent(type_, true);
    OneEvent(nullable, false);
    OneEvent(nullable, true);
    assert [type_] + [] == [type_] && [] + [nullable] == [nullable];
    GrantedHealing(el, STRINGS, s.next + 2);
    OneFiled(Uuid(3), type_, 5);
    assert WithElements([Table(el)], TABLE, [Overridden(el, STRINGS)]) == [Table(Overridden(el, STRINGS))];
    assert [] + [Pending(5, 3)] == [Pending(5, 3)];
    OverriddenBecomes(el);
  }

  lemma OverriddenBecomes(el: DataElement)
    ensures Overridden(el, STRINGS).destinationType == STRING && Overridden(el, STRINGS).sourceType == el.sourceType
  {
    Mapped();
  }
}
