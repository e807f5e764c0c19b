/** Catalogue elements and their repair (app/domain/objects/object_service.py). */
module ObjectService {
  import opened Wrappers
  import opened Schema
  import opened PlatformStore
  import opened UnitOfWork

  /** Overrides that would lose data. */
  predicate Destructive(source: Option<ElementType>, destination: ElementType) {
    source == Some(STRING) && destination in {INTEGER, BIGINT, FLOAT, DATE, TIMESTAMP, BOOLEAN}
  }

  /** {e.name: e for e in elements} */
  function ByName(elements: seq<DataElement>): map<string, DataElement> {
    if elements == [] then map[]
    else ByName(elements[..|elements| - 1])[elements[|elements| - 1].name := elements[|elements| - 1]]
  }

  /** The element already is what the field asks for. */
  predicate Matches(e: DataElement, f: SchemaField) {
    e.destinationType == MappedType(f.normalizedType) && e.nullable == f.nullable
  }

  function NewElement(id: Id, objectId: Id, f: SchemaField): DataElement {
    var t := MappedType(f.normalizedType);
    DataElement(id, objectId, f.name, Some(t), t, !f.nullable, f.nullable, false,
                if f.description.Some? then f.description.value else "", false)
  }

  function Overridden(e: DataElement, f: SchemaField): DataElement {
    e.(destinationType := MappedType(f.normalizedType), required := !f.nullable, nullable := f.nullable)
  }

  /** The row with the given id is overridden. */
  function OverrideRow(elements: seq<DataElement>, id: Id, f: SchemaField): (r: seq<DataElement>)
    ensures |r| == |elements|
    ensures forall i :: 0 <= i < |elements| ==> r[i] == if elements[i].id == id then Overridden(elements[i], f) else elements[i]
  {
    seq(|elements|, i requires 0 <= i < |elements| => if elements[i].id == id then Overridden(elements[i], f) else elements[i])
  }

  // ---------- One application of a snapshot ----------

  /** Elements so far, the next unused uuid, how many rows were written, and the error if one was raised. */
  datatype Healing = Healing(elements: seq<DataElement>, next: nat, writes: nat, error: Option<Error>)

  function HealField(objectId: Id, existing: map<string, DataElement>, h: Healing, f: SchemaField): Healing {
    if h.error.Some? then h
    else if f.name !in existing then
      Healing(h.elements + [NewElement(Uuid(h.next), objectId, f)], h.next + 1, h.writes + 1, None)
    else if Matches(existing[f.name], f) then h
    else if Destructive(existing[f.name].sourceType, MappedType(f.normalizedType)) then
      h.(error := Some(DestructiveOverride(f.name)))
    else h.(elements := OverrideRow(h.elements, existing[f.name].id, f), writes := h.writes + 1)
  }

  function HealFields(objectId: Id, existing: map<string, DataElement>, h: Healing, fields: seq<SchemaField>): Healing {
    if fields == [] then h
    else HealField(objectId, existing, HealFields(objectId, existing, h, fields[..|fields| - 1]), fields[|fields| - 1])
  }

  function Healed(objectId: Id, elements: seq<DataElement>, next: nat, fields: seq<SchemaField>): Healing {
    HealFields(objectId, ByName(elements), Healing(elements, next, 0, None), fields)
  }

  // ---------- What it achieves ----------

  ghost predicate DistinctNames(elements: seq<DataElement>) {
    forall i, j :: 0 <= i < j < |elements| ==> elements[i].name != elements[j].name
  }

  /** Names and ids are unique, and no id is still to be drawn. */
  ghost predicate ElementsOk(elements: seq<DataElement>, next: nat) {
    && DistinctNames(elements)
    && (forall i, j :: 0 <= i < j < |elements| ==> elements[i].id != elements[j].id)
    && (forall i :: 0 <= i < |elements| && elements[i].id.Uuid? ==> elements[i].id.n < next)
  }

  lemma {:induction false} ByNameHas(elements: seq<DataElement>, i: nat)
    requires DistinctNames(elements) && i < |elements|
    ensures elements[i].name in ByName(elements) && ByName(elements)[elements[i].name] == elements[i]
  {
    if i < |elements| - 1 {
      ByNameHas(elements[..|elements| - 1], i);
    }
  }

  /** Where the element of a name stands. */
  lemma {:induction false} ByNameFinds(elements: seq<DataElement>, n: string) returns (i: nat)
    requires n in ByName(elements)
    ensures i < |elements| && elements[i] == ByName(elements)[n] && elements[i].name == n
  {
    if n == elements[|elements| - 1].name {
      i := |elements| - 1;
    } else {
      i := ByNameFinds(elements[..|elements| - 1], n);
    }
  }

  /** An element after the snapshot: untouched unless a field of its name asks for something else. */
  function Fixed(e: DataElement, index: map<string, SchemaField>): DataElement {
    if e.name in index && !Matches(e, index[e.name]) then Overridden(e, index[e.name]) else e
  }

  function FixedAll(elements: seq<DataElement>, index: map<string, SchemaField>): (r: seq<DataElement>)
    ensures |r| == |elements| && forall i :: 0 <= i < |elements| ==> r[i] == Fixed(elements[i], index)
  {
    seq(|elements|, i requires 0 <= i < |elements| => Fixed(elements[i], index))
  }

  function NewFields(existing: map<string, DataElement>, fields: seq<SchemaField>): seq<SchemaField> {
    if fields == [] then []
    else
      var f := fields[|fields| - 1];
      NewFields(existing, fields[..|fields| - 1]) + (if f.name in existing then [] else [f])
  }

  function NewElements(objectId: Id, fields: seq<SchemaField>, next: nat): (r: seq<DataElement>)
    ensures |r| == |fields| && forall i :: 0 <= i < |fields| ==> r[i] == NewElement(Uuid(next + i), objectId, fields[i])
  {
    seq(|fields|, i requires 0 <= i < |fields| => NewElement(Uuid(next + i), objectId, fields[i]))
  }

  /** The field asks an existing element for a lossy change. */
  predicate Clashes(existing: map<string, DataElement>, f: SchemaField) {
    && f.name in existing && !Matches(existing[f.name], f)
    && Destructive(existing[f.name].sourceType, MappedType(f.normalizedType))
  }

  lemma NewFieldsStep(existing: map<string, DataElement>, fields: seq<SchemaField>, f: SchemaField)
    ensures NewFields(existing, fields + [f]) == NewFields(existing, fields) + (if f.name in existing then [] else [f])
  {
    assert (fields + [f])[..|fields|] == fields;
  }

  lemma FixedStep(elements: seq<DataElement>, fields: seq<SchemaField>, f: SchemaField)
    requires DistinctNames(elements) && f.name !in Index(fields)
    ensures var before := FixedAll(elements, Index(fields));
      var after := FixedAll(elements, Index(fields + [f]));
      forall i :: 0 <= i < |elements| ==>
        after[i] == if elements[i].name == f.name then Fixed(elements[i], map[f.name := f]) else before[i]
    ensures forall i :: 0 <= i < |elements| && elements[i].name == f.name ==> FixedAll(elements, Index(fields))[i] == elements[i]
  {
    assert (fields + [f])[..|fields|] == fields;
    assert Index(fields + [f]) == Index(fields)[f.name := f];
  }

  ghost predicate ClosedForm(objectId: Id, elements: seq<DataElement>, next: nat, fields: seq<SchemaField>, h: Healing) {
    var added := NewFields(ByName(elements), fields);
    h.elements == FixedAll(elements, Index(fields)) + NewElements(objectId, added, next) && h.next == next + |added|
  }

  /**
   The loop over the fields, with its row updates by id, amounts to this: every element is
   fixed by the field of its name, and the unknown fields follow as new elements in order.
   */
  lemma {:induction false} HealedClosedForm(objectId: Id, elements: seq<DataElement>, next: nat, fields: seq<SchemaField>)
    requires ElementsOk(elements, next) && DistinctFields(fields)
    requires Healed(objectId, elements, next, fields).error.None?
    ensures ClosedForm(objectId, elements, next, fields, Healed(objectId, elements, next, fields))
  {
    if fields == [] {
      assert FixedAll(elements, map[]) == elements;
    } else {
      var front, f := fields[..|fields| - 1], fields[|fields| - 1];
      assert fields == front + [f];
      HealedClosedForm(objectId, elements, next, front);
      DistinctLast(front, f);
      ClosedFormStep(objectId, elements, next, front, f, Healed(objectId, elements, next, front));
    }
  }

  lemma DistinctLast(front: seq<SchemaField>, f: SchemaField)
    requires DistinctFields(front + [f])
    ensures f.name !in Index(front)
  {
    IndexEntries(front);
    var all := front + [f];
    forall g | g in front
      ensures g.name != f.name
    {
      var i :| 0 <= i < |front| && front[i] == g;
      assert all[i] == g && all[|front|] == f;
    }
  }

  lemma ClosedFormStep(objectId: Id, elements: seq<DataElement>, next: nat, front: seq<SchemaField>, f: SchemaField, h: Healing)
    requires ElementsOk(elements, next) && f.name !in Index(front)
    requires h.error.None? && ClosedForm(objectId, elements, next, front, h)
    requires HealField(objectId, ByName(elements), h, f).error.None?
    ensures ClosedForm(objectId, elements, next, front + [f], HealField(objectId, ByName(elements), h, f))
  {
    hide Matches, Destructive, ClosedForm, ElementsOk, Index, ByName;
    if f.name !in ByName(elements) {
      ClosedFormNewField(objectId, elements, next, front, f, h);
    } else {
      ClosedFormKnownField(objectId, elements, next, front, f, h);
    }
  }

  lemma ClosedFormNewField(objectId: Id, elements: seq<DataElement>, next: nat, front: seq<SchemaField>, f: SchemaField, h: Healing)
    requires ElementsOk(elements, next) && f.name !in Index(front) && f.name !in ByName(elements)
    requires h.error.None? && ClosedForm(objectId, elements, next, front, h)
    ensures ClosedForm(objectId, elements, next, front + [f],
                       Healing(h.elements + [NewElement(Uuid(h.next), objectId, f)], h.next + 1, h.writes + 1, None))
  {
    hide NewElement, Index, FixedAll, NewElements, NewFields, ByName;
    NewFieldsStep(ByName(elements), front, f);
    DistinctOfOk(elements, next);
    NoRowFixed(elements, front, f);
    NewElementsStep(objectId, NewFields(ByName(elements), front), next, f);
  }

  lemma ClosedFormKnownField(objectId: Id, elements: seq<DataElement>, next: nat, front: seq<SchemaField>, f: SchemaField, h: Healing)
    requires ElementsOk(elements, next) && f.name !in Index(front) && f.name in ByName(elements)
    requires ClosedForm(objectId, elements, next, front, h)
    ensures var e := ByName(elements)[f.name];
      ClosedForm(objectId, elements, next, front + [f],
                 if Matches(e, f) then h else h.(elements := OverrideRow(h.elements, e.id, f), writes := h.writes + 1))
  {
    hide Matches, Index, FixedAll, NewElements, NewFields, ByName, OverrideRow, ElementsOk;
    NewFieldsStep(ByName(elements), front, f);
    var added := NewFields(ByName(elements), front);
    assert added + [] == added;
    var k := ByNameFinds(elements, f.name);
    OneRowFixed(objectId, elements, next, front, added, f, k);
  }

  lemma NewElementsStep(objectId: Id, added: seq<SchemaField>, next: nat, f: SchemaField)
    ensures NewElements(objectId, added + [f], next) == NewElements(objectId, added, next) + [NewElement(Uuid(next + |added|), objectId, f)]
  {
    hide NewElement;
  }

  lemma NoRowFixed(elements: seq<DataElement>, front: seq<SchemaField>, f: SchemaField)
    requires DistinctNames(elements) && f.name !in Index(front) && f.name !in ByName(elements)
    ensures FixedAll(elements, Index(front + [f])) == FixedAll(elements, Index(front))
  {
    hide Matches, Overridden, Index;
    FixedStep(elements, front, f);
    forall i | 0 <= i < |elements|
      ensures elements[i].name != f.name
    {
      ByNameHas(elements, i);
    }
  }

  /** Updating the row with the element's id touches that element and nothing else. */
  lemma OneRowFixed(
    objectId: Id, elements: seq<DataElement>, next: nat, front: seq<SchemaField>, added: seq<SchemaField>, f: SchemaField, k: nat)
    requires ElementsOk(elements, next) && f.name !in Index(front)
    requires k < |elements| && elements[k].name == f.name
    ensures var e := elements[k];
      var all := FixedAll(elements, Index(front)) + NewElements(objectId, added, next);
      FixedAll(elements, Index(front + [f])) + NewElements(objectId, added, next)
      == if Matches(e, f) then all else OverrideRow(all, e.id, f)
  {
    hide Matches, Overridden, Index;
    var e := elements[k];
    FixedStep(elements, front, f);
    var news := NewElements(objectId, added, next);
    var before, after := FixedAll(elements, Index(front)), FixedAll(elements, Index(front + [f]));
    var all := before + news;
    var r := if Matches(e, f) then all else OverrideRow(all, e.id, f);
    FixedKeepsIds(elements, Index(front));
    NewIds(objectId, added, next);
    forall i | 0 <= i < |all|
      ensures r[i] == (after + news)[i]
    {
      if i >= |elements| {
        assert all[i].id != e.id;
      } else if i != k {
        assert elements[i].name != f.name && elements[i].id != e.id;
      }
    }
  }

  lemma FixedKeepsIds(elements: seq<DataElement>, index: map<string, SchemaField>)
    ensures forall i :: 0 <= i < |elements| ==> FixedAll(elements, index)[i].id == elements[i].id
  {
  }

  lemma NewIds(objectId: Id, added: seq<SchemaField>, next: nat)
    ensures forall i :: 0 <= i < |added| ==> NewElements(objectId, added, next)[i].id == Uuid(next + i)
    ensures forall i :: 0 <= i < |added| ==> NewElements(objectId, added, next)[i].name == added[i].name
  {
  }

  /** The application raises iff some field asks an existing element for a lossy change. */
  lemma {:induction false} HealedRaisesIff(objectId: Id, existing: map<string, DataElement>, h: Healing, fields: seq<SchemaField>)
    requires h.error.None?
    ensures HealFields(objectId, existing, h, fields).error.Some? <==> exists f :: f in fields && Clashes(existing, f)
  {
    if fields != [] {
      var front, f := fields[..|fields| - 1], fields[|fields| - 1];
      HealedRaisesIff(objectId, existing, h, front);
      assert fields == front + [f];
      assert f in fields;
    }
  }

  /** The catalogue has, for each field, an element of its mapped type and nullability. */
  ghost predicate InStep(elements: seq<DataElement>, fields: seq<SchemaField>) {
    forall f :: f in fields ==> f.name in ByName(elements) && Matches(ByName(elements)[f.name], f)
  }

  lemma {:induction false} NewFieldsAre(existing: map<string, DataElement>, fields: seq<SchemaField>)
    ensures forall f :: f in NewFields(existing, fields) <==> f in fields && f.name !in existing
  {
    if fields != [] {
      var front, last := fields[..|fields| - 1], fields[|fields| - 1];
      NewFieldsAre(existing, front);
      assert fields == front + [last];
    }
  }

  lemma {:induction false} NewFieldsDistinct(existing: map<string, DataElement>, fields: seq<SchemaField>)
    requires DistinctFields(fields)
    ensures DistinctFields(NewFields(existing, fields))
  {
    if fields != [] {
      var front, last := fields[..|fields| - 1], fields[|fields| - 1];
      NewFieldsDistinct(existing, front);
      NewFieldsAre(existing, front);
      var added := NewFields(existing, front);
      forall i | 0 <= i < |added|
        ensures added[i].name != last.name
      {
        assert added[i] in front;
        var j :| 0 <= j < |front| && front[j] == added[i];
        assert fields[j].name != fields[|fields| - 1].name;
      }
    }
  }

  /** Identity, provenance and key role of an element are never rewritten. */
  predicate SameOrigin(a: DataElement, b: DataElement) {
    && a.id == b.id && a.objectId == b.objectId && a.name == b.name && a.sourceType == b.sourceType
    && a.isPrimaryKey == b.isPrimaryKey && a.description == b.description && a.autoGenerated == b.autoGenerated
  }

  lemma FixedFacts(elements: seq<DataElement>, fields: seq<SchemaField>)
    ensures forall i :: 0 <= i < |elements| ==> SameOrigin(FixedAll(elements, Index(fields))[i], elements[i])
    ensures forall i :: 0 <= i < |elements| && elements[i].name !in Index(fields) ==> FixedAll(elements, Index(fields))[i] == elements[i]
    ensures forall i :: 0 <= i < |elements| && elements[i].name in Index(fields) ==>
      Matches(FixedAll(elements, Index(fields))[i], Index(fields)[elements[i].name])
  {
  }

  lemma ClosedFormNames(objectId: Id, elements: seq<DataElement>, next: nat, fields: seq<SchemaField>)
    requires DistinctNames(elements) && DistinctFields(fields)
    ensures DistinctNames(FixedAll(elements, Index(fields)) + NewElements(objectId, NewFields(ByName(elements), fields), next))
  {
    hide Matches, Index, Overridden, NewFields;
    var added := NewFields(ByName(elements), fields);
    NewFieldsAre(ByName(elements), fields);
    NewFieldsDistinct(ByName(elements), fields);
    FixedFacts(elements, fields);
    NewIds(objectId, added, next);
    var n, all := |elements|, FixedAll(elements, Index(fields)) + NewElements(objectId, added, next);
    forall i, j | 0 <= i < j < |all|
      ensures all[i].name != all[j].name
    {
      if i < n && j >= n {
        ByNameHas(elements, i);
        assert added[j - n] in added;
      }
    }
  }

  lemma ClosedFormIds(objectId: Id, elements: seq<DataElement>, next: nat, fields: seq<SchemaField>, added: seq<SchemaField>)
    requires ElementsOk(elements, next)
    ensures var all := FixedAll(elements, Index(fields)) + NewElements(objectId, added, next);
      && (forall i, j :: 0 <= i < j < |all| ==> all[i].id != all[j].id)
      && (forall i :: 0 <= i < |all| && all[i].id.Uuid? ==> all[i].id.n < next + |added|)
  {
    hide Matches, Index, Overridden;
    FixedKeepsIds(elements, Index(fields));
    NewIds(objectId, added, next);
  }

  lemma ClosedFormOk(objectId: Id, elements: seq<DataElement>, next: nat, fields: seq<SchemaField>, h: Healing)
    requires ElementsOk(elements, next) && DistinctFields(fields) && ClosedForm(objectId, elements, next, fields, h)
    ensures ElementsOk(h.elements, h.next)
  {
    hide FixedAll, NewElements, NewFields, Index;
    ClosedFormNames(objectId, elements, next, fields);
    ClosedFormIds(objectId, elements, next, fields, NewFields(ByName(elements), fields));
  }

  lemma ClosedFormInStep(objectId: Id, elements: seq<DataElement>, next: nat, fields: seq<SchemaField>, h: Healing)
    requires ElementsOk(elements, next) && DistinctFields(fields) && ClosedForm(objectId, elements, next, fields, h)
    ensures InStep(h.elements, fields)
  {
    hide Matches, Index, Overridden, ElementsOk, ByName, NewFields, NewElement;
    ClosedFormOk(objectId, elements, next, fields, h);
    DistinctOfOk(h.elements, h.next);
    var added := NewFields(ByName(elements), fields);
    forall f | f in fields
      ensures f.name in ByName(h.elements) && Matches(ByName(h.elements)[f.name], f)
    {
      var i := FieldHasElement(objectId, elements, next, fields, f);
      assert h.elements[i].name == f.name && Matches(h.elements[i], f);
      ByNameHas(h.elements, i);
    }
  }

  lemma DistinctOfOk(elements: seq<DataElement>, next: nat)
    requires ElementsOk(elements, next)
    ensures DistinctNames(elements)
  {
  }

  lemma FieldHasElement(objectId: Id, elements: seq<DataElement>, next: nat, fields: seq<SchemaField>, f: SchemaField) returns (i: nat)
    requires DistinctFields(fields) && f in fields
    ensures var all := FixedAll(elements, Index(fields)) + NewElements(objectId, NewFields(ByName(elements), fields), next);
      i < |all| && all[i].name == f.name && Matches(all[i], f)
  {
    hide Matches, Index, Overridden, ByName, NewFields, NewElement;
    IndexOfDistinct(fields);
    var added := NewFields(ByName(elements), fields);
    if f.name in ByName(elements) {
      i := ByNameFinds(elements, f.name);
      FixedFacts(elements, fields);
    } else {
      NewFieldsAre(ByName(elements), fields);
      var k :| 0 <= k < |added| && added[k] == f;
      i := |elements| + k;
      NewElementMatches(Uuid(next + k), objectId, f);
    }
  }

  lemma NewElementMatches(id: Id, objectId: Id, f: SchemaField)
    ensures Matches(NewElement(id, objectId, f), f) && NewElement(id, objectId, f).name == f.name
  {
  }

  /**
   When an application returns, the elements are in step with the snapshot, names stay unique,
   elements the snapshot does not name are untouched and no origin is rewritten.
   */
  lemma ApplyConverges(objectId: Id, elements: seq<DataElement>, next: nat, fields: seq<SchemaField>)
    requires ElementsOk(elements, next) && DistinctFields(fields)
    ensures var h := Healed(objectId, elements, next, fields);
      && (h.error.Some? <==> exists f :: f in fields && Clashes(ByName(elements), f))
      && (h.error.None? ==>
            && InStep(h.elements, fields) && ElementsOk(h.elements, h.next)
            && |elements| <= |h.elements| && next <= h.next
            && (forall i :: 0 <= i < |elements| ==> SameOrigin(h.elements[i], elements[i]))
            && (forall i :: 0 <= i < |elements| && elements[i].name !in Index(fields) ==> h.elements[i] == elements[i]))
  {
    hide Matches, Index, Overridden, InStep, ElementsOk;
    var h := Healed(objectId, elements, next, fields);
    HealedRaisesIff(objectId, ByName(elements), Healing(elements, next, 0, None), fields);
    if h.error.None? {
      HealedClosedForm(objectId, elements, next, fields);
      ClosedFormOk(objectId, elements, next, fields, h);
      ClosedFormInStep(objectId, elements, next, fields, h);
      FixedFacts(elements, fields);
    }
  }

  /** A field clashes iff its element was catalogued as a string and the field asks for one of six types, or keeps one and changes nullability. */
  lemma ClashesIff(elements: seq<DataElement>, f: SchemaField)
    requires DistinctNames(elements)
    ensures Clashes(ByName(elements), f) <==>
      exists e :: && e in elements && e.name == f.name && e.sourceType == Some(STRING)
                  && f.normalizedType in {"integer", "bigint", "float", "date", "timestamp", "boolean"}
                  && (TextOf(e.destinationType) != f.normalizedType || e.nullable != f.nullable)
  {
    hide ByName;
    if e :| e in elements && e.name == f.name {
      var i :| 0 <= i < |elements| && elements[i] == e;
      ByNameHas(elements, i);
      OnlyOneOfAName(elements, i);
      MappedTypeIs(f.normalizedType, e.destinationType);
    } else {
      NotByName(elements, f.name);
    }
  }

  lemma NotByName(elements: seq<DataElement>, n: string)
    requires forall e :: e in elements ==> e.name != n
    ensures n !in ByName(elements)
  {
    if elements != [] {
      NotByName(elements[..|elements| - 1], n);
    }
  }

  lemma OnlyOneOfAName(elements: seq<DataElement>, i: nat)
    requires DistinctNames(elements) && i < |elements|
    ensures forall e :: e in elements && e.name == elements[i].name ==> e == elements[i]
  {
    forall e | e in elements && e.name == elements[i].name
      ensures e == elements[i]
    {
      var j :| 0 <= j < |elements| && elements[j] == e;
    }
  }

  /** In step: for every field some element has its name, its type and its nullability. */
  lemma InStepIff(elements: seq<DataElement>, fields: seq<SchemaField>)
    requires DistinctNames(elements)
    ensures InStep(elements, fields) <==>
      forall f :: f in fields ==>
        exists e :: e in elements && e.name == f.name && e.destinationType == MappedType(f.normalizedType) && e.nullable == f.nullable
  {
    hide MappedType;
    forall f | f in fields
      ensures f.name in ByName(elements) && Matches(ByName(elements)[f.name], f) <==>
        exists e :: e in elements && e.name == f.name && e.destinationType == MappedType(f.normalizedType) && e.nullable == f.nullable
    {
      if f.name in ByName(elements) {
        var i := ByNameFinds(elements, f.name);
        OnlyOneOfAName(elements, i);
      }
      if e :| e in elements && e.name == f.name {
        var i :| 0 <= i < |elements| && elements[i] == e;
        ByNameHas(elements, i);
      }
    }
  }

  /** An old row after an application that names it: its type and nullability are the field's, its origin its own. */
  ghost predicate FollowsField(after: DataElement, before: DataElement, f: SchemaField) {
    && SameOrigin(after, before)
    && after.destinationType == MappedType(f.normalizedType) && after.nullable == f.nullable
    && after.required == if before.destinationType == MappedType(f.normalizedType) && before.nullable == f.nullable
                         then before.required else !f.nullable
  }

  /** A new row: everything comes from the field. */
  ghost predicate MadeFrom(e: DataElement, objectId: Id, id: Id, f: SchemaField) {
    && e.id == id && e.objectId == objectId && e.name == f.name
    && e.sourceType == Some(MappedType(f.normalizedType)) && e.destinationType == MappedType(f.normalizedType)
    && e.required == !f.nullable && e.nullable == f.nullable && !e.isPrimaryKey && !e.autoGenerated
    && e.description == if f.description.Some? then f.description.value else ""
  }

  /** A new row for some field that had none. */
  ghost predicate FillsGap(e: DataElement, objectId: Id, id: Id, elements: seq<DataElement>, fields: seq<SchemaField>) {
    exists f :: f in fields && f.name !in ByName(elements) && MadeFrom(e, objectId, id, f)
  }

  /** Row by row: old rows follow the field of their name or stay, and each field without a row gets one behind them. */
  lemma AppliedRowByRow(objectId: Id, elements: seq<DataElement>, next: nat, fields: seq<SchemaField>)
    requires ElementsOk(elements, next) && DistinctFields(fields)
    requires Healed(objectId, elements, next, fields).error.None?
    ensures var h := Healed(objectId, elements, next, fields);
      && |elements| <= |h.elements| && h.next == next + |h.elements| - |elements|
      && (forall i, f :: 0 <= i < |elements| && f in fields && f.name == elements[i].name ==>
            FollowsField(h.elements[i], elements[i], f))
      && (forall i :: 0 <= i < |elements| && (forall f :: f in fields ==> f.name != elements[i].name) ==> h.elements[i] == elements[i])
      && (forall j :: |elements| <= j < |h.elements| ==>
            FillsGap(h.elements[j], objectId, Uuid(next + j - |elements|), elements, fields))
      && (forall f :: f in fields ==> exists e :: e in h.elements && e.name == f.name)
  {
    hide MappedType, ElementsOk, FollowsField, FillsGap;
    var h := Healed(objectId, elements, next, fields);
    HealedClosedForm(objectId, elements, next, fields);
    OldRows(elements, fields);
    forall j | |elements| <= j < |h.elements|
      ensures FillsGap(h.elements[j], objectId, Uuid(next + j - |elements|), elements, fields)
    {
      NewRow(objectId, elements, next, fields, j - |elements|);
      assert next + (j - |elements|) == next + j - |elements|;
    }
    forall f | f in fields
      ensures exists e :: e in h.elements && e.name == f.name
    {
      var i := FieldHasElement(objectId, elements, next, fields, f);
      assert h.elements[i] in h.elements;
    }
  }

  lemma OldRows(elements: seq<DataElement>, fields: seq<SchemaField>)
    requires DistinctFields(fields)
    ensures var fixed := FixedAll(elements, Index(fields));
      && (forall i, f :: 0 <= i < |elements| && f in fields && f.name == elements[i].name ==>
            FollowsField(fixed[i], elements[i], f))
      && (forall i :: 0 <= i < |elements| && (forall f :: f in fields ==> f.name != elements[i].name) ==> fixed[i] == elements[i])
  {
    hide MappedType, Index;
    IndexOfDistinct(fields);
    IndexEntries(fields);
  }

  lemma NewRow(objectId: Id, elements: seq<DataElement>, next: nat, fields: seq<SchemaField>, k: nat)
    requires k < |NewFields(ByName(elements), fields)|
    ensures FillsGap(NewElements(objectId, NewFields(ByName(elements), fields), next)[k], objectId, Uuid(next + k), elements, fields)
  {
    hide MappedType;
    var news := NewFields(ByName(elements), fields);
    NewFieldsAre(ByName(elements), fields);
    assert news[k] in news && MadeFrom(NewElements(objectId, news, next)[k], objectId, Uuid(next + k), news[k]);
  }

  // ---------- What an application leaves of another snapshot ----------

  /** There is an element of the field's name, mapped type and nullability. */
  predicate HasField(elements: seq<DataElement>, f: SchemaField) {
    f.name in ByName(elements) && Matches(ByName(elements)[f.name], f)
  }

  /** Two fields ask for the same element type and nullability. */
  predicate SameDemand(f: SchemaField, g: SchemaField) {
    MappedType(f.normalizedType) == MappedType(g.normalizedType) && f.nullable == g.nullable
  }

  /** After the fields in applied have been applied, f has its element. */
  predicate StillFits(elements: seq<DataElement>, applied: seq<SchemaField>, f: SchemaField) {
    if f.name in Index(applied) then SameDemand(Index(applied)[f.name], f) else HasField(elements, f)
  }

  /** An application changes no element that its snapshot does not name. */
  lemma UnnamedElementsStay(objectId: Id, elements: seq<DataElement>, next: nat, fields: seq<SchemaField>, n: string)
    requires ElementsOk(elements, next) && DistinctFields(fields) && n !in Index(fields)
    requires Healed(objectId, elements, next, fields).error.None?
    ensures var after := ByName(Healed(objectId, elements, next, fields).elements);
      && (n in after <==> n in ByName(elements))
      && (n in ByName(elements) ==> after[n] == ByName(elements)[n])
  {
    hide Healed, ElementsOk, ByName, Index, Matches, NewFields, Overridden;
    var h := Healed(objectId, elements, next, fields);
    HealedClosedForm(objectId, elements, next, fields);
    ClosedFormOk(objectId, elements, next, fields, h);
    DistinctOfOk(elements, next);
    DistinctOfOk(h.elements, h.next);
    FixedFacts(elements, fields);
    if n in ByName(elements) {
      var i := ByNameFinds(elements, n);
      ByNameHas(h.elements, i);
    } else if n in ByName(h.elements) {
      var j := ByNameFinds(h.elements, n);
      if j < |elements| {
        ByNameHas(elements, j);
      } else {
        NewElementIsNamed(elements, fields, objectId, next, j);
      }
    }
  }

  /** An element behind the old ones has the name of a field. */
  lemma NewElementIsNamed(elements: seq<DataElement>, fields: seq<SchemaField>, objectId: Id, next: nat, j: nat)
    requires |elements| <= j < |elements| + |NewFields(ByName(elements), fields)|
    ensures (FixedAll(elements, Index(fields)) + NewElements(objectId, NewFields(ByName(elements), fields), next))[j].name in Index(fields)
  {
    hide ByName, Index, Matches, NewFields, Overridden;
    NewFieldsAre(ByName(elements), fields);
    IndexEntries(fields);
    var added := NewFields(ByName(elements), fields);
    assert added[j - |elements|] in added;
  }

  /** Applying one snapshot leaves the object in step with another iff each field of the other still fits. */
  lemma AppliedFitsIff(objectId: Id, elements: seq<DataElement>, next: nat, applied: seq<SchemaField>, other: seq<SchemaField>)
    requires ElementsOk(elements, next) && DistinctFields(applied)
    requires Healed(objectId, elements, next, applied).error.None?
    ensures InStep(Healed(objectId, elements, next, applied).elements, other)
       <==> forall f :: f in other ==> StillFits(elements, applied, f)
  {
    hide Healed, ElementsOk, ByName, Index, StillFits;
    forall f | f in other
      ensures HasField(Healed(objectId, elements, next, applied).elements, f) <==> StillFits(elements, applied, f)
    {
      FieldFitsIff(objectId, elements, next, applied, f);
    }
  }

  lemma FieldFitsIff(objectId: Id, elements: seq<DataElement>, next: nat, applied: seq<SchemaField>, f: SchemaField)
    requires ElementsOk(elements, next) && DistinctFields(applied)
    requires Healed(objectId, elements, next, applied).error.None?
    ensures HasField(Healed(objectId, elements, next, applied).elements, f) <==> StillFits(elements, applied, f)
  {
    hide Healed, ElementsOk, ByName, Index;
    ApplyConverges(objectId, elements, next, applied);
    if f.name in Index(applied) {
      IndexEntries(applied);
      assert HasField(Healed(objectId, elements, next, applied).elements, Index(applied)[f.name]);
    } else {
      UnnamedElementsStay(objectId, elements, next, applied, f.name);
    }
  }

  /** Elements in step with one snapshot are in step with another that adds no field iff no demand changed. */
  lemma InStepWithBothIff(elements: seq<DataElement>, before: seq<SchemaField>, now: seq<SchemaField>)
    requires InStep(elements, before) && forall f :: f in now ==> f.name in Index(before)
    ensures InStep(elements, now) <==> forall f :: f in now ==> SameDemand(Index(before)[f.name], f)
  {
    hide ByName, Index;
    IndexEntries(before);
    forall f | f in now
      ensures HasField(elements, f) <==> SameDemand(Index(before)[f.name], f)
    {
      assert HasField(elements, Index(before)[f.name]);
    }
  }

  /** An application writes nothing iff the elements are already in step. */
  lemma {:induction false} WritesNothingIff(objectId: Id, existing: map<string, DataElement>, h: Healing, fields: seq<SchemaField>)
    requires h.error.None?
    ensures var r := HealFields(objectId, existing, h, fields);
      && r.writes >= h.writes
      && (r == h <==> forall f :: f in fields ==> f.name in existing && Matches(existing[f.name], f))
      && (r != h && r.error.None? ==> r.writes > h.writes)
  {
    if fields != [] {
      var front, f := fields[..|fields| - 1], fields[|fields| - 1];
      WritesNothingIff(objectId, existing, h, front);
      assert fields == front + [f];
      assert f in fields;
    }
  }

  /** Applying a snapshot a second time writes nothing and draws no uuid. */
  lemma SecondApplicationWritesNothing(objectId: Id, elements: seq<DataElement>, next: nat, fields: seq<SchemaField>, later: nat)
    requires ElementsOk(elements, next) && DistinctFields(fields) && Healed(objectId, elements, next, fields).error.None?
    ensures var h := Healed(objectId, elements, next, fields);
      Healed(objectId, h.elements, later, fields) == Healing(h.elements, later, 0, None)
  {
    var h := Healed(objectId, elements, next, fields);
    ApplyConverges(objectId, elements, next, fields);
    WritesNothingIff(objectId, ByName(h.elements), Healing(h.elements, later, 0, None), fields);
  }

  // ---------- The service on a session ----------

  datatype Application = Application(objects: seq<DataObject>, next: nat, error: Option<Error>)

  /** apply_schema_snapshot on the object table of a session. */
  function Applied(objects: seq<DataObject>, objectId: Id, fields: seq<SchemaField>, next: nat): Application {
    match FindObject(objects, objectId)
    case None => Application(objects, next, Some(NotFound("object")))
    case Some(o) =>
      var h := Healed(objectId, o.elements, next, fields);
      Application(WithElements(objects, objectId, h.elements), h.next, h.error)
  }

  lemma WithElementsTwice(objects: seq<DataObject>, id: Id, a: seq<DataElement>, b: seq<DataElement>)
    ensures WithElements(WithElements(objects, id, a), id, b) == WithElements(objects, id, b)
  {
  }

  lemma WithOwnElements(objects: seq<DataObject>, id: Id, o: DataObject)
    requires forall i :: 0 <= i < |objects| && objects[i].id == id ==> objects[i] == o
    ensures WithElements(objects, id, o.elements) == objects
  {
  }

  /** Once an error is raised no further field is looked at. */
  lemma {:induction false} HealingStopped(objectId: Id, existing: map<string, DataElement>, h: Healing, fields: seq<SchemaField>, i: nat)
    requires i <= |fields| && HealFields(objectId, existing, h, fields[..i]).error.Some?
    ensures HealFields(objectId, existing, h, fields) == HealFields(objectId, existing, h, fields[..i])
    decreases |fields| - i
  {
    if i < |fields| {
      assert fields[..i + 1][..i] == fields[..i];
      HealingStopped(objectId, existing, h, fields, i + 1);
    } else {
      assert fields[..i] == fields;
    }
  }

  ghost predicate UniqueIds(objects: seq<DataObject>) {
    forall i, j :: 0 <= i < j < |objects| ==> objects[i].id != objects[j].id
  }

  lemma FindUnique(objects: seq<DataObject>, i: nat)
    requires UniqueIds(objects) && i < |objects|
    ensures FindObject(objects, objects[i].id) == Some(objects[i])
  {
    if i > 0 {
      assert objects[0].id != objects[i].id;
      FindUnique(objects[1..], i - 1);
    }
  }

  class DataObjectService {
    const uow: SqlUnitOfWork<Store>

    constructor (uow: SqlUnitOfWork<Store>)
      ensures this.uow == uow
    {
      this.uow := uow;
    }

    /** Replaces the elements of one object in the session. */
    method PutElements(objectId: Id, elements: seq<DataElement>)
      requires uow.session.Some?
      modifies uow
      ensures uow.State() == old(uow.State()).(session := Some(old(uow.session.value).(
                objects := WithElements(old(uow.session.value.objects), objectId, elements))))
    {
      var store := uow.session.value;
      var ok := uow.Stage(store.(objects := WithElements(store.objects, objectId, elements)));
    }

    method AddElement(objectId: Id, element: DataElement) returns (error: Option<Error>)
      requires uow.session.Some?
      modifies uow
      ensures var found := FindObject(old(uow.session.value.objects), objectId);
        && (error.Some? <==> found.None?)
        && uow.State() == if found.None? then old(uow.State()) else old(uow.State()).(session := Some(old(uow.session.value).(
                objects := WithElements(old(uow.session.value.objects), objectId, found.value.elements + [element]))))
    {
      var found := FindObject(uow.session.value.objects, objectId);
      if found.None? {
        return Some(NotFound("object"));
      }
      PutElements(objectId, found.value.elements + [element]);
      error := None;
    }

    method OverrideElementDestination(objectId: Id, element: DataElement, f: SchemaField) returns (error: Option<Error>)
      requires uow.session.Some?
      modifies uow
      ensures var found := FindObject(old(uow.session.value.objects), objectId);
        && error == (if found.None? then Some(NotFound("object"))
                     else if Destructive(element.sourceType, MappedType(f.normalizedType)) then Some(DestructiveOverride(f.name))
                     else None)
        && uow.State() == if error.Some? then old(uow.State()) else old(uow.State()).(session := Some(old(uow.session.value).(
                objects := WithElements(old(uow.session.value.objects), objectId, OverrideRow(found.value.elements, element.id, f)))))
    {
      var found := FindObject(uow.session.value.objects, objectId);
      if found.None? {
        return Some(NotFound("object"));
      }
      if Destructive(element.sourceType, MappedType(f.normalizedType)) {
        return Some(DestructiveOverride(f.name));
      }
      PutElements(objectId, OverrideRow(found.value.elements, element.id, f));
      error := None;
    }

    method ApplySchemaSnapshot(objectId: Id, fields: seq<SchemaField>, next: nat) returns (newNext: nat, error: Option<Error>)
      requires uow.session.Some? && UniqueIds(uow.session.value.objects)
      modifies uow
      ensures var r := Applied(old(uow.session.value.objects), objectId, fields, next);
        && newNext == r.next && error == r.error
        && uow.State() == old(uow.State()).(session := Some(old(uow.session.value).(objects := r.objects)))
    {
      ghost var objects := uow.session.value.objects;
      var found := FindObject(uow.session.value.objects, objectId);
      newNext := next;
      if found.None? {
        return newNext, Some(NotFound("object"));
      }
      var existing := ByName(found.value.elements);
      ghost var start := Healing(found.value.elements, next, 0, None);
      ghost var h := start;
      OwnElements(objects, objectId);
      for i := 0 to |fields|
        invariant h == HealFields(objectId, existing, start, fields[..i])
        invariant h.error.None? && newNext == h.next
        invariant uow.State() == old(uow.State()).(session := Some(old(uow.session.value).(
                    objects := WithElements(objects, objectId, h.elements))))
      {
        hide HealFields, Matches, Destructive, NewElement, OverrideRow, WithElements;
        var f := fields[i];
        FindAfterWithElements(objects, objectId, h.elements, objectId);
        HealFieldsStep(objectId, existing, start, fields, i);
        if f.name !in existing {
          var e := AddElement(objectId, NewElement(Uuid(newNext), objectId, f));
          WithElementsTwice(objects, objectId, h.elements, h.elements + [NewElement(Uuid(newNext), objectId, f)]);
          newNext := newNext + 1;
        } else if !Matches(existing[f.name], f) {
          var e := OverrideElementDestination(objectId, existing[f.name], f);
          if e.Some? {
            HealingStopped(objectId, existing, start, fields, i + 1);
            return newNext, e;
          }
          WithElementsTwice(objects, objectId, h.elements, OverrideRow(h.elements, existing[f.name].id, f));
        }
        h := HealField(objectId, existing, h, f);
      }
      assert fields[..|fields|] == fields;
      error := None;
    }
  }

  lemma HealFieldsStep(objectId: Id, existing: map<string, DataElement>, h: Healing, fields: seq<SchemaField>, i: nat)
    requires i < |fields|
    ensures HealFields(objectId, existing, h, fields[..i + 1]) == HealField(objectId, existing, HealFields(objectId, existing, h, fields[..i]), fields[i])
  {
    assert fields[..i + 1][..i] == fields[..i];
  }

  lemma OwnElements(objects: seq<DataObject>, id: Id)
    requires UniqueIds(objects) && FindObject(objects, id).Some?
    ensures WithElements(objects, id, FindObject(objects, id).value.elements) == objects
  {
    forall i | 0 <= i < |objects| && objects[i].id == id
      ensures objects[i] == FindObject(objects, id).value
    {
      FindUnique(objects, i);
    }
    WithOwnElements(objects, id, FindObject(objects, id).value);
  }
}
