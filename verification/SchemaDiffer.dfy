/**
 Schema drift: app/domain/discovery/services/schema_differ.py, drift_event.py and
 app/infrastructure/drift_classifier.py.
 */
module SchemaDiffer {
  import opened Wrappers
  import opened Schema

  datatype DriftChangeType =
    | FIELD_ADDED | FIELD_REMOVED | TYPE_WIDENED | TYPE_INCOMPATIBLE
    | NULLABLE_TO_REQUIRED | REQUIRED_TO_NULLABLE | OBJECT_ADDED | OBJECT_REMOVED

  datatype DriftEvent = DriftEvent(
    objectId: Id, changeType: DriftChangeType, fieldName: Option<string>,
    previousValue: Option<string>, currentValue: Option<string>)
  {
    predicate IsCritical() {
      match changeType
      case FIELD_REMOVED => true
      case TYPE_INCOMPATIBLE => true
      case NULLABLE_TO_REQUIRED => true
      case OBJECT_REMOVED => true
      case _ => false
    }

    predicate IsBlocking() {
      changeType.FIELD_REMOVED? || changeType.TYPE_INCOMPATIBLE?
    }
  }

  // ---------- The events of one field ----------

  function AddedEvent(objectId: Id, curr: SchemaField): DriftEvent {
    DriftEvent(objectId, FIELD_ADDED, Some(curr.name), None, Some(curr.normalizedType))
  }

  function RemovedEvent(objectId: Id, prev: SchemaField): DriftEvent {
    DriftEvent(objectId, FIELD_REMOVED, Some(prev.name), Some(prev.normalizedType), None)
  }

  function CheckTypeChange(objectId: Id, prev: SchemaField, curr: SchemaField): seq<DriftEvent> {
    if curr.normalizedType == prev.normalizedType then []
    else
      var change := if IsCompatibleWith(curr.normalizedType, prev.normalizedType) then TYPE_WIDENED else TYPE_INCOMPATIBLE;
      [DriftEvent(objectId, change, Some(curr.name), Some(prev.normalizedType), Some(curr.normalizedType))]
  }

  function CheckNullabilityChange(objectId: Id, prev: SchemaField, curr: SchemaField): seq<DriftEvent> {
    if prev.nullable && !curr.nullable then [DriftEvent(objectId, NULLABLE_TO_REQUIRED, Some(curr.name), None, None)]
    else if !prev.nullable && curr.nullable then [DriftEvent(objectId, REQUIRED_TO_NULLABLE, Some(curr.name), None, None)]
    else []
  }

  function FieldEvents(objectId: Id, prev: map<string, SchemaField>, curr: SchemaField): seq<DriftEvent> {
    if curr.name !in prev then [AddedEvent(objectId, curr)]
    else CheckTypeChange(objectId, prev[curr.name], curr) + CheckNullabilityChange(objectId, prev[curr.name], curr)
  }

  // ---------- The diff as a function ----------

  function AddedAndChanged(objectId: Id, prev: map<string, SchemaField>, curr: map<string, SchemaField>, names: seq<string>)
    : seq<DriftEvent>
    requires forall n :: n in names ==> n in curr
  {
    if names == [] then []
    else
      AddedAndChanged(objectId, prev, curr, names[..|names| - 1]) + FieldEvents(objectId, prev, curr[names[|names| - 1]])
  }

  function Removed(objectId: Id, prev: map<string, SchemaField>, curr: map<string, SchemaField>, names: seq<string>)
    : seq<DriftEvent>
    requires forall n :: n in names ==> n in prev
  {
    if names == [] then []
    else
      var n := names[|names| - 1];
      Removed(objectId, prev, curr, names[..|names| - 1]) + (if n in curr then [] else [RemovedEvent(objectId, prev[n])])
  }

  function Diff(previous: SchemaSnapshot, current: SchemaSnapshot): seq<DriftEvent> {
    AddedAndChanged(current.objectId, Index(previous.fields), Index(current.fields), Names(current.fields))
    + Removed(previous.objectId, Index(previous.fields), Index(current.fields), Names(previous.fields))
  }

  function DiffOptional(previous: Option<SchemaSnapshot>, current: Option<SchemaSnapshot>): seq<DriftEvent> {
    match (previous, current)
    case (None, None) => []
    case (None, Some(c)) => [DriftEvent(c.objectId, OBJECT_ADDED, None, None, None)]
    case (Some(p), None) => [DriftEvent(p.objectId, OBJECT_REMOVED, None, None, None)]
    case (Some(p), Some(c)) => Diff(p, c)
  }

  // ---------- The loops ----------

  method CheckAddedAndChangedFields(previous: SchemaSnapshot, current: SchemaSnapshot) returns (events: seq<DriftEvent>)
    ensures events == AddedAndChanged(current.objectId, Index(previous.fields), Index(current.fields), Names(current.fields))
  {
    hide Names, CheckTypeChange, CheckNullabilityChange, AddedEvent;
    IndexEntries(current.fields);
    events := [];
    var prevFields, currFields, names := Index(previous.fields), Index(current.fields), Names(current.fields);
    for i := 0 to |names|
      invariant events == AddedAndChanged(current.objectId, prevFields, currFields, names[..i])
    {
      var curr := currFields[names[i]];
      assert names[..i + 1][..i] == names[..i];
      if curr.name !in prevFields {
        events := events + [AddedEvent(current.objectId, curr)];
        continue;
      }
      var typeEvents := CheckTypeChange(current.objectId, prevFields[curr.name], curr);
      var nullabilityEvents := CheckNullabilityChange(current.objectId, prevFields[curr.name], curr);
      events := events + typeEvents;
      events := events + nullabilityEvents;
      assert events == AddedAndChanged(current.objectId, prevFields, currFields, names[..i]) + (typeEvents + nullabilityEvents);
    }
    assert names[..|names|] == names;
  }

  method CheckRemovedFields(previous: SchemaSnapshot, current: SchemaSnapshot) returns (events: seq<DriftEvent>)
    ensures events == Removed(previous.objectId, Index(previous.fields), Index(current.fields), Names(previous.fields))
  {
    events := [];
    var prevFields, currFields, names := Index(previous.fields), Index(current.fields), Names(previous.fields);
    for i := 0 to |names|
      invariant events == Removed(previous.objectId, prevFields, currFields, names[..i])
    {
      assert names[..i + 1][..i] == names[..i];
      if names[i] !in currFields {
        events := events + [RemovedEvent(previous.objectId, prevFields[names[i]])];
      }
    }
    assert names[..|names|] == names;
  }

  method ComputeDiff(previous: Option<SchemaSnapshot>, current: Option<SchemaSnapshot>) returns (events: seq<DriftEvent>)
    ensures events == DiffOptional(previous, current)
    ensures previous.None? && current.Some? ==>
      events == [DriftEvent(current.value.objectId, OBJECT_ADDED, None, None, None)] && !events[0].IsCritical()
    ensures previous.Some? && current.None? ==>
      events == [DriftEvent(previous.value.objectId, OBJECT_REMOVED, None, None, None)] && events[0].IsCritical()
    ensures previous.None? && current.None? ==> events == []
    ensures previous.Some? && current.Some? ==>
      events == AddedAndChanged(current.value.objectId, Index(previous.value.fields), Index(current.value.fields), Names(current.value.fields))
              + Removed(previous.value.objectId, Index(previous.value.fields), Index(current.value.fields), Names(previous.value.fields))
  {
    if previous.None? && current.Some? {
      return [DriftEvent(current.value.objectId, OBJECT_ADDED, None, None, None)];
    }
    if current.None? && previous.Some? {
      return [DriftEvent(previous.value.objectId, OBJECT_REMOVED, None, None, None)];
    }
    if previous.None? || current.None? {
      return [];
    }
    var added := CheckAddedAndChangedFields(previous.value, current.value);
    var removed := CheckRemovedFields(previous.value, current.value);
    events := added + removed;
  }
}
