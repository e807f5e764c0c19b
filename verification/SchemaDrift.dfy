/** What the diff means: it is a patch, and harmless drift adds up to harmless drift. */
module SchemaDrift {
  import opened Wrappers
  import opened Schema
  import opened SchemaDiffer

  // ---------- Which events a diff holds ----------

  lemma AddedAndChangedHolds(
    objectId: Id, prev: map<string, SchemaField>, curr: map<string, SchemaField>, names: seq<string>, ev: DriftEvent)
    requires forall n :: n in names ==> n in curr
    ensures ev in AddedAndChanged(objectId, prev, curr, names)
       <==> exists n :: n in names && ev in FieldEvents(objectId, prev, curr[n])
  {
    if names != [] {
      var front, last := names[..|names| - 1], names[|names| - 1];
      AddedAndChangedHolds(objectId, prev, curr, front, ev);
      assert names == front + [last];
      assert last in names;
    }
  }

  lemma RemovedHolds(
    objectId: Id, prev: map<string, SchemaField>, curr: map<string, SchemaField>, names: seq<string>, ev: DriftEvent)
    requires forall n :: n in names ==> n in prev
    ensures ev in Removed(objectId, prev, curr, names)
       <==> exists n :: n in names && n !in curr && ev == RemovedEvent(objectId, prev[n])
  {
    if names != [] {
      var front, last := names[..|names| - 1], names[|names| - 1];
      RemovedHolds(objectId, prev, curr, front, ev);
      assert names == front + [last];
      assert last in names;
    }
  }

  ghost predicate HasFieldEvent(previous: SchemaSnapshot, current: SchemaSnapshot, n: string, ev: DriftEvent) {
    && n in Index(current.fields)
    && ev in FieldEvents(current.objectId, Index(previous.fields), Index(current.fields)[n])
  }

  ghost predicate HasRemoval(previous: SchemaSnapshot, current: SchemaSnapshot, n: string, ev: DriftEvent) {
    && n in Index(previous.fields) && n !in Index(current.fields)
    && ev == RemovedEvent(previous.objectId, Index(previous.fields)[n])
  }

  lemma DiffHolds(previous: SchemaSnapshot, current: SchemaSnapshot, ev: DriftEvent)
    ensures ev in Diff(previous, current)
       <==> (exists n :: HasFieldEvent(previous, current, n, ev)) || (exists n :: HasRemoval(previous, current, n, ev))
  {
    var prev, curr := Index(previous.fields), Index(current.fields);
    AddedAndChangedHolds(current.objectId, prev, curr, Names(current.fields), ev);
    RemovedHolds(previous.objectId, prev, curr, Names(previous.fields), ev);
    forall n | n in Names(current.fields) && ev in FieldEvents(current.objectId, prev, curr[n])
      ensures HasFieldEvent(previous, current, n, ev)
    {
    }
    forall n | n in Names(previous.fields) && n !in curr && ev == RemovedEvent(previous.objectId, prev[n])
      ensures HasRemoval(previous, current, n, ev)
    {
    }
  }

  /** What the fields named n before and now call for: each kind of event with all it carries. */
  ghost predicate CallsFor(previous: SchemaSnapshot, current: SchemaSnapshot, n: string, ev: DriftEvent) {
    var prev, curr := Index(previous.fields), Index(current.fields);
    || (n in curr && n !in prev && ev == DriftEvent(current.objectId, FIELD_ADDED, Some(n), None, Some(curr[n].normalizedType)))
    || (n in prev && n !in curr && ev == DriftEvent(previous.objectId, FIELD_REMOVED, Some(n), Some(prev[n].normalizedType), None))
    || (n in prev && n in curr && curr[n].normalizedType != prev[n].normalizedType
        && ev == DriftEvent(current.objectId,
                            if IsCompatibleWith(curr[n].normalizedType, prev[n].normalizedType) then TYPE_WIDENED else TYPE_INCOMPATIBLE,
                            Some(n), Some(prev[n].normalizedType), Some(curr[n].normalizedType)))
    || (n in prev && n in curr && prev[n].nullable != curr[n].nullable
        && ev == DriftEvent(current.objectId, if prev[n].nullable then NULLABLE_TO_REQUIRED else REQUIRED_TO_NULLABLE, Some(n), None, None))
  }

  lemma DiffHoldsIff(previous: SchemaSnapshot, current: SchemaSnapshot, ev: DriftEvent)
    ensures ev in Diff(previous, current) <==> exists n :: CallsFor(previous, current, n, ev)
  {
    hide IsCompatibleWith, Diff, Index, Names;
    DiffHolds(previous, current, ev);
    IndexEntries(previous.fields);
    IndexEntries(current.fields);
    if n :| HasFieldEvent(previous, current, n, ev) {
      assert CallsFor(previous, current, n, ev);
    }
    if n :| HasRemoval(previous, current, n, ev) {
      assert CallsFor(previous, current, n, ev);
    }
    if n :| CallsFor(previous, current, n, ev) {
      FieldEventsOf(current.objectId, Index(previous.fields), n, ev);
      assert HasFieldEvent(previous, current, n, ev) || HasRemoval(previous, current, n, ev) by {
        CallIsEvent(previous, current, n, ev);
      }
    }
  }

  lemma FieldEventsOf(objectId: Id, prev: map<string, SchemaField>, n: string, ev: DriftEvent)
    ensures forall c: SchemaField :: c.name == n && n in prev ==>
      (ev in FieldEvents(objectId, prev, c) <==>
         ev in CheckTypeChange(objectId, prev[n], c) || ev in CheckNullabilityChange(objectId, prev[n], c))
  {
    hide CheckTypeChange, CheckNullabilityChange;
  }

  lemma CallIsEvent(previous: SchemaSnapshot, current: SchemaSnapshot, n: string, ev: DriftEvent)
    requires CallsFor(previous, current, n, ev)
    ensures HasFieldEvent(previous, current, n, ev) || HasRemoval(previous, current, n, ev)
  {
    hide IsCompatibleWith, Index;
    IndexEntries(previous.fields);
    IndexEntries(current.fields);
    FieldEventsOf(current.objectId, Index(previous.fields), n, ev);
  }

  // ---------- In which order ----------

  /**
   Changes of fields come in the order of the new names, a type change before a change of
   nullability; after them removals, in the order of the old names.
   */
  ghost predicate Precedes(now: seq<string>, before: seq<string>, a: DriftEvent, b: DriftEvent) {
    && a.fieldName.Some? && b.fieldName.Some?
    && (a.changeType.FIELD_REMOVED? ==> b.changeType.FIELD_REMOVED? && StandsBefore(before, a.fieldName.value, b.fieldName.value))
    && (!a.changeType.FIELD_REMOVED? && !b.changeType.FIELD_REMOVED? ==>
          || StandsBefore(now, a.fieldName.value, b.fieldName.value)
          || (a.fieldName == b.fieldName && a.changeType in {TYPE_WIDENED, TYPE_INCOMPATIBLE}
              && b.changeType in {NULLABLE_TO_REQUIRED, REQUIRED_TO_NULLABLE}))
  }

  ghost predicate AllPrecede(now: seq<string>, before: seq<string>, events: seq<DriftEvent>) {
    forall i, j :: 0 <= i < j < |events| ==> Precedes(now, before, events[i], events[j])
  }

  ghost predicate StandsBefore(names: seq<string>, m: string, n: string) {
    exists i, j :: 0 <= i < j < |names| && names[i] == m && names[j] == n
  }

  /** The names are distinct, so no event comes twice. */
  lemma DiffInOrder(previous: SchemaSnapshot, current: SchemaSnapshot)
    ensures Distinct(Names(current.fields)) && Distinct(Names(previous.fields))
    ensures AllPrecede(Names(current.fields), Names(previous.fields), Diff(previous, current))
  {
    hide AllPrecede, Distinct;
    NamesAreDistinct(current.fields);
    NamesAreDistinct(previous.fields);
    IndexEntries(current.fields);
    IndexEntries(previous.fields);
    EventsInOrder(previous.objectId, current.objectId, Index(previous.fields), Index(current.fields),
                  Names(current.fields), Names(previous.fields));
  }

  lemma EventsInOrder(
    oldId: Id, newId: Id, prev: map<string, SchemaField>, curr: map<string, SchemaField>, now: seq<string>, before: seq<string>)
    requires forall n :: n in now ==> n in curr && curr[n].name == n
    requires forall n :: n in before ==> n in prev && prev[n].name == n
    ensures AllPrecede(now, before, AddedAndChanged(newId, prev, curr, now) + Removed(oldId, prev, curr, before))
  {
    hide Precedes;
    ChangesInOrder(newId, prev, curr, now, before);
    RemovalsInOrder(oldId, prev, curr, now, before);
    var changes, removals := AddedAndChanged(newId, prev, curr, now), Removed(oldId, prev, curr, before);
    forall i, j | 0 <= i < j < |changes + removals|
      ensures Precedes(now, before, (changes + removals)[i], (changes + removals)[j])
    {
      if i < |changes| <= j {
        ChangeBeforeRemoval(now, before, changes[i], removals[j - |changes|]);
      }
    }
  }

  lemma ChangeBeforeRemoval(now: seq<string>, before: seq<string>, a: DriftEvent, b: DriftEvent)
    requires a.fieldName.Some? && b.fieldName.Some? && !a.changeType.FIELD_REMOVED? && b.changeType.FIELD_REMOVED?
    ensures Precedes(now, before, a, b)
  {
  }

  /** The events of one field are about it, and its change of type comes before its change of nullability. */
  lemma OneFieldInOrder(objectId: Id, prev: map<string, SchemaField>, f: SchemaField, now: seq<string>, before: seq<string>)
    ensures var events := FieldEvents(objectId, prev, f);
      && (forall i :: 0 <= i < |events| ==> events[i].fieldName == Some(f.name) && !events[i].changeType.FIELD_REMOVED?)
      && AllPrecede(now, before, events)
  {
    hide IsCompatibleWith, StandsBefore;
  }

  lemma PrecedesLonger(now: seq<string>, before: seq<string>, m: string, n: string, a: DriftEvent, b: DriftEvent)
    requires Precedes(now, before, a, b)
    ensures Precedes(now + [m], before, a, b) && Precedes(now, before + [n], a, b)
  {
    forall x, y | StandsBefore(now, x, y)
      ensures StandsBefore(now + [m], x, y)
    {
      var i, j :| 0 <= i < j < |now| && now[i] == x && now[j] == y;
      assert (now + [m])[i] == x && (now + [m])[j] == y;
    }
    forall x, y | StandsBefore(before, x, y)
      ensures StandsBefore(before + [n], x, y)
    {
      var i, j :| 0 <= i < j < |before| && before[i] == x && before[j] == y;
      assert (before + [n])[i] == x && (before + [n])[j] == y;
    }
  }

  lemma LastStandsBehind(names: seq<string>, m: string, n: string)
    requires m in names
    ensures StandsBefore(names + [n], m, n)
  {
    var i :| 0 <= i < |names| && names[i] == m;
    assert (names + [n])[i] == m && (names + [n])[|names|] == n;
  }

  lemma {:induction false} ChangesInOrder(
    objectId: Id, prev: map<string, SchemaField>, curr: map<string, SchemaField>, now: seq<string>, before: seq<string>)
    requires forall n :: n in now ==> n in curr && curr[n].name == n
    ensures var events := AddedAndChanged(objectId, prev, curr, now);
      && (forall i :: 0 <= i < |events| ==>
            events[i].fieldName.Some? && !events[i].changeType.FIELD_REMOVED? && events[i].fieldName.value in now)
      && AllPrecede(now, before, events)
  {
    if now != [] {
      hide FieldEvents, StandsBefore;
      var names, n := now[..|now| - 1], now[|now| - 1];
      assert now == names + [n];
      ChangesInOrder(objectId, prev, curr, names, before);
      OneFieldInOrder(objectId, prev, curr[n], now, before);
      var front, own := AddedAndChanged(objectId, prev, curr, names), FieldEvents(objectId, prev, curr[n]);
      forall i, j | 0 <= i < j < |front + own|
        ensures Precedes(now, before, (front + own)[i], (front + own)[j])
      {
        if j < |front| {
          PrecedesLonger(names, before, n, n, front[i], front[j]);
        } else if i < |front| {
          LastStandsBehind(names, front[i].fieldName.value, n);
        }
      }
    }
  }

  lemma {:induction false} RemovalsInOrder(
    objectId: Id, prev: map<string, SchemaField>, curr: map<string, SchemaField>, now: seq<string>, before: seq<string>)
    requires forall n :: n in before ==> n in prev && prev[n].name == n
    ensures var events := Removed(objectId, prev, curr, before);
      && (forall i :: 0 <= i < |events| ==>
            events[i].fieldName.Some? && events[i].changeType.FIELD_REMOVED? && events[i].fieldName.value in before)
      && AllPrecede(now, before, events)
  {
    if before != [] {
      hide StandsBefore;
      var names, n := before[..|before| - 1], before[|before| - 1];
      assert before == names + [n];
      RemovalsInOrder(objectId, prev, curr, now, names);
      var front, events := Removed(objectId, prev, curr, names), Removed(objectId, prev, curr, before);
      forall i, j | 0 <= i < j < |events|
        ensures Precedes(now, before, events[i], events[j])
      {
        if j < |front| {
          PrecedesLonger(now, names, n, n, front[i], front[j]);
        } else {
          LastStandsBehind(names, front[i].fieldName.value, n);
        }
      }
    }
  }

  // ---------- Harmless drift ----------

  ghost predicate NoBlocking(events: seq<DriftEvent>) {
    forall ev :: ev in events ==> !ev.IsBlocking()
  }

  ghost predicate NoCritical(events: seq<DriftEvent>) {
    forall ev :: ev in events ==> !ev.IsCritical()
  }

  /** Every column is still there with a type that holds what the old one held. */
  ghost predicate StillReadable(prev: map<string, Column>, curr: map<string, Column>) {
    forall n :: n in prev ==> n in curr && IsCompatibleWith(curr[n].type_, prev[n].type_)
  }

  ghost predicate NoNewRequirement(prev: map<string, Column>, curr: map<string, Column>) {
    forall n :: n in prev && n in curr && prev[n].nullable ==> curr[n].nullable
  }

  lemma FieldEventsJudged(objectId: Id, prev: map<string, SchemaField>, curr: SchemaField, critical: bool)
    ensures (exists ev :: ev in FieldEvents(objectId, prev, curr) && Bad(ev, critical))
       <==> curr.name in prev && (
              || !IsCompatibleWith(curr.normalizedType, prev[curr.name].normalizedType)
              || (critical && prev[curr.name].nullable && !curr.nullable))
  {
    hide IsCompatibleWith;
    if curr.name in prev {
      var p := prev[curr.name];
      SameTypeIsCompatible(curr.normalizedType);
      var types, nulls := CheckTypeChange(objectId, p, curr), CheckNullabilityChange(objectId, p, curr);
      var all := FieldEvents(objectId, prev, curr);
      assert all == types + nulls;
      if types != [] {
        assert all[0] == types[0] && types[0] in all;
      }
      if nulls != [] {
        assert all[|types|] == nulls[0] && nulls[0] in all;
      }
    }
  }

  lemma SameTypeIsCompatible(t: string)
    ensures IsCompatibleWith(t, t)
  {
  }

  /** A diff without blocking events is exactly a step after which every column is still readable. */
  lemma NoBlockingIff(previous: SchemaSnapshot, current: SchemaSnapshot)
    ensures NoBlocking(Diff(previous, current)) <==> StillReadable(Shape(previous.fields), Shape(current.fields))
  {
    hide Diff, Shape, IsCompatibleWith;
    JudgeDiff(previous, current, false);
    assert NoBlocking(Diff(previous, current)) <==> forall ev :: ev in Diff(previous, current) ==> !Bad(ev, false);
    AllFine(previous, current, false);
  }

  /** Fields are fine one by one iff the shapes are. */
  lemma AllFine(previous: SchemaSnapshot, current: SchemaSnapshot, critical: bool)
    ensures (forall n :: FieldIsFine(previous, current, n, critical))
       <==> StillReadable(Shape(previous.fields), Shape(current.fields))
            && (critical ==> NoNewRequirement(Shape(previous.fields), Shape(current.fields)))
  {
    hide Shape, IsCompatibleWith;
    var prev, curr := Shape(previous.fields), Shape(current.fields);
    if forall n :: FieldIsFine(previous, current, n, critical) {
      forall n | n in prev
        ensures n in curr && IsCompatibleWith(curr[n].type_, prev[n].type_)
        ensures critical ==> prev[n].nullable ==> curr[n].nullable
      {
        assert FieldIsFine(previous, current, n, critical);
      }
    }
  }

  /** A diff without critical events moreover makes no nullable column required. */
  lemma NoCriticalIff(previous: SchemaSnapshot, current: SchemaSnapshot)
    ensures NoCritical(Diff(previous, current))
       <==> StillReadable(Shape(previous.fields), Shape(current.fields))
            && NoNewRequirement(Shape(previous.fields), Shape(current.fields))
  {
    hide Diff, Shape, IsCompatibleWith;
    JudgeDiff(previous, current, true);
    assert NoCritical(Diff(previous, current)) <==> forall ev :: ev in Diff(previous, current) ==> !Bad(ev, true);
    AllFine(previous, current, true);
  }

  predicate Bad(ev: DriftEvent, critical: bool) {
    if critical then ev.IsCritical() else ev.IsBlocking()
  }

  ghost predicate FieldIsFine(previous: SchemaSnapshot, current: SchemaSnapshot, n: string, critical: bool) {
    var prev, curr := Shape(previous.fields), Shape(current.fields);
    n in prev ==>
      && n in curr && IsCompatibleWith(curr[n].type_, prev[n].type_)
      && (critical ==> prev[n].nullable ==> curr[n].nullable)
  }

  lemma JudgeDiff(previous: SchemaSnapshot, current: SchemaSnapshot, critical: bool)
    ensures (forall ev :: ev in Diff(previous, current) ==> !Bad(ev, critical))
       <==> (forall n :: FieldIsFine(previous, current, n, critical))
  {
    hide Diff, FieldIsFine, Bad;
    forall ev | ev in Diff(previous, current) && Bad(ev, critical)
      ensures exists n :: !FieldIsFine(previous, current, n, critical)
    {
      BadEventShows(previous, current, ev, critical);
    }
    forall n | !FieldIsFine(previous, current, n, critical)
      ensures exists ev :: ev in Diff(previous, current) && Bad(ev, critical)
    {
      BadFieldShows(previous, current, n, critical);
    }
  }

  lemma BadEventShows(previous: SchemaSnapshot, current: SchemaSnapshot, ev: DriftEvent, critical: bool)
    requires ev in Diff(previous, current) && Bad(ev, critical)
    ensures exists n :: !FieldIsFine(previous, current, n, critical)
  {
    hide Diff, Index, FieldEvents, IsCompatibleWith;
    IndexEntries(current.fields);
    DiffHolds(previous, current, ev);
    if n :| HasFieldEvent(previous, current, n, ev) {
      FieldEventsJudged(current.objectId, Index(previous.fields), Index(current.fields)[n], critical);
      assert !FieldIsFine(previous, current, n, critical);
    } else {
      var n :| HasRemoval(previous, current, n, ev);
      assert !FieldIsFine(previous, current, n, critical);
    }
  }

  lemma BadFieldShows(previous: SchemaSnapshot, current: SchemaSnapshot, n: string, critical: bool)
    requires !FieldIsFine(previous, current, n, critical)
    ensures exists ev :: ev in Diff(previous, current) && Bad(ev, critical)
  {
    hide Diff, Index, FieldEvents, IsCompatibleWith;
    IndexEntries(current.fields);
    if n in Index(current.fields) {
      var c := Index(current.fields)[n];
      FieldEventsJudged(current.objectId, Index(previous.fields), c, critical);
      var ev :| ev in FieldEvents(current.objectId, Index(previous.fields), c) && Bad(ev, critical);
      assert HasFieldEvent(previous, current, n, ev);
      DiffHolds(previous, current, ev);
    } else {
      var ev := RemovedEvent(previous.objectId, Index(previous.fields)[n]);
      assert HasRemoval(previous, current, n, ev);
      DiffHolds(previous, current, ev);
      assert Bad(ev, critical);
    }
  }

  /**
   Over any history of snapshots: if no step is blocking, the first and the last snapshot
   compared directly show no blocking change either.
   */
  lemma {:induction false} NonBlockingHistoriesCompose(history: seq<SchemaSnapshot>)
    requires |history| > 0
    requires forall i :: 0 <= i < |history| - 1 ==> NoBlocking(Diff(history[i], history[i + 1]))
    ensures NoBlocking(Diff(history[0], history[|history| - 1]))
  {
    hide Diff, Shape, IsCompatibleWith;
    var last := |history| - 1;
    NoBlockingIff(history[0], history[last]);
    if last == 0 {
      ReadableItself(Shape(history[0].fields));
    } else {
      NonBlockingHistoriesCompose(history[..last]);
      NoBlockingIff(history[0], history[last - 1]);
      NoBlockingIff(history[last - 1], history[last]);
      ReadableComposes(Shape(history[0].fields), Shape(history[last - 1].fields), Shape(history[last].fields));
    }
  }

  lemma {:induction false} NonCriticalHistoriesCompose(history: seq<SchemaSnapshot>)
    requires |history| > 0
    requires forall i :: 0 <= i < |history| - 1 ==> NoCritical(Diff(history[i], history[i + 1]))
    ensures NoCritical(Diff(history[0], history[|history| - 1]))
  {
    hide Diff, Shape, IsCompatibleWith;
    var last := |history| - 1;
    NoCriticalIff(history[0], history[last]);
    if last == 0 {
      ReadableItself(Shape(history[0].fields));
    } else {
      NonCriticalHistoriesCompose(history[..last]);
      NoCriticalIff(history[0], history[last - 1]);
      NoCriticalIff(history[last - 1], history[last]);
      ReadableComposes(Shape(history[0].fields), Shape(history[last - 1].fields), Shape(history[last].fields));
    }
  }

  lemma ReadableItself(a: map<string, Column>)
    ensures StillReadable(a, a) && NoNewRequirement(a, a)
  {
  }

  lemma ReadableComposes(a: map<string, Column>, b: map<string, Column>, c: map<string, Column>)
    requires StillReadable(a, b) && StillReadable(b, c)
    ensures StillReadable(a, c)
    ensures NoNewRequirement(a, b) && NoNewRequirement(b, c) ==> NoNewRequirement(a, c)
  {
    hide IsCompatibleWith;
    forall n | n in a
      ensures n in c && IsCompatibleWith(c[n].type_, a[n].type_)
    {
      CompatibilityComposes(a[n].type_, b[n].type_, c[n].type_);
    }
  }

  // ---------- The classifier in front of an extraction ----------

  datatype Verdict = Verdict(canProceed: bool, reasons: seq<DriftEvent>)

  function Blocking(events: seq<DriftEvent>): seq<DriftEvent> {
    if events == [] then []
    else
      var last := events[|events| - 1];
      Blocking(events[..|events| - 1]) + (if last.IsBlocking() then [last] else [])
  }

  function ClassifyModels(prev: Option<SchemaSnapshot>, curr: Option<SchemaSnapshot>): Verdict {
    if prev.None? || curr.None? then Verdict(true, [])
    else
      var blocking := Blocking(DiffOptional(prev, curr));
      Verdict(blocking == [], blocking)
  }

  lemma BlockingHolds(events: seq<DriftEvent>, ev: DriftEvent)
    ensures ev in Blocking(events) <==> ev in events && ev.IsBlocking()
  {
    if events != [] {
      BlockingHolds(events[..|events| - 1], ev);
      assert events == events[..|events| - 1] + [events[|events| - 1]];
    }
  }

  /** Extraction may proceed iff there is nothing to compare or every old column is still readable. */
  lemma CanProceedIff(prev: Option<SchemaSnapshot>, curr: Option<SchemaSnapshot>)
    ensures ClassifyModels(prev, curr).canProceed
       <==> prev.None? || curr.None? || StillReadable(Shape(prev.value.fields), Shape(curr.value.fields))
  {
    hide Diff;
    if prev.Some? && curr.Some? {
      var events := Diff(prev.value, curr.value);
      NoBlockingIff(prev.value, curr.value);
      forall ev
        ensures ev in Blocking(events) <==> ev in events && ev.IsBlocking()
      {
        BlockingHolds(events, ev);
      }
      if Blocking(events) != [] {
        assert Blocking(events)[0] in Blocking(events);
      }
    }
  }

  // ---------- No events iff no difference ----------

  lemma NoFieldEventsIff(objectId: Id, prev: map<string, SchemaField>, curr: SchemaField)
    ensures FieldEvents(objectId, prev, curr) == []
       <==> curr.name in prev && prev[curr.name].normalizedType == curr.normalizedType && prev[curr.name].nullable == curr.nullable
  {
  }

  /** Name n is in one shape only, or with different columns. */
  ghost predicate DiffersAt(previous: SchemaSnapshot, current: SchemaSnapshot, n: string) {
    var prev, curr := Shape(previous.fields), Shape(current.fields);
    (n in prev) != (n in curr) || (n in prev && prev[n] != curr[n])
  }

  lemma DifferenceShows(previous: SchemaSnapshot, current: SchemaSnapshot, n: string)
    requires DiffersAt(previous, current, n)
    ensures Diff(previous, current) != []
  {
    hide Diff, Index, FieldEvents;
    IndexEntries(current.fields);
    var prev, curr := Index(previous.fields), Index(current.fields);
    if n in curr {
      NoFieldEventsIff(current.objectId, prev, curr[n]);
      var ev := FieldEvents(current.objectId, prev, curr[n])[0];
      assert HasFieldEvent(previous, current, n, ev);
      DiffHolds(previous, current, ev);
    } else {
      var ev := RemovedEvent(previous.objectId, prev[n]);
      assert HasRemoval(previous, current, n, ev);
      DiffHolds(previous, current, ev);
    }
  }

  lemma EventShowsDifference(previous: SchemaSnapshot, current: SchemaSnapshot)
    requires Diff(previous, current) != []
    ensures exists n :: DiffersAt(previous, current, n)
  {
    hide Diff, Index, FieldEvents;
    IndexEntries(current.fields);
    var ev := Diff(previous, current)[0];
    DiffHolds(previous, current, ev);
    if n :| HasFieldEvent(previous, current, n, ev) {
      NoFieldEventsIff(current.objectId, Index(previous.fields), Index(current.fields)[n]);
      assert DiffersAt(previous, current, n);
    } else {
      var n :| HasRemoval(previous, current, n, ev);
      assert DiffersAt(previous, current, n);
    }
  }

  /** There are no events iff the two snapshots have the same columns with the same types and nullability. */
  lemma EmptyDiffIff(previous: SchemaSnapshot, current: SchemaSnapshot)
    ensures Diff(previous, current) == [] <==> Shape(previous.fields) == Shape(current.fields)
  {
    hide Diff, Shape;
    if Diff(previous, current) != [] {
      EventShowsDifference(previous, current);
    } else {
      forall n
        ensures !DiffersAt(previous, current, n)
      {
        if DiffersAt(previous, current, n) {
          DifferenceShows(previous, current, n);
        }
      }
      var prev, curr := Shape(previous.fields), Shape(current.fields);
      assert forall n :: n in prev <==> n in curr by {
        assert forall n :: !DiffersAt(previous, current, n) ==> (n in prev <==> n in curr);
      }
      assert prev == curr by {
        assert forall n :: !DiffersAt(previous, current, n) && n in prev ==> prev[n] == curr[n];
      }
    }
  }

  // ---------- A diff is a patch ----------

  /** A column as the events tell it: an added field comes without its nullability. */
  datatype Known = Known(type_: string, nullable: Option<bool>)

  function KnownShape(shape: map<string, Column>): map<string, Known> {
    map n | n in shape :: Known(shape[n].type_, Some(shape[n].nullable))
  }

  /** Applies one event, or None if the event does not fit what it is applied to. */
  function Patch(m: map<string, Known>, ev: DriftEvent): Option<map<string, Known>> {
    if ev.fieldName.None? then None
    else
      var n := ev.fieldName.value;
      match ev.changeType
      case FIELD_ADDED =>
        if n !in m && ev.currentValue.Some? then Some(m[n := Known(ev.currentValue.value, None)]) else None
      case FIELD_REMOVED =>
        if n in m && ev.previousValue == Some(m[n].type_) then Some(m - {n}) else None
      case TYPE_WIDENED =>
        if n in m && ev.previousValue == Some(m[n].type_) && ev.currentValue.Some?
        then Some(m[n := m[n].(type_ := ev.currentValue.value)]) else None
      case TYPE_INCOMPATIBLE =>
        if n in m && ev.previousValue == Some(m[n].type_) && ev.currentValue.Some?
        then Some(m[n := m[n].(type_ := ev.currentValue.value)]) else None
      case NULLABLE_TO_REQUIRED =>
        if n in m && m[n].nullable == Some(true) then Some(m[n := m[n].(nullable := Some(false))]) else None
      case REQUIRED_TO_NULLABLE =>
        if n in m && m[n].nullable == Some(false) then Some(m[n := m[n].(nullable := Some(true))]) else None
      case _ => None
  }

  function Patched(m: Option<map<string, Known>>, events: seq<DriftEvent>): Option<map<string, Known>> {
    if events == [] then m
    else
      match Patched(m, events[..|events| - 1])
      case None => None
      case Some(k) => Patch(k, events[|events| - 1])
  }

  lemma {:induction false} PatchedConcat(m: Option<map<string, Known>>, a: seq<DriftEvent>, b: seq<DriftEvent>)
    ensures Patched(m, a + b) == Patched(Patched(m, a), b)
  {
    hide Patch;
    if b == [] {
      assert a + b == a;
    } else {
      PatchedConcat(m, a, b[..|b| - 1]);
      assert (a + b)[..|a + b| - 1] == a + b[..|b| - 1];
    }
  }

  function KnownOf(f: SchemaField): Known {
    Known(f.normalizedType, Some(f.nullable))
  }

  /** The column of field curr after its events: complete if the name was there before. */
  function Target(prev: map<string, SchemaField>, curr: SchemaField): Known {
    Known(curr.normalizedType, if curr.name in prev then Some(curr.nullable) else None)
  }

  lemma TypeChangePatch(objectId: Id, p: SchemaField, curr: SchemaField, m: map<string, Known>)
    requires curr.name in m && m[curr.name] == KnownOf(p)
    ensures Patched(Some(m), CheckTypeChange(objectId, p, curr))
         == Some(m[curr.name := Known(curr.normalizedType, Some(p.nullable))])
  {
    hide IsCompatibleWith;
    PatchedUpToOne(Some(m), CheckTypeChange(objectId, p, curr));
    if curr.normalizedType == p.normalizedType {
      assert m[curr.name := Known(curr.normalizedType, Some(p.nullable))] == m;
    }
  }

  lemma NullabilityPatch(objectId: Id, p: SchemaField, curr: SchemaField, m: map<string, Known>)
    requires curr.name in m && m[curr.name] == Known(curr.normalizedType, Some(p.nullable))
    ensures Patched(Some(m), CheckNullabilityChange(objectId, p, curr))
         == Some(m[curr.name := Known(curr.normalizedType, Some(curr.nullable))])
  {
    PatchedUpToOne(Some(m), CheckNullabilityChange(objectId, p, curr));
    if curr.nullable == p.nullable {
      assert m[curr.name := Known(curr.normalizedType, Some(curr.nullable))] == m;
    }
  }

  lemma FieldEventsPatch(objectId: Id, prev: map<string, SchemaField>, curr: SchemaField, m: map<string, Known>)
    requires curr.name in m <==> curr.name in prev
    requires curr.name in prev ==> m[curr.name] == KnownOf(prev[curr.name])
    ensures Patched(Some(m), FieldEvents(objectId, prev, curr)) == Some(m[curr.name := Target(prev, curr)])
  {
    hide Patch, Patched, CheckTypeChange, CheckNullabilityChange;
    if curr.name in prev {
      var p := prev[curr.name];
      PatchedConcat(Some(m), CheckTypeChange(objectId, p, curr), CheckNullabilityChange(objectId, p, curr));
      TypeChangePatch(objectId, p, curr, m);
      var m1 := m[curr.name := Known(curr.normalizedType, Some(p.nullable))];
      NullabilityPatch(objectId, p, curr, m1);
      assert m1[curr.name := Target(prev, curr)] == m[curr.name := Target(prev, curr)];
    } else {
      AdditionPatch(objectId, curr, m);
    }
  }

  lemma AdditionPatch(objectId: Id, curr: SchemaField, m: map<string, Known>)
    requires curr.name !in m
    ensures Patched(Some(m), [AddedEvent(objectId, curr)]) == Some(m[curr.name := Known(curr.normalizedType, None)])
  {
    PatchedUpToOne(Some(m), [AddedEvent(objectId, curr)]);
  }

  lemma PatchedUpToOne(m: Option<map<string, Known>>, events: seq<DriftEvent>)
    requires m.Some? && |events| <= 1
    ensures Patched(m, events) == if events == [] then m else Patch(m.value, events[0])
  {
    if events != [] {
      assert events[..0] == [];
    }
  }

  /** Between the two shapes: the names in `done` have their new column, the rest their old one. */
  ghost predicate Halfway(prev: map<string, SchemaField>, curr: map<string, SchemaField>, done: seq<string>, m: map<string, Known>)
    requires forall n :: n in done ==> n in curr
  {
    && (forall n :: n in m <==> n in prev || n in done)
    && (forall n :: n in done ==> m[n] == Target(prev, curr[n]))
    && (forall n :: n in prev && n !in done ==> m[n] == KnownOf(prev[n]))
  }

  lemma {:induction false} AddedAndChangedPatch(
    objectId: Id, prev: map<string, SchemaField>, curr: map<string, SchemaField>, names: seq<string>, m: map<string, Known>)
    requires Distinct(names) && forall n :: n in names ==> n in curr
    requires forall n :: n in curr ==> curr[n].name == n
    requires Halfway(prev, curr, [], m)
    ensures var r := Patched(Some(m), AddedAndChanged(objectId, prev, curr, names));
      r.Some? && Halfway(prev, curr, names, r.value)
  {
    hide FieldEvents, Target, KnownOf, Patch, Halfway;
    if names != [] {
      var front, last := names[..|names| - 1], names[|names| - 1];
      AddedAndChangedPatch(objectId, prev, curr, front, m);
      assert names == front + [last];
      var before := AddedAndChanged(objectId, prev, curr, front);
      var k := Patched(Some(m), before).value;
      PatchedConcat(Some(m), before, FieldEvents(objectId, prev, curr[last]));
      HalfwayAt(prev, curr, front, k, last);
      FieldEventsPatch(objectId, prev, curr[last], k);
      HalfwayStep(prev, curr, front, k, last);
    }
  }

  lemma HalfwayAt(prev: map<string, SchemaField>, curr: map<string, SchemaField>, done: seq<string>, m: map<string, Known>, n: string)
    requires (forall k :: k in done ==> k in curr) && Halfway(prev, curr, done, m) && n !in done
    ensures n in m <==> n in prev
    ensures n in prev ==> m[n] == KnownOf(prev[n])
  {
  }

  lemma HalfwayStep(prev: map<string, SchemaField>, curr: map<string, SchemaField>, done: seq<string>, m: map<string, Known>, n: string)
    requires (forall k :: k in done ==> k in curr) && Halfway(prev, curr, done, m) && n in curr && n !in done
    ensures Halfway(prev, curr, done + [n], m[n := Target(prev, curr[n])])
  {
    hide KnownOf, Target;
  }

  /** r is m without those names that are not in curr. */
  ghost predicate Kept(m: map<string, Known>, names: seq<string>, curr: map<string, SchemaField>, r: Option<map<string, Known>>) {
    && r.Some?
    && (forall n :: n in r.value <==> n in m && (n in names ==> n in curr))
    && (forall n :: n in r.value ==> r.value[n] == m[n])
  }

  lemma KeptStep(m: map<string, Known>, names: seq<string>, last: string, curr: map<string, SchemaField>, r: Option<map<string, Known>>)
    requires Kept(m, names, curr, r) && last !in names
    ensures Kept(m, names + [last], curr, if last in curr then r else Some(r.value - {last}))
  {
  }

  lemma RemovalPatch(objectId: Id, f: SchemaField, m: map<string, Known>)
    requires f.name in m && m[f.name] == KnownOf(f)
    ensures Patched(Some(m), [RemovedEvent(objectId, f)]) == Some(m - {f.name})
  {
    PatchedUpToOne(Some(m), [RemovedEvent(objectId, f)]);
  }

  lemma {:induction false} RemovedPatch(
    objectId: Id, prev: map<string, SchemaField>, curr: map<string, SchemaField>, names: seq<string>, m: map<string, Known>)
    requires Distinct(names) && forall n :: n in names ==> n in prev
    requires forall n :: n in prev ==> prev[n].name == n
    requires forall n :: n in prev && n !in curr ==> n in m && m[n] == KnownOf(prev[n])
    ensures Kept(m, names, curr, Patched(Some(m), Removed(objectId, prev, curr, names)))
  {
    hide KnownOf, RemovedEvent, Patch, Kept;
    if names == [] {
      KeptAll(m, curr);
    } else {
      var front, last := names[..|names| - 1], names[|names| - 1];
      RemovedPatch(objectId, prev, curr, front, m);
      assert names == front + [last];
      var events := Removed(objectId, prev, curr, front);
      KeptStep(m, front, last, curr, Patched(Some(m), events));
      if last !in curr {
        KeptColumn(m, front, last, curr, Patched(Some(m), events));
        PatchedConcat(Some(m), events, [RemovedEvent(objectId, prev[last])]);
        RemovalPatch(objectId, prev[last], Patched(Some(m), events).value);
      } else {
        assert events + [] == events;
      }
    }
  }

  lemma KeptAll(m: map<string, Known>, curr: map<string, SchemaField>)
    ensures Kept(m, [], curr, Some(m))
  {
  }

  lemma KeptColumn(m: map<string, Known>, names: seq<string>, n: string, curr: map<string, SchemaField>, r: Option<map<string, Known>>)
    requires Kept(m, names, curr, r) && n in m && n !in names
    ensures r.Some? && n in r.value && r.value[n] == m[n]
  {
  }

  /** The current columns as a reader of the previous shape and the events knows them. */
  function KnownAfter(prev: map<string, Column>, curr: map<string, Column>): map<string, Known> {
    map n | n in curr :: Known(curr[n].type_, if n in prev then Some(curr[n].nullable) else None)
  }

  lemma HalfwayThenKept(
    prev: map<string, SchemaField>, curr: map<string, SchemaField>, currNames: seq<string>, prevNames: seq<string>,
    m: map<string, Known>, r: Option<map<string, Known>>, prevShape: map<string, Column>, currShape: map<string, Column>)
    requires forall n :: n in currNames <==> n in curr
    requires forall n :: n in prevNames <==> n in prev
    requires forall n :: n in curr ==> curr[n].name == n
    requires Halfway(prev, curr, currNames, m) && Kept(m, prevNames, curr, r)
    requires prevShape.Keys == prev.Keys && currShape.Keys == curr.Keys
    requires forall n :: n in curr ==> currShape[n] == Column(curr[n].normalizedType, curr[n].nullable)
    ensures r == Some(KnownAfter(prevShape, currShape))
  {
    assert r.value == KnownAfter(prevShape, currShape);
  }

  /**
   Replaying a diff on the previous shape fits at every event and yields exactly the current
   columns: every type, and the nullability of every field that was there before.
   */
  lemma DiffIsAPatch(previous: SchemaSnapshot, current: SchemaSnapshot)
    ensures Patched(Some(KnownShape(Shape(previous.fields))), Diff(previous, current))
         == Some(KnownAfter(Shape(previous.fields), Shape(current.fields)))
  {
    hide Index, Names, Patched, Kept, KnownAfter, AddedAndChanged, Removed;
    var prev, curr := Index(previous.fields), Index(current.fields);
    IndexEntries(previous.fields);
    IndexEntries(current.fields);
    NamesAreDistinct(previous.fields);
    NamesAreDistinct(current.fields);
    var m := KnownShape(Shape(previous.fields));
    var added := AddedAndChanged(current.objectId, prev, curr, Names(current.fields));
    var removed := Removed(previous.objectId, prev, curr, Names(previous.fields));
    PatchedConcat(Some(m), added, removed);
    AddedAndChangedPatch(current.objectId, prev, curr, Names(current.fields), m);
    var k := Patched(Some(m), added).value;
    RemovedPatch(previous.objectId, prev, curr, Names(previous.fields), k);
    HalfwayThenKept(prev, curr, Names(current.fields), Names(previous.fields), k, Patched(Some(k), removed),
                    Shape(previous.fields), Shape(current.fields));
  }

  /** What is known once the nullability of some names is forgotten. */
  function Blurred(m: map<string, Known>, names: set<string>): map<string, Known> {
    map n | n in m :: if n in names then Known(m[n].type_, None) else m[n]
  }

  predicate AsksNullability(ev: DriftEvent) {
    ev.changeType.NULLABLE_TO_REQUIRED? || ev.changeType.REQUIRED_TO_NULLABLE?
  }

  /** Events that change no forgotten nullability patch what is left as they patch the whole. */
  lemma PatchBlurred(m: map<string, Known>, ev: DriftEvent, names: set<string>)
    requires Patch(m, ev).Some?
    requires AsksNullability(ev) ==> ev.fieldName.Some? && ev.fieldName.value !in names
    ensures Patch(Blurred(m, names), ev) == Some(Blurred(Patch(m, ev).value, names))
  {
    assert Patch(Blurred(m, names), ev).value == Blurred(Patch(m, ev).value, names);
  }

  lemma {:induction false} PatchedBlurred(m: map<string, Known>, events: seq<DriftEvent>, names: set<string>)
    requires Patched(Some(m), events).Some?
    requires forall ev :: ev in events && AsksNullability(ev) ==> ev.fieldName.Some? && ev.fieldName.value !in names
    ensures Patched(Some(Blurred(m, names)), events) == Some(Blurred(Patched(Some(m), events).value, names))
  {
    hide Patch, Blurred;
    if events != [] {
      var front, last := events[..|events| - 1], events[|events| - 1];
      assert last in events && forall ev :: ev in front ==> ev in events;
      PatchedBlurred(m, front, names);
      PatchBlurred(Patched(Some(m), front).value, last, names);
    }
  }

  /** Nullability is only compared where both snapshots have the field. */
  lemma NullabilityOfCommonFields(previous: SchemaSnapshot, current: SchemaSnapshot, ev: DriftEvent)
    requires ev in Diff(previous, current) && AsksNullability(ev)
    ensures ev.fieldName.Some? && ev.fieldName.value in Shape(previous.fields) && ev.fieldName.value in Shape(current.fields)
  {
    hide Diff, Index;
    DiffHolds(previous, current, ev);
    IndexEntries(current.fields);
  }

  /**
   Diffing back undoes diffing forth: replayed one after the other on the previous shape, the two
   diffs give the previous types again, and the previous nullability of every surviving field.
   */
  lemma DiffBackUndoes(previous: SchemaSnapshot, current: SchemaSnapshot)
    ensures var there := Patched(Some(KnownShape(Shape(previous.fields))), Diff(previous, current));
      Patched(there, Diff(current, previous)) == Some(KnownAfter(Shape(current.fields), Shape(previous.fields)))
  {
    hide Diff, Shape, Patched;
    var prev, curr := Shape(previous.fields), Shape(current.fields);
    var added := curr.Keys - prev.Keys;
    DiffIsAPatch(previous, current);
    DiffIsAPatch(current, previous);
    assert KnownAfter(prev, curr) == Blurred(KnownShape(curr), added);
    forall ev | ev in Diff(current, previous) && AsksNullability(ev)
      ensures ev.fieldName.Some? && ev.fieldName.value !in added
    {
      NullabilityOfCommonFields(current, previous, ev);
    }
    PatchedBlurred(KnownShape(curr), Diff(current, previous), added);
    assert Blurred(KnownAfter(curr, prev), added) == KnownAfter(curr, prev);
  }
}
