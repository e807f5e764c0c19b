/**
 The versioned schema catalogue and its lineage table
 (app/infrastructure/adapters/catalog/database_catalog_adapter.py).
 */
module CatalogHistory {
  import opened Wrappers
  import opened Schema
  import Lineage

  /** One column of a stored snapshot. */
  datatype CatalogColumn = CatalogColumn(
    name: string, sourceType: string, normalizedType: string, nullable: bool, isPrimaryKey: bool,
    description: string, policyTag: Option<string>)

  datatype VersionRow = VersionRow(objectId: Id, version: nat, snapshotJson: seq<CatalogColumn>)

  function ColumnOf(f: SchemaField): CatalogColumn {
    CatalogColumn(f.name, f.sourceType, f.normalizedType, f.nullable, f.isPrimaryKey,
           if f.description.Some? then f.description.value else "", None)
  }

  /** The column stores the field, attribute by attribute, under this tag; no description is stored as the empty one. */
  predicate StoresField(col: CatalogColumn, f: SchemaField, tag: Option<string>) {
    && col.name == f.name && col.sourceType == f.sourceType && col.normalizedType == f.normalizedType
    && col.nullable == f.nullable && col.isPrimaryKey == f.isPrimaryKey
    && col.description == (if f.description.Some? then f.description.value else "") && col.policyTag == tag
  }

  /** _snapshot_to_json. */
  function SnapshotToJson(s: SchemaSnapshot): seq<CatalogColumn> {
    seq(|s.fields|, i requires 0 <= i < |s.fields| => ColumnOf(s.fields[i]))
  }

  function TaggedColumn(col: CatalogColumn, tags: map<string, string>): CatalogColumn {
    if col.name in tags then col.(policyTag := Some(tags[col.name])) else col
  }

  function TaggedColumns(cols: seq<CatalogColumn>, tags: map<string, string>): seq<CatalogColumn> {
    seq(|cols|, i requires 0 <= i < |cols| => TaggedColumn(cols[i], tags))
  }

  /** `WHERE object_id = id ORDER BY version DESC LIMIT 1`. */
  function LatestVersion(rows: seq<VersionRow>, id: Id): Option<VersionRow> {
    if rows == [] then None
    else
      var best := LatestVersion(rows[..|rows| - 1], id);
      var row := rows[|rows| - 1];
      if row.objectId == id && (best.None? || row.version >= best.value.version) then Some(row) else best
  }

  // ---------- The table after a call ----------

  function Published(rows: seq<VersionRow>, s: SchemaSnapshot): seq<VersionRow> {
    match LatestVersion(rows, s.objectId)
    case None => rows + [VersionRow(s.objectId, 1, SnapshotToJson(s))]
    case Some(latest) =>
      if latest.snapshotJson == SnapshotToJson(s) then rows
      else rows + [VersionRow(s.objectId, latest.version + 1, SnapshotToJson(s))]
  }

  function Tagged(rows: seq<VersionRow>, id: Id, tags: map<string, string>): seq<VersionRow> {
    match LatestVersion(rows, id)
    case None => rows
    case Some(latest) => rows + [VersionRow(id, latest.version + 1, TaggedColumns(latest.snapshotJson, tags))]
  }

  /** A stored column mapping: no expression is stored as the empty one. */
  datatype StoredElement = StoredElement(source: string, destination: string, expression: string)

  datatype LineageRow = LineageRow(
    id: string, pipelineId: string, sourceObjectId: string, destinationObjectId: string, columns: seq<StoredElement>)

  function Serialized(columns: seq<Lineage.ElementLineage>): seq<StoredElement> {
    seq(|columns|, i requires 0 <= i < |columns| =>
      StoredElement(columns[i].sourceColumn, columns[i].destinationColumn,
                    if columns[i].transformationExpression.Some? then columns[i].transformationExpression.value else ""))
  }

  predicate SameEdge(row: LineageRow, m: Lineage.LineageMapping) {
    row.pipelineId == m.pipelineId && row.sourceObjectId == m.sourceObjectId && row.destinationObjectId == m.destinationObjectId
  }


  datatype LineageError = MultipleResultsFound

  class DatabaseCatalogAdapter {
    var versions: seq<VersionRow>
    var lineage: seq<LineageRow>

    constructor ()
      ensures versions == [] && lineage == []
    {
      versions, lineage := [], [];
    }

    method PublishSchema(snapshot: SchemaSnapshot)
      modifies this`versions
      ensures versions == Published(old(versions), snapshot)
      ensures versions == old(versions) || exists row :: (
        && versions == old(versions) + [row] && row.objectId == snapshot.objectId && |row.snapshotJson| == |snapshot.fields|
        && forall i :: 0 <= i < |row.snapshotJson| ==> StoresField(row.snapshotJson[i], snapshot.fields[i], None))
    {
      var incoming := SnapshotToJson(snapshot);
      var latest := LatestVersion(versions, snapshot.objectId);
      if latest.Some? && latest.value.snapshotJson == incoming {
        return;
      }
      var nextVersion := if latest.Some? then latest.value.version + 1 else 1;
      var row := VersionRow(snapshot.objectId, nextVersion, incoming);
      versions := versions + [row];
    }

    method UpdatePolicyTags(objectId: Id, policyTags: map<string, string>)
      modifies this`versions
      ensures versions == Tagged(old(versions), objectId, policyTags)
    {
      var latest := LatestVersion(versions, objectId);
      if latest.None? {
        return;
      }
      var updatedFields := TaggedColumns(latest.value.snapshotJson, policyTags);
      versions := versions + [VersionRow(objectId, latest.value.version + 1, updatedFields)];
    }

    /** Raises when more than one row has the edge's three identifiers. */
    method PublishLineage(mapping: Lineage.LineageMapping) returns (r: Result<(), LineageError>)
      modifies this`lineage
      ensures r.Err? <==> exists i, j :: 0 <= i < j < |old(lineage)|
                                         && SameEdge(old(lineage)[i], mapping) && SameEdge(old(lineage)[j], mapping)
      ensures r.Err? ==> lineage == old(lineage)
      ensures r.Ok? ==> lineage == Upserted(old(lineage), mapping)
    {
      var found := Find(lineage, mapping, 0);
      if found < |lineage| && Find(lineage, mapping, found + 1) < |lineage| {
        return Err(MultipleResultsFound);
      }
      var serialized := Serialized(mapping.columnMappings);
      if found < |lineage| {
        lineage := lineage[found := lineage[found].(columns := serialized)];
      } else {
        lineage := lineage + [LineageRow(mapping.id, mapping.pipelineId, mapping.sourceObjectId, mapping.destinationObjectId,
                                         serialized)];
      }
      return Ok(());
    }
  }

  /** The first row from k on that has the mapping's edge, or the length of the table. */
  function Find(rows: seq<LineageRow>, m: Lineage.LineageMapping, k: nat): (i: nat)
    requires k <= |rows|
    ensures k <= i <= |rows| && (i < |rows| ==> SameEdge(rows[i], m))
    ensures forall j :: k <= j < i ==> !SameEdge(rows[j], m)
    decreases |rows| - k
  {
    if k < |rows| && !SameEdge(rows[k], m) then Find(rows, m, k + 1) else k
  }

  function Upserted(rows: seq<LineageRow>, m: Lineage.LineageMapping): seq<LineageRow> {
    var i := Find(rows, m, 0);
    if i < |rows| then rows[i := rows[i].(columns := Serialized(m.columnMappings))]
    else rows + [LineageRow(m.id, m.pipelineId, m.sourceObjectId, m.destinationObjectId, Serialized(m.columnMappings))]
  }

  // ---------- Any sequence of calls ----------

  datatype Call = Publish(snapshot: SchemaSnapshot) | Tag(objectId: Id, tags: map<string, string>)

  function After(rows: seq<VersionRow>, c: Call): seq<VersionRow> {
    match c
    case Publish(s) => Published(rows, s)
    case Tag(id, tags) => Tagged(rows, id, tags)
  }

  function Run(calls: seq<Call>): seq<VersionRow> {
    if calls == [] then [] else After(Run(calls[..|calls| - 1]), calls[|calls| - 1])
  }

  function VersionsOf(rows: seq<VersionRow>, id: Id): seq<VersionRow> {
    if rows == [] then []
    else
      VersionsOf(rows[..|rows| - 1], id) + if rows[|rows| - 1].objectId == id then [rows[|rows| - 1]] else []
  }

  ghost predicate Numbered(rows: seq<VersionRow>, id: Id) {
    var own := VersionsOf(rows, id);
    forall i :: 0 <= i < |own| ==> own[i].objectId == id && own[i].version == i + 1
  }

  /** In a numbered table the highest version is the row added last. */
  lemma {:induction false} LatestIsLast(rows: seq<VersionRow>, id: Id)
    requires Numbered(rows, id)
    ensures var own := VersionsOf(rows, id);
            LatestVersion(rows, id) == if own == [] then None else Some(own[|own| - 1])
  {
    if rows != [] {
      var before := rows[..|rows| - 1];
      var own := VersionsOf(rows, id);
      assert Numbered(before, id) by {
        forall i | 0 <= i < |VersionsOf(before, id)|
          ensures VersionsOf(before, id)[i] == own[i]
        {
        }
      }
      LatestIsLast(before, id);
    }
  }

  lemma NumberedAppend(rows: seq<VersionRow>, row: VersionRow, id: Id)
    ensures VersionsOf(rows + [row], id) == VersionsOf(rows, id) + if row.objectId == id then [row] else []
  {
    assert (rows + [row])[..|rows|] == rows;
  }

  /** A call adds at most one row, numbered next for its object, and touches none that is there. */
  lemma AfterIs(rows: seq<VersionRow>, c: Call, id: Id)
    requires forall x :: Numbered(rows, x)
    ensures Numbered(After(rows, c), id)
    ensures rows <= After(rows, c) && |After(rows, c)| <= |rows| + 1
  {
    hide LatestVersion, VersionsOf, SnapshotToJson, TaggedColumns;
    var target := match c case Publish(s) => s.objectId case Tag(x, _) => x;
    var own := VersionsOf(rows, id);
    assert Numbered(rows, target) && Numbered(rows, id);
    LatestIsLast(rows, target);
    if After(rows, c) != rows {
      var row := After(rows, c)[|rows|];
      assert After(rows, c) == rows + [row];
      NumberedAppend(rows, row, id);
    }
  }

  /** Every object's versions are 1 to n, in the order they were added. */
  lemma {:induction false} VersionsAreOneToN(calls: seq<Call>)
    ensures forall id :: Numbered(Run(calls), id)
  {
    if calls != [] {
      hide Numbered, After;
      VersionsAreOneToN(calls[..|calls| - 1]);
      forall id
        ensures Numbered(Run(calls), id)
      {
        AfterIs(Run(calls[..|calls| - 1]), calls[|calls| - 1], id);
      }
    } else {
      assert Run(calls) == [];
    }
  }

  /** No later call changes or removes a version. */
  lemma {:induction false} HistoryIsAppendOnly(calls: seq<Call>, more: seq<Call>)
    ensures Run(calls) <= Run(calls + more)
  {
    if more == [] {
      assert calls + more == calls;
    } else {
      hide After, Numbered;
      var earlier := calls + more[..|more| - 1];
      assert (calls + more)[..|calls + more| - 1] == earlier;
      HistoryIsAppendOnly(calls, more[..|more| - 1]);
      VersionsAreOneToN(earlier);
      AfterIs(Run(earlier), more[|more| - 1], Named(""));
    }
  }

  // ---------- What the latest version holds ----------

  predicate Publishes(c: Call, id: Id) {
    c.Publish? && c.snapshot.objectId == id
  }

  /** The tag the calls last gave a column of the object. */
  function LastTag(calls: seq<Call>, id: Id, column: string): Option<string> {
    if calls == [] then None
    else
      var c := calls[|calls| - 1];
      if c.Tag? && c.objectId == id && column in c.tags then Some(c.tags[column])
      else LastTag(calls[..|calls| - 1], id, column)
  }

  function Latest(calls: seq<Call>, id: Id): Option<seq<CatalogColumn>> {
    match LatestVersion(Run(calls), id)
    case None => None
    case Some(row) => Some(row.snapshotJson)
  }

  lemma {:induction false} LatestAppend(rows: seq<VersionRow>, row: VersionRow, id: Id)
    ensures LatestVersion(rows + [row], id)
         == var best := LatestVersion(rows, id);
            if row.objectId == id && (best.None? || row.version >= best.value.version) then Some(row) else best
  {
    assert (rows + [row])[..|rows|] == rows;
  }

  /** What a call does to the latest version of each object. */
  lemma LatestAfter(calls: seq<Call>, c: Call, id: Id)
    ensures Latest(calls + [c], id)
         == match c
            case Publish(s) => (if s.objectId == id then Some(SnapshotToJson(s)) else Latest(calls, id))
            case Tag(x, tags) =>
              if x == id && Latest(calls, id).Some? then Some(TaggedColumns(Latest(calls, id).value, tags))
              else Latest(calls, id)
  {
    hide LatestVersion, SnapshotToJson, TaggedColumns;
    var rows := Run(calls);
    assert (calls + [c])[..|calls|] == calls;
    var after := After(rows, c);
    if after != rows {
      var row := after[|rows|];
      assert after == rows + [row];
      LatestAppend(rows, row, id);
      LatestBelongs(rows, id);
    }
  }

  lemma {:induction false} LatestBelongs(rows: seq<VersionRow>, id: Id)
    ensures LatestVersion(rows, id).Some? ==> LatestVersion(rows, id).value.objectId == id
  {
    if rows != [] {
      LatestBelongs(rows[..|rows| - 1], id);
    }
  }

  function TaggedSince(snapshot: SchemaSnapshot, since: seq<Call>): seq<CatalogColumn> {
    seq(|snapshot.fields|, i requires 0 <= i < |snapshot.fields| =>
      ColumnOf(snapshot.fields[i]).(policyTag := LastTag(since, snapshot.objectId, snapshot.fields[i].name)))
  }

  /**
   The latest version of an object is its last published snapshot, each column carrying the tag
   last given to it since; an object never published has no version, whatever was tagged.
   */
  lemma {:induction false} LatestIsLastPublishedWithTags(
    calls: seq<Call>, snapshot: SchemaSnapshot, since: seq<Call>)
    requires forall c :: c in since ==> !Publishes(c, snapshot.objectId)
    ensures Latest(calls + [Publish(snapshot)] + since, snapshot.objectId)
         == Some(TaggedSince(snapshot, since))
    ensures var cols := Latest(calls + [Publish(snapshot)] + since, snapshot.objectId).value;
      && |cols| == |snapshot.fields|
      && forall i :: 0 <= i < |cols| ==>
        StoresField(cols[i], snapshot.fields[i], LastTag(since, snapshot.objectId, snapshot.fields[i].name))
  {
    hide LatestVersion, Latest;
    var id := snapshot.objectId;
    var all := calls + [Publish(snapshot)] + since;
    if since == [] {
      assert all == calls + [Publish(snapshot)];
      LatestAfter(calls, Publish(snapshot), id);
      assert SnapshotToJson(snapshot) == TaggedSince(snapshot, since);
    } else {
      var before := since[..|since| - 1];
      var c := since[|since| - 1];
      assert c in since;
      LatestIsLastPublishedWithTags(calls, snapshot, before);
      assert all == (calls + [Publish(snapshot)] + before) + [c];
      LatestAfter(calls + [Publish(snapshot)] + before, c, id);
      if c.Tag? && c.objectId == id {
        assert TaggedColumns(TaggedSince(snapshot, before), c.tags) == TaggedSince(snapshot, since);
      } else {
        assert TaggedSince(snapshot, before) == TaggedSince(snapshot, since);
      }
    }
  }

  lemma {:induction false} NeverPublishedHasNoVersion(calls: seq<Call>, id: Id)
    requires forall c :: c in calls ==> !Publishes(c, id)
    ensures Latest(calls, id) == None
  {
    if calls != [] {
      var before := calls[..|calls| - 1];
      assert calls == before + [calls[|calls| - 1]];
      assert calls[|calls| - 1] in calls;
      NeverPublishedHasNoVersion(before, id);
      LatestAfter(before, calls[|calls| - 1], id);
    }
  }

  // ---------- When a call adds a version ----------

  /** Publishing a snapshot again adds no version exactly when no column of it was tagged in between. */
  lemma RepublishAddsNothingIff(calls: seq<Call>, snapshot: SchemaSnapshot, since: seq<Call>)
    requires forall c :: c in since ==> !Publishes(c, snapshot.objectId)
    ensures var before := calls + [Publish(snapshot)] + since;
            Run(before + [Publish(snapshot)]) == Run(before)
            <==> forall f :: f in snapshot.fields ==> LastTag(since, snapshot.objectId, f.name) == None
  {
    hide LatestVersion, LastTag;
    var before := calls + [Publish(snapshot)] + since;
    assert (before + [Publish(snapshot)])[..|before|] == before;
    LatestIsLastPublishedWithTags(calls, snapshot, since);
    var stored := Latest(before, snapshot.objectId).value;
    if forall f :: f in snapshot.fields ==> LastTag(since, snapshot.objectId, f.name) == None {
      assert stored == SnapshotToJson(snapshot);
    }
    if stored == SnapshotToJson(snapshot) {
      forall f | f in snapshot.fields
        ensures LastTag(since, snapshot.objectId, f.name) == None
      {
        var i :| 0 <= i < |snapshot.fields| && snapshot.fields[i] == f;
        assert stored[i] == SnapshotToJson(snapshot)[i];
      }
    }
  }

  /** The two fields would be stored alike. */
  predicate StoredAlike(f: SchemaField, g: SchemaField) {
    && f.name == g.name && f.sourceType == g.sourceType && f.normalizedType == g.normalizedType
    && f.nullable == g.nullable && f.isPrimaryKey == g.isPrimaryKey
    && (if f.description.Some? then f.description.value else "") == (if g.description.Some? then g.description.value else "")
  }

  /** Publishing another snapshot of the object right after adds no version iff the fields are stored alike, one by one. */
  lemma NextPublicationAddsNothingIff(calls: seq<Call>, a: SchemaSnapshot, b: SchemaSnapshot)
    requires a.objectId == b.objectId
    ensures var before := calls + [Publish(a)];
      Run(before + [Publish(b)]) == Run(before)
      <==> |a.fields| == |b.fields| && forall i :: 0 <= i < |a.fields| ==> StoredAlike(a.fields[i], b.fields[i])
  {
    hide LatestVersion;
    var before := calls + [Publish(a)];
    assert (before + [Publish(b)])[..|before|] == before;
    LatestAfter(calls, Publish(a), a.objectId);
    var stored, incoming := SnapshotToJson(a), SnapshotToJson(b);
    if stored == incoming {
      forall i | 0 <= i < |a.fields|
        ensures StoredAlike(a.fields[i], b.fields[i])
      {
        assert stored[i] == incoming[i];
      }
    }
  }

  /** And when it does add one, that version has lost the tags. */
  lemma RepublishDropsTags(calls: seq<Call>, snapshot: SchemaSnapshot)
    ensures Latest(calls + [Publish(snapshot)], snapshot.objectId) == Some(SnapshotToJson(snapshot))
    ensures forall col :: col in SnapshotToJson(snapshot) ==> col.policyTag == None
  {
    LatestAfter(calls, Publish(snapshot), snapshot.objectId);
  }

  /** Tagging adds a version to every object that has one, even when no column is named. */
  lemma TaggingAddsAVersionIff(calls: seq<Call>, id: Id, tags: map<string, string>)
    ensures Run(calls + [Tag(id, tags)]) != Run(calls) <==> exists c :: c in calls && Publishes(c, id)
  {
    hide LatestVersion, TaggedColumns;
    assert (calls + [Tag(id, tags)])[..|calls|] == calls;
    if exists c :: c in calls && Publishes(c, id) {
      OncePublishedHasVersion(calls, id);
    } else {
      NeverPublishedHasNoVersion(calls, id);
    }
  }

  lemma {:induction false} OncePublishedHasVersion(calls: seq<Call>, id: Id)
    requires exists c :: c in calls && Publishes(c, id)
    ensures Latest(calls, id).Some?
  {
    var before := calls[..|calls| - 1];
    var last := calls[|calls| - 1];
    assert calls == before + [last];
    LatestAfter(before, last, id);
    if !Publishes(last, id) {
      OncePublishedHasVersion(before, id);
    }
  }

  // ---------- Lineage ----------

  ghost predicate OneRowPerEdge(rows: seq<LineageRow>) {
    forall i, j :: 0 <= i < j < |rows| ==>
      !(rows[i].pipelineId == rows[j].pipelineId && rows[i].sourceObjectId == rows[j].sourceObjectId
        && rows[i].destinationObjectId == rows[j].destinationObjectId)
  }

  /** PublishLineage never raises in a table it filled itself. */
  lemma UpsertKeepsEdgesUnique(rows: seq<LineageRow>, m: Lineage.LineageMapping)
    requires OneRowPerEdge(rows)
    ensures OneRowPerEdge(Upserted(rows, m))
    ensures !exists i, j :: 0 <= i < j < |rows| && SameEdge(rows[i], m) && SameEdge(rows[j], m)
  {
  }

  function LineageRun(mappings: seq<Lineage.LineageMapping>): seq<LineageRow> {
    if mappings == [] then [] else Upserted(LineageRun(mappings[..|mappings| - 1]), mappings[|mappings| - 1])
  }

  predicate SamePath(a: Lineage.LineageMapping, b: Lineage.LineageMapping) {
    a.pipelineId == b.pipelineId && a.sourceObjectId == b.sourceObjectId && a.destinationObjectId == b.destinationObjectId
  }

  /** The columns a mapping's edge was last published with. */
  function LastColumns(mappings: seq<Lineage.LineageMapping>, m: Lineage.LineageMapping): seq<Lineage.ElementLineage> {
    if mappings == [] then m.columnMappings
    else if SamePath(mappings[|mappings| - 1], m) then mappings[|mappings| - 1].columnMappings
    else LastColumns(mappings[..|mappings| - 1], m)
  }

  /** The stored columns are the mapping's, in order; no expression is stored as the empty one. */
  predicate StoresColumns(stored: seq<StoredElement>, columns: seq<Lineage.ElementLineage>) {
    |stored| == |columns| && forall i :: 0 <= i < |columns| ==>
      && stored[i].source == columns[i].sourceColumn && stored[i].destination == columns[i].destinationColumn
      && stored[i].expression == if columns[i].transformationExpression.Some? then columns[i].transformationExpression.value else ""
  }

  lemma {:induction false} EdgeHasItsRow(mappings: seq<Lineage.LineageMapping>, first: nat)
    requires first < |mappings|
    requires forall k :: 0 <= k < first ==> !SamePath(mappings[k], mappings[first])
    ensures OneRowPerEdge(LineageRun(mappings))
    ensures exists i :: 0 <= i < |LineageRun(mappings)|
                        && LineageRun(mappings)[i]
                           == LineageRow(mappings[first].id, mappings[first].pipelineId, mappings[first].sourceObjectId,
                                         mappings[first].destinationObjectId,
                                         Serialized(LastColumns(mappings, mappings[first])))
  {
    EdgesStayUnique(mappings);
    var before := mappings[..|mappings| - 1];
    var last := mappings[|mappings| - 1];
    var m := mappings[first];
    EdgesStayUnique(before);
    if first == |mappings| - 1 {
      RowsComeFromMappings(before);
      var rows := LineageRun(before);
      assert Find(rows, last, 0) == |rows| by {
        forall i | 0 <= i < |rows|
          ensures !SameEdge(rows[i], last)
        {
          assert FromMapping(rows[i], before);
          var k :| 0 <= k < |before| && SameEdge(rows[i], before[k]);
          assert !SamePath(mappings[k], last);
        }
      }
      assert LineageRun(mappings)[|rows|].columns == Serialized(last.columnMappings);
    } else {
      assert before[first] == m;
      EdgeHasItsRow(before, first);
      KeptRow(LineageRun(before), last, LineageRow(m.id, m.pipelineId, m.sourceObjectId, m.destinationObjectId,
                                                   Serialized(LastColumns(before, m))));
    }
  }

  /**
   After any publications there is exactly one row for each edge published: it keeps the identifier
   of the edge's first mapping and holds the columns of its last.
   */
  lemma LineageIs(mappings: seq<Lineage.LineageMapping>, first: nat)
    requires first < |mappings|
    requires forall k :: 0 <= k < first ==> !SamePath(mappings[k], mappings[first])
    ensures var rows, m := LineageRun(mappings), mappings[first];
      && OneRowPerEdge(rows)
      && exists row :: row in rows && row.id == m.id
                       && row.pipelineId == m.pipelineId && row.sourceObjectId == m.sourceObjectId
                       && row.destinationObjectId == m.destinationObjectId
                       && StoresColumns(row.columns, LastColumns(mappings, m))
  {
    hide LastColumns, LineageRun, OneRowPerEdge;
    EdgeHasItsRow(mappings, first);
    var i :| 0 <= i < |LineageRun(mappings)|
      && LineageRun(mappings)[i] == LineageRow(mappings[first].id, mappings[first].pipelineId, mappings[first].sourceObjectId,
                                               mappings[first].destinationObjectId,
                                               Serialized(LastColumns(mappings, mappings[first])));
    assert LineageRun(mappings)[i] in LineageRun(mappings);
  }

  lemma {:induction false} EdgesStayUnique(mappings: seq<Lineage.LineageMapping>)
    ensures OneRowPerEdge(LineageRun(mappings))
  {
    if mappings != [] {
      EdgesStayUnique(mappings[..|mappings| - 1]);
      UpsertKeepsEdgesUnique(LineageRun(mappings[..|mappings| - 1]), mappings[|mappings| - 1]);
    }
  }

  ghost predicate FromMapping(row: LineageRow, mappings: seq<Lineage.LineageMapping>) {
    exists k :: 0 <= k < |mappings| && SameEdge(row, mappings[k])
  }

  lemma {:induction false} RowsComeFromMappings(mappings: seq<Lineage.LineageMapping>)
    ensures forall i :: 0 <= i < |LineageRun(mappings)| ==> FromMapping(LineageRun(mappings)[i], mappings)
  {
    if mappings != [] {
      var before := mappings[..|mappings| - 1];
      RowsComeFromMappings(before);
      forall i | 0 <= i < |LineageRun(mappings)|
        ensures FromMapping(LineageRun(mappings)[i], mappings)
      {
        if i < |LineageRun(before)| {
          var k :| 0 <= k < |before| && SameEdge(LineageRun(before)[i], before[k]);
          assert SameEdge(LineageRun(mappings)[i], mappings[k]);
        } else {
          assert SameEdge(LineageRun(mappings)[i], mappings[|mappings| - 1]);
        }
      }
    }
  }

  lemma KeptRow(rows: seq<LineageRow>, m: Lineage.LineageMapping, row: LineageRow)
    requires OneRowPerEdge(rows) && row in rows
    ensures (if SameEdge(row, m) then row.(columns := Serialized(m.columnMappings)) else row) in Upserted(rows, m)
  {
    var i :| 0 <= i < |rows| && rows[i] == row;
    var at := Find(rows, m, 0);
    var kept := if SameEdge(row, m) then row.(columns := Serialized(m.columnMappings)) else row;
    assert Upserted(rows, m)[i] == kept;
  }
}
