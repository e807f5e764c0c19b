/** Schema fields, snapshots and element types (app/domain/discovery, app/domain/objects). */
module Schema {
  import opened Wrappers

  /** A uuid4 drawn from a supply that never repeats, or an identifier given from outside. */
  datatype Id = Uuid(n: nat) | Named(name: string)

  datatype SchemaField = SchemaField(
    name: string, sourceType: string, normalizedType: string, nullable: bool,
    isPrimaryKey: bool, description: Option<string>)

  datatype SchemaSnapshot = SchemaSnapshot(objectId: Id, objectName: string, fields: seq<SchemaField>)

  // ---------- Type widening ----------

  function LowerChar(c: char): char {
    if 'A' <= c <= 'Z' then c - 'A' + 'a' else c
  }

  function Lower(s: string): string {
    seq(|s|, i requires 0 <= i < |s| => LowerChar(s[i]))
  }

  function WideningOf(t: string): set<string> {
    if t == "integer" then {"bigint", "float", "decimal"}
    else if t == "bigint" then {"float", "decimal"}
    else if t == "float" then {"decimal"}
    else if t == "string" then {"string"}
    else {}
  }

  /** A field of type `now` still holds what a field of type `before` held. */
  predicate IsCompatibleWith(now: string, before: string) {
    Lower(now) == Lower(before) || Lower(now) in WideningOf(Lower(before))
  }

  /** Upper-case letters become their lower-case ones, one by one, and nothing else changes. */
  lemma LowerIs(a: string, b: string)
    ensures |a| == 1 && 'A' <= a[0] <= 'Z' ==> |Lower(a)| == 1 && 'a' <= Lower(a)[0] <= 'z' && Lower(a)[0] - 'a' == a[0] - 'A'
    ensures Lower(a + b) == Lower(a) + Lower(b)
    ensures |a| == 1 && !('A' <= a[0] <= 'Z') ==> Lower(a) == a
  {
  }

  /** Two types are compatible iff they differ in case only or the new one stands higher on the ladder of numbers. */
  lemma CompatibleIff(now: string, before: string)
    ensures IsCompatibleWith(now, before) <==>
      || Lower(now) == Lower(before)
      || (var ladder := ["integer", "bigint", "float", "decimal"];
          exists i, j :: 0 <= i < j < 4 && Lower(before) == ladder[i] && Lower(now) == ladder[j])
  {
    if IsCompatibleWith(now, before) && Lower(now) != Lower(before) {
      var i := if Lower(before) == "integer" then 0 else if Lower(before) == "bigint" then 1 else 2;
      var j := if Lower(now) == "bigint" then 1 else if Lower(now) == "float" then 2 else 3;
      var ladder := ["integer", "bigint", "float", "decimal"];
      assert ladder[i] == Lower(before) && ladder[j] == Lower(now);
    }
  }

  /** Compatibility is a preorder, which is what lets harmless changes add up. */
  lemma CompatibilityComposes(a: string, b: string, c: string)
    requires IsCompatibleWith(b, a) && IsCompatibleWith(c, b)
    ensures IsCompatibleWith(c, a)
  {
  }

  /** And it never leads back: two types compatible both ways differ in case only. */
  lemma WideningIsOneWay(a: string, b: string)
    ensures IsCompatibleWith(a, b) && IsCompatibleWith(b, a) <==> Lower(a) == Lower(b)
  {
    WideningClimbs(Lower(a), Lower(b));
    WideningClimbs(Lower(b), Lower(a));
  }

  function Rank(t: string): nat {
    if t == "integer" then 1 else if t == "bigint" then 2 else if t == "float" then 3 else if t == "decimal" then 4 else 0
  }

  lemma WideningClimbs(now: string, before: string)
    ensures now in WideningOf(before) && now != before ==> Rank(now) > Rank(before) > 0
  {
  }

  // ---------- Element types ----------

  datatype ElementType = STRING | INTEGER | BIGINT | FLOAT | DECIMAL | DATE | TIMESTAMP | BOOLEAN | BYTES | JSON

  function ElementTypeOf(s: string): Option<ElementType> {
    if s == "string" then Some(STRING)
    else if s == "integer" then Some(INTEGER)
    else if s == "bigint" then Some(BIGINT)
    else if s == "float" then Some(FLOAT)
    else if s == "decimal" then Some(DECIMAL)
    else if s == "date" then Some(DATE)
    else if s == "timestamp" then Some(TIMESTAMP)
    else if s == "boolean" then Some(BOOLEAN)
    else if s == "bytes" then Some(BYTES)
    else if s == "json" then Some(JSON)
    else None
  }

  /** What is not an element type is catalogued as a string. */
  function MappedType(normalizedType: string): ElementType {
    if ElementTypeOf(normalizedType).Some? then ElementTypeOf(normalizedType).value else STRING
  }

  /** The text of an element type. */
  function TextOf(t: ElementType): string {
    match t
    case STRING => "string"
    case INTEGER => "integer"
    case BIGINT => "bigint"
    case FLOAT => "float"
    case DECIMAL => "decimal"
    case DATE => "date"
    case TIMESTAMP => "timestamp"
    case BOOLEAN => "boolean"
    case BYTES => "bytes"
    case JSON => "json"
  }

  /** A text is catalogued as the element type it is the text of, and every other text as a string. */
  lemma MappedTypeIs(normalizedType: string, t: ElementType)
    ensures MappedType(TextOf(t)) == t
    ensures (forall u :: normalizedType != TextOf(u)) ==> MappedType(normalizedType) == STRING
    ensures ElementTypeOf(normalizedType) == Some(t) <==> normalizedType == TextOf(t)
  {
    if forall u :: normalizedType != TextOf(u) {
      assert normalizedType !in {
        TextOf(STRING), TextOf(INTEGER), TextOf(BIGINT), TextOf(FLOAT), TextOf(DECIMAL), TextOf(DATE), TextOf(TIMESTAMP),
        TextOf(BOOLEAN), TextOf(BYTES), TextOf(JSON)};
    }
  }

  // ---------- Python dictionaries of fields ----------

  /** {f.name: f for f in fields}: the last field of a name wins ... */
  function Index(fields: seq<SchemaField>): map<string, SchemaField> {
    if fields == [] then map[]
    else Index(fields[..|fields| - 1])[fields[|fields| - 1].name := fields[|fields| - 1]]
  }

  /** ... and the keys keep the order in which they first occur. */
  function Names(fields: seq<SchemaField>): (ns: seq<string>)
    ensures forall n :: n in ns <==> n in Index(fields)
  {
    if fields == [] then []
    else
      var ns := Names(fields[..|fields| - 1]);
      if fields[|fields| - 1].name in ns then ns else ns + [fields[|fields| - 1].name]
  }

  /** Without repeated names the keys are the names in the order of the fields. */
  lemma {:induction false} NamesInOrder(fields: seq<SchemaField>)
    requires DistinctFields(fields)
    ensures |Names(fields)| == |fields| && forall i :: 0 <= i < |fields| ==> Names(fields)[i] == fields[i].name
  {
    hide Index;
    if fields != [] {
      var front, last := fields[..|fields| - 1], fields[|fields| - 1];
      NamesInOrder(front);
      forall i | 0 <= i < |front|
        ensures Names(front)[i] != last.name
      {
        assert fields[i] == front[i];
      }
    }
  }

  ghost predicate Distinct(ns: seq<string>) {
    forall i, j :: 0 <= i < j < |ns| ==> ns[i] != ns[j]
  }

  lemma {:induction false} NamesAreDistinct(fields: seq<SchemaField>)
    ensures Distinct(Names(fields))
  {
    if fields != [] {
      NamesAreDistinct(fields[..|fields| - 1]);
    }
  }

  lemma {:induction false} IndexEntries(fields: seq<SchemaField>)
    ensures forall n :: n in Index(fields) ==> Index(fields)[n].name == n && Index(fields)[n] in fields
    ensures forall f :: f in fields ==> f.name in Index(fields)
  {
    if fields != [] {
      var front, last := fields[..|fields| - 1], fields[|fields| - 1];
      IndexEntries(front);
      assert fields == front + [last];
    }
  }

  ghost predicate DistinctFields(fields: seq<SchemaField>) {
    forall i, j :: 0 <= i < j < |fields| ==> fields[i].name != fields[j].name
  }

  lemma IndexOfDistinct(fields: seq<SchemaField>)
    requires DistinctFields(fields)
    ensures forall f :: f in fields ==> f.name in Index(fields) && Index(fields)[f.name] == f
  {
    if fields != [] {
      var front, last := fields[..|fields| - 1], fields[|fields| - 1];
      IndexOfDistinct(front);
      assert fields == front + [last];
    }
  }

  /** What drift detection sees of a snapshot: the type and nullability of each name. */
  datatype Column = Column(type_: string, nullable: bool)

  function Shape(fields: seq<SchemaField>): map<string, Column> {
    map n | n in Index(fields) :: Column(Index(fields)[n].normalizedType, Index(fields)[n].nullable)
  }
}
