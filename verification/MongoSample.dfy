/** The schema of a collection, inferred from a sample (app/infrastructure/discovery/mongodb_runner.py). */
module MongoSample {
  import opened Wrappers
  import opened Schema

  /** type(value) of what the driver decodes a BSON value to. */
  datatype PyType = Str | Int | Float | Bool | Dict | List | Bytes | Other(name: string)

  function TypeName(t: PyType): string {
    match t
    case Str => "str"
    case Int => "int"
    case Float => "float"
    case Bool => "bool"
    case Dict => "dict"
    case List => "list"
    case Bytes => "bytes"
    case Other(name) => name
  }

  /** _PYTHON_TYPE_MAP.get(t, "string"). */
  function NormalizedType(t: PyType): string {
    match t
    case Str => "string"
    case Int => "integer"
    case Float => "float"
    case Bool => "boolean"
    case Dict => "json"
    case List => "json"
    case Bytes => "bytes"
    case Other(_) => "string"
  }

  /** The items of a document, each value by its type alone. */
  type Document = seq<(string, PyType)>

  /** Python's dict: the keys in the order they came in, and what they map to. */
  datatype Union = Union(keys: seq<string>, types: map<string, PyType>)

  ghost predicate ValidUnion(u: Union) {
    && (forall i, j :: 0 <= i < j < |u.keys| ==> u.keys[i] != u.keys[j])
    && (forall k :: k in u.keys <==> k in u.types)
  }

  /** One turn of the inner loop. */
  function Seen(u: Union, item: (string, PyType)): Union {
    if item.0 == "_id" then u
    else if item.0 !in u.types then Union(u.keys + [item.0], u.types[item.0 := item.1])
    else if u.types[item.0] != item.1 then u.(types := u.types[item.0 := Str])
    else u
  }

  function UnionOf(items: seq<(string, PyType)>): Union {
    if items == [] then Union([], map[]) else Seen(UnionOf(items[..|items| - 1]), items[|items| - 1])
  }

  function AllItems(docs: seq<Document>): seq<(string, PyType)> {
    if docs == [] then [] else AllItems(docs[..|docs| - 1]) + docs[|docs| - 1]
  }

  function FieldOf(name: string, t: PyType): SchemaField {
    SchemaField(name, "python:" + TypeName(t), NormalizedType(t), true, false, None)
  }

  /** What is said of a field by name: its type, or that there is none. */
  function TypeIn(u: Union, name: string): Option<PyType> {
    if name in u.types then Some(u.types[name]) else None
  }

  lemma UnionOfNext(items: seq<(string, PyType)>, item: (string, PyType))
    ensures UnionOf(items + [item]) == Seen(UnionOf(items), item)
  {
    assert (items + [item])[..|items|] == items;
  }

  lemma AllItemsOfNone()
    ensures AllItems([]) == []
  {
  }

  lemma AllItemsNext(docs: seq<Document>, d: nat)
    requires d < |docs|
    ensures AllItems(docs[..d + 1]) == AllItems(docs[..d]) + docs[d]
  {
    assert docs[..d + 1][..d] == docs[..d];
  }

  method FieldsFromSample(docs: seq<Document>) returns (fields: seq<SchemaField>)
    ensures var u := UnionOf(AllItems(docs));
            ValidUnion(u) && |fields| == |u.keys|
            && forall i :: 0 <= i < |fields| ==>
              && fields[i] == FieldOf(u.keys[i], u.types[u.keys[i]])
              && fields[i].name == u.keys[i] && fields[i].nullable && !fields[i].isPrimaryKey && fields[i].description == None
              && fields[i].sourceType == "python:" + TypeName(u.types[u.keys[i]])
              && fields[i].normalizedType == NormalizedType(u.types[u.keys[i]])
  {
    hide AllItems, TypeName, NormalizedType;
    var union := Union([], map[]);
    AllItemsOfNone();
    assert docs[..0] == [];
    for d := 0 to |docs|
      invariant union == UnionOf(AllItems(docs[..d]))
    {
      var doc := docs[d];
      ghost var before := AllItems(docs[..d]);
      assert before + doc[..0] == before;
      for i := 0 to |doc|
        invariant union == UnionOf(before + doc[..i])
      {
        var key, pyType := doc[i].0, doc[i].1;
        UnionOfNext(before + doc[..i], doc[i]);
        assert before + doc[..i + 1] == before + doc[..i] + [doc[i]];
        if key == "_id" {
          continue;
        }
        if key !in union.types {
          union := Union(union.keys + [key], union.types[key := pyType]);
        } else if union.types[key] != pyType {
          union := union.(types := union.types[key := Str]);
        }
      }
      AllItemsNext(docs, d);
      assert doc[..|doc|] == doc;
    }
    assert docs[..|docs|] == docs;
    UnionIsValid(AllItems(docs));
    fields := [];
    for i := 0 to |union.keys|
      invariant |fields| == i
      invariant forall j :: 0 <= j < i ==> fields[j] == FieldOf(union.keys[j], union.types[union.keys[j]])
    {
      assert union.keys[i] in union.keys;
      fields := fields + [FieldOf(union.keys[i], union.types[union.keys[i]])];
    }
  }

  lemma {:induction false} UnionIsValid(items: seq<(string, PyType)>)
    ensures ValidUnion(UnionOf(items))
  {
    if items != [] {
      UnionIsValid(items[..|items| - 1]);
    }
  }

  // ---------- What a field's type says about the values ----------

  /** All values of the field that occur have type t, and there is one. */
  ghost predicate AllOfType(items: seq<(string, PyType)>, name: string, t: PyType) {
    (name, t) in items && forall x :: x in items && x.0 == name ==> x.1 == t
  }

  ghost predicate Occurs(items: seq<(string, PyType)>, name: string) {
    exists x :: x in items && x.0 == name
  }

  /** A field's type is the one all its values share, and str when they share none; `_id` is no field. */
  lemma {:induction false} TypeIs(items: seq<(string, PyType)>, name: string)
    ensures name in UnionOf(items).types <==> name != "_id" && Occurs(items, name)
    ensures forall t :: name != "_id" && AllOfType(items, name, t) ==> TypeIn(UnionOf(items), name) == Some(t)
    ensures name != "_id" && Occurs(items, name) && (forall t :: !AllOfType(items, name, t))
        ==> TypeIn(UnionOf(items), name) == Some(Str)
  {
    if items != [] {
      var before := items[..|items| - 1];
      var last := items[|items| - 1];
      TypeIs(before, name);
      assert items == before + [last];
      assert last in items;
      if last.0 == name && name != "_id" {
        SharedAfter(before, last);
      } else {
        SharedByOthers(before, last, name);
      }
    }
  }

  lemma SharedAfter(before: seq<(string, PyType)>, last: (string, PyType))
    ensures forall t :: AllOfType(before + [last], last.0, t)
              <==> t == last.1 && (!Occurs(before, last.0) || AllOfType(before, last.0, t))
    ensures Occurs(before, last.0) ==> exists t :: (last.0, t) in before
  {
  }

  lemma SharedByOthers(before: seq<(string, PyType)>, last: (string, PyType), name: string)
    requires last.0 != name || name == "_id"
    ensures last.0 != name ==> (Occurs(before + [last], name) <==> Occurs(before, name))
    ensures last.0 != name ==> forall t :: AllOfType(before + [last], name, t) <==> AllOfType(before, name, t)
  {
  }

  /** The inferred types depend on nothing but which types each field's values have. */
  lemma SameObservationsSameTypes(a: seq<(string, PyType)>, b: seq<(string, PyType)>)
    requires forall x :: x in a <==> x in b
    ensures UnionOf(a).types == UnionOf(b).types
  {
    forall name
      ensures TypeIn(UnionOf(a), name) == TypeIn(UnionOf(b), name)
    {
      TypeIs(a, name);
      TypeIs(b, name);
      forall t
        ensures AllOfType(a, name, t) <==> AllOfType(b, name, t)
      {
      }
    }
    forall name
      ensures name in UnionOf(a).types <==> name in UnionOf(b).types
    {
      assert TypeIn(UnionOf(a), name) == TypeIn(UnionOf(b), name);
    }
    forall name | name in UnionOf(a).types
      ensures UnionOf(a).types[name] == UnionOf(b).types[name]
    {
      assert TypeIn(UnionOf(a), name) == TypeIn(UnionOf(b), name);
    }
  }

  lemma {:induction false} ItemOfSomeDocument(docs: seq<Document>, x: (string, PyType))
    ensures x in AllItems(docs) <==> exists d :: d in docs && x in d
  {
    if docs != [] {
      ItemOfSomeDocument(docs[..|docs| - 1], x);
      assert docs == docs[..|docs| - 1] + [docs[|docs| - 1]];
    }
  }

  /** The order the sample comes in changes the order of the fields and nothing else. */
  lemma SampleOrderDoesNotMatter(a: seq<Document>, b: seq<Document>)
    requires multiset(a) == multiset(b)
    ensures UnionOf(AllItems(a)).types == UnionOf(AllItems(b)).types
    ensures multiset(UnionOf(AllItems(a)).keys) == multiset(UnionOf(AllItems(b)).keys)
  {
    forall d
      ensures d in a <==> d in b
    {
      assert d in a <==> d in multiset(a);
      assert d in b <==> d in multiset(b);
    }
    forall x
      ensures x in AllItems(a) <==> x in AllItems(b)
    {
      ItemOfSomeDocument(a, x);
      ItemOfSomeDocument(b, x);
    }
    SameObservationsSameTypes(AllItems(a), AllItems(b));
    UnionIsValid(AllItems(a));
    UnionIsValid(AllItems(b));
    DistinctKeysAgree(UnionOf(AllItems(a)), UnionOf(AllItems(b)));
  }

  lemma DistinctKeysAgree(u: Union, v: Union)
    requires ValidUnion(u) && ValidUnion(v) && u.types == v.types
    ensures multiset(u.keys) == multiset(v.keys)
  {
    forall k
      ensures multiset(u.keys)[k] == multiset(v.keys)[k]
    {
      CountOfDistinct(u.keys, k);
      CountOfDistinct(v.keys, k);
    }
  }

  lemma {:induction false} CountOfDistinct(keys: seq<string>, k: string)
    requires forall i, j :: 0 <= i < j < |keys| ==> keys[i] != keys[j]
    ensures multiset(keys)[k] == if k in keys then 1 else 0
  {
    if keys != [] {
      CountOfDistinct(keys[..|keys| - 1], k);
      assert keys == keys[..|keys| - 1] + [keys[|keys| - 1]];
    }
  }

  /** More documents can only widen a field's type, and only to str. */
  lemma MoreDocumentsWiden(docs: seq<Document>, more: seq<Document>, name: string)
    requires TypeIn(UnionOf(AllItems(docs)), name).Some?
    ensures TypeIn(UnionOf(AllItems(docs + more)), name)
         in {TypeIn(UnionOf(AllItems(docs)), name), Some(Str)}
  {
    var few, many := AllItems(docs), AllItems(docs + more);
    TypeIs(few, name);
    TypeIs(many, name);
    forall x | x in few
      ensures x in many
    {
      ItemOfSomeDocument(docs, x);
      ItemOfSomeDocument(docs + more, x);
    }
    forall t | AllOfType(many, name, t)
      ensures AllOfType(few, name, t)
    {
    }
  }

  /** Fields come in the order in which their keys first occur. */
  lemma {:induction false} KeysAsTheyAppear(items: seq<(string, PyType)>)
    ensures forall i, j :: 0 <= i < j < |UnionOf(items).keys| ==>
      AppearsFirst(items, UnionOf(items).keys[i], UnionOf(items).keys[j])
  {
    if items != [] {
      var front, last := items[..|items| - 1], items[|items| - 1];
      KeysAsTheyAppear(front);
      UnionIsValid(front);
      var keys, before := UnionOf(items).keys, UnionOf(front).keys;
      forall i, j | 0 <= i < j < |keys|
        ensures AppearsFirst(items, keys[i], keys[j])
      {
        if j < |before| {
          assert keys[i] == before[i] && keys[j] == before[j];
          assert AppearsFirst(front, before[i], before[j]);
          var a :| 0 <= a < |front| && front[a].0 == before[i] && forall b :: 0 <= b <= a ==> front[b].0 != before[j];
          assert items[a].0 == keys[i] && forall b :: 0 <= b <= a ==> items[b] == front[b];
        } else {
          TypeIs(front, keys[i]);
          TypeIs(front, keys[j]);
          assert keys[i] in before && keys[j] !in UnionOf(front).types;
          var x :| x in front && x.0 == keys[i];
          var a :| 0 <= a < |front| && front[a] == x;
          forall b | 0 <= b <= a
            ensures items[b].0 != keys[j]
          {
            assert front[b] in front;
          }
          assert items[a].0 == keys[i];
        }
      }
    }
  }

  /** Some item has key m, and no item up to it has key n. */
  ghost predicate AppearsFirst(items: seq<(string, PyType)>, m: string, n: string) {
    exists a :: 0 <= a < |items| && items[a].0 == m && forall b :: 0 <= b <= a ==> items[b].0 != n
  }

  /** What a field is catalogued as, by the values in the sample: anything but one shared plain type is a string. */
  lemma CataloguedAs(items: seq<(string, PyType)>, name: string)
    requires name in UnionOf(items).types
    ensures var f := FieldOf(name, UnionOf(items).types[name]);
      && (AllOfType(items, name, Int) ==> f.normalizedType == "integer" && f.sourceType == "python:int")
      && (AllOfType(items, name, Float) ==> f.normalizedType == "float" && f.sourceType == "python:float")
      && (AllOfType(items, name, Bool) ==> f.normalizedType == "boolean" && f.sourceType == "python:bool")
      && (AllOfType(items, name, Bytes) ==> f.normalizedType == "bytes" && f.sourceType == "python:bytes")
      && (AllOfType(items, name, Dict) ==> f.normalizedType == "json" && f.sourceType == "python:dict")
      && (AllOfType(items, name, List) ==> f.normalizedType == "json" && f.sourceType == "python:list")
      && (forall other :: AllOfType(items, name, Other(other)) ==> f.normalizedType == "string" && f.sourceType == "python:" + other)
      && ((forall t :: t != Str ==> !AllOfType(items, name, t)) ==> f.normalizedType == "string" && f.sourceType == "python:str")
  {
    TypeIs(items, name);
    var t := UnionOf(items).types[name];
    if forall t :: t != Str ==> !AllOfType(items, name, t) {
      assert t == Str by {
        if AllOfType(items, name, Str) {
        } else {
          assert forall u :: !AllOfType(items, name, u);
        }
      }
    }
  }

  /**
   Not every column of JSON values is catalogued as JSON: one whose values are some objects and some
   arrays is a string. So is one that is null anywhere, whatever its other values are.
   */
  lemma JsonIff(items: seq<(string, PyType)>, name: string)
    requires name in UnionOf(items).types
    ensures NormalizedType(UnionOf(items).types[name]) == "json"
       <==> AllOfType(items, name, Dict) || AllOfType(items, name, List)
    ensures (name, Other("NoneType")) in items ==> NormalizedType(UnionOf(items).types[name]) == "string"
  {
    TypeIs(items, name);
    var t := UnionOf(items).types[name];
    if t != Str {
      assert AllOfType(items, name, t);
    }
  }
}
