/**
 Column lineage (app/domain/lineage/lineage_graph.py): a mutable graph that keeps
 its edges twice, forwards and backwards, and is searched depth first.
 */
module Lineage {
  import opened Wrappers

  type Links = map<string, set<string>>

  datatype LineageNode = LineageNode(objectId: string, columnName: string, transformation: Option<string>) {
    function Key(): string {
      KeyOf(objectId, columnName)
    }
  }

  function KeyOf(objectId: string, columnName: string): string {
    objectId + "." + columnName
  }

  datatype ElementLineage = ElementLineage(
    sourceColumn: string, destinationColumn: string, transformationExpression: Option<string>)

  datatype LineageMapping = LineageMapping(
    id: string, pipelineId: string, sourceObjectId: string, destinationObjectId: string,
    columnMappings: seq<ElementLineage>)

  // ---------- The graph as a value ----------

  datatype Graph = Graph(nodes: map<string, LineageNode>, adjacency: Links, incoming: Links)

  const EMPTY_GRAPH := Graph(map[], map[], map[])

  predicate SameKeys(g: Graph) {
    g.adjacency.Keys == g.nodes.Keys && g.incoming.Keys == g.nodes.Keys
  }

  function WithNode(g: Graph, n: LineageNode): (h: Graph)
    requires SameKeys(g)
    ensures SameKeys(h) && h.nodes.Keys == g.nodes.Keys + {n.Key()}
  {
    if n.Key() in g.nodes then g
    else Graph(g.nodes[n.Key() := n], g.adjacency[n.Key() := {}], g.incoming[n.Key() := {}])
  }

  function AddTo(links: Links, from: string, to: string): Links
    requires from in links
  {
    links[from := links[from] + {to}]
  }

  function WithEdge(g: Graph, e: (LineageNode, LineageNode)): (h: Graph)
    requires SameKeys(g)
    ensures SameKeys(h) && h.nodes.Keys == g.nodes.Keys + {e.0.Key(), e.1.Key()}
  {
    var h := WithNode(WithNode(g, e.0), e.1);
    Graph(h.nodes, AddTo(h.adjacency, e.0.Key(), e.1.Key()), AddTo(h.incoming, e.1.Key(), e.0.Key()))
  }

  /** The graph after adding the edges of a list, first to last. */
  function Linked(g: Graph, edges: seq<(LineageNode, LineageNode)>): (h: Graph)
    requires SameKeys(g)
    ensures SameKeys(h)
  {
    if edges == [] then g else WithEdge(Linked(g, edges[..|edges| - 1]), edges[|edges| - 1])
  }

  /** The edge one column mapping stands for. */
  function EdgeOf(m: LineageMapping, c: ElementLineage): (LineageNode, LineageNode) {
    (LineageNode(m.sourceObjectId, c.sourceColumn, None),
     LineageNode(m.destinationObjectId, c.destinationColumn, c.transformationExpression))
  }

  function EdgesOfMapping(m: LineageMapping, count: nat): seq<(LineageNode, LineageNode)>
    requires count <= |m.columnMappings|
  {
    if count == 0 then [] else EdgesOfMapping(m, count - 1) + [EdgeOf(m, m.columnMappings[count - 1])]
  }

  function EdgesOf(mappings: seq<LineageMapping>): seq<(LineageNode, LineageNode)> {
    if mappings == [] then []
    else
      var last := mappings[|mappings| - 1];
      EdgesOf(mappings[..|mappings| - 1]) + EdgesOfMapping(last, |last.columnMappings|)
  }

  predicate HasLink(links: Links, a: string, b: string) {
    a in links && b in links[a]
  }

  /** The two link maps are transposes of each other. */
  ghost predicate Transposed(l: Links, m: Links) {
    forall a, b :: HasLink(l, a, b) <==> HasLink(m, b, a)
  }

  ghost predicate KeyedByKey(nodes: map<string, LineageNode>) {
    forall k :: k in nodes ==> nodes[k].Key() == k
  }

  lemma {:induction false} LinkedConcat(g: Graph, front: seq<(LineageNode, LineageNode)>, back: seq<(LineageNode, LineageNode)>)
    requires SameKeys(g)
    ensures Linked(g, front + back) == Linked(Linked(g, front), back)
    decreases |back|
  {
    hide WithEdge, WithNode;
    if back == [] {
      assert front + back == front;
    } else {
      var init, e := back[..|back| - 1], back[|back| - 1];
      LinkedConcat(g, front, init);
      assert (front + init) + [e] == front + back by {
        assert back == init + [e];
      }
      LinkedSnoc(g, front + init, e);
    }
  }

  lemma EdgesOfSnoc(mappings: seq<LineageMapping>, i: nat)
    requires i < |mappings|
    ensures EdgesOf(mappings[..i + 1]) == EdgesOf(mappings[..i]) + EdgesOfMapping(mappings[i], |mappings[i].columnMappings|)
  {
    assert mappings[..i + 1][..i] == mappings[..i];
  }

  /** Same keys everywhere, every edge ends at a node, and the two link maps are transposes. */
  ghost predicate WellFormed(g: Graph) {
    && SameKeys(g)
    && KeyedByKey(g.nodes)
    && Transposed(g.adjacency, g.incoming)
  }

  lemma WithNodeWellFormed(g: Graph, n: LineageNode)
    requires WellFormed(g)
    ensures WellFormed(WithNode(g, n))
  {
    var k := n.Key();
    if k !in g.nodes {
      var h := WithNode(g, n);
      FreshLinks(g.adjacency, k);
      FreshLinks(g.incoming, k);
      forall a, b
        ensures HasLink(h.adjacency, a, b) <==> HasLink(h.incoming, b, a)
      {
        assert HasLink(g.adjacency, a, b) <==> HasLink(g.incoming, b, a);
      }
    }
  }

  /** A new key without links adds no link. */
  lemma FreshLinks(l: Links, k: string)
    requires k !in l
    ensures forall a, b :: HasLink(l[k := {}], a, b) <==> HasLink(l, a, b)
  {
  }

  lemma AddToLinks(l: Links, from: string, to: string)
    requires from in l
    ensures forall a, b :: HasLink(AddTo(l, from, to), a, b) <==> HasLink(l, a, b) || (a == from && b == to)
    ensures AddTo(l, from, to).Keys == l.Keys
  {
  }

  lemma WithEdgeWellFormed(g: Graph, e: (LineageNode, LineageNode))
    requires WellFormed(g)
    ensures WellFormed(WithEdge(g, e))
    ensures forall a, b :: HasLink(WithEdge(g, e).adjacency, a, b)
                      <==> HasLink(g.adjacency, a, b) || (a == e.0.Key() && b == e.1.Key())
  {
    var g1 := WithNode(g, e.0);
    WithNodeWellFormed(g, e.0);
    var h := WithNode(g1, e.1);
    WithNodeWellFormed(g1, e.1);
    WithNodeLinks(g, e.0);
    WithNodeLinks(g1, e.1);
    AddToLinks(h.adjacency, e.0.Key(), e.1.Key());
    AddToLinks(h.incoming, e.1.Key(), e.0.Key());
  }

  lemma WithNodeLinks(g: Graph, n: LineageNode)
    requires WellFormed(g)
    ensures forall a, b :: HasLink(WithNode(g, n).adjacency, a, b) <==> HasLink(g.adjacency, a, b)
  {
    if n.Key() !in g.nodes {
      FreshLinks(g.adjacency, n.Key());
    }
  }

  lemma LinkedSnoc(g: Graph, edges: seq<(LineageNode, LineageNode)>, e: (LineageNode, LineageNode))
    requires SameKeys(g)
    ensures Linked(g, edges + [e]) == WithEdge(Linked(g, edges), e)
  {
    assert (edges + [e])[..|edges|] == edges;
  }

  // ---------- What a graph built from mappings contains ----------

  ghost predicate Connects(edges: seq<(LineageNode, LineageNode)>, a: string, b: string) {
    exists e :: e in edges && e.0.Key() == a && e.1.Key() == b
  }

  /** The nodes in the order the edges mention them: source, target, source, target. */
  function Mentions(edges: seq<(LineageNode, LineageNode)>): seq<LineageNode> {
    if edges == [] then [] else Mentions(edges[..|edges| - 1]) + [edges[|edges| - 1].0, edges[|edges| - 1].1]
  }

  /** n is the first mention of its key. */
  ghost predicate FirstMention(ns: seq<LineageNode>, k: string, n: LineageNode) {
    exists i :: 0 <= i < |ns| && ns[i] == n && n.Key() == k && forall j :: 0 <= j < i ==> ns[j].Key() != k
  }

  lemma FirstMentionExtends(ns: seq<LineageNode>, more: seq<LineageNode>, k: string, n: LineageNode)
    requires FirstMention(ns, k, n)
    ensures FirstMention(ns + more, k, n)
  {
    var i :| 0 <= i < |ns| && ns[i] == n && n.Key() == k && forall j :: 0 <= j < i ==> ns[j].Key() != k;
    assert (ns + more)[i] == n;
  }

  lemma MentionsKeys(edges: seq<(LineageNode, LineageNode)>, k: string)
    ensures IsEndpoint(edges, k) <==> exists n :: n in Mentions(edges) && n.Key() == k
  {
    if edges != [] {
      var last := edges[|edges| - 1];
      var ms := Mentions(edges[..|edges| - 1]);
      MentionsKeys(edges[..|edges| - 1], k);
      EndpointsGrow(edges, k);
      assert Mentions(edges) == ms + [last.0, last.1];
      assert last.0 in Mentions(edges) && last.1 in Mentions(edges);
    }
  }

  /**
   A graph built from the empty one has exactly the endpoints of the edges as nodes,
   exactly the given edges, and keeps for each key the node object seen first.
   */
  lemma {:induction false} LinkedIsExact(edges: seq<(LineageNode, LineageNode)>)
    ensures var g := Linked(EMPTY_GRAPH, edges);
      && WellFormed(g)
      && (forall k :: k in g.nodes <==> IsEndpoint(edges, k))
      && (forall a, b :: HasLink(g.adjacency, a, b) <==> Connects(edges, a, b))
      && (forall k :: k in g.nodes ==> FirstMention(Mentions(edges), k, g.nodes[k]))
  {
    hide WithEdge, Connects, IsEndpoint, FirstMention;
    if edges == [] {
      NothingMentioned();
    } else {
      var front, last := edges[..|edges| - 1], edges[|edges| - 1];
      LinkedIsExact(front);
      var g := Linked(EMPTY_GRAPH, front);
      var h := Linked(EMPTY_GRAPH, edges);
      WithEdgeWellFormed(g, last);
      assert h == WithEdge(g, last);
      forall k
        ensures k in h.nodes <==> IsEndpoint(edges, k)
      {
        EndpointsGrow(edges, k);
      }
      forall a, b
        ensures HasLink(h.adjacency, a, b) <==> Connects(edges, a, b)
      {
        ConnectsGrows(edges, a, b);
      }
      forall k | k in h.nodes
        ensures FirstMention(Mentions(edges), k, h.nodes[k])
      {
        LinkedNodeIsFirst(edges, g, k);
      }
    }
  }

  lemma NothingMentioned()
    ensures forall k :: !IsEndpoint([], k)
    ensures forall a, b :: !Connects([], a, b)
  {
  }

  ghost predicate IsEndpoint(edges: seq<(LineageNode, LineageNode)>, k: string) {
    exists e :: e in edges && (e.0.Key() == k || e.1.Key() == k)
  }

  lemma EndpointsGrow(edges: seq<(LineageNode, LineageNode)>, k: string)
    requires edges != []
    ensures var last := edges[|edges| - 1];
      IsEndpoint(edges, k) <==> IsEndpoint(edges[..|edges| - 1], k) || last.0.Key() == k || last.1.Key() == k
  {
    var last := edges[|edges| - 1];
    assert edges == edges[..|edges| - 1] + [last];
    assert last in edges;
  }

  lemma ConnectsGrows(edges: seq<(LineageNode, LineageNode)>, a: string, b: string)
    requires edges != []
    ensures var last := edges[|edges| - 1];
      Connects(edges, a, b) <==> Connects(edges[..|edges| - 1], a, b) || (last.0.Key() == a && last.1.Key() == b)
  {
    var last := edges[|edges| - 1];
    assert edges == edges[..|edges| - 1] + [last];
    assert last in edges;
  }

  /** A node once in the graph is never replaced. */
  lemma WithEdgeNodes(g: Graph, e: (LineageNode, LineageNode), k: string)
    requires WellFormed(g) && k in WithEdge(g, e).nodes
    ensures WithEdge(g, e).nodes[k] ==
      if k in g.nodes then g.nodes[k] else if e.0.Key() == k then e.0 else e.1
    ensures k in g.nodes || e.0.Key() == k || e.1.Key() == k
  {
  }

  lemma FirstMentionAtEnd(ns: seq<LineageNode>, a: LineageNode, b: LineageNode, k: string)
    requires forall n :: n in ns ==> n.Key() != k
    requires a.Key() == k || b.Key() == k
    ensures FirstMention(ns + [a, b], k, if a.Key() == k then a else b)
  {
    var all := ns + [a, b];
    var i := if a.Key() == k then |ns| else |ns| + 1;
    assert all[i].Key() == k;
    assert forall j :: 0 <= j < |ns| ==> all[j] == ns[j] && ns[j] in ns;
  }

  lemma LinkedNodeIsFirst(edges: seq<(LineageNode, LineageNode)>, g: Graph, k: string)
    requires edges != [] && WellFormed(g)
    requires k in WithEdge(g, edges[|edges| - 1]).nodes
    requires k in g.nodes <==> IsEndpoint(edges[..|edges| - 1], k)
    requires k in g.nodes ==> FirstMention(Mentions(edges[..|edges| - 1]), k, g.nodes[k])
    ensures FirstMention(Mentions(edges), k, WithEdge(g, edges[|edges| - 1]).nodes[k])
  {
    var front, last := edges[..|edges| - 1], edges[|edges| - 1];
    WithEdgeNodes(g, last, k);
    MentionsKeys(front, k);
    if k in g.nodes {
      FirstMentionExtends(Mentions(front), [last.0, last.1], k, g.nodes[k]);
    } else {
      FirstMentionAtEnd(Mentions(front), last.0, last.1, k);
    }
  }

  // ---------- What the graph says about the mappings ----------

  /** Some column mapping of the list leads from column a to column b. */
  ghost predicate Feeds(mappings: seq<LineageMapping>, a: string, b: string) {
    exists m, c :: m in mappings && c in m.columnMappings
      && a == m.sourceObjectId + "." + c.sourceColumn && b == m.destinationObjectId + "." + c.destinationColumn
  }

  /** The column mappings, in order, each with the mapping it belongs to. */
  function Columns(mappings: seq<LineageMapping>): seq<(LineageMapping, ElementLineage)> {
    if mappings == [] then []
    else
      var last := mappings[|mappings| - 1];
      Columns(mappings[..|mappings| - 1]) + ColumnsOf(last, |last.columnMappings|)
  }

  function ColumnsOf(m: LineageMapping, count: nat): seq<(LineageMapping, ElementLineage)>
    requires count <= |m.columnMappings|
  {
    if count == 0 then [] else ColumnsOf(m, count - 1) + [(m, m.columnMappings[count - 1])]
  }

  /** The t-th column mapping is the first to name k: as its source, or else as its destination, with the expression. */
  ghost predicate FirstNames(cols: seq<(LineageMapping, ElementLineage)>, t: nat, k: string, n: LineageNode) {
    && t < |cols|
    && var (m, c) := cols[t];
      && (if k == m.sourceObjectId + "." + c.sourceColumn then n == LineageNode(m.sourceObjectId, c.sourceColumn, None)
          else && k == m.destinationObjectId + "." + c.destinationColumn
               && n == LineageNode(m.destinationObjectId, c.destinationColumn, c.transformationExpression))
      && forall u :: 0 <= u < t ==> !Names(cols[u], k)
  }

  ghost predicate FirstNamed(cols: seq<(LineageMapping, ElementLineage)>, k: string, n: LineageNode) {
    exists t: nat :: FirstNames(cols, t, k, n)
  }

  /** k is an end of some column mapping. */
  ghost predicate IsEnd(mappings: seq<LineageMapping>, k: string) {
    exists a :: Feeds(mappings, k, a) || Feeds(mappings, a, k)
  }

  predicate Names(col: (LineageMapping, ElementLineage), k: string) {
    || k == col.0.sourceObjectId + "." + col.1.sourceColumn
    || k == col.0.destinationObjectId + "." + col.1.destinationColumn
  }

  /** h is g with exactly the links and nodes of the column mappings added; old nodes stay, new ones are as first named. */
  ghost predicate Extends(g: Graph, mappings: seq<LineageMapping>, h: Graph) {
    && WellFormed(h)
    && (forall a, b :: HasLink(h.adjacency, a, b) <==> HasLink(g.adjacency, a, b) || Feeds(mappings, a, b))
    && (forall k :: k in h.nodes <==> k in g.nodes || IsEnd(mappings, k))
    && (forall k :: k in g.nodes ==> h.nodes[k] == g.nodes[k])
    && (forall k :: k in h.nodes && k !in g.nodes ==> FirstNamed(Columns(mappings), k, h.nodes[k]))
  }

  ghost predicate Joined(g: Graph, cols: seq<(LineageMapping, ElementLineage)>, h: Graph) {
    WellFormed(h) && JoinedLinks(g, cols, h) && JoinedNodes(g, cols, h)
  }

  ghost predicate JoinedLinks(g: Graph, cols: seq<(LineageMapping, ElementLineage)>, h: Graph) {
    forall a, b :: HasLink(h.adjacency, a, b) <==> HasLink(g.adjacency, a, b) || SomeJoins(cols, a, b)
  }

  ghost predicate JoinedNodes(g: Graph, cols: seq<(LineageMapping, ElementLineage)>, h: Graph) {
    forall k :: NodeJoined(g, cols, h, k)
  }

  ghost predicate NodeJoined(g: Graph, cols: seq<(LineageMapping, ElementLineage)>, h: Graph, k: string) {
    && (k in h.nodes <==> k in g.nodes || SomeNames(cols, k))
    && (k in g.nodes ==> h.nodes[k] == g.nodes[k])
    && (k in h.nodes && k !in g.nodes ==> FirstNamed(cols, k, h.nodes[k]))
  }

  ghost predicate SomeJoins(cols: seq<(LineageMapping, ElementLineage)>, a: string, b: string) {
    exists t: nat :: Joins(cols, t, a, b)
  }

  ghost predicate SomeNames(cols: seq<(LineageMapping, ElementLineage)>, k: string) {
    exists t: nat :: t < |cols| && Names(cols[t], k)
  }

  ghost predicate Joins(cols: seq<(LineageMapping, ElementLineage)>, t: nat, a: string, b: string) {
    && t < |cols|
    && a == cols[t].0.sourceObjectId + "." + cols[t].1.sourceColumn
    && b == cols[t].0.destinationObjectId + "." + cols[t].1.destinationColumn
  }

  function EdgesFor(cols: seq<(LineageMapping, ElementLineage)>): (r: seq<(LineageNode, LineageNode)>)
    ensures |r| == |cols|
  {
    if cols == [] then [] else EdgesFor(cols[..|cols| - 1]) + [EdgeOf(cols[|cols| - 1].0, cols[|cols| - 1].1)]
  }

  lemma {:induction false} EdgesForConcat(a: seq<(LineageMapping, ElementLineage)>, b: seq<(LineageMapping, ElementLineage)>)
    ensures EdgesFor(a + b) == EdgesFor(a) + EdgesFor(b)
    decreases |b|
  {
    if b == [] {
      assert a + b == a;
    } else {
      EdgesForConcat(a, b[..|b| - 1]);
      assert (a + b)[..|a + b| - 1] == a + b[..|b| - 1];
    }
  }

  lemma {:induction false} EdgesForMapping(m: LineageMapping, count: nat)
    requires count <= |m.columnMappings|
    ensures EdgesFor(ColumnsOf(m, count)) == EdgesOfMapping(m, count)
    ensures forall x :: x in ColumnsOf(m, count) <==> x.0 == m && exists j :: 0 <= j < count && m.columnMappings[j] == x.1
  {
    if count > 0 {
      EdgesForMapping(m, count - 1);
      EdgesForConcat(ColumnsOf(m, count - 1), [(m, m.columnMappings[count - 1])]);
      assert EdgesFor([(m, m.columnMappings[count - 1])]) == [EdgeOf(m, m.columnMappings[count - 1])];
    }
  }

  lemma {:induction false} EdgesForMappings(mappings: seq<LineageMapping>)
    ensures EdgesFor(Columns(mappings)) == EdgesOf(mappings)
    ensures forall x :: x in Columns(mappings) <==> x.0 in mappings && x.1 in x.0.columnMappings
  {
    if mappings != [] {
      var front, last := mappings[..|mappings| - 1], mappings[|mappings| - 1];
      assert mappings == front + [last];
      EdgesForMappings(front);
      EdgesForMapping(last, |last.columnMappings|);
      EdgesForConcat(Columns(front), ColumnsOf(last, |last.columnMappings|));
    }
  }

  lemma {:induction false} LinkedJoins(g: Graph, cols: seq<(LineageMapping, ElementLineage)>)
    requires WellFormed(g)
    ensures Joined(g, cols, Linked(g, EdgesFor(cols)))
  {
    if cols != [] {
      LinkedJoins(g, cols[..|cols| - 1]);
      JoinOneMore(g, cols, Linked(g, EdgesFor(cols[..|cols| - 1])));
      LinkedSnoc(g, EdgesFor(cols[..|cols| - 1]), EdgeOf(cols[|cols| - 1].0, cols[|cols| - 1].1));
    }
  }

  lemma JoinOneMore(g: Graph, cols: seq<(LineageMapping, ElementLineage)>, h: Graph)
    requires cols != [] && Joined(g, cols[..|cols| - 1], h)
    ensures Joined(g, cols, WithEdge(h, EdgeOf(cols[|cols| - 1].0, cols[|cols| - 1].1)))
  {
    assert SameKeys(h);
    hide WithEdge, WellFormed, JoinedLinks, JoinedNodes, EdgeOf;
    var edge := EdgeOf(cols[|cols| - 1].0, cols[|cols| - 1].1);
    WithEdgeWellFormed(h, edge);
    LinksOneMore(g, cols, h);
    NodesOneMore(g, cols, h);
  }

  lemma LinksOneMore(g: Graph, cols: seq<(LineageMapping, ElementLineage)>, h: Graph)
    requires cols != [] && WellFormed(h)
    requires JoinedLinks(g, cols[..|cols| - 1], h)
    ensures JoinedLinks(g, cols, WithEdge(h, EdgeOf(cols[|cols| - 1].0, cols[|cols| - 1].1)))
  {
    assert SameKeys(h);
    hide WithEdge, WellFormed, SomeJoins, HasLink, EdgeOf;
    var edge := EdgeOf(cols[|cols| - 1].0, cols[|cols| - 1].1);
    var h' := WithEdge(h, edge);
    WithEdgeWellFormed(h, edge);
    forall a, b
      ensures HasLink(h'.adjacency, a, b) <==> HasLink(g.adjacency, a, b) || SomeJoins(cols, a, b)
    {
      JoinsGrows(cols, a, b);
    }
  }

  lemma NodesOneMore(g: Graph, cols: seq<(LineageMapping, ElementLineage)>, h: Graph)
    requires cols != [] && WellFormed(h)
    requires JoinedNodes(g, cols[..|cols| - 1], h)
    ensures JoinedNodes(g, cols, WithEdge(h, EdgeOf(cols[|cols| - 1].0, cols[|cols| - 1].1)))
  {
    assert SameKeys(h);
    hide WithEdge, WellFormed, SomeNames, FirstNamed, EdgeOf, NodeJoined;
    var h' := WithEdge(h, EdgeOf(cols[|cols| - 1].0, cols[|cols| - 1].1));
    forall k
      ensures NodeJoined(g, cols, h', k)
    {
      OneNodeMore(g, cols, h, k);
    }
  }

  lemma OneNodeMore(g: Graph, cols: seq<(LineageMapping, ElementLineage)>, h: Graph, k: string)
    requires cols != [] && WellFormed(h)
    requires JoinedNodes(g, cols[..|cols| - 1], h)
    ensures NodeJoined(g, cols, WithEdge(h, EdgeOf(cols[|cols| - 1].0, cols[|cols| - 1].1)), k)
  {
    assert SameKeys(h);
    hide WithEdge, WellFormed, SomeNames, FirstNamed, EdgeOf;
    assert NodeJoined(g, cols[..|cols| - 1], h, k);
    NamesGrows(cols, k);
    NodeOneMore(cols, h, k);
  }

  lemma JoinsGrows(cols: seq<(LineageMapping, ElementLineage)>, a: string, b: string)
    requires cols != []
    ensures var edge := EdgeOf(cols[|cols| - 1].0, cols[|cols| - 1].1);
      SomeJoins(cols, a, b) <==> SomeJoins(cols[..|cols| - 1], a, b) || (a == edge.0.Key() && b == edge.1.Key())
  {
    var front, last := cols[..|cols| - 1], |cols| - 1;
    assert Joins(cols, last, a, b) <==> a == EdgeOf(cols[last].0, cols[last].1).0.Key() && b == EdgeOf(cols[last].0, cols[last].1).1.Key();
    forall t: nat | t < last
      ensures Joins(cols, t, a, b) <==> Joins(front, t, a, b)
    {
    }
  }

  lemma NamesGrows(cols: seq<(LineageMapping, ElementLineage)>, k: string)
    requires cols != []
    ensures SomeNames(cols, k) <==> SomeNames(cols[..|cols| - 1], k) || Names(cols[|cols| - 1], k)
    ensures Names(cols[|cols| - 1], k) <==>
      var edge := EdgeOf(cols[|cols| - 1].0, cols[|cols| - 1].1);
      edge.0.Key() == k || edge.1.Key() == k
  {
    assert cols == cols[..|cols| - 1] + [cols[|cols| - 1]];
  }

  /** The node object of k after one more edge is the first named, if k is a new key. */
  lemma NodeOneMore(cols: seq<(LineageMapping, ElementLineage)>, h: Graph, k: string)
    requires cols != [] && WellFormed(h)
    ensures var edge := EdgeOf(cols[|cols| - 1].0, cols[|cols| - 1].1);
      var h' := WithEdge(h, edge);
      && (k in h'.nodes <==> k in h.nodes || edge.0.Key() == k || edge.1.Key() == k)
      && (k in h.nodes ==> h'.nodes[k] == h.nodes[k])
      && (k in h.nodes && FirstNamed(cols[..|cols| - 1], k, h.nodes[k]) ==> FirstNamed(cols, k, h'.nodes[k]))
      && (k in h'.nodes && k !in h.nodes && !SomeNames(cols[..|cols| - 1], k) ==> FirstNamed(cols, k, h'.nodes[k]))
  {
    hide Transposed, HasLink, SomeNames;
    var edge := EdgeOf(cols[|cols| - 1].0, cols[|cols| - 1].1);
    if k in WithEdge(h, edge).nodes {
      WithEdgeNodes(h, edge, k);
      FirstNamedGrows(cols, k);
    }
  }

  lemma FirstNamedGrows(cols: seq<(LineageMapping, ElementLineage)>, k: string)
    requires cols != []
    ensures forall n :: FirstNamed(cols[..|cols| - 1], k, n) ==> FirstNamed(cols, k, n)
    ensures var edge := EdgeOf(cols[|cols| - 1].0, cols[|cols| - 1].1);
      !SomeNames(cols[..|cols| - 1], k) && (edge.0.Key() == k || edge.1.Key() == k) ==>
        FirstNamed(cols, k, if edge.0.Key() == k then edge.0 else edge.1)
  {
    var front, last := cols[..|cols| - 1], |cols| - 1;
    var edge := EdgeOf(cols[last].0, cols[last].1);
    forall n | FirstNamed(front, k, n)
      ensures FirstNamed(cols, k, n)
    {
      var t: nat :| FirstNames(front, t, k, n);
      assert FirstNames(cols, t, k, n);
    }
    if !SomeNames(front, k) && (edge.0.Key() == k || edge.1.Key() == k) {
      forall u: nat | u < last
        ensures !Names(cols[u], k)
      {
        assert !Names(front[u], k);
      }
      assert FirstNames(cols, last, k, if edge.0.Key() == k then edge.0 else edge.1);
    }
  }

  /** Building from mappings adds exactly what the column mappings say, source to destination. */
  lemma BuiltIsExact(g: Graph, mappings: seq<LineageMapping>)
    requires WellFormed(g)
    ensures Extends(g, mappings, Linked(g, EdgesOf(mappings)))
  {
    EdgesForMappings(mappings);
    LinkedJoins(g, Columns(mappings));
    JoinedExtends(g, mappings, Linked(g, EdgesOf(mappings)));
  }

  lemma JoinedExtends(g: Graph, mappings: seq<LineageMapping>, h: Graph)
    requires WellFormed(g) && Joined(g, Columns(mappings), h)
    ensures Extends(g, mappings, h)
  {
    hide Columns, SomeJoins, SomeNames, FirstNamed, Feeds, IsEnd, HasLink;
    var cols := Columns(mappings);
    forall a, b
      ensures HasLink(h.adjacency, a, b) <==> HasLink(g.adjacency, a, b) || Feeds(mappings, a, b)
    {
      FeedsIff(mappings, a, b);
    }
    forall k
      ensures k in h.nodes <==> k in g.nodes || IsEnd(mappings, k)
      ensures k in g.nodes ==> h.nodes[k] == g.nodes[k]
      ensures k in h.nodes && k !in g.nodes ==> FirstNamed(cols, k, h.nodes[k])
    {
      assert NodeJoined(g, cols, h, k);
      NamedIff(mappings, k);
    }
  }

  lemma FeedsIff(mappings: seq<LineageMapping>, a: string, b: string)
    ensures Feeds(mappings, a, b) <==> SomeJoins(Columns(mappings), a, b)
  {
    hide Columns;
    var cols := Columns(mappings);
    EdgesForMappings(mappings);
    if Feeds(mappings, a, b) {
      var m, c :| m in mappings && c in m.columnMappings
        && a == m.sourceObjectId + "." + c.sourceColumn && b == m.destinationObjectId + "." + c.destinationColumn;
      assert (m, c) in cols;
      var t :| 0 <= t < |cols| && cols[t] == (m, c);
      assert Joins(cols, t, a, b);
    }
    if t: nat :| Joins(cols, t, a, b) {
      assert cols[t] in cols && cols[t].0 in mappings && cols[t].1 in cols[t].0.columnMappings;
    }
  }

  lemma NamedIff(mappings: seq<LineageMapping>, k: string)
    ensures IsEnd(mappings, k) <==> SomeNames(Columns(mappings), k)
  {
    hide Columns, Feeds;
    var cols := Columns(mappings);
    if a :| Feeds(mappings, k, a) || Feeds(mappings, a, k) {
      FeedsIff(mappings, k, a);
      FeedsIff(mappings, a, k);
      var t: nat :| Joins(cols, t, k, a) || Joins(cols, t, a, k);
      assert Names(cols[t], k);
    }
    if t: nat :| t < |cols| && Names(cols[t], k) {
      var from := cols[t].0.sourceObjectId + "." + cols[t].1.sourceColumn;
      var to := cols[t].0.destinationObjectId + "." + cols[t].1.destinationColumn;
      assert Joins(cols, t, from, to);
      FeedsIff(mappings, from, to);
    }
  }

  // ---------- Reachability ----------

  ghost predicate IsPath(links: Links, p: seq<string>, a: string, b: string) {
    && |p| > 0 && p[0] == a && p[|p| - 1] == b
    && forall i :: 0 <= i < |p| - 1 ==> HasLink(links, p[i], p[i + 1])
  }

  ghost predicate Reaches(links: Links, a: string, b: string) {
    exists p :: IsPath(links, p, a, b)
  }

  lemma ReachesItself(links: Links, a: string)
    ensures Reaches(links, a, a)
  {
    assert IsPath(links, [a], a, a);
  }

  lemma ReachesNext(links: Links, a: string, b: string, c: string)
    requires Reaches(links, a, b) && HasLink(links, b, c)
    ensures Reaches(links, a, c)
  {
    var p :| IsPath(links, p, a, b);
    assert IsPath(links, p + [c], a, c);
  }

  /** A set that holds the start and is closed under the links holds all that is reachable. */
  lemma ClosedHoldsReachable(links: Links, a: string, closed: set<string>, b: string)
    requires a in closed
    requires forall k, m :: k in closed && HasLink(links, k, m) ==> m in closed
    requires Reaches(links, a, b)
    ensures b in closed
  {
    var p :| IsPath(links, p, a, b);
    PathStaysIn(links, a, closed, b, p);
  }

  lemma PathStaysIn(links: Links, a: string, closed: set<string>, b: string, p: seq<string>)
    requires a in closed
    requires forall k, m :: k in closed && HasLink(links, k, m) ==> m in closed
    requires IsPath(links, p, a, b)
    ensures b in closed
    decreases |p|
  {
    if |p| > 1 {
      PathStaysIn(links, a, closed, p[|p| - 2], p[..|p| - 1]);
    }
  }

  function Reversed(p: seq<string>): (r: seq<string>)
    ensures |r| == |p| && forall i :: 0 <= i < |p| ==> r[i] == p[|p| - 1 - i]
  {
    seq(|p|, i requires 0 <= i < |p| => p[|p| - 1 - i])
  }

  lemma ReachesBackwards(g: Graph, a: string, b: string)
    requires WellFormed(g) && a in g.nodes && b in g.nodes
    ensures Reaches(g.adjacency, a, b) <==> Reaches(g.incoming, b, a)
  {
    if Reaches(g.adjacency, a, b) {
      var p :| IsPath(g.adjacency, p, a, b);
      var r := Reversed(p);
      forall i | 0 <= i < |r| - 1
        ensures HasLink(g.incoming, r[i], r[i + 1])
      {
        var j := |p| - 2 - i;
        assert HasLink(g.adjacency, p[j], p[j + 1]);
      }
      assert IsPath(g.incoming, r, b, a);
    }
    if Reaches(g.incoming, b, a) {
      var p :| IsPath(g.incoming, p, b, a);
      var r := Reversed(p);
      forall i | 0 <= i < |r| - 1
        ensures HasLink(g.adjacency, r[i], r[i + 1])
      {
        var j := |p| - 2 - i;
        assert HasLink(g.incoming, p[j], p[j + 1]);
      }
      assert IsPath(g.adjacency, r, a, b);
    }
  }

  /** p leads from a to b, each step by some column mapping. */
  ghost predicate IsChain(mappings: seq<LineageMapping>, p: seq<string>, a: string, b: string) {
    && |p| > 0 && p[0] == a && p[|p| - 1] == b
    && forall i :: 0 <= i < |p| - 1 ==> Feeds(mappings, p[i], p[i + 1])
  }

  /** In a graph built from mappings alone, reaching means a chain of column mappings, in either direction. */
  lemma ReachesIffChain(mappings: seq<LineageMapping>, h: Graph, a: string, b: string)
    requires Extends(EMPTY_GRAPH, mappings, h)
    ensures Reaches(h.adjacency, a, b) <==> exists p :: IsChain(mappings, p, a, b)
    ensures a in h.nodes && b in h.nodes ==> (Reaches(h.incoming, b, a) <==> exists p :: IsChain(mappings, p, a, b))
  {
    hide Feeds, WellFormed, FirstNamed;
    if p :| IsPath(h.adjacency, p, a, b) {
      assert IsChain(mappings, p, a, b);
    }
    if p :| IsChain(mappings, p, a, b) {
      assert IsPath(h.adjacency, p, a, b);
    }
    if a in h.nodes && b in h.nodes {
      ReachesBackwards(h, a, b);
    }
  }

  // ---------- What a trace returns ----------

  /** No key twice, and exactly the nodes reachable from start other than start itself. */
  ghost predicate IsTrace(nodes: map<string, LineageNode>, links: Links, start: string, result: seq<LineageNode>) {
    && (forall i, j :: 0 <= i < j < |result| ==> result[i].Key() != result[j].Key())
    && (forall n :: n in result <==> n.Key() in nodes && nodes[n.Key()] == n && n.Key() != start && Reaches(links, start, n.Key()))
  }

  /** So a downstream trace lists the columns a chain of mappings leads to, and an upstream trace those it comes from. */
  lemma TracesFollowMappings(
    mappings: seq<LineageMapping>, h: Graph, start: string, down: seq<LineageNode>, up: seq<LineageNode>, k: string)
    requires Extends(EMPTY_GRAPH, mappings, h) && start in h.nodes && k in h.nodes && k != start
    requires IsTrace(h.nodes, h.adjacency, start, down) && IsTrace(h.nodes, h.incoming, start, up)
    ensures h.nodes[k] in down <==> exists p :: IsChain(mappings, p, start, k)
    ensures h.nodes[k] in up <==> exists p :: IsChain(mappings, p, k, start)
  {
    hide Reaches, IsChain, FirstNamed, Feeds;
    ReachesIffChain(mappings, h, start, k);
    ReachesIffChain(mappings, h, k, start);
    assert h.nodes[k].Key() == k;
  }

  /** Impact and provenance agree: b is downstream of a iff a is upstream of b. */
  lemma DownstreamIffUpstream(g: Graph, a: string, b: string, down: seq<LineageNode>, up: seq<LineageNode>)
    requires WellFormed(g) && a in g.nodes && b in g.nodes && a != b
    requires IsTrace(g.nodes, g.adjacency, a, down)
    requires IsTrace(g.nodes, g.incoming, b, up)
    ensures g.nodes[b] in down <==> g.nodes[a] in up
  {
    ReachesBackwards(g, a, b);
  }

  // ---------- Keys ----------

  /** Two object ids can share a node key iff they are equal or one is the other's prefix up to a dot. */
  lemma KeysCollideIff(o: string, p: string)
    ensures (exists c, d :: KeyOf(o, c) == KeyOf(p, d)) <==> o == p || o + "." <= p || p + "." <= o
  {
    if o == p {
      assert KeyOf(o, "") == KeyOf(p, "");
    } else if o + "." <= p {
      KeyOfPrefix(o, p);
    } else if p + "." <= o {
      KeyOfPrefix(p, o);
    } else {
      forall c, d
        ensures KeyOf(o, c) != KeyOf(p, d)
      {
        if KeyOf(o, c) == KeyOf(p, d) {
          SharedKeyMeansPrefix(o, c, p, d);
          assert false;
        }
      }
    }
  }

  lemma KeyOfPrefix(o: string, p: string)
    requires o + "." <= p
    ensures exists c, d :: KeyOf(o, c) == KeyOf(p, d)
    ensures exists c, d :: KeyOf(p, c) == KeyOf(o, d)
  {
    var rest := p[|o| + 1..];
    assert KeyOf(o, rest + ".") == KeyOf(p, "");
    assert KeyOf(p, "") == KeyOf(o, rest + ".");
  }

  lemma SharedKeyMeansPrefix(o: string, c: string, p: string, d: string)
    requires KeyOf(o, c) == KeyOf(p, d)
    ensures o == p || o + "." <= p || p + "." <= o
  {
    var k := KeyOf(o, c);
    assert k[..|o|] == o && k[..|p|] == p && k[|o|] == '.' && k[|p|] == '.';
    if |o| < |p| {
      assert p[..|o| + 1] == k[..|o| + 1] == o + ".";
    } else if |p| < |o| {
      assert o[..|p| + 1] == k[..|p| + 1] == p + ".";
    }
  }

  lemma DotAfterPrefix(o: string, p: string)
    ensures o + "." <= p ==> '.' in p
  {
    if o + "." <= p {
      assert p[|o|] == (o + ".")[|o|];
    }
  }

  /** Without dots in object ids a key determines the object and the column. */
  lemma DotFreeKeysAreInjective(o: string, c: string, p: string, d: string)
    requires '.' !in o && '.' !in p
    requires KeyOf(o, c) == KeyOf(p, d)
    ensures o == p && c == d
  {
    SharedKeyMeansPrefix(o, c, p, d);
    assert o == p by {
      DotAfterPrefix(o, p);
      DotAfterPrefix(p, o);
    }
    assert KeyOf(o, c)[|o| + 1..] == c && KeyOf(p, d)[|p| + 1..] == d;
  }

  // ---------- The mutable graph ----------

  class LineageGraph {
    var nodes: map<string, LineageNode>
    var adjacency: Links
    var incoming: Links

    ghost function View(): Graph
      reads this
    {
      Graph(nodes, adjacency, incoming)
    }

    constructor ()
      ensures View() == EMPTY_GRAPH
    {
      nodes, adjacency, incoming := map[], map[], map[];
    }

    method AddNode(node: LineageNode)
      requires SameKeys(View())
      modifies this
      ensures View() == WithNode(old(View()), node)
    {
      if node.Key() !in nodes {
        nodes := nodes[node.Key() := node];
        adjacency := adjacency[node.Key() := {}];
        incoming := incoming[node.Key() := {}];
      }
    }

    method AddEdge(source: LineageNode, target: LineageNode)
      requires SameKeys(View())
      modifies this
      ensures View() == WithEdge(old(View()), (source, target))
    {
      AddNode(source);
      AddNode(target);
      adjacency := adjacency[source.Key() := adjacency[source.Key()] + {target.Key()}];
      incoming := incoming[target.Key() := incoming[target.Key()] + {source.Key()}];
    }

    /** The inner loop of BuildFromMappings: one edge per column mapping. */
    method AddColumnEdges(mapping: LineageMapping)
      requires SameKeys(View())
      modifies this
      ensures View() == Linked(old(View()), EdgesOfMapping(mapping, |mapping.columnMappings|))
    {
      ghost var start := View();
      for j := 0 to |mapping.columnMappings|
        invariant SameKeys(View())
        invariant View() == Linked(start, EdgesOfMapping(mapping, j))
      {
        var col := mapping.columnMappings[j];
        var source := LineageNode(mapping.sourceObjectId, col.sourceColumn, None);
        var target := LineageNode(mapping.destinationObjectId, col.destinationColumn, col.transformationExpression);
        AddEdge(source, target);
        LinkedSnoc(start, EdgesOfMapping(mapping, j), EdgeOf(mapping, col));
      }
    }

    method BuildFromMappings(mappings: seq<LineageMapping>)
      requires WellFormed(View())
      modifies this
      ensures View() == Linked(old(View()), EdgesOf(mappings))
      ensures Extends(old(View()), mappings, View())
    {
      ghost var start := View();
      for i := 0 to |mappings|
        invariant SameKeys(View())
        invariant View() == Linked(start, EdgesOf(mappings[..i]))
      {
        AddColumnEdges(mappings[i]);
        EdgesOfSnoc(mappings, i);
        LinkedConcat(start, EdgesOf(mappings[..i]), EdgesOfMapping(mappings[i], |mappings[i].columnMappings|));
      }
      assert mappings[..|mappings|] == mappings;
      BuiltIsExact(start, mappings);
    }

    /** All columns the given column is derived from. */
    method TraceUpstream(objectId: string, columnName: string) returns (result: seq<LineageNode>)
      requires WellFormed(View())
      ensures KeyOf(objectId, columnName) !in nodes ==> result == []
      ensures KeyOf(objectId, columnName) in nodes ==> IsTrace(nodes, incoming, KeyOf(objectId, columnName), result)
    {
      var startKey := KeyOf(objectId, columnName);
      if startKey !in nodes {
        return [];
      }
      result := Walk(nodes, incoming, startKey);
    }

    /** All columns the given column has an impact on. */
    method TraceDownstream(objectId: string, columnName: string) returns (result: seq<LineageNode>)
      requires WellFormed(View())
      ensures KeyOf(objectId, columnName) !in nodes ==> result == []
      ensures KeyOf(objectId, columnName) in nodes ==> IsTrace(nodes, adjacency, KeyOf(objectId, columnName), result)
    {
      var startKey := KeyOf(objectId, columnName);
      if startKey !in nodes {
        return [];
      }
      result := Walk(nodes, adjacency, startKey);
    }
  }

  /** A set's elements in some order, the way Python iterates a set. */
  method ListOf(s: set<string>) returns (l: seq<string>)
    ensures forall k :: k in l <==> k in s
  {
    var rest := s;
    l := [];
    while rest != {}
      invariant rest <= s
      invariant forall k :: k in l <==> k in s - rest
      decreases rest
    {
      var k :| k in rest;
      l := l + [k];
      rest := rest - {k};
    }
  }

  /** The depth-first search both traces run, one over incoming links and one over outgoing ones. */
  method Walk(nodes: map<string, LineageNode>, links: Links, startKey: string) returns (result: seq<LineageNode>)
    requires startKey in nodes && links.Keys == nodes.Keys
    requires KeyedByKey(nodes)
    requires forall a, b :: HasLink(links, a, b) ==> b in nodes
    ensures IsTrace(nodes, links, startKey, result)
  {
    hide Reaches;
    var visited: set<string> := {};
    var stack := [startKey];
    result := [];
    ReachesItself(links, startKey);
    while |stack| > 0
      invariant visited <= nodes.Keys
      invariant startKey in visited || startKey in stack
      invariant forall k :: k in stack ==> k in nodes && Reaches(links, startKey, k)
      invariant forall k :: k in visited ==> Reaches(links, startKey, k)
      invariant forall k, m :: k in visited && HasLink(links, k, m) ==> m in visited || m in stack
      invariant forall n :: n in result <==> n.Key() in visited && nodes[n.Key()] == n && n.Key() != startKey
      invariant forall i, j :: 0 <= i < j < |result| ==> result[i].Key() != result[j].Key()
      decreases nodes.Keys - visited, |stack|
    {
      var curr := stack[|stack| - 1];
      ghost var before := stack;
      stack := stack[..|stack| - 1];
      assert forall k :: k in before ==> k in stack || k == curr;
      if curr !in visited {
        visited := visited + {curr};
        if curr != startKey {
          result := result + [nodes[curr]];
        }
        var next := ListOf(links[curr]);
        forall k | k in next
          ensures k in nodes && Reaches(links, startKey, k)
        {
          assert HasLink(links, curr, k);
          ReachesNext(links, startKey, curr, k);
        }
        stack := stack + next;
      }
    }
    forall k | Reaches(links, startKey, k)
      ensures k in visited
    {
      ClosedHoldsReachable(links, startKey, visited, k);
    }
  }
}
