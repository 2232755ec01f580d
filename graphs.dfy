// Attribute values and the directed multigraph that every part of the
// pipeline rewrites: a node sequence (in insertion order), an attribute
// dictionary per node, and keyed edges (u, v, key) carrying attribute
// dictionaries, with the key allocation and the add/remove semantics of the
// networkx 1.x multigraph classes.
module Graphs {
  import opened Base

  type NodeId = string

  // A JSON-like attribute value. Dictionaries keep their entries in order
  // (they are Python dicts); a value may also be a nested graph.
  datatype Value =
    | VNone
    | VBool(b: bool)
    | VInt(i: int)
    | VStr(s: string)
    | VList(items: seq<Value>)
    | VDict(entries: seq<(string, Value)>)
    | VGraph(graph: Graph)

  type Attrs = map<string, Value>

  datatype Edge = Edge(src: NodeId, tgt: NodeId, key: nat, data: Attrs)

  // `directed` distinguishes MultiDiGraph from MultiGraph; `attrs` is the
  // graph-level attribute dictionary.
  datatype Graph = Graph(directed: bool, attrs: Attrs, nodes: seq<NodeId>, data: map<NodeId, Attrs>, edges: seq<Edge>)

  function EmptyGraph(directed: bool): Graph
  {
    Graph(directed, map[], [], map[], [])
  }

  /* ---------------- Dictionaries as values ---------------- */

  // `d.get(k)` on an ordered dictionary value.
  function DictGet(entries: seq<(string, Value)>, k: string): (r: Option<Value>)
    ensures r.Some? <==> exists i :: 0 <= i < |entries| && entries[i].0 == k
    ensures r.Some? ==> exists i :: 0 <= i < |entries| && entries[i] == (k, r.value)
  {
    if entries == [] then None
    else if entries[0].0 == k then Some(entries[0].1)
    else
      var r := DictGet(entries[1..], k);
      if r.Some? then
        ghost var i :| 0 <= i < |entries[1..]| && entries[1..][i] == (k, r.value);
        assert entries[i + 1] == (k, r.value);
        r
      else r
  }

  // `d[k] = v` on an ordered dictionary value: an existing key keeps its place.
  function DictSet(entries: seq<(string, Value)>, k: string, v: Value): (r: seq<(string, Value)>)
    ensures DictGet(r, k) == Some(v)
    ensures forall j :: j != k ==> DictGet(r, j) == DictGet(entries, j)
  {
    if entries == [] then [(k, v)]
    else if entries[0].0 == k then [(k, v)] + entries[1..]
    else [entries[0]] + DictSet(entries[1..], k, v)
  }

  // Looking a key up in a concatenation: the first part wins.
  lemma {:induction false} DictGetAppend(a: seq<(string, Value)>, b: seq<(string, Value)>, k: string)
    ensures DictGet(a + b, k) == if DictGet(a, k).Some? then DictGet(a, k) else DictGet(b, k)
    decreases |a|
  {
    if a != [] {
      assert (a + b)[0] == a[0] && (a + b)[1..] == a[1..] + b;
      DictGetAppend(a[1..], b, k);
    } else {
      assert a + b == b;
    }
  }

  // `data.get(k)`; a missing attribute reads as None.
  function Get(d: Attrs, k: string): Value
  {
    if k in d then d[k] else VNone
  }

  // The Python truth value of an attribute value; a networkx graph is true
  // when it has nodes.
  predicate Truthy(v: Value)
  {
    (v.VBool? && v.b) || (v.VInt? && v.i != 0) || (v.VStr? && v.s != []) ||
    (v.VList? && v.items != []) || (v.VDict? && v.entries != []) || (v.VGraph? && v.graph.nodes != [])
  }

  /* ---------------- Well-formedness ---------------- */

  predicate Distinct<T(==)>(s: seq<T>)
  {
    forall i, j :: 0 <= i < j < |s| ==> s[i] != s[j]
  }

  // Edge e joins u to v (in either orientation in an undirected graph).
  predicate Joins(directed: bool, e: Edge, u: NodeId, v: NodeId)
  {
    (e.src == u && e.tgt == v) || (!directed && e.src == v && e.tgt == u)
  }

  // Two edges occupy the same (u, v, key) slot.
  predicate SameSlot(directed: bool, e: Edge, f: Edge)
  {
    e.key == f.key && Joins(directed, f, e.src, e.tgt)
  }

  // Nodes are distinct and exactly the keys of the node data, edge end points
  // are nodes, and no two edges share a (u, v, key) slot.
  ghost predicate Valid(g: Graph)
  {
    NodesWellFormed(g) && EndPointsAreNodes(g.edges, g.data) && SlotsUnique(g.directed, g.edges)
  }

  ghost predicate NodesWellFormed(g: Graph)
  {
    Distinct(g.nodes) && forall n :: n in g.data <==> n in g.nodes
  }

  ghost predicate EndPointsAreNodes(es: seq<Edge>, data: map<NodeId, Attrs>)
  {
    forall e :: e in es ==> e.src in data && e.tgt in data
  }

  ghost predicate SlotsUnique(directed: bool, es: seq<Edge>)
  {
    forall i, j :: 0 <= i < j < |es| ==> !SameSlot(directed, es[i], es[j])
  }

  /* ---------------- Queries ---------------- */

  predicate HasEdge(g: Graph, u: NodeId, v: NodeId)
  {
    exists e :: e in g.edges && Joins(g.directed, e, u, v)
  }

  predicate HasEdgeKey(g: Graph, u: NodeId, v: NodeId, k: nat)
  {
    exists e :: e in g.edges && Joins(g.directed, e, u, v) && e.key == k
  }

  // The edges into n, in order.
  function EdgesInto(es: seq<Edge>, n: NodeId): (r: seq<Edge>)
    ensures forall e :: e in r <==> e in es && e.tgt == n
    ensures |r| <= |es|
  {
    if es == [] then []
    else EdgesInto(es[..|es| - 1], n) + (if es[|es| - 1].tgt == n then [es[|es| - 1]] else [])
  }

  // The edges out of n, in order.
  function EdgesFrom(es: seq<Edge>, n: NodeId): (r: seq<Edge>)
    ensures forall e :: e in r <==> e in es && e.src == n
    ensures |r| <= |es|
  {
    if es == [] then []
    else EdgesFrom(es[..|es| - 1], n) + (if es[|es| - 1].src == n then [es[|es| - 1]] else [])
  }

  // The edges touching n in an undirected graph, each oriented with n first.
  function Incident(es: seq<Edge>, n: NodeId): (r: seq<Edge>)
    ensures forall e :: e in r ==> e.src == n
    ensures forall e :: e in es && (e.src == n || e.tgt == n) ==>
              exists f :: f in r && f.key == e.key && f.data == e.data && f.tgt == (if e.src == n then e.tgt else e.src)
  {
    if es == [] then []
    else
      var e := es[|es| - 1];
      var rest := Incident(es[..|es| - 1], n);
      assert forall x :: x in es ==> x in es[..|es| - 1] || x == e;
      if e.src == n then rest + [e]
      else if e.tgt == n then rest + [Edge(n, e.src, e.key, e.data)]
      else rest
  }

  function InEdges(g: Graph, n: NodeId): seq<Edge>
  {
    EdgesInto(g.edges, n)
  }

  function OutEdges(g: Graph, n: NodeId): seq<Edge>
  {
    EdgesFrom(g.edges, n)
  }

  // Sources of a sequence of edges.
  function Sources(es: seq<Edge>): (r: seq<NodeId>)
    ensures |r| == |es| && forall i :: 0 <= i < |es| ==> r[i] == es[i].src
  {
    if es == [] then [] else Sources(es[..|es| - 1]) + [es[|es| - 1].src]
  }

  function Targets(es: seq<Edge>): (r: seq<NodeId>)
    ensures |r| == |es| && forall i :: 0 <= i < |es| ==> r[i] == es[i].tgt
  {
    if es == [] then [] else Targets(es[..|es| - 1]) + [es[|es| - 1].tgt]
  }

  // First occurrences, in order.
  function Dedup<T(==,!new)>(s: seq<T>): (r: seq<T>)
    ensures Distinct(r)
    ensures forall x :: x in r <==> x in s
  {
    if s == [] then []
    else
      var d := Dedup(s[..|s| - 1]);
      assert forall x :: x in s ==> x in s[..|s| - 1] || x == s[|s| - 1];
      if s[|s| - 1] in d then d else d + [s[|s| - 1]]
  }

  // `graph.predecessors(n)`: distinct sources of the edges into n.
  function Predecessors(g: Graph, n: NodeId): (r: seq<NodeId>)
    ensures Distinct(r)
    ensures forall u :: u in r <==> exists e :: e in g.edges && e.src == u && e.tgt == n
  {
    var s := Sources(InEdges(g, n));
    assert forall u :: u in s <==> exists i :: 0 <= i < |s| && s[i] == u;
    Dedup(s)
  }

  // `graph.successors(n)`: distinct targets of the edges out of n.
  function Successors(g: Graph, n: NodeId): (r: seq<NodeId>)
    ensures Distinct(r)
    ensures forall v :: v in r <==> exists e :: e in g.edges && e.src == n && e.tgt == v
  {
    var s := Targets(OutEdges(g, n));
    assert forall u :: u in s <==> exists i :: 0 <= i < |s| && s[i] == u;
    Dedup(s)
  }

  /* ---------------- Key allocation ---------------- */

  // Keys already used between u and v.
  function KeysBetween(g: Graph, u: NodeId, v: NodeId): set<nat>
  {
    set e | e in g.edges && Joins(g.directed, e, u, v) :: e.key
  }

  // The least key >= k that is not used.
  function FirstFreeFrom(used: set<nat>, k: nat): (r: nat)
    ensures k <= r && r !in used
    ensures forall j :: k <= j < r ==> j in used
    decreases |set j | j in used && j >= k|
  {
    if k !in used then k
    else
      var later := set j | j in used && j >= k + 1;
      var here := set j | j in used && j >= k;
      assert k in here && k !in later;
      assert later == here - {k};
      FirstFreeFrom(used, k + 1)
  }

  // networkx chooses `len(keydict)` and counts upwards past used keys.
  function NewKey(g: Graph, u: NodeId, v: NodeId): (k: nat)
    ensures k !in KeysBetween(g, u, v)
  {
    var used := KeysBetween(g, u, v);
    FirstFreeFrom(used, |used|)
  }

  /* ---------------- Updates ---------------- */

  // `add_node(n, attr_dict)`: a new node goes last; an existing node's data
  // is updated.
  function AddNode(g: Graph, n: NodeId, attrs: Attrs): (r: Graph)
    ensures n in r.data && r.data[n] == (if n in g.data then g.data[n] + attrs else attrs)
    ensures r.nodes == (if n in g.data then g.nodes else g.nodes + [n])
    ensures r.edges == g.edges && r.directed == g.directed && r.attrs == g.attrs
    ensures forall m :: m != n ==> (m in r.data <==> m in g.data) && (m in g.data ==> r.data[m] == g.data[m])
  {
    if n in g.data then g.(data := g.data[n := g.data[n] + attrs])
    else g.(nodes := g.nodes + [n], data := g.data[n := attrs])
  }

  // Adds n with empty data unless it is already a node.
  function EnsureNode(g: Graph, n: NodeId): (r: Graph)
    ensures n in r.data && r.edges == g.edges && r.directed == g.directed && r.attrs == g.attrs
    ensures r.nodes == (if n in g.data then g.nodes else g.nodes + [n])
    ensures forall m :: m in g.data ==> m in r.data && r.data[m] == g.data[m]
    ensures forall m :: m in r.data ==> m in g.data || m == n
    ensures n !in g.data ==> r.data[n] == map[]
  {
    if n in g.data then g else g.(nodes := g.nodes + [n], data := g.data[n := map[]])
  }

  // `add_edge(u, v, attr_dict)`: adds missing end points (u first) and a new
  // edge with a fresh key after all existing edges.
  function AddEdge(g: Graph, u: NodeId, v: NodeId, attrs: Attrs): (r: Graph)
    ensures r.edges == g.edges + [Edge(u, v, NewKey(g, u, v), attrs)]
    ensures r.directed == g.directed && r.attrs == g.attrs
    ensures r.nodes == EnsureNode(EnsureNode(g, u), v).nodes
    ensures u in g.data && v in g.data ==> r.data == g.data && r.nodes == g.nodes
    ensures u in r.data && v in r.data
    ensures forall m :: m in g.data ==> m in r.data && r.data[m] == g.data[m]
    ensures forall m :: m in r.data ==> m in g.data || m == u || m == v
    ensures forall m :: m in r.data && m !in g.data ==> r.data[m] == map[]
  {
    var h := EnsureNode(EnsureNode(g, u), v);
    h.(edges := h.edges + [Edge(u, v, NewKey(g, u, v), attrs)])
  }

  // Index of the edge occupying slot (u, v, k).
  function EdgeIndex(es: seq<Edge>, directed: bool, u: NodeId, v: NodeId, k: nat): (r: Option<nat>)
    ensures r.Some? ==> r.value < |es| && es[r.value].key == k && Joins(directed, es[r.value], u, v)
    ensures r.None? ==> forall e :: e in es ==> !(e.key == k && Joins(directed, e, u, v))
  {
    if es == [] then None
    else if es[0].key == k && Joins(directed, es[0], u, v) then Some(0)
    else
      match EdgeIndex(es[1..], directed, u, v, k)
      case Some(i) => Some(i + 1)
      case None =>
        assert forall e :: e in es ==> e == es[0] || e in es[1..];
        None
  }

  // EdgeIndex finds the first edge in the slot.
  lemma {:induction false} EdgeIndexAt(es: seq<Edge>, directed: bool, u: NodeId, v: NodeId, k: nat, i: nat)
    requires i < |es| && es[i].key == k && Joins(directed, es[i], u, v)
    requires forall j :: 0 <= j < i ==> !(es[j].key == k && Joins(directed, es[j], u, v))
    ensures EdgeIndex(es, directed, u, v, k) == Some(i)
    decreases i
  {
    if i > 0 {
      EdgeIndexAt(es[1..], directed, u, v, k, i - 1);
    }
  }

  lemma {:induction false} EdgeIndexFirst(es: seq<Edge>, directed: bool, u: NodeId, v: NodeId, k: nat)
    requires EdgeIndex(es, directed, u, v, k).Some?
    ensures forall j :: 0 <= j < EdgeIndex(es, directed, u, v, k).value ==> !(es[j].key == k && Joins(directed, es[j], u, v))
    decreases |es|
  {
    if !(es[0].key == k && Joins(directed, es[0], u, v)) {
      EdgeIndexFirst(es[1..], directed, u, v, k);
    }
  }

  // Appending edges does not move the edge found in a slot.
  lemma EdgeIndexPrefix(a: seq<Edge>, b: seq<Edge>, directed: bool, u: NodeId, v: NodeId, k: nat)
    requires |a| <= |b| && b[..|a|] == a && EdgeIndex(a, directed, u, v, k).Some?
    ensures EdgeIndex(b, directed, u, v, k) == EdgeIndex(a, directed, u, v, k)
  {
    var i := EdgeIndex(a, directed, u, v, k).value;
    EdgeIndexFirst(a, directed, u, v, k);
    assert forall j :: 0 <= j <= i ==> b[j] == a[j] by {
      forall j | 0 <= j <= i ensures b[j] == a[j] {
        assert b[..|a|][j] == b[j];
      }
    }
    EdgeIndexAt(b, directed, u, v, k, i);
  }

  // `add_edge(u, v, key, attr_dict)`: updates the data of an existing keyed
  // edge in place, or adds the end points and the edge.
  function AddEdgeWithKey(g: Graph, u: NodeId, v: NodeId, k: nat, attrs: Attrs): (r: Graph)
    requires EndPointsAreNodes(g.edges, g.data)
    ensures r.directed == g.directed && r.attrs == g.attrs && u in r.data && v in r.data
    ensures forall m :: m in g.data ==> m in r.data && r.data[m] == g.data[m]
    ensures forall m :: m in r.data ==> m in g.data || m == u || m == v
    ensures forall m :: m in r.data && m !in g.data ==> r.data[m] == map[]
    ensures r.nodes == EnsureNode(EnsureNode(g, u), v).nodes
    ensures u in g.data && v in g.data ==> r.data == g.data && r.nodes == g.nodes
    ensures HasEdgeKey(r, u, v, k)
    ensures !HasEdgeKey(g, u, v, k) ==> r.edges == g.edges + [Edge(u, v, k, attrs)]
    ensures HasEdgeKey(g, u, v, k) ==>
              exists i :: 0 <= i < |g.edges| && g.edges[i].key == k && Joins(g.directed, g.edges[i], u, v) &&
                          r.edges == g.edges[i := g.edges[i].(data := g.edges[i].data + attrs)]
    ensures HasEdgeKey(g, u, v, k) && attrs == map[] ==> r.edges == g.edges
  {
    match EdgeIndex(g.edges, g.directed, u, v, k)
    case Some(i) =>
      assert g.edges[i] in g.edges;
      assert u in g.data && v in g.data;
      UpdateEdgeData(g, i, u, v, k, attrs)
    case None =>
      AppendEdge(g, u, v, k, attrs)
  }

  // The existing-edge case of `add_edge(u, v, key, attr_dict)`: the edge at
  // index i keeps its place and its data is updated with attrs.
  function UpdateEdgeData(g: Graph, i: nat, u: NodeId, v: NodeId, k: nat, attrs: Attrs): (r: Graph)
    requires i < |g.edges| && g.edges[i].key == k && Joins(g.directed, g.edges[i], u, v)
    ensures r == g.(edges := g.edges[i := g.edges[i].(data := g.edges[i].data + attrs)])
    ensures HasEdgeKey(r, u, v, k)
    ensures attrs == map[] ==> r.edges == g.edges
  {
    assert g.edges[i].data + map[] == g.edges[i].data;
    var r := g.(edges := g.edges[i := g.edges[i].(data := g.edges[i].data + attrs)]);
    assert r.edges[i] in r.edges;
    r
  }

  // The new-edge case of `add_edge(u, v, key, attr_dict)`: the end points
  // are added when missing and the edge goes last.
  function AppendEdge(g: Graph, u: NodeId, v: NodeId, k: nat, attrs: Attrs): (r: Graph)
    ensures r.directed == g.directed && r.attrs == g.attrs && u in r.data && v in r.data
    ensures forall m :: m in g.data ==> m in r.data && r.data[m] == g.data[m]
    ensures forall m :: m in r.data ==> m in g.data || m == u || m == v
    ensures forall m :: m in r.data && m !in g.data ==> r.data[m] == map[]
    ensures r.nodes == EnsureNode(EnsureNode(g, u), v).nodes
    ensures u in g.data && v in g.data ==> r.data == g.data && r.nodes == g.nodes
    ensures HasEdgeKey(r, u, v, k) && r.edges == g.edges + [Edge(u, v, k, attrs)]
  {
    var h := EnsureNode(EnsureNode(g, u), v);
    var r := h.(edges := h.edges + [Edge(u, v, k, attrs)]);
    assert r.edges[|h.edges|] in r.edges;
    r
  }

  // `remove_edge(u, v, key)`: NetworkXError when there is no such edge.
  function RemoveEdge(g: Graph, u: NodeId, v: NodeId, k: nat): (r: Result<Graph>)
    ensures r.Err? <==> !HasEdgeKey(g, u, v, k)
    ensures r.Err? ==> r.error == GraphError
    ensures r.Ok? ==> exists i :: 0 <= i < |g.edges| && g.edges[i].key == k && Joins(g.directed, g.edges[i], u, v)
                                   && r.value == g.(edges := g.edges[..i] + g.edges[i + 1..])
  {
    match EdgeIndex(g.edges, g.directed, u, v, k)
    case None => Err(GraphError)
    case Some(i) =>
      assert g.edges[i] in g.edges;
      Ok(g.(edges := g.edges[..i] + g.edges[i + 1..]))
  }

  // The graph without its i-th edge.
  function DropEdge(g: Graph, i: nat): Graph
    requires i < |g.edges|
  {
    g.(edges := g.edges[..i] + g.edges[i + 1..])
  }

  // The edge `remove_edge` drops is the one EdgeIndex finds.
  lemma RemoveEdgeAt(g: Graph, u: NodeId, v: NodeId, k: nat)
    requires EdgeIndex(g.edges, g.directed, u, v, k).Some?
    ensures RemoveEdge(g, u, v, k) == Ok(DropEdge(g, EdgeIndex(g.edges, g.directed, u, v, k).value))
  {
  }

  // The nodes listed in ns.
  function Members(ns: seq<NodeId>): (r: set<NodeId>)
    ensures forall n :: n in r <==> n in ns
  {
    set n | n in ns
  }

  // The edges with neither end point in ns, in order.
  function EdgesOutside(es: seq<Edge>, ns: set<NodeId>): (r: seq<Edge>)
    ensures forall e :: e in r <==> e in es && e.src !in ns && e.tgt !in ns
    ensures |r| <= |es|
  {
    if es == [] then []
    else
      var e := es[|es| - 1];
      EdgesOutside(es[..|es| - 1], ns) + (if e.src !in ns && e.tgt !in ns then [e] else [])
  }

  // The elements of s that are not in xs, in order.
  function Minus<T(==,!new)>(s: seq<T>, xs: set<T>): (r: seq<T>)
    ensures forall y :: y in r <==> y in s && y !in xs
    ensures Distinct(s) ==> Distinct(r)
  {
    if s == [] then []
    else
      var rest := Minus(s[..|s| - 1], xs);
      assert forall y :: y in s ==> y in s[..|s| - 1] || y == s[|s| - 1];
      assert Distinct(s) ==> s[|s| - 1] !in s[..|s| - 1];
      if s[|s| - 1] in xs then rest else rest + [s[|s| - 1]]
  }

  // `remove_node(n)`: the node, its data and every edge touching it;
  // NetworkXError when n is not a node.
  function RemoveNode(g: Graph, n: NodeId): (r: Result<Graph>)
    ensures r.Err? <==> n !in g.data
    ensures r.Err? ==> r.error == GraphError
    ensures r.Ok? ==> r.value == RemoveNodes(g, [n])
  {
    if n !in g.data then Err(GraphError)
    else Ok(RemoveNodes(g, [n]))
  }

  // `remove_nodes_from(ns)`: every listed node that is a node goes, with the
  // edges touching it; other names are skipped.
  function RemoveNodes(g: Graph, ns: seq<NodeId>): (r: Graph)
    ensures forall m :: m in r.data <==> m in g.data && m !in ns
    ensures forall m :: m in r.data ==> r.data[m] == g.data[m]
    ensures r.directed == g.directed && r.attrs == g.attrs
    ensures r.nodes == Minus(g.nodes, Members(ns))
    ensures r.edges == EdgesOutside(g.edges, Members(ns))
  {
    var gone := Members(ns);
    g.(nodes := Minus(g.nodes, gone), data := map m | m in g.data && m !in gone :: g.data[m],
       edges := EdgesOutside(g.edges, gone))
  }

  /* ---------------- Edge sequences ---------------- */

  // An edge without its key.
  function Triple(e: Edge): (NodeId, NodeId, Attrs)
  {
    (e.src, e.tgt, e.data)
  }

  function Triples(es: seq<Edge>): (r: seq<(NodeId, NodeId, Attrs)>)
    ensures |r| == |es| && forall i :: 0 <= i < |es| ==> r[i] == Triple(es[i])
  {
    if es == [] then [] else Triples(es[..|es| - 1]) + [Triple(es[|es| - 1])]
  }

  lemma TriplesAppend(a: seq<Edge>, b: seq<Edge>)
    ensures Triples(a + b) == Triples(a) + Triples(b)
  {
  }

  // The edges of es that are not in gone, in order.
  function FilterOut(es: seq<Edge>, gone: set<Edge>): (r: seq<Edge>)
    ensures forall e :: e in r <==> e in es && e !in gone
  {
    if es == [] then []
    else
      var e := es[|es| - 1];
      FilterOut(es[..|es| - 1], gone) + (if e in gone then [] else [e])
  }

  lemma {:induction false} EdgesOutsideAppend(a: seq<Edge>, b: seq<Edge>, ns: set<NodeId>)
    ensures EdgesOutside(a + b, ns) == EdgesOutside(a, ns) + EdgesOutside(b, ns)
    decreases |b|
  {
    if b == [] {
      assert a + b == a;
    } else {
      assert (a + b)[..|a + b| - 1] == a + b[..|b| - 1];
      EdgesOutsideAppend(a, b[..|b| - 1], ns);
    }
  }

  lemma {:induction false} EdgesOutsideNone(es: seq<Edge>, ns: set<NodeId>)
    requires forall e :: e in es ==> e.src !in ns && e.tgt !in ns
    ensures EdgesOutside(es, ns) == es
    decreases |es|
  {
    if es != [] {
      EdgesOutsideNone(es[..|es| - 1], ns);
      assert es[..|es| - 1] + [es[|es| - 1]] == es;
    }
  }

  lemma {:induction false} FilterOutAppend(a: seq<Edge>, b: seq<Edge>, gone: set<Edge>)
    ensures FilterOut(a + b, gone) == FilterOut(a, gone) + FilterOut(b, gone)
    decreases |b|
  {
    if b == [] {
      assert a + b == a;
    } else {
      assert (a + b)[..|a + b| - 1] == a + b[..|b| - 1];
      FilterOutAppend(a, b[..|b| - 1], gone);
    }
  }

  lemma {:induction false} FilterOutNone(es: seq<Edge>, gone: set<Edge>)
    requires forall e :: e in es ==> e !in gone
    ensures FilterOut(es, gone) == es
    decreases |es|
  {
    if es != [] {
      FilterOutNone(es[..|es| - 1], gone);
      assert es[..|es| - 1] + [es[|es| - 1]] == es;
    }
  }

  // Removing the single occurrence of e from the filtered sequence is
  // filtering e out as well.
  lemma {:induction false} FilterOutOneMore(es: seq<Edge>, gone: set<Edge>, e: Edge, i: nat)
    requires Distinct(es)
    requires i < |FilterOut(es, gone)| && FilterOut(es, gone)[i] == e
    ensures FilterOut(es, gone)[..i] + FilterOut(es, gone)[i + 1..] == FilterOut(es, gone + {e})
    decreases |es|
  {
    var init := es[..|es| - 1];
    var f := FilterOut(init, gone);
    assert Distinct(init);
    if i < |f| {
      FilterOutOneMore(init, gone, e, i);
      assert e in init by { assert f[i] in f; }
      DistinctLast(es, e);
      FilterOutEarlier(es, gone, e, i);
    } else {
      FilterOutLast(es, gone, e, i);
    }
  }

  lemma FilterOutEarlier(es: seq<Edge>, gone: set<Edge>, e: Edge, i: nat)
    requires |es| > 0 && e != es[|es| - 1]
    requires i < |FilterOut(es[..|es| - 1], gone)| && FilterOut(es[..|es| - 1], gone)[i] == e
    requires FilterOut(es[..|es| - 1], gone)[..i] + FilterOut(es[..|es| - 1], gone)[i + 1..]
             == FilterOut(es[..|es| - 1], gone + {e})
    ensures FilterOut(es, gone)[..i] + FilterOut(es, gone)[i + 1..] == FilterOut(es, gone + {e})
  {
    var init := es[..|es| - 1];
    var last := es[|es| - 1];
    var f := FilterOut(init, gone);
    var tail := if last in gone then [] else [last];
    assert FilterOut(es, gone) == f + tail;
    assert (last in gone + {e}) == (last in gone);
    assert FilterOut(es, gone + {e}) == FilterOut(init, gone + {e}) + tail;
    RemoveInPrefix(f, tail, i);
  }

  lemma FilterOutLast(es: seq<Edge>, gone: set<Edge>, e: Edge, i: nat)
    requires Distinct(es) && |es| > 0
    requires i == |FilterOut(es[..|es| - 1], gone)|
    requires i < |FilterOut(es, gone)| && FilterOut(es, gone)[i] == e
    ensures FilterOut(es, gone)[..i] + FilterOut(es, gone)[i + 1..] == FilterOut(es, gone + {e})
  {
    var init := es[..|es| - 1];
    var last := es[|es| - 1];
    var f := FilterOut(init, gone);
    assert FilterOut(es, gone) == f + [last];
    assert last == e;
    DistinctLast(es, e);
    FilterOutSplit(init, gone, e);
    assert FilterOut(es, gone + {e}) == FilterOut(init, gone + {e});
  }

  // In a sequence without repetition the last element occurs nowhere else.
  lemma DistinctLast<T>(s: seq<T>, x: T)
    requires Distinct(s) && |s| > 0
    ensures x in s[..|s| - 1] ==> x != s[|s| - 1]
  {
    if x in s[..|s| - 1] {
      var k :| 0 <= k < |s| - 1 && s[k] == x;
    }
  }

  lemma {:induction false} FilterOutSplit(es: seq<Edge>, gone: set<Edge>, e: Edge)
    requires e !in es
    ensures FilterOut(es, gone + {e}) == FilterOut(es, gone)
    decreases |es|
  {
    if es != [] {
      FilterOutSplit(es[..|es| - 1], gone, e);
    }
  }

  // Edge sequences whose slots are unique have no repeated edge.
  lemma SlotsUniqueDistinct(directed: bool, es: seq<Edge>)
    requires SlotsUnique(directed, es)
    ensures Distinct(es)
  {
    forall i, j | 0 <= i < j < |es| ensures es[i] != es[j] {
      assert !SameSlot(directed, es[i], es[j]);
    }
  }

  /* ---------------- Sequences ---------------- */

  // Sequence identities, stated once for any element type: the solver
  // proves them cheaply here, while at a type of deeply structured elements
  // (edges carrying attribute values) extensional equality is expensive.
  lemma PrefixStep<T>(s: seq<T>, j: nat)
    requires j < |s|
    ensures s[..j + 1] == s[..j] + [s[j]] && s[..j + 1][..j] == s[..j]
  {
  }

  lemma AppendAssoc<T>(a: seq<T>, b: seq<T>, c: seq<T>)
    ensures (a + b) + c == a + (b + c)
  {
  }

  lemma WholePrefix<T>(s: seq<T>)
    ensures s[..|s|] == s
  {
  }

  lemma EmptyPrefix<T>(a: seq<T>, s: seq<T>)
    ensures a + s[..0] == a
  {
  }

  lemma SplitAt<T>(s: seq<T>, n: nat)
    requires n <= |s|
    ensures s == s[..n] + s[n..]
  {
  }

  lemma SplitAround<T>(s: seq<T>, i: nat)
    requires i < |s|
    ensures s == s[..i] + ([s[i]] + s[i + 1..])
  {
  }

  // An element of a sequence without repetition is not among the earlier ones.
  lemma DistinctAt<T>(s: seq<T>, i: nat)
    requires Distinct(s) && i < |s|
    ensures s[i] !in s[..i]
  {
    forall k | 0 <= k < i ensures s[..i][k] != s[i] {
    }
  }

  lemma SliceAppend<T>(p: seq<T>, q: seq<T>)
    ensures (p + q)[..|p|] == p && (p + q)[|p|..] == q
  {
  }

  // Dropping position k of the first part of p + q.
  lemma RemoveInPrefix<T>(p: seq<T>, q: seq<T>, k: nat)
    requires k < |p|
    ensures (p + q)[..k] + (p + q)[k + 1..] == (p[..k] + p[k + 1..]) + q
  {
    assert (p + q)[..k] == p[..k];
    assert (p + q)[k + 1..] == p[k + 1..] + q;
  }

  // Two positions holding edges in the same slot are the same position.
  lemma SlotOwner(directed: bool, es: seq<Edge>, i: nat, k: nat)
    requires SlotsUnique(directed, es) && i < |es| && k < |es|
    requires SameSlot(directed, es[k], es[i])
    ensures i == k
  {
  }

  // A slot that is present stays present when edges are appended.
  lemma HasEdgeKeyAppend(g: Graph, h: Graph, u: NodeId, v: NodeId, k: nat)
    requires h.directed == g.directed && |h.edges| >= |g.edges| && h.edges[..|g.edges|] == g.edges
    requires HasEdgeKey(g, u, v, k)
    ensures HasEdgeKey(h, u, v, k)
  {
    var e :| e in g.edges && Joins(g.directed, e, u, v) && e.key == k;
    var i :| 0 <= i < |g.edges| && g.edges[i] == e;
    assert h.edges[i] == e;
  }

  /* ---------------- Well-formedness is preserved ---------------- */

  lemma EmptyGraphValid(directed: bool)
    ensures Valid(EmptyGraph(directed))
  {
  }

  lemma AddNodeValid(g: Graph, n: NodeId, attrs: Attrs)
    requires Valid(g)
    ensures Valid(AddNode(g, n, attrs))
  {
  }

  lemma EnsureNodeValid(g: Graph, n: NodeId)
    requires Valid(g)
    ensures Valid(EnsureNode(g, n))
  {
  }

  lemma AddEdgeValid(g: Graph, u: NodeId, v: NodeId, attrs: Attrs)
    requires Valid(g)
    ensures Valid(AddEdge(g, u, v, attrs))
  {
    var h := EnsureNode(EnsureNode(g, u), v);
    EnsureNodeValid(g, u);
    EnsureNodeValid(EnsureNode(g, u), v);
    var x := Edge(u, v, NewKey(g, u, v), attrs);
    forall e | e in g.edges ensures !SameSlot(g.directed, e, x) {
      assert Joins(g.directed, e, u, v) ==> e.key in KeysBetween(g, u, v);
    }
    AppendSlotsUnique(g.directed, g.edges, x);
    AppendEnds(g.edges, h.data, x);
  }

  lemma AppendSlotsUnique(directed: bool, es: seq<Edge>, x: Edge)
    requires SlotsUnique(directed, es)
    requires forall e :: e in es ==> !SameSlot(directed, e, x)
    ensures SlotsUnique(directed, es + [x])
  {
    var r := es + [x];
    forall i, j | 0 <= i < j < |r| ensures !SameSlot(directed, r[i], r[j]) {
      assert r[i] == es[i];
      if j == |es| {
        assert es[i] in es;
      } else {
        assert r[j] == es[j];
      }
    }
  }

  lemma AppendEnds(es: seq<Edge>, data: map<NodeId, Attrs>, x: Edge)
    requires EndPointsAreNodes(es, data) && x.src in data && x.tgt in data
    ensures EndPointsAreNodes(es + [x], data)
  {
  }

  // Adding a keyed edge keeps the graph well formed; with no attributes an
  // existing edge is left as it is.
  lemma AddEdgeWithKeyValid(g: Graph, u: NodeId, v: NodeId, k: nat, attrs: Attrs)
    requires Valid(g)
    ensures Valid(AddEdgeWithKey(g, u, v, k, attrs))
  {
    var r := AddEdgeWithKey(g, u, v, k, attrs);
    match EdgeIndex(g.edges, g.directed, u, v, k)
    case Some(i) =>
      assert r == g.(edges := g.edges[i := g.edges[i].(data := g.edges[i].data + attrs)]);
      UpdateEdgeValid(g, i, attrs);
    case None =>
      assert r == EnsureNode(EnsureNode(g, u), v).(edges := g.edges + [Edge(u, v, k, attrs)]);
      AppendEdgeValid(g, u, v, k, attrs);
  }

  // Adding a keyed edge between nodes keeps every edge between nodes.
  lemma AddEdgeWithKeyEnds(g: Graph, u: NodeId, v: NodeId, k: nat, attrs: Attrs)
    requires EndPointsAreNodes(g.edges, g.data)
    ensures EndPointsAreNodes(AddEdgeWithKey(g, u, v, k, attrs).edges, AddEdgeWithKey(g, u, v, k, attrs).data)
  {
    var r := AddEdgeWithKey(g, u, v, k, attrs);
    match EdgeIndex(g.edges, g.directed, u, v, k)
    case Some(i) =>
      assert r == g.(edges := g.edges[i := g.edges[i].(data := g.edges[i].data + attrs)]);
      forall e | e in r.edges ensures e.src in r.data && e.tgt in r.data {
        var a :| 0 <= a < |r.edges| && r.edges[a] == e;
        assert g.edges[a] in g.edges;
      }
    case None =>
  }

  lemma UpdateEdgeValid(g: Graph, i: nat, attrs: Attrs)
    requires Valid(g) && i < |g.edges|
    ensures Valid(g.(edges := g.edges[i := g.edges[i].(data := g.edges[i].data + attrs)]))
  {
    var es := g.edges[i := g.edges[i].(data := g.edges[i].data + attrs)];
    forall a, b | 0 <= a < b < |es| ensures !SameSlot(g.directed, es[a], es[b]) {
      assert !SameSlot(g.directed, g.edges[a], g.edges[b]);
    }
    forall e | e in es ensures e.src in g.data && e.tgt in g.data {
      var a :| 0 <= a < |es| && es[a] == e;
      assert g.edges[a] in g.edges;
    }
  }

  lemma AppendEdgeValid(g: Graph, u: NodeId, v: NodeId, k: nat, attrs: Attrs)
    requires Valid(g) && !HasEdgeKey(g, u, v, k)
    ensures Valid(EnsureNode(EnsureNode(g, u), v).(edges := g.edges + [Edge(u, v, k, attrs)]))
  {
    var h := EnsureNode(EnsureNode(g, u), v);
    EnsureNodeValid(g, u);
    EnsureNodeValid(EnsureNode(g, u), v);
    var es := g.edges + [Edge(u, v, k, attrs)];
    forall i | 0 <= i < |g.edges|
      ensures !SameSlot(g.directed, g.edges[i], es[|g.edges|])
    {
      assert g.edges[i] in g.edges;
    }
  }

  // The edges into n of a sequence without repetition have no repetition.
  lemma {:induction false} EdgesIntoDistinct(es: seq<Edge>, n: NodeId)
    requires Distinct(es)
    ensures Distinct(EdgesInto(es, n)) && Distinct(EdgesFrom(es, n))
    decreases |es|
  {
    if es != [] {
      var init := es[..|es| - 1];
      assert Distinct(init);
      EdgesIntoDistinct(init, n);
      DistinctLast(es, es[|es| - 1]);
    }
  }

  // The incident edges of a node are oriented away from it and end at nodes.
  lemma {:induction false} IncidentEnds(es: seq<Edge>, n: NodeId, data: map<NodeId, Attrs>)
    requires EndPointsAreNodes(es, data) && n in data
    ensures EndPointsAreNodes(Incident(es, n), data)
    decreases |es|
  {
    if es != [] {
      var init := es[..|es| - 1];
      assert forall e :: e in init ==> e in es;
      IncidentEnds(init, n, data);
      assert es[|es| - 1] in es;
    }
  }

  lemma RemoveEdgeValid(g: Graph, u: NodeId, v: NodeId, k: nat)
    requires Valid(g) && RemoveEdge(g, u, v, k).Ok?
    ensures Valid(RemoveEdge(g, u, v, k).value)
  {
    var i := EdgeIndex(g.edges, g.directed, u, v, k).value;
    RemoveEdgeAtValid(g, i);
  }

  lemma RemoveEdgeAtValid(g: Graph, i: nat)
    requires Valid(g) && i < |g.edges|
    ensures Valid(g.(edges := g.edges[..i] + g.edges[i + 1..]))
  {
    RemoveAtEnds(g.edges, g.data, i);
    RemoveAtSlots(g.directed, g.edges, i);
  }

  lemma RemoveAtEnds(es: seq<Edge>, data: map<NodeId, Attrs>, i: nat)
    requires EndPointsAreNodes(es, data) && i < |es|
    ensures EndPointsAreNodes(es[..i] + es[i + 1..], data)
  {
    var r := es[..i] + es[i + 1..];
    forall e | e in r ensures e.src in data && e.tgt in data {
      var a :| 0 <= a < |r| && r[a] == e;
      assert r[a] == es[if a < i then a else a + 1];
    }
  }

  lemma RemoveAtSlots(directed: bool, es: seq<Edge>, i: nat)
    requires SlotsUnique(directed, es) && i < |es|
    ensures SlotsUnique(directed, es[..i] + es[i + 1..])
  {
    var r := es[..i] + es[i + 1..];
    forall a, b | 0 <= a < b < |r| ensures !SameSlot(directed, r[a], r[b]) {
      var a' := if a < i then a else a + 1;
      var b' := if b < i then b else b + 1;
      assert r[a] == es[a'] && r[b] == es[b'];
    }
  }

  lemma RemoveNodesValid(g: Graph, ns: seq<NodeId>)
    requires Valid(g)
    ensures Valid(RemoveNodes(g, ns))
  {
    var r := RemoveNodes(g, ns);
    EdgesOutsideSlots(g.directed, g.edges, Members(ns));
    assert NodesWellFormed(r);
    assert EndPointsAreNodes(r.edges, r.data);
  }

  lemma RemoveNodeValid(g: Graph, n: NodeId)
    requires Valid(g) && n in g.data
    ensures Valid(RemoveNode(g, n).value)
  {
    RemoveNodesValid(g, [n]);
  }

  // Dropping the edges that touch ns keeps slot uniqueness.
  lemma {:induction false} EdgesOutsideSlots(directed: bool, es: seq<Edge>, ns: set<NodeId>)
    requires SlotsUnique(directed, es)
    ensures SlotsUnique(directed, EdgesOutside(es, ns))
    decreases |es|
  {
    if es != [] {
      var init := es[..|es| - 1];
      var e := es[|es| - 1];
      assert SlotsUnique(directed, init);
      EdgesOutsideSlots(directed, init, ns);
      var r0 := EdgesOutside(init, ns);
      var r := EdgesOutside(es, ns);
      if e.src !in ns && e.tgt !in ns {
        assert r == r0 + [e];
        forall a, b | 0 <= a < b < |r| ensures !SameSlot(directed, r[a], r[b]) {
          if b == |r0| {
            assert r[a] in init;
            var j :| 0 <= j < |init| && init[j] == r[a];
            assert es[j] == r[a];
          } else {
            assert r[a] == r0[a] && r[b] == r0[b];
          }
        }
      } else {
        assert r == r0;
      }
    }
  }
}
