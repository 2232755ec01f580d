// Generic in-place graph transformations: copying the topology of a graph,
// collapsing a set of nodes into one node, and inserting a node between a
// node and (some of) its predecessors or successors.
module GraphOperations {
  import opened Base
  import opened Graphs

  /* ---------------- copy_topology ---------------- */

  // An edge with its attribute data dropped.
  function Bare(e: Edge): Edge
  {
    Edge(e.src, e.tgt, e.key, map[])
  }

  function BareAll(es: seq<Edge>): (r: seq<Edge>)
    ensures |r| == |es| && forall i :: 0 <= i < |es| ==> r[i] == Bare(es[i])
  {
    if es == [] then [] else BareAll(es[..|es| - 1]) + [Bare(es[|es| - 1])]
  }

  // `add_nodes_from(ns)`: each listed name that is not yet a node is added,
  // in order, with empty data; existing nodes keep their data.
  method AddNodesFrom(g: Graph, ns: seq<NodeId>) returns (r: Graph)
    requires Valid(g)
    ensures Valid(r) && r.directed == g.directed && r.attrs == g.attrs && r.edges == g.edges
    ensures forall n :: n in r.data <==> n in g.data || n in ns
    ensures forall n :: n in g.data ==> r.data[n] == g.data[n]
    ensures forall n :: n in r.data && n !in g.data ==> r.data[n] == map[]
    ensures Distinct(ns) && (forall n :: n in ns ==> n !in g.data) ==> r.nodes == g.nodes + ns
  {
    r := g;
    var i := 0;
    while i < |ns|
      invariant i <= |ns| && NodesAdded(g, ns[..i], r)
    {
      AddNodeStep(g, ns, i, r);
      r := AddNode(r, ns[i], map[]);
      i := i + 1;
    }
    assert ns[..i] == ns;
  }

  // r is g after adding the nodes ns.
  ghost predicate NodesAdded(g: Graph, ns: seq<NodeId>, r: Graph)
  {
    Valid(r) && r.directed == g.directed && r.attrs == g.attrs && r.edges == g.edges &&
    DataAdded(g, ns, r) && OrderAdded(g, ns, r)
  }

  ghost predicate DataAdded(g: Graph, ns: seq<NodeId>, r: Graph)
  {
    (forall n :: n in r.data <==> n in g.data || n in ns) &&
    (forall n :: n in g.data ==> r.data[n] == g.data[n]) &&
    (forall n :: n in r.data && n !in g.data ==> r.data[n] == map[])
  }

  ghost predicate OrderAdded(g: Graph, ns: seq<NodeId>, r: Graph)
  {
    Distinct(ns) && (forall n :: n in ns ==> n !in g.data) ==> r.nodes == g.nodes + ns
  }

  lemma AddNodeStep(g: Graph, ns: seq<NodeId>, i: nat, r: Graph)
    requires Valid(g) && i < |ns| && NodesAdded(g, ns[..i], r)
    ensures NodesAdded(g, ns[..i + 1], AddNode(r, ns[i], map[]))
  {
    AddNodeValid(r, ns[i], map[]);
    AddNodeData(g, ns, i, r);
    AddNodeOrder(g, ns, i, r);
  }

  lemma AddNodeData(g: Graph, ns: seq<NodeId>, i: nat, r: Graph)
    requires i < |ns| && DataAdded(g, ns[..i], r)
    ensures DataAdded(g, ns[..i + 1], AddNode(r, ns[i], map[]))
  {
    var n := ns[i];
    PrefixStep(ns, i);
    if n in r.data {
      assert r.data[n] + map[] == r.data[n];
    }
  }

  lemma AddNodeOrder(g: Graph, ns: seq<NodeId>, i: nat, r: Graph)
    requires i < |ns| && DataAdded(g, ns[..i], r) && OrderAdded(g, ns[..i], r)
    ensures OrderAdded(g, ns[..i + 1], AddNode(r, ns[i], map[]))
  {
    var n := ns[i];
    PrefixStep(ns, i);
    if Distinct(ns[..i + 1]) && (forall m :: m in ns[..i + 1] ==> m !in g.data) {
      assert n !in ns[..i] by {
        forall j | 0 <= j < i ensures ns[..i][j] != n {
          assert ns[..i + 1][j] == ns[..i][j];
        }
      }
      assert Distinct(ns[..i]);
    }
  }

  // `copy_topology(source, target)`: every node of the source and every
  // keyed edge of the source, without attribute data. With no target, a new
  // empty graph of the source's kind receives them, and the copy has exactly
  // the source's nodes and keyed edges. A target keeps its own nodes, data
  // and edges; source edges whose slot it already has add nothing.
  method CopyTopology(source: Graph, target: Option<Graph>) returns (r: Graph)
    requires Valid(source)
    requires target.Some? ==> Valid(target.value)
    ensures Valid(r)
    ensures forall n :: n in source.data ==> n in r.data
    ensures forall e :: e in source.edges ==> HasEdgeKey(r, e.src, e.tgt, e.key)
    ensures target.None? ==>
              r.directed == source.directed && r.attrs == map[] && r.nodes == source.nodes &&
              (forall n :: n in r.data ==> r.data[n] == map[]) && r.edges == BareAll(source.edges)
    ensures target.Some? ==>
              var t := target.value;
              r.directed == t.directed && r.attrs == t.attrs &&
              (forall n :: n in t.data ==> n in r.data && r.data[n] == t.data[n]) &&
              (forall n :: n in r.data ==> n in t.data || n in source.data) &&
              |r.edges| >= |t.edges| && r.edges[..|t.edges|] == t.edges &&
              (forall e :: e in r.edges[|t.edges|..] ==> exists f :: f in source.edges && e == Bare(f))
  {
    var h0 := if target.None? then EmptyGraph(source.directed) else target.value;
    EmptyGraphValid(source.directed);
    var h1 := AddNodesFrom(h0, source.nodes);
    var h := h1;
    ghost var added: seq<Edge> := [];
    var j := 0;
    CopyStart(source, h1, target.None?);
    while j < |source.edges|
      invariant j <= |source.edges| && Valid(h) && EdgesCopied(source, h1, j, h, added, target.None?)
    {
      var e := source.edges[j];
      CopyEdgeStep(source, h1, j, h, added, target.None?);
      added := Appended(h, e, added);
      AddEdgeWithKeyValid(h, e.src, e.tgt, e.key, map[]);
      h := AddEdgeWithKey(h, e.src, e.tgt, e.key, map[]);
      j := j + 1;
    }
    WholePrefix(source.edges);
    SliceAppend(h1.edges, added);
    r := h;
  }

  // h is h1 after copying the first j source edges; `added` are the edges
  // that were appended. A new copy starts without edges and appends every
  // source edge.
  ghost predicate EdgesCopied(source: Graph, h1: Graph, j: nat, h: Graph, added: seq<Edge>, newCopy: bool)
  {
    j <= |source.edges| &&
    (forall e :: e in source.edges ==> e.src in h1.data && e.tgt in h1.data) &&
    CopyShape(h1, h) && CopyAdded(source, h1, h, added) && CopySlots(source, j, h) &&
    CopyNew(source, h1, j, added, newCopy)
  }

  ghost predicate CopyShape(h1: Graph, h: Graph)
  {
    EndPointsAreNodes(h.edges, h.data) &&
    h.directed == h1.directed && h.attrs == h1.attrs && h.nodes == h1.nodes && h.data == h1.data
  }

  ghost predicate CopyAdded(source: Graph, h1: Graph, h: Graph, added: seq<Edge>)
  {
    h.edges == h1.edges + added &&
    forall x :: x in added ==> exists f :: f in source.edges && x == Bare(f)
  }

  ghost predicate CopySlots(source: Graph, j: nat, h: Graph)
  {
    j <= |source.edges| && forall x :: x in source.edges[..j] ==> HasEdgeKey(h, x.src, x.tgt, x.key)
  }

  ghost predicate CopyNew(source: Graph, h1: Graph, j: nat, added: seq<Edge>, newCopy: bool)
  {
    j <= |source.edges| &&
    (newCopy ==> h1.directed == source.directed && h1.edges == [] && added == BareAll(source.edges[..j]))
  }

  // The edges appended so far, after copying e into h.
  ghost function Appended(h: Graph, e: Edge, added: seq<Edge>): seq<Edge>
  {
    if HasEdgeKey(h, e.src, e.tgt, e.key) then added else added + [Bare(e)]
  }

  lemma CopyStart(source: Graph, h1: Graph, newCopy: bool)
    requires Valid(h1) && forall n :: n in source.data ==> n in h1.data
    requires EndPointsAreNodes(source.edges, source.data)
    requires newCopy ==> h1.directed == source.directed && h1.edges == []
    ensures EdgesCopied(source, h1, 0, h1, [], newCopy)
  {
    assert h1.edges + [] == h1.edges;
    assert BareAll(source.edges[..0]) == [];
  }

  lemma CopyEdgeStep(source: Graph, h1: Graph, j: nat, h: Graph, added: seq<Edge>, newCopy: bool)
    requires SlotsUnique(source.directed, source.edges) && j < |source.edges|
    requires EdgesCopied(source, h1, j, h, added, newCopy)
    ensures var e := source.edges[j];
      EdgesCopied(source, h1, j + 1, AddEdgeWithKey(h, e.src, e.tgt, e.key, map[]), Appended(h, e, added), newCopy)
  {
    var e := source.edges[j];
    assert e in source.edges;
    var h' := AddEdgeWithKey(h, e.src, e.tgt, e.key, map[]);
    AddEdgeWithKeyEnds(h, e.src, e.tgt, e.key, map[]);
    CopyAddedStep(source, h1, h, added, e);
    CopySlotsStep(source, j, h, h');
    CopyNewStep(source, h1, j, h, added, newCopy);
  }

  lemma CopyAddedStep(source: Graph, h1: Graph, h: Graph, added: seq<Edge>, e: Edge)
    requires EndPointsAreNodes(h.edges, h.data) && CopyAdded(source, h1, h, added) && e in source.edges
    ensures CopyAdded(source, h1, AddEdgeWithKey(h, e.src, e.tgt, e.key, map[]), Appended(h, e, added))
  {
    if !HasEdgeKey(h, e.src, e.tgt, e.key) {
      assert forall x :: x in added + [Bare(e)] ==> x in added || x == Bare(e);
      AppendAssoc(h1.edges, added, [Bare(e)]);
    }
  }

  lemma CopySlotsStep(source: Graph, j: nat, h: Graph, h': Graph)
    requires j < |source.edges| && CopySlots(source, j, h) && EndPointsAreNodes(h.edges, h.data)
    requires h' == AddEdgeWithKey(h, source.edges[j].src, source.edges[j].tgt, source.edges[j].key, map[])
    ensures CopySlots(source, j + 1, h')
  {
    var e := source.edges[j];
    if HasEdgeKey(h, e.src, e.tgt, e.key) {
      WholePrefix(h.edges);
    } else {
      SliceAppend(h.edges, [Edge(e.src, e.tgt, e.key, map[])]);
    }
    CopyKeepsSlots(source, j, h, h');
  }

  lemma CopyNewStep(source: Graph, h1: Graph, j: nat, h: Graph, added: seq<Edge>, newCopy: bool)
    requires SlotsUnique(source.directed, source.edges) && j < |source.edges|
    requires CopyNew(source, h1, j, added, newCopy) && h.directed == h1.directed && h.edges == h1.edges + added
    ensures CopyNew(source, h1, j + 1, Appended(h, source.edges[j], added), newCopy)
  {
    if newCopy {
      assert h.edges == added;
      CopyIsFresh(source, j, h);
      BareAllStep(source.edges, j);
    }
  }

  lemma BareAllStep(s: seq<Edge>, j: nat)
    requires j < |s|
    ensures BareAll(s[..j + 1]) == BareAll(s[..j]) + [Bare(s[j])]
  {
    PrefixStep(s, j);
  }

  lemma CopyKeepsSlots(source: Graph, j: nat, h: Graph, h': Graph)
    requires j < |source.edges| && h'.directed == h.directed
    requires |h'.edges| >= |h.edges| && h'.edges[..|h.edges|] == h.edges
    requires HasEdgeKey(h', source.edges[j].src, source.edges[j].tgt, source.edges[j].key)
    requires forall x :: x in source.edges[..j] ==> HasEdgeKey(h, x.src, x.tgt, x.key)
    ensures forall x :: x in source.edges[..j + 1] ==> HasEdgeKey(h', x.src, x.tgt, x.key)
  {
    PrefixStep(source.edges, j);
    forall x | x in source.edges[..j] ensures HasEdgeKey(h', x.src, x.tgt, x.key) {
      HasEdgeKeyAppend(h, h', x.src, x.tgt, x.key);
    }
  }

  // While copying into a new graph, the slot of the next source edge is free.
  lemma CopyIsFresh(source: Graph, j: nat, h: Graph)
    requires SlotsUnique(source.directed, source.edges) && j < |source.edges|
    requires h.directed == source.directed && h.edges == BareAll(source.edges[..j])
    ensures !HasEdgeKey(h, source.edges[j].src, source.edges[j].tgt, source.edges[j].key)
  {
    var e := source.edges[j];
    forall m | 0 <= m < |h.edges|
      ensures !(Joins(h.directed, h.edges[m], e.src, e.tgt) && h.edges[m].key == e.key)
    {
      assert h.edges[m] == Bare(source.edges[m]);
      assert !SameSlot(source.directed, source.edges[m], e);
    }
  }

  /* ---------------- collapse_subgraph ---------------- */

  // The end of an edge away from the node it was listed for: the source of
  // an in-edge, the target of an out-edge.
  function Far(e: Edge, incoming: bool): NodeId
  {
    if incoming then e.src else e.tgt
  }

  // The end of an edge at the node it was listed for.
  function Near(e: Edge, incoming: bool): NodeId
  {
    if incoming then e.tgt else e.src
  }

  // An edge re-attached to n at its near end, without its key.
  function Reattach(e: Edge, n: NodeId, incoming: bool): (NodeId, NodeId, Attrs)
  {
    if incoming then (e.src, n, e.data) else (n, e.tgt, e.data)
  }

  // The edges into (incoming) or out of each node of ns, node by node: the
  // order in which `in_edges_iter(ns)` / `out_edges_iter(ns)` list them.
  function EdgesAt(es: seq<Edge>, ns: seq<NodeId>, incoming: bool): (r: seq<Edge>)
    ensures forall e :: e in r <==> e in es && Near(e, incoming) in ns
  {
    if ns == [] then []
    else
      var n := ns[|ns| - 1];
      assert forall m :: m in ns <==> m in ns[..|ns| - 1] || m == n;
      EdgesAt(es, ns[..|ns| - 1], incoming) + (if incoming then EdgesInto(es, n) else EdgesFrom(es, n))
  }

  // The edges touching each node of ns in an undirected graph, oriented
  // away from that node: the order of `edges_iter(ns)`, except that
  // networkx lists an edge between two nodes of ns once.
  function IncidentAt(es: seq<Edge>, ns: seq<NodeId>): (r: seq<Edge>)
    ensures forall e :: e in r ==> e.src in ns
  {
    if ns == [] then []
    else IncidentAt(es, ns[..|ns| - 1]) + Incident(es, ns[|ns| - 1])
  }

  // The edges of es whose far end lies outside S, re-attached to n.
  function Rerouted(es: seq<Edge>, S: set<NodeId>, n: NodeId, incoming: bool): (r: seq<(NodeId, NodeId, Attrs)>)
    ensures forall t :: t in r ==> (t.0 !in S || t.0 == n) && (t.1 !in S || t.1 == n)
  {
    if es == [] then []
    else
      var e := es[|es| - 1];
      Rerouted(es[..|es| - 1], S, n, incoming) + (if Far(e, incoming) !in S then [Reattach(e, n, incoming)] else [])
  }

  lemma {:induction false} ReroutedAppend(a: seq<Edge>, b: seq<Edge>, S: set<NodeId>, n: NodeId, incoming: bool)
    ensures Rerouted(a + b, S, n, incoming) == Rerouted(a, S, n, incoming) + Rerouted(b, S, n, incoming)
    decreases |b|
  {
    if b == [] {
      assert a + b == a;
    } else {
      assert (a + b)[..|a + b| - 1] == a + b[..|b| - 1];
      ReroutedAppend(a, b[..|b| - 1], S, n, incoming);
    }
  }

  // Adds, for each listed edge whose far end is outside S, an edge between
  // that end and n with the listed edge's data. This is one of the re-routing
  // loops of `collapse_subgraph`.
  method AddRerouted(g: Graph, es: seq<Edge>, S: set<NodeId>, n: NodeId, incoming: bool) returns (h: Graph)
    requires Valid(g) && n in g.data
    requires forall e :: e in es ==> Far(e, incoming) in g.data
    ensures Valid(h)
    ensures h.directed == g.directed && h.attrs == g.attrs && h.nodes == g.nodes && h.data == g.data
    ensures |h.edges| >= |g.edges| && h.edges[..|g.edges|] == g.edges
    ensures Triples(h.edges[|g.edges|..]) == Rerouted(es, S, n, incoming)
  {
    h := g;
    ghost var added: seq<Edge> := [];
    var i := 0;
    assert g.edges + [] == g.edges;
    while i < |es|
      invariant Valid(h) && Rerouting(g, es, i, S, n, incoming, h, added)
      invariant h.directed == g.directed && h.attrs == g.attrs && h.nodes == g.nodes && h.data == g.data
    {
      var e := es[i];
      assert e in es;
      if Far(e, incoming) !in S {
        var u, v := if incoming then e.src else n, if incoming then n else e.tgt;
        AddEdgeValid(h, u, v, e.data);
        ghost var x := Edge(u, v, NewKey(h, u, v), e.data);
        var h' := AddEdge(h, u, v, e.data);
        RerouteAdd(g, es, i, S, n, incoming, h, added, h', x);
        h := h';
        added := added + [x];
      } else {
        RerouteSkip(g, es, i, S, n, incoming, h, added);
      }
      assert Rerouting(g, es, i + 1, S, n, incoming, h, added);
      i := i + 1;
    }
    WholePrefix(es);
    SliceAppend(g.edges, added);
  }

  // The loop invariant of AddRerouted after i listed edges.
  ghost predicate Rerouting(g: Graph, es: seq<Edge>, i: nat, S: set<NodeId>, n: NodeId, incoming: bool, h: Graph, added: seq<Edge>)
  {
    i <= |es| && h.edges == g.edges + added && Triples(added) == Rerouted(es[..i], S, n, incoming)
  }

  lemma RerouteAdd(g: Graph, es: seq<Edge>, i: nat, S: set<NodeId>, n: NodeId, incoming: bool,
                   h: Graph, added: seq<Edge>, h': Graph, x: Edge)
    requires Rerouting(g, es, i, S, n, incoming, h, added) && i < |es| && Far(es[i], incoming) !in S
    requires h'.edges == h.edges + [x] && Triple(x) == Reattach(es[i], n, incoming)
    ensures Rerouting(g, es, i + 1, S, n, incoming, h', added + [x])
  {
    PrefixStep(es, i);
    AppendAssoc(g.edges, added, [x]);
    TriplesAppend(added, [x]);
  }

  lemma RerouteSkip(g: Graph, es: seq<Edge>, i: nat, S: set<NodeId>, n: NodeId, incoming: bool, h: Graph, added: seq<Edge>)
    requires Rerouting(g, es, i, S, n, incoming, h, added) && i < |es| && Far(es[i], incoming) in S
    ensures Rerouting(g, es, i + 1, S, n, incoming, h, added)
  {
    PrefixStep(es, i);
  }

  // `collapse_subgraph(graph, subgraph, new_node)`: ValueError when new_node
  // is already a node. Otherwise new_node is added; every edge from outside
  // into the subgraph is re-created into new_node and every edge from the
  // subgraph to outside is re-created out of new_node, with the same data;
  // then the subgraph nodes go, taking internal and boundary edges with them.
  method CollapseSubgraph(g: Graph, sub: seq<NodeId>, newNode: NodeId) returns (r: Result<Graph>)
    requires Valid(g)
    ensures r.Err? <==> newNode in g.data
    ensures r.Err? ==> r.error == ValueError
    ensures r.Ok? && newNode !in sub ==> Collapsed(g, sub, newNode, r.value)
  {
    if newNode in g.data {
      return Err(ValueError);
    }
    var S := Members(sub);
    var h := AddNode(g, newNode, map[]);
    AddNodeValid(g, newNode, map[]);
    var h1: Graph;
    if g.directed {
      var ins := EdgesAt(g.edges, sub, true);
      var outs := EdgesAt(g.edges, sub, false);
      assert forall e :: e in ins ==> e in g.edges;
      assert forall e :: e in outs ==> e in g.edges;
      var h0 := AddRerouted(h, ins, S, newNode, true);
      h1 := AddRerouted(h0, outs, S, newNode, false);
      ReroutedTwice(h, h0, h1);
    } else {
      var inc := IncidentAt(g.edges, sub);
      IncidentAtEnds(g.edges, sub, g.data);
      h1 := AddRerouted(h, inc, S, newNode, false);
    }
    RemoveNodesValid(h1, sub);
    r := Ok(RemoveNodes(h1, sub));
    if newNode !in sub {
      CollapseFinish(g, h1, sub, newNode);
    }
  }

  // Two rounds of appended edges are one round of appended edges.
  lemma ReroutedTwice(h: Graph, h0: Graph, h1: Graph)
    requires |h0.edges| >= |h.edges| && h0.edges[..|h.edges|] == h.edges
    requires |h1.edges| >= |h0.edges| && h1.edges[..|h0.edges|] == h0.edges
    ensures |h1.edges| >= |h.edges| && h1.edges[..|h.edges|] == h.edges
    ensures Triples(h1.edges[|h.edges|..]) == Triples(h0.edges[|h.edges|..]) + Triples(h1.edges[|h0.edges|..])
  {
    var a0 := h0.edges[|h.edges|..];
    var a1 := h1.edges[|h0.edges|..];
    SplitAt(h0.edges, |h.edges|);
    SplitAt(h1.edges, |h0.edges|);
    AppendAssoc(h.edges, a0, a1);
    SliceAppend(h.edges, a0 + a1);
    TriplesAppend(a0, a1);
  }

  // The state `collapse_subgraph` leaves behind: the subgraph nodes are
  // gone and new_node is the last node, with empty data; the edges that did
  // not touch the subgraph stay first, in order and with their keys; after
  // them come the re-routed edges.
  ghost predicate Collapsed(g: Graph, sub: seq<NodeId>, newNode: NodeId, h: Graph)
  {
    var S := Members(sub);
    var kept := EdgesOutside(g.edges, S);
    Valid(h) && h.directed == g.directed && h.attrs == g.attrs &&
    h.nodes == Minus(g.nodes, S) + [newNode] &&
    (forall m :: m in h.data <==> (m in g.data && m !in S) || m == newNode) &&
    (forall m :: m in h.data && m != newNode ==> h.data[m] == g.data[m]) &&
    newNode in h.data && h.data[newNode] == map[] &&
    |h.edges| >= |kept| && h.edges[..|kept|] == kept &&
    Triples(h.edges[|kept|..]) == CollapsedEdges(g, sub, newNode)
  }

  lemma CollapseFinish(g: Graph, h1: Graph, sub: seq<NodeId>, newNode: NodeId)
    requires Valid(h1) && newNode !in g.data && newNode !in sub
    requires h1.directed == g.directed && h1.attrs == g.attrs && h1.nodes == g.nodes + [newNode] && h1.data == g.data[newNode := map[]]
    requires |h1.edges| >= |g.edges| && h1.edges[..|g.edges|] == g.edges
    requires Triples(h1.edges[|g.edges|..]) == CollapsedEdges(g, sub, newNode)
    ensures Collapsed(g, sub, newNode, RemoveNodes(h1, sub))
  {
    RemoveNodesValid(h1, sub);
    MinusAppendFresh(g.nodes, newNode, Members(sub));
    CollapseFinishEdges(g, h1, sub, newNode);
  }

  lemma CollapseFinishEdges(g: Graph, h1: Graph, sub: seq<NodeId>, newNode: NodeId)
    requires newNode !in sub
    requires |h1.edges| >= |g.edges| && h1.edges[..|g.edges|] == g.edges
    requires Triples(h1.edges[|g.edges|..]) == CollapsedEdges(g, sub, newNode)
    ensures var kept := EdgesOutside(g.edges, Members(sub));
      var es := RemoveNodes(h1, sub).edges;
      |es| >= |kept| && es[..|kept|] == kept && Triples(es[|kept|..]) == CollapsedEdges(g, sub, newNode)
  {
    var S := Members(sub);
    var added := h1.edges[|g.edges|..];
    SplitAt(h1.edges, |g.edges|);
    EdgesOutsideAppend(g.edges, added, S);
    CollapsedEdgesAvoid(g, sub, newNode);
    forall e | e in added ensures e.src !in S && e.tgt !in S {
      var k :| 0 <= k < |added| && added[k] == e;
      assert Triple(e) in Triples(added);
    }
    EdgesOutsideNone(added, S);
    SliceAppend(EdgesOutside(g.edges, S), added);
  }

  // No collapsed edge touches the subgraph.
  lemma CollapsedEdgesAvoid(g: Graph, sub: seq<NodeId>, newNode: NodeId)
    requires newNode !in sub
    ensures forall t :: t in CollapsedEdges(g, sub, newNode) ==> t.0 !in sub && t.1 !in sub
  {
  }

  // After collapsing, no edge touches a node of the subgraph.
  lemma CollapsedAvoidsSubgraph(g: Graph, sub: seq<NodeId>, newNode: NodeId, h: Graph)
    requires newNode !in sub && Collapsed(g, sub, newNode, h)
    ensures forall e :: e in h.edges ==> e.src !in sub && e.tgt !in sub
  {
    var S := Members(sub);
    var kept := EdgesOutside(g.edges, S);
    SplitAt(h.edges, |kept|);
    CollapsedEdgesAvoid(g, sub, newNode);
    forall e | e in h.edges ensures e.src !in sub && e.tgt !in sub {
      if e !in kept {
        var k :| 0 <= k < |h.edges| && h.edges[k] == e;
        assert h.edges[|kept|..][k - |kept|] == e;
        assert Triple(e) in Triples(h.edges[|kept|..]);
      }
    }
  }

  // The triples (source, target, data) of the edges that collapsing adds.
  function CollapsedEdges(g: Graph, sub: seq<NodeId>, newNode: NodeId): seq<(NodeId, NodeId, Attrs)>
  {
    var S := Members(sub);
    if g.directed then
      Rerouted(EdgesAt(g.edges, sub, true), S, newNode, true) + Rerouted(EdgesAt(g.edges, sub, false), S, newNode, false)
    else
      Rerouted(IncidentAt(g.edges, sub), S, newNode, false)
  }

  lemma IncidentAtEnds(es: seq<Edge>, ns: seq<NodeId>, data: map<NodeId, Attrs>)
    requires EndPointsAreNodes(es, data)
    ensures forall e :: e in IncidentAt(es, ns) ==> e.tgt in data
  {
    if ns != [] {
      IncidentAtEnds(es, ns[..|ns| - 1], data);
      if ns[|ns| - 1] in data {
        IncidentEnds(es, ns[|ns| - 1], data);
      } else {
        IncidentOfNonNode(es, ns[|ns| - 1], data);
      }
    }
  }

  lemma {:induction false} IncidentOfNonNode(es: seq<Edge>, n: NodeId, data: map<NodeId, Attrs>)
    requires EndPointsAreNodes(es, data) && n !in data
    ensures Incident(es, n) == []
    decreases |es|
  {
    if es != [] {
      assert forall e :: e in es[..|es| - 1] ==> e in es;
      IncidentOfNonNode(es[..|es| - 1], n, data);
      assert es[|es| - 1] in es;
    }
  }

  lemma MinusAppendFresh(s: seq<NodeId>, n: NodeId, xs: set<NodeId>)
    requires n !in xs
    ensures Minus(s + [n], xs) == Minus(s, xs) + [n]
  {
    assert (s + [n])[..|s + [n]| - 1] == s;
  }

  /* ---- parallel edges stay parallel ---- */

  // The edges that cross from T to outside S, in one pass over es, each
  // re-attached to n.
  function Crossing(es: seq<Edge>, T: set<NodeId>, S: set<NodeId>, n: NodeId, incoming: bool): seq<(NodeId, NodeId, Attrs)>
  {
    if es == [] then []
    else
      var e := es[|es| - 1];
      Crossing(es[..|es| - 1], T, S, n, incoming) +
        (if Near(e, incoming) in T && Far(e, incoming) !in S then [Reattach(e, n, incoming)] else [])
  }

  // In a directed graph, collapsing a subgraph listed without repetition adds
  // exactly one re-routed edge for each edge crossing its boundary, counted
  // with multiplicity: k parallel edges from u into the subgraph become k
  // parallel edges from u into the new node.
  lemma {:induction false} CollapseKeepsParallelEdges(es: seq<Edge>, sub: seq<NodeId>, n: NodeId, incoming: bool)
    requires Distinct(sub)
    ensures var S := Members(sub);
            multiset(Rerouted(EdgesAt(es, sub, incoming), S, n, incoming)) == multiset(Crossing(es, S, S, n, incoming))
  {
    var S := Members(sub);
    CrossingPrefix(es, sub, S, n, incoming);
  }

  lemma {:induction false} CrossingPrefix(es: seq<Edge>, sub: seq<NodeId>, S: set<NodeId>, n: NodeId, incoming: bool)
    requires Distinct(sub)
    ensures multiset(Rerouted(EdgesAt(es, sub, incoming), S, n, incoming)) == multiset(Crossing(es, Members(sub), S, n, incoming))
    decreases |sub|
  {
    if sub == [] {
      CrossingNone(es, Members(sub), S, n, incoming);
    } else {
      var init := sub[..|sub| - 1];
      var last := sub[|sub| - 1];
      assert Distinct(init);
      DistinctLast(sub, last);
      CrossingPrefix(es, init, S, n, incoming);
      var near := if incoming then EdgesInto(es, last) else EdgesFrom(es, last);
      ReroutedAppend(EdgesAt(es, init, incoming), near, S, n, incoming);
      ReroutedNear(es, last, S, n, incoming);
      assert Members(sub) == Members(init) + {last};
      CrossingSplit(es, Members(init), last, S, n, incoming);
    }
  }

  lemma {:induction false} CrossingNone(es: seq<Edge>, T: set<NodeId>, S: set<NodeId>, n: NodeId, incoming: bool)
    requires T == {}
    ensures Crossing(es, T, S, n, incoming) == []
    decreases |es|
  {
    if es != [] {
      CrossingNone(es[..|es| - 1], T, S, n, incoming);
    }
  }

  // Re-routing the edges at one node is the one-pass crossing at that node.
  lemma {:induction false} ReroutedNear(es: seq<Edge>, m: NodeId, S: set<NodeId>, n: NodeId, incoming: bool)
    ensures Rerouted(if incoming then EdgesInto(es, m) else EdgesFrom(es, m), S, n, incoming) == Crossing(es, {m}, S, n, incoming)
    decreases |es|
  {
    if es != [] {
      var init := es[..|es| - 1];
      var e := es[|es| - 1];
      ReroutedNear(init, m, S, n, incoming);
      if incoming {
        ReroutedAppend(EdgesInto(init, m), if e.tgt == m then [e] else [], S, n, incoming);
      } else {
        ReroutedAppend(EdgesFrom(init, m), if e.src == m then [e] else [], S, n, incoming);
      }
      ReroutedOne(e, S, n, incoming);
    }
  }

  lemma ReroutedOne(e: Edge, S: set<NodeId>, n: NodeId, incoming: bool)
    ensures Rerouted([e], S, n, incoming) == if Far(e, incoming) !in S then [Reattach(e, n, incoming)] else []
  {
    assert [e][..0] == [];
  }

  // Crossing from T + {m} counts the crossings from T and from m.
  lemma {:induction false} CrossingSplit(es: seq<Edge>, T: set<NodeId>, m: NodeId, S: set<NodeId>, n: NodeId, incoming: bool)
    requires m !in T
    ensures multiset(Crossing(es, T + {m}, S, n, incoming))
            == multiset(Crossing(es, T, S, n, incoming)) + multiset(Crossing(es, {m}, S, n, incoming))
    decreases |es|
  {
    if es != [] {
      CrossingSplit(es[..|es| - 1], T, m, S, n, incoming);
    }
  }

  /* ---------------- insert_after_predecessors / insert_before_successors ---------------- */

  // The triples of the edges moved onto n: those of es whose far end is in ps.
  function Moved(es: seq<Edge>, ps: seq<NodeId>, n: NodeId, incoming: bool): (r: seq<(NodeId, NodeId, Attrs)>)
    ensures |r| <= |es|
  {
    if es == [] then []
    else
      var e := es[|es| - 1];
      Moved(es[..|es| - 1], ps, n, incoming) + (if Far(e, incoming) in ps then [Reattach(e, n, incoming)] else [])
  }

  // The edges of es whose far end is in ps.
  function Matching(es: seq<Edge>, ps: seq<NodeId>, incoming: bool): (r: set<Edge>)
    ensures forall e :: e in r <==> e in es && Far(e, incoming) in ps
  {
    set e | e in es && Far(e, incoming) in ps
  }

  // One more edge of the snapshot: it joins the matching set and the moved
  // triples exactly when its far end is listed.
  lemma MovedStep(es: seq<Edge>, i: nat, ps: seq<NodeId>, n: NodeId, incoming: bool)
    requires i < |es|
    ensures Matching(es[..i + 1], ps, incoming) ==
      Matching(es[..i], ps, incoming) + (if Far(es[i], incoming) in ps then {es[i]} else {})
    ensures Moved(es[..i + 1], ps, n, incoming) ==
      Moved(es[..i], ps, n, incoming) + (if Far(es[i], incoming) in ps then [Reattach(es[i], n, incoming)] else [])
  {
    PrefixStep(es, i);
  }

  // `insert_after_predecessors(graph, node, new_node, pred)`: TypeError on
  // an undirected graph; with no list, the predecessors of node (a
  // NetworkXError when node is not a node); ValueError when a listed node
  // has no edge into node. Otherwise the edge new_node -> node is added and
  // every edge into node from a listed node is replaced by an edge into
  // new_node with the same data.
  method InsertAfterPredecessors(g: Graph, node: NodeId, newNode: NodeId, pred: Option<seq<NodeId>>) returns (r: Result<Graph>)
    requires Valid(g)
    ensures r.Err? <==> !g.directed || (pred.None? && node !in g.data) ||
                        (g.directed && pred.Some? && exists v :: v in pred.value && !HasEdge(g, v, node))
    ensures r.Err? ==> r.error == (if !g.directed then TypeError else if pred.None? then GraphError else ValueError)
    ensures r.Ok? && newNode != node ==>
              var ps := if pred.Some? then pred.value else Predecessors(g, node);
              InsertedAt(g, r.value, node, newNode, ps, true)
    ensures r.Ok? && newNode == node ==> r.value == AddEdge(g, node, node, map[])
  {
    if !g.directed {
      return Err(TypeError);
    }
    var ps: seq<NodeId>;
    if pred.None? {
      if node !in g.data {
        return Err(GraphError);
      }
      ps := Predecessors(g, node);
    } else {
      ps := pred.value;
      var k := 0;
      while k < |ps|
        invariant k <= |ps| && forall v :: v in ps[..k] ==> HasEdge(g, v, node)
      {
        if !HasEdge(g, ps[k], node) {
          return Err(ValueError);
        }
        assert ps[..k + 1] == ps[..k] + [ps[k]];
        k := k + 1;
      }
      assert ps[..k] == ps;
    }
    var h := InsertBetween(g, node, newNode, ps, true);
    r := Ok(h);
  }

  // `insert_before_successors(graph, node, new_node, succ)`: the mirror
  // image of `insert_after_predecessors` on out-edges.
  method InsertBeforeSuccessors(g: Graph, node: NodeId, newNode: NodeId, succ: Option<seq<NodeId>>) returns (r: Result<Graph>)
    requires Valid(g)
    ensures r.Err? <==> !g.directed || (succ.None? && node !in g.data) ||
                        (g.directed && succ.Some? && exists v :: v in succ.value && !HasEdge(g, node, v))
    ensures r.Err? ==> r.error == (if !g.directed then TypeError else if succ.None? then GraphError else ValueError)
    ensures r.Ok? && newNode != node ==>
              var ss := if succ.Some? then succ.value else Successors(g, node);
              InsertedAt(g, r.value, node, newNode, ss, false)
    ensures r.Ok? && newNode == node ==> r.value == AddEdge(g, node, node, map[])
  {
    if !g.directed {
      return Err(TypeError);
    }
    var ss: seq<NodeId>;
    if succ.None? {
      if node !in g.data {
        return Err(GraphError);
      }
      ss := Successors(g, node);
    } else {
      ss := succ.value;
      var k := 0;
      while k < |ss|
        invariant k <= |ss| && forall v :: v in ss[..k] ==> HasEdge(g, node, v)
      {
        if !HasEdge(g, node, ss[k]) {
          return Err(ValueError);
        }
        assert ss[..k + 1] == ss[..k] + [ss[k]];
        k := k + 1;
      }
      assert ss[..k] == ss;
    }
    var h := InsertBetween(g, node, newNode, ss, false);
    r := Ok(h);
  }

  // The graph after inserting newNode between node and the listed
  // neighbours: the link edge first (new_node -> node, or node -> new_node),
  // then every edge at node whose far end is listed is dropped and re-created
  // at newNode, in order, after all remaining edges.
  ghost predicate InsertedAt(g: Graph, h: Graph, node: NodeId, newNode: NodeId, ps: seq<NodeId>, incoming: bool)
  {
    var g1 := if incoming then AddEdge(g, newNode, node, map[]) else AddEdge(g, node, newNode, map[]);
    var near := if incoming then EdgesInto(g1.edges, node) else EdgesFrom(g1.edges, node);
    var kept := FilterOut(g1.edges, Matching(near, ps, incoming));
    Valid(h) && h.directed == g.directed && h.attrs == g.attrs && h.nodes == g1.nodes && h.data == g1.data &&
    |h.edges| >= |kept| && h.edges[..|kept|] == kept &&
    Triples(h.edges[|kept|..]) == Moved(near, ps, newNode, incoming)
  }

  // The shared loop of the two insertions: add the link edge, then, for each
  // edge at node (a snapshot taken after the link edge is added), move it to
  // newNode when its far end is listed. networkx's keyless `remove_edge`
  // drops the newest edge between the two nodes; unless newNode is node that
  // is the iterated edge once all its parallel edges have been visited, so
  // the model removes the iterated edge by its key. When newNode is node,
  // every re-created edge is the newest one and is removed again at once,
  // which leaves the graph with just the link edge added.
  method InsertBetween(g: Graph, node: NodeId, newNode: NodeId, ps: seq<NodeId>, incoming: bool) returns (h: Graph)
    requires Valid(g)
    ensures newNode != node ==> InsertedAt(g, h, node, newNode, ps, incoming)
    ensures newNode == node ==> h == AddEdge(g, node, node, map[])
  {
    var g1 := if incoming then AddEdge(g, newNode, node, map[]) else AddEdge(g, node, newNode, map[]);
    if newNode == node {
      return g1;
    }
    if incoming { AddEdgeValid(g, newNode, node, map[]); } else { AddEdgeValid(g, node, newNode, map[]); }
    var near := if incoming then EdgesInto(g1.edges, node) else EdgesFrom(g1.edges, node);
    SlotsUniqueDistinct(g1.directed, g1.edges);
    EdgesIntoDistinct(g1.edges, node);
    h := MoveEdges(g1, near, ps, newNode, incoming);
  }

  // The loop of the insertions over the snapshot near of edges at node:
  // each edge whose far end is listed is re-created at newNode and dropped.
  method MoveEdges(g1: Graph, near: seq<Edge>, ps: seq<NodeId>, newNode: NodeId, incoming: bool) returns (h: Graph)
    requires Valid(g1) && Distinct(near) && newNode in g1.data
    requires forall e :: e in near ==> e in g1.edges
    ensures Valid(h) && h.directed == g1.directed && h.attrs == g1.attrs && h.nodes == g1.nodes && h.data == g1.data
    ensures var kept := FilterOut(g1.edges, Matching(near, ps, incoming));
      |h.edges| >= |kept| && h.edges[..|kept|] == kept &&
      Triples(h.edges[|kept|..]) == Moved(near, ps, newNode, incoming)
  {
    SlotsUniqueDistinct(g1.directed, g1.edges);
    h := g1;
    var i := 0;
    ghost var done: set<Edge> := {};
    ghost var added: seq<Edge> := [];
    InsertStart(g1, near, ps, newNode, incoming);
    while i < |near|
      invariant Valid(h) && Inserting(g1, near, i, ps, newNode, incoming, h, done, added)
      invariant h.directed == g1.directed && h.attrs == g1.attrs && h.nodes == g1.nodes && h.data == g1.data
    {
      var e := near[i];
      assert e in near;
      if Far(e, incoming) in ps {
        // (v, node) or (node, v) are the end points of the iterated edge.
        var u, v := if incoming then e.src else newNode, if incoming then newNode else e.tgt;
        AddEdgeValid(h, u, v, e.data);
        ghost var x := Edge(u, v, NewKey(h, u, v), e.data);
        var h' := AddEdge(h, u, v, e.data);
        InsertMoveStep(g1, near, i, ps, newNode, incoming, h, done, added, h', x);
        RemoveEdgeValid(h', e.src, e.tgt, e.key);
        h := RemoveEdge(h', e.src, e.tgt, e.key).value;
        added := added + [x];
        done := done + {e};
      } else {
        InsertSkipStep(g1, near, i, ps, newNode, incoming, h, done, added);
      }
      assert Inserting(g1, near, i + 1, ps, newNode, incoming, h, done, added);
      i := i + 1;
    }
    WholePrefix(near);
    SliceAppend(FilterOut(g1.edges, done), added);
  }

  // The loop invariant of InsertBetween after i edges of the snapshot near:
  // the matching edges seen so far are gone from their place and their
  // re-attached copies follow the remaining edges, in order.
  ghost predicate Inserting(g1: Graph, near: seq<Edge>, i: nat, ps: seq<NodeId>, newNode: NodeId, incoming: bool,
                            h: Graph, done: set<Edge>, added: seq<Edge>)
  {
    i <= |near| && Distinct(near) && Distinct(g1.edges) && newNode in g1.data &&
    (forall e :: e in near ==> e in g1.edges && e.src in g1.data && e.tgt in g1.data) &&
    done == Matching(near[..i], ps, incoming) &&
    h.edges == FilterOut(g1.edges, done) + added &&
    Triples(added) == Moved(near[..i], ps, newNode, incoming)
  }

  lemma InsertStart(g1: Graph, near: seq<Edge>, ps: seq<NodeId>, newNode: NodeId, incoming: bool)
    requires Valid(g1) && Distinct(near) && Distinct(g1.edges) && newNode in g1.data
    requires forall e :: e in near ==> e in g1.edges
    ensures Inserting(g1, near, 0, ps, newNode, incoming, g1, {}, [])
  {
    FilterOutNone(g1.edges, {});
    assert g1.edges + [] == g1.edges;
    forall e | e in near ensures e.src in g1.data && e.tgt in g1.data {
      assert e in g1.edges;
    }
  }

  lemma InsertSkipStep(g1: Graph, near: seq<Edge>, i: nat, ps: seq<NodeId>, newNode: NodeId, incoming: bool,
                       h: Graph, done: set<Edge>, added: seq<Edge>)
    requires Inserting(g1, near, i, ps, newNode, incoming, h, done, added)
    requires i < |near| && Far(near[i], incoming) !in ps
    ensures Inserting(g1, near, i + 1, ps, newNode, incoming, h, done, added)
  {
    MovedStep(near, i, ps, newNode, incoming);
  }

  lemma InsertMoveStep(g1: Graph, near: seq<Edge>, i: nat, ps: seq<NodeId>, newNode: NodeId, incoming: bool,
                       h: Graph, done: set<Edge>, added: seq<Edge>, h': Graph, x: Edge)
    requires Inserting(g1, near, i, ps, newNode, incoming, h, done, added)
    requires i < |near| && Far(near[i], incoming) in ps
    requires h'.edges == h.edges + [x] && SlotsUnique(h'.directed, h'.edges)
    requires Triple(x) == Reattach(near[i], newNode, incoming)
    ensures RemoveEdge(h', near[i].src, near[i].tgt, near[i].key).Ok?
    ensures var h2 := RemoveEdge(h', near[i].src, near[i].tgt, near[i].key).value;
      h2 == h'.(edges := h2.edges) &&
      Inserting(g1, near, i + 1, ps, newNode, incoming, h2, done + {near[i]}, added + [x])
  {
    var e := near[i];
    DistinctAt(near, i);
    MovedStep(near, i, ps, newNode, incoming);
    AppendAssoc(FilterOut(g1.edges, done), added, [x]);
    MoveStep(g1, h', e, done, added, x);
    TriplesAppend(added, [x]);
  }

  // Removing the iterated edge by its key drops it from the kept prefix:
  // it sits there, and no other edge shares its slot.
  lemma MoveStep(g1: Graph, h': Graph, e: Edge, done: set<Edge>, added: seq<Edge>, x: Edge)
    requires Distinct(g1.edges) && SlotsUnique(h'.directed, h'.edges)
    requires e in g1.edges && e !in done
    requires h'.edges == FilterOut(g1.edges, done) + (added + [x])
    ensures RemoveEdge(h', e.src, e.tgt, e.key).Ok?
    ensures RemoveEdge(h', e.src, e.tgt, e.key).value == h'.(edges := FilterOut(g1.edges, done + {e}) + (added + [x]))
  {
    var f := FilterOut(g1.edges, done);
    assert e in f;
    var k :| 0 <= k < |f| && f[k] == e;
    assert h'.edges[k] == e;
    assert e in h'.edges;
    var r := RemoveEdge(h', e.src, e.tgt, e.key);
    var i :| 0 <= i < |h'.edges| && h'.edges[i].key == e.key && Joins(h'.directed, h'.edges[i], e.src, e.tgt)
             && r.value == h'.(edges := h'.edges[..i] + h'.edges[i + 1..]);
    SlotOwner(h'.directed, h'.edges, i, k);
    RemoveInPrefix(f, added + [x], k);
    FilterOutOneMore(g1.edges, done, e, k);
  }
}
