// Operations on object flow graphs (`flow_graph`): the empty flow graph
// with its input and output marker nodes, copying one flow graph into
// another, flattening nested graphs, and joining two sequential captures.
module FlowGraphs {
  import opened Base
  import opened Graphs
  import GraphUtil

  /* ---------------- Marker nodes ---------------- */

  // `graph.graph[name]` when it holds a node name.
  function Marker(g: Graph, name: string): (r: Option<NodeId>)
    ensures r.Some? <==> name in g.attrs && g.attrs[name].VStr?
  {
    if name in g.attrs && g.attrs[name].VStr? then Some(g.attrs[name].s) else None
  }

  function InputNode(g: Graph): Option<NodeId>
  {
    Marker(g, "input_node")
  }

  function OutputNode(g: Graph): Option<NodeId>
  {
    Marker(g, "output_node")
  }

  // A well-formed directed graph whose `input_node` and `output_node`
  // attributes name two distinct nodes.
  ghost predicate IsFlowGraph(g: Graph)
  {
    Valid(g) && g.directed &&
    InputNode(g).Some? && OutputNode(g).Some? &&
    InputNode(g).value in g.data && OutputNode(g).value in g.data &&
    InputNode(g).value != OutputNode(g).value
  }

  /* ---------------- new_flow_graph ---------------- */

  // `new_flow_graph()`: an empty multidigraph with the two marker nodes
  // `__in__:<token>` and `__out__:<token>` (the random tokens are
  // parameters) and no edges.
  function NewFlowGraph(inToken: string, outToken: string): (r: Graph)
    ensures IsFlowGraph(r)
    ensures r.nodes == [InputNode(r).value, OutputNode(r).value] && r.edges == []
    ensures r.data == map[InputNode(r).value := map[], OutputNode(r).value := map[]]
    ensures r.attrs.Keys == {"input_node", "output_node"}
  {
    var i := GraphUtil.NodeName(inToken, Some("__in__"), None);
    var o := GraphUtil.NodeName(outToken, Some("__out__"), None);
    assert i[..6] == "__in__" && o[..6] == "__out_";
    var g := Graph(true, map["input_node" := VStr(i), "output_node" := VStr(o)], [i, o], map[i := map[], o := map[]], []);
    assert InputNode(g) == Some(i) && OutputNode(g) == Some(o);
    g
  }

  /* ---------------- copy_flow_graph ---------------- */

  // `add_nodes_from((n, data[n]) for n in ns)`: each node in turn is added
  // with its data, or has its data updated when it is already a node.
  function AddNodesWithData(g: Graph, ns: seq<NodeId>, data: map<NodeId, Attrs>): Graph
    requires forall n :: n in ns ==> n in data
  {
    if ns == [] then g
    else AddNode(AddNodesWithData(g, ns[..|ns| - 1], data), ns[|ns| - 1], data[ns[|ns| - 1]])
  }

  // `add_edges_from((u, v, data) for ...)`: each edge in turn gets a new key.
  function AddTriples(g: Graph, ts: seq<(NodeId, NodeId, Attrs)>): Graph
  {
    if ts == [] then g
    else
      var t := ts[|ts| - 1];
      AddEdge(AddTriples(g, ts[..|ts| - 1]), t.0, t.1, t.2)
  }

  // The end points named by a sequence of edges to add.
  function Ends(ts: seq<(NodeId, NodeId, Attrs)>): (r: set<NodeId>)
    ensures forall t :: t in ts ==> t.0 in r && t.1 in r
  {
    if ts == [] then {}
    else
      assert forall t :: t in ts ==> t in ts[..|ts| - 1] || t == ts[|ts| - 1];
      Ends(ts[..|ts| - 1]) + {ts[|ts| - 1].0, ts[|ts| - 1].1}
  }

  // The nodes added one by one: exactly the listed nodes join, each with its
  // data merged into any data it had; other nodes and all edges stay.
  lemma {:induction false} AddNodesWithDataSpec(g: Graph, ns: seq<NodeId>, data: map<NodeId, Attrs>)
    requires forall n :: n in ns ==> n in data
    ensures var r := AddNodesWithData(g, ns, data);
            r.edges == g.edges && r.directed == g.directed && r.attrs == g.attrs &&
            (forall m :: m in r.data <==> m in g.data || m in ns) &&
            (forall m :: m in r.data && m !in ns ==> r.data[m] == g.data[m]) &&
            (forall m :: m in ns ==> r.data[m] == if m in g.data then g.data[m] + data[m] else data[m]) &&
            (Valid(g) ==> Valid(r))
  {
    AddNodesKeep(g, ns, data);
    AddNodesMerge(g, ns, data);
    if Valid(g) {
      AddNodesValid(g, ns, data);
    }
  }

  // The data a listed node ends up with.
  function Merged(prior: map<NodeId, Attrs>, data: map<NodeId, Attrs>, m: NodeId): Attrs
    requires m in data
  {
    if m in prior then prior[m] + data[m] else data[m]
  }

  lemma {:induction false} AddNodesKeep(g: Graph, ns: seq<NodeId>, data: map<NodeId, Attrs>)
    requires forall n :: n in ns ==> n in data
    ensures var r := AddNodesWithData(g, ns, data);
            r.edges == g.edges && r.directed == g.directed && r.attrs == g.attrs &&
            (forall m :: m in r.data <==> m in g.data || m in ns) &&
            (forall m :: m in r.data && m !in ns ==> r.data[m] == g.data[m])
    decreases |ns|
  {
    if ns != [] {
      var init := ns[..|ns| - 1];
      assert forall m :: m in ns <==> m in init || m == ns[|ns| - 1];
      AddNodesKeep(g, init, data);
    }
  }

  lemma {:induction false} AddNodesMerge(g: Graph, ns: seq<NodeId>, data: map<NodeId, Attrs>)
    requires forall n :: n in ns ==> n in data
    ensures var r := AddNodesWithData(g, ns, data);
            forall m :: m in ns ==> m in r.data && r.data[m] == Merged(g.data, data, m)
    decreases |ns|
  {
    if ns != [] {
      var init := ns[..|ns| - 1];
      var n := ns[|ns| - 1];
      assert forall m :: m in ns <==> m in init || m == n;
      AddNodesMerge(g, init, data);
      AddNodesKeep(g, init, data);
      var r0 := AddNodesWithData(g, init, data);
      var d := Merged(g.data, data, n);
      if n in init {
        assert d + data[n] == d;
      }
      assert AddNode(r0, n, data[n]).data[n] == d;
    }
  }

  lemma {:induction false} AddNodesValid(g: Graph, ns: seq<NodeId>, data: map<NodeId, Attrs>)
    requires forall n :: n in ns ==> n in data
    requires Valid(g)
    ensures Valid(AddNodesWithData(g, ns, data))
    decreases |ns|
  {
    if ns != [] {
      var n := ns[|ns| - 1];
      AddNodesValid(g, ns[..|ns| - 1], data);
      AddNodeValid(AddNodesWithData(g, ns[..|ns| - 1], data), n, data[n]);
    }
  }

  // The edges added one by one: each gets a new key after all the existing
  // edges.
  lemma {:induction false} AddTriplesEdges(g: Graph, ts: seq<(NodeId, NodeId, Attrs)>)
    ensures var r := AddTriples(g, ts);
            r.directed == g.directed && r.attrs == g.attrs &&
            |r.edges| == |g.edges| + |ts| && r.edges[..|g.edges|] == g.edges && Triples(r.edges[|g.edges|..]) == ts
    decreases |ts|
  {
    if ts != [] {
      var n := |ts| - 1;
      var t := ts[n];
      AddTriplesEdges(g, ts[..n]);
      var r0 := AddTriples(g, ts[..n]);
      var x := Edge(t.0, t.1, NewKey(r0, t.0, t.1), t.2);
      AppendSlice(r0.edges, x, |g.edges|);
      TriplesAppend(r0.edges[|g.edges|..], [x]);
      assert Triples([x]) == [t];
      PrefixStep(ts, n);
      WholePrefix(ts);
    }
  }

  lemma AppendSlice<T>(s: seq<T>, x: T, n: nat)
    requires n <= |s|
    ensures (s + [x])[..n] == s[..n] && (s + [x])[n..] == s[n..] + [x]
  {
  }

  // One more node or edge at the end of the list.
  lemma AddNodesStep(g: Graph, ns: seq<NodeId>, n: NodeId, data: map<NodeId, Attrs>)
    requires forall m :: m in ns ==> m in data
    requires n in data
    ensures AddNodesWithData(g, ns + [n], data) == AddNode(AddNodesWithData(g, ns, data), n, data[n])
  {
    SliceAppend(ns, [n]);
  }

  lemma AddTriplesStep(g: Graph, ts: seq<(NodeId, NodeId, Attrs)>, t: (NodeId, NodeId, Attrs))
    ensures AddTriples(g, ts + [t]) == AddEdge(AddTriples(g, ts), t.0, t.1, t.2)
  {
    SliceAppend(ts, [t]);
  }

  // Missing end points join with empty data; the nodes there were keep
  // their data.
  lemma {:induction false} AddTriplesData(g: Graph, ts: seq<(NodeId, NodeId, Attrs)>)
    ensures var r := AddTriples(g, ts);
            (forall m :: m in g.data ==> m in r.data && r.data[m] == g.data[m]) &&
            (forall m :: m in r.data && m !in g.data ==> m in Ends(ts) && r.data[m] == map[]) &&
            (Ends(ts) <= g.data.Keys ==> r.nodes == g.nodes && r.data == g.data)
    decreases |ts|
  {
    if ts != [] {
      AddTriplesData(g, ts[..|ts| - 1]);
    }
  }

  lemma {:induction false} AddTriplesValid(g: Graph, ts: seq<(NodeId, NodeId, Attrs)>)
    requires Valid(g)
    ensures Valid(AddTriples(g, ts))
    decreases |ts|
  {
    if ts != [] {
      var t := ts[|ts| - 1];
      AddTriplesValid(g, ts[..|ts| - 1]);
      AddEdgeValid(AddTriples(g, ts[..|ts| - 1]), t.0, t.1, t.2);
    }
  }

  // The two marker nodes of a flow graph.
  function Markers(g: Graph): set<NodeId>
    requires InputNode(g).Some? && OutputNode(g).Some?
  {
    {InputNode(g).value, OutputNode(g).value}
  }

  // `copy_flow_graph(source, dest)`: the nodes of the source other than its
  // markers, with their data, then the source edges touching no marker.
  function CopyInto(source: Graph, dest: Graph): Graph
    requires Valid(source) && InputNode(source).Some? && OutputNode(source).Some?
  {
    var skip := Markers(source);
    AddTriples(AddNodesWithData(dest, Minus(source.nodes, skip), source.data), Triples(EdgesOutside(source.edges, skip)))
  }

  // Every source node except the markers joins the destination with its
  // data (merged into the data of a node of the same name); every source
  // edge touching no marker is added after the destination's edges; nothing
  // else changes.
  lemma CopyIntoSpec(source: Graph, dest: Graph)
    requires Valid(source) && InputNode(source).Some? && OutputNode(source).Some?
    ensures var r := CopyInto(source, dest);
            var skip := Markers(source);
            r.directed == dest.directed && r.attrs == dest.attrs &&
            (forall n :: n in r.data <==> n in dest.data || (n in source.data && n !in skip)) &&
            (forall n :: n in source.data && n !in skip ==>
               r.data[n] == if n in dest.data then dest.data[n] + source.data[n] else source.data[n]) &&
            (forall n :: n in dest.data && (n !in source.data || n in skip) ==> r.data[n] == dest.data[n]) &&
            |r.edges| >= |dest.edges| && r.edges[..|dest.edges|] == dest.edges &&
            Triples(r.edges[|dest.edges|..]) == Triples(EdgesOutside(source.edges, skip)) &&
            (Valid(dest) ==> Valid(r))
  {
    var skip := Markers(source);
    var ns := Minus(source.nodes, skip);
    AddNodesWithDataSpec(dest, ns, source.data);
    var h := AddNodesWithData(dest, ns, source.data);
    var ts := Triples(EdgesOutside(source.edges, skip));
    forall t | t in ts ensures t.0 in h.data && t.1 in h.data {
      var i :| 0 <= i < |ts| && ts[i] == t;
      assert EdgesOutside(source.edges, skip)[i] in source.edges;
    }
    EndsWithin(ts, h.data.Keys);
    AddTriplesEdges(h, ts);
    AddTriplesData(h, ts);
    if Valid(dest) {
      AddTriplesValid(h, ts);
    }
  }

  lemma {:induction false} EndsWithin(ts: seq<(NodeId, NodeId, Attrs)>, ns: set<NodeId>)
    requires forall t :: t in ts ==> t.0 in ns && t.1 in ns
    ensures Ends(ts) <= ns
    decreases |ts|
  {
    if ts != [] {
      EndsWithin(ts[..|ts| - 1], ns);
      assert ts[|ts| - 1] in ts;
    }
  }

  // `copy_flow_graph`: the nodes, then the edges.
  method CopyFlowGraph(source: Graph, dest: Graph) returns (r: Graph)
    requires Valid(source) && InputNode(source).Some? && OutputNode(source).Some?
    ensures r == CopyInto(source, dest)
  {
    var skip := Markers(source);
    r := AddNodesFrom(dest, source.nodes, skip, source.data);
    r := AddEdgesFrom(r, source.edges, skip);
  }

  // The node loop of `copy_flow_graph`.
  method AddNodesFrom(g: Graph, ns: seq<NodeId>, skip: set<NodeId>, data: map<NodeId, Attrs>) returns (r: Graph)
    requires forall n :: n in ns && n !in skip ==> n in data
    ensures r == AddNodesWithData(g, Minus(ns, skip), data)
  {
    r := g;
    ghost var added: seq<NodeId> := [];
    for i := 0 to |ns|
      invariant added == Minus(ns[..i], skip)
      invariant forall n :: n in added ==> n in data
      invariant r == AddNodesWithData(g, added, data)
    {
      MinusStep(ns, i, skip);
      if ns[i] !in skip {
        AddNodesStep(g, added, ns[i], data);
        r := AddNode(r, ns[i], data[ns[i]]);
        added := added + [ns[i]];
      }
    }
    WholePrefix(ns);
  }

  lemma MinusStep(ns: seq<NodeId>, i: nat, skip: set<NodeId>)
    requires i < |ns|
    ensures Minus(ns[..i + 1], skip) == Minus(ns[..i], skip) + (if ns[i] in skip then [] else [ns[i]])
  {
    assert ns[..i + 1][..i] == ns[..i];
  }

  // The edge loop of `copy_flow_graph`.
  method AddEdgesFrom(g: Graph, es: seq<Edge>, skip: set<NodeId>) returns (r: Graph)
    ensures r == AddTriples(g, Triples(EdgesOutside(es, skip)))
  {
    r := g;
    for i := 0 to |es|
      invariant r == AddTriples(g, Triples(EdgesOutside(es[..i], skip)))
    {
      OutsideStep(es, i, skip);
      var e := es[i];
      if e.src !in skip && e.tgt !in skip {
        AddTriplesStep(g, Triples(EdgesOutside(es[..i], skip)), Triple(e));
        r := AddEdge(r, e.src, e.tgt, e.data);
      }
    }
    WholePrefix(es);
  }

  lemma OutsideStep(es: seq<Edge>, i: nat, skip: set<NodeId>)
    requires i < |es|
    ensures var t := Triples(EdgesOutside(es[..i + 1], skip));
            var e := es[i];
            if e.src !in skip && e.tgt !in skip then t == Triples(EdgesOutside(es[..i], skip)) + [Triple(e)]
            else t == Triples(EdgesOutside(es[..i], skip))
  {
    assert es[..i + 1][..i] == es[..i];
    TriplesAppend(EdgesOutside(es[..i], skip), [es[i]]);
  }

  /* ---------------- flatten: rewiring one nested graph ---------------- */

  // Node n holds a nested graph that `flatten` lifts.
  predicate Nests(g: Graph, n: NodeId)
  {
    n in g.data && Truthy(Get(g.data[n], "graph"))
  }

  // Edge e carries the object with id x.
  predicate CarriesId(e: Edge, x: Value)
  {
    Get(e.data, "id") == x
  }

  // An edge to add, without its key: (source, target, data).
  type Wire = (NodeId, NodeId, Attrs)

  // The position of the first edge carrying x, if any.
  function FirstCarrier(es: seq<Edge>, x: Value): (r: Option<nat>)
    ensures r.Some? ==> r.value < |es| && CarriesId(es[r.value], x) &&
                        forall j :: 0 <= j < r.value ==> !CarriesId(es[j], x)
    ensures r.None? ==> forall j :: 0 <= j < |es| ==> !CarriesId(es[j], x)
  {
    if es == [] then None
    else if CarriesId(es[0], x) then Some(0)
    else
      var rest := FirstCarrier(es[1..], x);
      if rest.None? then None else Some(rest.value + 1)
  }

  // The edge replacing subgraph input edge e: from the first parent in-edge
  // of the node carrying the same object, with that edge's source port, or
  // else from the parent's input marker.
  function InputWire(carriers: seq<Edge>, inNode: NodeId, e: Edge): Wire
  {
    var x := Get(e.data, "id");
    var i := FirstCarrier(carriers, x);
    if i.Some? then
      (carriers[i.value].src, e.tgt,
       map["id" := x, "sourceport" := Get(carriers[i.value].data, "sourceport"), "targetport" := Get(e.data, "targetport")])
    else (inNode, e.tgt, map["id" := x, "targetport" := Get(e.data, "targetport")])
  }

  function InputWires(carriers: seq<Edge>, inNode: NodeId, es: seq<Edge>): (r: seq<Wire>)
    ensures |r| == |es| && forall i :: 0 <= i < |es| ==> r[i] == InputWire(carriers, inNode, es[i])
  {
    if es == [] then [] else InputWires(carriers, inNode, es[..|es| - 1]) + [InputWire(carriers, inNode, es[|es| - 1])]
  }

  // The edge connecting subgraph output edge e to parent out-edge f.
  function OutputWire(e: Edge, f: Edge): Wire
  {
    (e.src, f.tgt, map["id" := Get(e.data, "id"), "sourceport" := Get(e.data, "sourceport"), "targetport" := Get(f.data, "targetport")])
  }

  // One wire per parent out-edge carrying the object of e.
  function OutputWiresOf(fs: seq<Edge>, e: Edge): seq<Wire>
  {
    if fs == [] then []
    else
      var f := fs[|fs| - 1];
      OutputWiresOf(fs[..|fs| - 1], e) + (if CarriesId(f, Get(e.data, "id")) then [OutputWire(e, f)] else [])
  }

  function OutputWires(fs: seq<Edge>, es: seq<Edge>): seq<Wire>
  {
    if es == [] then [] else OutputWires(fs, es[..|es| - 1]) + OutputWiresOf(fs, es[|es| - 1])
  }

  // Output rewiring joins exactly the pairs of a subgraph output edge and a
  // parent out-edge carrying the same object; an output no out-edge
  // carries yields nothing.
  lemma {:induction false} OutputWiresOfSpec(fs: seq<Edge>, e: Edge, t: Wire)
    ensures t in OutputWiresOf(fs, e) <==>
            exists j :: 0 <= j < |fs| && CarriesId(fs[j], Get(e.data, "id")) && t == OutputWire(e, fs[j])
    decreases |fs|
  {
    if fs != [] {
      var n := |fs| - 1;
      OutputWiresOfSpec(fs[..n], e, t);
      if t in OutputWiresOf(fs[..n], e) {
        var j :| 0 <= j < n && CarriesId(fs[..n][j], Get(e.data, "id")) && t == OutputWire(e, fs[..n][j]);
        assert fs[j] == fs[..n][j];
      }
      if exists j :: 0 <= j < |fs| && CarriesId(fs[j], Get(e.data, "id")) && t == OutputWire(e, fs[j]) {
        var j :| 0 <= j < |fs| && CarriesId(fs[j], Get(e.data, "id")) && t == OutputWire(e, fs[j]);
        if j < n {
          assert fs[..n][j] == fs[j];
        }
      }
    }
  }

  lemma {:induction false} OutputWiresSpec(fs: seq<Edge>, es: seq<Edge>, t: Wire)
    ensures t in OutputWires(fs, es) <==> exists i :: 0 <= i < |es| && t in OutputWiresOf(fs, es[i])
    decreases |es|
  {
    if es != [] {
      var n := |es| - 1;
      var init := es[..n];
      OutputWiresSpec(fs, init, t);
      assert OutputWires(fs, es) == OutputWires(fs, init) + OutputWiresOf(fs, es[n]);
      if t in OutputWires(fs, init) {
        var i :| 0 <= i < n && t in OutputWiresOf(fs, init[i]);
        assert init[i] == es[i];
      }
      if i :| 0 <= i < |es| && t in OutputWiresOf(fs, es[i]) {
        if i < n {
          assert init[i] == es[i];
        }
      }
    }
  }

  // One step of each fold.
  lemma InputWiresStep(carriers: seq<Edge>, inNode: NodeId, es: seq<Edge>, i: nat)
    requires i < |es|
    ensures InputWires(carriers, inNode, es[..i + 1]) == InputWires(carriers, inNode, es[..i]) + [InputWire(carriers, inNode, es[i])]
  {
    PrefixStep(es, i);
  }

  lemma OutputWiresOfStep(fs: seq<Edge>, e: Edge, j: nat)
    requires j < |fs|
    ensures OutputWiresOf(fs[..j + 1], e) ==
            OutputWiresOf(fs[..j], e) + (if CarriesId(fs[j], Get(e.data, "id")) then [OutputWire(e, fs[j])] else [])
  {
    PrefixStep(fs, j);
  }

  lemma OutputWiresStep(fs: seq<Edge>, es: seq<Edge>, i: nat)
    requires i < |es|
    ensures OutputWires(fs, es[..i + 1]) == OutputWires(fs, es[..i]) + OutputWiresOf(fs, es[i])
  {
    PrefixStep(es, i);
  }

  lemma {:induction false} AddTriplesConcat(g: Graph, a: seq<Wire>, b: seq<Wire>)
    ensures AddTriples(g, a + b) == AddTriples(AddTriples(g, a), b)
    decreases |b|
  {
    if b != [] {
      var n := |b| - 1;
      AddTriplesConcat(g, a, b[..n]);
      AppendLast(a, b);
      AddTriplesStep(g, a + b[..n], b[n]);
      AddTriplesStep(AddTriples(g, a), b[..n], b[n]);
    } else {
      assert a + b == a;
    }
  }

  lemma AppendLast<T>(a: seq<T>, b: seq<T>)
    requires b != []
    ensures (a + b[..|b| - 1]) + [b[|b| - 1]] == a + b && b[..|b| - 1] + [b[|b| - 1]] == b
  {
  }

  // An added edge not into (out of) n leaves the in-edges (out-edges) of n.
  lemma AddEdgeKeepsInEdges(g: Graph, u: NodeId, v: NodeId, attrs: Attrs, n: NodeId)
    requires v != n
    ensures InEdges(AddEdge(g, u, v, attrs), n) == InEdges(g, n)
  {
    SliceAppend(g.edges, [Edge(u, v, NewKey(g, u, v), attrs)]);
  }

  lemma AddEdgeKeepsOutEdges(g: Graph, u: NodeId, v: NodeId, attrs: Attrs, n: NodeId)
    requires u != n
    ensures OutEdges(AddEdge(g, u, v, attrs), n) == OutEdges(g, n)
  {
    SliceAppend(g.edges, [Edge(u, v, NewKey(g, u, v), attrs)]);
  }

  // The search in the input loop of `flatten`: the first in-edge of the
  // node carrying x, or |carriers| when the loop ends without `break`.
  method FindCarrier(carriers: seq<Edge>, x: Value) returns (j: nat)
    ensures j <= |carriers|
    ensures if j < |carriers| then FirstCarrier(carriers, x) == Some(j) else FirstCarrier(carriers, x).None?
  {
    j := 0;
    while j < |carriers| && !CarriesId(carriers[j], x)
      invariant j <= |carriers|
      invariant forall l :: 0 <= l < j ==> !CarriesId(carriers[l], x)
    {
      j := j + 1;
    }
  }

  // The input loop of `flatten`: each subgraph input edge is rewired from
  // the producer found by the search, or from the input marker.
  method RewireInputs(g: Graph, inNode: NodeId, node: NodeId, es: seq<Edge>) returns (r: Graph)
    requires forall e :: e in es ==> e.tgt != node
    ensures r == AddTriples(g, InputWires(InEdges(g, node), inNode, es))
  {
    r := g;
    ghost var cs := InEdges(g, node);
    ghost var done: seq<Wire> := [];
    for i := 0 to |es|
      invariant done == InputWires(cs, inNode, es[..i])
      invariant r == AddTriples(g, done)
      invariant InEdges(r, node) == cs
    {
      var e := es[i];
      var x := Get(e.data, "id");
      var carriers := InEdges(r, node);
      var j := FindCarrier(carriers, x);
      var src, attrs;
      if j < |carriers| {
        src := carriers[j].src;
        attrs := map["id" := x, "sourceport" := Get(carriers[j].data, "sourceport"), "targetport" := Get(e.data, "targetport")];
      } else {
        src := inNode;
        attrs := map["id" := x, "targetport" := Get(e.data, "targetport")];
      }
      assert (src, e.tgt, attrs) == InputWire(cs, inNode, e);
      InputWiresStep(cs, inNode, es, i);
      AddTriplesStep(g, done, (src, e.tgt, attrs));
      assert e in es;
      AddEdgeKeepsInEdges(r, src, e.tgt, attrs, node);
      r := AddEdge(r, src, e.tgt, attrs);
      done := done + [(src, e.tgt, attrs)];
    }
    WholePrefix(es);
  }

  // The inner output loop of `flatten`: one edge for every out-edge of the
  // node carrying the object of subgraph output edge e.
  method ConnectOutput(g: Graph, node: NodeId, e: Edge) returns (r: Graph)
    requires e.src != node
    ensures r == AddTriples(g, OutputWiresOf(OutEdges(g, node), e))
    ensures OutEdges(r, node) == OutEdges(g, node)
  {
    var x := Get(e.data, "id");
    var srcPort := Get(e.data, "sourceport");
    var fs := OutEdges(g, node);
    r := g;
    ghost var done: seq<Wire> := [];
    for j := 0 to |fs|
      invariant done == OutputWiresOf(fs[..j], e)
      invariant r == AddTriples(g, done)
      invariant OutEdges(r, node) == fs
    {
      OutputWiresOfStep(fs, e, j);
      var f := fs[j];
      if Get(f.data, "id") == x {
        var attrs := map["id" := x, "sourceport" := srcPort, "targetport" := Get(f.data, "targetport")];
        assert (e.src, f.tgt, attrs) == OutputWire(e, f);
        AddTriplesStep(g, done, (e.src, f.tgt, attrs));
        AddEdgeKeepsOutEdges(r, e.src, f.tgt, attrs, node);
        r := AddEdge(r, e.src, f.tgt, attrs);
        done := done + [(e.src, f.tgt, attrs)];
      }
    }
    WholePrefix(fs);
  }

  // The output loop of `flatten`.
  method RewireOutputs(g: Graph, node: NodeId, es: seq<Edge>) returns (r: Graph)
    requires forall e :: e in es ==> e.src != node
    ensures r == AddTriples(g, OutputWires(OutEdges(g, node), es))
  {
    r := g;
    ghost var fs := OutEdges(g, node);
    ghost var done: seq<Wire> := [];
    for i := 0 to |es|
      invariant done == OutputWires(fs, es[..i])
      invariant r == AddTriples(g, done)
      invariant OutEdges(r, node) == fs
    {
      OutputWiresStep(fs, es, i);
      AddTriplesConcat(g, done, OutputWiresOf(fs, es[i]));
      assert es[i] in es;
      r := ConnectOutput(r, node, es[i]);
      done := done + OutputWiresOf(fs, es[i]);
    }
    WholePrefix(es);
  }

  // One nested graph `sub` (already flattened) lifted into h in place of
  // `node`: its nodes and inner edges copied, its input edges rewired from
  // the parent's producers (or the input marker), its output edges to the
  // parent's consumers, and `node` removed with its edges. The in-edges are
  // read after the copy and the out-edges after the input rewiring, as the
  // loops read them.
  function Inline(h: Graph, inNode: NodeId, node: NodeId, sub: Graph): Graph
    requires Valid(sub) && InputNode(sub).Some? && OutputNode(sub).Some?
  {
    RemoveNodes(WiredOut(WiredIn(CopyInto(sub, h), inNode, node, sub), node, sub), [node])
  }

  // The input rewiring of `flatten`, on graph c after the copy.
  function WiredIn(c: Graph, inNode: NodeId, node: NodeId, sub: Graph): Graph
    requires InputNode(sub).Some?
  {
    AddTriples(c, InputWires(InEdges(c, node), inNode, EdgesFrom(sub.edges, InputNode(sub).value)))
  }

  // The output rewiring of `flatten`, on graph c after the input rewiring.
  function WiredOut(c: Graph, node: NodeId, sub: Graph): Graph
    requires OutputNode(sub).Some?
  {
    AddTriples(c, OutputWires(OutEdges(c, node), EdgesInto(sub.edges, OutputNode(sub).value)))
  }

  method InlineNested(h: Graph, inNode: NodeId, node: NodeId, sub: Graph) returns (r: Graph)
    requires Valid(sub) && InputNode(sub).Some? && OutputNode(sub).Some?
    requires node in h.data && node !in sub.data
    ensures r == Inline(h, inNode, node, sub)
  {
    r := CopyFlowGraph(sub, h);
    CopyIntoSpec(sub, h);
    var ins := EdgesFrom(sub.edges, InputNode(sub).value);
    var outs := EdgesInto(sub.edges, OutputNode(sub).value);
    ghost var c := r;
    r := RewireInputs(r, inNode, node, ins);
    assert r == WiredIn(c, inNode, node, sub);
    AddTriplesData(c, InputWires(InEdges(c, node), inNode, ins));
    ghost var d := r;
    r := RewireOutputs(r, node, outs);
    assert r == WiredOut(d, node, sub);
    AddTriplesData(d, OutputWires(OutEdges(d, node), outs));
    r := RemoveNode(r, node).value;
  }

  // The end points of the rewiring edges.
  lemma InputWiresEnds(carriers: seq<Edge>, inNode: NodeId, es: seq<Edge>, ns: set<NodeId>)
    requires inNode in ns
    requires forall c :: c in carriers ==> c.src in ns
    requires forall e :: e in es ==> e.tgt in ns
    ensures Ends(InputWires(carriers, inNode, es)) <= ns
  {
    var ts := InputWires(carriers, inNode, es);
    forall t | t in ts ensures t.0 in ns && t.1 in ns {
      var i :| 0 <= i < |ts| && ts[i] == t;
      assert es[i] in es;
      var j := FirstCarrier(carriers, Get(es[i].data, "id"));
      if j.Some? {
        assert carriers[j.value] in carriers;
      }
    }
    EndsWithin(ts, ns);
  }

  lemma OutputWiresEnds(fs: seq<Edge>, es: seq<Edge>, ns: set<NodeId>)
    requires forall f :: f in fs ==> f.tgt in ns
    requires forall e :: e in es ==> e.src in ns
    ensures Ends(OutputWires(fs, es)) <= ns
  {
    var ts := OutputWires(fs, es);
    forall t | t in ts ensures t.0 in ns && t.1 in ns {
      OutputWiresSpec(fs, es, t);
      var i :| 0 <= i < |es| && t in OutputWiresOf(fs, es[i]);
      OutputWiresOfSpec(fs, es[i], t);
      var j :| 0 <= j < |fs| && CarriesId(fs[j], Get(es[i].data, "id")) && t == OutputWire(es[i], fs[j]);
      assert es[i] in es && fs[j] in fs;
    }
    EndsWithin(ts, ns);
  }

  // The rewiring keeps the graph well formed, adds no node other than the
  // input marker and nodes of the nested graph, and keeps the data of the
  // nodes there were; the nodes it adds have empty data.
  lemma WiredInData(c: Graph, inNode: NodeId, node: NodeId, sub: Graph)
    requires Valid(c) && Valid(sub) && InputNode(sub).Some?
    ensures var r := WiredIn(c, inNode, node, sub);
            (forall m :: m in r.data ==> m in c.data || m in sub.data || m == inNode) &&
            (forall m :: m in c.data ==> m in r.data && r.data[m] == c.data[m]) &&
            (forall m :: m in r.data && m !in c.data ==> r.data[m] == map[])
  {
    var cs := InEdges(c, node);
    var es := EdgesFrom(sub.edges, InputNode(sub).value);
    var ts := InputWires(cs, inNode, es);
    InputWiresEnds(cs, inNode, es, c.data.Keys + sub.data.Keys + {inNode});
    AddTriplesData(c, ts);
  }

  lemma WiredInValid(c: Graph, inNode: NodeId, node: NodeId, sub: Graph)
    requires Valid(c) && InputNode(sub).Some?
    ensures var r := WiredIn(c, inNode, node, sub);
            Valid(r) && r.directed == c.directed && r.attrs == c.attrs
  {
    var ts := InputWires(InEdges(c, node), inNode, EdgesFrom(sub.edges, InputNode(sub).value));
    AddTriplesValid(c, ts);
    AddTriplesEdges(c, ts);
  }

  lemma WiredOutData(c: Graph, node: NodeId, sub: Graph)
    requires Valid(c) && Valid(sub) && OutputNode(sub).Some?
    ensures var r := WiredOut(c, node, sub);
            (forall m :: m in r.data ==> m in c.data || m in sub.data) &&
            (forall m :: m in c.data ==> m in r.data && r.data[m] == c.data[m]) &&
            (forall m :: m in r.data && m !in c.data ==> r.data[m] == map[])
  {
    var os := OutEdges(c, node);
    var es := EdgesInto(sub.edges, OutputNode(sub).value);
    var ts := OutputWires(os, es);
    OutputWiresEnds(os, es, c.data.Keys + sub.data.Keys);
    AddTriplesData(c, ts);
  }

  lemma WiredOutValid(c: Graph, node: NodeId, sub: Graph)
    requires Valid(c) && OutputNode(sub).Some?
    ensures var r := WiredOut(c, node, sub);
            Valid(r) && r.directed == c.directed && r.attrs == c.attrs
  {
    var ts := OutputWires(OutEdges(c, node), EdgesInto(sub.edges, OutputNode(sub).value));
    AddTriplesValid(c, ts);
    AddTriplesEdges(c, ts);
  }

  // Lifting one nested graph keeps the graph well formed.
  lemma InlineValid(h: Graph, inNode: NodeId, node: NodeId, sub: Graph)
    requires Valid(h) && Valid(sub) && InputNode(sub).Some? && OutputNode(sub).Some?
    ensures var r := Inline(h, inNode, node, sub);
            Valid(r) && r.directed == h.directed && r.attrs == h.attrs
  {
    var c := CopyInto(sub, h);
    CopyIntoSpec(sub, h);
    WiredInValid(c, inNode, node, sub);
    var ins := WiredIn(c, inNode, node, sub);
    WiredOutValid(ins, node, sub);
    RemoveNodesValid(WiredOut(ins, node, sub), [node]);
  }

  // The nodes after lifting one nested graph: the node is gone, every other
  // node comes from the parent, the nested graph or is the input marker,
  // and the parent's nodes the nested graph does not name keep their data.
  lemma InlineData(h: Graph, inNode: NodeId, node: NodeId, sub: Graph)
    requires Valid(h) && Valid(sub) && InputNode(sub).Some? && OutputNode(sub).Some?
    ensures var r := Inline(h, inNode, node, sub);
            (forall m :: m in r.data ==> m != node && (m in h.data || m in sub.data || m == inNode)) &&
            (forall m :: m in h.data && m != node && m !in sub.data ==> m in r.data && r.data[m] == h.data[m])
  {
    var c := CopyInto(sub, h);
    CopyIntoSpec(sub, h);
    WiredInData(c, inNode, node, sub);
    WiredInValid(c, inNode, node, sub);
    var ins := WiredIn(c, inNode, node, sub);
    WiredOutData(ins, node, sub);
  }

  // No graph nested in any node.
  ghost predicate Flat(g: Graph)
  {
    forall m :: !Nests(g, m)
  }

  // A graph that only adds nodes with empty data to c nests no more than c.
  lemma AddedEmptyNests(c: Graph, r: Graph)
    requires forall m :: m in c.data ==> m in r.data && r.data[m] == c.data[m]
    requires forall m :: m in r.data && m !in c.data ==> r.data[m] == map[]
    ensures forall m :: Nests(r, m) ==> Nests(c, m)
  {
    forall m | m in r.data && m !in c.data ensures !Nests(r, m) {
      assert Get(r.data[m], "graph") == VNone;
    }
  }

  // Copying a flat graph makes no node nest that did not before.
  lemma CopyIntoNests(sub: Graph, h: Graph)
    requires Valid(sub) && InputNode(sub).Some? && OutputNode(sub).Some? && Flat(sub)
    ensures forall m :: Nests(CopyInto(sub, h), m) ==> Nests(h, m)
  {
    CopyIntoSpec(sub, h);
    var c := CopyInto(sub, h);
    var skip := Markers(sub);
    forall m | Nests(c, m) ensures Nests(h, m) {
      if m in sub.data && m !in skip {
        assert !Nests(sub, m);
        if m in h.data {
          MergedNests(h.data[m], sub.data[m]);
        }
      }
    }
  }

  // Merging data without a truthy graph over d keeps d's graph.
  lemma MergedNests(d: Attrs, e: Attrs)
    requires !Truthy(Get(e, "graph"))
    ensures Truthy(Get(d + e, "graph")) ==> Truthy(Get(d, "graph"))
  {
  }

  // Lifting a flat nested graph makes no node nest that did not before.
  lemma InlineFlat(h: Graph, inNode: NodeId, node: NodeId, sub: Graph)
    requires Valid(h) && Valid(sub) && InputNode(sub).Some? && OutputNode(sub).Some? && Flat(sub)
    ensures forall m :: Nests(Inline(h, inNode, node, sub), m) ==> Nests(h, m)
  {
    var c := CopyInto(sub, h);
    CopyIntoSpec(sub, h);
    CopyIntoNests(sub, h);
    WiredInData(c, inNode, node, sub);
    WiredInValid(c, inNode, node, sub);
    var ins := WiredIn(c, inNode, node, sub);
    AddedEmptyNests(c, ins);
    WiredOutData(ins, node, sub);
    var outs := WiredOut(ins, node, sub);
    AddedEmptyNests(ins, outs);
    var r := Inline(h, inNode, node, sub);
    assert forall m :: m in r.data ==> m in outs.data && r.data[m] == outs.data[m];
  }

  /* ---------------- flatten: the recursion ---------------- */

  // The graph nested in node n.
  function Nested(g: Graph, n: NodeId): Graph
    requires Nests(g, n) && g.data[n]["graph"].VGraph?
  {
    g.data[n]["graph"].graph
  }

  // A flow graph `flatten` can process, with graphs nested at most d deep:
  // every nested graph it lifts is again such a flow graph, and no name
  // inside it (at any depth) is a node of the enclosing graph.
  ghost predicate FlattenReady(g: Graph, d: nat)
    decreases d
  {
    IsFlowGraph(g) &&
    forall n :: Nests(g, n) ==>
      d > 0 && g.data[n]["graph"].VGraph? && FlattenReady(Nested(g, n), d - 1) &&
      Names(Nested(g, n), d - 1) !! g.data.Keys
  }

  // The nodes of g and of the graphs nested in it, at most d deep.
  ghost function Names(g: Graph, d: nat): set<NodeId>
    decreases d
  {
    g.data.Keys +
    if d == 0 then {}
    else set n, x {:trigger x in Names(Nested(g, n), d - 1)} | n in g.data && Nests(g, n) && g.data[n]["graph"].VGraph? && x in Names(Nested(g, n), d - 1) :: x
  }

  lemma NamesNested(g: Graph, d: nat, n: NodeId)
    requires d > 0 && Nests(g, n) && g.data[n]["graph"].VGraph?
    ensures Names(Nested(g, n), d - 1) <= Names(g, d)
  {
  }

  // `flatten(graph)`: the nodes present at the start, in order, each nesting
  // one replaced by its own flattened graph.
  function FlattenSpec(g: Graph, d: nat): (r: Graph)
    requires FlattenReady(g, d)
    ensures Valid(r) && r.directed && r.attrs == g.attrs
    decreases d, 1
  {
    FlattenFrom(g, d, |g.nodes|)
  }

  // The graph after the first k nodes of the snapshot are processed.
  function FlattenFrom(g: Graph, d: nat, k: nat): (r: Graph)
    requires FlattenReady(g, d) && k <= |g.nodes|
    ensures Valid(r) && r.directed && r.attrs == g.attrs
    decreases d, 0, k
  {
    if k == 0 then g
    else
      var h := FlattenFrom(g, d, k - 1);
      var n := g.nodes[k - 1];
      if !Nests(g, n) then h
      else
        var sub := FlattenSpec(Nested(g, n), d - 1);
        InlineValid(h, InputNode(g).value, n, sub);
        Inline(h, InputNode(g).value, n, sub)
  }

  // Every node of the flattened graph is a name of the original.
  lemma {:induction false} FlattenNames(g: Graph, d: nat)
    requires FlattenReady(g, d)
    ensures FlattenSpec(g, d).data.Keys <= Names(g, d)
    decreases d, 1
  {
    FlattenFromNames(g, d, |g.nodes|);
  }

  lemma {:induction false} FlattenFromNames(g: Graph, d: nat, k: nat)
    requires FlattenReady(g, d) && k <= |g.nodes|
    ensures FlattenFrom(g, d, k).data.Keys <= Names(g, d)
    decreases d, 0, k
  {
    if k > 0 {
      FlattenFromNames(g, d, k - 1);
      var n := g.nodes[k - 1];
      if Nests(g, n) {
        FlattenFromKeys(g, d, k);
        FlattenNames(Nested(g, n), d - 1);
        NamesNested(g, d, n);
        NamesHas(g, d);
      } else {
        FlattenFromSkip(g, d, k);
      }
    }
  }

  // Lifting the k-th snapshot node adds only the nodes of its own
  // flattened graph and the input marker.
  lemma FlattenFromKeys(g: Graph, d: nat, k: nat)
    requires FlattenReady(g, d) && 0 < k <= |g.nodes| && Nests(g, g.nodes[k - 1])
    requires d > 0 && g.data[g.nodes[k - 1]]["graph"].VGraph? && FlattenReady(Nested(g, g.nodes[k - 1]), d - 1)
    ensures FlattenFrom(g, d, k).data.Keys <=
            FlattenFrom(g, d, k - 1).data.Keys + FlattenSpec(Nested(g, g.nodes[k - 1]), d - 1).data.Keys + {InputNode(g).value}
  {
    var n := g.nodes[k - 1];
    var sub := FlattenSpec(Nested(g, n), d - 1);
    assert sub.attrs == Nested(g, n).attrs;
    InlineData(FlattenFrom(g, d, k - 1), InputNode(g).value, n, sub);
  }

  lemma NamesHas(g: Graph, d: nat)
    ensures g.data.Keys <= Names(g, d)
  {
  }

  // A snapshot node that nests nothing is skipped.
  lemma FlattenFromSkip(g: Graph, d: nat, k: nat)
    requires FlattenReady(g, d) && 0 < k <= |g.nodes| && !Nests(g, g.nodes[k - 1])
    ensures FlattenFrom(g, d, k) == FlattenFrom(g, d, k - 1)
  {
  }

  ghost predicate KeepsData(r: Graph, g: Graph, m: NodeId)
  {
    m in r.data && m in g.data && r.data[m] == g.data[m]
  }

  // The snapshot nodes not yet processed keep their original data.
  lemma {:induction false} FlattenFromPending(g: Graph, d: nat, k: nat)
    requires FlattenReady(g, d) && k <= |g.nodes|
    ensures forall j :: k <= j < |g.nodes| ==>
              KeepsData(FlattenFrom(g, d, k), g, g.nodes[j])
    decreases k
  {
    if k > 0 {
      FlattenFromPending(g, d, k - 1);
      var n := g.nodes[k - 1];
      if Nests(g, n) {
        var h := FlattenFrom(g, d, k - 1);
        var sub := FlattenSpec(Nested(g, n), d - 1);
        FlattenApart(g, d, n);
        InlineData(h, InputNode(g).value, n, sub);
        forall j | k <= j < |g.nodes|
          ensures KeepsData(FlattenFrom(g, d, k), g, g.nodes[j])
        {
          var m := g.nodes[j];
          assert m in g.data && m != n;
          assert m !in sub.data;
        }
      } else {
        FlattenFromSkip(g, d, k);
      }
    }
  }

  // Every node of the original that nests nothing keeps its data.
  lemma {:induction false} FlattenFromKeeps(g: Graph, d: nat, k: nat, m: NodeId)
    requires FlattenReady(g, d) && k <= |g.nodes| && m in g.data && !Nests(g, m)
    ensures KeepsData(FlattenFrom(g, d, k), g, m)
    decreases k
  {
    if k > 0 {
      FlattenFromKeeps(g, d, k - 1, m);
      var n := g.nodes[k - 1];
      if Nests(g, n) {
        var h := FlattenFrom(g, d, k - 1);
        var sub := FlattenSpec(Nested(g, n), d - 1);
        FlattenApart(g, d, n);
        InlineData(h, InputNode(g).value, n, sub);
        assert m !in sub.data;
      } else {
        FlattenFromSkip(g, d, k);
      }
    }
  }

  // The flattened graph of a nesting node shares no name with the outer graph.
  lemma FlattenApart(g: Graph, d: nat, n: NodeId)
    requires FlattenReady(g, d) && Nests(g, n)
    ensures FlattenSpec(Nested(g, n), d - 1).data.Keys !! g.data.Keys
  {
    FlattenNames(Nested(g, n), d - 1);
  }

  // A node absent from both graphs, other than the input marker, stays absent.
  lemma InlineAbsent(h: Graph, inNode: NodeId, node: NodeId, sub: Graph, x: NodeId)
    requires Valid(h) && Valid(sub) && InputNode(sub).Some? && OutputNode(sub).Some?
    requires (x !in h.data && x !in sub.data && x != inNode) || x == node
    ensures x !in Inline(h, inNode, node, sub).data
  {
    InlineData(h, inNode, node, sub);
  }

  // A nesting node, once processed, stays removed (unless it is the input
  // marker, which the input rewiring may add back).
  lemma {:induction false} FlattenFromRemoved(g: Graph, d: nat, k: nat, j: nat)
    requires FlattenReady(g, d) && j < k <= |g.nodes|
    requires Nests(g, g.nodes[j]) && g.nodes[j] != InputNode(g).value
    ensures g.nodes[j] !in FlattenFrom(g, d, k).data
    decreases k
  {
    var n := g.nodes[k - 1];
    if j < k - 1 {
      FlattenFromRemoved(g, d, k - 1, j);
    }
    if Nests(g, n) {
      FlattenApart(g, d, n);
      var sub := FlattenSpec(Nested(g, n), d - 1);
      assert g.nodes[j] in g.data;
      InlineAbsent(FlattenFrom(g, d, k - 1), InputNode(g).value, n, sub, g.nodes[j]);
    } else {
      FlattenFromSkip(g, d, k);
    }
  }

  // m is a node of g and none of the first k snapshot nodes.
  ghost predicate Unvisited(g: Graph, k: nat, m: NodeId)
  {
    m in g.nodes && forall j :: 0 <= j < k && j < |g.nodes| ==> g.nodes[j] != m
  }

  // Inlining the k-th snapshot node, from a flat graph, leaves only nodes
  // that are not among the first k nesting.
  lemma InlineUnvisited(g: Graph, h: Graph, inNode: NodeId, sub: Graph, k: nat, m: NodeId)
    requires Valid(h) && Valid(sub) && InputNode(sub).Some? && OutputNode(sub).Some? && Flat(sub)
    requires 0 < k <= |g.nodes|
    requires Nests(h, m) ==> Unvisited(g, k - 1, m)
    ensures Nests(Inline(h, inNode, g.nodes[k - 1], sub), m) ==> Unvisited(g, k, m)
  {
    var node := g.nodes[k - 1];
    if Nests(Inline(h, inNode, node, sub), m) {
      InlineFlat(h, inNode, node, sub);
      InlineAbsent(h, inNode, node, sub, node);
      UnvisitedStep(g, k, m);
    }
  }

  lemma UnvisitedStep(g: Graph, k: nat, m: NodeId)
    requires 0 < k <= |g.nodes| && Unvisited(g, k - 1, m) && g.nodes[k - 1] != m
    ensures Unvisited(g, k, m)
  {
  }

  // Only snapshot nodes not yet processed can nest.
  lemma {:induction false} FlattenFromFlat(g: Graph, d: nat, k: nat, m: NodeId)
    requires FlattenReady(g, d) && k <= |g.nodes|
    ensures Nests(FlattenFrom(g, d, k), m) ==> Unvisited(g, k, m)
    decreases d, 0, k
  {
    if k > 0 {
      FlattenFromFlat(g, d, k - 1, m);
      var n := g.nodes[k - 1];
      var h := FlattenFrom(g, d, k - 1);
      if Nests(g, n) {
        FlattenFlat(Nested(g, n), d - 1);
        var sub := FlattenSpec(Nested(g, n), d - 1);
        InlineUnvisited(g, h, InputNode(g).value, sub, k, m);
      } else {
        FlattenFromSkip(g, d, k);
        FlattenFromPending(g, d, k - 1);
        assert KeepsData(h, g, n);
      }
    }
  }

  lemma {:induction false} FlattenFlat(g: Graph, d: nat)
    requires FlattenReady(g, d)
    ensures Flat(FlattenSpec(g, d))
    decreases d, 1
  {
    forall m ensures !Nests(FlattenSpec(g, d), m) {
      FlattenFromFlat(g, d, |g.nodes|, m);
      assert m in g.data ==> m in g.nodes;
    }
  }

  // `flatten` leaves no nested graph, and every node it leaves is a name
  // from the original tree of graphs.
  lemma FlattenShape(g: Graph, d: nat)
    requires FlattenReady(g, d)
    ensures Flat(FlattenSpec(g, d)) && FlattenSpec(g, d).data.Keys <= Names(g, d)
  {
    FlattenFlat(g, d);
    FlattenNames(g, d);
  }

  // Every node of the original that nests nothing keeps its data.
  lemma FlattenKeeps(g: Graph, d: nat)
    requires FlattenReady(g, d)
    ensures forall m :: m in g.data && !Nests(g, m) ==> KeepsData(FlattenSpec(g, d), g, m)
  {
    forall m | m in g.data && !Nests(g, m) ensures KeepsData(FlattenSpec(g, d), g, m) {
      FlattenFromKeeps(g, d, |g.nodes|, m);
    }
  }

  // Every nesting node other than the input marker is gone, with its edges.
  lemma FlattenRemoves(g: Graph, d: nat)
    requires FlattenReady(g, d)
    ensures var r := FlattenSpec(g, d);
            forall m :: Nests(g, m) && m != InputNode(g).value ==>
              m !in r.data && forall e :: e in r.edges ==> e.src != m && e.tgt != m
  {
    var r := FlattenSpec(g, d);
    forall m | Nests(g, m) && m != InputNode(g).value ensures m !in r.data {
      assert m in g.nodes;
      var j :| 0 <= j < |g.nodes| && g.nodes[j] == m;
      FlattenFromRemoved(g, d, |g.nodes|, j);
    }
  }

  // `flatten(graph)`: the loop over the nodes present at the start, each
  // nested graph flattened (in place) before it is lifted. The ghost d
  // bounds the nesting depth.
  method Flatten(g: Graph, ghost d: nat) returns (r: Graph)
    requires FlattenReady(g, d)
    ensures r == FlattenSpec(g, d)
    decreases d
  {
    var inNode := InputNode(g).value;
    var ns := g.nodes;
    r := g;
    for k := 0 to |ns|
      invariant r == FlattenFrom(g, d, k)
    {
      FlattenFromPending(g, d, k);
      var n := ns[k];
      var v := Get(r.data[n], "graph");
      if Truthy(v) {
        assert Nests(g, n);
        var sub := Flatten(v.graph, d - 1);
        FlattenApart(g, d, n);
        r := InlineNested(r, inNode, n, sub);
      }
    }
  }

  /* ---------------- join ---------------- */

  // The last edge of es carrying object id x.
  function LastCarrier(es: seq<Edge>, x: Value): (r: Option<nat>)
    ensures r.Some? ==> r.value < |es| && CarriesId(es[r.value], x) &&
                        forall j :: r.value < j < |es| ==> !CarriesId(es[j], x)
    ensures r.None? ==> forall j :: 0 <= j < |es| ==> !CarriesId(es[j], x)
    decreases |es|
  {
    if es == [] then None
    else if CarriesId(es[|es| - 1], x) then Some(|es| - 1)
    else LastCarrier(es[..|es| - 1], x)
  }

  // The output table of `join`, built from the edges into the output marker
  // in order: each object id maps to the source and key of the edge carrying
  // it, a later edge overwriting an earlier one.
  function OutputTable(es: seq<Edge>): map<Value, (NodeId, nat)>
  {
    if es == [] then map[]
    else
      var e := es[|es| - 1];
      OutputTable(es[..|es| - 1])[Get(e.data, "id") := (e.src, e.key)]
  }

  // The table holds exactly the ids carried by es, each mapped to the last
  // edge carrying it.
  lemma {:induction false} OutputTableSpec(es: seq<Edge>, x: Value)
    ensures x in OutputTable(es) <==> LastCarrier(es, x).Some?
    ensures x in OutputTable(es) ==>
              OutputTable(es)[x] == (es[LastCarrier(es, x).value].src, es[LastCarrier(es, x).value].key)
    decreases |es|
  {
    if es != [] {
      var n := |es| - 1;
      OutputTableSpec(es[..n], x);
      if !CarriesId(es[n], x) && LastCarrier(es[..n], x).Some? {
        assert es[..n][LastCarrier(es[..n], x).value] == es[LastCarrier(es[..n], x).value];
      }
    }
  }

  // `graph.edge[u][v][k][name]`, read as None when there is no such edge
  // or attribute.
  function EdgeAttr(g: Graph, u: NodeId, v: NodeId, k: nat, name: string): Value
  {
    var i := EdgeIndex(g.edges, g.directed, u, v, k);
    if i.Some? then Get(g.edges[i.value].data, name) else VNone
  }

  // The edge that `join` adds for one input edge e of the second graph:
  // from the producer recorded in the output table, with that output edge's
  // sourceport, or else from the input marker.
  function JoinInputWire(first: Graph, table: map<Value, (NodeId, nat)>, inNode: NodeId, out: NodeId, e: Edge): Wire
  {
    var x := Get(e.data, "id");
    if x in table then
      (table[x].0, e.tgt,
       map["id" := x, "sourceport" := EdgeAttr(first, table[x].0, out, table[x].1, "sourceport"),
           "targetport" := Get(e.data, "targetport")])
    else (inNode, e.tgt, map["id" := x, "targetport" := Get(e.data, "targetport")])
  }

  function JoinInputWires(first: Graph, table: map<Value, (NodeId, nat)>, inNode: NodeId, out: NodeId, es: seq<Edge>): (r: seq<Wire>)
    ensures |r| == |es| && forall i :: 0 <= i < |es| ==> r[i] == JoinInputWire(first, table, inNode, out, es[i])
  {
    if es == [] then []
    else JoinInputWires(first, table, inNode, out, es[..|es| - 1]) + [JoinInputWire(first, table, inNode, out, es[|es| - 1])]
  }

  // One output edge e of the second graph: the first graph's output edge
  // with the same id is removed (NetworkXError when that slot is empty), then
  // e's producer is connected to the output marker.
  function JoinOutput(g: Graph, out: NodeId, table: map<Value, (NodeId, nat)>, e: Edge): Result<Graph>
  {
    var x := Get(e.data, "id");
    var h := if x in table then RemoveEdge(g, table[x].0, out, table[x].1) else Ok(g);
    if h.Err? then h
    else Ok(AddEdge(h.value, e.src, out, map["id" := x, "sourceport" := Get(e.data, "sourceport")]))
  }

  function JoinOutputs(g: Graph, out: NodeId, table: map<Value, (NodeId, nat)>, es: seq<Edge>): Result<Graph>
  {
    if es == [] then Ok(g)
    else
      var prev := JoinOutputs(g, out, table, es[..|es| - 1]);
      if prev.Err? then prev else JoinOutput(prev.value, out, table, es[|es| - 1])
  }

  // The first graph with the second copied in and the second's inputs wired.
  function JoinedInputs(first: Graph, second: Graph): Graph
    requires Valid(second) && InputNode(first).Some? && OutputNode(first).Some?
    requires InputNode(second).Some? && OutputNode(second).Some?
  {
    var out := OutputNode(first).value;
    var table := OutputTable(InEdges(first, out));
    AddTriples(CopyInto(second, first),
               JoinInputWires(first, table, InputNode(first).value, out, OutEdges(second, InputNode(second).value)))
  }

  // `join(first, second)`.
  function JoinSpec(first: Graph, second: Graph): Result<Graph>
    requires Valid(second) && InputNode(first).Some? && OutputNode(first).Some?
    requires InputNode(second).Some? && OutputNode(second).Some?
  {
    var out := OutputNode(first).value;
    JoinOutputs(JoinedInputs(first, second), out, OutputTable(InEdges(first, out)),
                InEdges(second, OutputNode(second).value))
  }

  // Every entry of the output table names an edge of the first graph.
  lemma OutputTableEdges(first: Graph, out: NodeId, x: Value)
    requires x in OutputTable(InEdges(first, out))
    ensures var t := OutputTable(InEdges(first, out))[x];
            EdgeIndex(first.edges, first.directed, t.0, out, t.1).Some?
  {
    var es := InEdges(first, out);
    OutputTableSpec(es, x);
    assert es[LastCarrier(es, x).value] in es;
  }

  // An error in the output fold is final.
  lemma {:induction false} JoinOutputsErr(g: Graph, out: NodeId, table: map<Value, (NodeId, nat)>, es: seq<Edge>, i: nat)
    requires i <= |es| && JoinOutputs(g, out, table, es[..i]).Err?
    ensures JoinOutputs(g, out, table, es) == JoinOutputs(g, out, table, es[..i])
    decreases |es|
  {
    if i == |es| {
      WholePrefix(es);
    } else {
      var n := |es| - 1;
      assert es[..n][..i] == es[..i];
      JoinOutputsErr(g, out, table, es[..n], i);
    }
  }

  lemma JoinOutputsStep(g: Graph, out: NodeId, table: map<Value, (NodeId, nat)>, es: seq<Edge>, i: nat)
    requires i < |es|
    ensures JoinOutputs(g, out, table, es[..i + 1]) ==
              var prev := JoinOutputs(g, out, table, es[..i]);
              if prev.Err? then prev else JoinOutput(prev.value, out, table, es[i])
  {
    PrefixStep(es, i);
  }

  lemma JoinInputWiresStep(first: Graph, table: map<Value, (NodeId, nat)>, inNode: NodeId, out: NodeId, es: seq<Edge>, i: nat)
    requires i < |es|
    ensures JoinInputWires(first, table, inNode, out, es[..i + 1]) ==
              JoinInputWires(first, table, inNode, out, es[..i]) + [JoinInputWire(first, table, inNode, out, es[i])]
  {
    PrefixStep(es, i);
  }

  // The edges of g begin with those of f.
  ghost predicate Extends(g: Graph, f: Graph)
  {
    |f.edges| <= |g.edges| && g.edges[..|f.edges|] == f.edges && g.directed == f.directed
  }

  lemma AddEdgeExtends(g: Graph, f: Graph, u: NodeId, v: NodeId, attrs: Attrs)
    requires Extends(g, f)
    ensures Extends(AddEdge(g, u, v, attrs), f)
  {
    AppendSlice(g.edges, Edge(u, v, NewKey(g, u, v), attrs), |f.edges|);
  }

  // An edge attribute read in a graph extending f is the one read in f.
  lemma EdgeAttrExtends(g: Graph, f: Graph, u: NodeId, v: NodeId, k: nat, name: string)
    requires Extends(g, f) && EdgeIndex(f.edges, f.directed, u, v, k).Some?
    ensures EdgeAttr(g, u, v, k, name) == EdgeAttr(f, u, v, k, name)
  {
    EdgeIndexPrefix(f.edges, g.edges, f.directed, u, v, k);
    var i := EdgeIndex(f.edges, f.directed, u, v, k).value;
    assert g.edges[..|f.edges|][i] == g.edges[i];
  }

  // The input loop of `join`: the sourceport is read from the graph being
  // built, whose edges still begin with those of the first graph.
  method JoinInputs(g: Graph, first: Graph, table: map<Value, (NodeId, nat)>, inNode: NodeId, out: NodeId, es: seq<Edge>)
    returns (r: Graph)
    requires Extends(g, first)
    requires forall x :: x in table ==> EdgeIndex(first.edges, first.directed, table[x].0, out, table[x].1).Some?
    ensures r == AddTriples(g, JoinInputWires(first, table, inNode, out, es))
  {
    r := g;
    ghost var done: seq<Wire> := [];
    for i := 0 to |es|
      invariant done == JoinInputWires(first, table, inNode, out, es[..i])
      invariant r == AddTriples(g, done)
      invariant Extends(r, first)
    {
      var e := es[i];
      var x := Get(e.data, "id");
      var src, attrs;
      if x in table {
        var key;
        src, key := table[x].0, table[x].1;
        EdgeAttrExtends(r, first, src, out, key, "sourceport");
        attrs := map["id" := x, "sourceport" := EdgeAttr(r, src, out, key, "sourceport"),
                     "targetport" := Get(e.data, "targetport")];
      } else {
        src := inNode;
        attrs := map["id" := x, "targetport" := Get(e.data, "targetport")];
      }
      assert (src, e.tgt, attrs) == JoinInputWire(first, table, inNode, out, e);
      JoinInputWiresStep(first, table, inNode, out, es, i);
      AddTriplesStep(g, done, (src, e.tgt, attrs));
      AddEdgeExtends(r, first, src, e.tgt, attrs);
      r := AddEdge(r, src, e.tgt, attrs);
      done := done + [(src, e.tgt, attrs)];
    }
    WholePrefix(es);
  }

  // The output loop of `join`; the first failing `remove_edge` ends it.
  method JoinOutputLoop(g: Graph, out: NodeId, table: map<Value, (NodeId, nat)>, es: seq<Edge>) returns (r: Result<Graph>)
    ensures r == JoinOutputs(g, out, table, es)
  {
    var h := g;
    for i := 0 to |es|
      invariant JoinOutputs(g, out, table, es[..i]) == Ok(h)
    {
      var e := es[i];
      var x := Get(e.data, "id");
      JoinOutputsStep(g, out, table, es, i);
      if x in table {
        var removed := RemoveEdge(h, table[x].0, out, table[x].1);
        if removed.Err? {
          JoinOutputsErr(g, out, table, es, i + 1);
          return removed;
        }
        h := removed.value;
      }
      h := AddEdge(h, e.src, out, map["id" := x, "sourceport" := Get(e.data, "sourceport")]);
    }
    WholePrefix(es);
    r := Ok(h);
  }

  // `join(first, second)`: copy the second graph into (a copy of) the
  // first, wire its inputs, then its outputs.
  method Join(first: Graph, second: Graph) returns (r: Result<Graph>)
    requires Valid(second) && InputNode(first).Some? && OutputNode(first).Some?
    requires InputNode(second).Some? && OutputNode(second).Some?
    ensures r == JoinSpec(first, second)
  {
    var inNode := InputNode(first).value;
    var out := OutputNode(first).value;
    var table := OutputTable(InEdges(first, out));
    forall x | x in table
      ensures EdgeIndex(first.edges, first.directed, table[x].0, out, table[x].1).Some?
    {
      OutputTableEdges(first, out, x);
    }
    var g := CopyFlowGraph(second, first);
    CopyIntoSpec(second, first);
    g := JoinInputs(g, first, table, inNode, out, OutEdges(second, InputNode(second).value));
    r := JoinOutputLoop(g, out, table, InEdges(second, OutputNode(second).value));
  }

  // `join` wires an input of the second graph carrying x from the source of
  // the first graph's last output edge carrying x, with that edge's
  // sourceport; when no output edge carries x, from the input marker.
  lemma JoinInputWireSpec(first: Graph, e: Edge)
    requires Valid(first) && InputNode(first).Some? && OutputNode(first).Some?
    ensures var out := OutputNode(first).value;
            var es := InEdges(first, out);
            var x := Get(e.data, "id");
            var w := JoinInputWire(first, OutputTable(es), InputNode(first).value, out, e);
            var p := LastCarrier(es, x);
            w.1 == e.tgt &&
            (p.Some? ==> w.0 == es[p.value].src &&
                         w.2 == map["id" := x, "sourceport" := Get(es[p.value].data, "sourceport"),
                                    "targetport" := Get(e.data, "targetport")]) &&
            (p.None? ==> w.0 == InputNode(first).value &&
                         w.2 == map["id" := x, "targetport" := Get(e.data, "targetport")])
  {
    var out := OutputNode(first).value;
    var es := InEdges(first, out);
    var x := Get(e.data, "id");
    OutputTableSpec(es, x);
    var p := LastCarrier(es, x);
    if p.Some? {
      var f := es[p.value];
      assert f in es;
      var q :| 0 <= q < |first.edges| && first.edges[q] == f;
      var i := EdgeIndex(first.edges, first.directed, f.src, out, f.key).value;
      SlotOwner(first.directed, first.edges, i, q);
    }
  }

  /* ---------------- Output edges per object id ---------------- */

  // The object ids carried by the edges of es into node n, with multiplicity.
  function IdsInto(es: seq<Edge>, n: NodeId): multiset<Value>
  {
    if es == [] then multiset{}
    else IdsInto(es[..|es| - 1], n) + IdInto(es[|es| - 1], n)
  }

  function IdInto(e: Edge, n: NodeId): multiset<Value>
  {
    if e.tgt == n then multiset{Get(e.data, "id")} else multiset{}
  }

  // At most one edge into the output marker per object id.
  ghost predicate OneOutputPerId(g: Graph)
    requires OutputNode(g).Some?
  {
    forall x :: IdsInto(g.edges, OutputNode(g).value)[x] <= 1
  }

  lemma {:induction false} IdsIntoAppend(a: seq<Edge>, b: seq<Edge>, n: NodeId)
    ensures IdsInto(a + b, n) == IdsInto(a, n) + IdsInto(b, n)
    decreases |b|
  {
    if b == [] {
      AppendEmpty(a);
    } else {
      IdsIntoAppend(a, b[..|b| - 1], n);
      DropLastAppend(a, b);
    }
  }

  lemma AppendEmpty<T>(a: seq<T>)
    ensures a + [] == a
  {
  }

  lemma DropLastAppend<T>(a: seq<T>, b: seq<T>)
    requires b != []
    ensures (a + b)[..|a + b| - 1] == a + b[..|b| - 1] && (a + b)[|a + b| - 1] == b[|b| - 1]
  {
  }

  lemma {:induction false} IdsIntoNone(es: seq<Edge>, n: NodeId)
    requires forall e :: e in es ==> e.tgt != n
    ensures IdsInto(es, n) == multiset{}
    decreases |es|
  {
    if es != [] {
      assert es[|es| - 1] in es;
      IdsIntoNone(es[..|es| - 1], n);
    }
  }

  // Dropping the edge at position i takes its id out of the count.
  lemma IdsIntoDrop(es: seq<Edge>, i: nat, n: NodeId)
    requires i < |es|
    ensures IdsInto(es, n) == IdsInto(es[..i] + es[i + 1..], n) + IdInto(es[i], n)
  {
    SplitAround(es, i);
    IdsIntoAppend(es[..i], [es[i]] + es[i + 1..], n);
    IdsIntoAppend([es[i]], es[i + 1..], n);
    IdsIntoAppend(es[..i], es[i + 1..], n);
    assert IdsInto([es[i]], n) == IdInto(es[i], n) by {
      assert [es[i]][..0] == [];
    }
  }

  lemma IdsIntoAddEdge(g: Graph, u: NodeId, v: NodeId, attrs: Attrs, n: NodeId)
    ensures IdsInto(AddEdge(g, u, v, attrs).edges, n) ==
              IdsInto(g.edges, n) + (if v == n then multiset{Get(attrs, "id")} else multiset{})
  {
    var e := Edge(u, v, NewKey(g, u, v), attrs);
    assert (g.edges + [e])[..|g.edges|] == g.edges;
  }

  // Restricting to the edges into n does not change the count.
  lemma {:induction false} IdsIntoEdgesInto(es: seq<Edge>, n: NodeId)
    ensures IdsInto(EdgesInto(es, n), n) == IdsInto(es, n)
    decreases |es|
  {
    if es != [] {
      var m := |es| - 1;
      IdsIntoEdgesInto(es[..m], n);
      IdsIntoAppend(EdgesInto(es[..m], n), if es[m].tgt == n then [es[m]] else [], n);
      assert IdsInto([es[m]], n) == IdInto(es[m], n) by {
        assert [es[m]][..0] == [];
      }
    }
  }

  // An edge into n carrying x is counted.
  lemma IdsIntoHas(es: seq<Edge>, i: nat, n: NodeId)
    requires i < |es| && es[i].tgt == n
    ensures Get(es[i].data, "id") in IdsInto(es, n)
  {
    IdsIntoDrop(es, i, n);
  }

  // An id no edge into n carries is not counted.
  lemma {:induction false} IdsIntoNoCarrier(es: seq<Edge>, n: NodeId, x: Value)
    requires forall i :: 0 <= i < |es| && es[i].tgt == n ==> !CarriesId(es[i], x)
    ensures x !in IdsInto(es, n)
    decreases |es|
  {
    if es != [] {
      var m := |es| - 1;
      forall i | 0 <= i < m && es[..m][i].tgt == n ensures !CarriesId(es[..m][i], x) {
        assert es[..m][i] == es[i];
      }
      IdsIntoNoCarrier(es[..m], n, x);
    }
  }

  // Appended edges into other nodes leave the count into n unchanged.
  lemma IdsIntoAddOther(h: Graph, t: Wire, n: NodeId)
    requires t.1 != n
    ensures IdsInto(AddEdge(h, t.0, t.1, t.2).edges, n) == IdsInto(h.edges, n)
  {
    IdsIntoAddEdge(h, t.0, t.1, t.2, n);
  }

  lemma {:induction false} IdsIntoAddTriples(g: Graph, ts: seq<Wire>, n: NodeId)
    requires forall t :: t in ts ==> t.1 != n
    ensures IdsInto(AddTriples(g, ts).edges, n) == IdsInto(g.edges, n)
    decreases |ts|
  {
    if ts != [] {
      var m := |ts| - 1;
      assert ts[m] in ts;
      IdsIntoAddTriples(g, ts[..m], n);
      IdsIntoAddOther(AddTriples(g, ts[..m]), ts[m], n);
    }
  }

  lemma {:induction false} AddTriplesExtends(g: Graph, f: Graph, ts: seq<Wire>)
    requires Extends(g, f)
    ensures Extends(AddTriples(g, ts), f) && AddTriples(g, ts).attrs == g.attrs
    decreases |ts|
  {
    if ts != [] {
      var t := ts[|ts| - 1];
      AddTriplesExtends(g, f, ts[..|ts| - 1]);
      AddEdgeExtends(AddTriples(g, ts[..|ts| - 1]), f, t.0, t.1, t.2);
    }
  }

  lemma DropKeeps<T>(s: seq<T>, q: nat, a: T)
    requires q < |s| && a in s && a != s[q]
    ensures a in s[..q] + s[q + 1..]
  {
    var j :| 0 <= j < |s| && s[j] == a;
    if j < q {
      assert (s[..q] + s[q + 1..])[j] == a;
    } else {
      assert (s[..q] + s[q + 1..])[j - 1] == a;
    }
  }

  // The output edge of the first graph that the output table records for x
  // is still an edge of h.
  ghost predicate TableEdgeIn(h: Graph, first: Graph, out: NodeId, x: Value)
  {
    var es := InEdges(first, out);
    LastCarrier(es, x).Some? ==> es[LastCarrier(es, x).value] in h.edges
  }

  // The state of the output loop of `join` once the outputs of the second
  // graph carrying the ids in done are wired: one output edge for each id
  // in done, the first graph's count for every other id, and the first
  // graph's recorded output edges for the ids not yet replaced.
  ghost predicate OutputsJoined(h: Graph, first: Graph, out: NodeId, done: multiset<Value>)
  {
    Valid(h) && h.directed && h.attrs == first.attrs &&
    (forall x :: IdsInto(h.edges, out)[x] == if x in done then 1 else IdsInto(first.edges, out)[x]) &&
    (forall x :: x !in done ==> TableEdgeIn(h, first, out, x))
  }

  // The same state, with the output edges carrying x removed and x not yet
  // wired.
  ghost predicate OutputCleared(h: Graph, first: Graph, out: NodeId, done: multiset<Value>, x: Value)
  {
    Valid(h) && h.directed && h.attrs == first.attrs &&
    IdsInto(h.edges, out)[x] == 0 &&
    (forall y :: y != x ==> IdsInto(h.edges, out)[y] == if y in done then 1 else IdsInto(first.edges, out)[y]) &&
    (forall y :: y !in done && y != x ==> TableEdgeIn(h, first, out, y))
  }

  lemma TableEdgeDrop(h: Graph, first: Graph, out: NodeId, q: nat, y: Value)
    requires q < |h.edges| && TableEdgeIn(h, first, out, y) && !CarriesId(h.edges[q], y)
    ensures TableEdgeIn(DropEdge(h, q), first, out, y)
  {
    var es := InEdges(first, out);
    if LastCarrier(es, y).Some? {
      DropKeeps(h.edges, q, es[LastCarrier(es, y).value]);
    }
  }

  // `remove_edge` on the slot of the edge at position q drops that edge.
  lemma RemoveEdgeOf(h: Graph, q: nat)
    requires Valid(h) && q < |h.edges|
    ensures RemoveEdge(h, h.edges[q].src, h.edges[q].tgt, h.edges[q].key) == Ok(DropEdge(h, q))
  {
    var f := h.edges[q];
    assert HasEdgeKey(h, f.src, f.tgt, f.key);
    var i := EdgeIndex(h.edges, h.directed, f.src, f.tgt, f.key).value;
    SlotOwner(h.directed, h.edges, i, q);
    RemoveEdgeAt(h, f.src, f.tgt, f.key);
  }

  // Dropping the only edge into n carrying x clears x and no other id.
  lemma DropCount(es: seq<Edge>, q: nat, n: NodeId, x: Value)
    requires q < |es| && es[q].tgt == n && CarriesId(es[q], x) && IdsInto(es, n)[x] <= 1
    ensures IdsInto(es[..q] + es[q + 1..], n)[x] == 0
    ensures forall y :: y != x ==> IdsInto(es[..q] + es[q + 1..], n)[y] == IdsInto(es, n)[y]
  {
    IdsIntoDrop(es, q, n);
  }

  // An id the first graph outputs: its recorded edge is the one
  // `remove_edge` drops, taking the id's count from one to zero.
  lemma JoinOutputRemove(h: Graph, first: Graph, out: NodeId, done: multiset<Value>, x: Value)
    requires forall y :: IdsInto(first.edges, out)[y] <= 1
    requires OutputsJoined(h, first, out, done) && x !in done
    requires x in OutputTable(InEdges(first, out))
    ensures var t := OutputTable(InEdges(first, out))[x];
            RemoveEdge(h, t.0, out, t.1).Ok? &&
            OutputCleared(RemoveEdge(h, t.0, out, t.1).value, first, out, done, x)
  {
    var es := InEdges(first, out);
    OutputTableSpec(es, x);
    var f := es[LastCarrier(es, x).value];
    assert f in es && TableEdgeIn(h, first, out, x);
    var q :| 0 <= q < |h.edges| && h.edges[q] == f;
    RemoveEdgeOf(h, q);
    RemoveEdgeAtValid(h, q);
    var r := DropEdge(h, q);
    DropCount(h.edges, q, out, x);
    forall y | y !in done && y != x ensures TableEdgeIn(r, first, out, y) {
      TableEdgeDrop(h, first, out, q, y);
    }
  }

  // An id the first graph does not output has no output edge yet.
  lemma JoinOutputFresh(h: Graph, first: Graph, out: NodeId, done: multiset<Value>, x: Value)
    requires OutputsJoined(h, first, out, done) && x !in done
    requires x !in OutputTable(InEdges(first, out))
    ensures OutputCleared(h, first, out, done, x)
  {
    var es := InEdges(first, out);
    OutputTableSpec(es, x);
    forall i | 0 <= i < |first.edges| && first.edges[i].tgt == out ensures !CarriesId(first.edges[i], x) {
      assert first.edges[i] in es;
      var j :| 0 <= j < |es| && es[j] == first.edges[i];
    }
    IdsIntoNoCarrier(first.edges, out, x);
  }

  // Wiring the second graph's output carrying x completes the step.
  lemma JoinOutputAdd(h: Graph, first: Graph, out: NodeId, done: multiset<Value>, x: Value, src: NodeId, port: Value)
    requires OutputCleared(h, first, out, done, x)
    ensures OutputsJoined(AddEdge(h, src, out, map["id" := x, "sourceport" := port]), first, out, done + multiset{x})
  {
    var attrs := map["id" := x, "sourceport" := port];
    var r := AddEdge(h, src, out, attrs);
    assert Get(attrs, "id") == x;
    IdsIntoAddEdge(h, src, out, attrs, out);
    AddEdgeValid(h, src, out, attrs);
    forall y | y !in done + multiset{x} ensures TableEdgeIn(r, first, out, y) {
      assert TableEdgeIn(h, first, out, y);
    }
  }

  // One step of the output loop on an id not yet wired.
  lemma JoinOutputJoined(h: Graph, first: Graph, out: NodeId, done: multiset<Value>, e: Edge, n: NodeId)
    requires forall y :: IdsInto(first.edges, out)[y] <= 1
    requires OutputsJoined(h, first, out, done) && Get(e.data, "id") !in done && e.tgt == n
    ensures var r := JoinOutput(h, out, OutputTable(InEdges(first, out)), e);
            r.Ok? && OutputsJoined(r.value, first, out, done + IdInto(e, n))
  {
    var table := OutputTable(InEdges(first, out));
    var x := Get(e.data, "id");
    var attrs := map["id" := x, "sourceport" := Get(e.data, "sourceport")];
    assert IdInto(e, n) == multiset{x};
    if x in table {
      JoinOutputRemove(h, first, out, done, x);
      var h1 := RemoveEdge(h, table[x].0, out, table[x].1).value;
      JoinOutputAdd(h1, first, out, done, x, e.src, Get(e.data, "sourceport"));
      assert JoinOutput(h, out, table, e) == Ok(AddEdge(h1, e.src, out, attrs));
    } else {
      JoinOutputFresh(h, first, out, done, x);
      JoinOutputAdd(h, first, out, done, x, e.src, Get(e.data, "sourceport"));
      assert JoinOutput(h, out, table, e) == Ok(AddEdge(h, e.src, out, attrs));
    }
  }

  lemma IdsIntoPrefixStep(es: seq<Edge>, i: nat, n: NodeId)
    requires i < |es|
    ensures IdsInto(es[..i + 1], n) == IdsInto(es[..i], n) + IdInto(es[i], n)
  {
    PrefixStep(es, i);
  }

  // The id of a later output is not among those of the earlier ones when
  // no id is carried twice.
  lemma IdsIntoFresh(es: seq<Edge>, i: nat, n: NodeId)
    requires i < |es| && es[i].tgt == n && IdsInto(es, n)[Get(es[i].data, "id")] <= 1
    ensures Get(es[i].data, "id") !in IdsInto(es[..i], n)
  {
    SplitAt(es, i + 1);
    IdsIntoAppend(es[..i + 1], es[i + 1..], n);
    IdsIntoPrefixStep(es, i, n);
  }

  // The output loop of `join`, over outputs es into n carrying distinct
  // ids, never fails and keeps the per-id count.
  lemma {:induction false} JoinOutputsJoined(g: Graph, first: Graph, out: NodeId, es: seq<Edge>, n: NodeId, i: nat)
    requires forall y :: IdsInto(first.edges, out)[y] <= 1
    requires OutputsJoined(g, first, out, multiset{})
    requires forall e :: e in es ==> e.tgt == n
    requires forall y :: IdsInto(es, n)[y] <= 1
    requires i <= |es|
    ensures var r := JoinOutputs(g, out, OutputTable(InEdges(first, out)), es[..i]);
            r.Ok? && OutputsJoined(r.value, first, out, IdsInto(es[..i], n))
    decreases i
  {
    if i == 0 {
      assert es[..0] == [];
    } else {
      JoinOutputsJoined(g, first, out, es, n, i - 1);
      JoinOutputsNext(g, first, out, es, n, i - 1);
    }
  }

  lemma JoinOutputsNext(g: Graph, first: Graph, out: NodeId, es: seq<Edge>, n: NodeId, i: nat)
    requires forall y :: IdsInto(first.edges, out)[y] <= 1
    requires i < |es| && es[i].tgt == n && IdsInto(es, n)[Get(es[i].data, "id")] <= 1
    requires var r := JoinOutputs(g, out, OutputTable(InEdges(first, out)), es[..i]);
             r.Ok? && OutputsJoined(r.value, first, out, IdsInto(es[..i], n))
    ensures var r := JoinOutputs(g, out, OutputTable(InEdges(first, out)), es[..i + 1]);
            r.Ok? && OutputsJoined(r.value, first, out, IdsInto(es[..i + 1], n))
  {
    var table := OutputTable(InEdges(first, out));
    var prev := JoinOutputs(g, out, table, es[..i]);
    JoinOutputsStep(g, out, table, es, i);
    IdsIntoPrefixStep(es, i, n);
    IdsIntoFresh(es, i, n);
    JoinOutputJoined(prev.value, first, out, IdsInto(es[..i], n), es[i], n);
  }

  // Copying the second graph adds no edge into a node it does not have.
  lemma CopyIntoCount(second: Graph, first: Graph, out: NodeId)
    requires Valid(second) && InputNode(second).Some? && OutputNode(second).Some?
    requires out !in second.data
    ensures IdsInto(CopyInto(second, first).edges, out) == IdsInto(first.edges, out)
  {
    var skip := Markers(second);
    var ns := Minus(second.nodes, skip);
    var ts := Triples(EdgesOutside(second.edges, skip));
    AddNodesWithDataSpec(first, ns, second.data);
    forall t | t in ts ensures t.1 != out {
      var i :| 0 <= i < |ts| && ts[i] == t;
      assert EdgesOutside(second.edges, skip)[i] in second.edges;
    }
    IdsIntoAddTriples(AddNodesWithData(first, ns, second.data), ts, out);
  }

  // Wiring the second graph's inputs adds no edge into a node it does not
  // have.
  lemma JoinedInputsCount(first: Graph, second: Graph)
    requires IsFlowGraph(first) && IsFlowGraph(second)
    requires OutputNode(first).value !in second.data
    ensures IdsInto(JoinedInputs(first, second).edges, OutputNode(first).value) == IdsInto(first.edges, OutputNode(first).value)
  {
    var out := OutputNode(first).value;
    var ins := OutEdges(second, InputNode(second).value);
    var ws := JoinInputWires(first, OutputTable(InEdges(first, out)), InputNode(first).value, out, ins);
    forall w | w in ws ensures w.1 != out {
      var i :| 0 <= i < |ws| && ws[i] == w;
      assert ins[i] in second.edges;
    }
    CopyIntoCount(second, first, out);
    IdsIntoAddTriples(CopyInto(second, first), ws, out);
  }

  // Before the output loop: the second graph copied in and its inputs wired
  // leave the output edges of the first graph as they were.
  lemma JoinedInputsOutputs(first: Graph, second: Graph)
    requires IsFlowGraph(first) && IsFlowGraph(second)
    requires OutputNode(first).value !in second.data
    ensures OutputsJoined(JoinedInputs(first, second), first, OutputNode(first).value, multiset{})
  {
    var out := OutputNode(first).value;
    var ins := OutEdges(second, InputNode(second).value);
    var ws := JoinInputWires(first, OutputTable(InEdges(first, out)), InputNode(first).value, out, ins);
    var c := CopyInto(second, first);
    var r := JoinedInputs(first, second);
    CopyIntoExtends(second, first);
    JoinedInputsCount(first, second);
    AddTriplesValid(c, ws);
    AddTriplesExtends(c, first, ws);
    forall x ensures TableEdgeIn(r, first, out, x) {
      ExtendsKeeps(r, first, out, x);
    }
  }

  lemma CopyIntoExtends(second: Graph, first: Graph)
    requires Valid(second) && InputNode(second).Some? && OutputNode(second).Some? && Valid(first)
    ensures var c := CopyInto(second, first);
            Valid(c) && Extends(c, first) && c.attrs == first.attrs
  {
    CopyIntoSpec(second, first);
  }

  lemma ExtendsKeeps(r: Graph, first: Graph, out: NodeId, x: Value)
    requires Extends(r, first)
    ensures TableEdgeIn(r, first, out, x)
  {
    var es := InEdges(first, out);
    if LastCarrier(es, x).Some? {
      var f := es[LastCarrier(es, x).value];
      assert f in first.edges;
      var j :| 0 <= j < |first.edges| && first.edges[j] == f;
      assert r.edges[..|first.edges|][j] == f;
    }
  }

  // `join` of two flow graphs that each have at most one output edge per
  // object id (test_flow_graph.py's join tests): no `remove_edge` fails, an
  // id the second graph outputs has exactly one output edge afterwards, any
  // other id keeps the first graph's output edges, so the joined graph again
  // has at most one output edge per id.
  lemma JoinOneOutputPerId(first: Graph, second: Graph)
    requires IsFlowGraph(first) && IsFlowGraph(second)
    requires OutputNode(first).value !in second.data
    requires OneOutputPerId(first) && OneOutputPerId(second)
    ensures JoinSpec(first, second).Ok?
    ensures var r := JoinSpec(first, second).value;
            var out := OutputNode(first).value;
            OutputNode(r) == Some(out) &&
            (forall x :: IdsInto(r.edges, out)[x] ==
                           if x in IdsInto(second.edges, OutputNode(second).value) then 1
                           else IdsInto(first.edges, out)[x]) &&
            OneOutputPerId(r)
  {
    var out := OutputNode(first).value;
    var sout := OutputNode(second).value;
    var es := InEdges(second, sout);
    IdsIntoEdgesInto(second.edges, sout);
    JoinedInputsOutputs(first, second);
    JoinOutputsJoined(JoinedInputs(first, second), first, out, es, sout, |es|);
    WholePrefix(es);
  }
}
