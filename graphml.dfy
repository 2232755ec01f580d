// The GraphML serialiser of lang/python/opendisc/core/graphml.py, over an
// abstract element tree instead of XML text. A graph element carries its
// `edgedefault`, its data children and its node, edge and hyperedge
// children; a node element its id, data children, port children and nested
// graph elements; an edge element its end points, the optional `directed`,
// `sourceport` and `targetport` attributes and its data children. Data
// children are kept as a dictionary (their order and the key registry are
// not modelled), port data as the ordered entries of the port dictionary.
module GraphML {
  import opened Base
  import opened Graphs

  /* ---------------- The element tree ---------------- */

  datatype PortElement = PortElement(name: string, data: seq<(string, Value)>)

  datatype EdgeElement = EdgeElement(source: string, target: string, directed: Option<bool>,
                                     sourceport: Option<Value>, targetport: Option<Value>, data: Attrs)

  datatype NodeElement = NodeElement(id: string, data: Attrs, ports: seq<PortElement>, graphs: seq<GraphElement>)

  datatype GraphElement = GraphElement(directed: bool, data: Attrs, nodes: seq<NodeElement>,
                                       edges: seq<EdgeElement>, hyperedges: nat)

  // The node ids of a sequence of node elements, in order.
  function ElementIds(ns: seq<NodeElement>): (r: seq<string>)
    ensures |r| == |ns| && forall i :: 0 <= i < |ns| ==> r[i] == ns[i].id
  {
    if ns == [] then [] else ElementIds(ns[..|ns| - 1]) + [ns[|ns| - 1].id]
  }

  // Every node id of a graph element and of the graph elements nested in
  // it, in document order.
  function TreeIds(el: GraphElement): seq<string>
    decreases el, 1
  {
    NodesTreeIds(el.nodes)
  }

  function NodesTreeIds(ns: seq<NodeElement>): seq<string>
    decreases ns, 0
  {
    if ns == [] then []
    else
      var n := ns[|ns| - 1];
      NodesTreeIds(ns[..|ns| - 1]) + [n.id] + (if |n.graphs| == 1 then TreeIds(n.graphs[0]) else [])
  }

  /* ---------------- Writing ---------------- */

  // `is_parent_reference`: n is named by the graph attribute `node`,
  // `input_node` or `output_node`.
  predicate IsParentReference(attrs: Attrs, n: NodeId)
  {
    Get(attrs, "node") == VStr(n) || Get(attrs, "input_node") == VStr(n) || Get(attrs, "output_node") == VStr(n)
  }

  // The graph data written: every attribute but the three defaults.
  function GraphDataOut(attrs: Attrs): Attrs
  {
    map k | k in attrs && k != "node_default" && k != "edge_default" && k != "port_default" :: attrs[k]
  }

  // The node data written: ports and a nested graph become elements.
  function NodeDataOut(d: Attrs): Attrs
  {
    map k | k in d && k != "ports" && !(k == "graph" && d[k].VGraph?) :: d[k]
  }

  // The edge data written: the port names become edge attributes.
  function EdgeDataOut(d: Attrs): Attrs
  {
    map k | k in d && k != "sourceport" && k != "targetport" :: d[k]
  }

  // `nested = data.get('graph')` is written when it is a non-empty graph.
  predicate HasNested(d: Attrs)
  {
    "graph" in d && d["graph"].VGraph? && d["graph"].graph.nodes != []
  }

  // Node ids are in the node data, and every nested graph that is written
  // is at most d - 1 levels deep.
  ghost predicate NestingWithin(g: Graph, d: nat)
    decreases d
  {
    (forall n :: n in g.nodes ==> n in g.data) &&
    forall n :: n in g.data && HasNested(g.data[n]) ==> d > 0 && NestingWithin(g.data[n]["graph"].graph, d - 1)
  }

  // `add_ports`: one port element per entry of the `ports` dictionary; a
  // `ports` value or a port value that is not a dictionary has no `items`.
  function PortsOut(d: Attrs): Result<seq<PortElement>>
  {
    if "ports" !in d then Ok([])
    else if d["ports"].VDict? then PortList(d["ports"].entries)
    else Err(AttributeError)
  }

  function PortList(entries: seq<(string, Value)>): (r: Result<seq<PortElement>>)
    ensures r.Ok? ==> |r.value| == |entries|
  {
    if entries == [] then Ok([])
    else
      match PortList(entries[..|entries| - 1])
      case Err(e) => Err(e)
      case Ok(ps) =>
        var (name, v) := entries[|entries| - 1];
        if v.VDict? then Ok(ps + [PortElement(name, v.entries)]) else Err(AttributeError)
  }

  // An edge end point that references the parent is written as the parent
  // node (`make_str(None)` when there is none).
  function EndPoint(attrs: Attrs, n: NodeId, parent: Option<NodeId>): string
  {
    if IsParentReference(attrs, n) then (if parent.Some? then parent.value else "None") else n
  }

  function PortAttribute(d: Attrs, k: string): Option<Value>
  {
    if Get(d, k) == VNone then None else Some(d[k])
  }

  function EdgeOut(attrs: Attrs, e: Edge, parent: Option<NodeId>): EdgeElement
  {
    EdgeElement(EndPoint(attrs, e.src, parent), EndPoint(attrs, e.tgt, parent), None,
                PortAttribute(e.data, "sourceport"), PortAttribute(e.data, "targetport"), EdgeDataOut(e.data))
  }

  // `add_edges`: one edge element per edge, in order.
  function EdgesOut(attrs: Attrs, es: seq<Edge>, parent: Option<NodeId>): (r: seq<EdgeElement>)
    ensures |r| == |es|
  {
    if es == [] then [] else EdgesOut(attrs, es[..|es| - 1], parent) + [EdgeOut(attrs, es[|es| - 1], parent)]
  }

  // `add_graph(graph, parent_node)` with the ids written so far in seen: the
  // element and the ids written afterwards.
  function WriteGraph(g: Graph, parent: Option<NodeId>, seen: set<string>, d: nat): Result<(GraphElement, set<string>)>
    requires NestingWithin(g, d)
    decreases d, 2, 0
  {
    match WriteNodes(g, g.nodes, parent, seen, d)
    case Err(e) => Err(e)
    case Ok((ns, seen')) =>
      Ok((GraphElement(g.directed, GraphDataOut(g.attrs), ns, EdgesOut(g.attrs, g.edges, parent), 0), seen'))
  }

  // `add_nodes` over the nodes ns: references to the parent are skipped,
  // and are an error at the top level.
  function WriteNodes(g: Graph, ns: seq<NodeId>, parent: Option<NodeId>, seen: set<string>, d: nat): Result<(seq<NodeElement>, set<string>)>
    requires NestingWithin(g, d) && forall n :: n in ns ==> n in g.nodes
    decreases d, 1, |ns|
  {
    if ns == [] then Ok(([], seen))
    else
      match WriteNodes(g, ns[..|ns| - 1], parent, seen, d)
      case Err(e) => Err(e)
      case Ok((els, seen')) =>
        var n := ns[|ns| - 1];
        if IsParentReference(g.attrs, n) then
          if parent.None? then Err(GraphError) else Ok((els, seen'))
        else
          match WriteNode(g, n, seen', d)
          case Err(e) => Err(e)
          case Ok((el, seen'')) => Ok((els + [el], seen''))
  }

  // One node element: a repeated id is an error; the node's nested graph is
  // written with the node as parent.
  function WriteNode(g: Graph, n: NodeId, seen: set<string>, d: nat): Result<(NodeElement, set<string>)>
    requires NestingWithin(g, d) && n in g.nodes
    decreases d, 0, 0
  {
    if n in seen then Err(GraphError)
    else
      var data := g.data[n];
      match PortsOut(data)
      case Err(e) => Err(e)
      case Ok(ports) =>
        if HasNested(data) then
          match WriteGraph(data["graph"].graph, Some(n), seen + {n}, d - 1)
          case Err(e) => Err(e)
          case Ok((sub, seen')) => Ok((NodeElement(n, NodeDataOut(data), ports, [sub]), seen'))
        else Ok((NodeElement(n, NodeDataOut(data), ports, []), seen + {n}))
  }

  /* ---------------- Reading ---------------- */

  // Ordered-dictionary assignment of the pairs in turn.
  function Collect(kvs: seq<(string, Value)>): seq<(string, Value)>
  {
    if kvs == [] then [] else DictSet(Collect(kvs[..|kvs| - 1]), kvs[|kvs| - 1].0, kvs[|kvs| - 1].1)
  }

  // The `ports` dictionary read from port elements.
  function PortsIn(ps: seq<PortElement>): seq<(string, Value)>
  {
    if ps == [] then []
    else DictSet(PortsIn(ps[..|ps| - 1]), ps[|ps| - 1].name, VDict(Collect(ps[|ps| - 1].data)))
  }

  // A graph attribute read as a node name; node names are strings here.
  function NameOf(v: Value): Result<NodeId>
  {
    if v.VStr? then Ok(v.s) else Err(TypeError)
  }

  // An edge source equal to the parent is the graph's input node, else its
  // node; a target equal to the parent is its output node, else its node.
  function SourceIn(attrs: Attrs, s: string, parent: Option<NodeId>): Result<NodeId>
  {
    if parent == Some(s) then
      if "input_node" in attrs then NameOf(attrs["input_node"])
      else if "node" in attrs then NameOf(attrs["node"])
      else Ok(s)
    else Ok(s)
  }

  function TargetIn(attrs: Attrs, t: string, parent: Option<NodeId>): Result<NodeId>
  {
    if parent == Some(t) then
      if "output_node" in attrs then NameOf(attrs["output_node"])
      else if "node" in attrs then NameOf(attrs["node"])
      else Ok(t)
    else Ok(t)
  }

  // The edge data read: the data children plus the port attributes.
  function EdgeDataIn(e: EdgeElement): Attrs
  {
    var d := if e.sourceport.Some? then e.data["sourceport" := e.sourceport.value] else e.data;
    if e.targetport.Some? then d["targetport" := e.targetport.value] else d
  }

  // `make_graph`: a multigraph of the element's kind with its data, then
  // its nodes, then its edges; hyperedges are rejected last.
  function ReadGraph(el: GraphElement, parent: Option<NodeId>): Result<Graph>
    decreases el, 1
  {
    match ReadNodes(el.nodes, Graph(el.directed, el.data, [], map[], []))
    case Err(e) => Err(e)
    case Ok(h) =>
      match ReadEdges(el.edges, parent, h)
      case Err(e) => Err(e)
      case Ok(h') => if el.hyperedges > 0 then Err(GraphError) else Ok(h')
  }

  function ReadNodes(ns: seq<NodeElement>, h: Graph): Result<Graph>
    decreases ns, 0
  {
    if ns == [] then Ok(h)
    else
      match ReadNodes(ns[..|ns| - 1], h)
      case Err(e) => Err(e)
      case Ok(h') =>
        match ReadNode(ns[|ns| - 1])
        case Err(e) => Err(e)
        case Ok(data) => Ok(AddNode(h', ns[|ns| - 1].id, data))
  }

  // `add_node`: the data children, the ports if there are any, and the
  // nested graph; more than one nested graph is an error.
  function ReadNode(n: NodeElement): Result<Attrs>
    decreases n, 2
  {
    var data := if n.ports == [] then n.data else n.data["ports" := VDict(PortsIn(n.ports))];
    if |n.graphs| == 1 then
      match ReadGraph(n.graphs[0], Some(n.id))
      case Err(e) => Err(e)
      case Ok(sub) => Ok(data["graph" := VGraph(sub)])
    else if |n.graphs| > 1 then Err(GraphError)
    else Ok(data)
  }

  function ReadEdges(xs: seq<EdgeElement>, parent: Option<NodeId>, h: Graph): Result<Graph>
  {
    if xs == [] then Ok(h)
    else
      match ReadEdges(xs[..|xs| - 1], parent, h)
      case Err(e) => Err(e)
      case Ok(h') => ReadEdge(h', xs[|xs| - 1], parent)
  }

  // `add_edge`: an edge whose `directed` attribute contradicts the graph is
  // an error; missing end points become nodes.
  function ReadEdge(h: Graph, e: EdgeElement, parent: Option<NodeId>): Result<Graph>
  {
    if h.directed && e.directed == Some(false) then Err(GraphError)
    else if !h.directed && e.directed == Some(true) then Err(GraphError)
    else
      match SourceIn(h.attrs, e.source, parent)
      case Err(err) => Err(err)
      case Ok(u) =>
        match TargetIn(h.attrs, e.target, parent)
        case Err(err) => Err(err)
        case Ok(v) => Ok(AddEdge(h, u, v, EdgeDataIn(e)))
  }

  /* ---------------- What the writer accepts ---------------- */

  // The ids the writer gives the non-reference nodes of g and of the graphs
  // nested in them, in document order.
  ghost function GraphIds(g: Graph, d: nat): seq<string>
    requires NestingWithin(g, d)
    decreases d, 2, 0
  {
    NodesIds(g, g.nodes, d)
  }

  ghost function NodesIds(g: Graph, ns: seq<NodeId>, d: nat): seq<string>
    requires NestingWithin(g, d) && forall n :: n in ns ==> n in g.nodes
    decreases d, 1, |ns|
  {
    if ns == [] then []
    else
      var n := ns[|ns| - 1];
      NodesIds(g, ns[..|ns| - 1], d) + (if IsParentReference(g.attrs, n) then [] else NodeIds(g, n, d))
  }

  ghost function NodeIds(g: Graph, n: NodeId, d: nat): seq<string>
    requires NestingWithin(g, d) && n in g.nodes
    decreases d, 0, 0
  {
    [n] + (if HasNested(g.data[n]) then GraphIds(g.data[n]["graph"].graph, d - 1) else [])
  }

  // Parent references occur only in nested graphs, and every written
  // node's ports are dictionaries of dictionaries, at every level.
  ghost predicate Writable(g: Graph, parent: Option<NodeId>, d: nat)
    requires NestingWithin(g, d)
    decreases d, 2
  {
    NodesWritable(g, g.nodes, parent, d)
  }

  ghost predicate NodesWritable(g: Graph, ns: seq<NodeId>, parent: Option<NodeId>, d: nat)
    requires NestingWithin(g, d) && forall n :: n in ns ==> n in g.nodes
    decreases d, 1
  {
    forall n :: n in ns ==>
      if IsParentReference(g.attrs, n) then parent.Some? else NodeWritable(g, n, d)
  }

  ghost predicate NodeWritable(g: Graph, n: NodeId, d: nat)
    requires NestingWithin(g, d) && n in g.nodes
    decreases d, 0
  {
    PortsOut(g.data[n]).Ok? && (HasNested(g.data[n]) ==> Writable(g.data[n]["graph"].graph, Some(n), d - 1))
  }

  function SetOf(s: seq<string>): set<string>
  {
    set x | x in s
  }

  predicate Unseen(s: seq<string>, seen: set<string>)
  {
    forall x :: x in s ==> x !in seen
  }

  lemma DistinctConcat(a: seq<string>, b: seq<string>)
    ensures Distinct(a + b) <==> Distinct(a) && Distinct(b) && forall x :: x in b ==> x !in a
  {
    if Distinct(a) && Distinct(b) && forall x :: x in b ==> x !in a {
      forall i, j | 0 <= i < j < |a + b| ensures (a + b)[i] != (a + b)[j] {
        if j >= |a| && i < |a| {
          assert (a + b)[j] in b;
        } else if i >= |a| {
          assert (a + b)[i] == b[i - |a|] && (a + b)[j] == b[j - |a|];
        }
      }
    }
    if Distinct(a + b) {
      forall i, j | 0 <= i < j < |b| ensures b[i] != b[j] {
        assert (a + b)[|a| + i] == b[i] && (a + b)[|a| + j] == b[j];
      }
      forall x | x in b ensures x !in a {
        var j :| 0 <= j < |b| && b[j] == x;
        forall i | 0 <= i < |a| ensures a[i] != x {
          assert (a + b)[i] == a[i] && (a + b)[|a| + j] == x;
        }
      }
      forall i, j | 0 <= i < j < |a| ensures a[i] != a[j] {
        assert (a + b)[i] == a[i] && (a + b)[j] == a[j];
      }
    }
  }

  // `add_graph` succeeds exactly when the graph is writable and the ids it
  // writes are distinct and new: a repeated id anywhere in the nested tree,
  // or a parent reference at the top level, raises. The ids written are
  // those of the non-reference nodes, in document order.
  lemma {:induction false} WriteGraphOk(g: Graph, parent: Option<NodeId>, seen: set<string>, d: nat)
    requires NestingWithin(g, d)
    ensures var r := WriteGraph(g, parent, seen, d);
            var ids := GraphIds(g, d);
            (r.Ok? <==> Writable(g, parent, d) && Distinct(ids) && Unseen(ids, seen)) &&
            (r.Ok? ==> TreeIds(r.value.0) == ids && r.value.1 == seen + SetOf(ids))
    decreases d, 2, 0
  {
    WriteNodesOk(g, g.nodes, parent, seen, d);
  }

  lemma {:induction false} WriteNodesOk(g: Graph, ns: seq<NodeId>, parent: Option<NodeId>, seen: set<string>, d: nat)
    requires NestingWithin(g, d) && forall n :: n in ns ==> n in g.nodes
    ensures var r := WriteNodes(g, ns, parent, seen, d);
            var ids := NodesIds(g, ns, d);
            (r.Ok? <==> NodesWritable(g, ns, parent, d) && Distinct(ids) && Unseen(ids, seen)) &&
            (r.Ok? ==> NodesTreeIds(r.value.0) == ids && r.value.1 == seen + SetOf(ids))
    decreases d, 1, |ns|
  {
    if ns != [] {
      var init, n := ns[..|ns| - 1], ns[|ns| - 1];
      WritableSplit(g, ns, parent, d);
      WriteNodesOk(g, init, parent, seen, d);
      var ids0 := NodesIds(g, init, d);
      var x := if IsParentReference(g.attrs, n) then [] else NodeIds(g, n, d);
      assert NodesIds(g, ns, d) == ids0 + x;
      DistinctConcat(ids0, x);
      UnseenConcat(ids0, x, seen);
      var r0 := WriteNodes(g, init, parent, seen, d);
      if r0.Err? {
        assert WriteNodes(g, ns, parent, seen, d).Err?;
      } else if IsParentReference(g.attrs, n) {
        assert ids0 + x == ids0;
      } else {
        WriteNodesNext(g, ns, parent, seen, d, ids0, x);
      }
    }
  }

  // The step of WriteNodesOk for a last node that is written.
  lemma WriteNodesNext(g: Graph, ns: seq<NodeId>, parent: Option<NodeId>, seen: set<string>, d: nat,
                       ids0: seq<string>, x: seq<string>)
    requires NestingWithin(g, d) && ns != [] && forall n :: n in ns ==> n in g.nodes
    requires !IsParentReference(g.attrs, ns[|ns| - 1])
    requires ids0 == NodesIds(g, ns[..|ns| - 1], d) && x == NodeIds(g, ns[|ns| - 1], d)
    requires WriteNodes(g, ns[..|ns| - 1], parent, seen, d).Ok?
    requires NodesTreeIds(WriteNodes(g, ns[..|ns| - 1], parent, seen, d).value.0) == ids0
    requires WriteNodes(g, ns[..|ns| - 1], parent, seen, d).value.1 == seen + SetOf(ids0)
    ensures var r := WriteNodes(g, ns, parent, seen, d);
            (r.Ok? <==> NodeWritable(g, ns[|ns| - 1], d) && Distinct(x) && Unseen(x, seen) && forall y :: y in x ==> y !in ids0) &&
            (r.Ok? ==> NodesTreeIds(r.value.0) == ids0 + x && r.value.1 == seen + SetOf(ids0 + x))
    decreases d, 0, 2
  {
    var (els, seen') := WriteNodes(g, ns[..|ns| - 1], parent, seen, d).value;
    var n := ns[|ns| - 1];
    WriteNodeOk(g, n, seen', d);
    WriteNodesUnfold(g, ns, parent, seen, d);
    assert Unseen(x, seen') <==> Unseen(x, seen) && forall y :: y in x ==> y !in ids0;
    var r1 := WriteNode(g, n, seen', d);
    if r1.Ok? {
      ConcatTreeIds(els, r1.value.0);
      assert SetOf(ids0 + x) == SetOf(ids0) + SetOf(x);
    }
  }

  lemma WriteNodesUnfold(g: Graph, ns: seq<NodeId>, parent: Option<NodeId>, seen: set<string>, d: nat)
    requires NestingWithin(g, d) && ns != [] && forall n :: n in ns ==> n in g.nodes
    requires !IsParentReference(g.attrs, ns[|ns| - 1])
    requires WriteNodes(g, ns[..|ns| - 1], parent, seen, d).Ok?
    ensures var (els, seen') := WriteNodes(g, ns[..|ns| - 1], parent, seen, d).value;
            var r1 := WriteNode(g, ns[|ns| - 1], seen', d);
            WriteNodes(g, ns, parent, seen, d) == if r1.Ok? then Ok((els + [r1.value.0], r1.value.1)) else Err(r1.error)
  {
  }

  lemma ConcatTreeIds(els: seq<NodeElement>, el: NodeElement)
    ensures NodesTreeIds(els + [el]) == NodesTreeIds(els) + NodesTreeIds([el])
  {
    assert (els + [el])[..|els + [el]| - 1] == els;
    assert [el][..0] == [];
  }

  lemma UnseenConcat(a: seq<string>, b: seq<string>, seen: set<string>)
    ensures Unseen(a + b, seen) <==> Unseen(a, seen) && Unseen(b, seen)
  {
  }

  lemma WritableSplit(g: Graph, ns: seq<NodeId>, parent: Option<NodeId>, d: nat)
    requires NestingWithin(g, d) && ns != [] && forall n :: n in ns ==> n in g.nodes
    ensures forall n :: n in ns[..|ns| - 1] ==> n in g.nodes
    ensures NodesWritable(g, ns, parent, d) <==>
              NodesWritable(g, ns[..|ns| - 1], parent, d) &&
              if IsParentReference(g.attrs, ns[|ns| - 1]) then parent.Some? else NodeWritable(g, ns[|ns| - 1], d)
  {
    assert forall m :: m in ns <==> m in ns[..|ns| - 1] || m == ns[|ns| - 1];
  }

  lemma {:induction false} WriteNodeOk(g: Graph, n: NodeId, seen: set<string>, d: nat)
    requires NestingWithin(g, d) && n in g.nodes && !IsParentReference(g.attrs, n)
    ensures var r := WriteNode(g, n, seen, d);
            var ids := NodeIds(g, n, d);
            (r.Ok? <==> NodeWritable(g, n, d) && Distinct(ids) && Unseen(ids, seen)) &&
            (r.Ok? ==> NodesTreeIds([r.value.0]) == ids && r.value.1 == seen + SetOf(ids))
    decreases d, 0, 1
  {
    if HasNested(g.data[n]) {
      WriteNestedOk(g, n, seen, d);
    } else {
      var ids := NodeIds(g, n, d);
      assert ids == [n];
      assert NodesTreeIds([]) == [];
      assert SetOf(ids) == {n};
    }
  }

  // WriteNodeOk for a node holding a nested graph.
  lemma {:induction false} WriteNestedOk(g: Graph, n: NodeId, seen: set<string>, d: nat)
    requires NestingWithin(g, d) && n in g.nodes && !IsParentReference(g.attrs, n) && HasNested(g.data[n])
    ensures var r := WriteNode(g, n, seen, d);
            var ids := NodeIds(g, n, d);
            (r.Ok? <==> NodeWritable(g, n, d) && Distinct(ids) && Unseen(ids, seen)) &&
            (r.Ok? ==> NodesTreeIds([r.value.0]) == ids && r.value.1 == seen + SetOf(ids))
    decreases d, 0, 0
  {
    var sub := g.data[n]["graph"].graph;
    var ids := NodeIds(g, n, d);
    assert ids == [n] + GraphIds(sub, d - 1);
    assert NodesTreeIds([]) == [];
    WriteGraphOk(sub, Some(n), seen + {n}, d - 1);
    DistinctConcat([n], GraphIds(sub, d - 1));
    assert SetOf(ids) == {n} + SetOf(GraphIds(sub, d - 1));
  }

  /* ---------------- What the reader accepts ---------------- */

  // An edge whose `directed` attribute agrees with the graph, and whose end
  // points that name the parent resolve to node names.
  predicate EdgeReadable(directed: bool, attrs: Attrs, x: EdgeElement, parent: Option<NodeId>)
  {
    !(directed && x.directed == Some(false)) && !(!directed && x.directed == Some(true)) &&
    SourceIn(attrs, x.source, parent).Ok? && TargetIn(attrs, x.target, parent).Ok?
  }

  // No hyperedges, at most one nested graph per node, and readable edges,
  // at every level.
  ghost predicate Readable(el: GraphElement, parent: Option<NodeId>)
    decreases el, 1
  {
    el.hyperedges == 0 && NodesReadable(el.nodes) &&
    forall x :: x in el.edges ==> EdgeReadable(el.directed, el.data, x, parent)
  }

  ghost predicate NodesReadable(ns: seq<NodeElement>)
    decreases ns, 0
  {
    forall i :: 0 <= i < |ns| ==> NodeReadable(ns[i])
  }

  ghost predicate NodeReadable(n: NodeElement)
    decreases n, 2
  {
    |n.graphs| <= 1 && (|n.graphs| == 1 ==> Readable(n.graphs[0], Some(n.id)))
  }

  // `make_graph` succeeds exactly on readable elements: more than one
  // nested graph in a node, a hyperedge, or an edge whose direction
  // contradicts its graph raises.
  lemma {:induction false} ReadGraphOk(el: GraphElement, parent: Option<NodeId>)
    ensures ReadGraph(el, parent).Ok? <==> Readable(el, parent)
    decreases el, 1
  {
    var h0 := Graph(el.directed, el.data, [], map[], []);
    ReadNodesOk(el.nodes, h0);
    var r := ReadNodes(el.nodes, h0);
    if r.Ok? {
      ReadEdgesOk(el.edges, parent, r.value);
    }
  }

  lemma {:induction false} ReadNodesOk(ns: seq<NodeElement>, h: Graph)
    ensures var r := ReadNodes(ns, h);
            (r.Ok? <==> NodesReadable(ns)) && (r.Ok? ==> r.value.directed == h.directed && r.value.attrs == h.attrs)
    decreases ns, 0
  {
    if ns != [] {
      var init := ns[..|ns| - 1];
      ReadNodesOk(init, h);
      ReadNodeOk(ns[|ns| - 1]);
      assert NodesReadable(ns) <==> NodesReadable(init) && NodeReadable(ns[|ns| - 1]) by {
        assert forall i :: 0 <= i < |init| ==> init[i] == ns[i];
      }
    }
  }

  lemma {:induction false} ReadNodeOk(n: NodeElement)
    ensures ReadNode(n).Ok? <==> NodeReadable(n)
    decreases n, 2
  {
    if |n.graphs| == 1 {
      ReadGraphOk(n.graphs[0], Some(n.id));
    }
  }

  lemma {:induction false} ReadEdgesOk(xs: seq<EdgeElement>, parent: Option<NodeId>, h: Graph)
    ensures var r := ReadEdges(xs, parent, h);
            (r.Ok? <==> forall x :: x in xs ==> EdgeReadable(h.directed, h.attrs, x, parent)) &&
            (r.Ok? ==> r.value.directed == h.directed && r.value.attrs == h.attrs)
  {
    if xs != [] {
      var init := xs[..|xs| - 1];
      ReadEdgesOk(init, parent, h);
      assert forall x :: x in xs <==> x in init || x == xs[|xs| - 1];
      var r0 := ReadEdges(init, parent, h);
      if r0.Ok? {
        ReadEdgeOk(r0.value, xs[|xs| - 1], parent);
      }
    }
  }

  lemma ReadEdgeOk(h: Graph, x: EdgeElement, parent: Option<NodeId>)
    ensures var r := ReadEdge(h, x, parent);
            (r.Ok? <==> EdgeReadable(h.directed, h.attrs, x, parent)) &&
            (r.Ok? ==> r.value.directed == h.directed && r.value.attrs == h.attrs)
  {
  }

  /* ---------------- Round trip ---------------- */

  // r is g up to the order of nodes, the keys of edges and the same
  // relation on nested graphs.
  ghost predicate SameGraph(r: Graph, g: Graph, d: nat)
    decreases d, 1
  {
    r.directed == g.directed && r.attrs == g.attrs && r.data.Keys == g.data.Keys &&
    Triples(r.edges) == Triples(g.edges) &&
    forall n :: n in g.data ==> SameAttrs(r.data[n], g.data[n], d)
  }

  ghost predicate SameAttrs(a: Attrs, b: Attrs, d: nat)
    decreases d, 0
  {
    a.Keys == b.Keys &&
    forall k :: k in b ==>
      if k == "graph" && HasNested(b) then a[k].VGraph? && d > 0 && SameGraph(a[k].graph, b[k].graph, d - 1)
      else a[k] == b[k]
  }

  predicate DistinctKeys(kvs: seq<(string, Value)>)
  {
    forall i, j :: 0 <= i < j < |kvs| ==> kvs[i].0 != kvs[j].0
  }

  // A `ports` value that reads back as itself: a non-empty dictionary of
  // dictionaries (an empty one is not written back).
  predicate PortsFaithful(d: Attrs)
  {
    "ports" in d ==>
      d["ports"].VDict? && d["ports"].entries != [] && DistinctKeys(d["ports"].entries) &&
      forall i :: 0 <= i < |d["ports"].entries| ==>
        d["ports"].entries[i].1.VDict? && DistinctKeys(d["ports"].entries[i].1.entries)
  }

  // Port attributes that are not None, and edges at parent references that
  // the reader sends back to the same reference node.
  predicate EdgeFaithful(attrs: Attrs, e: Edge, parent: Option<NodeId>)
  {
    ("sourceport" in e.data ==> e.data["sourceport"] != VNone) &&
    ("targetport" in e.data ==> e.data["targetport"] != VNone) &&
    (IsParentReference(attrs, e.src) && parent.Some? ==> SourceIn(attrs, parent.value, parent) == Ok(e.src)) &&
    (IsParentReference(attrs, e.tgt) && parent.Some? ==> TargetIn(attrs, parent.value, parent) == Ok(e.tgt))
  }

  // What the round trip needs of a graph: a well-formed graph without the
  // default attributes, whose reference nodes are bare and on some edge,
  // and whose nodes, edges and nested graphs read back as themselves.
  ghost predicate Faithful(g: Graph, parent: Option<NodeId>, d: nat)
    requires NestingWithin(g, d)
    decreases d, 1
  {
    NodesWellFormed(g) && EndPointsAreNodes(g.edges, g.data) && GraphDataOut(g.attrs) == g.attrs &&
    (forall e :: e in g.edges ==> EdgeFaithful(g.attrs, e, parent)) &&
    (forall n :: n in g.data && IsParentReference(g.attrs, n) ==>
       g.data[n] == map[] && exists e :: e in g.edges && (e.src == n || e.tgt == n)) &&
    forall n :: n in g.nodes && !IsParentReference(g.attrs, n) ==> NodeFaithful(g, n, d)
  }

  ghost predicate NodeFaithful(g: Graph, n: NodeId, d: nat)
    requires NestingWithin(g, d) && n in g.nodes
    decreases d, 0
  {
    var data := g.data[n];
    PortsFaithful(data) && ("graph" in data && data["graph"].VGraph? ==> HasNested(data)) &&
    (HasNested(data) ==> Faithful(data["graph"].graph, Some(n), d - 1))
  }

  // Assigning a new key appends it.
  lemma {:induction false} DictSetNew(entries: seq<(string, Value)>, k: string, v: Value)
    requires forall i :: 0 <= i < |entries| ==> entries[i].0 != k
    ensures DictSet(entries, k, v) == entries + [(k, v)]
  {
    if entries != [] {
      DictSetNew(entries[1..], k, v);
    }
  }

  lemma {:induction false} CollectDistinct(kvs: seq<(string, Value)>)
    requires DistinctKeys(kvs)
    ensures Collect(kvs) == kvs
  {
    if kvs != [] {
      var init := kvs[..|kvs| - 1];
      CollectDistinct(init);
      DictSetNew(init, kvs[|kvs| - 1].0, kvs[|kvs| - 1].1);
    }
  }

  lemma PortListSnoc(init: seq<(string, Value)>, name: string, v: Value)
    requires PortList(init).Ok? && v.VDict?
    ensures PortList(init + [(name, v)]) == Ok(PortList(init).value + [PortElement(name, v.entries)])
  {
    assert (init + [(name, v)])[..|init|] == init;
  }

  lemma PortsInSnoc(ps: seq<PortElement>, p: PortElement)
    ensures PortsIn(ps + [p]) == DictSet(PortsIn(ps), p.name, VDict(Collect(p.data)))
  {
    assert (ps + [p])[..|ps|] == ps;
  }

  // Reading the written port elements gives back the ports dictionary.
  lemma {:induction false} PortsRoundTrip(entries: seq<(string, Value)>)
    requires DistinctKeys(entries)
    requires forall i :: 0 <= i < |entries| ==> entries[i].1.VDict? && DistinctKeys(entries[i].1.entries)
    ensures PortList(entries).Ok? && PortsIn(PortList(entries).value) == entries
  {
    if entries != [] {
      var init := entries[..|entries| - 1];
      var (name, v) := entries[|entries| - 1];
      assert entries == init + [(name, v)];
      PortsRoundTrip(init);
      PortListSnoc(init, name, v);
      PortsInSnoc(PortList(init).value, PortElement(name, v.entries));
      CollectDistinct(v.entries);
      DictSetNew(init, name, VDict(v.entries));
    }
  }

  // Reading a written edge element adds the edge back.
  lemma EdgeRoundTrip(h: Graph, attrs: Attrs, e: Edge, parent: Option<NodeId>)
    requires h.attrs == attrs && EdgeFaithful(attrs, e, parent)
    requires IsParentReference(attrs, e.src) ==> parent.Some?
    requires IsParentReference(attrs, e.tgt) ==> parent.Some?
    requires !IsParentReference(attrs, e.src) ==> parent != Some(e.src)
    requires !IsParentReference(attrs, e.tgt) ==> parent != Some(e.tgt)
    ensures ReadEdge(h, EdgeOut(attrs, e, parent), parent) == Ok(AddEdge(h, e.src, e.tgt, e.data))
  {
    assert EdgeDataIn(EdgeOut(attrs, e, parent)) == e.data;
  }

  // The graph `make_graph` starts from.
  function Bare(g: Graph): Graph
  {
    Graph(g.directed, g.attrs, [], map[], [])
  }

  lemma {:induction false} NonReferenceWritten(g: Graph, ns: seq<NodeId>, d: nat, m: NodeId)
    requires NestingWithin(g, d) && forall n :: n in ns ==> n in g.nodes
    requires m in ns && !IsParentReference(g.attrs, m)
    ensures m in NodesIds(g, ns, d)
    decreases |ns|
  {
    var init := ns[..|ns| - 1];
    if ns[|ns| - 1] == m {
      assert NodeIds(g, m, d)[0] == m;
    } else {
      assert m in init;
      NonReferenceWritten(g, init, d, m);
    }
  }

  lemma ReadNodesSnoc(els: seq<NodeElement>, el: NodeElement, h: Graph)
    requires ReadNodes(els, h).Ok? && ReadNode(el).Ok?
    ensures ReadNodes(els + [el], h) == Ok(AddNode(ReadNodes(els, h).value, el.id, ReadNode(el).value))
  {
    assert (els + [el])[..|els + [el]| - 1] == els;
  }

  // The data a node element reads back as before its nested graph is added.
  function DataBeforeNested(d: Attrs): Attrs
  {
    map k | k in d && !(k == "graph" && d[k].VGraph?) :: d[k]
  }

  lemma PortsBack(data: Attrs)
    requires PortsFaithful(data) && PortsOut(data).Ok?
    ensures var ports := PortsOut(data).value;
            (if ports == [] then NodeDataOut(data) else NodeDataOut(data)["ports" := VDict(PortsIn(ports))]) == DataBeforeNested(data)
  {
    if "ports" in data {
      PortsRoundTrip(data["ports"].entries);
    }
  }

  // Reading a written node element gives back the node's data.
  lemma {:induction false} RoundTripNode(g: Graph, n: NodeId, seen: set<string>, d: nat)
    requires NestingWithin(g, d) && n in g.nodes && NodeFaithful(g, n, d) && WriteNode(g, n, seen, d).Ok?
    ensures n !in seen && WriteNode(g, n, seen, d).value.0.id == n
    ensures var a := ReadNode(WriteNode(g, n, seen, d).value.0); a.Ok? && SameAttrs(a.value, g.data[n], d)
    decreases d, 0, 0
  {
    var data := g.data[n];
    var ports := PortsOut(data).value;
    PortsBack(data);
    var el := NodeElement(n, NodeDataOut(data), ports, []);
    assert ReadNode(el) == Ok(DataBeforeNested(data));
    if HasNested(data) {
      var sub := data["graph"].graph;
      RoundTrip(sub, Some(n), seen + {n}, d - 1);
      var subEl := WriteGraph(sub, Some(n), seen + {n}, d - 1).value.0;
      assert WriteNode(g, n, seen, d).value.0 == el.(graphs := [subEl]);
      NestedBack(data, ReadGraph(subEl, Some(n)).value, d);
    } else {
      assert WriteNode(g, n, seen, d).value.0 == el;
      assert DataBeforeNested(data) == data;
    }
  }

  lemma NestedBack(data: Attrs, read: Graph, d: nat)
    requires HasNested(data) && d > 0 && SameGraph(read, data["graph"].graph, d - 1)
    ensures SameAttrs(DataBeforeNested(data)["graph" := VGraph(read)], data, d)
  {
  }

  // Reading the written node elements gives back the non-reference nodes.
  lemma {:induction false} RoundTripNodes(g: Graph, ns: seq<NodeId>, parent: Option<NodeId>, seen: set<string>, d: nat)
    requires NestingWithin(g, d) && forall n :: n in ns ==> n in g.nodes
    requires forall n :: n in ns && !IsParentReference(g.attrs, n) ==> NodeFaithful(g, n, d)
    requires WriteNodes(g, ns, parent, seen, d).Ok?
    ensures var r := ReadNodes(WriteNodes(g, ns, parent, seen, d).value.0, Bare(g));
            r.Ok? && r.value.directed == g.directed && r.value.attrs == g.attrs && r.value.edges == [] &&
            (forall m :: m in r.value.data <==> m in ns && !IsParentReference(g.attrs, m)) &&
            (forall m :: m in r.value.data ==> SameAttrs(r.value.data[m], g.data[m], d))
    decreases d, 1, |ns|
  {
    if ns != [] {
      var init, n := ns[..|ns| - 1], ns[|ns| - 1];
      assert forall m :: m in ns <==> m in init || m == n;
      assert WriteNodes(g, init, parent, seen, d).Ok?;
      RoundTripNodes(g, init, parent, seen, d);
      if !IsParentReference(g.attrs, n) {
        RoundTripNodesNext(g, ns, parent, seen, d);
      }
    }
  }

  lemma RoundTripNodesNext(g: Graph, ns: seq<NodeId>, parent: Option<NodeId>, seen: set<string>, d: nat)
    requires NestingWithin(g, d) && ns != [] && forall n :: n in ns ==> n in g.nodes
    requires !IsParentReference(g.attrs, ns[|ns| - 1]) && NodeFaithful(g, ns[|ns| - 1], d)
    requires WriteNodes(g, ns, parent, seen, d).Ok? && WriteNodes(g, ns[..|ns| - 1], parent, seen, d).Ok?
    requires var r := ReadNodes(WriteNodes(g, ns[..|ns| - 1], parent, seen, d).value.0, Bare(g));
             r.Ok? && r.value.directed == g.directed && r.value.attrs == g.attrs && r.value.edges == [] &&
             (forall m :: m in r.value.data <==> m in ns[..|ns| - 1] && !IsParentReference(g.attrs, m)) &&
             (forall m :: m in r.value.data ==> SameAttrs(r.value.data[m], g.data[m], d))
    ensures var r := ReadNodes(WriteNodes(g, ns, parent, seen, d).value.0, Bare(g));
            r.Ok? && r.value.directed == g.directed && r.value.attrs == g.attrs && r.value.edges == [] &&
            (forall m :: m in r.value.data <==> m in ns && !IsParentReference(g.attrs, m)) &&
            (forall m :: m in r.value.data ==> SameAttrs(r.value.data[m], g.data[m], d))
    decreases d, 0, 1
  {
    var init, n := ns[..|ns| - 1], ns[|ns| - 1];
    assert forall m :: m in ns <==> m in init || m == n;
    var (els, seen') := WriteNodes(g, init, parent, seen, d).value;
    WriteNodesUnfold(g, ns, parent, seen, d);
    var el := WriteNode(g, n, seen', d).value.0;
    RoundTripNode(g, n, seen', d);
    var h := ReadNodes(els, Bare(g)).value;
    ReadNodesSnoc(els, el, Bare(g));
    WriteNodesOk(g, init, parent, seen, d);
    forall m | m in h.data ensures m != n {
      NonReferenceWritten(g, init, d, m);
    }
  }

  // An edge end point is written as the parent exactly when it is a
  // reference, and every other end point is a node read before the edges.
  predicate EndsResolve(attrs: Attrs, e: Edge, parent: Option<NodeId>, keys: set<NodeId>)
  {
    (if IsParentReference(attrs, e.src) then parent.Some? else parent != Some(e.src) && e.src in keys) &&
    (if IsParentReference(attrs, e.tgt) then parent.Some? else parent != Some(e.tgt) && e.tgt in keys)
  }

  // A reference node on one of the edges es.
  ghost predicate RefEnd(attrs: Attrs, es: seq<Edge>, n: NodeId)
  {
    IsParentReference(attrs, n) && exists e :: e in es && (e.src == n || e.tgt == n)
  }

  lemma ReadEdgesSnoc(xs: seq<EdgeElement>, x: EdgeElement, parent: Option<NodeId>, h: Graph)
    requires ReadEdges(xs, parent, h).Ok?
    ensures ReadEdges(xs + [x], parent, h) == ReadEdge(ReadEdges(xs, parent, h).value, x, parent)
  {
    assert (xs + [x])[..|xs + [x]| - 1] == xs;
  }

  // r holds h's nodes unchanged, plus the reference nodes on es, bare.
  ghost predicate Grown(h: Graph, r: Graph, attrs: Attrs, es: seq<Edge>)
  {
    (forall m :: m in r.data <==> m in h.data || RefEnd(attrs, es, m)) &&
    (forall m :: m in h.data ==> r.data[m] == h.data[m]) &&
    (forall m :: m in r.data && m !in h.data ==> r.data[m] == map[])
  }

  lemma GrownStep(h: Graph, h': Graph, attrs: Attrs, es: seq<Edge>, parent: Option<NodeId>)
    requires es != [] && Grown(h, h', attrs, es[..|es| - 1])
    requires EndsResolve(attrs, es[|es| - 1], parent, h.data.Keys)
    ensures Grown(h, AddEdge(h', es[|es| - 1].src, es[|es| - 1].tgt, es[|es| - 1].data), attrs, es)
  {
    var init, e := es[..|es| - 1], es[|es| - 1];
    var r := AddEdge(h', e.src, e.tgt, e.data);
    assert forall f :: f in es <==> f in init || f == e;
    forall m ensures m in r.data <==> m in h.data || RefEnd(attrs, es, m) {
      if RefEnd(attrs, es, m) && !RefEnd(attrs, init, m) {
        assert e.src == m || e.tgt == m;
      }
    }
  }

  lemma AddEdgeTriples(h: Graph, u: NodeId, v: NodeId, data: Attrs)
    ensures Triples(AddEdge(h, u, v, data).edges) == Triples(h.edges) + [(u, v, data)]
  {
    TriplesAppend(h.edges, [Edge(u, v, NewKey(h, u, v), data)]);
  }

  // Reading the written edge elements adds the edges back, creating the
  // reference nodes on them bare.
  lemma {:induction false} RoundTripEdges(attrs: Attrs, es: seq<Edge>, parent: Option<NodeId>, h: Graph)
    requires h.attrs == attrs
    requires forall e :: e in es ==> EdgeFaithful(attrs, e, parent) && EndsResolve(attrs, e, parent, h.data.Keys)
    ensures var r := ReadEdges(EdgesOut(attrs, es, parent), parent, h);
            r.Ok? && r.value.directed == h.directed && r.value.attrs == h.attrs &&
            Triples(r.value.edges) == Triples(h.edges) + Triples(es) && Grown(h, r.value, attrs, es)
  {
    if es == [] {
      assert Triples(h.edges) + Triples(es) == Triples(h.edges);
    } else {
      var init := es[..|es| - 1];
      assert forall f :: f in init ==> f in es;
      RoundTripEdges(attrs, init, parent, h);
      RoundTripEdgesNext(attrs, es, parent, h, ReadEdges(EdgesOut(attrs, init, parent), parent, h).value);
    }
  }

  lemma RoundTripEdgesNext(attrs: Attrs, es: seq<Edge>, parent: Option<NodeId>, h: Graph, h': Graph)
    requires es != [] && h.attrs == attrs
    requires EdgeFaithful(attrs, es[|es| - 1], parent) && EndsResolve(attrs, es[|es| - 1], parent, h.data.Keys)
    requires ReadEdges(EdgesOut(attrs, es[..|es| - 1], parent), parent, h) == Ok(h')
    requires h'.directed == h.directed && h'.attrs == h.attrs
    requires Triples(h'.edges) == Triples(h.edges) + Triples(es[..|es| - 1]) && Grown(h, h', attrs, es[..|es| - 1])
    ensures var r := ReadEdges(EdgesOut(attrs, es, parent), parent, h);
            r.Ok? && r.value.directed == h.directed && r.value.attrs == h.attrs &&
            Triples(r.value.edges) == Triples(h.edges) + Triples(es) && Grown(h, r.value, attrs, es)
  {
    var init, e := es[..|es| - 1], es[|es| - 1];
    var xs, x := EdgesOut(attrs, init, parent), EdgeOut(attrs, e, parent);
    assert EdgesOut(attrs, es, parent) == xs + [x];
    ReadEdgesSnoc(xs, x, parent, h);
    assert h.data.Keys <= h'.data.Keys;
    assert EndsResolve(attrs, e, parent, h'.data.Keys);
    EdgeRoundTrip(h', attrs, e, parent);
    var r := AddEdge(h', e.src, e.tgt, e.data);
    assert ReadEdges(EdgesOut(attrs, es, parent), parent, h) == Ok(r);
    AddEdgeTriples(h', e.src, e.tgt, e.data);
    assert Triples(es) == Triples(init) + [Triple(e)];
    AppendAssoc(Triples(h.edges), Triples(init), [Triple(e)]);
    GrownStep(h, h', attrs, es, parent);
  }

  // Reading back what the writer wrote gives the graph back, up to the
  // order of nodes and the keys of edges, at every level of nesting.
  lemma {:induction false} RoundTrip(g: Graph, parent: Option<NodeId>, seen: set<string>, d: nat)
    requires NestingWithin(g, d) && Faithful(g, parent, d)
    requires WriteGraph(g, parent, seen, d).Ok? && (parent.Some? ==> parent.value in seen)
    ensures var r := ReadGraph(WriteGraph(g, parent, seen, d).value.0, parent); r.Ok? && SameGraph(r.value, g, d)
    decreases d, 2, 0
  {
    var el := WriteGraph(g, parent, seen, d).value.0;
    WriteGraphOk(g, parent, seen, d);
    assert el.nodes == WriteNodes(g, g.nodes, parent, seen, d).value.0;
    assert Graph(el.directed, el.data, [], map[], []) == Bare(g);
    RoundTripNodes(g, g.nodes, parent, seen, d);
    var h1 := ReadNodes(el.nodes, Bare(g)).value;
    forall e | e in g.edges ensures EndsResolve(g.attrs, e, parent, h1.data.Keys) {
      EndResolves(g, parent, seen, d, e.src);
      EndResolves(g, parent, seen, d, e.tgt);
    }
    RoundTripEdges(g.attrs, g.edges, parent, h1);
    var h2 := ReadEdges(el.edges, parent, h1).value;
    assert Triples(h1.edges) + Triples(g.edges) == Triples(g.edges);
    RoundTripData(g, parent, d, h1, h2);
  }

  lemma RoundTripData(g: Graph, parent: Option<NodeId>, d: nat, h1: Graph, h2: Graph)
    requires NestingWithin(g, d) && Faithful(g, parent, d)
    requires (forall m :: m in h1.data <==> m in g.nodes && !IsParentReference(g.attrs, m))
    requires (forall m :: m in h1.data ==> SameAttrs(h1.data[m], g.data[m], d))
    requires Grown(h1, h2, g.attrs, g.edges)
    ensures h2.data.Keys == g.data.Keys && forall n :: n in g.data ==> SameAttrs(h2.data[n], g.data[n], d)
  {
    forall n ensures n in h2.data <==> n in g.data {
      if n in g.data && IsParentReference(g.attrs, n) {
        assert RefEnd(g.attrs, g.edges, n);
      }
    }
    forall n | n in g.data ensures SameAttrs(h2.data[n], g.data[n], d) {
      if IsParentReference(g.attrs, n) {
        assert h2.data[n] == map[] == g.data[n];
      }
    }
  }

  // Where an end point of g's edges goes when written and read back.
  lemma EndResolves(g: Graph, parent: Option<NodeId>, seen: set<string>, d: nat, x: NodeId)
    requires NestingWithin(g, d) && NodesWellFormed(g) && x in g.data
    requires WriteGraph(g, parent, seen, d).Ok? && (parent.Some? ==> parent.value in seen)
    requires Writable(g, parent, d) && Unseen(GraphIds(g, d), seen)
    ensures IsParentReference(g.attrs, x) ==> parent.Some?
    ensures !IsParentReference(g.attrs, x) ==> parent != Some(x)
  {
    if !IsParentReference(g.attrs, x) {
      NonReferenceWritten(g, g.nodes, d, x);
    }
  }

  /* ---------------- What the writer writes ---------------- */

  // The nodes of ns that are not parent references, in order.
  function NonReferences(attrs: Attrs, ns: seq<NodeId>): (r: seq<NodeId>)
    ensures forall n :: n in r <==> n in ns && !IsParentReference(attrs, n)
  {
    if ns == [] then []
    else NonReferences(attrs, ns[..|ns| - 1]) + (if IsParentReference(attrs, ns[|ns| - 1]) then [] else [ns[|ns| - 1]])
  }

  // A node element written for one of g's nodes: its data, and a nested
  // graph element exactly when the node holds a non-empty graph.
  predicate ElementOf(g: Graph, el: NodeElement)
  {
    el.id in g.data && el.data == NodeDataOut(g.data[el.id]) &&
    |el.graphs| <= 1 && (|el.graphs| == 1 <==> HasNested(g.data[el.id]))
  }

  // The node elements written are the nodes that are not parent
  // references, in the graph's order.
  lemma {:induction false} WrittenNodes(g: Graph, ns: seq<NodeId>, parent: Option<NodeId>, seen: set<string>, d: nat)
    requires NestingWithin(g, d) && forall n :: n in ns ==> n in g.nodes
    requires WriteNodes(g, ns, parent, seen, d).Ok?
    ensures var els := WriteNodes(g, ns, parent, seen, d).value.0;
            ElementIds(els) == NonReferences(g.attrs, ns) && forall i :: 0 <= i < |els| ==> ElementOf(g, els[i])
    decreases |ns|
  {
    if ns != [] {
      var init, n := ns[..|ns| - 1], ns[|ns| - 1];
      assert forall m :: m in init ==> m in ns;
      assert WriteNodes(g, init, parent, seen, d).Ok?;
      WrittenNodes(g, init, parent, seen, d);
      var (els, seen') := WriteNodes(g, init, parent, seen, d).value;
      if !IsParentReference(g.attrs, n) {
        WriteNodesUnfold(g, ns, parent, seen, d);
        assert WriteNode(g, n, seen', d).Ok?;
        var el := WriteNode(g, n, seen', d).value.0;
        WrittenNode(g, n, seen', d);
        ElementIdsSnoc(els, el);
        ElementsOfSnoc(g, els, el);
        assert WriteNodes(g, ns, parent, seen, d).value.0 == els + [el];
      } else {
        assert WriteNodes(g, ns, parent, seen, d).value.0 == els;
      }
    }
  }

  lemma WrittenNode(g: Graph, n: NodeId, seen: set<string>, d: nat)
    requires NestingWithin(g, d) && n in g.nodes && WriteNode(g, n, seen, d).Ok?
    ensures WriteNode(g, n, seen, d).value.0.id == n && ElementOf(g, WriteNode(g, n, seen, d).value.0)
  {
  }

  lemma ElementsOfSnoc(g: Graph, els: seq<NodeElement>, el: NodeElement)
    requires (forall i :: 0 <= i < |els| ==> ElementOf(g, els[i])) && ElementOf(g, el)
    ensures forall i :: 0 <= i < |els + [el]| ==> ElementOf(g, (els + [el])[i])
  {
  }

  lemma ElementIdsSnoc(els: seq<NodeElement>, el: NodeElement)
    ensures ElementIds(els + [el]) == ElementIds(els) + [el.id]
  {
    assert (els + [el])[..|els|] == els;
  }

  // No written node, edge or graph data holds a key the writer turns into
  // an element or attribute of its own.
  lemma SpecialKeysNotData(g: Graph, parent: Option<NodeId>, seen: set<string>, d: nat)
    requires NestingWithin(g, d) && WriteGraph(g, parent, seen, d).Ok?
    ensures var el := WriteGraph(g, parent, seen, d).value.0;
            "node_default" !in el.data && "edge_default" !in el.data && "port_default" !in el.data &&
            (forall i :: 0 <= i < |el.nodes| ==>
               "ports" !in el.nodes[i].data && ("graph" in el.nodes[i].data ==> !el.nodes[i].data["graph"].VGraph?)) &&
            (forall i :: 0 <= i < |el.edges| ==> "sourceport" !in el.edges[i].data && "targetport" !in el.edges[i].data)
  {
    WrittenNodes(g, g.nodes, parent, seen, d);
    forall i | 0 <= i < |g.edges| {
      EdgesOutAt(g.attrs, g.edges, parent, i);
    }
  }

  // An edge end is written as the parent node exactly when it references
  // the parent; reference ids are never written as end points.
  lemma WrittenEnds(attrs: Attrs, es: seq<Edge>, parent: Option<NodeId>)
    ensures var xs := EdgesOut(attrs, es, parent);
            forall i :: 0 <= i < |es| ==>
              (IsParentReference(attrs, es[i].src) && parent.Some? ==> xs[i].source == parent.value) &&
              (!IsParentReference(attrs, es[i].src) ==> xs[i].source == es[i].src) &&
              (IsParentReference(attrs, es[i].tgt) && parent.Some? ==> xs[i].target == parent.value) &&
              (!IsParentReference(attrs, es[i].tgt) ==> xs[i].target == es[i].tgt)
  {
    var xs := EdgesOut(attrs, es, parent);
    forall i | 0 <= i < |es| ensures xs[i] == EdgeOut(attrs, es[i], parent) {
      EdgesOutAt(attrs, es, parent, i);
    }
  }

  lemma {:induction false} EdgesOutAt(attrs: Attrs, es: seq<Edge>, parent: Option<NodeId>, i: nat)
    requires i < |es|
    ensures EdgesOut(attrs, es, parent)[i] == EdgeOut(attrs, es[i], parent)
  {
    if i < |es| - 1 {
      EdgesOutAt(attrs, es[..|es| - 1], parent, i);
    }
  }

  /* ---------------- The writer and the reader ---------------- */

  // `GraphMLWriter`: the ids written so far, and the top-level graph
  // elements appended to the document.
  class GraphMLWriter {
    var allNodes: set<string>
    var elements: seq<GraphElement>

    constructor ()
      ensures allNodes == {} && elements == []
    {
      allNodes := {};
      elements := [];
    }

    // `add_graph_element`: the graph is written with no parent and its
    // element appended to the document.
    method AddGraphElement(g: Graph, ghost d: nat) returns (r: Result<()>)
      requires NestingWithin(g, d)
      modifies this
      ensures var w := WriteGraph(g, None, old(allNodes), d);
              (r.Ok? <==> w.Ok?) && (r.Err? ==> r.error == w.error) &&
              (r.Ok? ==> allNodes == w.value.1 && elements == old(elements) + [w.value.0])
    {
      var el := AddGraph(g, None, d);
      if el.Err? {
        return Err(el.error);
      }
      elements := elements + [el.value];
      r := Ok(());
    }

    // `add_graph`: the graph element with its data, nodes and edges.
    method AddGraph(g: Graph, parent: Option<NodeId>, ghost d: nat) returns (r: Result<GraphElement>)
      requires NestingWithin(g, d)
      modifies this
      ensures var w := WriteGraph(g, parent, old(allNodes), d);
              (r.Ok? <==> w.Ok?) && (r.Err? ==> r.error == w.error) &&
              (r.Ok? ==> r.value == w.value.0 && allNodes == w.value.1) && elements == old(elements)
      decreases d, 2
    {
      var ns := AddNodes(g, parent, d);
      if ns.Err? {
        return Err(ns.error);
      }
      var es := AddEdges(g, parent);
      r := Ok(GraphElement(g.directed, GraphDataOut(g.attrs), ns.value, es, 0));
    }

    // `add_nodes`: one element per node that is not a parent reference,
    // each id recorded in allNodes before its ports and nested graph.
    method AddNodes(g: Graph, parent: Option<NodeId>, ghost d: nat) returns (r: Result<seq<NodeElement>>)
      requires NestingWithin(g, d)
      modifies this
      ensures var w := WriteNodes(g, g.nodes, parent, old(allNodes), d);
              (r.Ok? <==> w.Ok?) && (r.Err? ==> r.error == w.error) &&
              (r.Ok? ==> r.value == w.value.0 && allNodes == w.value.1) && elements == old(elements)
      decreases d, 1
    {
      var els: seq<NodeElement> := [];
      var i := 0;
      while i < |g.nodes|
        invariant 0 <= i <= |g.nodes| && elements == old(elements)
        invariant WriteNodes(g, g.nodes[..i], parent, old(allNodes), d) == Ok((els, allNodes))
      {
        var n := g.nodes[i];
        assert g.nodes[..i + 1][..i] == g.nodes[..i];
        ghost var seen := allNodes;
        if IsParentReference(g.attrs, n) {
          if parent.None? {
            WholePrefix(g.nodes);
            WriteNodesStopped(g, g.nodes, i + 1, parent, old(allNodes), d);
            return Err(GraphError);
          }
        } else {
          var el := AddNode(g, n, d);
          if el.Err? {
            WholePrefix(g.nodes);
            WriteNodesStopped(g, g.nodes, i + 1, parent, old(allNodes), d);
            return Err(el.error);
          }
          els := els + [el.value];
        }
        i := i + 1;
      }
      WholePrefix(g.nodes);
      r := Ok(els);
    }

    // The body of the `add_nodes` loop for a node that is not a parent
    // reference.
    method AddNode(g: Graph, n: NodeId, ghost d: nat) returns (r: Result<NodeElement>)
      requires NestingWithin(g, d) && n in g.nodes
      modifies this
      ensures var w := WriteNode(g, n, old(allNodes), d);
              (r.Ok? <==> w.Ok?) && (r.Err? ==> r.error == w.error) &&
              (r.Ok? ==> r.value == w.value.0 && allNodes == w.value.1) && elements == old(elements)
      decreases d, 0
    {
      if n in allNodes {
        return Err(GraphError);
      }
      allNodes := allNodes + {n};
      var data := g.data[n];
      var ports := AddPorts(data);
      if ports.Err? {
        return Err(ports.error);
      }
      if HasNested(data) {
        var sub := AddGraph(data["graph"].graph, Some(n), d - 1);
        if sub.Err? {
          return Err(sub.error);
        }
        r := Ok(NodeElement(n, NodeDataOut(data), ports.value, [sub.value]));
      } else {
        r := Ok(NodeElement(n, NodeDataOut(data), ports.value, []));
      }
    }

    // `add_ports`: one port element per entry of the `ports` dictionary.
    method AddPorts(data: Attrs) returns (r: Result<seq<PortElement>>)
      ensures r == PortsOut(data)
    {
      if "ports" !in data {
        return Ok([]);
      }
      if !data["ports"].VDict? {
        return Err(AttributeError);
      }
      var entries := data["ports"].entries;
      var ps: seq<PortElement> := [];
      var i := 0;
      while i < |entries|
        invariant 0 <= i <= |entries| && PortList(entries[..i]) == Ok(ps)
      {
        assert entries[..i + 1][..i] == entries[..i];
        var (name, v) := entries[i];
        if !v.VDict? {
          PortListStopped(entries, i + 1);
          return Err(AttributeError);
        }
        ps := ps + [PortElement(name, v.entries)];
        i := i + 1;
      }
      WholePrefix(entries);
      r := Ok(ps);
    }

    // `add_edges`: one edge element per edge, its ends written as the
    // parent where they reference it.
    method AddEdges(g: Graph, parent: Option<NodeId>) returns (es: seq<EdgeElement>)
      ensures es == EdgesOut(g.attrs, g.edges, parent)
    {
      es := [];
      var i := 0;
      while i < |g.edges|
        invariant 0 <= i <= |g.edges| && es == EdgesOut(g.attrs, g.edges[..i], parent)
      {
        EdgesOutNext(g.attrs, g.edges, i, parent);
        es := es + [EdgeOut(g.attrs, g.edges[i], parent)];
        i := i + 1;
      }
      WholePrefix(g.edges);
    }
  }

  lemma EdgesOutNext(attrs: Attrs, es: seq<Edge>, i: nat, parent: Option<NodeId>)
    requires i < |es|
    ensures EdgesOut(attrs, es[..i + 1], parent) == EdgesOut(attrs, es[..i], parent) + [EdgeOut(attrs, es[i], parent)]
  {
    assert es[..i + 1][..i] == es[..i];
  }

  // Once a prefix of ns fails to write, so does every longer prefix.
  lemma {:induction false} WriteNodesStopped(g: Graph, ns: seq<NodeId>, i: nat, parent: Option<NodeId>, seen: set<string>, d: nat)
    requires NestingWithin(g, d) && forall n :: n in ns ==> n in g.nodes
    requires i <= |ns| && WriteNodes(g, ns[..i], parent, seen, d).Err?
    ensures WriteNodes(g, ns, parent, seen, d) == WriteNodes(g, ns[..i], parent, seen, d)
    decreases |ns| - i
  {
    if i < |ns| {
      var ns' := ns[..i + 1];
      assert ns'[..i] == ns[..i] && forall n :: n in ns' ==> n in ns;
      WriteNodesStopped(g, ns, i + 1, parent, seen, d);
    } else {
      assert ns[..i] == ns;
    }
  }

  lemma {:induction false} PortListStopped(entries: seq<(string, Value)>, i: nat)
    requires i <= |entries| && PortList(entries[..i]).Err?
    ensures PortList(entries) == PortList(entries[..i])
    decreases |entries| - i
  {
    if i < |entries| {
      assert entries[..i + 1][..i] == entries[..i];
      PortListStopped(entries, i + 1);
    } else {
      assert entries[..i] == entries;
    }
  }

  // `GraphMLReader.make_graph`: the nodes are added, then the edges, then
  // hyperedges are rejected.
  method ReaderMakeGraph(el: GraphElement, parent: Option<NodeId>) returns (r: Result<Graph>)
    ensures r == ReadGraph(el, parent)
    decreases el, 1
  {
    var h := ReaderAddNodes(el.nodes, Graph(el.directed, el.data, [], map[], []));
    if h.Err? {
      return Err(h.error);
    }
    var h' := ReaderAddEdges(el.edges, parent, h.value);
    if h'.Err? {
      return Err(h'.error);
    }
    if el.hyperedges > 0 {
      return Err(GraphError);
    }
    r := h';
  }

  // The `make_graph` loop over the node elements.
  method ReaderAddNodes(ns: seq<NodeElement>, h0: Graph) returns (r: Result<Graph>)
    ensures r == ReadNodes(ns, h0)
    decreases ns, 0
  {
    var h := h0;
    var i := 0;
    while i < |ns|
      invariant 0 <= i <= |ns| && ReadNodes(ns[..i], h0) == Ok(h)
    {
      assert ns[..i + 1][..i] == ns[..i];
      var data := ReaderAddNode(ns[i]);
      if data.Err? {
        ReadNodesStopped(ns, i + 1, h0);
        return Err(data.error);
      }
      h := AddNode(h, ns[i].id, data.value);
      i := i + 1;
    }
    WholePrefix(ns);
    r := Ok(h);
  }

  // The `make_graph` loop over the edge elements.
  method ReaderAddEdges(xs: seq<EdgeElement>, parent: Option<NodeId>, h0: Graph) returns (r: Result<Graph>)
    ensures r == ReadEdges(xs, parent, h0)
  {
    var h := h0;
    var i := 0;
    while i < |xs|
      invariant 0 <= i <= |xs| && ReadEdges(xs[..i], parent, h0) == Ok(h)
    {
      assert xs[..i + 1][..i] == xs[..i];
      var next := ReaderAddEdge(h, xs[i], parent);
      if next.Err? {
        ReadEdgesStopped(xs, i + 1, parent, h0);
        return Err(next.error);
      }
      h := next.value;
      i := i + 1;
    }
    WholePrefix(xs);
    r := Ok(h);
  }

  // `GraphMLReader.add_node`: the node's data, its ports and its nested
  // graph.
  method ReaderAddNode(n: NodeElement) returns (r: Result<Attrs>)
    ensures r == ReadNode(n)
    decreases n, 2
  {
    var ports: seq<(string, Value)> := [];
    var i := 0;
    while i < |n.ports|
      invariant 0 <= i <= |n.ports| && ports == PortsIn(n.ports[..i])
    {
      assert n.ports[..i + 1][..i] == n.ports[..i];
      var attrs := DecodeData(n.ports[i].data);
      ports := DictSet(ports, n.ports[i].name, VDict(attrs));
      i := i + 1;
    }
    WholePrefix(n.ports);
    var data := if n.ports == [] then n.data else n.data["ports" := VDict(ports)];
    if |n.graphs| == 1 {
      var sub := ReaderMakeGraph(n.graphs[0], Some(n.id));
      if sub.Err? {
        return Err(sub.error);
      }
      r := Ok(data["graph" := VGraph(sub.value)]);
    } else if |n.graphs| > 1 {
      r := Err(GraphError);
    } else {
      r := Ok(data);
    }
  }

  // A port's data children assigned in turn to an ordered dictionary.
  method DecodeData(kvs: seq<(string, Value)>) returns (r: seq<(string, Value)>)
    ensures r == Collect(kvs)
  {
    r := [];
    var i := 0;
    while i < |kvs|
      invariant 0 <= i <= |kvs| && r == Collect(kvs[..i])
    {
      assert kvs[..i + 1][..i] == kvs[..i];
      r := DictSet(r, kvs[i].0, kvs[i].1);
      i := i + 1;
    }
    WholePrefix(kvs);
  }

  // `GraphMLReader.add_edge`.
  method ReaderAddEdge(h: Graph, e: EdgeElement, parent: Option<NodeId>) returns (r: Result<Graph>)
    ensures r == ReadEdge(h, e, parent)
  {
    if h.directed && e.directed == Some(false) {
      return Err(GraphError);
    }
    if !h.directed && e.directed == Some(true) {
      return Err(GraphError);
    }
    var u := SourceIn(h.attrs, e.source, parent);
    if u.Err? {
      return Err(u.error);
    }
    var v := TargetIn(h.attrs, e.target, parent);
    if v.Err? {
      return Err(v.error);
    }
    var data := e.data;
    if e.sourceport.Some? {
      data := data["sourceport" := e.sourceport.value];
    }
    if e.targetport.Some? {
      data := data["targetport" := e.targetport.value];
    }
    r := Ok(AddEdge(h, u.value, v.value, data));
  }

  lemma {:induction false} ReadNodesStopped(ns: seq<NodeElement>, i: nat, h: Graph)
    requires i <= |ns| && ReadNodes(ns[..i], h).Err?
    ensures ReadNodes(ns, h) == ReadNodes(ns[..i], h)
    decreases |ns| - i
  {
    if i < |ns| {
      assert ns[..i + 1][..i] == ns[..i];
      ReadNodesStopped(ns, i + 1, h);
    } else {
      assert ns[..i] == ns;
    }
  }

  lemma {:induction false} ReadEdgesStopped(xs: seq<EdgeElement>, i: nat, parent: Option<NodeId>, h: Graph)
    requires i <= |xs| && ReadEdges(xs[..i], parent, h).Err?
    ensures ReadEdges(xs, parent, h) == ReadEdges(xs[..i], parent, h)
    decreases |xs| - i
  {
    if i < |xs| {
      assert xs[..i + 1][..i] == xs[..i];
      ReadEdgesStopped(xs, i + 1, parent, h);
    } else {
      assert xs[..i] == xs;
    }
  }
}
