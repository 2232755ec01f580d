// The annotated flow graph builder (core/annotated_graph.py), second part:
// `reify_entities`, which turns the object ids carried by the edges into
// entity nodes between the actions, processing the actions in topological
// order.
module AnnotatedReify {
  import opened Base
  import opened Graphs
  import opened FlowGraphs
  import opened AnnotatedGraphs
  import opened AnnotatedData
  import opened AnnotatedCollapse

  /* ---------------- Edge helpers ---------------- */

  // The position of the newest edge joining u to v.
  function NewestEdge(es: seq<Edge>, directed: bool, u: NodeId, v: NodeId): (r: Option<nat>)
    ensures r.Some? ==> r.value < |es| && Joins(directed, es[r.value], u, v)
    ensures r.Some? ==> forall j :: r.value < j < |es| ==> !Joins(directed, es[j], u, v)
    ensures r.None? <==> forall e :: e in es ==> !Joins(directed, e, u, v)
  {
    if es == [] then None
    else if Joins(directed, es[|es| - 1], u, v) then Some(|es| - 1)
    else
      assert forall e :: e in es ==> e in es[..|es| - 1] || e == es[|es| - 1];
      NewestEdge(es[..|es| - 1], directed, u, v)
  }

  // `remove_edge(u, v)` without a key: the edges between u and v sit in an
  // ordered dictionary whose `popitem` drops the newest one; NetworkXError
  // when there is none.
  function RemoveNewest(g: Graph, u: NodeId, v: NodeId): (r: Result<Graph>)
    ensures r.Err? <==> !HasEdge(g, u, v)
    ensures r.Err? ==> r.error == GraphError
    ensures r.Ok? ==> exists i :: 0 <= i < |g.edges| && Joins(g.directed, g.edges[i], u, v) &&
                                  (forall j :: i < j < |g.edges| ==> !Joins(g.directed, g.edges[j], u, v)) &&
                                  r.value == DropEdge(g, i)
  {
    var i := NewestEdge(g.edges, g.directed, u, v);
    if i.None? then Err(GraphError)
    else
      assert g.edges[i.value] in g.edges;
      Ok(DropEdge(g, i.value))
  }

  // One edge from u to v per port name, carrying the name.
  function PortWires(u: NodeId, v: NodeId, ports: seq<string>): (r: seq<Wire>)
    ensures |r| == |ports| && forall i :: 0 <= i < |ports| ==> r[i] == (u, v, map["port" := VStr(ports[i])])
  {
    if ports == [] then [] else PortWires(u, v, ports[..|ports| - 1]) + [(u, v, map["port" := VStr(ports[|ports| - 1])])]
  }

  // `if ports: remove_edge(u, v); for port in ports: add_edge(u, v,
  // port=port)`: the newest plain edge is replaced by one edge per port.
  function WirePorts(g: Graph, u: NodeId, v: NodeId, ports: seq<string>): (r: Result<Graph>)
  {
    if ports == [] then Ok(g)
    else
      var h := RemoveNewest(g, u, v);
      if h.Err? then h else Ok(AddTriples(h.value, PortWires(u, v, ports)))
  }

  // The loop adding the port edges.
  method AddPortEdges(g: Graph, u: NodeId, v: NodeId, ports: seq<string>) returns (r: Graph)
    ensures r == AddTriples(g, PortWires(u, v, ports))
  {
    r := g;
    var j := 0;
    while j < |ports|
      invariant 0 <= j <= |ports|
      invariant r == AddTriples(g, PortWires(u, v, ports[..j]))
    {
      PrefixStep(ports, j);
      AddTriplesStep(g, PortWires(u, v, ports[..j]), (u, v, map["port" := VStr(ports[j])]));
      r := AddEdge(r, u, v, map["port" := VStr(ports[j])]);
      j := j + 1;
    }
    WholePrefix(ports);
  }

  // The same replacement, as the pass performs it.
  method ReplaceByPorts(g: Graph, u: NodeId, v: NodeId, ports: seq<string>) returns (r: Result<Graph>)
    ensures r == WirePorts(g, u, v, ports)
  {
    if ports == [] {
      return Ok(g);
    }
    var h := RemoveNewest(g, u, v);
    if h.Err? {
      return h;
    }
    var h' := AddPortEdges(h.value, u, v, ports);
    r := Ok(h');
  }

  /* ---------------- Inputs ---------------- */

  // The predecessors recorded per object id (`entity_data['predecessors']`,
  // a set), as lists without repetition in the order they were met.
  type Preds = map<Value, seq<NodeId>>

  function PredsOf(p: Preds, id: Value): seq<NodeId>
  {
    if id in p then p[id] else []
  }

  function AddPred(p: Preds, id: Value, v: NodeId): (r: Preds)
    ensures forall k :: PredsOf(r, k) == if k == id && v !in PredsOf(p, id) then PredsOf(p, id) + [v] else PredsOf(p, k)
  {
    var ps := PredsOf(p, id);
    p[id := if v in ps then ps else ps + [v]]
  }

  // The id map and the predecessors `reify_inputs` gathers from the
  // in-edges es, starting from the action's input table: each edge's id is
  // added to the map (without a port name) and its source recorded as a
  // predecessor of that id. KeyError for an edge without an id.
  function InputIds(m0: IdMap, es: seq<Edge>, notes: Notes, token: string): (r: Result<(IdMap, Preds)>)
  {
    if es == [] then Ok((m0, map[]))
    else
      var prev := InputIds(m0, es[..|es| - 1], notes, token);
      var e := es[|es| - 1];
      if prev.Err? then prev
      else if "id" !in e.data then Err(KeyError)
      else
        var a := AddEntity(prev.value.0, IdOrDataOf(e.data["id"]), None, notes, token);
        Ok((a.0, AddPred(prev.value.1, a.1, e.src)))
  }

  // `all(graph.node[n]['kind'] == 'entity' for n in ns)`: KeyError at the
  // first name met before a non-entity that is not a node or has no kind.
  function AllEntities(h: Graph, ns: seq<NodeId>): (r: Result<bool>)
    ensures r == Ok(true) <==> forall n :: n in ns ==> n in h.data && IsEntity(h.data[n])
    ensures r.Err? ==> r.error == KeyError
  {
    if ns == [] then Ok(true)
    else if ns[0] !in h.data || "kind" !in h.data[ns[0]] then Err(KeyError)
    else if !IsEntity(h.data[ns[0]]) then Ok(false)
    else
      assert forall n :: n in ns ==> n == ns[0] || n in ns[1..];
      AllEntities(h, ns[1..])
  }

  // One entry of the input id map, with the predecessors ps of its id: a
  // unique entity predecessor is reused, a new entity is made when there is
  // none, and with several the id stays unresolved, which only a collapsed
  // action allows. The node found or made gets one edge per port and, when
  // it is not annotated yet, the entity's data.
  function InputEntry(h: Graph, action: NodeId, e: Entity, ps: seq<NodeId>, names: Names): (r: Result<Graph>)
    requires action in h.data
    ensures r.Ok? ==> h.data.Keys <= r.value.data.Keys
  {
    var ok := AllEntities(h, ps);
    if ok.Err? then Err(ok.error)
    else if ps != [] && !ok.value then Err(AssertionError)
    else if |ps| > 1 then
      if "collapsed" !in h.data[action] then Err(KeyError)
      else if !Truthy(h.data[action]["collapsed"]) then Err(AssertionError)
      else Ok(h)
    else
      var node := if ps == [] then FreshName(names, h, "entity") else ps[0];
      var h1 := if ps == [] then AddEdge(EnsureNode(h, node), node, action, map[]) else h;
      Attach(h1, node, action, e)
  }

  // The end of an entry, once its node is known: the port edges from the
  // node and its annotation.
  function Attach(h1: Graph, node: NodeId, action: NodeId, e: Entity): (r: Result<Graph>)
    requires node in h1.data && action in h1.data
    ensures r.Ok? ==> h1.data.Keys <= r.value.data.Keys
  {
    if node == "" then Ok(h1)
    else
      var h2 := WirePorts(h1, node, action, e.ports);
      if h2.Err? then h2
      else
        WirePortsKeys(h1, node, action, e.ports);
        if IsAnnotated(h2.value.data[node]) then h2 else Ok(AnnotateEntity(h2.value, node, e.data))
  }

  // The entries in order.
  function InputEntries(h: Graph, action: NodeId, m: IdMap, preds: Preds, names: Names): (r: Result<Graph>)
    requires action in h.data
    ensures r.Ok? ==> h.data.Keys <= r.value.data.Keys
    decreases |m|
  {
    if m == [] then Ok(h)
    else
      var prev := InputEntries(h, action, m[..|m| - 1], preds, names);
      if prev.Err? then prev
      else
        InputEntry(prev.value, action, m[|m| - 1].1, PredsOf(preds, m[|m| - 1].0), names)
  }

  // `reify_inputs(graph, action)`, given the action's input table.
  function ReifyInputsSpec(h: Graph, action: NodeId, m0: IdMap, notes: Notes, token: string, names: Names): Result<Graph>
    requires action in h.data
  {
    var ids := InputIds(m0, InEdges(h, action), notes, token);
    if ids.Err? then Err(ids.error)
    else InputEntries(h, action, ids.value.0, ids.value.1, names)
  }

  /* ---------------- Outputs ---------------- */

  // The id map `reify_outputs` gathers from the out-edges es, starting from
  // the action's output table. KeyError for an edge without an id.
  function OutputIds(m0: IdMap, es: seq<Edge>, notes: Notes, token: string): (r: Result<IdMap>)
  {
    if es == [] then Ok(m0)
    else
      var prev := OutputIds(m0, es[..|es| - 1], notes, token);
      var e := es[|es| - 1];
      if prev.Err? then prev
      else if "id" !in e.data then Err(KeyError)
      else Ok(AddEntity(prev.value, IdOrDataOf(e.data["id"]), None, notes, token).0)
  }

  // The edges of the snapshot es that carry id are moved, one at a time,
  // from the action to n, keeping their data.
  function MoveCarriers(h: Graph, action: NodeId, n: NodeId, es: seq<Edge>, id: Value): (r: Result<Graph>)
  {
    if es == [] then Ok(h)
    else
      var prev := MoveCarriers(h, action, n, es[..|es| - 1], id);
      if prev.Err? then prev else MoveCarrier(prev.value, action, n, es[|es| - 1], id)
  }

  // One edge of the snapshot: a carrier of the id leaves the action for n.
  function MoveCarrier(h: Graph, action: NodeId, n: NodeId, e: Edge, id: Value): (r: Result<Graph>)
  {
    if !CarriesId(e, id) then Ok(h)
    else
      var h' := RemoveEdge(h, action, e.tgt, e.key);
      if h'.Err? then h' else Ok(AddEdge(h'.value, n, e.tgt, e.data))
  }

  // One entry of the output id map: a new entity node after the action
  // takes over every out-edge carrying the id, gets one edge from the
  // action per port, and the entity's data.
  function OutputEntry(h: Graph, action: NodeId, id: Value, e: Entity, names: Names): (r: Result<Graph>)
  {
    var n := FreshName(names, h, "entity");
    var h1 := AddEdge(h, action, n, map[]);
    var h2 := MoveCarriers(h1, action, n, OutEdges(h1, action), id);
    if h2.Err? then h2
    else
      var h3 := WirePorts(h2.value, action, n, e.ports);
      if h3.Err? then h3
      else
        MoveCarriersKeys(h1, action, n, OutEdges(h1, action), id);
        WirePortsKeys(h2.value, action, n, e.ports);
        Ok(AnnotateEntity(h3.value, n, e.data))
  }

  function OutputEntries(h: Graph, action: NodeId, m: IdMap, names: Names): (r: Result<Graph>)
    decreases |m|
  {
    if m == [] then Ok(h)
    else
      var prev := OutputEntries(h, action, m[..|m| - 1], names);
      if prev.Err? then prev
      else OutputEntry(prev.value, action, m[|m| - 1].0, m[|m| - 1].1, names)
  }

  // `reify_outputs(graph, action)`, given the action's output table.
  function ReifyOutputsSpec(h: Graph, action: NodeId, m0: IdMap, notes: Notes, token: string, names: Names): Result<Graph>
  {
    var ids := OutputIds(m0, OutEdges(h, action), notes, token);
    if ids.Err? then Err(ids.error)
    else OutputEntries(h, action, ids.value, names)
  }

  /* ---------------- The pass ---------------- */

  // The input and output tables of an action (none for an action that was
  // not annotated in the concrete graph).
  function TablesOf(t: Tables, a: NodeId): (IdMap, IdMap)
  {
    if a in t then t[a] else ([], [])
  }

  // One action of `reify_entities`: KeyError when it is not a node or has
  // no kind, AssertionError when it is not an action, then its inputs and
  // outputs. The tokens stand for the uuids of ids given as dictionaries
  // without an id.
  function ReifyStep(h: Graph, a: NodeId, t: Tables, notes: Notes, uuid: Tokens, names: Names): Result<Graph>
  {
    if a !in h.data || "kind" !in h.data[a] then Err(KeyError)
    else if !IsAction(h.data[a]) then Err(AssertionError)
    else
      var r1 := ReifyInputsSpec(h, a, TablesOf(t, a).0, notes, uuid(a, "inputs"), names);
      if r1.Err? then r1
      else ReifyOutputsSpec(r1.value, a, TablesOf(t, a).1, notes, uuid(a, "outputs"), names)
  }

  // The actions of the order, in turn.
  function ReifySpec(h: Graph, order: seq<NodeId>, t: Tables, notes: Notes, uuid: Tokens, names: Names): Result<Graph>
    decreases |order|
  {
    if order == [] then Ok(h)
    else
      var prev := ReifySpec(h, order[..|order| - 1], t, notes, uuid, names);
      if prev.Err? then prev
      else ReifyStep(prev.value, order[|order| - 1], t, notes, uuid, names)
  }

  /* ---------------- Helper facts for the definitions ---------------- */

  // Replacing edges between two nodes changes no node.
  lemma WirePortsData(g: Graph, u: NodeId, v: NodeId, ports: seq<string>)
    requires u in g.data && v in g.data && WirePorts(g, u, v, ports).Ok?
    ensures WirePorts(g, u, v, ports).value.data == g.data
    ensures WirePorts(g, u, v, ports).value.nodes == g.nodes
  {
    if ports != [] {
      var h := RemoveNewest(g, u, v).value;
      PortWiresEnds(u, v, ports);
      AddTriplesData(h, PortWires(u, v, ports));
    }
  }

  // Replacing edges keeps every node.
  lemma WirePortsKeys(g: Graph, u: NodeId, v: NodeId, ports: seq<string>)
    requires WirePorts(g, u, v, ports).Ok?
    ensures g.data.Keys <= WirePorts(g, u, v, ports).value.data.Keys
  {
    if ports != [] {
      AddTriplesData(RemoveNewest(g, u, v).value, PortWires(u, v, ports));
    }
  }

  lemma {:induction false} PortWiresEnds(u: NodeId, v: NodeId, ports: seq<string>)
    ensures Ends(PortWires(u, v, ports)) <= {u, v}
    decreases |ports|
  {
    if ports != [] {
      PortWiresEnds(u, v, ports[..|ports| - 1]);
    }
  }

  // Moving edges from one node to another changes no node.
  lemma {:induction false} MoveCarriersData(h: Graph, action: NodeId, n: NodeId, es: seq<Edge>, id: Value)
    requires n in h.data && forall e :: e in es ==> e.tgt in h.data
    requires MoveCarriers(h, action, n, es, id).Ok?
    ensures MoveCarriers(h, action, n, es, id).value.data == h.data
    ensures MoveCarriers(h, action, n, es, id).value.nodes == h.nodes
    decreases |es|
  {
    if es != [] {
      assert es[|es| - 1] in es;
      MoveCarriersData(h, action, n, es[..|es| - 1], id);
    }
  }

  // Moving edges keeps every node.
  lemma {:induction false} MoveCarriersKeys(h: Graph, action: NodeId, n: NodeId, es: seq<Edge>, id: Value)
    requires MoveCarriers(h, action, n, es, id).Ok?
    ensures h.data.Keys <= MoveCarriers(h, action, n, es, id).value.data.Keys
    decreases |es|
  {
    if es != [] {
      MoveCarriersKeys(h, action, n, es[..|es| - 1], id);
    }
  }

  /* ---------------- The pass as the source performs it ---------------- */

  // `reify_inputs(graph, action)`: the in-edges give the id map and the
  // predecessors, then every entry is reified in turn.
  method ReifyInputs(h0: Graph, action: NodeId, m0: IdMap, notes: Notes, token: string, names: Names)
    returns (r: Result<Graph>)
    requires action in h0.data
    ensures r == ReifyInputsSpec(h0, action, m0, notes, token, names)
  {
    var ids := CollectInputIds(m0, InEdges(h0, action), notes, token);
    if ids.Err? {
      return Err(ids.error);
    }
    var m, preds := ids.value.0, ids.value.1;
    var h := h0;
    var j := 0;
    while j < |m|
      invariant 0 <= j <= |m|
      invariant InputEntries(h0, action, m[..j], preds, names) == Ok(h)
    {
      PrefixStep(m, j);
      r := ReifyInput(h, action, m[j].1, PredsOf(preds, m[j].0), names);
      if r.Err? {
        InputEntriesErr(h0, action, m, preds, names, j + 1);
        return;
      }
      h := r.value;
      j := j + 1;
    }
    WholePrefix(m);
    r := Ok(h);
  }

  // The loop over the in-edges of `reify_inputs`.
  method CollectInputIds(m0: IdMap, es: seq<Edge>, notes: Notes, token: string) returns (r: Result<(IdMap, Preds)>)
    ensures r == InputIds(m0, es, notes, token)
  {
    var m: IdMap, preds: Preds := m0, map[];
    var i := 0;
    while i < |es|
      invariant 0 <= i <= |es|
      invariant InputIds(m0, es[..i], notes, token) == Ok((m, preds))
    {
      var e := es[i];
      PrefixStep(es, i);
      if "id" !in e.data {
        InputIdsErr(m0, es, notes, token, i + 1);
        return Err(KeyError);
      }
      var a := AddEntity(m, IdOrDataOf(e.data["id"]), None, notes, token);
      m, preds := a.0, AddPred(preds, a.1, e.src);
      i := i + 1;
    }
    WholePrefix(es);
    r := Ok((m, preds));
  }

  // One entry of `reify_inputs`.
  method ReifyInput(h: Graph, action: NodeId, e: Entity, ps: seq<NodeId>, names: Names) returns (r: Result<Graph>)
    requires action in h.data
    ensures r == InputEntry(h, action, e, ps, names)
  {
    var ok := AllEntities(h, ps);
    if ok.Err? {
      return Err(ok.error);
    }
    if ps != [] && !ok.value {
      return Err(AssertionError);
    }
    if |ps| > 1 {
      if "collapsed" !in h.data[action] {
        return Err(KeyError);
      }
      if !Truthy(h.data[action]["collapsed"]) {
        return Err(AssertionError);
      }
      return Ok(h);
    }
    var node, h1;
    if ps == [] {
      node := FreshName(names, h, "entity");
      h1 := EnsureNode(h, node);
      h1 := AddEdge(h1, node, action, map[]);
    } else {
      node, h1 := ps[0], h;
    }
    if node == "" {
      return Ok(h1);
    }
    var h2 := ReplaceByPorts(h1, node, action, e.ports);
    if h2.Err? {
      return h2;
    }
    WirePortsKeys(h1, node, action, e.ports);
    if IsAnnotated(h2.value.data[node]) {
      return h2;
    }
    r := Ok(AnnotateEntity(h2.value, node, e.data));
  }

  // `reify_outputs(graph, action)`: the out-edges give the id map, then
  // every entry is reified in turn.
  method ReifyOutputs(h0: Graph, action: NodeId, m0: IdMap, notes: Notes, token: string, names: Names)
    returns (r: Result<Graph>)
    ensures r == ReifyOutputsSpec(h0, action, m0, notes, token, names)
  {
    var ids := CollectOutputIds(m0, OutEdges(h0, action), notes, token);
    if ids.Err? {
      return Err(ids.error);
    }
    var m := ids.value;
    var h := h0;
    var j := 0;
    while j < |m|
      invariant 0 <= j <= |m|
      invariant OutputEntries(h0, action, m[..j], names) == Ok(h)
    {
      PrefixStep(m, j);
      r := ReifyOutput(h, action, m[j].0, m[j].1, names);
      if r.Err? {
        OutputEntriesErr(h0, action, m, names, j + 1);
        return;
      }
      h := r.value;
      j := j + 1;
    }
    WholePrefix(m);
    r := Ok(h);
  }

  // The loop over the out-edges of `reify_outputs`.
  method CollectOutputIds(m0: IdMap, es: seq<Edge>, notes: Notes, token: string) returns (r: Result<IdMap>)
    ensures r == OutputIds(m0, es, notes, token)
  {
    var m: IdMap := m0;
    var i := 0;
    while i < |es|
      invariant 0 <= i <= |es|
      invariant OutputIds(m0, es[..i], notes, token) == Ok(m)
    {
      var e := es[i];
      PrefixStep(es, i);
      if "id" !in e.data {
        OutputIdsErr(m0, es, notes, token, i + 1);
        return Err(KeyError);
      }
      m := AddEntity(m, IdOrDataOf(e.data["id"]), None, notes, token).0;
      i := i + 1;
    }
    WholePrefix(es);
    r := Ok(m);
  }

  // One entry of `reify_outputs`.
  method ReifyOutput(h: Graph, action: NodeId, id: Value, e: Entity, names: Names) returns (r: Result<Graph>)
    ensures r == OutputEntry(h, action, id, e, names)
  {
    var n := FreshName(names, h, "entity");
    var h1 := AddEdge(h, action, n, map[]);
    var h2 := MoveOutEdges(h1, action, n, OutEdges(h1, action), id);
    if h2.Err? {
      return h2;
    }
    var h3 := ReplaceByPorts(h2.value, action, n, e.ports);
    if h3.Err? {
      return h3;
    }
    MoveCarriersKeys(h1, action, n, OutEdges(h1, action), id);
    WirePortsKeys(h2.value, action, n, e.ports);
    r := Ok(AnnotateEntity(h3.value, n, e.data));
  }

  // The loop over the snapshot of the out-edges.
  method MoveOutEdges(h0: Graph, action: NodeId, n: NodeId, es: seq<Edge>, id: Value) returns (r: Result<Graph>)
    ensures r == MoveCarriers(h0, action, n, es, id)
  {
    var h := h0;
    var k := 0;
    while k < |es|
      invariant 0 <= k <= |es|
      invariant MoveCarriers(h0, action, n, es[..k], id) == Ok(h)
    {
      MoveCarriersNext(h0, action, n, es, id, k, h);
      r := MoveEdge(h, action, n, es[k], id);
      if r.Err? {
        MoveCarriersErr(h0, action, n, es, id, k + 1);
        return;
      }
      h := r.value;
      k := k + 1;
    }
    WholePrefix(es);
    r := Ok(h);
  }

  // One edge of the snapshot.
  method MoveEdge(h: Graph, action: NodeId, n: NodeId, e: Edge, id: Value) returns (r: Result<Graph>)
    ensures r == MoveCarrier(h, action, n, e, id)
  {
    r := Ok(h);
    if CarriesId(e, id) {
      r := RemoveEdge(h, action, e.tgt, e.key);
      if r.Ok? {
        r := Ok(AddEdge(r.value, n, e.tgt, e.data));
      }
    }
  }

  // `reify_entities(graph)`, over the given topological order.
  method ReifyEntities(h0: Graph, order: seq<NodeId>, t: Tables, notes: Notes, uuid: Tokens, names: Names)
    returns (r: Result<Graph>)
    ensures r == ReifySpec(h0, order, t, notes, uuid, names)
  {
    var h := h0;
    var i := 0;
    while i < |order|
      invariant 0 <= i <= |order|
      invariant ReifySpec(h0, order[..i], t, notes, uuid, names) == Ok(h)
    {
      ReifySpecNext(h0, order, t, notes, uuid, names, i, h);
      r := ReifyAction(h, order[i], t, notes, uuid, names);
      if r.Err? {
        ReifySpecErr(h0, order, t, notes, uuid, names, i + 1);
        return;
      }
      h := r.value;
      i := i + 1;
    }
    WholePrefix(order);
    r := Ok(h);
  }

  // One action of `reify_entities`.
  method ReifyAction(h: Graph, a: NodeId, t: Tables, notes: Notes, uuid: Tokens, names: Names) returns (r: Result<Graph>)
    ensures r == ReifyStep(h, a, t, notes, uuid, names)
  {
    if a !in h.data || "kind" !in h.data[a] {
      return Err(KeyError);
    }
    if !IsAction(h.data[a]) {
      return Err(AssertionError);
    }
    var tabs := TablesOf(t, a);
    r := ReifyInputs(h, a, tabs.0, notes, uuid(a, "inputs"), names);
    if r.Ok? {
      r := ReifyOutputs(r.value, a, tabs.1, notes, uuid(a, "outputs"), names);
    }
  }

  /* ---------------- An error ends each fold ---------------- */

  lemma {:induction false} InputIdsErr(m0: IdMap, es: seq<Edge>, notes: Notes, token: string, k: nat)
    requires k <= |es| && InputIds(m0, es[..k], notes, token).Err?
    ensures InputIds(m0, es, notes, token) == InputIds(m0, es[..k], notes, token)
    decreases |es| - k
  {
    if k < |es| {
      PrefixStep(es, k);
      InputIdsErr(m0, es, notes, token, k + 1);
    } else {
      WholePrefix(es);
    }
  }

  lemma {:induction false} InputEntriesErr(h: Graph, action: NodeId, m: IdMap, preds: Preds, names: Names, k: nat)
    requires action in h.data
    requires k <= |m| && InputEntries(h, action, m[..k], preds, names).Err?
    ensures InputEntries(h, action, m, preds, names) == InputEntries(h, action, m[..k], preds, names)
    decreases |m| - k
  {
    if k < |m| {
      PrefixStep(m, k);
      InputEntriesErr(h, action, m, preds, names, k + 1);
    } else {
      WholePrefix(m);
    }
  }

  lemma {:induction false} OutputIdsErr(m0: IdMap, es: seq<Edge>, notes: Notes, token: string, k: nat)
    requires k <= |es| && OutputIds(m0, es[..k], notes, token).Err?
    ensures OutputIds(m0, es, notes, token) == OutputIds(m0, es[..k], notes, token)
    decreases |es| - k
  {
    if k < |es| {
      PrefixStep(es, k);
      OutputIdsErr(m0, es, notes, token, k + 1);
    } else {
      WholePrefix(es);
    }
  }

  lemma {:induction false} OutputEntriesErr(h: Graph, action: NodeId, m: IdMap, names: Names, k: nat)
    requires k <= |m| && OutputEntries(h, action, m[..k], names).Err?
    ensures OutputEntries(h, action, m, names) == OutputEntries(h, action, m[..k], names)
    decreases |m| - k
  {
    if k < |m| {
      PrefixStep(m, k);
      OutputEntriesErr(h, action, m, names, k + 1);
    } else {
      WholePrefix(m);
    }
  }

  // One more step of a fold.
  lemma MoveCarriersNext(h0: Graph, action: NodeId, n: NodeId, es: seq<Edge>, id: Value, k: nat, h: Graph)
    requires k < |es| && MoveCarriers(h0, action, n, es[..k], id) == Ok(h)
    ensures MoveCarriers(h0, action, n, es[..k + 1], id) == MoveCarrier(h, action, n, es[k], id)
  {
    PrefixStep(es, k);
  }

  lemma ReifySpecNext(h0: Graph, order: seq<NodeId>, t: Tables, notes: Notes, uuid: Tokens, names: Names, i: nat, h: Graph)
    requires i < |order| && ReifySpec(h0, order[..i], t, notes, uuid, names) == Ok(h)
    ensures ReifySpec(h0, order[..i + 1], t, notes, uuid, names) == ReifyStep(h, order[i], t, notes, uuid, names)
  {
    PrefixStep(order, i);
  }

  lemma {:induction false} MoveCarriersErr(h: Graph, action: NodeId, n: NodeId, es: seq<Edge>, id: Value, k: nat)
    requires k <= |es| && MoveCarriers(h, action, n, es[..k], id).Err?
    ensures MoveCarriers(h, action, n, es, id) == MoveCarriers(h, action, n, es[..k], id)
    decreases |es| - k
  {
    if k < |es| {
      PrefixStep(es, k);
      MoveCarriersErr(h, action, n, es, id, k + 1);
    } else {
      WholePrefix(es);
    }
  }

  lemma {:induction false} ReifySpecErr(h: Graph, order: seq<NodeId>, t: Tables, notes: Notes, uuid: Tokens, names: Names, k: nat)
    requires k <= |order| && ReifySpec(h, order[..k], t, notes, uuid, names).Err?
    ensures ReifySpec(h, order, t, notes, uuid, names) == ReifySpec(h, order[..k], t, notes, uuid, names)
    decreases |order| - k
  {
    if k < |order| {
      PrefixStep(order, k);
      ReifySpecErr(h, order, t, notes, uuid, names, k + 1);
    } else {
      WholePrefix(order);
    }
  }

  /* ---------------- Edge membership ---------------- */

  // The edges after adding wires: the old ones, then one per wire.
  lemma {:induction false} AddTriplesMembers(g: Graph, ts: seq<Wire>)
    ensures forall x :: x in AddTriples(g, ts).edges ==> x in g.edges || Triple(x) in ts
    ensures forall x :: x in g.edges ==> x in AddTriples(g, ts).edges
    ensures forall t :: t in ts ==> exists x :: x in AddTriples(g, ts).edges && Triple(x) == t
    decreases |ts|
  {
    if ts != [] {
      var init := ts[..|ts| - 1];
      var t := ts[|ts| - 1];
      AddTriplesMembers(g, init);
      var r0 := AddTriples(g, init);
      var x := Edge(t.0, t.1, NewKey(r0, t.0, t.1), t.2);
      assert AddTriples(g, ts).edges == r0.edges + [x];
      assert forall y :: y in ts ==> y in init || y == t;
      assert Triple(x) == t;
    }
  }

  // Dropping one position keeps every edge that is not the dropped one.
  lemma DropEdgeMembers(g: Graph, i: nat)
    requires i < |g.edges|
    ensures forall x :: x in DropEdge(g, i).edges ==> x in g.edges
    ensures forall x :: x in g.edges && x != g.edges[i] ==> x in DropEdge(g, i).edges
    ensures Distinct(g.edges) ==> g.edges[i] !in DropEdge(g, i).edges
  {
    var r := DropEdge(g, i).edges;
    forall x | x in g.edges && x != g.edges[i] ensures x in r {
      var k :| 0 <= k < |g.edges| && g.edges[k] == x;
      assert r[if k < i then k else k - 1] == x;
    }
    forall x | x in r ensures x in g.edges {
      var k :| 0 <= k < |r| && r[k] == x;
      assert x == g.edges[if k < i then k else k + 1];
    }
    if Distinct(g.edges) {
      forall k | 0 <= k < |r| ensures r[k] != g.edges[i] {
        assert r[k] == g.edges[if k < i then k else k + 1];
      }
    }
  }

  // Replacing by ports: every edge after is an old one or a port edge from
  // u to v; every old edge that does not join u to v stays; a port edge is
  // there when ports were given.
  lemma WirePortsEdges(g: Graph, u: NodeId, v: NodeId, ports: seq<string>)
    requires WirePorts(g, u, v, ports).Ok?
    ensures var r := WirePorts(g, u, v, ports).value;
            r.directed == g.directed &&
            (forall x :: x in r.edges ==> x in g.edges || (x.src == u && x.tgt == v)) &&
            (forall x :: x in g.edges && !Joins(g.directed, x, u, v) ==> x in r.edges) &&
            (ports != [] ==> exists x :: x in r.edges && x.src == u && x.tgt == v)
  {
    if ports != [] {
      var i := NewestEdge(g.edges, g.directed, u, v).value;
      var h := DropEdge(g, i);
      DropEdgeMembers(g, i);
      var ws := PortWires(u, v, ports);
      AddTriplesMembers(h, ws);
      AddTriplesEdges(h, ws);
      assert ws[0] in ws;
      PortWiresFrom(u, v, ports);
    }
  }

  lemma PortWiresFrom(u: NodeId, v: NodeId, ports: seq<string>)
    ensures forall t :: t in PortWires(u, v, ports) ==> t.0 == u && t.1 == v
  {
    var ws := PortWires(u, v, ports);
    forall t | t in ws ensures t.0 == u && t.1 == v {
      var i :| 0 <= i < |ws| && ws[i] == t;
    }
  }

  lemma WirePortsValid(g: Graph, u: NodeId, v: NodeId, ports: seq<string>)
    requires Valid(g) && WirePorts(g, u, v, ports).Ok?
    ensures Valid(WirePorts(g, u, v, ports).value)
  {
    if ports != [] {
      var i := NewestEdge(g.edges, g.directed, u, v).value;
      RemoveEdgeAtValid(g, i);
      AddTriplesValid(DropEdge(g, i), PortWires(u, v, ports));
    }
  }

  /* ---------------- Inputs come from entities ---------------- */

  // A name oracle that never names an existing node.
  ghost predicate FreshNames(names: Names)
  {
    forall g: Graph, base: string :: FreshName(names, g, base) !in g.data
  }

  // Every node of h is a node of r, and an entity of h is an entity of r.
  ghost predicate KeepsEntities(h: Graph, r: Graph)
  {
    forall v :: v in h.data ==> v in r.data && (IsEntity(h.data[v]) ==> IsEntity(r.data[v]))
  }

  // Every listed node is an entity of r.
  ghost predicate EntitiesIn(r: Graph, ps: seq<NodeId>)
  {
    forall v :: v in ps ==> v in r.data && IsEntity(r.data[v])
  }

  // Every in-edge of the action in r is an edge of h or comes from an
  // entity.
  ghost predicate InEdgesFrom(h: Graph, r: Graph, action: NodeId)
  {
    forall x :: x in r.edges && x.tgt == action ==> x in h.edges || (x.src in r.data && IsEntity(r.data[x.src]))
  }

  // Every predecessor of every id of the map is an entity of r.
  ghost predicate PredsEntities(r: Graph, m: IdMap, preds: Preds)
  {
    forall k :: 0 <= k < |m| ==> EntitiesIn(r, PredsOf(preds, m[k].0))
  }

  lemma PredsEntitiesStep(prev: Graph, r: Graph, m: IdMap, preds: Preds)
    requires m != []
    requires PredsEntities(prev, m[..|m| - 1], preds) && KeepsEntities(prev, r)
    requires EntitiesIn(r, PredsOf(preds, m[|m| - 1].0))
    ensures PredsEntities(r, m, preds)
  {
    forall k | 0 <= k < |m| ensures EntitiesIn(r, PredsOf(preds, m[k].0)) {
      if k < |m| - 1 {
        assert m[..|m| - 1][k] == m[k];
        assert EntitiesIn(prev, PredsOf(preds, m[k].0));
      }
    }
  }

  lemma KeepsEntitiesTrans(a: Graph, b: Graph, c: Graph)
    requires KeepsEntities(a, b) && KeepsEntities(b, c)
    ensures KeepsEntities(a, c)
  {
  }

  lemma InEdgesFromTrans(a: Graph, b: Graph, c: Graph, action: NodeId)
    requires InEdgesFrom(a, b, action) && InEdgesFrom(b, c, action) && KeepsEntities(b, c)
    ensures InEdgesFrom(a, c, action)
  {
  }

  // No entity of the map carries its own kind.
  predicate NoKinds(m: IdMap)
  {
    forall j :: 0 <= j < |m| ==> "kind" !in m[j].1.data
  }

  // Gathering the input ids keeps every id of the action's table.
  lemma {:induction false} InputIdsKeep(m0: IdMap, es: seq<Edge>, notes: Notes, token: string)
    requires InputIds(m0, es, notes, token).Ok?
    ensures forall k :: Lookup(m0, k).Some? ==> Lookup(InputIds(m0, es, notes, token).value.0, k).Some?
    decreases |es|
  {
    if es != [] {
      InputIdsKeep(m0, es[..|es| - 1], notes, token);
    }
  }

  // Every in-edge's id gets an entry, with the edge's source among its
  // predecessors.
  lemma {:induction false} InputIdsCover(m0: IdMap, es: seq<Edge>, notes: Notes, token: string)
    requires InputIds(m0, es, notes, token).Ok?
    ensures var r := InputIds(m0, es, notes, token).value;
            forall x :: x in es ==> "id" in x.data && Lookup(r.0, IdOf(IdOrDataOf(x.data["id"]), token)).Some? &&
                                    x.src in PredsOf(r.1, IdOf(IdOrDataOf(x.data["id"]), token))
    decreases |es|
  {
    if es != [] {
      var init := es[..|es| - 1];
      InputIdsCover(m0, init, notes, token);
      assert forall x :: x in es ==> x in init || x == es[|es| - 1];
    }
  }

  // No entity gets a kind of its own when neither the table nor the in-edges'
  // data carries one.
  lemma {:induction false} InputIdsNoKinds(m0: IdMap, es: seq<Edge>, notes: Notes, token: string)
    requires NoKinds(m0) && forall x :: x in es && "id" in x.data ==> "kind" !in DataOf(IdOrDataOf(x.data["id"]), notes)
    requires InputIds(m0, es, notes, token).Ok?
    ensures NoKinds(InputIds(m0, es, notes, token).value.0)
    decreases |es|
  {
    if es != [] {
      var init := es[..|es| - 1];
      assert forall x :: x in init ==> x in es;
      InputIdsNoKinds(m0, init, notes, token);
      var e := es[|es| - 1];
      assert e in es;
      AddEntityNoKinds(InputIds(m0, init, notes, token).value.0, IdOrDataOf(e.data["id"]), notes, token);
    }
  }

  lemma AddEntityNoKinds(m: IdMap, x: IdOrData, notes: Notes, token: string)
    requires NoKinds(m) && "kind" !in DataOf(x, notes)
    ensures NoKinds(AddEntity(m, x, None, notes, token).0)
  {
    var r := AddEntity(m, x, None, notes, token).0;
    forall j | 0 <= j < |r| ensures "kind" !in r[j].1.data {
      if j < |m| {
        assert r[j].1.data == m[j].1.data;
      }
    }
  }

  // Reifying one entry: nodes stay and entities stay entities, the id's
  // predecessors are entities, and every in-edge of the action is an old
  // one or comes from an entity.
  lemma InputEntryStep(h: Graph, action: NodeId, e: Entity, ps: seq<NodeId>, names: Names)
    requires action in h.data && "kind" !in e.data && FreshName(names, h, "entity") !in h.data
    requires InputEntry(h, action, e, ps, names).Ok?
    ensures var r := InputEntry(h, action, e, ps, names).value;
            KeepsEntities(h, r) && EntitiesIn(r, ps) && InEdgesFrom(h, r, action)
  {
    if |ps| <= 1 {
      var node := if ps == [] then FreshName(names, h, "entity") else ps[0];
      var h1 := if ps == [] then AddEdge(EnsureNode(h, node), node, action, map[]) else h;
      if ps == [] {
        assert h1.data[node] == map[];
      }
      AttachStep(h1, node, action, e);
    }
  }

  // The end of an entry: nodes stay and entities stay entities, the node
  // becomes an entity, and new edges leave the node.
  lemma AttachStep(h1: Graph, node: NodeId, action: NodeId, e: Entity)
    requires node in h1.data && action in h1.data && "kind" !in e.data
    requires IsEntity(h1.data[node]) || !IsAnnotated(h1.data[node])
    requires Attach(h1, node, action, e).Ok?
    ensures var r := Attach(h1, node, action, e).value;
            (forall v :: v in h1.data ==> v in r.data && (IsEntity(h1.data[v]) ==> IsEntity(r.data[v]))) &&
            (node != "" ==> IsEntity(r.data[node])) &&
            (forall x :: x in r.edges ==> x in h1.edges || x.src == node)
  {
    if node != "" {
      WirePortsData(h1, node, action, e.ports);
      WirePortsEdges(h1, node, action, e.ports);
    }
  }

  // The entries in turn: every predecessor of every id ends up an entity,
  // and every in-edge of the action is an old one or comes from an entity.
  lemma {:induction false} InputEntriesEntities(h: Graph, action: NodeId, m: IdMap, preds: Preds, names: Names)
    requires action in h.data && FreshNames(names) && NoKinds(m)
    requires InputEntries(h, action, m, preds, names).Ok?
    ensures var r := InputEntries(h, action, m, preds, names).value;
            KeepsEntities(h, r) && InEdgesFrom(h, r, action) && PredsEntities(r, m, preds)
    decreases |m|
  {
    if m != [] {
      var init := m[..|m| - 1];
      assert NoKinds(init);
      InputEntriesEntities(h, action, init, preds, names);
      var prev := InputEntries(h, action, init, preds, names).value;
      var last := m[|m| - 1];
      InputEntryStep(prev, action, last.1, PredsOf(preds, last.0), names);
      var r := InputEntries(h, action, m, preds, names).value;
      KeepsEntitiesTrans(h, prev, r);
      InEdgesFromTrans(h, prev, r, action);
      PredsEntitiesStep(prev, r, m, preds);
    }
  }

  // `reify_inputs` leaves every in-edge of the action coming from an
  // entity: reused predecessors are checked to be entities, and new nodes
  // are annotated as entities (the entity data carries no kind of its own,
  // and new names are fresh).
  lemma ReifyInputsFromEntities(h: Graph, action: NodeId, m0: IdMap, notes: Notes, token: string, names: Names)
    requires action in h.data && FreshNames(names) && NoKinds(m0)
    requires forall x :: x in InEdges(h, action) && "id" in x.data ==> "kind" !in DataOf(IdOrDataOf(x.data["id"]), notes)
    requires ReifyInputsSpec(h, action, m0, notes, token, names).Ok?
    ensures var r := ReifyInputsSpec(h, action, m0, notes, token, names).value;
            forall x :: x in r.edges && x.tgt == action ==> x.src in r.data && IsEntity(r.data[x.src])
  {
    var es := InEdges(h, action);
    InputIdsCover(m0, es, notes, token);
    InputIdsNoKinds(m0, es, notes, token);
    var ids := InputIds(m0, es, notes, token).value;
    InputEntriesEntities(h, action, ids.0, ids.1, names);
    var r := InputEntries(h, action, ids.0, ids.1, names).value;
    forall x | x in r.edges && x.tgt == action && x in h.edges
      ensures x.src in r.data && IsEntity(r.data[x.src])
    {
      assert x in es;
      var id := IdOf(IdOrDataOf(x.data["id"]), token);
      var k := Find(ids.0, id).value;
      assert PredsEntities(r, ids.0, ids.1);
      assert EntitiesIn(r, PredsOf(ids.1, ids.0[k].0));
    }
  }

  /* ---------------- Outputs lead to entities ---------------- */

  // Removing an edge of a well-formed graph by its (u, v, key) slot removes
  // exactly that edge.
  lemma RemoveSlot(g: Graph, x: Edge)
    requires Valid(g) && x in g.edges
    ensures RemoveEdge(g, x.src, x.tgt, x.key).Ok?
    ensures var r := RemoveEdge(g, x.src, x.tgt, x.key).value;
            r.data == g.data && r.nodes == g.nodes && r.directed == g.directed && Valid(r) &&
            forall y :: y in r.edges <==> y in g.edges && y != x
  {
    var k :| 0 <= k < |g.edges| && g.edges[k] == x;
    assert HasEdgeKey(g, x.src, x.tgt, x.key);
    var i :| 0 <= i < |g.edges| && g.edges[i].key == x.key && Joins(g.directed, g.edges[i], x.src, x.tgt)
             && RemoveEdge(g, x.src, x.tgt, x.key).value == DropEdge(g, i);
    SlotOwner(g.directed, g.edges, i, k);
    SlotsUniqueDistinct(g.directed, g.edges);
    DropEdgeMembers(g, i);
    RemoveEdgeValid(g, x.src, x.tgt, x.key);
  }

  // Some edge leaves n for the target of e with e's data.
  ghost predicate Rerouted(h: Graph, n: NodeId, e: Edge)
  {
    exists y :: y in h.edges && y.src == n && y.tgt == e.tgt && y.data == e.data
  }

  // The state after moving the carriers among the first k edges of the
  // snapshot es of the action's out-edges in h1: the nodes and their data
  // are those of h1, every edge is an edge of h1 or leaves n, the processed
  // carriers are gone and re-routed from n, the unprocessed edges are all
  // there, and every edge of h1 that is not a carrier from the action stays.
  ghost predicate Moving(h1: Graph, action: NodeId, n: NodeId, es: seq<Edge>, id: Value, k: nat, h: Graph)
  {
    k <= |es| && Valid(h) && h.data == h1.data && h.nodes == h1.nodes && h.directed == h1.directed &&
    FromOldOr(h1, h, n) && MovedBefore(h, n, es, id, k) && PendingFrom(h, es, k) && KeptUnlessCarrier(h1, h, action, id)
  }

  ghost predicate FromOldOr(h1: Graph, h: Graph, n: NodeId)
  {
    forall x :: x in h.edges ==> x in h1.edges || x.src == n
  }

  ghost predicate MovedBefore(h: Graph, n: NodeId, es: seq<Edge>, id: Value, k: nat)
  {
    forall i :: 0 <= i < k && i < |es| && CarriesId(es[i], id) ==> es[i] !in h.edges && Rerouted(h, n, es[i])
  }

  ghost predicate PendingFrom(h: Graph, es: seq<Edge>, k: nat)
  {
    forall i :: k <= i < |es| ==> es[i] in h.edges
  }

  ghost predicate KeptUnlessCarrier(h1: Graph, h: Graph, action: NodeId, id: Value)
  {
    forall x :: x in h1.edges && (x.src != action || !CarriesId(x, id)) ==> x in h.edges
  }

  lemma MovingStart(h1: Graph, action: NodeId, n: NodeId, id: Value)
    requires Valid(h1)
    ensures Moving(h1, action, n, OutEdges(h1, action), id, 0, h1)
  {
  }

  // Moving one more edge of the snapshot keeps the state.
  lemma MovingStep(h1: Graph, action: NodeId, n: NodeId, es: seq<Edge>, id: Value, k: nat, h: Graph)
    requires Moving(h1, action, n, es, id, k, h) && k < |es|
    requires Distinct(es) && (forall x :: x in es ==> x.src == action) && action != n && n in h1.data
    ensures MoveCarrier(h, action, n, es[k], id).Ok?
    ensures Moving(h1, action, n, es, id, k + 1, MoveCarrier(h, action, n, es[k], id).value)
  {
    var e := es[k];
    assert e in es;
    if CarriesId(e, id) {
      RemoveSlot(h, e);
      var h' := RemoveEdge(h, action, e.tgt, e.key).value;
      var r := AddEdge(h', n, e.tgt, e.data);
      AddEdgeValid(h', n, e.tgt, e.data);
      MovedEdges(h, e, h', n, r);
      MovedBeforeStep(h, n, es, id, k, h', r);
      PendingStep(h, es, k, h', r);
      assert Moving(h1, action, n, es, id, k + 1, r);
    }
  }

  // The edges after moving e: those of h but e, and a new edge from n for
  // e's target with e's data.
  lemma MovedEdges(h: Graph, e: Edge, h': Graph, n: NodeId, r: Graph)
    requires forall y :: y in h'.edges <==> y in h.edges && y != e
    requires r == AddEdge(h', n, e.tgt, e.data)
    ensures forall y :: y in r.edges ==> (y in h.edges && y != e) || y.src == n
    ensures forall y :: y in h.edges && y != e ==> y in r.edges
    ensures Rerouted(r, n, e)
  {
    var y := Edge(n, e.tgt, NewKey(h', n, e.tgt), e.data);
    assert r.edges == h'.edges + [y];
    assert y in r.edges;
  }

  lemma MovedBeforeStep(h: Graph, n: NodeId, es: seq<Edge>, id: Value, k: nat, h': Graph, r: Graph)
    requires MovedBefore(h, n, es, id, k) && k < |es| && Distinct(es) && CarriesId(es[k], id)
    requires forall y :: y in r.edges ==> (y in h.edges && y != es[k]) || y.src == n
    requires forall y :: y in h.edges && y != es[k] ==> y in r.edges
    requires Rerouted(r, n, es[k]) && forall x :: x in es ==> x.src != n
    ensures MovedBefore(r, n, es, id, k + 1)
  {
    forall i | 0 <= i < k + 1 && i < |es| && CarriesId(es[i], id) ensures es[i] !in r.edges && Rerouted(r, n, es[i]) {
      assert es[i] in es;
      if i < k {
        var w :| w in h.edges && w.src == n && w.tgt == es[i].tgt && w.data == es[i].data;
        assert w in r.edges;
      }
    }
  }

  lemma PendingStep(h: Graph, es: seq<Edge>, k: nat, h': Graph, r: Graph)
    requires PendingFrom(h, es, k) && k < |es| && Distinct(es)
    requires forall y :: y in h.edges && y != es[k] ==> y in r.edges
    ensures PendingFrom(r, es, k + 1)
  {
    forall i | k + 1 <= i < |es| ensures es[i] in r.edges {
      assert es[i] != es[k];
    }
  }

  // Moving the carriers of a well-formed graph's out-edge snapshot never
  // fails; afterwards the action's out-edges are exactly its old
  // non-carriers, every carrier leaves n for its old target with its old
  // data, and nothing else changes but the edges from n added.
  lemma {:induction false} MoveCarriersMoving(h1: Graph, action: NodeId, n: NodeId, id: Value, k: nat)
    requires Valid(h1) && action != n && n in h1.data && k <= |OutEdges(h1, action)|
    ensures var es := OutEdges(h1, action);
            MoveCarriers(h1, action, n, es[..k], id).Ok? &&
            Moving(h1, action, n, es, id, k, MoveCarriers(h1, action, n, es[..k], id).value)
    decreases k
  {
    var es := OutEdges(h1, action);
    if k == 0 {
      assert es[..0] == [];
      MovingStart(h1, action, n, id);
    } else {
      MoveCarriersMoving(h1, action, n, id, k - 1);
      var h := MoveCarriers(h1, action, n, es[..k - 1], id).value;
      SlotsUniqueDistinct(h1.directed, h1.edges);
      EdgesIntoDistinct(h1.edges, action);
      MovingStep(h1, action, n, es, id, k - 1, h);
      MoveCarriersNext(h1, action, n, es, id, k - 1, h);
    }
  }

  // The whole snapshot moved.
  lemma MoveCarriersSpec(h1: Graph, action: NodeId, n: NodeId, id: Value)
    requires Valid(h1) && action != n && n in h1.data
    ensures var es := OutEdges(h1, action);
            var r := MoveCarriers(h1, action, n, es, id);
            r.Ok? && Valid(r.value) && r.value.data == h1.data && r.value.nodes == h1.nodes &&
            r.value.directed == h1.directed &&
            (forall x :: x in r.value.edges ==> x in h1.edges || x.src == n) &&
            (forall x :: x in h1.edges && (x.src != action || !CarriesId(x, id)) ==> x in r.value.edges) &&
            (forall x :: x in r.value.edges && x.src == action ==> !CarriesId(x, id)) &&
            (forall x :: x in h1.edges && x.src == action && CarriesId(x, id) ==> Rerouted(r.value, n, x))
  {
    var es := OutEdges(h1, action);
    MoveCarriersMoving(h1, action, n, id, |es|);
    WholePrefix(es);
    var r := MoveCarriers(h1, action, n, es, id).value;
    forall x | x in r.edges && x.src == action ensures !CarriesId(x, id) {
      assert x in es;
      var i :| 0 <= i < |es| && es[i] == x;
    }
    forall x | x in h1.edges && x.src == action && CarriesId(x, id) ensures Rerouted(r, n, x) {
      var i :| 0 <= i < |es| && es[i] == x;
    }
  }

  // The nodes of h keep their data in r.
  ghost predicate AgreesOn(h: Graph, r: Graph)
  {
    forall v :: v in h.data ==> v in r.data && r.data[v] == h.data[v]
  }

  // The action's out-edges in r are edges of h that do not carry the id, or
  // lead to n.
  ghost predicate OutsAfter(h: Graph, r: Graph, action: NodeId, id: Value, n: NodeId)
  {
    forall x :: x in r.edges && x.src == action ==> (x in h.edges && !CarriesId(x, id)) || x.tgt == n
  }

  // The edges of h that do not leave the action stay.
  ghost predicate KeepsOthers(h: Graph, r: Graph, action: NodeId)
  {
    forall x :: x in h.edges && x.src != action ==> x in r.edges
  }

  // Every carrier of the id from the action now leaves n.
  ghost predicate ReroutesCarriers(h: Graph, r: Graph, action: NodeId, id: Value, n: NodeId)
  {
    forall x :: x in h.edges && x.src == action && CarriesId(x, id) ==> Rerouted(r, n, x)
  }

  // The graph after adding the edge from the action to the new node.
  lemma LinkFacts(h: Graph, action: NodeId, n: NodeId)
    requires Valid(h) && action in h.data && n !in h.data
    ensures var h1 := AddEdge(h, action, n, map[]);
            Valid(h1) && h1.directed == h.directed && n in h1.data && h1.data[n] == map[] && AgreesOn(h, h1) &&
            (forall x :: x in h1.edges ==> x in h.edges || (x.src == action && x.tgt == n && x.data == map[])) &&
            (forall x :: x in h.edges ==> x in h1.edges && x.tgt != n && x.src != n) &&
            Edge(action, n, NewKey(h, action, n), map[]) in h1.edges
  {
    AddEdgeValid(h, action, n, map[]);
  }

  // One entry of the output id map, on a well-formed directed graph: the
  // new node is an entity that was not a node before, old nodes keep their
  // data, the action's out-edges are the old ones not carrying the id or
  // lead to the new node, every carrier now leaves the new node, and edges
  // not from the action stay.
  lemma OutputEntryStep(h: Graph, action: NodeId, id: Value, e: Entity, names: Names)
    requires Valid(h) && h.directed && action in h.data && FreshName(names, h, "entity") !in h.data && "kind" !in e.data
    requires OutputEntry(h, action, id, e, names).Ok?
    ensures var n := FreshName(names, h, "entity");
            var r := OutputEntry(h, action, id, e, names).value;
            Valid(r) && r.directed && n in r.data && IsEntity(r.data[n]) && AgreesOn(h, r) &&
            OutsAfter(h, r, action, id, n) && KeepsOthers(h, r, action) && ReroutesCarriers(h, r, action, id, n)
  {
    var n := FreshName(names, h, "entity");
    var h1 := AddEdge(h, action, n, map[]);
    LinkFacts(h, action, n);
    MoveCarriersSpec(h1, action, n, id);
    var h2 := MoveCarriers(h1, action, n, OutEdges(h1, action), id).value;
    WirePortsEdges(h2, action, n, e.ports);
    WirePortsData(h2, action, n, e.ports);
    WirePortsValid(h2, action, n, e.ports);
    var h3 := WirePorts(h2, action, n, e.ports).value;
    var r := OutputEntry(h, action, id, e, names).value;
    assert r == AnnotateEntity(h3, n, e.data);
    OutputEntryEdges(h, h1, h2, h3, action, id, n);
  }

  lemma OutputEntryEdges(h: Graph, h1: Graph, h2: Graph, h3: Graph, action: NodeId, id: Value, n: NodeId)
    requires h1.directed && action != n
    requires forall x :: x in h1.edges ==> x in h.edges || (x.src == action && x.tgt == n)
    requires forall x :: x in h.edges ==> x in h1.edges && x.tgt != n
    requires forall x :: x in h2.edges ==> x in h1.edges || x.src == n
    requires forall x :: x in h1.edges && (x.src != action || !CarriesId(x, id)) ==> x in h2.edges
    requires forall x :: x in h2.edges && x.src == action ==> !CarriesId(x, id)
    requires forall x :: x in h1.edges && x.src == action && CarriesId(x, id) ==> Rerouted(h2, n, x)
    requires forall x :: x in h3.edges ==> x in h2.edges || (x.src == action && x.tgt == n)
    requires forall x :: x in h2.edges && !Joins(h1.directed, x, action, n) ==> x in h3.edges
    ensures OutsAfter(h, h3, action, id, n) && KeepsOthers(h, h3, action) && ReroutesCarriers(h, h3, action, id, n)
  {
    forall x | x in h.edges && x.src == action && CarriesId(x, id) ensures Rerouted(h3, n, x) {
      var y :| y in h2.edges && y.src == n && y.tgt == x.tgt && y.data == x.data;
      assert y in h3.edges;
    }
  }

  // After the entries m: the action's out-edges are edges of h0 carrying
  // none of m's ids, or lead to entities that were not nodes of h0.
  ghost predicate OutsSettled(h0: Graph, h: Graph, action: NodeId, m: IdMap)
  {
    forall x :: x in h.edges && x.src == action ==>
      (x in h0.edges && Get(x.data, "id") !in Ids(m)) || (x.tgt !in h0.data && x.tgt in h.data && IsEntity(h.data[x.tgt]))
  }

  lemma SettledStep(h0: Graph, prev: Graph, r: Graph, action: NodeId, m: IdMap, n: NodeId)
    requires m != [] && OutsSettled(h0, prev, action, m[..|m| - 1]) && AgreesOn(h0, prev) && n !in prev.data
    requires AgreesOn(prev, r) && OutsAfter(prev, r, action, m[|m| - 1].0, n) && n in r.data && IsEntity(r.data[n])
    ensures OutsSettled(h0, r, action, m)
  {
    assert Ids(m) == Ids(m[..|m| - 1]) + [m[|m| - 1].0];
  }

  // The entries in turn, on a well-formed directed graph with fresh names
  // and entity data without kinds: the graph stays well formed, old nodes
  // keep their data, edges not from the action stay, and the action's
  // out-edges settle.
  lemma {:induction false} OutputEntriesSettled(h0: Graph, action: NodeId, m: IdMap, names: Names)
    requires Valid(h0) && h0.directed && action in h0.data && FreshNames(names) && NoKinds(m)
    requires OutputEntries(h0, action, m, names).Ok?
    ensures var r := OutputEntries(h0, action, m, names).value;
            Valid(r) && r.directed && AgreesOn(h0, r) && KeepsOthers(h0, r, action) && OutsSettled(h0, r, action, m)
    decreases |m|
  {
    var r := OutputEntries(h0, action, m, names).value;
    if m == [] {
      assert OutsSettled(h0, r, action, m);
    } else {
      var init := m[..|m| - 1];
      assert NoKinds(init);
      OutputEntriesSettled(h0, action, init, names);
      var prev := OutputEntries(h0, action, init, names).value;
      var last := m[|m| - 1];
      var n := FreshName(names, prev, "entity");
      OutputEntryStep(prev, action, last.0, last.1, names);
      SettledStep(h0, prev, r, action, m, n);
    }
  }

  // Every out-edge's id gets an entry.
  lemma {:induction false} OutputIdsCover(m0: IdMap, es: seq<Edge>, notes: Notes, token: string)
    requires OutputIds(m0, es, notes, token).Ok?
    ensures forall x :: x in es ==> "id" in x.data && IdOf(IdOrDataOf(x.data["id"]), token) in Ids(OutputIds(m0, es, notes, token).value)
    decreases |es|
  {
    if es != [] {
      var init := es[..|es| - 1];
      OutputIdsCover(m0, init, notes, token);
      var prev := OutputIds(m0, init, notes, token).value;
      var e := es[|es| - 1];
      var a := AddEntity(prev, IdOrDataOf(e.data["id"]), None, notes, token);
      AddEntityIds(prev, IdOrDataOf(e.data["id"]), notes, token);
      assert forall x :: x in es ==> x in init || x == e;
    }
  }

  // Adding an entity keeps every id and files the new one.
  lemma AddEntityIds(m: IdMap, x: IdOrData, notes: Notes, token: string)
    ensures var r := AddEntity(m, x, None, notes, token);
            r.1 in Ids(r.0) && forall k :: k in Ids(m) ==> k in Ids(r.0)
  {
    var r := AddEntity(m, x, None, notes, token);
    forall k | k in Ids(m) ensures k in Ids(r.0) {
      var j :| 0 <= j < |m| && Ids(m)[j] == k;
      assert Ids(r.0)[j] == k;
    }
    if Lookup(m, r.1).Some? {
      var j := Find(m, r.1).value;
      assert Ids(m)[j] == r.1;
    } else {
      assert Ids(r.0)[|m|] == r.1;
    }
  }

  // No entity gets a kind of its own when neither the table nor the
  // out-edges' data carries one.
  lemma {:induction false} OutputIdsNoKinds(m0: IdMap, es: seq<Edge>, notes: Notes, token: string)
    requires NoKinds(m0) && forall x :: x in es && "id" in x.data ==> "kind" !in DataOf(IdOrDataOf(x.data["id"]), notes)
    requires OutputIds(m0, es, notes, token).Ok?
    ensures NoKinds(OutputIds(m0, es, notes, token).value)
    decreases |es|
  {
    if es != [] {
      var init := es[..|es| - 1];
      assert forall x :: x in init ==> x in es;
      OutputIdsNoKinds(m0, init, notes, token);
      var e := es[|es| - 1];
      assert e in es;
      AddEntityNoKinds(OutputIds(m0, init, notes, token).value, IdOrDataOf(e.data["id"]), notes, token);
    }
  }

  // `reify_outputs` leaves every out-edge of the action leading to a new
  // entity node, on a well-formed directed graph with fresh names, when the
  // action's output table has no kinds and its out-edges' ids are not
  // dictionaries (a dictionary id is filed under its own id, which the
  // edge's id then does not equal).
  lemma ReifyOutputsToEntities(h: Graph, action: NodeId, m0: IdMap, notes: Notes, token: string, names: Names)
    requires Valid(h) && h.directed && action in h.data && FreshNames(names) && NoKinds(m0)
    requires forall x :: x in OutEdges(h, action) && "id" in x.data ==> !x.data["id"].VDict?
    requires ReifyOutputsSpec(h, action, m0, notes, token, names).Ok?
    ensures var r := ReifyOutputsSpec(h, action, m0, notes, token, names).value;
            forall x :: x in r.edges && x.src == action ==> x.tgt !in h.data && x.tgt in r.data && IsEntity(r.data[x.tgt])
  {
    var es := OutEdges(h, action);
    OutputIdsCover(m0, es, notes, token);
    OutputIdsNoKinds(m0, es, notes, token);
    var m := OutputIds(m0, es, notes, token).value;
    OutputEntriesSettled(h, action, m, names);
    var r := OutputEntries(h, action, m, names).value;
    forall x | x in h.edges && x.src == action ensures Get(x.data, "id") in Ids(m) {
      assert x in es;
    }
    SettledFresh(h, r, action, m);
  }

  // Once every old out-edge carries an id of m, the settled out-edges all
  // lead to new entities.
  lemma SettledFresh(h0: Graph, r: Graph, action: NodeId, m: IdMap)
    requires OutsSettled(h0, r, action, m)
    requires forall x :: x in h0.edges && x.src == action ==> Get(x.data, "id") in Ids(m)
    ensures forall x :: x in r.edges && x.src == action ==> x.tgt !in h0.data && x.tgt in r.data && IsEntity(r.data[x.tgt])
  {
  }

  // An entry of the output id map fails exactly when its id is None and it
  // has ports: the edge from the action to the new node carries no id, so it
  // is moved away as a carrier of None, and there is then no edge left to
  // replace by the port edges (NetworkXError).
  lemma OutputEntryFails(h: Graph, action: NodeId, id: Value, e: Entity, names: Names)
    requires Valid(h) && h.directed && action in h.data && FreshName(names, h, "entity") !in h.data
    ensures var r := OutputEntry(h, action, id, e, names);
            (r.Err? <==> id == VNone && e.ports != []) && (r.Err? ==> r.error == GraphError)
  {
    var n := FreshName(names, h, "entity");
    var h1 := AddEdge(h, action, n, map[]);
    LinkFacts(h, action, n);
    MoveCarriersSpec(h1, action, n, id);
    var h2 := MoveCarriers(h1, action, n, OutEdges(h1, action), id).value;
    var y0 := Edge(action, n, NewKey(h, action, n), map[]);
    if id == VNone {
      LinkCarried(h, h1, h2, action, n);
    } else {
      assert !CarriesId(y0, id);
      assert y0 in h2.edges && Joins(h2.directed, y0, action, n);
    }
  }

  // With id None the link is carried away: no edge joins the action to the
  // new node any more.
  lemma LinkCarried(h: Graph, h1: Graph, h2: Graph, action: NodeId, n: NodeId)
    requires h2.directed && action != n
    requires forall x :: x in h1.edges ==> x in h.edges || (x.src == action && x.tgt == n && x.data == map[])
    requires forall x :: x in h.edges ==> x.tgt != n
    requires forall x :: x in h2.edges ==> x in h1.edges || x.src == n
    requires forall x :: x in h2.edges && x.src == action ==> !CarriesId(x, VNone)
    ensures !HasEdge(h2, action, n)
  {
    forall x | x in h2.edges && x.src == action ensures x.tgt != n {
      assert x in h1.edges;
    }
  }
}
