// `AnnotatedGraphBuilder.build` (core/annotated_graph.py:36-52): the
// passes in order, each on the graph the previous one left. The two calls
// to `topological_sort` are a parameter, checked against the graph: an
// order that is not a topological order of a directed graph stands for the
// NetworkXUnfeasible (or, on an undirected graph, NetworkXError) that
// networkx raises there. The collapse is the pass with the closure
// recomputed after every merge.
module AnnotatedBuild {
  import opened Base
  import opened Graphs
  import opened GraphUtil
  import opened GraphOperations
  import opened FlowGraphs
  import opened AnnotatedGraphs
  import opened AnnotatedData
  import opened AnnotatedCollapse
  import opened AnnotatedReach
  import opened AnnotatedReify
  import opened AnnotatedCleanup
  import opened ReifyOrder
  import opened GraphReach

  /* ---------------- The order a pass walks ---------------- */

  // `topological_sort(graph)` succeeded with this order: every node once,
  // and no edge from a node back to one listed before it (or to itself).
  predicate SortsTopologically(order: seq<NodeId>, g: Graph)
  {
    g.directed && Distinct(order) && (forall v :: v in order ==> v in g.data) && (forall v :: v in g.nodes ==> v in order) &&
    forall i, j :: 0 <= j <= i < |order| ==> forall e :: e in g.edges ==> !(e.src == order[i] && e.tgt == order[j])
  }

  lemma SortedIsTopological(order: seq<NodeId>, g: Graph)
    requires Valid(g) && SortsTopologically(order, g)
    ensures IsTopologicalOrder(order, g)
  {
  }

  // Every order networkx may return passes the check.
  lemma TopologicalIsSorted(order: seq<NodeId>, g: Graph)
    requires Valid(g) && g.directed && IsTopologicalOrder(order, g)
    ensures SortsTopologically(order, g)
  {
    forall i, j, e | 0 <= j <= i < |order| && e in g.edges ensures !(e.src == order[i] && e.tgt == order[j]) {
      if e.src == order[i] && e.tgt == order[j] {
        assert Joins(g.directed, e, order[i], order[j]);
      }
    }
  }

  /* ---------------- Every pass keeps the graph well formed ---------------- */

  lemma SourceSinkValid(c: Concrete, g: Graph, source: NodeId, sink: NodeId)
    requires Valid(g) && SourceSinkSpec(c, g, source, sink).Ok?
    ensures Valid(SourceSinkSpec(c, g, source, sink).value) && SourceSinkSpec(c, g, source, sink).value.directed == g.directed
  {
    var h := EnsureNode(EnsureNode(g, source), sink);
    EnsureNodeValid(g, source);
    EnsureNodeValid(EnsureNode(g, source), sink);
    var ws := SourceWires(c.graph, c.sources, source).value + SinkWires(c.graph, c.sinks, sink).value;
    AddTriplesValid(h, ws);
    AddTriplesEdges(h, ws);
  }

  // Setting edge ids moves no edge and changes no slot.
  lemma EdgeIdsValid(g: Graph, ces: seq<Edge>)
    requires Valid(g)
    ensures Valid(g.(edges := EdgesWithIds(g, ces)))
  {
    var es := EdgesWithIds(g, ces);
    forall x | x in es ensures x.src in g.data && x.tgt in g.data {
      var j :| 0 <= j < |es| && es[j] == x;
      assert g.edges[j] in g.edges;
    }
    forall i, j | 0 <= i < j < |es| ensures !SameSlot(g.directed, es[i], es[j]) {
      assert !SameSlot(g.directed, g.edges[i], g.edges[j]);
    }
  }

  lemma {:induction false} MoveCarriersValid(h: Graph, action: NodeId, n: NodeId, es: seq<Edge>, id: Value)
    requires Valid(h) && MoveCarriers(h, action, n, es, id).Ok?
    ensures Valid(MoveCarriers(h, action, n, es, id).value) && MoveCarriers(h, action, n, es, id).value.directed == h.directed
    decreases |es|
  {
    if es != [] {
      MoveCarriersValid(h, action, n, es[..|es| - 1], id);
      var prev := MoveCarriers(h, action, n, es[..|es| - 1], id).value;
      var e := es[|es| - 1];
      if CarriesId(e, id) {
        RemoveEdgeValid(prev, action, e.tgt, e.key);
        AddEdgeValid(RemoveEdge(prev, action, e.tgt, e.key).value, n, e.tgt, e.data);
      }
    }
  }

  lemma WirePortsDirected(g: Graph, u: NodeId, v: NodeId, ports: seq<string>)
    requires Valid(g) && WirePorts(g, u, v, ports).Ok?
    ensures Valid(WirePorts(g, u, v, ports).value) && WirePorts(g, u, v, ports).value.directed == g.directed
  {
    WirePortsValid(g, u, v, ports);
    if ports != [] {
      var h := RemoveNewest(g, u, v).value;
      AddTriplesEdges(h, PortWires(u, v, ports));
    }
  }

  lemma AttachValid(h1: Graph, node: NodeId, action: NodeId, e: Entity)
    requires node in h1.data && action in h1.data && Valid(h1) && Attach(h1, node, action, e).Ok?
    ensures Valid(Attach(h1, node, action, e).value) && Attach(h1, node, action, e).value.directed == h1.directed
  {
    if node != "" {
      WirePortsDirected(h1, node, action, e.ports);
      WirePortsKeys(h1, node, action, e.ports);
    }
  }

  lemma InputEntryValid(h: Graph, action: NodeId, e: Entity, ps: seq<NodeId>, names: Names)
    requires action in h.data && Valid(h) && InputEntry(h, action, e, ps, names).Ok?
    ensures Valid(InputEntry(h, action, e, ps, names).value) && InputEntry(h, action, e, ps, names).value.directed == h.directed
  {
    if |ps| <= 1 {
      var node := if ps == [] then FreshName(names, h, "entity") else ps[0];
      if ps == [] {
        EnsureNodeValid(h, node);
        AddEdgeValid(EnsureNode(h, node), node, action, map[]);
        AttachValid(AddEdge(EnsureNode(h, node), node, action, map[]), node, action, e);
      } else {
        AttachValid(h, node, action, e);
      }
    }
  }

  lemma {:induction false} InputEntriesValid(h: Graph, action: NodeId, m: IdMap, preds: Preds, names: Names)
    requires action in h.data && Valid(h) && InputEntries(h, action, m, preds, names).Ok?
    ensures Valid(InputEntries(h, action, m, preds, names).value) && InputEntries(h, action, m, preds, names).value.directed == h.directed
    decreases |m|
  {
    if m != [] {
      InputEntriesValid(h, action, m[..|m| - 1], preds, names);
      var prev := InputEntries(h, action, m[..|m| - 1], preds, names).value;
      InputEntryValid(prev, action, m[|m| - 1].1, PredsOf(preds, m[|m| - 1].0), names);
    }
  }

  lemma OutputEntryValid(h: Graph, action: NodeId, id: Value, e: Entity, names: Names)
    requires Valid(h) && OutputEntry(h, action, id, e, names).Ok?
    ensures Valid(OutputEntry(h, action, id, e, names).value) && OutputEntry(h, action, id, e, names).value.directed == h.directed
  {
    var n := FreshName(names, h, "entity");
    var h1 := AddEdge(h, action, n, map[]);
    AddEdgeValid(h, action, n, map[]);
    MoveCarriersValid(h1, action, n, OutEdges(h1, action), id);
    var h2 := MoveCarriers(h1, action, n, OutEdges(h1, action), id).value;
    WirePortsDirected(h2, action, n, e.ports);
  }

  lemma {:induction false} OutputEntriesValid(h: Graph, action: NodeId, m: IdMap, names: Names)
    requires Valid(h) && OutputEntries(h, action, m, names).Ok?
    ensures Valid(OutputEntries(h, action, m, names).value) && OutputEntries(h, action, m, names).value.directed == h.directed
    decreases |m|
  {
    if m != [] {
      OutputEntriesValid(h, action, m[..|m| - 1], names);
      var prev := OutputEntries(h, action, m[..|m| - 1], names).value;
      OutputEntryValid(prev, action, m[|m| - 1].0, m[|m| - 1].1, names);
    }
  }

  // `reify_entities` keeps the graph well formed and directed, whatever
  // the order and the names.
  lemma {:induction false} ReifyValid(h: Graph, order: seq<NodeId>, t: Tables, notes: Notes, uuid: Tokens, names: Names)
    requires Valid(h) && ReifySpec(h, order, t, notes, uuid, names).Ok?
    ensures Valid(ReifySpec(h, order, t, notes, uuid, names).value) && ReifySpec(h, order, t, notes, uuid, names).value.directed == h.directed
    decreases |order|
  {
    if order != [] {
      ReifyValid(h, order[..|order| - 1], t, notes, uuid, names);
      var prev := ReifySpec(h, order[..|order| - 1], t, notes, uuid, names).value;
      var a := order[|order| - 1];
      var ins := ReifyInputsSpec(prev, a, TablesOf(t, a).0, notes, uuid(a, "inputs"), names);
      var ids := InputIds(TablesOf(t, a).0, InEdges(prev, a), notes, uuid(a, "inputs"));
      InputEntriesValid(prev, a, ids.value.0, ids.value.1, names);
      var oids := OutputIds(TablesOf(t, a).1, OutEdges(ins.value, a), notes, uuid(a, "outputs"));
      OutputEntriesValid(ins.value, a, oids.value, names);
    }
  }

  /* ---------------- The graph the collapse starts from ---------------- */

  // The source and sink pass keeps the nodes there were with their data;
  // the nodes it adds have none.
  lemma SourceSinkData(c: Concrete, g: Graph, source: NodeId, sink: NodeId)
    requires SourceSinkSpec(c, g, source, sink).Ok?
    ensures var r := SourceSinkSpec(c, g, source, sink).value;
            (forall m :: m in g.data ==> m in r.data && r.data[m] == g.data[m]) &&
            (forall m :: m in r.data && m !in g.data ==> r.data[m] == map[])
  {
    var h := EnsureNode(EnsureNode(g, source), sink);
    AddTriplesData(h, SourceWires(c.graph, c.sources, source).value + SinkWires(c.graph, c.sinks, sink).value);
  }

  // Setting edge ids keeps every slot.
  lemma EdgeIdsSlots(g: Graph, ces: seq<Edge>, u: NodeId, v: NodeId, k: nat)
    requires HasEdgeKey(g, u, v, k)
    ensures HasEdgeKey(g.(edges := EdgesWithIds(g, ces)), u, v, k)
  {
    var x :| x in g.edges && Joins(g.directed, x, u, v) && x.key == k;
    var j :| 0 <= j < |g.edges| && g.edges[j] == x;
    assert EdgesWithIds(g, ces)[j] in EdgesWithIds(g, ces);
  }

  // A node without data becomes an action not marked as collapsed.
  lemma ActionDataFresh(c: Concrete, g1: Graph, uuid: Tokens, v: NodeId)
    requires NodesWellFormed(g1) && v in g1.data && g1.data[v] == map[]
    requires ActionDataSpec(c, g1, g1.nodes, uuid).Ok?
    ensures var d := ActionDataSpec(c, g1, g1.nodes, uuid).value.0.data[v];
            IsAction(d) && "collapsed" !in d
  {
    ActionDataAt(c, g1, g1.nodes, uuid, v);
    AnnotatedFresh(g1, v, Get(ConcreteData(c.graph, v), "annotation"));
  }

  lemma AnnotatedFresh(g: Graph, v: NodeId, note: Value)
    requires v in g.data && g.data[v] == map[]
    ensures var d := AnnotateAction(g, v, map["annotation" := note]).data[v];
            IsAction(d) && "collapsed" !in d
  {
    var attr := map["annotation" := note];
    assert attr - {"annotation"} == map[];
    assert AnnotateAction(g, v, attr).data[v] == map[] + NodeData("action", ActionLabel(note), attr);
  }

  // After the action and edge data, from a graph without node data.
  lemma PreparedAfter(c: Concrete, g1: Graph, uuid: Tokens, pre: Graph)
    requires NodesWellFormed(g1) && (forall n :: n in c.graph.data ==> n in g1.data) && (forall v :: v in g1.data ==> g1.data[v] == map[])
    requires ActionDataSpec(c, g1, g1.nodes, uuid).Ok?
    requires EdgeIdsPresent(c.graph.edges, ActionDataSpec(c, g1, g1.nodes, uuid).value.0)
    requires pre == ActionDataSpec(c, g1, g1.nodes, uuid).value.0.(edges := EdgesWithIds(ActionDataSpec(c, g1, g1.nodes, uuid).value.0, c.graph.edges))
    ensures Prepared(c, pre)
  {
    var h := ActionDataSpec(c, g1, g1.nodes, uuid).value.0;
    forall n | n in c.graph.data
      ensures n in pre.data && IsAction(pre.data[n]) && Get(pre.data[n], "annotation") == Get(c.graph.data[n], "annotation")
    {
      ActionDataAt(c, g1, g1.nodes, uuid, n);
    }
    forall v | v in pre.data ensures IsAction(pre.data[v]) && "collapsed" !in pre.data[v] {
      ActionDataFresh(c, g1, uuid, v);
    }
    forall e | e in c.graph.edges ensures HasEdgeKey(pre, e.src, e.tgt, e.key) {
      EdgeIdsSlots(h, c.graph.edges, e.src, e.tgt, e.key);
    }
  }

  /* ---------------- What each pass raises ---------------- */

  lemma {:induction false} SourceWiresErrors(c: Graph, sources: seq<(Value, seq<NodeId>)>, source: NodeId)
    requires SourceWires(c, sources, source).Err?
    ensures SourceWires(c, sources, source).error == KeyError
    decreases |sources|
  {
    if SourceWires(c, sources[..|sources| - 1], source).Err? {
      SourceWiresErrors(c, sources[..|sources| - 1], source);
    }
  }

  lemma {:induction false} SinkWiresErrors(c: Graph, sinks: seq<(Value, NodeId)>, sink: NodeId)
    requires SinkWires(c, sinks, sink).Err?
    ensures SinkWires(c, sinks, sink).error == KeyError
    decreases |sinks|
  {
    if SinkWires(c, sinks[..|sinks| - 1], sink).Err? {
      SinkWiresErrors(c, sinks[..|sinks| - 1], sink);
    }
  }

  // `add_source_sink_actions` raises only KeyError: a consumer or producer
  // named by a table that is not a node.
  lemma SourceSinkErrors(c: Concrete, g: Graph, source: NodeId, sink: NodeId)
    requires SourceSinkSpec(c, g, source, sink).Err?
    ensures SourceSinkSpec(c, g, source, sink).error == KeyError
  {
    if SourceWires(c.graph, c.sources, source).Err? {
      SourceWiresErrors(c.graph, c.sources, source);
    } else {
      SinkWiresErrors(c.graph, c.sinks, sink);
    }
  }

  // `add_action_data` raises only AttributeError: a port table of an
  // annotated node that is not a dictionary.
  lemma {:induction false} ActionDataErrors(c: Concrete, g: Graph, ns: seq<NodeId>, uuid: Tokens)
    requires forall n :: n in ns ==> n in g.data
    requires ActionDataSpec(c, g, ns, uuid).Err?
    ensures ActionDataSpec(c, g, ns, uuid).error == AttributeError
    decreases |ns|
  {
    assert forall n :: n in ns[..|ns| - 1] ==> n in ns;
    if ActionDataSpec(c, g, ns[..|ns| - 1], uuid).Err? {
      ActionDataErrors(c, g, ns[..|ns| - 1], uuid);
    }
  }

  // What `reify_entities` may raise: KeyError, NetworkXError or
  // AssertionError.
  predicate ReifyFailure(e: Error)
  {
    e == KeyError || e == GraphError || e == AssertionError
  }

  lemma {:induction false} InputEntriesFailures(h: Graph, action: NodeId, m: IdMap, preds: Preds, names: Names)
    requires action in h.data && InputEntries(h, action, m, preds, names).Err?
    ensures ReifyFailure(InputEntries(h, action, m, preds, names).error)
    decreases |m|
  {
    if InputEntries(h, action, m[..|m| - 1], preds, names).Err? {
      InputEntriesFailures(h, action, m[..|m| - 1], preds, names);
    }
  }

  lemma {:induction false} MoveCarriersFailures(h: Graph, action: NodeId, n: NodeId, es: seq<Edge>, id: Value)
    requires MoveCarriers(h, action, n, es, id).Err?
    ensures MoveCarriers(h, action, n, es, id).error == GraphError
    decreases |es|
  {
    if MoveCarriers(h, action, n, es[..|es| - 1], id).Err? {
      MoveCarriersFailures(h, action, n, es[..|es| - 1], id);
    }
  }

  lemma {:induction false} OutputEntriesFailures(h: Graph, action: NodeId, m: IdMap, names: Names)
    requires OutputEntries(h, action, m, names).Err?
    ensures OutputEntries(h, action, m, names).error == GraphError
    decreases |m|
  {
    var prev := OutputEntries(h, action, m[..|m| - 1], names);
    if prev.Err? {
      OutputEntriesFailures(h, action, m[..|m| - 1], names);
    } else {
      var n := FreshName(names, prev.value, "entity");
      var h1 := AddEdge(prev.value, action, n, map[]);
      if MoveCarriers(h1, action, n, OutEdges(h1, action), m[|m| - 1].0).Err? {
        MoveCarriersFailures(h1, action, n, OutEdges(h1, action), m[|m| - 1].0);
      }
    }
  }

  lemma {:induction false} ReifyFailures(h: Graph, order: seq<NodeId>, t: Tables, notes: Notes, uuid: Tokens, names: Names)
    requires ReifySpec(h, order, t, notes, uuid, names).Err?
    ensures ReifyFailure(ReifySpec(h, order, t, notes, uuid, names).error)
    decreases |order|
  {
    var prev := ReifySpec(h, order[..|order| - 1], t, notes, uuid, names);
    if prev.Err? {
      ReifyFailures(h, order[..|order| - 1], t, notes, uuid, names);
    } else {
      var a := order[|order| - 1];
      if a in prev.value.data && "kind" in prev.value.data[a] && IsAction(prev.value.data[a]) {
        var tok := uuid(a, "inputs");
        var ids := InputIds(TablesOf(t, a).0, InEdges(prev.value, a), notes, tok);
        if ids.Err? {
          InputIdsErrors(TablesOf(t, a).0, InEdges(prev.value, a), notes, tok);
        } else if InputEntries(prev.value, a, ids.value.0, ids.value.1, names).Err? {
          InputEntriesFailures(prev.value, a, ids.value.0, ids.value.1, names);
        } else {
          var r1 := InputEntries(prev.value, a, ids.value.0, ids.value.1, names).value;
          var oids := OutputIds(TablesOf(t, a).1, OutEdges(r1, a), notes, uuid(a, "outputs"));
          if oids.Err? {
            OutputIdsErrors(TablesOf(t, a).1, OutEdges(r1, a), notes, uuid(a, "outputs"));
          } else {
            OutputEntriesFailures(r1, a, oids.value, names);
          }
        }
      }
    }
  }

  /* ---------------- The concrete graphs reify never asserts on ---------------- */

  // No entity given as a dictionary in the port table carries its own kind.
  predicate KindFree(entries: seq<(string, Value)>)
  {
    forall p :: p in entries && p.1.VDict? ==> DictGet(p.1.entries, "kind").None?
  }

  predicate KindFreePorts(d: Attrs, key: string)
  {
    key in d && d[key].VDict? ==> KindFree(d[key].entries)
  }

  // A concrete graph whose object ids (on the edges and in the source and
  // sink tables) are not dictionaries and whose port tables give no entity
  // a kind.
  ghost predicate PlainConcrete(c: Concrete)
  {
    (forall e :: e in c.graph.edges ==> PlainId(e)) &&
    (forall p :: p in c.sources ==> !p.0.VDict?) && (forall p :: p in c.sinks ==> !p.0.VDict?) &&
    forall n :: n in c.graph.data ==> KindFreePorts(c.graph.data[n], "inputs") && KindFreePorts(c.graph.data[n], "outputs")
  }

  lemma BarePlain(g: Graph, es: seq<Edge>)
    requires g.edges == BareAll(es)
    ensures PlainIds(g)
  {
    forall x | x in g.edges ensures PlainId(x) {
      var j :| 0 <= j < |g.edges| && g.edges[j] == x;
    }
  }

  lemma SourceSinkPlain(c: Concrete, g: Graph, source: NodeId, sink: NodeId)
    requires PlainIds(g) && PlainConcrete(c) && SourceSinkSpec(c, g, source, sink).Ok?
    ensures PlainIds(SourceSinkSpec(c, g, source, sink).value)
  {
    var h := EnsureNode(EnsureNode(g, source), sink);
    var sw := SourceWires(c.graph, c.sources, source).value;
    var kw := SinkWires(c.graph, c.sinks, sink).value;
    AddTriplesMembers(h, sw + kw);
    forall x | x in AddTriples(h, sw + kw).edges ensures PlainId(x) {
      if x !in h.edges {
        var t := Triple(x);
        if t in sw {
          SourceWiresSound(c.graph, c.sources, source, t);
        } else {
          SinkWiresExact(c.graph, c.sinks, sink, t);
        }
      }
    }
  }

  lemma {:induction false} WithIdsPlain(e: Edge, directed: bool, ces: seq<Edge>)
    requires PlainId(e) && forall ce :: ce in ces ==> PlainId(ce)
    ensures PlainId(WithIds(e, directed, ces))
    decreases |ces|
  {
    if ces != [] {
      assert forall ce :: ce in ces[..|ces| - 1] ==> ce in ces;
      WithIdsPlain(e, directed, ces[..|ces| - 1]);
      assert ces[|ces| - 1] in ces;
    }
  }

  lemma EdgeIdsPlain(g: Graph, ces: seq<Edge>)
    requires PlainIds(g) && forall ce :: ce in ces ==> PlainId(ce)
    ensures PlainIds(g.(edges := EdgesWithIds(g, ces)))
  {
    var es := EdgesWithIds(g, ces);
    forall x | x in es ensures PlainId(x) {
      var j :| 0 <= j < |es| && es[j] == x;
      assert g.edges[j] in g.edges;
      WithIdsPlain(g.edges[j], g.directed, ces);
    }
  }

  // Collapsing moves edges with their data.
  lemma CollapsedPlain(g: Graph, sub: seq<NodeId>, n: NodeId, h: Graph)
    requires g.directed && PlainIds(g) && Rebuilt(g, sub, n, h)
    ensures PlainIds(h)
  {
    var S := Members(sub);
    var kept := EdgesOutside(g.edges, S);
    forall x | x in h.edges ensures PlainId(x) {
      var k :| 0 <= k < |h.edges| && h.edges[k] == x;
      if k < |kept| {
        assert h.edges[..|kept|][k] == x;
      } else {
        var added := h.edges[|kept|..];
        assert added[k - |kept|] == x;
        var t := Triples(added)[k - |kept|];
        assert t in CollapsedEdges(g, sub, n);
        var ins := EdgesAt(g.edges, sub, true);
        var outs := EdgesAt(g.edges, sub, false);
        if t in GraphOperations.Rerouted(ins, S, n, true) {
          ReroutedFrom(ins, S, n, true, t);
        } else {
          ReroutedFrom(outs, S, n, false, t);
        }
      }
    }
  }

  lemma {:induction false} FreshChainPlain(g0: Graph, ms: seq<Merge>, g: Graph)
    requires g0.directed && PlainIds(g0) && FreshChain(g0, ms, g)
    ensures g.directed && PlainIds(g)
    decreases |ms|
  {
    if ms != [] {
      var m := ms[|ms| - 1];
      FreshChainPlain(g0, ms[..|ms| - 1], m.graph);
      CollapsedRebuilt(m.graph, [m.parent, m.child], m.node, m.collapsed);
      CollapsedPlain(m.graph, [m.parent, m.child], m.node, m.collapsed);
    }
  }

  lemma {:induction false} TableNoKinds(a: NodeId, entries: seq<(string, Value)>, notes: Notes, uuid: Tokens)
    requires KindFree(entries)
    ensures NoKinds(TableIdMap(a, entries, notes, uuid))
    decreases |entries|
  {
    if entries != [] {
      var init := entries[..|entries| - 1];
      var p := entries[|entries| - 1];
      assert forall q :: q in init ==> q in entries;
      TableNoKinds(a, init, notes, uuid);
      var m := TableIdMap(a, init, notes, uuid);
      var r := AddEntity(m, IdOrDataOf(p.1), Some(p.0), notes, uuid(a, p.0)).0;
      assert p in entries;
      forall j | 0 <= j < |r| ensures "kind" !in r[j].1.data {
        if j < |m| {
          assert r[j].1.data == m[j].1.data;
        }
      }
    }
  }

  lemma TablesNoKinds(c: Concrete, g1: Graph, uuid: Tokens)
    requires NodesWellFormed(g1) && PlainConcrete(c) && ActionDataSpec(c, g1, g1.nodes, uuid).Ok?
    ensures var t := ActionDataSpec(c, g1, g1.nodes, uuid).value.1;
            forall a :: NoKinds(TablesOf(t, a).0) && NoKinds(TablesOf(t, a).1)
  {
    var t := ActionDataSpec(c, g1, g1.nodes, uuid).value.1;
    forall a | a in t ensures NoKinds(t[a].0) && NoKinds(t[a].1) {
      TablesOfNoKinds(c, g1, uuid, a);
    }
  }

  lemma TablesOfNoKinds(c: Concrete, g1: Graph, uuid: Tokens, a: NodeId)
    requires NodesWellFormed(g1) && PlainConcrete(c) && ActionDataSpec(c, g1, g1.nodes, uuid).Ok?
    requires a in ActionDataSpec(c, g1, g1.nodes, uuid).value.1
    ensures var t := ActionDataSpec(c, g1, g1.nodes, uuid).value.1;
            NoKinds(t[a].0) && NoKinds(t[a].1)
  {
    ActionDataAt(c, g1, g1.nodes, uuid, a);
    var orig := ConcreteData(c.graph, a);
    PortTableKindFree(c, a, "inputs");
    PortTableKindFree(c, a, "outputs");
    TableNoKinds(a, PortTable(orig, "inputs").value, c.notes, uuid);
    TableNoKinds(a, PortTable(orig, "outputs").value, c.notes, uuid);
  }

  lemma PortTableKindFree(c: Concrete, a: NodeId, key: string)
    requires PlainConcrete(c) && (key == "inputs" || key == "outputs")
    requires PortTable(ConcreteData(c.graph, a), key).Ok?
    ensures KindFree(PortTable(ConcreteData(c.graph, a), key).value)
  {
  }

  // Nothing the collapse leaves is marked as not collapsed.
  lemma NoneUncollapsed(pre: Graph, h: Graph)
    requires FromInput(pre, h) && forall v :: v in pre.data ==> IsAction(pre.data[v]) && "collapsed" !in pre.data[v]
    ensures forall v :: v in h.data ==> IsAction(h.data[v]) && !("collapsed" in h.data[v] && !Truthy(h.data[v]["collapsed"]))
  {
  }

  // On a plain concrete graph and with fresh names, `reify_entities` in the
  // pipeline never fails its assertions: every node the collapse leaves is
  // an action, and none is marked as not collapsed.
  lemma ReifyNeverAsserts(c: Concrete, g1: Graph, uuid: Tokens, pre: Graph, merges: seq<Merge>, h: Graph,
                          order: seq<NodeId>, edgeTokens: Tokens, names: Names)
    requires PlainConcrete(c) && FreshNames(names)
    requires NodesWellFormed(g1) && PlainIds(g1) && forall v :: v in g1.data ==> g1.data[v] == map[]
    requires ActionDataSpec(c, g1, g1.nodes, uuid).Ok?
    requires pre == ActionDataSpec(c, g1, g1.nodes, uuid).value.0.(edges := EdgesWithIds(ActionDataSpec(c, g1, g1.nodes, uuid).value.0, c.graph.edges))
    requires pre.directed && FreshChain(pre, merges, h) && FromInput(pre, h) && Valid(h)
    requires IsTopologicalOrder(order, h)
    requires ReifySpec(h, order, ActionDataSpec(c, g1, g1.nodes, uuid).value.1, c.notes, edgeTokens, names).Err?
    ensures ReifySpec(h, order, ActionDataSpec(c, g1, g1.nodes, uuid).value.1, c.notes, edgeTokens, names).error != AssertionError
  {
    var t := ActionDataSpec(c, g1, g1.nodes, uuid).value.1;
    var g2 := ActionDataSpec(c, g1, g1.nodes, uuid).value.0;
    EdgeIdsPlain(g2, c.graph.edges);
    FreshChainPlain(pre, merges, h);
    TablesNoKinds(c, g1, uuid);
    forall v | v in pre.data ensures IsAction(pre.data[v]) && "collapsed" !in pre.data[v] {
      ActionDataFresh(c, g1, uuid, v);
    }
    NoneUncollapsed(pre, h);
    assert Ready(h, order, t, names);
    ReifyErrors(h, order, t, c.notes, edgeTokens, names);
  }

  /* ---------------- The pipeline ---------------- */

  // What `build` may raise.
  predicate BuildFailure(e: Error)
  {
    e == KeyError || e == AttributeError || e == GraphError || e == ValueError || e == AssertionError
  }

  // The graph the collapse starts from, against the concrete graph: every
  // node is an action not marked as collapsed, every concrete node has the
  // concrete annotation, and every concrete edge has its slot.
  ghost predicate Prepared(c: Concrete, pre: Graph)
  {
    (forall v :: v in pre.data ==> IsAction(pre.data[v]) && "collapsed" !in pre.data[v]) &&
    (forall n :: n in c.graph.data ==> n in pre.data && IsAction(pre.data[n]) && Get(pre.data[n], "annotation") == Get(c.graph.data[n], "annotation")) &&
    (forall e :: e in c.graph.edges ==> HasEdgeKey(pre, e.src, e.tgt, e.key))
  }

  // `build(concrete)`. The tokens stand for the uuids of the source and sink
  // nodes and of the entities given without an id (in the port tables and
  // on the edges); `sort` stands for `topological_sort`. Besides the result
  // the method names the graph the collapse starts from and the graph it
  // leaves.
  method Build(c: Concrete, sourceToken: string, sinkToken: string, tableTokens: Tokens, edgeTokens: Tokens,
               sort: Graph -> seq<NodeId>, names: Names)
    returns (r: Result<Graph>, ghost pre: Graph, ghost collapsed: Graph)
    requires Valid(c.graph)
    ensures r.Err? ==> BuildFailure(r.error)
    ensures r.Ok? ==> Valid(r.value) && r.value.directed
    ensures r.Ok? ==> Prepared(c, pre)
    ensures r.Ok? ==> KeepsAnnotated(pre, collapsed) && FromInput(pre, collapsed) &&
                      forall s, t :: AnnotatedPair(pre, s, t) ==> (Reaches(collapsed, s, t) <==> Reaches(pre, s, t))
    ensures PlainConcrete(c) && FreshNames(names) ==> r != Err(AssertionError)
  {
    var g0 := CopyTopology(c.graph, None);
    pre, collapsed := g0, g0;
    var source := NodeName(sourceToken, Some("__source__"), None);
    var sink := NodeName(sinkToken, Some("__sink__"), None);
    var g1 := AddSourceSinkActions(c, g0, sourceToken, sinkToken);
    if g1.Err? {
      SourceSinkErrors(c, g0, source, sink);
      return g1, pre, collapsed;
    }
    SourceSinkValid(c, g0, source, sink);
    var g2 := AddActionData(c, g1.value, tableTokens);
    if g2.Err? {
      ActionDataErrors(c, g1.value, g1.value.nodes, tableTokens);
      return Err(g2.error), pre, collapsed;
    }
    var tables := g2.value.1;
    var g3 := AddEdgeData(c.graph, g2.value.0);
    if g3.Err? {
      return g3, pre, collapsed;
    }
    EdgeIdsValid(g2.value.0, c.graph.edges);
    var h3 := g3.value;
    pre := h3;
    SourceSinkData(c, g0, source, sink);
    PreparedAfter(c, g1.value, tableTokens, pre);
    var order := sort(h3);
    if !SortsTopologically(order, h3) {
      return Err(GraphError), pre, collapsed;
    }
    SortedIsTopological(order, h3);
    var g4, merges := CollapseWithFreshClosure(h3, order, names);
    if g4.Err? {
      return g4, pre, collapsed;
    }
    var h4 := g4.value;
    collapsed := h4;
    var order2 := sort(h4);
    if !SortsTopologically(order2, h4) {
      return Err(GraphError), pre, collapsed;
    }
    var g5 := ReifyEntities(h4, order2, tables, c.notes, edgeTokens, names);
    if g5.Err? {
      ReifyFailures(h4, order2, tables, c.notes, edgeTokens, names);
      if PlainConcrete(c) && FreshNames(names) {
        BarePlain(g0, c.graph.edges);
        SourceSinkPlain(c, g0, source, sink);
        SortedIsTopological(order2, h4);
        ReifyNeverAsserts(c, g1.value, tableTokens, h3, merges, h4, order2, edgeTokens, names);
      }
      return g5, pre, collapsed;
    }
    ReifyValid(collapsed, order2, tables, c.notes, edgeTokens, names);
    var g6 := RemoveDangling(g5.value, Actions);
    SweepShrinks(g5.value, Actions, g5.value.nodes);
    var g7 := RemoveDangling(g6, Entities);
    SweepShrinks(g6, Entities, g6.nodes);
    r := RemoveDuplicateEdges(g7);
    RemoveDuplicateEdgesSpec(g7);
  }
}
