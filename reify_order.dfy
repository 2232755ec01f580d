// Why `reify_entities` walks the actions in topological order
// (core/annotated_graph.py:146-156): on a graph of actions without cycles,
// when an action's turn comes every edge into it leaves an entity made or
// reused for an action before it, so the sanity checks that the action is
// an action and that its predecessors are entities never fail. The only
// AssertionError left is that of an action which is not collapsed and one
// of whose objects comes from several entities.
module ReifyOrder {
  import opened Base
  import opened Graphs
  import opened GraphUtil
  import opened FlowGraphs
  import opened AnnotatedGraphs
  import opened AnnotatedData
  import opened AnnotatedCollapse
  import opened AnnotatedReify
  import opened GraphReach

  /* ---------------- What the pass starts from ---------------- */

  // An edge whose object id is not given as a dictionary.
  predicate PlainId(x: Edge)
  {
    "id" in x.data ==> !x.data["id"].VDict?
  }

  ghost predicate PlainIds(g: Graph)
  {
    forall x :: x in g.edges ==> PlainId(x)
  }

  // The graph `reify_entities` is given: a well-formed directed graph of
  // actions whose edges' ids are plain, walked in a topological order, with
  // fresh new names and entity tables that give no entity a kind of its own.
  ghost predicate Ready(h0: Graph, order: seq<NodeId>, t: Tables, names: Names)
  {
    Valid(h0) && h0.directed && IsTopologicalOrder(order, h0) && PlainIds(h0) && FreshNames(names) &&
    (forall v :: v in h0.data ==> IsAction(h0.data[v])) &&
    (forall a :: NoKinds(TablesOf(t, a).0) && NoKinds(TablesOf(t, a).1))
  }

  // The state after the first k actions of the order: the actions still to
  // come keep their data; every edge out of one of them is an edge of the
  // input; and every edge into one of them leaves another of them or an
  // entity.
  ghost predicate Pass(h0: Graph, order: seq<NodeId>, k: nat, h: Graph)
  {
    k <= |order| && Valid(h) && h.directed && PlainIds(h) &&
    (forall v :: v in order[k..] ==> v in h.data && v in h0.data && h.data[v] == h0.data[v]) &&
    (forall x :: x in h.edges && x.src in order[k..] ==> x in h0.edges) &&
    (forall x :: x in h.edges && x.tgt in order[k..] ==> x.src in order[k..] || (x.src in h.data && IsEntity(h.data[x.src])))
  }

  /* ---------------- Frames ---------------- */

  // The actions of h keep their data in r.
  ghost predicate KeepsActions(h: Graph, r: Graph)
  {
    forall v :: v in h.data && IsAction(h.data[v]) ==> v in r.data && r.data[v] == h.data[v]
  }

  // Every edge of r is an edge of h or an edge into the action from an
  // entity.
  ghost predicate AddsInto(h: Graph, r: Graph, action: NodeId)
  {
    forall x :: x in r.edges ==> x in h.edges || (x.tgt == action && x.src in r.data && IsEntity(r.data[x.src]))
  }

  // Every edge of r is an edge of h, leaves the action, or leaves an entity
  // that is not a node of h.
  ghost predicate AddsFrom(h: Graph, r: Graph, action: NodeId)
  {
    forall x :: x in r.edges ==> x in h.edges || x.src == action || (x.src !in h.data && x.src in r.data && IsEntity(r.data[x.src]))
  }

  lemma FreshNameGiven(names: Names, g: Graph)
    ensures FreshName(names, g, "entity") != ""
  {
    assert |FreshName(names, g, "entity")| >= |"entity"|;
  }

  // Port edges carry no id.
  lemma WirePortsPlain(g: Graph, u: NodeId, v: NodeId, ports: seq<string>)
    requires PlainIds(g) && WirePorts(g, u, v, ports).Ok?
    ensures PlainIds(WirePorts(g, u, v, ports).value)
  {
    if ports != [] {
      var i := NewestEdge(g.edges, g.directed, u, v).value;
      var h := DropEdge(g, i);
      DropEdgeMembers(g, i);
      var ws := PortWires(u, v, ports);
      AddTriplesMembers(h, ws);
      forall x | x in AddTriples(h, ws).edges ensures PlainId(x) {
        if x !in h.edges {
          var j :| 0 <= j < |ws| && ws[j] == Triple(x);
        }
      }
    }
  }

  // Moved edges keep the data of plain edges.
  lemma {:induction false} MoveCarriersPlain(h: Graph, action: NodeId, n: NodeId, es: seq<Edge>, id: Value)
    requires PlainIds(h) && (forall e :: e in es ==> PlainId(e)) && MoveCarriers(h, action, n, es, id).Ok?
    ensures PlainIds(MoveCarriers(h, action, n, es, id).value)
    decreases |es|
  {
    if es != [] {
      var init := es[..|es| - 1];
      var e := es[|es| - 1];
      assert forall y :: y in init ==> y in es;
      MoveCarriersPlain(h, action, n, init, id);
      var prev := MoveCarriers(h, action, n, init, id).value;
      if CarriesId(e, id) {
        var cut := RemoveEdge(prev, action, e.tgt, e.key).value;
        var i :| 0 <= i < |prev.edges| && cut == prev.(edges := prev.edges[..i] + prev.edges[i + 1..]);
        assert cut == DropEdge(prev, i);
        DropEdgeMembers(prev, i);
        assert e in es;
      }
    }
  }

  // One input entry: the graph stays well formed with plain ids, actions
  // keep their data, and every new edge enters the action from an entity.
  lemma InputEntryFrame(h: Graph, action: NodeId, e: Entity, ps: seq<NodeId>, names: Names)
    requires Valid(h) && PlainIds(h) && action in h.data && "kind" !in e.data && FreshName(names, h, "entity") !in h.data
    requires InputEntry(h, action, e, ps, names).Ok?
    ensures var r := InputEntry(h, action, e, ps, names).value;
            Valid(r) && r.directed == h.directed && PlainIds(r) && KeepsActions(h, r) && AddsInto(h, r, action)
  {
    if |ps| <= 1 {
      if ps == [] {
        FreshEntryFrame(h, action, e, names);
      } else {
        assert ps[0] in ps;
        AttachFrame(h, h, ps[0], action, e);
      }
    }
  }

  // An input entry without a predecessor: a fresh entity node.
  lemma FreshEntryFrame(h: Graph, action: NodeId, e: Entity, names: Names)
    requires Valid(h) && PlainIds(h) && action in h.data && "kind" !in e.data && FreshName(names, h, "entity") !in h.data
    requires InputEntry(h, action, e, [], names).Ok?
    ensures var r := InputEntry(h, action, e, [], names).value;
            Valid(r) && r.directed == h.directed && PlainIds(r) && KeepsActions(h, r) && AddsInto(h, r, action)
  {
    var node := FreshName(names, h, "entity");
    FreshNameGiven(names, h);
    FreshLink(h, node, action);
    AttachFrame(h, AddEdge(EnsureNode(h, node), node, action, map[]), node, action, e);
  }

  // A new node and its edge to the action.
  lemma FreshLink(h: Graph, node: NodeId, action: NodeId)
    requires Valid(h) && PlainIds(h) && action in h.data && node !in h.data
    ensures var h1 := AddEdge(EnsureNode(h, node), node, action, map[]);
            Valid(h1) && h1.directed == h.directed && PlainIds(h1) && node in h1.data && h1.data[node] == map[] &&
            action in h1.data && (forall v :: v in h.data ==> v in h1.data && h1.data[v] == h.data[v]) &&
            (forall x :: x in h1.edges ==> x in h.edges || (x.src == node && x.tgt == action))
  {
    EnsureNodeValid(h, node);
    AddEdgeValid(EnsureNode(h, node), node, action, map[]);
  }

  lemma AttachFrame(h: Graph, h1: Graph, node: NodeId, action: NodeId, e: Entity)
    requires node in h1.data && action in h1.data && "kind" !in e.data
    requires Valid(h1) && PlainIds(h1) && !IsAction(h1.data[node])
    requires IsEntity(h1.data[node]) || !IsAnnotated(h1.data[node])
    requires node == "" ==> h1 == h
    requires forall v :: v in h.data ==> v in h1.data && h1.data[v] == h.data[v]
    requires forall x :: x in h1.edges ==> x in h.edges || (x.src == node && x.tgt == action)
    requires Attach(h1, node, action, e).Ok?
    ensures var r := Attach(h1, node, action, e).value;
            Valid(r) && r.directed == h1.directed && PlainIds(r) && KeepsActions(h, r) && AddsInto(h, r, action)
  {
    if node != "" {
      WirePortsData(h1, node, action, e.ports);
      WirePortsEdges(h1, node, action, e.ports);
      WirePortsValid(h1, node, action, e.ports);
      WirePortsPlain(h1, node, action, e.ports);
      AttachStep(h1, node, action, e);
    }
  }

  // The input entries in turn.
  lemma {:induction false} InputEntriesFrame(h: Graph, action: NodeId, m: IdMap, preds: Preds, names: Names)
    requires Valid(h) && PlainIds(h) && action in h.data && FreshNames(names) && NoKinds(m)
    requires InputEntries(h, action, m, preds, names).Ok?
    ensures var r := InputEntries(h, action, m, preds, names).value;
            Valid(r) && r.directed == h.directed && PlainIds(r) && KeepsActions(h, r) && AddsInto(h, r, action)
    decreases |m|
  {
    if m != [] {
      var init := m[..|m| - 1];
      assert NoKinds(init);
      InputEntriesFrame(h, action, init, preds, names);
      InputEntriesEntities(h, action, init, preds, names);
      var prev := InputEntries(h, action, init, preds, names).value;
      var last := m[|m| - 1];
      InputEntryFrame(prev, action, last.1, PredsOf(preds, last.0), names);
      InputEntryStep(prev, action, last.1, PredsOf(preds, last.0), names);
    }
  }

  // One output entry: the graph stays well formed with plain ids, and every
  // new edge leaves the action or the new entity.
  lemma OutputEntryFrame(h: Graph, action: NodeId, id: Value, e: Entity, names: Names)
    requires Valid(h) && h.directed && PlainIds(h) && action in h.data && FreshName(names, h, "entity") !in h.data
    requires OutputEntry(h, action, id, e, names).Ok?
    ensures var r := OutputEntry(h, action, id, e, names).value;
            PlainIds(r) && forall x :: x in r.edges ==> x in h.edges || x.src == action || x.src == FreshName(names, h, "entity")
  {
    var n := FreshName(names, h, "entity");
    var h1 := AddEdge(h, action, n, map[]);
    LinkFacts(h, action, n);
    MoveCarriersSpec(h1, action, n, id);
    var h2 := MoveCarriers(h1, action, n, OutEdges(h1, action), id).value;
    MoveCarriersPlain(h1, action, n, OutEdges(h1, action), id);
    WirePortsEdges(h2, action, n, e.ports);
    WirePortsPlain(h2, action, n, e.ports);
  }

  // The output entries in turn.
  lemma {:induction false} OutputEntriesFrame(h: Graph, action: NodeId, m: IdMap, names: Names)
    requires Valid(h) && h.directed && PlainIds(h) && action in h.data && FreshNames(names) && NoKinds(m)
    requires OutputEntries(h, action, m, names).Ok?
    ensures var r := OutputEntries(h, action, m, names).value;
            PlainIds(r) && AddsFrom(h, r, action)
    decreases |m|
  {
    if m != [] {
      var init := m[..|m| - 1];
      assert NoKinds(init);
      OutputEntriesFrame(h, action, init, names);
      OutputEntriesSettled(h, action, init, names);
      var prev := OutputEntries(h, action, init, names).value;
      var last := m[|m| - 1];
      OutputEntryFrame(prev, action, last.0, last.1, names);
      OutputEntryStep(prev, action, last.0, last.1, names);
    }
  }

  /* ---------------- The errors of one action ---------------- */

  lemma {:induction false} InputIdsErrors(m0: IdMap, es: seq<Edge>, notes: Notes, token: string)
    requires InputIds(m0, es, notes, token).Err?
    ensures InputIds(m0, es, notes, token).error == KeyError
    decreases |es|
  {
    if es != [] && InputIds(m0, es[..|es| - 1], notes, token).Err? {
      InputIdsErrors(m0, es[..|es| - 1], notes, token);
    }
  }

  lemma {:induction false} OutputIdsErrors(m0: IdMap, es: seq<Edge>, notes: Notes, token: string)
    requires OutputIds(m0, es, notes, token).Err?
    ensures OutputIds(m0, es, notes, token).error == KeyError
    decreases |es|
  {
    if es != [] && OutputIds(m0, es[..|es| - 1], notes, token).Err? {
      OutputIdsErrors(m0, es[..|es| - 1], notes, token);
    }
  }

  // Predecessors are sources of the edges gathered.
  lemma {:induction false} InputIdsPreds(m0: IdMap, es: seq<Edge>, notes: Notes, token: string, h: Graph)
    requires forall x :: x in es ==> x.src in h.data && IsEntity(h.data[x.src])
    requires InputIds(m0, es, notes, token).Ok?
    ensures forall id :: EntitiesIn(h, PredsOf(InputIds(m0, es, notes, token).value.1, id))
    decreases |es|
  {
    if es != [] {
      var init := es[..|es| - 1];
      assert forall y :: y in init ==> y in es;
      InputIdsPreds(m0, init, notes, token, h);
      assert es[|es| - 1] in es;
    }
  }

  // With entity predecessors, an input entry fails with KeyError or
  // NetworkXError, or with AssertionError when the id has several
  // predecessors and the action is not collapsed.
  lemma InputEntryErrors(h: Graph, action: NodeId, e: Entity, ps: seq<NodeId>, names: Names)
    requires action in h.data && EntitiesIn(h, ps) && InputEntry(h, action, e, ps, names).Err?
    ensures var err := InputEntry(h, action, e, ps, names).error;
            err == KeyError || err == GraphError ||
            (err == AssertionError && |ps| > 1 && "collapsed" in h.data[action] && !Truthy(h.data[action]["collapsed"]))
  {
  }

  lemma {:induction false} InputEntriesErrors(h: Graph, action: NodeId, m: IdMap, preds: Preds, names: Names)
    requires Valid(h) && PlainIds(h) && action in h.data && IsAction(h.data[action]) && FreshNames(names) && NoKinds(m)
    requires forall id :: EntitiesIn(h, PredsOf(preds, id))
    requires InputEntries(h, action, m, preds, names).Err?
    ensures var err := InputEntries(h, action, m, preds, names).error;
            err == KeyError || err == GraphError ||
            (err == AssertionError && "collapsed" in h.data[action] && !Truthy(h.data[action]["collapsed"]))
    decreases |m|
  {
    var init := m[..|m| - 1];
    assert NoKinds(init);
    if InputEntries(h, action, init, preds, names).Err? {
      InputEntriesErrors(h, action, init, preds, names);
    } else {
      InputEntriesFrame(h, action, init, preds, names);
      InputEntriesEntities(h, action, init, preds, names);
      var prev := InputEntries(h, action, init, preds, names).value;
      var ps := PredsOf(preds, m[|m| - 1].0);
      assert EntitiesIn(h, ps);
      InputEntryErrors(prev, action, m[|m| - 1].1, ps, names);
    }
  }

  lemma {:induction false} OutputEntriesErrors(h: Graph, action: NodeId, m: IdMap, names: Names)
    requires Valid(h) && h.directed && action in h.data && FreshNames(names) && NoKinds(m)
    requires OutputEntries(h, action, m, names).Err?
    ensures OutputEntries(h, action, m, names).error == GraphError
    decreases |m|
  {
    var init := m[..|m| - 1];
    assert NoKinds(init);
    if OutputEntries(h, action, init, names).Err? {
      OutputEntriesErrors(h, action, init, names);
    } else {
      OutputEntriesSettled(h, action, init, names);
      var prev := OutputEntries(h, action, init, names).value;
      OutputEntryFails(prev, action, m[|m| - 1].0, m[|m| - 1].1, names);
    }
  }

  // A plain id names an entity without a kind of its own.
  lemma PlainNoKinds(h: Graph, es: seq<Edge>, notes: Notes)
    requires PlainIds(h) && forall x :: x in es ==> x in h.edges
    ensures forall x :: x in es && "id" in x.data ==> "kind" !in DataOf(IdOrDataOf(x.data["id"]), notes)
  {
    forall x | x in es && "id" in x.data ensures "kind" !in DataOf(IdOrDataOf(x.data["id"]), notes) {
      assert PlainId(x);
    }
  }

  /* ---------------- One action ---------------- */

  // What one action of the pass does, on an action whose in-edges all leave
  // entities.
  lemma ActionFrame(h: Graph, a: NodeId, t: Tables, notes: Notes, uuid: Tokens, names: Names)
    requires Valid(h) && h.directed && PlainIds(h) && FreshNames(names)
    requires NoKinds(TablesOf(t, a).0) && NoKinds(TablesOf(t, a).1)
    requires a in h.data && IsAction(h.data[a])
    requires ReifyStep(h, a, t, notes, uuid, names).Ok?
    ensures var r := ReifyStep(h, a, t, notes, uuid, names).value;
            Valid(r) && r.directed && PlainIds(r) && KeepsEntities(h, r) && KeepsActions(h, r) &&
            (forall x :: x in r.edges ==> x in h.edges || x.src == a || (x.src in r.data && IsEntity(r.data[x.src]))) &&
            (forall x :: x in r.edges && x.src == a ==> x.tgt !in h.data)
  {
    var tabs := TablesOf(t, a);
    var es := InEdges(h, a);
    PlainNoKinds(h, es, notes);
    var ids := InputIds(tabs.0, es, notes, uuid(a, "inputs")).value;
    InputIdsNoKinds(tabs.0, es, notes, uuid(a, "inputs"));
    InputEntriesFrame(h, a, ids.0, ids.1, names);
    InputEntriesEntities(h, a, ids.0, ids.1, names);
    var r1 := ReifyInputsSpec(h, a, tabs.0, notes, uuid(a, "inputs"), names).value;
    var os := OutEdges(r1, a);
    assert forall x :: x in os && "id" in x.data ==> !x.data["id"].VDict? by {
      forall x | x in os && "id" in x.data ensures !x.data["id"].VDict? {
        assert PlainId(x);
      }
    }
    ReifyOutputsToEntities(r1, a, tabs.1, notes, uuid(a, "outputs"), names);
    var m := OutputIds(tabs.1, os, notes, uuid(a, "outputs")).value;
    PlainNoKinds(r1, os, notes);
    OutputIdsNoKinds(tabs.1, os, notes, uuid(a, "outputs"));
    OutputEntriesFrame(r1, a, m, names);
    OutputEntriesSettled(r1, a, m, names);
  }

  // The errors of one action whose in-edges all leave entities.
  lemma ActionErrors(h: Graph, a: NodeId, t: Tables, notes: Notes, uuid: Tokens, names: Names)
    requires Valid(h) && h.directed && PlainIds(h) && FreshNames(names)
    requires NoKinds(TablesOf(t, a).0) && NoKinds(TablesOf(t, a).1)
    requires a in h.data && IsAction(h.data[a])
    requires forall x :: x in h.edges && x.tgt == a ==> x.src in h.data && IsEntity(h.data[x.src])
    requires ReifyStep(h, a, t, notes, uuid, names).Err?
    ensures var err := ReifyStep(h, a, t, notes, uuid, names).error;
            err == KeyError || err == GraphError ||
            (err == AssertionError && "collapsed" in h.data[a] && !Truthy(h.data[a]["collapsed"]))
  {
    var tabs := TablesOf(t, a);
    var es := InEdges(h, a);
    var token := uuid(a, "inputs");
    if InputIds(tabs.0, es, notes, token).Err? {
      InputIdsErrors(tabs.0, es, notes, token);
    } else {
      var ids := InputIds(tabs.0, es, notes, token).value;
      PlainNoKinds(h, es, notes);
      InputIdsNoKinds(tabs.0, es, notes, token);
      InputIdsPreds(tabs.0, es, notes, token, h);
      if InputEntries(h, a, ids.0, ids.1, names).Err? {
        InputEntriesErrors(h, a, ids.0, ids.1, names);
      } else {
        InputEntriesFrame(h, a, ids.0, ids.1, names);
        var r1 := InputEntries(h, a, ids.0, ids.1, names).value;
        var os := OutEdges(r1, a);
        var token' := uuid(a, "outputs");
        if OutputIds(tabs.1, os, notes, token').Err? {
          OutputIdsErrors(tabs.1, os, notes, token');
        } else {
          PlainNoKinds(r1, os, notes);
          OutputIdsNoKinds(tabs.1, os, notes, token');
          OutputEntriesErrors(r1, a, OutputIds(tabs.1, os, notes, token').value, names);
        }
      }
    }
  }

  /* ---------------- The pass ---------------- */

  lemma TailSplit(order: seq<NodeId>, k: nat)
    requires k < |order| && Distinct(order)
    ensures forall v :: v in order[k..] <==> v == order[k] || v in order[k + 1..]
    ensures order[k] !in order[k + 1..]
  {
    assert order[k..] == [order[k]] + order[k + 1..];
  }

  // Before an action's turn, every edge into it leaves an entity: an edge
  // from an action still to come would be an edge of the input against the
  // order.
  lemma Turn(h0: Graph, order: seq<NodeId>, k: nat, h: Graph)
    requires h0.directed && IsTopologicalOrder(order, h0)
    requires k < |order| && Pass(h0, order, k, h)
    ensures forall x :: x in h.edges && x.tgt == order[k] ==> x.src in h.data && IsEntity(h.data[x.src])
  {
    forall x | x in h.edges && x.tgt == order[k] ensures x.src in h.data && IsEntity(h.data[x.src]) {
      assert order[k] in order[k..];
    }
  }

  lemma PassStart(h0: Graph, order: seq<NodeId>, t: Tables, names: Names)
    requires Ready(h0, order, t, names)
    ensures Pass(h0, order, 0, h0)
  {
    assert order[0..] == order;
  }

  lemma PassStep(h0: Graph, order: seq<NodeId>, t: Tables, notes: Notes, uuid: Tokens, names: Names, k: nat, h: Graph)
    requires Ready(h0, order, t, names) && k < |order| && Pass(h0, order, k, h)
    requires ReifyStep(h, order[k], t, notes, uuid, names).Ok?
    ensures Pass(h0, order, k + 1, ReifyStep(h, order[k], t, notes, uuid, names).value)
  {
    var a := order[k];
    assert a in order[k..];
    ActionFrame(h, a, t, notes, uuid, names);
    PassNext(h0, order, k, h, ReifyStep(h, a, t, notes, uuid, names).value);
  }

  // The state moves on once an action's turn is done.
  lemma PassNext(h0: Graph, order: seq<NodeId>, k: nat, h: Graph, r: Graph)
    requires k < |order| && Pass(h0, order, k, h) && Distinct(order) && forall v :: v in h0.data ==> IsAction(h0.data[v])
    requires Valid(r) && r.directed && PlainIds(r) && KeepsEntities(h, r) && KeepsActions(h, r)
    requires forall x :: x in r.edges ==> x in h.edges || x.src == order[k] || (x.src in r.data && IsEntity(r.data[x.src]))
    requires forall x :: x in r.edges && x.src == order[k] ==> x.tgt !in h.data
    ensures Pass(h0, order, k + 1, r)
  {
    TailSplit(order, k);
    forall v | v in order[k + 1..] ensures v in r.data && v in h0.data && r.data[v] == h0.data[v] {
      assert v in order[k..];
    }
    forall x | x in r.edges && x.src in order[k + 1..] ensures x in h0.edges {
      assert x.src in order[k..];
      assert IsAction(r.data[x.src]);
    }
    forall x | x in r.edges && x.tgt in order[k + 1..]
      ensures x.src in order[k + 1..] || (x.src in r.data && IsEntity(r.data[x.src]))
    {
      assert x.tgt in order[k..];
    }
  }

  // The state after each prefix of the order that succeeds.
  lemma {:induction false} PassPrefix(h0: Graph, order: seq<NodeId>, t: Tables, notes: Notes, uuid: Tokens, names: Names, k: nat)
    requires Ready(h0, order, t, names) && k <= |order|
    requires ReifySpec(h0, order[..k], t, notes, uuid, names).Ok?
    ensures Pass(h0, order, k, ReifySpec(h0, order[..k], t, notes, uuid, names).value)
    decreases k
  {
    if k == 0 {
      assert order[..0] == [];
      PassStart(h0, order, t, names);
    } else {
      PrefixStep(order, k - 1);
      var prev := ReifySpec(h0, order[..k - 1], t, notes, uuid, names);
      assert prev.Ok?;
      PassPrefix(h0, order, t, notes, uuid, names, k - 1);
      ReifySpecNext(h0, order, t, notes, uuid, names, k - 1, prev.value);
      PassStep(h0, order, t, notes, uuid, names, k - 1, prev.value);
    }
  }

  // When an action's turn comes it is still an action with its data, and
  // every edge into it leaves an entity: the sanity check on the action and
  // the check that reused predecessors are entities both pass.
  lemma ActionTurn(h0: Graph, order: seq<NodeId>, t: Tables, notes: Notes, uuid: Tokens, names: Names, k: nat)
    requires Ready(h0, order, t, names) && k < |order|
    requires ReifySpec(h0, order[..k], t, notes, uuid, names).Ok?
    ensures var h := ReifySpec(h0, order[..k], t, notes, uuid, names).value;
            order[k] in h.data && h.data[order[k]] == h0.data[order[k]] && IsAction(h.data[order[k]]) &&
            forall x :: x in h.edges && x.tgt == order[k] ==> x.src in h.data && IsEntity(h.data[x.src])
  {
    var h := ReifySpec(h0, order[..k], t, notes, uuid, names).value;
    PassPrefix(h0, order, t, notes, uuid, names, k);
    assert order[k] in order[k..];
    Turn(h0, order, k, h);
  }

  // The failures of each prefix of the order.
  lemma {:induction false} PrefixErrors(h0: Graph, order: seq<NodeId>, t: Tables, notes: Notes, uuid: Tokens, names: Names, k: nat)
    requires Ready(h0, order, t, names) && k <= |order|
    requires ReifySpec(h0, order[..k], t, notes, uuid, names).Err?
    ensures var err := ReifySpec(h0, order[..k], t, notes, uuid, names).error;
            err == KeyError || err == GraphError ||
            (err == AssertionError && exists a :: a in h0.data && "collapsed" in h0.data[a] && !Truthy(h0.data[a]["collapsed"]))
    decreases k
  {
    assert k > 0 by {
      assert order[..0] == [];
    }
    var j := k - 1;
    if ReifySpec(h0, order[..j], t, notes, uuid, names).Err? {
      PrefixErrors(h0, order, t, notes, uuid, names, j);
      ErrStays(h0, order, t, notes, uuid, names, j);
    } else {
      TurnErrors(h0, order, t, notes, uuid, names, j);
    }
  }

  // Once a turn fails, the next one keeps the error.
  lemma ErrStays(h0: Graph, order: seq<NodeId>, t: Tables, notes: Notes, uuid: Tokens, names: Names, j: nat)
    requires j < |order| && ReifySpec(h0, order[..j], t, notes, uuid, names).Err?
    ensures ReifySpec(h0, order[..j + 1], t, notes, uuid, names) == ReifySpec(h0, order[..j], t, notes, uuid, names)
  {
    PrefixStep(order, j);
  }

  // The error of the first failing turn.
  lemma TurnErrors(h0: Graph, order: seq<NodeId>, t: Tables, notes: Notes, uuid: Tokens, names: Names, j: nat)
    requires Ready(h0, order, t, names) && j < |order|
    requires ReifySpec(h0, order[..j], t, notes, uuid, names).Ok?
    requires ReifySpec(h0, order[..j + 1], t, notes, uuid, names).Err?
    ensures var err := ReifySpec(h0, order[..j + 1], t, notes, uuid, names).error;
            err == KeyError || err == GraphError ||
            (err == AssertionError && exists a :: a in h0.data && "collapsed" in h0.data[a] && !Truthy(h0.data[a]["collapsed"]))
  {
    PrefixStep(order, j);
    var prev := ReifySpec(h0, order[..j], t, notes, uuid, names);
    var a := order[j];
    ActionTurn(h0, order, t, notes, uuid, names, j);
    PassPrefix(h0, order, t, notes, uuid, names, j);
    ReifySpecNext(h0, order, t, notes, uuid, names, j, prev.value);
    ActionErrors(prev.value, a, t, notes, uuid, names);
    assert a in h0.data by {
      assert a in order;
    }
  }

  // `reify_entities` over a topological order of an action graph fails
  // with KeyError (a missing id or collapsed flag), with NetworkXError
  // (a port edge to replace is missing), or with AssertionError only for an
  // action that is not collapsed: never because an action is not an action
  // or a predecessor is not an entity.
  lemma ReifyErrors(h0: Graph, order: seq<NodeId>, t: Tables, notes: Notes, uuid: Tokens, names: Names)
    requires Ready(h0, order, t, names) && ReifySpec(h0, order, t, notes, uuid, names).Err?
    ensures var err := ReifySpec(h0, order, t, notes, uuid, names).error;
            err == KeyError || err == GraphError ||
            (err == AssertionError && exists a :: a in h0.data && "collapsed" in h0.data[a] && !Truthy(h0.data[a]["collapsed"]))
  {
    WholePrefix(order);
    PrefixErrors(h0, order, t, notes, uuid, names, |order|);
  }
}
