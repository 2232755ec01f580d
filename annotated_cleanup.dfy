// The annotated flow graph builder (core/annotated_graph.py), last part:
// the clean-up passes that drop dangling nodes and duplicate edges.
module AnnotatedCleanup {
  import opened Base
  import opened Graphs
  import opened GraphUtil
  import opened FlowGraphs
  import opened AnnotatedGraphs
  import opened AnnotatedReify

  /* ---------------- Dangling nodes ---------------- */

  // The two sweeps: `remove_dangling_actions` and `remove_dangling_entities`.
  datatype Sweep = Actions | Entities

  predicate HasPred(g: Graph, n: NodeId)
  {
    exists e :: e in g.edges && e.tgt == n
  }

  predicate HasSucc(g: Graph, n: NodeId)
  {
    exists e :: e in g.edges && e.src == n
  }

  // Some successor of n is annotated.
  predicate AnnotatedSucc(g: Graph, n: NodeId)
  {
    exists e :: e in g.edges && e.src == n && e.tgt in g.data && IsAnnotated(g.data[e.tgt])
  }

  // Some predecessor of n is annotated.
  predicate AnnotatedPred(g: Graph, n: NodeId)
  {
    exists e :: e in g.edges && e.tgt == n && e.src in g.data && IsAnnotated(g.data[e.src])
  }

  // The sweep's `predicate(n)`, on the current graph: an unannotated action
  // without predecessors or without successors; an entity without
  // predecessors and annotated successors, or without successors and
  // annotated predecessors.
  predicate Doomed(s: Sweep, g: Graph, n: NodeId)
    requires n in g.data
  {
    match s
    case Actions => IsAction(g.data[n]) && !IsAnnotated(g.data[n]) && !(HasPred(g, n) && HasSucc(g, n))
    case Entities =>
      IsEntity(g.data[n]) && ((!HasPred(g, n) && !AnnotatedSucc(g, n)) || (!HasSucc(g, n) && !AnnotatedPred(g, n)))
  }

  // `graph.remove_nodes_from(n for n in graph.nodes() if predicate(n))`:
  // the generator is consumed while the nodes go, so each name of the
  // snapshot ns is tested on the graph the removals before it left (a name
  // of the snapshot is always still a node there, since each is met once).
  function SweepSpec(g: Graph, s: Sweep, ns: seq<NodeId>): Graph
    decreases |ns|
  {
    if ns == [] then g
    else
      var prev := SweepSpec(g, s, ns[..|ns| - 1]);
      var n := ns[|ns| - 1];
      if n in prev.data && Doomed(s, prev, n) then RemoveNodes(prev, [n]) else prev
  }

  // The pass, over the snapshot of the nodes.
  method RemoveDangling(g: Graph, s: Sweep) returns (r: Graph)
    ensures r == SweepSpec(g, s, g.nodes)
  {
    var ns := g.nodes;
    r := g;
    var i := 0;
    while i < |ns|
      invariant 0 <= i <= |ns|
      invariant r == SweepSpec(g, s, ns[..i])
    {
      PrefixStep(ns, i);
      if ns[i] in r.data && Doomed(s, r, ns[i]) {
        r := RemoveNodes(r, [ns[i]]);
      }
      i := i + 1;
    }
    WholePrefix(ns);
  }

  // r is g with some nodes and edges removed.
  ghost predicate Shrinks(g: Graph, r: Graph)
  {
    (forall m :: m in r.data ==> m in g.data && r.data[m] == g.data[m]) &&
    (forall x :: x in r.edges ==> x in g.edges)
  }

  // A node the sweep may remove.
  predicate Sweepable(s: Sweep, d: Attrs)
  {
    match s
    case Actions => IsAction(d) && !IsAnnotated(d)
    case Entities => IsEntity(d)
  }

  // A sweep only removes nodes: those it removes are of its kind and named
  // by the snapshot, and the graph stays well formed.
  lemma {:induction false} SweepShrinks(g: Graph, s: Sweep, ns: seq<NodeId>)
    requires Valid(g)
    ensures var r := SweepSpec(g, s, ns);
            Valid(r) && r.directed == g.directed && Shrinks(g, r) &&
            (forall m :: m in g.data && m !in r.data ==> m in ns && Sweepable(s, g.data[m]))
    decreases |ns|
  {
    if ns != [] {
      var init := ns[..|ns| - 1];
      SweepShrinks(g, s, init);
      var prev := SweepSpec(g, s, init);
      var n := ns[|ns| - 1];
      RemoveNodesValid(prev, [n]);
      assert forall m :: m in init ==> m in ns;
    }
  }

  // `remove_dangling_actions` never removes an annotated node or an
  // entity; `remove_dangling_entities` never removes an action.
  lemma SweepKeepsOthers(g: Graph, s: Sweep)
    requires Valid(g)
    ensures var r := SweepSpec(g, s, g.nodes);
            forall m :: m in g.data && !Sweepable(s, g.data[m]) ==> m in r.data && r.data[m] == g.data[m]
  {
    SweepShrinks(g, s, g.nodes);
  }

  // Removing nodes and edges keeps a doomed node doomed.
  lemma DoomedShrinks(s: Sweep, g: Graph, h: Graph, n: NodeId)
    requires n in h.data && n in g.data && Doomed(s, g, n) && Shrinks(g, h)
    ensures Doomed(s, h, n)
  {
    assert h.data[n] == g.data[n];
    if HasPred(h, n) {
      var e :| e in h.edges && e.tgt == n;
      assert e in g.edges;
    }
    if HasSucc(h, n) {
      var e :| e in h.edges && e.src == n;
      assert e in g.edges;
    }
    if AnnotatedSucc(h, n) {
      var e :| e in h.edges && e.src == n && e.tgt in h.data && IsAnnotated(h.data[e.tgt]);
      assert e in g.edges && g.data[e.tgt] == h.data[e.tgt];
    }
    if AnnotatedPred(h, n) {
      var e :| e in h.edges && e.tgt == n && e.src in h.data && IsAnnotated(h.data[e.src]);
      assert e in g.edges && g.data[e.src] == h.data[e.src];
    }
  }

  // Every node of the snapshot that is doomed in the input graph is
  // removed: removals only take edges away, so it is still doomed when its
  // turn comes.
  lemma {:induction false} SweepRemovesDoomed(g: Graph, s: Sweep, ns: seq<NodeId>)
    requires Valid(g) && Distinct(ns)
    ensures var r := SweepSpec(g, s, ns);
            forall m :: m in ns && m in g.data && Doomed(s, g, m) ==> m !in r.data
    decreases |ns|
  {
    if ns != [] {
      var init := ns[..|ns| - 1];
      var n := ns[|ns| - 1];
      assert Distinct(init);
      SweepRemovesDoomed(g, s, init);
      SweepShrinks(g, s, init);
      var prev := SweepSpec(g, s, init);
      var r := SweepSpec(g, s, ns);
      if n in g.data && Doomed(s, g, n) {
        assert n !in init by {
          DistinctLast(ns, n);
        }
        assert n in prev.data;
        DoomedShrinks(s, g, prev, n);
      }
      forall m | m in ns && m in g.data && Doomed(s, g, m) ensures m !in r.data {
        if m != n {
          assert m in init;
        }
      }
    }
  }

  /* ---------------- Duplicate edges ---------------- */

  // `n['kind'] == 'action' and not n['annotation']`.
  function IsPlainAction(d: Attrs): bool
  {
    IsAction(d) && !IsAnnotated(d)
  }

  // One data-less edge from each node of ps into a.
  function InWires(ps: seq<NodeId>, a: NodeId): (r: seq<Wire>)
    ensures |r| == |ps| && forall i :: 0 <= i < |ps| ==> r[i] == (ps[i], a, map[])
  {
    if ps == [] then [] else InWires(ps[..|ps| - 1], a) + [(ps[|ps| - 1], a, map[])]
  }

  // One data-less edge from a to each node of ss.
  function OutWires(a: NodeId, ss: seq<NodeId>): (r: seq<Wire>)
    ensures |r| == |ss| && forall i :: 0 <= i < |ss| ==> r[i] == (a, ss[i], map[])
  {
    if ss == [] then [] else OutWires(a, ss[..|ss| - 1]) + [(a, ss[|ss| - 1], map[])]
  }

  // The body of the loop for one action: its data and neighbours are read,
  // the node is removed with its edges and added back with the same data,
  // then one edge from each predecessor and one to each successor is added.
  // KeyError when a is not a node: its data is read before anything else.
  function Rebuild(g: Graph, a: NodeId): (r: Result<Graph>)
    ensures r.Err? <==> a !in g.data
    ensures r.Err? ==> r.error == KeyError
  {
    if a !in g.data then Err(KeyError)
    else
      var back := AddNode(RemoveNode(g, a).value, a, g.data[a]);
      Ok(AddTriples(AddTriples(back, InWires(Predecessors(g, a), a)), OutWires(a, Successors(g, a))))
  }

  // `for action in list(find_nodes(graph, query))`, over the snapshot acts.
  function DedupeSpec(g: Graph, acts: seq<NodeId>): Result<Graph>
    decreases |acts|
  {
    if acts == [] then Ok(g)
    else
      var prev := DedupeSpec(g, acts[..|acts| - 1]);
      if prev.Err? then prev else Rebuild(prev.value, acts[|acts| - 1])
  }

  // `remove_duplicate_edges(graph)`.
  method RemoveDuplicateEdges(g: Graph) returns (r: Result<Graph>)
    requires Valid(g)
    ensures r == DedupeSpec(g, FindNodes(g, IsPlainAction))
  {
    var acts := FindNodes(g, IsPlainAction);
    var h := g;
    var i := 0;
    while i < |acts|
      invariant 0 <= i <= |acts|
      invariant DedupeSpec(g, acts[..i]) == Ok(h)
    {
      PrefixStep(acts, i);
      r := RebuildAction(h, acts[i]);
      if r.Err? {
        DedupeErr(g, acts, i + 1);
        return;
      }
      h := r.value;
      i := i + 1;
    }
    WholePrefix(acts);
    r := Ok(h);
  }

  // One action of the loop, as the pass performs it.
  method RebuildAction(g: Graph, a: NodeId) returns (r: Result<Graph>)
    ensures r == Rebuild(g, a)
    ensures r.Err? <==> r == Err(KeyError)
  {
    if a !in g.data {
      return Err(KeyError);
    }
    var data := g.data[a];
    var preds, succs := Predecessors(g, a), Successors(g, a);
    var h := RemoveNodes(g, [a]);
    h := AddNode(h, a, data);
    h := AddTriples(h, InWires(preds, a));
    h := AddTriples(h, OutWires(a, succs));
    r := Ok(h);
  }

  lemma {:induction false} DedupeErr(g: Graph, acts: seq<NodeId>, k: nat)
    requires k <= |acts| && DedupeSpec(g, acts[..k]).Err?
    ensures DedupeSpec(g, acts) == DedupeSpec(g, acts[..k])
    decreases |acts| - k
  {
    if k < |acts| {
      PrefixStep(acts, k);
      DedupeErr(g, acts, k + 1);
    } else {
      WholePrefix(acts);
    }
  }

  /* ---------------- What a rebuild keeps ---------------- */

  // Some edge goes from u to v.
  ghost predicate Adjacent(g: Graph, u: NodeId, v: NodeId)
  {
    exists e :: e in g.edges && e.src == u && e.tgt == v
  }

  predicate Touches(x: Edge, a: NodeId)
  {
    x.src == a || x.tgt == a
  }

  // No two edges between a and another node run in the same direction.
  ghost predicate SimpleAt(g: Graph, a: NodeId)
  {
    forall x, y :: x in g.edges && y in g.edges && Touches(x, a) && x.src != x.tgt && x.src == y.src && x.tgt == y.tgt ==> x == y
  }

  // Equal entries of ws are loops.
  predicate DistinctLinks(ws: seq<Wire>)
  {
    forall i, j :: 0 <= i < j < |ws| && ws[i].0 != ws[i].1 ==> ws[i] != ws[j]
  }

  // The graph once a is removed and added back with its data.
  function Readded(g: Graph, a: NodeId): Graph
    requires a in g.data
  {
    AddNode(RemoveNodes(g, [a]), a, g.data[a])
  }

  // The edges added back, in order.
  function Rewired(g: Graph, a: NodeId): seq<Wire>
  {
    InWires(Predecessors(g, a), a) + OutWires(a, Successors(g, a))
  }

  lemma RebuildParts(g: Graph, a: NodeId)
    requires a in g.data
    ensures Rebuild(g, a) == Ok(AddTriples(Readded(g, a), Rewired(g, a)))
  {
    AddTriplesConcat(Readded(g, a), InWires(Predecessors(g, a), a), OutWires(a, Successors(g, a)));
  }

  // a keeps its data and moves to the end of the node list; it is touched
  // by no edge.
  lemma ReaddedFacts(g: Graph, a: NodeId)
    requires Valid(g) && a in g.data
    ensures var b := Readded(g, a);
            Valid(b) && b.directed == g.directed && b.data == g.data &&
            b.nodes == Minus(g.nodes, {a}) + [a] &&
            (forall x :: x in b.edges <==> x in g.edges && !Touches(x, a))
  {
    var h := RemoveNodes(g, [a]);
    assert Members([a]) == {a};
    assert a !in h.data;
    RemoveNodesValid(g, [a]);
    AddNodeValid(h, a, g.data[a]);
    ReaddedData(g, a);
  }

  lemma ReaddedData(g: Graph, a: NodeId)
    requires a in g.data
    ensures Readded(g, a).data == g.data
  {
    var b := Readded(g, a);
    assert forall m :: m in b.data <==> m in g.data;
    assert forall m :: m in b.data ==> b.data[m] == g.data[m];
  }

  // Each wire added back touches a, has no data and joins two nodes that
  // were adjacent; each edge that touched a has a wire.
  lemma RewiredFacts(g: Graph, a: NodeId)
    ensures var ws := Rewired(g, a);
            (forall t :: t in ws ==> t.2 == map[] && (t.0 == a || t.1 == a) && Adjacent(g, t.0, t.1)) &&
            (forall e :: e in g.edges && Touches(e, a) ==> (e.src, e.tgt, map[]) in ws)
  {
    var ps, ss := Predecessors(g, a), Successors(g, a);
    var ins, outs := InWires(ps, a), OutWires(a, ss);
    forall t | t in Rewired(g, a)
      ensures t.2 == map[] && (t.0 == a || t.1 == a) && Adjacent(g, t.0, t.1)
    {
      if t in ins {
        var i :| 0 <= i < |ins| && ins[i] == t;
        assert ps[i] in ps;
      } else {
        assert t in outs;
        var i :| 0 <= i < |outs| && outs[i] == t;
        assert ss[i] in ss;
      }
    }
    forall e | e in g.edges && Touches(e, a)
      ensures (e.src, e.tgt, map[]) in Rewired(g, a)
    {
      if e.tgt == a {
        assert e.src in ps;
        var i :| 0 <= i < |ps| && ps[i] == e.src;
        assert ins[i] == (e.src, e.tgt, map[]);
      } else {
        assert e.tgt in ss;
        var i :| 0 <= i < |ss| && ss[i] == e.tgt;
        assert outs[i] == (e.src, e.tgt, map[]);
      }
    }
  }

  // The only wire that can be added twice is a loop: one comes from a as
  // its own predecessor and one from a as its own successor.
  lemma RewiredDistinct(g: Graph, a: NodeId)
    ensures DistinctLinks(Rewired(g, a))
  {
    var ps, ss := Predecessors(g, a), Successors(g, a);
    var ins, outs := InWires(ps, a), OutWires(a, ss);
    var ws := ins + outs;
    forall i, j | 0 <= i < j < |ws| && ws[i].0 != ws[i].1 ensures ws[i] != ws[j] {
      if j < |ins| {
        assert ps[i] != ps[j];
      } else if |ins| <= i {
        assert ss[i - |ins|] != ss[j - |ins|];
      } else {
        assert ws[i].1 == a && ws[j].0 == a;
      }
    }
  }

  // Edges appended after the first k whose triples repeat only loops, all
  // without data, leave a simple when the first k do not touch it.
  lemma AppendedSimple(r: Graph, k: nat, ws: seq<Wire>, a: NodeId)
    requires k <= |r.edges| && Triples(r.edges[k..]) == ws && DistinctLinks(ws)
    requires forall x :: x in r.edges[..k] ==> !Touches(x, a)
    requires forall t :: t in ws ==> t.2 == map[]
    ensures SimpleAt(r, a)
  {
    forall x, y | x in r.edges && y in r.edges && Touches(x, a) && x.src != x.tgt && x.src == y.src && x.tgt == y.tgt
      ensures x == y
    {
      var i :| 0 <= i < |r.edges| && r.edges[i] == x;
      var j :| 0 <= j < |r.edges| && r.edges[j] == y;
      assert forall n :: 0 <= n < k ==> r.edges[n] in r.edges[..k];
      assert k <= i && k <= j;
      assert Triples(r.edges[k..])[i - k] == Triple(x) && Triple(x) in ws;
      assert Triples(r.edges[k..])[j - k] == Triple(y) && Triple(y) in ws;
      assert ws[i - k] == ws[j - k];
    }
  }

  // The edges after a rebuild: those that do not touch a were there
  // before; those that do carry no data and join two nodes that were
  // adjacent, and each pair that was adjacent through a still is.
  lemma RebuildEdges(g: Graph, a: NodeId)
    requires Valid(g) && a in g.data
    ensures Rebuild(g, a).Ok?
    ensures var r := Rebuild(g, a).value;
            (forall x :: x in r.edges && !Touches(x, a) ==> x in g.edges) &&
            (forall x :: x in r.edges && Touches(x, a) ==> x.data == map[] && Adjacent(g, x.src, x.tgt)) &&
            (forall x :: x in g.edges && !Touches(x, a) ==> x in r.edges) &&
            (forall e :: e in g.edges && Touches(e, a) ==> Adjacent(r, e.src, e.tgt))
  {
    var b, ws := Readded(g, a), Rewired(g, a);
    RebuildParts(g, a);
    ReaddedFacts(g, a);
    RewiredFacts(g, a);
    var r := AddTriples(b, ws);
    AddTriplesMembers(b, ws);
    forall x | x in r.edges && Touches(x, a) ensures x.data == map[] && Adjacent(g, x.src, x.tgt) {
      assert Triple(x) in ws;
    }
    forall e | e in g.edges && Touches(e, a) ensures Adjacent(r, e.src, e.tgt) {
      var t := (e.src, e.tgt, map[]);
      assert t in ws;
      var x :| x in r.edges && Triple(x) == t;
    }
  }

  // A rebuild keeps the graph well formed and the node data; a moves to the
  // end of the node list.
  lemma RebuildNodes(g: Graph, a: NodeId)
    requires Valid(g) && a in g.data
    ensures Rebuild(g, a).Ok?
    ensures var r := Rebuild(g, a).value;
            Valid(r) && r.directed == g.directed && r.data == g.data && r.nodes == Minus(g.nodes, {a}) + [a]
  {
    var b, ws := Readded(g, a), Rewired(g, a);
    RebuildParts(g, a);
    ReaddedFacts(g, a);
    RewiredFacts(g, a);
    AddTriplesValid(b, ws);
    AddTriplesEdges(b, ws);
    forall t | t in ws ensures t.0 in b.data && t.1 in b.data {
      var e :| e in g.edges && e.src == t.0 && e.tgt == t.1;
    }
    EndsWithin(ws, b.data.Keys);
    AddTriplesData(b, ws);
  }

  // A rebuild leaves one edge per direction between a and each neighbour.
  lemma RebuildSimple(g: Graph, a: NodeId)
    requires Valid(g) && a in g.data
    ensures Rebuild(g, a).Ok? && SimpleAt(Rebuild(g, a).value, a)
  {
    var b, ws := Readded(g, a), Rewired(g, a);
    RebuildParts(g, a);
    ReaddedFacts(g, a);
    RewiredFacts(g, a);
    RewiredDistinct(g, a);
    var r := AddTriples(b, ws);
    AddTriplesEdges(b, ws);
    assert r.edges[..|b.edges|] == b.edges;
    AppendedSimple(r, |b.edges|, ws, a);
  }

  ghost predicate SameAdjacency(r: Graph, g: Graph)
  {
    forall u, v :: Adjacent(r, u, v) <==> Adjacent(g, u, v)
  }

  lemma RebuildAdjacency(g: Graph, a: NodeId)
    requires Valid(g) && a in g.data
    ensures Rebuild(g, a).Ok? && SameAdjacency(Rebuild(g, a).value, g)
  {
    RebuildEdges(g, a);
    var r := Rebuild(g, a).value;
    forall u, v | Adjacent(r, u, v) ensures Adjacent(g, u, v) {
      var e :| e in r.edges && e.src == u && e.tgt == v;
    }
    forall u, v | Adjacent(g, u, v) ensures Adjacent(r, u, v) {
      var e :| e in g.edges && e.src == u && e.tgt == v;
      if !Touches(e, a) {
        assert e in r.edges;
      }
    }
  }

  // Rebuilding a changes nothing but its edges and its place in the node
  // list: the node data and which nodes are adjacent are the same, the
  // edges not touching a stay, those touching a carry no data, and no two
  // of them join a and another node in the same direction.
  lemma RebuildSpec(g: Graph, a: NodeId)
    requires Valid(g) && a in g.data
    ensures Rebuild(g, a).Ok?
    ensures var r := Rebuild(g, a).value;
            Valid(r) && r.directed == g.directed && r.data == g.data &&
            r.nodes == Minus(g.nodes, {a}) + [a] &&
            (forall x :: x in r.edges && !Touches(x, a) <==> x in g.edges && !Touches(x, a)) &&
            (forall x :: x in r.edges && Touches(x, a) ==> x.data == map[]) &&
            SameAdjacency(r, g) &&
            SimpleAt(r, a)
  {
    RebuildNodes(g, a);
    RebuildEdges(g, a);
    RebuildAdjacency(g, a);
    RebuildSimple(g, a);
  }

  // A rebuild at b keeps a simple: the edges it adds all touch b, and b is
  // simple after it.
  lemma SimpleKept(h: Graph, r: Graph, a: NodeId, b: NodeId)
    requires SimpleAt(h, a) && SimpleAt(r, b)
    requires forall x :: x in r.edges && !Touches(x, b) ==> x in h.edges
    ensures SimpleAt(r, a)
  {
  }

  // x touches none of the nodes acts.
  predicate Untouched(x: Edge, acts: seq<NodeId>)
  {
    forall a :: a in acts ==> !Touches(x, a)
  }

  // The edges touching none of acts are those of g; the others carry no
  // data.
  ghost predicate RewiredAt(g: Graph, acts: seq<NodeId>, r: Graph)
  {
    (forall x :: Untouched(x, acts) ==> (x in r.edges <==> x in g.edges)) &&
    (forall x :: x in r.edges && !Untouched(x, acts) ==> x.data == map[])
  }

  // Each of acts is simple in r.
  ghost predicate SimpleAtAll(g: Graph, acts: seq<NodeId>, r: Graph)
  {
    forall a :: a in acts ==> SimpleAt(r, a)
  }

  // What rebuilding each of acts in turn keeps and establishes.
  ghost predicate Deduped(g: Graph, acts: seq<NodeId>, r: Graph)
  {
    Valid(r) && r.directed == g.directed && r.data == g.data &&
    SameAdjacency(r, g) && RewiredAt(g, acts, r) && SimpleAtAll(g, acts, r)
  }

  lemma RewiredStep(g: Graph, acts: seq<NodeId>, h: Graph, n: NodeId)
    requires Valid(h) && n in h.data && RewiredAt(g, acts, h)
    ensures Rebuild(h, n).Ok? && RewiredAt(g, acts + [n], Rebuild(h, n).value)
  {
    RebuildEdges(h, n);
    var r := Rebuild(h, n).value;
    var all := acts + [n];
    forall x | Untouched(x, all) ensures x in r.edges <==> x in g.edges {
      assert !Touches(x, n) && Untouched(x, acts);
    }
    forall x | x in r.edges && !Untouched(x, all) ensures x.data == map[] {
      if !Touches(x, n) {
        assert !Untouched(x, acts);
      }
    }
  }

  // Edges away from n after a rebuild at n were there before.
  lemma RebuildAway(h: Graph, n: NodeId)
    requires Valid(h) && n in h.data
    ensures Rebuild(h, n).Ok? && forall x :: x in Rebuild(h, n).value.edges && !Touches(x, n) ==> x in h.edges
  {
    RebuildEdges(h, n);
  }

  lemma SimpleStep(g: Graph, acts: seq<NodeId>, h: Graph, n: NodeId, r: Graph)
    requires SameAdjacency(h, g) && SimpleAtAll(g, acts, h)
    requires forall x :: x in r.edges && !Touches(x, n) ==> x in h.edges
    requires SimpleAt(r, n)
    ensures SimpleAtAll(g, acts + [n], r)
  {
    forall a | a in acts + [n] ensures SimpleAt(r, a) {
      if a != n {
        assert a in acts;
        SimpleKept(h, r, a, n);
      }
    }
  }

  lemma DedupedStep(g: Graph, acts: seq<NodeId>, h: Graph, n: NodeId)
    requires Deduped(g, acts, h) && n in g.data
    ensures Rebuild(h, n).Ok? && Deduped(g, acts + [n], Rebuild(h, n).value)
  {
    RebuildNodes(h, n);
    RebuildAdjacency(h, n);
    RewiredStep(g, acts, h, n);
    RebuildAway(h, n);
    RebuildSimple(h, n);
    SimpleStep(g, acts, h, n, Rebuild(h, n).value);
  }

  lemma DedupedNone(g: Graph)
    requires Valid(g)
    ensures Deduped(g, [], g)
  {
    assert RewiredAt(g, [], g);
  }

  // Rebuilding actions that are nodes never fails, keeps the node data and
  // adjacency, leaves the edges away from them alone, strips the data of the
  // edges at them and leaves at most one edge per direction between each of
  // them and each neighbour.
  lemma {:induction false} DedupeSpecFacts(g: Graph, acts: seq<NodeId>)
    requires Valid(g) && forall a :: a in acts ==> a in g.data
    ensures DedupeSpec(g, acts).Ok? && Deduped(g, acts, DedupeSpec(g, acts).value)
    decreases |acts|
  {
    if acts == [] {
      DedupedNone(g);
    } else {
      var init := acts[..|acts| - 1];
      var n := acts[|acts| - 1];
      AppendLast([], acts);
      assert forall a :: a in init ==> a in acts;
      DedupeSpecFacts(g, init);
      DedupedStep(g, init, DedupeSpec(g, init).value, n);
    }
  }

  // `remove_duplicate_edges` on a well-formed graph: it succeeds, the node
  // data and the adjacency relation are those of the input, edges away from
  // unannotated actions are untouched, and each unannotated action is joined
  // to each other neighbour by exactly one data-less edge per direction.
  lemma RemoveDuplicateEdgesSpec(g: Graph)
    requires Valid(g)
    ensures var acts := FindNodes(g, IsPlainAction);
            DedupeSpec(g, acts).Ok? && Deduped(g, acts, DedupeSpec(g, acts).value)
  {
    DedupeSpecFacts(g, FindNodes(g, IsPlainAction));
  }
}
