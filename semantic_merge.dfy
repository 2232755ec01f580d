/* Merging nodes of the semantic graph (`merge_nodes`) and the passes that
   merge duplicate and unknown aspects of actions. */
module SemanticMerge {
  import opened Base
  import opened Graphs
  import opened GraphUtil
  import opened SemanticGraphs
  import opened SemanticDirections
  import opened GraphAlgorithms
  import AnnotatedReify

  // What Python raises when merges nest deeper than its recursion limit.
  const RecursionLimit: Error := RuntimeError("maximum recursion depth exceeded")

  // A value Python accepts as a dictionary key or set element.
  predicate Hashable(v: Value)
  {
    !v.VList? && !v.VDict?
  }

  /* ---------------- merge_nodes ---------------- */

  // `most_specific(olog.type(a), olog.type(b)).name`.
  function MergedType(o: Olog, a: Value, b: Value): Result<Value>
  {
    if o.known(a) && o.known(b) then Ok(o.mostSpecific(a, b)) else Err(KeyError)
  }

  // The edges es added again into dest, in order, each with its source and
  // data (`graph.add_edge(node, dest, **data)`).
  function Redirect(h: Graph, es: seq<Edge>, dest: NodeId): (r: Graph)
    ensures r.directed == h.directed && r.attrs == h.attrs
    ensures |r.edges| == |h.edges| + |es| && r.edges[..|h.edges|] == h.edges
    ensures forall m :: m in h.data ==> m in r.data && r.data[m] == h.data[m]
    ensures forall m :: m in r.data ==> m in h.data || m == dest || m in Sources(es)
  {
    if es == [] then h
    else
      var e := es[|es| - 1];
      var init := Redirect(h, es[..|es| - 1], dest);
      assert Sources(es) == Sources(es[..|es| - 1]) + [e.src];
      AddEdge(init, e.src, dest, e.data)
  }

  // The redirected edges come last, in order, each into dest.
  lemma {:induction false} RedirectEdges(h: Graph, es: seq<Edge>, dest: NodeId, i: nat)
    requires i < |es|
    ensures var x := Redirect(h, es, dest).edges[|h.edges| + i];
            x.src == es[i].src && x.tgt == dest && x.data == es[i].data
    decreases |es|
  {
    var n := |es| - 1;
    if i < n {
      RedirectEdges(h, es[..n], dest, i);
      var r := Redirect(h, es[..n], dest);
      assert Redirect(h, es, dest).edges[..|r.edges|] == r.edges;
    }
  }

  // The graph after the first two steps of a merge: dest's new type and
  // the edges into src added again into dest.
  function Gathered(g: Graph, src: NodeId, dest: NodeId, t: Value): Graph
    requires dest in g.data
  {
    var h1 := g.(data := g.data[dest := g.data[dest]["type" := t]]);
    Redirect(h1, InEdges(h1, src), dest)
  }

  // `{data['aspect']: tgt for ... in out_edges_iter(dest) if 'aspect' in
  // data}`; an aspect that cannot be a key raises.
  function AspectTargets(es: seq<Edge>): (r: Result<map<Value, NodeId>>)
    ensures r.Ok? <==> forall e :: e in es && "aspect" in e.data ==> Hashable(e.data["aspect"])
    ensures r.Err? ==> r.error == TypeError
    ensures r.Ok? ==> forall a :: a in r.value <==> exists e :: e in es && "aspect" in e.data && e.data["aspect"] == a
  {
    if es == [] then Ok(map[])
    else
      var n := |es| - 1;
      var e := es[n];
      assert forall x :: x in es <==> x in es[..n] || x == e;
      var init := AspectTargets(es[..n]);
      if init.Err? then init
      else if "aspect" !in e.data then init
      else if !Hashable(e.data["aspect"]) then Err(TypeError)
      else Ok(init.value[e.data["aspect"] := e.tgt])
  }

  // The edge that carries an aspect.
  predicate Carries(e: Edge, a: Value)
  {
    "aspect" in e.data && e.data["aspect"] == a
  }

  // es[i] is the last edge of es that carries aspect a, and it leads to t.
  predicate LastCarrier(es: seq<Edge>, a: Value, i: nat, t: NodeId)
  {
    i < |es| && Carries(es[i], a) && es[i].tgt == t && forall j :: i < j < |es| ==> !Carries(es[j], a)
  }

  // Each aspect names the target of the last edge that carries it.
  lemma {:induction false} AspectTargetsLast(es: seq<Edge>, a: Value)
    requires AspectTargets(es).Ok? && a in AspectTargets(es).value
    ensures exists i :: LastCarrier(es, a, i, AspectTargets(es).value[a])
    decreases |es|
  {
    var n := |es| - 1;
    var e := es[n];
    AspectTargetsStep(es);
    var m := AspectTargets(es[..n]).value;
    if Carries(e, a) {
      assert LastCarrier(es, a, n, e.tgt);
    } else {
      assert a in m;
      AspectTargetsLast(es[..n], a);
      var i: nat :| LastCarrier(es[..n], a, i, m[a]);
      LastCarrierExtend(es, a, i, m[a]);
    }
  }

  lemma AspectTargetsStep(es: seq<Edge>)
    requires es != [] && AspectTargets(es).Ok?
    ensures AspectTargets(es[..|es| - 1]).Ok?
    ensures var e := es[|es| - 1];
            var m := AspectTargets(es[..|es| - 1]).value;
            AspectTargets(es).value == if "aspect" in e.data then m[e.data["aspect"] := e.tgt] else m
  {
  }

  lemma LastCarrierExtend(es: seq<Edge>, a: Value, i: nat, t: NodeId)
    requires es != [] && LastCarrier(es[..|es| - 1], a, i, t) && !Carries(es[|es| - 1], a)
    ensures LastCarrier(es, a, i, t)
  {
    var n := |es| - 1;
    assert es[..n][i] == es[i];
    forall j | i < j < |es| ensures !Carries(es[j], a) {
      if j < n {
        assert es[..n][j] == es[j];
      }
    }
  }

  // `merge_nodes(graph, src, dest)` with at most fuel calls nested in it. The
  // type of dest becomes the most specific of both types; the edges into
  // src are added again into dest; each edge out of src whose aspect dest
  // also has merges its target into dest's target for that aspect, and the
  // other edges out of src are added again out of dest; src goes last.
  // With `guard`, merging a node into itself leaves the graph as it is;
  // without, it is the code as written, which removes the node.
  function Merge(o: Olog, g: Graph, src: NodeId, dest: NodeId, guard: bool, fuel: nat): Result<Graph>
    decreases fuel, 1, 0
  {
    if guard && src == dest then Ok(g)
    else if src !in g.data || dest !in g.data then Err(KeyError)
    else if "type" !in g.data[src] || "type" !in g.data[dest] then Err(KeyError)
    else
      var t :- MergedType(o, g.data[src]["type"], g.data[dest]["type"]);
      var h2 := Gathered(g, src, dest, t);
      var targets :- AspectTargets(OutEdges(h2, dest));
      var h3 :- MergeOuts(o, h2, OutEdges(h2, src), dest, targets, guard, fuel);
      RemoveNode(h3, src)
  }

  // The loop over the edges out of src, taken before it starts.
  function MergeOuts(o: Olog, h: Graph, es: seq<Edge>, dest: NodeId, targets: map<Value, NodeId>,
                     guard: bool, fuel: nat): Result<Graph>
    decreases fuel, 0, |es|
  {
    if es == [] then Ok(h)
    else
      var h' :- MergeOuts(o, h, es[..|es| - 1], dest, targets, guard, fuel);
      var e := es[|es| - 1];
      var a := Get(e.data, "aspect");
      if !Truthy(a) then Ok(AddEdge(h', dest, e.tgt, e.data))
      else if !Hashable(a) then Err(TypeError)
      else if a in targets then
        if fuel == 0 then Err(RecursionLimit) else Merge(o, h', e.tgt, targets[a], guard, fuel - 1)
      else Ok(AddEdge(h', dest, e.tgt, e.data))
  }

  lemma {:induction false} RedirectValid(h: Graph, es: seq<Edge>, dest: NodeId)
    requires Valid(h)
    ensures Valid(Redirect(h, es, dest))
    decreases |es|
  {
    if es != [] {
      var e := es[|es| - 1];
      RedirectValid(h, es[..|es| - 1], dest);
      AddEdgeValid(Redirect(h, es[..|es| - 1], dest), e.src, dest, e.data);
    }
  }

  // Every datum of r but a type is the one g has for that node, or is
  // missing: a node a nested merge removed comes back without data when a
  // later edge names it.
  ghost predicate KeptButType(g: Graph, r: Graph)
  {
    forall n, k :: n in r.data && k != "type" ==>
      Get(r.data[n], k) == VNone || (n in g.data && Get(r.data[n], k) == Get(g.data[n], k))
  }

  lemma KeptButTypeTrans(a: Graph, b: Graph, c: Graph)
    requires KeptButType(a, b) && KeptButType(b, c)
    ensures KeptButType(a, c)
  {
  }

  lemma AddEdgeKept(g: Graph, u: NodeId, v: NodeId, attrs: Attrs)
    ensures KeptButType(g, AddEdge(g, u, v, attrs))
  {
  }

  // Gathering changes no node's data but dest's type.
  lemma GatheredKept(g: Graph, src: NodeId, dest: NodeId, t: Value)
    requires Valid(g) && dest in g.data
    ensures KeptButType(g, Gathered(g, src, dest, t))
  {
    var h1 := g.(data := g.data[dest := g.data[dest]["type" := t]]);
    var es := InEdges(h1, src);
    var h := Gathered(g, src, dest, t);
    forall m | m in Sources(es) ensures m in g.data {
      var i :| 0 <= i < |es| && Sources(es)[i] == m;
      assert es[i] in EdgesInto(g.edges, src);
    }
    forall n, k | n in h.data && k != "type" ensures n in g.data && Get(h.data[n], k) == Get(g.data[n], k) {
      assert n in h1.data;
      assert h.data[n] == h1.data[n];
    }
  }

  lemma GatheredSound(g: Graph, src: NodeId, dest: NodeId, t: Value)
    requires Valid(g) && dest in g.data
    ensures var h := Gathered(g, src, dest, t);
            Valid(h) && h.directed == g.directed && h.data.Keys <= g.data.Keys && (src in g.data ==> src in h.data) &&
            KeptButType(g, h)
  {
    GatheredKept(g, src, dest, t);
    var h1 := g.(data := g.data[dest := g.data[dest]["type" := t]]);
    assert Valid(h1);
    var es := InEdges(h1, src);
    RedirectValid(h1, es, dest);
    forall m | m in Sources(es) ensures m in g.data {
      var i :| 0 <= i < |es| && Sources(es)[i] == m;
      assert es[i] in EdgesInto(g.edges, src);
    }
  }

  // A merge that succeeds went through every step.
  lemma MergeSteps(o: Olog, g: Graph, src: NodeId, dest: NodeId, guard: bool, fuel: nat)
      returns (t: Value, h2: Graph, targets: map<Value, NodeId>, h3: Graph)
    requires Merge(o, g, src, dest, guard, fuel).Ok? && !(guard && src == dest)
    ensures src in g.data && dest in g.data && "type" in g.data[src] && "type" in g.data[dest]
    ensures MergedType(o, g.data[src]["type"], g.data[dest]["type"]) == Ok(t) && h2 == Gathered(g, src, dest, t)
    ensures AspectTargets(OutEdges(h2, dest)) == Ok(targets)
    ensures MergeOuts(o, h2, OutEdges(h2, src), dest, targets, guard, fuel) == Ok(h3)
    ensures Merge(o, g, src, dest, guard, fuel) == RemoveNode(h3, src)
  {
    t := MergedType(o, g.data[src]["type"], g.data[dest]["type"]).value;
    h2 := Gathered(g, src, dest, t);
    targets := AspectTargets(OutEdges(h2, dest)).value;
    h3 := MergeOuts(o, h2, OutEdges(h2, src), dest, targets, guard, fuel).value;
  }

  // A merge keeps the graph well formed, never brings in a node that was
  // not there, and removes src unless it merges a node into itself under
  // the guard, which changes nothing.
  lemma {:induction false} MergeSound(o: Olog, g: Graph, src: NodeId, dest: NodeId, guard: bool, fuel: nat)
    requires Valid(g) && Merge(o, g, src, dest, guard, fuel).Ok?
    ensures var r := Merge(o, g, src, dest, guard, fuel).value;
            Valid(r) && r.directed == g.directed && r.data.Keys <= g.data.Keys &&
            KeptButType(g, r) &&
            (guard && src == dest ==> r == g) &&
            (!(guard && src == dest) ==> src !in r.data)
    decreases fuel, 1, 1
  {
    if !(guard && src == dest) {
      var t, h2, targets, h3 := MergeSteps(o, g, src, dest, guard, fuel);
      GatheredSound(g, src, dest, t);
      MergeTail(o, g, src, dest, guard, h2, targets, fuel);
      RemoveNodeValid(h3, src);
      KeptButTypeTrans(g, h2, h3);
    }
  }

  // The loop and the removal of src, after the first two steps.
  lemma {:induction false} MergeTail(o: Olog, g: Graph, src: NodeId, dest: NodeId, guard: bool,
                                     h2: Graph, targets: map<Value, NodeId>, inner: nat)
    requires Valid(h2) && h2.data.Keys <= g.data.Keys && dest in g.data
    requires MergeOuts(o, h2, OutEdges(h2, src), dest, targets, guard, inner).Ok?
    ensures var h3 := MergeOuts(o, h2, OutEdges(h2, src), dest, targets, guard, inner).value;
            Valid(h3) && h3.directed == h2.directed && h3.data.Keys <= g.data.Keys && KeptButType(h2, h3)
    decreases inner, 1, 0
  {
    var es := OutEdges(h2, src);
    var keys := g.data.Keys;
    forall e | e in es ensures e.tgt in keys {
      assert e in h2.edges;
    }
    MergeOutsSound(o, h2, es, dest, targets, guard, inner, keys);
  }

  lemma {:induction false} MergeOutsSound(o: Olog, h: Graph, es: seq<Edge>, dest: NodeId, targets: map<Value, NodeId>,
                                          guard: bool, fuel: nat, keys: set<NodeId>)
    requires Valid(h) && h.data.Keys <= keys && dest in keys && forall e :: e in es ==> e.tgt in keys
    requires MergeOuts(o, h, es, dest, targets, guard, fuel).Ok?
    ensures var r := MergeOuts(o, h, es, dest, targets, guard, fuel).value;
            Valid(r) && r.directed == h.directed && r.data.Keys <= keys && KeptButType(h, r)
    decreases fuel, 0, |es|
  {
    if es != [] {
      var init := es[..|es| - 1];
      assert forall e :: e in init ==> e in es;
      var h', inner := MergeOutsLast(o, h, es, dest, targets, guard, fuel);
      MergeOutsSound(o, h, init, dest, targets, guard, fuel, keys);
      MergeOutsStep(o, h, h', es[|es| - 1], dest, targets, guard, fuel, inner, keys,
                    MergeOuts(o, h, es, dest, targets, guard, fuel));
    }
  }

  // The last edge of the loop keeps what the edges before it kept.
  lemma {:induction false} MergeOutsStep(o: Olog, h: Graph, h': Graph, e: Edge, dest: NodeId, targets: map<Value, NodeId>,
                                         guard: bool, fuel: nat, inner: nat, keys: set<NodeId>, r: Result<Graph>)
    requires Valid(h') && h'.directed == h.directed && h'.data.Keys <= keys && KeptButType(h, h')
    requires dest in keys && e.tgt in keys && r.Ok?
    requires var a := Get(e.data, "aspect");
             if Truthy(a) && Hashable(a) && a in targets
             then fuel == inner + 1 && r == Merge(o, h', e.tgt, targets[a], guard, inner)
             else r == Ok(AddEdge(h', dest, e.tgt, e.data))
    ensures Valid(r.value) && r.value.directed == h.directed && r.value.data.Keys <= keys && KeptButType(h, r.value)
    decreases fuel, 0, 0
  {
    var a := Get(e.data, "aspect");
    if Truthy(a) && Hashable(a) && a in targets {
      MergeSound(o, h', e.tgt, targets[a], guard, inner);
      KeptButTypeTrans(h, h', r.value);
    } else {
      AddEdgeValid(h', dest, e.tgt, e.data);
      AddEdgeKept(h', dest, e.tgt, e.data);
      KeptButTypeTrans(h, h', r.value);
    }
  }

  // The last edge of the loop, after the others.
  lemma MergeOutsLast(o: Olog, h: Graph, es: seq<Edge>, dest: NodeId, targets: map<Value, NodeId>, guard: bool, fuel: nat)
      returns (h': Graph, inner: nat)
    requires es != [] && MergeOuts(o, h, es, dest, targets, guard, fuel).Ok?
    ensures MergeOuts(o, h, es[..|es| - 1], dest, targets, guard, fuel) == Ok(h')
    ensures var e := es[|es| - 1];
            var a := Get(e.data, "aspect");
            if Truthy(a) && Hashable(a) && a in targets
            then fuel == inner + 1 && MergeOuts(o, h, es, dest, targets, guard, fuel) == Merge(o, h', e.tgt, targets[a], guard, inner)
            else MergeOuts(o, h, es, dest, targets, guard, fuel) == Ok(AddEdge(h', dest, e.tgt, e.data))
  {
    h' := MergeOuts(o, h, es[..|es| - 1], dest, targets, guard, fuel).value;
    inner := if fuel == 0 then 0 else fuel - 1;
  }

  /* ---------------- What a merge does ---------------- */

  // Some edge out of src carries a truthy aspect that an edge out of dest
  // also carries: merging src into dest then merges their targets.
  ghost predicate Collides(g: Graph, src: NodeId, dest: NodeId)
  {
    exists e, f :: e in g.edges && f in g.edges && e.src == src && f.src == dest &&
                   Truthy(Get(e.data, "aspect")) && Carries(f, Get(e.data, "aspect"))
  }

  // es has an edge from u to v with data d, whatever its key.
  ghost predicate Links(es: seq<Edge>, u: NodeId, v: NodeId, d: Attrs)
  {
    exists x :: x in es && x.src == u && x.tgt == v && x.data == d
  }

  // x is an edge es had, or one of es's edges into src turned to end at
  // dest.
  ghost predicate KeptOrInto(es: seq<Edge>, x: Edge, src: NodeId, dest: NodeId)
  {
    x in es || exists e :: e in es && e.tgt == src && x.src == e.src && x.tgt == dest && x.data == e.data
  }

  // Every edge of es is in fs.
  ghost predicate Includes(es: seq<Edge>, fs: seq<Edge>)
  {
    forall x :: x in es ==> x in fs
  }

  // The edges of g after merging src into dest without nesting: those not
  // touching src stay, each edge into src now ends at dest and each edge
  // out of src now starts at dest.
  ghost predicate Moved(g: Graph, src: NodeId, dest: NodeId, es: seq<Edge>)
  {
    (forall e :: e in g.edges && e.src != src && e.tgt != src ==> e in es) &&
    (forall e :: e in g.edges && e.tgt == src ==> Links(es, e.src, dest, e.data)) &&
    (forall e :: e in g.edges && e.src == src ==> Links(es, dest, e.tgt, e.data))
  }

  // And there is no other edge.
  ghost predicate OnlyMoved(g: Graph, src: NodeId, dest: NodeId, es: seq<Edge>)
  {
    forall x :: x in es ==>
      (x in g.edges && x.src != src && x.tgt != src) ||
      (exists e :: e in g.edges && e.tgt == src && x.src == e.src && x.tgt == dest && x.data == e.data) ||
      (exists e :: e in g.edges && e.src == src && x.src == dest && x.tgt == e.tgt && x.data == e.data)
  }

  // Redirecting keeps every edge and adds, for each edge of es, one from
  // its source into dest with its data.
  lemma RedirectAdds(h: Graph, es: seq<Edge>, dest: NodeId)
    ensures Includes(h.edges, Redirect(h, es, dest).edges)
    ensures forall e :: e in es ==> Links(Redirect(h, es, dest).edges, e.src, dest, e.data)
  {
    var r := Redirect(h, es, dest);
    var n := |h.edges|;
    forall x | x in h.edges ensures x in r.edges {
      var j :| 0 <= j < n && h.edges[j] == x;
      assert r.edges[..n][j] == x;
    }
    forall e | e in es ensures Links(r.edges, e.src, dest, e.data) {
      var i :| 0 <= i < |es| && es[i] == e;
      RedirectEdges(h, es, dest, i);
      assert r.edges[n + i] in r.edges;
    }
  }

  // Redirecting adds nothing else.
  lemma RedirectOnly(h: Graph, es: seq<Edge>, dest: NodeId)
    ensures forall x :: x in Redirect(h, es, dest).edges ==> x in h.edges || exists e :: e in es && x.src == e.src && x.tgt == dest && x.data == e.data
  {
    var r := Redirect(h, es, dest);
    var n := |h.edges|;
    forall x | x in r.edges ensures x in h.edges || exists e :: e in es && x.src == e.src && x.tgt == dest && x.data == e.data {
      var j :| 0 <= j < |r.edges| && r.edges[j] == x;
      if j < n {
        assert r.edges[..n][j] == x;
      } else {
        RedirectEdges(h, es, dest, j - n);
        assert es[j - n] in es;
      }
    }
  }

  // Adding an edge keeps the others and adds only it.
  lemma AddEdgeLinks(h: Graph, u: NodeId, v: NodeId, d: Attrs)
    requires u in h.data && v in h.data
    ensures var r := AddEdge(h, u, v, d);
            r.data == h.data && Includes(h.edges, r.edges) && Links(r.edges, u, v, d) &&
            forall x :: x in r.edges ==> x in h.edges || (x.src == u && x.tgt == v && x.data == d)
  {
    var r := AddEdge(h, u, v, d);
    assert r.edges[|h.edges|] in r.edges;
  }

  // Each edge of es added again out of dest, in order.
  function AddOuts(h: Graph, es: seq<Edge>, dest: NodeId): Graph
  {
    if es == [] then h
    else
      var e := es[|es| - 1];
      AddEdge(AddOuts(h, es[..|es| - 1], dest), dest, e.tgt, e.data)
  }

  // The loop over edges none of whose aspects dest has adds each of them
  // again out of dest.
  lemma {:induction false} MergeOutsPlain(o: Olog, h: Graph, es: seq<Edge>, dest: NodeId, targets: map<Value, NodeId>,
                                          guard: bool, fuel: nat)
    requires forall e :: e in es && Truthy(Get(e.data, "aspect")) ==> Hashable(Get(e.data, "aspect")) && Get(e.data, "aspect") !in targets
    ensures MergeOuts(o, h, es, dest, targets, guard, fuel) == Ok(AddOuts(h, es, dest))
    decreases |es|
  {
    if es != [] {
      assert forall x :: x in es[..|es| - 1] ==> x in es;
      MergeOutsPlain(o, h, es[..|es| - 1], dest, targets, guard, fuel);
      assert es[|es| - 1] in es;
    }
  }

  // A loop that goes through met no truthy aspect it cannot hash.
  lemma {:induction false} MergeOutsHashable(o: Olog, h: Graph, es: seq<Edge>, dest: NodeId, targets: map<Value, NodeId>,
                                             guard: bool, fuel: nat)
    requires MergeOuts(o, h, es, dest, targets, guard, fuel).Ok?
    ensures forall e :: e in es && Truthy(Get(e.data, "aspect")) ==> Hashable(Get(e.data, "aspect"))
    decreases |es|
  {
    if es != [] {
      assert forall x :: x in es ==> x in es[..|es| - 1] || x == es[|es| - 1];
      MergeOutsHashable(o, h, es[..|es| - 1], dest, targets, guard, fuel);
    }
  }

  // Adding the edges again changes no node, keeps every edge and adds one
  // out of dest per edge of es.
  lemma {:induction false} AddOutsLinks(h: Graph, es: seq<Edge>, dest: NodeId)
    requires dest in h.data && forall e :: e in es ==> e.tgt in h.data
    ensures var r := AddOuts(h, es, dest);
            r.data == h.data && Includes(h.edges, r.edges) &&
            forall e :: e in es ==> Links(r.edges, dest, e.tgt, e.data)
    decreases |es|
  {
    if es != [] {
      var n := |es| - 1;
      var e := es[n];
      assert forall x :: x in es[..n] ==> x in es;
      AddOutsLinks(h, es[..n], dest);
      var h' := AddOuts(h, es[..n], dest);
      var r := AddEdge(h', dest, e.tgt, e.data);
      assert AddOuts(h, es, dest) == r;
      assert e in es;
      AddEdgeLinks(h', dest, e.tgt, e.data);
      forall x | x in es ensures Links(r.edges, dest, x.tgt, x.data) {
        if x != e {
          assert x in es[..n];
          var y :| y in h'.edges && y.src == dest && y.tgt == x.tgt && y.data == x.data;
          assert y in r.edges;
        }
      }
    }
  }

  // And nothing else.
  lemma {:induction false} AddOutsOnly(h: Graph, es: seq<Edge>, dest: NodeId)
    requires dest in h.data && forall e :: e in es ==> e.tgt in h.data
    ensures AddOuts(h, es, dest).data == h.data
    ensures forall x :: x in AddOuts(h, es, dest).edges ==>
              x in h.edges || exists e :: e in es && x.src == dest && x.tgt == e.tgt && x.data == e.data
    decreases |es|
  {
    if es != [] {
      var n := |es| - 1;
      var e := es[n];
      assert forall x :: x in es[..n] ==> x in es;
      AddOutsOnly(h, es[..n], dest);
      var h' := AddOuts(h, es[..n], dest);
      var r := AddEdge(h', dest, e.tgt, e.data);
      assert AddOuts(h, es, dest) == r;
      AddEdgeLinks(h', dest, e.tgt, e.data);
      forall x | x in r.edges ensures x in h.edges || exists f :: f in es && x.src == dest && x.tgt == f.tgt && x.data == f.data {
        if x !in h'.edges {
          assert e in es;
        } else if x !in h.edges {
          var f :| f in es[..n] && x.src == dest && x.tgt == f.tgt && x.data == f.data;
          assert f in es;
        }
      }
    }
  }

  // Gathering retypes dest and adds nodes only among g's.
  lemma GatheredData(g: Graph, src: NodeId, dest: NodeId, t: Value)
    requires Valid(g) && dest in g.data
    ensures Gathered(g, src, dest, t).data == g.data[dest := g.data[dest]["type" := t]]
  {
    var h1 := g.(data := g.data[dest := g.data[dest]["type" := t]]);
    var ins := InEdges(h1, src);
    var h := Redirect(h1, ins, dest);
    forall m | m in h.data ensures m in h1.data {
      if m in Sources(ins) {
        var i :| 0 <= i < |ins| && Sources(ins)[i] == m;
        assert ins[i] in g.edges;
      }
    }
  }

  // The edges of the gathered graph: g's, and each edge into src added
  // again into dest. When no edge into src comes from src or from dest,
  // the edges out of src and out of dest are those of g.
  lemma GatheredEdges(g: Graph, src: NodeId, dest: NodeId, t: Value)
    requires dest in g.data
    requires forall e :: e in g.edges && e.tgt == src ==> e.src != src && e.src != dest
    ensures var h := Gathered(g, src, dest, t);
            Includes(g.edges, h.edges) &&
            (forall e :: e in g.edges && e.tgt == src ==> Links(h.edges, e.src, dest, e.data)) &&
            (forall x :: x in h.edges ==>
               KeptOrInto(g.edges, x, src, dest) && (x in g.edges || x.tgt == dest) &&
               ((x.src == src || x.src == dest) ==> x in g.edges))
  {
    var h1 := g.(data := g.data[dest := g.data[dest]["type" := t]]);
    var ins := InEdges(h1, src);
    var h := Redirect(h1, ins, dest);
    RedirectAdds(h1, ins, dest);
    RedirectOnly(h1, ins, dest);
    forall x | x in h.edges ensures KeptOrInto(g.edges, x, src, dest) && (x in g.edges || x.tgt == dest) && (x.src == src || x.src == dest ==> x in g.edges) {
      if x !in g.edges {
        var e :| e in ins && x.src == e.src && x.tgt == dest && x.data == e.data;
        assert e in g.edges && e.tgt == src;
      }
    }
  }

  // No edge out of src in the gathered graph has an aspect among dest's.
  lemma NoNestedMerge(g: Graph, src: NodeId, dest: NodeId, t: Value, targets: map<Value, NodeId>)
    requires dest in g.data && !Collides(g, src, dest)
    requires forall e :: e in g.edges && e.tgt == src ==> e.src != src && e.src != dest
    requires AspectTargets(OutEdges(Gathered(g, src, dest, t), dest)) == Ok(targets)
    ensures forall e :: e in OutEdges(Gathered(g, src, dest, t), src) ==>
              e in g.edges && e.src == src && !(Truthy(Get(e.data, "aspect")) && Get(e.data, "aspect") in targets)
  {
    var h2 := Gathered(g, src, dest, t);
    GatheredEdges(g, src, dest, t);
    forall e | e in OutEdges(h2, src)
      ensures e in g.edges && e.src == src && !(Truthy(Get(e.data, "aspect")) && Get(e.data, "aspect") in targets)
    {
    }
  }

  // Removing src from the loop's result leaves the moved edges.
  lemma MovedKept(g: Graph, src: NodeId, dest: NodeId, h2: Graph, h3: Graph)
    requires src != dest && forall e :: e in g.edges && e.tgt == src ==> e.src != src
    requires Includes(g.edges, h2.edges) && Includes(h2.edges, h3.edges)
    requires forall e :: e in g.edges && e.tgt == src ==> Links(h2.edges, e.src, dest, e.data)
    requires forall e :: e in OutEdges(h2, src) ==> Links(h3.edges, dest, e.tgt, e.data)
    ensures Moved(g, src, dest, EdgesOutside(h3.edges, Members([src])))
  {
    var es := EdgesOutside(h3.edges, Members([src]));
    forall e | e in g.edges && e.tgt == src ensures Links(es, e.src, dest, e.data) {
      var x :| x in h2.edges && x.src == e.src && x.tgt == dest && x.data == e.data;
      assert x in es;
    }
    forall e | e in g.edges && e.src == src ensures Links(es, dest, e.tgt, e.data) {
      assert e in OutEdges(h2, src);
      var x :| x in h3.edges && x.src == dest && x.tgt == e.tgt && x.data == e.data;
      assert x in es;
    }
  }

  // And nothing else.
  lemma MovedOnly(g: Graph, src: NodeId, dest: NodeId, h2: Graph, h3: Graph)
    requires forall x :: x in h2.edges ==> KeptOrInto(g.edges, x, src, dest)
    requires forall x :: x in h3.edges ==> x in h2.edges || exists e :: e in OutEdges(h2, src) && x.src == dest && x.tgt == e.tgt && x.data == e.data
    requires forall e :: e in OutEdges(h2, src) ==> e in g.edges && e.src == src
    ensures OnlyMoved(g, src, dest, EdgesOutside(h3.edges, Members([src])))
  {
  }

  // r has g's nodes but src, with the same data except dest's type, which
  // is t.
  ghost predicate Retyped(g: Graph, r: Graph, src: NodeId, dest: NodeId, t: Value)
  {
    r.data.Keys == g.data.Keys - {src} && dest in g.data && dest in r.data &&
    r.data[dest] == g.data[dest]["type" := t] &&
    forall n :: n in r.data && n != dest ==> r.data[n] == g.data[n]
  }

  // The merge after its first steps, when nothing nests.
  lemma MovesAfterSteps(o: Olog, g: Graph, src: NodeId, dest: NodeId, guard: bool, fuel: nat,
                        t: Value, targets: map<Value, NodeId>, h3: Graph)
    requires Valid(g) && src != dest && src in g.data && dest in g.data && !Collides(g, src, dest)
    requires forall e :: e in g.edges && e.tgt == src ==> e.src != src && e.src != dest
    requires AspectTargets(OutEdges(Gathered(g, src, dest, t), dest)) == Ok(targets)
    requires MergeOuts(o, Gathered(g, src, dest, t), OutEdges(Gathered(g, src, dest, t), src), dest, targets, guard, fuel) == Ok(h3)
    ensures Retyped(g, RemoveNodes(h3, [src]), src, dest, t)
    ensures Moved(g, src, dest, RemoveNodes(h3, [src]).edges) && OnlyMoved(g, src, dest, RemoveNodes(h3, [src]).edges)
  {
    var h2 := Gathered(g, src, dest, t);
    GatheredData(g, src, dest, t);
    GatheredEdges(g, src, dest, t);
    NoNestedMerge(g, src, dest, t, targets);
    forall e | e in OutEdges(h2, src) ensures e.tgt in h2.data {
      assert e in g.edges;
    }
    MergeOutsHashable(o, h2, OutEdges(h2, src), dest, targets, guard, fuel);
    MergeOutsPlain(o, h2, OutEdges(h2, src), dest, targets, guard, fuel);
    AddOutsLinks(h2, OutEdges(h2, src), dest);
    AddOutsOnly(h2, OutEdges(h2, src), dest);
    RetypedAfter(g, h3, src, dest, t);
    MovedKept(g, src, dest, h2, h3);
    MovedOnly(g, src, dest, h2, h3);
  }

  lemma RetypedAfter(g: Graph, h3: Graph, src: NodeId, dest: NodeId, t: Value)
    requires src != dest && src in g.data && dest in g.data && h3.data == g.data[dest := g.data[dest]["type" := t]]
    ensures Retyped(g, RemoveNodes(h3, [src]), src, dest, t)
  {
  }

  // Merging src into dest when no aspect collides, no edge goes from src to
  // itself and none from dest to src: src is gone, dest takes the more
  // specific type and keeps its other data, every other node is as it was;
  // the edges not touching src stay, each edge into src now ends at dest,
  // each edge out of src now starts at dest, and there is no other edge.
  lemma MergeMoves(o: Olog, g: Graph, src: NodeId, dest: NodeId, guard: bool, fuel: nat)
    requires Valid(g) && src != dest && Merge(o, g, src, dest, guard, fuel).Ok?
    requires !Collides(g, src, dest)
    requires forall e :: e in g.edges && e.tgt == src ==> e.src != src && e.src != dest
    ensures src in g.data && dest in g.data && "type" in g.data[src] && "type" in g.data[dest]
    ensures Retyped(g, Merge(o, g, src, dest, guard, fuel).value, src, dest,
                    o.mostSpecific(g.data[src]["type"], g.data[dest]["type"]))
    ensures Moved(g, src, dest, Merge(o, g, src, dest, guard, fuel).value.edges)
    ensures OnlyMoved(g, src, dest, Merge(o, g, src, dest, guard, fuel).value.edges)
  {
    var t, h2, targets, h3 := MergeSteps(o, g, src, dest, guard, fuel);
    MovesAfterSteps(o, g, src, dest, guard, fuel, t, targets, h3);
  }

  // An edge out of src whose truthy aspect dest also has is not added again
  // out of dest: its target is merged into dest's target for that aspect
  // and is gone with all its edges; under the guard, a target that already
  // is dest's target for the aspect is left as it is and nothing changes.
  lemma MergeOutsCollision(o: Olog, h: Graph, es: seq<Edge>, e: Edge, dest: NodeId, targets: map<Value, NodeId>,
                           guard: bool, fuel: nat)
    requires Valid(h) && dest in h.data && forall x :: x in es ==> x.tgt in h.data
    requires MergeOuts(o, h, es + [e], dest, targets, guard, fuel).Ok?
    requires Truthy(Get(e.data, "aspect")) && Get(e.data, "aspect") in targets
    ensures MergeOuts(o, h, es, dest, targets, guard, fuel).Ok?
    ensures var before := MergeOuts(o, h, es, dest, targets, guard, fuel).value;
            var after := MergeOuts(o, h, es + [e], dest, targets, guard, fuel).value;
            var t := targets[Get(e.data, "aspect")];
            (guard && e.tgt == t ==> after == before) &&
            (!(guard && e.tgt == t) ==> e.tgt !in after.data && forall x :: x in after.edges ==> x.src != e.tgt && x.tgt != e.tgt)
  {
    assert (es + [e])[..|es|] == es;
    var h', inner := MergeOutsLast(o, h, es + [e], dest, targets, guard, fuel);
    MergeOutsSound(o, h, es, dest, targets, guard, fuel, h.data.Keys);
    MergeSound(o, h', e.tgt, targets[Get(e.data, "aspect")], guard, inner);
  }

  /* ---------------- Passes that only merge ---------------- */

  // A step that keeps graphs well formed and brings in no node.
  ghost predicate Shrinks<T(!new)>(step: (Graph, T) -> Result<Graph>)
  {
    forall h, x :: Valid(h) && step(h, x).Ok? ==>
      Valid(step(h, x).value) && step(h, x).value.data.Keys <= h.data.Keys && KeptButType(h, step(h, x).value)
  }

  lemma {:induction false} StepsShrink<T(!new)>(step: (Graph, T) -> Result<Graph>, g: Graph, xs: seq<T>)
    requires Shrinks(step) && Valid(g) && Steps(step, g, xs).Ok?
    ensures Valid(Steps(step, g, xs).value) && Steps(step, g, xs).value.data.Keys <= g.data.Keys
    ensures KeptButType(g, Steps(step, g, xs).value)
    decreases |xs|
  {
    if xs != [] {
      StepsShrink(step, g, xs[..|xs| - 1]);
      KeptButTypeTrans(g, Steps(step, g, xs[..|xs| - 1]).value, Steps(step, g, xs).value);
    }
  }

  /* ---------------- merge_duplicate_aspects ---------------- */

  // e binds aspect a as an input of its source action.
  predicate BindsInput(e: Edge, a: Value)
  {
    Truthy(a) && Get(e.data, "aspect") == a && Truthy(Get(e.data, "input"))
  }

  // e binds aspect a as an output: it is not an input and is an output.
  predicate BindsOutput(e: Edge, a: Value)
  {
    Truthy(a) && Get(e.data, "aspect") == a && !Truthy(Get(e.data, "input")) && Truthy(Get(e.data, "output"))
  }

  // Reading e's flags raises: a flag it has to read is missing, or the
  // aspect it has to store is not a key.
  predicate Unreadable(e: Edge)
  {
    var a := Get(e.data, "aspect");
    Truthy(a) &&
    ("input" !in e.data ||
     (Truthy(e.data["input"]) && !Hashable(a)) ||
     (!Truthy(e.data["input"]) && ("output" !in e.data || (Truthy(e.data["output"]) && !Hashable(a)))))
  }

  // The `inputs` and `outputs` dictionaries of an action (aspect to
  // entity), with the input aspects in the order they were first stored.
  datatype Sides = Sides(inputs: map<Value, NodeId>, outputs: map<Value, NodeId>, order: seq<Value>)

  // The loop that fills `inputs` and `outputs` from the action's
  // out-edges; the later edge for an aspect wins.
  function SidesOf(es: seq<Edge>): (r: Result<Sides>)
    ensures r.Ok? <==> forall e :: e in es ==> !Unreadable(e)
    ensures r.Ok? ==> forall a :: a in r.value.inputs <==> exists e :: e in es && BindsInput(e, a)
    ensures r.Ok? ==> forall a :: a in r.value.outputs <==> exists e :: e in es && BindsOutput(e, a)
    ensures r.Ok? ==> Distinct(r.value.order) && forall a :: a in r.value.order <==> a in r.value.inputs
  {
    if es == [] then Ok(Sides(map[], map[], []))
    else
      var n := |es| - 1;
      var e := es[n];
      assert forall x :: x in es <==> x in es[..n] || x == e;
      var init := SidesOf(es[..n]);
      if init.Err? then init
      else
        var s := init.value;
        var a := Get(e.data, "aspect");
        if !Truthy(a) then init
        else if "input" !in e.data then assert Unreadable(e); Err(KeyError)
        else if Truthy(e.data["input"]) then
          if !Hashable(a) then assert Unreadable(e); Err(TypeError)
          else
            assert BindsInput(e, a);
            Ok(s.(inputs := s.inputs[a := e.tgt], order := if a in s.inputs then s.order else s.order + [a]))
        else if "output" !in e.data then assert Unreadable(e); Err(KeyError)
        else if Truthy(e.data["output"]) then
          if !Hashable(a) then assert Unreadable(e); Err(TypeError)
          else
            assert BindsOutput(e, a);
            Ok(s.(outputs := s.outputs[a := e.tgt]))
        else init
  }

  // Each stored entity is the target of an edge binding its aspect.
  lemma {:induction false} SidesTargets(es: seq<Edge>)
    requires SidesOf(es).Ok?
    ensures var s := SidesOf(es).value;
            (forall a :: a in s.inputs ==> exists e :: e in es && BindsInput(e, a) && e.tgt == s.inputs[a]) &&
            (forall a :: a in s.outputs ==> exists e :: e in es && BindsOutput(e, a) && e.tgt == s.outputs[a])
  {
    if es != [] {
      var n := |es| - 1;
      SidesTargets(es[..n]);
      assert forall x :: x in es[..n] ==> x in es;
      var e := es[n];
      var a := Get(e.data, "aspect");
      if Truthy(a) && Truthy(e.data["input"]) {
        assert BindsInput(e, a);
      } else if Truthy(a) && Truthy(e.data["output"]) {
        assert BindsOutput(e, a);
      }
    }
  }

  // `set(inputs).intersection(outputs)`, taken in the order the inputs
  // were stored, as (input entity, output entity) pairs.
  function Pairs(s: Sides, order: seq<Value>): (r: seq<(NodeId, NodeId)>)
    requires forall a :: a in order ==> a in s.inputs
    ensures forall p :: p in r <==> exists a :: a in order && a in s.outputs && p == (s.inputs[a], s.outputs[a])
  {
    if order == [] then []
    else
      var a := order[|order| - 1];
      var init := Pairs(s, order[..|order| - 1]);
      assert forall b :: b in order <==> b in order[..|order| - 1] || b == a;
      if a in s.outputs then init + [(s.inputs[a], s.outputs[a])] else init
  }

  // One aspect bound both ways: when the input entity has a single
  // predecessor, the action's edge to it goes and it is merged into the
  // output entity.
  function DuplicateStep(o: Olog, action: NodeId, fuel: nat, h: Graph, p: (NodeId, NodeId)): Result<Graph>
  {
    if p.0 !in h.data then Err(GraphError)
    else if |Predecessors(h, p.0)| != 1 then Ok(h)
    else MergeInput(o, action, fuel, h, p.0, p.1)
  }

  // `remove_edge(action, x)` and then `merge(x, y)`.
  function MergeInput(o: Olog, action: NodeId, fuel: nat, h: Graph, x: NodeId, y: NodeId): Result<Graph>
  {
    var h' :- AnnotatedReify.RemoveNewest(h, action, x);
    Merge(o, h', x, y, true, fuel)
  }

  lemma MergeInputShrinks(o: Olog, action: NodeId, fuel: nat, h: Graph, x: NodeId, y: NodeId)
    requires Valid(h) && MergeInput(o, action, fuel, h, x, y).Ok?
    ensures Valid(MergeInput(o, action, fuel, h, x, y).value)
    ensures MergeInput(o, action, fuel, h, x, y).value.data.Keys <= h.data.Keys
    ensures KeptButType(h, MergeInput(o, action, fuel, h, x, y).value)
  {
    var h' := AnnotatedReify.RemoveNewest(h, action, x).value;
    NewestRemovedValid(h, action, x);
    assert MergeInput(o, action, fuel, h, x, y) == Merge(o, h', x, y, true, fuel);
    MergeSound(o, h', x, y, true, fuel);
    KeptButTypeTrans(h, h', Merge(o, h', x, y, true, fuel).value);
  }

  lemma NewestRemovedValid(h: Graph, u: NodeId, v: NodeId)
    requires Valid(h) && AnnotatedReify.RemoveNewest(h, u, v).Ok?
    ensures Valid(AnnotatedReify.RemoveNewest(h, u, v).value)
    ensures AnnotatedReify.RemoveNewest(h, u, v).value.data == h.data
  {
    var r := AnnotatedReify.RemoveNewest(h, u, v).value;
    var i :| 0 <= i < |h.edges| && r == DropEdge(h, i);
    DropEdgeValid(h, i);
  }

  lemma DropEdgeValid(h: Graph, i: nat)
    requires Valid(h) && i < |h.edges|
    ensures Valid(DropEdge(h, i)) && DropEdge(h, i).data == h.data
  {
    RemoveEdgeAtValid(h, i);
  }

  // The work for one action.
  function DuplicateAction(o: Olog, fuel: nat, h: Graph, action: NodeId): Result<Graph>
  {
    var s :- SidesOf(OutEdges(h, action));
    Steps((g, p) => DuplicateStep(o, action, fuel, g, p), h, Pairs(s, s.order))
  }

  // `merge_duplicate_aspects(graph)` over the actions acts.
  function DuplicateSpec(o: Olog, g: Graph, acts: seq<NodeId>, fuel: nat): Result<Graph>
  {
    Steps((h, a) => DuplicateAction(o, fuel, h, a), g, acts)
  }

  // In a directed graph, a step merges an input entity x into its output
  // entity only when the action is x's one predecessor, after dropping the
  // action's newest edge to x.
  lemma DuplicateStepGuard(o: Olog, action: NodeId, fuel: nat, h: Graph, x: NodeId, y: NodeId)
    requires h.directed && x in h.data && |Predecessors(h, x)| == 1
    requires AnnotatedReify.RemoveNewest(h, action, x).Ok?
    ensures Predecessors(h, x) == [action]
    ensures DuplicateStep(o, action, fuel, h, (x, y)) == MergeInput(o, action, fuel, h, x, y)
  {
    var e :| e in h.edges && Joins(h.directed, e, action, x);
    var ps := Predecessors(h, x);
    assert e.src == action && e.tgt == x;
    assert action in ps;
    assert ps[0] == action;
  }

  // When the action is x's one predecessor, the step drops the action's
  // newest edge to x and merges x into y: x is gone. When moreover no
  // aspect collides and no edge goes into x from x or y, y takes the more
  // specific type, and the edges left after the drop move from x to y
  // (`MergeMoves`).
  lemma DuplicateStepMerges(o: Olog, action: NodeId, fuel: nat, h: Graph, x: NodeId, y: NodeId)
    requires Valid(h) && x in h.data && x != y && Predecessors(h, x) == [action]
    requires DuplicateStep(o, action, fuel, h, (x, y)).Ok?
    ensures var r := DuplicateStep(o, action, fuel, h, (x, y)).value;
            AnnotatedReify.RemoveNewest(h, action, x).Ok? && x !in r.data && r.data.Keys <= h.data.Keys
    ensures var r := DuplicateStep(o, action, fuel, h, (x, y)).value;
            var dropped := AnnotatedReify.RemoveNewest(h, action, x).value;
            action != x && action != y && !Collides(h, x, y) ==>
              "type" in h.data[x] && "type" in h.data[y] &&
              Retyped(h, r, x, y, o.mostSpecific(h.data[x]["type"], h.data[y]["type"])) &&
              Moved(dropped, x, y, r.edges) && OnlyMoved(dropped, x, y, r.edges)
  {
    var h' := AnnotatedReify.RemoveNewest(h, action, x).value;
    NewestRemovedValid(h, action, x);
    assert DuplicateStep(o, action, fuel, h, (x, y)) == Merge(o, h', x, y, true, fuel);
    MergeSound(o, h', x, y, true, fuel);
    if action != x && action != y && !Collides(h, x, y) {
      DroppedMoves(o, action, fuel, h, h', x, y);
    }
  }

  lemma DroppedMoves(o: Olog, action: NodeId, fuel: nat, h: Graph, h': Graph, x: NodeId, y: NodeId)
    requires Valid(h) && Valid(h') && h'.data == h.data && x != y && action != x && action != y && !Collides(h, x, y)
    requires Predecessors(h, x) == [action] && Merge(o, h', x, y, true, fuel).Ok?
    requires exists i :: 0 <= i < |h.edges| && h' == DropEdge(h, i)
    ensures "type" in h.data[x] && "type" in h.data[y]
    ensures var r := Merge(o, h', x, y, true, fuel).value;
            Retyped(h, r, x, y, o.mostSpecific(h.data[x]["type"], h.data[y]["type"])) &&
            Moved(h', x, y, r.edges) && OnlyMoved(h', x, y, r.edges)
  {
    var i :| 0 <= i < |h.edges| && h' == DropEdge(h, i);
    AnnotatedReify.DropEdgeMembers(h, i);
    forall e | e in h'.edges && e.tgt == x ensures e.src != x && e.src != y {
      assert e.src in Predecessors(h, x);
    }
    MergeMoves(o, h', x, y, true, fuel);
  }

  lemma DuplicateStepShrinks(o: Olog, action: NodeId, fuel: nat)
    ensures Shrinks((g, p) => DuplicateStep(o, action, fuel, g, p))
  {
    forall h, p | Valid(h) && DuplicateStep(o, action, fuel, h, p).Ok?
      ensures Valid(DuplicateStep(o, action, fuel, h, p).value)
      ensures DuplicateStep(o, action, fuel, h, p).value.data.Keys <= h.data.Keys
      ensures KeptButType(h, DuplicateStep(o, action, fuel, h, p).value)
    {
      if |Predecessors(h, p.0)| == 1 {
        MergeInputShrinks(o, action, fuel, h, p.0, p.1);
      }
    }
  }

  lemma DuplicateActionShrinks(o: Olog, fuel: nat)
    ensures Shrinks((h, a) => DuplicateAction(o, fuel, h, a))
  {
    forall h, a | Valid(h) && DuplicateAction(o, fuel, h, a).Ok?
      ensures Valid(DuplicateAction(o, fuel, h, a).value)
      ensures DuplicateAction(o, fuel, h, a).value.data.Keys <= h.data.Keys
      ensures KeptButType(h, DuplicateAction(o, fuel, h, a).value)
    {
      var s := SidesOf(OutEdges(h, a)).value;
      DuplicateStepShrinks(o, a, fuel);
      StepsShrink((g, p) => DuplicateStep(o, a, fuel, g, p), h, Pairs(s, s.order));
    }
  }

  // `merge_duplicate_aspects` keeps the graph well formed and only takes
  // nodes away.
  lemma DuplicateSound(o: Olog, g: Graph, fuel: nat)
    requires Valid(g) && DuplicateSpec(o, g, FindNodes(g, IsActionNode), fuel).Ok?
    ensures var r := DuplicateSpec(o, g, FindNodes(g, IsActionNode), fuel).value;
            Valid(r) && r.data.Keys <= g.data.Keys && KeptButType(g, r)
  {
    DuplicateActionShrinks(o, fuel);
    StepsShrink((h, a) => DuplicateAction(o, fuel, h, a), g, FindNodes(g, IsActionNode));
  }

  // `merge_duplicate_aspects(graph)`: the actions are those present before
  // the pass.
  method MergeDuplicateAspects(o: Olog, g: Graph, fuel: nat) returns (r: Result<Graph>)
    requires Valid(g)
    ensures r == DuplicateSpec(o, g, FindNodes(g, IsActionNode), fuel)
  {
    var acts := FindNodes(g, IsActionNode);
    var step := (h, a) => DuplicateAction(o, fuel, h, a);
    var h := g;
    for i := 0 to |acts|
      invariant Steps(step, g, acts[..i]) == Ok(h)
    {
      StepsNext(step, g, acts, i);
      r := MergeDuplicatesOfAction(o, h, acts[i], fuel);
      if r.Err? {
        StepsStop(step, g, acts, i + 1);
        return;
      }
      h := r.value;
    }
    assert acts[..|acts|] == acts;
    return Ok(h);
  }

  // The two loops for one action: its out-edges fill `inputs` and
  // `outputs`, then each aspect found on both sides is tried in turn.
  method MergeDuplicatesOfAction(o: Olog, g: Graph, action: NodeId, fuel: nat) returns (r: Result<Graph>)
    ensures r == DuplicateAction(o, fuel, g, action)
  {
    var sides := SidesOf(OutEdges(g, action));
    if sides.Err? {
      return Err(sides.error);
    }
    var pairs := Pairs(sides.value, sides.value.order);
    var step := (h, p) => DuplicateStep(o, action, fuel, h, p);
    var h := g;
    for j := 0 to |pairs|
      invariant Steps(step, g, pairs[..j]) == Ok(h)
    {
      StepsNext(step, g, pairs, j);
      var (x, y) := pairs[j];
      if x !in h.data {
        StepsStop(step, g, pairs, j + 1);
        return Err(GraphError);
      }
      if |Predecessors(h, x)| == 1 {
        r := MergeInput(o, action, fuel, h, x, y);
        if r.Err? {
          StepsStop(step, g, pairs, j + 1);
          return;
        }
        h := r.value;
      }
    }
    assert pairs[..|pairs|] == pairs;
    return Ok(h);
  }

  /* ---------------- merge_unknown_aspects ---------------- */

  // The search of `merge_unknown_input_output`: forward along edges that
  // carry an aspect, leaving the action only by edges marked as kind.
  function UnknownSearch(action: NodeId, kind: string): Options
  {
    Options(false, false, (n: NodeId) => true, (e: Edge) => !(e.src == action && !Truthy(Get(e.data, kind))) && Get(e.data, "aspect") != VNone)
  }

  // The position of the first node of ns whose `id` is id.
  function FirstWithId(g: Graph, ns: seq<NodeId>, id: Value): (r: Option<nat>)
    requires forall n :: n in ns ==> n in g.data
    ensures r.Some? ==> r.value < |ns| && Get(g.data[ns[r.value]], "id") == id
    ensures r.Some? ==> forall k :: 0 <= k < r.value ==> Get(g.data[ns[k]], "id") != id
    ensures r.None? ==> forall k :: 0 <= k < |ns| ==> Get(g.data[ns[k]], "id") != id
  {
    if ns == [] then None
    else if Get(g.data[ns[0]], "id") == id then Some(0)
    else
      var rest := FirstWithId(g, ns[1..], id);
      if rest.None? then None else Some(rest.value + 1)
  }

  // What follows the search, given the order in which it visits nodes:
  // the action's edges raise KeyError when one lacks the kind flag and the
  // action is not itself the match; otherwise the first node with the
  // entity's id, if any, absorbs the entity after the action's edge to it
  // is dropped.
  function UnknownFound(o: Olog, g: Graph, action: NodeId, entity: NodeId, kind: string, order: seq<NodeId>, fuel: nat): Result<Graph>
    requires entity in g.data && action in g.data && forall n :: n in order ==> n in g.data
  {
    var id := Get(g.data[entity], "id");
    if Get(g.data[action], "id") != id && exists e :: e in OutEdges(g, action) && kind !in e.data then Err(KeyError)
    else
      var k := FirstWithId(g, order, id);
      if k.None? then Ok(g) else MergeInput(o, action, fuel, g, entity, order[k.value])
  }

  lemma UnknownFoundShrinks(o: Olog, g: Graph, action: NodeId, entity: NodeId, kind: string, order: seq<NodeId>, fuel: nat)
    requires Valid(g) && entity in g.data && action in g.data && forall n :: n in order ==> n in g.data
    requires UnknownFound(o, g, action, entity, kind, order, fuel).Ok?
    ensures Valid(UnknownFound(o, g, action, entity, kind, order, fuel).value)
    ensures UnknownFound(o, g, action, entity, kind, order, fuel).value.data.Keys <= g.data.Keys
    ensures KeptButType(g, UnknownFound(o, g, action, entity, kind, order, fuel).value)
  {
    var k := FirstWithId(g, order, Get(g.data[entity], "id"));
    if k.Some? {
      MergeInputShrinks(o, action, fuel, g, entity, order[k.value]);
    }
  }

  // When the search meets a node with the entity's id, the entity is merged
  // into the first such node: unless that node is the entity itself, the
  // entity is gone. When it meets none, the graph is unchanged unless the
  // action's edges cannot be read.
  lemma UnknownFoundMerges(o: Olog, g: Graph, action: NodeId, entity: NodeId, kind: string, order: seq<NodeId>, fuel: nat)
    requires Valid(g) && entity in g.data && action in g.data && forall n :: n in order ==> n in g.data
    ensures var k := FirstWithId(g, order, Get(g.data[entity], "id"));
            var r := UnknownFound(o, g, action, entity, kind, order, fuel);
            (k.None? ==> r == Ok(g) || r == Err(KeyError)) &&
            (r.Ok? && k.Some? && order[k.value] != entity ==>
               entity !in r.value.data && AnnotatedReify.RemoveNewest(g, action, entity).Ok? &&
               r == Merge(o, AnnotatedReify.RemoveNewest(g, action, entity).value, entity, order[k.value], true, fuel))
  {
    var k := FirstWithId(g, order, Get(g.data[entity], "id"));
    var r := UnknownFound(o, g, action, entity, kind, order, fuel);
    if r.Ok? && k.Some? && order[k.value] != entity {
      var h' := AnnotatedReify.RemoveNewest(g, action, entity).value;
      NewestRemovedValid(g, action, entity);
      MergeSound(o, h', entity, order[k.value], true, fuel);
    }
  }

  // `merge_unknown_input_output(graph, action, entity, kind)`. order and
  // parent are the breadth-first visit order of the search from the action
  // and the position of the node each visited node was reached from.
  method MergeUnknownInputOutput(o: Olog, g: Graph, action: NodeId, entity: NodeId, kind: string, fuel: nat)
    returns (r: Result<Graph>, ghost order: seq<NodeId>, ghost parent: seq<nat>)
    requires Valid(g)
    ensures entity !in g.data ==> r == Err(KeyError)
    ensures entity in g.data && !Truthy(Get(g.data[entity], "id")) ==> r == Ok(g)
    ensures entity in g.data && Truthy(Get(g.data[entity], "id")) && action !in g.data ==> r == Err(KeyError)
    ensures entity in g.data && Truthy(Get(g.data[entity], "id")) && action in g.data ==>
              Discovery(g, UnknownSearch(action, kind), action, order, parent) &&
              Earliest(g, UnknownSearch(action, kind), order, parent) &&
              Closed(g, UnknownSearch(action, kind), order) &&
              r == UnknownFound(o, g, action, entity, kind, order, fuel)
    ensures r.Ok? ==> Valid(r.value) && r.value.data.Keys <= g.data.Keys && KeptButType(g, r.value)
  {
    order, parent := [], [];
    if entity !in g.data {
      return Err(KeyError), order, parent;
    }
    var id := Get(g.data[entity], "id");
    if !Truthy(id) {
      return Ok(g), order, parent;
    }
    if action !in g.data {
      return Err(KeyError), order, parent;
    }
    var visited, edges;
    visited, edges, parent := Bfs(g, action, UnknownSearch(action, kind));
    order := visited;
    r := UnknownFound(o, g, action, entity, kind, visited, fuel);
    if r.Ok? {
      UnknownFoundShrinks(o, g, action, entity, kind, visited, fuel);
    }
  }

  // Every edge out of an action names an aspect.
  ghost predicate AspectsKnown(g: Graph)
  {
    forall e :: e in g.edges && e.src in g.data && IsActionNode(g.data[e.src]) ==> "aspect" in e.data
  }

  // Every node has a root type, so `n['root_type']` can be read on each.
  predicate RootTyped(g: Graph)
  {
    forall n :: n in g.data ==> "root_type" in g.data[n]
  }

  // `merge_unknown_aspects(graph)`: each edge out of an action that names
  // no aspect sends its target to `merge_unknown_input_output` as an input
  // or an output. The actions are those present before the pass; listing
  // them reads `n['root_type']` on every node, which raises KeyError on a
  // node without one.
  method MergeUnknownAspects(o: Olog, g: Graph, fuel: nat) returns (r: Result<Graph>)
    requires Valid(g)
    ensures r.Ok? ==> Valid(r.value) && r.value.data.Keys <= g.data.Keys && KeptButType(g, r.value)
    ensures !RootTyped(g) ==> r == Err(KeyError)
    ensures RootTyped(g) && AspectsKnown(g) ==> r == Ok(g)
  {
    if !RootTyped(g) {
      return Err(KeyError);
    }
    var acts := FindNodes(g, IsActionNode);
    var h := g;
    for i := 0 to |acts|
      invariant Valid(h) && h.data.Keys <= g.data.Keys && KeptButType(g, h)
      invariant AspectsKnown(g) ==> h == g
    {
      assert acts[i] in acts;
      r := MergeUnknownOfAction(o, h, acts[i], fuel);
      if r.Err? {
        return;
      }
      KeptButTypeTrans(g, h, r.value);
      h := r.value;
    }
    return Ok(h);
  }

  // The inner loop of `merge_unknown_aspects` over the out-edges the action
  // has when the loop reaches it.
  method MergeUnknownOfAction(o: Olog, g: Graph, action: NodeId, fuel: nat) returns (r: Result<Graph>)
    requires Valid(g)
    ensures r.Ok? ==> Valid(r.value) && r.value.data.Keys <= g.data.Keys && KeptButType(g, r.value)
    ensures (forall e :: e in OutEdges(g, action) ==> "aspect" in e.data) ==> r == Ok(g)
  {
    var es := OutEdges(g, action);
    var h := g;
    for j := 0 to |es|
      invariant Valid(h) && h.data.Keys <= g.data.Keys && KeptButType(g, h)
      invariant (forall e :: e in es ==> "aspect" in e.data) ==> h == g
    {
      var e := es[j];
      if "aspect" !in e.data {
        if "input" !in e.data {
          return Err(KeyError);
        }
        var kind := "";
        if Truthy(e.data["input"]) {
          kind := "input";
        } else if "output" !in e.data {
          return Err(KeyError);
        } else if Truthy(e.data["output"]) {
          kind := "output";
        }
        if kind != "" {
          var next, order, parent := MergeUnknownInputOutput(o, h, action, e.tgt, kind, fuel);
          if next.Err? {
            return next;
          }
          KeptButTypeTrans(g, h, next.value);
          h := next.value;
        }
      }
    }
    return Ok(h);
  }

  /* ---------------- A child shared under one aspect ---------------- */

  // An ontology that knows every type name and keeps the first of two.
  const Plain: Olog := Olog(t => true, t => map[], (a, b) => a, v => None)

  const TypeT: Attrs := map["type" := VStr("T")]
  const AspectA: Attrs := map["aspect" := VStr("a")]

  // s and d each have the child t under the aspect "a".
  function Shared(s: NodeId, d: NodeId, t: NodeId): Graph
  {
    Graph(true, map[], [s, d, t], map[s := TypeT, d := TypeT, t := TypeT],
          [Edge(s, t, 0, AspectA), Edge(d, t, 0, AspectA)])
  }

  lemma EdgesIntoTwo(a: Edge, b: Edge, n: NodeId)
    ensures EdgesInto([a, b], n) == (if a.tgt == n then [a] else []) + (if b.tgt == n then [b] else [])
  {
    assert [a, b][..1] == [a] && [a][..0] == [];
  }

  lemma EdgesFromTwo(a: Edge, b: Edge, n: NodeId)
    ensures EdgesFrom([a, b], n) == (if a.src == n then [a] else []) + (if b.src == n then [b] else [])
  {
    assert [a, b][..1] == [a] && [a][..0] == [];
  }

  lemma AspectTargetsOne(e: Edge, a: Value)
    requires e.data == map["aspect" := a] && Hashable(a)
    ensures AspectTargets([e]) == Ok(map[a := e.tgt])
  {
    assert [e][..0] == [];
  }

  // A merge that gets through its steps ends with the removal of src.
  lemma MergeUnfold(o: Olog, g: Graph, src: NodeId, dest: NodeId, guard: bool, fuel: nat,
                    t: Value, targets: map<Value, NodeId>, h3: Graph)
    requires !(guard && src == dest) && src in g.data && dest in g.data && "type" in g.data[src] && "type" in g.data[dest]
    requires MergedType(o, g.data[src]["type"], g.data[dest]["type"]) == Ok(t)
    requires AspectTargets(OutEdges(Gathered(g, src, dest, t), dest)) == Ok(targets)
    requires MergeOuts(o, Gathered(g, src, dest, t), OutEdges(Gathered(g, src, dest, t), src), dest, targets, guard, fuel) == Ok(h3)
    ensures Merge(o, g, src, dest, guard, fuel) == RemoveNode(h3, src)
  {
  }

  // The loop over one edge whose aspect dest also has.
  lemma MergeOutsNested(o: Olog, h: Graph, e: Edge, dest: NodeId, targets: map<Value, NodeId>, guard: bool, fuel: nat)
    requires Truthy(Get(e.data, "aspect")) && Hashable(Get(e.data, "aspect")) && Get(e.data, "aspect") in targets && fuel > 0
    ensures MergeOuts(o, h, [e], dest, targets, guard, fuel) == Merge(o, h, e.tgt, targets[Get(e.data, "aspect")], guard, fuel - 1)
  {
    assert [e][..0] == [];
  }

  // The first step of merging s into d: d keeps its type and nothing goes
  // into s; d's aspect "a" leads to t, and the one edge out of s is s -> t.
  lemma SharedFirstStep(s: NodeId, d: NodeId, t: NodeId)
    requires s != d && d != t && s != t
    ensures Gathered(Shared(s, d, t), s, d, VStr("T")) == Shared(s, d, t)
    ensures AspectTargets(OutEdges(Shared(s, d, t), d)) == Ok(map[VStr("a") := t])
    ensures OutEdges(Shared(s, d, t), s) == [Edge(s, t, 0, AspectA)]
  {
    var g := Shared(s, d, t);
    assert g.(data := g.data[d := g.data[d]["type" := VStr("T")]]) == g by {
      assert g.data[d]["type" := VStr("T")] == TypeT;
    }
    EdgesIntoTwo(g.edges[0], g.edges[1], s);
    EdgesFromTwo(g.edges[0], g.edges[1], d);
    EdgesFromTwo(g.edges[0], g.edges[1], s);
    AspectTargetsOne(g.edges[1], VStr("a"));
  }

  // As written, merging s into d merges t into itself, and that removes t:
  // d loses its child.
  lemma SharedChildLost(s: NodeId, d: NodeId, t: NodeId)
    requires s != d && d != t && s != t
    ensures Merge(Plain, Shared(s, d, t), s, d, false, 1).Ok?
    ensures d in Merge(Plain, Shared(s, d, t), s, d, false, 1).value.data
    ensures t !in Merge(Plain, Shared(s, d, t), s, d, false, 1).value.data
  {
    SharedFirstStep(s, d, t);
    var g := Shared(s, d, t);
    var e := Edge(s, t, 0, AspectA);
    var targets := map[VStr("a") := t];
    PlainMergedType(g.data[s]["type"], g.data[d]["type"]);
    MergeOutsNested(Plain, g, e, d, targets, false, 1);
    SelfMergeOk(s, d, t);
    var h := Merge(Plain, g, t, t, false, 0).value;
    assert MergeOuts(Plain, g, OutEdges(g, s), d, targets, false, 1) == Ok(h);
    MergeUnfold(Plain, g, s, d, false, 1, VStr("T"), targets, h);
  }

  lemma PlainMergedType(a: Value, b: Value)
    ensures MergedType(Plain, a, b) == Ok(a)
  {
  }

  lemma {:induction false} EdgesFromNone(es: seq<Edge>, n: NodeId)
    requires forall e :: e in es ==> e.src != n
    ensures EdgesFrom(es, n) == []
  {
    if es != [] {
      assert es[|es| - 1] in es;
      assert forall e :: e in es[..|es| - 1] ==> e in es;
      EdgesFromNone(es[..|es| - 1], n);
    }
  }

  // Redirecting edges that do not leave n adds no edge out of n.
  lemma {:induction false} RedirectNotFrom(h: Graph, es: seq<Edge>, dest: NodeId, n: NodeId)
    requires forall e :: e in h.edges ==> e.src != n
    requires forall e :: e in es ==> e.src != n
    ensures forall e :: e in Redirect(h, es, dest).edges ==> e.src != n
    decreases |es|
  {
    if es != [] {
      assert forall e :: e in es[..|es| - 1] ==> e in es;
      RedirectNotFrom(h, es[..|es| - 1], dest, n);
    }
  }

  // Merging t into itself first adds both edges into t again; nothing
  // leaves t.
  lemma SelfGathered(s: NodeId, d: NodeId, t: NodeId)
    requires s != d && d != t && s != t
    ensures var h2 := Gathered(Shared(s, d, t), t, t, VStr("T"));
            s in h2.data && d in h2.data && t in h2.data && "type" in h2.data[t] &&
            forall e :: e in h2.edges ==> e.src != t
  {
    var g := Shared(s, d, t);
    var h1 := g.(data := g.data[t := g.data[t]["type" := VStr("T")]]);
    assert h1.edges == [Edge(s, t, 0, AspectA), Edge(d, t, 0, AspectA)];
    EdgesIntoTwo(h1.edges[0], h1.edges[1], t);
    var es := InEdges(h1, t);
    assert es == h1.edges;
    RedirectNotFrom(h1, es, t, t);
  }

  // Merging t into itself goes through and keeps s and d.
  lemma SelfMergeOk(s: NodeId, d: NodeId, t: NodeId)
    requires s != d && d != t && s != t
    ensures Merge(Plain, Shared(s, d, t), t, t, false, 0).Ok?
    ensures var h := Merge(Plain, Shared(s, d, t), t, t, false, 0).value;
            s in h.data && d in h.data && t !in h.data
  {
    var g := Shared(s, d, t);
    var h2 := Gathered(g, t, t, VStr("T"));
    SelfGathered(s, d, t);
    EdgesFromNone(h2.edges, t);
    assert AspectTargets([]) == Ok(map[]);
    assert MergeOuts(Plain, h2, [], t, map[], false, 0) == Ok(h2);
    MergeUnfold(Plain, g, t, t, false, 0, VStr("T"), map[], h2);
  }

  // With the guard, merging s into d keeps t and d's edge to it.
  lemma SharedChildKept(s: NodeId, d: NodeId, t: NodeId)
    requires s != d && d != t && s != t
    ensures Merge(Plain, Shared(s, d, t), s, d, true, 1).Ok?
    ensures var r := Merge(Plain, Shared(s, d, t), s, d, true, 1).value;
            d in r.data && t in r.data && s !in r.data && Edge(d, t, 0, AspectA) in r.edges
  {
    SharedFirstStep(s, d, t);
    var g := Shared(s, d, t);
    var e := Edge(s, t, 0, AspectA);
    MergeOutsNested(Plain, g, e, d, map[VStr("a") := t], true, 1);
    MergeUnfold(Plain, g, s, d, true, 1, VStr("T"), map[VStr("a") := t], g);
    assert Edge(d, t, 0, AspectA) in EdgesOutside(g.edges, Members([s])) by {
      assert g.edges[1] == Edge(d, t, 0, AspectA);
    }
  }

  const AspectB: Attrs := map["aspect" := VStr("b")]

  // d has the child c under "a" and the child x under "b"; s has the child
  // c under "b".
  function Absorbing(s: NodeId, d: NodeId, c: NodeId, x: NodeId): Graph
  {
    Graph(true, map[], [s, d, c, x], map[s := TypeT, d := TypeT, c := TypeT, x := TypeT],
          [Edge(s, c, 0, AspectB), Edge(d, c, 0, AspectA), Edge(d, x, 0, AspectB)])
  }

  lemma EdgesFromThree(a: Edge, b: Edge, c: Edge, n: NodeId)
    ensures EdgesFrom([a, b, c], n) == (if a.src == n then [a] else []) + (if b.src == n then [b] else []) + (if c.src == n then [c] else [])
  {
    assert [a, b, c][..2] == [a, b];
    EdgesFromTwo(a, b, n);
  }

  lemma EdgesIntoThree(a: Edge, b: Edge, c: Edge, n: NodeId)
    ensures EdgesInto([a, b, c], n) == (if a.tgt == n then [a] else []) + (if b.tgt == n then [b] else []) + (if c.tgt == n then [c] else [])
  {
    assert [a, b, c][..2] == [a, b];
    EdgesIntoTwo(a, b, n);
  }

  lemma AspectTargetsTwo(e: Edge, f: Edge, a: Value, b: Value)
    requires e.data == map["aspect" := a] && f.data == map["aspect" := b] && Hashable(a) && Hashable(b)
    ensures AspectTargets([e, f]) == Ok(map[a := e.tgt][b := f.tgt])
  {
    assert [e, f][..1] == [e];
    AspectTargetsOne(e, a);
  }

  // The first step of merging s into d: nothing goes into s, d's aspects
  // lead to c and x, and the one edge out of s is s -> c under "b".
  lemma AbsorbingFirstStep(s: NodeId, d: NodeId, c: NodeId, x: NodeId)
    requires s != d && s != c && s != x && d != c && d != x && c != x
    ensures Gathered(Absorbing(s, d, c, x), s, d, VStr("T")) == Absorbing(s, d, c, x)
    ensures AspectTargets(OutEdges(Absorbing(s, d, c, x), d)) == Ok(map[VStr("a") := c][VStr("b") := x])
    ensures OutEdges(Absorbing(s, d, c, x), s) == [Edge(s, c, 0, AspectB)]
  {
    var g := Absorbing(s, d, c, x);
    AbsorbingRetype(s, d, c, x, d);
    AbsorbingInto(s, d, c, x, s);
    AbsorbingFrom(s, d, c, x);
  }

  lemma AbsorbingRetype(s: NodeId, d: NodeId, c: NodeId, x: NodeId, n: NodeId)
    requires n in Absorbing(s, d, c, x).data
    ensures var g := Absorbing(s, d, c, x); g.(data := g.data[n := g.data[n]["type" := VStr("T")]]) == g
  {
    var g := Absorbing(s, d, c, x);
    assert g.data[n]["type" := VStr("T")] == TypeT;
  }

  lemma AbsorbingInto(s: NodeId, d: NodeId, c: NodeId, x: NodeId, n: NodeId)
    requires s != d && s != c && s != x && d != c && d != x && c != x
    ensures InEdges(Absorbing(s, d, c, x), n) ==
              (if n == c then [Edge(s, c, 0, AspectB), Edge(d, c, 0, AspectA)] else []) + (if n == x then [Edge(d, x, 0, AspectB)] else [])
  {
    var g := Absorbing(s, d, c, x);
    EdgesIntoThree(g.edges[0], g.edges[1], g.edges[2], n);
  }

  lemma AbsorbingFrom(s: NodeId, d: NodeId, c: NodeId, x: NodeId)
    requires s != d && s != c && s != x && d != c && d != x && c != x
    ensures AspectTargets(OutEdges(Absorbing(s, d, c, x), d)) == Ok(map[VStr("a") := c][VStr("b") := x])
    ensures OutEdges(Absorbing(s, d, c, x), s) == [Edge(s, c, 0, AspectB)]
  {
    var g := Absorbing(s, d, c, x);
    EdgesFromThree(g.edges[0], g.edges[1], g.edges[2], d);
    EdgesFromThree(g.edges[0], g.edges[1], g.edges[2], s);
    AspectTargetsTwo(g.edges[1], g.edges[2], VStr("a"), VStr("b"));
  }

  // A merge of two nodes neither of which has an edge out: src's in-edges
  // are gathered into dest and src is removed.
  lemma MergeLeaf(o: Olog, g: Graph, src: NodeId, dest: NodeId, guard: bool, fuel: nat, t: Value)
    requires src != dest && src in g.data && dest in g.data && "type" in g.data[src] && "type" in g.data[dest]
    requires MergedType(o, g.data[src]["type"], g.data[dest]["type"]) == Ok(t)
    requires forall e :: e in g.edges ==> e.src != src && e.src != dest
    ensures Merge(o, g, src, dest, guard, fuel) == RemoveNode(Gathered(g, src, dest, t), src)
    ensures Merge(o, g, src, dest, guard, fuel).Ok?
    ensures var r := Merge(o, g, src, dest, guard, fuel).value;
            src !in r.data && forall m :: m in g.data && m != src ==> m in r.data
  {
    var h2 := Gathered(g, src, dest, t);
    LeafGathered(g, src, dest, t);
    assert AspectTargets([]) == Ok(map[]);
    MergeUnfold(o, g, src, dest, guard, fuel, t, map[], h2);
  }

  lemma LeafGathered(g: Graph, src: NodeId, dest: NodeId, t: Value)
    requires dest in g.data && forall e :: e in g.edges ==> e.src != src && e.src != dest
    ensures var h2 := Gathered(g, src, dest, t);
            OutEdges(h2, dest) == [] && OutEdges(h2, src) == [] && forall m :: m in g.data ==> m in h2.data
  {
    var h1 := g.(data := g.data[dest := g.data[dest]["type" := t]]);
    var es := InEdges(h1, src);
    var h2 := Redirect(h1, es, dest);
    RedirectNotFrom(h1, es, dest, dest);
    RedirectNotFrom(h1, es, dest, src);
    EdgesFromNone(h2.edges, dest);
    EdgesFromNone(h2.edges, src);
  }

  // Merging c into x goes through, removes c and keeps s.
  lemma AbsorbingNested(s: NodeId, d: NodeId, c: NodeId, x: NodeId)
    requires s != d && s != c && s != x && d != c && d != x && c != x
    ensures Merge(Plain, Absorbing(s, d, c, x), c, x, true, 0).Ok?
    ensures var h := Merge(Plain, Absorbing(s, d, c, x), c, x, true, 0).value;
            s in h.data && c !in h.data
  {
    var g := Absorbing(s, d, c, x);
    AbsorbingSources(s, d, c, x);
    PlainMergedType(g.data[c]["type"], g.data[x]["type"]);
    MergeLeaf(Plain, g, c, x, true, 0, VStr("T"));
  }

  lemma AbsorbingSources(s: NodeId, d: NodeId, c: NodeId, x: NodeId)
    ensures forall e :: e in Absorbing(s, d, c, x).edges ==> e.src == s || e.src == d
  {
  }

  // Even with the guard, merging s into d removes c, a child of d: the edge
  // s -> c shares the aspect "b" with d -> x, so c is merged into x.
  lemma ChildOfDestAbsorbed(s: NodeId, d: NodeId, c: NodeId, x: NodeId)
    requires s != d && s != c && s != x && d != c && d != x && c != x
    ensures Edge(d, c, 0, AspectA) in Absorbing(s, d, c, x).edges
    ensures Merge(Plain, Absorbing(s, d, c, x), s, d, true, 1).Ok?
    ensures c !in Merge(Plain, Absorbing(s, d, c, x), s, d, true, 1).value.data
  {
    AbsorbingFirstStep(s, d, c, x);
    var g := Absorbing(s, d, c, x);
    var e := Edge(s, c, 0, AspectB);
    var targets := map[VStr("a") := c][VStr("b") := x];
    PlainMergedType(g.data[s]["type"], g.data[d]["type"]);
    MergeOutsNested(Plain, g, e, d, targets, true, 1);
    AbsorbingNested(s, d, c, x);
    var h := Merge(Plain, g, c, x, true, 0).value;
    assert MergeOuts(Plain, g, OutEdges(g, s), d, targets, true, 1) == Ok(h);
    MergeUnfold(Plain, g, s, d, true, 1, VStr("T"), targets, h);
  }
}
