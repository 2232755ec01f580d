/* What the guard of the collapsing pass means: merging two unannotated
   actions that `can_collapse` allows, with the guard asked of the
   transitive closure of the graph being collapsed, neither creates nor
   destroys a path between two annotated nodes. The pass as written asks
   the guard of a closure that it collapses along with the graph instead of
   recomputing it, and that closure goes stale; a corrected pass recomputes
   it before every merge. */
module AnnotatedReach {
  import opened Base
  import opened Graphs
  import opened GraphOperations
  import opened GraphReach
  import opened AnnotatedGraphs
  import opened AnnotatedCollapse

  /* ---------------- Edges of a collapsed graph ---------------- */

  lemma {:induction false} ReroutedFrom(es: seq<Edge>, S: set<NodeId>, n: NodeId, incoming: bool, t: (NodeId, NodeId, Attrs))
    requires t in Rerouted(es, S, n, incoming)
    ensures exists e :: e in es && Far(e, incoming) !in S && t == Reattach(e, n, incoming)
    decreases |es|
  {
    var e := es[|es| - 1];
    if t in Rerouted(es[..|es| - 1], S, n, incoming) {
      ReroutedFrom(es[..|es| - 1], S, n, incoming, t);
      var f :| f in es[..|es| - 1] && Far(f, incoming) !in S && t == Reattach(f, n, incoming);
      assert f in es;
    } else {
      assert Far(e, incoming) !in S && t == Reattach(e, n, incoming);
    }
  }

  lemma {:induction false} ReroutedHas(es: seq<Edge>, S: set<NodeId>, n: NodeId, incoming: bool, e: Edge)
    requires e in es && Far(e, incoming) !in S
    ensures Reattach(e, n, incoming) in Rerouted(es, S, n, incoming)
    decreases |es|
  {
    if e != es[|es| - 1] {
      assert e in es[..|es| - 1];
      ReroutedHas(es[..|es| - 1], S, n, incoming, e);
    }
  }

  // Some edge of g joins x to a node of sub.
  ghost predicate EntersSub(g: Graph, sub: seq<NodeId>, x: NodeId)
  {
    exists q :: q in sub && HasEdge(g, x, q)
  }

  // Some edge of g joins a node of sub to x.
  ghost predicate LeavesSub(g: Graph, sub: seq<NodeId>, x: NodeId)
  {
    exists q :: q in sub && HasEdge(g, q, x)
  }

  // The edges of a collapsed graph: those of g away from the subgraph,
  // then the re-routed ones.
  ghost predicate Rebuilt(g: Graph, sub: seq<NodeId>, n: NodeId, h: Graph)
  {
    var kept := EdgesOutside(g.edges, Members(sub));
    h.directed == g.directed && |h.edges| >= |kept| && h.edges[..|kept|] == kept &&
    Triples(h.edges[|kept|..]) == CollapsedEdges(g, sub, n)
  }

  lemma CollapsedRebuilt(g: Graph, sub: seq<NodeId>, n: NodeId, h: Graph)
    requires Collapsed(g, sub, n, h)
    ensures Rebuilt(g, sub, n, h)
  {
  }

  // A collapsed triple is a re-routed edge that entered or left the
  // subgraph.
  lemma AddedEdge(g: Graph, sub: seq<NodeId>, n: NodeId, t: (NodeId, NodeId, Attrs))
    requires g.directed && EndPointsAreNodes(g.edges, g.data)
    requires t in CollapsedEdges(g, sub, n)
    ensures (t.0 !in sub && t.0 in g.data && t.1 == n && EntersSub(g, sub, t.0)) ||
            (t.0 == n && t.1 !in sub && t.1 in g.data && LeavesSub(g, sub, t.1))
  {
    var S := Members(sub);
    var ins := EdgesAt(g.edges, sub, true);
    var outs := EdgesAt(g.edges, sub, false);
    if t in Rerouted(ins, S, n, true) {
      ReroutedFrom(ins, S, n, true, t);
      var e :| e in ins && Far(e, true) !in S && t == Reattach(e, n, true);
      assert e.tgt in sub && HasEdge(g, t.0, e.tgt);
    } else {
      ReroutedFrom(outs, S, n, false, t);
      var e :| e in outs && Far(e, false) !in S && t == Reattach(e, n, false);
      assert e.src in sub && HasEdge(g, e.src, t.1);
    }
  }

  // Soundness of the edges of a collapsed graph: each is an edge of g away
  // from the subgraph, or the new node stands for the subgraph at one end.
  lemma CollapsedStep(g: Graph, sub: seq<NodeId>, n: NodeId, h: Graph, a: NodeId, b: NodeId)
    requires g.directed && EndPointsAreNodes(g.edges, g.data) && n !in g.data && Rebuilt(g, sub, n, h)
    requires HasEdge(h, a, b)
    ensures (a != n && b != n && a !in sub && b !in sub && HasEdge(g, a, b)) ||
            (a !in sub && a in g.data && b == n && EntersSub(g, sub, a)) ||
            (a == n && b !in sub && b in g.data && LeavesSub(g, sub, b))
  {
    var S := Members(sub);
    var kept := EdgesOutside(g.edges, S);
    var e :| e in h.edges && e.src == a && e.tgt == b;
    var k :| 0 <= k < |h.edges| && h.edges[k] == e;
    if k < |kept| {
      assert h.edges[..|kept|][k] == e;
      assert e in g.edges && e.src !in S && e.tgt !in S;
    } else {
      var added := h.edges[|kept|..];
      assert added[k - |kept|] == e;
      var t := Triples(added)[k - |kept|];
      assert t == (a, b, e.data);
      AddedEdge(g, sub, n, t);
    }
  }

  // An edge of g from outside into the subgraph becomes an edge into the
  // new node.
  lemma CollapsedIn(g: Graph, sub: seq<NodeId>, n: NodeId, h: Graph, x: NodeId, q: NodeId)
    requires g.directed && Rebuilt(g, sub, n, h)
    requires HasEdge(g, x, q) && x !in sub && q in sub
    ensures HasEdge(h, x, n)
  {
    var S := Members(sub);
    var e :| e in g.edges && e.src == x && e.tgt == q;
    var ins := EdgesAt(g.edges, sub, true);
    ReroutedHas(ins, S, n, true, e);
    AddedIn(g, sub, n, h, Reattach(e, n, true));
  }

  // An edge of g from the subgraph to outside becomes an edge out of the
  // new node.
  lemma CollapsedOut(g: Graph, sub: seq<NodeId>, n: NodeId, h: Graph, q: NodeId, y: NodeId)
    requires g.directed && Rebuilt(g, sub, n, h)
    requires HasEdge(g, q, y) && q in sub && y !in sub
    ensures HasEdge(h, n, y)
  {
    var S := Members(sub);
    var e :| e in g.edges && e.src == q && e.tgt == y;
    var outs := EdgesAt(g.edges, sub, false);
    ReroutedHas(outs, S, n, false, e);
    AddedIn(g, sub, n, h, Reattach(e, n, false));
  }

  // A collapsed triple is an edge of the collapsed graph.
  lemma AddedIn(g: Graph, sub: seq<NodeId>, n: NodeId, h: Graph, t: (NodeId, NodeId, Attrs))
    requires g.directed && Rebuilt(g, sub, n, h)
    requires t in CollapsedEdges(g, sub, n)
    ensures HasEdge(h, t.0, t.1)
  {
    var kept := EdgesOutside(g.edges, Members(sub));
    var added := h.edges[|kept|..];
    var i :| 0 <= i < |Triples(added)| && Triples(added)[i] == t;
    assert added[i] == h.edges[|kept| + i];
    assert h.edges[|kept| + i] in h.edges;
  }

  // An edge of g away from the subgraph stays.
  lemma CollapsedKeeps(g: Graph, sub: seq<NodeId>, n: NodeId, h: Graph, x: NodeId, y: NodeId)
    requires g.directed && Rebuilt(g, sub, n, h)
    requires HasEdge(g, x, y) && x !in sub && y !in sub
    ensures HasEdge(h, x, y)
  {
    var kept := EdgesOutside(g.edges, Members(sub));
    var e :| e in g.edges && e.src == x && e.tgt == y;
    assert e in kept;
    var i :| 0 <= i < |kept| && kept[i] == e;
    assert h.edges[i] == e;
  }

  /* ---------------- Paths through a collapsed graph ---------------- */

  // A path of the collapsed graph that avoids the new node is a path of g.
  lemma PathAvoiding(g: Graph, sub: seq<NodeId>, n: NodeId, h: Graph, path: seq<NodeId>)
    requires g.directed && EndPointsAreNodes(g.edges, g.data) && n !in g.data && Rebuilt(g, sub, n, h)
    requires IsPath(h, path) && n !in path
    ensures IsPath(g, path)
  {
    forall i | 0 <= i < |path| - 1 ensures HasEdge(g, path[i], path[i + 1]) {
      CollapsedStep(g, sub, n, h, path[i], path[i + 1]);
    }
  }

  // The first place x occurs in s.
  function FirstAt(s: seq<NodeId>, x: NodeId): (i: nat)
    requires x in s
    ensures i < |s| && s[i] == x && x !in s[..i]
  {
    if s[0] == x then 0
    else
      var i := FirstAt(s[1..], x);
      assert s[..i + 1] == [s[0]] + s[1..][..i];
      i + 1
  }

  // The last place x occurs in s.
  function LastAt(s: seq<NodeId>, x: NodeId): (i: nat)
    requires x in s
    ensures i < |s| && s[i] == x && x !in s[i + 1..]
  {
    if s[|s| - 1] == x then |s| - 1
    else
      var i := LastAt(s[..|s| - 1], x);
      assert s[i + 1..] == s[..|s| - 1][i + 1..] + [s[|s| - 1]];
      i
  }

  // g reaches some node of sub from x.
  ghost predicate ReachesSub(g: Graph, x: NodeId, sub: seq<NodeId>)
  {
    exists q :: q in sub && Reaches(g, x, q)
  }

  // g reaches x from some node of sub.
  ghost predicate ReachedFromSub(g: Graph, sub: seq<NodeId>, x: NodeId)
  {
    exists q :: q in sub && Reaches(g, q, x)
  }

  // A path of the collapsed graph between two old nodes is a path of g, or
  // it passes through the new node: its start reaches the subgraph in g and
  // the subgraph reaches its end.
  lemma ProjectReach(g: Graph, sub: seq<NodeId>, n: NodeId, h: Graph, s: NodeId, t: NodeId)
    requires g.directed && EndPointsAreNodes(g.edges, g.data) && n !in g.data && Rebuilt(g, sub, n, h)
    requires Reaches(h, s, t) && s != n && t != n
    ensures Reaches(g, s, t) || (ReachesSub(g, s, sub) && ReachedFromSub(g, sub, t))
  {
    var path :| IsPath(h, path) && |path| >= 2 && path[0] == s && path[|path| - 1] == t;
    if n !in path {
      PathAvoiding(g, sub, n, h, path);
    } else {
      PrefixReach(g, sub, n, h, path);
      SuffixReach(g, sub, n, h, path);
    }
  }

  // The part of such a path up to the first visit of the new node.
  lemma PrefixReach(g: Graph, sub: seq<NodeId>, n: NodeId, h: Graph, path: seq<NodeId>)
    requires g.directed && EndPointsAreNodes(g.edges, g.data) && n !in g.data && Rebuilt(g, sub, n, h)
    requires IsPath(h, path) && n in path && path[0] != n
    ensures ReachesSub(g, path[0], sub)
  {
    var i := FirstAt(path, n);
    PathSplit(h, path, i - 1);
    var a := path[..i];
    PathAvoiding(g, sub, n, h, a);
    assert HasEdge(h, path[i - 1], path[i]);
    CollapsedStep(g, sub, n, h, path[i - 1], n);
    var q :| q in sub && HasEdge(g, path[i - 1], q);
    PathThenEdge(g, a, q);
  }

  // The part of such a path after the last visit of the new node.
  lemma SuffixReach(g: Graph, sub: seq<NodeId>, n: NodeId, h: Graph, path: seq<NodeId>)
    requires g.directed && EndPointsAreNodes(g.edges, g.data) && n !in g.data && Rebuilt(g, sub, n, h)
    requires IsPath(h, path) && n in path && path[|path| - 1] != n
    ensures ReachedFromSub(g, sub, path[|path| - 1])
  {
    var j := LastAt(path, n);
    PathSplit(h, path, j + 1);
    var b := path[j + 1..];
    PathAvoiding(g, sub, n, h, b);
    assert HasEdge(h, path[j], path[j + 1]);
    CollapsedStep(g, sub, n, h, n, path[j + 1]);
    var q :| q in sub && HasEdge(g, q, path[j + 1]);
    EdgeThenPath(g, q, b);
  }

  lemma PathThenEdge(g: Graph, a: seq<NodeId>, q: NodeId)
    requires IsPath(g, a) && HasEdge(g, a[|a| - 1], q)
    ensures Reaches(g, a[0], q)
  {
    var path := a + [q];
    forall i | 0 <= i < |path| - 1 ensures HasEdge(g, path[i], path[i + 1]) {
      if i < |a| - 1 {
        assert path[i] == a[i] && path[i + 1] == a[i + 1];
      }
    }
    assert IsPath(g, path);
  }

  lemma EdgeThenPath(g: Graph, q: NodeId, b: seq<NodeId>)
    requires IsPath(g, b) && HasEdge(g, q, b[0])
    ensures Reaches(g, q, b[|b| - 1])
  {
    var path := [q] + b;
    forall i | 0 <= i < |path| - 1 ensures HasEdge(g, path[i], path[i + 1]) {
      if i > 0 {
        assert path[i] == b[i - 1] && path[i + 1] == b[i];
      }
    }
    assert IsPath(g, path);
  }

  // Where a node of g ends up after collapsing.
  function Image(sub: seq<NodeId>, n: NodeId, x: NodeId): NodeId
  {
    if x in sub then n else x
  }

  // Collapsing keeps every path of g, with the subgraph's nodes replaced
  // by the new node.
  lemma {:induction false} ImageReach(g: Graph, sub: seq<NodeId>, n: NodeId, h: Graph, path: seq<NodeId>)
    requires g.directed && Rebuilt(g, sub, n, h)
    requires IsPath(g, path) && path[|path| - 1] !in sub
    ensures var x, t := Image(sub, n, path[0]), path[|path| - 1]; x == t || Reaches(h, x, t)
    decreases |path|
  {
    if |path| > 1 {
      var rest := path[1..];
      ImageReach(g, sub, n, h, rest);
      var x, y, t := path[0], path[1], path[|path| - 1];
      var ix, iy := Image(sub, n, x), Image(sub, n, y);
      assert HasEdge(g, x, y);
      if ix != iy {
        if x !in sub && y !in sub {
          CollapsedKeeps(g, sub, n, h, x, y);
        } else if x !in sub {
          CollapsedIn(g, sub, n, h, x, y);
        } else {
          CollapsedOut(g, sub, n, h, x, y);
        }
        EdgeReaches(h, ix, iy);
        if iy != t {
          ReachesTrans(h, ix, iy, t);
        }
      }
    }
  }

  // Collapsing loses no path between two nodes outside the subgraph.
  lemma CollapseKeepsReach(g: Graph, sub: seq<NodeId>, n: NodeId, h: Graph, s: NodeId, t: NodeId)
    requires g.directed && Rebuilt(g, sub, n, h)
    requires Reaches(g, s, t) && s !in sub && t !in sub && s != t
    ensures Reaches(h, s, t)
  {
    var path :| IsPath(g, path) && |path| >= 2 && path[0] == s && path[|path| - 1] == t;
    ImageReach(g, sub, n, h, path);
  }

  /* ---------------- The guard ---------------- */

  // Both nodes are annotated nodes of g, and distinct.
  ghost predicate AnnotatedPair(g: Graph, s: NodeId, t: NodeId)
  {
    s in g.data && t in g.data && s != t && IsAnnotated(g.data[s]) && IsAnnotated(g.data[t])
  }

  // Merging a parent and a child that `can_collapse` allows, asked of the
  // transitive closure of g, creates no path between annotated nodes: a
  // path through the new node goes from an annotated node that reaches the
  // child to one the parent reaches, and the guard asks that the first
  // reach the second already.
  lemma GuardKeepsReach(g: Graph, cl: Graph, p: NodeId, c: NodeId, n: NodeId, h: Graph, s: NodeId, t: NodeId)
    requires Valid(g) && g.directed && IsClosureOf(cl, g)
    requires p in g.data && c in g.data && !IsAnnotated(g.data[p]) && !IsAnnotated(g.data[c])
    requires HasEdge(g, p, c) && CanCollapse(g, cl, p, c)
    requires n !in g.data && Rebuilt(g, [p, c], n, h)
    requires AnnotatedPair(g, s, t) && Reaches(h, s, t)
    ensures Reaches(g, s, t)
  {
    ProjectReach(g, [p, c], n, h, s, t);
    if !Reaches(g, s, t) {
      GuardCase(g, cl, p, c, s, t);
    }
  }

  // A path from s into the pair and one from the pair to t: the closure
  // has s to the child and the parent to t, so the guard gives s to t.
  lemma GuardCase(g: Graph, cl: Graph, p: NodeId, c: NodeId, s: NodeId, t: NodeId)
    requires IsClosureOf(cl, g) && HasEdge(g, p, c) && CanCollapse(g, cl, p, c)
    requires AnnotatedPair(g, s, t) && s != c && p != t
    requires ReachesSub(g, s, [p, c]) && ReachedFromSub(g, [p, c], t)
    ensures Reaches(g, s, t)
  {
    EdgeReaches(g, p, c);
    var q1 :| q1 in [p, c] && Reaches(g, s, q1);
    if q1 == p {
      ReachesTrans(g, s, p, c);
    }
    var q2 :| q2 in [p, c] && Reaches(g, q2, t);
    if q2 == c {
      ReachesTrans(g, p, c, t);
    }
    assert HasEdge(cl, s, c) && HasEdge(cl, p, t);
  }

  // One merge asked of the true closure of the graph it merges in keeps
  // exactly the paths between annotated nodes.
  lemma MergeKeepsReach(m: Merge, g: Graph, s: NodeId, t: NodeId)
    requires Valid(m.graph) && m.graph.directed && IsClosureOf(m.closure, m.graph) && GraphMerge(m, g)
    requires AnnotatedPair(m.graph, s, t)
    ensures Reaches(g, s, t) <==> Reaches(m.graph, s, t)
  {
    var sub := [m.parent, m.child];
    CollapsedRebuilt(m.graph, sub, m.node, m.collapsed);
    SameReach(g, m.collapsed);
    if Reaches(m.collapsed, s, t) {
      GuardKeepsReach(m.graph, m.closure, m.parent, m.child, m.node, m.collapsed, s, t);
    }
    if Reaches(m.graph, s, t) {
      CollapseKeepsReach(m.graph, sub, m.node, m.collapsed, s, t);
    }
  }

  // A merge keeps the graph well formed and directed, and keeps the
  // annotated nodes of g0 with their data.
  lemma MergeKeepsAnnotated(g0: Graph, m: Merge, g: Graph)
    requires KeepsAnnotated(g0, m.graph) && GraphMerge(m, g)
    ensures Valid(g) && g.directed == m.graph.directed && KeepsAnnotated(g0, g)
  {
    forall x | x in g0.data && IsAnnotated(g0.data[x])
      ensures x in g.data && g.data[x] == g0.data[x]
    {
      assert x != m.parent && x != m.child && x != m.node;
      assert m.collapsed.data[x] == m.graph.data[x];
    }
  }

  // A sequence of merges, each asked of the true closure of the graph it
  // merges in: what `collapse_unannotated_actions` does once the closure is
  // recomputed after every merge.
  ghost predicate FreshChain(g0: Graph, ms: seq<Merge>, g: Graph)
    decreases |ms|
  {
    if ms == [] then g == g0
    else
      var m := ms[|ms| - 1];
      FreshChain(g0, ms[..|ms| - 1], m.graph) && IsClosureOf(m.closure, m.graph) && GraphMerge(m, g)
  }

  // Such a chain keeps the graph well formed, keeps the annotated nodes
  // with their data, and keeps exactly the paths between annotated nodes.
  lemma {:induction false} FreshChainKeepsReach(g0: Graph, ms: seq<Merge>, g: Graph)
    requires Valid(g0) && g0.directed && FreshChain(g0, ms, g)
    ensures Valid(g) && g.directed && KeepsAnnotated(g0, g)
    ensures forall s, t :: AnnotatedPair(g0, s, t) ==> (Reaches(g, s, t) <==> Reaches(g0, s, t))
    decreases |ms|
  {
    if ms != [] {
      var m := ms[|ms| - 1];
      FreshChainKeepsReach(g0, ms[..|ms| - 1], m.graph);
      MergeKeepsAnnotated(g0, m, g);
      forall s, t | AnnotatedPair(g0, s, t)
        ensures Reaches(g, s, t) <==> Reaches(g0, s, t)
      {
        assert AnnotatedPair(m.graph, s, t);
        MergeKeepsReach(m, g, s, t);
      }
    }
  }

  lemma FreshChainStep(g0: Graph, ms: seq<Merge>, m: Merge, g: Graph)
    requires FreshChain(g0, ms, m.graph) && IsClosureOf(m.closure, m.graph) && GraphMerge(m, g)
    ensures FreshChain(g0, ms + [m], g)
  {
    assert (ms + [m])[..|ms|] == ms;
  }

  /* ---------------- The pass with a fresh closure ---------------- */

  // `collapse_unannotated_actions` with the guard asked of the transitive
  // closure of the current graph, recomputed after every merge; otherwise
  // the pass as written: the same order, the same choice of child, the same
  // merge and the same ValueError. Its result keeps exactly the paths
  // between annotated nodes of the input.
  method CollapseWithFreshClosure(g: Graph, order: seq<NodeId>, names: Names)
    returns (r: Result<Graph>, ghost merges: seq<Merge>)
    requires Valid(g) && g.directed && IsTopologicalOrder(order, g)
    ensures r.Err? ==> r.error == ValueError
    ensures r.Ok? ==> FreshChain(g, merges, r.value) && Valid(r.value) && r.value.directed && NoSelfLoops(r.value)
    ensures r.Ok? ==> KeepsAnnotated(g, r.value) && FromInput(g, r.value)
    ensures r.Ok? ==> forall s, t :: AnnotatedPair(g, s, t) ==> (Reaches(r.value, s, t) <==> Reaches(g, s, t))
  {
    var c := TransitiveClosure(g);
    TopologicalLoopFree(order, g);
    var h := g;
    var stack := order;
    merges := [];
    while stack != []
      invariant Collapsing(g, h, c) && IsClosureOf(c, h) && FreshChain(g, merges, h)
      decreases |h.nodes|, |stack|
    {
      var parent := stack[|stack| - 1];
      stack := stack[..|stack| - 1];
      if parent in h.data && !IsAnnotated(h.data[parent]) {
        var child := PickChild(h, c, parent, Successors(h, parent));
        if child.Some? && child.value != "" {
          var newNode := FreshName(names, h, "collapsed");
          var step, m := MergeAt(g, h, c, parent, child.value, newNode);
          if step.Err? {
            return Err(step.error), merges;
          }
          FreshChainStep(g, merges, m, step.value.0);
          merges := merges + [m];
          h := step.value.0;
          c := TransitiveClosure(h);
          stack := stack + [newNode];
        }
      }
    }
    r := Ok(h);
    FreshChainKeepsReach(g, merges, h);
  }

  /* ---------------- The stale closure ---------------- */

  // An annotated and an unannotated action.
  function Noted(): Attrs
  {
    map["kind" := VStr("action"), "annotation" := VStr("x")]
  }

  function Unnoted(): Attrs
  {
    map["kind" := VStr("action")]
  }

  // Annotated actions u and t; unannotated actions p, y, c and v; edges
  // u -> c, p -> c, p -> v, y -> v and y -> t. Every edge ends at a node
  // without successors, so the graph is its own transitive closure, and u
  // does not reach t.
  function StaleInput(): Graph
  {
    Graph(true, map[], ["u", "p", "y", "c", "v", "t"],
          map["u" := Noted(), "p" := Unnoted(), "y" := Unnoted(), "c" := Unnoted(), "v" := Unnoted(), "t" := Noted()],
          [Edge("u", "c", 0, map[]), Edge("p", "c", 0, map[]), Edge("p", "v", 0, map[]),
           Edge("y", "v", 0, map[]), Edge("y", "t", 0, map[])])
  }

  // A graph whose edges all end at nodes without successors is its own
  // transitive closure.
  lemma SinkClosure(g: Graph)
    requires Valid(g) && g.directed
    requires forall e, f :: e in g.edges && f in g.edges ==> f.src != e.tgt
    ensures IsClosureOf(g, g)
  {
    forall u, v ensures HasEdge(g, u, v) <==> u != v && Reaches(g, u, v) {
      if HasEdge(g, u, v) {
        EdgeReaches(g, u, v);
      }
      if Reaches(g, u, v) {
        var path :| IsPath(g, path) && |path| >= 2 && path[0] == u && path[|path| - 1] == v;
        assert HasEdge(g, path[0], path[1]);
        var e :| e in g.edges && Joins(g.directed, e, path[0], path[1]);
        forall x ensures !HasEdge(g, path[1], x) {
        }
        if |path| > 2 {
          PathEdge(g, path, 1);
        }
      }
    }
  }

  // The edges of the example graph that the example needs.
  ghost predicate StaleEdges(g0: Graph)
  {
    HasEdge(g0, "u", "c") && HasEdge(g0, "p", "c") && HasEdge(g0, "p", "v") && HasEdge(g0, "y", "v") && HasEdge(g0, "y", "t") &&
    (forall s :: HasEdge(g0, s, "v") ==> s == "p" || s == "y") &&
    (forall t :: HasEdge(g0, "p", t) ==> t == "c" || t == "v") &&
    (forall q :: HasEdge(g0, "u", q) ==> q == "c")
  }

  // What the example needs of its input graph.
  ghost predicate StaleShape(g0: Graph)
  {
    Valid(g0) && g0.directed && IsClosureOf(g0, g0) &&
    "u" in g0.data && "p" in g0.data && "y" in g0.data && "c" in g0.data && "v" in g0.data && "t" in g0.data &&
    "m" !in g0.data && "n" !in g0.data &&
    IsAnnotated(g0.data["u"]) && IsAnnotated(g0.data["t"]) &&
    !IsAnnotated(g0.data["p"]) && !IsAnnotated(g0.data["y"]) && !IsAnnotated(g0.data["c"]) && !IsAnnotated(g0.data["v"]) &&
    StaleEdges(g0)
  }

  lemma StaleInputNodes()
    ensures NodesWellFormed(StaleInput())
  {
  }

  lemma StaleInputEnds()
    ensures EndPointsAreNodes(StaleInput().edges, StaleInput().data)
  {
  }

  lemma StaleInputSlots()
    ensures SlotsUnique(StaleInput().directed, StaleInput().edges)
  {
  }

  // The five edges of the example.
  lemma StaleInputEdgeList(e: Edge)
    requires e in StaleInput().edges
    ensures (e.src, e.tgt) in [("u", "c"), ("p", "c"), ("p", "v"), ("y", "v"), ("y", "t")]
  {
  }

  lemma StaleInputEdges()
    ensures StaleEdges(StaleInput())
  {
    var g := StaleInput();
    assert g.edges[0] in g.edges && Joins(g.directed, g.edges[0], "u", "c");
    assert g.edges[1] in g.edges && Joins(g.directed, g.edges[1], "p", "c");
    assert g.edges[2] in g.edges && Joins(g.directed, g.edges[2], "p", "v");
    assert g.edges[3] in g.edges && Joins(g.directed, g.edges[3], "y", "v");
    assert g.edges[4] in g.edges && Joins(g.directed, g.edges[4], "y", "t");
    forall s | HasEdge(g, s, "v") ensures s == "p" || s == "y" {
      var e :| e in g.edges && Joins(g.directed, e, s, "v");
      StaleInputEdgeList(e);
    }
    forall t | HasEdge(g, "p", t) ensures t == "c" || t == "v" {
      var e :| e in g.edges && Joins(g.directed, e, "p", t);
      StaleInputEdgeList(e);
    }
    forall q | HasEdge(g, "u", q) ensures q == "c" {
      var e :| e in g.edges && Joins(g.directed, e, "u", q);
      StaleInputEdgeList(e);
    }
  }

  lemma StaleInputSinks()
    ensures forall e, f :: e in StaleInput().edges && f in StaleInput().edges ==> f.src != e.tgt
  {
    forall e, f | e in StaleInput().edges && f in StaleInput().edges ensures f.src != e.tgt {
      StaleInputEdgeList(e);
      StaleInputEdgeList(f);
    }
  }

  lemma StaleInputData()
    ensures var d := StaleInput().data;
      "u" in d && "p" in d && "y" in d && "c" in d && "v" in d && "t" in d && "m" !in d && "n" !in d &&
      IsAnnotated(d["u"]) && IsAnnotated(d["t"]) &&
      !IsAnnotated(d["p"]) && !IsAnnotated(d["y"]) && !IsAnnotated(d["c"]) && !IsAnnotated(d["v"])
  {
    assert Truthy(VStr("x"));
  }

  lemma StaleInputShape()
    ensures StaleShape(StaleInput())
  {
    StaleInputNodes();
    StaleInputEnds();
    StaleInputSlots();
    StaleInputEdges();
    StaleInputSinks();
    StaleInputData();
    SinkClosure(StaleInput());
  }

  // The pass pops y (t, v and c come first and have no successors) and
  // merges it with v: no annotated node reaches v, so the guard holds.
  lemma FirstMerge(g0: Graph, h1: Graph, g1: Graph)
    requires StaleShape(g0) && Collapsed(g0, ["y", "v"], "m", h1)
    requires g1 == AnnotateAction(h1, "m", map["collapsed" := VBool(true)])
    ensures MergeStep(Merge(g0, g0, "y", "v", "m", h1), g1, h1)
  {
  }

  // The graph after the first merge: p -> m and m -> t stand for p -> v
  // and y -> t, and u -> c and p -> c stay.
  lemma FirstMergeEdges(g0: Graph, h1: Graph)
    requires g0.directed && EndPointsAreNodes(g0.edges, g0.data) && "m" !in g0.data && StaleEdges(g0)
    requires Rebuilt(g0, ["y", "v"], "m", h1)
    ensures HasEdge(h1, "u", "c") && HasEdge(h1, "p", "c") && HasEdge(h1, "p", "m") && HasEdge(h1, "m", "t")
    ensures forall t :: HasEdge(h1, "p", t) ==> t == "c" || t == "m"
  {
    var sub := ["y", "v"];
    CollapsedKeeps(g0, sub, "m", h1, "u", "c");
    CollapsedKeeps(g0, sub, "m", h1, "p", "c");
    CollapsedIn(g0, sub, "m", h1, "p", "v");
    CollapsedOut(g0, sub, "m", h1, "y", "t");
    forall t | HasEdge(h1, "p", t) ensures t == "c" || t == "m" {
      CollapsedStep(g0, sub, "m", h1, "p", t);
    }
  }

  // After the first merge u still does not reach t.
  lemma FirstMergeNoReach(g0: Graph, h1: Graph)
    requires g0.directed && EndPointsAreNodes(g0.edges, g0.data) && "m" !in g0.data && IsClosureOf(g0, g0)
    requires forall q :: HasEdge(g0, "u", q) ==> q == "c"
    requires Rebuilt(g0, ["y", "v"], "m", h1)
    ensures !Reaches(h1, "u", "t")
  {
    if Reaches(h1, "u", "t") {
      ProjectReach(g0, ["y", "v"], "m", h1, "u", "t");
      OnlyC(g0);
    }
  }

  // In the example graph u reaches c only.
  lemma OnlyC(g0: Graph)
    requires IsClosureOf(g0, g0) && forall q :: HasEdge(g0, "u", q) ==> q == "c"
    ensures forall x :: Reaches(g0, "u", x) && x != "u" ==> x == "c"
  {
    forall x | Reaches(g0, "u", x) && x != "u" ensures x == "c" {
      assert HasEdge(g0, "u", x);
    }
  }

  // Asked of the true closure of the graph after the first merge, the
  // guard refuses to merge p with c: p reaches the annotated t through m,
  // the annotated u reaches c, and u does not reach t.
  lemma FreshGuardRefuses(g1: Graph, cl: Graph)
    requires HasEdge(g1, "u", "c") && HasEdge(g1, "p", "m") && HasEdge(g1, "m", "t") && !Reaches(g1, "u", "t")
    requires "u" in g1.data && "t" in g1.data && IsAnnotated(g1.data["u"]) && IsAnnotated(g1.data["t"])
    requires IsClosureOf(cl, g1)
    ensures !CanCollapse(g1, cl, "p", "c")
  {
    EdgeReaches(g1, "p", "m");
    EdgeReaches(g1, "m", "t");
    ReachesTrans(g1, "p", "m", "t");
    EdgeReaches(g1, "u", "c");
    assert HasEdge(cl, "p", "t") && HasEdge(cl, "u", "c") && !HasEdge(cl, "u", "t");
  }

  // The pass then pops p and merges it with c: the collapsed closure no
  // longer records that p reaches t (it has only p -> c and p -> m), so no
  // annotated node seems reachable from p and the guard holds.
  lemma StaleGuardAllows(g1: Graph, cl1: Graph)
    requires forall t :: HasEdge(cl1, "p", t) ==> t == "c" || t == "m"
    requires "c" in g1.data && "m" in g1.data && !IsAnnotated(g1.data["c"]) && !IsAnnotated(g1.data["m"])
    ensures CanCollapse(g1, cl1, "p", "c")
  {
  }

  lemma SecondMerge(g1: Graph, h1: Graph, h2: Graph, g2: Graph, cl2: Graph)
    requires "p" in g1.data && "c" in g1.data && !IsAnnotated(g1.data["p"]) && !IsAnnotated(g1.data["c"])
    requires HasEdge(g1, "p", "c") && CanCollapse(g1, h1, "p", "c") && "n" !in g1.data && "n" !in h1.data
    requires Collapsed(g1, ["p", "c"], "n", h2) && Collapsed(h1, ["p", "c"], "n", cl2)
    requires g2 == AnnotateAction(h2, "n", map["collapsed" := VBool(true)])
    ensures MergeStep(Merge(g1, h1, "p", "c", "n", h2), g2, cl2)
  {
  }

  // In the end u reaches t through n and m: u -> n stands for u -> c,
  // n -> m for p -> m and m -> t stays.
  lemma AfterSecondMerge(g1: Graph, h2: Graph, g2: Graph)
    requires g1.directed && HasEdge(g1, "u", "c") && HasEdge(g1, "p", "m") && HasEdge(g1, "m", "t")
    requires Rebuilt(g1, ["p", "c"], "n", h2) && g2.edges == h2.edges && g2.directed == h2.directed
    ensures Reaches(g2, "u", "t")
  {
    var sub := ["p", "c"];
    CollapsedIn(g1, sub, "n", h2, "u", "c");
    CollapsedOut(g1, sub, "n", h2, "p", "m");
    CollapsedKeeps(g1, sub, "n", h2, "m", "t");
    assert HasEdge(g2, "u", "n") && HasEdge(g2, "n", "m") && HasEdge(g2, "m", "t");
    EdgeReaches(g2, "u", "n");
    EdgeReaches(g2, "n", "m");
    EdgeReaches(g2, "m", "t");
    ReachesTrans(g2, "u", "n", "m");
    ReachesTrans(g2, "u", "m", "t");
  }

  // The graph after the first merge, as far as the second needs it.
  ghost predicate AfterFirst(g0: Graph, h1: Graph, g1: Graph)
  {
    Valid(g1) && Valid(h1) && g1.directed && h1.directed &&
    "u" in g1.data && "t" in g1.data && "p" in g1.data && "c" in g1.data && "m" in g1.data &&
    IsAnnotated(g1.data["u"]) && IsAnnotated(g1.data["t"]) &&
    !IsAnnotated(g1.data["p"]) && !IsAnnotated(g1.data["c"]) && !IsAnnotated(g1.data["m"]) &&
    "n" !in g1.data && "n" !in h1.data &&
    HasEdge(g1, "u", "c") && HasEdge(g1, "p", "c") && HasEdge(g1, "p", "m") && HasEdge(g1, "m", "t") &&
    (forall t :: HasEdge(h1, "p", t) ==> t == "c" || t == "m") &&
    !Reaches(g1, "u", "t")
  }

  // The first merge: y with v into m.
  method StaleFirst(g0: Graph) returns (h1: Graph, g1: Graph)
    requires StaleShape(g0)
    ensures MergeStep(Merge(g0, g0, "y", "v", "m", h1), g1, h1) && AfterFirst(g0, h1, g1)
  {
    var r1 := CollapseSubgraph(g0, ["y", "v"], "m");
    h1 := r1.value;
    g1 := AnnotateAction(h1, "m", map["collapsed" := VBool(true)]);
    FirstMerge(g0, h1, g1);
    CollapsedRebuilt(g0, ["y", "v"], "m", h1);
    FirstMergeEdges(g0, h1);
    FirstMergeNoReach(g0, h1);
    SameReach(g1, h1);
    FirstMergeData(g0, h1, g1);
  }

  // The nodes after the first merge keep their data, and m is an
  // unannotated collapsed action.
  lemma FirstMergeData(g0: Graph, h1: Graph, g1: Graph)
    requires "u" in g0.data && "t" in g0.data && "p" in g0.data && "c" in g0.data && "n" !in g0.data
    requires IsAnnotated(g0.data["u"]) && IsAnnotated(g0.data["t"]) && !IsAnnotated(g0.data["p"]) && !IsAnnotated(g0.data["c"])
    requires forall x :: x in h1.data <==> (x in g0.data && x !in ["y", "v"]) || x == "m"
    requires forall x :: x in h1.data && x != "m" ==> h1.data[x] == g0.data[x]
    requires g1 == AnnotateAction(h1, "m", map["collapsed" := VBool(true)])
    ensures "u" in g1.data && "t" in g1.data && "p" in g1.data && "c" in g1.data && "m" in g1.data
    ensures IsAnnotated(g1.data["u"]) && IsAnnotated(g1.data["t"])
    ensures !IsAnnotated(g1.data["p"]) && !IsAnnotated(g1.data["c"]) && !IsAnnotated(g1.data["m"])
    ensures "n" !in g1.data && "n" !in h1.data
  {
    assert g1.data["u"] == g0.data["u"] && g1.data["t"] == g0.data["t"];
    assert g1.data["p"] == g0.data["p"] && g1.data["c"] == g0.data["c"];
  }

  // The second merge: p with c into n, which the guard allows on the
  // collapsed closure h1 and refuses on the true closure of g1.
  method StaleSecond(g0: Graph, h1: Graph, g1: Graph) returns (h2: Graph, g2: Graph, cl2: Graph)
    requires AfterFirst(g0, h1, g1)
    ensures MergeStep(Merge(g1, h1, "p", "c", "n", h2), g2, cl2) && Reaches(g2, "u", "t")
    ensures forall cl :: IsClosureOf(cl, g1) ==> !CanCollapse(g1, cl, "p", "c")
  {
    StaleGuardAllows(g1, h1);
    var r2 := CollapseSubgraph(g1, ["p", "c"], "n");
    var rc := CollapseSubgraph(h1, ["p", "c"], "n");
    h2 := r2.value;
    cl2 := rc.value;
    g2 := AnnotateAction(h2, "n", map["collapsed" := VBool(true)]);
    SecondMerge(g1, h1, h2, g2, cl2);
    CollapsedRebuilt(g1, ["p", "c"], "n", h2);
    AfterSecondMerge(g1, h2, g2);
    forall cl | IsClosureOf(cl, g1) ensures !CanCollapse(g1, cl, "p", "c") {
      FreshGuardRefuses(g1, cl);
    }
  }

  // The two merges on a graph of that shape.
  method StaleRun(g0: Graph) returns (ms: seq<Merge>, g2: Graph, cl2: Graph)
    requires StaleShape(g0)
    ensures Chain(g0, g0, ms, g2, cl2) && |ms| == 2 && Reaches(g2, "u", "t")
    ensures forall cl :: IsClosureOf(cl, ms[1].graph) ==> !CanCollapse(ms[1].graph, cl, "p", "c")
  {
    var h1, g1 := StaleFirst(g0);
    var h2;
    h2, g2, cl2 := StaleSecond(g0, h1, g1);
    var m1 := Merge(g0, g0, "y", "v", "m", h1);
    var m2 := Merge(g1, h1, "p", "c", "n", h2);
    TwoMerges(g0, m1, g1, h1, m2, g2, cl2);
    ms := [m1] + [m2];
    assert ms[1] == m2;
  }

  lemma TwoMerges(g0: Graph, m1: Merge, g1: Graph, cl1: Graph, m2: Merge, g2: Graph, cl2: Graph)
    requires m1.graph == g0 && m1.closure == g0 && MergeStep(m1, g1, cl1)
    requires m2.graph == g1 && m2.closure == cl1 && MergeStep(m2, g2, cl2)
    ensures Chain(g0, g0, [m1] + [m2], g2, cl2)
  {
    ChainStep(g0, g0, [], m1, g1, cl1);
    assert [] + [m1] == [m1];
    ChainStep(g0, g0, [m1], m2, g2, cl2);
  }

  // The pass as written, on StaleInput: two merges the guard allows, asked
  // of the closure collapsed along with the graph, leave a graph in which
  // the annotated u reaches the annotated t, which it does not in the
  // input; asked of the true closure, the guard refuses the second merge.
  method StaleClosureExample() returns (g0: Graph, ms: seq<Merge>, g2: Graph, cl2: Graph)
    ensures Valid(g0) && IsClosureOf(g0, g0) && Chain(g0, g0, ms, g2, cl2) && |ms| == 2
    ensures AnnotatedPair(g0, "u", "t") && Reaches(g2, "u", "t") && !Reaches(g0, "u", "t")
    ensures forall cl :: IsClosureOf(cl, ms[1].graph) ==> !CanCollapse(ms[1].graph, cl, "p", "c")
  {
    g0 := StaleInput();
    StaleInputShape();
    ms, g2, cl2 := StaleRun(g0);
    assert !HasEdge(g0, "u", "t");
  }
}
