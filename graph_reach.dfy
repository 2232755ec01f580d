// Reachability over a graph: the two networkx results the pipeline relies
// on, `transitive_closure` and `topological_sort`, stated as what they
// return, and the transitive closure computed by breadth-first search.
module GraphReach {
  import opened Base
  import opened Graphs
  import opened GraphAlgorithms

  // A walk along edges of g, each step an edge from one node to the next.
  ghost predicate IsPath(g: Graph, path: seq<NodeId>)
  {
    |path| >= 1 && forall i :: 0 <= i < |path| - 1 ==> HasEdge(g, path[i], path[i + 1])
  }

  // v is reached from u along at least one edge.
  ghost predicate Reaches(g: Graph, u: NodeId, v: NodeId)
  {
    exists path :: IsPath(g, path) && |path| >= 2 && path[0] == u && path[|path| - 1] == v
  }

  // `transitive_closure(g)`: a well-formed directed graph on the nodes of
  // g with an edge from u to v exactly when v is reached from u and is not u.
  ghost predicate IsClosureOf(cl: Graph, g: Graph)
  {
    Valid(cl) && cl.directed && cl.data.Keys == g.data.Keys &&
    forall u, v :: HasEdge(cl, u, v) <==> u != v && Reaches(g, u, v)
  }

  // `topological_sort(g)`: every node once, and no edge leads from a node
  // to itself or to a node listed before it.
  ghost predicate IsTopologicalOrder(order: seq<NodeId>, g: Graph)
  {
    Distinct(order) && (forall v :: v in order <==> v in g.data) &&
    forall i, j :: 0 <= j <= i < |order| ==> !HasEdge(g, order[i], order[j])
  }

  /* ---------------- Paths ---------------- */

  // One edge is a path.
  lemma EdgeReaches(g: Graph, u: NodeId, v: NodeId)
    requires HasEdge(g, u, v)
    ensures Reaches(g, u, v)
  {
    assert IsPath(g, [u, v]);
  }

  // Two paths that meet make one.
  lemma {:induction false} PathJoin(g: Graph, a: seq<NodeId>, b: seq<NodeId>)
    requires IsPath(g, a) && IsPath(g, b) && a[|a| - 1] == b[0]
    ensures IsPath(g, a + b[1..]) && (a + b[1..])[0] == a[0] && (a + b[1..])[|a + b[1..]| - 1] == b[|b| - 1]
    ensures |a + b[1..]| == |a| + |b| - 1
  {
    var r := a + b[1..];
    forall i | 0 <= i < |r| - 1 ensures HasEdge(g, r[i], r[i + 1]) {
      if i < |a| - 1 {
        assert r[i] == a[i] && r[i + 1] == a[i + 1];
      } else {
        assert r[i] == b[i - |a| + 1] && r[i + 1] == b[i - |a| + 2];
      }
    }
  }

  // Reaching is transitive.
  lemma ReachesTrans(g: Graph, u: NodeId, v: NodeId, w: NodeId)
    requires Reaches(g, u, v) && Reaches(g, v, w)
    ensures Reaches(g, u, w)
  {
    var a :| IsPath(g, a) && |a| >= 2 && a[0] == u && a[|a| - 1] == v;
    var b :| IsPath(g, b) && |b| >= 2 && b[0] == v && b[|b| - 1] == w;
    PathJoin(g, a, b);
  }

  // Consecutive nodes of a path are joined by an edge.
  lemma PathEdge(g: Graph, path: seq<NodeId>, i: nat)
    requires IsPath(g, path) && i + 1 < |path|
    ensures HasEdge(g, path[i], path[i + 1])
  {
  }

  // A path split at an inner position leaves two paths.
  lemma PathSplit(g: Graph, path: seq<NodeId>, i: nat)
    requires IsPath(g, path) && i < |path|
    ensures IsPath(g, path[..i + 1]) && IsPath(g, path[i..])
  {
    var a := path[..i + 1];
    var b := path[i..];
    forall k | 0 <= k < |a| - 1 ensures HasEdge(g, a[k], a[k + 1]) {
      assert a[k] == path[k] && a[k + 1] == path[k + 1];
    }
    forall k | 0 <= k < |b| - 1 ensures HasEdge(g, b[k], b[k + 1]) {
      assert b[k] == path[i + k] && b[k + 1] == path[i + k + 1];
    }
  }

  // Paths only see the edges and the direction of a graph.
  lemma SameReach(g: Graph, h: Graph)
    requires g.edges == h.edges && g.directed == h.directed
    ensures forall u, v :: Reaches(g, u, v) <==> Reaches(h, u, v)
  {
    assert forall u, v :: HasEdge(g, u, v) == HasEdge(h, u, v);
    assert forall path :: IsPath(g, path) <==> IsPath(h, path);
  }

  /* ---------------- Topological orders ---------------- */

  // A graph with a topological order has no self-loop.
  lemma TopologicalLoopFree(order: seq<NodeId>, g: Graph)
    requires Valid(g) && IsTopologicalOrder(order, g)
    ensures forall e :: e in g.edges ==> e.src != e.tgt
  {
    forall e | e in g.edges ensures e.src != e.tgt {
      assert e.src in order;
      var i :| 0 <= i < |order| && order[i] == e.src;
      assert !HasEdge(g, order[i], order[i]);
    }
  }

  // In a directed graph, a path goes forward in a topological order.
  lemma {:induction false} TopologicalForward(order: seq<NodeId>, g: Graph, path: seq<NodeId>, i: nat, j: nat)
    requires Valid(g) && g.directed && IsTopologicalOrder(order, g) && IsPath(g, path) && |path| >= 2
    requires i < |order| && j < |order| && order[i] == path[0] && order[j] == path[|path| - 1]
    ensures i < j
    decreases |path|
  {
    assert HasEdge(g, path[0], path[1]);
    var e :| e in g.edges && Joins(g.directed, e, path[0], path[1]);
    assert path[1] in order;
    var k :| 0 <= k < |order| && order[k] == path[1];
    assert HasEdge(g, order[i], order[k]);
    if |path| > 2 {
      PathSplit(g, path, 1);
      TopologicalForward(order, g, path[1..], k, j);
    } else {
      assert k == j by {
        DistinctIndex(order, k, j);
      }
    }
  }

  // Positions of a sequence without repetition are determined by their
  // elements.
  lemma DistinctIndex(s: seq<NodeId>, i: nat, j: nat)
    requires Distinct(s) && i < |s| && j < |s| && s[i] == s[j]
    ensures i == j
  {
  }

  // A directed graph with a topological order reaches no node from itself.
  lemma TopologicalAcyclic(order: seq<NodeId>, g: Graph, u: NodeId)
    requires Valid(g) && g.directed && IsTopologicalOrder(order, g) && u in g.data
    ensures !Reaches(g, u, u)
  {
    if Reaches(g, u, u) {
      var path :| IsPath(g, path) && |path| >= 2 && path[0] == u && path[|path| - 1] == u;
      var i :| 0 <= i < |order| && order[i] == u;
      TopologicalForward(order, g, path, i, i);
    }
  }

  /* ---------------- transitive_closure ---------------- */

  // The search options of a closure: out-edges only, every node and edge
  // accepted.
  function Forward(): Options
  {
    Options(false, false, (n: NodeId) => true, (e: Edge) => true)
  }

  // In a directed graph, the forward walks of the search are the paths.
  lemma ForwardWalks(g: Graph, path: seq<NodeId>)
    requires g.directed
    ensures Walk(g, Forward(), path) <==> IsPath(g, path)
  {
    var o := Forward();
    forall p, c ensures Leads(g, o, p, c) <==> HasEdge(g, p, c) {
      if HasEdge(g, p, c) {
        var e :| e in g.edges && Joins(g.directed, e, p, c);
        assert e in EdgesOf(g, p, o) && Child(e, p) == c;
      }
    }
  }

  // The nodes a forward search from v visits are v and the nodes v
  // reaches.
  lemma SearchReach(g: Graph, v: NodeId, nodes: seq<NodeId>, parent: seq<nat>, x: NodeId)
    requires g.directed && Discovery(g, Forward(), v, nodes, parent) && Closed(g, Forward(), nodes)
    ensures x in nodes <==> x == v || Reaches(g, v, x)
  {
    BfsReach(g, Forward(), v, nodes, parent, x);
    if x in nodes {
      var path :| Walk(g, Forward(), path) && path[0] == v && path[|path| - 1] == x;
      ForwardWalks(g, path);
    }
    if Reaches(g, v, x) {
      var path :| IsPath(g, path) && |path| >= 2 && path[0] == v && path[|path| - 1] == x;
      ForwardWalks(g, path);
    }
    if x == v {
      ForwardWalks(g, [v]);
    }
  }

  // `transitive_closure(g)` on a well-formed directed graph: the nodes of
  // g, then, node by node, an edge to every other node a search from it
  // visits.
  method TransitiveClosure(g: Graph) returns (cl: Graph)
    requires Valid(g) && g.directed
    ensures IsClosureOf(cl, g)
  {
    cl := Graph(true, map[], g.nodes, map v | v in g.data :: map[], []);
    var i := 0;
    while i < |g.nodes|
      invariant 0 <= i <= |g.nodes|
      invariant Valid(cl) && cl.directed && cl.data.Keys == g.data.Keys
      invariant forall u, w :: HasEdge(cl, u, w) <==> u in g.nodes[..i] && u != w && Reaches(g, u, w)
    {
      var v := g.nodes[i];
      var nodes, _, parent := Bfs(g, v, Forward());
      DistinctAt(g.nodes, i);
      cl := AddClosureEdges(g, cl, g.nodes[..i], v, nodes, parent);
      PrefixStep(g.nodes, i);
      i := i + 1;
    }
    WholePrefix(g.nodes);
    forall u, w | Reaches(g, u, w) ensures u in g.nodes {
      ReachesFromNode(g, u, w);
    }
  }

  // Only a node of a well-formed graph reaches anything.
  lemma ReachesFromNode(g: Graph, u: NodeId, w: NodeId)
    requires Valid(g) && Reaches(g, u, w)
    ensures u in g.data && w in g.data
  {
    var path :| IsPath(g, path) && |path| >= 2 && path[0] == u && path[|path| - 1] == w;
    assert HasEdge(g, path[0], path[1]);
    var e :| e in g.edges && Joins(g.directed, e, path[0], path[1]);
    var f :| f in g.edges && Joins(g.directed, f, path[|path| - 2], path[|path| - 1]);
  }

  // The edges from v to every other node its search visited.
  method AddClosureEdges(g: Graph, cl: Graph, ghost done: seq<NodeId>, v: NodeId, nodes: seq<NodeId>, ghost parent: seq<nat>)
    returns (r: Graph)
    requires Valid(g) && g.directed && v in g.data && v !in done
    requires Discovery(g, Forward(), v, nodes, parent) && Closed(g, Forward(), nodes)
    requires Valid(cl) && cl.directed && cl.data.Keys == g.data.Keys
    requires forall u, w :: HasEdge(cl, u, w) <==> u in done && u != w && Reaches(g, u, w)
    ensures Valid(r) && r.directed && r.data.Keys == g.data.Keys
    ensures forall u, w :: HasEdge(r, u, w) <==> u in done + [v] && u != w && Reaches(g, u, w)
  {
    r := cl;
    var j := 0;
    while j < |nodes|
      invariant 0 <= j <= |nodes|
      invariant Valid(r) && r.directed && r.data.Keys == g.data.Keys
      invariant forall u, w :: HasEdge(r, u, w) <==> (u in done && u != w && Reaches(g, u, w)) || (u == v && w in nodes[..j] && w != v)
    {
      var w := nodes[j];
      ghost var prev := r;
      if w != v {
        r := AddEdge(r, v, w, map[]);
      }
      ClosureRowStep(g, prev, r, done, v, nodes, j);
      j := j + 1;
    }
    WholePrefix(nodes);
    ClosureRowDone(g, r, done, v, nodes, parent);
  }

  // Once every visited node has its edge, v's row of the closure is
  // complete.
  lemma ClosureRowDone(g: Graph, r: Graph, done: seq<NodeId>, v: NodeId, nodes: seq<NodeId>, parent: seq<nat>)
    requires g.directed && Discovery(g, Forward(), v, nodes, parent) && Closed(g, Forward(), nodes)
    requires forall u, w :: HasEdge(r, u, w) <==> (u in done && u != w && Reaches(g, u, w)) || (u == v && w in nodes && w != v)
    ensures forall u, w :: HasEdge(r, u, w) <==> u in done + [v] && u != w && Reaches(g, u, w)
  {
    forall u, w ensures HasEdge(r, u, w) <==> u in done + [v] && u != w && Reaches(g, u, w) {
      SearchReach(g, v, nodes, parent, w);
    }
  }

  // One more visited node handled.
  lemma ClosureRowStep(g: Graph, r: Graph, r': Graph, done: seq<NodeId>, v: NodeId, nodes: seq<NodeId>, j: nat)
    requires j < |nodes| && nodes[j] in g.data && v in g.data
    requires Valid(r) && r.directed && r.data.Keys == g.data.Keys
    requires forall u, w :: HasEdge(r, u, w) <==> (u in done && u != w && Reaches(g, u, w)) || (u == v && w in nodes[..j] && w != v)
    requires r' == if nodes[j] != v then AddEdge(r, v, nodes[j], map[]) else r
    ensures Valid(r') && r'.directed && r'.data.Keys == g.data.Keys
    ensures forall u, w :: HasEdge(r', u, w) <==> (u in done && u != w && Reaches(g, u, w)) || (u == v && w in nodes[..j + 1] && w != v)
  {
    PrefixStep(nodes, j);
    if nodes[j] != v {
      AddEdgeValid(r, v, nodes[j], map[]);
      ClosureEdgeStep(r, v, nodes[j]);
    }
  }

  // Adding an edge from v to w adds exactly that pair to the edge relation.
  lemma ClosureEdgeStep(g: Graph, v: NodeId, w: NodeId)
    requires g.directed
    ensures forall a, b :: HasEdge(AddEdge(g, v, w, map[]), a, b) <==> HasEdge(g, a, b) || (a == v && b == w)
  {
    var r := AddEdge(g, v, w, map[]);
    var x := Edge(v, w, NewKey(g, v, w), map[]);
    assert r.edges == g.edges + [x];
    assert x in r.edges;
  }
}
