// Visitor-controlled breadth-first search over a multigraph (`bfs`).
module GraphAlgorithms {
  import opened Base
  import opened Graphs

  // The options of `bfs` that decide what is traversed. `visitNode` is
  // called for every node taken from the queue and says whether its edges
  // are examined; `visitEdge` is called for every examined edge and says
  // whether its other end may be queued. A missing callback is the constant
  // `true` one. The `data` and `keys` flags only choose which parts of a node
  // or edge the callbacks see; here they always receive all of them.
  datatype Options = Options(undirected: bool, reverse: bool, visitNode: NodeId -> bool, visitEdge: Edge -> bool)

  // The edges examined from n, in order: out-edges; in-edges with `reverse`;
  // in-edges then out-edges with `undirected`; in an undirected graph, the
  // incident edges oriented away from n.
  function EdgesOf(g: Graph, n: NodeId, o: Options): (r: seq<Edge>)
    ensures forall e :: e in r ==> e.src == n || e.tgt == n
  {
    if !g.directed then Incident(g.edges, n)
    else if o.undirected then EdgesInto(g.edges, n) + EdgesFrom(g.edges, n)
    else if o.reverse then EdgesInto(g.edges, n)
    else EdgesFrom(g.edges, n)
  }

  // The end of an examined edge away from n.
  function Child(e: Edge, n: NodeId): NodeId
  {
    if e.tgt == n then e.src else e.tgt
  }

  // The search may step from p to c: p's edges are examined and one of them
  // is accepted and leads to c.
  ghost predicate Leads(g: Graph, o: Options, p: NodeId, c: NodeId)
  {
    o.visitNode(p) && exists e :: e in EdgesOf(g, p, o) && o.visitEdge(e) && Child(e, p) == c
  }

  // The edges handed to `visitEdge` when the nodes ns are taken from the
  // queue in this order.
  function Expanded(g: Graph, o: Options, ns: seq<NodeId>): (r: seq<Edge>)
  {
    if ns == [] then []
    else
      var n := ns[|ns| - 1];
      Expanded(g, o, ns[..|ns| - 1]) + (if o.visitNode(n) then EdgesOf(g, n, o) else [])
  }

  // nodes is a breadth-first discovery order from source: no node twice,
  // each node after the first was reached by an accepted edge from an
  // earlier node (its parent), parents never go backwards (first in, first
  // out), and no node could have been reached from a node before its parent.
  ghost predicate Discovery(g: Graph, o: Options, source: NodeId, nodes: seq<NodeId>, parent: seq<nat>)
  {
    |nodes| >= 1 && nodes[0] == source && Distinct(nodes) &&
    (forall x :: x in nodes ==> x in g.data) &&
    |parent| == |nodes| &&
    (forall k :: 0 < k < |nodes| ==> parent[k] < k && Leads(g, o, nodes[parent[k]], nodes[k])) &&
    (forall k, l :: 0 < k < l < |nodes| ==> parent[k] <= parent[l])
  }

  // Every accepted edge of an expanded node leads to a node of the order.
  ghost predicate Closed(g: Graph, o: Options, nodes: seq<NodeId>)
  {
    forall p, e :: 0 <= p < |nodes| && o.visitNode(nodes[p]) && e in EdgesOf(g, nodes[p], o) && o.visitEdge(e) ==>
      Child(e, nodes[p]) in nodes
  }

  // No node was reachable in one step from a node before its parent.
  ghost predicate Earliest(g: Graph, o: Options, nodes: seq<NodeId>, parent: seq<nat>)
    requires |parent| == |nodes|
  {
    forall k, p :: 0 < k < |nodes| && 0 <= p < parent[k] && p < |nodes| ==> !Leads(g, o, nodes[p], nodes[k])
  }

  // `bfs(graph, source, ...)`: the nodes passed to `visit_node` and the
  // edges passed to `visit_edge`, in call order. `parent` records, for each
  // visited node after the source, the position of the node whose edge
  // queued it.
  method Bfs(g: Graph, source: NodeId, o: Options) returns (nodes: seq<NodeId>, edges: seq<Edge>, ghost parent: seq<nat>)
    requires Valid(g) && source in g.data
    ensures Discovery(g, o, source, nodes, parent) && Earliest(g, o, nodes, parent)
    ensures Closed(g, o, nodes) && Siblings(g, o, nodes, parent)
    ensures edges == Expanded(g, o, nodes)
  {
    var visited := {source};
    var queue := [source];
    nodes := [];
    edges := [];
    ghost var order := [source];
    parent := [0];
    while queue != []
      invariant Searched(g, o, source, order, parent, visited, |nodes|)
      invariant Siblings(g, o, order, parent) && (nodes == [] ==> |order| == 1)
      invariant nodes == order[..|nodes|] && queue == order[|nodes|..]
      invariant edges == Expanded(g, o, nodes)
      decreases |g.data.Keys| - |nodes|
    {
      VisitedBound(g, visited);
      nodes, edges, visited, queue, order, parent := VisitNext(g, o, source, nodes, edges, visited, queue, order, parent);
    }
    WholePrefix(order);
    assert nodes == order;
    ClosedEarliest(g, o, nodes, parent);
  }

  // One turn of the outer loop of `bfs`: the head of the queue is taken
  // and, when `visit_node` accepts it, its edges are examined.
  method VisitNext(g: Graph, o: Options, ghost source: NodeId, nodes: seq<NodeId>, edges: seq<Edge>,
                   visited: set<NodeId>, queue: seq<NodeId>, ghost order: seq<NodeId>, ghost parent: seq<nat>)
    returns (nodes': seq<NodeId>, edges': seq<Edge>, visited': set<NodeId>, queue': seq<NodeId>,
             ghost order': seq<NodeId>, ghost parent': seq<nat>)
    requires Valid(g) && queue != []
    requires Searched(g, o, source, order, parent, visited, |nodes|)
    requires Siblings(g, o, order, parent) && (nodes == [] ==> |order| == 1)
    requires nodes == order[..|nodes|] && queue == order[|nodes|..]
    requires edges == Expanded(g, o, nodes)
    ensures Searched(g, o, source, order', parent', visited', |nodes'|)
    ensures Siblings(g, o, order', parent') && (nodes' == [] ==> |order'| == 1)
    ensures nodes' == order'[..|nodes'|] && queue' == order'[|nodes'|..]
    ensures edges' == Expanded(g, o, nodes')
    ensures |nodes'| == |nodes| + 1
  {
    var node := queue[0];
    ghost var h := |nodes|;
    PopStep(order, h);
    queue' := queue[1..];
    ExpandedStep(g, o, nodes, node);
    nodes' := nodes + [node];
    if o.visitNode(node) {
      var examined;
      visited', queue', examined, order', parent' := ExamineEdges(g, o, source, node, h, visited, queue', order, parent);
      edges' := edges + examined;
      assert Searched(g, o, source, order', parent', visited', |nodes'|);
    } else {
      visited', order', parent', edges' := visited, order, parent, edges;
      SearchedSkip(g, o, source, order, parent, visited, h);
      assert Searched(g, o, source, order', parent', visited', |nodes'|);
    }
  }

  // A node `visit_node` rejects is explored without examining its edges.
  lemma SearchedSkip(g: Graph, o: Options, source: NodeId, order: seq<NodeId>, parent: seq<nat>, visited: set<NodeId>, h: nat)
    requires Searched(g, o, source, order, parent, visited, h) && h < |order| && !o.visitNode(order[h])
    ensures Searched(g, o, source, order, parent, visited, h + 1)
  {
    ExploredSkip(g, o, order, parent, h);
  }

  // The search state after the first n queued nodes were taken: order holds
  // every queued node, visited is its set, the first n are explored and the
  // rest were queued by them.
  ghost predicate Searched(g: Graph, o: Options, source: NodeId, order: seq<NodeId>, parent: seq<nat>, visited: set<NodeId>, n: nat)
  {
    n <= |order| && Discovery(g, o, source, order, parent) && Explored(g, o, order, parent, n) &&
    (forall k :: 0 < k < |order| ==> parent[k] < n || (n == 0 && parent[k] == 0)) &&
    (forall x :: x in visited <==> x in order) && |visited| == |order|
  }

  // The inner loop of `bfs`: every edge of node (at position h of the queue
  // order) is handed to `visitEdge`; an accepted edge whose other end was
  // not yet visited queues that end.
  method ExamineEdges(g: Graph, o: Options, ghost source: NodeId, node: NodeId, ghost h: nat,
                      visited: set<NodeId>, queue: seq<NodeId>, ghost order: seq<NodeId>, ghost parent: seq<nat>)
    returns (visited': set<NodeId>, queue': seq<NodeId>, examined: seq<Edge>, ghost order': seq<NodeId>, ghost parent': seq<nat>)
    requires Valid(g) && h < |order| && order[h] == node && o.visitNode(node)
    requires Searched(g, o, source, order, parent, visited, h) && queue == order[h + 1..]
    requires Siblings(g, o, order, parent) && (h == 0 ==> |order| == 1)
    ensures Searched(g, o, source, order', parent', visited', h + 1) && queue' == order'[h + 1..]
    ensures Siblings(g, o, order', parent')
    ensures |order'| >= |order| && order'[..|order|] == order
    ensures examined == EdgesOf(g, node, o)
  {
    var es := EdgesOf(g, node, o);
    ExamineStart(g, o, source, order, parent, visited, queue, h);
    visited', queue', order', parent' := visited, queue, order, parent;
    var j := 0;
    while j < |es|
      invariant Examining(g, o, source, order, h, order', parent', visited', queue', es, j)
      invariant Ranked(o, es, node, order, parent, order', parent', h, j)
    {
      var e := es[j];
      var child := Child(e, node);
      if o.visitEdge(e) && child !in visited' {
        RankedAdd(o, es, node, order, parent, order', parent', h, j, child);
        ExamineAdd(g, o, source, order, h, order', parent', visited', queue', es, j);
        visited' := visited' + {child};
        queue' := queue' + [child];
        order' := order' + [child];
        parent' := parent' + [h];
      } else {
        ExamineSkip(g, o, source, order, h, order', parent', visited', queue', es, j);
      }
      j := j + 1;
    }
    examined := es;
    ExamineFinish(g, o, source, order, h, order', parent', visited', queue', es);
    RankedSiblings(g, o, node, order, parent, order', parent', h);
  }

  /* ---------------- Order among siblings ---------------- */

  // The position in es of the first accepted edge from p leading to c, or
  // |es| when there is none.
  function FirstLead(es: seq<Edge>, o: Options, p: NodeId, c: NodeId): (i: nat)
    ensures i <= |es|
    ensures i < |es| ==> o.visitEdge(es[i]) && Child(es[i], p) == c
  {
    if es == [] then 0
    else if o.visitEdge(es[0]) && Child(es[0], p) == c then 0
    else 1 + FirstLead(es[1..], o, p, c)
  }

  lemma {:induction false} FirstLeadAt(es: seq<Edge>, o: Options, p: NodeId, c: NodeId, j: nat)
    requires j < |es| && o.visitEdge(es[j]) && Child(es[j], p) == c
    requires forall i :: 0 <= i < j && o.visitEdge(es[i]) ==> Child(es[i], p) != c
    ensures FirstLead(es, o, p, c) == j
    decreases j
  {
    if j > 0 {
      assert o.visitEdge(es[0]) ==> Child(es[0], p) != c;
      forall i | 0 <= i < j - 1 && o.visitEdge(es[1..][i]) ensures Child(es[1..][i], p) != c {
        assert es[1..][i] == es[i + 1];
      }
      FirstLeadAt(es[1..], o, p, c, j - 1);
    }
  }

  // The rank of the k-th node among the children of its parent: where its
  // first accepted edge stands among the parent's examined edges.
  function Rank(g: Graph, o: Options, nodes: seq<NodeId>, parent: seq<nat>, k: nat): nat
    requires k < |nodes| && k < |parent| && parent[k] < |nodes|
  {
    FirstLead(EdgesOf(g, nodes[parent[k]], o), o, nodes[parent[k]], nodes[k])
  }

  // Children of one node are queued in the order of the edges that lead to
  // them.
  ghost predicate Siblings(g: Graph, o: Options, nodes: seq<NodeId>, parent: seq<nat>)
  {
    |parent| == |nodes| &&
    (forall k :: 0 < k < |nodes| ==> parent[k] < k) &&
    forall k, l :: 0 < k < l < |nodes| && parent[k] == parent[l] ==> Rank(g, o, nodes, parent, k) < Rank(g, o, nodes, parent, l)
  }

  // The inner-loop state for the ranks: the nodes queued so far from the
  // node at position h were queued in the order of their first accepted
  // edge, all among the first j edges.
  ghost predicate Ranked(o: Options, es: seq<Edge>, node: NodeId, order0: seq<NodeId>, parent0: seq<nat>,
                         order: seq<NodeId>, parent: seq<nat>, h: nat, j: nat)
  {
    |order0| <= |order| && |parent| == |order| && |parent0| == |order0| &&
    parent[..|order0|] == parent0 && order[..|order0|] == order0 &&
    (forall k :: |order0| <= k < |order| ==> parent[k] == h && FirstLead(es, o, node, order[k]) < j) &&
    (forall k, l :: |order0| <= k < l < |order| ==> FirstLead(es, o, node, order[k]) < FirstLead(es, o, node, order[l]))
  }

  lemma RankedAdd(o: Options, es: seq<Edge>, node: NodeId, order0: seq<NodeId>, parent0: seq<nat>,
                  order: seq<NodeId>, parent: seq<nat>, h: nat, j: nat, child: NodeId)
    requires Ranked(o, es, node, order0, parent0, order, parent, h, j)
    requires j < |es| && o.visitEdge(es[j]) && child == Child(es[j], node) && child !in order
    requires forall i :: 0 <= i < j && o.visitEdge(es[i]) ==> Child(es[i], node) in order
    ensures Ranked(o, es, node, order0, parent0, order + [child], parent + [h], h, j + 1)
  {
    forall i | 0 <= i < j && o.visitEdge(es[i]) ensures Child(es[i], node) != child {
    }
    FirstLeadAt(es, o, node, child, j);
    var order', parent' := order + [child], parent + [h];
    assert parent'[..|order0|] == parent[..|order0|];
    assert order'[..|order0|] == order[..|order0|];
    forall k | |order0| <= k < |order'| ensures parent'[k] == h && FirstLead(es, o, node, order'[k]) < j + 1 {
      if k < |order| {
        assert order'[k] == order[k] && parent'[k] == parent[k];
      }
    }
    forall k, l | |order0| <= k < l < |order'| ensures FirstLead(es, o, node, order'[k]) < FirstLead(es, o, node, order'[l]) {
      assert order'[k] == order[k];
      if l < |order| {
        assert order'[l] == order[l];
      }
    }
  }

  // The nodes queued from the node at position h come after every node of
  // the earlier queue order, none of which has h for parent: the siblings
  // stay ordered.
  lemma RankedSiblings(g: Graph, o: Options, node: NodeId, order0: seq<NodeId>, parent0: seq<nat>,
                       order: seq<NodeId>, parent: seq<nat>, h: nat)
    requires Ranked(o, EdgesOf(g, node, o), node, order0, parent0, order, parent, h, |EdgesOf(g, node, o)|)
    requires Siblings(g, o, order0, parent0) && h < |order0| && order0[h] == node
    requires forall k :: 0 < k < |order0| ==> parent0[k] < h
    ensures Siblings(g, o, order, parent)
  {
    assert forall k :: 0 <= k < |order0| ==> order[k] == order0[k] && parent[k] == parent0[k] by {
      forall k | 0 <= k < |order0| ensures order[k] == order0[k] && parent[k] == parent0[k] {
        assert order[..|order0|][k] == order[k] && parent[..|order0|][k] == parent[k];
      }
    }
    forall k | 0 < k < |order| ensures parent[k] < k {
    }
    forall k, l | 0 < k < l < |order| && parent[k] == parent[l] ensures Rank(g, o, order, parent, k) < Rank(g, o, order, parent, l) {
      if l < |order0| {
        assert Rank(g, o, order, parent, k) == Rank(g, o, order0, parent0, k);
        assert Rank(g, o, order, parent, l) == Rank(g, o, order0, parent0, l);
      } else if k >= |order0| {
        assert order[parent[k]] == node && order[parent[l]] == node;
      }
    }
  }

  // The inner-loop state: the node at position h is being explored, and
  // every node was queued by it or before it.
  ghost predicate Frontier(g: Graph, o: Options, source: NodeId, order: seq<NodeId>, parent: seq<nat>, visited: set<NodeId>, h: nat)
  {
    h < |order| && Discovery(g, o, source, order, parent) && Explored(g, o, order, parent, h) &&
    o.visitNode(order[h]) &&
    (forall k :: 0 < k < |order| ==> parent[k] <= h) &&
    (forall x :: x in visited <==> x in order) && |visited| == |order|
  }

  // The accepted edges among the first j of es lead into order.
  ghost predicate Examined(o: Options, order: seq<NodeId>, node: NodeId, es: seq<Edge>, j: nat)
  {
    j <= |es| && forall i :: 0 <= i < j && o.visitEdge(es[i]) ==> Child(es[i], node) in order
  }

  // The whole inner-loop state after the first j edges of the node at
  // position h were examined, starting from the queue order order0.
  ghost predicate Examining(g: Graph, o: Options, source: NodeId, order0: seq<NodeId>, h: nat,
                            order: seq<NodeId>, parent: seq<nat>, visited: set<NodeId>, queue: seq<NodeId>, es: seq<Edge>, j: nat)
  {
    Valid(g) && h < |order0| && |order| >= |order0| && order[..|order0|] == order0 &&
    Frontier(g, o, source, order, parent, visited, h) && es == EdgesOf(g, order[h], o) &&
    Examined(o, order, order[h], es, j) && queue == order[h + 1..]
  }

  lemma ExamineStart(g: Graph, o: Options, source: NodeId, order: seq<NodeId>, parent: seq<nat>, visited: set<NodeId>,
                     queue: seq<NodeId>, h: nat)
    requires Valid(g) && h < |order| && o.visitNode(order[h])
    requires Searched(g, o, source, order, parent, visited, h) && queue == order[h + 1..]
    ensures Examining(g, o, source, order, h, order, parent, visited, queue, EdgesOf(g, order[h], o), 0)
  {
    WholePrefix(order);
  }

  lemma ExamineAdd(g: Graph, o: Options, source: NodeId, order0: seq<NodeId>, h: nat,
                   order: seq<NodeId>, parent: seq<nat>, visited: set<NodeId>, queue: seq<NodeId>, es: seq<Edge>, j: nat)
    requires Examining(g, o, source, order0, h, order, parent, visited, queue, es, j) && j < |es|
    requires o.visitEdge(es[j]) && Child(es[j], order[h]) !in visited
    ensures var child := Child(es[j], order[h]);
      Examining(g, o, source, order0, h, order + [child], parent + [h], visited + {child}, queue + [child], es, j + 1)
  {
    var child := Child(es[j], order[h]);
    assert es[j] in es;
    EdgesOfEnds(g, order[h], o);
    FrontierAdd(g, o, source, order, parent, visited, h, es[j], child);
    ExaminedAdd(o, order, order[h], es, j, child);
    assert (order + [child])[h] == order[h];
    DropAppend(order, h + 1, child);
    PrefixAppend(order, |order0|, child);
  }

  lemma FrontierAdd(g: Graph, o: Options, source: NodeId, order: seq<NodeId>, parent: seq<nat>, visited: set<NodeId>,
                    h: nat, e: Edge, child: NodeId)
    requires Frontier(g, o, source, order, parent, visited, h)
    requires e in EdgesOf(g, order[h], o) && o.visitEdge(e) && child == Child(e, order[h])
    requires child !in visited && child in g.data
    ensures Frontier(g, o, source, order + [child], parent + [h], visited + {child}, h)
  {
    DiscoverStep(g, o, source, order, parent, h, e, child);
    assert (order + [child])[h] == order[h];
  }

  lemma ExaminedAdd(o: Options, order: seq<NodeId>, node: NodeId, es: seq<Edge>, j: nat, child: NodeId)
    requires Examined(o, order, node, es, j) && j < |es| && child == Child(es[j], node)
    ensures Examined(o, order + [child], node, es, j + 1)
  {
    assert forall x :: x in order ==> x in order + [child];
  }

  lemma ExamineSkip(g: Graph, o: Options, source: NodeId, order0: seq<NodeId>, h: nat,
                    order: seq<NodeId>, parent: seq<nat>, visited: set<NodeId>, queue: seq<NodeId>, es: seq<Edge>, j: nat)
    requires Examining(g, o, source, order0, h, order, parent, visited, queue, es, j) && j < |es|
    requires !(o.visitEdge(es[j]) && Child(es[j], order[h]) !in visited)
    ensures Examining(g, o, source, order0, h, order, parent, visited, queue, es, j + 1)
  {
  }

  lemma ExamineFinish(g: Graph, o: Options, source: NodeId, order0: seq<NodeId>, h: nat,
                      order: seq<NodeId>, parent: seq<nat>, visited: set<NodeId>, queue: seq<NodeId>, es: seq<Edge>)
    requires Examining(g, o, source, order0, h, order, parent, visited, queue, es, |es|)
    ensures Searched(g, o, source, order, parent, visited, h + 1) && queue == order[h + 1..]
    ensures |order| >= |order0| && order[..|order0|] == order0 && order[h] == order0[h]
  {
    ExploredNode(g, o, order, parent, h);
  }

  lemma PopStep(order: seq<NodeId>, h: nat)
    requires h < |order|
    ensures order[h..][0] == order[h] && order[h..][1..] == order[h + 1..]
    ensures order[..h + 1] == order[..h] + [order[h]]
  {
  }

  lemma DropAppend<T>(s: seq<T>, n: nat, x: T)
    requires n <= |s|
    ensures (s + [x])[n..] == s[n..] + [x]
  {
  }

  lemma PrefixAppend<T>(s: seq<T>, n: nat, x: T)
    requires n <= |s|
    ensures (s + [x])[..n] == s[..n]
  {
  }

  // Accepted edges of the first n expanded nodes lead to nodes whose parent
  // is at most the expanding node (or to the source).
  ghost predicate Explored(g: Graph, o: Options, order: seq<NodeId>, parent: seq<nat>, n: nat)
  {
    |parent| == |order| &&
    forall p, e :: 0 <= p < n && p < |order| && o.visitNode(order[p]) && e in EdgesOf(g, order[p], o) && o.visitEdge(e) ==>
      exists k :: 0 <= k < |order| && order[k] == Child(e, order[p]) && (k == 0 || parent[k] <= p)
  }

  lemma VisitedBound(g: Graph, visited: set<NodeId>)
    requires forall x :: x in visited ==> x in g.data
    ensures |visited| <= |g.data.Keys|
  {
    SubsetCard(visited, g.data.Keys);
  }

  lemma ExpandedStep(g: Graph, o: Options, ns: seq<NodeId>, n: NodeId)
    ensures Expanded(g, o, ns + [n]) == Expanded(g, o, ns) + (if o.visitNode(n) then EdgesOf(g, n, o) else [])
  {
    assert (ns + [n])[..|ns|] == ns;
  }

  // The examined edges of a node of a well-formed graph end at nodes.
  lemma EdgesOfEnds(g: Graph, n: NodeId, o: Options)
    requires Valid(g) && n in g.data
    ensures forall e :: e in EdgesOf(g, n, o) ==> e.src in g.data && e.tgt in g.data
  {
    if !g.directed {
      IncidentEnds(g.edges, n, g.data);
    }
  }

  // Queuing child, reached from the node at position h, keeps the discovery
  // order and what was explored.
  lemma DiscoverStep(g: Graph, o: Options, source: NodeId, order: seq<NodeId>, parent: seq<nat>, h: nat, e: Edge, child: NodeId)
    requires Discovery(g, o, source, order, parent) && Explored(g, o, order, parent, h)
    requires h < |order| && forall k :: 0 < k < |order| ==> parent[k] <= h
    requires o.visitNode(order[h]) && e in EdgesOf(g, order[h], o) && o.visitEdge(e) && child == Child(e, order[h])
    requires child !in order && child in g.data
    ensures Discovery(g, o, source, order + [child], parent + [h])
    ensures Explored(g, o, order + [child], parent + [h], h)
  {
    assert Leads(g, o, order[h], child);
    DiscoverParents(g, o, source, order, parent, h, child);
    DiscoverDistinct(order, child);
    DiscoverExplored(g, o, order, parent, h, child);
  }

  lemma DiscoverParents(g: Graph, o: Options, source: NodeId, order: seq<NodeId>, parent: seq<nat>, h: nat, child: NodeId)
    requires Discovery(g, o, source, order, parent)
    requires h < |order| && forall k :: 0 < k < |order| ==> parent[k] <= h
    requires Leads(g, o, order[h], child) && child in g.data
    ensures var order', parent' := order + [child], parent + [h];
      |order'| >= 1 && order'[0] == source && (forall x :: x in order' ==> x in g.data) && |parent'| == |order'| &&
      (forall k :: 0 < k < |order'| ==> parent'[k] < k && Leads(g, o, order'[parent'[k]], order'[k])) &&
      (forall k, l :: 0 < k < l < |order'| ==> parent'[k] <= parent'[l])
  {
    DiscoverLeads(g, o, order, parent, h, child);
    DiscoverMonotone(order, parent, h, child);
    assert forall x :: x in order + [child] ==> x in order || x == child;
  }

  lemma DiscoverLeads(g: Graph, o: Options, order: seq<NodeId>, parent: seq<nat>, h: nat, child: NodeId)
    requires |parent| == |order| && h < |order|
    requires forall k :: 0 < k < |order| ==> parent[k] < k && Leads(g, o, order[parent[k]], order[k])
    requires Leads(g, o, order[h], child)
    ensures var order', parent' := order + [child], parent + [h];
      forall k :: 0 < k < |order'| ==> parent'[k] < k && Leads(g, o, order'[parent'[k]], order'[k])
  {
    var order', parent' := order + [child], parent + [h];
    forall k | 0 < k < |order'| ensures parent'[k] < k && Leads(g, o, order'[parent'[k]], order'[k]) {
      if k < |order| {
        assert order'[k] == order[k] && parent'[k] == parent[k] && order'[parent[k]] == order[parent[k]];
      } else {
        assert order'[k] == child && parent'[k] == h && order'[h] == order[h];
      }
    }
  }

  lemma DiscoverMonotone(order: seq<NodeId>, parent: seq<nat>, h: nat, child: NodeId)
    requires |parent| == |order|
    requires forall k :: 0 < k < |order| ==> parent[k] <= h
    requires forall k, l :: 0 < k < l < |order| ==> parent[k] <= parent[l]
    ensures var order', parent' := order + [child], parent + [h];
      forall k, l :: 0 < k < l < |order'| ==> parent'[k] <= parent'[l]
  {
    var parent' := parent + [h];
    assert forall k :: 0 <= k < |order| ==> parent'[k] == parent[k];
  }

  lemma DiscoverDistinct(order: seq<NodeId>, child: NodeId)
    requires Distinct(order) && child !in order
    ensures Distinct(order + [child])
  {
    var order' := order + [child];
    forall i, j | 0 <= i < j < |order'| ensures order'[i] != order'[j] {
      if j == |order| {
        assert order[i] in order;
      } else {
        assert order'[i] == order[i] && order'[j] == order[j];
      }
    }
  }

  lemma DiscoverExplored(g: Graph, o: Options, order: seq<NodeId>, parent: seq<nat>, h: nat, child: NodeId)
    requires Explored(g, o, order, parent, h) && h <= |order|
    ensures Explored(g, o, order + [child], parent + [h], h)
  {
    var order' := order + [child];
    var parent' := parent + [h];
    forall p, e | 0 <= p < h && p < |order'| && o.visitNode(order'[p]) && e in EdgesOf(g, order'[p], o) && o.visitEdge(e)
      ensures exists k :: 0 <= k < |order'| && order'[k] == Child(e, order'[p]) && (k == 0 || parent'[k] <= p)
    {
      assert order'[p] == order[p];
      var k :| 0 <= k < |order| && order[k] == Child(e, order[p]) && (k == 0 || parent[k] <= p);
      assert order'[k] == order[k] && parent'[k] == parent[k];
    }
  }

  // After all edges of the node at position h were examined, it counts as
  // explored.
  lemma ExploredNode(g: Graph, o: Options, order: seq<NodeId>, parent: seq<nat>, h: nat)
    requires Explored(g, o, order, parent, h) && h < |order| && o.visitNode(order[h])
    requires forall k :: 0 < k < |order| ==> parent[k] <= h
    requires forall e :: e in EdgesOf(g, order[h], o) && o.visitEdge(e) ==> Child(e, order[h]) in order
    ensures Explored(g, o, order, parent, h + 1)
  {
    forall p, e | 0 <= p < h + 1 && p < |order| && o.visitNode(order[p]) && e in EdgesOf(g, order[p], o) && o.visitEdge(e)
      ensures exists k :: 0 <= k < |order| && order[k] == Child(e, order[p]) && (k == 0 || parent[k] <= p)
    {
      if p == h {
        var c := Child(e, order[h]);
        var k :| 0 <= k < |order| && order[k] == c;
        assert k == 0 || parent[k] <= p;
      }
    }
  }

  lemma ExploredSkip(g: Graph, o: Options, order: seq<NodeId>, parent: seq<nat>, h: nat)
    requires Explored(g, o, order, parent, h) && h < |order| && !o.visitNode(order[h])
    ensures Explored(g, o, order, parent, h + 1)
  {
  }

  // When every node is explored, the order is closed and every parent is
  // the earliest possible one.
  lemma ClosedEarliest(g: Graph, o: Options, nodes: seq<NodeId>, parent: seq<nat>)
    requires |parent| == |nodes| && Distinct(nodes) && Explored(g, o, nodes, parent, |nodes|)
    ensures Closed(g, o, nodes) && Earliest(g, o, nodes, parent)
  {
    forall k, p | 0 < k < |nodes| && 0 <= p < parent[k] && p < |nodes| ensures !Leads(g, o, nodes[p], nodes[k]) {
      forall e | e in EdgesOf(g, nodes[p], o) && o.visitEdge(e) && o.visitNode(nodes[p]) ensures Child(e, nodes[p]) != nodes[k] {
        var k' :| 0 <= k' < |nodes| && nodes[k'] == Child(e, nodes[p]) && (k' == 0 || parent[k'] <= p);
        assert k' != k;
      }
    }
  }

  // A walk along which every step is one the search may take.
  ghost predicate Walk(g: Graph, o: Options, path: seq<NodeId>)
  {
    |path| >= 1 && forall i :: 0 <= i < |path| - 1 ==> Leads(g, o, path[i], path[i + 1])
  }

  // Every node of a discovery order is reached from the source by a walk:
  // follow the parents back to the source.
  lemma {:induction false} WalkTo(g: Graph, o: Options, source: NodeId, nodes: seq<NodeId>, parent: seq<nat>, k: nat)
    returns (path: seq<NodeId>)
    requires Discovery(g, o, source, nodes, parent) && k < |nodes|
    ensures Walk(g, o, path) && path[0] == source && path[|path| - 1] == nodes[k]
    decreases k
  {
    if k == 0 {
      path := [source];
    } else {
      var prefix := WalkTo(g, o, source, nodes, parent, parent[k]);
      path := prefix + [nodes[k]];
      forall i | 0 <= i < |path| - 1 ensures Leads(g, o, path[i], path[i + 1]) {
        if i < |prefix| - 1 {
          assert path[i] == prefix[i] && path[i + 1] == prefix[i + 1];
        } else {
          assert path[i] == nodes[parent[k]] && path[i + 1] == nodes[k];
        }
      }
    }
  }

  // A closed order that holds the start of a walk holds all of it.
  lemma {:induction false} WalkStaysIn(g: Graph, o: Options, nodes: seq<NodeId>, path: seq<NodeId>)
    requires Closed(g, o, nodes) && Walk(g, o, path) && path[0] in nodes
    ensures forall x :: x in path ==> x in nodes
    decreases |path|
  {
    if |path| > 1 {
      var prefix := path[..|path| - 1];
      assert Walk(g, o, prefix) by {
        forall i | 0 <= i < |prefix| - 1 ensures Leads(g, o, prefix[i], prefix[i + 1]) {
          assert prefix[i] == path[i] && prefix[i + 1] == path[i + 1];
        }
      }
      WalkStaysIn(g, o, nodes, prefix);
      var last := |path| - 2;
      assert path[last] in prefix;
      assert Leads(g, o, path[last], path[last + 1]);
      var p :| 0 <= p < |nodes| && nodes[p] == path[last];
      var e :| e in EdgesOf(g, path[last], o) && o.visitEdge(e) && Child(e, path[last]) == path[last + 1];
      assert path == prefix + [path[last + 1]];
    }
  }

  // The nodes `bfs` visits are exactly the nodes some walk from the source
  // reaches.
  lemma BfsReach(g: Graph, o: Options, source: NodeId, nodes: seq<NodeId>, parent: seq<nat>, x: NodeId)
    requires Discovery(g, o, source, nodes, parent) && Closed(g, o, nodes)
    ensures x in nodes <==> exists path :: Walk(g, o, path) && path[0] == source && path[|path| - 1] == x
  {
    if x in nodes {
      var k :| 0 <= k < |nodes| && nodes[k] == x;
      var path := WalkTo(g, o, source, nodes, parent, k);
    }
    forall path | Walk(g, o, path) && path[0] == source && path[|path| - 1] == x ensures x in nodes {
      WalkStaysIn(g, o, nodes, path);
    }
  }
}
