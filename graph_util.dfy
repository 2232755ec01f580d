// Node queries and node naming on graphs (`graphutil`).
module GraphUtil {
  import opened Base
  import opened Graphs
  import opened Slots

  /* ---------------- Queries ---------------- */

  // `find_nodes(graph, query)`: the nodes, in graph order, whose data
  // satisfies the query.
  function FindNodes(g: Graph, query: Attrs -> bool): (r: seq<NodeId>)
    requires Valid(g)
    ensures forall n :: n in r <==> n in g.data && query(g.data[n])
    ensures Distinct(r)
  {
    Matching(g.nodes, g.data, query)
  }

  // The elements of ns whose data satisfies the query, in order.
  function Matching(ns: seq<NodeId>, data: map<NodeId, Attrs>, query: Attrs -> bool): (r: seq<NodeId>)
    requires forall n :: n in ns ==> n in data
    ensures forall n :: n in r <==> n in ns && query(data[n])
    ensures Distinct(ns) ==> Distinct(r)
    ensures r != [] ==> r[0] in ns && query(data[r[0]])
  {
    if ns == [] then []
    else
      var rest := Matching(ns[1..], data, query);
      assert forall n :: n in ns <==> n == ns[0] || n in ns[1..];
      assert Distinct(ns) ==> ns[0] !in ns[1..] && Distinct(ns[1..]);
      if query(data[ns[0]]) then [ns[0]] + rest else rest
  }

  // The first match in ns comes before every other element that matches.
  lemma {:induction false} FirstMatching(ns: seq<NodeId>, data: map<NodeId, Attrs>, query: Attrs -> bool, i: nat)
    requires forall n :: n in ns ==> n in data
    requires i < |ns| && query(data[ns[i]])
    ensures Matching(ns, data, query) != []
    ensures exists k :: 0 <= k <= i && ns[k] == Matching(ns, data, query)[0] &&
                        forall j :: 0 <= j < k ==> !query(data[ns[j]])
  {
    if query(data[ns[0]]) {
      assert ns[0] == Matching(ns, data, query)[0];
    } else {
      FirstMatching(ns[1..], data, query, i - 1);
      var k :| 0 <= k <= i - 1 && ns[1..][k] == Matching(ns[1..], data, query)[0] &&
               forall j :: 0 <= j < k ==> !query(data[ns[1..][j]]);
      assert ns[k + 1] == Matching(ns, data, query)[0];
      assert forall j :: 0 <= j < k + 1 ==> !query(data[ns[j]]) by {
        forall j | 0 <= j < k + 1 ensures !query(data[ns[j]]) {
          if j > 0 {
            assert ns[j] == ns[1..][j - 1];
          }
        }
      }
    }
  }

  // `find_node(graph, query)`: the first matching node in graph order, or
  // None when no node matches.
  function FindNode(g: Graph, query: Attrs -> bool): (r: Option<NodeId>)
    requires Valid(g)
    ensures r.None? <==> forall n :: n in g.data ==> !query(g.data[n])
    ensures r.Some? ==> exists k :: 0 <= k < |g.nodes| && g.nodes[k] == r.value && query(g.data[r.value]) &&
                                   forall j :: 0 <= j < k ==> !query(g.data[g.nodes[j]])
  {
    var found := FindNodes(g, query);
    if found == [] then None
    else
      ghost var i :| 0 <= i < |g.nodes| && g.nodes[i] == found[0];
      FirstMatching(g.nodes, g.data, query, i);
      Some(found[0])
  }

  /* ---------------- Naming ---------------- */

  // Python truthiness of an optional string: None and "" are false.
  predicate Given(s: Option<string>)
  {
    s.Some? && s.value != ""
  }

  // `sep or ':'`.
  function Separator(sep: Option<string>): (r: string)
    ensures r != ""
    ensures Given(sep) ==> r == sep.value
  {
    if Given(sep) then sep.value else ":"
  }

  // `node_name(graph, base, sep)`: the random token (a parameter here),
  // prefixed with the base and the separator when a base is given.
  function NodeName(token: string, base: Option<string>, sep: Option<string>): (r: string)
    ensures !Given(base) ==> r == token
    ensures Given(base) ==> |r| == |base.value| + |Separator(sep)| + |token| &&
                            r[..|base.value|] == base.value &&
                            r[|base.value|..|base.value| + |Separator(sep)|] == Separator(sep) &&
                            r[|base.value| + |Separator(sep)|..] == token
  {
    if Given(base) then base.value + Separator(sep) + token else token
  }

  // Different numbers print differently.
  lemma NatToStringInjective(a: nat, b: nat)
    requires NatToString(a) == NatToString(b)
    ensures a == b
  {
    DigitsValueOfNatToString(a);
    DigitsValueOfNatToString(b);
  }

  // The i-th name `deterministic_node_name` tries.
  function Candidate(base: string, sep: string, i: nat): (r: string)
    ensures |r| > |base| + |sep|
  {
    base + sep + NatToString(i)
  }

  // Different counters give different names.
  lemma CandidateInjective(base: string, sep: string, i: nat, j: nat)
    requires Candidate(base, sep, i) == Candidate(base, sep, j)
    ensures i == j
  {
    var p := base + sep;
    assert Candidate(base, sep, i)[|p|..] == NatToString(i);
    assert Candidate(base, sep, j)[|p|..] == NatToString(j);
    NatToStringInjective(i, j);
  }

  // Counter i gives the first name not already a node.
  ghost predicate LeastFree(g: Graph, base: string, sep: string, i: nat)
  {
    i >= 1 && Candidate(base, sep, i) !in g.data &&
    forall j :: 1 <= j < i ==> Candidate(base, sep, j) in g.data
  }

  // Equal inputs give equal names: at most one counter is the least free one.
  lemma LeastFreeUnique(g: Graph, base: string, sep: string, i: nat, j: nat)
    requires LeastFree(g, base, sep, i) && LeastFree(g, base, sep, j)
    ensures i == j
  {
  }

  // `deterministic_node_name(graph, base, sep)`: base + sep + str(i) for the
  // least i >= 1 whose name is not a node; sep defaults to ':'.
  method DeterministicNodeName(g: Graph, base: string, sep: Option<string>) returns (name: string)
    ensures name !in g.data
    ensures exists i :: LeastFree(g, base, Separator(sep), i) && name == Candidate(base, Separator(sep), i)
  {
    var s := Separator(sep);
    var i := 1;
    name := Candidate(base, s, i);
    ghost var tried: set<string> := {};
    while name in g.data
      invariant i >= 1 && name == Candidate(base, s, i)
      invariant forall j :: 1 <= j < i ==> Candidate(base, s, j) in g.data
      invariant tried == set j | 1 <= j < i :: Candidate(base, s, j)
      invariant tried <= g.data.Keys && |tried| == i - 1
      decreases |g.data.Keys| - |tried|
    {
      TriedGrows(base, s, i, tried);
      SubsetCard(tried + {name}, g.data.Keys);
      tried := tried + {name};
      i := i + 1;
      name := Candidate(base, s, i);
    }
  }

  // The names tried so far never include the next one.
  lemma TriedGrows(base: string, sep: string, i: nat, tried: set<string>)
    requires i >= 1 && tried == set j | 1 <= j < i :: Candidate(base, sep, j)
    ensures Candidate(base, sep, i) !in tried
    ensures tried + {Candidate(base, sep, i)} == set j | 1 <= j < i + 1 :: Candidate(base, sep, j)
  {
    forall j | 1 <= j < i ensures Candidate(base, sep, j) != Candidate(base, sep, i) {
      if Candidate(base, sep, j) == Candidate(base, sep, i) {
        CandidateInjective(base, sep, i, j);
      }
    }
    var next := set j | 1 <= j < i + 1 :: Candidate(base, sep, j);
    forall x | x in next ensures x in tried + {Candidate(base, sep, i)} {
      var j :| 1 <= j < i + 1 && Candidate(base, sep, j) == x;
      if j < i {
        assert x in tried;
      }
    }
    forall x | x in tried + {Candidate(base, sep, i)} ensures x in next {
      if x in tried {
        var j :| 1 <= j < i && Candidate(base, sep, j) == x;
        assert 1 <= j < i + 1;
      }
    }
    assert tried + {Candidate(base, sep, i)} == next;
  }
}
