// The semantic-graph pass `reify_entity_slots`: each slot an entity carries
// that its type declares as an aspect becomes a child entity node, joined
// to the entity by an edge naming the aspect.
module SemanticReify {
  import opened Base
  import opened Graphs
  import opened GraphUtil
  import opened SemanticGraphs
  import AnnotatedGraphs
  import AnnotatedCollapse
  import AnnotatedReify

  predicate IsEntityNode(d: Attrs)
  {
    Get(d, "root_type") == VStr("entity")
  }

  // The data of the child node: the slot's own data, with `type` and
  // `root_type` filled in where the slot has none.
  function SlotAttrs(entries: seq<(string, Value)>, t: Value): (r: Attrs)
    ensures "type" in r && "root_type" in r
    ensures r["type"] == (if DictGet(entries, "type").Some? then DictGet(entries, "type").value else t)
    ensures r["root_type"] == (if DictGet(entries, "root_type").Some? then DictGet(entries, "root_type").value else VStr("entity"))
    ensures forall k :: k != "type" && k != "root_type" ==>
              (k in r <==> DictGet(entries, k).Some?) && (k in r ==> r[k] == DictGet(entries, k).value)
  {
    var a := AnnotatedGraphs.AttrsOf(entries);
    var typed := if "type" in a then a else a["type" := t];
    if "root_type" in typed then typed else typed["root_type" := VStr("entity")]
  }

  // The child's type: the more specific of the slot's annotated type and
  // the aspect's codomain, or the codomain when the slot has no type.
  function SlotType(o: Olog, backend: Backend, codomain: Value, sd: Attrs): Result<Value>
  {
    var named := TypeNameOf(backend, sd);
    if named.Err? then Err(named.error)
    else if Truthy(named.value) then MostSpecific(o, named.value, codomain)
    else Ok(codomain)
  }

  // One slot (name, data) of entity, against the entity type's aspects.
  function SlotStep(o: Olog, backend: Backend, names: AnnotatedCollapse.Names, entity: NodeId,
                    valid: map<string, Value>, h: Graph, slot: (string, Value)): Result<Graph>
  {
    if slot.0 !in valid then Ok(h)
    else if !slot.1.VDict? then Err(AttributeError)
    else
      var node := AnnotatedCollapse.FreshName(names, h, "entity");
      var t := SlotType(o, backend, valid[slot.0], AnnotatedGraphs.AttrsOf(slot.1.entries));
      if t.Err? then Err(t.error)
      else Ok(AddEdge(AddNode(h, node, SlotAttrs(slot.1.entries, t.value)), entity, node, map["aspect" := VStr(slot.0)]))
  }

  // The slots of entity, popped from its data ({} when it has none).
  function SlotsOf(d: Attrs): Value
  {
    if "slots" in d then d["slots"] else VDict([])
  }

  // One entity: its type's aspects, its slots popped, each slot in turn.
  function EntityStep(o: Olog, backend: Backend, names: AnnotatedCollapse.Names, h: Graph, entity: NodeId): Result<Graph>
  {
    if entity !in h.data then Err(KeyError)
    else
      var d := h.data[entity];
      if "type" !in d then Err(KeyError)
      else
        var valid := TypeAspects(o, d["type"]);
        if valid.Err? then Err(valid.error)
        else if !SlotsOf(d).VDict? then Err(AttributeError)
        else
          Steps((x, s) => SlotStep(o, backend, names, entity, valid.value, x, s),
                h.(data := h.data[entity := d - {"slots"}]), SlotsOf(d).entries)
  }

  // `reify_entity_slots(graph)` over the entities ents, in order.
  function ReifySlotsSpec(o: Olog, backend: Backend, names: AnnotatedCollapse.Names, g: Graph, ents: seq<NodeId>): Result<Graph>
  {
    Steps((h, e) => EntityStep(o, backend, names, h, e), g, ents)
  }

  /* ---------------- One slot ---------------- */

  // The names of the slots the type declares, in order.
  function DeclaredNames(slots: seq<(string, Value)>, valid: map<string, Value>): (r: seq<string>)
    ensures forall s :: s in r ==> s in valid
    ensures |r| <= |slots|
  {
    if slots == [] then []
    else
      var last := slots[|slots| - 1];
      DeclaredNames(slots[..|slots| - 1], valid) + (if last.0 in valid then [last.0] else [])
  }

  // A declared slot adds one fresh node and one edge to it from the entity;
  // a slot the type does not declare changes nothing.
  lemma SlotStepSpec(o: Olog, backend: Backend, names: AnnotatedCollapse.Names, entity: NodeId,
                     valid: map<string, Value>, h: Graph, slot: (string, Value))
    requires Valid(h) && entity in h.data && AnnotatedReify.FreshNames(names)
    requires SlotStep(o, backend, names, entity, valid, h, slot).Ok?
    ensures var r := SlotStep(o, backend, names, entity, valid, h, slot).value;
            (slot.0 !in valid ==> r == h) &&
            (slot.0 in valid ==>
               var c := AnnotatedCollapse.FreshName(names, h, "entity");
               c !in h.data && Valid(r) && r.directed == h.directed && r.attrs == h.attrs &&
               r.nodes == h.nodes + [c] && r.data == h.data[c := r.data[c]] &&
               "type" in r.data[c] && "root_type" in r.data[c] &&
               |r.edges| == |h.edges| + 1 && r.edges[..|h.edges|] == h.edges &&
               r.edges[|h.edges|].src == entity && r.edges[|h.edges|].tgt == c &&
               r.edges[|h.edges|].data == map["aspect" := VStr(slot.0)])
  {
    if slot.0 in valid {
      var c := AnnotatedCollapse.FreshName(names, h, "entity");
      var t := SlotType(o, backend, valid[slot.0], AnnotatedGraphs.AttrsOf(slot.1.entries)).value;
      var m := AddNode(h, c, SlotAttrs(slot.1.entries, t));
      AddNodeValid(h, c, SlotAttrs(slot.1.entries, t));
      AddEdgeValid(m, entity, c, map["aspect" := VStr(slot.0)]);
      var r := AddEdge(m, entity, c, map["aspect" := VStr(slot.0)]);
      assert r.edges[..|h.edges|] == h.edges;
      assert r.data == h.data[c := r.data[c]];
    }
  }

  /* ---------------- The slots of one entity ---------------- */

  // r is h with one fresh child per declared slot name in ns, in order:
  // nodes and edges appended, old data kept, each new edge from entity to
  // its own new node under the aspect's name.
  ghost predicate Children(h: Graph, entity: NodeId, ns: seq<string>, r: Graph)
  {
    Grown(h, |ns|, r) && ChildEdges(h, entity, ns, r)
  }

  // r is valid and extends h by n nodes and n edges, each new node typed.
  ghost predicate Grown(h: Graph, n: nat, r: Graph)
  {
    Valid(r) && r.directed == h.directed && r.attrs == h.attrs &&
    |r.nodes| == |h.nodes| + n && r.nodes[..|h.nodes|] == h.nodes &&
    |r.edges| == |h.edges| + n && r.edges[..|h.edges|] == h.edges &&
    (forall v :: v in h.data ==> v in r.data && r.data[v] == h.data[v]) &&
    (forall v :: v in r.data && v !in h.data ==> "type" in r.data[v] && "root_type" in r.data[v])
  }

  ghost predicate ChildEdges(h: Graph, entity: NodeId, ns: seq<string>, r: Graph)
    requires |r.nodes| == |h.nodes| + |ns| && |r.edges| == |h.edges| + |ns|
  {
    forall k :: 0 <= k < |ns| ==> ChildAt(r.edges[|h.edges| + k], entity, r.nodes[|h.nodes| + k], h, ns[k])
  }

  // e joins entity to the new node c, absent from h, under aspect name.
  predicate ChildAt(e: Edge, entity: NodeId, c: NodeId, h: Graph, name: string)
  {
    e.src == entity && e.tgt == c && c !in h.data && e.data == map["aspect" := VStr(name)]
  }

  lemma ChildrenNone(h: Graph, entity: NodeId)
    requires Valid(h)
    ensures Children(h, entity, [], h)
  {
    assert h.nodes[..|h.nodes|] == h.nodes;
    assert h.edges[..|h.edges|] == h.edges;
  }

  // r adds child c of entity to m, under aspect name.
  ghost predicate OneChild(m: Graph, entity: NodeId, name: string, c: NodeId, r: Graph)
  {
    c !in m.data && Valid(r) && r.directed == m.directed && r.attrs == m.attrs &&
    r.nodes == m.nodes + [c] && r.data == m.data[c := r.data[c]] &&
    "type" in r.data[c] && "root_type" in r.data[c] &&
    |r.edges| == |m.edges| + 1 && r.edges[..|m.edges|] == m.edges &&
    r.edges[|m.edges|].src == entity && r.edges[|m.edges|].tgt == c &&
    r.edges[|m.edges|].data == map["aspect" := VStr(name)]
  }

  // One more child keeps Children.
  lemma ChildrenMore(h: Graph, entity: NodeId, ns: seq<string>, m: Graph, name: string, c: NodeId, r: Graph)
    requires Children(h, entity, ns, m) && OneChild(m, entity, name, c, r)
    ensures Children(h, entity, ns + [name], r)
  {
    GrownMore(h, |ns|, m, c, r);
    assert c !in h.data;
    ChildEdgesMore(h, entity, ns, m, name, c, r);
  }

  lemma GrownMore(h: Graph, n: nat, m: Graph, c: NodeId, r: Graph)
    requires Grown(h, n, m) && c !in m.data && Valid(r) && r.directed == m.directed && r.attrs == m.attrs
    requires r.nodes == m.nodes + [c] && r.data == m.data[c := r.data[c]] && "type" in r.data[c] && "root_type" in r.data[c]
    requires |r.edges| == |m.edges| + 1 && r.edges[..|m.edges|] == m.edges
    ensures Grown(h, n + 1, r)
  {
    assert r.nodes[..|h.nodes|] == m.nodes[..|h.nodes|];
    assert r.edges[..|h.edges|] == m.edges[..|m.edges|][..|h.edges|];
  }

  lemma ChildEdgesMore(h: Graph, entity: NodeId, ns: seq<string>, m: Graph, name: string, c: NodeId, r: Graph)
    requires |m.nodes| == |h.nodes| + |ns| && |m.edges| == |h.edges| + |ns| && ChildEdges(h, entity, ns, m)
    requires r.nodes == m.nodes + [c] && |r.edges| == |m.edges| + 1 && r.edges[..|m.edges|] == m.edges && c !in h.data
    requires r.edges[|m.edges|].src == entity && r.edges[|m.edges|].tgt == c && r.edges[|m.edges|].data == map["aspect" := VStr(name)]
    ensures ChildEdges(h, entity, ns + [name], r)
  {
    var ns' := ns + [name];
    assert |ns'| == |ns| + 1;
    forall k | 0 <= k < |ns'| ensures ChildAt(r.edges[|h.edges| + k], entity, r.nodes[|h.nodes| + k], h, ns'[k]) {
      if k < |ns| {
        assert ns'[k] == ns[k];
        assert r.edges[|h.edges| + k] == r.edges[..|m.edges|][|h.edges| + k] == m.edges[|h.edges| + k];
        assert r.nodes[|h.nodes| + k] == m.nodes[|h.nodes| + k];
        assert ChildAt(m.edges[|h.edges| + k], entity, m.nodes[|h.nodes| + k], h, ns[k]);
      } else {
        assert ns'[k] == name;
        assert |h.edges| + k == |m.edges| && |h.nodes| + k == |m.nodes|;
      }
    }
  }

  // The slots of one entity, as a fold, add one child per declared slot.
  lemma {:induction false} SlotsFold(o: Olog, backend: Backend, names: AnnotatedCollapse.Names, entity: NodeId,
                                     valid: map<string, Value>, h: Graph, slots: seq<(string, Value)>)
    requires Valid(h) && entity in h.data && AnnotatedReify.FreshNames(names)
    requires Steps((x, s) => SlotStep(o, backend, names, entity, valid, x, s), h, slots).Ok?
    ensures Children(h, entity, DeclaredNames(slots, valid), Steps((x, s) => SlotStep(o, backend, names, entity, valid, x, s), h, slots).value)
  {
    var step := (x, s) => SlotStep(o, backend, names, entity, valid, x, s);
    if slots == [] {
      ChildrenNone(h, entity);
    } else {
      var init := slots[..|slots| - 1];
      var last := slots[|slots| - 1];
      var m := Steps(step, h, init);
      assert m.Ok?;
      SlotsFold(o, backend, names, entity, valid, h, init);
      var mv := m.value;
      assert entity in mv.data;
      assert Steps(step, h, slots) == step(mv, last);
      SlotStepSpec(o, backend, names, entity, valid, mv, last);
      var r := step(mv, last).value;
      assert DeclaredNames(slots, valid) == DeclaredNames(init, valid) + (if last.0 in valid then [last.0] else []);
      if last.0 in valid {
        var c := AnnotatedCollapse.FreshName(names, mv, "entity");
        assert OneChild(mv, entity, last.0, c, r);
        ChildrenMore(h, entity, DeclaredNames(init, valid), mv, last.0, c, r);
      } else {
        assert DeclaredNames(init, valid) + [] == DeclaredNames(init, valid);
      }
    }
  }

  // One entity: it loses its slots and gains one child per slot its type
  // declares, under that slot's name, in slot order; nothing else changes.
  lemma EntityStepSpec(o: Olog, backend: Backend, names: AnnotatedCollapse.Names, h: Graph, entity: NodeId)
    requires Valid(h) && AnnotatedReify.FreshNames(names)
    requires EntityStep(o, backend, names, h, entity).Ok?
    ensures var d := h.data[entity];
            "type" in d && TypeAspects(o, d["type"]).Ok? && SlotsOf(d).VDict? &&
            Children(h.(data := h.data[entity := d - {"slots"}]), entity,
                     DeclaredNames(SlotsOf(d).entries, TypeAspects(o, d["type"]).value),
                     EntityStep(o, backend, names, h, entity).value)
  {
    var d := h.data[entity];
    var h1 := h.(data := h.data[entity := d - {"slots"}]);
    assert Valid(h1);
    SlotsFold(o, backend, names, entity, TypeAspects(o, d["type"]).value, h1, SlotsOf(d).entries);
  }

  /* ---------------- The pass ---------------- */

  // The state after the first i entities: the old nodes, edges and data
  // stay first, the entities done so far have lost their slots, and every
  // new edge joins an entity done so far to a new node, with a type and a
  // root type, under an aspect the entity's type declares.
  ghost predicate ReifiedUpTo(o: Olog, g: Graph, ents: seq<NodeId>, i: nat, h: Graph)
    requires i <= |ents|
  {
    Valid(h) && h.directed == g.directed && h.attrs == g.attrs &&
    |h.nodes| >= |g.nodes| && h.nodes[..|g.nodes|] == g.nodes &&
    |h.edges| >= |g.edges| && h.edges[..|g.edges|] == g.edges &&
    (forall n :: n in g.data ==> n in h.data && h.data[n] == if n in ents[..i] then g.data[n] - {"slots"} else g.data[n]) &&
    (forall n :: n in h.data && n !in g.data ==> "type" in h.data[n] && "root_type" in h.data[n]) &&
    forall k :: |g.edges| <= k < |h.edges| ==> NewChildEdge(o, g, ents[..i], h.edges[k])
  }

  // An edge reify adds: from a processed entity to a new node, under a
  // declared aspect.
  ghost predicate NewChildEdge(o: Olog, g: Graph, done: seq<NodeId>, e: Edge)
  {
    e.src in done && e.src in g.data && e.tgt !in g.data && "type" in g.data[e.src] &&
    TypeAspects(o, g.data[e.src]["type"]).Ok? &&
    exists s :: e.data == map["aspect" := VStr(s)] && s in TypeAspects(o, g.data[e.src]["type"]).value
  }

  lemma ReifiedStep(o: Olog, g: Graph, ents: seq<NodeId>, i: nat, h: Graph, h1: Graph, ns: seq<string>, r: Graph)
    requires Distinct(ents) && i < |ents| && ents[i] in g.data
    requires ReifiedUpTo(o, g, ents, i, h) && h1 == h.(data := h.data[ents[i] := h.data[ents[i]] - {"slots"}])
    requires "type" in h.data[ents[i]] && TypeAspects(o, h.data[ents[i]]["type"]).Ok?
    requires forall s :: s in ns ==> s in TypeAspects(o, h.data[ents[i]]["type"]).value
    requires Children(h1, ents[i], ns, r)
    ensures ReifiedUpTo(o, g, ents, i + 1, r)
  {
    DistinctAt(ents, i);
    ReifiedFrame(o, g, ents, i, h, h1, |ns|, r);
    ReifiedEdges(o, g, ents, i, h, h1, ns, r);
  }

  lemma ReifiedFrame(o: Olog, g: Graph, ents: seq<NodeId>, i: nat, h: Graph, h1: Graph, n: nat, r: Graph)
    requires Distinct(ents) && i < |ents| && ents[i] in g.data && ents[i] !in ents[..i]
    requires ReifiedUpTo(o, g, ents, i, h) && h1 == h.(data := h.data[ents[i] := h.data[ents[i]] - {"slots"}])
    requires Grown(h1, n, r)
    ensures Valid(r) && r.directed == g.directed && r.attrs == g.attrs
    ensures |r.nodes| >= |g.nodes| && r.nodes[..|g.nodes|] == g.nodes && |r.edges| >= |g.edges| && r.edges[..|g.edges|] == g.edges
    ensures forall v :: v in g.data ==> v in r.data && r.data[v] == if v in ents[..i + 1] then g.data[v] - {"slots"} else g.data[v]
    ensures forall v :: v in r.data && v !in g.data ==> "type" in r.data[v] && "root_type" in r.data[v]
  {
    assert r.nodes[..|g.nodes|] == r.nodes[..|h.nodes|][..|g.nodes|];
    assert r.edges[..|g.edges|] == r.edges[..|h.edges|][..|g.edges|];
    ReifiedData(o, g, ents, i, h, h1, n, r);
  }

  lemma ReifiedData(o: Olog, g: Graph, ents: seq<NodeId>, i: nat, h: Graph, h1: Graph, n: nat, r: Graph)
    requires i < |ents| && ents[i] in g.data && ents[i] !in ents[..i]
    requires forall v :: v in g.data ==> v in h.data && h.data[v] == if v in ents[..i] then g.data[v] - {"slots"} else g.data[v]
    requires forall v :: v in h.data && v !in g.data ==> "type" in h.data[v] && "root_type" in h.data[v]
    requires h1 == h.(data := h.data[ents[i] := h.data[ents[i]] - {"slots"}])
    requires (forall v :: v in h1.data ==> v in r.data && r.data[v] == h1.data[v])
    requires (forall v :: v in r.data && v !in h1.data ==> "type" in r.data[v] && "root_type" in r.data[v])
    ensures forall v :: v in g.data ==> v in r.data && r.data[v] == if v in ents[..i + 1] then g.data[v] - {"slots"} else g.data[v]
    ensures forall v :: v in r.data && v !in g.data ==> "type" in r.data[v] && "root_type" in r.data[v]
  {
    assert ents[..i + 1] == ents[..i] + [ents[i]];
    assert h.data[ents[i]] == g.data[ents[i]];
  }

  lemma ReifiedEdges(o: Olog, g: Graph, ents: seq<NodeId>, i: nat, h: Graph, h1: Graph, ns: seq<string>, r: Graph)
    requires i < |ents| && ents[i] in g.data
    requires forall v :: v in g.data ==> v in h.data
    requires h.data[ents[i]] == g.data[ents[i]]
    requires |h.edges| >= |g.edges| && forall k :: |g.edges| <= k < |h.edges| ==> NewChildEdge(o, g, ents[..i], h.edges[k])
    requires h1 == h.(data := h.data[ents[i] := h.data[ents[i]] - {"slots"}])
    requires "type" in g.data[ents[i]] && TypeAspects(o, g.data[ents[i]]["type"]).Ok?
    requires forall s :: s in ns ==> s in TypeAspects(o, g.data[ents[i]]["type"]).value
    requires |r.nodes| == |h1.nodes| + |ns| && |r.edges| == |h1.edges| + |ns| && r.edges[..|h1.edges|] == h1.edges
    requires ChildEdges(h1, ents[i], ns, r)
    ensures forall k :: |g.edges| <= k < |r.edges| ==> NewChildEdge(o, g, ents[..i + 1], r.edges[k])
  {
    var b := ents[i];
    assert ents[..i + 1] == ents[..i] + [b];
    forall k | |g.edges| <= k < |r.edges| ensures NewChildEdge(o, g, ents[..i + 1], r.edges[k]) {
      if k < |h.edges| {
        assert r.edges[k] == r.edges[..|h.edges|][k];
        assert NewChildEdge(o, g, ents[..i], h.edges[k]);
      } else {
        var j := k - |h.edges|;
        assert ChildAt(r.edges[|h1.edges| + j], b, r.nodes[|h1.nodes| + j], h1, ns[j]);
        assert ns[j] in ns;
      }
    }
  }

  lemma {:induction false} ReifiedFold(o: Olog, backend: Backend, names: AnnotatedCollapse.Names, g: Graph, ents: seq<NodeId>, i: nat)
    requires Valid(g) && AnnotatedReify.FreshNames(names) && Distinct(ents) && i <= |ents|
    requires forall e :: e in ents ==> e in g.data
    requires ReifySlotsSpec(o, backend, names, g, ents[..i]).Ok?
    ensures ReifiedUpTo(o, g, ents, i, ReifySlotsSpec(o, backend, names, g, ents[..i]).value)
  {
    var step := (h, e) => EntityStep(o, backend, names, h, e);
    if i == 0 {
      assert ents[..0] == [];
      assert g.nodes[..|g.nodes|] == g.nodes;
      assert g.edges[..|g.edges|] == g.edges;
    } else {
      PrefixStep(ents, i - 1);
      assert ReifySlotsSpec(o, backend, names, g, ents[..i - 1]).Ok?;
      ReifiedFold(o, backend, names, g, ents, i - 1);
      StepsNext(step, g, ents, i - 1);
      var h := ReifySlotsSpec(o, backend, names, g, ents[..i - 1]).value;
      var b := ents[i - 1];
      EntityStepSpec(o, backend, names, h, b);
      var d := h.data[b];
      ReifiedStep(o, g, ents, i - 1, h, h.(data := h.data[b := d - {"slots"}]),
                  DeclaredNames(SlotsOf(d).entries, TypeAspects(o, d["type"]).value), EntityStep(o, backend, names, h, b).value);
    }
  }

  // `reify_entity_slots`, when it succeeds, keeps every node, edge and
  // datum of the graph in place except that each entity loses its slots;
  // every node it adds has a type and a root type, and every edge it adds
  // joins an entity to a new node under an aspect the entity's type
  // declares.
  lemma ReifySlotsSound(o: Olog, backend: Backend, names: AnnotatedCollapse.Names, g: Graph)
    requires Valid(g) && AnnotatedReify.FreshNames(names)
    requires ReifySlotsSpec(o, backend, names, g, FindNodes(g, IsEntityNode)).Ok?
    ensures var r := ReifySlotsSpec(o, backend, names, g, FindNodes(g, IsEntityNode)).value;
            Valid(r) && |r.nodes| >= |g.nodes| && r.nodes[..|g.nodes|] == g.nodes &&
            |r.edges| >= |g.edges| && r.edges[..|g.edges|] == g.edges &&
            (forall n :: n in g.data ==> n in r.data && r.data[n] == if IsEntityNode(g.data[n]) then g.data[n] - {"slots"} else g.data[n]) &&
            (forall n :: n in r.data && n !in g.data ==> "type" in r.data[n] && "root_type" in r.data[n]) &&
            forall k :: |g.edges| <= k < |r.edges| ==>
              var e := r.edges[k];
              e.src in g.data && IsEntityNode(g.data[e.src]) && e.tgt !in g.data && "type" in g.data[e.src] &&
              TypeAspects(o, g.data[e.src]["type"]).Ok? &&
              exists s :: e.data == map["aspect" := VStr(s)] && s in TypeAspects(o, g.data[e.src]["type"]).value
  {
    var ents := FindNodes(g, IsEntityNode);
    assert ents[..|ents|] == ents;
    ReifiedFold(o, backend, names, g, ents, |ents|);
    ReifiedAll(o, g, ents, ReifySlotsSpec(o, backend, names, g, ents).value);
  }

  lemma ReifiedAll(o: Olog, g: Graph, ents: seq<NodeId>, r: Graph)
    requires ReifiedUpTo(o, g, ents, |ents|, r)
    requires forall v :: v in ents <==> v in g.data && IsEntityNode(g.data[v])
    ensures Valid(r) && |r.nodes| >= |g.nodes| && r.nodes[..|g.nodes|] == g.nodes &&
            |r.edges| >= |g.edges| && r.edges[..|g.edges|] == g.edges
    ensures forall n :: n in g.data ==> n in r.data && r.data[n] == if IsEntityNode(g.data[n]) then g.data[n] - {"slots"} else g.data[n]
    ensures forall n :: n in r.data && n !in g.data ==> "type" in r.data[n] && "root_type" in r.data[n]
    ensures forall k :: |g.edges| <= k < |r.edges| ==>
              var e := r.edges[k];
              e.src in g.data && IsEntityNode(g.data[e.src]) && e.tgt !in g.data && "type" in g.data[e.src] &&
              TypeAspects(o, g.data[e.src]["type"]).Ok? &&
              exists s :: e.data == map["aspect" := VStr(s)] && s in TypeAspects(o, g.data[e.src]["type"]).value
  {
    assert ents[..|ents|] == ents;
    forall k | |g.edges| <= k < |r.edges| ensures IsEntityNode(g.data[r.edges[k].src]) {
      assert NewChildEdge(o, g, ents, r.edges[k]);
    }
  }
}
