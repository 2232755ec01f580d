// The semantic-graph builder (`SemanticGraphBuilder`): the load-once
// package cache, the passes that ask the annotation database for types, and
// `build`, which runs every pass in turn on a copy of the annotated graph.
module SemanticBuilding {
  import opened Base
  import opened Graphs
  import opened GraphUtil
  import GraphOperations
  import AnnotationDb
  import AnnotatedGraphs
  import AnnotatedCollapse
  import AnnotatedReify
  import opened SemanticGraphs
  import opened SemanticEdges
  import opened SemanticDirections
  import opened SemanticValidation
  import opened SemanticReify
  import opened SemanticMerge

  /* ---------------- The builder and its package cache ---------------- */

  class SemanticGraphBuilder {
    const olog: Olog
    const backend: Backend
    // `_loaded`: the (language, package) pairs loaded so far.
    var loaded: set<(Value, Value)>
    // The `db.load_package` calls made so far, in order.
    var loads: seq<(Value, Value)>

    // Every loaded pair was loaded exactly once.
    ghost predicate Valid()
      reads this
    {
      Distinct(loads) && forall p :: p in loaded <==> p in loads
    }

    constructor(olog: Olog, backend: Backend)
      ensures Valid() && this.olog == olog && this.backend == backend && loaded == {} && loads == []
    {
      this.olog := olog;
      this.backend := backend;
      loaded := {};
      loads := [];
    }

    // `get_annotation(language, package, id)`: loads the package unless it
    // was loaded before, then looks the annotation up by its primary key.
    method GetAnnotation(language: Value, package: Value, id: Value) returns (r: Result<Option<Value>>)
      requires Valid()
      modifies this
      ensures Valid()
      ensures loaded == old(loaded) + {(language, package)}
      ensures loads == old(loads) + (if (language, package) in old(loaded) then [] else [(language, package)])
      ensures r == Lookup(backend, KeyQuery(language, package, id))
    {
      if (language, package) !in loaded {
        loads := loads + [(language, package)];
        loaded := loaded + {(language, package)};
      }
      var _, found := AnnotationDb.Get(KeyQuery(language, package, id), backend);
      r := found;
    }

    // `get_type_name(data)`: the type name, loading the annotation's package
    // when the annotation holds only its primary key.
    method GetTypeName(data: Attrs) returns (r: Result<Value>)
      requires Valid()
      modifies this
      ensures Valid()
      ensures loaded == old(loaded) + PackageOf(data)
      ensures forall p :: p in loads <==> p in old(loads) || p in PackageOf(data)
      ensures r == TypeNameOf(backend, data)
    {
      var note := NoteIn(data);
      if !note.VDict? {
        return Err(TypeError);
      }
      var t := DictGet(note.entries, "type");
      if t.Some? {
        return Ok(t.value);
      }
      var key := NoteKey(note);
      if key.None? {
        return Ok(VNone);
      }
      var found := GetAnnotation(key.value.0, key.value.1, key.value.2);
      if found.Err? {
        return Err(found.error);
      }
      r := DocType(found.value);
    }

    // `add_types(annotated_graph, graph)`: types every annotated node, in
    // the annotated graph's order.
    method AddTypes(ann: Graph, g: Graph) returns (r: Result<Graph>)
      requires Valid() && Graphs.Valid(ann)
      modifies this
      ensures Valid() && old(loaded) <= loaded
      ensures r == AddTypesSpec(olog, backend, ann, g, ann.nodes)
    {
      var h := g;
      var i := 0;
      while i < |ann.nodes|
        invariant i <= |ann.nodes| && Valid() && old(loaded) <= loaded
        invariant AddTypesSpec(olog, backend, ann, g, ann.nodes[..i]) == Ok(h)
      {
        var n := ann.nodes[i];
        PrefixStep(ann.nodes, i);
        assert n in ann.data;
        assert AddTypesSpec(olog, backend, ann, g, ann.nodes[..i + 1]) == TypeStep(olog, backend, ann, h, n);
        if n !in h.data {
          AddTypesStops(olog, backend, ann, g, ann.nodes, i + 1);
          return Err(KeyError);
        }
        var typed := TypedAttrsOf(ann.data[n]);
        if typed.Err? {
          AddTypesStops(olog, backend, ann, g, ann.nodes, i + 1);
          return Err(typed.error);
        }
        h := h.(data := h.data[n := h.data[n] + typed.value]);
        i := i + 1;
      }
      WholePrefix(ann.nodes);
      r := Ok(h);
    }

    // The attributes `add_types` writes for one node, with the type lookup's
    // loading.
    method TypedAttrsOf(orig: Attrs) returns (r: Result<Attrs>)
      requires Valid()
      modifies this
      ensures Valid()
      ensures loaded == old(loaded) + PackageOf(orig)
      ensures r == TypedAttrs(olog, backend, orig)
    {
      var named := GetTypeName(orig);
      if named.Err? {
        return Err(named.error);
      }
      var t := named.value;
      if !Truthy(t) && "value" in orig {
        t := olog.pyType(orig["value"]).GetOr(VNone);
      }
      if !Truthy(t) {
        if "kind" !in orig {
          return Err(KeyError);
        }
        t := orig["kind"];
      }
      if "kind" !in orig {
        return Err(KeyError);
      }
      var typed := map["type" := t, "root_type" := orig["kind"]];
      if orig["kind"] == VStr("entity") {
        typed := typed + EntityCopy(orig);
      }
      r := Ok(typed);
    }

    /* ---------------- reify_entity_slots ---------------- */

    // `reify_entity_slots(graph)`: the entities are those present before
    // the pass.
    method ReifyEntitySlots(names: AnnotatedCollapse.Names, g: Graph) returns (r: Result<Graph>)
      requires Valid() && Graphs.Valid(g)
      modifies this
      ensures Valid() && old(loaded) <= loaded
      ensures r == ReifySlotsSpec(olog, backend, names, g, FindNodes(g, IsEntityNode))
    {
      var ents := FindNodes(g, IsEntityNode);
      var step := (h, e) => EntityStep(olog, backend, names, h, e);
      var h := g;
      for i := 0 to |ents|
        invariant Valid() && old(loaded) <= loaded
        invariant Steps(step, g, ents[..i]) == Ok(h)
      {
        StepsNext(step, g, ents, i);
        r := ReifyEntity(names, h, ents[i]);
        if r.Err? {
          StepsStop(step, g, ents, i + 1);
          return;
        }
        h := r.value;
      }
      assert ents[..|ents|] == ents;
      return Ok(h);
    }

    // One entity: its type's aspects, its slots popped, each slot in turn.
    method ReifyEntity(names: AnnotatedCollapse.Names, g: Graph, entity: NodeId) returns (r: Result<Graph>)
      requires Valid()
      modifies this
      ensures Valid() && old(loaded) <= loaded
      ensures r == EntityStep(olog, backend, names, g, entity)
    {
      if entity !in g.data {
        return Err(KeyError);
      }
      var d := g.data[entity];
      if "type" !in d {
        return Err(KeyError);
      }
      var valid := TypeAspects(olog, d["type"]);
      if valid.Err? {
        return Err(valid.error);
      }
      var slots := SlotsOf(d);
      if !slots.VDict? {
        return Err(AttributeError);
      }
      var start := g.(data := g.data[entity := d - {"slots"}]);
      var step := (x, s) => SlotStep(olog, backend, names, entity, valid.value, x, s);
      var h := start;
      for j := 0 to |slots.entries|
        invariant Valid() && old(loaded) <= loaded
        invariant Steps(step, start, slots.entries[..j]) == Ok(h)
      {
        StepsNext(step, start, slots.entries, j);
        r := ReifySlot(names, entity, valid.value, h, slots.entries[j]);
        if r.Err? {
          StepsStop(step, start, slots.entries, j + 1);
          return;
        }
        h := r.value;
      }
      assert slots.entries[..|slots.entries|] == slots.entries;
      return Ok(h);
    }

    // One slot (name, data): a child entity under a fresh name, typed by
    // the slot's annotation and the aspect's codomain, joined to the entity.
    method ReifySlot(names: AnnotatedCollapse.Names, entity: NodeId, valid: map<string, Value>, g: Graph, slot: (string, Value))
      returns (r: Result<Graph>)
      requires Valid()
      modifies this
      ensures Valid() && old(loaded) <= loaded
      ensures r == SlotStep(olog, backend, names, entity, valid, g, slot)
    {
      if slot.0 !in valid {
        return Ok(g);
      }
      if !slot.1.VDict? {
        return Err(AttributeError);
      }
      var node := AnnotatedCollapse.FreshName(names, g, "entity");
      var named := GetTypeName(AnnotatedGraphs.AttrsOf(slot.1.entries));
      if named.Err? {
        return Err(named.error);
      }
      var t := valid[slot.0];
      if Truthy(named.value) {
        var specific := MostSpecific(olog, named.value, t);
        if specific.Err? {
          return Err(specific.error);
        }
        t := specific.value;
      }
      r := Ok(AddEdge(AddNode(g, node, SlotAttrs(slot.1.entries, t)), entity, node, map["aspect" := VStr(slot.0)]));
    }

    /* ---------------- build ---------------- */

    // `build(annotated_graph)`: every pass in turn on a bare copy of the
    // annotated graph; the first error stops it. The result is well formed,
    // and every annotated node still in it has its annotated kind as root
    // type unless a merge left it without data.
    method Build(ann: Graph, names: AnnotatedCollapse.Names, fuel: nat) returns (r: Result<Graph>)
      requires Valid() && Graphs.Valid(ann) && AnnotatedReify.FreshNames(names)
      modifies this
      ensures Valid() && old(loaded) <= loaded
      ensures r.Ok? ==> Graphs.Valid(r.value) && KindsOrBare(ann, r.value)
    {
      var g0 := GraphOperations.CopyTopology(ann, None);
      var g1 := AddTypes(ann, g0);
      if g1.Err? {
        return g1;
      }
      TypedCopy(olog, backend, ann, g0);
      assert ann.data.Keys <= g1.value.data.Keys;
      var g4 := OrientAspects(olog, ann, g1.value);
      if g4.Err? {
        return g4;
      }
      var g5 := ReifyEntitySlots(names, g4.value);
      if g5.Err? {
        return g5;
      }
      ReifyKeepsKinds(olog, backend, names, ann, g4.value);
      r := MergeAspects(g5.value, fuel);
      if r.Ok? {
        KindsThroughMerges(ann, g5.value, r.value);
      }
    }

    // The two merging passes of build: duplicate aspects, then unknown ones.
    // The second raises KeyError when the first leaves a node without a
    // root type.
    method MergeAspects(g: Graph, fuel: nat) returns (r: Result<Graph>)
      requires Graphs.Valid(g)
      ensures r.Ok? ==> Graphs.Valid(r.value) && r.value.data.Keys <= g.data.Keys && KeptButType(g, r.value)
      ensures var d := DuplicateSpec(olog, g, FindNodes(g, IsActionNode), fuel);
              d.Ok? && !RootTyped(d.value) ==> r == Err(KeyError)
    {
      var g6 := MergeDuplicateAspects(olog, g, fuel);
      if g6.Err? {
        return g6;
      }
      DuplicateSound(olog, g, fuel);
      r := MergeUnknownAspects(olog, g6.value, fuel);
      if r.Ok? {
        KeptButTypeTrans(g, g6.value, r.value);
      }
    }
  }

  /* ---------------- The stages of build ---------------- */

  // The passes of build that work on the action edges: copy ports to
  // aspects, turn the edges outwards and check the aspects.
  method OrientAspects(o: Olog, ann: Graph, g: Graph) returns (r: Result<Graph>)
    requires Graphs.Valid(g)
    ensures r.Ok? ==> Graphs.Valid(r.value) && r.value.data == g.data
  {
    var g2 := AddActionAspects(ann, g);
    if g2.Err? {
      return g2;
    }
    AspectsKeepShape(ann, g);
    var g3 := FixActionEdgeDirections(g2.value);
    FixKeepsData(g2.value, FindNodes(g2.value, IsActionNode));
    r := ValidateActionAspects(o, g3.value);
    if r.Ok? {
      ValidateKeepsData(o, g3.value);
    }
  }

  // Every annotated node of g has its annotated kind as root type.
  ghost predicate KindsKept(ann: Graph, g: Graph)
  {
    forall n :: n in g.data && n in ann.data ==> "kind" in ann.data[n] && Get(g.data[n], "root_type") == ann.data[n]["kind"]
  }

  // The nodes and node keys stay, and every edge keeps its slot.
  ghost predicate SameShape(g: Graph, r: Graph)
  {
    r.directed == g.directed && r.nodes == g.nodes && r.data.Keys == g.data.Keys && |r.edges| == |g.edges| &&
    forall k :: 0 <= k < |g.edges| ==>
      r.edges[k].src == g.edges[k].src && r.edges[k].tgt == g.edges[k].tgt && r.edges[k].key == g.edges[k].key
  }

  lemma SameShapeValid(g: Graph, r: Graph)
    requires Graphs.Valid(g) && SameShape(g, r)
    ensures Graphs.Valid(r)
  {
    forall i, j | 0 <= i < j < |r.edges| ensures !SameSlot(r.directed, r.edges[i], r.edges[j]) {
      assert !SameSlot(g.directed, g.edges[i], g.edges[j]);
    }
    forall e | e in r.edges ensures e.src in r.data && e.tgt in r.data {
      var i :| 0 <= i < |r.edges| && r.edges[i] == e;
      assert g.edges[i] in g.edges;
    }
  }

  // Typing a bare copy of the annotated graph keeps it well formed, keeps
  // its nodes and edges, and gives every node its kind as root type.
  lemma TypedCopy(o: Olog, backend: Backend, ann: Graph, g0: Graph)
    requires Graphs.Valid(ann) && Graphs.Valid(g0) && g0.nodes == ann.nodes
    requires AddTypesSpec(o, backend, ann, g0, ann.nodes).Ok?
    ensures var g1 := AddTypesSpec(o, backend, ann, g0, ann.nodes).value;
            Graphs.Valid(g1) && g1.nodes == g0.nodes && g1.edges == g0.edges && g1.directed == g0.directed &&
            g1.data.Keys == g0.data.Keys && KindsKept(ann, g1)
  {
    AddTypesTyped(o, backend, ann, g0, ann.nodes);
    var g1 := AddTypesSpec(o, backend, ann, g0, ann.nodes).value;
    TypedKinds(o, backend, ann, g0, g1);
    SameShapeValid(g0, g1);
  }

  lemma TypedKinds(o: Olog, backend: Backend, ann: Graph, g0: Graph, g1: Graph)
    requires Graphs.Valid(ann) && TypedFrom(o, backend, ann, g0, ann.nodes, g1)
    ensures KindsKept(ann, g1)
  {
    forall n | n in g1.data && n in ann.data
      ensures "kind" in ann.data[n] && Get(g1.data[n], "root_type") == ann.data[n]["kind"]
    {
      assert n in ann.nodes;
      TypedAttrsSpec(o, backend, ann.data[n]);
    }
  }

  // Copying ports to aspects changes only edge data.
  lemma AspectsKeepShape(ann: Graph, g: Graph)
    requires Graphs.Valid(g)
    ensures var r := g.(edges := EdgesWithAspects(g, ann.edges));
            Graphs.Valid(r) && r.data == g.data
  {
    SameShapeValid(g, g.(edges := EdgesWithAspects(g, ann.edges)));
  }

  // A step that keeps graphs well formed and their node data.
  ghost predicate KeepsData<T(!new)>(step: (Graph, T) -> Result<Graph>)
  {
    forall h, x :: Graphs.Valid(h) && step(h, x).Ok? ==> Graphs.Valid(step(h, x).value) && step(h, x).value.data == h.data
  }

  lemma {:induction false} StepsKeepData<T(!new)>(step: (Graph, T) -> Result<Graph>, g: Graph, xs: seq<T>)
    requires KeepsData(step) && Graphs.Valid(g) && Steps(step, g, xs).Ok?
    ensures Graphs.Valid(Steps(step, g, xs).value) && Steps(step, g, xs).value.data == g.data
    decreases |xs|
  {
    if xs != [] {
      StepsKeepData(step, g, xs[..|xs| - 1]);
    }
  }

  // Turning the action edges outwards never fails and keeps node data.
  lemma {:induction false} FixKeepsData(g: Graph, acts: seq<NodeId>)
    requires Graphs.Valid(g)
    ensures FixSpec(g, acts).Ok? && Graphs.Valid(FixSpec(g, acts).value) && FixSpec(g, acts).value.data == g.data
    decreases |acts|
  {
    if acts != [] {
      FixKeepsData(g, acts[..|acts| - 1]);
      FixActionSpec(FixSpec(g, acts[..|acts| - 1]).value, acts[|acts| - 1]);
    }
  }

  // Checking aspects changes only edge data.
  lemma ValidateKeepsData(o: Olog, g: Graph)
    requires Graphs.Valid(g) && ValidateSpec(o, g, FindNodes(g, IsActionNode)).Ok?
    ensures var r := ValidateSpec(o, g, FindNodes(g, IsActionNode)).value;
            Graphs.Valid(r) && r.data == g.data
  {
    forall h, a | Graphs.Valid(h) && ValidateAction(o, h, a).Ok?
      ensures Graphs.Valid(ValidateAction(o, h, a).value) && ValidateAction(o, h, a).value.data == h.data
    {
      var valid := ValidNames(o, h.data[a]).value;
      forall k | 0 <= k < |h.edges| {
        CheckedSpec(h.edges[k], a, valid);
      }
      SameShapeValid(h, ValidateAction(o, h, a).value);
    }
    StepsKeepData((h, a) => ValidateAction(o, h, a), g, FindNodes(g, IsActionNode));
  }

  // Reifying slots keeps the root type of every node it finds.
  lemma ReifyKeepsKinds(o: Olog, backend: Backend, names: AnnotatedCollapse.Names, ann: Graph, g: Graph)
    requires Graphs.Valid(g) && AnnotatedReify.FreshNames(names) && KindsKept(ann, g) && ann.data.Keys <= g.data.Keys
    requires ReifySlotsSpec(o, backend, names, g, FindNodes(g, IsEntityNode)).Ok?
    ensures var r := ReifySlotsSpec(o, backend, names, g, FindNodes(g, IsEntityNode)).value;
            Graphs.Valid(r) && g.data.Keys <= r.data.Keys && KindsKept(ann, r)
  {
    ReifySlotsSound(o, backend, names, g);
    KindsKeptUnslotted(ann, g, ReifySlotsSpec(o, backend, names, g, FindNodes(g, IsEntityNode)).value);
  }

  // Dropping the slots of some nodes and adding new nodes keeps every
  // root type.
  lemma KindsKeptUnslotted(ann: Graph, g: Graph, r: Graph)
    requires KindsKept(ann, g) && ann.data.Keys <= g.data.Keys
    requires forall n :: n in g.data ==> n in r.data && r.data[n] == if IsEntityNode(g.data[n]) then g.data[n] - {"slots"} else g.data[n]
    ensures g.data.Keys <= r.data.Keys && KindsKept(ann, r)
  {
    assert "root_type"[0] != "slots"[0];
  }

  // After the merging passes an annotated node has its kind as root type,
  // or no root type at all.
  ghost predicate KindsOrBare(ann: Graph, g: Graph)
  {
    forall n :: n in g.data && n in ann.data ==>
      "kind" in ann.data[n] && (Get(g.data[n], "root_type") == ann.data[n]["kind"] || Get(g.data[n], "root_type") == VNone)
  }

  // Merging keeps every root type it does not erase.
  lemma KindsThroughMerges(ann: Graph, g: Graph, r: Graph)
    requires KindsKept(ann, g) && KeptButType(g, r) && ann.data.Keys <= g.data.Keys
    ensures KindsOrBare(ann, r)
  {
    assert "root_type"[0] != "type"[0];
  }
}
