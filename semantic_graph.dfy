// The semantic-graph builder's first passes: the ontology and the
// annotation database as parameters, type names, and the passes that type
// the nodes and orient and check the action edges.
module SemanticGraphs {
  import opened Base
  import opened Graphs
  import opened GraphUtil
  import AnnotationDb

  /* ---------------- The ontology and the database ---------------- */

  // What the builder asks of the ontology log, as uninterpreted functions of
  // type names: whether `olog.type(name)` finds a type, the inherited
  // aspects of a type (aspect name to codomain type name), the name of
  // `most_specific` of two types, and the name of the type
  // `python_type_to_olog_type` gives a captured value, when there is one.
  datatype Olog = Olog(known: Value -> bool, aspects: Value -> map<string, Value>,
                       mostSpecific: (Value, Value) -> Value, pyType: Value -> Option<Value>)

  // The database's backend query, with every package the builder asks for
  // loaded once.
  type Backend = AnnotationDb.Entries -> seq<Value>

  // `get_type_aspects(name)`: the inherited aspects of the named type, by
  // name; a name the ontology does not know raises.
  function TypeAspects(o: Olog, t: Value): Result<map<string, Value>>
  {
    if o.known(t) then Ok(o.aspects(t)) else Err(KeyError)
  }

  // `most_specific(olog.type(a), b)`, by name; an unknown name raises.
  function MostSpecific(o: Olog, a: Value, b: Value): Result<Value>
  {
    if o.known(a) then Ok(o.mostSpecific(a, b)) else Err(KeyError)
  }

  // The query `get_annotation` sends: the annotation's primary key.
  function KeyQuery(language: Value, package: Value, id: Value): AnnotationDb.Entries
  {
    [("language", language), ("package", package), ("id", id)]
  }

  // `db.get(query)`, as AnnotationDb.Get answers it.
  function Lookup(backend: Backend, query: AnnotationDb.Entries): Result<Option<Value>>
  {
    var found := AnnotationDb.Matches(AnnotationDb.Residual(query), backend(AnnotationDb.BackendPart(query)));
    if found.Err? then Err(found.error)
    else if |found.value| == 0 then Ok(None)
    else if |found.value| == 1 then Ok(Some(found.value[0]))
    else Err(LookupError)
  }

  // The dictionary documents among docs, in order.
  function Dicts(docs: seq<Value>): (r: seq<Value>)
    ensures forall d :: d in r <==> d in docs && d.VDict?
  {
    if docs == [] then []
    else
      var last := docs[|docs| - 1];
      assert forall d :: d in docs <==> d in docs[..|docs| - 1] || d == last;
      Dicts(docs[..|docs| - 1]) + (if last.VDict? then [last] else [])
  }

  // The empty residual query keeps exactly the dictionary documents.
  lemma {:induction false} MatchesNothing(docs: seq<Value>)
    ensures AnnotationDb.Matches([], docs) == Ok(Dicts(docs))
  {
    if docs != [] {
      MatchesNothing(docs[..|docs| - 1]);
    }
  }

  // A primary-key lookup sends the whole query to the backend and never
  // fails in the matcher: no dictionary document gives None, one gives it,
  // more raise LookupError.
  lemma KeyLookup(backend: Backend, language: Value, package: Value, id: Value)
    ensures var docs := Dicts(backend(KeyQuery(language, package, id)));
            Lookup(backend, KeyQuery(language, package, id)) ==
              if |docs| == 0 then Ok(None) else if |docs| == 1 then Ok(Some(docs[0])) else Err(LookupError)
  {
    var q := KeyQuery(language, package, id);
    assert q[..2][..1] == [q[0]] && q[..2] == [q[0], q[1]] && q[..3] == q;
    assert AnnotationDb.BackendPart([q[0]]) == [q[0]];
    assert AnnotationDb.BackendPart(q) == q;
    assert AnnotationDb.Residual([q[0]]) == [];
    assert AnnotationDb.Residual(q) == [];
    MatchesNothing(backend(q));
  }

  /* ---------------- Passes as folds ---------------- */

  // Applies step to the elements of xs in order; the first error stops.
  function Steps<T>(step: (Graph, T) -> Result<Graph>, g: Graph, xs: seq<T>): Result<Graph>
  {
    if xs == [] then Ok(g)
    else
      var h := Steps(step, g, xs[..|xs| - 1]);
      if h.Err? then h else step(h.value, xs[|xs| - 1])
  }

  // After an error the remaining elements do nothing.
  lemma {:induction false} StepsStop<T>(step: (Graph, T) -> Result<Graph>, g: Graph, xs: seq<T>, k: nat)
    requires k <= |xs| && Steps(step, g, xs[..k]).Err?
    ensures Steps(step, g, xs) == Steps(step, g, xs[..k])
    decreases |xs| - k
  {
    if k < |xs| {
      assert xs[..|xs| - 1][..k] == xs[..k];
      StepsStop(step, g, xs[..|xs| - 1], k);
    } else {
      assert xs[..k] == xs;
    }
  }

  // One more element is one more step.
  lemma StepsNext<T>(step: (Graph, T) -> Result<Graph>, g: Graph, xs: seq<T>, k: nat)
    requires k < |xs| && Steps(step, g, xs[..k]).Ok?
    ensures Steps(step, g, xs[..k + 1]) == step(Steps(step, g, xs[..k]).value, xs[k])
  {
    assert xs[..k + 1][..k] == xs[..k];
  }

  /* ---------------- Type names ---------------- */

  // The annotation of a node or slot: `data.get('annotation') or {}`.
  function NoteIn(data: Attrs): Value
  {
    var n := Get(data, "annotation");
    if Truthy(n) then n else VDict([])
  }

  // The primary key of a dictionary annotation, when it has all three parts.
  function NoteKey(note: Value): Option<(Value, Value, Value)>
  {
    if !note.VDict? then None
    else
      var l := DictGet(note.entries, "language");
      var p := DictGet(note.entries, "package");
      var i := DictGet(note.entries, "id");
      if l.None? || p.None? || i.None? then None else Some((l.value, p.value, i.value))
  }

  // `(note or {})['type']` on the fetched document, with KeyError read as
  // None.
  function DocType(doc: Option<Value>): Result<Value>
  {
    var d := if doc.Some? && Truthy(doc.value) then doc.value else VDict([]);
    if !d.VDict? then Err(TypeError) else Ok(DictGet(d.entries, "type").GetOr(VNone))
  }

  // `get_type_name(data)`, apart from what it loads: the type the
  // annotation names; else the type of the annotation the database holds
  // under the annotation's primary key; else None. A missing key at either
  // step gives None, a non-dictionary annotation raises TypeError, and an
  // error of the lookup propagates.
  function TypeNameOf(backend: Backend, data: Attrs): Result<Value>
  {
    var note := NoteIn(data);
    if !note.VDict? then Err(TypeError)
    else if DictGet(note.entries, "type").Some? then Ok(DictGet(note.entries, "type").value)
    else if NoteKey(note).None? then Ok(VNone)
    else
      var (l, p, i) := NoteKey(note).value;
      var found := Lookup(backend, KeyQuery(l, p, i));
      if found.Err? then Err(found.error) else DocType(found.value)
  }

  // The (language, package) pair `get_type_name(data)` asks to be loaded.
  function PackageOf(data: Attrs): set<(Value, Value)>
  {
    var note := NoteIn(data);
    if note.VDict? && DictGet(note.entries, "type").None? && NoteKey(note).Some? then
      {(NoteKey(note).value.0, NoteKey(note).value.1)}
    else {}
  }

  // An annotation that holds only its primary key takes its type from the
  // database: the type of the one document stored under the key (None when
  // that document has none, or when there is no document); several
  // documents raise LookupError.
  lemma TypeNameFromDb(backend: Backend, data: Attrs)
    requires NoteIn(data).VDict? && DictGet(NoteIn(data).entries, "type").None? && NoteKey(NoteIn(data)).Some?
    ensures var (l, p, i) := NoteKey(NoteIn(data)).value;
            var docs := Dicts(backend(KeyQuery(l, p, i)));
            (|docs| == 0 ==> TypeNameOf(backend, data) == Ok(VNone)) &&
            (|docs| == 1 ==> TypeNameOf(backend, data) == Ok(DictGet(docs[0].entries, "type").GetOr(VNone))) &&
            (|docs| > 1 ==> TypeNameOf(backend, data) == Err(LookupError))
  {
    var (l, p, i) := NoteKey(NoteIn(data)).value;
    KeyLookup(backend, l, p, i);
    var docs := Dicts(backend(KeyQuery(l, p, i)));
    if |docs| == 1 {
      assert docs[0] in docs;
      if !Truthy(docs[0]) {
        assert docs[0].entries == [];
      }
    }
  }

  /* ---------------- Node types ---------------- */

  // The type `add_types` gives a node with annotated data orig: the type
  // its annotation names, else (for a node with a captured value) the
  // ontology type of the value, else its kind.
  function ChosenType(o: Olog, backend: Backend, orig: Attrs): Result<Value>
  {
    var named := TypeNameOf(backend, orig);
    if named.Err? then named
    else
      var t := if !Truthy(named.value) && "value" in orig then o.pyType(orig["value"]).GetOr(VNone) else named.value;
      if Truthy(t) then Ok(t)
      else if "kind" in orig then Ok(orig["kind"])
      else Err(KeyError)
  }

  // The entity attributes `add_types` copies over when present.
  function EntityCopy(orig: Attrs): (r: Attrs)
    ensures forall k :: k in r <==> k in orig && k in {"id", "value", "slots"}
    ensures forall k :: k in r ==> r[k] == orig[k]
  {
    map k | k in orig && k in {"id", "value", "slots"} :: orig[k]
  }

  // The attributes `add_types` writes into a node's data: its type, its
  // kind as `root_type`, and for an entity its id, value and slots. A node
  // without a kind raises KeyError.
  function TypedAttrs(o: Olog, backend: Backend, orig: Attrs): Result<Attrs>
  {
    var t := ChosenType(o, backend, orig);
    if t.Err? then Err(t.error)
    else if "kind" !in orig then Err(KeyError)
    else
      var base := map["type" := t.value, "root_type" := orig["kind"]];
      Ok(if orig["kind"] == VStr("entity") then base + EntityCopy(orig) else base)
  }

  // What a typed node holds: the root type is the kind, and the type is the
  // annotation's type when that is true, else the captured value's
  // ontology type when there is a true one, else the kind; entities keep
  // their id, value and slots.
  lemma TypedAttrsSpec(o: Olog, backend: Backend, orig: Attrs)
    requires TypedAttrs(o, backend, orig).Ok?
    ensures var a := TypedAttrs(o, backend, orig).value;
            var named := TypeNameOf(backend, orig).value;
            var valued := if "value" in orig then o.pyType(orig["value"]).GetOr(VNone) else VNone;
            "kind" in orig && a["root_type"] == orig["kind"] && "type" in a &&
            (Truthy(named) ==> a["type"] == named) &&
            (!Truthy(named) && Truthy(valued) ==> a["type"] == valued) &&
            (!Truthy(named) && !Truthy(valued) ==> a["type"] == orig["kind"]) &&
            (orig["kind"] == VStr("entity") ==> forall k :: k in {"id", "value", "slots"} && k in orig ==> a[k] == orig[k])
  {
  }

  // One node of `add_types`: KeyError for a node the semantic graph lacks,
  // else the node's data is updated with its typed attributes.
  function TypeStep(o: Olog, backend: Backend, ann: Graph, h: Graph, n: NodeId): Result<Graph>
    requires n in ann.data
  {
    if n !in h.data then Err(KeyError)
    else
      var a := TypedAttrs(o, backend, ann.data[n]);
      if a.Err? then Err(a.error) else Ok(h.(data := h.data[n := h.data[n] + a.value]))
  }

  // `add_types(annotated_graph, graph)` over the annotated nodes ns, in
  // order; the first error stops it.
  function AddTypesSpec(o: Olog, backend: Backend, ann: Graph, g: Graph, ns: seq<NodeId>): Result<Graph>
    requires forall n :: n in ns ==> n in ann.data
  {
    if ns == [] then Ok(g)
    else
      var h := AddTypesSpec(o, backend, ann, g, ns[..|ns| - 1]);
      if h.Err? then h else TypeStep(o, backend, ann, h.value, ns[|ns| - 1])
  }

  // The first error stops the pass.
  lemma {:induction false} AddTypesStops(o: Olog, backend: Backend, ann: Graph, g: Graph, ns: seq<NodeId>, k: nat)
    requires k <= |ns| && forall n :: n in ns ==> n in ann.data
    requires AddTypesSpec(o, backend, ann, g, ns[..k]).Err?
    ensures AddTypesSpec(o, backend, ann, g, ns) == AddTypesSpec(o, backend, ann, g, ns[..k])
    decreases |ns| - k
  {
    if k < |ns| {
      assert ns[..|ns| - 1][..k] == ns[..k];
      AddTypesStops(o, backend, ann, g, ns[..|ns| - 1], k);
    } else {
      assert ns[..k] == ns;
    }
  }

  // The typing pass changes only the data of the typed nodes.
  ghost predicate TypedFrom(o: Olog, backend: Backend, ann: Graph, g: Graph, ns: seq<NodeId>, r: Graph)
    requires forall n :: n in ns ==> n in ann.data
  {
    r.nodes == g.nodes && r.edges == g.edges && r.directed == g.directed && r.attrs == g.attrs &&
    r.data.Keys == g.data.Keys &&
    (forall n :: n in g.data && n !in ns ==> r.data[n] == g.data[n]) &&
    (forall n :: n in ns ==> n in g.data && TypedAttrs(o, backend, ann.data[n]).Ok? && r.data[n] == g.data[n] + TypedAttrs(o, backend, ann.data[n]).value)
  }

  // The typing pass succeeds exactly when every annotated node has a kind
  // and a type lookup that does not raise (given that the semantic graph
  // has every annotated node), and then each node's data is its old data
  // updated with its typed attributes, and nothing else changes.
  lemma {:induction false} AddTypesTyped(o: Olog, backend: Backend, ann: Graph, g: Graph, ns: seq<NodeId>)
    requires Distinct(ns) && forall n :: n in ns ==> n in ann.data && n in g.data
    ensures AddTypesSpec(o, backend, ann, g, ns).Ok? <==> forall n :: n in ns ==> TypedAttrs(o, backend, ann.data[n]).Ok?
    ensures AddTypesSpec(o, backend, ann, g, ns).Ok? ==> TypedFrom(o, backend, ann, g, ns, AddTypesSpec(o, backend, ann, g, ns).value)
  {
    if ns != [] {
      var init := ns[..|ns| - 1];
      var n := ns[|ns| - 1];
      assert forall x :: x in ns <==> x in init || x == n;
      DistinctLast(ns, n);
      assert Distinct(init) by {
        forall i, j | 0 <= i < j < |init| ensures init[i] != init[j] {
          assert init[i] == ns[i] && init[j] == ns[j];
        }
      }
      AddTypesTyped(o, backend, ann, g, init);
    }
  }
}

/* The passes of the semantic-graph builder that copy ports to aspects, turn
   every action edge outwards, and drop the aspects the ontology does not
   declare. */
module SemanticEdges {
  import opened Base
  import opened Graphs
  import opened GraphUtil
  import opened GraphOperations
  import opened SemanticGraphs

  /* ---------------- Aspects from ports ---------------- */

  // The edge e after `graph.edge[src][tgt][key]['aspect'] = data['port']`
  // for the annotated edges aes: it takes the port of an annotated edge in
  // its slot that has one.
  function WithAspects(e: Edge, directed: bool, aes: seq<Edge>): (r: Edge)
    ensures r.src == e.src && r.tgt == e.tgt && r.key == e.key
  {
    if aes == [] then e
    else
      var f := WithAspects(e, directed, aes[..|aes| - 1]);
      var ae := aes[|aes| - 1];
      if SameSlot(directed, ae, f) && "port" in ae.data then f.(data := f.data["aspect" := ae.data["port"]]) else f
  }

  // With one annotated edge per slot, an edge takes the port of the
  // annotated edge in its slot as its aspect when that edge has a port, and
  // keeps its data otherwise.
  lemma {:induction false} WithAspectsSpec(e: Edge, directed: bool, aes: seq<Edge>, i: nat)
    requires SlotsUnique(directed, aes)
    ensures i < |aes| && SameSlot(directed, aes[i], e) ==>
              WithAspects(e, directed, aes).data == if "port" in aes[i].data then e.data["aspect" := aes[i].data["port"]] else e.data
    ensures (forall ae :: ae in aes ==> !SameSlot(directed, ae, e)) ==> WithAspects(e, directed, aes) == e
    decreases |aes|
  {
    if aes != [] {
      var n := |aes| - 1;
      var init := aes[..n];
      assert SlotsUnique(directed, init);
      assert forall ae :: ae in init ==> ae in aes;
      var f := WithAspects(e, directed, init);
      SameSlotEnds(directed, aes[n], e, f);
      if i < n {
        WithAspectsSpec(e, directed, init, i);
        assert init[i] == aes[i];
        if SameSlot(directed, aes[i], e) {
          assert !SameSlot(directed, aes[i], aes[n]);
          SlotApart(directed, aes[i], aes[n], e);
          assert WithAspects(e, directed, aes) == f;
        }
      } else {
        WithAspectsSpec(e, directed, init, 0);
        if i == n && SameSlot(directed, aes[i], e) {
          forall ae | ae in init ensures !SameSlot(directed, ae, e) {
            var j :| 0 <= j < n && init[j] == ae;
            assert !SameSlot(directed, aes[j], aes[n]);
            SlotApart(directed, aes[j], aes[n], e);
          }
          assert f == e;
        }
      }
    }
  }

  // Sharing a slot depends only on the end points and the key.
  lemma SameSlotEnds(directed: bool, a: Edge, e: Edge, f: Edge)
    requires f.src == e.src && f.tgt == e.tgt && f.key == e.key
    ensures SameSlot(directed, a, f) <==> SameSlot(directed, a, e)
  {
  }

  // Two edges in different slots cannot both share a slot with e.
  lemma SlotApart(directed: bool, a: Edge, b: Edge, e: Edge)
    requires !SameSlot(directed, a, b)
    ensures !(SameSlot(directed, a, e) && SameSlot(directed, b, e))
  {
  }

  // Every annotated edge with a port has a slot in the semantic graph.
  predicate PortSlotsPresent(aes: seq<Edge>, g: Graph)
  {
    forall ae :: ae in aes && "port" in ae.data ==> HasEdgeKey(g, ae.src, ae.tgt, ae.key)
  }

  function EdgesWithAspects(g: Graph, aes: seq<Edge>): (r: seq<Edge>)
    ensures |r| == |g.edges| && forall j :: 0 <= j < |r| ==> r[j] == WithAspects(g.edges[j], g.directed, aes)
  {
    seq(|g.edges|, j requires 0 <= j < |g.edges| => WithAspects(g.edges[j], g.directed, aes))
  }

  // `add_action_aspects(annotated_graph, graph)`: KeyError when an
  // annotated edge with a port has no counterpart in the semantic graph.
  method AddActionAspects(ann: Graph, g: Graph) returns (r: Result<Graph>)
    requires Valid(g)
    ensures r.Err? <==> !PortSlotsPresent(ann.edges, g)
    ensures r.Err? ==> r.error == KeyError
    ensures r.Ok? ==> r.value == g.(edges := EdgesWithAspects(g, ann.edges))
  {
    var h := g;
    var i := 0;
    while i < |ann.edges|
      invariant 0 <= i <= |ann.edges|
      invariant PortSlotsPresent(ann.edges[..i], g)
      invariant h == g.(edges := EdgesWithAspects(g, ann.edges[..i]))
    {
      var ae := ann.edges[i];
      PrefixStep(ann.edges, i);
      if "port" in ae.data {
        var k := EdgeIndex(h.edges, h.directed, ae.src, ae.tgt, ae.key);
        if k.None? {
          SlotsKept(g, h, ae);
          return Err(KeyError);
        }
        SlotsKept(g, h, ae);
        h := AspectStep(g, h, ann.edges, i, k.value);
      } else {
        assert h.edges == EdgesWithAspects(g, ann.edges[..i + 1]);
      }
      i := i + 1;
    }
    WholePrefix(ann.edges);
    r := Ok(h);
  }

  // The assignments change no slot: g and h have the same edges up to data.
  lemma SlotsKept(g: Graph, h: Graph, ae: Edge)
    requires |h.edges| == |g.edges| && h.directed == g.directed
    requires forall j :: 0 <= j < |g.edges| ==> h.edges[j].src == g.edges[j].src && h.edges[j].tgt == g.edges[j].tgt && h.edges[j].key == g.edges[j].key
    ensures EdgeIndex(h.edges, h.directed, ae.src, ae.tgt, ae.key).None? <==> !HasEdgeKey(g, ae.src, ae.tgt, ae.key)
  {
    if HasEdgeKey(g, ae.src, ae.tgt, ae.key) {
      var e :| e in g.edges && Joins(g.directed, e, ae.src, ae.tgt) && e.key == ae.key;
      var j :| 0 <= j < |g.edges| && g.edges[j] == e;
      assert h.edges[j] in h.edges;
    }
    match EdgeIndex(h.edges, h.directed, ae.src, ae.tgt, ae.key)
    case Some(j) =>
      assert g.edges[j] in g.edges;
    case None =>
  }

  // One assignment: the edge in the annotated edge's slot takes its port.
  method AspectStep(g: Graph, h: Graph, aes: seq<Edge>, i: nat, k: nat) returns (h': Graph)
    requires Valid(g) && i < |aes| && "port" in aes[i].data
    requires h == g.(edges := EdgesWithAspects(g, aes[..i]))
    requires EdgeIndex(h.edges, h.directed, aes[i].src, aes[i].tgt, aes[i].key) == Some(k)
    ensures h' == g.(edges := EdgesWithAspects(g, aes[..i + 1]))
  {
    var ae := aes[i];
    h' := h.(edges := h.edges[k := h.edges[k].(data := h.edges[k].data["aspect" := ae.data["port"]])]);
    PrefixStep(aes, i);
    forall j | 0 <= j < |g.edges|
      ensures h'.edges[j] == WithAspects(g.edges[j], g.directed, aes[..i + 1])
    {
      if j != k {
        assert h.edges[j] == WithAspects(g.edges[j], g.directed, aes[..i]);
        if SameSlot(g.directed, ae, h.edges[j]) {
          assert SameSlot(g.directed, g.edges[k], g.edges[j]);
          assert false;
        }
      }
    }
    assert h'.edges == EdgesWithAspects(g, aes[..i + 1]);
  }

  // On a copy of the annotated topology, the pass copies each edge's port
  // to its aspect, and an edge without a port gets no aspect.
  lemma AspectsFromPorts(ann: Graph, g: Graph)
    requires Valid(ann) && g.directed == ann.directed && g.edges == BareAll(ann.edges)
    ensures PortSlotsPresent(ann.edges, g)
    ensures var es := EdgesWithAspects(g, ann.edges);
            |es| == |ann.edges| &&
            forall j :: 0 <= j < |es| ==>
              es[j].src == ann.edges[j].src && es[j].tgt == ann.edges[j].tgt && es[j].key == ann.edges[j].key &&
              es[j].data == if "port" in ann.edges[j].data then map["aspect" := ann.edges[j].data["port"]] else map[]
  {
    forall ae | ae in ann.edges && "port" in ae.data ensures HasEdgeKey(g, ae.src, ae.tgt, ae.key) {
      var j :| 0 <= j < |ann.edges| && ann.edges[j] == ae;
      assert g.edges[j] in g.edges;
    }
    forall j | 0 <= j < |ann.edges|
      ensures WithAspects(g.edges[j], g.directed, ann.edges).data ==
                if "port" in ann.edges[j].data then map["aspect" := ann.edges[j].data["port"]] else map[]
    {
      WithAspectsSpec(g.edges[j], g.directed, ann.edges, j);
    }
  }
}

/* Action edges turned outwards (`fix_action_edge_directions`). */
module SemanticDirections {
  import opened Base
  import opened Graphs
  import opened GraphUtil
  import opened SemanticGraphs

  predicate IsActionNode(d: Attrs)
  {
    Get(d, "root_type") == VStr("action")
  }

  const OutFlags: Attrs := map["input" := VBool(false), "output" := VBool(true)]
  const InFlags: Attrs := map["input" := VBool(true), "output" := VBool(false)]

  // An edge of action a after the out-edge update.
  function Marked(e: Edge, a: NodeId): Edge
  {
    if e.src == a then e.(data := e.data + OutFlags) else e
  }

  function MarkedAll(es: seq<Edge>, a: NodeId): (r: seq<Edge>)
    ensures |r| == |es| && forall i :: 0 <= i < |es| ==> r[i] == Marked(es[i], a)
  {
    if es == [] then [] else MarkedAll(es[..|es| - 1], a) + [Marked(es[|es| - 1], a)]
  }

  // `data.update(input=False, output=True)` for every out-edge of a.
  function MarkOuts(g: Graph, a: NodeId): Graph
  {
    g.(edges := MarkedAll(g.edges, a))
  }

  // One in-edge e: flagged as an input, removed, and added back reversed
  // under a fresh key.
  function Reverse(h: Graph, e: Edge): Result<Graph>
  {
    var d := RemoveEdge(h, e.src, e.tgt, e.key);
    if d.Err? then d else Ok(AddEdge(d.value, e.tgt, e.src, e.data + InFlags))
  }

  // Both loops of `fix_action_edge_directions` for one action: the out-edge
  // update, then the reversal of the in-edges listed after it.
  function FixAction(h: Graph, a: NodeId): Result<Graph>
  {
    var m := MarkOuts(h, a);
    Steps((g, e) => Reverse(g, e), m, InEdges(m, a))
  }

  // `fix_action_edge_directions(graph)` over the actions acts, in order.
  function FixSpec(g: Graph, acts: seq<NodeId>): Result<Graph>
  {
    Steps((h, a) => FixAction(h, a), g, acts)
  }

  /* ---------------- One reversal ---------------- */

  // x is e turned around and flagged as an input.
  predicate Reversal(x: Edge, e: Edge)
  {
    x.src == e.tgt && x.tgt == e.src && x.data == e.data + InFlags
  }

  // The input and output flags are set and opposite.
  predicate Flagged(x: Edge)
  {
    "input" in x.data && "output" in x.data && x.data["input"].VBool? && x.data["output"] == VBool(!x.data["input"].b)
  }

  // Nothing but the edges touching a changes; node data stays.
  ghost predicate SameApart(h: Graph, r: Graph, a: NodeId)
  {
    Valid(r) && r.directed == h.directed && r.attrs == h.attrs && r.nodes == h.nodes && r.data == h.data &&
    |r.edges| == |h.edges| && EdgesOutside(r.edges, {a}) == EdgesOutside(h.edges, {a})
  }

  // Removing the edge at index j by its key drops exactly that index.
  lemma RemoveAtIndex(h: Graph, j: nat)
    requires Valid(h) && j < |h.edges|
    ensures RemoveEdge(h, h.edges[j].src, h.edges[j].tgt, h.edges[j].key) == Ok(DropEdge(h, j))
  {
    var e := h.edges[j];
    assert HasEdgeKey(h, e.src, e.tgt, e.key) by {
      assert e in h.edges;
    }
    var i :| 0 <= i < |h.edges| && h.edges[i].key == e.key && Joins(h.directed, h.edges[i], e.src, e.tgt)
             && RemoveEdge(h, e.src, e.tgt, e.key).value == h.(edges := h.edges[..i] + h.edges[i + 1..]);
    SlotOwner(h.directed, h.edges, i, j);
  }

  // Dropping index j keeps every other edge and adds none.
  lemma DropMembers(es: seq<Edge>, j: nat)
    requires j < |es| && Distinct(es)
    ensures forall x :: x in es[..j] + es[j + 1..] ==> x in es && x != es[j]
    ensures forall x :: x in es && x != es[j] ==> x in es[..j] + es[j + 1..]
  {
    forall x | x in es[..j] + es[j + 1..] ensures x in es && x != es[j] {
      var l :| 0 <= l < |es[..j] + es[j + 1..]| && (es[..j] + es[j + 1..])[l] == x;
      if l < j {
        assert x == es[l];
      } else {
        assert x == es[l + 1];
      }
    }
    forall x | x in es && x != es[j] ensures x in es[..j] + es[j + 1..] {
      var l :| 0 <= l < |es| && es[l] == x;
      if l < j {
        assert es[..j][l] == x;
      } else {
        assert es[j + 1..][l - j - 1] == x;
      }
    }
  }

  // Appending an edge that touches ns leaves the edges outside ns alone.
  lemma AppendOutside(es: seq<Edge>, x: Edge, ns: set<NodeId>)
    requires x.src in ns || x.tgt in ns
    ensures EdgesOutside(es + [x], ns) == EdgesOutside(es, ns)
  {
    assert (es + [x])[..|es|] == es;
  }

  // Dropping an edge that touches ns leaves the edges outside ns alone.
  lemma DropOutside(es: seq<Edge>, j: nat, ns: set<NodeId>)
    requires j < |es| && (es[j].src in ns || es[j].tgt in ns)
    ensures EdgesOutside(es[..j] + es[j + 1..], ns) == EdgesOutside(es, ns)
  {
    calc {
      EdgesOutside(es, ns);
      { assert es == (es[..j] + [es[j]]) + es[j + 1..]; }
      EdgesOutside((es[..j] + [es[j]]) + es[j + 1..], ns);
      { EdgesOutsideAppend(es[..j] + [es[j]], es[j + 1..], ns); }
      EdgesOutside(es[..j] + [es[j]], ns) + EdgesOutside(es[j + 1..], ns);
      { AppendOutside(es[..j], es[j], ns); }
      EdgesOutside(es[..j], ns) + EdgesOutside(es[j + 1..], ns);
      { EdgesOutsideAppend(es[..j], es[j + 1..], ns); }
      EdgesOutside(es[..j] + es[j + 1..], ns);
    }
  }

  // Reversing an in-edge of a removes exactly that edge and adds its
  // reversal.
  lemma ReverseStep(h: Graph, e: Edge, a: NodeId)
    requires Valid(h) && e in h.edges && e.tgt == a
    ensures Reverse(h, e).Ok?
    ensures var r := Reverse(h, e).value;
            SameApart(h, r, a) &&
            (forall x :: x in h.edges && x != e ==> x in r.edges) &&
            (forall x :: x in r.edges ==> (x in h.edges && x != e) || Reversal(x, e)) &&
            (exists x :: x in r.edges && Reversal(x, e))
  {
    var j :| 0 <= j < |h.edges| && h.edges[j] == e;
    SlotsUniqueDistinct(h.directed, h.edges);
    RemoveAtIndex(h, j);
    var d := DropEdge(h, j);
    RemoveEdgeAtValid(h, j);
    DropMembers(h.edges, j);
    DropOutside(h.edges, j, {a});
    assert e.src in h.data && e.tgt in h.data;
    var r := AddEdge(d, e.tgt, e.src, e.data + InFlags);
    AddEdgeValid(d, e.tgt, e.src, e.data + InFlags);
    var x := r.edges[|d.edges|];
    assert x in r.edges && Reversal(x, e);
    AppendOutside(d.edges, x, {a});
  }

  /* ---------------- All reversals of one action ---------------- */

  // Each edge of m leaving a carries the output flags.
  ghost predicate OutsMarked(m: Graph, a: NodeId)
  {
    forall f :: f in m.edges && f.src == a ==> "input" in f.data && f.data["input"] == VBool(false)
  }

  // The edges of m that do not enter a are all in h.
  ghost predicate KeptOthers(m: Graph, a: NodeId, h: Graph)
  {
    forall f :: f in m.edges && f.tgt != a ==> f in h.edges
  }

  // The in-edges es[k..] still to be reversed are all in h.
  ghost predicate Pending(es: seq<Edge>, k: nat, h: Graph)
  {
    forall l :: k <= l < |es| ==> es[l] in h.edges
  }

  // The in-edges es[..k] already reversed each have their reversal in h.
  ghost predicate ReversedUpTo(es: seq<Edge>, k: nat, h: Graph)
  {
    forall l :: 0 <= l < k && l < |es| ==> exists x :: x in h.edges && Reversal(x, es[l])
  }

  // h holds nothing but the three kinds of edges above.
  ghost predicate OnlyThese(m: Graph, es: seq<Edge>, a: NodeId, k: nat, h: Graph)
    requires k <= |es|
  {
    forall x :: x in h.edges ==> (x in m.edges && x.tgt != a) || x in es[k..] || exists l :: 0 <= l < k && Reversal(x, es[l])
  }

  // After reversing the first k in-edges es of a: the other edges of m are
  // kept, the in-edges still to come are there, each reversed edge has its
  // reversal, and nothing else is there.
  ghost predicate Reversing(m: Graph, es: seq<Edge>, a: NodeId, k: nat, h: Graph)
    requires k <= |es|
  {
    SameApart(m, h, a) && KeptOthers(m, a, h) && Pending(es, k, h) && ReversedUpTo(es, k, h) && OnlyThese(m, es, a, k, h)
  }

  lemma {:induction false} ReverseAll(m: Graph, a: NodeId, k: nat)
    requires Valid(m) && OutsMarked(m, a)
    requires k <= |InEdges(m, a)|
    ensures Steps((g, e) => Reverse(g, e), m, InEdges(m, a)[..k]).Ok?
    ensures Reversing(m, InEdges(m, a), a, k, Steps((g, e) => Reverse(g, e), m, InEdges(m, a)[..k]).value)
  {
    var es := InEdges(m, a);
    var step := (g, e) => Reverse(g, e);
    if k == 0 {
      assert es[..0] == [];
      assert es[0..] == es;
    } else {
      ReverseAll(m, a, k - 1);
      var h := Steps(step, m, es[..k - 1]).value;
      StepsNext(step, m, es, k - 1);
      var e := es[k - 1];
      ReverseStep(h, e, a);
      var r := Reverse(h, e).value;
      SlotsUniqueDistinct(m.directed, m.edges);
      EdgesIntoDistinct(m.edges, a);
      ReversingStep(m, es, a, k - 1, h, r);
    }
  }

  // One reversal step keeps each part of Reversing.
  lemma ReversingStep(m: Graph, es: seq<Edge>, a: NodeId, k: nat, h: Graph, r: Graph)
    requires k < |es| && Distinct(es) && OutsMarked(m, a) && es == InEdges(m, a)
    requires Reversing(m, es, a, k, h) && SameApart(h, r, a)
    requires forall x :: x in h.edges && x != es[k] ==> x in r.edges
    requires forall x :: x in r.edges ==> (x in h.edges && x != es[k]) || Reversal(x, es[k])
    requires exists x :: x in r.edges && Reversal(x, es[k])
    ensures Reversing(m, es, a, k + 1, r)
  {
    assert es[k] in m.edges && es[k].tgt == a;
    KeptStep(m, a, es[k], h, r);
    PendingStep(es, k, h, r);
    ReversedStep(m, es, a, k, h, r);
    OnlyTheseStep(m, es, a, k, h, r);
  }

  lemma KeptStep(m: Graph, a: NodeId, e: Edge, h: Graph, r: Graph)
    requires KeptOthers(m, a, h) && e.tgt == a
    requires forall x :: x in h.edges && x != e ==> x in r.edges
    ensures KeptOthers(m, a, r)
  {
  }

  lemma PendingStep(es: seq<Edge>, k: nat, h: Graph, r: Graph)
    requires k < |es| && Distinct(es) && Pending(es, k, h)
    requires forall x :: x in h.edges && x != es[k] ==> x in r.edges
    ensures Pending(es, k + 1, r)
  {
    forall l | k + 1 <= l < |es| ensures es[l] in r.edges {
      assert es[l] in h.edges && es[l] != es[k];
    }
  }

  // A reversal carries the input flag and an out-edge of m does not, so the
  // earlier reversals survive the removal of es[k].
  lemma ReversedStep(m: Graph, es: seq<Edge>, a: NodeId, k: nat, h: Graph, r: Graph)
    requires k < |es| && OutsMarked(m, a) && es == InEdges(m, a) && ReversedUpTo(es, k, h)
    requires forall x :: x in h.edges && x != es[k] ==> x in r.edges
    requires exists x :: x in r.edges && Reversal(x, es[k])
    ensures ReversedUpTo(es, k + 1, r)
  {
    forall l | 0 <= l < k + 1 && l < |es| ensures exists x :: x in r.edges && Reversal(x, es[l]) {
      if l < k {
        var x :| x in h.edges && Reversal(x, es[l]);
        assert es[l] in m.edges && es[k] in m.edges;
        assert x.data["input"] == VBool(true);
        assert x != es[k] by {
          if es[k].src == a {
            assert es[k].data["input"] == VBool(false);
          }
        }
      }
    }
  }

  lemma OnlyTheseStep(m: Graph, es: seq<Edge>, a: NodeId, k: nat, h: Graph, r: Graph)
    requires k < |es| && OnlyThese(m, es, a, k, h)
    requires forall x :: x in r.edges ==> (x in h.edges && x != es[k]) || Reversal(x, es[k])
    ensures OnlyThese(m, es, a, k + 1, r)
  {
    forall x | x in r.edges
      ensures (x in m.edges && x.tgt != a) || x in es[k + 1..] || exists l :: 0 <= l < k + 1 && Reversal(x, es[l])
    {
      if x in es[k..] && x != es[k] {
        var l :| k <= l < |es| && es[l] == x;
        assert es[k + 1..][l - k - 1] == x;
      }
    }
  }

  /* ---------------- One action ---------------- */

  // Marking leaves the edges away from a as they are.
  lemma {:induction false} MarkedOutside(es: seq<Edge>, a: NodeId)
    ensures EdgesOutside(MarkedAll(es, a), {a}) == EdgesOutside(es, {a})
  {
    if es != [] {
      var init := es[..|es| - 1];
      MarkedOutside(init, a);
      assert MarkedAll(es, a) == MarkedAll(init, a) + [Marked(es[|es| - 1], a)];
      assert MarkedAll(es, a)[..|es| - 1] == MarkedAll(init, a);
    }
  }

  // The out-edge update keeps the graph valid and marks every edge leaving a.
  lemma MarkOutsSpec(h: Graph, a: NodeId)
    requires Valid(h)
    ensures SameApart(h, MarkOuts(h, a), a) && OutsMarked(MarkOuts(h, a), a)
    ensures forall x :: x in MarkOuts(h, a).edges <==> exists f :: f in h.edges && x == Marked(f, a)
  {
    MarkOutsValid(h, a);
    MarkOutsMembers(h, a);
  }

  lemma MarkOutsValid(h: Graph, a: NodeId)
    requires Valid(h)
    ensures SameApart(h, MarkOuts(h, a), a)
  {
    MarkedOutside(h.edges, a);
    MarkedSlots(h.directed, h.edges, a);
    MarkedEnds(h.edges, h.data, a);
  }

  lemma MarkedSlots(directed: bool, es: seq<Edge>, a: NodeId)
    requires SlotsUnique(directed, es)
    ensures SlotsUnique(directed, MarkedAll(es, a))
  {
    var ms := MarkedAll(es, a);
    forall i, j | 0 <= i < j < |ms| ensures !SameSlot(directed, ms[i], ms[j]) {
      assert !SameSlot(directed, es[i], es[j]);
    }
  }

  lemma MarkedEnds(es: seq<Edge>, data: map<NodeId, Attrs>, a: NodeId)
    requires EndPointsAreNodes(es, data)
    ensures EndPointsAreNodes(MarkedAll(es, a), data)
  {
    var ms := MarkedAll(es, a);
    forall x | x in ms ensures x.src in data && x.tgt in data {
      var i :| 0 <= i < |ms| && ms[i] == x;
      assert es[i] in es;
    }
  }

  lemma MarkOutsMembers(h: Graph, a: NodeId)
    ensures OutsMarked(MarkOuts(h, a), a)
    ensures forall x :: x in MarkOuts(h, a).edges <==> exists f :: f in h.edges && x == Marked(f, a)
  {
    var m := MarkOuts(h, a);
    forall x | x in m.edges ensures exists f :: f in h.edges && x == Marked(f, a) {
      var i :| 0 <= i < |m.edges| && m.edges[i] == x;
      assert h.edges[i] in h.edges;
    }
    forall f | f in h.edges ensures Marked(f, a) in m.edges {
      var i :| 0 <= i < |h.edges| && h.edges[i] == f;
      assert m.edges[i] == Marked(f, a);
    }
  }

  // The reversals of the in-edges of m = MarkOuts(h, a) are done.
  ghost predicate AllReversed(h: Graph, a: NodeId, r: Graph)
  {
    var m := MarkOuts(h, a);
    Reversing(m, InEdges(m, a), a, |InEdges(m, a)|, r)
  }

  lemma FixActionReversed(h: Graph, a: NodeId)
    requires Valid(h)
    ensures FixAction(h, a).Ok? && AllReversed(h, a, FixAction(h, a).value)
  {
    var m := MarkOuts(h, a);
    MarkOutsSpec(h, a);
    var es := InEdges(m, a);
    ReverseAll(m, a, |es|);
    assert es[..|es|] == es;
  }

  // Both loops for one action a: nothing away from a changes, no edge
  // enters a any more except a self-loop, every edge leaving a carries the
  // input/output flags, each out-edge of a is kept with the output flags,
  // each in-edge is reversed with the input flags, and there is no other
  // edge.
  lemma FixActionSpec(h: Graph, a: NodeId)
    requires Valid(h)
    ensures FixAction(h, a).Ok?
    ensures var r := FixAction(h, a).value;
            SameApart(h, r, a) &&
            (forall x :: x in r.edges && x.tgt == a ==> x.src == a) &&
            (forall x :: x in r.edges && x.src == a ==> Flagged(x)) &&
            (forall f :: f in h.edges && f.tgt != a ==> Marked(f, a) in r.edges) &&
            (forall f :: f in h.edges && f.tgt == a ==> exists x :: x in r.edges && Reversal(x, Marked(f, a))) &&
            (forall x :: x in r.edges ==>
               exists f :: f in h.edges && ((f.tgt != a && x == Marked(f, a)) || (f.tgt == a && Reversal(x, Marked(f, a)))))
  {
    FixActionReversed(h, a);
    var r := FixAction(h, a).value;
    MarkOutsValid(h, a);
    SameApartTrans(h, MarkOuts(h, a), r, a);
    MarkOutsMembers(h, a);
    FixedEdges(h, a, r);
  }

  lemma SameApartTrans(h: Graph, m: Graph, r: Graph, a: NodeId)
    requires SameApart(h, m, a) && SameApart(m, r, a)
    ensures SameApart(h, r, a)
  {
  }

  // The edge facts of FixActionSpec for any graph r reached by the two loops.
  lemma FixedEdges(h: Graph, a: NodeId, r: Graph)
    requires AllReversed(h, a, r)
    requires forall x :: x in MarkOuts(h, a).edges <==> exists f :: f in h.edges && x == Marked(f, a)
    ensures (forall x :: x in r.edges && x.tgt == a ==> x.src == a) &&
            (forall x :: x in r.edges && x.src == a ==> Flagged(x)) &&
            (forall f :: f in h.edges && f.tgt != a ==> Marked(f, a) in r.edges) &&
            (forall f :: f in h.edges && f.tgt == a ==> exists x :: x in r.edges && Reversal(x, Marked(f, a))) &&
            (forall x :: x in r.edges ==>
               exists f :: f in h.edges && ((f.tgt != a && x == Marked(f, a)) || (f.tgt == a && Reversal(x, Marked(f, a)))))
  {
    var m := MarkOuts(h, a);
    FixedShape(h, m, InEdges(m, a), a, r);
    FixedKept(h, a, r);
    FixedOrigin(h, m, InEdges(m, a), a, r);
  }

  lemma FixedShape(h: Graph, m: Graph, es: seq<Edge>, a: NodeId, r: Graph)
    requires m == MarkOuts(h, a) && es == InEdges(m, a) && OnlyThese(m, es, a, |es|, r)
    requires forall x :: x in m.edges <==> exists f :: f in h.edges && x == Marked(f, a)
    ensures forall x :: x in r.edges && x.tgt == a ==> x.src == a
    ensures forall x :: x in r.edges && x.src == a ==> Flagged(x)
  {
    assert es[|es|..] == [];
    forall x | x in r.edges ensures (x.tgt == a ==> x.src == a) && (x.src == a ==> Flagged(x)) {
      if x in m.edges && x.tgt != a {
        var f :| f in h.edges && x == Marked(f, a);
      } else {
        var l :| 0 <= l < |es| && Reversal(x, es[l]);
        assert es[l] in m.edges;
      }
    }
  }

  lemma FixedKept(h: Graph, a: NodeId, r: Graph)
    requires AllReversed(h, a, r)
    requires forall x :: x in MarkOuts(h, a).edges <==> exists f :: f in h.edges && x == Marked(f, a)
    ensures forall f :: f in h.edges && f.tgt != a ==> Marked(f, a) in r.edges
    ensures forall f :: f in h.edges && f.tgt == a ==> exists x :: x in r.edges && Reversal(x, Marked(f, a))
  {
    var m := MarkOuts(h, a);
    var es := InEdges(m, a);
    forall f | f in h.edges && f.tgt == a ensures exists x :: x in r.edges && Reversal(x, Marked(f, a)) {
      assert Marked(f, a) in es;
      var l :| 0 <= l < |es| && es[l] == Marked(f, a);
    }
  }

  lemma FixedOrigin(h: Graph, m: Graph, es: seq<Edge>, a: NodeId, r: Graph)
    requires es == InEdges(m, a) && OnlyThese(m, es, a, |es|, r)
    requires forall x :: x in m.edges <==> exists f :: f in h.edges && x == Marked(f, a)
    ensures forall x :: x in r.edges ==>
              exists f :: f in h.edges && ((f.tgt != a && x == Marked(f, a)) || (f.tgt == a && Reversal(x, Marked(f, a))))
  {
    assert es[|es|..] == [];
    forall x | x in r.edges
      ensures exists f :: f in h.edges && ((f.tgt != a && x == Marked(f, a)) || (f.tgt == a && Reversal(x, Marked(f, a))))
    {
      if x in m.edges && x.tgt != a {
        var f :| f in h.edges && x == Marked(f, a);
      } else {
        var l :| 0 <= l < |es| && Reversal(x, es[l]);
        assert es[l] in m.edges;
        var f :| f in h.edges && es[l] == Marked(f, a);
      }
    }
  }

  /* ---------------- The pass ---------------- */

  // The action nodes of g.
  function ActionSet(g: Graph): set<NodeId>
  {
    set a | a in g.data && IsActionNode(g.data[a])
  }

  // No edge joins two different actions: actions meet only through
  // entities.
  ghost predicate NoActionLinks(g: Graph)
  {
    forall e :: e in g.edges && e.src != e.tgt && e.src in g.data && e.tgt in g.data ==>
      !(IsActionNode(g.data[e.src]) && IsActionNode(g.data[e.tgt]))
  }

  // Every edge at action a points away from it (a self-loop aside) and
  // says whether it is an input or an output.
  ghost predicate Outward(g: Graph, a: NodeId)
  {
    (forall x :: x in g.edges && x.tgt == a ==> x.src == a) &&
    (forall x :: x in g.edges && x.src == a ==> Flagged(x))
  }

  // The state after the first i actions.
  ghost predicate FixedUpTo(g: Graph, acts: seq<NodeId>, i: nat, h: Graph)
  {
    Valid(h) && h.directed == g.directed && h.attrs == g.attrs && h.nodes == g.nodes && h.data == g.data &&
    |h.edges| == |g.edges| && NoActionLinks(h) && SameAway(g, h, ActionSet(g)) &&
    forall j :: 0 <= j < i && j < |acts| ==> Outward(h, acts[j])
  }

  // The edges with no end point in ns.
  ghost predicate SameAway(h: Graph, r: Graph, ns: set<NodeId>)
  {
    forall x: Edge :: x.src !in ns && x.tgt !in ns ==> (x in r.edges <==> x in h.edges)
  }

  // Changing only edges at b changes no edge away from a set holding b.
  lemma AwayWider(h: Graph, r: Graph, ns: set<NodeId>, b: NodeId)
    requires b in ns && EdgesOutside(r.edges, {b}) == EdgesOutside(h.edges, {b})
    ensures SameAway(h, r, ns)
  {
    forall x: Edge | x.src !in ns && x.tgt !in ns ensures x in r.edges <==> x in h.edges {
      assert x in r.edges <==> x in EdgesOutside(r.edges, {b});
    }
  }

  // The edge origins after one action keep NoActionLinks.
  lemma LinksKept(h: Graph, b: NodeId, r: Graph)
    requires NoActionLinks(h) && r.data == h.data
    requires Origins(h, b, r)
    ensures NoActionLinks(r)
  {
    forall x | x in r.edges && x.src != x.tgt && x.src in r.data && x.tgt in r.data
      ensures !(IsActionNode(r.data[x.src]) && IsActionNode(r.data[x.tgt]))
    {
      var f :| f in h.edges && FromEdge(x, f, b);
    }
  }

  // Processing action b leaves an earlier action a pointing outwards.
  lemma OutwardKept(h: Graph, b: NodeId, r: Graph, a: NodeId)
    requires a != b && a in h.data && b in h.data && IsActionNode(h.data[a]) && IsActionNode(h.data[b])
    requires Valid(h) && NoActionLinks(h) && Outward(h, a) && Origins(h, b, r)
    ensures Outward(r, a)
  {
    forall x | x in r.edges ensures (x.tgt == a ==> x.src == a) && (x.src == a ==> Flagged(x)) {
      var f :| f in h.edges && FromEdge(x, f, b);
      assert f.src in h.data && f.tgt in h.data;
      OutwardEdge(x, f, a, b);
    }
  }

  // One edge: an edge at a that is not a link between a and b keeps
  // pointing away from a.
  lemma OutwardEdge(x: Edge, f: Edge, a: NodeId, b: NodeId)
    requires a != b && FromEdge(x, f, b)
    requires (f.tgt == a ==> f.src == a) && (f.src == a ==> Flagged(f))
    requires !(f.src == a && f.tgt == b) && !(f.src == b && f.tgt == a)
    ensures (x.tgt == a ==> x.src == a) && (x.src == a ==> Flagged(x))
  {
  }

  // x comes from an edge f of h by the update for action b.
  predicate FromEdge(x: Edge, f: Edge, b: NodeId)
  {
    (f.tgt != b && x == Marked(f, b)) || (f.tgt == b && Reversal(x, Marked(f, b)))
  }

  ghost predicate Origins(h: Graph, b: NodeId, r: Graph)
  {
    forall x :: x in r.edges ==> exists f :: f in h.edges && FromEdge(x, f, b)
  }

  // One action of the pass keeps FixedUpTo.
  lemma FixedStep(g: Graph, acts: seq<NodeId>, i: nat, h: Graph)
    requires Distinct(acts) && i < |acts| && forall j :: 0 <= j < |acts| ==> acts[j] in ActionSet(g)
    requires FixedUpTo(g, acts, i, h)
    ensures FixAction(h, acts[i]).Ok? && FixedUpTo(g, acts, i + 1, FixAction(h, acts[i]).value)
  {
    var b := acts[i];
    FixActionSpec(h, b);
    var r := FixAction(h, b).value;
    assert Origins(h, b, r);
    LinksKept(h, b, r);
    OutwardStep(g, acts, i, h, r);
    assert b in ActionSet(g);
    AwayWider(h, r, ActionSet(g), b);
  }

  lemma OutwardStep(g: Graph, acts: seq<NodeId>, i: nat, h: Graph, r: Graph)
    requires Distinct(acts) && i < |acts| && forall j :: 0 <= j < |acts| ==> acts[j] in ActionSet(g)
    requires Valid(h) && h.data == g.data && NoActionLinks(h) && Origins(h, acts[i], r) && Outward(r, acts[i])
    requires forall j :: 0 <= j < i ==> Outward(h, acts[j])
    ensures forall j :: 0 <= j < i + 1 ==> Outward(r, acts[j])
  {
    var b := acts[i];
    forall j | 0 <= j < i ensures Outward(r, acts[j]) {
      assert acts[j] in ActionSet(g) && b in ActionSet(g);
      OutwardKept(h, b, r, acts[j]);
    }
  }

  lemma {:induction false} FixedFold(g: Graph, acts: seq<NodeId>, i: nat)
    requires Valid(g) && NoActionLinks(g)
    requires Distinct(acts) && i <= |acts| && forall j :: 0 <= j < |acts| ==> acts[j] in ActionSet(g)
    ensures FixSpec(g, acts[..i]).Ok? && FixedUpTo(g, acts, i, FixSpec(g, acts[..i]).value)
  {
    if i == 0 {
      assert acts[..0] == [];
    } else {
      FixedFold(g, acts, i - 1);
      StepsNext((h, a) => FixAction(h, a), g, acts, i - 1);
      FixedStep(g, acts, i - 1, FixSpec(g, acts[..i - 1]).value);
    }
  }

  // `fix_action_edge_directions` over a graph in which actions meet only
  // through entities: it succeeds, keeps the nodes, their data and the
  // number of edges, leaves the edges away from actions alone, and turns
  // every action's edges outwards with their input/output flags.
  lemma FixSpecOutward(g: Graph)
    requires Valid(g) && NoActionLinks(g)
    ensures FixSpec(g, FindNodes(g, IsActionNode)).Ok?
    ensures var r := FixSpec(g, FindNodes(g, IsActionNode)).value;
            Valid(r) && r.nodes == g.nodes && r.data == g.data && |r.edges| == |g.edges| && NoActionLinks(r) &&
            SameAway(g, r, ActionSet(g)) &&
            forall a :: a in ActionSet(g) ==> Outward(r, a)
  {
    var acts := FindNodes(g, IsActionNode);
    FixedFold(g, acts, |acts|);
    assert acts[..|acts|] == acts;
    var r := FixSpec(g, acts).value;
    forall a | a in ActionSet(g) ensures Outward(r, a) {
      var j :| 0 <= j < |acts| && acts[j] == a;
    }
  }

  /* ---------------- Methods ---------------- */

  // The first loop: every out-edge of a gets the output flags, in place.
  method MarkOutEdges(h: Graph, a: NodeId) returns (m: Graph)
    ensures m == MarkOuts(h, a)
  {
    m := h;
    var i := 0;
    while i < |m.edges|
      invariant 0 <= i <= |m.edges| == |h.edges|
      invariant m == h.(edges := m.edges)
      invariant forall j :: 0 <= j < i ==> m.edges[j] == Marked(h.edges[j], a)
      invariant forall j :: i <= j < |m.edges| ==> m.edges[j] == h.edges[j]
    {
      if m.edges[i].src == a {
        m := m.(edges := m.edges[i := m.edges[i].(data := m.edges[i].data + OutFlags)]);
      }
      i := i + 1;
    }
    assert m.edges == MarkedAll(h.edges, a);
  }

  // The second loop: each in-edge listed beforehand is removed and added
  // back reversed.
  method ReverseInEdges(m: Graph, a: NodeId) returns (r: Result<Graph>)
    ensures r == Steps((g, e) => Reverse(g, e), m, InEdges(m, a))
  {
    var step := (g, e) => Reverse(g, e);
    var es := InEdges(m, a);
    var h := m;
    var i := 0;
    while i < |es|
      invariant 0 <= i <= |es|
      invariant Steps(step, m, es[..i]) == Ok(h)
    {
      var e := es[i];
      var d := RemoveEdge(h, e.src, e.tgt, e.key);
      StepsNext(step, m, es, i);
      if d.Err? {
        StepsStop(step, m, es, i + 1);
        return d;
      }
      h := AddEdge(d.value, e.tgt, e.src, e.data + InFlags);
      i := i + 1;
    }
    assert es[..i] == es;
    r := Ok(h);
  }

  // `fix_action_edge_directions(graph)`.
  method FixActionEdgeDirections(g: Graph) returns (r: Result<Graph>)
    requires Valid(g)
    ensures r == FixSpec(g, FindNodes(g, IsActionNode))
  {
    var step := (h, a) => FixAction(h, a);
    var acts := FindNodes(g, IsActionNode);
    var h := g;
    var i := 0;
    while i < |acts|
      invariant 0 <= i <= |acts|
      invariant FixSpec(g, acts[..i]) == Ok(h)
    {
      var m := MarkOutEdges(h, acts[i]);
      var x := ReverseInEdges(m, acts[i]);
      StepsNext(step, g, acts, i);
      if x.Err? {
        StepsStop(step, g, acts, i + 1);
        return x;
      }
      h := x.value;
      i := i + 1;
    }
    assert acts[..i] == acts;
    r := Ok(h);
  }
}

/* Action aspects checked against the ontology (`validate_action_aspects`). */
module SemanticValidation {
  import opened Base
  import opened Graphs
  import opened GraphUtil
  import opened SemanticGraphs
  import opened SemanticDirections

  // The aspect an edge claims, None when it claims none.
  function AspectOf(e: Edge): Value
  {
    Get(e.data, "aspect")
  }

  // A claimed aspect the type of a does not have: a string missing from
  // the valid names, or any other truthy value.
  predicate Invalid(e: Edge, a: NodeId, valid: set<string>)
  {
    e.src == a && Truthy(AspectOf(e)) && !(AspectOf(e).VStr? && AspectOf(e).s in valid)
  }

  // An invalid aspect that cannot be looked up in a dictionary: Python
  // raises TypeError (unhashable type).
  predicate Bad(e: Edge, a: NodeId, valid: set<string>)
  {
    Invalid(e, a, valid) && (AspectOf(e).VList? || AspectOf(e).VDict?)
  }

  // The edge with an invalid aspect deleted.
  function Checked(e: Edge, a: NodeId, valid: set<string>): Edge
  {
    if Invalid(e, a, valid) then e.(data := e.data - {"aspect"}) else e
  }

  // The inner loop over the out-edges of a.
  function CheckEdges(es: seq<Edge>, a: NodeId, valid: set<string>): (r: Result<seq<Edge>>)
    ensures r.Ok? <==> forall e :: e in es ==> !Bad(e, a, valid)
    ensures r.Err? ==> r.error == TypeError
    ensures r.Ok? ==> |r.value| == |es| && forall i :: 0 <= i < |es| ==> r.value[i] == Checked(es[i], a, valid)
  {
    if es == [] then Ok([])
    else
      var e := es[|es| - 1];
      var init := CheckEdges(es[..|es| - 1], a, valid);
      assert forall x :: x in es <==> x in es[..|es| - 1] || x == e;
      if init.Err? then init
      else if Bad(e, a, valid) then Err(TypeError)
      else Ok(init.value + [Checked(e, a, valid)])
  }

  // The names of the aspects the type of a has, when its data names a
  // type the ontology knows.
  function ValidNames(o: Olog, d: Attrs): Result<set<string>>
  {
    if "type" !in d then Err(KeyError)
    else
      var aspects := TypeAspects(o, d["type"]);
      if aspects.Err? then Err(aspects.error) else Ok(aspects.value.Keys)
  }

  // One action of `validate_action_aspects`.
  function ValidateAction(o: Olog, h: Graph, a: NodeId): Result<Graph>
  {
    if a !in h.data then Err(KeyError)
    else
      var valid := ValidNames(o, h.data[a]);
      if valid.Err? then Err(valid.error)
      else
        var es := CheckEdges(h.edges, a, valid.value);
        if es.Err? then Err(es.error) else Ok(h.(edges := es.value))
  }

  // `validate_action_aspects(graph)` over the actions acts, in order.
  function ValidateSpec(o: Olog, g: Graph, acts: seq<NodeId>): Result<Graph>
  {
    Steps((h, a) => ValidateAction(o, h, a), g, acts)
  }

  /* ---------------- Properties ---------------- */

  // A checked edge keeps its slot, loses at most its aspect, and claims no
  // invalid aspect; checking twice changes nothing more.
  lemma CheckedSpec(e: Edge, a: NodeId, valid: set<string>)
    ensures var c := Checked(e, a, valid);
            c.src == e.src && c.tgt == e.tgt && c.key == e.key &&
            c.data - {"aspect"} == e.data - {"aspect"} &&
            !Invalid(c, a, valid) &&
            Checked(c, a, valid) == c &&
            (!Invalid(e, a, valid) ==> c == e)
  {
    var c := Checked(e, a, valid);
    if Invalid(e, a, valid) {
      assert AspectOf(c) == VNone;
    }
  }

  // Every edge leaving a claims only aspects its type has.
  ghost predicate AspectsValid(g: Graph, a: NodeId, valid: set<string>)
  {
    forall e :: e in g.edges ==> !Invalid(e, a, valid)
  }

  // What the pass demands of one action: a type the ontology knows, and no
  // unhashable invalid aspect on its edges.
  ghost predicate Checkable(o: Olog, g: Graph, a: NodeId)
  {
    a in g.data && ValidNames(o, g.data[a]).Ok? && forall e :: e in g.edges ==> !Bad(e, a, ValidNames(o, g.data[a]).value)
  }

  // Edge e after the actions in done are checked.
  function CheckedBy(o: Olog, g: Graph, e: Edge, done: seq<NodeId>): Edge
    requires forall a :: a in done ==> a in g.data && ValidNames(o, g.data[a]).Ok?
  {
    if e.src in done then Checked(e, e.src, ValidNames(o, g.data[e.src]).value) else e
  }

  // The state after the first i actions: the node data and the edge slots
  // stay, and each edge leaving a checked action is checked.
  ghost predicate ValidatedUpTo(o: Olog, g: Graph, acts: seq<NodeId>, i: nat, h: Graph)
    requires i <= |acts| && forall a :: a in acts[..i] ==> a in g.data && ValidNames(o, g.data[a]).Ok?
  {
    h == g.(edges := h.edges) && |h.edges| == |g.edges| &&
    forall k :: 0 <= k < |g.edges| ==> h.edges[k] == CheckedBy(o, g, g.edges[k], acts[..i])
  }

  // Checking keeps the slot of an edge, and leaves the edges of actions
  // not yet checked as they are.
  lemma CheckedBySlot(o: Olog, g: Graph, e: Edge, done: seq<NodeId>)
    requires forall a :: a in done ==> a in g.data && ValidNames(o, g.data[a]).Ok?
    ensures var c := CheckedBy(o, g, e, done); c.src == e.src && c.tgt == e.tgt && c.key == e.key
    ensures e.src !in done ==> CheckedBy(o, g, e, done) == e
  {
    if e.src in done {
      CheckedSpec(e, e.src, ValidNames(o, g.data[e.src]).value);
    }
  }

  // An action not yet checked sees its own edges as they were.
  lemma CheckableThen(o: Olog, g: Graph, acts: seq<NodeId>, i: nat, h: Graph)
    requires Distinct(acts) && i < |acts| && forall a :: a in acts[..i] ==> a in g.data && ValidNames(o, g.data[a]).Ok?
    requires ValidatedUpTo(o, g, acts, i, h)
    ensures forall k :: 0 <= k < |h.edges| ==> h.edges[k].src == g.edges[k].src
    ensures forall k :: 0 <= k < |h.edges| && g.edges[k].src == acts[i] ==> h.edges[k] == g.edges[k]
  {
    DistinctAt(acts, i);
    forall k | 0 <= k < |h.edges| ensures h.edges[k].src == g.edges[k].src && (g.edges[k].src == acts[i] ==> h.edges[k] == g.edges[k]) {
      CheckedBySlot(o, g, g.edges[k], acts[..i]);
    }
  }

  // One action keeps ValidatedUpTo, and fails exactly when it is not
  // checkable.
  lemma ValidatedStep(o: Olog, g: Graph, acts: seq<NodeId>, i: nat, h: Graph)
    requires Distinct(acts) && i < |acts| && forall a :: a in acts[..i] ==> a in g.data && ValidNames(o, g.data[a]).Ok?
    requires ValidatedUpTo(o, g, acts, i, h)
    ensures ValidateAction(o, h, acts[i]).Ok? <==> Checkable(o, g, acts[i])
    ensures ValidateAction(o, h, acts[i]).Ok? ==>
              (forall a :: a in acts[..i + 1] ==> a in g.data && ValidNames(o, g.data[a]).Ok?) &&
              ValidatedUpTo(o, g, acts, i + 1, ValidateAction(o, h, acts[i]).value)
  {
    var b := acts[i];
    assert acts[..i + 1] == acts[..i] + [b];
    if b in g.data && ValidNames(o, g.data[b]).Ok? {
      var valid := ValidNames(o, g.data[b]).value;
      CheckableThen(o, g, acts, i, h);
      assert (forall e :: e in h.edges ==> !Bad(e, b, valid)) <==> (forall e :: e in g.edges ==> !Bad(e, b, valid)) by {
        forall e | e in g.edges && Bad(e, b, valid) ensures e in h.edges {
          var k :| 0 <= k < |g.edges| && g.edges[k] == e;
          assert h.edges[k] == e;
        }
        forall e | e in h.edges && Bad(e, b, valid) ensures e in g.edges {
          var k :| 0 <= k < |h.edges| && h.edges[k] == e;
          assert h.edges[k] == g.edges[k];
        }
      }
      var r := ValidateAction(o, h, b);
      if r.Ok? {
        forall k | 0 <= k < |g.edges| ensures r.value.edges[k] == CheckedBy(o, g, g.edges[k], acts[..i + 1]) {
          var e := g.edges[k];
          CheckedBySlot(o, g, e, acts[..i]);
          if e.src == b {
            assert h.edges[k] == e;
          } else {
            assert !Invalid(h.edges[k], b, valid);
          }
        }
      }
    }
  }

  lemma {:induction false} ValidatedFold(o: Olog, g: Graph, acts: seq<NodeId>, i: nat)
    requires Distinct(acts) && i <= |acts|
    ensures ValidateSpec(o, g, acts[..i]).Ok? <==> forall j :: 0 <= j < i ==> Checkable(o, g, acts[j])
    ensures ValidateSpec(o, g, acts[..i]).Ok? ==>
              (forall a :: a in acts[..i] ==> a in g.data && ValidNames(o, g.data[a]).Ok?) &&
              ValidatedUpTo(o, g, acts, i, ValidateSpec(o, g, acts[..i]).value)
  {
    var step := (h, a) => ValidateAction(o, h, a);
    if i == 0 {
      assert acts[..0] == [];
      assert g.(edges := g.edges) == g;
    } else {
      ValidatedFold(o, g, acts, i - 1);
      var prev := ValidateSpec(o, g, acts[..i - 1]);
      if prev.Ok? {
        StepsNext(step, g, acts, i - 1);
        ValidatedStep(o, g, acts, i - 1, prev.value);
      } else {
        assert acts[..i][..i - 1] == acts[..i - 1];
        StepsStop(step, g, acts[..i], i - 1);
      }
    }
  }

  // `validate_action_aspects` succeeds exactly when every action has a
  // type the ontology knows and no unhashable aspect it lacks; then it
  // changes nothing but edge data, each edge of an action losing just an
  // aspect its type does not have, so every action's edges end up claiming
  // only valid aspects.
  lemma ValidateSpecSound(o: Olog, g: Graph)
    requires Valid(g)
    ensures var acts := FindNodes(g, IsActionNode);
            ValidateSpec(o, g, acts).Ok? <==> forall a :: a in ActionSet(g) ==> Checkable(o, g, a)
    ensures var acts := FindNodes(g, IsActionNode);
            ValidateSpec(o, g, acts).Ok? ==>
              var r := ValidateSpec(o, g, acts).value;
              r == g.(edges := r.edges) && |r.edges| == |g.edges| &&
              (forall k :: 0 <= k < |g.edges| ==>
                 var e := g.edges[k];
                 r.edges[k] == (if e.src in ActionSet(g) then Checked(e, e.src, ValidNames(o, g.data[e.src]).value) else e)) &&
              forall a :: a in ActionSet(g) ==> AspectsValid(r, a, ValidNames(o, g.data[a]).value)
  {
    var acts := FindNodes(g, IsActionNode);
    ValidatedFold(o, g, acts, |acts|);
    assert acts[..|acts|] == acts;
    assert (forall j :: 0 <= j < |acts| ==> Checkable(o, g, acts[j])) <==> (forall a :: a in ActionSet(g) ==> Checkable(o, g, a)) by {
      forall a | a in ActionSet(g) && (forall j :: 0 <= j < |acts| ==> Checkable(o, g, acts[j])) ensures Checkable(o, g, a) {
        var j :| 0 <= j < |acts| && acts[j] == a;
      }
    }
    var res := ValidateSpec(o, g, acts);
    if res.Ok? {
      var r := res.value;
      forall a | a in ActionSet(g) ensures AspectsValid(r, a, ValidNames(o, g.data[a]).value) {
        forall x | x in r.edges ensures !Invalid(x, a, ValidNames(o, g.data[a]).value) {
          var k :| 0 <= k < |r.edges| && r.edges[k] == x;
          CheckedBySlot(o, g, g.edges[k], acts);
          if g.edges[k].src in acts {
            CheckedSpec(g.edges[k], g.edges[k].src, ValidNames(o, g.data[g.edges[k].src]).value);
          }
        }
      }
    }
  }

  // Checking an action twice changes nothing the second time.
  lemma ValidateActionIdempotent(o: Olog, h: Graph, a: NodeId)
    requires ValidateAction(o, h, a).Ok?
    ensures ValidateAction(o, ValidateAction(o, h, a).value, a) == ValidateAction(o, h, a)
  {
    var r := ValidateAction(o, h, a).value;
    var valid := ValidNames(o, h.data[a]).value;
    forall k | 0 <= k < |r.edges| ensures Checked(r.edges[k], a, valid) == r.edges[k] && !Bad(r.edges[k], a, valid) {
      CheckedSpec(h.edges[k], a, valid);
    }
    var again := CheckEdges(r.edges, a, valid);
    assert again.Ok?;
    assert again.value == r.edges;
  }

  // `validate_action_aspects(graph)`: each action's edges are checked in
  // place, the first error stopping the pass.
  method ValidateActionAspects(o: Olog, g: Graph) returns (r: Result<Graph>)
    requires Valid(g)
    ensures r == ValidateSpec(o, g, FindNodes(g, IsActionNode))
  {
    var step := (h, a) => ValidateAction(o, h, a);
    var acts := FindNodes(g, IsActionNode);
    var h := g;
    var i := 0;
    while i < |acts|
      invariant 0 <= i <= |acts|
      invariant ValidateSpec(o, g, acts[..i]) == Ok(h)
    {
      var a := acts[i];
      StepsNext(step, g, acts, i);
      var valid := if a in h.data then ValidNames(o, h.data[a]) else Err(KeyError);
      if valid.Err? {
        StepsStop(step, g, acts, i + 1);
        return Err(valid.error);
      }
      var es := CheckOutEdges(h.edges, a, valid.value);
      if es.Err? {
        StepsStop(step, g, acts, i + 1);
        return Err(es.error);
      }
      h := h.(edges := es.value);
      i := i + 1;
    }
    assert acts[..i] == acts;
    r := Ok(h);
  }

  // The inner loop: each edge of a losing an invalid aspect in place.
  method CheckOutEdges(edges: seq<Edge>, a: NodeId, valid: set<string>) returns (r: Result<seq<Edge>>)
    ensures r == CheckEdges(edges, a, valid)
  {
    var es := edges;
    var j := 0;
    while j < |es|
      invariant 0 <= j <= |es| == |edges|
      invariant forall k :: 0 <= k < j ==> es[k] == Checked(edges[k], a, valid) && !Bad(edges[k], a, valid)
      invariant forall k :: j <= k < |es| ==> es[k] == edges[k]
    {
      if Bad(es[j], a, valid) {
        assert es[j] in edges;
        return Err(TypeError);
      }
      es := es[j := Checked(es[j], a, valid)];
      j := j + 1;
    }
    assert forall e :: e in edges ==> !Bad(e, a, valid);
    assert es == CheckEdges(edges, a, valid).value;
    r := Ok(es);
  }
}
