// The annotated flow graph builder (core/annotated_graph.py), first part:
// how action and entity nodes are labelled, the per-action maps from object
// ids to entity data, and the passes that carry sources, sinks, node
// annotations and edge ids over from the concrete flow graph.
module AnnotatedGraphs {
  import opened Base
  import opened Graphs
  import opened GraphUtil
  import opened FlowGraphs

  /* ---------------- Node kinds and labels ---------------- */

  // `bool(data.get('annotation'))`.
  predicate IsAnnotated(d: Attrs)
  {
    Truthy(Get(d, "annotation"))
  }

  predicate IsAction(d: Attrs)
  {
    Get(d, "kind") == VStr("action")
  }

  predicate IsEntity(d: Attrs)
  {
    Get(d, "kind") == VStr("entity")
  }

  // `note and 'id' in note`, for a dictionary annotation (an empty
  // dictionary is false, and a dictionary with an id is not empty).
  predicate HasId(note: Value)
  {
    note.VDict? && DictGet(note.entries, "id").Some?
  }

  function NoteId(note: Value): Value
    requires HasId(note)
  {
    DictGet(note.entries, "id").value
  }

  // The label of an action: the annotation's id, otherwise ''.
  function ActionLabel(note: Value): Value
  {
    if HasId(note) then NoteId(note) else VStr("")
  }

  // The label of an entity: the annotation's id, otherwise 'value' when the
  // entity carries a value, otherwise 'object' when it is annotated at all.
  function EntityLabel(note: Value, attr: Attrs): Value
  {
    if HasId(note) then NoteId(note)
    else if "value" in attr then VStr("value")
    else if Truthy(note) then VStr("object")
    else VStr("")
  }

  // The data `annotate_action` / `annotate_entity` write: the annotation,
  // the kind and the label, then the other attributes given, which win.
  function NodeData(kind: string, text: Value, attr: Attrs): Attrs
  {
    map["annotation" := Get(attr, "annotation"), "kind" := VStr(kind), "label" := text] + (attr - {"annotation"})
  }

  // What the written data holds once merged over a node's old data.
  lemma NodeDataFacts(kind: string, text: Value, attr: Attrs, prior: Attrs)
    ensures var d := prior + NodeData(kind, text, attr);
            Get(d, "annotation") == Get(attr, "annotation") &&
            ("kind" !in attr ==> Get(d, "kind") == VStr(kind)) &&
            ("label" !in attr ==> Get(d, "label") == text) &&
            (forall k :: k in attr && k != "annotation" ==> Get(d, k) == attr[k]) &&
            (forall k :: k in prior && k !in attr && k != "annotation" && k != "kind" && k != "label" ==> k in d && d[k] == prior[k])
  {
  }

  // Merges d into the data of the existing node n; nothing else changes.
  function Relabel(g: Graph, n: NodeId, d: Attrs): (r: Graph)
    requires n in g.data
    ensures r.nodes == g.nodes && r.edges == g.edges && r.directed == g.directed && r.attrs == g.attrs
    ensures r.data.Keys == g.data.Keys && r.data[n] == g.data[n] + d
    ensures forall m :: m in g.data && m != n ==> r.data[m] == g.data[m]
    ensures Valid(g) ==> Valid(r)
  {
    AddNode(g, n, d)
  }

  // `annotate_action(graph, node, attr)`.
  function AnnotateAction(g: Graph, n: NodeId, attr: Attrs): (r: Graph)
    requires n in g.data
    ensures r.nodes == g.nodes && r.edges == g.edges && r.directed == g.directed && r.attrs == g.attrs
    ensures r.data.Keys == g.data.Keys
    ensures forall m :: m in g.data && m != n ==> r.data[m] == g.data[m]
    ensures Get(r.data[n], "annotation") == Get(attr, "annotation")
    ensures "kind" !in attr ==> IsAction(r.data[n])
    ensures "label" !in attr ==> Get(r.data[n], "label") == (if HasId(Get(attr, "annotation")) then NoteId(Get(attr, "annotation")) else VStr(""))
    ensures forall k :: k in attr && k != "annotation" ==> Get(r.data[n], k) == attr[k]
    ensures forall k :: k in g.data[n] && k !in attr && k != "annotation" && k != "kind" && k != "label" ==> k in r.data[n] && r.data[n][k] == g.data[n][k]
    ensures Valid(g) ==> Valid(r)
  {
    var note := Get(attr, "annotation");
    NodeDataFacts("action", ActionLabel(note), attr, g.data[n]);
    Relabel(g, n, NodeData("action", ActionLabel(note), attr))
  }

  // `annotate_entity(graph, node, attr)`.
  function AnnotateEntity(g: Graph, n: NodeId, attr: Attrs): (r: Graph)
    requires n in g.data
    ensures r.nodes == g.nodes && r.edges == g.edges && r.directed == g.directed && r.attrs == g.attrs
    ensures r.data.Keys == g.data.Keys
    ensures forall m :: m in g.data && m != n ==> r.data[m] == g.data[m]
    ensures Get(r.data[n], "annotation") == Get(attr, "annotation")
    ensures "kind" !in attr ==> IsEntity(r.data[n])
    ensures "label" !in attr ==>
              var note := Get(attr, "annotation");
              Get(r.data[n], "label") ==
                (if HasId(note) then NoteId(note)
                 else if "value" in attr then VStr("value")
                 else if Truthy(note) then VStr("object")
                 else VStr(""))
    ensures forall k :: k in attr && k != "annotation" ==> Get(r.data[n], k) == attr[k]
    ensures forall k :: k in g.data[n] && k !in attr && k != "annotation" && k != "kind" && k != "label" ==> k in r.data[n] && r.data[n][k] == g.data[n][k]
    ensures Valid(g) ==> Valid(r)
  {
    var note := Get(attr, "annotation");
    NodeDataFacts("entity", EntityLabel(note, attr), attr, g.data[n]);
    Relabel(g, n, NodeData("entity", EntityLabel(note, attr), attr))
  }

  // The label precedence, for an entity: an annotation id beats a value,
  // which beats being annotated.
  lemma EntityLabelPrecedence(note: Value, attr: Attrs)
    ensures HasId(note) ==> EntityLabel(note, attr) == NoteId(note)
    ensures !HasId(note) && "value" in attr ==> EntityLabel(note, attr) == VStr("value")
    ensures !HasId(note) ==> (EntityLabel(note, attr) == VStr("") <==> !Truthy(note) && "value" !in attr)
  {
  }

  /* ---------------- Id maps ---------------- */

  // What an id map holds for one object id: the entity's data and the port
  // names it was added under, in order.
  datatype Entity = Entity(data: Attrs, ports: seq<string>)

  // A dictionary from object ids to entities, in insertion order.
  type IdMap = seq<(Value, Entity)>

  // The graph-level `object_annotations` dictionary (object id to
  // annotation), in order.
  type Notes = seq<(Value, Value)>

  // `isinstance(id_or_data, dict)` decides how an entity is given.
  datatype IdOrData = ById(id: Value) | ByData(fields: Attrs)

  function IdOrDataOf(v: Value): IdOrData
  {
    if v.VDict? then ByData(AttrsOf(v.entries)) else ById(v)
  }

  // A dictionary value as an attribute map (the first entry of a key wins,
  // as for DictGet).
  function AttrsOf(entries: seq<(string, Value)>): (r: Attrs)
    ensures forall k :: k in r <==> DictGet(entries, k).Some?
    ensures forall k :: k in r ==> r[k] == DictGet(entries, k).value
  {
    map k | k in (set e | e in entries :: e.0) :: DictGet(entries, k).value
  }

  // `d.get(k)` on a dictionary keyed by object ids.
  function NoteOf(notes: Notes, k: Value): (r: Value)
    ensures r != VNone ==> (k, r) in notes
    ensures (forall p :: p in notes ==> p.0 != k) ==> r == VNone
  {
    if notes == [] then VNone
    else if notes[0].0 == k then notes[0].1
    else NoteOf(notes[1..], k)
  }

  function Ids(m: IdMap): (r: seq<Value>)
    ensures |r| == |m| && forall i :: 0 <= i < |m| ==> r[i] == m[i].0
  {
    if m == [] then [] else Ids(m[..|m| - 1]) + [m[|m| - 1].0]
  }

  // At most one entry per id.
  predicate OnePerId(m: IdMap)
  {
    Distinct(Ids(m))
  }

  // The position of an id's entry.
  function Find(m: IdMap, k: Value): (r: Option<nat>)
    ensures r.Some? ==> r.value < |m| && m[r.value].0 == k
    ensures r.None? <==> forall i :: 0 <= i < |m| ==> m[i].0 != k
  {
    if m == [] then None
    else if m[|m| - 1].0 == k then Some(|m| - 1)
    else
      var r := Find(m[..|m| - 1], k);
      if r.Some? then r
      else
        assert forall i :: 0 <= i < |m| - 1 ==> m[..|m| - 1][i] == m[i];
        None
  }

  // `id_map.get(k)`.
  function Lookup(m: IdMap, k: Value): Option<Entity>
  {
    match Find(m, k)
    case None => None
    case Some(i) => Some(m[i].1)
  }

  // The id under which an entity is filed; a dictionary without an id gets
  // a generated one (the token stands for `uuid.uuid4().hex`).
  function IdOf(x: IdOrData, token: string): Value
  {
    match x
    case ById(id) => id
    case ByData(f) => if "id" in f then f["id"] else VStr(token)
  }

  // The names of a list whose items are all strings.
  function Names(items: seq<Value>): (r: Option<seq<string>>)
    ensures r.Some? <==> forall v :: v in items ==> v.VStr?
    ensures r.Some? ==> |r.value| == |items| && forall i :: 0 <= i < |items| ==> items[i] == VStr(r.value[i])
  {
    if items == [] then Some([])
    else
      var init := Names(items[..|items| - 1]);
      var last := items[|items| - 1];
      assert forall v :: v in items <==> v in items[..|items| - 1] || v == last;
      if init.None? || !last.VStr? then None else Some(init.value + [last.s])
  }

  // The port names a dictionary already carries: its `ports` entry when that
  // is a list of names. It is the list `setdefault('ports', [])` returns, and
  // `reify_inputs`/`reify_outputs` pop it from the data.
  function SeedPorts(x: IdOrData): seq<string>
  {
    if x.ByData? && "ports" in x.fields && x.fields["ports"].VList? && Names(x.fields["ports"].items).Some?
    then Names(x.fields["ports"].items).value
    else []
  }

  // The data filed for a new entity: a copy of the dictionary, or the id
  // and its object annotation. A list of port names moves to the entity's
  // ports and leaves the data.
  function DataOf(x: IdOrData, notes: Notes): (r: Attrs)
    ensures x.ByData? ==> r.Keys <= x.fields.Keys && forall k :: k in r ==> r[k] == x.fields[k]
    ensures x.ByData? ==> forall k :: k in x.fields && k != "ports" ==> k in r
    ensures SeedPorts(x) != [] ==> "ports" !in r
  {
    match x
    case ById(id) => map["id" := id, "annotation" := NoteOf(notes, id)]
    case ByData(f) =>
      if "ports" in f && f["ports"].VList? && Names(f["ports"].items).Some? then f - {"ports"} else f
  }

  function PortsOf(name: Option<string>): seq<string>
  {
    if name.Some? then [name.value] else []
  }

  // `add_entity_to_id_map(id_map, id_or_data, name)`: returns the new map
  // and the entity's id. An id already present keeps its data (the new data
  // is dropped); the port name, when given, is appended to the entity's
  // ports either way; a new id starts with the port names its dictionary
  // already lists, then the given one; every other entry is untouched.
  function AddEntity(m: IdMap, x: IdOrData, name: Option<string>, notes: Notes, token: string): (r: (IdMap, Value))
    ensures r.1 == IdOf(x, token)
    ensures OnePerId(m) ==> OnePerId(r.0)
    ensures Lookup(m, r.1).Some? ==>
              Ids(r.0) == Ids(m) &&
              Lookup(r.0, r.1) == Some(Entity(Lookup(m, r.1).value.data, Lookup(m, r.1).value.ports + PortsOf(name)))
    ensures Lookup(m, r.1).None? ==> r.0 == m + [(r.1, Entity(DataOf(x, notes), SeedPorts(x) + PortsOf(name)))]
    ensures forall k :: k != r.1 ==> Lookup(r.0, k) == Lookup(m, k)
    ensures |m| <= |r.0| <= |m| + 1
    ensures forall j :: 0 <= j < |m| ==> r.0[j].0 == m[j].0 && r.0[j].1.data == m[j].1.data
    ensures |r.0| > |m| ==> r.0[|m|].1.data == DataOf(x, notes)
  {
    var id := IdOf(x, token);
    (FileEntity(m, id, Entity(DataOf(x, notes), SeedPorts(x) + PortsOf(name)), PortsOf(name)), id)
  }

  // A dictionary that already lists port names keeps them: a new entry's
  // ports are those names followed by the given one, and its data no longer
  // holds `ports`, so no port list reaches the entity node.
  lemma SeededPorts(m: IdMap, f: Attrs, ps: seq<string>, name: Option<string>, notes: Notes, token: string)
    requires "ports" in f && f["ports"].VList? && Names(f["ports"].items) == Some(ps)
    requires Lookup(m, IdOf(ByData(f), token)).None?
    ensures var r := AddEntity(m, ByData(f), name, notes, token);
            Lookup(r.0, r.1) == Some(Entity(f - {"ports"}, ps + PortsOf(name))) &&
            "ports" !in Lookup(r.0, r.1).value.data
  {
    var r := AddEntity(m, ByData(f), name, notes, token);
    assert r.0 == m + [(r.1, Entity(f - {"ports"}, ps + PortsOf(name)))];
    FindAppend(m, r.1, Entity(f - {"ports"}, ps + PortsOf(name)), r.1);
  }

  // Files an entity under id: an existing entry gains the extra ports, a
  // missing one is appended.
  function FileEntity(m: IdMap, id: Value, entry: Entity, extra: seq<string>): (r: IdMap)
    ensures OnePerId(m) ==> OnePerId(r)
    ensures Lookup(m, id).Some? ==>
              Ids(r) == Ids(m) &&
              Lookup(r, id) == Some(Entity(Lookup(m, id).value.data, Lookup(m, id).value.ports + extra))
    ensures Lookup(m, id).None? ==> r == m + [(id, entry)]
    ensures forall k :: k != id ==> Lookup(r, k) == Lookup(m, k)
    ensures |m| <= |r| <= |m| + 1
    ensures forall j :: 0 <= j < |m| ==> r[j].0 == m[j].0 && r[j].1.data == m[j].1.data
    ensures |r| > |m| ==> r[|m|].1 == entry
  {
    match Find(m, id)
    case Some(i) =>
      var e := m[i].1;
      var m' := m[i := (id, Entity(e.data, e.ports + extra))];
      UpdateKeepsIds(m, i, Entity(e.data, e.ports + extra));
      FindSame(m, m', id);
      m'
    case None =>
      var m' := m + [(id, entry)];
      assert Ids(m') == Ids(m) + [id];
      forall k | k != id ensures Lookup(m', k) == Lookup(m, k) {
        FindAppend(m, id, entry, k);
      }
      FindAppend(m, id, entry, id);
      m'
  }

  // Replacing the entity of an entry keeps every id in place.
  lemma UpdateKeepsIds(m: IdMap, i: nat, e: Entity)
    requires i < |m|
    ensures Ids(m[i := (m[i].0, e)]) == Ids(m)
  {
    var m' := m[i := (m[i].0, e)];
    assert forall j :: 0 <= j < |m| ==> Ids(m')[j] == Ids(m)[j];
  }

  // Two maps with the same ids find every id at the same place.
  lemma FindSame(m: IdMap, m': IdMap, id: Value)
    requires |m| == |m'| && forall j :: 0 <= j < |m| ==> m[j].0 == m'[j].0
    ensures forall k :: Find(m', k) == Find(m, k)
    decreases |m|
  {
    if m != [] {
      FindSame(m[..|m| - 1], m'[..|m| - 1], id);
    }
  }

  // Appending a new id leaves the other ids where they were.
  lemma FindAppend(m: IdMap, id: Value, e: Entity, k: Value)
    requires Find(m, id).None?
    ensures Find(m + [(id, e)], k) == if k == id then Some(|m|) else Find(m, k)
  {
    assert (m + [(id, e)])[..|m|] == m;
  }

  /* ---------------- Sources and sinks ---------------- */

  // The parts of the concrete flow graph the pipeline reads: the graph
  // itself and its graph-level dictionaries keyed by object id (objects
  // created outside the trace and the nodes consuming them, objects that
  // survive it and the node producing each, and the object annotations).
  datatype Concrete = Concrete(graph: Graph, sources: seq<(Value, seq<NodeId>)>, sinks: seq<(Value, NodeId)>, notes: Notes)

  // `bool(concrete.node[n].get('annotation'))`; KeyError for a non-node.
  function ConcreteAnnotated(c: Graph, n: NodeId): (r: Result<bool>)
    ensures r.Err? <==> n !in c.data
    ensures r.Err? ==> r.error == KeyError
    ensures r.Ok? ==> (r.value <==> IsAnnotated(c.data[n]))
  {
    if n !in c.data then Err(KeyError) else Ok(IsAnnotated(c.data[n]))
  }

  // `any(map(is_annotated, nodes))`: stops at the first annotated node, so
  // only the nodes before it must exist.
  function AnyAnnotated(c: Graph, ns: seq<NodeId>): (r: Result<bool>)
    ensures r.Err? ==> r.error == KeyError
    ensures r == Ok(true) ==> exists n :: n in ns && n in c.data && IsAnnotated(c.data[n])
    ensures r == Ok(false) ==> forall n :: n in ns ==> n in c.data && !IsAnnotated(c.data[n])
    ensures (forall n :: n in ns ==> n in c.data) ==> r.Ok?
  {
    if ns == [] then Ok(false)
    else if ns[0] !in c.data then Err(KeyError)
    else if IsAnnotated(c.data[ns[0]]) then Ok(true)
    else AnyAnnotated(c, ns[1..])
  }

  // The edges added from the source node: for each object id whose
  // consumers include an annotated node, one edge to each consumer.
  function SourceWires(c: Graph, sources: seq<(Value, seq<NodeId>)>, source: NodeId): Result<seq<Wire>>
  {
    if sources == [] then Ok([])
    else
      var prev := SourceWires(c, sources[..|sources| - 1], source);
      var entry := sources[|sources| - 1];
      var any := AnyAnnotated(c, entry.1);
      if prev.Err? then prev
      else if any.Err? then Err(any.error)
      else if any.value then Ok(prev.value + FanOut(source, entry.1, entry.0))
      else prev
  }

  // One edge from the source to each listed node, carrying the object id.
  function FanOut(source: NodeId, ns: seq<NodeId>, id: Value): (r: seq<Wire>)
    ensures |r| == |ns| && forall i :: 0 <= i < |ns| ==> r[i] == (source, ns[i], map["id" := id])
  {
    if ns == [] then [] else FanOut(source, ns[..|ns| - 1], id) + [(source, ns[|ns| - 1], map["id" := id])]
  }

  // The edges added into the sink node: one per object id whose producer
  // is annotated.
  function SinkWires(c: Graph, sinks: seq<(Value, NodeId)>, sink: NodeId): Result<seq<Wire>>
  {
    if sinks == [] then Ok([])
    else
      var prev := SinkWires(c, sinks[..|sinks| - 1], sink);
      var entry := sinks[|sinks| - 1];
      var ann := ConcreteAnnotated(c, entry.1);
      if prev.Err? then prev
      else if ann.Err? then Err(ann.error)
      else if ann.value then Ok(prev.value + [(entry.1, sink, map["id" := entry.0])])
      else prev
  }

  // Every source edge goes to a consumer of an object that has an
  // annotated consumer, and carries that object's id.
  lemma {:induction false} SourceWiresSound(c: Graph, sources: seq<(Value, seq<NodeId>)>, source: NodeId, t: Wire)
    requires SourceWires(c, sources, source).Ok? && t in SourceWires(c, sources, source).value
    ensures t.0 == source
    ensures exists p :: p in sources && t.1 in p.1 && t.2 == map["id" := p.0] &&
                        exists n :: n in p.1 && n in c.data && IsAnnotated(c.data[n])
    decreases |sources|
  {
    var init := sources[..|sources| - 1];
    var p := sources[|sources| - 1];
    var prev := SourceWires(c, init, source);
    if t in prev.value {
      SourceWiresSound(c, init, source, t);
      var q :| q in init && t.1 in q.1 && t.2 == map["id" := q.0] &&
               exists n :: n in q.1 && n in c.data && IsAnnotated(c.data[n]);
      assert q in sources;
    } else {
      var fan := FanOut(source, p.1, p.0);
      assert t in fan;
      var i :| 0 <= i < |fan| && fan[i] == t;
      assert t.1 == p.1[i];
    }
  }

  // Every consumer of an object with an annotated consumer gets a source
  // edge carrying the object's id.
  lemma {:induction false} SourceWiresComplete(c: Graph, sources: seq<(Value, seq<NodeId>)>, source: NodeId, i: nat, n: NodeId, a: NodeId)
    requires SourceWires(c, sources, source).Ok?
    requires i < |sources| && n in sources[i].1 && a in sources[i].1 && a in c.data && IsAnnotated(c.data[a])
    ensures (source, n, map["id" := sources[i].0]) in SourceWires(c, sources, source).value
    decreases |sources|
  {
    var init := sources[..|sources| - 1];
    var p := sources[|sources| - 1];
    if i < |sources| - 1 {
      assert init[i] == sources[i];
      SourceWiresComplete(c, init, source, i, n, a);
    } else {
      var any := AnyAnnotated(c, p.1);
      assert any != Ok(false);
      var fan := FanOut(source, p.1, p.0);
      var j :| 0 <= j < |p.1| && p.1[j] == n;
      assert fan[j] == (source, n, map["id" := sources[i].0]);
    }
  }

  // A sink edge leaves exactly the annotated producers.
  lemma {:induction false} SinkWiresExact(c: Graph, sinks: seq<(Value, NodeId)>, sink: NodeId, t: Wire)
    requires SinkWires(c, sinks, sink).Ok?
    ensures t in SinkWires(c, sinks, sink).value <==>
              t.1 == sink && exists p :: p in sinks && t.0 == p.1 && t.2 == map["id" := p.0] &&
                                         p.1 in c.data && IsAnnotated(c.data[p.1])
    decreases |sinks|
  {
    if sinks != [] {
      var init := sinks[..|sinks| - 1];
      var p := sinks[|sinks| - 1];
      SinkWiresExact(c, init, sink, t);
      assert forall q :: q in sinks <==> q in init || q == p;
      var ann := ConcreteAnnotated(c, p.1);
      assert ann.Ok?;
    }
  }

  // All sink producers exist when the sink edges can be computed.
  lemma {:induction false} SinkWiresOk(c: Graph, sinks: seq<(Value, NodeId)>, sink: NodeId)
    ensures SinkWires(c, sinks, sink).Ok? <==> forall p :: p in sinks ==> p.1 in c.data
    decreases |sinks|
  {
    if sinks != [] {
      var init := sinks[..|sinks| - 1];
      SinkWiresOk(c, init, sink);
      assert forall q :: q in sinks <==> q in init || q == sinks[|sinks| - 1];
    }
  }

  // The pass as a whole: the two new nodes, then the source edges, then the
  // sink edges.
  function SourceSinkSpec(c: Concrete, g: Graph, source: NodeId, sink: NodeId): Result<Graph>
  {
    var h := EnsureNode(EnsureNode(g, source), sink);
    var s := SourceWires(c.graph, c.sources, source);
    var t := SinkWires(c.graph, c.sinks, sink);
    if s.Err? then Err(s.error)
    else if t.Err? then Err(t.error)
    else Ok(AddTriples(h, s.value + t.value))
  }

  // `add_source_sink_actions(concrete, graph)`; the two tokens stand for
  // the uuids in the new nodes' names.
  method AddSourceSinkActions(c: Concrete, g: Graph, sourceToken: string, sinkToken: string) returns (r: Result<Graph>)
    ensures r == SourceSinkSpec(c, g, NodeName(sourceToken, Some("__source__"), None), NodeName(sinkToken, Some("__sink__"), None))
  {
    var source := NodeName(sourceToken, Some("__source__"), None);
    var sink := NodeName(sinkToken, Some("__sink__"), None);
    var h0 := EnsureNode(EnsureNode(g, source), sink);
    var h1 := AddSourceEdges(c.graph, c.sources, h0, source);
    if h1.Err? {
      return h1;
    }
    var h2 := AddSinkEdges(c.graph, c.sinks, h1.value, sink);
    if h2.Err? {
      return h2;
    }
    AddTriplesConcat(h0, SourceWires(c.graph, c.sources, source).value, SinkWires(c.graph, c.sinks, sink).value);
    r := h2;
  }

  // The loop over the source table.
  method AddSourceEdges(c: Graph, sources: seq<(Value, seq<NodeId>)>, h0: Graph, source: NodeId) returns (r: Result<Graph>)
    ensures SourceWires(c, sources, source).Err? ==> r == Err(SourceWires(c, sources, source).error)
    ensures SourceWires(c, sources, source).Ok? ==> r == Ok(AddTriples(h0, SourceWires(c, sources, source).value))
  {
    var h := h0;
    ghost var added: seq<Wire> := [];
    var i := 0;
    while i < |sources|
      invariant 0 <= i <= |sources|
      invariant SourceWires(c, sources[..i], source) == Ok(added)
      invariant h == AddTriples(h0, added)
    {
      var entry := sources[i];
      var any := AnyAnnotated(c, entry.1);
      PrefixStep(sources, i);
      if any.Err? {
        SourceWiresErr(c, sources, source, i + 1);
        return Err(any.error);
      }
      if any.value {
        h := FanOutEdges(h0, added, h, source, entry.1, entry.0);
        added := added + FanOut(source, entry.1, entry.0);
      }
      i := i + 1;
    }
    WholePrefix(sources);
    r := Ok(h);
  }

  // One edge from the source to each consumer of an object.
  method FanOutEdges(h0: Graph, ghost added: seq<Wire>, h: Graph, source: NodeId, ns: seq<NodeId>, id: Value) returns (r: Graph)
    requires h == AddTriples(h0, added)
    ensures r == AddTriples(h0, added + FanOut(source, ns, id))
  {
    r := h;
    var j := 0;
    assert FanOut(source, ns[..0], id) == [];
    assert added + [] == added;
    while j < |ns|
      invariant 0 <= j <= |ns|
      invariant r == AddTriples(h0, added + FanOut(source, ns[..j], id))
    {
      FanOutStep(h0, added, source, ns, id, j);
      r := AddEdge(r, source, ns[j], map["id" := id]);
      j := j + 1;
    }
    WholePrefix(ns);
  }

  // One more consumer is one more edge.
  lemma FanOutStep(h0: Graph, added: seq<Wire>, source: NodeId, ns: seq<NodeId>, id: Value, j: nat)
    requires j < |ns|
    ensures AddEdge(AddTriples(h0, added + FanOut(source, ns[..j], id)), source, ns[j], map["id" := id])
            == AddTriples(h0, added + FanOut(source, ns[..j + 1], id))
  {
    PrefixStep(ns, j);
    AppendAssoc(added, FanOut(source, ns[..j], id), [(source, ns[j], map["id" := id])]);
    AddTriplesStep(h0, added + FanOut(source, ns[..j], id), (source, ns[j], map["id" := id]));
  }

  // The loop over the sink table.
  method AddSinkEdges(c: Graph, sinks: seq<(Value, NodeId)>, h0: Graph, sink: NodeId) returns (r: Result<Graph>)
    ensures SinkWires(c, sinks, sink).Err? ==> r == Err(SinkWires(c, sinks, sink).error)
    ensures SinkWires(c, sinks, sink).Ok? ==> r == Ok(AddTriples(h0, SinkWires(c, sinks, sink).value))
  {
    var h := h0;
    ghost var added: seq<Wire> := [];
    var i := 0;
    while i < |sinks|
      invariant 0 <= i <= |sinks|
      invariant SinkWires(c, sinks[..i], sink) == Ok(added)
      invariant h == AddTriples(h0, added)
    {
      var entry := sinks[i];
      var ann := ConcreteAnnotated(c, entry.1);
      PrefixStep(sinks, i);
      if ann.Err? {
        SinkWiresErr(c, sinks, sink, i + 1);
        return Err(ann.error);
      }
      if ann.value {
        AddTriplesStep(h0, added, (entry.1, sink, map["id" := entry.0]));
        h := AddEdge(h, entry.1, sink, map["id" := entry.0]);
        added := added + [(entry.1, sink, map["id" := entry.0])];
      }
      i := i + 1;
    }
    WholePrefix(sinks);
    r := Ok(h);
  }

  // An error in a prefix of the table is the error of the whole table.
  lemma {:induction false} SourceWiresErr(c: Graph, sources: seq<(Value, seq<NodeId>)>, source: NodeId, i: nat)
    requires i <= |sources| && SourceWires(c, sources[..i], source).Err?
    ensures SourceWires(c, sources, source) == SourceWires(c, sources[..i], source)
    decreases |sources| - i
  {
    if i < |sources| {
      PrefixStep(sources, i);
      SourceWiresErr(c, sources, source, i + 1);
    } else {
      WholePrefix(sources);
    }
  }

  lemma {:induction false} SinkWiresErr(c: Graph, sinks: seq<(Value, NodeId)>, sink: NodeId, i: nat)
    requires i <= |sinks| && SinkWires(c, sinks[..i], sink).Err?
    ensures SinkWires(c, sinks, sink) == SinkWires(c, sinks[..i], sink)
    decreases |sinks| - i
  {
    if i < |sinks| {
      PrefixStep(sinks, i);
      SinkWiresErr(c, sinks, sink, i + 1);
    } else {
      WholePrefix(sinks);
    }
  }
}

/* The action-data and edge-data passes. */
module AnnotatedData {
  import opened Base
  import opened Graphs
  import opened AnnotatedGraphs

  // The id maps of the annotated actions: node to (inputs, outputs).
  type Tables = map<NodeId, (IdMap, IdMap)>

  // The uuid tokens for entities given without an id, per action and port
  // name.
  type Tokens = (NodeId, string) -> string

  // `concrete.node.get(n, {})`.
  function ConcreteData(c: Graph, n: NodeId): Attrs
  {
    if n in c.data then c.data[n] else map[]
  }

  // `orig_data.get(key, {}).items()`: a missing table is empty, and a value
  // that is not a dictionary has no `items` (AttributeError).
  function PortTable(orig: Attrs, key: string): (r: Result<seq<(string, Value)>>)
    ensures r.Err? <==> key in orig && !orig[key].VDict?
    ensures r.Err? ==> r.error == AttributeError
    ensures r.Ok? && key in orig ==> orig[key] == VDict(r.value)
    ensures r.Ok? && key !in orig ==> r.value == []
  {
    if key !in orig then Ok([])
    else if orig[key].VDict? then Ok(orig[key].entries)
    else Err(AttributeError)
  }

  // The id map built from one port table: `add_entity_to_id_map(ids,
  // entity_data, name=name)` for each (name, entity_data) in order.
  function TableIdMap(a: NodeId, entries: seq<(string, Value)>, notes: Notes, uuid: Tokens): IdMap
  {
    if entries == [] then []
    else
      var p := entries[|entries| - 1];
      AddEntity(TableIdMap(a, entries[..|entries| - 1], notes, uuid), IdOrDataOf(p.1), Some(p.0), notes, uuid(a, p.0)).0
  }

  // The id a table entry is filed under.
  function EntryId(a: NodeId, p: (string, Value), uuid: Tokens): Value
  {
    IdOf(IdOrDataOf(p.1), uuid(a, p.0))
  }

  // Each table builds a map with one entry per id, in which every port
  // name of the table is recorded with the entity of its id.
  lemma {:induction false} TableIdMapSpec(a: NodeId, entries: seq<(string, Value)>, notes: Notes, uuid: Tokens)
    ensures OnePerId(TableIdMap(a, entries, notes, uuid))
    ensures forall p :: p in entries ==>
              var e := Lookup(TableIdMap(a, entries, notes, uuid), EntryId(a, p, uuid));
              e.Some? && p.0 in e.value.ports
    decreases |entries|
  {
    if entries != [] {
      var init := entries[..|entries| - 1];
      var p := entries[|entries| - 1];
      var m := TableIdMap(a, init, notes, uuid);
      TableIdMapSpec(a, init, notes, uuid);
      var r := AddEntity(m, IdOrDataOf(p.1), Some(p.0), notes, uuid(a, p.0));
      assert forall q :: q in entries ==> q in init || q == p;
      forall q | q in init
        ensures var e := Lookup(r.0, EntryId(a, q, uuid)); e.Some? && q.0 in e.value.ports
      {
        var k := EntryId(a, q, uuid);
        if k == r.1 && Lookup(m, k).Some? {
          assert Lookup(r.0, k).value.ports == Lookup(m, k).value.ports + [p.0];
        }
      }
    }
  }

  // What `add_action_data` does to one node: the annotation, kind and
  // label of an action, and for an annotated action its two id maps.
  function ActionStep(c: Concrete, h: Graph, t: Tables, a: NodeId, uuid: Tokens): Result<(Graph, Tables)>
    requires a in h.data
  {
    var orig := ConcreteData(c.graph, a);
    var note := Get(orig, "annotation");
    var h' := AnnotateAction(h, a, map["annotation" := note]);
    if !Truthy(note) then Ok((h', t))
    else
      var ins := PortTable(orig, "inputs");
      var outs := PortTable(orig, "outputs");
      if ins.Err? then Err(ins.error)
      else if outs.Err? then Err(outs.error)
      else Ok((h', t[a := (TableIdMap(a, ins.value, c.notes, uuid), TableIdMap(a, outs.value, c.notes, uuid))]))
  }

  // The pass over the nodes ns, in order.
  function ActionDataSpec(c: Concrete, g: Graph, ns: seq<NodeId>, uuid: Tokens): (r: Result<(Graph, Tables)>)
    requires forall n :: n in ns ==> n in g.data
    ensures r.Ok? ==> r.value.0.nodes == g.nodes && r.value.0.edges == g.edges && r.value.0.data.Keys == g.data.Keys
    ensures r.Ok? ==> r.value.0.directed == g.directed && r.value.0.attrs == g.attrs
    ensures r.Ok? && Valid(g) ==> Valid(r.value.0)
    ensures r.Ok? ==> r.value.1.Keys <= g.data.Keys
  {
    if ns == [] then Ok((g, map[]))
    else
      var prev := ActionDataSpec(c, g, ns[..|ns| - 1], uuid);
      if prev.Err? then prev
      else ActionStep(c, prev.value.0, prev.value.1, ns[|ns| - 1], uuid)
  }

  // `add_action_data(concrete, graph)`: the node data gains the
  // annotation, kind and label; the id maps of the annotated actions are
  // returned beside the graph.
  method AddActionData(c: Concrete, g: Graph, uuid: Tokens) returns (r: Result<(Graph, Tables)>)
    requires NodesWellFormed(g)
    ensures r == ActionDataSpec(c, g, g.nodes, uuid)
  {
    var h := g;
    var t: Tables := map[];
    var i := 0;
    while i < |g.nodes|
      invariant 0 <= i <= |g.nodes|
      invariant ActionDataSpec(c, g, g.nodes[..i], uuid) == Ok((h, t))
    {
      PrefixStep(g.nodes, i);
      var a := g.nodes[i];
      var step := ActionStep(c, h, t, a, uuid);
      if step.Err? {
        ActionDataErr(c, g, g.nodes, uuid, i + 1);
        return Err(step.error);
      }
      h, t := step.value.0, step.value.1;
      i := i + 1;
    }
    WholePrefix(g.nodes);
    r := Ok((h, t));
  }

  lemma {:induction false} ActionDataErr(c: Concrete, g: Graph, ns: seq<NodeId>, uuid: Tokens, i: nat)
    requires forall n :: n in ns ==> n in g.data
    requires i <= |ns| && ActionDataSpec(c, g, ns[..i], uuid).Err?
    ensures ActionDataSpec(c, g, ns, uuid) == ActionDataSpec(c, g, ns[..i], uuid)
    decreases |ns| - i
  {
    if i < |ns| {
      PrefixStep(ns, i);
      ActionDataErr(c, g, ns, uuid, i + 1);
    } else {
      WholePrefix(ns);
    }
  }

  // After the pass every listed node is an action with the concrete
  // node's annotation and the label it implies; exactly the annotated ones
  // have id maps, built from their input and output port tables; the nodes
  // not listed are untouched.
  lemma {:induction false} ActionDataAt(c: Concrete, g: Graph, ns: seq<NodeId>, uuid: Tokens, n: NodeId)
    requires forall m :: m in ns ==> m in g.data
    requires Distinct(ns) && n in g.data
    requires ActionDataSpec(c, g, ns, uuid).Ok?
    ensures var (h, t) := ActionDataSpec(c, g, ns, uuid).value;
            var note := Get(ConcreteData(c.graph, n), "annotation");
            if n in ns then
              h.data[n] == AnnotateAction(g, n, map["annotation" := note]).data[n] &&
              (n in t <==> Truthy(note)) &&
              (n in t ==> PortTable(ConcreteData(c.graph, n), "inputs").Ok? && PortTable(ConcreteData(c.graph, n), "outputs").Ok? &&
                          t[n] == (TableIdMap(n, PortTable(ConcreteData(c.graph, n), "inputs").value, c.notes, uuid),
                                   TableIdMap(n, PortTable(ConcreteData(c.graph, n), "outputs").value, c.notes, uuid)))
            else h.data[n] == g.data[n] && n !in t
    decreases |ns|
  {
    if ns != [] {
      var init := ns[..|ns| - 1];
      var a := ns[|ns| - 1];
      assert forall m :: m in ns <==> m in init || m == a;
      assert Distinct(init);
      ActionDataAt(c, g, init, uuid, n);
      if n == a {
        DistinctAt(ns, |ns| - 1);
      }
    }
  }

  /* ---------------- Edge ids ---------------- */

  // The edge e after the assignments `graph.edge[src][tgt][key]['id'] =
  // data['id']` for the concrete edges ces: it takes the id of a concrete
  // edge in its slot.
  function WithIds(e: Edge, directed: bool, ces: seq<Edge>): (r: Edge)
    ensures r.src == e.src && r.tgt == e.tgt && r.key == e.key
  {
    if ces == [] then e
    else
      var f := WithIds(e, directed, ces[..|ces| - 1]);
      var ce := ces[|ces| - 1];
      if SameSlot(directed, ce, f) && "id" in ce.data then f.(data := f.data["id" := ce.data["id"]]) else f
  }

  // With one concrete edge per slot, an edge takes the id of the concrete
  // edge in its slot, if any, and keeps its data otherwise.
  lemma {:induction false} WithIdsSpec(e: Edge, directed: bool, ces: seq<Edge>, i: nat)
    requires SlotsUnique(directed, ces)
    requires forall ce :: ce in ces ==> "id" in ce.data
    ensures i < |ces| && SameSlot(directed, ces[i], e) ==> WithIds(e, directed, ces).data == e.data["id" := ces[i].data["id"]]
    ensures (forall ce :: ce in ces ==> !SameSlot(directed, ce, e)) ==> WithIds(e, directed, ces) == e
    decreases |ces|
  {
    if ces != [] {
      var n := |ces| - 1;
      var init := ces[..n];
      assert SlotsUnique(directed, init);
      assert forall ce :: ce in init ==> ce in ces;
      if i < n {
        WithIdsSpec(e, directed, init, i);
        assert init[i] == ces[i];
        if SameSlot(directed, ces[i], e) {
          assert !SameSlot(directed, ces[i], ces[n]);
          SameSlotOther(directed, ces[i], ces[n], e);
        }
      } else {
        WithIdsSpec(e, directed, init, 0);
        if i == n && SameSlot(directed, ces[i], e) {
          forall ce | ce in init ensures !SameSlot(directed, ce, e) {
            var j :| 0 <= j < n && init[j] == ce;
            assert !SameSlot(directed, ces[j], ces[n]);
            SameSlotOther(directed, ces[j], ces[n], e);
          }
        }
      }
    }
  }

  // Two edges in different slots cannot both share a slot with e.
  lemma SameSlotOther(directed: bool, a: Edge, b: Edge, e: Edge)
    requires !SameSlot(directed, a, b)
    ensures !(SameSlot(directed, a, e) && SameSlot(directed, b, e))
  {
  }

  // Every concrete edge has an id and a slot in the annotated graph.
  predicate EdgeIdsPresent(ces: seq<Edge>, g: Graph)
  {
    forall ce :: ce in ces ==> "id" in ce.data && HasEdgeKey(g, ce.src, ce.tgt, ce.key)
  }

  function EdgesWithIds(g: Graph, ces: seq<Edge>): (r: seq<Edge>)
    ensures |r| == |g.edges| && forall j :: 0 <= j < |r| ==> r[j] == WithIds(g.edges[j], g.directed, ces)
  {
    seq(|g.edges|, j requires 0 <= j < |g.edges| => WithIds(g.edges[j], g.directed, ces))
  }

  // `add_edge_data(concrete, graph)`: KeyError when a concrete edge has no
  // id or no counterpart in the annotated graph.
  method AddEdgeData(c: Graph, g: Graph) returns (r: Result<Graph>)
    requires Valid(g)
    ensures r.Err? <==> !EdgeIdsPresent(c.edges, g)
    ensures r.Err? ==> r.error == KeyError
    ensures r.Ok? ==> r.value == g.(edges := EdgesWithIds(g, c.edges))
  {
    var h := g;
    var i := 0;
    while i < |c.edges|
      invariant 0 <= i <= |c.edges|
      invariant EdgeIdsPresent(c.edges[..i], g)
      invariant h == g.(edges := EdgesWithIds(g, c.edges[..i]))
    {
      var ce := c.edges[i];
      PrefixStep(c.edges, i);
      if "id" !in ce.data {
        return Err(KeyError);
      }
      var k := EdgeIndex(h.edges, h.directed, ce.src, ce.tgt, ce.key);
      if k.None? {
        SameSlots(g, h, ce);
        return Err(KeyError);
      }
      SameSlots(g, h, ce);
      h := EdgeIdStep(g, h, c.edges, i, k.value);
      i := i + 1;
    }
    WholePrefix(c.edges);
    r := Ok(h);
  }

  // The updates change no slot: g and h have the same edges up to data.
  lemma SameSlots(g: Graph, h: Graph, ce: Edge)
    requires |h.edges| == |g.edges| && h.directed == g.directed
    requires forall j :: 0 <= j < |g.edges| ==> h.edges[j].src == g.edges[j].src && h.edges[j].tgt == g.edges[j].tgt && h.edges[j].key == g.edges[j].key
    ensures HasEdgeKey(h, ce.src, ce.tgt, ce.key) <==> HasEdgeKey(g, ce.src, ce.tgt, ce.key)
    ensures EdgeIndex(h.edges, h.directed, ce.src, ce.tgt, ce.key).None? <==> !HasEdgeKey(g, ce.src, ce.tgt, ce.key)
  {
    if HasEdgeKey(h, ce.src, ce.tgt, ce.key) {
      var e :| e in h.edges && Joins(h.directed, e, ce.src, ce.tgt) && e.key == ce.key;
      var j :| 0 <= j < |h.edges| && h.edges[j] == e;
      assert g.edges[j] in g.edges;
    }
    if HasEdgeKey(g, ce.src, ce.tgt, ce.key) {
      var e :| e in g.edges && Joins(g.directed, e, ce.src, ce.tgt) && e.key == ce.key;
      var j :| 0 <= j < |g.edges| && g.edges[j] == e;
      assert h.edges[j] in h.edges;
    }
    match EdgeIndex(h.edges, h.directed, ce.src, ce.tgt, ce.key)
    case Some(j) =>
      assert h.edges[j] in h.edges;
    case None =>
  }

  // One assignment: the edge in the concrete edge's slot takes its id.
  method EdgeIdStep(g: Graph, h: Graph, ces: seq<Edge>, i: nat, k: nat) returns (h': Graph)
    requires Valid(g) && i < |ces| && "id" in ces[i].data
    requires h == g.(edges := EdgesWithIds(g, ces[..i]))
    requires EdgeIndex(h.edges, h.directed, ces[i].src, ces[i].tgt, ces[i].key) == Some(k)
    ensures h' == g.(edges := EdgesWithIds(g, ces[..i + 1]))
  {
    var ce := ces[i];
    h' := h.(edges := h.edges[k := h.edges[k].(data := h.edges[k].data["id" := ce.data["id"]])]);
    PrefixStep(ces, i);
    forall j | 0 <= j < |g.edges|
      ensures h'.edges[j] == WithIds(g.edges[j], g.directed, ces[..i + 1])
    {
      assert ces[..i + 1][..i] == ces[..i];
      if j != k {
        assert h.edges[j] == WithIds(g.edges[j], g.directed, ces[..i]);
        if SameSlot(g.directed, ce, h.edges[j]) {
          assert SameSlot(g.directed, g.edges[k], g.edges[j]);
          assert false;
        }
      }
    }
    assert h'.edges == EdgesWithIds(g, ces[..i + 1]);
  }
}

/* The pass that collapses unannotated actions. */
module AnnotatedCollapse {
  import opened Base
  import opened Graphs
  import opened GraphUtil
  import opened GraphOperations
  import opened GraphReach
  import opened AnnotatedGraphs

  // Random tokens for new node names, drawn per graph and name base (they
  // stand for `uuid.uuid4().hex` in `node_name`).
  type Names = (Graph, string) -> string

  // `node_name(graph, base)`.
  function FreshName(names: Names, g: Graph, base: string): NodeId
  {
    NodeName(names(g, base), Some(base), None)
  }

  predicate NoSelfLoops(g: Graph)
  {
    forall e :: e in g.edges ==> e.src != e.tgt
  }

  // `can_collapse(parent, child)`: every annotated node the closure reaches
  // from the parent is reached, in the closure, from every annotated node
  // that reaches the child.
  ghost predicate CanCollapse(g: Graph, cl: Graph, p: NodeId, c: NodeId)
  {
    forall s, t ::
      (HasEdge(cl, p, t) && t in g.data && IsAnnotated(g.data[t]) &&
       HasEdge(cl, s, c) && s in g.data && IsAnnotated(g.data[s])) ==> HasEdge(cl, s, t)
  }

  // The same test over the closure's successor and predecessor lists.
  function CanCollapseAt(g: Graph, cl: Graph, p: NodeId, c: NodeId): (r: bool)
    requires cl.directed
    ensures r <==> CanCollapse(g, cl, p, c)
  {
    var tgts := Successors(cl, p);
    var srcs := Predecessors(cl, c);
    var r := forall t, s ::
      (t in tgts && s in srcs && t in g.data && IsAnnotated(g.data[t]) &&
       s in g.data && IsAnnotated(g.data[s])) ==> HasEdge(cl, s, t);
    assert forall t :: HasEdge(cl, p, t) <==> t in tgts by {
      forall t ensures HasEdge(cl, p, t) <==> t in tgts {
        if HasEdge(cl, p, t) {
          var e :| e in cl.edges && Joins(cl.directed, e, p, t);
        }
      }
    }
    assert forall s :: HasEdge(cl, s, c) <==> s in srcs by {
      forall s ensures HasEdge(cl, s, c) <==> s in srcs {
        if HasEdge(cl, s, c) {
          var e :| e in cl.edges && Joins(cl.directed, e, s, c);
        }
      }
    }
    r
  }

  // A successor the parent may be merged with.
  predicate Qualifies(g: Graph, cl: Graph, p: NodeId, c: NodeId)
    requires cl.directed
  {
    c in g.data && !IsAnnotated(g.data[c]) && CanCollapseAt(g, cl, p, c)
  }

  // `next((c for c in cs if is_unannotated(c) and can_collapse(parent, c)), None)`.
  function PickChild(g: Graph, cl: Graph, p: NodeId, cs: seq<NodeId>): (r: Option<NodeId>)
    requires cl.directed
    ensures r.Some? ==> r.value in cs && Qualifies(g, cl, p, r.value)
    ensures r.Some? ==> exists i :: 0 <= i < |cs| && cs[i] == r.value && forall j :: 0 <= j < i ==> !Qualifies(g, cl, p, cs[j])
    ensures r.None? ==> forall c :: c in cs ==> !Qualifies(g, cl, p, c)
  {
    if cs == [] then None
    else if Qualifies(g, cl, p, cs[0]) then Some(cs[0])
    else
      var r := PickChild(g, cl, p, cs[1..]);
      if r.Some? then
        ghost var i :| 0 <= i < |cs[1..]| && cs[1..][i] == r.value && forall j :: 0 <= j < i ==> !Qualifies(g, cl, p, cs[1..][j]);
        assert cs[i + 1] == r.value;
        assert forall j :: 1 <= j < i + 1 ==> cs[j] == cs[1..][j - 1];
        r
      else
        assert forall c :: c in cs ==> c == cs[0] || c in cs[1..];
        r
  }

  // The data of a node made by collapsing: `annotate_action(graph, node,
  // {'collapsed': True})` on a node without data.
  predicate CollapsedNode(d: Attrs)
  {
    IsAction(d) && !IsAnnotated(d) && Get(d, "collapsed") == VBool(true) && Get(d, "label") == VStr("")
  }

  // One merge: the graph and closure before it, the parent and child
  // merged, the new node and the graph right after `collapse_subgraph`.
  datatype Merge = Merge(graph: Graph, closure: Graph, parent: NodeId, child: NodeId, node: NodeId, collapsed: Graph)

  // A merge of two unannotated nodes joined by an edge, allowed by the
  // guard of the pass against the merge's closure, leaving g: the graph
  // collapsed and the new node annotated as a collapsed action.
  ghost predicate GraphMerge(m: Merge, g: Graph)
  {
    m.parent in m.graph.data && m.child in m.graph.data && m.parent != m.child &&
    !IsAnnotated(m.graph.data[m.parent]) && !IsAnnotated(m.graph.data[m.child]) &&
    HasEdge(m.graph, m.parent, m.child) && CanCollapse(m.graph, m.closure, m.parent, m.child) &&
    m.node !in m.graph.data && Collapsed(m.graph, [m.parent, m.child], m.node, m.collapsed) &&
    m.node in m.collapsed.data && g == AnnotateAction(m.collapsed, m.node, map["collapsed" := VBool(true)])
  }

  // A merge of the pass: the graph merge, with the closure collapsed the
  // same way, leaving cl.
  ghost predicate MergeStep(m: Merge, g: Graph, cl: Graph)
  {
    GraphMerge(m, g) && m.node !in m.closure.data && Collapsed(m.closure, [m.parent, m.child], m.node, cl)
  }

  // A sequence of merges leading from (g0, cl0) to (g, cl).
  ghost predicate Chain(g0: Graph, cl0: Graph, ms: seq<Merge>, g: Graph, cl: Graph)
    decreases |ms|
  {
    if ms == [] then g == g0 && cl == cl0
    else
      var m := ms[|ms| - 1];
      Chain(g0, cl0, ms[..|ms| - 1], m.graph, m.closure) && MergeStep(m, g, cl)
  }

  lemma ChainStep(g0: Graph, cl0: Graph, ms: seq<Merge>, m: Merge, g: Graph, cl: Graph)
    requires Chain(g0, cl0, ms, m.graph, m.closure) && MergeStep(m, g, cl)
    ensures Chain(g0, cl0, ms + [m], g, cl)
  {
    assert (ms + [m])[..|ms|] == ms;
  }

  // The invariant of the pass: both graphs are well formed and have the
  // same nodes, the graph has no self-loop, its annotated nodes are those
  // of the input, untouched, and every other node is an input node with its
  // data or a collapsed node.
  ghost predicate Collapsing(g0: Graph, g: Graph, cl: Graph)
  {
    Valid(g) && Valid(cl) && g.directed && cl.directed && cl.data.Keys == g.data.Keys && NoSelfLoops(g) &&
    KeepsAnnotated(g0, g) && FromInput(g0, g)
  }

  // The annotated nodes of g0 are nodes of g with the same data.
  ghost predicate KeepsAnnotated(g0: Graph, g: Graph)
  {
    forall n :: n in g0.data && IsAnnotated(g0.data[n]) ==> n in g.data && g.data[n] == g0.data[n]
  }

  // Every node of g is a node of g0 with its data, or a collapsed node.
  ghost predicate FromInput(g0: Graph, g: Graph)
  {
    forall n :: n in g.data ==> (n in g0.data && g.data[n] == g0.data[n]) || CollapsedNode(g.data[n])
  }

  // `collapse_unannotated_actions(graph)`, over a topological order of the
  // graph (`topological_sort` is not unique, so the order is given): the
  // closure is computed once, at the start, and then collapsed along with
  // the graph; nodes are popped from the end of the order. The result is
  // reached by a chain of guarded merges from the graph and its closure;
  // annotated nodes survive untouched and every new node is an unannotated
  // collapsed action. ValueError when a generated name is already taken.
  method CollapseUnannotatedActions(g: Graph, order: seq<NodeId>, names: Names)
    returns (r: Result<Graph>, ghost cl: Graph, ghost merges: seq<Merge>, ghost clF: Graph)
    requires Valid(g) && g.directed && IsTopologicalOrder(order, g)
    ensures IsClosureOf(cl, g)
    ensures r.Err? ==> r.error == ValueError
    ensures r.Ok? ==> Chain(g, cl, merges, r.value, clF) && Collapsing(g, r.value, clF)
  {
    var c := TransitiveClosure(g);
    cl := c;
    TopologicalLoopFree(order, g);
    var h := g;
    var stack := order;
    merges, clF := [], cl;
    while stack != []
      invariant Collapsing(g, h, c) && Chain(g, cl, merges, h, c)
      decreases |h.nodes|, |stack|
    {
      var parent := stack[|stack| - 1];
      stack := stack[..|stack| - 1];
      if parent in h.data && !IsAnnotated(h.data[parent]) {
        var child := PickChild(h, c, parent, Successors(h, parent));
        if child.Some? && child.value != "" {
          var newNode := FreshName(names, h, "collapsed");
          var step, m := MergeAt(g, h, c, parent, child.value, newNode);
          if step.Err? {
            return Err(step.error), cl, merges, c;
          }
          ChainStep(g, cl, merges, m, step.value.0, step.value.1);
          merges := merges + [m];
          h, c := step.value.0, step.value.1;
          stack := stack + [newNode];
        }
      }
    }
    r, clF := Ok(h), c;
  }

  // One merge of the pass, with its effect on the invariant.
  method MergeAt(g0: Graph, g: Graph, cl: Graph, p: NodeId, c: NodeId, n: NodeId)
    returns (r: Result<(Graph, Graph)>, ghost m: Merge)
    requires Collapsing(g0, g, cl)
    requires p in g.data && !IsAnnotated(g.data[p]) && c in Successors(g, p) && Qualifies(g, cl, p, c)
    ensures r.Err? ==> r.error == ValueError
    ensures r.Ok? ==> m.graph == g && m.closure == cl && MergeStep(m, r.value.0, r.value.1) &&
                      Collapsing(g0, r.value.0, r.value.1) && |r.value.0.nodes| < |g.nodes|
  {
    assert HasEdge(g, p, c) && p != c by {
      var e :| e in g.edges && e.src == p && e.tgt == c;
    }
    var h1 := CollapseSubgraph(g, [p, c], n);
    if h1.Err? {
      return Err(ValueError), Merge(g, cl, p, c, n, g);
    }
    var cl1 := CollapseSubgraph(cl, [p, c], n);
    if cl1.Err? {
      return Err(ValueError), Merge(g, cl, p, c, n, g);
    }
    var h2 := AnnotateAction(h1.value, n, map["collapsed" := VBool(true)]);
    m := Merge(g, cl, p, c, n, h1.value);
    r := Ok((h2, cl1.value));
    CollapsedFacts(g, [p, c], n, h1.value);
    CollapsedFacts(cl, [p, c], n, cl1.value);
    CollapsedLoopFree(g, [p, c], n, h1.value);
    CollapsedShrinks(g, p, c, n, h1.value);
    CollapsedKeys(g, cl, p, c, n, h1.value, cl1.value);
    CollapsedData(g0, g, p, c, n, h1.value, h2);
    CollapsingAfter(g0, n, h1.value, cl1.value, h2);
  }

  // The invariant after a merge, from the facts about the two collapsed
  // graphs.
  lemma CollapsingAfter(g0: Graph, n: NodeId, h1: Graph, cl1: Graph, h2: Graph)
    requires Valid(h1) && h1.directed && NoSelfLoops(h1) && n in h1.data
    requires Valid(cl1) && cl1.directed && cl1.data.Keys == h1.data.Keys
    requires h2 == AnnotateAction(h1, n, map["collapsed" := VBool(true)])
    requires KeepsAnnotated(g0, h2) && FromInput(g0, h2)
    ensures Collapsing(g0, h2, cl1)
  {
    assert h2.edges == h1.edges && h2.data.Keys == h1.data.Keys && Valid(h2);
  }

  // Collapsing the same two nodes of two graphs with the same nodes gives
  // graphs with the same nodes.
  lemma CollapsedKeys(g: Graph, cl: Graph, p: NodeId, c: NodeId, n: NodeId, h1: Graph, cl1: Graph)
    requires cl.data.Keys == g.data.Keys
    requires forall x :: x in h1.data <==> (x in g.data && x !in [p, c]) || x == n
    requires forall x :: x in cl1.data <==> (x in cl.data && x !in [p, c]) || x == n
    ensures cl1.data.Keys == h1.data.Keys
  {
    assert forall x :: x in h1.data <==> x in cl1.data;
  }

  // What Collapsed says about the nodes.
  lemma CollapsedFacts(g: Graph, sub: seq<NodeId>, n: NodeId, h: Graph)
    requires Collapsed(g, sub, n, h)
    ensures Valid(h) && h.directed == g.directed
    ensures forall x :: x in h.data <==> (x in g.data && x !in sub) || x == n
    ensures forall x :: x in h.data && x != n ==> h.data[x] == g.data[x]
    ensures n in h.data && h.data[n] == map[]
  {
  }

  // Collapsing adds no self-loop.
  lemma CollapsedLoopFree(g: Graph, sub: seq<NodeId>, n: NodeId, h: Graph)
    requires Valid(g) && g.directed && NoSelfLoops(g) && n !in g.data && n !in sub && Collapsed(g, sub, n, h)
    ensures NoSelfLoops(h)
  {
    var S := Members(sub);
    var kept := EdgesOutside(g.edges, S);
    var ins := EdgesAt(g.edges, sub, true);
    var outs := EdgesAt(g.edges, sub, false);
    ReroutedLoopFree(ins, S, n, true);
    ReroutedLoopFree(outs, S, n, false);
    SplitAt(h.edges, |kept|);
    forall e | e in h.edges ensures e.src != e.tgt {
      var k :| 0 <= k < |h.edges| && h.edges[k] == e;
      if k >= |kept| {
        assert h.edges[|kept|..][k - |kept|] == e;
        assert Triple(e) in CollapsedEdges(g, sub, n);
      } else {
        assert e in kept;
      }
    }
  }

  // Re-attaching edges whose far ends are not n to n makes no self-loop.
  lemma {:induction false} ReroutedLoopFree(es: seq<Edge>, S: set<NodeId>, n: NodeId, incoming: bool)
    requires forall e :: e in es ==> Far(e, incoming) != n
    ensures forall t :: t in Rerouted(es, S, n, incoming) ==> t.0 != t.1
    decreases |es|
  {
    if es != [] {
      ReroutedLoopFree(es[..|es| - 1], S, n, incoming);
      assert es[|es| - 1] in es;
    }
  }

  // Merging two nodes into a fresh one leaves one node fewer.
  lemma CollapsedShrinks(g: Graph, p: NodeId, c: NodeId, n: NodeId, h: Graph)
    requires Valid(g) && p in g.data && c in g.data && p != c && n !in [p, c] && Collapsed(g, [p, c], n, h)
    ensures |h.nodes| < |g.nodes|
  {
    MinusPair(g.nodes, Members([p, c]), p, c);
  }

  lemma {:induction false} MinusPair(s: seq<NodeId>, xs: set<NodeId>, p: NodeId, c: NodeId)
    requires p in s && c in s && p != c && p in xs && c in xs
    ensures |Minus(s, xs)| <= |s| - 2
    decreases |s|
  {
    var init := s[..|s| - 1];
    var l := s[|s| - 1];
    assert forall y :: y in s ==> y in init || y == l;
    if l == p {
      MinusOne(init, xs, c);
    } else if l == c {
      MinusOne(init, xs, p);
    } else {
      MinusPair(init, xs, p, c);
    }
  }

  lemma {:induction false} MinusOne(s: seq<NodeId>, xs: set<NodeId>, a: NodeId)
    requires a in s && a in xs
    ensures |Minus(s, xs)| <= |s| - 1
    decreases |s|
  {
    var init := s[..|s| - 1];
    var l := s[|s| - 1];
    assert forall y :: y in s ==> y in init || y == l;
    if l == a {
      MinusLength(init, xs);
    } else {
      MinusOne(init, xs, a);
    }
  }

  lemma {:induction false} MinusLength(s: seq<NodeId>, xs: set<NodeId>)
    ensures |Minus(s, xs)| <= |s|
    decreases |s|
  {
    if s != [] {
      MinusLength(s[..|s| - 1], xs);
    }
  }

  // The node data after a merge keeps the invariant: the annotated input
  // nodes are neither merged nor touched, and the new node is a collapsed
  // action.
  lemma CollapsedData(g0: Graph, g: Graph, p: NodeId, c: NodeId, n: NodeId, h1: Graph, h2: Graph)
    requires KeepsAnnotated(g0, g) && FromInput(g0, g)
    requires p in g.data && c in g.data && !IsAnnotated(g.data[p]) && !IsAnnotated(g.data[c]) && n !in g.data
    requires forall x :: x in h1.data <==> (x in g.data && x !in [p, c]) || x == n
    requires forall x :: x in h1.data && x != n ==> h1.data[x] == g.data[x]
    requires n in h1.data && h1.data[n] == map[]
    requires h2 == AnnotateAction(h1, n, map["collapsed" := VBool(true)])
    ensures KeepsAnnotated(g0, h2) && FromInput(g0, h2)
  {
    CollapsedAgrees(g, p, c, n, h1, h2);
    KeepsAnnotatedAfter(g0, g, p, c, n, h2);
    FromInputAfter(g0, g, n, h2);
  }

  // Outside n, the merged graph's nodes are nodes of g with their data, and
  // every node of g but the two merged ones survives.
  ghost predicate AgreesBut(h: Graph, g: Graph, n: NodeId)
  {
    forall x :: x in h.data && x != n ==> x in g.data && h.data[x] == g.data[x]
  }

  ghost predicate Survives(g: Graph, h: Graph, p: NodeId, c: NodeId)
  {
    forall x :: x in g.data && x != p && x != c ==> x in h.data
  }

  lemma CollapsedAgrees(g: Graph, p: NodeId, c: NodeId, n: NodeId, h1: Graph, h2: Graph)
    requires forall x :: x in h1.data <==> (x in g.data && x !in [p, c]) || x == n
    requires forall x :: x in h1.data && x != n ==> h1.data[x] == g.data[x]
    requires n in h1.data
    requires h2 == AnnotateAction(h1, n, map["collapsed" := VBool(true)])
    ensures AgreesBut(h2, g, n) && Survives(g, h2, p, c) && n in h2.data && CollapsedNode(h2.data[n])
  {
    forall x | x in h2.data && x != n
      ensures x in g.data && h2.data[x] == g.data[x]
    {
      assert h2.data[x] == h1.data[x];
    }
  }

  lemma KeepsAnnotatedAfter(g0: Graph, g: Graph, p: NodeId, c: NodeId, n: NodeId, h2: Graph)
    requires KeepsAnnotated(g0, g) && n !in g.data
    requires p in g.data && c in g.data && !IsAnnotated(g.data[p]) && !IsAnnotated(g.data[c])
    requires AgreesBut(h2, g, n) && Survives(g, h2, p, c)
    ensures KeepsAnnotated(g0, h2)
  {
    forall x | x in g0.data && IsAnnotated(g0.data[x])
      ensures x in h2.data && h2.data[x] == g0.data[x]
    {
      assert x in g.data && g.data[x] == g0.data[x];
      assert x != p && x != c && x != n;
    }
  }

  lemma FromInputAfter(g0: Graph, g: Graph, n: NodeId, h2: Graph)
    requires FromInput(g0, g) && AgreesBut(h2, g, n) && n in h2.data && CollapsedNode(h2.data[n])
    ensures FromInput(g0, h2)
  {
    forall x | x in h2.data
      ensures (x in g0.data && h2.data[x] == g0.data[x]) || CollapsedNode(h2.data[x])
    {
      if x != n {
        assert h2.data[x] == g.data[x];
      }
    }
  }
}
