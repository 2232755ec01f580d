// The concrete flow-graph builder (`FlowGraphBuilder`): a stack machine fed
// balanced call and return trace events. Each call adds a node, with ports
// and input edges, to the graph of the innermost open call; each return pops
// the call's frame, checks that it matches, and registers the objects the
// call produced in the frame's output table.
module FlowGraphBuilding {
  import opened Base
  import opened Graphs
  import opened FlowGraphs
  import GraphUtil
  import Slots

  /* ---------------- Trace events ---------------- */

  // A traced Python object as the builder sees it. Each field is the answer
  // of an oracle the builder consults: the tracker's id for the object, the
  // object's class, its contents when it is a tuple, the data stored about
  // it on edges, the tracked objects a container refers to, and its
  // annotated slots.
  datatype PyObj = PyObj(
    id: Option<string>,         // object_tracker.get_id(obj)
    isNone: bool,               // obj is None
    isMethod: bool,             // isinstance(obj, types.MethodType)
    items: Option<seq<PyObj>>,  // the elements, when obj is a tuple
    info: Attrs,                // `value`, `module`, `qual_name` and `annotation` of _get_object_data
    portValue: Option<Value>,   // the copy kept on a port: only for non-trackable primitive objects
    raw: Value,                 // the object itself when it is stored as node data
    hidden: seq<PyObj>,         // the referents of a tuple, list, dict or set container
    slots: seq<SlotRead>)       // the `slots` of the object's annotation, in order, each looked up

  // One entry `name: slot` of an object annotation's `slots`, with the
  // answer of `get_slot(obj, slot)` (None when it raises AttributeError)
  // and the id `event.tracer.track_object` gives that value when
  // `ObjectTracker.is_trackable` holds of it.
  datatype SlotRead = SlotRead(name: string, slot: Value, value: Option<PyObj>, trackId: Option<string>)

  datatype Kind = Call | Return | OtherEvent

  // `TraceCall` / `TraceReturn`: the called function's module, qualified
  // name and short name, whether its body is traced, the arguments in
  // definition order, and the return value (of a return event). `note` is
  // the annotation the annotator finds for the called function, or the
  // empty dictionary.
  datatype Event = Event(kind: Kind, moduleName: string, qualName: string, name: string, atomic: bool,
                         arguments: seq<(string, PyObj)>, returnValue: PyObj, note: seq<(string, Value)>)

  // `event.full_name`.
  function FullName(e: Event): string
  {
    e.moduleName + "." + e.qualName
  }

  // Python truthiness of the tracker's answer: ids are non-empty strings,
  // and None is never trackable, so it never has one.
  predicate HasId(o: PyObj)
  {
    o.id.Some? && o.id.value != "" && !o.isNone
  }

  function ArgNames(args: seq<(string, PyObj)>): (r: seq<string>)
    ensures |r| == |args| && forall i :: 0 <= i < |args| ==> r[i] == args[i].0
  {
    if args == [] then [] else ArgNames(args[..|args| - 1]) + [args[|args| - 1].0]
  }

  /* ---------------- Annotation slots ---------------- */

  // `for x in v` over a JSON value: a list gives its items, a string its
  // characters, a dictionary its keys; scalars are not iterable. (A nested
  // graph never occurs in an annotation document.)
  function Items(v: Value): (r: Result<seq<Value>>)
    ensures r.Err? <==> !(v.VList? || v.VStr? || v.VDict?)
    ensures r.Err? ==> r.error == TypeError
    ensures v.VList? ==> r == Ok(v.items)
  {
    match v
    case VList(items) => Ok(items)
    case VStr(s) => Ok(seq(|s|, i requires 0 <= i < |s| => VStr([s[i]])))
    case VDict(entries) => Ok(seq(|entries|, i requires 0 <= i < |entries| => VStr(entries[i].0)))
    case _ => Err(TypeError)
  }

  // `dom['slot']`: a dictionary without the key raises KeyError; strings
  // and lists need integer indices and scalars cannot be subscripted.
  function SlotOf(dom: Value): (r: Result<Value>)
    ensures r.Ok? <==> dom.VDict? && DictGet(dom.entries, "slot").Some?
    ensures r.Ok? ==> r.value == DictGet(dom.entries, "slot").value
    ensures r.Err? ==> r.error == (if dom.VDict? then KeyError else TypeError)
  {
    if dom.VDict? then
      var s := DictGet(dom.entries, "slot");
      if s.Some? then Ok(s.value) else Err(KeyError)
    else Err(TypeError)
  }

  // Python's `names[i]` for a possibly negative index.
  function PyIndex(n: nat, i: int): (r: Option<nat>)
    ensures r.Some? <==> -(n as int) <= i < n
    ensures r.Some? ==> r.value < n && (r.value == i || r.value == i + n)
  {
    if 0 <= i < n then Some(i) else if -(n as int) <= i < 0 then Some(i + n) else None
  }

  // `_IOSlots._name(slot)`: an integer slot (a bool is one) names the
  // argument at that position, or None when out of range; any other slot
  // is its own name.
  function SlotName(names: seq<string>, slot: Value): (r: Value)
    ensures slot.VInt? && 0 <= slot.i < |names| ==> r == VStr(names[slot.i])
    ensures slot.VInt? && !(-(|names| as int) <= slot.i < |names|) ==> r == VNone
    ensures (slot.VInt? || slot.VBool?) ==> r == VNone || (r.VStr? && r.s in names)
    ensures !(slot.VInt? || slot.VBool?) ==> r == slot
  {
    var index := if slot.VInt? then Some(slot.i) else if slot.VBool? then Some(if slot.b then 1 else 0) else None;
    if index.None? then slot
    else
      var k := PyIndex(|names|, index.value);
      if k.Some? then VStr(names[k.value]) else VNone
  }

  // The name one annotation entry gives its slot.
  function SlotKey(names: seq<string>, dom: Value): Result<Value>
  {
    var s := SlotOf(dom);
    if s.Err? then Err(s.error) else Ok(SlotName(names, s.value))
  }

  /* ---------------- Purity ---------------- */

  // `qual_name.split('.')[-1]`.
  function ShortName(qualName: string): string
  {
    var parts := Slots.Split(qualName);
    parts[|parts| - 1]
  }

  predicate IsMutatingMethod(qualName: string)
  {
    ShortName(qualName) in ["__init__", "__setattr__", "__setitem__"]
  }

  // `annotation.get(key, [])`.
  function Field(note: seq<(string, Value)>, key: string): Value
  {
    DictGet(note, key).GetOr(VList([]))
  }

  // `any(arg_name == slots._name(dom['slot']) for dom in doms)`, which
  // stops at the first match.
  function AnyNames(names: seq<string>, argName: string, doms: seq<Value>): Result<bool>
  {
    if doms == [] then Ok(false)
    else
      var k := SlotKey(names, doms[0]);
      if k.Err? then Err(k.error)
      else if k.value == VStr(argName) then Ok(true)
      else AnyNames(names, argName, doms[1..])
  }

  // `is_pure(event, annotation, arg_name)`: `self` of the three mutating
  // special methods is never pure; otherwise an argument is pure unless a
  // codomain slot of the annotation names it.
  function IsPure(e: Event, note: seq<(string, Value)>, argName: string): Result<bool>
  {
    if IsMutatingMethod(e.qualName) && argName == "self" then Ok(false)
    else
      var doms := Items(Field(note, "codomain"));
      if doms.Err? then Err(doms.error)
      else
        var any := AnyNames(ArgNames(e.arguments), argName, doms.value);
        if any.Err? then Err(any.error) else Ok(!any.value)
  }

  // `self` of `__init__`, `__setattr__` and `__setitem__` is impure
  // whatever the annotation says.
  lemma MutatingSelfImpure(e: Event, note: seq<(string, Value)>)
    requires IsMutatingMethod(e.qualName)
    ensures IsPure(e, note, "self") == Ok(false)
  {
  }

  // When every codomain entry has a slot, `any` finds a match exactly when
  // some entry names the argument.
  lemma {:induction false} AnyNamesSpec(names: seq<string>, argName: string, doms: seq<Value>)
    requires forall j :: 0 <= j < |doms| ==> SlotKey(names, doms[j]).Ok?
    ensures AnyNames(names, argName, doms) == Ok(exists j :: 0 <= j < |doms| && SlotKey(names, doms[j]) == Ok(VStr(argName)))
    decreases |doms|
  {
    if doms != [] {
      AnyNamesSpec(names, argName, doms[1..]);
      assert forall j :: 1 <= j < |doms| ==> doms[j] == doms[1..][j - 1];
    }
  }

  // An argument is impure exactly when a codomain slot names it (outside
  // the mutating special methods).
  lemma PurityByCodomain(e: Event, note: seq<(string, Value)>, argName: string, doms: seq<Value>)
    requires !(IsMutatingMethod(e.qualName) && argName == "self")
    requires Items(Field(note, "codomain")) == Ok(doms)
    requires forall j :: 0 <= j < |doms| ==> SlotKey(ArgNames(e.arguments), doms[j]).Ok?
    ensures IsPure(e, note, argName).Ok?
    ensures IsPure(e, note, argName).value == false <==>
              exists j :: 0 <= j < |doms| && SlotKey(ArgNames(e.arguments), doms[j]) == Ok(VStr(argName))
  {
    AnyNamesSpec(ArgNames(e.arguments), argName, doms);
  }

  // Without a codomain every argument other than the mutated `self` is pure.
  lemma PureByDefault(e: Event, note: seq<(string, Value)>, argName: string)
    requires !(IsMutatingMethod(e.qualName) && argName == "self")
    requires DictGet(note, "codomain").None?
    ensures IsPure(e, note, argName) == Ok(true)
  {
  }

  /* ---------------- Port names ---------------- */

  // `_mutated_port_name(arg_name)`.
  function MutatedPortName(argName: string): (r: string)
    ensures r != argName && |r| == |argName| + 1 && r[|r| - 1] == '!'
  {
    argName + "!"
  }

  // Different arguments give different output port names.
  lemma MutatedPortNameInjective(a: string, b: string)
    requires MutatedPortName(a) == MutatedPortName(b)
    ensures a == b
  {
    assert a == MutatedPortName(a)[..|a|];
  }

  // `'__return__.%i' % i`.
  function ReturnPortName(i: nat): (r: string)
    ensures |r| > 11 && r[..11] == "__return__." && Slots.AllDigits(r[11..])
  {
    "__return__." + Slots.NatToString(i)
  }

  // The tuple ports are pairwise distinct and differ from the single
  // return port and from every mutated-argument port.
  lemma ReturnPortNamesDistinct(i: nat, j: nat, a: string)
    ensures ReturnPortName(i) == ReturnPortName(j) ==> i == j
    ensures ReturnPortName(i) != "__return__"
    ensures ReturnPortName(i) != MutatedPortName(a)
  {
    if ReturnPortName(i) == ReturnPortName(j) {
      assert Slots.NatToString(i) == ReturnPortName(i)[11..];
      GraphUtil.NatToStringInjective(i, j);
    }
    var r := ReturnPortName(i);
    assert Slots.IsDigit(r[|r| - 1]) by {
      assert r[|r| - 1] == r[11..][|r| - 12];
    }
  }

  /* ---------------- Annotation keys ---------------- */

  predicate IsStringField(note: seq<(string, Value)>, key: string)
  {
    DictGet(note, key).Some? && DictGet(note, key).value.VStr?
  }

  // `'/'.join(note[key] for key in ('language', 'package', 'id'))`: a
  // missing key raises KeyError, a value that is not a string TypeError.
  function AnnotationKey(note: seq<(string, Value)>): (r: Result<string>)
    ensures r.Err? ==> r.error in {KeyError, TypeError}
    ensures r.Ok? <==> IsStringField(note, "language") && IsStringField(note, "package") && IsStringField(note, "id")
  {
    var l := DictGet(note, "language");
    var p := DictGet(note, "package");
    var i := DictGet(note, "id");
    if l.None? || p.None? || i.None? then Err(KeyError)
    else if !(l.value.VStr? && p.value.VStr? && i.value.VStr?) then Err(TypeError)
    else Ok(l.value.s + "/" + p.value.s + "/" + i.value.s)
  }

  // Position of the first '/'.
  function FirstSlash(s: string): (r: nat)
    ensures r <= |s|
  {
    if s == [] then 0 else if s[0] == '/' then 0 else 1 + FirstSlash(s[1..])
  }

  lemma {:induction false} FirstSlashJoin(a: string, rest: string)
    requires '/' !in a
    ensures FirstSlash(a + "/" + rest) == |a|
    decreases |a|
  {
    if a != [] {
      assert (a + "/" + rest)[1..] == a[1..] + "/" + rest;
      FirstSlashJoin(a[1..], rest);
    }
  }

  lemma SlashSplit(a: string, r1: string, b: string, r2: string)
    requires '/' !in a && '/' !in b && a + "/" + r1 == b + "/" + r2
    ensures a == b && r1 == r2
  {
    FirstSlashJoin(a, r1);
    FirstSlashJoin(b, r2);
    var s := a + "/" + r1;
    assert a == s[..|a|] && b == s[..|b|];
    assert r1 == s[|a| + 1..] && r2 == s[|b| + 1..];
  }

  // The key identifies the annotation: with slash-free components, equal
  // keys mean equal language, package and id.
  lemma AnnotationKeyInjective(n1: seq<(string, Value)>, n2: seq<(string, Value)>)
    requires AnnotationKey(n1).Ok? && AnnotationKey(n2).Ok? && AnnotationKey(n1) == AnnotationKey(n2)
    requires forall k :: k in ["language", "package"] ==> '/' !in DictGet(n1, k).value.s && '/' !in DictGet(n2, k).value.s
    ensures forall k :: k in ["language", "package", "id"] ==> DictGet(n1, k) == DictGet(n2, k)
  {
    var l1, p1, i1 := DictGet(n1, "language").value.s, DictGet(n1, "package").value.s, DictGet(n1, "id").value.s;
    var l2, p2, i2 := DictGet(n2, "language").value.s, DictGet(n2, "package").value.s, DictGet(n2, "id").value.s;
    assert AnnotationKey(n1).value == l1 + "/" + p1 + "/" + i1;
    assert AnnotationKey(n2).value == l2 + "/" + p2 + "/" + i2;
    AppendAssoc(l1 + "/", p1, "/");
    AppendAssoc(l1 + "/", p1 + "/", i1);
    AppendAssoc(l2 + "/", p2, "/");
    AppendAssoc(l2 + "/", p2 + "/", i2);
    assert l1 + "/" + (p1 + "/" + i1) == l2 + "/" + (p2 + "/" + i2);
    SlashSplit(l1, p1 + "/" + i1, l2, p2 + "/" + i2);
    SlashSplit(p1, i1, p2, i2);
  }

  /* ---------------- Ports ---------------- */

  // A name `_get_ports_data` resolves on the event: an argument, the return
  // value, or one element of a returned tuple.
  datatype PortRef = ArgPort(arg: string) | ReturnPort | ReturnItemPort(index: nat)

  // The slot name handed to `get_slot` (and matched against the
  // annotation).
  function RefName(p: PortRef): string
  {
    match p
    case ArgPort(a) => a
    case ReturnPort => "__return__"
    case ReturnItemPort(i) => ReturnPortName(i)
  }

  // `event.arguments[name]`.
  function Lookup(args: seq<(string, PyObj)>, name: string): (r: Option<PyObj>)
    ensures r.Some? <==> exists i :: 0 <= i < |args| && args[i].0 == name
  {
    if args == [] then None
    else if args[0].0 == name then Some(args[0].1)
    else
      var r := Lookup(args[1..], name);
      assert forall i :: 1 <= i < |args| ==> args[i] == args[1..][i - 1];
      r
  }

  // `getattr(_IOSlots(event), name)` checked as `_get_single_slot` checks
  // it: a method object found there is not bound to the slot accessor, so
  // the lookup fails.
  function AccessorSlot(e: Event, name: string): Option<PyObj>
  {
    var o := if name == "__return__" then Some(e.returnValue) else Lookup(e.arguments, name);
    if o.Some? && o.value.isMethod then None else o
  }

  // `get_slot(_IOSlots(event), name)`, None when it raises AttributeError.
  // A tuple element `__return__.i` is found by indexing the returned tuple.
  // (Tuple ports are only named for tuple return values.)
  function PortObject(e: Event, p: PortRef): Option<PyObj>
  {
    match p
    case ArgPort(a) => AccessorSlot(e, a)
    case ReturnPort => AccessorSlot(e, "__return__")
    case ReturnItemPort(i) =>
      var rv := AccessorSlot(e, "__return__");
      if rv.Some? && rv.value.items.Some? && i < |rv.value.items.value| then Some(rv.value.items.value[i]) else None
  }

  // The slot names of the annotation entries, in order.
  function SlotKeys(names: seq<string>, doms: seq<Value>): (r: seq<Result<Value>>)
    ensures |r| == |doms| && forall j :: 0 <= j < |doms| ==> r[j] == SlotKey(names, doms[j])
  {
    seq(|doms|, j requires 0 <= j < |doms| => SlotKey(names, doms[j]))
  }

  // `{ _name(dom['slot']): i + 1 for i, dom in enumerate(doms) }`, given
  // the slot names: later entries win. Only string keys can match a port
  // name, so only they are kept; a list or dictionary key is unhashable.
  function PositionTable(keys: seq<Result<Value>>): Result<map<string, nat>>
  {
    if keys == [] then Ok(map[])
    else
      var prev := PositionTable(keys[..|keys| - 1]);
      var k := keys[|keys| - 1];
      if prev.Err? then prev
      else if k.Err? then Err(k.error)
      else if k.value.VList? || k.value.VDict? then Err(TypeError)
      else if k.value.VStr? then Ok(prev.value[k.value.s := |keys|])
      else prev
  }

  function AnnotationTable(names: seq<string>, doms: seq<Value>): Result<map<string, nat>>
  {
    PositionTable(SlotKeys(names, doms))
  }

  predicate Hashable(k: Result<Value>)
  {
    k.Ok? && !k.value.VList? && !k.value.VDict?
  }

  // The table is built exactly when every slot name is hashable.
  lemma {:induction false} PositionTableOk(keys: seq<Result<Value>>)
    ensures PositionTable(keys).Ok? <==> forall j :: 0 <= j < |keys| ==> Hashable(keys[j])
    decreases |keys|
  {
    if keys != [] {
      var init := keys[..|keys| - 1];
      PositionTableOk(init);
      assert forall j :: 0 <= j < |init| ==> init[j] == keys[j];
    }
  }

  // The table maps each slot name to the 1-based position of the last
  // entry naming it.
  lemma {:induction false} PositionTableSpec(keys: seq<Result<Value>>, n: string)
    requires PositionTable(keys).Ok?
    ensures var t := PositionTable(keys).value;
            (n in t <==> exists j :: 0 <= j < |keys| && keys[j] == Ok(VStr(n))) &&
            (n in t ==> 1 <= t[n] <= |keys| && keys[t[n] - 1] == Ok(VStr(n)) &&
                        forall j :: t[n] <= j < |keys| ==> keys[j] != Ok(VStr(n)))
    decreases |keys|
  {
    if keys != [] {
      var init := keys[..|keys| - 1];
      assert PositionTable(init).Ok?;
      PositionTableSpec(init, n);
      assert forall j :: 0 <= j < |init| ==> init[j] == keys[j];
      var t0 := PositionTable(init).value;
      var t := PositionTable(keys).value;
      if keys[|keys| - 1] == Ok(VStr(n)) {
        assert t == t0[n := |keys|];
      } else {
        assert n in t <==> n in t0;
        assert n in t ==> t[n] == t0[n];
      }
    }
  }

  // The captured value of a port: only a primitive object that is not
  // tracked keeps its value.
  function PortValue(e: Event, p: PortRef): Option<Value>
  {
    var o := PortObject(e, p);
    if o.Some? && o.value.portValue.Some? then o.value.portValue else None
  }

  // `_get_port_data(obj, argname=name, portkind=kind)` plus the annotation
  // position of the port.
  function PortEntry(argname: string, kind: string, value: Option<Value>, position: Option<nat>): Value
  {
    var d0 := DictSet(DictSet([], "argname", VStr(argname)), "portkind", VStr(kind));
    var d1 := if value.Some? then DictSet(d0, "value", value.value) else d0;
    var d2 := if position.Some? then DictSet(d1, "annotation", VInt(position.value)) else d1;
    VDict(d2)
  }

  function PortData(e: Event, kind: string, p: PortRef, table: map<string, nat>): Value
  {
    var name := RefName(p);
    PortEntry(name, kind, PortValue(e, p), if name in table then Some(table[name]) else None)
  }

  // A port records its argument name and kind ...
  lemma PortEntryNames(argname: string, kind: string, value: Option<Value>, position: Option<nat>)
    ensures PortEntry(argname, kind, value, position).VDict?
    ensures DictGet(PortEntry(argname, kind, value, position).entries, "argname") == Some(VStr(argname))
    ensures DictGet(PortEntry(argname, kind, value, position).entries, "portkind") == Some(VStr(kind))
  {
    var d0 := DictSet(DictSet([], "argname", VStr(argname)), "portkind", VStr(kind));
    assert DictGet(d0, "argname") == Some(VStr(argname));
    var d1 := if value.Some? then DictSet(d0, "value", value.value) else d0;
    assert DictGet(d1, "argname") == Some(VStr(argname)) && DictGet(d1, "portkind") == Some(VStr(kind));
  }

  // Looking up a key other than the argument name and kind.
  lemma PortEntryGet(argname: string, kind: string, value: Option<Value>, position: Option<nat>, k: string)
    requires k != "argname" && k != "portkind"
    ensures PortEntry(argname, kind, value, position).VDict?
    ensures DictGet(PortEntry(argname, kind, value, position).entries, k) ==
              if k == "annotation" && position.Some? then Some(VInt(position.value))
              else if k == "value" then value
              else None
  {
    var a := DictSet([], "argname", VStr(argname));
    var d0 := DictSet(a, "portkind", VStr(kind));
    assert DictGet(d0, k) == DictGet(a, k) == DictGet([], k) == None;
    var d1 := if value.Some? then DictSet(d0, "value", value.value) else d0;
    assert DictGet(d1, k) == if k == "value" then value else None;
  }

  // ... the captured value exactly when there is one ...
  lemma PortEntryValue(argname: string, kind: string, value: Option<Value>, position: Option<nat>)
    ensures PortEntry(argname, kind, value, position).VDict?
    ensures DictGet(PortEntry(argname, kind, value, position).entries, "value") == value
  {
    assert "value"[0] != "argname"[0] && "value"[0] != "portkind"[0] && "value"[0] != "annotation"[0];
    PortEntryGet(argname, kind, value, position, "value");
  }

  // ... and the annotation position exactly when the port has one.
  lemma PortEntryAnnotation(argname: string, kind: string, value: Option<Value>, position: Option<nat>)
    ensures PortEntry(argname, kind, value, position).VDict?
    ensures DictGet(PortEntry(argname, kind, value, position).entries, "annotation") ==
              if position.Some? then Some(VInt(position.value)) else None
  {
    assert "annotation"[1] != "argname"[1] && "annotation"[0] != "portkind"[0] && "annotation"[0] != "value"[0];
    PortEntryGet(argname, kind, value, position, "annotation");
  }

  // The ordered dictionary of ports: each port name is set in turn, so a
  // repeated port name keeps its first position and its last data.
  function PortsFold(e: Event, kind: string, names: seq<(PortRef, string)>, table: map<string, nat>): seq<(string, Value)>
  {
    if names == [] then []
    else
      var last := names[|names| - 1];
      DictSet(PortsFold(e, kind, names[..|names| - 1], table), last.1, PortData(e, kind, last.0, table))
  }

  // The last position carrying the port name.
  function LastWith(names: seq<(PortRef, string)>, port: string): (r: Option<nat>)
    ensures r.Some? ==> r.value < |names| && names[r.value].1 == port &&
                        forall j :: r.value < j < |names| ==> names[j].1 != port
    ensures r.None? ==> forall j :: 0 <= j < |names| ==> names[j].1 != port
  {
    if names == [] then None
    else if names[|names| - 1].1 == port then Some(|names| - 1)
    else LastWith(names[..|names| - 1], port)
  }

  // Looking a port up in the dictionary gives the data of the last name
  // with that port name, and nothing for a port that was never named.
  lemma {:induction false} PortsFoldGet(e: Event, kind: string, names: seq<(PortRef, string)>, table: map<string, nat>, port: string)
    ensures DictGet(PortsFold(e, kind, names, table), port) ==
              (var j := LastWith(names, port); if j.Some? then Some(PortData(e, kind, names[j.value].0, table)) else None)
    decreases |names|
  {
    if names != [] {
      PortsFoldGet(e, kind, names[..|names| - 1], table, port);
    }
  }

  // The annotation positions of one annotation list (`domain` or
  // `codomain`) on the event's argument names.
  function PortsTable(e: Event, annotation: Value): Result<map<string, nat>>
  {
    var doms := Items(annotation);
    if doms.Err? then Err(doms.error) else AnnotationTable(ArgNames(e.arguments), doms.value)
  }

  // `_get_ports_data(event, names, annotation, {'portkind': kind})`.
  method PortsData(e: Event, names: seq<(PortRef, string)>, annotation: Value, kind: string) returns (r: Result<seq<(string, Value)>>)
    ensures r.Ok? <==> PortsTable(e, annotation).Ok?
    ensures r.Err? ==> r.error == PortsTable(e, annotation).error
    ensures r.Ok? ==> r.value == PortsFold(e, kind, names, PortsTable(e, annotation).value)
    ensures r.Ok? ==>
              (forall port :: DictGet(r.value, port) ==
                 (var j := LastWith(names, port); if j.Some? then Some(PortData(e, kind, names[j.value].0, PortsTable(e, annotation).value)) else None))
  {
    var doms := Items(annotation);
    if doms.Err? {
      return Err(doms.error);
    }
    var t := AnnotationTable(ArgNames(e.arguments), doms.value);
    if t.Err? {
      return Err(t.error);
    }
    var table := t.value;
    var ports: seq<(string, Value)> := [];
    for i := 0 to |names|
      invariant ports == PortsFold(e, kind, names[..i], table)
    {
      assert names[..i + 1][..i] == names[..i];
      ports := DictSet(ports, names[i].1, PortData(e, kind, names[i].0, table));
    }
    assert names[..|names|] == names;
    forall port ensures DictGet(ports, port) ==
              (var j := LastWith(names, port); if j.Some? then Some(PortData(e, kind, names[j.value].0, table)) else None)
    {
      PortsFoldGet(e, kind, names, table, port);
    }
    r := Ok(ports);
  }

  /* ---------------- Output port names ---------------- */

  // The ports of the return value: one per element of a returned tuple,
  // else one unless the function returned None.
  function ReturnPorts(rv: PyObj): seq<(PortRef, string)>
  {
    if rv.items.Some? then seq(|rv.items.value|, i requires 0 <= i < |rv.items.value| => (ReturnItemPort(i), ReturnPortName(i)))
    else if !rv.isNone then [(ReturnPort, "__return__")]
    else []
  }

  // The arguments `is_pure` rejects, in order; the first error `is_pure`
  // raises is raised.
  function Impure(e: Event, note: seq<(string, Value)>, args: seq<(string, PyObj)>): Result<seq<(string, PyObj)>>
  {
    if args == [] then Ok([])
    else
      var prev := Impure(e, note, args[..|args| - 1]);
      var last := args[|args| - 1];
      var p := IsPure(e, note, last.0);
      if prev.Err? then prev
      else if p.Err? then Err(p.error)
      else if !p.value then Ok(prev.value + [last])
      else prev
  }

  // An error in a prefix is the error of the whole list.
  lemma {:induction false} ImpureErrSticks(e: Event, note: seq<(string, Value)>, args: seq<(string, PyObj)>, i: nat)
    requires i <= |args| && Impure(e, note, args[..i]).Err?
    ensures Impure(e, note, args) == Impure(e, note, args[..i])
    decreases |args| - i
  {
    if i < |args| {
      assert args[..i + 1][..i] == args[..i];
      ImpureErrSticks(e, note, args, i + 1);
    } else {
      assert args[..i] == args;
    }
  }

  // The impure arguments are exactly the arguments `is_pure` rejects.
  lemma {:induction false} ImpureSpec(e: Event, note: seq<(string, Value)>, args: seq<(string, PyObj)>)
    requires Impure(e, note, args).Ok?
    ensures forall a :: a in Impure(e, note, args).value <==> a in args && IsPure(e, note, a.0) == Ok(false)
    decreases |args|
  {
    if args != [] {
      var init := args[..|args| - 1];
      ImpureSpec(e, note, init);
      assert forall a :: a in args <==> a in init || a == args[|args| - 1];
    }
  }

  // `(arg_name, _mutated_port_name(arg_name))` for each impure argument.
  function MutatedPorts(ms: seq<(string, PyObj)>): (r: seq<(PortRef, string)>)
    ensures |r| == |ms| && forall i :: 0 <= i < |ms| ==> r[i] == (ArgPort(ms[i].0), MutatedPortName(ms[i].0))
  {
    if ms == [] then [] else MutatedPorts(ms[..|ms| - 1]) + [(ArgPort(ms[|ms| - 1].0), MutatedPortName(ms[|ms| - 1].0))]
  }

  // The return ports, collected as `_update_call_node_for_return` does.
  method ReturnPortNames(rv: PyObj) returns (names: seq<(PortRef, string)>)
    ensures names == ReturnPorts(rv)
  {
    names := [];
    if rv.items.Some? {
      for i := 0 to |rv.items.value|
        invariant |names| == i && forall j :: 0 <= j < i ==> names[j] == (ReturnItemPort(j), ReturnPortName(j))
      {
        names := names + [(ReturnItemPort(i), ReturnPortName(i))];
      }
    } else if !rv.isNone {
      names := [(ReturnPort, "__return__")];
    }
  }

  // The port names `_update_call_node_for_return` collects: the return
  // ports, then a renamed port per impure argument.
  method OutputPortNames(e: Event, note: seq<(string, Value)>) returns (r: Result<seq<(PortRef, string)>>)
    ensures r.Ok? <==> Impure(e, note, e.arguments).Ok?
    ensures r.Err? ==> r.error == Impure(e, note, e.arguments).error
    ensures r.Ok? ==> r.value == ReturnPorts(e.returnValue) + MutatedPorts(Impure(e, note, e.arguments).value)
  {
    var names := ReturnPortNames(e.returnValue);
    ghost var base := names;
    var args := e.arguments;
    for i := 0 to |args|
      invariant Impure(e, note, args[..i]).Ok?
      invariant names == base + MutatedPorts(Impure(e, note, args[..i]).value)
    {
      assert args[..i + 1][..i] == args[..i];
      var p := IsPure(e, note, args[i].0);
      if p.Err? {
        ImpureErrSticks(e, note, args, i + 1);
        return Err(p.error);
      }
      if !p.value {
        ghost var ms := Impure(e, note, args[..i]).value;
        assert Impure(e, note, args[..i + 1]).value == ms + [args[i]];
        assert (ms + [args[i]])[..|ms|] == ms;
        names := names + [(ArgPort(args[i].0), MutatedPortName(args[i].0))];
      }
    }
    assert args[..|args|] == args;
    r := Ok(names);
  }

  /* ---------------- The output table ---------------- */

  // Object id -> the (node, port) that last created or mutated the object.
  type OutputTable = map<string, (NodeId, string)>

  // `_get_object_data(obj, obj_id)`: nothing for None, else the recorded
  // data of the object and its id.
  function ObjectData(o: PyObj, id: string): (r: Attrs)
    ensures !o.isNone ==> "id" in r && r["id"] == VStr(id)
  {
    if o.isNone then map[] else o.info["id" := VStr(id)]
  }

  // The edge data `_set_object_output_node` writes into the output marker.
  function OutputEdgeData(o: PyObj, id: string, port: string): Attrs
  {
    ObjectData(o, id)["sourceport" := VStr(port)]
  }

  predicate Carries(e: Edge, id: string)
  {
    "id" in e.data && e.data["id"] == VStr(id)
  }

  // The edges into `out` that carry object `id`, in order.
  function Writers(es: seq<Edge>, out: NodeId, id: string): (r: seq<Edge>)
    ensures forall e :: e in r <==> e in es && e.tgt == out && Carries(e, id)
  {
    if es == [] then []
    else
      var e := es[|es| - 1];
      Writers(es[..|es| - 1], out, id) + (if e.tgt == out && Carries(e, id) then [e] else [])
  }

  lemma {:induction false} WritersAppend(a: seq<Edge>, b: seq<Edge>, out: NodeId, id: string)
    ensures Writers(a + b, out, id) == Writers(a, out, id) + Writers(b, out, id)
    decreases |b|
  {
    if b == [] {
      assert a + b == a;
    } else {
      assert (a + b)[..|a + b| - 1] == a + b[..|b| - 1];
      WritersAppend(a, b[..|b| - 1], out, id);
    }
  }

  // Every edge into the output marker carries an object id.
  ghost predicate OutputsIdentified(es: seq<Edge>, out: NodeId)
  {
    forall e :: e in es && e.tgt == out ==> "id" in e.data && e.data["id"].VStr?
  }

  // The single-writer invariant of a frame: a flow graph in which exactly
  // the objects of the output table have an edge into the output marker,
  // each exactly one, coming from the recorded node and port.
  ghost predicate SingleWriter(g: Graph, table: OutputTable)
  {
    IsFlowGraph(g) &&
    OutputsIdentified(g.edges, OutputNode(g).value) &&
    forall x :: Recorded(g.edges, OutputNode(g).value, table, x)
  }

  // Object x has exactly one edge into `out`, from its recorded node and
  // port, if the table records it, and none otherwise.
  predicate Recorded(es: seq<Edge>, out: NodeId, table: OutputTable, x: string)
  {
    var ws := Writers(es, out, x);
    if x in table then
      |ws| == 1 && ws[0].src == table[x].0 && "sourceport" in ws[0].data && ws[0].data["sourceport"] == VStr(table[x].1)
    else |ws| == 0
  }

  // The keys of the edges in ws leaving `old`, in order.
  function KeysFrom(ws: seq<Edge>, prior: NodeId): seq<nat>
  {
    if ws == [] then []
    else KeysFrom(ws[..|ws| - 1], prior) + (if ws[|ws| - 1].src == prior then [ws[|ws| - 1].key] else [])
  }

  // `[key for key, data in graph.edge[old][output_node].items() if
  // data['id'] == obj_id]`, once the adjacency lookup has succeeded: an
  // edge without an id raises KeyError.
  function OldKeys(es: seq<Edge>, prior: NodeId, out: NodeId, id: string): Result<seq<nat>>
  {
    if es == [] then Ok([])
    else
      var prev := OldKeys(es[..|es| - 1], prior, out, id);
      var e := es[|es| - 1];
      if prev.Err? || !(e.src == prior && e.tgt == out) then prev
      else if "id" !in e.data then Err(KeyError)
      else if e.data["id"] == VStr(id) then Ok(prev.value + [e.key])
      else prev
  }

  // With every output edge identified, the comprehension selects the keys
  // of the writers of the object that leave `old`.
  lemma {:induction false} OldKeysWriters(es: seq<Edge>, prior: NodeId, out: NodeId, id: string)
    requires OutputsIdentified(es, out)
    ensures OldKeys(es, prior, out, id) == Ok(KeysFrom(Writers(es, out, id), prior))
    decreases |es|
  {
    if es != [] {
      var init := es[..|es| - 1];
      var e := es[|es| - 1];
      assert e in es;
      assert OutputsIdentified(init, out) by {
        forall f | f in init ensures f in es {
        }
      }
      OldKeysWriters(init, prior, out, id);
      var w0 := Writers(init, out, id);
      var k0 := KeysFrom(w0, prior);
      if e.tgt == out && Carries(e, id) {
        assert Writers(es, out, id) == w0 + [e];
        SliceAppend(w0, [e]);
        assert KeysFrom(w0 + [e], prior) == k0 + (if e.src == prior then [e.key] else []);
      } else {
        assert Writers(es, out, id) == w0 + [];
        assert w0 + [] == w0;
      }
      if e.src == prior && e.tgt == out {
        assert "id" in e.data;
        if e.data["id"] == VStr(id) {
          assert OldKeys(es, prior, out, id) == Ok(k0 + [e.key]);
        } else {
          assert !Carries(e, id);
          assert Writers(es, out, id) == w0;
          assert OldKeys(es, prior, out, id) == Ok(k0);
        }
      } else {
        assert KeysFrom(Writers(es, out, id), prior) == k0 + [] == k0;
        assert OldKeys(es, prior, out, id) == Ok(k0);
      }
    }
  }

  // Removing the old output edge of `obj_id`: KeyError when `old` has no
  // edge to the output marker, AssertionError unless exactly one of them
  // carries the id.
  function RemoveOldOutput(g: Graph, prior: NodeId, out: NodeId, id: string): Result<Graph>
  {
    if !HasEdge(g, prior, out) then Err(KeyError)
    else
      var keys := OldKeys(g.edges, prior, out, id);
      if keys.Err? then Err(keys.error)
      else if |keys.value| != 1 then Err(AssertionError)
      else RemoveEdge(g, prior, out, keys.value[0])
  }

  // The first part of `_set_object_output_node(event, obj, obj_id, node,
  // port)` on the graph and output table of the current frame: the output
  // edge of the object moves to (node, port). Register adds the slots.
  function SetOutput(g: Graph, table: OutputTable, o: PyObj, id: string, node: NodeId, port: string): (r: Result<(Graph, OutputTable)>)
    requires OutputNode(g).Some?
    ensures r.Ok? ==> r.value.0.attrs == g.attrs
  {
    var out := OutputNode(g).value;
    var g1 := if id in table then RemoveOldOutput(g, table[id].0, out, id) else Ok(g);
    if g1.Err? then Err(g1.error)
    else Ok((AddEdge(g1.value, node, out, OutputEdgeData(o, id, port)), table[id := (node, port)]))
  }

  // Dropping position i removes one writer of the object es[i] carries and
  // leaves the writers of every other object as they were.
  lemma WritersRemoveAt(es: seq<Edge>, i: nat, out: NodeId, x: string)
    requires i < |es|
    ensures |Writers(es, out, x)| ==
            |Writers(es[..i] + es[i + 1..], out, x)| + (if es[i].tgt == out && Carries(es[i], x) then 1 else 0)
    ensures !(es[i].tgt == out && Carries(es[i], x)) ==> Writers(es[..i] + es[i + 1..], out, x) == Writers(es, out, x)
  {
    var a, e, b := es[..i], es[i], es[i + 1..];
    SplitAround(es, i);
    WritersAppend(a, [e] + b, out, x);
    WritersAppend([e], b, out, x);
    WritersAppend(a, b, out, x);
    var we := Writers([e], out, x);
    assert [e][..0] == [];
    assert we == if e.tgt == out && Carries(e, x) then [e] else [];
    assert Writers(es, out, x) == Writers(a, out, x) + (we + Writers(b, out, x));
    if !(e.tgt == out && Carries(e, x)) {
      assert we + Writers(b, out, x) == Writers(b, out, x);
    }
  }

  // Appending an edge adds it to the writers of the object it carries.
  lemma WritersAppendOne(es: seq<Edge>, e: Edge, out: NodeId, x: string)
    ensures Writers(es + [e], out, x) == Writers(es, out, x) + (if e.tgt == out && Carries(e, x) then [e] else [])
  {
    SliceAppend(es, [e]);
  }

  // Under the single-writer invariant, the comprehension of
  // `_set_object_output_node` finds exactly the key of the one writer of a
  // recorded object.
  lemma OldWriter(g: Graph, table: OutputTable, id: string) returns (w: Edge)
    requires SingleWriter(g, table) && id in table
    ensures Writers(g.edges, OutputNode(g).value, id) == [w] && w in g.edges
    ensures w.src == table[id].0 && w.tgt == OutputNode(g).value
    ensures HasEdge(g, table[id].0, OutputNode(g).value)
    ensures OldKeys(g.edges, table[id].0, OutputNode(g).value, id) == Ok([w.key])
  {
    var out := OutputNode(g).value;
    var prior := table[id].0;
    var ws := Writers(g.edges, out, id);
    assert Recorded(g.edges, out, table, id);
    w := ws[0];
    assert w in ws;
    assert ws == [w];
    assert w in g.edges && Joins(g.directed, w, prior, out);
    OnlyWriterKeys(g.edges, prior, out, id, w);
  }

  lemma OnlyWriterKeys(es: seq<Edge>, prior: NodeId, out: NodeId, id: string, w: Edge)
    requires OutputsIdentified(es, out) && Writers(es, out, id) == [w] && w.src == prior
    ensures OldKeys(es, prior, out, id) == Ok([w.key])
  {
    OldKeysWriters(es, prior, out, id);
    assert [w][..0] == [];
    assert KeysFrom([w], prior) == [w.key];
  }

  // ... and `remove_edge` drops that writer.
  lemma OldOutputIndex(g: Graph, table: OutputTable, id: string) returns (i: nat)
    requires SingleWriter(g, table) && id in table
    ensures i < |g.edges| && g.edges[i].tgt == OutputNode(g).value && Carries(g.edges[i], id)
    ensures RemoveOldOutput(g, table[id].0, OutputNode(g).value, id) == Ok(DropEdge(g, i))
  {
    var out := OutputNode(g).value;
    var prior := table[id].0;
    var es := g.edges;
    var w := OldWriter(g, table, id);
    assert w in Writers(es, out, id);
    var j :| 0 <= j < |es| && es[j] == w;
    var ix := EdgeIndex(es, g.directed, prior, out, w.key);
    assert ix.Some? by {
      assert es[j] in es;
    }
    i := ix.value;
    SlotOwner(g.directed, es, i, j);
    RemoveOldOutputAt(g, prior, out, id, i);
  }

  lemma RemoveOldOutputAt(g: Graph, prior: NodeId, out: NodeId, id: string, i: nat)
    requires i < |g.edges| && HasEdge(g, prior, out) && OldKeys(g.edges, prior, out, id) == Ok([g.edges[i].key])
    requires EdgeIndex(g.edges, g.directed, prior, out, g.edges[i].key) == Some(i)
    ensures RemoveOldOutput(g, prior, out, id) == Ok(DropEdge(g, i))
  {
    RemoveEdgeAt(g, prior, out, g.edges[i].key);
  }

  // The first half of `_set_object_output_node`: removing the old output
  // edge of a recorded object leaves that object without a writer and
  // every other object's writers unchanged.
  lemma RemoveOldOutputSpec(g: Graph, table: OutputTable, id: string)
    requires SingleWriter(g, table) && id in table
    ensures RemoveOldOutput(g, table[id].0, OutputNode(g).value, id).Ok?
    ensures var h := RemoveOldOutput(g, table[id].0, OutputNode(g).value, id).value;
            IsFlowGraph(h) && h.nodes == g.nodes && h.data == g.data && h.attrs == g.attrs &&
            OutputsIdentified(h.edges, OutputNode(g).value) &&
            |Writers(h.edges, OutputNode(g).value, id)| == 0 &&
            forall x :: x != id ==> Writers(h.edges, OutputNode(g).value, x) == Writers(g.edges, OutputNode(g).value, x)
  {
    var out := OutputNode(g).value;
    var es := g.edges;
    var i := OldOutputIndex(g, table, id);
    var h := DropEdge(g, i);
    RemoveEdgeAtValid(g, i);
    forall x | x != id
      ensures Writers(h.edges, out, x) == Writers(es, out, x)
    {
      WritersRemoveAt(es, i, out, x);
    }
    WritersRemoveAt(es, i, out, id);
    assert Recorded(es, out, table, id);
    assert OutputsIdentified(h.edges, out) by {
      forall f | f in h.edges ensures f in es {
        assert f in es[..i] || f in es[i + 1..];
      }
    }
  }

  // Adding the one writer of an object that had none records it and
  // leaves every other object as it was.
  lemma AddOutputRecorded(es: seq<Edge>, out: NodeId, table: OutputTable, id: string, e: Edge, port: string,
                          es': seq<Edge>, table': OutputTable)
    requires forall x :: x != id ==> Recorded(es, out, table, x)
    requires |Writers(es, out, id)| == 0
    requires e.tgt == out && Carries(e, id) && "sourceport" in e.data && e.data["sourceport"] == VStr(port)
    requires es' == es + [e] && table' == table[id := (e.src, port)]
    ensures forall x :: Recorded(es', out, table', x)
  {
    forall x
      ensures Recorded(es', out, table', x)
    {
      WritersAppendOne(es, e, out, x);
      if x != id {
        assert Recorded(es, out, table, x);
      }
    }
  }

  // `_set_object_output_node` keeps the single-writer invariant: the
  // object's old output edge (if any) is removed before the new one is
  // added, so afterwards exactly one edge into the output marker carries
  // the id, from the new node and port, and the table records them.
  lemma SetOutputSpec(g: Graph, table: OutputTable, o: PyObj, id: string, node: NodeId, port: string)
    requires SingleWriter(g, table) && node in g.data && !o.isNone
    ensures SetOutput(g, table, o, id, node, port).Ok?
    ensures var (h, t) := SetOutput(g, table, o, id, node, port).value;
            SingleWriter(h, t) && t == table[id := (node, port)] &&
            h.nodes == g.nodes && h.data == g.data && h.attrs == g.attrs &&
            |Writers(h.edges, OutputNode(h).value, id)| == 1 && Writers(h.edges, OutputNode(h).value, id)[0].src == node
  {
    var out := OutputNode(g).value;
    var g1: Graph;
    if id in table {
      RemoveOldOutputSpec(g, table, id);
      g1 := RemoveOldOutput(g, table[id].0, out, id).value;
      forall x | x != id
        ensures Recorded(g1.edges, out, table, x)
      {
        assert Recorded(g.edges, out, table, x);
      }
    } else {
      g1 := g;
      assert Recorded(g.edges, out, table, id);
    }
    var d := OutputEdgeData(o, id, port);
    var e := Edge(node, out, NewKey(g1, node, out), d);
    AddEdgeValid(g1, node, out, d);
    var h := AddEdge(g1, node, out, d);
    var t := table[id := (node, port)];
    AddOutputRecorded(g1.edges, out, table, id, e, port, h.edges, t);
    assert OutputsIdentified(h.edges, out) by {
      forall f | f in h.edges && f.tgt == out ensures "id" in f.data && f.data["id"].VStr? {
        if f != e {
          assert f in g1.edges;
        }
      }
    }
    assert Recorded(h.edges, out, t, id);
    assert OutputNode(h) == OutputNode(g);
    assert SingleWriter(h, t);
    assert SetOutput(g, table, o, id, node, port) == Ok((h, t));
  }

  /* ---------------- Annotated slots of outputs ---------------- */

  // `ObjectTracker.is_trackable(slot_value)`: the value was found, is not
  // None, and the tracer gave it an id.
  predicate Trackable(s: SlotRead)
  {
    s.value.Some? && !s.value.value.isNone && s.trackId.Some?
  }

  // The random token `node_name(graph, 'slot')` draws for a slot node
  // joining graph g.
  type SlotNames = Graph -> string

  function SlotNodeName(names: SlotNames, g: Graph): NodeId
  {
    GraphUtil.NodeName(names(g), Some("slot"), None)
  }

  // The slot-node names are new to the graph they join. None stands for
  // `store_slots` switched off.
  ghost predicate FreshSlots(slots: Option<SlotNames>)
  {
    slots.Some? ==> forall g: Graph :: SlotNodeName(slots.value, g) !in g.data
  }

  // `_get_port_data(obj, portkind=kind, annotation=1)`.
  function SlotPort(kind: string, value: Option<Value>): Value
  {
    var d := DictSet(DictSet([], "portkind", VStr(kind)), "annotation", VInt(1));
    VDict(if value.Some? then DictSet(d, "value", value.value) else d)
  }

  // The data of the node for slot s of object o: the slot's name as its
  // annotation, the slot itself, a `self` input port and a `__return__`
  // output port.
  function SlotNodeData(o: PyObj, s: SlotRead): Attrs
    requires s.value.Some?
  {
    map["annotation" := VStr(s.name), "slot" := s.slot,
        "ports" := VDict([("self", SlotPort("input", o.portValue)), ("__return__", SlotPort("output", s.value.value.portValue))])]
  }

  predicate IsSlotData(d: Attrs)
  {
    "annotation" in d && "slot" in d && "ports" in d
  }

  // The edge from the object's node and port into the slot node's `self`.
  function SlotEdgeData(o: PyObj, id: string, port: string): Attrs
  {
    OutputEdgeData(o, id, port)["targetport" := VStr("self")]
  }

  predicate IntoSelf(e: Edge)
  {
    "targetport" in e.data && e.data["targetport"] == VStr("self")
  }

  // `_set_object_output_node(event, obj, obj_id, node, port)`: the output
  // edge of the object moves to (node, port); then, when `store_slots` is
  // on (slots is Some), the object's annotated slots are added. What was
  // done before an error stays.
  function Register(g: Graph, table: OutputTable, o: PyObj, id: string, node: NodeId, port: string, slots: Option<SlotNames>)
    : (r: (Graph, OutputTable, Result<()>))
    requires OutputNode(g).Some?
    ensures r.0.attrs == g.attrs
    decreases o, 1
  {
    var s := SetOutput(g, table, o, id, node, port);
    if s.Err? then (g, table, Err(s.error))
    else if slots.None? then (s.value.0, s.value.1, Ok(()))
    else AddSlots(s.value.0, s.value.1, o, id, node, port, slots.value, 0)
  }

  // `_add_object_slots(event, obj, obj_id, node, port)` from the i-th
  // annotated slot on: a slot whose lookup raised AttributeError is
  // skipped; each other one is added by AddSlot.
  function AddSlots(g: Graph, table: OutputTable, o: PyObj, id: string, node: NodeId, port: string, names: SlotNames, i: nat)
    : (r: (Graph, OutputTable, Result<()>))
    requires OutputNode(g).Some?
    ensures r.0.attrs == g.attrs
    decreases o, 0, |o.slots| - i
  {
    if i >= |o.slots| then (g, table, Ok(()))
    else if o.slots[i].value.None? then AddSlots(g, table, o, id, node, port, names, i + 1)
    else
      var (h, t, r) := AddSlot(g, table, o, id, node, port, names, o.slots[i]);
      if r.Err? then (h, t, r) else AddSlots(h, t, o, id, node, port, names, i + 1)
  }

  // One found slot s of o: a new slot node, fed from (node, port) through
  // its `self` port; a trackable value becomes the slot node's
  // `__return__` output in turn.
  function AddSlot(g: Graph, table: OutputTable, o: PyObj, id: string, node: NodeId, port: string, names: SlotNames, s: SlotRead)
    : (r: (Graph, OutputTable, Result<()>))
    requires OutputNode(g).Some? && s.value.Some?
    ensures r.0.attrs == g.attrs
    decreases s, 2
  {
    var m := SlotNodeName(names, g);
    var g1 := AddEdge(AddNode(g, m, SlotNodeData(o, s)), node, m, SlotEdgeData(o, id, port));
    if Trackable(s) then Register(g1, table, s.value.value, s.trackId.value, m, "__return__", Some(names))
    else (g1, table, Ok(()))
  }

  // The ids registered by the slot expansion of o, at any depth.
  function SlotIds(o: PyObj): set<string>
    decreases o, 1
  {
    SlotIdsFrom(o, 0)
  }

  function SlotIdsFrom(o: PyObj, i: nat): set<string>
    decreases o, 0, |o.slots| - i
  {
    if i >= |o.slots| then {}
    else
      var s := o.slots[i];
      (if Trackable(s) then {s.trackId.value} + SlotIds(s.value.value) else {}) + SlotIdsFrom(o, i + 1)
  }

  // The number of slot nodes the expansion of o adds, at any depth.
  function SlotCount(o: PyObj): nat
    decreases o, 1
  {
    SlotCountFrom(o, 0)
  }

  function SlotCountFrom(o: PyObj, i: nat): nat
    decreases o, 0, |o.slots| - i
  {
    if i >= |o.slots| then 0
    else
      var s := o.slots[i];
      (if s.value.None? then 0 else 1 + if Trackable(s) then SlotCount(s.value.value) else 0) + SlotCountFrom(o, i + 1)
  }

  // h grew from g by registrations: the same graph attributes; the old
  // nodes first and with their data, then new slot nodes; every old edge
  // not into the output marker stays, and every new edge goes into the
  // output marker or into the `self` port of a new node.
  ghost predicate Grows(g: Graph, h: Graph)
  {
    OutputNode(g).Some? && h.attrs == g.attrs &&
    |g.nodes| <= |h.nodes| && h.nodes[..|g.nodes|] == g.nodes &&
    (forall m :: m in g.data ==> m in h.data && h.data[m] == g.data[m]) &&
    (forall k :: |g.nodes| <= k < |h.nodes| ==> h.nodes[k] !in g.data && h.nodes[k] in h.data && IsSlotData(h.data[h.nodes[k]])) &&
    (forall e :: e in g.edges && e.tgt != OutputNode(g).value ==> e in h.edges) &&
    (forall e :: e in h.edges ==> e in g.edges || e.tgt == OutputNode(g).value || (e.tgt !in g.data && IntoSelf(e)))
  }

  // The output table t grew from t0 by registering the ids in ids at new
  // nodes of a graph grown from g; every other entry stays.
  ghost predicate TableGrows(g: Graph, t0: OutputTable, t: OutputTable, ids: set<string>)
  {
    (forall x :: x in t <==> x in t0 || x in ids) &&
    (forall x :: x in ids ==> x in t && t[x].0 !in g.data) &&
    (forall x :: x !in ids && x in t0 ==> t[x] == t0[x])
  }

  // A registration that returned res succeeded, kept the single-writer
  // invariant and grew g by count slot nodes and the table t0 by ids.
  ghost predicate GrewBy(g: Graph, t0: OutputTable, res: (Graph, OutputTable, Result<()>), count: nat, ids: set<string>)
  {
    res.2.Ok? && SingleWriter(res.0, res.1) && Grows(g, res.0) &&
    |res.0.nodes| == |g.nodes| + count && TableGrows(g, t0, res.1, ids)
  }

  lemma GrowsTrans(a: Graph, b: Graph, c: Graph)
    requires Grows(a, b) && Grows(b, c)
    ensures Grows(a, c)
  {
    assert c.nodes[..|a.nodes|] == c.nodes[..|b.nodes|][..|a.nodes|];
    forall k | |a.nodes| <= k < |c.nodes|
      ensures c.nodes[k] !in a.data && c.nodes[k] in c.data && IsSlotData(c.data[c.nodes[k]])
    {
      if k < |b.nodes| {
        assert c.nodes[k] == c.nodes[..|b.nodes|][k] == b.nodes[k];
      }
    }
  }

  lemma TableGrowsTrans(g: Graph, g1: Graph, t0: OutputTable, t1: OutputTable, t2: OutputTable, a: set<string>, b: set<string>)
    requires TableGrows(g, t0, t1, a) && TableGrows(g1, t1, t2, b)
    requires forall m :: m in g.data ==> m in g1.data
    ensures TableGrows(g, t0, t2, a + b)
  {
  }

  // Dropping an edge keeps every other edge and adds none.
  lemma DropEdgeKeeps(g: Graph, i: nat)
    requires i < |g.edges|
    ensures forall e :: e in g.edges && e != g.edges[i] ==> e in DropEdge(g, i).edges
    ensures forall e :: e in DropEdge(g, i).edges ==> e in g.edges
  {
    var es := g.edges;
    forall e | e in es && e != es[i] ensures e in DropEdge(g, i).edges {
      var j :| 0 <= j < |es| && es[j] == e;
      if j < i {
        assert e == DropEdge(g, i).edges[j];
      } else {
        assert e == DropEdge(g, i).edges[j - 1];
      }
    }
    forall e | e in DropEdge(g, i).edges ensures e in es {
      assert e in es[..i] || e in es[i + 1..];
    }
  }

  // Moving the output edge is growth: nodes and data stay, one edge into
  // the output marker may go and one comes.
  lemma SetOutputGrows(g: Graph, table: OutputTable, o: PyObj, id: string, node: NodeId, port: string)
    requires SingleWriter(g, table) && node in g.data && !o.isNone
    ensures SetOutput(g, table, o, id, node, port).Ok?
    ensures Grows(g, SetOutput(g, table, o, id, node, port).value.0)
  {
    var out := OutputNode(g).value;
    var g1 := g;
    if id in table {
      var i := OldOutputIndex(g, table, id);
      DropEdgeKeeps(g, i);
      g1 := DropEdge(g, i);
    }
    assert SetOutput(g, table, o, id, node, port) == Ok((AddEdge(g1, node, out, OutputEdgeData(o, id, port)), table[id := (node, port)]));
    assert forall e :: e in g.edges && e.tgt != out ==> e in g1.edges;
    assert forall e :: e in g1.edges ==> e in g.edges;
    var d := OutputEdgeData(o, id, port);
    var h := SetOutput(g, table, o, id, node, port).value.0;
    assert h == AddEdge(g1, node, out, d);
    assert h.edges == g1.edges + [Edge(node, out, NewKey(g1, node, out), d)];
    assert h.nodes == g.nodes && h.data == g.data && h.attrs == g.attrs;
    assert h.nodes[..|g.nodes|] == g.nodes;
    assert forall e :: e in h.edges ==> e in g.edges || e.tgt == out;
  }

  // A slot node and its edge keep the single-writer invariant: the edge
  // goes into the slot node, not into the output marker.
  lemma SlotNodeKeeps(g: Graph, table: OutputTable, m: NodeId, data: Attrs, node: NodeId, d: Attrs)
    requires SingleWriter(g, table) && node in g.data && m !in g.data
    ensures SingleWriter(AddEdge(AddNode(g, m, data), node, m, d), table)
  {
    var out := OutputNode(g).value;
    var g0 := AddNode(g, m, data);
    AddNodeKeeps(g, table, m, data);
    AddEdgeValid(g0, node, m, d);
    var g1 := AddEdge(g0, node, m, d);
    var e := Edge(node, m, NewKey(g0, node, m), d);
    forall x ensures Recorded(g1.edges, out, table, x) {
      assert Recorded(g0.edges, out, table, x);
      WritersAppend(g0.edges, [e], out, x);
      assert Writers([e], out, x) == [];
    }
    assert OutputNode(g1) == OutputNode(g) && InputNode(g1) == InputNode(g);
  }

  // ... and are growth by one slot node.
  lemma SlotNodeGrows(g: Graph, o: PyObj, id: string, node: NodeId, port: string, m: NodeId, s: SlotRead)
    requires OutputNode(g).Some? && node in g.data && s.value.Some? && m !in g.data
    ensures var g1 := AddEdge(AddNode(g, m, SlotNodeData(o, s)), node, m, SlotEdgeData(o, id, port));
            Grows(g, g1) && |g1.nodes| == |g.nodes| + 1 && m in g1.data
  {
    var g0 := AddNode(g, m, SlotNodeData(o, s));
    var d := SlotEdgeData(o, id, port);
    var g1 := AddEdge(g0, node, m, d);
    var e := Edge(node, m, NewKey(g0, node, m), d);
    assert g0.nodes == g.nodes + [m] && g1.nodes == g0.nodes && g1.data == g0.data;
    assert g1.nodes[..|g.nodes|] == g.nodes;
    assert g1.edges == g.edges + [e];
    assert IntoSelf(e) && e.tgt !in g.data;
    assert IsSlotData(g1.data[m]);
  }

  // Adding one found slot keeps the single-writer invariant and never
  // fails; the graph grows by the slot node and the expansion of a
  // trackable value; the table records that value and what lies beneath
  // it at new slot nodes.
  lemma {:induction false} AddSlotSpec(g: Graph, table: OutputTable, o: PyObj, id: string, node: NodeId, port: string,
                                       names: SlotNames, s: SlotRead)
    requires SingleWriter(g, table) && node in g.data && FreshSlots(Some(names)) && s.value.Some?
    ensures GrewBy(g, table, AddSlot(g, table, o, id, node, port, names, s),
                   1 + (if Trackable(s) then SlotCount(s.value.value) else 0),
                   if Trackable(s) then {s.trackId.value} + SlotIds(s.value.value) else {})
    decreases s, 2
  {
    var m := SlotNodeName(names, g);
    SlotNodeKeeps(g, table, m, SlotNodeData(o, s), node, SlotEdgeData(o, id, port));
    SlotNodeGrows(g, o, id, node, port, m, s);
    var g1 := AddEdge(AddNode(g, m, SlotNodeData(o, s)), node, m, SlotEdgeData(o, id, port));
    if Trackable(s) {
      var v, x := s.value.value, s.trackId.value;
      RegisterSpec(g1, table, v, x, m, "__return__", Some(names));
      var (h, t, r) := Register(g1, table, v, x, m, "__return__", Some(names));
      GrowsTrans(g, g1, h);
      RecordedAtNew(g, g1, table, t, x, m, SlotIds(v));
      assert AddSlot(g, table, o, id, node, port, names, s) == (h, t, r);
    } else {
      assert AddSlot(g, table, o, id, node, port, names, s) == (g1, table, Ok(()));
      assert TableGrows(g, table, table, {});
      assert |g1.nodes| == |g.nodes| + 1;
    }
  }

  // An id registered at a node new to g, with ids beneath it registered
  // at newer nodes, is growth of the table over g.
  lemma RecordedAtNew(g: Graph, g1: Graph, table: OutputTable, t: OutputTable, x: string, m: NodeId, ids: set<string>)
    requires TableGrows(g1, table[x := (m, "__return__")], t, ids)
    requires m !in g.data && forall n :: n in g.data ==> n in g1.data
    ensures TableGrows(g, table, t, {x} + ids)
  {
  }

  // Registering an object keeps the single-writer invariant and never
  // fails; the graph grows by one slot node per found slot, at any depth;
  // the table records the object at (node, port) and every trackable slot
  // value beneath it at a new slot node.
  lemma {:induction false} RegisterSpec(g: Graph, table: OutputTable, o: PyObj, id: string, node: NodeId, port: string,
                                        slots: Option<SlotNames>)
    requires SingleWriter(g, table) && node in g.data && !o.isNone && FreshSlots(slots)
    ensures GrewBy(g, table[id := (node, port)], Register(g, table, o, id, node, port, slots),
                   if slots.Some? then SlotCount(o) else 0, if slots.Some? then SlotIds(o) else {})
    decreases o, 1
  {
    SetOutputSpec(g, table, o, id, node, port);
    SetOutputGrows(g, table, o, id, node, port);
    var (g1, t1) := SetOutput(g, table, o, id, node, port).value;
    assert t1 == table[id := (node, port)] && g1.data == g.data;
    if slots.Some? {
      AddSlotsSpec(g1, t1, o, id, node, port, slots.value, 0);
      var (h, t, r) := AddSlots(g1, t1, o, id, node, port, slots.value, 0);
      assert Register(g, table, o, id, node, port, slots) == (h, t, r);
      GrowsTrans(g, g1, h);
      assert TableGrows(g, t1, t, SlotIds(o));
    } else {
      assert Register(g, table, o, id, node, port, slots) == (g1, t1, Ok(()));
      assert TableGrows(g, t1, t1, {});
    }
  }

  lemma {:induction false} AddSlotsSpec(g: Graph, table: OutputTable, o: PyObj, id: string, node: NodeId, port: string,
                                        names: SlotNames, i: nat)
    requires SingleWriter(g, table) && node in g.data && FreshSlots(Some(names))
    ensures GrewBy(g, table, AddSlots(g, table, o, id, node, port, names, i), SlotCountFrom(o, i), SlotIdsFrom(o, i))
    decreases o, 0, |o.slots| - i, 1
  {
    if i >= |o.slots| {
      assert g.nodes[..|g.nodes|] == g.nodes;
      assert AddSlots(g, table, o, id, node, port, names, i) == (g, table, Ok(()));
      assert TableGrows(g, table, table, {});
    } else if o.slots[i].value.None? {
      AddSlotsSpec(g, table, o, id, node, port, names, i + 1);
      assert AddSlots(g, table, o, id, node, port, names, i) == AddSlots(g, table, o, id, node, port, names, i + 1);
      assert SlotIdsFrom(o, i) == SlotIdsFrom(o, i + 1) && SlotCountFrom(o, i) == SlotCountFrom(o, i + 1);
    } else {
      AddSlotsNext(g, table, o, id, node, port, names, i);
    }
  }

  // ... the step of AddSlotsSpec that adds a found slot.
  lemma {:induction false} AddSlotsNext(g: Graph, table: OutputTable, o: PyObj, id: string, node: NodeId, port: string,
                                        names: SlotNames, i: nat)
    requires SingleWriter(g, table) && node in g.data && FreshSlots(Some(names))
    requires i < |o.slots| && o.slots[i].value.Some?
    ensures GrewBy(g, table, AddSlots(g, table, o, id, node, port, names, i), SlotCountFrom(o, i), SlotIdsFrom(o, i))
    decreases o, 0, |o.slots| - i, 0
  {
    var s := o.slots[i];
    var ids1 := if Trackable(s) then {s.trackId.value} + SlotIds(s.value.value) else {};
    AddSlotSpec(g, table, o, id, node, port, names, s);
    var (h1, t1, r1) := AddSlot(g, table, o, id, node, port, names, s);
    AddSlotsSpec(h1, t1, o, id, node, port, names, i + 1);
    assert AddSlots(g, table, o, id, node, port, names, i) == AddSlots(h1, t1, o, id, node, port, names, i + 1);
    SlotsFromNext(o, i);
    GrewTwice(g, table, AddSlot(g, table, o, id, node, port, names, s), AddSlots(g, table, o, id, node, port, names, i),
              1 + (if Trackable(s) then SlotCount(s.value.value) else 0), ids1, SlotCountFrom(o, i + 1), SlotIdsFrom(o, i + 1),
              SlotCountFrom(o, i), SlotIdsFrom(o, i));
  }

  // Two registrations in a row are one.
  lemma GrewTwice(g: Graph, table: OutputTable, res1: (Graph, OutputTable, Result<()>), res: (Graph, OutputTable, Result<()>),
                  c1: nat, ids1: set<string>, c2: nat, ids2: set<string>, c: nat, ids: set<string>)
    requires GrewBy(g, table, res1, c1, ids1) && GrewBy(res1.0, res1.1, res, c2, ids2)
    requires c == c1 + c2 && ids == ids1 + ids2
    ensures GrewBy(g, table, res, c, ids)
  {
    GrowsTwice(g, res1.0, res.0, table, res1.1, res.1, ids1, ids2);
  }

  // The slots of o from i on: slot i, then the rest.
  lemma SlotsFromNext(o: PyObj, i: nat)
    requires i < |o.slots| && o.slots[i].value.Some?
    ensures var s := o.slots[i];
            SlotIdsFrom(o, i) == (if Trackable(s) then {s.trackId.value} + SlotIds(s.value.value) else {}) + SlotIdsFrom(o, i + 1) &&
            SlotCountFrom(o, i) == 1 + (if Trackable(s) then SlotCount(s.value.value) else 0) + SlotCountFrom(o, i + 1)
  {
  }

  // Two growth steps in a row are one.
  lemma GrowsTwice(g: Graph, g1: Graph, h: Graph, table: OutputTable, t1: OutputTable, t: OutputTable, a: set<string>, b: set<string>)
    requires Grows(g, g1) && Grows(g1, h) && TableGrows(g, table, t1, a) && TableGrows(g1, t1, t, b)
    ensures Grows(g, h) && TableGrows(g, table, t, a + b)
  {
    GrowsTrans(g, g1, h);
    TableGrowsTrans(g, g1, table, t1, t, a, b);
  }

  /* ---------------- Input edges ---------------- */

  predicate EndsWith(s: string, suffix: string)
  {
    |suffix| <= |s| && s[|s| - |suffix|..] == suffix
  }

  // `self` of an atomic initializer is the object the call creates: it is
  // treated as an output of the call rather than as an unknown input.
  predicate CreatedSelf(e: Event, argName: string)
  {
    e.atomic && EndsWith(e.qualName, "__init__") && argName == "self"
  }

  // The tracked objects `_hidden_referents` finds in a container argument,
  // each passed under the argument's name.
  function Hidden(a: string, o: PyObj): (r: seq<(string, PyObj)>)
    ensures |r| == |o.hidden| && forall j :: 0 <= j < |r| ==> r[j] == (a, o.hidden[j])
  {
    seq(|o.hidden|, j requires 0 <= j < |o.hidden| => (a, o.hidden[j]))
  }

  // The objects `_push_call_event` hands to `_add_call_in_edge`, in order:
  // each argument, then the objects hidden in it.
  function ArgObjects(args: seq<(string, PyObj)>): seq<(string, PyObj)>
  {
    if args == [] then []
    else
      var p := args[|args| - 1];
      ArgObjects(args[..|args| - 1]) + ([p] + Hidden(p.0, p.1))
  }

  // The edge `_add_call_in_edge` adds for object o passed as argument a, as
  // (source node, edge data): nothing for an untracked object; from the
  // node and port that last produced the object; otherwise from the input
  // marker, except for `self` of an atomic initializer.
  function InLink(table: OutputTable, e: Event, inNode: NodeId, a: string, o: PyObj): Option<(NodeId, Attrs)>
  {
    if !HasId(o) then None
    else
      var id := o.id.value;
      if id in table then Some((table[id].0, ObjectData(o, id)["sourceport" := VStr(table[id].1)]["targetport" := VStr(a)]))
      else if CreatedSelf(e, a) then None
      else Some((inNode, ObjectData(o, id)["targetport" := VStr(a)]))
  }

  // The edges added for a sequence of objects, in order.
  function InLinks(table: OutputTable, e: Event, inNode: NodeId, objs: seq<(string, PyObj)>): seq<(NodeId, Attrs)>
  {
    if objs == [] then []
    else
      var p := objs[|objs| - 1];
      var l := InLink(table, e, inNode, p.0, p.1);
      InLinks(table, e, inNode, objs[..|objs| - 1]) + (if l.Some? then [l.value] else [])
  }

  // `graph.add_edge(src, node, attr_dict=data)` for each link in turn.
  function AddLinks(g: Graph, node: NodeId, links: seq<(NodeId, Attrs)>): Graph
  {
    if links == [] then g
    else
      var l := links[|links| - 1];
      AddEdge(AddLinks(g, node, links[..|links| - 1]), l.0, node, l.1)
  }

  lemma InLinksStep(table: OutputTable, e: Event, inNode: NodeId, objs: seq<(string, PyObj)>, a: string, o: PyObj)
    ensures InLinks(table, e, inNode, objs + [(a, o)]) ==
              InLinks(table, e, inNode, objs) + (var l := InLink(table, e, inNode, a, o); if l.Some? then [l.value] else [])
  {
    SliceAppend(objs, [(a, o)]);
  }

  lemma AddLinksStep(g: Graph, node: NodeId, links: seq<(NodeId, Attrs)>, l: (NodeId, Attrs))
    ensures AddLinks(g, node, links + [l]) == AddEdge(AddLinks(g, node, links), l.0, node, l.1)
  {
    SliceAppend(links, [l]);
  }

  // `_add_call_in_edge(event, node, arg_name, arg)` on the graph of the
  // current frame.
  method AddCallInEdge(g: Graph, table: OutputTable, e: Event, node: NodeId, a: string, o: PyObj) returns (h: Graph)
    requires InputNode(g).Some?
    ensures h == (var l := InLink(table, e, InputNode(g).value, a, o); if l.Some? then AddEdge(g, l.value.0, node, l.value.1) else g)
  {
    if !HasId(o) {
      return g;
    }
    var id := o.id.value;
    if id in table {
      var (src, srcPort) := table[id];
      h := AddEdge(g, src, node, ObjectData(o, id)["sourceport" := VStr(srcPort)]["targetport" := VStr(a)]);
    } else if !CreatedSelf(e, a) {
      h := AddEdge(g, InputNode(g).value, node, ObjectData(o, id)["targetport" := VStr(a)]);
    } else {
      h := g;
    }
  }

  // The argument loop of `_push_call_event`: each argument and then the
  // objects hidden in it get their input edge.
  method AddCallInEdges(g: Graph, table: OutputTable, e: Event, node: NodeId) returns (h: Graph)
    requires InputNode(g).Some?
    ensures h == AddLinks(g, node, InLinks(table, e, InputNode(g).value, ArgObjects(e.arguments)))
  {
    var inNode := InputNode(g).value;
    var args := e.arguments;
    h := g;
    ghost var done: seq<(string, PyObj)> := [];
    ghost var links: seq<(NodeId, Attrs)> := [];
    for i := 0 to |args|
      invariant done == ArgObjects(args[..i]) && links == InLinks(table, e, inNode, done)
      invariant h == AddLinks(g, node, links) && InputNode(h) == Some(inNode)
    {
      var (a, o) := args[i];
      ghost var l := InLink(table, e, inNode, a, o);
      var h1 := AddCallInEdge(h, table, e, node, a, o);
      InLinksStep(table, e, inNode, done, a, o);
      if l.Some? {
        AddLinksStep(g, node, links, l.value);
        links := links + [l.value];
      } else {
        assert links + [] == links;
      }
      done := done + [(a, o)];
      h := h1;
      ghost var base := ArgObjects(args[..i]);
      var hidden := o.hidden;
      for j := 0 to |hidden|
        invariant done == base + ([(a, o)] + Hidden(a, o)[..j]) && links == InLinks(table, e, inNode, done)
        invariant h == AddLinks(g, node, links) && InputNode(h) == Some(inNode)
      {
        ghost var lj := InLink(table, e, inNode, a, hidden[j]);
        var h2 := AddCallInEdge(h, table, e, node, a, hidden[j]);
        InLinksStep(table, e, inNode, done, a, hidden[j]);
        if lj.Some? {
          AddLinksStep(g, node, links, lj.value);
          links := links + [lj.value];
        } else {
          assert links + [] == links;
        }
        PrefixStep(Hidden(a, o), j);
        AppendAssoc([(a, o)], Hidden(a, o)[..j], [(a, hidden[j])]);
        AppendAssoc(base, [(a, o)] + Hidden(a, o)[..j], [(a, hidden[j])]);
        done := done + [(a, hidden[j])];
        h := h2;
      }
      WholePrefix(Hidden(a, o));
      PrefixStep(args, i);
    }
    WholePrefix(args);
  }

  // es' is es followed by one edge per link, from the link's source into
  // the node and with the link's data.
  ghost predicate Extends(es: seq<Edge>, es': seq<Edge>, node: NodeId, links: seq<(NodeId, Attrs)>)
  {
    |es'| == |es| + |links| &&
    (forall i :: 0 <= i < |es| ==> es'[i] == es[i]) &&
    (forall i :: |es| <= i < |es'| ==> es'[i].tgt == node) &&
    forall j :: 0 <= j < |links| ==> Triple(es'[|es| + j]) == (links[j].0, node, links[j].1)
  }

  lemma ExtendsStep(es: seq<Edge>, mid: seq<Edge>, node: NodeId, init: seq<(NodeId, Attrs)>, last: Edge, links: seq<(NodeId, Attrs)>)
    requires Extends(es, mid, node, init)
    requires |links| == |init| + 1 && links[..|init|] == init && last.tgt == node && Triple(last) == (links[|init|].0, node, links[|init|].1)
    ensures Extends(es, mid + [last], node, links)
  {
    var es' := mid + [last];
    forall j | 0 <= j < |links| ensures Triple(es'[|es| + j]) == (links[j].0, node, links[j].1) {
      if j < |init| {
        assert links[j] == init[j];
      }
    }
  }

  // The input edges go, in order, from each link's source into the call
  // node; the nodes, their data and the earlier edges stay as they were.
  lemma {:induction false} AddLinksSpec(g: Graph, node: NodeId, links: seq<(NodeId, Attrs)>)
    requires Valid(g) && node in g.data && forall l :: l in links ==> l.0 in g.data
    ensures var h := AddLinks(g, node, links);
            Valid(h) && h.directed == g.directed && h.attrs == g.attrs && h.nodes == g.nodes && h.data == g.data &&
            Extends(g.edges, h.edges, node, links)
    decreases |links|
  {
    if links != [] {
      var init := links[..|links| - 1];
      var l := links[|links| - 1];
      assert l in links;
      assert forall m :: m in init ==> m in links;
      AddLinksSpec(g, node, init);
      var h0 := AddLinks(g, node, init);
      AddEdgeValid(h0, l.0, node, l.1);
      ExtendsStep(g.edges, h0.edges, node, init, Edge(l.0, node, NewKey(h0, l.0, node), l.1), links);
    }
  }

  // No input edge ends in the output marker, so the writers of every
  // object stay as they were.
  lemma {:induction false} AddLinksWriters(g: Graph, node: NodeId, links: seq<(NodeId, Attrs)>, out: NodeId, x: string)
    requires node != out
    ensures Writers(AddLinks(g, node, links).edges, out, x) == Writers(g.edges, out, x)
    decreases |links|
  {
    if links != [] {
      var init := links[..|links| - 1];
      var l := links[|links| - 1];
      var h0 := AddLinks(g, node, init);
      AddLinksWriters(g, node, init, out, x);
      WritersAppendOne(h0.edges, Edge(l.0, node, NewKey(h0, l.0, node), l.1), out, x);
      assert Writers(h0.edges, out, x) + [] == Writers(h0.edges, out, x);
    }
  }

  // Every object the output table records was produced by a node of the
  // graph.
  lemma ProducersAreNodes(g: Graph, table: OutputTable)
    requires SingleWriter(g, table)
    ensures forall x :: x in table ==> table[x].0 in g.data
  {
    forall x | x in table ensures table[x].0 in g.data {
      var ws := Writers(g.edges, OutputNode(g).value, x);
      assert Recorded(g.edges, OutputNode(g).value, table, x);
      assert ws[0] in ws;
    }
  }

  // The sources of the input edges are nodes of the graph.
  lemma {:induction false} InLinksSources(table: OutputTable, e: Event, inNode: NodeId, objs: seq<(string, PyObj)>, data: map<NodeId, Attrs>)
    requires inNode in data && forall x :: x in table ==> table[x].0 in data
    ensures forall l :: l in InLinks(table, e, inNode, objs) ==> l.0 in data
    decreases |objs|
  {
    if objs != [] {
      InLinksSources(table, e, inNode, objs[..|objs| - 1], data);
    }
  }

  // Adding the input edges of a call node other than the output marker
  // keeps the single-writer invariant of the frame.
  lemma AddLinksKeep(g: Graph, table: OutputTable, node: NodeId, links: seq<(NodeId, Attrs)>)
    requires SingleWriter(g, table) && node in g.data && node != OutputNode(g).value
    requires forall l :: l in links ==> l.0 in g.data
    ensures SingleWriter(AddLinks(g, node, links), table)
  {
    var h := AddLinks(g, node, links);
    var out := OutputNode(g).value;
    AddLinksSpec(g, node, links);
    assert OutputNode(h) == OutputNode(g);
    forall x ensures Recorded(h.edges, out, table, x) {
      AddLinksWriters(g, node, links, out, x);
      assert Recorded(g.edges, out, table, x);
    }
    forall f | f in h.edges && f.tgt == out ensures f in g.edges {
      var i :| 0 <= i < |h.edges| && h.edges[i] == f;
      assert g.edges[i] in g.edges;
    }
  }

  // Where the input edge of a tracked object comes from: if the frame has
  // produced the object, from the node holding the object's one edge into
  // the output marker and from that edge's port; if not, from the input
  // marker, unless the argument is `self` of an atomic initializer. The
  // edge carries the object's id and the argument's name as target port.
  lemma InLinkSource(g: Graph, table: OutputTable, e: Event, a: string, o: PyObj)
    requires SingleWriter(g, table) && HasId(o)
    ensures var ws := Writers(g.edges, OutputNode(g).value, o.id.value);
            var l := InLink(table, e, InputNode(g).value, a, o);
            |ws| <= 1 &&
            (|ws| == 1 ==> l.Some? && l.value.0 == ws[0].src && "sourceport" in l.value.1 &&
                           "sourceport" in ws[0].data && l.value.1["sourceport"] == ws[0].data["sourceport"]) &&
            (|ws| == 0 ==> (l.Some? <==> !CreatedSelf(e, a)) && (l.Some? ==> l.value.0 == InputNode(g).value)) &&
            (l.Some? ==> l.value.1["id"] == VStr(o.id.value) && l.value.1["targetport"] == VStr(a))
  {
    assert Recorded(g.edges, OutputNode(g).value, table, o.id.value);
  }

  /* ---------------- Registering outputs ---------------- */

  // One registration of `_push_return_event`: the object becomes an output
  // of the call under `port`, or `is_pure` raises.
  datatype OutStep = Put(obj: PyObj, id: string, port: string) | Raise(error: Error)

  // The tracked elements of a returned tuple, from position i on.
  function TupleSteps(items: seq<PyObj>, i: nat): seq<OutStep>
    decreases |items| - i
  {
    if i >= |items| then []
    else (if HasId(items[i]) then [Put(items[i], items[i].id.value, ReturnPortName(i))] else []) + TupleSteps(items, i + 1)
  }

  // The tracked arguments that are not pure, from position k on.
  function MutatedSteps(e: Event, args: seq<(string, PyObj)>, k: nat): seq<OutStep>
    decreases |args| - k
  {
    if k >= |args| then []
    else
      var a := args[k];
      var p := IsPure(e, e.note, a.0);
      var first := if !HasId(a.1) then []
                   else if p.Err? then [Raise(p.error)]
                   else if !p.value then [Put(a.1, a.1.id.value, MutatedPortName(a.0))]
                   else [];
      first + MutatedSteps(e, args, k + 1)
  }

  // The return value's registrations: each tracked element of a returned
  // tuple, or the return value itself when it is tracked.
  function ReturnSteps(rv: PyObj): seq<OutStep>
  {
    if rv.items.Some? then TupleSteps(rv.items.value, 0)
    else if HasId(rv) then [Put(rv, rv.id.value, "__return__")]
    else []
  }

  // All registrations of `_push_return_event`, in order.
  function OutputSteps(e: Event): seq<OutStep>
  {
    ReturnSteps(e.returnValue) + MutatedSteps(e, e.arguments, 0)
  }

  // The steps carried out on a frame's graph and output table; the first
  // error ends them, and what the earlier steps did stays.
  function SetOutputs(g: Graph, table: OutputTable, node: NodeId, steps: seq<OutStep>, slots: Option<SlotNames>)
    : (r: (Graph, OutputTable, Result<()>))
    requires OutputNode(g).Some?
    ensures r.0.attrs == g.attrs
    decreases |steps|
  {
    if steps == [] then (g, table, Ok(()))
    else if steps[0].Raise? then (g, table, Err(steps[0].error))
    else
      var (h, t, r) := Register(g, table, steps[0].obj, steps[0].id, node, steps[0].port, slots);
      if r.Err? then (h, t, r)
      else SetOutputs(h, t, node, steps[1..], slots)
  }

  lemma ConsAppend<T>(x: T, a: seq<T>, b: seq<T>)
    ensures ([x] + a) + b == [x] + (a + b) && ([x] + (a + b))[0] == x && ([x] + (a + b))[1..] == a + b
  {
  }

  // `_set_object_output_node(event, obj, obj_id, node, port)`: the old
  // output edge of the object, if any, is removed, the table is updated,
  // the new output edge is added, and, when `store_slots` is on, the
  // object's annotated slots follow.
  method SetObjectOutput(g: Graph, table: OutputTable, o: PyObj, id: string, node: NodeId, port: string, slots: Option<SlotNames>)
    returns (h: Graph, t: OutputTable, r: Result<()>)
    requires OutputNode(g).Some?
    ensures (h, t, r) == Register(g, table, o, id, node, port, slots)
    decreases o, 1
  {
    var out := OutputNode(g).value;
    h := g;
    if id in table {
      var prior := table[id].0;
      if !HasEdge(g, prior, out) {
        return g, table, Err(KeyError);
      }
      var keys := OldKeys(g.edges, prior, out, id);
      if keys.Err? {
        return g, table, Err(keys.error);
      }
      if |keys.value| != 1 {
        return g, table, Err(AssertionError);
      }
      var removed := RemoveEdge(g, prior, out, keys.value[0]);
      if removed.Err? {
        return g, table, Err(removed.error);
      }
      h := removed.value;
    }
    t := table[id := (node, port)];
    h := AddEdge(h, node, out, OutputEdgeData(o, id, port));
    r := Ok(());
    if slots.Some? {
      h, t, r := AddObjectSlots(h, t, o, id, node, port, slots.value);
    }
  }

  // `_add_object_slots(event, obj, obj_id, node, port)`: each annotated
  // slot found on the object gets a slot node fed from (node, port), and a
  // trackable slot value becomes that node's output.
  method AddObjectSlots(g: Graph, table: OutputTable, o: PyObj, id: string, node: NodeId, port: string, names: SlotNames)
    returns (h: Graph, t: OutputTable, r: Result<()>)
    requires OutputNode(g).Some?
    ensures (h, t, r) == AddSlots(g, table, o, id, node, port, names, 0)
    decreases o, 0
  {
    h, t, r := g, table, Ok(());
    for i := 0 to |o.slots|
      invariant h.attrs == g.attrs
      invariant AddSlots(h, t, o, id, node, port, names, i) == AddSlots(g, table, o, id, node, port, names, 0)
    {
      var s := o.slots[i];
      if s.value.Some? {
        var m := SlotNodeName(names, h);
        var h1 := AddEdge(AddNode(h, m, SlotNodeData(o, s)), node, m, SlotEdgeData(o, id, port));
        if Trackable(s) {
          var h2, t2, r2 := SetObjectOutput(h1, t, s.value.value, s.trackId.value, m, "__return__", Some(names));
          if r2.Err? {
            return h2, t2, r2;
          }
          h, t := h2, t2;
        } else {
          h := h1;
        }
      }
    }
  }

  // Carrying out a + b is carrying out a, then b unless a failed.
  lemma {:induction false} SetOutputsAppend(g: Graph, table: OutputTable, node: NodeId, a: seq<OutStep>, b: seq<OutStep>,
                                            slots: Option<SlotNames>)
    requires OutputNode(g).Some?
    ensures var (h, t, r) := SetOutputs(g, table, node, a, slots);
            SetOutputs(g, table, node, a + b, slots) == if r.Err? then (h, t, r) else SetOutputs(h, t, node, b, slots)
    decreases |a|
  {
    if a == [] {
      assert a + b == b;
    } else {
      assert (a + b)[0] == a[0] && (a + b)[1..] == a[1..] + b;
      if a[0].Put? {
        var (h, t, r) := Register(g, table, a[0].obj, a[0].id, node, a[0].port, slots);
        if r.Ok? {
          SetOutputsAppend(h, t, node, a[1..], b, slots);
        }
      }
    }
  }

  // The first registration loop: the elements of a returned tuple, or the
  // return value.
  method RegisterReturnValue(g: Graph, table: OutputTable, rv: PyObj, node: NodeId, slots: Option<SlotNames>)
    returns (h: Graph, t: OutputTable, r: Result<()>)
    requires OutputNode(g).Some?
    ensures (h, t, r) == SetOutputs(g, table, node, ReturnSteps(rv), slots)
  {
    h, t, r := g, table, Ok(());
    if rv.items.Some? {
      var items := rv.items.value;
      for i := 0 to |items|
        invariant h.attrs == g.attrs
        invariant SetOutputs(h, t, node, TupleSteps(items, i), slots) == SetOutputs(g, table, node, ReturnSteps(rv), slots)
      {
        if HasId(items[i]) {
          var st := Put(items[i], items[i].id.value, ReturnPortName(i));
          ConsAppend(st, TupleSteps(items, i + 1), []);
          var h1, t1, r1 := SetObjectOutput(h, t, items[i], items[i].id.value, node, ReturnPortName(i), slots);
          assert SetOutputs(h, t, node, TupleSteps(items, i), slots) ==
                 if r1.Err? then (h1, t1, r1) else SetOutputs(h1, t1, node, TupleSteps(items, i + 1), slots);
          if r1.Err? {
            return h1, t1, r1;
          }
          h, t := h1, t1;
        } else {
          assert [] + TupleSteps(items, i + 1) == TupleSteps(items, i + 1);
        }
      }
    } else if HasId(rv) {
      var steps := [Put(rv, rv.id.value, "__return__")];
      h, t, r := SetObjectOutput(g, table, rv, rv.id.value, node, "__return__", slots);
      assert ReturnSteps(rv) == steps && steps[1..] == [];
      assert SetOutputs(h, t, node, [], slots) == (h, t, Ok(()));
      if r.Ok? {
        var u: () := r.value;
        assert u == ();
      }
    }
  }

  // The second registration loop: each tracked argument that is not pure.
  method RegisterMutated(g: Graph, table: OutputTable, e: Event, node: NodeId, slots: Option<SlotNames>)
    returns (h: Graph, t: OutputTable, r: Result<()>)
    requires OutputNode(g).Some?
    ensures (h, t, r) == SetOutputs(g, table, node, MutatedSteps(e, e.arguments, 0), slots)
  {
    h, t, r := g, table, Ok(());
    var args := e.arguments;
    for k := 0 to |args|
      invariant h.attrs == g.attrs
      invariant SetOutputs(h, t, node, MutatedSteps(e, args, k), slots) == SetOutputs(g, table, node, MutatedSteps(e, args, 0), slots)
    {
      var (a, o) := args[k];
      if HasId(o) {
        var p := IsPure(e, e.note, a);
        if p.Err? {
          return h, t, Err(p.error);
        }
        if !p.value {
          ConsAppend(Put(o, o.id.value, MutatedPortName(a)), [], MutatedSteps(e, args, k + 1));
          var h1, t1, r1 := SetObjectOutput(h, t, o, o.id.value, node, MutatedPortName(a), slots);
          assert SetOutputs(h, t, node, MutatedSteps(e, args, k), slots) ==
                 if r1.Err? then (h1, t1, r1) else SetOutputs(h1, t1, node, MutatedSteps(e, args, k + 1), slots);
          if r1.Err? {
            return h1, t1, r1;
          }
          h, t := h1, t1;
        } else {
          assert [] + MutatedSteps(e, args, k + 1) == MutatedSteps(e, args, k + 1);
        }
      } else {
        assert [] + MutatedSteps(e, args, k + 1) == MutatedSteps(e, args, k + 1);
      }
    }
  }

  // The registrations of `_push_return_event`, in order.
  method RegisterOutputs(g: Graph, table: OutputTable, e: Event, node: NodeId, slots: Option<SlotNames>)
    returns (h: Graph, t: OutputTable, r: Result<()>)
    requires OutputNode(g).Some?
    ensures (h, t, r) == SetOutputs(g, table, node, OutputSteps(e), slots)
  {
    SetOutputsAppend(g, table, node, ReturnSteps(e.returnValue), MutatedSteps(e, e.arguments, 0), slots);
    h, t, r := RegisterReturnValue(g, table, e.returnValue, node, slots);
    if r.Ok? {
      h, t, r := RegisterMutated(h, t, e, node, slots);
    }
  }

  // The objects registered before the first error.
  function PutIds(steps: seq<OutStep>): set<string>
    decreases |steps|
  {
    if steps == [] || steps[0].Raise? then {} else {steps[0].id} + PutIds(steps[1..])
  }

  // The slot values registered beneath them, when `store_slots` is on.
  function StepSlotIds(steps: seq<OutStep>, slots: Option<SlotNames>): set<string>
    decreases |steps|
  {
    if steps == [] || steps[0].Raise? || slots.None? then {} else SlotIds(steps[0].obj) + StepSlotIds(steps[1..], slots)
  }

  // The output table t after registrations at `node` over a graph grown
  // from g: the registered objects and slot values join it; an object
  // registered at `node` and not found as a slot value stays an output of
  // `node`; a slot value is an output of `node` or of a new slot node;
  // every other entry stays.
  ghost predicate RecordsOutputs(g: Graph, table: OutputTable, t: OutputTable, node: NodeId, puts: set<string>, found: set<string>)
  {
    (forall x :: x in t <==> x in table || x in puts || x in found) &&
    (forall x :: x in puts && x !in found ==> x in t && t[x].0 == node) &&
    (forall x :: x in found ==> x in t && (t[x].0 == node || t[x].0 !in g.data)) &&
    (forall x :: x !in puts && x !in found && x in table ==> t[x] == table[x])
  }

  // One registration followed by the rest records the union.
  lemma RecordsStep(g: Graph, g1: Graph, table: OutputTable, t1: OutputTable, t: OutputTable, node: NodeId, port: string,
                    id: string, ids: set<string>, puts: set<string>, found: set<string>)
    requires TableGrows(g, table[id := (node, port)], t1, ids) && RecordsOutputs(g1, t1, t, node, puts, found)
    requires forall m :: m in g.data ==> m in g1.data
    ensures RecordsOutputs(g, table, t, node, {id} + puts, ids + found)
  {
  }

  // Registering outputs keeps the single-writer invariant of the frame and
  // only an error `is_pure` raised stops it; the graph grows by the slot
  // nodes of the registered objects, and the table records every
  // registration made before that error.
  lemma {:induction false} SetOutputsSpec(g: Graph, table: OutputTable, node: NodeId, steps: seq<OutStep>, slots: Option<SlotNames>)
    requires SingleWriter(g, table) && node in g.data && FreshSlots(slots)
    requires forall k :: 0 <= k < |steps| && steps[k].Put? ==> !steps[k].obj.isNone
    ensures var (h, t, r) := SetOutputs(g, table, node, steps, slots);
            SingleWriter(h, t) && Grows(g, h) &&
            RecordsOutputs(g, table, t, node, PutIds(steps), StepSlotIds(steps, slots)) &&
            (r.Ok? <==> forall k :: 0 <= k < |steps| ==> steps[k].Put?)
    decreases |steps|
  {
    if steps == [] || steps[0].Raise? {
      assert g.nodes[..|g.nodes|] == g.nodes;
      assert SetOutputs(g, table, node, steps, slots).1 == table;
      assert PutIds(steps) == {} && StepSlotIds(steps, slots) == {};
    } else {
      var st := steps[0];
      RegisterSpec(g, table, st.obj, st.id, node, st.port, slots);
      var (g1, t1, r1) := Register(g, table, st.obj, st.id, node, st.port, slots);
      var more := steps[1..];
      forall k | 0 <= k < |more| && more[k].Put? ensures !more[k].obj.isNone {
        assert more[k] == steps[k + 1];
      }
      SetOutputsSpec(g1, t1, node, more, slots);
      var (h, t, r) := SetOutputs(g1, t1, node, more, slots);
      assert SetOutputs(g, table, node, steps, slots) == (h, t, r);
      GrowsAndRecords(g, g1, h, table, t1, t, node, st.port, st.id, if slots.Some? then SlotIds(st.obj) else {},
                      PutIds(more), StepSlotIds(more, slots));
      AllPutTail(steps, slots);
    }
  }

  // A registration and the registrations after it together grow the graph
  // and record their union.
  lemma GrowsAndRecords(g: Graph, g1: Graph, h: Graph, table: OutputTable, t1: OutputTable, t: OutputTable, node: NodeId,
                        port: string, id: string, ids: set<string>, puts: set<string>, found: set<string>)
    requires Grows(g, g1) && Grows(g1, h)
    requires TableGrows(g, table[id := (node, port)], t1, ids) && RecordsOutputs(g1, t1, t, node, puts, found)
    ensures Grows(g, h) && RecordsOutputs(g, table, t, node, {id} + puts, ids + found)
  {
    GrowsTrans(g, g1, h);
    RecordsStep(g, g1, table, t1, t, node, port, id, ids, puts, found);
  }

  // A sequence of steps that starts with a registration: its ids are those
  // of the first step and of the rest, and all of it registers when the
  // rest does.
  lemma AllPutTail(steps: seq<OutStep>, slots: Option<SlotNames>)
    requires steps != [] && steps[0].Put?
    ensures PutIds(steps) == {steps[0].id} + PutIds(steps[1..])
    ensures StepSlotIds(steps, slots) == (if slots.Some? then SlotIds(steps[0].obj) else {}) + StepSlotIds(steps[1..], slots)
    ensures (forall k :: 0 <= k < |steps| ==> steps[k].Put?) <==> (forall k :: 0 <= k < |steps[1..]| ==> steps[1..][k].Put?)
  {
    var more := steps[1..];
    if forall k :: 0 <= k < |more| ==> more[k].Put? {
      forall k | 0 <= k < |steps| ensures steps[k].Put? {
        if k > 0 {
          assert steps[k] == more[k - 1];
        }
      }
    }
  }

  // A registration of a tracked object under its own id.
  predicate PutsTracked(st: OutStep)
  {
    st.Put? && HasId(st.obj) && st.id == st.obj.id.value
  }

  // When the port names were computed, `is_pure` answered for every
  // argument.
  lemma {:induction false} ImpureAnswers(e: Event, note: seq<(string, Value)>, args: seq<(string, PyObj)>)
    requires Impure(e, note, args).Ok?
    ensures forall i :: 0 <= i < |args| ==> IsPure(e, note, args[i].0).Ok?
    decreases |args|
  {
    if args != [] {
      var init := args[..|args| - 1];
      ImpureAnswers(e, note, init);
      forall i | 0 <= i < |args| ensures IsPure(e, note, args[i].0).Ok? {
        if i < |init| {
          assert args[i] == init[i];
        }
      }
    }
  }

  // Then every registration of an argument is a Put of a tracked object.
  lemma {:induction false} MutatedStepsPut(e: Event, args: seq<(string, PyObj)>, k: nat)
    requires forall i :: k <= i < |args| ==> IsPure(e, e.note, args[i].0).Ok?
    ensures forall j :: 0 <= j < |MutatedSteps(e, args, k)| ==> PutsTracked(MutatedSteps(e, args, k)[j])
    decreases |args| - k
  {
    if k < |args| {
      MutatedStepsPut(e, args, k + 1);
      var ms := MutatedSteps(e, args, k);
      var rest := MutatedSteps(e, args, k + 1);
      var a := args[k];
      var p := IsPure(e, e.note, a.0);
      var first := if HasId(a.1) && !p.value then [Put(a.1, a.1.id.value, MutatedPortName(a.0))] else [];
      assert ms == first + rest;
      forall j | 0 <= j < |ms| ensures PutsTracked(ms[j]) {
        if j >= |first| {
          assert ms[j] == rest[j - |first|];
        } else {
          assert ms[j] == first[j];
        }
      }
    }
  }

  // Every registration of the return value is a Put of a tracked object.
  lemma {:induction false} TupleStepsPut(items: seq<PyObj>, i: nat)
    ensures forall j :: 0 <= j < |TupleSteps(items, i)| ==> PutsTracked(TupleSteps(items, i)[j])
    decreases |items| - i
  {
    if i < |items| {
      TupleStepsPut(items, i + 1);
      var ts := TupleSteps(items, i);
      var rest := TupleSteps(items, i + 1);
      var first := if HasId(items[i]) then [Put(items[i], items[i].id.value, ReturnPortName(i))] else [];
      assert ts == first + rest;
      forall j | 0 <= j < |ts| ensures PutsTracked(ts[j]) {
        if j >= |first| {
          assert ts[j] == rest[j - |first|];
        } else {
          assert ts[j] == first[j];
        }
      }
    }
  }

  /* ---------------- Helpers on node data ---------------- */

  // `graph.node[n][key] = v`; the callers make sure n is a node.
  function SetNodeAttr(g: Graph, n: NodeId, key: string, v: Value): (r: Graph)
    ensures r.nodes == g.nodes && r.edges == g.edges && r.attrs == g.attrs && r.directed == g.directed
    ensures forall m :: m in r.data <==> m in g.data
    ensures n in g.data ==> r.data[n] == g.data[n][key := v]
    ensures forall m :: m in g.data && m != n ==> r.data[m] == g.data[m]
  {
    if n in g.data then g.(data := g.data[n := g.data[n][key := v]]) else g
  }

  // `d.update(entries)` on an ordered dictionary value: each entry in turn.
  function DictUpdate(d: seq<(string, Value)>, entries: seq<(string, Value)>): seq<(string, Value)>
    decreases |entries|
  {
    if entries == [] then d else DictUpdate(DictSet(d, entries[0].0, entries[0].1), entries[1..])
  }

  // The keys of `entries` get the values `entries` alone would give them;
  // every other key keeps its value.
  lemma {:induction false} DictUpdateGet(d: seq<(string, Value)>, entries: seq<(string, Value)>, k: string)
    ensures DictGet(DictUpdate(d, entries), k) ==
              if DictGet(entries, k).Some? then DictGet(DictUpdate([], entries), k) else DictGet(d, k)
    decreases |entries|
  {
    if entries != [] {
      var (k0, v0) := entries[0];
      DictUpdateGet(DictSet(d, k0, v0), entries[1..], k);
      DictUpdateGet(DictSet([], k0, v0), entries[1..], k);
      assert DictGet(entries, k) == if k0 == k then Some(v0) else DictGet(entries[1..], k);
    }
  }

  // Writing a node attribute leaves the single-writer invariant alone.
  lemma SetNodeAttrKeeps(g: Graph, table: OutputTable, n: NodeId, key: string, v: Value)
    requires SingleWriter(g, table)
    ensures SingleWriter(SetNodeAttr(g, n, key, v), table)
  {
    var r := SetNodeAttr(g, n, key, v);
    assert OutputNode(r) == OutputNode(g) && InputNode(r) == InputNode(g);
    assert NodesWellFormed(r) && EndPointsAreNodes(r.edges, r.data);
  }

  lemma AddNodeKeeps(g: Graph, table: OutputTable, n: NodeId, attrs: Attrs)
    requires SingleWriter(g, table)
    ensures SingleWriter(AddNode(g, n, attrs), table)
  {
    AddNodeValid(g, n, attrs);
    var r := AddNode(g, n, attrs);
    assert OutputNode(r) == OutputNode(g) && InputNode(r) == InputNode(g);
  }

  // Dropping the edges that touch ns keeps every writer that avoids ns.
  lemma {:induction false} WritersOutside(es: seq<Edge>, ns: set<NodeId>, out: NodeId, x: string)
    requires out !in ns
    requires forall e :: e in es && e.tgt == out && Carries(e, x) ==> e.src !in ns
    ensures Writers(EdgesOutside(es, ns), out, x) == Writers(es, out, x)
    decreases |es|
  {
    if es != [] {
      var init := es[..|es| - 1];
      var e := es[|es| - 1];
      assert forall f :: f in init ==> f in es;
      WritersOutside(init, ns, out, x);
      var kept := if e.src !in ns && e.tgt !in ns then [e] else [];
      WritersAppend(EdgesOutside(init, ns), kept, out, x);
      if kept == [e] {
        assert [e][..0] == [];
      }
    }
  }

  // The node of a finished call can be removed: it is neither marker nor
  // the producer of a recorded output.
  ghost predicate Detached(g: Graph, table: OutputTable, node: NodeId)
  {
    InputNode(g) != Some(node) && OutputNode(g) != Some(node) &&
    forall x :: x in table ==> table[x].0 != node
  }

  // Removing such a node keeps the writers of every object.
  lemma RemoveCallNodeWriters(g: Graph, table: OutputTable, n: NodeId, x: string)
    requires SingleWriter(g, table) && Detached(g, table, n)
    ensures Writers(EdgesOutside(g.edges, {n}), OutputNode(g).value, x) == Writers(g.edges, OutputNode(g).value, x)
  {
    var out := OutputNode(g).value;
    assert Recorded(g.edges, out, table, x);
    forall e | e in g.edges && e.tgt == out && Carries(e, x) ensures e.src !in {n} {
      assert e in Writers(g.edges, out, x);
    }
    WritersOutside(g.edges, {n}, out, x);
  }

  // Removing such a node keeps the single-writer invariant.
  lemma RemoveCallNodeKeeps(g: Graph, table: OutputTable, n: NodeId)
    requires SingleWriter(g, table) && Detached(g, table, n)
    ensures SingleWriter(RemoveNodes(g, [n]), table)
  {
    var r := RemoveNodes(g, [n]);
    var out := OutputNode(g).value;
    RemoveNodesValid(g, [n]);
    assert Members([n]) == {n};
    assert r.edges == EdgesOutside(g.edges, {n});
    assert OutputNode(r) == OutputNode(g) && InputNode(r) == InputNode(g);
    forall x ensures Recorded(r.edges, out, table, x) {
      RemoveCallNodeWriters(g, table, n, x);
      assert Recorded(g.edges, out, table, x);
    }
  }

  /* ---------------- The call stack ---------------- */

  // `_CallContext`: the call event (none at the bottom of the stack), the
  // call's node in the caller's graph, the flow graph nested in that node
  // (none for an atomic call) and the output table of that graph.
  datatype Frame = Frame(event: Option<Event>, node: NodeId, graph: Option<Graph>, table: OutputTable)

  // The bottom of the stack after `reset`: the root flow graph and no call.
  function RootFrame(inToken: string, outToken: string): Frame
  {
    Frame(None, "", Some(NewFlowGraph(inToken, outToken)), map[])
  }

  ghost predicate FrameValid(f: Frame)
  {
    f.graph.Some? ==> SingleWriter(f.graph.value, f.table)
  }

  // f is the frame of a call made in frame p: f's node is a call node of
  // p's graph that has produced no recorded output yet.
  ghost predicate Opened(p: Frame, f: Frame)
  {
    f.event.Some? && p.graph.Some? && f.node in p.graph.value.data && Detached(p.graph.value, p.table, f.node)
  }

  // The invariant of the builder's stack: the bottom frame holds a flow
  // graph and no call, every other frame is a call opened in the frame
  // below it, and every frame keeps the single-writer invariant.
  ghost predicate StackValid(stack: seq<Frame>)
  {
    (forall i :: 0 <= i < |stack| ==> FrameValid(stack[i])) &&
    (|stack| > 0 ==> stack[0].event.None? && stack[0].graph.Some?) &&
    (forall i :: 0 < i < |stack| ==> Opened(stack[i - 1], stack[i]))
  }

  // A new flow graph with an empty output table keeps the single-writer
  // invariant.
  lemma NewFrameValid(inToken: string, outToken: string)
    ensures SingleWriter(NewFlowGraph(inToken, outToken), map[])
  {
    var g := NewFlowGraph(inToken, outToken);
    forall x ensures Recorded(g.edges, OutputNode(g).value, map[], x) {
      assert Writers([], OutputNode(g).value, x) == [];
    }
  }

  lemma RootValid(inToken: string, outToken: string)
    ensures StackValid([RootFrame(inToken, outToken)])
  {
    NewFrameValid(inToken, outToken);
  }

  // Pushing the frame of a call opened in the top frame keeps the stack
  // valid.
  lemma PushFrame(stack: seq<Frame>, f: Frame)
    requires StackValid(stack) && stack != [] && FrameValid(f) && Opened(stack[|stack| - 1], f)
    ensures StackValid(stack + [f])
  {
    var s := stack + [f];
    forall i | 0 < i < |s| ensures Opened(s[i - 1], s[i]) {
      if i < |stack| {
        assert s[i - 1] == stack[i - 1] && s[i] == stack[i];
      }
    }
    forall i | 0 <= i < |s| ensures FrameValid(s[i]) {
      if i < |stack| {
        assert s[i] == stack[i];
      }
    }
  }

  // A frame may be replaced by one for the same call whose graph keeps the
  // single-writer invariant; the frames above it are dropped.
  lemma ReplaceFrame(stack: seq<Frame>, k: nat, f: Frame)
    requires StackValid(stack) && k < |stack|
    requires FrameValid(f) && f.event == stack[k].event && f.node == stack[k].node && f.graph.Some? == stack[k].graph.Some?
    ensures StackValid(stack[..k] + [f])
  {
    var s := stack[..k] + [f];
    forall i | 0 < i < |s| ensures Opened(s[i - 1], s[i]) {
      assert s[i - 1] == stack[i - 1];
      assert Opened(stack[i - 1], stack[i]);
    }
    forall i | 0 <= i < |s| ensures FrameValid(s[i]) {
      if i < k {
        assert s[i] == stack[i];
      }
    }
  }

  // What the caller sees once frame f is popped: its node holds the graph
  // f built (Python stores the graph object itself in the node, so every
  // change made in f shows there).
  function WriteBack(p: Frame, f: Frame): (r: Frame)
    ensures r.event == p.event && r.node == p.node && r.table == p.table && r.graph.Some? == p.graph.Some?
    ensures r.graph.Some? ==> r.graph.value.attrs == p.graph.value.attrs
  {
    if p.graph.Some? && f.graph.Some? then p.(graph := Some(SetNodeAttr(p.graph.value, f.node, "graph", VGraph(f.graph.value))))
    else p
  }

  // The stack once its top frame is popped: the popped call's graph is
  // written back into its caller's frame.
  function Pop(stack: seq<Frame>): (r: seq<Frame>)
    requires |stack| >= 2
    ensures |r| == |stack| - 1 && r[..|stack| - 2] == stack[..|stack| - 2]
    ensures r[|stack| - 2] == WriteBack(stack[|stack| - 2], stack[|stack| - 1])
  {
    stack[..|stack| - 2] + [WriteBack(stack[|stack| - 2], stack[|stack| - 1])]
  }

  lemma WriteBackKeeps(p: Frame, f: Frame, node: NodeId)
    requires FrameValid(p)
    ensures FrameValid(WriteBack(p, f))
    ensures p.graph.Some? && node in p.graph.value.data && Detached(p.graph.value, p.table, node) ==>
              var q := WriteBack(p, f).graph.value; node in q.data && Detached(q, p.table, node)
  {
    if p.graph.Some? && f.graph.Some? {
      SetNodeAttrKeeps(p.graph.value, p.table, f.node, "graph", VGraph(f.graph.value));
    }
  }

  // The graph of the bottom frame with the graph of every open call stored
  // in its node: what `graph` shows while calls are open.
  function Assemble(stack: seq<Frame>): Option<Graph>
    decreases |stack|
  {
    if stack == [] then None
    else if |stack| == 1 then stack[0].graph
    else Assemble(Pop(stack))
  }

  // The top-level graph has the nodes and edges of the bottom frame's
  // graph: open calls only show inside the data of their nodes.
  lemma {:induction false} AssembleShape(stack: seq<Frame>)
    requires stack != [] && stack[0].graph.Some?
    ensures Assemble(stack).Some?
    ensures Assemble(stack).value.nodes == stack[0].graph.value.nodes
    ensures Assemble(stack).value.edges == stack[0].graph.value.edges
    ensures Assemble(stack).value.attrs == stack[0].graph.value.attrs
    decreases |stack|
  {
    if |stack| > 1 {
      var u := Pop(stack);
      assert u[0] == (if |stack| == 2 then WriteBack(stack[0], stack[1]) else stack[0]);
      AssembleShape(u);
    }
  }

  /* ---------------- Call events ---------------- */

  // The name of a call's node: its qualified name and a random token.
  function CallNodeName(e: Event, token: string): NodeId
  {
    GraphUtil.NodeName(token, Some(e.qualName), None)
  }

  // The random name of a call node is new to the graph it joins.
  predicate NameIsNew(stack: seq<Frame>, e: Event, token: string)
  {
    stack != [] && stack[|stack| - 1].graph.Some? ==> CallNodeName(e, token) !in stack[|stack| - 1].graph.value.data
  }

  // The input ports: each argument under its own name.
  function InputPorts(args: seq<(string, PyObj)>): (r: seq<(PortRef, string)>)
    ensures |r| == |args| && forall i :: 0 <= i < |args| ==> r[i] == (ArgPort(args[i].0), args[i].0)
  {
    seq(|args|, i requires 0 <= i < |args| => (ArgPort(args[i].0), args[i].0))
  }

  // `_get_ports_data(event, names, annotation, {'portkind': kind})`.
  function PortsOf(e: Event, names: seq<(PortRef, string)>, annotation: Value, kind: string): Result<seq<(string, Value)>>
  {
    var t := PortsTable(e, annotation);
    if t.Err? then Err(t.error) else Ok(PortsFold(e, kind, names, t.value))
  }

  // The key of the function's annotation; none when there is no annotation.
  function NoteKey(note: seq<(string, Value)>): Result<Option<string>>
  {
    if note == [] then Ok(None)
    else
      var k := AnnotationKey(note);
      if k.Err? then Err(k.error) else Ok(Some(k.value))
  }

  // The data `_add_call_node` gives a call node.
  function CallNodeData(e: Event, ports: seq<(string, Value)>, key: Option<string>): Attrs
  {
    var d := map["module" := VStr(e.moduleName), "qual_name" := VStr(e.qualName), "ports" := VDict(ports)];
    if key.Some? then d["annotation" := VStr(key.value)] else d
  }

  // The call node's data, with the nested graph stored when there is one.
  lemma CallNodeDataSpec(e: Event, ports: seq<(string, Value)>, key: Option<string>, nested: Option<Graph>)
    ensures var d0 := CallNodeData(e, ports, key);
            var d := if nested.Some? then d0["graph" := VGraph(nested.value)] else d0;
            "module" in d && d["module"] == VStr(e.moduleName) &&
            "qual_name" in d && d["qual_name"] == VStr(e.qualName) &&
            "ports" in d && d["ports"] == VDict(ports) &&
            ("annotation" in d <==> key.Some?) && (key.Some? ==> d["annotation"] == VStr(key.value)) &&
            ("graph" in d <==> nested.Some?) && (nested.Some? ==> d["graph"] == VGraph(nested.value))
  {
    assert "graph"[0] != "module"[0] && "graph"[0] != "qual_name"[0] && "graph"[0] != "ports"[0] && "graph"[0] != "annotation"[0];
    assert "annotation"[0] != "module"[0] && "annotation"[0] != "qual_name"[0] && "annotation"[0] != "ports"[0];
  }

  // The caller's graph after a call: the call node with its data, an input
  // edge for each tracked argument and each tracked object hidden in an
  // argument, and the nested flow graph of a call that is not atomic.
  function CallGraph(g: Graph, table: OutputTable, e: Event, node: NodeId, data: Attrs, nested: Option<Graph>): Graph
    requires InputNode(g).Some?
  {
    var g0 := AddNode(g, node, data);
    var g1 := AddLinks(g0, node, InLinks(table, e, InputNode(g).value, ArgObjects(e.arguments)));
    if nested.Some? then SetNodeAttr(g1, node, "graph", VGraph(nested.value)) else g1
  }

  // The frames after a call event: the call node joins the innermost open
  // graph and the call's own frame is pushed.
  method CallFrames(stack: seq<Frame>, e: Event, token: string, inToken: string, outToken: string) returns (r: Result<seq<Frame>>)
    requires StackValid(stack)
    ensures r == CallStep(stack, e, token, inToken, outToken)
  {
    if stack == [] {
      return Err(IndexError);
    }
    var top := stack[|stack| - 1];
    var ports := PortsData(e, InputPorts(e.arguments), Field(e.note, "domain"), "input");
    assert ports == PortsOf(e, InputPorts(e.arguments), Field(e.note, "domain"), "input");
    if ports.Err? {
      return Err(ports.error);
    }
    var key := NoteKey(e.note);
    if key.Err? {
      return Err(key.error);
    }
    if top.graph.None? {
      return Err(AttributeError);
    }
    assert FrameValid(top);
    var node := CallNodeName(e, token);
    var nested: Option<Graph> := None;
    if !e.atomic {
      nested := Some(NewFlowGraph(inToken, outToken));
    }
    var g := AddCallNode(top.graph.value, top.table, e, node, CallNodeData(e, ports.value, key.value), nested);
    r := Ok(stack[..|stack| - 1] + [top.(graph := Some(g)), Frame(Some(e), node, nested, map[])]);
  }

  // The call node joins g with its input edges and, unless the call is
  // atomic, its nested graph.
  method AddCallNode(g: Graph, table: OutputTable, e: Event, node: NodeId, data: Attrs, nested: Option<Graph>) returns (h: Graph)
    requires InputNode(g).Some?
    ensures h == CallGraph(g, table, e, node, data, nested)
  {
    h := AddNode(g, node, data);
    assert InputNode(h) == InputNode(g);
    h := AddCallInEdges(h, table, e, node);
    if nested.Some? {
      h := SetNodeAttr(h, node, "graph", VGraph(nested.value));
    }
  }

  // `_push_call_event`: the call node, with its input ports and annotation
  // key, joins the graph of the innermost open call with its input edges;
  // a call that is not atomic gets a new nested flow graph; the call's
  // frame is pushed.
  function CallStep(stack: seq<Frame>, e: Event, token: string, inToken: string, outToken: string): Result<seq<Frame>>
    requires StackValid(stack)
  {
    if stack == [] then Err(IndexError)
    else
      var top := stack[|stack| - 1];
      var ports := PortsOf(e, InputPorts(e.arguments), Field(e.note, "domain"), "input");
      var key := NoteKey(e.note);
      if ports.Err? then Err(ports.error)
      else if key.Err? then Err(key.error)
      else if top.graph.None? then Err(AttributeError)
      else
        assert FrameValid(top);
        var node := CallNodeName(e, token);
        var nested := if e.atomic then None else Some(NewFlowGraph(inToken, outToken));
        var h := CallGraph(top.graph.value, top.table, e, node, CallNodeData(e, ports.value, key.value), nested);
        Ok(stack[..|stack| - 1] + [top.(graph := Some(h)), Frame(Some(e), node, nested, map[])])
  }

  /* ---------------- Return events ---------------- */

  predicate IsAccessor(e: Event)
  {
    e.name == "__getattr__" || e.name == "__getattribute__"
  }

  // `_update_call_node_for_return` and the registrations of
  // `_push_return_event`, in the caller's frame p: an accessor that
  // returned a bound method loses its node; any other accessor records the
  // attribute name as the node's slot; the output ports join the node's
  // ports; each output is registered. What was done before an error stays.
  function ReturnToCaller(p: Frame, e: Event, node: NodeId, slots: Option<SlotNames>): (r: (Result<()>, Frame))
    requires p.graph.Some? ==> OutputNode(p.graph.value).Some?
    ensures r.1.event == p.event && r.1.node == p.node && r.1.graph.Some? == p.graph.Some?
  {
    if p.graph.None? then (Err(AttributeError), p)
    else if node !in p.graph.value.data then (Err(KeyError), p)
    else
      var g := p.graph.value;
      if IsAccessor(e) && e.returnValue.isMethod then (Ok(()), p.(graph := Some(RemoveNodes(g, [node]))))
      else if IsAccessor(e) && |e.arguments| < 2 then (Err(IndexError), p)
      else
        var g1 := if IsAccessor(e) then SetNodeAttr(g, node, "slot", e.arguments[1].1.raw) else g;
        var p1 := p.(graph := Some(g1));
        var ms := Impure(e, e.note, e.arguments);
        if ms.Err? then (Err(ms.error), p1)
        else if "ports" !in g1.data[node] then (Err(KeyError), p1)
        else if !g1.data[node]["ports"].VDict? then (Err(AttributeError), p1)
        else
          var ports := PortsOf(e, ReturnPorts(e.returnValue) + MutatedPorts(ms.value), Field(e.note, "codomain"), "output");
          if ports.Err? then (Err(ports.error), p1)
          else
            var g2 := SetNodeAttr(g1, node, "ports", VDict(DictUpdate(g1.data[node]["ports"].entries, ports.value)));
            var (h, t, r) := SetOutputs(g2, p.table, node, OutputSteps(e), slots);
            (r, p.(graph := Some(h), table := t))
  }

  // `_push_return_event`: the top frame is popped, whatever happens next;
  // the return must match its call; then the caller's frame is updated.
  function ReturnStep(stack: seq<Frame>, e: Event, slots: Option<SlotNames>): (Result<()>, seq<Frame>)
    requires StackValid(stack)
  {
    if stack == [] then (Err(IndexError), stack)
    else
      var n := |stack|;
      var f := stack[n - 1];
      var rest := if n == 1 then [] else Pop(stack);
      if f.event.None? then (Err(AttributeError), rest)
      else if FullName(f.event.value) != FullName(e) then (Err(RuntimeError("Mismatched trace events")), rest)
      else if n == 1 then (Err(IndexError), rest)
      else
        assert FrameValid(stack[n - 2]);
        var (r, p) := ReturnToCaller(WriteBack(stack[n - 2], f), e, f.node, slots);
        (r, stack[..n - 2] + [p])
  }

  // `push_event`.
  function EventStep(stack: seq<Frame>, e: Event, token: string, inToken: string, outToken: string, slots: Option<SlotNames>)
    : (Result<()>, seq<Frame>)
    requires StackValid(stack)
  {
    match e.kind
    case Call =>
      var c := CallStep(stack, e, token, inToken, outToken);
      if c.Err? then (Err(c.error), stack) else (Ok(()), c.value)
    case Return => ReturnStep(stack, e, slots)
    case OtherEvent => (Err(TypeError), stack)
  }

  /* ---------------- Properties of the stack machine ---------------- */

  // Every registration of a return is a Put of a tracked object, once
  // `is_pure` has answered for every argument.
  lemma OutputStepsTracked(e: Event)
    requires Impure(e, e.note, e.arguments).Ok?
    ensures forall k :: 0 <= k < |OutputSteps(e)| ==> PutsTracked(OutputSteps(e)[k])
  {
    ImpureAnswers(e, e.note, e.arguments);
    MutatedStepsPut(e, e.arguments, 0);
    if e.returnValue.items.Some? {
      TupleStepsPut(e.returnValue.items.value, 0);
    }
    var rs := ReturnSteps(e.returnValue);
    var ms := MutatedSteps(e, e.arguments, 0);
    forall k | 0 <= k < |rs + ms| ensures PutsTracked((rs + ms)[k]) {
      if k < |rs| {
        assert (rs + ms)[k] == rs[k];
      } else {
        assert (rs + ms)[k] == ms[k - |rs|];
      }
    }
  }

  // Adding a new call node keeps the single-writer invariant and leaves
  // the node detached; the graph gains the node, its data and the input
  // edges InLink finds, after the old edges.
  lemma CallGraphSpec(g: Graph, table: OutputTable, e: Event, node: NodeId, data: Attrs, nested: Option<Graph>)
    requires SingleWriter(g, table) && node !in g.data
    ensures var h := CallGraph(g, table, e, node, data, nested);
            SingleWriter(h, table) && node in h.data && Detached(h, table, node) &&
            h.nodes == g.nodes + [node] && h.attrs == g.attrs &&
            (forall m :: m in g.data ==> m in h.data && h.data[m] == g.data[m]) &&
            h.data[node] == (if nested.Some? then data["graph" := VGraph(nested.value)] else data) &&
            Extends(g.edges, h.edges, node, InLinks(table, e, InputNode(g).value, ArgObjects(e.arguments)))
  {
    var g0 := AddNode(g, node, data);
    AddNodeKeeps(g, table, node, data);
    ProducersAreNodes(g, table);
    var links := InLinks(table, e, InputNode(g).value, ArgObjects(e.arguments));
    InLinksSources(table, e, InputNode(g).value, ArgObjects(e.arguments), g0.data);
    AddLinksKeep(g0, table, node, links);
    AddLinksSpec(g0, node, links);
    if nested.Some? {
      SetNodeAttrKeeps(AddLinks(g0, node, links), table, node, "graph", VGraph(nested.value));
    }
  }

  // A call keeps the stack valid: the caller's graph keeps the
  // single-writer invariant, and the pushed frame is a call of the caller
  // that has produced nothing yet.
  lemma CallKeepsValid(stack: seq<Frame>, e: Event, token: string, inToken: string, outToken: string)
    requires StackValid(stack) && NameIsNew(stack, e, token) && CallStep(stack, e, token, inToken, outToken).Ok?
    ensures StackValid(CallStep(stack, e, token, inToken, outToken).value)
  {
    CallPushes(stack, e, token, inToken, outToken);
    var n := |stack|;
    var top := stack[n - 1];
    var data := CallNodeData(e, PortsOf(e, InputPorts(e.arguments), Field(e.note, "domain"), "input").value, NoteKey(e.note).value);
    var node := CallNodeName(e, token);
    var nested := if e.atomic then None else Some(NewFlowGraph(inToken, outToken));
    var h := CallGraph(top.graph.value, top.table, e, node, data, nested);
    assert FrameValid(top);
    CallGraphSpec(top.graph.value, top.table, e, node, data, nested);
    NewFrameValid(inToken, outToken);
    PushCallFrame(stack, top.(graph := Some(h)), Frame(Some(e), node, nested, map[]));
    assert CallStep(stack, e, token, inToken, outToken).value == stack[..n - 1] + [top.(graph := Some(h)), Frame(Some(e), node, nested, map[])];
  }

  // Replacing the top frame by one for the same call and pushing a call
  // opened in it keeps the stack valid.
  lemma PushCallFrame(stack: seq<Frame>, top: Frame, f: Frame)
    requires StackValid(stack) && stack != []
    requires FrameValid(top) && top.event == stack[|stack| - 1].event && top.node == stack[|stack| - 1].node
    requires top.graph.Some? && stack[|stack| - 1].graph.Some?
    requires FrameValid(f) && Opened(top, f)
    ensures StackValid(stack[..|stack| - 1] + [top, f])
  {
    var n := |stack|;
    ReplaceFrame(stack, n - 1, top);
    var s1 := stack[..n - 1] + [top];
    PushFrame(s1, f);
    assert s1 + [f] == stack[..n - 1] + [top, f];
  }

  // The stack after a call: the caller's frame with its graph updated by
  // CallGraph, and the call's own frame, holding the nested flow graph of
  // a call that is not atomic and an empty output table, on top.
  lemma CallPushes(stack: seq<Frame>, e: Event, token: string, inToken: string, outToken: string)
    requires StackValid(stack) && CallStep(stack, e, token, inToken, outToken).Ok?
    ensures var s := CallStep(stack, e, token, inToken, outToken).value;
            var n := |stack|;
            var top := stack[n - 1];
            var node := CallNodeName(e, token);
            var nested := if e.atomic then None else Some(NewFlowGraph(inToken, outToken));
            var data := CallNodeData(e, PortsOf(e, InputPorts(e.arguments), Field(e.note, "domain"), "input").value, NoteKey(e.note).value);
            |s| == n + 1 && s[..n - 1] == stack[..n - 1] && s[n] == Frame(Some(e), node, nested, map[]) &&
            top.graph.Some? && InputNode(top.graph.value).Some? &&
            s[n - 1] == top.(graph := Some(CallGraph(top.graph.value, top.table, e, node, data, nested)))
  {
    assert FrameValid(stack[|stack| - 1]);
  }

  // The call node joins the caller's graph with its module, qualified
  // name, input ports and annotation key, and with its nested flow graph
  // when the call is not atomic; the old nodes keep their data, the old
  // edges stay in place, and the new edges, one per link InLink finds for
  // the argument objects, all end at the call node.
  lemma CallGraphShape(g: Graph, table: OutputTable, e: Event, node: NodeId, ports: seq<(string, Value)>, key: Option<string>,
                       nested: Option<Graph>)
    requires SingleWriter(g, table) && node !in g.data
    ensures var h := CallGraph(g, table, e, node, CallNodeData(e, ports, key), nested);
            h.nodes == g.nodes + [node] && h.attrs == g.attrs &&
            (forall m :: m in g.data ==> m in h.data && h.data[m] == g.data[m]) &&
            node in h.data &&
            var d := h.data[node];
            "module" in d && d["module"] == VStr(e.moduleName) && "qual_name" in d && d["qual_name"] == VStr(e.qualName) &&
            "ports" in d && d["ports"] == VDict(ports) &&
            ("annotation" in d <==> key.Some?) && (key.Some? ==> d["annotation"] == VStr(key.value)) &&
            ("graph" in d <==> nested.Some?) && (nested.Some? ==> d["graph"] == VGraph(nested.value)) &&
            Extends(g.edges, h.edges, node, InLinks(table, e, InputNode(g).value, ArgObjects(e.arguments)))
  {
    CallGraphSpec(g, table, e, node, CallNodeData(e, ports, key), nested);
    CallNodeDataSpec(e, ports, key, nested);
  }

  // The caller's frame stays valid whatever the return does, as long as
  // the returning call's node is detached from its markers and table.
  lemma ReturnToCallerKeeps(p: Frame, e: Event, node: NodeId, slots: Option<SlotNames>)
    requires FrameValid(p) && FreshSlots(slots)
    requires p.graph.Some? && node in p.graph.value.data ==> Detached(p.graph.value, p.table, node)
    ensures var q := ReturnToCaller(p, e, node, slots).1;
            FrameValid(q) && q.event == p.event && q.node == p.node && q.graph.Some? == p.graph.Some?
  {
    if p.graph.Some? && node in p.graph.value.data {
      var g := p.graph.value;
      if IsAccessor(e) && e.returnValue.isMethod {
        RemoveCallNodeKeeps(g, p.table, node);
      } else if !(IsAccessor(e) && |e.arguments| < 2) {
        if IsAccessor(e) {
          SetNodeAttrKeeps(g, p.table, node, "slot", e.arguments[1].1.raw);
        }
        var g1 := if IsAccessor(e) then SetNodeAttr(g, node, "slot", e.arguments[1].1.raw) else g;
        var ms := Impure(e, e.note, e.arguments);
        if ms.Ok? && "ports" in g1.data[node] && g1.data[node]["ports"].VDict? {
          var ports := PortsOf(e, ReturnPorts(e.returnValue) + MutatedPorts(ms.value), Field(e.note, "codomain"), "output");
          if ports.Ok? {
            var v := VDict(DictUpdate(g1.data[node]["ports"].entries, ports.value));
            SetNodeAttrKeeps(g1, p.table, node, "ports", v);
            OutputStepsTracked(e);
            SetOutputsSpec(SetNodeAttr(g1, node, "ports", v), p.table, node, OutputSteps(e), slots);
          }
        }
      }
    }
  }

  // A return keeps the stack valid.
  lemma ReturnKeepsValid(stack: seq<Frame>, e: Event, slots: Option<SlotNames>)
    requires StackValid(stack) && FreshSlots(slots)
    ensures StackValid(ReturnStep(stack, e, slots).1)
  {
    var n := |stack|;
    if n > 1 {
      var f := stack[n - 1];
      var p := WriteBack(stack[n - 2], f);
      assert FrameValid(stack[n - 2]) && Opened(stack[n - 2], f);
      WriteBackKeeps(stack[n - 2], f, f.node);
      ReplaceFrame(stack, n - 2, p);
      if f.event.Some? && FullName(f.event.value) == FullName(e) {
        ReturnToCallerKeeps(p, e, f.node, slots);
        ReplaceFrame(stack, n - 2, ReturnToCaller(p, e, f.node, slots).1);
        assert (stack[..n - 2] + [p])[..n - 2] == stack[..n - 2];
      }
    }
  }

  // A return that matches the open call, with a caller below it: the
  // popped call's graph is written back into the caller's frame, which
  // ReturnToCaller then updates.
  lemma ReturnMatched(stack: seq<Frame>, e: Event, slots: Option<SlotNames>)
    requires StackValid(stack) && |stack| >= 2
    requires stack[|stack| - 1].event.Some? && FullName(stack[|stack| - 1].event.value) == FullName(e)
    ensures FrameValid(stack[|stack| - 2]) && Opened(stack[|stack| - 2], stack[|stack| - 1])
    ensures var n := |stack|;
            var c := ReturnToCaller(WriteBack(stack[n - 2], stack[n - 1]), e, stack[n - 1].node, slots);
            ReturnStep(stack, e, slots).0 == c.0 && ReturnStep(stack, e, slots).1 == stack[..n - 2] + [c.1]
  {
    assert FrameValid(stack[|stack| - 2]) && Opened(stack[|stack| - 2], stack[|stack| - 1]);
  }

  // A return pops the top frame, whatever happens next, and leaves the
  // frames below the caller's alone; a return of another function than
  // the open call raises RuntimeError, and popping the root frame
  // AttributeError.
  lemma ReturnPops(stack: seq<Frame>, e: Event, slots: Option<SlotNames>)
    requires StackValid(stack) && stack != []
    ensures var (r, s) := ReturnStep(stack, e, slots);
            var n := |stack|;
            var f := stack[n - 1];
            |s| == n - 1 &&
            (n >= 2 ==> s[..n - 2] == stack[..n - 2] && s[n - 2].event == stack[n - 2].event && s[n - 2].node == stack[n - 2].node) &&
            (f.event.None? ==> r == Err(AttributeError) && s == []) &&
            (f.event.Some? && FullName(f.event.value) != FullName(e) ==> r == Err(RuntimeError("Mismatched trace events")))
  {
    if |stack| >= 2 {
      var n := |stack|;
      assert Opened(stack[n - 2], stack[n - 1]) && FrameValid(stack[n - 2]);
    }
  }

  // An accessor (`__getattr__`, `__getattribute__`) that returned a bound
  // method leaves no trace: its node and every edge touching it leave the
  // caller's graph, and the caller's output table is unchanged.
  lemma AccessorMethodRemoves(stack: seq<Frame>, e: Event, slots: Option<SlotNames>)
    requires StackValid(stack) && |stack| >= 2
    requires stack[|stack| - 1].event.Some? && FullName(stack[|stack| - 1].event.value) == FullName(e)
    requires IsAccessor(e) && e.returnValue.isMethod
    ensures var (r, s) := ReturnStep(stack, e, slots);
            var n := |stack|;
            var p := stack[n - 2];
            var node := stack[n - 1].node;
            r == Ok(()) && |s| == n - 1 && s[n - 2].table == p.table && p.graph.Some? && s[n - 2].graph.Some? &&
            (forall m :: m in s[n - 2].graph.value.data <==> m in p.graph.value.data && m != node) &&
            (forall x :: x in s[n - 2].graph.value.edges ==> x.src != node && x.tgt != node)
  {
    var n := |stack|;
    var f := stack[n - 1];
    ReturnMatched(stack, e, slots);
    var p := WriteBack(stack[n - 2], f);
    WriteBackKeeps(stack[n - 2], f, f.node);
    assert Members([f.node]) == {f.node};
    assert |stack[..n - 2] + [ReturnToCaller(p, e, f.node, slots).1]| == n - 1;
  }

  // In the caller's frame: a return other than an accessor returning a
  // method fails only when the node cannot take the output ports, and
  // registering the outputs never fails.
  lemma ReturnToCallerSucceeds(p: Frame, e: Event, node: NodeId, slots: Option<SlotNames>)
    requires FrameValid(p) && p.graph.Some? && node in p.graph.value.data && Detached(p.graph.value, p.table, node)
    requires FreshSlots(slots)
    requires !(IsAccessor(e) && e.returnValue.isMethod)
    ensures var d := p.graph.value.data[node];
            ReturnToCaller(p, e, node, slots).0.Ok? <==>
              (IsAccessor(e) ==> |e.arguments| >= 2) && Impure(e, e.note, e.arguments).Ok? &&
              "ports" in d && d["ports"].VDict? && PortsTable(e, Field(e.note, "codomain")).Ok?
  {
    var g := p.graph.value;
    if !(IsAccessor(e) && |e.arguments| < 2) {
      var g1 := if IsAccessor(e) then SetNodeAttr(g, node, "slot", e.arguments[1].1.raw) else g;
      assert "slot"[0] != "ports"[0];
      assert "ports" in g1.data[node] <==> "ports" in g.data[node];
      assert "ports" in g.data[node] ==> g1.data[node]["ports"] == g.data[node]["ports"];
      var ms := Impure(e, e.note, e.arguments);
      if ms.Ok? && "ports" in g1.data[node] && g1.data[node]["ports"].VDict? {
        var ports := PortsOf(e, ReturnPorts(e.returnValue) + MutatedPorts(ms.value), Field(e.note, "codomain"), "output");
        if ports.Ok? {
          var v := VDict(DictUpdate(g1.data[node]["ports"].entries, ports.value));
          if IsAccessor(e) {
            SetNodeAttrKeeps(g, p.table, node, "slot", e.arguments[1].1.raw);
          }
          SetNodeAttrKeeps(g1, p.table, node, "ports", v);
          OutputStepsTracked(e);
          SetOutputsSpec(SetNodeAttr(g1, node, "ports", v), p.table, node, OutputSteps(e), slots);
        }
      }
    }
  }

  // On success the output table records each registered object as an
  // output of the node, unless it also turned up as a slot value, records
  // each trackable slot value beneath them at the node or a new slot node,
  // and keeps its other entries.
  lemma ReturnToCallerTable(p: Frame, e: Event, node: NodeId, slots: Option<SlotNames>)
    requires FrameValid(p) && p.graph.Some? && node in p.graph.value.data && Detached(p.graph.value, p.table, node)
    requires !(IsAccessor(e) && e.returnValue.isMethod) && FreshSlots(slots)
    ensures var (r, q) := ReturnToCaller(p, e, node, slots);
            var steps := OutputSteps(e);
            r.Ok? ==> RecordsOutputs(p.graph.value, p.table, q.table, node, PutIds(steps), StepSlotIds(steps, slots))
  {
    var g := p.graph.value;
    if !(IsAccessor(e) && |e.arguments| < 2) {
      var g1 := if IsAccessor(e) then SetNodeAttr(g, node, "slot", e.arguments[1].1.raw) else g;
      var ms := Impure(e, e.note, e.arguments);
      if ms.Ok? && "ports" in g1.data[node] && g1.data[node]["ports"].VDict? {
        var ports := PortsOf(e, ReturnPorts(e.returnValue) + MutatedPorts(ms.value), Field(e.note, "codomain"), "output");
        if ports.Ok? {
          var v := VDict(DictUpdate(g1.data[node]["ports"].entries, ports.value));
          if IsAccessor(e) {
            SetNodeAttrKeeps(g, p.table, node, "slot", e.arguments[1].1.raw);
          }
          SetNodeAttrKeeps(g1, p.table, node, "ports", v);
          OutputStepsTracked(e);
          var steps := OutputSteps(e);
          var g2 := SetNodeAttr(g1, node, "ports", v);
          SetOutputsSpec(g2, p.table, node, steps, slots);
          RecordsSameNodes(g2, g, p.table, SetOutputs(g2, p.table, node, steps, slots).1, node, PutIds(steps), StepSlotIds(steps, slots));
        }
      }
    }
  }


  // A matching return, other than an accessor returning a method, fails
  // only when the call's node cannot take the output ports: an accessor
  // without an attribute name, an error of `is_pure`, no port dictionary,
  // or a malformed codomain annotation. Registering the outputs never
  // fails. On success the caller's output table records each registered
  // object, and each trackable slot value beneath it, as RecordsOutputs
  // says.
  lemma ReturnRegisters(stack: seq<Frame>, e: Event, slots: Option<SlotNames>)
    requires StackValid(stack) && |stack| >= 2
    requires stack[|stack| - 1].event.Some? && FullName(stack[|stack| - 1].event.value) == FullName(e)
    requires !(IsAccessor(e) && e.returnValue.isMethod) && FreshSlots(slots)
    ensures var (r, s) := ReturnStep(stack, e, slots);
            var n := |stack|;
            var node := stack[n - 1].node;
            var p := stack[n - 2];
            var steps := OutputSteps(e);
            p.graph.Some? && node in p.graph.value.data && |s| == n - 1 &&
            var d := p.graph.value.data[node];
            (r.Ok? <==> (IsAccessor(e) ==> |e.arguments| >= 2) && Impure(e, e.note, e.arguments).Ok? &&
                        "ports" in d && d["ports"].VDict? && PortsTable(e, Field(e.note, "codomain")).Ok?) &&
            (r.Ok? ==> RecordsOutputs(p.graph.value, p.table, s[n - 2].table, node, PutIds(steps), StepSlotIds(steps, slots)))
  {
    var n := |stack|;
    var f := stack[n - 1];
    ReturnMatched(stack, e, slots);
    var p := WriteBack(stack[n - 2], f);
    WriteBackKeeps(stack[n - 2], f, f.node);
    var d := stack[n - 2].graph.value.data[f.node];
    assert p.graph.value.data[f.node] == d || p.graph.value.data[f.node] == d["graph" := VGraph(f.graph.value)];
    ReturnToCallerSucceeds(p, e, f.node, slots);
    ReturnToCallerTable(p, e, f.node, slots);
    var (r, q) := ReturnToCaller(p, e, f.node, slots);
    var steps := OutputSteps(e);
    assert ReturnStep(stack, e, slots).1[n - 2] == q;
    if r.Ok? {
      RecordsSameNodes(p.graph.value, stack[n - 2].graph.value, p.table, q.table, f.node, PutIds(steps), StepSlotIds(steps, slots));
    }
  }

  // RecordsOutputs depends on the graph only through its node names.
  lemma RecordsSameNodes(g: Graph, g1: Graph, table: OutputTable, t: OutputTable, node: NodeId, puts: set<string>, found: set<string>)
    requires RecordsOutputs(g, table, t, node, puts, found)
    requires forall m :: m in g.data <==> m in g1.data
    ensures RecordsOutputs(g1, table, t, node, puts, found)
  {
  }

  /* ---------------- The builder ---------------- */

  // `_update_call_node_for_return` and the output registrations of
  // `_push_return_event`, done on the caller's frame p.
  method FinishCall(p: Frame, e: Event, node: NodeId, slots: Option<SlotNames>) returns (r: Result<()>, q: Frame)
    requires p.graph.Some? ==> OutputNode(p.graph.value).Some?
    ensures (r, q) == ReturnToCaller(p, e, node, slots)
  {
    if p.graph.None? {
      return Err(AttributeError), p;
    }
    var g := p.graph.value;
    if node !in g.data {
      return Err(KeyError), p;
    }
    if IsAccessor(e) {
      if e.returnValue.isMethod {
        return Ok(()), p.(graph := Some(RemoveNodes(g, [node])));
      }
      if |e.arguments| < 2 {
        return Err(IndexError), p;
      }
      g := SetNodeAttr(g, node, "slot", e.arguments[1].1.raw);
    }
    q := p.(graph := Some(g));
    var names := OutputPortNames(e, e.note);
    if names.Err? {
      return Err(names.error), q;
    }
    var d := g.data[node];
    if "ports" !in d {
      return Err(KeyError), q;
    }
    if !d["ports"].VDict? {
      return Err(AttributeError), q;
    }
    var ports := PortsData(e, names.value, Field(e.note, "codomain"), "output");
    if ports.Err? {
      return Err(ports.error), q;
    }
    g := SetNodeAttr(g, node, "ports", VDict(DictUpdate(d["ports"].entries, ports.value)));
    var h, t;
    h, t, r := RegisterOutputs(g, p.table, e, node, slots);
    q := p.(graph := Some(h), table := t);
  }

  // `FlowGraphBuilder`: the stack of call contexts. Nested flow graphs are
  // held by their frames while their calls are open and written back into
  // the caller's node when a call returns.
  class FlowGraphBuilder {
    var stack: seq<Frame>
    var storeSlots: bool   // `store_slots`: whether outputs get their annotated slots

    ghost predicate Valid()
      reads this
    {
      StackValid(stack)
    }

    // `__init__`, which calls `reset`.
    constructor(inToken: string, outToken: string, storeSlots: bool)
      ensures Valid() && stack == [RootFrame(inToken, outToken)] && this.storeSlots == storeSlots
    {
      stack := [RootFrame(inToken, outToken)];
      this.storeSlots := storeSlots;
      RootValid(inToken, outToken);
    }

    // The slot-node naming the builder uses: none when `store_slots` is off.
    function SlotsOn(names: SlotNames): Option<SlotNames>
      reads this
    {
      if storeSlots then Some(names) else None
    }

    // `reset`: a single frame holding a new root flow graph.
    method Reset(inToken: string, outToken: string)
      modifies this
      ensures Valid() && stack == [RootFrame(inToken, outToken)] && storeSlots == old(storeSlots)
    {
      stack := [RootFrame(inToken, outToken)];
      RootValid(inToken, outToken);
    }

    // The `graph` property: a copy of the root flow graph, in which each
    // open call's node holds the graph built so far for that call.
    function TopGraph(): Result<Graph>
      reads this
    {
      if stack == [] then Err(IndexError) else Ok(Assemble(stack).GetOr(EmptyGraph(true)))
    }

    // While the root frame is on the stack, the top-level graph has the
    // root graph's nodes, edges and marker attributes.
    lemma TopGraphShape()
      requires Valid() && stack != []
      ensures TopGraph().Ok?
      ensures TopGraph().value.nodes == stack[0].graph.value.nodes
      ensures TopGraph().value.edges == stack[0].graph.value.edges
      ensures TopGraph().value.attrs == stack[0].graph.value.attrs
    {
      AssembleShape(stack);
    }

    // `push_event`: a call or a return; any other event is a TypeError.
    method PushEvent(e: Event, token: string, inToken: string, outToken: string, slotNames: SlotNames) returns (r: Result<()>)
      requires Valid() && (e.kind == Call ==> NameIsNew(stack, e, token)) && (e.kind == Return ==> FreshSlots(SlotsOn(slotNames)))
      modifies this
      ensures Valid() && storeSlots == old(storeSlots)
      ensures (r, stack) == EventStep(old(stack), e, token, inToken, outToken, SlotsOn(slotNames))
    {
      match e.kind {
        case Call =>
          r := PushCall(e, token, inToken, outToken);
        case Return =>
          r := PushReturn(e, slotNames);
        case OtherEvent =>
          r := Err(TypeError);
      }
    }

    // `_push_call_event`: a node for the call, with its input ports and
    // input edges, joins the innermost open graph; the call's frame is
    // pushed, with a new nested flow graph unless the call is atomic.
    method PushCall(e: Event, token: string, inToken: string, outToken: string) returns (r: Result<()>)
      requires Valid() && NameIsNew(stack, e, token)
      modifies this
      ensures Valid() && storeSlots == old(storeSlots)
      ensures var c := CallStep(old(stack), e, token, inToken, outToken);
              if c.Err? then r == Err(c.error) && stack == old(stack) else r == Ok(()) && stack == c.value
    {
      var c := CallFrames(stack, e, token, inToken, outToken);
      if c.Err? {
        return Err(c.error);
      }
      CallKeepsValid(stack, e, token, inToken, outToken);
      stack := c.value;
      r := Ok(());
    }

    // `_push_return_event`: the top frame is popped, and its graph written
    // back into its caller's node; the return must match the popped call;
    // then the caller's frame records the outputs.
    method PushReturn(e: Event, slotNames: SlotNames) returns (r: Result<()>)
      requires Valid() && FreshSlots(SlotsOn(slotNames))
      modifies this
      ensures Valid() && storeSlots == old(storeSlots)
      ensures (r, stack) == ReturnStep(old(stack), e, SlotsOn(slotNames))
    {
      var slots := SlotsOn(slotNames);
      ReturnKeepsValid(stack, e, slots);
      if stack == [] {
        return Err(IndexError);
      }
      var n := |stack|;
      var f := stack[n - 1];
      if n == 1 {
        stack := [];
      } else {
        assert FrameValid(stack[n - 2]);
        stack := Pop(stack);
      }
      if f.event.None? {
        return Err(AttributeError);
      }
      if FullName(f.event.value) != FullName(e) {
        return Err(RuntimeError("Mismatched trace events"));
      }
      if n == 1 {
        return Err(IndexError);
      }
      var q;
      r, q := FinishCall(stack[n - 2], e, f.node, slots);
      stack := stack[..n - 2] + [q];
    }
  }
}
