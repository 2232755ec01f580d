// Annotation lookup for Python functions and types (`Annotator`): the
// precedence order on annotations, best-annotation resolution over a type's
// method resolution order, and the two lookup caches. The annotation
// database, the method resolution order and `issubclass` are parameters.
module Annotations {
  import opened Base
  import opened Graphs
  import Slots

  // A Python class, by module and name.
  datatype PyType = PyType(moduleName: string, name: string)

  // What the annotator may be handed: a plain function, a method bound to a
  // class (a class method) or to an instance, or anything else.
  datatype Bound = ClassObject(cls: PyType) | Instance(cls: PyType)
  datatype Callable =
    | PlainFunction(fullName: string)
    | BoundMethod(fullName: string, name: string, self: Bound)
    | NotCallable

  // The outside world: `inspect.getmro`, `issubclass(sub, sup)`, the
  // documents `db.filter(query)` yields, and `db.get(query)` for a
  // primary-key query.
  datatype Env = Env(mro: PyType -> seq<PyType>, isSubclass: (PyType, PyType) -> bool,
                     filter: seq<(string, Value)> -> seq<Value>, getByKey: Value -> Result<Option<Value>>)

  // `_get_type_key(type)`: module, a dot and the class name.
  function TypeKey(t: PyType): string
  {
    t.moduleName + "." + t.name
  }

  // The first dotted component of a name (`name.split('.')[0]`).
  function Package(dotted: string): (r: string)
    ensures '.' !in r
  {
    var parts := Slots.Split(dotted);
    assert '.' !in parts[0];
    parts[0]
  }

  // The package of a dotted name is the part before its first dot.
  lemma PackageOfDotted(p: string, q: string)
    requires '.' !in p
    ensures Package(p + "." + q) == p
  {
    Slots.SplitAppend(p, q);
    Slots.SplitNoDot(p);
  }

  /* ---------------- Annotation classes and precedence ---------------- */

  // `_get_annotation_classes(note)`: no `class` entry gives no classes, a
  // string one class, anything else is returned as it is and iterated by
  // the callers: a list as its items, a dictionary as its keys, a graph as
  // its nodes. Indexing a note that is not a dictionary, or iterating a
  // class entry that is none of these, raises TypeError.
  function AnnotationClasses(note: Value): Result<seq<Value>>
  {
    if !note.VDict? then Err(TypeError)
    else match DictGet(note.entries, "class")
      case None => Ok([])
      case Some(VStr(s)) => Ok([VStr(s)])
      case Some(VList(xs)) => Ok(xs)
      case Some(VDict(es)) => Ok(Strings(DictKeys(es)))
      case Some(VGraph(g)) => Ok(Strings(g.nodes))
      case Some(_) => Err(TypeError)
  }

  // The keys of a dictionary, in order.
  function DictKeys(es: seq<(string, Value)>): (r: seq<string>)
    ensures |r| == |es| && forall i :: 0 <= i < |es| ==> r[i] == es[i].0
  {
    if es == [] then [] else [es[0].0] + DictKeys(es[1..])
  }

  // Strings as values.
  function Strings(ss: seq<string>): (r: seq<Value>)
    ensures |r| == |ss| && forall i :: 0 <= i < |ss| ==> r[i] == VStr(ss[i])
  {
    if ss == [] then [] else [VStr(ss[0])] + Strings(ss[1..])
  }

  // A dictionary-valued `class` entry names exactly its keys.
  lemma DictClassesAreKeys(note: Value, es: seq<(string, Value)>)
    requires note.VDict? && DictGet(note.entries, "class") == Some(VDict(es))
    ensures AnnotationClasses(note).Ok?
    ensures forall c :: c in AnnotationClasses(note).value <==> c.VStr? && DictGet(es, c.s).Some?
  {
    var cs := AnnotationClasses(note).value;
    forall c ensures c in cs <==> c.VStr? && DictGet(es, c.s).Some? {
      if c in cs {
        var i :| 0 <= i < |cs| && cs[i] == c;
        assert es[i].0 == c.s;
      }
      if c.VStr? && DictGet(es, c.s).Some? {
        var i :| 0 <= i < |es| && es[i].0 == c.s;
        assert cs[i] == c;
      }
    }
  }

  // `set(classes)` needs every class to be hashable: a list or a dictionary
  // among them raises TypeError.
  predicate Hashable(c: Value)
  {
    !c.VList? && !c.VDict?
  }

  // The classes of the note can be read and put in a set.
  predicate Readable(note: Value)
  {
    AnnotationClasses(note).Ok? && forall c :: c in AnnotationClasses(note).value ==> Hashable(c)
  }

  // `set(classes).issubset(subclasses)`: every class is the key of a class
  // of the method resolution order.
  predicate Within(cs: seq<Value>, subs: map<string, PyType>)
  {
    forall c :: c in cs ==> c.VStr? && c.s in subs
  }

  // `issuperclass(c1, c2)` inside `_annotation_le`: both are class keys
  // and the class of c2 is a subclass of the class of c1.
  predicate Superclass(subs: map<string, PyType>, isSubclass: (PyType, PyType) -> bool, c1: Value, c2: Value)
  {
    c1.VStr? && c2.VStr? && c1.s in subs && c2.s in subs && isSubclass(subs[c2.s], subs[c1.s])
  }

  // Class c is a superclass of some class in cs.
  predicate Covered(subs: map<string, PyType>, isSubclass: (PyType, PyType) -> bool, c: Value, cs: seq<Value>)
  {
    exists j :: 0 <= j < |cs| && Superclass(subs, isSubclass, c, cs[j])
  }

  // `_annotation_le(subclasses, first, second)` on the classes of the two
  // annotations: every class of the first is a superclass of some class of
  // the second.
  predicate Le(subs: map<string, PyType>, isSubclass: (PyType, PyType) -> bool, first: seq<Value>, second: seq<Value>)
  {
    forall i :: 0 <= i < |first| ==> Covered(subs, isSubclass, first[i], second)
  }

  // An annotation without classes is below every annotation.
  lemma LeEmpty(subs: map<string, PyType>, isSubclass: (PyType, PyType) -> bool, second: seq<Value>)
    ensures Le(subs, isSubclass, [], second)
  {
  }

  // With a reflexive `issubclass`, every annotation is below itself.
  lemma LeReflexive(subs: map<string, PyType>, isSubclass: (PyType, PyType) -> bool, cs: seq<Value>)
    requires Within(cs, subs) && forall t :: isSubclass(t, t)
    ensures Le(subs, isSubclass, cs, cs)
  {
    forall i | 0 <= i < |cs| ensures Covered(subs, isSubclass, cs[i], cs) {
      assert Superclass(subs, isSubclass, cs[i], cs[i]);
    }
  }

  // With a transitive `issubclass`, the order is transitive.
  lemma LeTransitive(subs: map<string, PyType>, isSubclass: (PyType, PyType) -> bool, a: seq<Value>, b: seq<Value>, c: seq<Value>)
    requires forall x, y, z :: isSubclass(x, y) && isSubclass(y, z) ==> isSubclass(x, z)
    requires Le(subs, isSubclass, a, b) && Le(subs, isSubclass, b, c)
    ensures Le(subs, isSubclass, a, c)
  {
    forall i | 0 <= i < |a| ensures Covered(subs, isSubclass, a[i], c) {
      assert Covered(subs, isSubclass, a[i], b);
      var j :| 0 <= j < |b| && Superclass(subs, isSubclass, a[i], b[j]);
      assert Covered(subs, isSubclass, b[j], c);
      var k :| 0 <= k < |c| && Superclass(subs, isSubclass, b[j], c[k]);
      assert Superclass(subs, isSubclass, a[i], c[k]);
    }
  }

  // The order is a preorder but not antisymmetric: with B a subclass of A,
  // the annotations of classes [A, B] and [B] are each below the other.
  lemma LeNotAntisymmetric()
    ensures var a, b := PyType("m", "A"), PyType("m", "B");
            var subs := map["m.A" := a, "m.B" := b];
            var isSubclass := (x: PyType, y: PyType) => x == y || (x == b && y == a);
            Le(subs, isSubclass, [VStr("m.A"), VStr("m.B")], [VStr("m.B")]) &&
            Le(subs, isSubclass, [VStr("m.B")], [VStr("m.A"), VStr("m.B")]) &&
            [VStr("m.A"), VStr("m.B")] != [VStr("m.B")]
  {
    var a, b := PyType("m", "A"), PyType("m", "B");
    var subs := map["m.A" := a, "m.B" := b];
    var isSubclass := (x: PyType, y: PyType) => x == y || (x == b && y == a);
    var first, second := [VStr("m.A"), VStr("m.B")], [VStr("m.B")];
    assert Superclass(subs, isSubclass, first[0], second[0]);
    assert Superclass(subs, isSubclass, first[1], second[0]);
    assert Superclass(subs, isSubclass, second[0], first[1]);
  }

  /* ---------------- Best annotation ---------------- */

  // `{key(c): c for c in mro}`: the keys in first-occurrence order, each
  // mapped to the last class with that key.
  function Subclasses(mro: seq<PyType>): (r: (seq<string>, map<string, PyType>))
    ensures Distinct(r.0) && forall k :: k in r.0 <==> k in r.1
    ensures forall t :: t in mro ==> TypeKey(t) in r.1
    ensures forall k :: k in r.1 ==> r.1[k] in mro && TypeKey(r.1[k]) == k
  {
    if mro == [] then ([], map[])
    else
      var (keys, subs) := Subclasses(mro[..|mro| - 1]);
      var t := mro[|mro| - 1];
      assert forall u :: u in mro ==> u in mro[..|mro| - 1] || u == t;
      if TypeKey(t) in subs then (keys, subs[TypeKey(t) := t])
      else (keys + [TypeKey(t)], subs[TypeKey(t) := t])
  }

  // `query.update(extra)`: each extra entry is set in turn.
  function Update(query: seq<(string, Value)>, extra: seq<(string, Value)>): (r: seq<(string, Value)>)
    ensures forall k :: (forall i :: 0 <= i < |extra| ==> extra[i].0 != k) ==> DictGet(r, k) == DictGet(query, k)
    ensures |extra| > 0 ==> DictGet(r, extra[|extra| - 1].0) == Some(extra[|extra| - 1].1)
  {
    if extra == [] then query
    else DictSet(Update(query, extra[..|extra| - 1]), extra[|extra| - 1].0, extra[|extra| - 1].1)
  }

  // The query `_resolve_type` sends for a class of package pkg.
  function TypeQuery(pkg: string, extra: seq<(string, Value)>): (r: seq<(string, Value)>)
    ensures (forall i :: 0 <= i < |extra| ==> extra[i].0 != "package") ==> DictGet(r, "package") == Some(VStr(pkg))
  {
    var base := [("language", VStr("python")), ("package", VStr(pkg))];
    assert DictGet(base[1..], "package") == Some(VStr(pkg));
    Update(base, extra)
  }

  // The notes seen for the keys, in order: for each class, the documents
  // the database yields for its package.
  function Notes(env: Env, keys: seq<string>, subs: map<string, PyType>, extra: seq<(string, Value)>): (r: seq<Value>)
    requires forall k :: k in keys ==> k in subs
  {
    if keys == [] then []
    else
      var k := keys[|keys| - 1];
      Notes(env, keys[..|keys| - 1], subs, extra) + env.filter(TypeQuery(Package(subs[k].moduleName), extra))
  }

  // The note can become the best: its classes are all classes of the
  // resolution order.
  predicate Qualifies(subs: map<string, PyType>, note: Value)
  {
    AnnotationClasses(note).Ok? && Within(AnnotationClasses(note).value, subs)
  }

  // The test of the search: the classes cs of a note are all classes of
  // the resolution order, and the best so far is none or below the note.
  predicate Better(subs: map<string, PyType>, isSubclass: (PyType, PyType) -> bool, best: Option<Value>, cs: seq<Value>)
  {
    Within(cs, subs) &&
    (best.None? || (AnnotationClasses(best.value).Ok? && Le(subs, isSubclass, AnnotationClasses(best.value).value, cs)))
  }

  // One step of the search over the note.
  function Step(subs: map<string, PyType>, isSubclass: (PyType, PyType) -> bool, best: Option<Value>, note: Value): Result<Option<Value>>
  {
    match AnnotationClasses(note)
    case Err(e) => Err(e)
    case Ok(cs) =>
      if exists c :: c in cs && !Hashable(c) then Err(TypeError)
      else if Better(subs, isSubclass, best, cs) then Ok(Some(note)) else Ok(best)
  }

  // A step raises exactly when the note's classes cannot be read or put in
  // a set; it keeps the best so far or moves to the note, which then
  // qualifies and is above the best so far.
  lemma StepCases(subs: map<string, PyType>, isSubclass: (PyType, PyType) -> bool, best: Option<Value>, note: Value)
    requires best.Some? ==> Qualifies(subs, best.value)
    ensures Step(subs, isSubclass, best, note).Err? <==> !Readable(note)
    ensures var r := Step(subs, isSubclass, best, note);
            r.Ok? ==> r.value == best || (r.value == Some(note) && Qualifies(subs, note))
    ensures Step(subs, isSubclass, best, note).Ok? && best.None? && Qualifies(subs, note) ==>
              Step(subs, isSubclass, best, note) == Ok(Some(note))
    ensures var r := Step(subs, isSubclass, best, note);
            r.Ok? && best.Some? && r.value == Some(note) && note != best.value ==>
              Le(subs, isSubclass, AnnotationClasses(best.value).value, AnnotationClasses(note).value)
  {
  }

  // The search over a sequence of notes, an error stopping it.
  function Pick(subs: map<string, PyType>, isSubclass: (PyType, PyType) -> bool, notes: seq<Value>): Result<Option<Value>>
  {
    if notes == [] then Ok(None)
    else
      var prev := Pick(subs, isSubclass, notes[..|notes| - 1]);
      if prev.Err? then Err(prev.error) else Step(subs, isSubclass, prev.value, notes[|notes| - 1])
  }

  // The search raises exactly when some note's classes cannot be read or
  // put in a set; the
  // note it picks is one of the notes and qualifies; it picks none exactly
  // when no note qualifies.
  lemma {:induction false} PickSound(subs: map<string, PyType>, isSubclass: (PyType, PyType) -> bool, notes: seq<Value>)
    ensures var r := Pick(subs, isSubclass, notes);
            (r.Ok? <==> forall n :: n in notes ==> Readable(n)) &&
            (r.Ok? && r.value.Some? ==> r.value.value in notes && Qualifies(subs, r.value.value)) &&
            (r.Ok? ==> (r.value.None? <==> forall n :: n in notes ==> !Qualifies(subs, n)))
    decreases |notes|
  {
    if notes != [] {
      var prefix := notes[..|notes| - 1];
      var last := notes[|notes| - 1];
      assert forall n :: n in notes <==> n in prefix || n == last;
      PickSound(subs, isSubclass, prefix);
      var prev := Pick(subs, isSubclass, prefix);
      if prev.Ok? {
        StepCases(subs, isSubclass, prev.value, last);
      }
    }
  }

  // `_resolve_type(type, query_extra)`: the best note over every class of the
  // resolution order.
  function Resolve(env: Env, t: PyType, extra: seq<(string, Value)>): Result<Option<Value>>
  {
    var (keys, subs) := Subclasses(env.mro(t));
    Pick(subs, env.isSubclass, Notes(env, keys, subs, extra))
  }

  lemma PickSnoc(subs: map<string, PyType>, isSubclass: (PyType, PyType) -> bool, notes: seq<Value>, note: Value)
    ensures var prev := Pick(subs, isSubclass, notes);
            Pick(subs, isSubclass, notes + [note]) ==
            if prev.Err? then Err(prev.error) else Step(subs, isSubclass, prev.value, note)
  {
    SliceAppend(notes, [note]);
  }

  // One more note of the same batch is one more step of the search.
  lemma PickNext(subs: map<string, PyType>, isSubclass: (PyType, PyType) -> bool, done: seq<Value>, notes: seq<Value>, j: nat)
    requires j < |notes|
    ensures var prev := Pick(subs, isSubclass, done + notes[..j]);
            Pick(subs, isSubclass, done + notes[..j + 1]) ==
            if prev.Err? then Err(prev.error) else Step(subs, isSubclass, prev.value, notes[j])
  {
    PrefixStep(notes, j);
    AppendAssoc(done, notes[..j], [notes[j]]);
    PickSnoc(subs, isSubclass, done + notes[..j], notes[j]);
  }

  // Once the search has raised, later notes do not matter.
  lemma {:induction false} PickErrSticks(subs: map<string, PyType>, isSubclass: (PyType, PyType) -> bool, xs: seq<Value>, ys: seq<Value>)
    requires Pick(subs, isSubclass, xs).Err?
    ensures Pick(subs, isSubclass, xs + ys) == Pick(subs, isSubclass, xs)
    decreases |ys|
  {
    if ys == [] {
      assert xs + ys == xs;
    } else {
      var init := ys[..|ys| - 1];
      PickErrSticks(subs, isSubclass, xs, init);
      assert xs + ys == (xs + init) + [ys[|ys| - 1]];
      PickSnoc(subs, isSubclass, xs + init, ys[|ys| - 1]);
    }
  }

  // Successive choices form a chain: a best note found later is above every
  // best note found earlier (for a reflexive and transitive `issubclass`).
  lemma {:induction false} PickChain(subs: map<string, PyType>, isSubclass: (PyType, PyType) -> bool, xs: seq<Value>, ys: seq<Value>)
    requires forall t :: isSubclass(t, t)
    requires forall x, y, z :: isSubclass(x, y) && isSubclass(y, z) ==> isSubclass(x, z)
    requires Pick(subs, isSubclass, xs).Ok? && Pick(subs, isSubclass, xs).value.Some?
    requires Pick(subs, isSubclass, xs + ys).Ok?
    ensures Pick(subs, isSubclass, xs + ys).value.Some?
    ensures var b, d := Pick(subs, isSubclass, xs).value.value, Pick(subs, isSubclass, xs + ys).value.value;
            AnnotationClasses(b).Ok? && AnnotationClasses(d).Ok? &&
            Le(subs, isSubclass, AnnotationClasses(b).value, AnnotationClasses(d).value)
    decreases |ys|
  {
    var b := Pick(subs, isSubclass, xs).value.value;
    PickSound(subs, isSubclass, xs);
    if ys == [] {
      assert xs + ys == xs;
      LeReflexive(subs, isSubclass, AnnotationClasses(b).value);
    } else {
      var init := ys[..|ys| - 1];
      var y := ys[|ys| - 1];
      assert xs + ys == (xs + init) + [y];
      PickSnoc(subs, isSubclass, xs + init, y);
      assert Pick(subs, isSubclass, xs + init).Ok?;
      PickChain(subs, isSubclass, xs, init);
      PickSound(subs, isSubclass, xs + init);
      var c := Pick(subs, isSubclass, xs + init).value.value;
      StepCases(subs, isSubclass, Some(c), y);
      var d := Pick(subs, isSubclass, xs + ys).value.value;
      if d != c {
        LeTransitive(subs, isSubclass, AnnotationClasses(b).value, AnnotationClasses(c).value, AnnotationClasses(d).value);
      }
    }
  }

  // The notes of the first i + 1 keys extend those of the first i.
  lemma NotesSnoc(env: Env, keys: seq<string>, subs: map<string, PyType>, extra: seq<(string, Value)>, i: nat)
    requires i < |keys| && forall k :: k in keys ==> k in subs
    ensures Notes(env, keys[..i + 1], subs, extra) ==
            Notes(env, keys[..i], subs, extra) + env.filter(TypeQuery(Package(subs[keys[i]].moduleName), extra))
  {
    PrefixStep(keys, i);
  }

  // The notes of a prefix of the keys are a prefix of all the notes.
  lemma {:induction false} NotesPrefix(env: Env, keys: seq<string>, subs: map<string, PyType>, extra: seq<(string, Value)>, i: nat)
    returns (rest: seq<Value>)
    requires i <= |keys| && forall k :: k in keys ==> k in subs
    ensures Notes(env, keys, subs, extra) == Notes(env, keys[..i], subs, extra) + rest
    decreases |keys| - i
  {
    if i == |keys| {
      WholePrefix(keys);
      rest := [];
    } else {
      var more := NotesPrefix(env, keys, subs, extra, i + 1);
      NotesSnoc(env, keys, subs, extra, i);
      var mine := env.filter(TypeQuery(Package(subs[keys[i]].moduleName), extra));
      AppendAssoc(Notes(env, keys[..i], subs, extra), mine, more);
      rest := mine + more;
    }
  }

  // An error met while reading the j-th note of the i-th key is the result.
  lemma ErrorStops(env: Env, keys: seq<string>, subs: map<string, PyType>, extra: seq<(string, Value)>,
                   i: nat, notes: seq<Value>, j: nat)
    requires i < |keys| && forall k :: k in keys ==> k in subs
    requires notes == env.filter(TypeQuery(Package(subs[keys[i]].moduleName), extra)) && j < |notes|
    requires Pick(subs, env.isSubclass, Notes(env, keys[..i], subs, extra) + notes[..j + 1]).Err?
    ensures Pick(subs, env.isSubclass, Notes(env, keys, subs, extra)) ==
            Pick(subs, env.isSubclass, Notes(env, keys[..i], subs, extra) + notes[..j + 1])
  {
    var a := Notes(env, keys[..i], subs, extra);
    var rest := NotesPrefix(env, keys, subs, extra, i + 1);
    NotesSnoc(env, keys, subs, extra, i);
    SplitAt(notes, j + 1);
    AppendAssoc(a, notes[..j + 1], notes[j + 1..]);
    AppendAssoc(a + notes[..j + 1], notes[j + 1..], rest);
    PickErrSticks(subs, env.isSubclass, a + notes[..j + 1], notes[j + 1..] + rest);
  }

  // `_resolve_type`: for each class of the resolution order, each note the
  // database yields for its package replaces the best so far when its
  // classes are all in the order and the best so far is none or below it.
  method ResolveType(env: Env, t: PyType, extra: seq<(string, Value)>) returns (r: Result<Option<Value>>)
    ensures r == Resolve(env, t, extra)
  {
    var (keys, subs) := Subclasses(env.mro(t));
    var best: Option<Value> := None;
    var i := 0;
    while i < |keys|
      invariant i <= |keys|
      invariant Pick(subs, env.isSubclass, Notes(env, keys[..i], subs, extra)) == Ok(best)
    {
      var notes := env.filter(TypeQuery(Package(subs[keys[i]].moduleName), extra));
      ghost var done := Notes(env, keys[..i], subs, extra);
      EmptyPrefix(done, notes);
      var j := 0;
      while j < |notes|
        invariant j <= |notes|
        invariant Pick(subs, env.isSubclass, done + notes[..j]) == Ok(best)
      {
        PickNext(subs, env.isSubclass, done, notes, j);
        var classes := AnnotationClasses(notes[j]);
        if classes.Err? {
          ErrorStops(env, keys, subs, extra, i, notes, j);
          return Err(classes.error);
        }
        if exists c :: c in classes.value && !Hashable(c) {
          ErrorStops(env, keys, subs, extra, i, notes, j);
          return Err(TypeError);
        }
        if Better(subs, env.isSubclass, best, classes.value) {
          best := Some(notes[j]);
        }
        j := j + 1;
      }
      WholePrefix(notes);
      NotesSnoc(env, keys, subs, extra, i);
      i := i + 1;
    }
    WholePrefix(keys);
    r := Ok(best);
  }

  // A found best note has only classes of the resolution order; none is
  // found exactly when no note qualifies.
  lemma ResolveFound(env: Env, t: PyType, extra: seq<(string, Value)>)
    ensures var (keys, subs) := Subclasses(env.mro(t));
            var r := Resolve(env, t, extra);
            (r.Ok? && r.value.Some? ==> r.value.value in Notes(env, keys, subs, extra) &&
                                        AnnotationClasses(r.value.value).Ok? &&
                                        forall c :: c in AnnotationClasses(r.value.value).value ==>
                                          c.VStr? && exists u :: u in env.mro(t) && TypeKey(u) == c.s) &&
            (r.Ok? ==> (r.value.None? <==> forall n :: n in Notes(env, keys, subs, extra) ==> !Qualifies(subs, n)))
  {
    var (keys, subs) := Subclasses(env.mro(t));
    PickSound(subs, env.isSubclass, Notes(env, keys, subs, extra));
    var r := Resolve(env, t, extra);
    if r.Ok? && r.value.Some? {
      forall c | c in AnnotationClasses(r.value.value).value ensures c.VStr? && exists u :: u in env.mro(t) && TypeKey(u) == c.s {
        assert subs[c.s] in env.mro(t) && TypeKey(subs[c.s]) == c.s;
      }
    }
  }

  /* ---------------- Function and type lookup ---------------- */

  // `note['pk'] if note else None`: a falsy note gives no key; indexing a
  // note that is not a dictionary, or one without `pk`, raises.
  function PrimaryKey(note: Option<Value>): (r: Result<Option<Value>>)
    ensures note.None? || !Truthy(note.value) ==> r == Ok(None)
    ensures r.Ok? && r.value.Some? ==> note.Some? && note.value.VDict? && DictGet(note.value.entries, "pk") == r.value
    ensures note.Some? && Truthy(note.value) && note.value.VDict? && DictGet(note.value.entries, "pk").Some? ==>
              r == Ok(DictGet(note.value.entries, "pk"))
    ensures r.Err? <==> note.Some? && Truthy(note.value) && (!note.value.VDict? || DictGet(note.value.entries, "pk").None?)
  {
    if note.None? || !Truthy(note.value) then Ok(None)
    else if !note.value.VDict? then Err(TypeError)
    else match DictGet(note.value.entries, "pk")
      case None => Err(KeyError)
      case Some(v) => Ok(Some(v))
  }

  // `self.db.get({'pk': pk}) if pk else None`, errors of the lookup passed on.
  function Fetch(env: Env, pk: Result<Option<Value>>): Result<Option<Value>>
  {
    if pk.Err? then Err(pk.error)
    else if pk.value.Some? && Truthy(pk.value.value) then env.getByKey(pk.value.value)
    else Ok(None)
  }

  // The query for a function annotation: the package is the first dotted
  // component of the function's full name.
  function FunctionQuery(fullName: string): seq<(string, Value)>
  {
    [("language", VStr("python")), ("package", VStr(Package(fullName))), ("kind", VStr("morphism")), ("function", VStr(fullName))]
  }

  // The class a method is bound to: the class itself for a class method,
  // the instance's class otherwise.
  function MethodSelf(b: Bound): PyType
  {
    match b
    case ClassObject(c) => c
    case Instance(c) => c
  }

  // `_get_func_key(func)`: the full name, with the key of the bound class
  // for methods.
  function FuncKey(f: Callable): (string, Option<string>)
    requires !f.NotCallable?
  {
    (f.fullName, if f.BoundMethod? then Some(TypeKey(MethodSelf(f.self))) else None)
  }

  // x ends with a dot followed by n.
  predicate EndsWithComponent(x: string, n: string)
  {
    |x| > |n| && x[|x| - |n| - 1] == '.' && x[|x| - |n|..] == n
  }

  // No dot follows the start of a dotless last component.
  lemma NoDotInComponent(x: string, n: string)
    requires '.' !in n && EndsWithComponent(x, n)
    ensures forall k :: |x| - |n| <= k < |x| ==> x[k] != '.'
  {
    forall k | |x| - |n| <= k < |x| ensures x[k] != '.' {
      assert x[k] == x[|x| - |n|..][k - (|x| - |n|)];
    }
  }

  // A dotted name has one last component.
  lemma LastComponentUnique(x: string, n1: string, n2: string)
    requires '.' !in n1 && '.' !in n2
    requires EndsWithComponent(x, n1) && EndsWithComponent(x, n2)
    ensures n1 == n2
  {
    NoDotInComponent(x, n1);
    NoDotInComponent(x, n2);
    assert |x| - |n1| - 1 < |x| - |n2| && |x| - |n2| - 1 < |x| - |n1|;
  }

  // Class names have no dots (Python identifiers), so the type key
  // identifies the class.
  lemma TypeKeyInjective(s: PyType, t: PyType)
    requires '.' !in s.name && '.' !in t.name && TypeKey(s) == TypeKey(t)
    ensures s == t
  {
    var x := TypeKey(s);
    assert EndsWithComponent(x, s.name);
    assert EndsWithComponent(TypeKey(t), t.name);
    LastComponentUnique(x, s.name, t.name);
    assert s.moduleName == x[..|x| - |s.name| - 1] == t.moduleName;
  }

  // A callable as Python produces it: a function or method whose class
  // names have no dots and, for a method, whose full name ends with its name.
  predicate WellNamed(f: Callable)
  {
    f.BoundMethod? ==> '.' !in f.name && '.' !in MethodSelf(f.self).name && EndsWithComponent(f.fullName, f.name)
  }

  // `_cached_notate_function(func)` without the cache: a method first tries
  // a method annotation of its bound class; failing that (or for a plain
  // function) the first function annotation with its full name.
  function NotateFunctionUncached(env: Env, f: Callable): Result<Option<Value>>
    requires !f.NotCallable?
  {
    var methodNote :=
      if f.BoundMethod? then Resolve(env, MethodSelf(f.self), [("kind", VStr("morphism")), ("method", VStr(f.name))])
      else Ok(None);
    if methodNote.Err? then Err(methodNote.error)
    else if methodNote.value.Some? then PrimaryKey(methodNote.value)
    else
      var found := env.filter(FunctionQuery(f.fullName));
      PrimaryKey(if found == [] then None else Some(found[0]))
  }

  // A plain function never consults the type resolution.
  lemma PlainFunctionLookup(env: Env, name: string)
    ensures var found := env.filter(FunctionQuery(name));
            NotateFunctionUncached(env, PlainFunction(name)) == PrimaryKey(if found == [] then None else Some(found[0]))
  {
  }

  // A method annotation, when found, wins over any function annotation.
  lemma MethodAnnotationFirst(env: Env, f: Callable)
    requires f.BoundMethod?
    requires var m := Resolve(env, MethodSelf(f.self), [("kind", VStr("morphism")), ("method", VStr(f.name))]);
             m.Ok? && m.value.Some?
    ensures NotateFunctionUncached(env, f) ==
            PrimaryKey(Resolve(env, MethodSelf(f.self), [("kind", VStr("morphism")), ("method", VStr(f.name))]).value)
  {
  }

  // The function cache key is enough: callables with the same key get the
  // same annotation.
  lemma FuncKeyDetermines(env: Env, f: Callable, g: Callable)
    requires !f.NotCallable? && !g.NotCallable? && WellNamed(f) && WellNamed(g)
    requires FuncKey(f) == FuncKey(g)
    ensures NotateFunctionUncached(env, f) == NotateFunctionUncached(env, g)
  {
    assert f.fullName == g.fullName && f.BoundMethod? == g.BoundMethod?;
    if f.BoundMethod? {
      TypeKeyInjective(MethodSelf(f.self), MethodSelf(g.self));
      LastComponentUnique(f.fullName, f.name, g.name);
      assert f == BoundMethod(g.fullName, g.name, f.self) && MethodSelf(f.self) == MethodSelf(g.self);
    }
  }

  // `_cached_notate_type(type)` without the cache: the primary key of the
  // best object annotation.
  function NotateTypeUncached(env: Env, t: PyType): Result<Option<Value>>
  {
    var note := Resolve(env, t, [("kind", VStr("object"))]);
    if note.Err? then Err(note.error) else PrimaryKey(note.value)
  }

  // `notate_function(func)`: TypeError for anything but a function or a
  // method; otherwise the document with the function's primary key, if any.
  function NotateFunctionSpec(env: Env, f: Callable): Result<Option<Value>>
  {
    if f.NotCallable? then Err(TypeError) else Fetch(env, NotateFunctionUncached(env, f))
  }

  class Annotator {
    const env: Env
    var funcCache: map<(string, Option<string>), Option<Value>>
    var typeCache: map<string, Option<Value>>

    // Every cached key holds what the lookup computes for a callable (a
    // type) with that key.
    ghost predicate Valid()
      reads this
    {
      (forall k :: k in funcCache ==>
         exists f: Callable :: !f.NotCallable? && WellNamed(f) && FuncKey(f) == k && NotateFunctionUncached(env, f) == Ok(funcCache[k])) &&
      (forall k :: k in typeCache ==>
         exists t: PyType :: '.' !in t.name && TypeKey(t) == k && NotateTypeUncached(env, t) == Ok(typeCache[k]))
    }

    constructor (env: Env)
      ensures Valid() && this.env == env && funcCache == map[] && typeCache == map[]
    {
      this.env := env;
      funcCache := map[];
      typeCache := map[];
    }

    // `_cached_notate_function(func)`: a cached key answers from the cache;
    // otherwise the lookup runs and its result (not an exception) is stored
    // under the key. Either way the answer is the uncached one.
    method CachedNotateFunction(f: Callable) returns (r: Result<Option<Value>>)
      requires Valid() && !f.NotCallable? && WellNamed(f)
      modifies this
      ensures Valid() && typeCache == old(typeCache)
      ensures r == NotateFunctionUncached(env, f)
      ensures FuncKey(f) in old(funcCache) ==> funcCache == old(funcCache)
      ensures FuncKey(f) !in old(funcCache) ==>
                funcCache == (if r.Ok? then old(funcCache)[FuncKey(f) := r.value] else old(funcCache))
    {
      var key := FuncKey(f);
      if key in funcCache {
        var g: Callable :| !g.NotCallable? && WellNamed(g) && FuncKey(g) == key && NotateFunctionUncached(env, g) == Ok(funcCache[key]);
        FuncKeyDetermines(env, f, g);
        return Ok(funcCache[key]);
      }
      var note: Result<Option<Value>> := Ok(None);
      if f.BoundMethod? {
        note := ResolveType(env, MethodSelf(f.self), [("kind", VStr("morphism")), ("method", VStr(f.name))]);
        if note.Err? {
          return Err(note.error);
        }
      }
      if note.value.None? {
        var found := env.filter(FunctionQuery(f.fullName));
        note := Ok(if found == [] then None else Some(found[0]));
      }
      r := PrimaryKey(note.value);
      if r.Ok? {
        funcCache := funcCache[key := r.value];
      }
    }

    // `_cached_notate_type(type)`: the primary key of the best object
    // annotation, cached by the type key.
    method CachedNotateType(t: PyType) returns (r: Result<Option<Value>>)
      requires Valid() && '.' !in t.name
      modifies this
      ensures Valid() && funcCache == old(funcCache)
      ensures r == NotateTypeUncached(env, t)
      ensures TypeKey(t) in old(typeCache) ==> typeCache == old(typeCache)
      ensures TypeKey(t) !in old(typeCache) ==>
                typeCache == (if r.Ok? then old(typeCache)[TypeKey(t) := r.value] else old(typeCache))
    {
      var key := TypeKey(t);
      if key in typeCache {
        var u: PyType :| '.' !in u.name && TypeKey(u) == key && NotateTypeUncached(env, u) == Ok(typeCache[key]);
        TypeKeyInjective(t, u);
        return Ok(typeCache[key]);
      }
      var note := ResolveType(env, t, [("kind", VStr("object"))]);
      if note.Err? {
        return Err(note.error);
      }
      r := PrimaryKey(note.value);
      if r.Ok? {
        typeCache := typeCache[key := r.value];
      }
    }

    // `notate_function(func)`.
    method NotateFunction(f: Callable) returns (r: Result<Option<Value>>)
      requires Valid() && WellNamed(f)
      modifies this
      ensures Valid() && r == NotateFunctionSpec(env, f)
      ensures f.NotCallable? ==> funcCache == old(funcCache) && typeCache == old(typeCache)
    {
      if f.NotCallable? {
        return Err(TypeError);
      }
      var pk := CachedNotateFunction(f);
      if pk.Err? {
        return Err(pk.error);
      }
      if pk.value.Some? && Truthy(pk.value.value) {
        r := env.getByKey(pk.value.value);
      } else {
        r := Ok(None);
      }
    }

    // `notate_type(type)`: the document with the type's primary key, if any.
    method NotateType(t: PyType) returns (r: Result<Option<Value>>)
      requires Valid() && '.' !in t.name
      modifies this
      ensures Valid() && r == Fetch(env, NotateTypeUncached(env, t))
      ensures funcCache == old(funcCache)
    {
      var pk := CachedNotateType(t);
      if pk.Err? {
        return Err(pk.error);
      }
      if pk.value.Some? && Truthy(pk.value.value) {
        r := env.getByKey(pk.value.value);
      } else {
        r := Ok(None);
      }
    }
  }
}
