// Generalised attribute ("slot") lookup on Python objects, over an abstract
// object model: what `getattr` finds on an object, what `obj[key]` finds, and
// which attributes are bound methods.
module Slots {
  import opened Base

  // A key passed to `obj[key]`.
  datatype Key = IntKey(i: int) | StrKey(s: string)

  // An object: its identity (`is`), the attributes `getattr` finds and what
  // indexing finds.
  datatype Obj = Obj(id: nat, attrs: map<string, Attr>, items: Items)

  // An attribute value. `Method` is a `types.MethodType`: the identity of the
  // object it is bound to, its `co_argcount` (self included) and the value a
  // call with no arguments returns.
  datatype Attr =
    | Plain(value: Obj)
    | Method(boundTo: nat, argCount: nat, result: Obj)

  // What `obj[key]` can reach: nothing (TypeError), a sequence indexed by
  // integers with Python's negative indexing, or a mapping.
  datatype Items = NotIndexable | Sequence(elems: seq<Obj>) | Mapping(entries: map<Key, Obj>)

  // A slot specification as read from an annotation document: a dotted
  // string, an integer, a list or a dictionary of specifications (entries in
  // document order), or anything else.
  datatype SlotSpec =
    | SStr(s: string)
    | SInt(i: int)
    | SList(items: seq<SlotSpec>)
    | SDict(entries: seq<(string, SlotSpec)>)
    | SOther

  // The value of `get_slots`: an object, a list or a dictionary of them.
  datatype SlotValue = Single(obj: Obj) | Listed(items: seq<SlotValue>) | Keyed(fields: map<string, SlotValue>)

  /* ---------------- Indexing ---------------- */

  // `obj[key]` with its uncaught exceptions.
  function Index(o: Obj, k: Key): (r: Result<Obj>)
    ensures o.items.NotIndexable? ==> r == Err(TypeError)
    ensures o.items.Sequence? && k.IntKey? && 0 <= k.i < |o.items.elems| ==> r == Ok(o.items.elems[k.i])
    ensures o.items.Sequence? && k.IntKey? && -|o.items.elems| <= k.i < 0 ==>
              r == Ok(o.items.elems[|o.items.elems| + k.i])
    ensures o.items.Sequence? && k.IntKey? && !(-|o.items.elems| <= k.i < |o.items.elems|) ==> r == Err(IndexError)
    ensures o.items.Mapping? ==> r == (if k in o.items.entries then Ok(o.items.entries[k]) else Err(KeyError))
  {
    match o.items
    case NotIndexable => Err(TypeError)
    case Sequence(es) =>
      (match k
       case IntKey(i) =>
         if 0 <= i < |es| then Ok(es[i])
         else if -|es| <= i < 0 then Ok(es[|es| + i])
         else Err(IndexError)
       case StrKey(_) => Err(TypeError))
    case Mapping(m) => if k in m then Ok(m[k]) else Err(KeyError)
  }

  /* ---------------- Decimal integers ---------------- */

  predicate IsDigit(c: char)
  {
    '0' <= c <= '9'
  }

  predicate AllDigits(s: string)
  {
    forall i :: 0 <= i < |s| ==> IsDigit(s[i])
  }

  // Value of a string of decimal digits, most significant first.
  function DigitsValue(s: string): nat
    requires AllDigits(s)
  {
    if s == [] then 0 else DigitsValue(s[..|s| - 1]) * 10 + (s[|s| - 1] - '0') as nat
  }

  // `int(s)` for strings made of an optional sign and one or more ASCII
  // digits; None where Python raises ValueError.
  function ParseInt(s: string): (r: Option<int>)
    ensures r.Some? ==> |s| > 0
  {
    if |s| > 1 && s[0] == '-' && AllDigits(s[1..]) then Some(-(DigitsValue(s[1..]) as int))
    else if |s| > 1 && s[0] == '+' && AllDigits(s[1..]) then Some(DigitsValue(s[1..]))
    else if |s| > 0 && AllDigits(s) then Some(DigitsValue(s))
    else None
  }

  // Decimal digits of a natural number (`str(n)` for n >= 0).
  function NatToString(n: nat): (s: string)
    ensures |s| > 0 && AllDigits(s)
    decreases n
  {
    if n < 10 then ['0' + n as char] else NatToString(n / 10) + ['0' + (n % 10) as char]
  }

  // `str(i)`.
  function IntToString(i: int): (s: string)
    ensures |s| > 0
  {
    if i < 0 then "-" + NatToString(-i) else NatToString(i)
  }

  lemma {:induction false} DigitsValueOfNatToString(n: nat)
    ensures DigitsValue(NatToString(n)) == n
    decreases n
  {
    var s := NatToString(n);
    if n < 10 {
      assert s[..|s| - 1] == [];
    } else {
      DigitsValueOfNatToString(n / 10);
      assert s[..|s| - 1] == NatToString(n / 10);
    }
  }

  // `int(str(i)) == i`: printing an integer and parsing it back is the identity.
  lemma ParseIntOfIntToString(i: int)
    ensures ParseInt(IntToString(i)) == Some(i)
  {
    var s := IntToString(i);
    if i < 0 {
      var t := NatToString(-i);
      DigitsValueOfNatToString(-i);
      assert s == "-" + t;
      assert s[1..] == t;
      assert |s| > 1 && s[0] == '-' && AllDigits(s[1..]);
    } else {
      DigitsValueOfNatToString(i);
      assert s == NatToString(i);
      assert IsDigit(s[0]);
      assert !(s[0] == '-' || s[0] == '+');
      assert |s| > 0 && AllDigits(s);
    }
  }

  /* ---------------- Splitting dotted paths ---------------- */

  // `s.split('.')`: always at least one part, none containing a dot.
  function Split(s: string): (parts: seq<string>)
    ensures |parts| >= 1
    ensures forall i :: 0 <= i < |parts| ==> '.' !in parts[i]
    decreases |s|
  {
    if s == [] then [""]
    else if s[0] == '.' then [""] + Split(s[1..])
    else
      var rest := Split(s[1..]);
      [[s[0]] + rest[0]] + rest[1..]
  }

  // `'.'.join(parts)`.
  function JoinDots(parts: seq<string>): string
    requires |parts| >= 1
  {
    if |parts| == 1 then parts[0] else parts[0] + "." + JoinDots(parts[1..])
  }

  // Splitting and joining again gives back the path.
  lemma {:induction false} JoinDotsSplit(s: string)
    ensures JoinDots(Split(s)) == s
    decreases |s|
  {
    if s == [] {
    } else if s[0] == '.' {
      JoinDotsSplit(s[1..]);
      assert JoinDots(Split(s)) == "" + "." + JoinDots(Split(s[1..]));
    } else {
      JoinDotsSplit(s[1..]);
      var rest := Split(s[1..]);
      if |rest| == 1 {
        assert JoinDots(Split(s)) == [s[0]] + rest[0];
      } else {
        assert JoinDots(Split(s)) == ([s[0]] + rest[0]) + "." + JoinDots(rest[1..]);
      }
    }
  }

  // A dot separates the parts of the prefix from the parts of the suffix.
  lemma {:induction false} SplitAppend(p: string, q: string)
    ensures Split(p + "." + q) == Split(p) + Split(q)
    decreases |p|
  {
    if p == [] {
      assert p + "." + q == "." + q;
      assert ("." + q)[1..] == q;
    } else {
      assert (p + "." + q)[1..] == p[1..] + "." + q;
      SplitAppend(p[1..], q);
    }
  }

  /* ---------------- Slot lookup ---------------- */

  // The key used for indexing once `getattr` has failed: the integer the
  // string parses as, or the string itself.
  function IndexKey(key: string): Key
  {
    match ParseInt(key)
    case Some(i) => IntKey(i)
    case None => StrKey(key)
  }

  // One step of slot resolution: the attribute if there is one (calling a
  // bound zero-argument method of this very object), otherwise indexing with
  // the key, as an integer if it parses as one. Every failure is
  // AttributeError.
  function GetSingleSlot(o: Obj, key: string): (r: Result<Obj>)
    ensures key in o.attrs && o.attrs[key].Plain? ==> r == Ok(o.attrs[key].value)
    ensures key in o.attrs && o.attrs[key].Method? ==>
              r == (if o.attrs[key].boundTo == o.id && o.attrs[key].argCount <= 1
                    then Ok(o.attrs[key].result) else Err(AttributeError))
    ensures key !in o.attrs ==> r == (if Index(o, IndexKey(key)).Ok? then Index(o, IndexKey(key)) else Err(AttributeError))
    ensures r.Err? ==> r.error == AttributeError
  {
    if key in o.attrs then
      match o.attrs[key]
      case Plain(v) => Ok(v)
      case Method(owner, argc, res) =>
        if owner != o.id then Err(AttributeError)
        else if argc > 1 then Err(AttributeError)
        else Ok(res)
    else
      match Index(o, IndexKey(key))
      case Ok(v) => Ok(v)
      case Err(_) => Err(AttributeError)
  }

  // `reduce(_get_single_slot, keys, obj)`: resolve the keys left to right,
  // stopping at the first failure.
  function Walk(o: Obj, keys: seq<string>): Result<Obj>
    decreases |keys|
  {
    if keys == [] then Ok(o)
    else
      match GetSingleSlot(o, keys[0])
      case Ok(next) => Walk(next, keys[1..])
      case Err(e) => Err(e)
  }

  // `get_slot(obj, slot)`.
  function GetSlot(o: Obj, slot: SlotSpec): Result<Obj>
  {
    match slot
    case SStr(s) => Walk(o, Split(s))
    case SInt(i) => Index(o, IntKey(i))
    case _ => Err(TypeError)
  }

  // Walking a concatenation of paths is walking the first, then the second.
  lemma {:induction false} WalkAppend(o: Obj, ks1: seq<string>, ks2: seq<string>)
    ensures Walk(o, ks1 + ks2) ==
              match Walk(o, ks1)
              case Ok(mid) => Walk(mid, ks2)
              case Err(e) => Err(e)
    decreases |ks1|
  {
    if ks1 != [] {
      assert (ks1 + ks2)[0] == ks1[0];
      assert (ks1 + ks2)[1..] == ks1[1..] + ks2;
      match GetSingleSlot(o, ks1[0])
      case Ok(next) => WalkAppend(next, ks1[1..], ks2);
      case Err(_) =>
    } else {
      assert ks1 + ks2 == ks2;
    }
  }

  // A dotted slot `p.q` is slot `q` resolved on the object slot `p` resolves to.
  lemma DottedSlot(o: Obj, p: string, q: string)
    ensures GetSlot(o, SStr(p + "." + q)) ==
              match GetSlot(o, SStr(p))
              case Ok(mid) => GetSlot(mid, SStr(q))
              case Err(e) => Err(e)
  {
    SplitAppend(p, q);
    WalkAppend(o, Split(p), Split(q));
  }

  // An integer slot indexes the object directly, and the exceptions of
  // indexing propagate unchanged; a string slot holding the same number
  // reaches the same item when no attribute has that name, but reports every
  // failure as AttributeError.
  lemma IntegerSlot(o: Obj, i: int)
    ensures GetSlot(o, SInt(i)) == Index(o, IntKey(i))
    ensures IntToString(i) !in o.attrs ==>
              GetSlot(o, SStr(IntToString(i))) ==
                (if Index(o, IntKey(i)).Ok? then Index(o, IntKey(i)) else Err(AttributeError))
  {
    var s := IntToString(i);
    ParseIntOfIntToString(i);
    assert '.' !in s by {
      if i < 0 { assert s == "-" + NatToString(-i); assert AllDigits(NatToString(-i)); }
    }
    assert Split(s) == [s] by { SplitNoDot(s); }
    assert IndexKey(s) == IntKey(i);
    match GetSingleSlot(o, s)
    case Ok(next) => assert Walk(o, [s]) == Walk(next, []);
    case Err(_) =>
  }

  lemma {:induction false} SplitNoDot(s: string)
    requires '.' !in s
    ensures Split(s) == [s]
    decreases |s|
  {
    if s != [] {
      assert s[0] in s;
      assert forall c :: c in s[1..] ==> c in s;
      SplitNoDot(s[1..]);
      assert [s[0]] + s[1..] == s;
    }
  }

  // `get_slots(obj, spec)`: the same shape as the specification with every
  // string or integer leaf resolved by `get_slot`; the first failure in
  // document order is raised.
  function GetSlots(o: Obj, spec: SlotSpec): Result<SlotValue>
    decreases spec, 1
  {
    match spec
    case SDict(entries) =>
      (match GetSlotsEntries(o, spec, entries)
       case Ok(pairs) => Ok(Keyed(ToMap(pairs)))
       case Err(e) => Err(e))
    case SList(items) =>
      (match GetSlotsItems(o, spec, items)
       case Ok(vs) => Ok(Listed(vs))
       case Err(e) => Err(e))
    case SStr(_) =>
      (match GetSlot(o, spec)
       case Ok(v) => Ok(Single(v))
       case Err(e) => Err(e))
    case SInt(_) =>
      (match GetSlot(o, spec)
       case Ok(v) => Ok(Single(v))
       case Err(e) => Err(e))
    case SOther => Err(TypeError)
  }

  function GetSlotsItems(o: Obj, ghost parent: SlotSpec, items: seq<SlotSpec>): (r: Result<seq<SlotValue>>)
    requires forall x :: x in items ==> x < parent
    ensures r.Ok? ==> |r.value| == |items|
    decreases parent, 0, |items|
  {
    if items == [] then Ok([])
    else
      assert items[0] in items;
      assert forall x :: x in items[1..] ==> x in items;
      match GetSlots(o, items[0])
      case Err(e) => Err(e)
      case Ok(v) =>
        match GetSlotsItems(o, parent, items[1..])
        case Err(e) => Err(e)
        case Ok(vs) => Ok([v] + vs)
  }

  function GetSlotsEntries(o: Obj, ghost parent: SlotSpec, entries: seq<(string, SlotSpec)>): (r: Result<seq<(string, SlotValue)>>)
    requires forall e :: e in entries ==> e.1 < parent
    ensures r.Ok? ==> |r.value| == |entries| && forall i :: 0 <= i < |entries| ==> r.value[i].0 == entries[i].0
    decreases parent, 0, |entries|
  {
    if entries == [] then Ok([])
    else
      assert entries[0] in entries;
      assert forall e :: e in entries[1..] ==> e in entries;
      match GetSlots(o, entries[0].1)
      case Err(e) => Err(e)
      case Ok(v) =>
        match GetSlotsEntries(o, parent, entries[1..])
        case Err(e) => Err(e)
        case Ok(vs) => Ok([(entries[0].0, v)] + vs)
  }

  // Dictionary built from key/value pairs, a later pair overriding an earlier one.
  function ToMap<V>(pairs: seq<(string, V)>): (m: map<string, V>)
    ensures m.Keys == set i | 0 <= i < |pairs| :: pairs[i].0
  {
    if pairs == [] then map[]
    else ToMap(pairs[..|pairs| - 1])[pairs[|pairs| - 1].0 := pairs[|pairs| - 1].1]
  }

  // The result of `get_slots` has the shape of the specification: a
  // dictionary with the same keys, a list of the same length, recursively.
  predicate SameShape(spec: SlotSpec, v: SlotValue)
    decreases spec
  {
    match spec
    case SDict(entries) =>
      v.Keyed? && v.fields.Keys == (set i | 0 <= i < |entries| :: entries[i].0)
      && forall i :: 0 <= i < |entries| && IsLastWithKey(entries, i) ==>
           entries[i].0 in v.fields && SameShape(entries[i].1, v.fields[entries[i].0])
    case SList(items) =>
      v.Listed? && |v.items| == |items| && forall i :: 0 <= i < |items| ==> SameShape(items[i], v.items[i])
    case SStr(_) => v.Single?
    case SInt(_) => v.Single?
    case SOther => false
  }

  // Entry i is the one whose value a dictionary built from the entries keeps.
  predicate IsLastWithKey<V>(entries: seq<(string, V)>, i: int)
    requires 0 <= i < |entries|
  {
    forall j :: i < j < |entries| ==> entries[j].0 != entries[i].0
  }

  lemma {:induction false} ShapeOfGetSlots(o: Obj, spec: SlotSpec)
    ensures GetSlots(o, spec).Ok? ==> SameShape(spec, GetSlots(o, spec).value)
    decreases spec
  {
    match spec
    case SDict(entries) =>
      if GetSlots(o, spec).Ok? {
        var pairs := GetSlotsEntries(o, spec, entries).value;
        forall i | 0 <= i < |entries| && IsLastWithKey(entries, i)
          ensures entries[i].0 in ToMap(pairs) && SameShape(entries[i].1, ToMap(pairs)[entries[i].0])
        {
          assert entries[i] in entries;
          EntriesValue(o, spec, entries, i);
          ShapeOfGetSlots(o, entries[i].1);
          ToMapLast(pairs, i);
        }
      }
    case SList(items) =>
      if GetSlots(o, spec).Ok? {
        var vs := GetSlotsItems(o, spec, items).value;
        forall i | 0 <= i < |items| ensures SameShape(items[i], vs[i]) {
          assert items[i] in items;
          ItemsValue(o, spec, items, i);
          ShapeOfGetSlots(o, items[i]);
        }
      }
    case SStr(_) =>
    case SInt(_) =>
    case SOther =>
  }

  lemma {:induction false} ItemsValue(o: Obj, parent: SlotSpec, items: seq<SlotSpec>, i: int)
    requires forall x :: x in items ==> x < parent
    requires 0 <= i < |items|
    requires GetSlotsItems(o, parent, items).Ok?
    ensures GetSlots(o, items[i]) == Ok(GetSlotsItems(o, parent, items).value[i])
    decreases |items|
  {
    if i > 0 {
      assert forall x :: x in items[1..] ==> x in items;
      ItemsValue(o, parent, items[1..], i - 1);
    }
  }

  lemma {:induction false} EntriesValue(o: Obj, parent: SlotSpec, entries: seq<(string, SlotSpec)>, i: int)
    requires forall e :: e in entries ==> e.1 < parent
    requires 0 <= i < |entries|
    requires GetSlotsEntries(o, parent, entries).Ok?
    ensures GetSlots(o, entries[i].1) == Ok(GetSlotsEntries(o, parent, entries).value[i].1)
    decreases |entries|
  {
    if i > 0 {
      assert forall e :: e in entries[1..] ==> e in entries;
      EntriesValue(o, parent, entries[1..], i - 1);
    }
  }

  lemma {:induction false} ToMapLast<V>(pairs: seq<(string, V)>, i: int)
    requires 0 <= i < |pairs| && IsLastWithKey(pairs, i)
    ensures pairs[i].0 in ToMap(pairs) && ToMap(pairs)[pairs[i].0] == pairs[i].1
    decreases |pairs|
  {
    if i < |pairs| - 1 {
      ToMapLast(pairs[..|pairs| - 1], i);
    }
  }
}
