// The annotation database front end (`AnnotationDB`): splitting a query
// between the indexed backend and the recursive JSON matcher, and
// single-result lookup.
module AnnotationDb {
  import opened Base
  import opened Graphs

  type Entries = seq<(string, Value)>

  /* ---------------- Python equality on JSON values ---------------- */

  // Position of the first entry with key k.
  function EntryIndex(es: Entries, k: string): (r: Option<nat>)
    ensures r.Some? ==> r.value < |es| && es[r.value].0 == k && forall j :: 0 <= j < r.value ==> es[j].0 != k
    ensures r.None? <==> forall j :: 0 <= j < |es| ==> es[j].0 != k
  {
    if es == [] then None
    else if es[0].0 == k then Some(0)
    else
      match EntryIndex(es[1..], k)
      case None => None
      case Some(i) => Some(i + 1)
  }

  predicate IsNumber(v: Value)
  {
    v.VBool? || v.VInt?
  }

  // Booleans compare as the integers 0 and 1.
  function NumberOf(v: Value): int
    requires IsNumber(v)
  {
    if v.VInt? then v.i else if v.b then 1 else 0
  }

  // `a == b` on JSON values: numbers compare by value (True == 1), lists
  // element-wise, dictionaries by key set and the values under each key
  // (regardless of order); values of different kinds are unequal.
  predicate PyEq(a: Value, b: Value)
  {
    match a
    case VNone => b.VNone?
    case VBool(_) => IsNumber(b) && NumberOf(a) == NumberOf(b)
    case VInt(_) => IsNumber(b) && NumberOf(a) == NumberOf(b)
    case VStr(s) => b.VStr? && b.s == s
    case VList(xs) => b.VList? && |xs| == |b.items| && forall i :: 0 <= i < |xs| ==> PyEq(xs[i], b.items[i])
    case VDict(es) =>
      b.VDict? &&
      (forall j :: 0 <= j < |b.entries| ==> EntryIndex(es, b.entries[j].0).Some?) &&
      (forall i :: 0 <= i < |es| ==> EntryIndex(b.entries, es[i].0).Some? &&
                                     PyEq(es[i].1, b.entries[EntryIndex(b.entries, es[i].0).value].1))
    case VGraph(_) => a == b
  }

  /* ---------------- Recursive matching ---------------- */

  predicate IsOperator(k: string)
  {
    |k| > 0 && k[0] == '$'
  }

  // `_query_json(query, obj)`: a dictionary query matches a dictionary
  // whose entries match it key by key (in the query's key order, failing at
  // the first key that is missing or does not match); an operator key
  // reached in that walk raises NotImplementedError; any other query
  // matches by equality.
  function QueryJson(q: Value, o: Value): (r: Result<bool>)
    decreases q, if q.VDict? then |q.entries| + 1 else 0
  {
    if q.VDict? then
      if !o.VDict? then Ok(false) else QueryEntries(q, o.entries, 0)
    else Ok(PyEq(q, o))
  }

  // The query keys from position i on.
  function QueryEntries(q: Value, os: Entries, i: nat): (r: Result<bool>)
    requires q.VDict? && i <= |q.entries|
    decreases q, |q.entries| - i
  {
    if i == |q.entries| then Ok(true)
    else
      var (k, sub) := q.entries[i];
      if IsOperator(k) then Err(NotImplementedError)
      else match EntryIndex(os, k)
        case None => Ok(false)
        case Some(j) =>
          match QueryJson(sub, os[j].1)
          case Err(e) => Err(e)
          case Ok(b) => if !b then Ok(false) else QueryEntries(q, os, i + 1)
  }

  // No operator key anywhere in a dictionary query.
  predicate OperatorFree(q: Value)
  {
    q.VDict? ==> forall i :: 0 <= i < |q.entries| ==> !IsOperator(q.entries[i].0) && OperatorFree(q.entries[i].1)
  }

  // What a query asks for: every query key is present in the object and its
  // value satisfies the sub-query; extra object keys do not matter.
  predicate Satisfies(q: Value, o: Value)
  {
    if q.VDict? then
      o.VDict? &&
      forall i :: 0 <= i < |q.entries| ==>
        EntryIndex(o.entries, q.entries[i].0).Some? &&
        Satisfies(q.entries[i].1, o.entries[EntryIndex(o.entries, q.entries[i].0).value].1)
    else PyEq(q, o)
  }

  // On operator-free queries the matcher never raises and decides exactly
  // the satisfaction relation.
  lemma {:induction false} QueryJsonSound(q: Value, o: Value)
    requires OperatorFree(q)
    ensures QueryJson(q, o) == Ok(Satisfies(q, o))
    decreases q, if q.VDict? then |q.entries| + 1 else 0
  {
    if q.VDict? && o.VDict? {
      QueryEntriesSound(q, o.entries, 0);
    }
  }

  lemma {:induction false} QueryEntriesSound(q: Value, os: Entries, i: nat)
    requires q.VDict? && i <= |q.entries| && OperatorFree(q)
    ensures QueryEntries(q, os, i) == Ok(forall l :: i <= l < |q.entries| ==>
                                          EntryIndex(os, q.entries[l].0).Some? &&
                                          Satisfies(q.entries[l].1, os[EntryIndex(os, q.entries[l].0).value].1))
    decreases q, |q.entries| - i
  {
    if i < |q.entries| {
      var (k, sub) := q.entries[i];
      match EntryIndex(os, k)
      case None =>
      case Some(j) =>
        QueryJsonSound(sub, os[j].1);
        QueryEntriesSound(q, os, i + 1);
    }
  }

  // An operator key met first in the walk raises.
  lemma OperatorRaises(q: Value, o: Value)
    requires q.VDict? && o.VDict? && |q.entries| > 0 && IsOperator(q.entries[0].0)
    ensures QueryJson(q, o) == Err(NotImplementedError)
  {
  }

  // Extra object keys are ignored: adding entries under new keys keeps a
  // match.
  lemma {:induction false} ExtraKeysIgnored(q: Value, os: Entries, extra: Entries)
    requires Satisfies(q, VDict(os))
    ensures Satisfies(q, VDict(os + extra))
  {
    if q.VDict? {
      forall i | 0 <= i < |q.entries|
        ensures EntryIndex(os + extra, q.entries[i].0).Some? &&
                Satisfies(q.entries[i].1, (os + extra)[EntryIndex(os + extra, q.entries[i].0).value].1)
      {
        var k := q.entries[i].0;
        var j := EntryIndex(os, k).value;
        EntryIndexAppend(os, extra, k);
        assert (os + extra)[j] == os[j];
      }
    }
  }

  lemma {:induction false} EntryIndexAppend(os: Entries, extra: Entries, k: string)
    requires EntryIndex(os, k).Some?
    ensures EntryIndex(os + extra, k) == EntryIndex(os, k)
  {
    if os[0].0 != k {
      assert (os + extra)[1..] == os[1..] + extra;
      EntryIndexAppend(os[1..], extra, k);
    }
  }

  /* ---------------- Filtering ---------------- */

  // The indexed fields of an annotation document.
  predicate Indexed(k: string)
  {
    k in {"language", "package", "id", "kind", "function", "method"}
  }

  // Goes to the backend: an indexed field or an operator.
  predicate ForBackend(k: string)
  {
    Indexed(k) || IsOperator(k)
  }

  // The entries of a query that go to the backend, in order.
  function BackendPart(query: Entries): (r: Entries)
    ensures forall e :: e in r <==> e in query && ForBackend(e.0)
  {
    if query == [] then []
    else
      var last := query[|query| - 1];
      BackendPart(query[..|query| - 1]) + (if ForBackend(last.0) then [last] else [])
  }

  // The entries left in the query, in order.
  function Residual(query: Entries): (r: Entries)
    ensures forall e :: e in r <==> e in query && !ForBackend(e.0)
  {
    if query == [] then []
    else
      var last := query[|query| - 1];
      Residual(query[..|query| - 1]) + (if ForBackend(last.0) then [] else [last])
  }

  // The residual query holds no top-level operator.
  lemma ResidualHasNoOperator(query: Entries)
    ensures forall e :: e in Residual(query) ==> !IsOperator(e.0) && !Indexed(e.0)
  {
  }

  // The documents among docs that the residual query matches, in order; the
  // first error the matcher raises stops the walk.
  function Matches(query: Entries, docs: seq<Value>): (r: Result<seq<Value>>)
    ensures r.Ok? ==> forall d :: d in r.value ==> d in docs && QueryJson(VDict(query), d) == Ok(true)
    ensures r.Ok? ==> forall d :: d in docs ==> QueryJson(VDict(query), d).Ok?
    ensures (forall d :: d in docs ==> QueryJson(VDict(query), d).Ok?) ==> r.Ok?
    ensures r.Ok? ==> forall d :: d in docs && QueryJson(VDict(query), d) == Ok(true) ==> d in r.value
  {
    if docs == [] then Ok([])
    else
      var last := docs[|docs| - 1];
      assert forall d :: d in docs <==> d in docs[..|docs| - 1] || d == last;
      match Matches(query, docs[..|docs| - 1])
      case Err(e) => Err(e)
      case Ok(rest) =>
        match QueryJson(VDict(query), last)
        case Err(e) => Err(e)
        case Ok(b) => Ok(rest + (if b then [last] else []))
  }

  // `filter(query)`: moves the indexed and operator entries out of the
  // caller's query (which is returned as `left`), asks the backend with
  // them, and keeps the backend's documents that the rest of the query
  // matches. The backend is a parameter.
  method Filter(query: Entries, backend: Entries -> seq<Value>) returns (left: Entries, found: Result<seq<Value>>)
    ensures left == Residual(query)
    ensures found == Matches(left, backend(BackendPart(query)))
  {
    var sent: Entries := [];
    left := [];
    var i := 0;
    while i < |query|
      invariant i <= |query|
      invariant sent == BackendPart(query[..i]) && left == Residual(query[..i])
    {
      assert query[..i + 1][..i] == query[..i];
      if ForBackend(query[i].0) {
        sent := sent + [query[i]];
      } else {
        left := left + [query[i]];
      }
      i := i + 1;
    }
    assert query[..|query|] == query;
    found := Matches(left, backend(sent));
  }

  // With no operator below the top level, filtering never raises and finds
  // exactly the backend documents that satisfy the residual query.
  lemma FilterExact(query: Entries, docs: seq<Value>)
    requires OperatorFree(VDict(Residual(query)))
    ensures Matches(Residual(query), docs).Ok?
    ensures forall d :: d in Matches(Residual(query), docs).value <==> d in docs && Satisfies(VDict(Residual(query)), d)
  {
    forall d | d in docs ensures QueryJson(VDict(Residual(query)), d) == Ok(Satisfies(VDict(Residual(query)), d)) {
      QueryJsonSound(VDict(Residual(query)), d);
    }
  }

  // `get(query)`: None for no match, the document for one, LookupError for
  // more; errors of the matcher propagate.
  method Get(query: Entries, backend: Entries -> seq<Value>) returns (left: Entries, r: Result<Option<Value>>)
    ensures left == Residual(query)
    ensures var found := Matches(left, backend(BackendPart(query)));
      (found.Err? ==> r == Err(found.error)) &&
      (found.Ok? && |found.value| == 0 ==> r == Ok(None)) &&
      (found.Ok? && |found.value| == 1 ==> r == Ok(Some(found.value[0]))) &&
      (found.Ok? && |found.value| > 1 ==> r == Err(LookupError))
  {
    var found;
    left, found := Filter(query, backend);
    if found.Err? {
      return left, Err(found.error);
    }
    var notes := found.value;
    if |notes| > 1 {
      r := Err(LookupError);
    } else if notes != [] {
      r := Ok(Some(notes[0]));
    } else {
      r := Ok(None);
    }
  }
}
