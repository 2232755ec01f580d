// The object-id registry of the tracer (`ObjectTracker`): string ids for
// live objects without holding references to them.
module ObjectTracking {
  import opened Base

  // A Python object as the tracker sees it: its address (`id(obj)`), whether
  // it is a function or method object, and whether it can be weakly
  // referenced (primitive scalars and strings cannot).
  datatype Obj = Obj(addr: nat, isFunction: bool, weakReferenceable: bool)

  // `is_trackable(obj)`: function and method objects never are; other
  // objects are when a weak reference to them can be made.
  predicate IsTrackable(obj: Obj)
  {
    !obj.isFunction && obj.weakReferenceable
  }

  lemma FunctionsNeverTrackable(obj: Obj)
    requires obj.isFunction
    ensures !IsTrackable(obj)
  {
  }

  class ObjectTracker {
    // Address -> object id.
    var memMap: map<nat, string>
    // Object id -> the weakly referenced object.
    var refMap: map<string, Obj>

    // The two maps are inverse to each other and hold only trackable
    // objects.
    ghost predicate Valid()
      reads this
    {
      (forall a :: a in memMap ==> memMap[a] in refMap && refMap[memMap[a]].addr == a) &&
      (forall i :: i in refMap ==> refMap[i].addr in memMap && memMap[refMap[i].addr] == i) &&
      (forall i :: i in refMap ==> IsTrackable(refMap[i]))
    }

    constructor ()
      ensures Valid() && memMap == map[] && refMap == map[]
    {
      memMap := map[];
      refMap := map[];
    }

    // `get_object(obj_id)`: the object while it is tracked and alive, else
    // None.
    function GetObject(id: string): (r: Option<Obj>)
      reads this
      requires Valid()
      ensures r.Some? <==> id in refMap
      ensures r.Some? ==> IsTrackable(r.value) && GetId(r.value) == Some(id)
    {
      if id in refMap then Some(refMap[id]) else None
    }

    // `get_id(obj)`: None for an untrackable or untracked object, else its id.
    function GetId(obj: Obj): (r: Option<string>)
      reads this
      ensures r.Some? <==> IsTrackable(obj) && obj.addr in memMap
      ensures r.Some? ==> r.value == memMap[obj.addr]
    {
      if !IsTrackable(obj) then None
      else if obj.addr in memMap then Some(memMap[obj.addr])
      else None
    }

    // `is_tracked(obj)`: only trackable objects can be tracked.
    function IsTracked(obj: Obj): (r: bool)
      reads this
      ensures r ==> IsTrackable(obj)
      ensures r <==> GetId(obj).Some?
    {
      IsTrackable(obj) && obj.addr in memMap
    }

    // `track(obj)`: TypeError for an untrackable object; a tracked object
    // keeps its id; otherwise the object is registered under freshId (the
    // random id, which is new).
    method Track(obj: Obj, freshId: string) returns (r: Result<string>)
      requires Valid() && freshId !in refMap
      requires obj.addr in memMap ==> refMap[memMap[obj.addr]] == obj
      modifies this
      ensures Valid()
      ensures !IsTrackable(obj) ==> r == Err(TypeError) && memMap == old(memMap) && refMap == old(refMap)
      ensures IsTrackable(obj) && obj.addr in old(memMap) ==>
                r == Ok(old(memMap)[obj.addr]) && memMap == old(memMap) && refMap == old(refMap)
      ensures IsTrackable(obj) && obj.addr !in old(memMap) ==>
                r == Ok(freshId) && memMap == old(memMap)[obj.addr := freshId] && refMap == old(refMap)[freshId := obj]
      ensures r.Ok? ==> GetObject(r.value) == Some(obj) && GetId(obj) == Some(r.value)
    {
      if !IsTrackable(obj) {
        return Err(TypeError);
      }
      if obj.addr in memMap {
        return Ok(memMap[obj.addr]);
      }
      memMap := memMap[obj.addr := freshId];
      refMap := refMap[freshId := obj];
      r := Ok(freshId);
    }

    // The weak-reference callback run when the tracked object at address
    // addr is garbage collected: both entries go.
    method Collect(addr: nat)
      requires Valid() && addr in memMap
      modifies this
      ensures Valid()
      ensures memMap == old(memMap) - {addr} && refMap == old(refMap) - {old(memMap)[addr]}
      ensures GetObject(old(memMap)[addr]).None?
    {
      var id := memMap[addr];
      memMap := memMap - {addr};
      refMap := refMap - {id};
    }
  }

  // Tracking twice gives the same id: the second call changes nothing.
  method TrackTwice(t: ObjectTracker, obj: Obj, id1: string, id2: string) returns (r1: Result<string>, r2: Result<string>)
    requires t.Valid() && id1 !in t.refMap && id2 !in t.refMap && id1 != id2
    requires obj.addr in t.memMap ==> t.refMap[t.memMap[obj.addr]] == obj
    modifies t
    ensures r1 == r2
    ensures IsTrackable(obj) <==> r1.Ok?
  {
    r1 := t.Track(obj, id1);
    r2 := t.Track(obj, id2);
  }
}
