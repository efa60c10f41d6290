/**
 The clipboard registry as a state machine: a table from object id to
 clipboard object, and the log of signals emitted so far. Each function here
 is the specification of one call of the service; the service class is
 proved to follow them.
 */
module Registry {
  import opened ClipboardObject
  import opened Wire
  import opened SignalLog

  /** Why a call failed: a lookup by object id or by format type found nothing. */
  datatype Fault = NotFound(objectId: string) | FormatNotFound(formatType: string)

  /** Completion of a call that returns nothing. */
  datatype Outcome = Pass | Fail(fault: Fault)

  /** Completion of a call that returns a value. */
  datatype Result<T> = Ok(value: T) | Err(fault: Fault)

  datatype State = State(objects: map<string, ClipObj>, log: seq<Signal>)

  /** Every entry except the one at `id` is the same in `t` and `t'`. */
  ghost predicate OthersUnchanged(t: map<string, ClipObj>, t': map<string, ClipObj>, id: string)
  {
    && (forall k :: k != id ==> (k in t <==> k in t'))
    && (forall k :: k in t && k != id ==> t'[k] == t[k])
  }

  /** The ids in the table are those the log leaves live; each entry knows its id. */
  ghost predicate Inv(s: State)
  {
    && s.objects.Keys == Live(s.log)
    && Causal(s.log)
    && forall id :: id in s.objects ==> s.objects[id].id == id
  }

  /** An empty registry that has emitted nothing. */
  function Init(): (s: State)
    ensures Inv(s)
  {
    State(map[], [])
  }

  /** `add_object`: (re)creates the entry at `id` and emits `object_added(id, name)`. */
  function AddObject(s: State, id: string, name: string, policy: DisplayPolicy): (s': State)
    ensures id in s'.objects && s'.objects[id] == NewObject(id, name, policy)
    // Corollary of the clause above, spelled out: the new entry has the given name and no formats.
    ensures s'.objects[id].name == name && s'.objects[id].formats == map[]
    ensures s'.objects.Keys == s.objects.Keys + {id}
    ensures OthersUnchanged(s.objects, s'.objects, id)
    ensures s'.log == s.log + [ObjectAdded(id, name)]
    ensures Inv(s) ==> Inv(s')
  {
    var s' := State(s.objects[id := NewObject(id, name, policy)], s.log + [ObjectAdded(id, name)]);
    CausalAppend(s.log, ObjectAdded(id, name));
    s'
  }

  /**
   `add_object_format`: stores the format under its type in the entry at `id`
   and emits `object_state_changed` with the entry's new state; fails with
   nothing changed when `id` is absent.
   */
  function AddObjectFormat(s: State, id: string, formatType: string, data: Bytes, onDisk: bool,
                           policy: DisplayPolicy): (r: (State, Outcome))
    ensures id !in s.objects ==> r == (s, Fail(NotFound(id)))
    ensures id in s.objects ==>
      && r.1 == Pass
      && r.0.objects.Keys == s.objects.Keys
      && OthersUnchanged(s.objects, r.0.objects, id)
      && r.0.objects[id].formats == s.objects[id].formats[formatType := Format(formatType, data, onDisk)]
      // Corollary of the line above: the data is stored as given.
      && r.0.objects[id].formats[formatType].data == data
      && r.0.objects[id].id == s.objects[id].id
      && r.0.objects[id].name == s.objects[id].name
      && r.0.objects[id].percent == s.objects[id].percent
      && DisplayOf(r.0.objects[id].formats, policy)
         == Display(r.0.objects[id].icon, r.0.objects[id].preview, r.0.objects[id].activity)
      && r.0.log == s.log + [ObjectStateChanged(id, StateValues(r.0.objects[id], r.0.objects[id].percent))]
    ensures Inv(s) ==> Inv(r.0)
  {
    if id !in s.objects then (s, Fail(NotFound(id)))
    else
      var o := AddFormat(s.objects[id], Format(formatType, data, onDisk), policy);
      var signal := ObjectStateChanged(id, StateValues(o, o.percent));
      CausalAppend(s.log, signal);
      (State(s.objects[id := o], s.log + [signal]), Pass)
  }

  /** `delete_object`: removes the entry at `id` and emits `object_deleted(id)`; fails when absent. */
  function DeleteObject(s: State, id: string): (r: (State, Outcome))
    ensures id !in s.objects ==> r == (s, Fail(NotFound(id)))
    ensures id in s.objects ==>
      && r.1 == Pass
      && r.0.objects.Keys == s.objects.Keys - {id}
      && OthersUnchanged(s.objects, r.0.objects, id)
      && r.0.log == s.log + [ObjectDeleted(id)]
    ensures Inv(s) ==> Inv(r.0)
  {
    if id !in s.objects then (s, Fail(NotFound(id)))
    else
      var signal := ObjectDeleted(id);
      CausalAppend(s.log, signal);
      (State(s.objects - {id}, s.log + [signal]), Pass)
  }

  /**
   `set_object_percent`: stores `percent` unchecked in the entry at `id` and
   emits `object_state_changed` whose PERCENT is `percent` and whose other
   values are the entry's; fails with nothing changed when `id` is absent.
   */
  function SetObjectPercent(s: State, id: string, percent: int): (r: (State, Outcome))
    ensures id !in s.objects ==> r == (s, Fail(NotFound(id)))
    ensures id in s.objects ==>
      && r.1 == Pass
      && r.0.objects.Keys == s.objects.Keys
      && OthersUnchanged(s.objects, r.0.objects, id)
      && r.0.objects[id] == s.objects[id].(percent := percent)
      && r.0.log == s.log + [ObjectStateChanged(id, StateValues(r.0.objects[id], r.0.objects[id].percent))]
      // Corollary of the line above: the broadcast PERCENT is the argument.
      && r.0.log[|s.log|].values[PercentKey] == Int(percent)
    ensures Inv(s) ==> Inv(r.0)
  {
    if id !in s.objects then (s, Fail(NotFound(id)))
    else
      var o := SetPercent(s.objects[id], percent);
      var signal := ObjectStateChanged(id, StateValues(o, percent));
      CausalAppend(s.log, signal);
      (State(s.objects[id := o], s.log + [signal]), Pass)
  }

  /**
   `get_object_data`: the data stored for `formatType` in the entry at `id`,
   as stored (a path when the format is on disk).
   */
  function ObjectData(objects: map<string, ClipObj>, id: string, formatType: string): (r: Result<Bytes>)
    ensures id !in objects ==> r == Err(NotFound(id))
    ensures id in objects && formatType !in objects[id].formats ==> r == Err(FormatNotFound(formatType))
    ensures r.Ok? <==> id in objects && formatType in objects[id].formats
    ensures r.Ok? ==> r.value == objects[id].formats[formatType].data
  {
    if id !in objects then Err(NotFound(id))
    else if formatType !in objects[id].formats then Err(FormatNotFound(formatType))
    else Ok(objects[id].formats[formatType].data)
  }

  /** Deleting an entry and creating it again leaves no trace of the deleted entry. */
  lemma DeleteThenAddIsFresh(s: State, id: string, name: string, policy: DisplayPolicy)
    requires id in s.objects
    ensures AddObject(DeleteObject(s, id).0, id, name, policy).objects
            == AddObject(s, id, name, policy).objects
    ensures AddObject(DeleteObject(s, id).0, id, name, policy).objects
            == AddObject(State(s.objects - {id}, []), id, name, policy).objects
  {
  }

  /** A freshly created object has no data in any format. */
  lemma FreshObjectHasNoData(s: State, id: string, name: string, formatType: string, policy: DisplayPolicy)
    ensures ObjectData(AddObject(s, id, name, policy).objects, id, formatType) == Err(FormatNotFound(formatType))
  {
  }

  /** In every registry state, each non-creation signal follows an open creation of its object. */
  lemma SignalOrder(s: State, i: nat)
    requires Inv(s) && i < |s.log| && !s.log[i].ObjectAdded?
    ensures exists j :: OpenAdd(s.log, j, i, s.log[i].objectId)
  {
    CausalOrder(s.log, i);
  }
}
