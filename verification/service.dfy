/**
 The clipboard service object: a table of clipboard objects keyed by object
 id that remote callers change and query, and the signals it broadcasts. The
 bus transport is not modelled; a broadcast is an append to `emitted`.
 */
module Service {
  import opened ClipboardObject
  import opened Wire
  import opened SignalLog
  import Registry

  class ClipboardDBusServiceHelper {
    /** The registry: object id to clipboard object. */
    var objects: map<string, ClipObj>
    /** Every signal broadcast so far, oldest first. */
    var emitted: seq<Signal>
    /** How display fields follow from formats (decided outside the service). */
    const policy: DisplayPolicy

    function AsState(): Registry.State
      reads this
    {
      Registry.State(objects, emitted)
    }

    ghost predicate Valid()
      reads this
    {
      Registry.Inv(AsState())
    }

    constructor (policy: DisplayPolicy)
      ensures Valid() && AsState() == Registry.Init() && this.policy == policy
    {
      objects := map[];
      emitted := [];
      this.policy := policy;
    }

    method AddObject(objectId: string, name: string)
      requires Valid()
      modifies this
      ensures Valid()
      ensures AsState() == Registry.AddObject(old(AsState()), objectId, name, policy)
    {
      objects := objects[objectId := NewObject(objectId, name, policy)];
      EmitObjectAdded(objectId, name);
    }

    method AddObjectFormat(objectId: string, formatType: string, data: Bytes, onDisk: bool)
      returns (r: Registry.Outcome)
      requires Valid()
      modifies this
      ensures Valid()
      ensures (AsState(), r)
              == Registry.AddObjectFormat(old(AsState()), objectId, formatType, data, onDisk, policy)
    {
      if objectId !in objects {
        return Registry.Fail(Registry.NotFound(objectId));
      }
      var cbObject := objects[objectId];
      cbObject := AddFormat(cbObject, Format(formatType, data, onDisk), policy);
      objects := objects[objectId := cbObject];
      EmitObjectStateChanged(objectId, StateValues(cbObject, cbObject.percent));
      r := Registry.Pass;
    }

    method DeleteObject(objectId: string) returns (r: Registry.Outcome)
      requires Valid()
      modifies this
      ensures Valid()
      ensures (AsState(), r) == Registry.DeleteObject(old(AsState()), objectId)
    {
      if objectId !in objects {
        return Registry.Fail(Registry.NotFound(objectId));
      }
      objects := objects - {objectId};
      EmitObjectDeleted(objectId);
      r := Registry.Pass;
    }

    method SetObjectPercent(objectId: string, percent: int) returns (r: Registry.Outcome)
      requires Valid()
      modifies this
      ensures Valid()
      ensures (AsState(), r) == Registry.SetObjectPercent(old(AsState()), objectId, percent)
    {
      if objectId !in objects {
        return Registry.Fail(Registry.NotFound(objectId));
      }
      var cbObject := objects[objectId];
      cbObject := SetPercent(cbObject, percent);
      objects := objects[objectId := cbObject];
      EmitObjectStateChanged(objectId, StateValues(cbObject, percent));
      r := Registry.Pass;
    }

    /**
     `get_object`: the object's state and the list of its format types, each
     listed once, in whatever order the table yields them.
     */
    method GetObject(objectId: string) returns (r: Registry.Result<map<string, Value>>)
      ensures objectId !in objects ==> r == Registry.Err(Registry.NotFound(objectId))
      ensures objectId in objects ==> r.Ok? && IsSummary(r.value, objects[objectId])
    {
      if objectId !in objects {
        return Registry.Err(Registry.NotFound(objectId));
      }
      var cbObject := objects[objectId];
      var formats := cbObject.formats;
      var formatTypes: seq<string> := [];
      var rest := formats.Keys;
      while rest != {}
        invariant rest <= formats.Keys
        invariant |formatTypes| + |rest| == |formats.Keys|
        invariant forall i :: 0 <= i < |formatTypes| ==> formatTypes[i] in formats && formatTypes[i] !in rest
        invariant forall k :: k in formats ==> k in rest || k in formatTypes
        invariant forall i, j :: 0 <= i < j < |formatTypes| ==> formatTypes[i] != formatTypes[j]
        decreases |rest|
      {
        var t :| t in rest;
        formatTypes := formatTypes + [t];
        rest := rest - {t};
      }
      r := Registry.Ok(Summary(cbObject, formatTypes));
    }

    /** `get_object_data`: the stored data of one format, unchanged. */
    method GetObjectData(objectId: string, formatType: string) returns (r: Registry.Result<Bytes>)
      ensures r == Registry.ObjectData(objects, objectId, formatType)
    {
      if objectId !in objects {
        return Registry.Err(Registry.NotFound(objectId));
      }
      var formats := objects[objectId].formats;
      if formatType !in formats {
        return Registry.Err(Registry.FormatNotFound(formatType));
      }
      r := Registry.Ok(formats[formatType].data);
    }

    /** Signal `object_added`: broadcasting it is its whole effect. */
    method EmitObjectAdded(objectId: string, name: string)
      modifies this`emitted
      ensures emitted == old(emitted) + [ObjectAdded(objectId, name)]
    {
      emitted := emitted + [ObjectAdded(objectId, name)];
    }

    /** Signal `object_deleted`. */
    method EmitObjectDeleted(objectId: string)
      modifies this`emitted
      ensures emitted == old(emitted) + [ObjectDeleted(objectId)]
    {
      emitted := emitted + [ObjectDeleted(objectId)];
    }

    /** Signal `object_state_changed`. */
    method EmitObjectStateChanged(objectId: string, values: map<string, Value>)
      modifies this`emitted
      ensures emitted == old(emitted) + [ObjectStateChanged(objectId, values)]
    {
      emitted := emitted + [ObjectStateChanged(objectId, values)];
    }
  }

  /** The bytes of "hello". */
  const Hello: Bytes := [0x68, 0x65, 0x6c, 0x6c, 0x6f]

  /**
   A caller's session: create "o1", add a text format, set the percent to 50,
   query, read the data, delete, query again. The contracts of the service
   alone fix every reply and every broadcast.
   */
  method Scenario(policy: DisplayPolicy)
    returns (summary: Registry.Result<map<string, Value>>, data: Registry.Result<Bytes>,
             afterDelete: Registry.Result<map<string, Value>>, signals: seq<Signal>)
    ensures summary.Ok? && summary.value.Keys == StateKeys() + {FormatsKey}
    ensures summary.value[NameKey] == Str("Clip") && summary.value[PercentKey] == Int(50)
    ensures summary.value[FormatsKey] == StrList(["text/plain"])
    ensures data == Registry.Ok(Hello)
    ensures afterDelete == Registry.Err(Registry.NotFound("o1"))
    ensures |signals| == 4
    ensures signals[0] == ObjectAdded("o1", "Clip") && signals[3] == ObjectDeleted("o1")
    ensures signals[1].ObjectStateChanged? && signals[1].values.Keys == StateKeys() && signals[1].values[PercentKey] == Int(0)
    ensures signals[2].ObjectStateChanged? && signals[2].values.Keys == StateKeys() && signals[2].values[PercentKey] == Int(50)
    ensures signals[2].values[IconKey]
            == Str(policy(map["text/plain" := Format("text/plain", Hello, false)]).icon)
  {
    var service := new ClipboardDBusServiceHelper(policy);
    service.AddObject("o1", "Clip");
    var done := service.AddObjectFormat("o1", "text/plain", Hello, false);
    done := service.SetObjectPercent("o1", 50);
    summary := service.GetObject("o1");
    EnumerateSingleton(summary.value[FormatsKey].items, "text/plain");
    data := service.GetObjectData("o1", "text/plain");
    done := service.DeleteObject("o1");
    afterDelete := service.GetObject("o1");
    signals := service.emitted;
  }
}
