/**
 The attribute mappings the clipboard service puts on the bus: the values of
 an `object_state_changed` signal and the reply of `get_object`.
 */
module Wire {
  import opened ClipboardObject

  const NameKey := "NAME"
  const PercentKey := "PERCENT"
  const IconKey := "ICON"
  const PreviewKey := "PREVIEW"
  const ActivityKey := "ACTIVITY"
  const FormatsKey := "FORMATS"

  /** A D-Bus variant as the service uses it. */
  datatype Value = Str(s: string) | Int(i: int) | StrList(items: seq<string>)

  /** The five keys every state snapshot carries. */
  function StateKeys(): set<string>
  {
    {NameKey, PercentKey, IconKey, PreviewKey, ActivityKey}
  }

  /** Payload of `object_state_changed`: the object's fields, with `percent` as given by the caller. */
  function StateValues(o: ClipObj, percent: int): (m: map<string, Value>)
    ensures m.Keys == StateKeys() && FormatsKey !in m
    ensures m[NameKey] == Str(o.name) && m[PercentKey] == Int(percent)
    ensures m[IconKey] == Str(o.icon) && m[PreviewKey] == Str(o.preview)
    ensures m[ActivityKey] == Str(o.activity)
  {
    map[NameKey := Str(o.name), PercentKey := Int(percent), IconKey := Str(o.icon),
        PreviewKey := Str(o.preview), ActivityKey := Str(o.activity)]
  }

  /** Reply of `get_object`: the state snapshot plus the list of format types. */
  function Summary(o: ClipObj, formatTypes: seq<string>): (m: map<string, Value>)
    ensures m.Keys == StateKeys() + {FormatsKey}
    ensures m - {FormatsKey} == StateValues(o, o.percent)
    ensures m[FormatsKey] == StrList(formatTypes)
  {
    StateValues(o, o.percent)[FormatsKey := StrList(formatTypes)]
  }

  /** `items` lists every key of `keys` exactly once, and nothing else. */
  ghost predicate Enumerates(items: seq<string>, keys: set<string>)
  {
    && |items| == |keys|
    && (forall i :: 0 <= i < |items| ==> items[i] in keys)
    && (forall k :: k in keys ==> k in items)
    && (forall i, j :: 0 <= i < j < |items| ==> items[i] != items[j])
  }

  /** `m` is a `get_object` reply for `o`: its FORMATS entry enumerates `o`'s format types. */
  ghost predicate IsSummary(m: map<string, Value>, o: ClipObj)
  {
    && FormatsKey in m
    && m[FormatsKey].StrList?
    && m == Summary(o, m[FormatsKey].items)
    && Enumerates(m[FormatsKey].items, o.formats.Keys)
  }

  /** A single format type can only be listed one way. */
  lemma EnumerateSingleton(items: seq<string>, t: string)
    requires Enumerates(items, {t})
    ensures items == [t]
  {
  }
}
