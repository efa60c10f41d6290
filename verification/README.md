# Clipboard service registry

This project models the clipboard service of the Sugar shell
(`services/clipboard/clipboardservice.py`, class `ClipboardDBusServiceHelper`).
The service keeps a table `_objects` from an object id to a clipboard object.
Each clipboard object has a name, a progress percent, icon, preview and
activity fields, and a table of formats keyed by format type. Each format holds
data and an `on_disk` flag.

Remote callers reach the service over D-Bus:
- Four mutating calls change the table and then broadcast one signal:
  - `add_object` broadcasts `object_added`;
  - `delete_object` broadcasts `object_deleted`;
  - `add_object_format` and `set_object_percent` broadcast `object_state_changed`.
- Two queries, `get_object` and `get_object_data`, read the table and broadcast nothing.

A lookup of an unknown key raises `KeyError` before anything changes.

Modules:
- `ClipboardObject` (`clipboard_object.dfy`): the clipboard object and its
  formats, as values (`ClipObj`, `Format`).
- `Wire` (`wire.dfy`): the keys `NAME`, `PERCENT`, `ICON`, `PREVIEW`,
  `ACTIVITY` and `FORMATS`, the payload of `object_state_changed`, the reply of
  `get_object`, and `Enumerates`. `Enumerates` states that a list names every
  format type exactly once.
- `SignalLog` (`signal_log.dfy`): the three signals and the log they form.
  - `Live` replays a log to the set of ids that exist after it.
  - `Causal` says that every `object_state_changed(id)` and `object_deleted(id)`
    names an id that is live at that point.
  - `CausalOrder` turns that into the ordering statement. Every such signal
    comes after an `object_added(id)` with no `object_deleted(id)` in between.
- `Registry` (`registry.dfy`): the state machine. A `State` is the table plus
  the signal log. There is one function per call. Each function states:
  - what changes and what stays the same;
  - which signal is appended;
  - the `NotFound` or `FormatNotFound` failure on a missing key;
  - that the invariant `Inv` is preserved. `Inv` says three things: the table's
    keys are `Live(log)`; the log is causal; and each entry's `id` field equals
    the key it is stored under.
- `Service` (`service.dfy`): the class `ClipboardDBusServiceHelper`.
  - It has the fields `objects` (the table) and `emitted` (every signal sent so far).
  - Each mutating method is proved to move the object's state exactly as the
    matching `Registry` function says.
  - `GetObject` builds the format-type list with a loop, as the source does.
    Its contract says the list names each format type exactly once.
  - The signal methods append to `emitted`. In the source their bodies are empty.
  - `Scenario` is a caller's session. It shows that the contracts fix every
    reply and every broadcast.

Behaviour followed from the code where a hardened design would differ:
- `add_object` on an id that already exists replaces the entry silently. There is no
  duplicate-key failure (line 49).
- `set_object_percent` stores any integer it is given. There is no clamping to 0–100 (line 81).
- `get_object_data` returns the stored data as it is. For an on-disk format that data
  is the path, not the file contents (line 114).
- Both failures are a `KeyError` in the source. The model names them by which lookup
  failed: `NotFound(id)` at lines 56, 73, 80, 94 and 112, and
  `FormatNotFound(type)` at line 114.

Assumptions about `clipboardobject.py`, which is not part of this model:
- `add_format` stores a format under its own format type and replaces an
  earlier format of the same type. This follows from lines 98 and 114, which read the
  formats as a table keyed by type.
- A new object has percent 0 and no formats.
- The icon, preview and activity fields are computed from the formats by a rule
  outside the service. The model takes that rule as a parameter, `DisplayPolicy`,
  given to the service when it is built. `add_format` refreshes the three fields
  from it, and `set_percent` changes only the percent.

## Model

| member | source | states |
|---|---|---|
| `Registry.Init` | services/clipboard/clipboardservice.py:37-39 | the service starts with an empty table and no signals, and that state satisfies the registry invariant |
| `Registry.AddObject` | services/clipboard/clipboardservice.py:48-50 | the id is present afterwards with a fresh object of that name (no formats, whatever entry was there before is replaced); every other entry is unchanged; exactly `object_added(id, name)` is appended; the invariant is preserved |
| `Registry.AddObjectFormat` | services/clipboard/clipboardservice.py:55-68 | on an absent id: `NotFound`, table and log unchanged; otherwise the format is stored under its type in that entry only, the entry's name, id and percent are kept, its display fields are those the policy gives the new formats, and one `object_state_changed` carrying the post-update snapshot (no FORMATS key) is appended; the invariant is preserved |
| `Registry.DeleteObject` | services/clipboard/clipboardservice.py:72-74 | on an absent id: `NotFound`, nothing changes; otherwise exactly that key is removed, every other entry is unchanged, and `object_deleted(id)` is appended; the invariant is preserved |
| `Registry.SetObjectPercent` | services/clipboard/clipboardservice.py:79-86 | on an absent id: `NotFound`, nothing changes; otherwise only that entry's percent is replaced, with the given value unvalidated, and one `object_state_changed` is appended whose PERCENT is that value and whose other values are the entry's post-update ones; the invariant is preserved |
| `Registry.ObjectData` | services/clipboard/clipboardservice.py:111-114 | succeeds exactly when the id and the format type are both present, and then returns the stored data unchanged; an absent id gives `NotFound`, an absent type gives `FormatNotFound` |
| `Registry.DeleteThenAddIsFresh` | services/clipboard/clipboardservice.py:48-74 | deleting an object and creating it again gives the same table as creating it over the old entry, or in a table that never held it: no formats survive the deletion |
| `Registry.FreshObjectHasNoData` | services/clipboard/clipboardservice.py:111-114 | reading any format of a freshly created object fails with `FormatNotFound` |
| `Registry.SignalOrder` | services/clipboard/clipboardservice.py:48-86 | in every state satisfying the invariant, each `object_state_changed(id)` and `object_deleted(id)` in the log follows an `object_added(id)` with no `object_deleted(id)` in between |
| `SignalLog.CausalOrder` | services/clipboard/clipboardservice.py:117-127 | the same ordering for any causal log of the three signals |
| `SignalLog.LiveHasOpenAdd` | services/clipboard/clipboardservice.py:48-75 | an id that a log leaves live was added and has not been deleted since |
| `SignalLog.CausalAppend` | services/clipboard/clipboardservice.py:117-127 | one more signal keeps a log causal exactly when it is a creation or names a live id; creation adds the id, deletion removes it, a state change leaves the live set alone |
| `Wire.StateValues` | services/clipboard/clipboardservice.py:64-68 | the `object_state_changed` payload has exactly the keys NAME, PERCENT, ICON, PREVIEW, ACTIVITY (no FORMATS), holding the object's name, the given percent, and its icon, preview and activity |
| `Wire.Summary` | services/clipboard/clipboardservice.py:101-107 | the `get_object` reply has exactly the five state keys plus FORMATS; without FORMATS it is the state-change payload of the same object |
| `Service.ClipboardDBusServiceHelper.constructor` | services/clipboard/clipboardservice.py:37-39 | a new service has an empty table and has emitted nothing |
| `Service.ClipboardDBusServiceHelper.AddObject` | services/clipboard/clipboardservice.py:48-51 | the new table and signal log are those of `Registry.AddObject`; the invariant holds afterwards |
| `Service.ClipboardDBusServiceHelper.AddObjectFormat` | services/clipboard/clipboardservice.py:55-68 | the lookup comes first; the new state and the outcome are those of `Registry.AddObjectFormat` |
| `Service.ClipboardDBusServiceHelper.DeleteObject` | services/clipboard/clipboardservice.py:72-75 | the new state and the outcome are those of `Registry.DeleteObject` |
| `Service.ClipboardDBusServiceHelper.SetObjectPercent` | services/clipboard/clipboardservice.py:79-89 | the new state and the outcome are those of `Registry.SetObjectPercent`; the payload is built from the percent argument, as the source does |
| `Service.ClipboardDBusServiceHelper.GetObject` | services/clipboard/clipboardservice.py:93-107 | read-only; an absent id gives `NotFound`; otherwise the reply is the object's snapshot with a FORMATS list naming each of its format types exactly once and nothing else |
| `Service.ClipboardDBusServiceHelper.GetObjectData` | services/clipboard/clipboardservice.py:111-114 | read-only; the reply is `Registry.ObjectData` of the current table |
| `Service.ClipboardDBusServiceHelper.EmitObjectAdded` | services/clipboard/clipboardservice.py:117-119 | emitting `object_added` appends exactly that signal and changes nothing else |
| `Service.ClipboardDBusServiceHelper.EmitObjectDeleted` | services/clipboard/clipboardservice.py:121-123 | emitting `object_deleted` appends exactly that signal and changes nothing else |
| `Service.ClipboardDBusServiceHelper.EmitObjectStateChanged` | services/clipboard/clipboardservice.py:125-127 | emitting `object_state_changed` appends exactly that signal and changes nothing else |
| `Service.Scenario` | services/clipboard/clipboardservice.py:48-114 | create "o1"/"Clip", add "text/plain" = "hello", set percent 50: `get_object` then gives name "Clip", percent 50, formats ["text/plain"]; `get_object_data` gives "hello"; after `delete_object`, `get_object` fails with `NotFound`; the four broadcasts are added, two state changes (the second carrying percent 50 and the display of the added format), deleted |

## Left out

- D-Bus transport: the session bus, bus-name registration, the object path and the
  method and signal decorators (lines 41-46). Signals are modelled only as appends
  to `emitted`. Delivery to subscribers is not modelled, and neither is the failure
  of a second instance to claim the bus name.
  The marshalling of replies is not modelled either. The bus library may be unable
  to send the `a{sv}` reply of `get_object` (line 106) when FORMATS is an empty list,
  because it cannot infer an element type for that list. If so, querying a freshly
  created object fails in the running program, while the model returns `Ok` with an
  empty FORMATS list.
- The D-Bus argument types: the `i` signature bounds the percent to 32 bits before
  the call reaches the service, and the model takes any integer. Strings and byte
  arrays are unbounded sequences.
- `logging.debug` calls (lines 51, 59-62, 75, 88-89). They are output only, except
  for the string built at line 60; see the `Registry.AddObjectFormat` line below.
- Registry.AddObjectFormat: does not model a failure of the log message at line 60.
  That line concatenates the format type with the data of an on-disk format, and it
  runs whether or not debug logging is enabled. Under Python 2, that string can fail to
  build. This happens when the bus delivers the type as a unicode string and the path as
  bytes that do not decode, for example `/tmp/caf\xe9`. In that case the source has
  already stored the format at line 57. It sends no `object_state_changed` and returns a
  fault to the caller. The model always returns `Pass` and appends the signal. The
  argument types come from the bus library, which is not part of this model, and so
  does the decoding.
- `ClipboardService` and its main loop with the interrupt handling (lines 129-138).
  They are process lifecycle, not registry behaviour.
- `clipboardobject.py` is not part of this model. The model states as assumptions
  that `add_format` keys by format type, that a new object has percent 0, and that
  icon, preview and activity come from the formats through a parameter.
- In the source, a clipboard object is a mutable Python object that the table
  refers to. The model holds it as a value and writes the updated value back
  into the table. Aliasing of that object by other references is not captured;
  in the source no other reference escapes the service.
- The order of `FORMATS` in a `get_object` reply follows Python's dict iteration.
  The model picks the next key arbitrarily. `GetObject` promises each type exactly once, in no particular order.
- Concurrency: calls are handled one at a time by the main loop, so each call is
  modelled as one atomic step.
- `src/view/home/HomeBox.py` (home-screen layout, device icons, reboot and shutdown,
  the about dialog). It is GUI and hardware glue.
