/**
 The three broadcast signals of the clipboard service and the log they form.

 The signal methods of the service have empty bodies: emitting a signal is
 the whole of their effect, so the model records each emission by appending
 it to a log. `Live` replays a log; `Causal` says every signal about an
 object other than its creation names an object that is live at that point.
 */
module SignalLog {
  import opened Wire

  datatype Signal =
    | ObjectAdded(objectId: string, name: string)
    | ObjectDeleted(objectId: string)
    | ObjectStateChanged(objectId: string, values: map<string, Value>)

  /** The object ids that exist after the signals of `log`, in order. */
  function Live(log: seq<Signal>): set<string>
    decreases |log|
  {
    if log == [] then {}
    else
      var before := Live(log[..|log| - 1]);
      var last := log[|log| - 1];
      if last.ObjectAdded? then before + {last.objectId}
      else if last.ObjectDeleted? then before - {last.objectId}
      else before
  }

  /** `s` may follow `before`: only a creation may name an object that is not live. */
  predicate Admissible(before: seq<Signal>, s: Signal)
  {
    s.ObjectAdded? || s.objectId in Live(before)
  }

  /** Every signal of `log` is admissible after the signals before it. */
  ghost predicate Causal(log: seq<Signal>)
    decreases |log|
  {
    log == [] || (Causal(log[..|log| - 1]) && Admissible(log[..|log| - 1], log[|log| - 1]))
  }

  /** `log[j]` creates `id` and nothing in `log[j+1..i]` deletes it. */
  ghost predicate OpenAdd(log: seq<Signal>, j: int, i: int, id: string)
  {
    && 0 <= j < i <= |log|
    && log[j].ObjectAdded?
    && log[j].objectId == id
    && forall k :: j < k < i ==> log[k] != ObjectDeleted(id)
  }

  /** A live id was created and not deleted since. */
  lemma {:induction false} LiveHasOpenAdd(log: seq<Signal>, id: string)
    requires id in Live(log)
    ensures exists j :: OpenAdd(log, j, |log|, id)
    decreases |log|
  {
    var n := |log| - 1;
    var before := log[..n];
    if log[n].ObjectAdded? && log[n].objectId == id {
      assert OpenAdd(log, n, |log|, id);
    } else {
      assert id in Live(before);
      LiveHasOpenAdd(before, id);
      var j :| OpenAdd(before, j, n, id);
      assert forall k :: j < k < n ==> log[k] == before[k];
      assert OpenAdd(log, j, |log|, id);
    }
  }

  /** Every prefix of a causal log is causal. */
  lemma {:induction false} CausalPrefix(log: seq<Signal>, i: nat)
    requires Causal(log) && i <= |log|
    ensures Causal(log[..i])
    decreases |log|
  {
    if i < |log| {
      var n := |log| - 1;
      assert log[..n][..i] == log[..i];
      CausalPrefix(log[..n], i);
    } else {
      assert log[..i] == log;
    }
  }

  /**
   In a causal log every `object_state_changed(id)` and every
   `object_deleted(id)` comes after an `object_added(id)` with no
   `object_deleted(id)` in between.
   */
  lemma {:induction false} CausalOrder(log: seq<Signal>, i: nat)
    requires Causal(log) && i < |log| && !log[i].ObjectAdded?
    ensures exists j :: OpenAdd(log, j, i, log[i].objectId)
  {
    var id := log[i].objectId;
    CausalPrefix(log, i + 1);
    var upto := log[..i + 1];
    assert upto[..i] == log[..i];
    assert Admissible(log[..i], log[i]);
    LiveHasOpenAdd(log[..i], id);
    var j :| OpenAdd(log[..i], j, i, id);
    assert OpenAdd(log, j, i, id);
  }

  /** A log extended by one signal is causal exactly when the log is and the signal is admissible. */
  lemma CausalAppend(log: seq<Signal>, s: Signal)
    ensures Causal(log + [s]) <==> Causal(log) && Admissible(log, s)
    ensures s.ObjectAdded? ==> Live(log + [s]) == Live(log) + {s.objectId}
    ensures s.ObjectDeleted? ==> Live(log + [s]) == Live(log) - {s.objectId}
    ensures s.ObjectStateChanged? ==> Live(log + [s]) == Live(log)
  {
  }
}
