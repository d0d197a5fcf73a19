/** The publish-subscribe registry of `src/js/lib/pubsub.js`. */
module PubSubs {
  import opened JsValues

  /** A registered callback. `fn` is what calling it computes from the published data;
      `owner` is the object whose closure it is (null for a free function), which gives
      the callback an identity. */
  datatype Callback = Callback(owner: object?, fn: Value -> Value)

  /** The default parameter `data = {}`: an omitted (undefined) argument becomes `{}`. */
  function DataOrDefault(data: Value): Value {
    if data == Undefined then EmptyObject else data
  }

  /** Calling every callback on `data`, in order, and collecting the results. */
  function ApplyAll(callbacks: seq<Callback>, data: Value): (results: seq<Value>)
    ensures |results| == |callbacks|
    ensures forall i :: 0 <= i < |callbacks| ==> results[i] == callbacks[i].fn(data)
    decreases |callbacks|
  {
    if callbacks == [] then [] else [callbacks[0].fn(data)] + ApplyAll(callbacks[1..], data)
  }

  /** How many of `callbacks` belong to `owner`. */
  function CountOwned(callbacks: seq<Callback>, owner: object?): nat
    decreases |callbacks|
  {
    if callbacks == [] then 0
    else
      var last := |callbacks| - 1;
      CountOwned(callbacks[..last], owner) + (if callbacks[last].owner == owner then 1 else 0)
  }

  /** Appending a callback adds one to its owner's count and leaves every other
      owner's count as it was. */
  lemma {:induction false} CountOwnedAppend(callbacks: seq<Callback>, callback: Callback, owner: object?)
    ensures CountOwned(callbacks + [callback], owner)
            == CountOwned(callbacks, owner) + (if callback.owner == owner then 1 else 0)
  {
    assert (callbacks + [callback])[..|callbacks|] == callbacks;
  }

  lemma {:induction false} CountOwnedZero(callbacks: seq<Callback>, owner: object?)
    ensures CountOwned(callbacks, owner) == 0
        <==> forall j :: 0 <= j < |callbacks| ==> callbacks[j].owner != owner
    decreases |callbacks|
  {
    if callbacks != [] {
      var last := |callbacks| - 1;
      CountOwnedZero(callbacks[..last], owner);
      assert forall j :: 0 <= j < last ==> callbacks[..last][j] == callbacks[j];
    }
  }

  /** When an owner has exactly one callback in the list, a publish applies exactly
      one callback of that owner. */
  lemma {:induction false} SoleOwned(callbacks: seq<Callback>, owner: object?)
    requires CountOwned(callbacks, owner) == 1
    ensures exists i :: 0 <= i < |callbacks| && callbacks[i].owner == owner
              && forall j :: 0 <= j < |callbacks| && j != i ==> callbacks[j].owner != owner
    decreases |callbacks|
  {
    var last := |callbacks| - 1;
    var prefix := callbacks[..last];
    assert forall j :: 0 <= j < last ==> prefix[j] == callbacks[j];
    if callbacks[last].owner == owner {
      CountOwnedZero(prefix, owner);
      assert forall j :: 0 <= j < |callbacks| && j != last ==> callbacks[j].owner != owner;
    } else {
      SoleOwned(prefix, owner);
      var i :| 0 <= i < |prefix| && prefix[i].owner == owner
                && forall j :: 0 <= j < |prefix| && j != i ==> prefix[j].owner != owner;
      assert forall j :: 0 <= j < |callbacks| && j != i ==> callbacks[j].owner != owner;
    }
  }

  class PubSub {
    /** Event name to the callbacks registered for it, in subscription order. */
    var events: map<string, seq<Callback>>

    constructor ()
      ensures events == map[]
    {
      events := map[];
    }

    /** The callbacks registered for `event`; none when it has no entry. */
    function Callbacks(event: string): seq<Callback>
      reads this
    {
      if event in events then events[event] else []
    }

    /** Appends `callback` to the list of `event`, creating the list on first use, and
        returns the new length of that list. */
    method Subscribe(event: string, callback: Callback) returns (count: nat)
      modifies this
      ensures events == old(events)[event := old(Callbacks(event)) + [callback]]
      ensures count == |Callbacks(event)| == |old(Callbacks(event))| + 1
      ensures event !in old(events) ==> count == 1
      ensures forall e :: old(Callbacks(e)) <= Callbacks(e)
      ensures forall owner: object? :: CountOwned(Callbacks(event), owner)
                == CountOwned(old(Callbacks(event)), owner) + (if callback.owner == owner then 1 else 0)
    {
      ghost var before := Callbacks(event);
      if event !in events {
        events := events[event := []];
      }
      events := events[event := events[event] + [callback]];
      count := |events[event]|;
      forall owner: object? ensures CountOwned(Callbacks(event), owner)
          == CountOwned(before, owner) + (if callback.owner == owner then 1 else 0) {
        CountOwnedAppend(before, callback, owner);
      }
    }

    /** Calls every callback of `event` with `data` (`{}` when omitted), in subscription
        order, and returns their results; an event without an entry gives no results.
        Being a function, it leaves the registry as it was. */
    function Publish(event: string, data: Value): (results: seq<Value>)
      reads this
      ensures event !in events ==> results == []
      ensures |results| == |Callbacks(event)|
      ensures forall i :: 0 <= i < |results| ==> results[i] == Callbacks(event)[i].fn(DataOrDefault(data))
      ensures data == Undefined ==>
                forall i :: 0 <= i < |results| ==> results[i] == Callbacks(event)[i].fn(EmptyObject)
    {
      if event !in events then [] else ApplyAll(events[event], DataOrDefault(data))
    }
  }
}
