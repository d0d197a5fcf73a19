/** The state container of `src/js/store/store.js`: named actions and mutations, a
    state object whose every key write goes through a trap that publishes
    `stateChange`, and a status flag that only decides whether that trap warns. */
module Stores {
  import opened Options
  import opened JsValues
  import opened PubSubs

  /** The event every trapped state write publishes. */
  const StateChange: string := "stateChange"

  /** The values `'resting'`, `'action'` and `'mutation'` of the store's `status`. */
  datatype Status = Resting | Action | Mutation

  /** A partial state, as the key/value pairs in the order `Object.assign` writes them. */
  type Entries = seq<(string, Value)>

  /** A mutation: from the current state and a payload to the partial state it returns. */
  type MutationFn = (State, Value) -> Entries

  /** An action: from the state when it is dispatched and the payload to the commits it
      makes on the store it is given, as (mutation name, payload) pairs in order. */
  type ActionFn = (State, Value) -> seq<(string, Value)>

  /** The constructor's `params`: `None` for an `actions` or `mutations` property that
      the object does not have, and the raw `state` property. */
  datatype Params = Params(
    actions: Option<map<string, ActionFn>>,
    mutations: Option<map<string, MutationFn>>,
    state: Value)

  /** What a sequence of state writes can be observed to do: the state, the status, the
      data of every `stateChange` publish so far and the keys warned about so far. */
  datatype Trace = Trace(state: State, status: Status, published: seq<State>, warnings: seq<string>)

  /** The keys of a partial state, in write order. */
  function Keys(e: Entries): seq<string> {
    seq(|e|, i requires 0 <= i < |e| => e[i].0)
  }

  /** One write through the trap: store the value, publish the state, warn unless a
      mutation is running, reset the status. */
  function Write(t: Trace, key: string, value: Value): Trace {
    var state := t.state[key := value];
    Trace(state, Resting, t.published + [state],
          if t.status != Mutation then t.warnings + [key] else t.warnings)
  }

  /** `Object.assign(state, e)`: the writes of `e`, in order, each through the trap. */
  function Assign(t: Trace, e: Entries): Trace
    decreases |e|
  {
    if e == [] then t
    else
      var last := |e| - 1;
      Write(Assign(t, e[..last]), e[last].0, e[last].1)
  }

  /** `commit(key, payload)`: nothing when no mutation has that name; otherwise the
      status becomes `'mutation'` and the mutation's result is merged into the state. */
  function CommitStep(t: Trace, mutations: map<string, MutationFn>, key: string, payload: Value): Trace {
    if key in mutations then Assign(t.(status := Mutation), mutations[key](t.state, payload)) else t
  }

  /** The commits of an action, one after the other. */
  function RunCommits(t: Trace, mutations: map<string, MutationFn>, calls: seq<(string, Value)>): Trace
    decreases |calls|
  {
    if calls == [] then t
    else
      var last := |calls| - 1;
      CommitStep(RunCommits(t, mutations, calls[..last]), mutations, calls[last].0, calls[last].1)
  }

  lemma KeysPrefix(e: Entries, n: nat)
    requires n <= |e|
    ensures Keys(e[..n]) == Keys(e)[..n]
  {
  }

  /** Keys that the partial state does not mention keep their presence and their value. */
  lemma {:induction false} AssignKeepsOthers(t: Trace, e: Entries, k: string)
    requires k !in Keys(e)
    ensures k in Assign(t, e).state <==> k in t.state
    ensures k in t.state ==> Assign(t, e).state[k] == t.state[k]
    decreases |e|
  {
    if e != [] {
      var last := |e| - 1;
      KeysPrefix(e, last);
      assert Keys(e)[last] == e[last].0;
      AssignKeepsOthers(t, e[..last], k);
    }
  }

  /** The `i`th pair of `e` is the last one that writes its key. */
  predicate IsLastWrite(e: Entries, i: nat)
    requires i < |e|
  {
    forall j :: i < j < |e| ==> e[j].0 != e[i].0
  }

  /** A key holds the value of its last write in the partial state. */
  lemma {:induction false} AssignLastWriteWins(t: Trace, e: Entries, i: nat)
    requires i < |e|
    requires IsLastWrite(e, i)
    ensures e[i].0 in Assign(t, e).state && Assign(t, e).state[e[i].0] == e[i].1
    decreases |e|
  {
    var last := |e| - 1;
    if i < last {
      var prefix := e[..last];
      assert prefix[i] == e[i];
      assert forall j :: i < j < last ==> prefix[j] == e[j];
      AssignLastWriteWins(t, prefix, i);
    }
  }

  /** The merged state has the old keys and the written ones, and no others. */
  lemma {:induction false} AssignDomain(t: Trace, e: Entries)
    ensures forall k :: k in Assign(t, e).state <==> k in t.state || k in Keys(e)
    decreases |e|
  {
    if e != [] {
      var last := |e| - 1;
      AssignDomain(t, e[..last]);
      KeysPrefix(e, last);
      assert Keys(e) == Keys(e[..last]) + [e[last].0];
    }
  }

  /** The states seen right after each write of `e`, in order. */
  function StatesAfterEach(t: Trace, e: Entries): seq<State> {
    seq(|e|, i requires 0 <= i < |e| => Assign(t, e[..i + 1]).state)
  }

  /** Every write publishes once, with the state as it is right after that write. */
  lemma {:induction false} AssignPublishes(t: Trace, e: Entries)
    ensures Assign(t, e).published == t.published + StatesAfterEach(t, e)
    decreases |e|
  {
    if e != [] {
      var last := |e| - 1;
      var prefix := e[..last];
      AssignPublishes(t, prefix);
      forall i | 0 <= i < last
        ensures StatesAfterEach(t, e)[i] == StatesAfterEach(t, prefix)[i]
      {
        assert prefix[..i + 1] == e[..i + 1];
      }
      assert e[..last + 1] == e;
      assert StatesAfterEach(t, e) == StatesAfterEach(t, prefix) + [Assign(t, e).state];
    }
  }

  /** Only a write that finds the status at `'mutation'` goes unwarned, and each write
      leaves the status at `'resting'`: so of a partial state merged by a commit only
      the first key is written without a warning. */
  lemma {:induction false} AssignWarnings(t: Trace, e: Entries)
    ensures Assign(t, e).status == if e == [] then t.status else Resting
    ensures Assign(t, e).warnings == t.warnings + (
              if e == [] then []
              else if t.status == Mutation then Keys(e)[1..]
              else Keys(e))
    decreases |e|
  {
    if e != [] {
      var last := |e| - 1;
      var prefix := e[..last];
      AssignWarnings(t, prefix);
      KeysPrefix(e, last);
      assert Keys(e) == Keys(e)[..last] + [e[last].0];
      if last > 0 {
        assert Keys(e)[1..] == Keys(e)[1..last] + [e[last].0];
      }
    }
  }

  /** A successful commit: exactly one publish per returned key, each carrying the
      state right after its write; the state holds the value of each returned key's
      last write and keeps all other keys; the status ends at
      `'resting'` (or stays `'mutation'` for an empty result), and every returned key
      but the first is warned about. */
  lemma CommitEffect(t: Trace, mutations: map<string, MutationFn>, key: string, payload: Value)
    requires key in mutations
    ensures var e := mutations[key](t.state, payload);
            var r := CommitStep(t, mutations, key, payload);
            && |r.published| == |t.published| + |e|
            && r.published == t.published + StatesAfterEach(t.(status := Mutation), e)
            && (forall i :: 0 <= i < |e| && IsLastWrite(e, i) ==> e[i].0 in r.state && r.state[e[i].0] == e[i].1)
            && r.status == (if e == [] then Mutation else Resting)
            && r.warnings == t.warnings + (if e == [] then [] else Keys(e)[1..])
            && (forall k :: k !in Keys(e) && k in t.state ==> k in r.state && r.state[k] == t.state[k])
            && (forall k :: k !in Keys(e) ==> (k in r.state <==> k in t.state))
  {
    var e := mutations[key](t.state, payload);
    var start := t.(status := Mutation);
    AssignPublishes(start, e);
    AssignWarnings(start, e);
    forall i | 0 <= i < |e| && IsLastWrite(e, i)
      ensures e[i].0 in Assign(start, e).state && Assign(start, e).state[e[i].0] == e[i].1
    {
      AssignLastWriteWins(start, e, i);
    }
    forall k | k !in Keys(e)
      ensures (k in Assign(start, e).state <==> k in t.state)
      ensures k in t.state ==> Assign(start, e).state[k] == t.state[k]
    {
      AssignKeepsOthers(start, e, k);
    }
  }

  /** The logs of a dispatch only grow: earlier publishes and warnings stay as they were. */
  lemma {:induction false} RunCommitsExtends(t: Trace, mutations: map<string, MutationFn>, calls: seq<(string, Value)>)
    ensures t.published <= RunCommits(t, mutations, calls).published
    ensures t.warnings <= RunCommits(t, mutations, calls).warnings
    decreases |calls|
  {
    if calls != [] {
      var last := |calls| - 1;
      var mid := RunCommits(t, mutations, calls[..last]);
      RunCommitsExtends(t, mutations, calls[..last]);
      var key := calls[last].0;
      if key in mutations {
        var start := mid.(status := Mutation);
        var e := mutations[key](mid.state, calls[last].1);
        AssignPublishes(start, e);
        AssignWarnings(start, e);
      }
    }
  }

  class Store {
    var actions: map<string, ActionFn>
    var mutations: map<string, MutationFn>
    var state: State
    var status: Status
    const events: PubSub

    /** The data of every `stateChange` publish, in order. */
    ghost var published: seq<State>
    /** The key of every write made while no mutation was running (`console.warn`). */
    ghost var warnings: seq<string>
    /** Every action invoked, with its payload. */
    ghost var invoked: seq<(string, Value)>

    ghost function Current(): Trace
      reads this
    {
      Trace(state, status, published, warnings)
    }

    /** Tables come from `params` only when it has them; the state is `params.state`
        when truthy (a non-object would make the `Proxy` constructor throw), else `{}`. */
    constructor (params: Params)
      requires Truthy(params.state) ==> params.state.Obj?
      ensures actions == (if params.actions.Some? then params.actions.value else map[])
      ensures mutations == (if params.mutations.Some? then params.mutations.value else map[])
      ensures state == (if Truthy(params.state) then params.state.fields else map[])
      ensures status == Resting
      ensures published == [] && warnings == [] && invoked == []
      ensures fresh(events) && events.events == map[]
    {
      actions := map[];
      mutations := map[];
      state := map[];
      status := Resting;
      events := new PubSub();
      if params.actions.Some? {
        actions := params.actions.value;
      }
      if params.mutations.Some? {
        mutations := params.mutations.value;
      }
      state := if Truthy(params.state) then params.state.fields else map[];
      published, warnings, invoked := [], [], [];
    }

    /** The proxy's `set` trap, for the write `state[key] = value`. */
    method Set(key: string, value: Value)
      modifies this
      ensures Current() == Write(old(Current()), key, value)
      ensures state == old(state)[key := value]
      ensures published == old(published) + [state]
      ensures warnings == old(warnings) + (if old(status) != Mutation then [key] else [])
      ensures status == Resting
      ensures actions == old(actions) && mutations == old(mutations) && invoked == old(invoked)
    {
      state := state[key := value];
      var results := events.Publish(StateChange, Obj(state));
      published := published + [state];
      if status != Mutation {
        warnings := warnings + [key];
      }
      status := Resting;
    }

    /** Runs the named mutation and merges its result key by key through the trap;
        `false`, and no change, when there is no such mutation. */
    method Commit(key: string, payload: Value) returns (ok: bool)
      modifies this
      ensures ok == (key in old(mutations))
      ensures Current() == CommitStep(old(Current()), old(mutations), key, payload)
      ensures actions == old(actions) && mutations == old(mutations) && invoked == old(invoked)
    {
      if key !in mutations {
        return false;
      }
      status := Mutation;
      var entries := mutations[key](state, payload);
      ghost var start := Current();
      var i := 0;
      while i < |entries|
        invariant 0 <= i <= |entries|
        invariant Current() == Assign(start, entries[..i])
        invariant actions == old(actions) && mutations == old(mutations) && invoked == old(invoked)
      {
        Set(entries[i].0, entries[i].1);
        assert entries[..i + 1][..i] == entries[..i];
        i := i + 1;
      }
      assert entries[..i] == entries;
      return true;
    }

    /** Runs the named action once with the store and the payload, after setting the
        status to `'action'`; `false`, and no change, when there is no such action. */
    method Dispatch(key: string, payload: Value) returns (ok: bool)
      modifies this
      ensures ok == (key in old(actions))
      ensures !ok ==> Current() == old(Current()) && invoked == old(invoked)
      ensures ok ==> invoked == old(invoked) + [(key, payload)]
      ensures ok ==> Current() == RunCommits(old(Current()).(status := Action), old(mutations),
                                             old(actions)[key](old(state), payload))
      ensures actions == old(actions) && mutations == old(mutations)
    {
      if key !in actions {
        return false;
      }
      status := Action;
      invoked := invoked + [(key, payload)];
      var calls := actions[key](state, payload);
      ghost var start := Current();
      var i := 0;
      while i < |calls|
        invariant 0 <= i <= |calls|
        invariant Current() == RunCommits(start, mutations, calls[..i])
        invariant actions == old(actions) && mutations == old(mutations)
        invariant invoked == old(invoked) + [(key, payload)]
      {
        var committed := Commit(calls[i].0, calls[i].1);
        assert calls[..i + 1][..i] == calls[..i];
        i := i + 1;
      }
      assert calls[..i] == calls;
      return true;
    }
  }
}
