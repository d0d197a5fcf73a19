/** The base UI component of `src/js/lib/component.js`, the two concrete components of
    `src/js/components/count.js` and `src/js/components/status.js`, and the DOM
    element they write to. */
module Components {
  import opened Options
  import opened JsValues
  import opened PubSubs
  import opened Stores
  import CountView
  import StatusView

  /** A DOM element: its `innerHTML` and its other own string-valued properties. */
  class Element {
    var innerHTML: string
    var properties: map<string, string>

    constructor ()
      ensures innerHTML == "" && properties == map[]
    {
      innerHTML := "";
      properties := map[];
    }
  }

  /** The `render` a component ends up with: the no-op default, or the one its class
      supplies. */
  datatype Renderer = NoOp | CountRender | StatusRender

  /** The constructor's `props`: `store` is `Some` exactly when `props.store` is a
      `Store` instance, and `element` is `Some` exactly when `props` has an own
      `element` property (whose value may be null). */
  datatype Props = Props(store: Option<Store>, element: Option<Element?>)

  /** The default `props = {}`. */
  const NoProps: Props := Props(None, None)

  /** What the subscribed closure `() => self.render()` returns: `render` returns
      nothing, so every call gives `undefined`. */
  function RenderResult(data: Value): Value {
    Undefined
  }

  class Component {
    var render: Renderer
    /** `None` while `this.element` was never assigned. */
    var element: Option<Element?>

    /** The callback this component registers for `stateChange`. */
    function Subscriber(): Callback {
      Callback(this, RenderResult)
    }

    /** `supplied` is the `render` of the subclass, if it defines one. */
    constructor (props: Props, supplied: Option<Renderer>)
      modifies if props.store.Some? then {props.store.value.events} else {}
      ensures render == (if supplied.Some? then supplied.value else NoOp)
      ensures element == props.element
      ensures props.store.Some? ==>
                var registry := props.store.value.events;
                && registry.events == old(registry.events)[StateChange := old(registry.Callbacks(StateChange)) + [Subscriber()]]
                && CountOwned(registry.Callbacks(StateChange), this) == 1
    {
      render := if supplied.Some? then supplied.value else NoOp;
      element := None;
      if props.element.Some? {
        element := props.element;
      }
      new;
      if props.store.Some? {
        var registry := props.store.value.events;
        ghost var before := registry.Callbacks(StateChange);
        CountOwnedZero(before, this);
        var count := registry.Subscribe(StateChange, Subscriber());
        assert registry.Callbacks(StateChange)[..|before|] == before;
      }
    }

    /** The element `render` writes to, when there is one. */
    function Target(): set<Element>
      reads this
    {
      if element.Some? && element.value != null then {element.value} else {}
    }

    /** Calls this component's `render`, which reads the `items` of `store` (the
        store the component's module imports). The count writes its markup to
        `innerHTML`, whatever was there before; the status writes its text to the
        misspelled property `innerHTMl`, so `innerHTML` stays as it was. Neither
        changes the store. */
    method Render(store: Store)
      requires render != NoOp ==> element.Some? && element.value != null
      requires render != NoOp ==> "items" in store.state && store.state["items"].List?
      modifies Target()
      ensures render == CountRender ==>
                && element.value.innerHTML == CountView.Markup(store.state["items"])
                && element.value.properties == old(element.value.properties)
      ensures render == StatusRender ==>
                && element.value.innerHTML == old(element.value.innerHTML)
                && element.value.properties
                   == old(element.value.properties)["innerHTMl" := StatusView.Text(store.state["items"])]
      ensures render == NoOp ==> forall e :: e in Target() ==> unchanged(e)
    {
      match render
      case NoOp =>
      case CountRender =>
        element.value.innerHTML := CountView.Markup(store.state["items"]);
      case StatusRender =>
        var target := element.value;
        target.properties := target.properties["innerHTMl" := StatusView.Text(store.state["items"])];
    }
  }

  /** `new Count()`: a component on `store` bound to the element found for `.js-count`. */
  method NewCount(store: Store, element: Element?) returns (c: Component)
    modifies store.events
    ensures fresh(c) && c.render == CountRender && c.element == Some(element)
    ensures store.events.events
            == old(store.events.events)[StateChange := old(store.events.Callbacks(StateChange)) + [c.Subscriber()]]
    ensures CountOwned(store.events.Callbacks(StateChange), c) == 1
  {
    c := new Component(Props(Some(store), Some(element)), Some(CountRender));
  }

  /** `new Status()`: a component on `store` bound to the element found for `.js-status`. */
  method NewStatus(store: Store, element: Element?) returns (c: Component)
    modifies store.events
    ensures fresh(c) && c.render == StatusRender && c.element == Some(element)
    ensures store.events.events
            == old(store.events.events)[StateChange := old(store.events.Callbacks(StateChange)) + [c.Subscriber()]]
    ensures CountOwned(store.events.Callbacks(StateChange), c) == 1
  {
    c := new Component(Props(Some(store), Some(element)), Some(StatusRender));
  }

  /** `new Component()`: with the default `props = {}` there is no store to subscribe
      to and no element to bind, so the component keeps the no-op render and no
      `element`. */
  method NewBare() returns (c: Component)
    ensures c.render == NoOp && c.element == None
  {
    c := new Component(NoProps, None);
  }

  /** `new Count()` and then `new Status()` on one store: both callbacks are appended to
      `stateChange`, in that order, and each component owns exactly one of them, so a
      later publish renders each of them once. */
  method MountViews(store: Store, countElement: Element?, statusElement: Element?)
    returns (count: Component, status: Component)
    modifies store.events
    ensures count.render == CountRender && status.render == StatusRender
    ensures store.events.Callbacks(StateChange)
            == old(store.events.Callbacks(StateChange)) + [count.Subscriber(), status.Subscriber()]
    ensures CountOwned(store.events.Callbacks(StateChange), count) == 1
    ensures CountOwned(store.events.Callbacks(StateChange), status) == 1
  {
    count := NewCount(store, countElement);
    ghost var between := store.events.Callbacks(StateChange);
    assert CountOwned(between, count) == 1;
    status := NewStatus(store, statusElement);
    CountOwnedAppend(between, status.Subscriber(), count);
  }

  /** The to-do application's `addItem` action: it commits `addItem` with its payload. */
  function AddItemAction(state: State, payload: Value): seq<(string, Value)> {
    [("addItem", payload)]
  }

  /** The to-do application's `addItem` mutation: `items` with the payload appended. */
  function AddItemMutation(state: State, payload: Value): Entries {
    var items := if "items" in state && state["items"].List? then state["items"].elems else [];
    [("items", List(items + [payload]))]
  }

  const AppActions: map<string, ActionFn> := map["addItem" := AddItemAction]
  const AppMutations: map<string, MutationFn> := map["addItem" := AddItemMutation]

  /** Dispatching `addItem` appends its payload to `items` and changes no other key. */
  lemma AddItemAppends(t: Trace, payload: Value)
    requires "items" in t.state && t.state["items"].List?
    ensures var r := RunCommits(t, AppMutations, AddItemAction(t.state, payload));
            && r.state == t.state["items" := List(t.state["items"].elems + [payload])]
            && |r.published| == |t.published| + 1
  {
    var calls := AddItemAction(t.state, payload);
    assert calls[..0] == [];
    assert RunCommits(t, AppMutations, calls) == CommitStep(t, AppMutations, "addItem", payload);
    assert AppMutations["addItem"] == AddItemMutation;
    var entries := AddItemMutation(t.state, payload);
    assert entries[..0] == [];
    var start := t.(status := Mutation);
    assert CommitStep(t, AppMutations, "addItem", payload) == Assign(start, entries);
    assert Assign(start, entries) == Write(start, "items", List(t.state["items"].elems + [payload]));
  }

  /** Starting from `{items: []}`, dispatching `addItem` with "buy milk" leaves the
      single item "buy milk" and a count component that then renders "1 thing"
      with the cheering emoji. */
  method BuyMilk() returns (items: Value, shown: string)
    ensures items == List([Str("buy milk")])
    ensures CountView.ReadCount(shown) == Some(CountView.Reading(1, false, true))
  {
    var store := new Store(Params(Some(AppActions), Some(AppMutations), Obj(map["items" := List([])])));
    var element := new Element();
    var count := NewCount(store, element);
    ghost var before := store.Current();
    assert store.actions == AppActions && store.mutations == AppMutations;
    var ok := store.Dispatch("addItem", Str("buy milk"));
    AddItemAppends(before.(status := Action), Str("buy milk"));
    assert store.state["items"] == List([Str("buy milk")]);
    items := store.state["items"];
    count.Render(store);
    shown := element.innerHTML;
    assert shown == CountView.Markup(items);
    CountView.ReadCountOfMarkup([Str("buy milk")]);
  }
}
