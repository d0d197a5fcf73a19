# vanilla-js-state-management, modelled in Dafny

The model covers the small state container behind a browser to-do list, and the
components that turn its state into text:

- **PubSub** (`pubsub.dfy`, module `PubSubs`). A registry from event name to an ordered list of
  callbacks. `Subscribe` appends a callback and returns the new length of that list.
  `Publish` calls every callback of the event on the data, in order, and returns the
  results. When data is omitted it is `{}`. An event with no entry gives `[]`. A
  callback is a pure function `Value -> Value` paired with the object whose closure it
  is. That object gives the callback an identity.
- **Store** (`store.dfy`, module `Stores`). A class with `actions`, `mutations`,
  `state`, `status` and an owned `PubSub`. `Set` is the proxy's `set` trap, and every
  write goes through it. In order, it stores the value, publishes `stateChange` with
  the state, warns unless `status` is `'mutation'`, and resets `status` to `'resting'`.
  `Commit` runs a mutation and merges the partial state it returns, key by key,
  through the trap, as `Object.assign` does. `Dispatch` runs an action. Three ghost
  logs record what `console` and the bus would show:
  - the data of every publish;
  - the keys of every write that warned;
  - every action invoked.

  Each method's `ensures` ties the new state to pure functions of the old one
  (`Write`, `Assign`, `CommitStep`, `RunCommits`). The lemmas are stated about those
  functions.
- **Component** (`component.dfy`, module `Components`). The constructor keeps a
  supplied `render` or defaults to a no-op. It subscribes exactly one callback to
  `stateChange` when it is given a `Store`. It binds `element` only when the props
  carry one. `Render` performs the concrete components' DOM write on an `Element`
  object.
- **Count and Status** (`count.dfy`, `status.dfy`). Pure functions give the exact
  template strings. A reader function parses each one back into the number shown and
  the singular or plural noun (and, for Count, the emoji). The round-trip lemmas show
  what the markup says about `items.length`.

Status is modelled as the code behaves, not as it was meant to behave:

- It tests `items.lenght`. That property is `undefined` for an array, and `undefined !== 1`, so the suffix is always `'s'`. One item shows as "1 items".
- It assigns to `innerHTMl`. That is an ordinary extra property of the element, so `innerHTML` is left as it was.

Two consequences of the trap that its comments do not mention:

- The comment at src/js/store/store.js:46-47 says a write made while no mutation is
  running "probably means that the state was updated manually". But the trap resets
  `status` to `'resting'` after every write (src/js/store/store.js:53). So in a
  multi-key commit, every key after the first also warns (`AssignWarnings`).
- The trap publishes on every write, even when the value is unchanged
  (`AssignPublishes`).

Outside inputs are parameters:

- the concrete actions, mutations and initial state (`store/index.js` is not part of this model);
- the elements `document.querySelector` finds;
- the store a component's module imports.

The `addItem` action and mutation used in `AddItemAppends` and `BuyMilk` are an
assumed example, not the repository's own.

## Model

| member | source | states |
|---|---|---|
| `JsValues.Truthy` | src/js/store/store.js:36 | the truthiness `params.state \|\| {}` tests: false for `undefined`, `null`, `false`, `0` and `""`, true otherwise |
| `JsValues.Get` | src/js/components/count.js:13-14 | a property read: an array's `length` is its size, a string's `length` is its number of UTF-16 code units (`Utf16Length`), an object's own property is its value, anything else is `undefined` |
| `JsValues.Utf16Length` | src/js/components/count.js:13 | a string's `length` counts UTF-16 code units: between its number of characters and twice that, and equal to it exactly when every character lies in the Basic Multilingual Plane |
| `JsValues.ToText` | src/js/components/status.js:16 | the text `${ v }` gives for a primitive value; a non-negative number gives its decimal digits |
| `PubSubs.DataOrDefault` | src/js/lib/pubsub.js:29 | the default parameter `data = {}`: undefined data becomes `{}`, anything else is passed unchanged |
| `Stores.Write` | src/js/store/store.js:37-57 | one write through the trap: the key gets the value, one publish of the new state, a warning unless the status is `'mutation'`, status `'resting'` |
| `Stores.Assign` | src/js/store/store.js:114 | `Object.assign` of a partial state: its pairs written in order, each through `Write` |
| `Stores.CommitStep` | src/js/store/store.js:98-117 | a commit: no change for an unknown mutation; otherwise status `'mutation'`, then the mutation's result, computed from the current state and the payload, is merged by `Assign` |
| `Stores.RunCommits` | src/js/store/store.js:84 | the commits an action makes, applied one after another with `CommitStep` |
| `CountView.Markup` | src/js/components/count.js:13-20 | the exact template: the length, "thing" with `s` unless the length is 1, " today ", and the cheering emoji for a positive length, else the crying one |
| `StatusView.Text` | src/js/components/status.js:14-16 | the exact template: the length, " item" and `s` unless `items.lenght` is 1, which for an array it never is |
| `NumberText.Decimal` | src/js/components/count.js:18 | the text of `${ n }` for a count is non-empty and all decimal digits, with no leading zero unless the number is 0 |
| `NumberText.ParseDecimalOfDecimal` | src/js/components/count.js:18 | the decimal text of a number reads back as that number (round trip) |
| `NumberText.DigitRunOfNumber` | src/js/components/status.js:16 | a number followed by a non-digit is read back whole, so the number in a template can be recovered |
| `PubSubs.PubSub.constructor` | src/js/lib/pubsub.js:2-4 | a new registry has no events |
| `PubSubs.PubSub.Subscribe` | src/js/lib/pubsub.js:11-21 | the callback is appended at the end of its event's list, which is created empty on first use; the result is the new length (1 for a fresh event); other events and earlier callbacks are unchanged, so no list ever shrinks; the callback's owner gains one callback in the list and every other owner keeps its count |
| `PubSubs.PubSub.Callbacks` | src/js/lib/pubsub.js:34-38 | the read `self.events[event]`: the registered list of `event`, or no callbacks when the registry has no entry for it, as the `hasOwnProperty` tests at src/js/lib/pubsub.js:16 and 34 treat it |
| `PubSubs.ApplyAll` | src/js/lib/pubsub.js:38 | one result per callback, in order, each the callback applied to the data |
| `PubSubs.PubSub.Publish` | src/js/lib/pubsub.js:29-38 | an event with no entry gives `[]`; otherwise one result per registered callback, in subscription order, each that callback applied to the data, with `{}` for omitted data; the registry is left unchanged |
| `PubSubs.CountOwnedZero` | src/js/lib/component.js:13 | an owner has no callback in a list exactly when no entry of the list belongs to it |
| `PubSubs.CountOwnedAppend` | src/js/lib/pubsub.js:21 | appending a callback adds one to its owner's count and leaves every other owner's count unchanged |
| `PubSubs.SoleOwned` | src/js/lib/component.js:13 | when an owner has exactly one callback registered, a publish applies exactly one callback of that owner |
| `Stores.Store.constructor` | src/js/store/store.js:7-36 | actions and mutations come from params only when params has them, else `{}`; state is `params.state` when truthy, else `{}`; status is `'resting'`; a fresh, empty PubSub |
| `Stores.Store.Set` | src/js/store/store.js:37-57 | the trap stores exactly the value and leaves other keys unchanged, publishes `stateChange` once with the new state, warns exactly when status was not `'mutation'`, and leaves status `'resting'` |
| `Stores.Store.Commit` | src/js/store/store.js:98-117 | an unknown mutation returns false and changes nothing; a known one returns true, sets status `'mutation'` and merges its result through the trap, key by key (`CommitStep`) |
| `Stores.Store.Dispatch` | src/js/store/store.js:68-89 | an unknown action returns false and leaves state, status and logs unchanged; a known one returns true, sets status `'action'`, is invoked exactly once with the payload, and its commits run in order (`RunCommits`) |
| `Stores.AssignKeepsOthers` | src/js/store/store.js:114 | keys absent from the returned partial state keep their presence and their old value |
| `Stores.AssignLastWriteWins` | src/js/store/store.js:114 | each returned key holds the value of its last write |
| `Stores.AssignDomain` | src/js/store/store.js:114 | after the merge, the state's keys are the old keys plus the returned ones |
| `Stores.AssignPublishes` | src/js/store/store.js:37-44 | merging k keys publishes exactly k times, in order, each time with the state as it is right after that key's write |
| `Stores.AssignWarnings` | src/js/store/store.js:48-53 | after any write the status is `'resting'`; in a merge started under `'mutation'` only the first key goes unwarned, and all later keys warn |
| `Stores.CommitEffect` | src/js/store/store.js:108-116 | a successful commit publishes once per returned key, holds the returned values, keeps all other keys, and warns on every returned key but the first; status ends `'resting'`, or stays `'mutation'` for an empty result |
| `Stores.RunCommitsExtends` | src/js/store/store.js:84 | the commits of an action only extend the publish and warning logs |
| `CountView.ReadWordsOf` | src/js/components/count.js:19 | the words after the number read back as "things" exactly when the suffix is `s`, and as cheering exactly for `&#x1f64c;` |
| `CountView.ReadCountOfMarkup` | src/js/components/count.js:12-20 | the count markup shows `items.length`; it says "things" exactly when the length is not 1 (so "thing" for one item); the emoji is `&#x1f64c;` exactly when the length is positive, else `&#x1f622;` |
| `CountView.MarkupInjective` | src/js/components/count.js:18 | different item counts give different markup |
| `StatusView.ReadStatusOfText` | src/js/components/status.js:14-16 | the status text is `items.length` followed by " item" and a suffix that is `s` for every length, including 1 |
| `StatusView.OneItemReadsPlural` | src/js/components/status.js:14 | one item is shown as "1 items" |
| `Components.Component.constructor` | src/js/lib/component.js:4-19 | render is the supplied one, else the no-op; element is bound iff props has one; with a Store exactly one callback of this component is added at the end of `stateChange`, and without one nothing is registered |
| `Components.RenderResult` | src/js/lib/component.js:13 | what the subscribed closure returns when published to: the result of `self.render()`, which returns nothing, so `undefined` whatever the data |
| `Components.Component.Subscriber` | src/js/lib/component.js:13 | the closure `() => self.render()` this component subscribes: it computes `RenderResult` and is owned by the component, which gives it its identity |
| `Components.Component.Render` | src/js/components/count.js:16-20 | Count replaces `innerHTML` with its markup whatever was there; Status writes the property `innerHTMl` and leaves `innerHTML` unchanged (src/js/components/status.js:16); the no-op changes nothing; the store is never modified |
| `Components.NewCount` | src/js/components/count.js:5-10 | a Count component is bound to its element, and exactly one callback it owns is appended to the store's `stateChange` |
| `Components.NewStatus` | src/js/components/status.js:5-10 | a Status component is bound to its element, and exactly one callback it owns is appended to the store's `stateChange` |
| `Components.NewBare` | src/js/lib/component.js:4-19 | `new Component()` with the default `props = {}` keeps the no-op render, binds no element and subscribes nothing |
| `Components.MountViews` | src/js/main.js:24 | `new Count()` at src/js/main.js:24 and then `new Status()` at line 26, without the `new List()` of line 25 between them (List is not part of this model): building them on one store appends their two callbacks to `stateChange` in that order, and each component owns exactly one callback there, so each later publish renders each of them once |
| `Components.AddItemAppends` | src/js/main.js:18 | dispatching `addItem` appends the payload to `items`, changes no other key and publishes once |
| `Components.BuyMilk` | src/js/main.js:15-28 | from `{items: []}`, dispatching `addItem` with "buy milk" gives `items == ["buy milk"]`, and the count then renders "1 thing" with the cheering emoji |

## Left out

- `src/js/main.js`: the DOM wiring is not modelled. This covers `querySelector`, the submit listener, `focus` and clearing the input. It dispatches `addItem` only when the trimmed input is non-empty (src/js/main.js:15-21).
- `store/index.js` and `components/list.js` are not part of this model. The concrete actions, mutations and initial state are parameters.
- `console.log`, `console.error`, `console.groupCollapsed` and `console.groupEnd`: output only. The trap's `console.warn` is kept as the ghost `warnings` log.
- Proxy semantics other than the `set` trap are not modelled. In-place changes to nested values bypass the trap, so they publish nothing.
- A mutation that writes through the state proxy itself is not modelled. A mutation is pure: it returns its partial state as ordered key/value pairs.
- Stores.Store.Dispatch: an action is modelled as the list of commits it makes, computed from the state and payload at the time of dispatch. This is weaker than the source, where an action gets the whole store. Actions that dispatch, read the state between commits, or have other effects are not modelled.
- Callbacks are pure, with no re-entrancy. A component's subscribed callback returns `undefined`, as `render` does when it does not throw. The DOM write of a render triggered by a publish is modelled by calling `Render` directly.
- Components.Component.constructor: the model's callbacks never throw. In the source, a subscribed render can throw: Count or Status on a null or unbound element (both subclasses bind whatever `document.querySelector` returns, src/js/components/count.js:8 and src/js/components/status.js:8, which is null when nothing matches), and either one when `items` is `undefined` or `null`. The throw is raised by the publish at src/js/store/store.js:44. It leaves the trap after the value is stored (line 39) but before the warning and the status reset (lines 48-53), so `status` stays `'mutation'`. `Object.assign` stops at that key, and `commit` and `dispatch` throw instead of returning `true`. The model lets such a component subscribe, and its publishes and commits complete.
- JavaScript prototype lookup is not modelled, and a name bound to a non-function or inherited from `Object.prototype` is treated as absent. In the source, `dispatch('toString', p)` passes the `typeof` test at src/js/store/store.js:72, calls `Object.prototype.toString` and returns `true`. `commit('toString', p)` merges the string "[object Object]" into the state character by character through the trap. An event named `hasOwnProperty` or `__proto__` breaks the `hasOwnProperty` tests at src/js/lib/pubsub.js:16 and 34.
- Stores.Store.constructor requires `params.state` to be falsy or a plain object. A truthy non-object makes `new Proxy` throw. Arrays as state are not modelled. An own `actions` or `mutations` property that holds something other than a table is not modelled. A missing or `null` `params` (as in `new Store()`) makes `params.hasOwnProperty` throw a TypeError at src/js/store/store.js:22; `Params` cannot express it. The Proxy wraps the caller's own `params.state` object (src/js/store/store.js:36), so every trapped write also changes that object; the model copies its fields into the store's `state` and does not capture this aliasing.
- Components.Component.Render requires a bound, non-null element and an `items` array when a render is supplied. The source throws only when the element is null or unbound, or when `items` is `undefined` or `null`. Other non-array values of `items` do not throw but are not modelled: strings, numbers, booleans and plain objects. For example, `items = {}` has an undefined `length`, so Count says "things" with the crying emoji and shows "undefined".
- Property reads on arrays and strings model only `length`. Index properties and methods are not modelled. NaN and fractional numbers are not modelled. A string is a sequence of Unicode scalar values, so a JavaScript string holding a lone surrogate has no counterpart.
- JsValues.ToText: numbers are unbounded integers, not JavaScript doubles, and their text is always the plain decimal form. JavaScript prints numbers from 1e21 up in exponent form ("1e+21"), and above 2^53 it cannot hold most integers exactly. The components print only array lengths, which are below 2^32.
- HTML entities and `innerHTML` parsing are not modelled. Markup is plain strings.
- The component constructor binds `element` before it subscribes, while the source subscribes first. No difference can be observed, because callbacks are pure.

