# RXBox store and subscription engine, in Dafny

This project models the core of RXBox, an in-memory keyed state container.
Observers subscribe to the whole state or to a nested key path.

- `assignState` shallow-merges a partial update into the state.
  It first pushes the pre-mutation state onto a history ledger and records the partial as the last change.
  It then pushes the new state into a `BehaviorSubject`.
- Every `watch` and `select` subscription decides, per delivery, whether to notify its observer and with what value.
- `select` also emits the current value when it subscribes.
  It carries a one-shot `skip` flag so that the first matching delivery is not emitted twice.

The rxjs and lodash plumbing is replaced by explicit data:

- **`Json`**: the value type (null, bool, int, string, date as an instant, array, string-keyed mapping, and a `Func` variant for function objects).
  It also holds path resolution (lodash `get` restricted to mapping descent), the callable scan behind the debug guard, and the shallow merge (lodash `assign`).
  Structural equality (lodash `isEqual`) is `==` on values.
- **`History`**: `pushHistory` with its eviction rule.
- **`StateStore`**: the store record with `state`, `history`, `lastChanges` and `debug`.
  It models `getState`, `getHistory`, `clearHistory`, `clearState`, `preventFunctionsInKey` and `assignState`.
  `version` stands for the identity of the object last pushed into the subject.
  Both mutations push a freshly built object, so each push gets a new version.
- **`Subscriptions`**: one record per subscription and a pure delivery step.
  `Deliver` puts rxjs `distinctUntilChanged()` in front of the step.
  That operator has no comparator, so it compares by reference, here by version.
  `Open` is subscribe: for `select` the initial emission comes first, then the subject replays the current state once.
- **`RxBox`**: the subscriber registry, with natural-number ids in place of UUIDs, and what each observer has received so far.
  It has the box-level operations, a `Call` datatype with `Run`, and the delivery properties.
- **`Scenarios`**: runs taken from `tests/test.spec.ts`, and edge cases, on concrete boxes.

An observer receiving `undefined` is modelled as the emitted value `None`.
A keyed subscription can receive it, for example after `clearState`.

## Behaviour worth knowing

- **History length outside debug mode.** The comment at index.ts:76-77 says that outside debug mode the ledger keeps no more than one version.
  `pushHistory` (index.ts:78-83) evicts only the oldest entry before each push.
  So if `debug` is switched off after the ledger has grown, its length stays `max(1, n)` (`History.PushHistory`).
  The ledger is capped at one entry only if it was short when debug went off (`RxBox.ShortHistoryPreserved`).
- **Every mutation is broadcast.** `distinctUntilChanged()` at index.ts:69-71 has no comparator, so it compares by reference.
  `assignState` (index.ts:290, 295) and `clearState` (index.ts:281) each push a freshly built object.
  So every mutation reaches every subscription's callback, even one that leaves the state structurally equal (`RxBox.PublishFreshAt`).
- **`watch` at subscribe time.** The test at tests/test.spec.ts:49 is titled "Should assign value to foo before watch and NEVER trigger the observable".
  The subject replays its current value to a new subscription (index.ts:119).
  The keyed branch (index.ts:137-155) then emits when the last change touched the path and the value there differs from the newest history entry.
  On a box whose last assignment changed `foo`, a new watch on `foo` therefore emits at once (`Scenarios.WatchReplaysLastChange`).
  The watch in this test stays silent only because `foo` already holds 1 when line 50 assigns it again; lines 21, 34 and 39 set it first.
  So the newest history entry already has `foo` = 1 and the replay is filtered out (`Scenarios.WatchAfterRepeatedAssign`, whose second assignment stands for line 50).
  The nested-path test at tests/test.spec.ts:76-88 reaches its expectation through this replay (`Scenarios.NestedWatchAsTested`).
- **`clearHistory` then `assignState`.** `assignState` pushes the pre-mutation state onto the ledger (index.ts:292) before it pushes the new state (index.ts:295).
  So the diff at index.ts:141-142 is against that state, even right after `clearHistory` (`RxBox.ClearHistoryThenAssign`).
- **`skip` in `select`.** A keyed select clears `skip` at index.ts:244 or index.ts:258.
  Both lines lie behind the last-change pre-filter (index.ts:236) and the history comparison (index.ts:242).
  A delivery that fails either filter leaves `skip` raised, so the one-shot swallow can wait for a later delivery (`RxBox.KeyedSelectOnAssign`).

## Model

| member | source | states |
|---|---|---|
| `Json.ResolveAppend` | index.ts:137-142 | Resolving a dotted path is a fold over its segments: resolving `p + q` resolves `p`, then `q` from the value reached |
| `Json.ResolveIsFieldWalk` | index.ts:137-142 | Resolving a dotted key (lodash `get`) is walking the address made of its segments as mapping keys; it never descends into an array |
| `Json.AbsentPrefixStaysAbsent` | index.ts:140-142 | Once a prefix of a path is absent, every longer path through it is absent too, and no error is raised |
| `Json.ContainsFunctionIff` | index.ts:51-65 | The recursive scan reports a function exactly when one sits at some address of mapping keys and array indices, at any depth |
| `Json.Assign` | index.ts:290 | Shallow merge: keys are the union; each key of the partial takes the partial's value; every other key keeps the old value |
| `History.PushHistory` | index.ts:75-84 | The snapshot becomes the newest entry. In debug mode the ledger grows by one. Otherwise the oldest entry is evicted first, so the length becomes max(1, n) |
| `History.Last` | index.ts:141 | The entry diffed against is absent exactly when the ledger is empty, and otherwise is its newest entry |
| `History.PushHistoryKeepsOne` | index.ts:76-83 | Outside debug mode, a ledger of at most one entry holds exactly the new snapshot after a push |
| `StateStore.GetStateAfterAssign` | index.ts:272-276 | After assignState, getState reads the partial's value at every path whose first segment the partial sets, and the old value at every other path |
| `StateStore.DebugHistoryKeepsAll` | index.ts:94-96 | In debug mode the ledger getHistory returns keeps every snapshot: a run of n assignments appends n entries, the first of them the state before the run, and leaves the earlier entries untouched |
| `StateStore.ClearHistory` | index.ts:100-102 | The ledger becomes empty; state, change record, debug flag and object identity are unchanged |
| `StateStore.ClearState` | index.ts:280-282 | A fresh empty mapping is pushed; history and the change record are unchanged |
| `StateStore.PreventFunctionsInKey` | index.ts:51-65 | Fails exactly when the partial holds a function somewhere inside it |
| `StateStore.AssignState` | index.ts:286-295 | Fails iff debug is on and the partial holds a function. On success: the state is the shallow merge; the ledger is the old one with the pre-mutation state appended, after evicting the oldest entry when debug is off, so every older entry is kept in order; the change record is the partial; a fresh object is pushed |
| `StateStore.AssignAllIsMergeFold` | index.ts:272-295 | After a run of assignments the guard lets through, each key of the state holds the value from the last partial that set it, else its original value. Outside debug mode a ledger of at most one entry stays so |
| `Subscriptions.Step` | index.ts:119-259 | One delivery to a subscription. Unkeyed: the whole state is emitted, unless a select with skip set sees the value it emitted at subscribe time; skip is cleared either way. Keyed: the value at the path is emitted iff the last change defines the path, the value differs from the newest history entry, and it is not a select swallowing its initial value once; skip falls exactly when both filters pass. At most one value is emitted |
| `Subscriptions.InitialValue` | index.ts:179-207 | The value a select emits at subscribe time: the whole state when unkeyed, so always defined; otherwise the value reached by walking the path's segments as mapping keys of the current state, absent when the walk stops |
| `Subscriptions.Deliver` | index.ts:69-71 | The same object is never delivered twice to one subscription; a new object always reaches the step |
| `Subscriptions.Open` | index.ts:110-216 | Subscribe for both flavors. A select's first emission is the current value at its key (the whole state when unkeyed) when that is defined. At most one value is emitted at subscribe time: a watch has no initial emission, and a select's `skip` swallows the replay of the value it already emitted. The record is registered as having seen the current object |
| `Subscriptions.ChangedAfterAssign` | index.ts:134-143 | After an assignment, a keyed delivery passes both filters iff the partial defines the full path and the value there differs from the pre-mutation value. The new value is then the partial's |
| `Subscriptions.DeliverReadsOnlyLast` | index.ts:141-142 | Deliveries depend on the ledger only through its newest entry |
| `RxBox.Publish` | index.ts:295 | Each push reaches every live subscription through its own distinct filter; observers of disposed or unknown ids hear nothing |
| `RxBox.Subscribe` | index.ts:110-119 | A subscription gets a fresh id and its subscribe-time emissions; no other observer hears anything |
| `RxBox.Unsubscribe` | index.ts:159-162 | Disposal removes the subscription from the registry and leaves everything else as it was |
| `RxBox.ClearState` | index.ts:280-282 | An empty mapping is pushed and the history, change record and debug flag are kept. Every live subscription runs its step on it, the others hear nothing, and the box stays valid |
| `RxBox.ClearHistory` | index.ts:100-102 | Only the ledger is emptied: nothing is pushed, no subscription changes and no observer hears anything |
| `RxBox.SetDebug` | index.ts:89-90 | Setting the public debug field changes nothing else and keeps the box valid |
| `RxBox.AssignState` | index.ts:286-295 | Fails iff debug is on and the partial holds a function; otherwise the store transition is followed by a delivery to every live subscription |
| `RxBox.GuardAbortLeavesBoxUnchanged` | index.ts:287 | A refused update leaves state, history, change record and every log untouched |
| `RxBox.PublishFreshAt` | index.ts:69-71 | Every subscription runs its step on each newly pushed object; the reference-based distinct filter never holds a mutation back |
| `RxBox.RunPreservesValid` | index.ts:114-119 | In every reachable box, ids are handed out once and every live subscription has seen the current object |
| `RxBox.ShortHistoryPreserved` | index.ts:75-84 | While debug stays off, a ledger of at most one entry stays so: no call makes it hold more than one snapshot |
| `RxBox.KeyedWatchOnAssign` | index.ts:134-155 | A keyed watch emits on an assignment iff the partial defines a value at the full path that differs from the pre-mutation value. It emits that value |
| `RxBox.KeyedSelectOnAssign` | index.ts:233-259 | A keyed select follows the watch rule, except that one passing delivery equal to its initial value is swallowed while skip is set. Skip is cleared by exactly the deliveries passing both filters and untouched by the rest |
| `RxBox.UnkeyedHearsEveryMutation` | index.ts:121-131 | An unkeyed watch or select receives the whole new state on every assignState and every clearState |
| `RxBox.KeyedWatchOnClear` | index.ts:137-155 | After clearState, a keyed watch receives undefined iff the change record holds its path and the newest history entry had a value there |
| `RxBox.ReassignIsSilent` | index.ts:140-144 | Assigning the same partial twice in a row is silent the second time for every keyed subscription |
| `RxBox.DistinctAssignsEmitInOrder` | tests/test.spec.ts:118-140 | Two different values assigned to one key reach its watch as two emissions, in order |
| `RxBox.AssignOfKey` | index.ts:137-155 | Assigning a new value to one top-level key reaches a watch on that key as exactly that value |
| `RxBox.ClearHistoryThenAssign` | index.ts:100-102 | Clearing the history first changes no subscription and no observer log of the next assignment |
| `RxBox.WatchSubscribeReplay` | index.ts:119-156 | On subscribe, an unkeyed watch receives the current state. A keyed watch emits the current value iff the last change touched its path and that value differs from the newest history entry |
| `RxBox.SelectSubscribe` | index.ts:179-216 | On subscribe, a select receives a defined current value exactly once. An absent one is received only as undefined from the replay. An unkeyed select has consumed skip; a keyed one keeps skip iff the replay was filtered out |
| `RxBox.UnsubscribedHearsNothing` | index.ts:159-162 | After disposal, no sequence of calls adds anything to that observer's log |
| `Scenarios.AssignThenRead` | tests/test.spec.ts:20-24 | Assigned top-level and nested values are read back through getState |
| `Scenarios.SelectAfterAssign` | tests/test.spec.ts:38-46 | A select on a key that already holds 1 receives 1 exactly once |
| `Scenarios.WatchReplaysLastChange` | index.ts:119-144 | On a box whose last assignment changed `foo`, a new watch on `foo` emits at once |
| `Scenarios.WatchAfterRepeatedAssign` | tests/test.spec.ts:49-61 | When `foo` already holds 1 and is assigned 1 again, a new watch on `foo` stays silent |
| `Scenarios.NestedWatch` | tests/test.spec.ts:76-88 | A watch on `foo2.bar` receives the value when `foo2` is first assigned a mapping holding it |
| `Scenarios.NestedWatchAsTested` | tests/test.spec.ts:65-88 | As the test file runs, the nested watch hears the value from the subscribe-time replay, and the repeated assignment adds nothing |
| `Scenarios.RemovalIsNotReported` | index.ts:137-138 | Replacing `foo2` with a mapping lacking `bar` removes `foo2.bar`, yet its watch hears nothing |
| `Scenarios.GuardOnlyInDebug` | index.ts:287 | A function inside an array is refused with debug on and stored with debug off |

## Left out

- The rxjs machinery (`Observable`, `BehaviorSubject`, teardown through `observer.add`, re-entrant `next` from inside a callback) is replaced by explicit step functions. Deliveries are synchronous and there is no re-entrancy.
- Reference versus copy delivery (`passByReference` versus lodash `cloneDeep`) is not modelled, because immutable values cannot tell the two apart. This includes `cloneDeep` of a bare function value, which yields an empty object: the model delivers the function itself.
- `assignStateAsync` is left out: it is event-loop scheduling through `setTimeout` and a `Promise`.
- Persistence to localStorage and sessionStorage, the two storage accessors, and all of `stringifyDate.ts` are left out. They are I/O and library date formatting.
- The constructor's singleton and `window` checks, global exposure, and the module-level subject shared by all instances are left out. `createUUID` is not part of this model; ids are natural numbers.
- The extras of lodash `get` are left out: bracket syntax, array-index segments, properties of strings, and properties inherited through the prototype chain (such as `constructor`). Paths descend through mappings only.
- The payload of the thrown guard error (the offending object and value) is left out. The model has one error, `ValueNotSerializable`. Mapping keys carry no enumeration order, so which function is reported first is not modelled.
- Numbers are modelled as unbounded integers (`Int`). JavaScript fractions, NaN and signed zero are left out, together with lodash `isEqual` treating NaN as equal to NaN and 0 as equal to -0. The core only compares numbers, so none of its decisions depend on arithmetic.
- The subscriber name is stored in the subscription record but has no effect on delivery.
- `undefined` as a stored value is left out. A caller may pass `{foo: undefined}`; lodash `assign` (index.ts:290) stores the key, and the pre-filter (index.ts:137-138, 235-236) then reads `undefined`, so no keyed subscriber on `foo` hears the change. `Value` has no such case: a key is either absent or holds a defined value.
- Keys containing a dot are left out. lodash `get` reads an own key such as `"a.b"` literally before splitting the path, and decides this separately for the change record, the state and the history entry. Paths here are split into segments up front.
- Aliasing is left out. The merged state and the change record share the caller's partial objects (index.ts:290, 293), so a later mutation of them by the caller changes the state without any delivery. Values here are immutable.
- Cyclic partials are left out. With debug on, the scan at index.ts:51-65 recurses through a cycle until the stack overflows, and the call aborts with a different error. Values here are finite trees.
