/**
  The whole box: the store, the registry of live subscriptions
  (index.ts:114-117, 173-176, with natural-number ids in place of UUIDs),
  and what each observer has received so far. Every push into the subject
  is delivered synchronously to every live subscription.
*/
module RxBox {
  import opened Wrappers
  import opened Json
  import opened History
  import opened StateStore
  import opened Subscriptions

  datatype Box = Box(
    store: Store,
    subs: map<nat, Sub>,
    received: map<nat, seq<Option<Value>>>,
    nextId: nat)

  /** What an observer has received, in order; empty for unknown ids. */
  function Received(b: Box, id: nat): seq<Option<Value>> {
    if id in b.received then b.received[id] else []
  }

  /** The invariant of reachable boxes: ids are handed out once, and every
      live subscription has already been delivered the current object. */
  ghost predicate Valid(b: Box) {
    && b.subs.Keys <= b.received.Keys
    && (forall id :: id in b.received ==> id < b.nextId)
    && (forall id :: id in b.subs ==> b.subs[id].seen == Some(b.store.version))
    && (forall id :: id in b.subs ==> WellFormed(b.subs[id]))
  }

  function Init(): (b: Box)
    ensures Valid(b) && b.subs == map[]
  {
    Box(StateStore.Init(), map[], map[], 0)
  }

  /** `store.next(s)`: installs the new store and delivers it to every live
      subscription, each through its own distinct filter. */
  function Publish(b: Box, s: Store): (r: Box)
    ensures r.store == s && r.nextId == b.nextId && r.subs.Keys == b.subs.Keys
    ensures forall id :: id in b.subs ==> r.subs[id] == Deliver(s, b.subs[id]).0
    ensures forall id :: id !in b.subs ==> Received(r, id) == Received(b, id)
    ensures forall id :: id in b.subs ==> Received(r, id) == Received(b, id) + Deliver(s, b.subs[id]).1
  {
    var subs := map id | id in b.subs :: Deliver(s, b.subs[id]).0;
    var received := map id | id in b.received.Keys + b.subs.Keys ::
      Received(b, id) + (if id in b.subs then Deliver(s, b.subs[id]).1 else []);
    Box(s, subs, received, b.nextId)
  }

  /** `watch` / `select` followed by `subscribe`: the new subscription gets the
      next id, its subscribe-time emissions, and nobody else hears anything. */
  function Subscribe(b: Box, flavor: Flavor, key: Option<Path>, name: Option<string>): (r: (Box, nat))
    ensures r.1 == b.nextId && r.0.nextId > r.1 && r.0.store == b.store
    ensures r.0.subs == b.subs[r.1 := Open(b.store, flavor, key, name).0]
    ensures Received(r.0, r.1) == Open(b.store, flavor, key, name).1
    ensures forall id :: id != r.1 ==> Received(r.0, id) == Received(b, id)
  {
    var (sub, out) := Open(b.store, flavor, key, name);
    (Box(b.store, b.subs[b.nextId := sub], b.received[b.nextId := out], b.nextId + 1), b.nextId)
  }

  /** Tearing a subscription down (index.ts:159-162, 263-266). */
  function Unsubscribe(b: Box, id: nat): (r: Box)
    ensures id !in r.subs && r.subs == b.subs - {id}
    ensures r.store == b.store && r.received == b.received && r.nextId == b.nextId
  {
    b.(subs := b.subs - {id})
  }

  /** `assignState` on the box: the store transition, then the delivery. A
      thrown error leaves the whole box as it was. */
  function AssignState(b: Box, partial: State): (r: Result<Box, StoreError>)
    ensures r.Failure? <==> b.store.debug && FunctionSomewhere(Obj(partial))
    ensures r.Success? ==> r.value == Publish(b, StateStore.AssignState(b.store, partial).value)
  {
    var s :- StateStore.AssignState(b.store, partial);
    Success(Publish(b, s))
  }

  /** `clearState` on the box: a fresh empty mapping is pushed and delivered. */
  function ClearState(b: Box): (r: Box)
    ensures r.store.state == map[] && r.store.version > b.store.version
    ensures r.store.history == b.store.history && r.store.lastChanges == b.store.lastChanges
    ensures r.store.debug == b.store.debug && r.subs.Keys == b.subs.Keys && r.nextId == b.nextId
    ensures forall id :: id !in b.subs ==> Received(r, id) == Received(b, id)
    ensures Valid(b) ==> Valid(r)
    ensures Valid(b) ==> forall id :: id in b.subs ==> Received(r, id) == Received(b, id) + Step(r.store, b.subs[id]).1
  {
    Publish(b, StateStore.ClearState(b.store))
  }

  /** `clearHistory` on the box: nothing is pushed, nobody hears anything. */
  function ClearHistory(b: Box): (r: Box)
    ensures r.store.history == []
    ensures r.store.state == b.store.state && r.store.lastChanges == b.store.lastChanges
    ensures r.store.version == b.store.version && r.store.debug == b.store.debug
    ensures r.subs == b.subs && r.received == b.received && r.nextId == b.nextId
    ensures Valid(b) ==> Valid(r)
  {
    b.(store := StateStore.ClearHistory(b.store))
  }

  /** Setting the public `debug` field. */
  function SetDebug(b: Box, on: bool): (r: Box)
    ensures r.store.debug == on
    ensures r.store.state == b.store.state && r.store.history == b.store.history
    ensures r.store.lastChanges == b.store.lastChanges && r.store.version == b.store.version
    ensures r.subs == b.subs && r.received == b.received && r.nextId == b.nextId
    ensures Valid(b) ==> Valid(r)
  {
    b.(store := b.store.(debug := on))
  }

  /** A call a program makes on the box. */
  datatype Call =
    | Subscribing(flavor: Flavor, key: Option<Path>, name: Option<string>)
    | Unsubscribing(id: nat)
    | Assigning(partial: State)
    | Clearing
    | ClearingHistory
    | SettingDebug(on: bool)

  /** Performs one call; an `assignState` that throws is caught by the caller
      and leaves the box unchanged. */
  function Apply(b: Box, c: Call): Box {
    match c
    case Subscribing(flavor, key, name) => Subscribe(b, flavor, key, name).0
    case Unsubscribing(id) => Unsubscribe(b, id)
    case Assigning(partial) =>
      (match AssignState(b, partial)
       case Success(b') => b'
       case Failure(_) => b)
    case Clearing => ClearState(b)
    case ClearingHistory => ClearHistory(b)
    case SettingDebug(on) => SetDebug(b, on)
  }

  function Run(b: Box, calls: seq<Call>): Box
    decreases |calls|
  {
    if |calls| == 0 then b else Run(Apply(b, calls[0]), calls[1..])
  }

  // ---------------------------------------------------------------------
  // Invariant preservation

  /** Publishing a fresh object keeps the box valid: the reference-based
      distinct filter never holds a freshly built state back. */
  lemma PublishFreshValid(b: Box, s: Store)
    requires Valid(b) && s.version != b.store.version
    ensures Valid(Publish(b, s))
  {
  }

  /** Each live subscription runs its step on a freshly published object. */
  lemma PublishFreshAt(b: Box, s: Store, id: nat)
    requires Valid(b) && s.version != b.store.version && id in b.subs
    ensures Received(Publish(b, s), id) == Received(b, id) + Step(s, b.subs[id]).1
    ensures Publish(b, s).subs[id] == Step(s, b.subs[id]).0.(seen := Some(s.version))
  {
  }

  /** An `assignState` that goes through delivers to each live subscription
      through its step on the new store. */
  lemma AssignDelivers(b: Box, partial: State, id: nat)
    requires Valid(b) && id in b.subs && AssignState(b, partial).Success?
    ensures var s := StateStore.AssignState(b.store, partial).value;
            && Received(AssignState(b, partial).value, id) == Received(b, id) + Step(s, b.subs[id]).1
            && AssignState(b, partial).value.subs[id] == Step(s, b.subs[id]).0.(seen := Some(s.version))
  {
    PublishFreshAt(b, StateStore.AssignState(b.store, partial).value, id);
  }

  lemma {:induction false} ApplyPreservesValid(b: Box, c: Call)
    requires Valid(b)
    ensures Valid(Apply(b, c))
  {
    match c
    case Subscribing(flavor, key, name) =>
      var r := Subscribe(b, flavor, key, name).0;
      assert forall id :: id in r.received ==> id in b.received || id == b.nextId;
    case Unsubscribing(id) =>
    case Assigning(partial) =>
      if StateStore.AssignState(b.store, partial).Success? {
        PublishFreshValid(b, StateStore.AssignState(b.store, partial).value);
      }
    case Clearing =>
      PublishFreshValid(b, StateStore.ClearState(b.store));
    case ClearingHistory =>
    case SettingDebug(on) =>
  }

  /** Every box reachable from a fresh one is valid. */
  lemma {:induction false} RunPreservesValid(b: Box, calls: seq<Call>)
    requires Valid(b)
    ensures Valid(Run(b, calls))
    decreases |calls|
  {
    if |calls| > 0 {
      ApplyPreservesValid(b, calls[0]);
      RunPreservesValid(Apply(b, calls[0]), calls[1..]);
    }
  }

  /** Outside debug mode, and as long as debug is not switched on, the
      ledger never holds more than one snapshot. */
  lemma ShortHistoryPreserved(b: Box, c: Call)
    requires !b.store.debug && |b.store.history| <= 1
    requires c != SettingDebug(true)
    ensures !Apply(b, c).store.debug && |Apply(b, c).store.history| <= 1
  {
  }

  // ---------------------------------------------------------------------
  // Delivery properties

  /** A keyed `watch` hears an `assignState` exactly when the partial holds a
      defined value at the full path and that value differs from the one at
      the path before the call; it receives that value. */
  lemma KeyedWatchOnAssign(b: Box, partial: State, id: nat)
    requires Valid(b) && id in b.subs
    requires b.subs[id].flavor == Watch && b.subs[id].key.Some?
    requires AssignState(b, partial).Success?
    ensures var p := b.subs[id].key.value;
            var v := Resolve(Obj(partial), p);
            Received(AssignState(b, partial).value, id)
            == Received(b, id) + (if v.Some? && v != Resolve(Obj(b.store.state), p) then [v] else [])
  {
    AssignDelivers(b, partial, id);
    ChangedAfterAssign(b.store, partial, b.subs[id].key.value);
  }

  /** A keyed `select` hears an `assignState` under the same conditions as a
      `watch`, except that the first such delivery carrying the value it
      emitted at subscribe time is swallowed; `skip` is cleared by exactly
      the deliveries that pass both filters and is untouched by the rest. */
  lemma KeyedSelectOnAssign(b: Box, partial: State, id: nat)
    requires Valid(b) && id in b.subs
    requires b.subs[id].flavor == Select && b.subs[id].key.Some?
    requires AssignState(b, partial).Success?
    ensures var p := b.subs[id].key.value;
            var v := Resolve(Obj(partial), p);
            var sub := b.subs[id];
            var b' := AssignState(b, partial).value;
            var changed := v.Some? && v != Resolve(Obj(b.store.state), p);
            && (!changed ==> Received(b', id) == Received(b, id) && b'.subs[id].skip == sub.skip)
            && (changed ==> !b'.subs[id].skip)
            && (changed ==> Received(b', id) == Received(b, id) + (if sub.skip && v == sub.initial then [] else [v]))
  {
    AssignDelivers(b, partial, id);
    ChangedAfterAssign(b.store, partial, b.subs[id].key.value);
  }

  /** With debug on, an update holding a function anywhere is refused and
      the box keeps its state, history, change record and logs. */
  lemma GuardAbortLeavesBoxUnchanged(b: Box, partial: State)
    requires b.store.debug && FunctionSomewhere(Obj(partial))
    ensures Apply(b, Assigning(partial)) == b
  {
  }

  /** An unkeyed subscription of either flavor receives the whole new state on
      every `assignState` and every `clearState`. */
  lemma UnkeyedHearsEveryMutation(b: Box, c: Call, id: nat)
    requires Valid(b) && id in b.subs && b.subs[id].key.None?
    requires c.Clearing? || (c.Assigning? && AssignState(b, c.partial).Success?)
    ensures Received(Apply(b, c), id) == Received(b, id) + [Some(Obj(Apply(b, c).store.state))]
  {
    match c
    case Clearing =>
      PublishFreshAt(b, StateStore.ClearState(b.store), id);
    case Assigning(partial) =>
      AssignDelivers(b, partial, id);
  }

  /** After `clearState` a keyed subscription sees an absent new value: a
      `watch` receives `undefined` exactly when the last change record holds
      the path and the newest history entry had a value there. */
  lemma KeyedWatchOnClear(b: Box, id: nat)
    requires Valid(b) && id in b.subs
    requires b.subs[id].flavor == Watch && b.subs[id].key.Some?
    ensures var p := b.subs[id].key.value;
            Received(ClearState(b), id)
            == Received(b, id) + (if InLastChange(b.store, p) && OldValue(b.store, p).Some? then [None] else [])
  {
    PublishFreshAt(b, StateStore.ClearState(b.store), id);
  }

  /** Re-assigning the same partial right away is silent for every keyed
      subscription, `watch` or `select`. */
  lemma ReassignIsSilent(b: Box, partial: State, id: nat)
    requires Valid(b) && id in b.subs && b.subs[id].key.Some?
    requires AssignState(b, partial).Success?
    ensures var b1 := AssignState(b, partial).value;
            AssignState(b1, partial).Success?
            && Received(AssignState(b1, partial).value, id) == Received(b1, id)
  {
    var b1 := AssignState(b, partial).value;
    var p := b.subs[id].key.value;
    AssignDelivers(b, partial, id);
    PublishFreshValid(b, b1.store);
    assert b1.store.state == Assign(b.store.state, partial);
    AssignIdempotent(b.store.state, partial);
    AssignDelivers(b1, partial, id);
    ChangedAfterAssign(b1.store, partial, p);
    ResolveAssign(b.store.state, partial, p);
  }

  /** Two assignments of different values to one top-level key reach a
      keyed `watch` on that key as two emissions, in order, provided the
      first value differs from what was there before. */
  lemma DistinctAssignsEmitInOrder(b: Box, k: string, v1: Value, v2: Value, id: nat)
    requires Valid(b) && id in b.subs
    requires b.subs[id].flavor == Watch && b.subs[id].key == Some([k])
    requires b.store.debug ==> !ContainsFunction(v1) && !ContainsFunction(v2)
    requires v1 != v2 && Lookup(b.store.state, k) != Some(v1)
    ensures AssignState(b, map[k := v1]).Success?
    ensures AssignState(AssignState(b, map[k := v1]).value, map[k := v2]).Success?
    ensures Received(AssignState(AssignState(b, map[k := v1]).value, map[k := v2]).value, id)
            == Received(b, id) + [Some(v1)] + [Some(v2)]
  {
    AssignOfKey(b, k, v1, id);
    var b1 := AssignState(b, map[k := v1]).value;
    AssignOfKey(b1, k, v2, id);
  }

  /** Assigning a new value to one top-level key reaches a keyed `watch` on
      that key as exactly that value. */
  lemma AssignOfKey(b: Box, k: string, v: Value, id: nat)
    requires Valid(b) && id in b.subs
    requires b.subs[id].flavor == Watch && b.subs[id].key == Some([k])
    requires b.store.debug ==> !ContainsFunction(v)
    requires Lookup(b.store.state, k) != Some(v)
    ensures AssignState(b, map[k := v]).Success?
    ensures var b1 := AssignState(b, map[k := v]).value;
            && Valid(b1) && id in b1.subs
            && b1.subs[id].flavor == Watch && b1.subs[id].key == Some([k]) && b1.store.debug == b.store.debug
            && Received(b1, id) == Received(b, id) + [Some(v)]
            && Lookup(b1.store.state, k) == Some(v)
  {
    var q := map[k := v];
    SingleKeyPassesGuard(b.store, k, v);
    var s := StateStore.AssignState(b.store, q).value;
    assert Resolve(Obj(q), [k]) == Some(v);
    assert Resolve(Obj(b.store.state), [k]) == Lookup(b.store.state, k);
    assert Lookup(s.state, k) == Some(v);
    AssignDelivers(b, q, id);
    ChangedAfterAssign(b.store, q, [k]);
    PublishFreshValid(b, s);
  }

  /** A one-key update whose value holds no function passes the debug guard. */
  lemma SingleKeyPassesGuard(s: Store, k: string, v: Value)
    requires s.debug ==> !ContainsFunction(v)
    ensures StateStore.AssignState(s, map[k := v]).Success?
  {
    if s.debug {
      ContainsFunctionIff(Obj(map[k := v]));
    }
  }

  /** Clearing the history does not change what any observer hears from the
      next `assignState`, nor any subscription's state: the pre-mutation state
      is pushed before delivery, so the diff is still against it. */
  lemma ClearHistoryThenAssign(b: Box, partial: State)
    requires AssignState(b, partial).Success?
    ensures AssignState(ClearHistory(b), partial).Success?
    ensures var r1 := AssignState(b, partial).value;
            var r2 := AssignState(ClearHistory(b), partial).value;
            r2.subs == r1.subs && r2.received == r1.received
  {
    var s := StateStore.AssignState(b.store, partial).value;
    var t := StateStore.AssignState(ClearHistory(b).store, partial).value;
    forall sid | sid in b.subs ensures Deliver(s, b.subs[sid]) == Deliver(t, b.subs[sid]) {
      ClearedHistoryDeliversAlike(b.store, partial, b.subs[sid]);
    }
    PublishSameDeliveries(b, ClearHistory(b), s, t);
  }

  /** Two boxes with the same registry and logs, given stores that every live
      subscription treats alike, end with the same registry and logs. */
  lemma PublishSameDeliveries(b: Box, c: Box, s: Store, t: Store)
    requires b.subs == c.subs && b.received == c.received
    requires forall sid :: sid in b.subs ==> Deliver(s, b.subs[sid]) == Deliver(t, b.subs[sid])
    ensures Publish(b, s).subs == Publish(c, t).subs
    ensures Publish(b, s).received == Publish(c, t).received
  {
  }

  /** What a `watch` receives on subscribing: the subject replays the current
      object, so a keyed watch emits when the last change touched its path
      and the value there differs from the newest history entry; an unkeyed
      one always receives the current state. */
  lemma WatchSubscribeReplay(b: Box, key: Option<Path>, name: Option<string>)
    ensures var (b', id) := Subscribe(b, Watch, key, name);
            Received(b', id) == match key
                                case None => [Some(Obj(b.store.state))]
                                case Some(p) => if Changed(b.store, p) then [NewValue(b.store, p)] else []
  {
  }

  /** What a `select` receives on subscribing: the current value when it is
      defined, exactly once (the replay is swallowed by `skip`); when it is
      absent, only the replay can speak, and then it delivers `undefined`.
      A keyed select whose replay was filtered out keeps `skip` raised. */
  lemma SelectSubscribe(b: Box, key: Option<Path>, name: Option<string>)
    ensures var (b', id) := Subscribe(b, Select, key, name);
            var initial := InitialValue(b.store, key);
            && (initial.Some? ==> Received(b', id) == [initial])
            && (initial.None? ==> Received(b', id) == if Changed(b.store, key.value) then [None] else [])
            && (key.None? ==> !b'.subs[id].skip)
            && (key.Some? ==> b'.subs[id].skip == (initial.Some? && !Changed(b.store, key.value)))
  {
  }

  /** Once unsubscribed, an observer hears nothing more, whatever is called. */
  lemma {:induction false} UnsubscribedHearsNothing(b: Box, id: nat, calls: seq<Call>)
    requires Valid(b) && id !in b.subs && id < b.nextId
    ensures Received(Run(b, calls), id) == Received(b, id)
    decreases |calls|
  {
    if |calls| > 0 {
      var b1 := Apply(b, calls[0]);
      ApplyPreservesValid(b, calls[0]);
      assert id !in b1.subs && id < b1.nextId && Received(b1, id) == Received(b, id) by {
        match calls[0]
        case Subscribing(flavor, key, name) =>
        case Unsubscribing(j) =>
        case Assigning(partial) =>
        case Clearing =>
        case ClearingHistory =>
        case SettingDebug(on) =>
      }
      UnsubscribedHearsNothing(b1, id, calls[1..]);
    }
  }
}
