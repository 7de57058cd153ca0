/**
  Runs taken from the repository's test file (tests/test.spec.ts), and the
  edge cases the delivery rules produce, stated on concrete boxes.
*/
module Scenarios {
  import opened Wrappers
  import opened Json
  import opened History
  import StateStore
  import opened Subscriptions
  import opened RxBox

  /** The box the test file works with: fresh, with debug switched on. */
  function DebugBox(): (b: Box)
    ensures Valid(b) && b.store.debug && b.subs == map[]
  {
    SetDebug(RxBox.Init(), true)
  }

  /** The update `{foo: 1}` the test file starts with. */
  function FooOne(): State {
    map["foo" := Int(1)]
  }

  lemma FooOneIsPlain()
    ensures !FunctionSomewhere(Obj(FooOne()))
  {
    ContainsFunctionIff(Obj(FooOne()));
  }

  /** tests/test.spec.ts:20-24 and 65-73: values assigned at the top level,
      nested mappings included, are read back from the state. */
  lemma AssignThenRead()
    ensures StateStore.AssignState(DebugBox().store, FooOne()).Success?
    ensures var s1 := StateStore.AssignState(DebugBox().store, FooOne()).value;
            && StateStore.GetState(s1)["foo"] == Int(1)
            && StateStore.AssignState(s1, Foo2Update()).Success?
            && Resolve(Obj(StateStore.GetState(StateStore.AssignState(s1, Foo2Update()).value)), Foo2Bar()) == Some(Str("testVal"))
            && StateStore.GetState(StateStore.AssignState(s1, Foo2Update()).value)["foo"] == Int(1)
  {
    FooOneIsPlain();
    Foo2UpdateFacts();
    var s1 := StateStore.AssignState(DebugBox().store, FooOne()).value;
    ResolveAssign(s1.state, Foo2Update(), Foo2Bar());
  }

  /** The box after the first `{foo: 1}` and after assigning it again. */
  lemma FooOneAssigned()
    ensures AssignState(DebugBox(), FooOne()).Success?
    ensures var b1 := AssignState(DebugBox(), FooOne()).value;
            && b1.store.state == FooOne() && b1.store.lastChanges == Some(FooOne())
            && Last(b1.store.history) == Some(map[])
            && AssignState(b1, FooOne()).Success?
            && AssignState(b1, FooOne()).value.store.state == FooOne()
            && AssignState(b1, FooOne()).value.store.lastChanges == Some(FooOne())
            && Last(AssignState(b1, FooOne()).value.store.history) == Some(FooOne())
  {
    FooOneIsPlain();
    var b1 := AssignState(DebugBox(), FooOne()).value;
    assert b1.store.state == FooOne();
  }

  /** tests/test.spec.ts:38-46: a `select` on a key that already holds a value
      receives it once, immediately. */
  lemma SelectAfterAssign()
    ensures AssignState(DebugBox(), FooOne()).Success?
    ensures var b1 := AssignState(DebugBox(), FooOne()).value;
            Received(Subscribe(b1, Select, Some(["foo"]), None).0, b1.nextId) == [Some(Int(1))]
  {
    FooOneAssigned();
    SelectOnFooOne(AssignState(DebugBox(), FooOne()).value);
  }

  lemma SelectOnFooOne(b1: Box)
    requires b1.store.state == FooOne()
    ensures Received(Subscribe(b1, Select, Some(["foo"]), None).0, b1.nextId) == [Some(Int(1))]
  {
    SelectSubscribe(b1, Some(["foo"]), None);
  }

  /** tests/test.spec.ts:49-61 relies on `foo` already being 1 before the
      assignment: on a box whose last `assignState` did change `foo`, the
      subject's replay makes a newly subscribed keyed `watch` emit at once. */
  lemma WatchReplaysLastChange()
    ensures AssignState(DebugBox(), FooOne()).Success?
    ensures var b1 := AssignState(DebugBox(), FooOne()).value;
            Received(Subscribe(b1, Watch, Some(["foo"]), None).0, b1.nextId) == [Some(Int(1))]
  {
    FooOneAssigned();
    WatchOnFreshFooOne(AssignState(DebugBox(), FooOne()).value);
  }

  lemma WatchOnFreshFooOne(b1: Box)
    requires b1.store.state == FooOne() && b1.store.lastChanges == Some(FooOne())
    requires Last(b1.store.history) == Some(map[])
    ensures Received(Subscribe(b1, Watch, Some(["foo"]), None).0, b1.nextId) == [Some(Int(1))]
  {
    WatchSubscribeReplay(b1, Some(["foo"]), None);
    assert Changed(b1.store, ["foo"]);
  }

  /** tests/test.spec.ts:49-61 as the test file runs it: `foo` already holds
      1 when line 50 assigns it again (the second assignment here), so the
      newest history entry has `foo` = 1, the replay is filtered out and the
      watch stays silent. */
  lemma WatchAfterRepeatedAssign()
    ensures AssignState(DebugBox(), FooOne()).Success?
    ensures AssignState(AssignState(DebugBox(), FooOne()).value, FooOne()).Success?
    ensures var b2 := AssignState(AssignState(DebugBox(), FooOne()).value, FooOne()).value;
            Received(Subscribe(b2, Watch, Some(["foo"]), None).0, b2.nextId) == []
  {
    FooOneAssigned();
    WatchOnRepeatedFooOne(AssignState(AssignState(DebugBox(), FooOne()).value, FooOne()).value);
  }

  lemma WatchOnRepeatedFooOne(b2: Box)
    requires b2.store.state == FooOne() && b2.store.lastChanges == Some(FooOne())
    requires Last(b2.store.history) == Some(FooOne())
    ensures Received(Subscribe(b2, Watch, Some(["foo"]), None).0, b2.nextId) == []
  {
    WatchSubscribeReplay(b2, Some(["foo"]), None);
    assert !Changed(b2.store, ["foo"]);
  }

  /** The nested update of tests/test.spec.ts:65-88 and the path it sets. */
  function Foo2Update(): State {
    map["foo2" := Obj(map["bar" := Str("testVal")])]
  }

  function Foo2Bar(): Path {
    ["foo2", "bar"]
  }

  lemma Foo2UpdateFacts()
    ensures Resolve(Obj(Foo2Update()), Foo2Bar()) == Some(Str("testVal"))
    ensures !FunctionSomewhere(Obj(Foo2Update()))
  {
    ContainsFunctionIff(Obj(Foo2Update()));
    assert !ContainsFunction(Obj(map["bar" := Str("testVal")]));
  }

  /** A `watch` on a nested path is notified when its top-level ancestor is
      replaced by a mapping holding a new value at the path. */
  lemma NestedWatch(b: Box)
    requires Valid(b) && "foo2" !in b.store.state
    ensures var (b1, id) := Subscribe(b, Watch, Some(Foo2Bar()), None);
            && AssignState(b1, Foo2Update()).Success?
            && Received(AssignState(b1, Foo2Update()).value, id) == Received(b1, id) + [Some(Str("testVal"))]
  {
    var (b1, id) := Subscribe(b, Watch, Some(Foo2Bar()), None);
    Foo2UpdateFacts();
    ApplyPreservesValid(b, Subscribing(Watch, Some(Foo2Bar()), None));
    KeyedWatchOnAssign(b1, Foo2Update(), id);
  }

  /** tests/test.spec.ts:65-88 as the test file runs it: `foo2` was assigned
      by the previous test, so the nested `watch` hears the value from the
      subject's replay at subscribe time, and the test's own assignment of
      the same value adds nothing. */
  lemma NestedWatchAsTested(b: Box)
    requires Valid(b) && "foo2" !in b.store.state
    ensures AssignState(b, Foo2Update()).Success?
    ensures var (b2, id) := Subscribe(AssignState(b, Foo2Update()).value, Watch, Some(Foo2Bar()), None);
            && Received(b2, id) == [Some(Str("testVal"))]
            && AssignState(b2, Foo2Update()).Success?
            && Received(AssignState(b2, Foo2Update()).value, id) == [Some(Str("testVal"))]
  {
    Foo2UpdateFacts();
    var b1 := AssignState(b, Foo2Update()).value;
    var (b2, id) := Subscribe(b1, Watch, Some(Foo2Bar()), None);
    NestedWatchReplay(b, b1);
    KeyedWatchOnAssign(b2, Foo2Update(), id);
  }

  lemma NestedWatchReplay(b: Box, b1: Box)
    requires Valid(b) && "foo2" !in b.store.state
    requires AssignState(b, Foo2Update()) == Success(b1)
    ensures var (b2, id) := Subscribe(b1, Watch, Some(Foo2Bar()), None);
            && Received(b2, id) == [Some(Str("testVal"))]
            && Valid(b2) && id in b2.subs && b2.subs[id].flavor == Watch && b2.subs[id].key == Some(Foo2Bar())
            && Resolve(Obj(b2.store.state), Foo2Bar()) == Some(Str("testVal"))
  {
    var p := Foo2Bar();
    Foo2UpdateFacts();
    assert Changed(b1.store, p) && NewValue(b1.store, p) == Some(Str("testVal")) by {
      ChangedAfterAssign(b.store, Foo2Update(), p);
    }
    WatchSubscribeReplay(b1, Some(p), None);
    ApplyPreservesValid(b, Assigning(Foo2Update()));
    ApplyPreservesValid(b1, Subscribing(Watch, Some(p), None));
  }

  /** The pre-filter reads the full path inside the partial: replacing the
      ancestor `foo2` by a mapping without `bar` removes the value at
      `foo2.bar`, yet its `watch` hears nothing. */
  lemma RemovalIsNotReported(b: Box, id: nat)
    requires Valid(b) && id in b.subs
    requires b.subs[id].flavor == Watch && b.subs[id].key == Some(Foo2Bar())
    requires b.store.state == map["foo2" := Obj(map["bar" := Int(1)])]
    ensures Resolve(Obj(b.store.state), Foo2Bar()) == Some(Int(1))
    ensures AssignState(b, EmptyFoo2()).Success?
    ensures var b1 := AssignState(b, EmptyFoo2()).value;
            && Resolve(Obj(b1.store.state), Foo2Bar()).None?
            && Received(b1, id) == Received(b, id)
  {
    EmptyFoo2HasNoBar(b.store);
    KeyedWatchOnAssign(b, EmptyFoo2(), id);
  }

  /** The update `{foo2: {}}`. */
  function EmptyFoo2(): State {
    map["foo2" := Obj(map[])]
  }

  lemma EmptyFoo2IsPlain()
    ensures !FunctionSomewhere(Obj(EmptyFoo2()))
  {
    ContainsFunctionIff(Obj(EmptyFoo2()));
    assert !ContainsFunction(Obj(map[]));
  }

  lemma EmptyFoo2HasNoBar(s: StateStore.Store)
    requires s.state == map["foo2" := Obj(map["bar" := Int(1)])]
    ensures Resolve(Obj(s.state), Foo2Bar()) == Some(Int(1))
    ensures StateStore.AssignState(s, EmptyFoo2()).Success?
    ensures Resolve(Obj(StateStore.AssignState(s, EmptyFoo2()).value.state), Foo2Bar()).None?
  {
    EmptyFoo2IsPlain();
    ResolveAssign(s.state, EmptyFoo2(), Foo2Bar());
  }

  /** With debug on, a function buried in an array aborts `assignState`;
      with debug off the same update is stored. */
  lemma GuardOnlyInDebug()
    ensures AssignState(DebugBox(), map["f" := Arr([Null, Func(7)])]).Failure?
    ensures AssignState(RxBox.Init(), map["f" := Arr([Null, Func(7)])]).Success?
  {
    var v := Obj(map["f" := Arr([Null, Func(7)])]);
    assert At(v, [Field("f"), Index(1)]) == Some(Func(7));
  }
}
