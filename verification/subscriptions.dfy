/**
  The per-subscription delivery logic of `watch` (index.ts:110-164) and
  `select` (index.ts:169-268). Each subscription is an explicit record; a
  delivery of the subject's current value is a pure step that returns the
  updated record and the values pushed to the observer (zero or one, also
  at subscribe time). An emitted `None` is the observer receiving
  `undefined`.
*/
module Subscriptions {
  import opened Wrappers
  import opened Json
  import opened History
  import opened StateStore

  datatype Flavor = Watch | Select

  /** A live subscription. `seen` is the identity of the last object that
      passed the reference-based `distinctUntilChanged`; `skip` and `initial`
      are the one-shot flag and the value emitted at subscribe time of a
      `select` (the captured `STATE` when unkeyed, `value` when keyed). */
  datatype Sub = Sub(
    flavor: Flavor,
    key: Option<Path>,
    name: Option<string>,
    seen: Option<nat>,
    skip: bool,
    initial: Option<Value>)

  /** The shape every subscription keeps: a watch never skips, a skip flag is
      only ever raised after an initial emission, and an unkeyed select has
      consumed its flag on its first delivery. */
  predicate WellFormed(sub: Sub) {
    && (sub.flavor == Watch ==> !sub.skip && sub.initial.None?)
    && (sub.skip ==> sub.initial.Some?)
    && (sub.key.None? && sub.seen.Some? ==> !sub.skip)
  }

  /** The keyed pre-filter (index.ts:137-138, 235-236): the full path must
      resolve to a defined value inside the last change record, which is
      `null` before the first `assignState`. */
  predicate InLastChange(s: Store, p: Path) {
    s.lastChanges.Some? && Resolve(Obj(s.lastChanges.value), p).Some?
  }

  /** The old value (index.ts:141-142, 239-240): the value at the path in the
      newest history entry, absent when the ledger is empty. */
  function OldValue(s: Store, p: Path): Option<Value> {
    match Last(s.history)
    case None => None
    case Some(h) => Resolve(Obj(h), p)
  }

  /** The value at the path in the delivered state. */
  function NewValue(s: Store, p: Path): Option<Value> {
    Resolve(Obj(s.state), p)
  }

  /** A keyed delivery that passes both filters: the path is in the last
      change and its value differs from the one in the newest history entry. */
  predicate Changed(s: Store, p: Path) {
    InLastChange(s, p) && NewValue(s, p) != OldValue(s, p)
  }

  /** One delivery of the store's current state to a subscription, after the
      subject's distinct filter has let it through. */
  function Step(s: Store, sub: Sub): (r: (Sub, seq<Option<Value>>))
    ensures |r.1| <= 1
    ensures r.0.flavor == sub.flavor && r.0.key == sub.key && r.0.name == sub.name
    ensures r.0.seen == sub.seen && r.0.initial == sub.initial
    ensures r.0.skip ==> sub.skip
    ensures sub.key.None? ==> !r.0.skip
    ensures sub.key.None? ==>
              (r.1 == [] <==> sub.flavor == Select && sub.skip && sub.initial == Some(Obj(s.state)))
    ensures sub.key.None? && r.1 != [] ==> r.1 == [Some(Obj(s.state))]
    ensures sub.key.Some? ==>
              var p := sub.key.value;
              && (r.1 != [] <==> Changed(s, p) && !(sub.flavor == Select && sub.skip && NewValue(s, p) == sub.initial))
              && (r.1 != [] ==> r.1 == [NewValue(s, p)])
              && (r.0.skip <==> sub.skip && !Changed(s, p))
  {
    var now := Obj(s.state);
    match sub.key
    case None =>
      if sub.flavor == Select && sub.skip && sub.initial == Some(now) then
        (sub.(skip := false), [])
      else
        (sub.(skip := false), [Some(now)])
    case Some(p) =>
      if !Changed(s, p) then
        (sub, [])
      else if sub.flavor == Select && sub.skip && NewValue(s, p) == sub.initial then
        (sub.(skip := false), [])
      else
        (sub.(skip := false), [NewValue(s, p)])
  }

  /** `distinctUntilChanged()` with no comparator in front of `Step`: the
      same object is never delivered twice to one subscription. */
  function Deliver(s: Store, sub: Sub): (r: (Sub, seq<Option<Value>>))
    ensures r.0.seen == Some(s.version)
    ensures sub.seen == Some(s.version) ==> r == (sub, [])
    ensures sub.seen != Some(s.version) ==> r == (Step(s, sub).0.(seen := Some(s.version)), Step(s, sub).1)
    ensures WellFormed(sub) ==> WellFormed(r.0)
  {
    if sub.seen == Some(s.version) then (sub, [])
    else
      var (sub', out) := Step(s, sub);
      (sub'.(seen := Some(s.version)), out)
  }

  /** The value a `select` emits at subscribe time (index.ts:179-207): the
      whole state when unkeyed (always defined), else the value reached by
      walking the path's segments as mapping keys of the current state. */
  function InitialValue(s: Store, key: Option<Path>): (r: Option<Value>)
    ensures key.None? ==> r == Some(Obj(s.state))
    ensures key.Some? ==> r == At(Obj(s.state), Fields(key.value))
  {
    match key
    case None => Some(Obj(s.state))
    case Some(p) =>
      ResolveIsFieldWalk(Obj(s.state), p);
      Resolve(Obj(s.state), p)
  }

  /** Subscribing: register the record, emit the initial value of a `select`
      when it is defined and raise `skip`, then let the subject replay its
      current value (index.ts:119, 210). */
  function Open(s: Store, flavor: Flavor, key: Option<Path>, name: Option<string>): (r: (Sub, seq<Option<Value>>))
    ensures WellFormed(r.0) && r.0.seen == Some(s.version)
    ensures r.0.flavor == flavor && r.0.key == key && r.0.name == name
    ensures flavor == Select ==> r.0.initial == InitialValue(s, key)
    ensures flavor == Select && InitialValue(s, key).Some? ==> |r.1| > 0 && r.1[0] == InitialValue(s, key)
    ensures |r.1| <= 1
  {
    match flavor
    case Watch =>
      Deliver(s, Sub(Watch, key, name, None, false, None))
    case Select =>
      var initial := InitialValue(s, key);
      var (sub', out) := Deliver(s, Sub(Select, key, name, None, initial.Some?, initial));
      (sub', (if initial.Some? then [initial] else []) + out)
  }

  /** After `assignState(partial)` a keyed delivery passes both filters
      exactly when the partial defines the path and the value there differs
      from the pre-mutation one; the new value is then the partial's. */
  lemma ChangedAfterAssign(s: Store, partial: State, p: Path)
    requires AssignState(s, partial).Success?
    ensures var s' := AssignState(s, partial).value;
            var v := Resolve(Obj(partial), p);
            && (Changed(s', p) <==> v.Some? && v != Resolve(Obj(s.state), p))
            && (Changed(s', p) ==> NewValue(s', p) == v)
  {
    var s' := AssignState(s, partial).value;
    assert s'.state == Assign(s.state, partial);
    ResolveAssign(s.state, partial, p);
  }

  /** Deliveries read the ledger only through its newest entry. */
  lemma DeliverReadsOnlyLast(s: Store, t: Store, sub: Sub)
    requires s.state == t.state && s.version == t.version && s.lastChanges == t.lastChanges
    requires Last(s.history) == Last(t.history)
    ensures Deliver(s, sub) == Deliver(t, sub)
  {
    match sub.key
    case None =>
    case Some(p) =>
      assert OldValue(s, p) == OldValue(t, p);
  }

  /** Clearing the ledger before an `assignState` changes no delivery of it. */
  lemma ClearedHistoryDeliversAlike(s: Store, partial: State, sub: Sub)
    requires AssignState(s, partial).Success?
    ensures AssignState(ClearHistory(s), partial).Success?
    ensures Deliver(AssignState(s, partial).value, sub) == Deliver(AssignState(ClearHistory(s), partial).value, sub)
  {
    var s1 := AssignState(s, partial).value;
    var s2 := AssignState(ClearHistory(s), partial).value;
    assert Last(s1.history) == Last(s2.history) == Some(s.state);
    assert s1.state == s2.state;
    DeliverReadsOnlyLast(s1, s2, sub);
  }
}
