/**
  The central state cell together with the mutation API of `RXBox`: the
  current state, the history ledger, the most recent partial update and
  the debug flag. `version` stands for the identity of the object last
  pushed into the subject: every push is a freshly built object, so the
  counter grows by one on each push.
*/
module StateStore {
  import opened Wrappers
  import opened Json
  import opened History

  /** The error thrown when the debug guard finds a function in an update. */
  datatype StoreError = ValueNotSerializable

  datatype Store = Store(
    state: State,
    version: nat,
    history: seq<State>,
    lastChanges: Option<State>,
    debug: bool)

  /** A freshly constructed box: empty state, empty history, no change
      recorded yet (`lastChanges = null`), debug off. */
  function Init(): (s: Store)
    ensures s.state == map[] && s.history == [] && s.lastChanges.None? && !s.debug
  {
    Store(map[], 0, [], None, false)
  }

  /** `getState` (index.ts:272-276). The deep copy and the live reference are
      indistinguishable for immutable values. */
  function GetState(s: Store): State {
    s.state
  }

  /** `getHistory` (index.ts:94-96). */
  function GetHistory(s: Store): seq<State> {
    s.history
  }

  /** `clearHistory` (index.ts:100-102): empties the ledger, nothing else. */
  function ClearHistory(s: Store): (r: Store)
    ensures r.history == []
    ensures r.state == s.state && r.version == s.version
    ensures r.lastChanges == s.lastChanges && r.debug == s.debug
  {
    s.(history := [])
  }

  /** `clearState` (index.ts:280-282): pushes a fresh empty mapping; history
      and the last change record are left as they were. */
  function ClearState(s: Store): (r: Store)
    ensures r.state == map[]
    ensures r.version > s.version
    ensures r.history == s.history && r.lastChanges == s.lastChanges && r.debug == s.debug
  {
    s.(state := map[], version := s.version + 1)
  }

  /** `preventFunctionsInKey` (index.ts:51-65) applied to a partial update:
      fails exactly when a function sits at some address inside it. */
  function PreventFunctionsInKey(partial: State): (r: Result<(), StoreError>)
    ensures r.Failure? <==> FunctionSomewhere(Obj(partial))
  {
    ContainsFunctionIff(Obj(partial));
    if ContainsFunction(Obj(partial)) then Failure(ValueNotSerializable) else Success(())
  }

  /** `assignState` (index.ts:286-295), the state part: the debug guard, the
      shallow merge, the history push of the pre-mutation state, the change
      record, and the push of a fresh object into the subject. */
  function AssignState(s: Store, partial: State): (r: Result<Store, StoreError>)
    ensures r.Failure? <==> s.debug && FunctionSomewhere(Obj(partial))
    ensures r.Success? ==> r.value.state.Keys == s.state.Keys + partial.Keys
    ensures r.Success? ==> forall k :: k in partial ==> r.value.state[k] == partial[k]
    ensures r.Success? ==> forall k :: k in s.state && k !in partial ==> r.value.state[k] == s.state[k]
    ensures r.Success? ==> Last(r.value.history) == Some(s.state)
    ensures r.Success? ==> r.value.history == PushHistory(s.history, s.debug, s.state)
    ensures r.Success? && s.debug ==> |r.value.history| == |s.history| + 1
    ensures r.Success? && !s.debug ==> |r.value.history| == if |s.history| == 0 then 1 else |s.history|
    ensures r.Success? ==> r.value.lastChanges == Some(partial)
    ensures r.Success? ==> r.value.debug == s.debug && r.value.version > s.version
  {
    var _ :- if s.debug then PreventFunctionsInKey(partial) else Success(());
    var newState := Assign(GetState(s), partial);
    var history := PushHistory(s.history, s.debug, GetState(s));
    Success(Store(newState, s.version + 1, history, Some(partial), s.debug))
  }

  /** Runs `assignState` on each partial in turn, stopping at the first error. */
  function AssignAll(s: Store, ps: seq<State>): Result<Store, StoreError>
    decreases |ps|
  {
    if |ps| == 0 then Success(s)
    else
      var s' :- AssignState(s, ps[0]);
      AssignAll(s', ps[1..])
  }

  /** Reference definition of a fold of shallow merges: the value of key `k`
      comes from the last partial that mentions it. */
  function Latest(ps: seq<State>, k: string): Option<Value>
    decreases |ps|
  {
    if |ps| == 0 then None
    else if k in ps[|ps| - 1] then Some(ps[|ps| - 1][k])
    else Latest(ps[..|ps| - 1], k)
  }

  /** The expected value of `k` after merging `ps` onto `base`. */
  function Folded(base: State, ps: seq<State>, k: string): Option<Value> {
    if Latest(ps, k).Some? then Latest(ps, k) else Lookup(base, k)
  }

  lemma {:induction false} LatestCons(p: State, rest: seq<State>, k: string)
    ensures Latest([p] + rest, k) == if Latest(rest, k).Some? then Latest(rest, k) else Lookup(p, k)
    decreases |rest|
  {
    var ps := [p] + rest;
    if |rest| == 0 {
      assert ps[..|ps| - 1] == [];
    } else {
      assert ps[|ps| - 1] == rest[|rest| - 1];
      assert ps[..|ps| - 1] == [p] + rest[..|rest| - 1];
      LatestCons(p, rest[..|rest| - 1], k);
    }
  }

  /** A run of `assignState` calls that the guard lets through leaves the
      state equal to the fold of shallow merges, later partials overriding
      earlier ones key by key; outside debug mode a ledger of at most one
      entry stays that way. */
  lemma AssignAllIsMergeFold(s: Store, ps: seq<State>)
    requires s.debug ==> forall i :: 0 <= i < |ps| ==> !FunctionSomewhere(Obj(ps[i]))
    ensures AssignAll(s, ps).Success?
    ensures forall k :: Lookup(AssignAll(s, ps).value.state, k) == Folded(s.state, ps, k)
    ensures AssignAll(s, ps).value.debug == s.debug
    ensures !s.debug && |s.history| <= 1 ==> |AssignAll(s, ps).value.history| <= 1
  {
    AssignAllFolds(s, ps);
    AssignAllKeepsMode(s, ps);
  }

  /** The guard never fires on plain partials, so each partial is merged. */
  lemma {:induction false} AssignAllFolds(s: Store, ps: seq<State>)
    requires s.debug ==> forall i :: 0 <= i < |ps| ==> !FunctionSomewhere(Obj(ps[i]))
    ensures AssignAll(s, ps).Success?
    ensures forall k :: Lookup(AssignAll(s, ps).value.state, k) == Folded(s.state, ps, k)
    decreases |ps|
  {
    if |ps| > 0 {
      var s' := AssignState(s, ps[0]).value;
      var rest := ps[1..];
      assert ps == [ps[0]] + rest;
      PlainTail(s.debug, ps);
      AssignAllFolds(s', rest);
      forall k ensures Folded(s'.state, rest, k) == Folded(s.state, ps, k) {
        LatestCons(ps[0], rest, k);
      }
    }
  }

  lemma PlainTail(debug: bool, ps: seq<State>)
    requires |ps| > 0
    requires debug ==> forall i :: 0 <= i < |ps| ==> !FunctionSomewhere(Obj(ps[i]))
    ensures debug ==> forall i :: 0 <= i < |ps| - 1 ==> !FunctionSomewhere(Obj(ps[1..][i]))
  {
    if debug {
      forall i | 0 <= i < |ps| - 1 ensures !FunctionSomewhere(Obj(ps[1..][i])) {
        assert ps[1..][i] == ps[i + 1];
      }
    }
  }

  /** The debug flag never changes, and without debug a ledger of at most one
      entry stays that way. */
  lemma {:induction false} AssignAllKeepsMode(s: Store, ps: seq<State>)
    requires AssignAll(s, ps).Success?
    ensures AssignAll(s, ps).value.debug == s.debug
    ensures !s.debug && |s.history| <= 1 ==> |AssignAll(s, ps).value.history| <= 1
    decreases |ps|
  {
    if |ps| > 0 {
      AssignAllKeepsMode(AssignState(s, ps[0]).value, ps[1..]);
    }
  }

  /** `getState` after `assignState` reads the partial's value at every path
      whose first segment the partial sets, and the old value elsewhere. */
  lemma GetStateAfterAssign(s: Store, partial: State, p: Path)
    requires AssignState(s, partial).Success?
    ensures Resolve(Obj(GetState(AssignState(s, partial).value)), p)
            == if p[0] in partial then Resolve(Obj(partial), p) else Resolve(Obj(GetState(s)), p)
  {
    assert AssignState(s, partial).value.state == Assign(s.state, partial);
    ResolveAssign(s.state, partial, p);
  }

  /** In debug mode the ledger `getHistory` returns keeps every snapshot: a
      run of assignments appends one entry per call, the first of them the
      state before the run, and leaves the earlier entries untouched. */
  lemma {:induction false} DebugHistoryKeepsAll(s: Store, ps: seq<State>)
    requires s.debug && forall i :: 0 <= i < |ps| ==> !FunctionSomewhere(Obj(ps[i]))
    ensures AssignAll(s, ps).Success?
    ensures var h := GetHistory(AssignAll(s, ps).value);
            && |h| == |GetHistory(s)| + |ps|
            && h[..|GetHistory(s)|] == GetHistory(s)
            && (|ps| > 0 ==> h[|GetHistory(s)|] == GetState(s))
    decreases |ps|
  {
    if |ps| > 0 {
      var s' := AssignState(s, ps[0]).value;
      assert s'.history == s.history + [s.state];
      PlainTail(s.debug, ps);
      DebugHistoryKeepsAll(s', ps[1..]);
      var h := AssignAll(s', ps[1..]).value.history;
      assert h[..|s'.history|] == s'.history;
      assert h[..|s.history|] == s'.history[..|s.history|];
    }
  }
}
