/**
  The JSON-like values held by the store, path resolution (the part of
  lodash's `get` the store relies on), the callable scan behind the debug
  guard, and the shallow merge performed by lodash's `assign`.

  Structural equality (lodash's `isEqual`) is Dafny's `==` on `Value`:
  dates compare by instant and functions compare by identity.
*/
module Json {
  import opened Wrappers

  /** A stored value. `Date` carries its instant in milliseconds; `Func(ref)`
      is a function object, identified by its reference. */
  datatype Value =
    | Null
    | Bool(b: bool)
    | Int(i: int)
    | Str(s: string)
    | Date(instant: int)
    | Arr(items: seq<Value>)
    | Obj(fields: map<string, Value>)
    | Func(ref: nat)

  /** A top-level mapping: the shape of the whole state and of every partial update. */
  type State = map<string, Value>

  /** A dotted key such as "a.b.c", already split into its segments; splitting
      a dotted string always yields at least one segment. */
  type Path = p: seq<string> | |p| > 0 witness [""]

  /** Descends through mappings along `segs`; absent as soon as a segment is
      missing or an intermediate value is not a mapping. */
  function Resolve(v: Value, segs: seq<string>): Option<Value>
    decreases |segs|
  {
    if |segs| == 0 then Some(v)
    else match v
      case Obj(fields) =>
        if segs[0] in fields then Resolve(fields[segs[0]], segs[1..]) else None
      case _ => None
  }

  /** Resolution is a fold over the segments: resolving `p + q` resolves `p`
      first and then `q` from wherever `p` led. */
  lemma {:induction false} ResolveAppend(v: Value, p: seq<string>, q: seq<string>)
    ensures Resolve(v, p + q) == match Resolve(v, p)
                                 case None => None
                                 case Some(w) => Resolve(w, q)
    decreases |p|
  {
    if |p| == 0 {
      assert p + q == q;
    } else {
      assert (p + q)[0] == p[0];
      assert (p + q)[1..] == p[1..] + q;
      match v
      case Obj(fields) =>
        if p[0] in fields {
          ResolveAppend(fields[p[0]], p[1..], q);
        }
      case _ =>
    }
  }

  /** Absence is contagious: once a prefix of the path is absent, so is every
      extension of it, and no error is raised along the way. */
  lemma AbsentPrefixStaysAbsent(v: Value, p: seq<string>, q: seq<string>)
    requires Resolve(v, p).None?
    ensures Resolve(v, p + q).None?
  {
    ResolveAppend(v, p, q);
  }

  /** One step of an address into a value: a mapping key or an array index. */
  datatype Selector = Field(key: string) | Index(i: nat)

  /** The sub-value at an address that may also descend into arrays. */
  function At(v: Value, addr: seq<Selector>): Option<Value>
    decreases |addr|
  {
    if |addr| == 0 then Some(v)
    else match (v, addr[0])
      case (Obj(fields), Field(k)) =>
        if k in fields then At(fields[k], addr[1..]) else None
      case (Arr(items), Index(i)) =>
        if i < |items| then At(items[i], addr[1..]) else None
      case _ => None
  }

  /** The address that walks the segments of a dotted path as mapping keys. */
  function Fields(segs: seq<string>): (a: seq<Selector>)
    ensures |a| == |segs| && forall i :: 0 <= i < |segs| ==> a[i] == Field(segs[i])
  {
    seq(|segs|, i requires 0 <= i < |segs| => Field(segs[i]))
  }

  /** Resolving a dotted path is walking the address made of its segments
      as mapping keys: it never descends into an array. */
  lemma {:induction false} ResolveIsFieldWalk(v: Value, segs: seq<string>)
    ensures Resolve(v, segs) == At(v, Fields(segs))
    decreases |segs|
  {
    if |segs| > 0 {
      assert Fields(segs)[1..] == Fields(segs[1..]);
      match v
      case Obj(fields) =>
        if segs[0] in fields {
          ResolveIsFieldWalk(fields[segs[0]], segs[1..]);
        }
      case _ =>
    }
  }

  /** The recursive scan of index.ts:51-65: a function found at any depth of
      mappings and arrays. Dates and primitives hold nothing to scan. */
  predicate ContainsFunction(v: Value) {
    match v
    case Func(_) => true
    case Arr(items) => exists i :: 0 <= i < |items| && ContainsFunction(items[i])
    case Obj(fields) => exists k :: k in fields && ContainsFunction(fields[k])
    case _ => false
  }

  /** Reference definition of the scan: some address leads to a function. */
  ghost predicate FunctionSomewhere(v: Value) {
    exists addr :: At(v, addr).Some? && At(v, addr).value.Func?
  }

  /** The scan finds a function exactly when one sits at some address. */
  lemma {:induction false} ContainsFunctionIff(v: Value)
    ensures ContainsFunction(v) <==> FunctionSomewhere(v)
  {
    if ContainsFunction(v) {
      FoundFunctionHasAddress(v);
    }
    if FunctionSomewhere(v) {
      var addr :| At(v, addr).Some? && At(v, addr).value.Func?;
      AddressedFunctionIsFound(v, addr);
    }
  }

  lemma {:induction false} FoundFunctionHasAddress(v: Value)
    requires ContainsFunction(v)
    ensures FunctionSomewhere(v)
  {
    match v
    case Func(_) =>
      assert At(v, []) == Some(v);
    case Arr(items) =>
      var i :| 0 <= i < |items| && ContainsFunction(items[i]);
      FoundFunctionHasAddress(items[i]);
      var rest :| At(items[i], rest).Some? && At(items[i], rest).value.Func?;
      var addr := [Index(i)] + rest;
      assert addr[1..] == rest;
      assert At(v, addr) == At(items[i], rest);
    case Obj(fields) =>
      var k :| k in fields && ContainsFunction(fields[k]);
      FoundFunctionHasAddress(fields[k]);
      var rest :| At(fields[k], rest).Some? && At(fields[k], rest).value.Func?;
      var addr := [Field(k)] + rest;
      assert addr[1..] == rest;
      assert At(v, addr) == At(fields[k], rest);
  }

  lemma {:induction false} AddressedFunctionIsFound(v: Value, addr: seq<Selector>)
    requires At(v, addr).Some? && At(v, addr).value.Func?
    ensures ContainsFunction(v)
    decreases |addr|
  {
    if |addr| == 0 {
      assert v.Func?;
    } else {
      match (v, addr[0])
      case (Obj(fields), Field(k)) =>
        AddressedFunctionIsFound(fields[k], addr[1..]);
      case (Arr(items), Index(i)) =>
        AddressedFunctionIsFound(items[i], addr[1..]);
    }
  }

  /** Looking a key up in a mapping, absent when the key is missing. */
  function Lookup(m: State, k: string): (r: Option<Value>)
    ensures r.Some? <==> k in m
    ensures r.Some? ==> r.value == m[k]
  {
    if k in m then Some(m[k]) else None
  }

  /** lodash `assign({}, state, partial)`: a shallow merge in which each
      top-level key of `partial` replaces the state's value wholesale. */
  function Assign(state: State, partial: State): (r: State)
    ensures r.Keys == state.Keys + partial.Keys
    ensures forall k :: k in partial ==> r[k] == partial[k]
    ensures forall k :: k in state && k !in partial ==> r[k] == state[k]
  {
    state + partial
  }

  /** Resolving a path in a merged state looks in the partial when the path's
      first segment is one of its keys, and in the old state otherwise. */
  lemma ResolveAssign(state: State, partial: State, p: Path)
    ensures Resolve(Obj(Assign(state, partial)), p)
            == if p[0] in partial then Resolve(Obj(partial), p) else Resolve(Obj(state), p)
  {
  }

  /** Merging the same partial twice changes nothing the second time. */
  lemma AssignIdempotent(state: State, partial: State)
    ensures Assign(Assign(state, partial), partial) == Assign(state, partial)
  {
  }
}
