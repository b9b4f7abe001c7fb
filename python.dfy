/** The slice of Python's run-time semantics that the two vector-store
    adapters rely on: dynamically typed values, truthiness, `isinstance`
    tests, exceptions, `zip` and dictionary comprehensions. */
module Python {

  datatype Option<T> = None | Some(value: T)

  /** A Python value, as far as the adapters inspect it.
      Numbers (int or float) are kept as reals: nothing here computes with
      them, only whether one is zero matters.  A dict is the list of its
      (key, value) entries in insertion order.  `VObject` is any other
      object whose class defines neither `__bool__` nor `__len__`. */
  datatype Value =
    | VNone
    | VBool(b: bool)
    | VNum(x: real)
    | VStr(s: string)
    | VList(items: seq<Value>)
    | VTuple(elems: seq<Value>)
    | VDict(entries: seq<(Value, Value)>)
    | VObject(tag: nat)

  /** The exceptions an adapter call can end with.  `Other` is whatever a
      collaborator (the index, the collection, the model) raised; the
      adapters re-raise it unchanged. */
  datatype Exception =
    | ValueError(msg: string)
    | TypeError(msg: string)
    | Other(kind: string, msg: string)

  /** How a Python call ends: it returns a value or raises. */
  datatype Outcome<T> = Return(value: T) | Raise(exc: Exception)

  const EmptyDict: Value := VDict([])

  function Min(a: nat, b: nat): nat { if a <= b then a else b }

  /** `bool(v)`: None, False, zero and empty containers are falsy. */
  predicate Truthy(v: Value) {
    match v
    case VNone => false
    case VBool(b) => b
    case VNum(x) => x != 0.0
    case VStr(s) => |s| > 0
    case VList(xs) => |xs| > 0
    case VTuple(xs) => |xs| > 0
    case VDict(es) => |es| > 0
    case VObject(_) => true
  }

  /** `all(xs)` over a list. */
  predicate AllTruthy(xs: seq<Value>) {
    forall k :: 0 <= k < |xs| ==> Truthy(xs[k])
  }

  /** Lists and dicts are unhashable, and so is a tuple holding one. */
  predicate Hashable(v: Value) {
    match v
    case VList(_) => false
    case VDict(_) => false
    case VTuple(es) => forall k :: 0 <= k < |es| ==> Hashable(es[k])
    case _ => true
  }

  /** What hashing an unhashable key raises (the type name Python appends
      to the message is not kept). */
  const UnhashableError: Exception := TypeError("unhashable type")

  /** `zip(a, b)`: pairs up the two lists and stops at the shorter one. */
  function Zip<A, B>(a: seq<A>, b: seq<B>): (r: seq<(A, B)>)
    ensures |r| == Min(|a|, |b|)
    ensures forall k :: 0 <= k < |r| ==> r[k] == (a[k], b[k])
  {
    if a == [] || b == [] then [] else [(a[0], b[0])] + Zip(a[1..], b[1..])
  }

  /** `list(zip(a, b))` as Python builds it: a list of 2-tuples. */
  function ZipTuples(a: seq<Value>, b: seq<Value>): (r: seq<Value>)
    ensures |r| == Min(|a|, |b|)
    ensures forall k :: 0 <= k < |r| ==> r[k] == VTuple([a[k], b[k]])
  {
    var z := Zip(a, b);
    seq(|z|, k requires 0 <= k < |z| => VTuple([z[k].0, z[k].1]))
  }

  /** `key in d` */
  predicate HasKey(entries: seq<(Value, Value)>, key: Value) {
    exists k :: 0 <= k < |entries| && entries[k].0 == key
  }

  /** `d.get(key)`: the value stored under `key`, if any. */
  function Lookup(entries: seq<(Value, Value)>, key: Value): (r: Option<Value>)
    ensures r.Some? <==> HasKey(entries, key)
    ensures r.Some? ==> exists k :: 0 <= k < |entries| && entries[k] == (key, r.value)
  {
    if entries == [] then None
    else if entries[0].0 == key then Some(entries[0].1)
    else Lookup(entries[1..], key)
  }

  /** `d[key] = val`: an existing entry keeps its place and takes the new
      value, a new key is appended. */
  function Store(entries: seq<(Value, Value)>, key: Value, val: Value): (r: seq<(Value, Value)>)
    ensures Lookup(r, key) == Some(val)
    ensures forall other :: other != key ==> Lookup(r, other) == Lookup(entries, other)
    ensures |r| > 0
  {
    if entries == [] then [(key, val)]
    else if entries[0].0 == key then [(key, val)] + entries[1..]
    else [entries[0]] + Store(entries[1..], key, val)
  }

  /** `{k: v for k, v in pairs}`: entries are stored left to right, so a
      later pair overwrites an earlier one with the same key; the first
      unhashable key raises. */
  function BuildDict(pairs: seq<(Value, Value)>): (r: Outcome<seq<(Value, Value)>>)
    ensures r.Return? <==> forall k :: 0 <= k < |pairs| ==> Hashable(pairs[k].0)
    ensures r.Raise? ==> r.exc == UnhashableError
    ensures r.Return? ==> (|r.value| == 0 <==> |pairs| == 0)
    decreases |pairs|
  {
    if pairs == [] then Return([])
    else
      var init, last := pairs[..|pairs| - 1], pairs[|pairs| - 1];
      match BuildDict(init)
      case Raise(e) => Raise(e)
      case Return(d) =>
        if Hashable(last.0) then Return(Store(d, last.0, last.1)) else Raise(UnhashableError)
  }

  /** In a dict built by a comprehension, a key maps to the value of the
      last pair that carries it. */
  lemma {:induction false} BuildDictLookup(pairs: seq<(Value, Value)>, i: nat)
    requires BuildDict(pairs).Return?
    requires i < |pairs|
    requires forall j :: i < j < |pairs| ==> pairs[j].0 != pairs[i].0
    ensures Lookup(BuildDict(pairs).value, pairs[i].0) == Some(pairs[i].1)
  {
    var init := pairs[..|pairs| - 1];
    if i < |pairs| - 1 {
      assert init[i] == pairs[i];
      BuildDictLookup(init, i);
    }
  }

  /** A key is carried by some pair exactly when it is carried by one of
      all but the last pair, or by the last. */
  lemma HasKeySplit(pairs: seq<(Value, Value)>, key: Value)
    requires pairs != []
    ensures HasKey(pairs, key) <==> HasKey(pairs[..|pairs| - 1], key) || pairs[|pairs| - 1].0 == key
  {
    var init := pairs[..|pairs| - 1];
    if HasKey(pairs, key) && pairs[|pairs| - 1].0 != key {
      var k :| 0 <= k < |pairs| && pairs[k].0 == key;
      assert init[k] == pairs[k];
    }
    if HasKey(init, key) {
      var k :| 0 <= k < |init| && init[k].0 == key;
      assert pairs[k] == init[k];
    }
  }

  /** A dict built by a comprehension holds exactly the keys of its pairs. */
  lemma {:induction false} BuildDictKeys(pairs: seq<(Value, Value)>, key: Value)
    requires BuildDict(pairs).Return?
    ensures HasKey(BuildDict(pairs).value, key) <==> HasKey(pairs, key)
  {
    if pairs != [] {
      var init, last := pairs[..|pairs| - 1], pairs[|pairs| - 1];
      var d := BuildDict(init).value;
      assert BuildDict(pairs).value == Store(d, last.0, last.1);
      BuildDictKeys(init, key);
      HasKeySplit(pairs, key);
      if last.0 != key {
        assert Lookup(Store(d, last.0, last.1), key) == Lookup(d, key);
      }
    }
  }
}
