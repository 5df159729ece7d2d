/** The parts of Python's runtime that the core relies on: dynamically typed
    values (the contents of config and snapshot dictionaries), truthiness,
    `dict.get`, `float()`, `int()`, `abs`, `max` and `min`, and dictionaries
    that are updated in place. */
module Builtins {

  datatype Option<T> = None | Some(value: T)

  datatype Result<T, E> = Ok(value: T) | Err(error: E)

  /** A JSON-like Python value, as found in config and snapshot dictionaries. */
  datatype Value =
    | Null
    | Bool(b: bool)
    | Num(n: real)
    | Text(s: string)
    | List(items: seq<Value>)
    | Dict(entries: map<string, Value>)

  /** A Python `dict[str, Any]` taken as a value. */
  type Obj = map<string, Value>

  /** A Python `dict` object that callers share and that is updated in place. */
  class DictObject {
    var entries: Obj

    constructor (m: Obj)
      ensures entries == m
    {
      entries := m;
    }
  }

  /** `math.pi` */
  const PI: real := 3.141592653589793

  /** Python truthiness: None, False, 0, "", [] and {} are false. */
  predicate Truthy(v: Value) {
    match v
    case Null => false
    case Bool(b) => b
    case Num(n) => n != 0.0
    case Text(s) => s != ""
    case List(xs) => xs != []
    case Dict(m) => m != map[]
  }

  /** `m.get(k, d)` */
  function Get(m: Obj, k: string, d: Value): (v: Value)
    ensures k in m ==> v == m[k]
    ensures k !in m ==> v == d
  {
    if k in m then m[k] else d
  }

  /** `v or d` */
  function Or(v: Value, d: Value): (r: Value)
    ensures Truthy(v) ==> r == v
    ensures !Truthy(v) ==> r == d
  {
    if Truthy(v) then v else d
  }

  /** Python `float(v)`: None when the conversion raises. Strings are not parsed. */
  function Float(v: Value): (r: Option<real>)
    ensures v.Num? ==> r == Some(v.n)
    ensures r.Some? ==> v.Num? || v.Bool?
  {
    match v
    case Num(n) => Some(n)
    case Bool(b) => Some(if b then 1.0 else 0.0)
    case _ => None
  }

  /** A float that may be None, as a Python value. */
  function OptNum(x: Option<real>): (v: Value)
    ensures x.Some? <==> v.Num?
    ensures x.Some? ==> v == Num(x.value)
    ensures x.None? ==> v == Null
  {
    if x.Some? then Num(x.value) else Null
  }

  /** Python `str(v)` for the values whose text is fixed: strings, None and
      booleans. None (the Option) for numbers and containers, whose text
      depends on Python's float formatting and is not modelled. */
  function Str(v: Value): (r: Option<string>)
    ensures v.Text? ==> r == Some(v.s)
    ensures v.Null? ==> r == Some("None")
    ensures r.None? <==> v.Num? || v.List? || v.Dict?
  {
    match v
    case Text(s) => Some(s)
    case Null => Some("None")
    case Bool(b) => Some(if b then "True" else "False")
    case _ => None
  }

  /** Python `int(x)` for a float: truncation toward zero. */
  function Trunc(x: real): (i: int)
    ensures x >= 0.0 ==> i as real <= x < i as real + 1.0
    ensures x < 0.0 ==> i as real - 1.0 < x <= i as real
  {
    if x >= 0.0 then x.Floor else -((-x).Floor)
  }

  /** Python `int(v)`: None when the conversion raises. */
  function Int(v: Value): (r: Option<int>)
    ensures v.Num? ==> r == Some(Trunc(v.n))
    ensures r.Some? ==> v.Num? || v.Bool?
  {
    match v
    case Num(n) => Some(Trunc(n))
    case Bool(b) => Some(if b then 1 else 0)
    case _ => None
  }

  function Abs(x: real): (r: real)
    ensures r >= 0.0 && (r == x || r == -x)
  {
    if x < 0.0 then -x else x
  }

  function Max(a: real, b: real): (r: real)
    ensures r >= a && r >= b && (r == a || r == b)
  {
    if a >= b then a else b
  }

  function Min(a: real, b: real): (r: real)
    ensures r <= a && r <= b && (r == a || r == b)
  {
    if a <= b then a else b
  }

  function MaxInt(a: int, b: int): (r: int)
    ensures r >= a && r >= b && (r == a || r == b)
  {
    if a >= b then a else b
  }

  /** A square-root function: what the model assumes of `math.sqrt`. */
  ghost predicate SqrtSpec(sqrt: real -> real) {
    forall x: real {:trigger sqrt(x)} :: 0.0 <= x ==> 0.0 <= sqrt(x) && sqrt(x) * sqrt(x) == x
  }

  /** A Monte Carlo evaluation: maps a config to the estimated hit probability
      that `run_simulation_snapshot` reports as P_hit. */
  ghost predicate EngineSpec(engine: Obj -> real) {
    forall c: Obj {:trigger engine(c)} :: 0.0 <= engine(c) <= 1.0
  }

  /** `float(m.get(key, d) or d)`: the common read of a numeric field. */
  function FloatOr(m: Obj, key: string, d: real): (r: Option<real>)
    ensures key !in m || !Truthy(m[key]) ==> r == Some(d)
    ensures key in m && m[key].Num? && m[key].n != 0.0 ==> r == Some(m[key].n)
  {
    Float(Or(Get(m, key, Num(d)), Num(d)))
  }

  /** Python `a == b`: numbers and booleans by value (True == 1), strings,
      lists and dicts by contents, None equal only to None. */
  predicate PyEq(a: Value, b: Value) {
    match a
    case Null => b.Null?
    case Bool(_) => Float(b).Some? && Float(a) == Float(b)
    case Num(_) => Float(b).Some? && Float(a) == Float(b)
    case Text(s) => b.Text? && b.s == s
    case List(xs) => b.List? && |xs| == |b.items| && forall i :: 0 <= i < |xs| ==> PyEq(xs[i], b.items[i])
    case Dict(m) => b.Dict? && m.Keys == b.entries.Keys && forall k :: k in m ==> PyEq(m[k], b.entries[k])
  }

  /** The first index from `from` at which two lists differ under `==`, or
      the length of the shorter list when they agree up to it. */
  function FirstDifference(xs: seq<Value>, ys: seq<Value>, from: nat): (i: nat)
    requires from <= |xs| && from <= |ys|
    ensures from <= i <= |xs| && i <= |ys|
    ensures forall j :: from <= j < i ==> PyEq(xs[j], ys[j])
    ensures i < |xs| && i < |ys| ==> !PyEq(xs[i], ys[i])
    decreases |xs| - from
  {
    if from == |xs| || from == |ys| then from
    else if !PyEq(xs[from], ys[from]) then from
    else FirstDifference(xs, ys, from + 1)
  }

  /** Python `s > t` on strings: code points compared lexicographically, a
      proper prefix being the smaller. */
  predicate TextGreater(s: string, t: string) {
    if s == [] then false
    else if t == [] then true
    else if s[0] != t[0] then s[0] > t[0]
    else TextGreater(s[1..], t[1..])
  }

  /** Python `a > b`; None where it raises TypeError. Numbers and booleans
      compare by value, strings by code points, lists lexicographically (the
      first pair that differs decides, else the longer list is greater); any
      other pair of types, and dicts or None on either side, raises. */
  function Greater(a: Value, b: Value): (r: Option<bool>)
    ensures Float(a).Some? && Float(b).Some? ==> r == Some(Float(a).value > Float(b).value)
    ensures a.Null? || b.Null? || a.Dict? || b.Dict? ==> r.None?
    ensures a.Text? && b.Text? ==> r == Some(TextGreater(a.s, b.s))
    ensures r.Some? ==> (Float(a).Some? && Float(b).Some?) || (a.Text? && b.Text?) || (a.List? && b.List?)
  {
    if Float(a).Some? && Float(b).Some? then Some(Float(a).value > Float(b).value)
    else if a.Text? && b.Text? then Some(TextGreater(a.s, b.s))
    else if a.List? && b.List? then
      var i := FirstDifference(a.items, b.items, 0);
      if i < |a.items| && i < |b.items| then Greater(a.items[i], b.items[i])
      else Some(|a.items| > |b.items|)
    else None
  }

  /** No string is greater than itself. */
  lemma {:induction false} TextGreaterIrreflexive(s: string)
    ensures !TextGreater(s, s)
  {
    if s != [] {
      TextGreaterIrreflexive(s[1..]);
    }
  }

  /** Of two different strings, exactly one is the greater. */
  lemma {:induction false} TextGreaterTotal(s: string, t: string)
    requires s != t
    ensures TextGreater(s, t) != TextGreater(t, s)
  {
    if s != [] && t != [] && s[0] == t[0] {
      assert s == [s[0]] + s[1..] && t == [t[0]] + t[1..];
      TextGreaterTotal(s[1..], t[1..]);
    }
  }

  /** The square root of a perfect square is its non-negative root. */
  lemma SqrtOfSquare(sqrt: real -> real, x: real, r: real)
    requires SqrtSpec(sqrt)
    requires 0.0 <= r && r * r == x
    ensures sqrt(x) == r
  {
    var s := sqrt(x);
    assert 0.0 <= s && s * s == x;
    if s < r {
      SquareStrictlyMonotone(s, r);
    } else if s > r {
      SquareStrictlyMonotone(r, s);
    }
  }

  /** A square root is at most `b` exactly when its radicand is at most b². */
  lemma SqrtAtMost(sqrt: real -> real, x: real, b: real)
    requires SqrtSpec(sqrt)
    requires 0.0 <= x && 0.0 <= b
    ensures sqrt(x) <= b <==> x <= b * b
  {
    var s := sqrt(x);
    assert 0.0 <= s && s * s == x;
    if s <= b {
      SquareMonotone(s, b);
    } else {
      SquareStrictlyMonotone(b, s);
    }
  }

  /** A square root is at least `b` when its radicand is at least b². */
  lemma SqrtAtLeast(sqrt: real -> real, x: real, b: real)
    requires SqrtSpec(sqrt)
    requires 0.0 <= b && b * b <= x
    ensures b <= sqrt(x)
  {
    var s := sqrt(x);
    assert 0.0 <= s && s * s == x;
    if s < b {
      SquareStrictlyMonotone(s, b);
    }
  }

  lemma ProductNonNegative(a: real, b: real)
    requires 0.0 <= a && 0.0 <= b
    ensures 0.0 <= a * b
  {
  }

  lemma SquareMonotone(a: real, b: real)
    requires 0.0 <= a <= b
    ensures a * a <= b * b
  {
    assert (b - a) * (b + a) >= 0.0;
  }

  lemma SquareStrictlyMonotone(a: real, b: real)
    requires 0.0 <= a < b
    ensures a * a < b * b
  {
    var aa, ab, bb := a * a, a * b, b * b;
    assert aa <= ab;
    assert ab < bb;
  }
}
