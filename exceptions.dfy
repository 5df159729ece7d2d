/** The Python exception classes the payload, mission and telemetry code
    raises, and the conversions that raise them. */
module Exceptions {
  import opened Builtins

  datatype Exception = ValueError | TypeError | KeyError | IndexError | AttributeError | FileNotFoundError

  /** `float(v)`: a string raises ValueError (strings are not parsed), None
      and containers raise TypeError. */
  function ToFloat(v: Value): (r: Result<real, Exception>)
    ensures Float(v).Some? ==> r == Ok(Float(v).value)
    ensures v.Num? ==> r == Ok(v.n)
    ensures Float(v).None? ==> r.Err? && (r.error == ValueError <==> v.Text?) && (r.error == TypeError <==> !v.Text?)
  {
    match Float(v)
    case Some(x) => Ok(x)
    case None => if v.Text? then Err(ValueError) else Err(TypeError)
  }

  /** `v = float(value); if v <= 0: raise ValueError(...)`: the check every
      positive-only field makes. */
  function PositiveFloat(v: Value): (r: Result<real, Exception>)
    ensures r.Ok? <==> ToFloat(v).Ok? && ToFloat(v).value > 0.0
    ensures r.Ok? ==> r.value == ToFloat(v).value && r.value > 0.0
    ensures ToFloat(v).Err? ==> r == ToFloat(v)
    ensures ToFloat(v).Ok? && r.Err? ==> r.error == ValueError
  {
    match ToFloat(v)
    case Err(e) => Err(e)
    case Ok(x) => if x <= 0.0 then Err(ValueError) else Ok(x)
  }

  /** `v = float(value); if v < 0: raise ValueError(...)`: the check of a
      field where zero is allowed. */
  function NonNegativeFloat(v: Value): (r: Result<real, Exception>)
    ensures r.Ok? <==> ToFloat(v).Ok? && ToFloat(v).value >= 0.0
    ensures r.Ok? ==> r.value == ToFloat(v).value
    ensures ToFloat(v).Err? ==> r == ToFloat(v)
    ensures ToFloat(v).Ok? && r.Err? ==> r.error == ValueError
  {
    match ToFloat(v)
    case Err(e) => Err(e)
    case Ok(x) => if x < 0.0 then Err(ValueError) else Ok(x)
  }

  /** `len(v)`: None for the values that have no length (TypeError). */
  function Len(v: Value): (r: Option<nat>)
    ensures r.Some? <==> v.List? || v.Text? || v.Dict?
    ensures v.List? ==> r == Some(|v.items|)
  {
    match v
    case List(xs) => Some(|xs|)
    case Text(s) => Some(|s|)
    case Dict(m) => Some(|m.Keys|)
    case _ => None
  }

  /** `v[i]` for a non-negative integer index: a list or string out of range
      raises IndexError, a dictionary (whose keys are strings) KeyError, and
      anything else TypeError. */
  function Item(v: Value, i: nat): (r: Result<Value, Exception>)
    ensures r.Ok? <==> (v.List? && i < |v.items|) || (v.Text? && i < |v.s|)
    ensures v.List? && i < |v.items| ==> r == Ok(v.items[i])
    ensures r.Err? && (v.List? || v.Text?) ==> r.error == IndexError
  {
    match v
    case List(xs) => if i < |xs| then Ok(xs[i]) else Err(IndexError)
    case Text(s) => if i < |s| then Ok(Text([s[i]])) else Err(IndexError)
    case Dict(_) => Err(KeyError)
    case _ => Err(TypeError)
  }

  /** `float(v[i])` */
  function FloatAt(v: Value, i: nat): (r: Result<real, Exception>)
    ensures Item(v, i).Err? ==> r == Err(Item(v, i).error)
    ensures Item(v, i).Ok? ==> r == ToFloat(Item(v, i).value)
  {
    match Item(v, i)
    case Err(e) => Err(e)
    case Ok(x) => ToFloat(x)
  }

  /** `(float(v[0]), ..., float(v[n-1]))`, evaluated left to right: the
      first element that fails decides the exception. */
  function FloatsAt(v: Value, n: nat): (r: Result<seq<real>, Exception>)
    ensures r.Ok? <==> forall i :: 0 <= i < n ==> FloatAt(v, i).Ok?
    ensures r.Ok? ==> |r.value| == n && forall i :: 0 <= i < n ==> r.value[i] == FloatAt(v, i).value
    ensures r.Err? ==> exists i :: 0 <= i < n && FloatAt(v, i) == Err(r.error) && forall j :: 0 <= j < i ==> FloatAt(v, j).Ok?
  {
    if n == 0 then Ok([])
    else
      match FloatsAt(v, n - 1)
      case Err(e) => Err(e)
      case Ok(xs) =>
        match FloatAt(v, n - 1)
        case Err(e) => Err(e)
        case Ok(x) => Ok(xs + [x])
  }

  /** A three-component vector setter: None raises ValueError, a value without
      a length TypeError, a length other than 3 ValueError, then the three
      elements are converted in order. */
  function Triple(v: Value): (r: Result<seq<real>, Exception>)
    ensures r.Ok? ==> |r.value| == 3 && v.List? && |v.items| == 3
    ensures r.Ok? ==> forall i :: 0 <= i < 3 ==> Float(v.items[i]) == Some(r.value[i])
    ensures v.Null? ==> r == Err(ValueError)
    ensures v.List? && |v.items| != 3 ==> r == Err(ValueError)
    ensures v.List? && |v.items| == 3 ==> r == FloatsAt(v, 3)
  {
    if v.Null? then Err(ValueError)
    else match Len(v)
      case None => Err(TypeError)
      case Some(len) => if len != 3 then Err(ValueError) else FloatsAt(v, 3)
  }
}
