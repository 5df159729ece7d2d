/** The mission target: a ground position (m) and a positive radius (m). */
module TargetManager {
  import opened Builtins
  import opened Exceptions

  /** `Target(position, radius)` as values: the position setter runs first
      and the first setter to raise ends construction. */
  function Construct(position: Value, radius: Value): (r: Result<(seq<real>, real), Exception>)
    ensures r.Ok? <==> FloatsAt(position, 2).Ok? && PositiveFloat(radius).Ok?
    ensures r.Ok? ==> |r.value.0| == 2 && r.value.1 > 0.0
    ensures r.Ok? ==> r.value == (FloatsAt(position, 2).value, PositiveFloat(radius).value)
    ensures FloatsAt(position, 2).Err? ==> r == Err(FloatsAt(position, 2).error)
  {
    match FloatsAt(position, 2)
    case Err(e) => Err(e)
    case Ok(p) =>
      match PositiveFloat(radius)
      case Err(e) => Err(e)
      case Ok(rad) => Ok((p, rad))
  }

  class Target {
    var position: Option<seq<real>>
    var radius: Option<real>

    /** Both fields are set, the position has two components and the
        radius is positive. */
    predicate Valid()
      reads this
    {
      position.Some? && |position.value| == 2 && radius.Some? && radius.value > 0.0
    }

    /** The start of `__init__`: both fields are None. */
    constructor Empty()
      ensures position.None? && radius.None?
    {
      position, radius := None, None;
    }

    /** The `position` setter: the first two elements converted to floats;
        any further elements are ignored. */
    method SetPosition(value: Value) returns (raised: Option<Exception>)
      modifies this
      ensures raised.None? <==> FloatsAt(value, 2).Ok?
      ensures raised.None? ==> position == Some(FloatsAt(value, 2).value) && |position.value| == 2
      ensures raised.Some? ==> raised.value == FloatsAt(value, 2).error && position == old(position)
      ensures radius == old(radius)
      ensures old(Valid()) ==> Valid()
    {
      var v := FloatsAt(value, 2);
      if v.Err? {
        return Some(v.error);
      }
      position := Some(v.value);
      return None;
    }

    /** The `radius` setter: a radius that is not positive raises
        ValueError and the previous radius stays. */
    method SetRadius(value: Value) returns (raised: Option<Exception>)
      modifies this
      ensures raised.None? <==> PositiveFloat(value).Ok?
      ensures raised.None? ==> radius == Some(PositiveFloat(value).value) && radius.value > 0.0
      ensures raised.Some? ==> raised.value == PositiveFloat(value).error && radius == old(radius)
      ensures position == old(position)
      ensures old(Valid()) ==> Valid()
    {
      var v := PositiveFloat(value);
      if v.Err? {
        return Some(v.error);
      }
      radius := Some(v.value);
      return None;
    }
  }

  /** `Target(position, radius)`: a new valid target holding the converted
      values, or the exception of the first setter that rejects its value. */
  method NewTarget(position: Value, radius: Value) returns (r: Result<Target, Exception>)
    ensures r.Err? <==> Construct(position, radius).Err?
    ensures r.Err? ==> r.error == Construct(position, radius).error
    ensures r.Ok? ==> fresh(r.value) && r.value.Valid()
    ensures r.Ok? ==> (r.value.position == Some(Construct(position, radius).value.0) &&
      r.value.radius == Some(Construct(position, radius).value.1))
  {
    var t := new Target.Empty();
    var raised := t.SetPosition(position);
    if raised.Some? {
      return Err(raised.value);
    }
    raised := t.SetRadius(radius);
    if raised.Some? {
      return Err(raised.value);
    }
    return Ok(t);
  }

  /** A zero or negative radius is rejected whatever the position. */
  lemma NonPositiveRadiusRejected(position: Value, radius: real)
    requires radius <= 0.0
    ensures Construct(position, Num(radius)).Err?
    ensures FloatsAt(position, 2).Ok? ==> Construct(position, Num(radius)) == Err(ValueError)
  {
  }
}
