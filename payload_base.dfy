/** The payload record the engine is parameterised with: mass (kg), drag
    coefficient and reference area (m^2), each kept positive by its setter. */
module PayloadBase {
  import opened Builtins
  import opened Exceptions

  /** `Payload(mass, drag_coefficient, reference_area)` as values: the three
      setters run in that order and the first to raise ends construction. */
  function Construct(mass: Value, dragCoefficient: Value, referenceArea: Value): (r: Result<(real, real, real), Exception>)
    ensures r.Ok? <==> PositiveFloat(mass).Ok? && PositiveFloat(dragCoefficient).Ok? && PositiveFloat(referenceArea).Ok?
    ensures r.Ok? ==> r.value == (PositiveFloat(mass).value, PositiveFloat(dragCoefficient).value, PositiveFloat(referenceArea).value)
    ensures PositiveFloat(mass).Err? ==> r == Err(PositiveFloat(mass).error)
    ensures PositiveFloat(mass).Ok? && PositiveFloat(dragCoefficient).Err? ==> r == Err(PositiveFloat(dragCoefficient).error)
  {
    match PositiveFloat(mass)
    case Err(e) => Err(e)
    case Ok(m) =>
      match PositiveFloat(dragCoefficient)
      case Err(e) => Err(e)
      case Ok(cd) =>
        match PositiveFloat(referenceArea)
        case Err(e) => Err(e)
        case Ok(a) => Ok((m, cd, a))
  }

  class Payload {
    var mass: Option<real>
    var dragCoefficient: Option<real>
    var referenceArea: Option<real>

    /** All three fields are set and positive. */
    predicate Valid()
      reads this
    {
      mass.Some? && mass.value > 0.0 && dragCoefficient.Some? && dragCoefficient.value > 0.0 &&
      referenceArea.Some? && referenceArea.value > 0.0
    }

    /** The start of `__init__`: the three fields are None. */
    constructor Empty()
      ensures mass.None? && dragCoefficient.None? && referenceArea.None?
    {
      mass, dragCoefficient, referenceArea := None, None, None;
    }

    /** The `mass` setter: the check precedes the store, so a rejected value
        leaves the field as it was. */
    method SetMass(value: Value) returns (raised: Option<Exception>)
      modifies this
      ensures raised.None? <==> PositiveFloat(value).Ok?
      ensures raised.None? ==> mass == Some(PositiveFloat(value).value)
      ensures raised.Some? ==> raised.value == PositiveFloat(value).error && mass == old(mass)
      ensures dragCoefficient == old(dragCoefficient) && referenceArea == old(referenceArea)
      ensures old(Valid()) ==> Valid()
    {
      var v := PositiveFloat(value);
      if v.Err? {
        return Some(v.error);
      }
      mass := Some(v.value);
      return None;
    }

    /** The `drag_coefficient` setter. */
    method SetDragCoefficient(value: Value) returns (raised: Option<Exception>)
      modifies this
      ensures raised.None? <==> PositiveFloat(value).Ok?
      ensures raised.None? ==> dragCoefficient == Some(PositiveFloat(value).value)
      ensures raised.Some? ==> raised.value == PositiveFloat(value).error && dragCoefficient == old(dragCoefficient)
      ensures mass == old(mass) && referenceArea == old(referenceArea)
      ensures old(Valid()) ==> Valid()
    {
      var v := PositiveFloat(value);
      if v.Err? {
        return Some(v.error);
      }
      dragCoefficient := Some(v.value);
      return None;
    }

    /** The `reference_area` setter. */
    method SetReferenceArea(value: Value) returns (raised: Option<Exception>)
      modifies this
      ensures raised.None? <==> PositiveFloat(value).Ok?
      ensures raised.None? ==> referenceArea == Some(PositiveFloat(value).value)
      ensures raised.Some? ==> raised.value == PositiveFloat(value).error && referenceArea == old(referenceArea)
      ensures mass == old(mass) && dragCoefficient == old(dragCoefficient)
      ensures old(Valid()) ==> Valid()
    {
      var v := PositiveFloat(value);
      if v.Err? {
        return Some(v.error);
      }
      referenceArea := Some(v.value);
      return None;
    }
  }

  /** `Payload(...)`: a new payload whose fields hold the converted values,
      or the exception of the first setter that rejects its value. */
  method NewPayload(mass: Value, dragCoefficient: Value, referenceArea: Value) returns (r: Result<Payload, Exception>)
    ensures Construct(mass, dragCoefficient, referenceArea).Err? <==> r.Err?
    ensures r.Err? ==> r.error == Construct(mass, dragCoefficient, referenceArea).error
    ensures r.Ok? ==> fresh(r.value) && r.value.Valid()
    ensures r.Ok? ==> var (m, cd, a) := Construct(mass, dragCoefficient, referenceArea).value;
      r.value.mass == Some(m) && r.value.dragCoefficient == Some(cd) && r.value.referenceArea == Some(a)
  {
    var p := new Payload.Empty();
    var raised := p.SetMass(mass);
    if raised.Some? {
      return Err(raised.value);
    }
    raised := p.SetDragCoefficient(dragCoefficient);
    if raised.Some? {
      return Err(raised.value);
    }
    raised := p.SetReferenceArea(referenceArea);
    if raised.Some? {
      return Err(raised.value);
    }
    return Ok(p);
  }
}
