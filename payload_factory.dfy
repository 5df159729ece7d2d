/** Building a payload from a shape name, a mass and the shape's dimensions. */
module PayloadFactory {
  import opened Builtins
  import opened Strings
  import opened Exceptions
  import opened SimpleShapes
  import opened PayloadBase

  /** `str(shape).strip().lower()`; None where `str()` of a number or a
      container is asked for, whose text can name no shape. */
  function ShapeName(shape: Value): (r: Option<string>)
    ensures shape.Text? ==> r == Some(NormLower(shape.s))
  {
    match Str(shape)
    case None => None
    case Some(s) => Some(NormLower(s))
  }

  /** The shape's (reference area, drag coefficient), or the ValueError of a
      missing dimension or an unknown shape. */
  function ShapeParams(name: Option<string>, kwargs: Obj): (r: Result<(real, real), Exception>)
    ensures name == Some("box") ==>
      (if Get(kwargs, "length", Null).Null? || Get(kwargs, "width", Null).Null? || Get(kwargs, "height", Null).Null?
       then r == Err(ValueError) else r == BoxParams(kwargs["length"], kwargs["width"], kwargs["height"]))
    ensures name == Some("cylinder") ==>
      (if Get(kwargs, "radius", Null).Null? || Get(kwargs, "height", Null).Null?
       then r == Err(ValueError) else r == CylinderParams(kwargs["radius"], kwargs["height"]))
    ensures name == Some("sphere") ==>
      (if Get(kwargs, "radius", Null).Null? then r == Err(ValueError) else r == SphereParams(kwargs["radius"]))
    ensures name !in {Some("box"), Some("cylinder"), Some("sphere")} ==> r == Err(ValueError)
  {
    if name == Some("box") then
      var length, width, height := Get(kwargs, "length", Null), Get(kwargs, "width", Null), Get(kwargs, "height", Null);
      if length.Null? || width.Null? || height.Null? then Err(ValueError) else BoxParams(length, width, height)
    else if name == Some("cylinder") then
      var radius, height := Get(kwargs, "radius", Null), Get(kwargs, "height", Null);
      if radius.Null? || height.Null? then Err(ValueError) else CylinderParams(radius, height)
    else if name == Some("sphere") then
      var radius := Get(kwargs, "radius", Null);
      if radius.Null? then Err(ValueError) else SphereParams(radius)
    else Err(ValueError)
  }

  /** `create_payload` as values: (mass, drag coefficient, reference area)
      for the new Payload. The mass is converted and checked before the
      shape is looked at. */
  function CreatePayload(shape: Value, mass: Value, kwargs: Obj): (r: Result<(real, real, real), Exception>)
    ensures ToFloat(mass).Err? ==> r == Err(ToFloat(mass).error)
    ensures ToFloat(mass).Ok? && ToFloat(mass).value <= 0.0 ==> r == Err(ValueError)
    ensures r.Ok? <==> PositiveFloat(mass).Ok? && ShapeParams(ShapeName(shape), kwargs).Ok?
    ensures r.Ok? ==> r.value == (ToFloat(mass).value, ShapeParams(ShapeName(shape), kwargs).value.1,
                                  ShapeParams(ShapeName(shape), kwargs).value.0)
  {
    match ToFloat(mass)
    case Err(e) => Err(e)
    case Ok(m) =>
      if m <= 0.0 then Err(ValueError)
      else
        match ShapeParams(ShapeName(shape), kwargs)
        case Err(e) => Err(e)
        case Ok((area, cd)) => Ok((m, cd, area))
  }

  /** Whatever the factory returns, the Payload constructor accepts: all three values are positive. */
  lemma CreatedPayloadIsValid(shape: Value, mass: Value, kwargs: Obj)
    requires CreatePayload(shape, mass, kwargs).Ok?
    ensures var (m, cd, a) := CreatePayload(shape, mass, kwargs).value;
      m > 0.0 && cd > 0.0 && a > 0.0 && Construct(Num(m), Num(cd), Num(a)) == Ok((m, cd, a))
  {
    var length, width, height, radius := Get(kwargs, "length", Null), Get(kwargs, "width", Null),
      Get(kwargs, "height", Null), Get(kwargs, "radius", Null);
    ParamsPositive(length, width, height, radius);
  }

  /** `create_payload`: a new Payload with the factory's values. */
  method CreatePayloadObject(shape: Value, mass: Value, kwargs: Obj) returns (r: Result<Payload, Exception>)
    ensures r.Err? <==> CreatePayload(shape, mass, kwargs).Err?
    ensures r.Err? ==> r.error == CreatePayload(shape, mass, kwargs).error
    ensures r.Ok? ==> fresh(r.value) && r.value.Valid()
    ensures r.Ok? ==> var (m, cd, a) := CreatePayload(shape, mass, kwargs).value;
      r.value.mass == Some(m) && r.value.dragCoefficient == Some(cd) && r.value.referenceArea == Some(a)
  {
    var values := CreatePayload(shape, mass, kwargs);
    if values.Err? {
      return Err(values.error);
    }
    var (m, cd, a) := values.value;
    CreatedPayloadIsValid(shape, mass, kwargs);
    r := NewPayload(Num(m), Num(cd), Num(a));
  }
}
