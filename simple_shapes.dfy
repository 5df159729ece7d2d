/** Reference areas and constant drag coefficients for the three simple
    payload shapes (SI units). */
module SimpleShapes {
  import opened Builtins
  import opened Exceptions

  const BOX_DRAG_COEFFICIENT := 1.2
  const CYLINDER_DRAG_COEFFICIENT := 1.0
  const SPHERE_DRAG_COEFFICIENT := 0.47

  /** The first conversion that raises, or the three values. */
  function Floats3(a: Value, b: Value, c: Value): (r: Result<(real, real, real), Exception>)
    ensures r.Ok? <==> ToFloat(a).Ok? && ToFloat(b).Ok? && ToFloat(c).Ok?
    ensures r.Ok? ==> r.value == (ToFloat(a).value, ToFloat(b).value, ToFloat(c).value)
    ensures ToFloat(a).Err? ==> r == Err(ToFloat(a).error)
  {
    match ToFloat(a)
    case Err(e) => Err(e)
    case Ok(x) =>
      match ToFloat(b)
      case Err(e) => Err(e)
      case Ok(y) =>
        match ToFloat(c)
        case Err(e) => Err(e)
        case Ok(z) => Ok((x, y, z))
  }

  /** `box_reference_area`: the horizontal face length x width; the height
      is only checked to be positive. */
  function BoxReferenceArea(length: Value, width: Value, height: Value): (r: Result<real, Exception>)
    ensures r.Ok? <==> (Floats3(length, width, height).Ok? && Floats3(length, width, height).value.0 > 0.0 &&
      Floats3(length, width, height).value.1 > 0.0 && Floats3(length, width, height).value.2 > 0.0)
    ensures r.Ok? ==> r.value > 0.0 && r.value == Floats3(length, width, height).value.0 * Floats3(length, width, height).value.1
    ensures Floats3(length, width, height).Ok? && r.Err? ==> r.error == ValueError
  {
    match Floats3(length, width, height)
    case Err(e) => Err(e)
    case Ok((l, w, h)) =>
      if l <= 0.0 || w <= 0.0 || h <= 0.0 then Err(ValueError)
      else ProductPositive(l, w); Ok(l * w)
  }

  lemma ProductPositive(a: real, b: real)
    requires a > 0.0 && b > 0.0
    ensures a * b > 0.0
  {
  }

  /** c r^2 */
  function ScaledSquare(c: real, r: real): real {
    c * r * r
  }

  lemma ScaledSquarePositive(c: real, r: real)
    requires c > 0.0 && r > 0.0
    ensures ScaledSquare(c, r) > 0.0
  {
    ProductPositive(c, r);
    ProductPositive(c * r, r);
  }

  /** The area of a circle of radius r: `math.pi * radius * radius`. */
  function Disc(r: real): real {
    ScaledSquare(PI, r)
  }

  lemma DiscPositive(r: real)
    requires r > 0.0
    ensures Disc(r) > 0.0
  {
    assert Disc(r) == ScaledSquare(PI, r);
    ScaledSquarePositive(PI, r);
  }

  /** `cylinder_reference_area`: the circular cross-section; the height is
      only checked to be positive. */
  function CylinderReferenceArea(radius: Value, height: Value): (r: Result<real, Exception>)
    ensures r.Ok? <==> ToFloat(radius).Ok? && ToFloat(height).Ok? && ToFloat(radius).value > 0.0 && ToFloat(height).value > 0.0
    ensures r.Ok? ==> r.value == Disc(ToFloat(radius).value)
    ensures ToFloat(radius).Err? ==> r == Err(ToFloat(radius).error)
    ensures ToFloat(radius).Ok? && ToFloat(height).Ok? && r.Err? ==> r.error == ValueError
  {
    match ToFloat(radius)
    case Err(e) => Err(e)
    case Ok(rad) =>
      match ToFloat(height)
      case Err(e) => Err(e)
      case Ok(h) => if rad <= 0.0 || h <= 0.0 then Err(ValueError) else Ok(Disc(rad))
  }

  /** `sphere_reference_area`: the cross-section of a sphere of that radius. */
  function SphereReferenceArea(radius: Value): (r: Result<real, Exception>)
    ensures r.Ok? <==> ToFloat(radius).Ok? && ToFloat(radius).value > 0.0
    ensures r.Ok? ==> r.value == Disc(ToFloat(radius).value)
    ensures ToFloat(radius).Ok? && r.Err? ==> r.error == ValueError
  {
    match ToFloat(radius)
    case Err(e) => Err(e)
    case Ok(rad) => if rad <= 0.0 then Err(ValueError) else Ok(Disc(rad))
  }

  /** `box_params`: (reference area, drag coefficient). */
  function BoxParams(length: Value, width: Value, height: Value): (r: Result<(real, real), Exception>)
    ensures r.Ok? <==> BoxReferenceArea(length, width, height).Ok?
    ensures r.Ok? ==> r.value == (BoxReferenceArea(length, width, height).value, BOX_DRAG_COEFFICIENT)
  {
    match BoxReferenceArea(length, width, height)
    case Err(e) => Err(e)
    case Ok(a) => Ok((a, BOX_DRAG_COEFFICIENT))
  }

  /** `cylinder_params` */
  function CylinderParams(radius: Value, height: Value): (r: Result<(real, real), Exception>)
    ensures r.Ok? <==> CylinderReferenceArea(radius, height).Ok?
    ensures r.Ok? ==> r.value == (CylinderReferenceArea(radius, height).value, CYLINDER_DRAG_COEFFICIENT)
  {
    match CylinderReferenceArea(radius, height)
    case Err(e) => Err(e)
    case Ok(a) => Ok((a, CYLINDER_DRAG_COEFFICIENT))
  }

  /** `sphere_params` */
  function SphereParams(radius: Value): (r: Result<(real, real), Exception>)
    ensures r.Ok? <==> SphereReferenceArea(radius).Ok?
    ensures r.Ok? ==> r.value == (SphereReferenceArea(radius).value, SPHERE_DRAG_COEFFICIENT)
  {
    match SphereReferenceArea(radius)
    case Err(e) => Err(e)
    case Ok(a) => Ok((a, SPHERE_DRAG_COEFFICIENT))
  }

  /** A cylinder and a sphere of the same radius present the same area,
      whatever the cylinder's height. */
  lemma CylinderAreaIsSphereArea(radius: Value, height: Value)
    requires CylinderReferenceArea(radius, height).Ok?
    ensures SphereReferenceArea(radius) == CylinderReferenceArea(radius, height)
  {
  }

  /** The box area does not depend on the height. */
  lemma BoxAreaIgnoresHeight(length: Value, width: Value, h1: Value, h2: Value)
    requires BoxReferenceArea(length, width, h1).Ok? && BoxReferenceArea(length, width, h2).Ok?
    ensures BoxReferenceArea(length, width, h1) == BoxReferenceArea(length, width, h2)
  {
    var a, b := Floats3(length, width, h1).value, Floats3(length, width, h2).value;
    assert a.0 == b.0 == ToFloat(length).value && a.1 == b.1 == ToFloat(width).value;
    assert BoxReferenceArea(length, width, h1).value == a.0 * a.1 == b.0 * b.1 == BoxReferenceArea(length, width, h2).value;
  }

  /** Every shape's reference area and drag coefficient are positive. */
  lemma ParamsPositive(length: Value, width: Value, height: Value, radius: Value)
    ensures BoxParams(length, width, height).Ok? ==>
      BoxParams(length, width, height).value.0 > 0.0 && BoxParams(length, width, height).value.1 > 0.0
    ensures CylinderParams(radius, height).Ok? ==>
      CylinderParams(radius, height).value.0 > 0.0 && CylinderParams(radius, height).value.1 > 0.0
    ensures SphereParams(radius).Ok? ==> SphereParams(radius).value.0 > 0.0 && SphereParams(radius).value.1 > 0.0
  {
    if SphereParams(radius).Ok? {
      DiscPositive(ToFloat(radius).value);
    }
  }
}
