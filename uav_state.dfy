/** The internal UAV state record shared by log replay, telemetry ingest and
    the MAVLink adapter: a time (s), a position (m) and a velocity (m/s). */
module UavState {
  import opened Builtins
  import opened Exceptions

  /** A three-component vector; the type itself keeps it at three. */
  datatype Vec3 = Vec3(x: real, y: real, z: real)

  /** `UAVStateSnapshot`: immutable once built (the record has no setters). */
  datatype UAVStateSnapshot = UAVStateSnapshot(timeS: real, position: Vec3, velocity: Vec3)
  {
    /** `altitude`: the third position component. */
    function Altitude(): real {
      position.z
    }
  }

  /** Three conversions evaluated left to right: the first error, or the vector. */
  function Vec3Of(x: Result<real, Exception>, y: Result<real, Exception>, z: Result<real, Exception>): (r: Result<Vec3, Exception>)
    ensures r.Ok? <==> x.Ok? && y.Ok? && z.Ok?
    ensures r.Ok? ==> r.value == Vec3(x.value, y.value, z.value)
    ensures x.Err? ==> r == Err(x.error)
    ensures x.Ok? && y.Err? ==> r == Err(y.error)
  {
    match x
    case Err(e) => Err(e)
    case Ok(a) =>
      match y
      case Err(e) => Err(e)
      case Ok(b) =>
        match z
        case Err(e) => Err(e)
        case Ok(c) => Ok(Vec3(a, b, c))
  }

  /** `(float(v[0]), float(v[1]), float(v[2]))` */
  function ElementsOf(v: Value): (r: Result<Vec3, Exception>)
    ensures r.Ok? <==> FloatsAt(v, 3).Ok?
    ensures r.Ok? ==> r.value == Vec3(FloatAt(v, 0).value, FloatAt(v, 1).value, FloatAt(v, 2).value)
  {
    Vec3Of(FloatAt(v, 0), FloatAt(v, 1), FloatAt(v, 2))
  }

  /** `UAVStateSnapshot(time_s, position, velocity)` on Python values: the
      time and the first three elements of each vector, converted to floats
      in that order. */
  function MakeSnapshot(timeS: Value, position: Value, velocity: Value): (r: Result<UAVStateSnapshot, Exception>)
    ensures r.Ok? <==> ToFloat(timeS).Ok? && FloatsAt(position, 3).Ok? && FloatsAt(velocity, 3).Ok?
    ensures r.Ok? ==> r.value.timeS == ToFloat(timeS).value
    ensures ToFloat(timeS).Err? ==> r == Err(ToFloat(timeS).error)
  {
    match ToFloat(timeS)
    case Err(e) => Err(e)
    case Ok(t) =>
      match ElementsOf(position)
      case Err(e) => Err(e)
      case Ok(p) =>
        match ElementsOf(velocity)
        case Err(e) => Err(e)
        case Ok(v) => Ok(UAVStateSnapshot(t, p, v))
  }

  /** The altitude of a snapshot is the third element it was given as its
      position, and a longer position keeps only its first three. */
  lemma AltitudeIsThirdPositionElement(timeS: Value, position: Value, velocity: Value)
    requires MakeSnapshot(timeS, position, velocity).Ok?
    ensures MakeSnapshot(timeS, position, velocity).value.Altitude() == FloatAt(position, 2).value
    ensures position.List? && |position.items| >= 3
    ensures MakeSnapshot(timeS, position, velocity).value.position ==
      MakeSnapshot(timeS, List(position.items[..3]), velocity).value.position
  {
    assert FloatAt(position, 0).Ok?;
    assert FloatAt(position, 2).Ok?;
    var short := List(position.items[..3]);
    assert forall i :: 0 <= i < 3 ==> FloatAt(short, i) == FloatAt(position, i);
  }

  /** A snapshot built from floats holds exactly those floats. */
  lemma FloatsStoredAsGiven(t: real, p: Vec3, v: Vec3)
    ensures MakeSnapshot(Num(t), List([Num(p.x), Num(p.y), Num(p.z)]), List([Num(v.x), Num(v.y), Num(v.z)])) ==
      Ok(UAVStateSnapshot(t, p, v))
  {
    var pos := List([Num(p.x), Num(p.y), Num(p.z)]);
    var vel := List([Num(v.x), Num(v.y), Num(v.z)]);
    assert ElementsOf(pos) == Ok(p);
    assert ElementsOf(vel) == Ok(v);
  }
}
