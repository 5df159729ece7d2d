/** MAVLink-style messages (as dictionaries) translated to UAV state
    snapshots: LOCAL_POSITION_NED in SI units, and GLOBAL_POSITION_INT with
    its integer units converted and positions projected onto a local plane. */
module MavlinkAdapter {
  import opened Builtins
  import opened Exceptions
  import opened UavState

  const LOCAL_POSITION_NED_MSG: string := "LOCAL_POSITION_NED"
  const GLOBAL_POSITION_INT_MSG: string := "GLOBAL_POSITION_INT"

  /** Metres per degree of latitude in the flat-earth projection. */
  const METRES_PER_DEGREE: real := 111320.0

  /** `float(msg.get(k, 0))` */
  function Field(msg: Obj, k: string): (r: Result<real, Exception>)
    ensures k !in msg ==> r == Ok(0.0)
    ensures k in msg ==> r == ToFloat(msg[k])
  {
    ToFloat(Get(msg, k, Num(0.0)))
  }

  /** `x / d` applied to a successful conversion. */
  function Scaled(x: Result<real, Exception>, d: real): (r: Result<real, Exception>)
    requires d != 0.0
    ensures r.Ok? <==> x.Ok?
    ensures r.Ok? ==> r.value * d == x.value
    ensures x.Err? ==> r == x
  {
    match x
    case Err(e) => Err(e)
    case Ok(v) => Ok(v / d)
  }

  /** `from_local_position_ned`: time from milliseconds to seconds, the
      other six fields copied, every missing field 0. */
  function FromLocalPositionNed(msg: Obj): (r: Result<UAVStateSnapshot, Exception>)
    ensures r.Ok? <==> (Field(msg, "time_boot_ms").Ok? &&
      Vec3Of(Field(msg, "x"), Field(msg, "y"), Field(msg, "z")).Ok? &&
      Vec3Of(Field(msg, "vx"), Field(msg, "vy"), Field(msg, "vz")).Ok?)
    ensures r.Ok? ==> Field(msg, "time_boot_ms") == Ok(r.value.timeS * 1000.0)
    ensures r.Ok? ==> Vec3Of(Field(msg, "x"), Field(msg, "y"), Field(msg, "z")) == Ok(r.value.position)
    ensures r.Ok? ==> Vec3Of(Field(msg, "vx"), Field(msg, "vy"), Field(msg, "vz")) == Ok(r.value.velocity)
  {
    match Scaled(Field(msg, "time_boot_ms"), 1000.0)
    case Err(e) => Err(e)
    case Ok(t) =>
      match Vec3Of(Field(msg, "x"), Field(msg, "y"), Field(msg, "z"))
      case Err(e) => Err(e)
      case Ok(p) =>
        match Vec3Of(Field(msg, "vx"), Field(msg, "vy"), Field(msg, "vz"))
        case Err(e) => Err(e)
        case Ok(v) => Ok(UAVStateSnapshot(t, p, v))
  }

  /** A number argument of `math.radians` or of a subtraction from a float:
      a number or a bool; anything else raises TypeError. */
  function Number(v: Value): (r: Result<real, Exception>)
    ensures r.Ok? <==> Float(v).Some?
    ensures r.Ok? ==> r.value == Float(v).value
    ensures r.Err? ==> r.error == TypeError
  {
    match Float(v)
    case Some(x) => Ok(x)
    case None => Err(TypeError)
  }

  /** The local-plane position of a fix at (lat, lon) degrees and altitude
      `alt` (m) relative to a reference point: north offset as y, east
      offset (shrunk by the cosine of the reference latitude) as x. */
  function Project(lat: real, lon: real, alt: real, refLat: real, refLon: real, cos: real -> real): (p: Vec3)
    ensures p.y == (lat - refLat) * METRES_PER_DEGREE
    ensures p.x == (lon - refLon) * (METRES_PER_DEGREE * cos(refLat * (PI / 180.0)))
    ensures p.z == alt
  {
    Vec3((lon - refLon) * (METRES_PER_DEGREE * cos(refLat * (PI / 180.0))), (lat - refLat) * METRES_PER_DEGREE, alt)
  }

  /** The readings of a GLOBAL_POSITION_INT fix in SI units, in the order
      the source converts them: time (s), lat and lon (degrees), altitude
      (m, from `alt`, else `relative_alt`) and velocity (m/s). */
  datatype GlobalFix = GlobalFix(timeS: real, lat: real, lon: real, alt: real, velocity: Vec3)

  /** The unit conversions of `from_global_position_int`: 1e7 degrees to
      degrees, mm to m and cm/s to m/s; the first conversion that raises
      ends it. */
  function GlobalReadings(msg: Obj): (r: Result<GlobalFix, Exception>)
    ensures r.Ok? ==> Field(msg, "time_boot_ms") == Ok(r.value.timeS * 1000.0)
    ensures r.Ok? ==> Field(msg, "lat") == Ok(r.value.lat * 10000000.0) && Field(msg, "lon") == Ok(r.value.lon * 10000000.0)
    ensures r.Ok? ==> ToFloat(Get(msg, "alt", Get(msg, "relative_alt", Num(0.0)))) == Ok(r.value.alt * 1000.0)
    ensures r.Ok? ==> (Field(msg, "vx") == Ok(r.value.velocity.x * 100.0) &&
      Field(msg, "vy") == Ok(r.value.velocity.y * 100.0) && Field(msg, "vz") == Ok(r.value.velocity.z * 100.0))
  {
    match Scaled(Field(msg, "time_boot_ms"), 1000.0)
    case Err(e) => Err(e)
    case Ok(t) =>
      match Scaled(Field(msg, "lat"), 10000000.0)
      case Err(e) => Err(e)
      case Ok(lat) =>
        match Scaled(Field(msg, "lon"), 10000000.0)
        case Err(e) => Err(e)
        case Ok(lon) =>
          match Scaled(ToFloat(Get(msg, "alt", Get(msg, "relative_alt", Num(0.0)))), 1000.0)
          case Err(e) => Err(e)
          case Ok(alt) =>
            match Vec3Of(Scaled(Field(msg, "vx"), 100.0), Scaled(Field(msg, "vy"), 100.0), Scaled(Field(msg, "vz"), 100.0))
            case Err(e) => Err(e)
            case Ok(v) => Ok(GlobalFix(t, lat, lon, alt, v))
  }

  /** `from_global_position_int`: the converted readings, with x = y = 0
      unless both reference coordinates are given, in which case the fix is
      projected around the reference. `cos` stands for `math.cos`. */
  function FromGlobalPositionInt(msg: Obj, refLat: Value, refLon: Value, cos: real -> real): (r: Result<UAVStateSnapshot, Exception>)
    ensures r.Ok? ==> Field(msg, "time_boot_ms") == Ok(r.value.timeS * 1000.0)
    ensures r.Ok? ==> ToFloat(Get(msg, "alt", Get(msg, "relative_alt", Num(0.0)))) == Ok(r.value.position.z * 1000.0)
    ensures r.Ok? ==> (Field(msg, "vx") == Ok(r.value.velocity.x * 100.0) &&
      Field(msg, "vy") == Ok(r.value.velocity.y * 100.0) && Field(msg, "vz") == Ok(r.value.velocity.z * 100.0))
    ensures r.Ok? && (refLat == Null || refLon == Null) ==> r.value.position.x == 0.0 && r.value.position.y == 0.0
    ensures r.Ok? && refLat != Null && refLon != Null ==>
      Field(msg, "lat").Ok? && Field(msg, "lon").Ok? && Number(refLat).Ok? && Number(refLon).Ok? &&
      r.value.position == Project(Field(msg, "lat").value / 10000000.0, Field(msg, "lon").value / 10000000.0,
                                  r.value.position.z, Number(refLat).value, Number(refLon).value, cos)
  {
    match GlobalReadings(msg)
    case Err(e) => Err(e)
    case Ok(f) =>
      if refLat != Null && refLon != Null then
        match Number(refLat)
        case Err(e) => Err(e)
        case Ok(rl) =>
          match Number(refLon)
          case Err(e) => Err(e)
          case Ok(rn) => Ok(UAVStateSnapshot(f.timeS, Project(f.lat, f.lon, f.alt, rl, rn, cos), f.velocity))
      else Ok(UAVStateSnapshot(f.timeS, Vec3(0.0, 0.0, f.alt), f.velocity))
  }

  /** The message type: the explicit one, else `_type`, else
      `mavpacket_type`, else "". */
  function MessageType(msg: Obj, msgType: Value): (r: Value)
    ensures msgType != Null ==> r == msgType
    ensures msgType == Null && "_type" in msg ==> r == msg["_type"]
    ensures msgType == Null && "_type" !in msg && "mavpacket_type" !in msg ==> r == Text("")
  {
    if msgType != Null then msgType else Get(msg, "_type", Get(msg, "mavpacket_type", Text("")))
  }

  /** The message looks like LOCAL_POSITION_NED: x, y, z and vx present. */
  predicate HasLocalFields(msg: Obj) {
    "x" in msg && "y" in msg && "z" in msg && "vx" in msg
  }

  /** The message looks like GLOBAL_POSITION_INT: lat and lon present. */
  predicate HasGlobalFields(msg: Obj) {
    "lat" in msg && "lon" in msg
  }

  /** `mavlink_to_uav_state`: the local parser when the type says so or
      the local fields are present (checked first), else the global parser
      (with `_ref_lat_deg` / `_ref_lon_deg` from the message) when the type
      says so or lat/lon are present, else the local parser. */
  function MavlinkToUavState(msg: Obj, msgType: Value, cos: real -> real): (r: Result<UAVStateSnapshot, Exception>)
    ensures var t := MessageType(msg, msgType);
      t == Text(LOCAL_POSITION_NED_MSG) || HasLocalFields(msg) ==> r == FromLocalPositionNed(msg)
    ensures var t := MessageType(msg, msgType);
      t != Text(LOCAL_POSITION_NED_MSG) && !HasLocalFields(msg) && (t == Text(GLOBAL_POSITION_INT_MSG) || HasGlobalFields(msg)) ==>
      r == FromGlobalPositionInt(msg, Get(msg, "_ref_lat_deg", Null), Get(msg, "_ref_lon_deg", Null), cos)
    ensures var t := MessageType(msg, msgType);
      t != Text(GLOBAL_POSITION_INT_MSG) && !HasGlobalFields(msg) ==> r == FromLocalPositionNed(msg)
  {
    var t := MessageType(msg, msgType);
    if t == Text(LOCAL_POSITION_NED_MSG) || HasLocalFields(msg) then FromLocalPositionNed(msg)
    else if t == Text(GLOBAL_POSITION_INT_MSG) || HasGlobalFields(msg) then
      FromGlobalPositionInt(msg, Get(msg, "_ref_lat_deg", Null), Get(msg, "_ref_lon_deg", Null), cos)
    else FromLocalPositionNed(msg)
  }

  /** The projection puts the reference point itself at the origin of the
      plane, and moving one degree north moves 111320 m along y. */
  lemma ReferenceIsOrigin(lat: real, lon: real, alt: real, cos: real -> real)
    ensures Project(lat, lon, alt, lat, lon, cos) == Vec3(0.0, 0.0, alt)
    ensures Project(lat + 1.0, lon, alt, lat, lon, cos).y == METRES_PER_DEGREE
  {
  }

  /** A snapshot written as a LOCAL_POSITION_NED message (time in ms) is
      translated back to itself. */
  lemma LocalRoundTrip(s: UAVStateSnapshot, cos: real -> real)
    ensures var msg := map["time_boot_ms" := Num(s.timeS * 1000.0),
                           "x" := Num(s.position.x), "y" := Num(s.position.y), "z" := Num(s.position.z),
                           "vx" := Num(s.velocity.x), "vy" := Num(s.velocity.y), "vz" := Num(s.velocity.z)];
      MavlinkToUavState(msg, Null, cos) == Ok(s)
  {
    var msg := map["time_boot_ms" := Num(s.timeS * 1000.0),
                   "x" := Num(s.position.x), "y" := Num(s.position.y), "z" := Num(s.position.z),
                   "vx" := Num(s.velocity.x), "vy" := Num(s.velocity.y), "vz" := Num(s.velocity.z)];
    assert HasLocalFields(msg);
    assert Scaled(Field(msg, "time_boot_ms"), 1000.0) == Ok(s.timeS);
  }

  /** A GLOBAL_POSITION_INT message without a reference: the position is
      straight above the origin at the altitude in metres, and the
      velocities are in m/s. */
  lemma GlobalWithoutReference(lat: real, lon: real, altMm: real, vx: real, cos: real -> real)
    ensures var msg := map["lat" := Num(lat), "lon" := Num(lon), "alt" := Num(altMm), "vx" := Num(vx)];
      MavlinkToUavState(msg, Null, cos) == Ok(UAVStateSnapshot(0.0, Vec3(0.0, 0.0, altMm / 1000.0), Vec3(vx / 100.0, 0.0, 0.0)))
  {
    var msg := map["lat" := Num(lat), "lon" := Num(lon), "alt" := Num(altMm), "vx" := Num(vx)];
    assert !HasLocalFields(msg) && HasGlobalFields(msg);
    assert MessageType(msg, Null) == Text("");
  }
}
