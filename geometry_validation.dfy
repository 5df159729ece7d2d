/** Structural checks on a payload's declared geometry and drag
    coefficient: the dimension keys each shape needs, and the drag
    coefficient interval each shape allows. Every failure is a ValueError in
    the source; the reason is kept here to tell the cases apart. */
module GeometryValidation {
  import opened Builtins

  datatype GeometryError = NotADict | BadDimension | Missing(keys: seq<string>) | UnknownType

  /** The dimension keys each geometry type requires. */
  function RequiredKeys(payloadType: string): (r: Option<seq<string>>)
    ensures r.Some? <==> payloadType in ALLOWED_CD
  {
    if payloadType == "sphere" then Some(["diameter_m"])
    else if payloadType == "cylinder" then Some(["length_m", "diameter_m"])
    else if payloadType == "box" then Some(["length_m", "width_m", "height_m"])
    else if payloadType == "capsule" then Some(["length_m", "diameter_m"])
    else if payloadType == "blunt_cone" then Some(["length_m", "base_diameter_m"])
    else None
  }

  /** The closed drag-coefficient interval each geometry type allows. */
  const ALLOWED_CD: map<string, (real, real)> := map[
    "sphere" := (0.45, 0.60), "capsule" := (0.50, 0.90), "cylinder" := (0.80, 1.20),
    "blunt_cone" := (0.60, 1.00), "box" := (1.00, 1.50)]

  /** `_require_keys`: the required keys absent from `data`, in the order required. */
  function MissingKeys(data: Obj, required: seq<string>): (missing: seq<string>)
    ensures forall k :: k in missing <==> k in required && k !in data
    ensures |missing| <= |required|
  {
    if required == [] then []
    else (if required[0] in data then [] else [required[0]]) + MissingKeys(data, required[1..])
  }

  /** A dimension value the loop accepts: a number (a bool is an int) that is not negative. */
  predicate IsDimension(v: Value) {
    v.Bool? || (v.Num? && v.n >= 0.0)
  }

  /** `validate_geometry`: Ok(true) or the reason for the ValueError. */
  function ValidateGeometry(payloadType: string, dimensions: Value): (r: Result<bool, GeometryError>)
    ensures r.Ok? ==> r.value
    ensures r.Ok? <==> (dimensions.Dict? && (forall k :: k in dimensions.entries ==> IsDimension(dimensions.entries[k])) &&
      RequiredKeys(payloadType).Some? && (forall k :: k in RequiredKeys(payloadType).value ==> k in dimensions.entries))
    ensures !dimensions.Dict? ==> r == Err(NotADict)
    ensures dimensions.Dict? && (exists k :: k in dimensions.entries && !IsDimension(dimensions.entries[k])) ==> r == Err(BadDimension)
  {
    if !dimensions.Dict? then Err(NotADict)
    else if exists k :: k in dimensions.entries && !IsDimension(dimensions.entries[k]) then Err(BadDimension)
    else match RequiredKeys(payloadType)
      case None => Err(UnknownType)
      case Some(required) =>
        var missing := MissingKeys(dimensions.entries, required);
        if missing != [] then
          assert missing[0] in required && missing[0] !in dimensions.entries;
          Err(Missing(missing))
        else Ok(true)
  }

  /** `validate_aerodynamics`: Ok(true) when the type is known and cd lies in its interval. */
  function ValidateAerodynamics(payloadType: string, cd: real): (r: Result<bool, GeometryError>)
    ensures r.Ok? ==> r.value
    ensures r.Ok? <==> payloadType in ALLOWED_CD && ALLOWED_CD[payloadType].0 <= cd <= ALLOWED_CD[payloadType].1
    ensures payloadType !in ALLOWED_CD ==> r == Err(UnknownType)
  {
    if payloadType !in ALLOWED_CD then Err(UnknownType)
    else
      var (lo, hi) := ALLOWED_CD[payloadType];
      if !(lo <= cd <= hi) then Err(BadDimension) else Ok(true)
  }

  /** Extra keys never cause rejection: adding valid dimensions to valid geometry keeps it valid. */
  lemma ExtraKeysAllowed(payloadType: string, dims: Obj, extra: Obj)
    requires ValidateGeometry(payloadType, Dict(dims)).Ok?
    requires forall k :: k in extra ==> IsDimension(extra[k])
    ensures ValidateGeometry(payloadType, Dict(dims + extra)).Ok?
  {
    forall k | k in dims + extra
      ensures IsDimension((dims + extra)[k])
    {
      if k !in extra {
        assert IsDimension(dims[k]);
      }
    }
  }

  /** Zero is an allowed dimension; a negative one is not. */
  lemma ZeroAllowedNegativeRejected(payloadType: string, key: string, x: real)
    requires RequiredKeys(payloadType) == Some([key])
    ensures ValidateGeometry(payloadType, Dict(map[key := Num(0.0)])).Ok?
    ensures x < 0.0 ==> ValidateGeometry(payloadType, Dict(map[key := Num(x)])) == Err(BadDimension)
  {
    var dims := map[key := Num(x)];
    if x < 0.0 {
      assert key in dims && !IsDimension(dims[key]);
    }
  }

  /** A sphere needs `diameter_m`: `{"radius": 0.1}` is missing it, `{"diameter_m": 0.3}` passes. */
  lemma SphereNeedsDiameter()
    ensures ValidateGeometry("sphere", Dict(map["radius" := Num(0.1)])) == Err(Missing(["diameter_m"]))
    ensures ValidateGeometry("sphere", Dict(map["diameter_m" := Num(0.3)])) == Ok(true)
  {
    var bad := map["radius" := Num(0.1)];
    assert forall k :: k in bad ==> IsDimension(bad[k]);
    assert MissingKeys(bad, ["diameter_m"]) == ["diameter_m"] by {
      assert ["diameter_m"][1..] == [];
    }
  }

  /** Sphere Cd 0.5 passes and 0.1 is out of bounds. */
  lemma SphereCdBounds()
    ensures ValidateAerodynamics("sphere", 0.5) == Ok(true)
    ensures ValidateAerodynamics("sphere", 0.1) == Err(BadDimension)
  {
  }
}
