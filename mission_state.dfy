/** The mission context: the payload, target and environment objects and
    the UAV's position and velocity, exported as the nine engine inputs. */
module MissionState {
  import opened Builtins
  import opened Exceptions
  import opened PayloadBase
  import opened TargetManager
  import opened Environment
  import AdvisoryLayer

  /** The components `validate` checks, in the order it checks them. */
  const COMPONENTS: seq<string> := ["payload", "target", "environment", "uav_position", "uav_velocity"]

  /** A vector of floats as a Python tuple value. */
  function Vector(xs: seq<real>): (v: Value)
    ensures v.List? && |v.items| == |xs|
    ensures forall i :: 0 <= i < |xs| ==> v.items[i] == Num(xs[i])
  {
    List(seq(|xs|, i requires 0 <= i < |xs| => Num(xs[i])))
  }

  /** A vector field that may still be None. */
  function OptVector(xs: Option<seq<real>>): (v: Value)
    ensures xs.Some? <==> v.List?
    ensures xs.Some? ==> v == Vector(xs.value)
  {
    if xs.Some? then Vector(xs.value) else Null
  }

  class MissionState {
    var payload: Option<Payload>
    var target: Option<Target>
    var environment: Option<Environment>
    var uavPosition: Option<seq<real>>
    var uavVelocity: Option<seq<real>>

    /** The component objects the export reads through. */
    function Components(): (s: set<object>)
      reads this
      ensures payload.Some? ==> payload.value in s
      ensures target.Some? ==> target.value in s
      ensures environment.Some? ==> environment.value in s
    {
      (if payload.Some? then {payload.value as object} else {}) +
      (if target.Some? then {target.value as object} else {}) +
      (if environment.Some? then {environment.value as object} else {})
    }

    /** Every component is set, each component object is valid, and both
        UAV vectors have three components. */
    predicate Ready()
      reads this, Components()
    {
      payload.Some? && payload.value.Valid() &&
      target.Some? && target.value.Valid() &&
      environment.Some? && environment.value.Valid() &&
      uavPosition.Some? && |uavPosition.value| == 3 &&
      uavVelocity.Some? && |uavVelocity.value| == 3
    }

    /** The start of `__init__`: all five fields are None. */
    constructor Empty()
      ensures payload.None? && target.None? && environment.None? && uavPosition.None? && uavVelocity.None?
    {
      payload, target, environment := None, None, None;
      uavPosition, uavVelocity := None, None;
    }

    /** The `payload` setter: None raises ValueError and the field stays. */
    method SetPayload(value: Option<Payload>) returns (raised: Option<Exception>)
      modifies this
      ensures raised.None? <==> value.Some?
      ensures raised.Some? ==> raised == Some(ValueError) && payload == old(payload)
      ensures raised.None? ==> payload == value
      ensures target == old(target) && environment == old(environment)
      ensures uavPosition == old(uavPosition) && uavVelocity == old(uavVelocity)
    {
      if value.None? {
        return Some(ValueError);
      }
      payload := value;
      return None;
    }

    /** The `target` setter: None raises ValueError and the field stays. */
    method SetTarget(value: Option<Target>) returns (raised: Option<Exception>)
      modifies this
      ensures raised.None? <==> value.Some?
      ensures raised.Some? ==> raised == Some(ValueError) && target == old(target)
      ensures raised.None? ==> target == value
      ensures payload == old(payload) && environment == old(environment)
      ensures uavPosition == old(uavPosition) && uavVelocity == old(uavVelocity)
    {
      if value.None? {
        return Some(ValueError);
      }
      target := value;
      return None;
    }

    /** The `environment` setter: None raises ValueError and the field stays. */
    method SetEnvironment(value: Option<Environment>) returns (raised: Option<Exception>)
      modifies this
      ensures raised.None? <==> value.Some?
      ensures raised.Some? ==> raised == Some(ValueError) && environment == old(environment)
      ensures raised.None? ==> environment == value
      ensures payload == old(payload) && target == old(target)
      ensures uavPosition == old(uavPosition) && uavVelocity == old(uavVelocity)
    {
      if value.None? {
        return Some(ValueError);
      }
      environment := value;
      return None;
    }

    /** The `uav_position` setter: exactly three elements, converted to floats. */
    method SetUavPosition(value: Value) returns (raised: Option<Exception>)
      modifies this
      ensures raised.None? <==> Triple(value).Ok?
      ensures raised.None? ==> uavPosition == Some(Triple(value).value) && |uavPosition.value| == 3
      ensures raised.Some? ==> raised.value == Triple(value).error && uavPosition == old(uavPosition)
      ensures payload == old(payload) && target == old(target) && environment == old(environment)
      ensures uavVelocity == old(uavVelocity)
    {
      var v := Triple(value);
      if v.Err? {
        return Some(v.error);
      }
      uavPosition := Some(v.value);
      return None;
    }

    /** The `uav_velocity` setter: exactly three elements, converted to floats. */
    method SetUavVelocity(value: Value) returns (raised: Option<Exception>)
      modifies this
      ensures raised.None? <==> Triple(value).Ok?
      ensures raised.None? ==> uavVelocity == Some(Triple(value).value) && |uavVelocity.value| == 3
      ensures raised.Some? ==> raised.value == Triple(value).error && uavVelocity == old(uavVelocity)
      ensures payload == old(payload) && target == old(target) && environment == old(environment)
      ensures uavPosition == old(uavPosition)
    {
      var v := Triple(value);
      if v.Err? {
        return Some(v.error);
      }
      uavVelocity := Some(v.value);
      return None;
    }

    /** `validate`: None when every component is set, otherwise the name of
        the first unset component in the order of COMPONENTS (each raises
        ValueError). */
    function Validate(): (missing: Option<string>)
      reads this
      ensures missing.None? <==>
        payload.Some? && target.Some? && environment.Some? && uavPosition.Some? && uavVelocity.Some?
      ensures missing.Some? ==> missing.value in COMPONENTS
      ensures missing == Some("payload") <==> payload.None?
      ensures missing == Some("target") <==> payload.Some? && target.None?
      ensures missing == Some("uav_velocity") <==>
        payload.Some? && target.Some? && environment.Some? && uavPosition.Some? && uavVelocity.None?
    {
      if payload.None? then Some("payload")
      else if target.None? then Some("target")
      else if environment.None? then Some("environment")
      else if uavPosition.None? then Some("uav_position")
      else if uavVelocity.None? then Some("uav_velocity")
      else None
    }

    /** `export_engine_inputs`: validation first, then the nine engine keys,
        each read from its component at the time of the call. */
    function ExportEngineInputs(): (r: Result<Obj, Exception>)
      reads this, Components()
      ensures r.Err? <==> Validate().Some?
      ensures r.Err? ==> r.error == ValueError
      ensures r.Ok? ==> r.value == EngineInputs(uavPosition.value, uavVelocity.value,
        OptVector(target.value.position), OptNum(target.value.radius),
        OptVector(environment.value.windMean), OptNum(environment.value.windStd),
        OptNum(payload.value.mass), OptNum(payload.value.referenceArea), OptNum(payload.value.dragCoefficient))
    {
      if Validate().Some? then Err(ValueError)
      else
        Ok(EngineInputs(uavPosition.value, uavVelocity.value,
          OptVector(target.value.position), OptNum(target.value.radius),
          OptVector(environment.value.windMean), OptNum(environment.value.windStd),
          OptNum(payload.value.mass), OptNum(payload.value.referenceArea), OptNum(payload.value.dragCoefficient)))
    }
  }

  /** The nine engine inputs under their config names: exactly the keys the
      advisory layer saves and restores around an engine run. */
  function EngineInputs(uavPos: seq<real>, uavVel: seq<real>, targetPos: Value, targetRadius: Value,
                        windMean: Value, windStd: Value, mass: Value, area: Value, cd: Value): (m: Obj)
    ensures m.Keys == AdvisoryLayer.ENGINE_KEYS
  {
    AdvisoryLayer.EngineKeysListed();
    map["uav_pos" := Vector(uavPos), "uav_vel" := Vector(uavVel), "target_pos" := targetPos,
        "target_radius" := targetRadius, "wind_mean" := windMean, "wind_std" := windStd,
        "mass" := mass, "A" := area, "Cd" := cd]
  }

  /** A ready mission exports only set values: the two UAV vectors and the
      wind as three numbers each, the target position as two, a positive
      radius, mass, area and drag coefficient, and a non-negative wind
      deviation. */
  lemma ReadyExportIsComplete(s: MissionState)
    requires s.Ready()
    ensures s.ExportEngineInputs().Ok?
    ensures var inputs := s.ExportEngineInputs().value;
      inputs["uav_pos"].List? && |inputs["uav_pos"].items| == 3 &&
      inputs["uav_vel"].List? && |inputs["uav_vel"].items| == 3 &&
      inputs["wind_mean"].List? && |inputs["wind_mean"].items| == 3 &&
      inputs["target_pos"].List? && |inputs["target_pos"].items| == 2 &&
      inputs["target_radius"].Num? && inputs["target_radius"].n > 0.0 &&
      inputs["wind_std"].Num? && inputs["wind_std"].n >= 0.0 &&
      inputs["mass"].Num? && inputs["mass"].n > 0.0 &&
      inputs["A"].Num? && inputs["A"].n > 0.0 &&
      inputs["Cd"].Num? && inputs["Cd"].n > 0.0
  {
  }

  /** `MissionState(payload, target, environment, uav_position, uav_velocity)`:
      the five setters in order; the first to raise ends construction. A
      state built from valid components is ready, so its `validate` never
      raises. */
  method NewMissionState(payload: Option<Payload>, target: Option<Target>, environment: Option<Environment>,
                         uavPosition: Value, uavVelocity: Value) returns (r: Result<MissionState, Exception>)
    ensures r.Ok? <==> payload.Some? && target.Some? && environment.Some? && Triple(uavPosition).Ok? && Triple(uavVelocity).Ok?
    ensures r.Err? && (payload.None? || target.None? || environment.None?) ==> r.error == ValueError
    ensures r.Ok? ==> fresh(r.value) && r.value.Validate().None?
    ensures r.Ok? ==> (r.value.payload == payload && r.value.target == target && r.value.environment == environment &&
      r.value.uavPosition == Some(Triple(uavPosition).value) && r.value.uavVelocity == Some(Triple(uavVelocity).value))
    ensures r.Ok? && payload.value.Valid() && target.value.Valid() && environment.value.Valid() ==> r.value.Ready()
  {
    var s := new MissionState.Empty();
    var raised := s.SetPayload(payload);
    if raised.Some? {
      return Err(raised.value);
    }
    raised := s.SetTarget(target);
    if raised.Some? {
      return Err(raised.value);
    }
    raised := s.SetEnvironment(environment);
    if raised.Some? {
      return Err(raised.value);
    }
    raised := s.SetUavPosition(uavPosition);
    if raised.Some? {
      return Err(raised.value);
    }
    raised := s.SetUavVelocity(uavVelocity);
    if raised.Some? {
      return Err(raised.value);
    }
    return Ok(s);
  }
}
