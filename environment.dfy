/** The mission environment: the mean wind vector (m/s) and the wind's
    standard deviation (m/s), which may be zero but not negative. */
module Environment {
  import opened Builtins
  import opened Exceptions

  /** `Environment(wind_mean, wind_std)` as values: the wind_mean setter
      runs first and the first setter to raise ends construction. */
  function Construct(windMean: Value, windStd: Value): (r: Result<(seq<real>, real), Exception>)
    ensures r.Ok? <==> FloatsAt(windMean, 3).Ok? && NonNegativeFloat(windStd).Ok?
    ensures r.Ok? ==> |r.value.0| == 3 && r.value.1 >= 0.0
    ensures r.Ok? ==> r.value == (FloatsAt(windMean, 3).value, NonNegativeFloat(windStd).value)
    ensures FloatsAt(windMean, 3).Err? ==> r == Err(FloatsAt(windMean, 3).error)
  {
    match FloatsAt(windMean, 3)
    case Err(e) => Err(e)
    case Ok(w) =>
      match NonNegativeFloat(windStd)
      case Err(e) => Err(e)
      case Ok(s) => Ok((w, s))
  }

  class Environment {
    var windMean: Option<seq<real>>
    var windStd: Option<real>

    /** Both fields are set, the mean has three components and the
        deviation is not negative. */
    predicate Valid()
      reads this
    {
      windMean.Some? && |windMean.value| == 3 && windStd.Some? && windStd.value >= 0.0
    }

    /** The start of `__init__`: both fields are None. */
    constructor Empty()
      ensures windMean.None? && windStd.None?
    {
      windMean, windStd := None, None;
    }

    /** The `wind_mean` setter: the first three elements converted to floats. */
    method SetWindMean(value: Value) returns (raised: Option<Exception>)
      modifies this
      ensures raised.None? <==> FloatsAt(value, 3).Ok?
      ensures raised.None? ==> windMean == Some(FloatsAt(value, 3).value) && |windMean.value| == 3
      ensures raised.Some? ==> raised.value == FloatsAt(value, 3).error && windMean == old(windMean)
      ensures windStd == old(windStd)
      ensures old(Valid()) ==> Valid()
    {
      var v := FloatsAt(value, 3);
      if v.Err? {
        return Some(v.error);
      }
      windMean := Some(v.value);
      return None;
    }

    /** The `wind_std` setter: a negative value raises ValueError and the
        previous value stays; zero is accepted. */
    method SetWindStd(value: Value) returns (raised: Option<Exception>)
      modifies this
      ensures raised.None? <==> NonNegativeFloat(value).Ok?
      ensures raised.None? ==> windStd == Some(NonNegativeFloat(value).value) && windStd.value >= 0.0
      ensures raised.Some? ==> raised.value == NonNegativeFloat(value).error && windStd == old(windStd)
      ensures windMean == old(windMean)
      ensures old(Valid()) ==> Valid()
    {
      var v := NonNegativeFloat(value);
      if v.Err? {
        return Some(v.error);
      }
      windStd := Some(v.value);
      return None;
    }
  }

  /** `Environment(wind_mean, wind_std)`: a new valid environment holding the
      converted values, or the exception of the first setter that rejects
      its value. */
  method NewEnvironment(windMean: Value, windStd: Value) returns (r: Result<Environment, Exception>)
    ensures r.Err? <==> Construct(windMean, windStd).Err?
    ensures r.Err? ==> r.error == Construct(windMean, windStd).error
    ensures r.Ok? ==> fresh(r.value) && r.value.Valid()
    ensures r.Ok? ==> (r.value.windMean == Some(Construct(windMean, windStd).value.0) &&
      r.value.windStd == Some(Construct(windMean, windStd).value.1))
  {
    var e := new Environment.Empty();
    var raised := e.SetWindMean(windMean);
    if raised.Some? {
      return Err(raised.value);
    }
    raised := e.SetWindStd(windStd);
    if raised.Some? {
      return Err(raised.value);
    }
    return Ok(e);
  }

  /** Calm air: a zero deviation is accepted and a negative one is not. */
  lemma ZeroDeviationAllowed(windMean: Value, windStd: real)
    requires FloatsAt(windMean, 3).Ok?
    ensures windStd == 0.0 ==> Construct(windMean, Num(windStd)).Ok?
    ensures windStd < 0.0 ==> Construct(windMean, Num(windStd)) == Err(ValueError)
  {
  }
}
