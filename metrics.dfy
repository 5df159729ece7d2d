/** Metrics over the Monte Carlo impact points: hit probability, impact speed
    statistics and the decision confidence index. */
module Metrics {
  import opened Builtins

  /** `_clamp(value, lo, hi)`: max(lo, min(hi, value)). */
  function Clamp(value: real, lo: real, hi: real): (r: real)
    ensures lo <= hi ==> lo <= r <= hi
    ensures lo <= value <= hi ==> r == value
    ensures lo <= hi && value < lo ==> r == lo
    ensures lo <= hi && value > hi ==> r == hi
  {
    Max(lo, Min(hi, value))
  }

  // ---------------------------------------------------------------------
  // Hit probability

  /** Why `compute_hit_probability` raises: NumPy cannot make a float array of
      ragged rows, "impact_points must not be empty", "impact_points must have
      shape (N, 2)", and a target that does not reshape to two coordinates. */
  datatype MetricsError = NotRectangular | EmptyPoints | NotTwoColumns | TargetNotPair

  predicate Rectangular(rows: seq<seq<real>>) {
    forall i :: 0 <= i < |rows| ==> |rows[i]| == |rows[0]|
  }

  /** The Euclidean distance of a point from the target, with `sqrt` for `math.sqrt`. */
  function Distance(p: seq<real>, target: seq<real>, sqrt: real -> real): (d: real)
    requires |p| == 2 && |target| == 2 && SqrtSpec(sqrt)
    ensures d >= 0.0
  {
    var dx, dy := p[0] - target[0], p[1] - target[1];
    assert dx * dx >= 0.0 && dy * dy >= 0.0;
    sqrt(dx * dx + dy * dy)
  }

  function CountHits(points: seq<seq<real>>, target: seq<real>, radius: real, sqrt: real -> real): (c: nat)
    requires |target| == 2 && SqrtSpec(sqrt)
    requires forall i :: 0 <= i < |points| ==> |points[i]| == 2
    ensures c <= |points|
  {
    if points == [] then 0
    else (if Distance(points[0], target, sqrt) <= radius then 1 else 0) + CountHits(points[1..], target, radius, sqrt)
  }

  /** `compute_hit_probability`: the share of impact points within `radius` of
      the target, boundary included. */
  function HitProbability(points: seq<seq<real>>, target: seq<real>, radius: real,
                          sqrt: real -> real): (r: Result<real, MetricsError>)
    requires SqrtSpec(sqrt)
    ensures !Rectangular(points) <==> r == Err(NotRectangular)
    ensures Rectangular(points) && points == [] ==> r == Err(EmptyPoints)
    ensures Rectangular(points) && points != [] && |points[0]| != 2 ==> r == Err(NotTwoColumns)
    ensures r.Ok? ==> 0.0 <= r.value <= 1.0
    ensures r.Ok? ==>
      |target| == 2 && points != [] && r.value == CountHits(points, target, radius, sqrt) as real / |points| as real
  {
    if !Rectangular(points) then Err(NotRectangular)
    else if points == [] then Err(EmptyPoints)
    else if |points[0]| != 2 then Err(NotTwoColumns)
    else if |target| != 2 then Err(TargetNotPair)
    else
      var hits := CountHits(points, target, radius, sqrt);
      ShareOfPoints(hits, |points|);
      Ok(hits as real / |points| as real)
  }

  lemma ShareOfPoints(hits: nat, n: nat)
    requires 0 < n && hits <= n
    ensures 0.0 <= hits as real / n as real <= 1.0
  {
    var x := hits as real / n as real;
    assert x * (n as real) == hits as real;
    assert (1.0 - x) * (n as real) == (n - hits) as real;
  }

  /** With a non-negative radius a point is a hit exactly when its squared
      distance is at most the squared radius; a negative radius hits nothing. */
  lemma HitIffSquaredDistance(p: seq<real>, target: seq<real>, radius: real, sqrt: real -> real)
    requires |p| == 2 && |target| == 2 && SqrtSpec(sqrt)
    ensures var dx, dy := p[0] - target[0], p[1] - target[1];
      (radius >= 0.0 ==> (Distance(p, target, sqrt) <= radius <==> dx * dx + dy * dy <= radius * radius)) &&
      (radius < 0.0 ==> Distance(p, target, sqrt) > radius)
  {
    assert Distance(p, target, sqrt) == sqrt((p[0] - target[0]) * (p[0] - target[0]) + (p[1] - target[1]) * (p[1] - target[1]));
    var dx, dy := p[0] - target[0], p[1] - target[1];
    if radius >= 0.0 {
      SqrtAtMost(sqrt, dx * dx + dy * dy, radius);
    }
  }

  /** Three of the four points at distances 0, 1, 2 and 10 lie within 2.5. */
  lemma HitProbabilityExample(sqrt: real -> real)
    requires SqrtSpec(sqrt)
    ensures HitProbability([[0.0, 0.0], [1.0, 0.0], [2.0, 0.0], [10.0, 0.0]], [0.0, 0.0], 2.5, sqrt) == Ok(0.75)
  {
    var pts: seq<seq<real>> := [[0.0, 0.0], [1.0, 0.0], [2.0, 0.0], [10.0, 0.0]];
    var t: seq<real> := [0.0, 0.0];
    HitIffSquaredDistance(pts[0], t, 2.5, sqrt);
    HitIffSquaredDistance(pts[1], t, 2.5, sqrt);
    HitIffSquaredDistance(pts[2], t, 2.5, sqrt);
    HitIffSquaredDistance(pts[3], t, 2.5, sqrt);
    assert pts[1..][1..][1..][1..] == [];
    assert CountHits(pts, t, 2.5, sqrt) == 3;
  }

  // ---------------------------------------------------------------------
  // Sample statistics

  function Sum(xs: seq<real>): real {
    if xs == [] then 0.0 else xs[0] + Sum(xs[1..])
  }

  /** `np.mean` of a non-empty sample. */
  function Mean(xs: seq<real>): real
    requires xs != []
  {
    Sum(xs) / |xs| as real
  }

  function SumSquaredDeviations(xs: seq<real>, center: real): (s: real)
    ensures s >= 0.0
  {
    if xs == [] then 0.0
    else
      var d := xs[0] - center;
      assert d * d >= 0.0;
      d * d + SumSquaredDeviations(xs[1..], center)
  }

  /** `np.var`: the population variance. */
  function Variance(xs: seq<real>): (v: real)
    requires xs != []
    ensures v >= 0.0
  {
    var s := SumSquaredDeviations(xs, Mean(xs));
    var n := |xs| as real;
    assert s / n >= 0.0;
    s / n
  }

  /** The sum of a sample bounded by lo and hi lies between n·lo and n·hi. */
  lemma {:induction false} SumBounds(xs: seq<real>, lo: real, hi: real)
    requires forall i :: 0 <= i < |xs| ==> lo <= xs[i] <= hi
    ensures |xs| as real * lo <= Sum(xs) <= |xs| as real * hi
  {
    if xs != [] {
      SumBounds(xs[1..], lo, hi);
      var n := (|xs| - 1) as real;
      assert |xs| as real * lo == lo + n * lo;
      assert |xs| as real * hi == hi + n * hi;
    }
  }

  /** A mean lies between any bounds of its sample. */
  lemma MeanWithinBounds(xs: seq<real>, lo: real, hi: real)
    requires xs != []
    requires forall i :: 0 <= i < |xs| ==> lo <= xs[i] <= hi
    ensures lo <= Mean(xs) <= hi
  {
    SumBounds(xs, lo, hi);
    var n := |xs| as real;
    var m := Mean(xs);
    assert m * n == Sum(xs);
    assert (m - lo) * n == Sum(xs) - n * lo;
    assert (hi - m) * n == n * hi - Sum(xs);
  }

  /** What `compute_impact_velocity_stats` returns. */
  datatype SpeedStats = SpeedStats(mean: real, std: real, p95: real)

  /** `compute_impact_velocity_stats`, with `percentile95` standing for
      `np.percentile(speeds, 95)`. */
  function ImpactVelocityStats(speeds: seq<real>, sqrt: real -> real,
                               percentile95: seq<real> -> real): (s: SpeedStats)
    requires SqrtSpec(sqrt)
    ensures speeds == [] ==> s == SpeedStats(0.0, 0.0, 0.0)
    ensures s.std >= 0.0
    ensures speeds != [] ==> s.std * s.std == Variance(speeds)
  {
    if speeds == [] then SpeedStats(0.0, 0.0, 0.0)
    else SpeedStats(Mean(speeds), sqrt(Variance(speeds)), percentile95(speeds))
  }

  /** Non-negative speeds have a non-negative mean, at most the largest speed. */
  lemma MeanSpeedWithinSample(speeds: seq<real>, top: real, sqrt: real -> real, percentile95: seq<real> -> real)
    requires SqrtSpec(sqrt) && speeds != []
    requires forall i :: 0 <= i < |speeds| ==> 0.0 <= speeds[i] <= top
    ensures 0.0 <= ImpactVelocityStats(speeds, sqrt, percentile95).mean <= top
  {
    MeanWithinBounds(speeds, 0.0, top);
  }

  // ---------------------------------------------------------------------
  // Confidence index

  const K1: real := 0.35
  const BC_REF: real := 120.0
  const ALTITUDE_LIMIT: real := 3000.0
  const FRESHNESS_LIMIT_S: real := 5.0

  /** What the model assumes of `np.exp`: positive, and at most one on
      non-positive arguments. */
  ghost predicate ExpSpec(exp: real -> real) {
    forall x: real {:trigger exp(x)} :: 0.0 < exp(x) && (x <= 0.0 ==> exp(x) <= 1.0)
  }

  function BcFactor(ballisticCoefficient: Option<real>): (f: real)
    ensures ballisticCoefficient.None? ==> f == 0.5
    ensures ballisticCoefficient.Some? ==> f == Clamp(ballisticCoefficient.value / BC_REF, 0.0, 1.0)
    ensures 0.0 <= f <= 1.0
  {
    if ballisticCoefficient.None? then 0.5 else Clamp(ballisticCoefficient.value / BC_REF, 0.0, 1.0)
  }

  /** Whether telemetry counts as fresh: a bool as given, a number when at most
      5 seconds, and None or anything that does not convert is stale. */
  predicate IsFresh(freshness: Value) {
    match freshness
    case Null => false
    case Bool(b) => b
    case _ => Float(freshness).Some? && Float(freshness).value <= FRESHNESS_LIMIT_S
  }

  function TelemetryFactor(freshness: Value): (f: real)
    ensures f == 1.0 <==> IsFresh(freshness)
    ensures f == 0.5 <==> !IsFresh(freshness)
  {
    if IsFresh(freshness) then 1.0 else 0.5
  }

  /** `compute_confidence_index`: the clamped mean of the wind, ballistic
      coefficient, altitude and telemetry factors. */
  function ConfidenceIndex(windStd: real, ballisticCoefficient: Option<real>, altitude: real,
                           freshness: Value, exp: real -> real): (c: real)
    ensures 0.0 <= c <= 1.0
  {
    var windFactor := exp(-K1 * windStd);
    var altitudeFactor := Clamp(1.0 - altitude / ALTITUDE_LIMIT, 0.0, 1.0);
    Clamp((windFactor + BcFactor(ballisticCoefficient) + altitudeFactor + TelemetryFactor(freshness)) / 4.0, 0.0, 1.0)
  }

  /** For calm, non-negative wind the index needs no clamping: it is the plain
      mean of four factors in [0, 1], and fresh telemetry raises it by exactly 1/8. */
  lemma FreshTelemetryRaisesConfidence(windStd: real, bc: Option<real>, altitude: real,
                                       exp: real -> real)
    requires ExpSpec(exp) && windStd >= 0.0
    ensures ConfidenceIndex(windStd, bc, altitude, Bool(true), exp)
         == ConfidenceIndex(windStd, bc, altitude, Bool(false), exp) + 0.125
  {
    var w := exp(-K1 * windStd);
    assert -K1 * windStd <= 0.0;
    assert 0.0 < w <= 1.0;
  }
}
