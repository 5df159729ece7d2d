/** Miss topology: where the impact points drift relative to the target and
    how elongated their scatter is. */
module Topology {
  import opened Builtins
  import opened Metrics

  const LIVE_TOPOLOGY_KEY := "topology_live"
  const MATRIX_TOPOLOGY_KEY := "topology_matrix"

  /** `_classify_drift_axis` */
  function ClassifyDriftAxis(meanX: real, meanY: real): (axis: string)
    ensures axis == "longitudinal" <==> Abs(meanX) > Abs(meanY)
    ensures axis == "lateral" <==> Abs(meanY) > Abs(meanX)
    ensures axis == "centered" <==> Abs(meanX) == Abs(meanY)
  {
    var ax, ay := Abs(meanX), Abs(meanY);
    if ax > ay then "longitudinal"
    else if ay > ax then "lateral"
    else "centered"
  }

  /** `_classify_dispersion` */
  function ClassifyDispersion(eccentricityRatio: real): (c: string)
    ensures c == "Circular" <==> eccentricityRatio < 1.2
    ensures c == "Moderate elongation" <==> 1.2 <= eccentricityRatio < 2.0
    ensures c == "Strong elongation" <==> eccentricityRatio >= 2.0
  {
    if eccentricityRatio < 1.2 then "Circular"
    else if eccentricityRatio < 2.0 then "Moderate elongation"
    else "Strong elongation"
  }

  /** How `compute_topology` reads impact_points: nothing to do, NumPy raises,
      or the x and y columns of at least two points. Lists nested more than
      two levels deep, which NumPy reads as higher-dimensional arrays, are
      outside this model and read as Raises. */
  datatype PointsRead = Skip | Raises | Points(xs: seq<real>, ys: seq<real>)

  /** Every value converted by `float`, or None if one does not convert. */
  function Numbers(vs: seq<Value>): (r: Option<seq<real>>)
    ensures r.Some? ==> |r.value| == |vs| && forall i :: 0 <= i < |vs| ==> Float(vs[i]) == Some(r.value[i])
    ensures r.None? ==> exists i :: 0 <= i < |vs| && Float(vs[i]).None?
  {
    if vs == [] then Some([])
    else
      var head, tail := Float(vs[0]), Numbers(vs[1..]);
      if head.None? then None
      else if tail.None? then
        var i :| 0 <= i < |vs[1..]| && Float(vs[1..][i]).None?;
        assert Float(vs[i + 1]).None?;
        None
      else Some([head.value] + tail.value)
  }

  /** The rows of a two-dimensional array: every item a list of numbers, all of
      one length; None when NumPy could not build such an array. */
  function Rows(vs: seq<Value>): (r: Option<seq<seq<real>>>)
    ensures r.Some? ==> |r.value| == |vs| && forall i :: 0 <= i < |vs| ==> |r.value[i]| == |r.value[0]|
  {
    if vs == [] then Some([])
    else if !vs[0].List? || Numbers(vs[0].items).None? then None
    else
      var tail := Rows(vs[1..]);
      var head := Numbers(vs[0].items).value;
      if tail.None? || (tail.value != [] && |tail.value[0]| != |head|) then None
      else Some([head] + tail.value)
  }

  function Column(rows: seq<seq<real>>, j: nat): (c: seq<real>)
    requires forall i :: 0 <= i < |rows| ==> j < |rows[i]|
    ensures |c| == |rows| && forall i :: 0 <= i < |rows| ==> c[i] == rows[i][j]
  {
    seq(|rows|, i requires 0 <= i < |rows| => rows[i][j])
  }

  /** `impact_points` as `compute_topology` sees it: None or an empty value
      skips, a flat list of numbers is reshaped to pairs (an odd count
      raises), and fewer than two points or two columns skips. */
  function ReadPoints(v: Value): (r: PointsRead)
    ensures r.Points? ==> |r.xs| == |r.ys| >= 2
  {
    match v
    case Null => Skip
    case Bool(_) => Raises
    case Num(_) => Raises
    case Text(s) => if s == "" then Skip else Raises
    case Dict(e) => if e == map[] then Skip else Raises
    case List(items) =>
      if items == [] then Skip
      else if Numbers(items).Some? then
        var flat := Numbers(items).value;
        if |flat| % 2 != 0 then Raises
        else if |flat| / 2 < 2 then Skip
        else Points(seq(|flat| / 2, i requires 0 <= i < |flat| / 2 => flat[2 * i]),
                    seq(|flat| / 2, i requires 0 <= i < |flat| / 2 => flat[2 * i + 1]))
      else
        var rows := Rows(items);
        if rows.None? then Raises
        else if |rows.value| < 2 || |rows.value[0]| < 2 then Skip
        else Points(Column(rows.value, 0), Column(rows.value, 1))
  }

  /** The topology_live record of standard mode. */
  function LiveTopology(xs: seq<real>, ys: seq<real>): (r: Value)
    requires xs != [] && ys != []
    ensures r.Dict? && r.entries.Keys == {"mean_x", "mean_y", "var_x", "var_y", "drift_axis"}
    ensures r.entries["var_x"].Num? && r.entries["var_x"].n >= 0.0
    ensures r.entries["var_y"].Num? && r.entries["var_y"].n >= 0.0
    ensures r.entries["drift_axis"] == Text("longitudinal") <==> Abs(Mean(xs)) > Abs(Mean(ys))
    ensures r.entries["drift_axis"] == Text("lateral") <==> Abs(Mean(ys)) > Abs(Mean(xs))
    ensures r.entries["drift_axis"] == Text("centered") <==> Abs(Mean(xs)) == Abs(Mean(ys))
  {
    var meanX, meanY := Mean(xs), Mean(ys);
    Dict(map["mean_x" := Num(meanX), "mean_y" := Num(meanY),
             "var_x" := Num(Variance(xs)), "var_y" := Num(Variance(ys)),
             "drift_axis" := Text(ClassifyDriftAxis(meanX, meanY))])
  }

  /** `compute_topology` on the snapshot's entries; None when NumPy raises.
      `advanced` stands for the covariance and eigen-decomposition record of
      advanced mode. */
  function Topology(m: Obj, mode: string, advanced: (seq<real>, seq<real>) -> Value): (r: Option<Obj>)
    ensures ReadPoints(Get(m, "impact_points", Null)) == Skip ==> r == Some(m)
    ensures r.None? <==> ReadPoints(Get(m, "impact_points", Null)) == Raises
    ensures r.Some? && mode != "standard" && mode != "advanced" ==> r == Some(m)
  {
    match ReadPoints(Get(m, "impact_points", Null))
    case Skip => Some(m)
    case Raises => None
    case Points(xs, ys) =>
      if mode == "standard" then Some(m[LIVE_TOPOLOGY_KEY := LiveTopology(xs, ys)])
      else if mode == "advanced" then Some(m[MATRIX_TOPOLOGY_KEY := advanced(xs, ys)])
      else Some(m)
  }

  /** Standard mode stores the coordinate means, their non-negative population
      variances and the drift axis those means give, and nothing else. */
  lemma StandardTopologyRecord(m: Obj, advanced: (seq<real>, seq<real>) -> Value)
    requires ReadPoints(Get(m, "impact_points", Null)).Points?
    ensures var pts := ReadPoints(Get(m, "impact_points", Null));
      var r := Topology(m, "standard", advanced).value;
      r.Keys == m.Keys + {LIVE_TOPOLOGY_KEY} &&
      (forall k :: k in m && k != LIVE_TOPOLOGY_KEY ==> r[k] == m[k]) &&
      var rec := r[LIVE_TOPOLOGY_KEY].entries;
      rec.Keys == {"mean_x", "mean_y", "var_x", "var_y", "drift_axis"} &&
      rec["mean_x"] == Num(Mean(pts.xs)) && rec["mean_y"] == Num(Mean(pts.ys)) &&
      rec["var_x"].n >= 0.0 && rec["var_y"].n >= 0.0 &&
      rec["drift_axis"] == Text(ClassifyDriftAxis(Mean(pts.xs), Mean(pts.ys)))
  {
  }

  /** A flat list of numbers is read as consecutive (x, y) pairs. */
  lemma FlatListIsPairs()
    ensures ReadPoints(List([Num(1.0), Num(2.0), Num(3.0), Num(4.0)])) == Points([1.0, 3.0], [2.0, 4.0])
  {
    var items := [Num(1.0), Num(2.0), Num(3.0), Num(4.0)];
    AllNumbers(items);
    assert Numbers(items).value == [1.0, 2.0, 3.0, 4.0];
  }

  lemma AllNumbers(vs: seq<Value>)
    requires forall i :: 0 <= i < |vs| ==> vs[i].Num?
    ensures Numbers(vs).Some?
  {
  }

  /** A single point, or points with one coordinate, are skipped. */
  lemma TooFewPointsSkipped(x: real, y: real)
    ensures ReadPoints(List([List([Num(x), Num(y)])])) == Skip
    ensures ReadPoints(List([List([Num(x)]), List([Num(y)])])) == Skip
  {
    AllNumbers([Num(x), Num(y)]);
    AllNumbers([Num(x)]);
    AllNumbers([Num(y)]);
    assert Numbers([List([Num(x), Num(y)])]).None?;
    assert Numbers([List([Num(x)]), List([Num(y)])]).None?;
    var one := [List([Num(x), Num(y)])];
    assert Rows(one[1..]) == Some([]);
    assert Rows(one).Some? && |Rows(one).value| == 1;
    var narrow := [List([Num(x)]), List([Num(y)])];
    assert narrow[1..][1..] == [];
    assert Rows(narrow[1..]).Some? && |Rows(narrow[1..]).value[0]| == 1;
    assert Rows(narrow).Some? && |Rows(narrow).value[0]| == 1;
  }

  /** `compute_topology`: stores the record of the mode in the snapshot;
      `raised` reports that NumPy could not read impact_points. */
  method ComputeTopology(snapshot: DictObject, mode: string, advanced: (seq<real>, seq<real>) -> Value)
      returns (raised: bool)
    modifies snapshot
    ensures var r := Topology(old(snapshot.entries), mode, advanced);
      (raised <==> r.None?) &&
      (r.None? ==> snapshot.entries == old(snapshot.entries)) &&
      (r.Some? ==> snapshot.entries == r.value)
  {
    var pts := ReadPoints(Get(snapshot.entries, "impact_points", Null));
    if pts.Skip? {
      return false;
    }
    if pts.Raises? {
      return true;
    }
    if mode == "standard" {
      snapshot.entries := snapshot.entries[LIVE_TOPOLOGY_KEY := LiveTopology(pts.xs, pts.ys)];
    } else if mode == "advanced" {
      snapshot.entries := snapshot.entries[MATRIX_TOPOLOGY_KEY := advanced(pts.xs, pts.ys)];
    }
    raised := false;
  }
}
