/** Relative contribution of wind, altitude and velocity to the uncertainty of
    the hit probability, from the sensitivity gradients. */
module UncertaintyDecomposition {
  import opened Builtins
  import opened Sensitivity

  const CONTRIBUTION_KEY := "uncertainty_contribution"
  /** Below this total of absolute gradients the weights are taken as equal. */
  const TOTAL_EPSILON: real := 0.000001
  /** The lead the largest weight needs over the next to stay dominant. */
  const DOMINANCE_MARGIN: real := 0.05

  /** The three weights in descending order: the values of the stable sort by
      descending weight. */
  function SortedDesc(a: real, b: real, c: real): (s: (real, real, real))
    ensures s.0 >= s.1 >= s.2
    ensures multiset{s.0, s.1, s.2} == multiset{a, b, c}
  {
    if a >= b then
      if b >= c then (a, b, c)
      else if a >= c then (a, c, b)
      else (c, a, b)
    else
      if a >= c then (b, a, c)
      else if b >= c then (b, c, a)
      else (c, b, a)
  }

  /** Each absolute gradient as a share of their total. */
  function Normalise(a: real, b: real, c: real): (w: (real, real, real))
    requires a + b + c != 0.0
  {
    var total := a + b + c;
    (a / total, b / total, c / total)
  }

  function Weights(w: real, h: real, v: real): Value {
    Dict(map["wind" := Num(w), "altitude" := Num(h), "velocity" := Num(v)])
  }

  /** `abs(float(sens.get(key, 0) or 0))`, None when the conversion raises. */
  function AbsGradient(sens: Obj, key: string): (g: Option<real>)
    ensures g.Some? ==> g.value >= 0.0
  {
    var x := FloatOr(sens, key, 0.0);
    if x.None? then None else Some(Abs(x.value))
  }

  /** Whether the top two weights are too close for one factor to dominate. */
  predicate TooClose(w: real, h: real, v: real) {
    var s := SortedDesc(w, h, v);
    s.0 < s.1 + DOMINANCE_MARGIN
  }

  /** `compute_uncertainty_contribution` on the snapshot's entries; None when a
      conversion raises, before anything is written. */
  function Uncertainty(m: Obj): (r: Option<Obj>)
    // Nothing to decompose: a missing, empty or non-dict sensitivity_matrix.
    ensures MATRIX_KEY !in m || !m[MATRIX_KEY].Dict? || m[MATRIX_KEY].entries == map[] ==> r == Some(m)
    ensures r.Some? ==> m.Keys <= r.value.Keys
    ensures r.Some? ==> forall k :: k in m && k != CONTRIBUTION_KEY && k != DOMINANT_KEY ==> r.value[k] == m[k]
  {
    var sens := Get(m, MATRIX_KEY, Null);
    if !Truthy(sens) || !sens.Dict? then Some(m)
    else
      var wind, altitude, velocity := AbsGradient(sens.entries, "wind"),
        AbsGradient(sens.entries, "altitude"), AbsGradient(sens.entries, "velocity");
      if wind.None? || altitude.None? || velocity.None? then None
      else
        var total := wind.value + altitude.value + velocity.value;
        if total < TOTAL_EPSILON then
          Some(m[CONTRIBUTION_KEY := Weights(1.0 / 3.0, 1.0 / 3.0, 1.0 / 3.0)])
        else
          var w := Normalise(wind.value, altitude.value, velocity.value);
          var m1 := m[CONTRIBUTION_KEY := Weights(w.0, w.1, w.2)];
          if TooClose(w.0, w.1, w.2) then Some(m1[DOMINANT_KEY := Text("Mixed")]) else Some(m1)
  }

  /** Normalised weights lie in [0, 1] and sum to one. */
  lemma WeightsArePartition(a: real, b: real, c: real)
    requires a >= 0.0 && b >= 0.0 && c >= 0.0 && a + b + c > 0.0
    ensures var w := Normalise(a, b, c);
      0.0 <= w.0 <= 1.0 && 0.0 <= w.1 <= 1.0 && 0.0 <= w.2 <= 1.0 && w.0 + w.1 + w.2 == 1.0
    ensures var w := Normalise(a, b, c);
      w.0 * (a + b + c) == a && w.1 * (a + b + c) == b && w.2 * (a + b + c) == c
  {
    var total := a + b + c;
    ShareOfTotal(a, total);
    ShareOfTotal(b, total);
    ShareOfTotal(c, total);
    var x, y, z := a / total, b / total, c / total;
    assert (x + y + z) * total == x * total + y * total + z * total;
    UnitFactor(x + y + z, total);
  }

  lemma ShareOfTotal(part: real, total: real)
    requires total > 0.0 && 0.0 <= part <= total
    ensures 0.0 <= part / total <= 1.0 && (part / total) * total == part
  {
    var x := part / total;
    assert x * total == part;
    assert (1.0 - x) * total == total - part;
  }

  lemma UnitFactor(s: real, total: real)
    requires total > 0.0 && s * total == total
    ensures s == 1.0
  {
    assert (s - 1.0) * total == 0.0;
  }

  /** With a usable total the contribution holds the normalised absolute
      gradients, and dominant_risk_factor becomes "Mixed" exactly when the
      largest weight leads the second by less than 0.05; otherwise it is left
      as it was. */
  lemma ContributionIsNormalised(m: Obj, a: real, b: real, c: real)
    requires MATRIX_KEY in m && m[MATRIX_KEY].Dict? && m[MATRIX_KEY].entries != map[]
    requires AbsGradient(m[MATRIX_KEY].entries, "wind") == Some(a)
    requires AbsGradient(m[MATRIX_KEY].entries, "altitude") == Some(b)
    requires AbsGradient(m[MATRIX_KEY].entries, "velocity") == Some(c)
    requires a + b + c >= TOTAL_EPSILON
    ensures Uncertainty(m).Some?
    ensures var r := Uncertainty(m).value;
      var w := Normalise(a, b, c);
      r[CONTRIBUTION_KEY] == Weights(w.0, w.1, w.2) &&
      (TooClose(w.0, w.1, w.2) ==> r[DOMINANT_KEY] == Text("Mixed")) &&
      (!TooClose(w.0, w.1, w.2) ==> Get(r, DOMINANT_KEY, Null) == Get(m, DOMINANT_KEY, Null))
  {
    assert CONTRIBUTION_KEY != DOMINANT_KEY;
  }

  /** A negligible total gives equal weights and leaves dominant_risk_factor untouched. */
  lemma NegligibleTotalGivesEqualWeights(m: Obj)
    requires MATRIX_KEY in m && m[MATRIX_KEY].Dict? && m[MATRIX_KEY].entries != map[]
    requires Uncertainty(m).Some?
    ensures var sens := m[MATRIX_KEY].entries;
      AbsGradient(sens, "wind").value + AbsGradient(sens, "altitude").value +
      AbsGradient(sens, "velocity").value < TOTAL_EPSILON ==>
        Uncertainty(m).value == m[CONTRIBUTION_KEY := Weights(1.0 / 3.0, 1.0 / 3.0, 1.0 / 3.0)]
  {
  }

  /** `compute_uncertainty_contribution`: updates the snapshot in place;
      `raised` reports a failed conversion. */
  method ComputeUncertaintyContribution(snapshot: DictObject) returns (raised: bool)
    modifies snapshot
    ensures var r := Uncertainty(old(snapshot.entries));
      (raised <==> r.None?) &&
      (r.None? ==> snapshot.entries == old(snapshot.entries)) &&
      (r.Some? ==> snapshot.entries == r.value)
  {
    var sens := Get(snapshot.entries, MATRIX_KEY, Null);
    if !Truthy(sens) || !sens.Dict? {
      return false;
    }
    var wind := AbsGradient(sens.entries, "wind");
    var altitude := AbsGradient(sens.entries, "altitude");
    var velocity := AbsGradient(sens.entries, "velocity");
    if wind.None? || altitude.None? || velocity.None? {
      return true;
    }
    var total := wind.value + altitude.value + velocity.value;
    if total < TOTAL_EPSILON {
      snapshot.entries := snapshot.entries[CONTRIBUTION_KEY := Weights(1.0 / 3.0, 1.0 / 3.0, 1.0 / 3.0)];
      return false;
    }
    var weights := Normalise(wind.value, altitude.value, velocity.value);
    snapshot.entries := snapshot.entries[CONTRIBUTION_KEY := Weights(weights.0, weights.1, weights.2)];
    var ranked := SortedDesc(weights.0, weights.1, weights.2);
    if ranked.0 < ranked.1 + DOMINANCE_MARGIN {
      snapshot.entries := snapshot.entries[DOMINANT_KEY := Text("Mixed")];
    }
    raised := false;
  }
}
