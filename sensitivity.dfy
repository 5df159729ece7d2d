/** Finite-difference sensitivity of the hit probability to wind, altitude and
    release speed, written into the evaluation snapshot. */
module Sensitivity {
  import opened Builtins

  const FIDELITY_KEY := "simulation_fidelity"
  const LIVE_KEY := "sensitivity_live"
  const MATRIX_KEY := "sensitivity_matrix"
  const DOMINANT_KEY := "dominant_risk_factor"

  const WIND_STEP: real := 0.5
  const ALTITUDE_STEP: real := 5.0
  const VELOCITY_STEP: real := 2.0
  /** Weight of the new raw gradient in the exponential smoothing. */
  const ALPHA: real := 0.3
  const MIN_PERTURBED_SAMPLES := 30

  /** The config of a perturbed run: a copy of `config` with `perturb` applied
      and simulation_fidelity removed, so that no nested sensitivity runs. */
  function PerturbedConfig(config: Obj, perturb: Obj): (cfg: Obj)
    ensures cfg.Keys == config.Keys + perturb.Keys - {FIDELITY_KEY}
    ensures forall k :: k in perturb && k != FIDELITY_KEY ==> cfg[k] == perturb[k]
    ensures forall k :: k in config && k !in perturb && k != FIDELITY_KEY ==> cfg[k] == config[k]
  {
    (config + perturb) - {FIDELITY_KEY}
  }

  /** `_run_perturbed`: the P_hit of one engine run on the perturbed copy. */
  function RunPerturbed(config: Obj, perturb: Obj, engine: Obj -> real): real {
    engine(PerturbedConfig(config, perturb))
  }

  /** `_wind_sensitivity_level` */
  function WindSensitivityLevel(gradient: real): (level: string)
    ensures level == "High" <==> Abs(gradient) >= 0.05
    ensures level == "Moderate" <==> 0.02 <= Abs(gradient) < 0.05
    ensures level == "Low" <==> Abs(gradient) < 0.02
  {
    var g := Abs(gradient);
    if g >= 0.05 then "High"
    else if g >= 0.02 then "Moderate"
    else "Low"
  }

  /** The sample count of a standard-mode perturbed run: max(30, int(0.3 n)). */
  function PerturbedSamples(nOrig: int): (n: int)
    ensures n >= MIN_PERTURBED_SAMPLES
  {
    MaxInt(MIN_PERTURBED_SAMPLES, Trunc(nOrig as real * 0.3))
  }

  /** One finite-difference quotient. */
  function Gradient(pPerturbed: real, pBase: real, step: real): real
    requires step != 0.0
  {
    (pPerturbed - pBase) / step
  }

  /** Exponential smoothing of the wind gradient against the previous cycle's. */
  function Smooth(raw: real, previous: Option<real>): (g: real)
    ensures previous.None? ==> g == raw
    ensures previous.Some? ==> Min(raw, previous.value) <= g <= Max(raw, previous.value)
  {
    if previous.Some? then ALPHA * raw + (1.0 - ALPHA) * previous.value else raw
  }

  /** The sensitivity_live record of standard mode. */
  function LiveRecord(raw: real, smoothed: real): Value {
    Dict(map[
      "wind_gradient_raw" := Num(raw),
      "wind_gradient_smoothed" := Num(smoothed),
      "wind_gradient" := Num(smoothed),
      "wind_sensitivity" := Text(WindSensitivityLevel(smoothed))])
  }

  /** The first of wind, altitude, velocity with the largest absolute gradient:
      the head of the stable descending sort by |gradient|. */
  function DominantFactor(gw: real, gh: real, gv: real): (name: string)
    ensures name == "wind" <==> Abs(gw) >= Abs(gh) && Abs(gw) >= Abs(gv)
    ensures name == "altitude" <==> Abs(gh) > Abs(gw) && Abs(gh) >= Abs(gv)
    ensures name == "velocity" <==> Abs(gv) > Abs(gw) && Abs(gv) > Abs(gh)
  {
    if Abs(gw) >= Abs(gh) && Abs(gw) >= Abs(gv) then "wind"
    else if Abs(gh) >= Abs(gv) then "altitude"
    else "velocity"
  }

  /** What `compute_sensitivity` leaves behind: the snapshot's new entries and
      the value it returns. */
  datatype SensitivityResult = SensitivityResult(snapshot: Obj, returned: Option<real>)

  /** `cfg.get("wind_x", cfg.get("wind_mean_x", 0.0))` */
  function WindX(cfg: Obj): Value {
    Get(cfg, "wind_x", Get(cfg, "wind_mean_x", Num(0.0)))
  }

  /** The raw standard-mode wind gradient: one run with wind_x + 0.5 and a
      reduced sample count. */
  function StandardRawGradient(cfg: Obj, pBase: real, nOrig: int, wx: real, engine: Obj -> real): real {
    var perturb := map["wind_x" := Num(wx + WIND_STEP), "n_samples" := Num(PerturbedSamples(nOrig) as real)];
    Gradient(RunPerturbed(cfg, perturb, engine), pBase, WIND_STEP)
  }

  /** The three advanced-mode gradients, each from one run at full sample count. */
  function AdvancedGradients(cfg: Obj, pBase: real, wx: real, alt: real, vx: real,
                             engine: Obj -> real): (real, real, real) {
    (Gradient(RunPerturbed(cfg, map["wind_x" := Num(wx + WIND_STEP)], engine), pBase, WIND_STEP),
     Gradient(RunPerturbed(cfg, map["uav_altitude" := Num(alt + ALTITUDE_STEP)], engine), pBase, ALTITUDE_STEP),
     Gradient(RunPerturbed(cfg, map["uav_vx" := Num(vx + VELOCITY_STEP)], engine), pBase, VELOCITY_STEP))
  }

  function MatrixRecord(g: (real, real, real)): Value {
    Dict(map["wind" := Num(g.0), "altitude" := Num(g.1), "velocity" := Num(g.2)])
  }

  /** `compute_sensitivity` on the snapshot's entries; None when a `float()` or
      `int()` conversion raises, which happens before anything is written. */
  function Sensitivity(m: Obj, config: Obj, mode: string, previous: Option<real>,
                       engine: Obj -> real): (r: Option<SensitivityResult>)
    ensures r.Some? ==> (r.value.returned.Some? <==> mode == "standard")
  {
    var pBase := FloatOr(m, "P_hit", 0.0);
    var nOrig := Int(Get(config, "n_samples", Num(1000.0)));
    if pBase.None? || nOrig.None? then None
    else if mode == "standard" then
      var wx := Float(WindX(config));
      if wx.None? then None
      else
        var raw := StandardRawGradient(config, pBase.value, nOrig.value, wx.value, engine);
        var smoothed := Smooth(raw, previous);
        Some(SensitivityResult(m[LIVE_KEY := LiveRecord(raw, smoothed)], Some(smoothed)))
    else if mode == "advanced" then
      var wx := Float(WindX(config));
      var alt := Float(Get(config, "uav_altitude", Num(100.0)));
      var vx := Float(Get(config, "uav_vx", Num(20.0)));
      if wx.None? || alt.None? || vx.None? then None
      else
        var g := AdvancedGradients(config, pBase.value, wx.value, alt.value, vx.value, engine);
        Some(SensitivityResult(m[MATRIX_KEY := MatrixRecord(g)][DOMINANT_KEY := Text(DominantFactor(g.0, g.1, g.2))], None))
    else Some(SensitivityResult(m, None))
  }

  /** Only a failed `float()` or `int()` conversion raises; the conversions
      that are made depend on the mode. */
  lemma SensitivityRaisesOnlyOnConversion(m: Obj, config: Obj, mode: string, previous: Option<real>,
                                          engine: Obj -> real)
    ensures Sensitivity(m, config, mode, previous, engine).None? <==>
      FloatOr(m, "P_hit", 0.0).None? || Int(Get(config, "n_samples", Num(1000.0))).None? ||
      ((mode == "standard" || mode == "advanced") && Float(WindX(config)).None?) ||
      (mode == "advanced" && (Float(Get(config, "uav_altitude", Num(100.0))).None? ||
                              Float(Get(config, "uav_vx", Num(20.0))).None?))
  {
  }

  /** Standard mode writes only sensitivity_live, whose wind_gradient equals its
      smoothed gradient, and returns that smoothed gradient. */
  lemma StandardModeWritesLiveRecord(m: Obj, config: Obj, previous: Option<real>, engine: Obj -> real)
    requires Sensitivity(m, config, "standard", previous, engine).Some?
    ensures var r := Sensitivity(m, config, "standard", previous, engine).value;
      var raw := StandardRawGradient(config, FloatOr(m, "P_hit", 0.0).value,
                                     Int(Get(config, "n_samples", Num(1000.0))).value,
                                     Float(WindX(config)).value, engine);
      r.returned == Some(Smooth(raw, previous)) &&
      r.snapshot.Keys == m.Keys + {LIVE_KEY} &&
      (forall k :: k in m && k != LIVE_KEY ==> r.snapshot[k] == m[k]) &&
      r.snapshot[LIVE_KEY] == LiveRecord(raw, r.returned.value) &&
      LiveRecord(raw, r.returned.value).entries["wind_gradient"] ==
        LiveRecord(raw, r.returned.value).entries["wind_gradient_smoothed"]
  {
  }

  /** Advanced mode, once every conversion succeeds, returns None and the
      snapshot with the gradient matrix and then the dominant factor written. */
  lemma AdvancedModeResult(m: Obj, config: Obj, previous: Option<real>, engine: Obj -> real,
                           pBase: real, wx: real, alt: real, vx: real)
    requires FloatOr(m, "P_hit", 0.0) == Some(pBase) && Int(Get(config, "n_samples", Num(1000.0))).Some?
    requires Float(WindX(config)) == Some(wx)
    requires Float(Get(config, "uav_altitude", Num(100.0))) == Some(alt)
    requires Float(Get(config, "uav_vx", Num(20.0))) == Some(vx)
    ensures var g := AdvancedGradients(config, pBase, wx, alt, vx, engine);
      Sensitivity(m, config, "advanced", previous, engine) ==
        Some(SensitivityResult(m[MATRIX_KEY := MatrixRecord(g)][DOMINANT_KEY := Text(DominantFactor(g.0, g.1, g.2))], None))
  {
    assert "advanced" != "standard";
  }

  /** Writing the matrix and then the dominant factor adds exactly those two
      keys and keeps every other entry. */
  lemma MatrixWriteKeepsOthers(m: Obj, g: (real, real, real))
    ensures var w := m[MATRIX_KEY := MatrixRecord(g)][DOMINANT_KEY := Text(DominantFactor(g.0, g.1, g.2))];
      w.Keys == m.Keys + {MATRIX_KEY, DOMINANT_KEY} &&
      (forall k :: k in m && k != MATRIX_KEY && k != DOMINANT_KEY ==> w[k] == m[k]) &&
      w[MATRIX_KEY] == MatrixRecord(g) &&
      w[DOMINANT_KEY] == Text(DominantFactor(g.0, g.1, g.2))
  {
    assert MATRIX_KEY != DOMINANT_KEY;
  }

  /** Advanced mode, once every conversion succeeds, writes the three
      gradients and the dominant factor, keeps every other entry, and
      returns None. */
  lemma AdvancedModeWritesMatrix(m: Obj, config: Obj, previous: Option<real>, engine: Obj -> real,
                                 pBase: real, wx: real, alt: real, vx: real)
    requires FloatOr(m, "P_hit", 0.0) == Some(pBase) && Int(Get(config, "n_samples", Num(1000.0))).Some?
    requires Float(WindX(config)) == Some(wx)
    requires Float(Get(config, "uav_altitude", Num(100.0))) == Some(alt)
    requires Float(Get(config, "uav_vx", Num(20.0))) == Some(vx)
    ensures var r := Sensitivity(m, config, "advanced", previous, engine);
      var g := AdvancedGradients(config, pBase, wx, alt, vx, engine);
      r.Some? && r.value.returned.None? &&
      r.value.snapshot.Keys == m.Keys + {MATRIX_KEY, DOMINANT_KEY} &&
      (forall k :: k in m && k != MATRIX_KEY && k != DOMINANT_KEY ==> r.value.snapshot[k] == m[k]) &&
      r.value.snapshot[MATRIX_KEY] == MatrixRecord(g) &&
      r.value.snapshot[DOMINANT_KEY] == Text(DominantFactor(g.0, g.1, g.2))
  {
    AdvancedModeResult(m, config, previous, engine, pBase, wx, alt, vx);
    MatrixWriteKeepsOthers(m, AdvancedGradients(config, pBase, wx, alt, vx, engine));
  }

  /** Any other mode writes nothing and returns None. */
  lemma OtherModeWritesNothing(m: Obj, config: Obj, mode: string, previous: Option<real>, engine: Obj -> real)
    requires mode != "standard" && mode != "advanced"
    requires Sensitivity(m, config, mode, previous, engine).Some?
    ensures Sensitivity(m, config, mode, previous, engine).value == SensitivityResult(m, None)
  {
  }

  /** The perturbed run never sees simulation_fidelity, and it sees every
      perturbed key with its new value. */
  lemma PerturbedRunConfig(config: Obj, wx: real, nOrig: int)
    ensures var cfg := PerturbedConfig(config, map["wind_x" := Num(wx + WIND_STEP),
                                                    "n_samples" := Num(PerturbedSamples(nOrig) as real)]);
      FIDELITY_KEY !in cfg && cfg["wind_x"] == Num(wx + 0.5) &&
      cfg["n_samples"].Num? && cfg["n_samples"].n >= 30.0
  {
    var perturb := map["wind_x" := Num(wx + WIND_STEP), "n_samples" := Num(PerturbedSamples(nOrig) as real)];
    assert "wind_x" != FIDELITY_KEY && "n_samples" != FIDELITY_KEY;
    assert "wind_x" in perturb && "n_samples" in perturb;
  }

  /** A gradient between two probabilities over a step h lies in [-1/h, 1/h]:
      the standard wind gradient is within [-2, 2]. */
  lemma StandardGradientBounded(cfg: Obj, pBase: real, nOrig: int, wx: real, engine: Obj -> real)
    requires EngineSpec(engine)
    requires 0.0 <= pBase <= 1.0
    ensures -2.0 <= StandardRawGradient(cfg, pBase, nOrig, wx, engine) <= 2.0
  {
    var perturb := map["wind_x" := Num(wx + WIND_STEP), "n_samples" := Num(PerturbedSamples(nOrig) as real)];
    var p := engine(PerturbedConfig(cfg, perturb));
    assert 0.0 <= p <= 1.0;
  }

  /** The gradient is positive exactly when the perturbed run hits more often. */
  lemma GradientSign(pPerturbed: real, pBase: real, step: real)
    requires step > 0.0
    ensures Gradient(pPerturbed, pBase, step) > 0.0 <==> pPerturbed > pBase
    ensures Gradient(pPerturbed, pBase, step) == 0.0 <==> pPerturbed == pBase
  {
    var d := pPerturbed - pBase;
    if d > 0.0 {
      assert d / step > 0.0;
    } else if d < 0.0 {
      assert -d / step > 0.0;
    }
  }

  /** `compute_sensitivity`: writes into the snapshot in place and returns the
      smoothed gradient in standard mode; `raised` reports a failed conversion. */
  method ComputeSensitivity(snapshot: DictObject, config: Obj, mode: string, previous: Option<real>,
                            engine: Obj -> real)
      returns (raised: bool, gradient: Option<real>)
    modifies snapshot
    ensures var r := Sensitivity(old(snapshot.entries), config, mode, previous, engine);
      (raised <==> r.None?) &&
      (r.None? ==> snapshot.entries == old(snapshot.entries)) &&
      (r.Some? ==> snapshot.entries == r.value.snapshot && gradient == r.value.returned)
  {
    var pBase := FloatOr(snapshot.entries, "P_hit", 0.0);
    var nOrig := Int(Get(config, "n_samples", Num(1000.0)));
    if pBase.None? || nOrig.None? {
      return true, None;
    }
    if mode == "standard" {
      var wx := Float(WindX(config));
      if wx.None? {
        return true, None;
      }
      var raw := StandardRawGradient(config, pBase.value, nOrig.value, wx.value, engine);
      var smoothed := Smooth(raw, previous);
      snapshot.entries := snapshot.entries[LIVE_KEY := LiveRecord(raw, smoothed)];
      return false, Some(smoothed);
    } else if mode == "advanced" {
      var wx := Float(WindX(config));
      var alt := Float(Get(config, "uav_altitude", Num(100.0)));
      var vx := Float(Get(config, "uav_vx", Num(20.0)));
      if wx.None? || alt.None? || vx.None? {
        return true, None;
      }
      var g := AdvancedGradients(config, pBase.value, wx.value, alt.value, vx.value, engine);
      snapshot.entries := snapshot.entries[MATRIX_KEY := MatrixRecord(g)];
      snapshot.entries := snapshot.entries[DOMINANT_KEY := Text(DominantFactor(g.0, g.1, g.2))];
      return false, None;
    }
    raised, gradient := false, None;
  }
}
