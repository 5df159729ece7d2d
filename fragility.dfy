/** The decision fragility surface: how far the hit probability sits above the
    threshold, how fast that margin moves with the wind, and the zone both give. */
module Fragility {
  import opened Builtins
  import opened Sensitivity

  const STATE_KEY := "fragility_state"
  const EDGE := "EDGE-ZONE"
  const TRANSITION := "TRANSITION-ZONE"
  const STABLE := "STABLE-ZONE"

  /** `_classify_zone`: the slope is accepted but plays no part. */
  function ClassifyZone(marginPct: real, slopeMargin: real): (zone: string)
    ensures zone == EDGE <==> marginPct < 1.5
    ensures zone == STABLE <==> marginPct >= 5.0
    ensures zone == TRANSITION <==> 1.5 <= marginPct < 5.0
  {
    if marginPct < 1.5 then EDGE
    else if marginPct >= 5.0 then STABLE
    else TRANSITION
  }

  /** The config of `_run_wind_perturbed`: wind_x + 0.5 on a copy without
      simulation_fidelity. */
  function WindPerturbedConfig(config: Obj, wx: real): (cfg: Obj)
    ensures cfg.Keys == config.Keys + {"wind_x"} - {FIDELITY_KEY}
    ensures cfg["wind_x"] == Num(wx + 0.5)
    ensures forall k :: k in config && k != "wind_x" && k != FIDELITY_KEY ==> cfg[k] == config[k]
  {
    config["wind_x" := Num(wx + 0.5)] - {FIDELITY_KEY}
  }

  /** `_run_wind_perturbed`; None when wind_x does not convert. */
  function RunWindPerturbed(config: Obj, engine: Obj -> real): Option<real> {
    var wx := Float(WindX(config));
    if wx.None? then None else Some(engine(WindPerturbedConfig(config, wx.value)))
  }

  /** The change of the margin per m/s of wind over a 0.5 m/s step. */
  function SlopeOf(marginPerturbed: real, margin: real): real {
    (marginPerturbed - margin) / 0.5
  }

  /** `d.get(key) or {}` for a nested record; None when it is neither falsy nor
      a dict, since `.get` on it then raises. */
  function RecordOr(m: Obj, key: string): Option<Obj> {
    var v := Or(Get(m, key, Dict(map[])), Dict(map[]));
    if v.Dict? then Some(v.entries) else None
  }

  /** The slope of the margin: in standard mode the smoothed wind gradient of
      sensitivity_live if there is one, else a fresh perturbed run; in any
      other mode the wind entry of sensitivity_matrix. */
  function SlopeMargin(m: Obj, config: Obj, mode: string, pBase: real, threshold: real,
                       engine: Obj -> real): Option<real> {
    if mode == "standard" then
      var live := RecordOr(m, LIVE_KEY);
      if live.None? then None
      else
        var g := Get(live.value, "wind_gradient_smoothed", Null);
        if g != Null then Float(g)
        else
          var pPerturbed := RunWindPerturbed(config, engine);
          if pPerturbed.None? then None
          else Some(SlopeOf(pPerturbed.value - threshold, pBase - threshold))
    else
      var sens := RecordOr(m, MATRIX_KEY);
      if sens.None? then None
      else
        var g := FloatOr(sens.value, "wind", 0.0);
        if g.None? then None
        else Some(SlopeOf(pBase + g.value * 0.5 - threshold, pBase - threshold))
  }

  function MarginPct(pBase: real, thresholdPct: real): real {
    (pBase - thresholdPct / 100.0) * 100.0
  }

  function FragilityState(marginPct: real, slopeMargin: real): Value {
    Dict(map["margin_pct" := Num(marginPct), "slope_margin" := Num(slopeMargin),
             "zone" := Text(ClassifyZone(marginPct, slopeMargin))])
  }

  /** `compute_fragility` on the snapshot's entries; None when a conversion or a
      `.get` raises, before anything is written. */
  function Fragility(m: Obj, config: Obj, mode: string, engine: Obj -> real): (r: Option<Obj>)
    ensures r.Some? ==> r.value.Keys == m.Keys + {STATE_KEY}
    ensures r.Some? ==> forall k :: k in m && k != STATE_KEY ==> r.value[k] == m[k]
  {
    var pBase := FloatOr(m, "P_hit", 0.0);
    var thresholdPct := FloatOr(m, "threshold_pct", 75.0);
    if pBase.None? || thresholdPct.None? then None
    else
      var slope := SlopeMargin(m, config, mode, pBase.value, thresholdPct.value / 100.0, engine);
      if slope.None? then None
      else Some(m[STATE_KEY := FragilityState(MarginPct(pBase.value, thresholdPct.value), slope.value)])
  }

  /** The margin is the hit probability minus the threshold, both in percent. */
  lemma MarginInPercent(pBase: real, thresholdPct: real)
    ensures MarginPct(pBase, thresholdPct) == pBase * 100.0 - thresholdPct
  {
  }

  /** The stored record holds exactly margin_pct, slope_margin and zone, and the
      zone is EDGE exactly when P_hit is less than 1.5 points above the threshold
      (a missing or zero threshold_pct counting as 75). */
  lemma FragilityStateShape(m: Obj, config: Obj, mode: string, engine: Obj -> real)
    requires Fragility(m, config, mode, engine).Some?
    ensures var st := Fragility(m, config, mode, engine).value[STATE_KEY];
      var p := FloatOr(m, "P_hit", 0.0).value;
      var th := FloatOr(m, "threshold_pct", 75.0).value;
      st.Dict? && st.entries.Keys == {"margin_pct", "slope_margin", "zone"} &&
      st.entries["margin_pct"] == Num(p * 100.0 - th) &&
      (st.entries["zone"] == Text(EDGE) <==> p * 100.0 < th + 1.5)
  {
    var p := FloatOr(m, "P_hit", 0.0).value;
    var th := FloatOr(m, "threshold_pct", 75.0).value;
    MarginInPercent(p, th);
  }

  /** A missing or zero threshold_pct is read as 75. */
  lemma MissingThresholdIs75(m: Obj)
    requires "threshold_pct" !in m || m["threshold_pct"] == Num(0.0)
    ensures FloatOr(m, "threshold_pct", 75.0) == Some(75.0)
  {
  }

  /** In standard mode a stored smoothed gradient is used as the slope and the
      engine is not consulted. */
  lemma StandardPrefersStoredGradient(m: Obj, config: Obj, engine1: Obj -> real, engine2: Obj -> real, g: real)
    requires LIVE_KEY in m && m[LIVE_KEY].Dict?
    requires "wind_gradient_smoothed" in m[LIVE_KEY].entries
    requires m[LIVE_KEY].entries["wind_gradient_smoothed"] == Num(g)
    ensures Fragility(m, config, "standard", engine1) == Fragility(m, config, "standard", engine2)
    ensures Fragility(m, config, "standard", engine1).Some? ==>
      Fragility(m, config, "standard", engine1).value[STATE_KEY].entries["slope_margin"] == Num(g)
  {
    var pBase := FloatOr(m, "P_hit", 0.0);
    var thresholdPct := FloatOr(m, "threshold_pct", 75.0);
    if pBase.Some? && thresholdPct.Some? {
      assert SlopeMargin(m, config, "standard", pBase.value, thresholdPct.value / 100.0, engine1) == Some(g);
      assert SlopeMargin(m, config, "standard", pBase.value, thresholdPct.value / 100.0, engine2) == Some(g);
    }
  }

  /** Outside standard mode the slope is the stored wind gradient itself: the
      perturbed margin is rebuilt from it and differenced again. */
  lemma AdvancedSlopeIsStoredGradient(m: Obj, config: Obj, mode: string, engine: Obj -> real, g: real)
    requires mode != "standard"
    requires MATRIX_KEY in m && m[MATRIX_KEY].Dict? && "wind" in m[MATRIX_KEY].entries
    requires m[MATRIX_KEY].entries["wind"] == Num(g)
    requires FloatOr(m, "P_hit", 0.0).Some? && FloatOr(m, "threshold_pct", 75.0).Some?
    ensures SlopeMargin(m, config, mode, FloatOr(m, "P_hit", 0.0).value,
                        FloatOr(m, "threshold_pct", 75.0).value / 100.0, engine)
         == Some(g)
  {
    var p := FloatOr(m, "P_hit", 0.0).value;
    var t := FloatOr(m, "threshold_pct", 75.0).value / 100.0;
    if g != 0.0 {
      assert FloatOr(m[MATRIX_KEY].entries, "wind", 0.0) == Some(g);
    }
    SlopeRecoversGradient(p, g, t);
  }

  lemma SlopeRecoversGradient(p: real, g: real, t: real)
    ensures SlopeOf(p + g * 0.5 - t, p - t) == g
  {
  }

  /** `compute_fragility`: stores fragility_state in the snapshot; `raised`
      reports a failed conversion, in which case nothing is written. */
  method ComputeFragility(snapshot: DictObject, config: Obj, mode: string, engine: Obj -> real)
      returns (raised: bool)
    modifies snapshot
    ensures var r := Fragility(old(snapshot.entries), config, mode, engine);
      (raised <==> r.None?) &&
      (r.None? ==> snapshot.entries == old(snapshot.entries)) &&
      (r.Some? ==> snapshot.entries == r.value)
  {
    var pBase := FloatOr(snapshot.entries, "P_hit", 0.0);
    var thresholdPct := FloatOr(snapshot.entries, "threshold_pct", 75.0);
    if pBase.None? || thresholdPct.None? {
      return true;
    }
    var threshold := thresholdPct.value / 100.0;
    var marginPct := MarginPct(pBase.value, thresholdPct.value);
    var slope := SlopeMargin(snapshot.entries, config, mode, pBase.value, threshold, engine);
    if slope.None? {
      return true;
    }
    snapshot.entries := snapshot.entries[STATE_KEY := FragilityState(marginPct, slope.value)];
    raised := false;
  }
}
