/** One cycle of the continuous LIVE evaluation worker: merge the frozen
    telemetry into a copy of the frozen config, run the Monte Carlo engine,
    and turn its hit count into an EVALUATION packet decided by the doctrine
    on the Wilson interval. The engine is a parameter that returns None where
    the adapter raises; the clock reading is a parameter. */
module EvaluationWorker {
  import opened Builtins
  import opened Strings
  import opened DecisionLogic
  import opened Statistics
  import opened DecisionDoctrine
  import opened SnapshotValidation

  /** The eight config keys a non-empty telemetry frame overrides. */
  const TELEMETRY_KEYS: set<string> :=
    {"uav_x", "uav_y", "uav_altitude", "uav_vx", "uav_vy", "wind_x", "wind_y", "wind_std"}

  const DEFAULT_THRESHOLD_PCT := 75.0
  const TACTICAL := "TACTICAL"
  const HUMANITARIAN := "HUMANITARIAN"

  /** What one pass of the loop ends in: no packet (the engine raised and the
      loop retries), the thread dying on an exception, a packet emitted, or a
      case outside the model (a negative sample count, or `str()` of a number
      or container). */
  datatype CycleOutcome = Skipped | Crashed | OutOfModel | Emitted(packet: Obj)

  /** `float(telem.get(telemKey, override.get(key, d)))` */
  function TelemetryOr(telem: Obj, telemKey: string, override: Obj, key: string, d: real): (r: Option<real>)
    ensures telemKey in telem ==> r == Float(telem[telemKey])
    ensures telemKey !in telem && key !in override ==> r == Some(d)
  {
    Float(Get(telem, telemKey, Get(override, key, Num(d))))
  }

  /** One assignment of step 3, `override[key] = float(telem.get(telemKey,
      override.get(key, d)))`, with None once a conversion has raised. */
  function MergeField(override: Option<Obj>, telem: Obj, telemKey: string, key: string, d: real): (r: Option<Obj>)
    ensures override.None? ==> r.None?
    ensures r.Some? ==> override.Some? && r.value.Keys == override.value.Keys + {key}
    ensures r.Some? ==> (TelemetryOr(telem, telemKey, override.value, key, d).Some? &&
      r.value == override.value[key := Num(TelemetryOr(telem, telemKey, override.value, key, d).value)])
  {
    if override.None? then None
    else match TelemetryOr(telem, telemKey, override.value, key, d)
      case None => None
      case Some(v) => Some(override.value[key := Num(v)])
  }

  /** The config override of step 3: the config itself when the telemetry
      frame is empty, else the config with the eight telemetry keys replaced
      in turn; None where a `float()` conversion raises. */
  function Override(config: Obj, telem: Obj): (r: Option<Obj>)
    ensures telem == map[] ==> r == Some(config)
  {
    if telem == map[] then Some(config)
    else
      var o1 := MergeField(Some(config), telem, "x", "uav_x", 0.0);
      var o2 := MergeField(o1, telem, "y", "uav_y", 0.0);
      var o3 := MergeField(o2, telem, "z", "uav_altitude", 100.0);
      var o4 := MergeField(o3, telem, "vx", "uav_vx", 20.0);
      var o5 := MergeField(o4, telem, "vy", "uav_vy", 0.0);
      var o6 := MergeField(o5, telem, "wind_x", "wind_x", 2.0);
      var o7 := MergeField(o6, telem, "wind_y", "wind_y", 0.0);
      MergeField(o7, telem, "wind_std", "wind_std", 0.8)
  }

  /** One assignment `override[key] = float(...)` made in place; None where
      `float()` raises. */
  method AssignField(override: Obj, telem: Obj, telemKey: string, key: string, d: real)
    returns (r: Option<Obj>)
    ensures r == MergeField(Some(override), telem, telemKey, key, d)
  {
    var v := TelemetryOr(telem, telemKey, override, key, d);
    if v.None? { return None; }
    return Some(override[key := Num(v.value)]);
  }

  /** Step 3 as the loop body performs it: successive assignments into a
      copy, stopping at the first conversion that raises. */
  method BuildOverride(config: Obj, telem: Obj) returns (r: Option<Obj>)
    ensures r == Override(config, telem)
  {
    if telem == map[] { return Some(config); }
    r := AssignField(config, telem, "x", "uav_x", 0.0);
    if r.None? { return; }
    r := AssignField(r.value, telem, "y", "uav_y", 0.0);
    if r.None? { return; }
    r := AssignField(r.value, telem, "z", "uav_altitude", 100.0);
    if r.None? { return; }
    r := AssignField(r.value, telem, "vx", "uav_vx", 20.0);
    if r.None? { return; }
    r := AssignField(r.value, telem, "vy", "uav_vy", 0.0);
    if r.None? { return; }
    r := AssignField(r.value, telem, "wind_x", "wind_x", 2.0);
    if r.None? { return; }
    r := AssignField(r.value, telem, "wind_y", "wind_y", 0.0);
    if r.None? { return; }
    r := AssignField(r.value, telem, "wind_std", "wind_std", 0.8);
  }

  /** The estimated hit probability: hits / n for a positive sample count, else 0. */
  function HitFraction(hits: int, n: int): (p: real)
    ensures n <= 0 ==> p == 0.0
    ensures n > 0 && 0 <= hits <= n ==> 0.0 <= p <= 1.0
    ensures n > 0 ==> p * (n as real) == hits as real
  {
    if n > 0 then hits as real / n as real else 0.0
  }

  /** `mission_mode`: TACTICAL unless it normalises to TACTICAL or HUMANITARIAN. */
  function MissionMode(text: string): (m: string)
    ensures m == TACTICAL || m == HUMANITARIAN
    ensures Norm(text) == HUMANITARIAN <==> m == HUMANITARIAN
  {
    var mode := Norm(text);
    if mode == TACTICAL || mode == HUMANITARIAN then mode else TACTICAL
  }

  /** The packet keys that carry the decision and its inputs. */
  function DecisionFields(decision: string, pHit: real, ci: (real, real), n: int, thresholdPct: real,
                          doctrine: string, missionMode: string): (p: Obj)
    ensures REQUIRED_EVALUATION_KEYS <= p.Keys && p[SNAPSHOT_TYPE] == Text("EVALUATION")
    ensures {"p_hat", "threshold_pct", "doctrine_mode", "mission_mode"} <= p.Keys
    ensures p["decision"] == Text(decision) && p["P_hit"] == Num(pHit) && p["p_hat"] == Num(pHit)
    ensures p["ci_low"] == Num(ci.0) && p["ci_high"] == Num(ci.1) && p["n_samples"] == Num(n as real)
    ensures p["threshold_pct"] == Num(thresholdPct) && p["doctrine_mode"] == Text(doctrine)
    ensures p["mission_mode"] == Text(missionMode)
  {
    map[SNAPSHOT_TYPE := Text("EVALUATION"), "decision" := Text(decision), "P_hit" := Num(pHit),
        "ci_low" := Num(ci.0), "ci_high" := Num(ci.1), "n_samples" := Num(n as real),
        "threshold_pct" := Num(thresholdPct), "p_hat" := Num(pHit), "doctrine_mode" := Text(doctrine),
        "mission_mode" := Text(missionMode)]
  }

  /** The emitted packet: what the engine and the config reported, with the
      decision fields on top. */
  function Packet(telem: Obj, config: Obj, snapshot: Obj, now: real, hits: int, n: int, pHit: real,
                  cep50: real, thresholdPct: real, ci: (real, real), doctrine: string,
                  result: DoctrineResult, missionMode: string): (p: Obj)
    ensures var d := DecisionFields(result.decision, pHit, ci, n, thresholdPct, doctrine, missionMode);
      d.Keys <= p.Keys && forall k :: k in d ==> p[k] == d[k]
  {
    var description := if result.doctrineDescription != "" then result.doctrineDescription
                       else Describe(doctrine, doctrine);
    map["timestamp" := Num(now), "telemetry_snapshot" := Dict(telem),
        "impact_points" := Get(snapshot, "impact_points", List([])), "hits" := Num(hits as real),
        "cep50" := Num(cep50), "target_position" := Get(snapshot, "target_position", Null),
        "target_radius" := Get(snapshot, "target_radius", Null),
        "confidence_index" := Get(snapshot, "confidence_index", Null),
        "wind_vector" := Get(snapshot, "wind_vector", Null),
        "random_seed" := Get(config, "random_seed", Null),
        "decision_reason" := Text(result.reason), "doctrine_description" := Text(description)]
    + DecisionFields(result.decision, pHit, ci, n, thresholdPct, doctrine, missionMode)
  }

  /** What step 4 reads from the engine's result and the config before the
      interval is computed. */
  datatype Inputs = Inputs(hits: int, n: nat, cep50: real, thresholdPct: real, doctrine: string)

  /** The reads of step 4 in source order; Err carries how the cycle ends when
      one of them raises (or meets a case outside the model). */
  function ReadInputs(config: Obj, snapshot: Obj): (r: Result<Inputs, CycleOutcome>)
    ensures r.Err? ==> r.error == Crashed || r.error == OutOfModel
    ensures "hits" !in snapshot || "n_samples" !in snapshot ==> r == Err(Crashed)
    ensures r.Ok? ==> ("hits" in snapshot && "n_samples" in snapshot &&
      Int(snapshot["hits"]) == Some(r.value.hits) && Int(snapshot["n_samples"]) == Some(r.value.n) &&
      FloatOr(snapshot, "cep50", 0.0) == Some(r.value.cep50) &&
      Float(Get(config, "threshold_pct", Num(DEFAULT_THRESHOLD_PCT))) == Some(r.value.thresholdPct) &&
      Str(Get(config, "doctrine_mode", Text(BALANCED))).Some? &&
      r.value.doctrine == Norm(Str(Get(config, "doctrine_mode", Text(BALANCED))).value))
  {
    var hitsV := Get(snapshot, "hits", Null);
    var nV := Get(snapshot, "n_samples", Null);
    if hitsV.Null? || nV.Null? then Err(Crashed)
    else if Int(hitsV).None? || Int(nV).None? then Err(Crashed)
    else
      var hits, n := Int(hitsV).value, Int(nV).value;
      var cep50 := FloatOr(snapshot, "cep50", 0.0);
      var threshold := Float(Get(config, "threshold_pct", Num(DEFAULT_THRESHOLD_PCT)));
      var doctrineText := Str(Get(config, "doctrine_mode", Text(BALANCED)));
      if cep50.None? || threshold.None? then Err(Crashed)
      else if doctrineText.None? || n < 0 then Err(OutOfModel)
      else Ok(Inputs(hits, n, cep50.value, threshold.value, Norm(doctrineText.value)))
  }

  /** The Wilson interval of the counts at 95 %. */
  function Interval(inp: Inputs, sqrt: real -> real): (ci: (real, real))
    requires SqrtSpec(sqrt)
    ensures 0.0 <= ci.0 <= ci.1 <= 1.0
  {
    WilsonCi(inp.hits, inp.n, Z_95, sqrt)
  }

  /** The doctrine's verdict on the interval at threshold_pct / 100. */
  function Verdict(inp: Inputs, sqrt: real -> real): Result<DoctrineResult, string>
    requires SqrtSpec(sqrt)
  {
    var ci := Interval(inp, sqrt);
    EvaluateDoctrine(HitFraction(inp.hits, inp.n), ci.0, ci.1, inp.thresholdPct / 100.0, inp.doctrine, inp.n)
  }

  /** `str(config.get("mission_mode", "TACTICAL"))`; None stands for the
      text of a number, list or dict, which this model does not spell out. */
  function MissionText(config: Obj): (r: Option<string>)
    ensures "mission_mode" !in config ==> r == Some(TACTICAL)
    ensures "mission_mode" in config && config["mission_mode"].Text? ==> r == Some(config["mission_mode"].s)
    ensures r.None? <==> ("mission_mode" in config &&
      (config["mission_mode"].Num? || config["mission_mode"].List? || config["mission_mode"].Dict?))
  {
    Str(Get(config, "mission_mode", Text(TACTICAL)))
  }

  /** The packet's mission mode. The text of a number starts with a digit,
      a sign or "nan"/"inf", that of a list or dict with a bracket, so none
      of them normalises to HUMANITARIAN and each falls back to TACTICAL. */
  function PacketMission(config: Obj): (m: string)
    ensures m == TACTICAL || m == HUMANITARIAN
    ensures m == HUMANITARIAN <==> MissionText(config).Some? && Norm(MissionText(config).value) == HUMANITARIAN
  {
    if MissionText(config).Some? then MissionMode(MissionText(config).value) else TACTICAL
  }

  /** Steps 5 and 6: decide and build the packet. */
  function Decide(telem: Obj, config: Obj, snapshot: Obj, now: real, inp: Inputs,
                  sqrt: real -> real): (o: CycleOutcome)
    requires SqrtSpec(sqrt)
    ensures o.Emitted? <==> Verdict(inp, sqrt).Ok?
    ensures o.Emitted? || o == Crashed
    ensures o.Emitted? ==> "mission_mode" in o.packet && o.packet["mission_mode"] == Text(PacketMission(config))
  {
    var result := Verdict(inp, sqrt);
    if result.Err? then Crashed
    else Emitted(Packet(telem, config, snapshot, now, inp.hits, inp.n, HitFraction(inp.hits, inp.n),
                        inp.cep50, inp.thresholdPct, Interval(inp, sqrt), inp.doctrine, result.value,
                        PacketMission(config)))
  }

  /** Steps 4 to 6 once the engine has returned `snapshot`: the cycle emits
      exactly when every read succeeds and the doctrine gives a verdict. */
  function Evaluate(telem: Obj, config: Obj, snapshot: Obj, now: real, sqrt: real -> real): (o: CycleOutcome)
    requires SqrtSpec(sqrt)
    ensures o.Emitted? <==> ReadInputs(config, snapshot).Ok? && Verdict(ReadInputs(config, snapshot).value, sqrt).Ok?
    ensures o != Skipped
    ensures ("hits" !in snapshot || "n_samples" !in snapshot) ==> o == Crashed
  {
    match ReadInputs(config, snapshot)
    case Err(o) => o
    case Ok(inp) => Decide(telem, config, snapshot, now, inp, sqrt)
  }

  /** One pass of the loop: `simulate` is the adapter's `run_simulation_snapshot`.
      A failed override crashes the cycle, a missing snapshot skips it. */
  function Cycle(telem: Obj, config: Obj, simulate: Obj -> Option<Obj>, now: real,
                 sqrt: real -> real): (o: CycleOutcome)
    requires SqrtSpec(sqrt)
    ensures Override(config, telem).None? ==> o == Crashed
    ensures o == Skipped <==> Override(config, telem).Some? && simulate(Override(config, telem).value).None?
    ensures Override(config, telem).Some? && simulate(Override(config, telem).value).Some? ==>
      o == Evaluate(telem, config, simulate(Override(config, telem).value).value, now, sqrt)
  {
    match Override(config, telem)
    case None => Crashed
    case Some(override) =>
      match simulate(override)
      case None => Skipped
      case Some(snapshot) => Evaluate(telem, config, snapshot, now, sqrt)
  }

  /** One pass of `EvaluationWorker.run`'s loop. */
  method RunCycle(telem: Obj, config: Obj, simulate: Obj -> Option<Obj>, now: real,
                  sqrt: real -> real) returns (outcome: CycleOutcome)
    requires SqrtSpec(sqrt)
    ensures outcome == Cycle(telem, config, simulate, now, sqrt)
    ensures outcome.Emitted? ==> ValidateSnapshot(Some(outcome.packet)).None?
  {
    var override := BuildOverride(config, telem);
    if override.None? {
      return Crashed;
    }
    var snapshot := simulate(override.value);
    if snapshot.None? {
      // Skip the emit; the next cycle retries.
      return Skipped;
    }
    outcome := Evaluate(telem, config, snapshot.value, now, sqrt);
    if outcome.Emitted? {
      EmittedPacketValidates(telem, config, snapshot.value, now, sqrt);
    }
  }

  // ---------------------------------------------------------------------------
  // What the cycle promises.

  /** The eight merge steps of a non-empty frame, each succeeding when the override does. */
  lemma OverrideSteps(config: Obj, telem: Obj) returns (o1: Obj, o2: Obj, o3: Obj, o4: Obj, o5: Obj, o6: Obj, o7: Obj)
    requires telem != map[] && Override(config, telem).Some?
    ensures MergeField(Some(config), telem, "x", "uav_x", 0.0) == Some(o1)
    ensures MergeField(Some(o1), telem, "y", "uav_y", 0.0) == Some(o2)
    ensures MergeField(Some(o2), telem, "z", "uav_altitude", 100.0) == Some(o3)
    ensures MergeField(Some(o3), telem, "vx", "uav_vx", 20.0) == Some(o4)
    ensures MergeField(Some(o4), telem, "vy", "uav_vy", 0.0) == Some(o5)
    ensures MergeField(Some(o5), telem, "wind_x", "wind_x", 2.0) == Some(o6)
    ensures MergeField(Some(o6), telem, "wind_y", "wind_y", 0.0) == Some(o7)
    ensures MergeField(Some(o7), telem, "wind_std", "wind_std", 0.8) == Override(config, telem)
  {
    var r1 := MergeField(Some(config), telem, "x", "uav_x", 0.0);
    var r2 := MergeField(r1, telem, "y", "uav_y", 0.0);
    var r3 := MergeField(r2, telem, "z", "uav_altitude", 100.0);
    var r4 := MergeField(r3, telem, "vx", "uav_vx", 20.0);
    var r5 := MergeField(r4, telem, "vy", "uav_vy", 0.0);
    var r6 := MergeField(r5, telem, "wind_x", "wind_x", 2.0);
    var r7 := MergeField(r6, telem, "wind_y", "wind_y", 0.0);
    assert MergeField(r7, telem, "wind_std", "wind_std", 0.8) == Override(config, telem);
    o1, o2, o3, o4, o5, o6, o7 := r1.value, r2.value, r3.value, r4.value, r5.value, r6.value, r7.value;
  }

  /** With a non-empty frame, the override holds exactly the config's keys
      plus the eight telemetry keys. */
  lemma OverrideKeys(config: Obj, telem: Obj)
    requires telem != map[] && Override(config, telem).Some?
    ensures Override(config, telem).value.Keys == config.Keys + TELEMETRY_KEYS
  {
    var o1, o2, o3, o4, o5, o6, o7 := OverrideSteps(config, telem);
    assert Override(config, telem).value.Keys ==
      config.Keys + {"uav_x"} + {"uav_y"} + {"uav_altitude"} + {"uav_vx"} + {"uav_vy"} + {"wind_x"} +
      {"wind_y"} + {"wind_std"};
  }

  /** Every key outside the eight keeps the config's value. */
  lemma OverrideKeepsOtherKeys(config: Obj, telem: Obj)
    requires telem != map[] && Override(config, telem).Some?
    ensures forall k :: k in config && k !in TELEMETRY_KEYS ==> Override(config, telem).value[k] == config[k]
  {
    var o1, o2, o3, o4, o5, o6, o7 := OverrideSteps(config, telem);
  }

  /** An override key holds `float()` of the telemetry value, or of the
      config's value when the frame lacks it, or the default. */
  predicate MergedFrom(o: Obj, config: Obj, telem: Obj, telemKey: string, key: string, d: real) {
    key in o && o[key].Num? && TelemetryOr(telem, telemKey, config, key, d) == Some(o[key].n)
  }

  /** Each of the eight keys holds the value its assignment reads: an earlier
      assignment never touches the key a later one falls back to. */
  lemma OverrideValues(config: Obj, telem: Obj)
    requires telem != map[] && Override(config, telem).Some?
    ensures var o := Override(config, telem).value;
      MergedFrom(o, config, telem, "x", "uav_x", 0.0) && MergedFrom(o, config, telem, "y", "uav_y", 0.0) &&
      MergedFrom(o, config, telem, "z", "uav_altitude", 100.0) && MergedFrom(o, config, telem, "vx", "uav_vx", 20.0) &&
      MergedFrom(o, config, telem, "vy", "uav_vy", 0.0) && MergedFrom(o, config, telem, "wind_x", "wind_x", 2.0) &&
      MergedFrom(o, config, telem, "wind_y", "wind_y", 0.0) && MergedFrom(o, config, telem, "wind_std", "wind_std", 0.8)
  {
    var o1, o2, o3, o4, o5, o6, o7 := OverrideSteps(config, telem);
  }

  /** Each of the eight keys holds a number. */
  lemma OverrideTelemetryValuesAreNumbers(config: Obj, telem: Obj)
    requires telem != map[] && Override(config, telem).Some?
    ensures forall k :: k in TELEMETRY_KEYS ==> k in Override(config, telem).value && Override(config, telem).value[k].Num?
  {
    var o1, o2, o3, o4, o5, o6, o7 := OverrideSteps(config, telem);
    NumbersKept(o1, o2, "uav_y", {"uav_x"});
    NumbersKept(o2, o3, "uav_altitude", {"uav_x", "uav_y"});
    NumbersKept(o3, o4, "uav_vx", {"uav_x", "uav_y", "uav_altitude"});
    NumbersKept(o4, o5, "uav_vy", {"uav_x", "uav_y", "uav_altitude", "uav_vx"});
    NumbersKept(o5, o6, "wind_x", {"uav_x", "uav_y", "uav_altitude", "uav_vx", "uav_vy"});
    NumbersKept(o6, o7, "wind_y", {"uav_x", "uav_y", "uav_altitude", "uav_vx", "uav_vy", "wind_x"});
    NumbersKept(o7, Override(config, telem).value, "wind_std",
                {"uav_x", "uav_y", "uav_altitude", "uav_vx", "uav_vy", "wind_x", "wind_y"});
  }

  /** A merge step keeps the numbers already written and writes one more. */
  lemma NumbersKept(before: Obj, after: Obj, key: string, written: set<string>)
    requires forall k :: k in written ==> k in before && before[k].Num?
    requires key in after && after[key].Num? && after == before[key := after[key]]
    ensures forall k :: k in written + {key} ==> k in after && after[k].Num?
  {
  }

  /** An empty frame passes the config through unchanged. */
  lemma EmptyTelemetryKeepsConfig(config: Obj, telem: Obj, simulate: Obj -> Option<Obj>, now: real,
                                  sqrt: real -> real)
    requires SqrtSpec(sqrt) && telem == map[]
    ensures simulate(config).None? ==> Cycle(telem, config, simulate, now, sqrt) == Skipped
    ensures simulate(config).Some? ==>
      Cycle(telem, config, simulate, now, sqrt) == Evaluate(telem, config, simulate(config).value, now, sqrt)
  {
  }

  /** An engine exception produces no packet for the cycle. */
  lemma EngineFailureEmitsNothing(telem: Obj, config: Obj, simulate: Obj -> Option<Obj>, now: real,
                                  sqrt: real -> real)
    requires SqrtSpec(sqrt) && Override(config, telem).Some?
    requires simulate(Override(config, telem).value).None?
    ensures Cycle(telem, config, simulate, now, sqrt) == Skipped
  {
  }

  /** A result without hits or n_samples is an invariant violation that ends the thread. */
  lemma MissingCountsCrash(telem: Obj, config: Obj, snapshot: Obj, now: real, sqrt: real -> real)
    requires SqrtSpec(sqrt)
    requires "hits" !in snapshot || "n_samples" !in snapshot
    ensures Evaluate(telem, config, snapshot, now, sqrt) == Crashed
  {
  }

  /** Every emitted packet passes the EVALUATION contract of the snapshot validator. */
  lemma EmittedPacketValidates(telem: Obj, config: Obj, snapshot: Obj, now: real, sqrt: real -> real)
    requires SqrtSpec(sqrt)
    requires Evaluate(telem, config, snapshot, now, sqrt).Emitted?
    ensures ValidateSnapshot(Some(Evaluate(telem, config, snapshot, now, sqrt).packet)).None?
  {
    var p := Evaluate(telem, config, snapshot, now, sqrt).packet;
    assert REQUIRED_EVALUATION_KEYS <= p.Keys && p[SNAPSHOT_TYPE] == Text("EVALUATION");
    EvaluationPacketPasses(p);
  }

  lemma EvaluationPacketPasses(p: Obj)
    requires REQUIRED_EVALUATION_KEYS <= p.Keys && p[SNAPSHOT_TYPE] == Text("EVALUATION")
    ensures ValidateSnapshot(Some(p)).None?
  {
    assert TypeOf(p) == Text("EVALUATION");
  }

  /** For an emitted packet: P_hit is hits/n (0 for no samples) and equals
      p_hat, the decision is a label from the doctrine evaluated on the Wilson
      interval at threshold_pct/100, and the interval lies in [0, 1]. */
  lemma EmittedDecision(telem: Obj, config: Obj, snapshot: Obj, now: real, sqrt: real -> real)
    requires SqrtSpec(sqrt)
    requires Evaluate(telem, config, snapshot, now, sqrt).Emitted?
    ensures ReadInputs(config, snapshot).Ok?
    ensures var p := Evaluate(telem, config, snapshot, now, sqrt).packet;
      var inp := ReadInputs(config, snapshot).value;
      var ci := WilsonCi(inp.hits, inp.n, Z_95, sqrt);
      var verdict := EvaluateDoctrine(HitFraction(inp.hits, inp.n), ci.0, ci.1, inp.thresholdPct / 100.0,
                                      inp.doctrine, inp.n);
      p["P_hit"] == Num(HitFraction(inp.hits, inp.n)) && p["p_hat"] == p["P_hit"] &&
      p["ci_low"] == Num(ci.0) && p["ci_high"] == Num(ci.1) && 0.0 <= ci.0 <= ci.1 <= 1.0 &&
      verdict.Ok? && p["decision"] == Text(verdict.value.decision) && IsLabel(p["decision"].s) &&
      (p["mission_mode"] == Text(TACTICAL) || p["mission_mode"] == Text(HUMANITARIAN))
  {
    var inp := ReadInputs(config, snapshot).value;
    var o := Decide(telem, config, snapshot, now, inp, sqrt);
    assert Evaluate(telem, config, snapshot, now, sqrt) == o;
    var verdict := Verdict(inp, sqrt);
    var mission := PacketMission(config);
    var d := DecisionFields(verdict.value.decision, HitFraction(inp.hits, inp.n), Interval(inp, sqrt), inp.n,
                            inp.thresholdPct, inp.doctrine, mission);
    assert o.packet == Packet(telem, config, snapshot, now, inp.hits, inp.n, HitFraction(inp.hits, inp.n),
                              inp.cep50, inp.thresholdPct, Interval(inp, sqrt), inp.doctrine, verdict.value,
                              mission);
    assert forall k :: k in d ==> o.packet[k] == d[k];
  }

  /** Once the doctrine accepts and the mission mode is readable, the packet
      carries the doctrine's decision. */
  lemma DecidedPacket(telem: Obj, config: Obj, snapshot: Obj, now: real, inp: Inputs, sqrt: real -> real)
    requires SqrtSpec(sqrt)
    requires Verdict(inp, sqrt).Ok? && "mission_mode" !in config
    ensures Decide(telem, config, snapshot, now, inp, sqrt).Emitted?
    ensures Decide(telem, config, snapshot, now, inp, sqrt).packet["decision"] == Text(Verdict(inp, sqrt).value.decision)
  {
    assert MissionText(config) == Some(TACTICAL);
  }

  /** Missing config entries fall back to a 75 % threshold and the BALANCED doctrine. */
  lemma ConfigDefaults(config: Obj, snapshot: Obj)
    requires "threshold_pct" !in config && "doctrine_mode" !in config
    requires ReadInputs(config, snapshot).Ok?
    ensures ReadInputs(config, snapshot).value.thresholdPct == 75.0
    ensures ReadInputs(config, snapshot).value.doctrine == BALANCED
  {
    NormOfDoctrine(BALANCED);
  }

  /** At the default threshold the BALANCED doctrine decides by the raw
      75 % rule once there are enough samples. */
  lemma BalancedVerdict(i: Inputs, sqrt: real -> real)
    requires SqrtSpec(sqrt)
    requires i.thresholdPct == 75.0 && i.doctrine == BALANCED && i.n >= MIN_VALID_N
    ensures Verdict(i, sqrt).Ok?
    ensures Verdict(i, sqrt).value.decision == EvaluateDropDecision(HitFraction(i.hits, i.n), 0.75)
  {
    var ci := Interval(i, sqrt);
    BalancedAgreesWithRawRule(HitFraction(i.hits, i.n), ci.0, ci.1, 75.0 / 100.0, i.n);
  }

  /** With the default config and enough samples, the cycle drops exactly
      when the hit fraction reaches 75 %. */
  lemma DefaultConfigDropsAtSeventyFive(telem: Obj, config: Obj, snapshot: Obj, now: real,
                                        sqrt: real -> real)
    requires SqrtSpec(sqrt)
    requires "threshold_pct" !in config && "doctrine_mode" !in config && "mission_mode" !in config
    requires "hits" in snapshot && snapshot["hits"].Num? && "n_samples" in snapshot && snapshot["n_samples"].Num?
    requires "cep50" !in snapshot
    requires Trunc(snapshot["n_samples"].n) >= MIN_VALID_N
    ensures Evaluate(telem, config, snapshot, now, sqrt).Emitted?
    ensures var hits, n := Trunc(snapshot["hits"].n), Trunc(snapshot["n_samples"].n);
      Evaluate(telem, config, snapshot, now, sqrt).packet["decision"] ==
        Text(if HitFraction(hits, n) >= 0.75 then DROP else NO_DROP)
  {
    var inp := ReadInputs(config, snapshot);
    assert inp.Ok?;
    ConfigDefaults(config, snapshot);
    var i := inp.value;
    BalancedVerdict(i, sqrt);
    DecidedPacket(telem, config, snapshot, now, i, sqrt);
    assert Evaluate(telem, config, snapshot, now, sqrt) == Decide(telem, config, snapshot, now, i, sqrt);
  }
}
