/** Advisory guidance: the drop decision at the current UAV position and the
    trend of the hit probability at four nearby positions. The engine runs
    with the scenario written temporarily into the global config module,
    which is saved beforehand and restored afterwards. The engine (Monte
    Carlo run plus hit probability) and the CEP50 estimate are parameters. */
module AdvisoryLayer {
  import opened Builtins
  import opened Strings
  import opened DecisionLogic

  /** Position step for the nearby feasibility checks (m). */
  const ADVISORY_POSITION_DELTA_M := 5.0

  /** The config attributes saved before, and restored after, an engine run. */
  const ENGINE_INPUT_KEYS: seq<string> :=
    ["uav_pos", "uav_vel", "target_pos", "target_radius", "wind_mean", "wind_std", "mass", "A", "Cd"]

  const ENGINE_KEYS: set<string> := set k | k in ENGINE_INPUT_KEYS

  /** The engine keys written out. */
  lemma EngineKeysListed()
    ensures ENGINE_KEYS == {"uav_pos", "uav_vel", "target_pos", "target_radius", "wind_mean", "wind_std", "mass", "A", "Cd"}
  {
    assert ENGINE_INPUT_KEYS == ["uav_pos", "uav_vel", "target_pos", "target_radius", "wind_mean", "wind_std", "mass", "A", "Cd"];
  }

  /** The decision policies by name and their probability thresholds. */
  const MODE_THRESHOLDS: map<string, real> := map["Conservative" := 0.90, "Balanced" := 0.75, "Aggressive" := 0.60]

  const FORWARD := "forward (positive X)"
  const BACKWARD := "backward (negative X)"
  const RIGHT := "right (positive Y)"
  const LEFT := "left (negative Y)"

  const TREND_VARIES := "Feasibility varies with direction. Some nearby positions are better, some worse."
  const TREND_IMPROVES := "Feasibility improves at least in one direction from the current position."
  const TREND_DEGRADES := "Feasibility degrades in all sampled directions from the current position."
  const TREND_SIMILAR := "Feasibility is similar in all sampled directions; no strong trend."
  const NO_SUGGESTION :=
    "No strong directional recommendation from nearby samples; current position is among the best."

  /** The exceptions the advisory can end in. `BadPosition` stands for the
      KeyError, IndexError or TypeError of reading a malformed `uav_pos`;
      `EngineError` for anything the engine raises; `MissionIncomplete` for
      the ValueError of `MissionState.validate`. */
  datatype Error = ValueError | TypeError | KeyError | AttributeError | EngineError | MissionIncomplete | BadPosition

  /** What `_run_engine_for_inputs` returns. */
  datatype Run = Run(pHit: real, decision: string, cep50: real)

  /** The probabilities at the four neighbours. */
  datatype Samples = Samples(forward: real, backward: real, right: real, left: real)

  datatype AdvisoryResult = AdvisoryResult(
    currentFeasibility: string, currentPHit: real, currentCep50: real, trendSummary: string,
    suggestedDirection: string, improvementDirections: seq<string>, degradationDirections: seq<string>)

  /** What the model assumes of the engine: a probability whenever it returns. */
  ghost predicate HitSpec(engine: Obj -> Option<real>) {
    forall c: Obj {:trigger engine(c)} :: engine(c).Some? ==> 0.0 <= engine(c).value <= 1.0
  }

  lemma HitInRange(engine: Obj -> Option<real>, c: Obj, p: real)
    requires HitSpec(engine) && engine(c) == Some(p)
    ensures 0.0 <= p <= 1.0
  {
  }

  /** `_resolve_threshold`: a number (a bool counts as one) in [0, 1] as is,
      a mode name looked up after strip. */
  function ResolveThreshold(policy: Value): (r: Result<real, Error>)
    ensures r.Ok? ==> 0.0 <= r.value <= 1.0
    ensures policy.Num? ==> (r.Ok? <==> 0.0 <= policy.n <= 1.0)
    ensures policy.Num? && r.Ok? ==> r.value == policy.n
    ensures policy.Num? && r.Err? ==> r.error == ValueError
    ensures policy.Bool? ==> r == Ok(if policy.b then 1.0 else 0.0)
    ensures policy.Text? ==> (r.Ok? <==> Strip(policy.s) in MODE_THRESHOLDS)
    ensures policy.Text? && r.Ok? ==> r.value == MODE_THRESHOLDS[Strip(policy.s)]
    ensures policy.Text? && r.Err? ==> r.error == KeyError
    ensures !(policy.Num? || policy.Bool? || policy.Text?) ==> r == Err(TypeError)
  {
    match policy
    case Num(t) => if 0.0 <= t <= 1.0 then Ok(t) else Err(ValueError)
    case Bool(b) => Ok(if b then 1.0 else 0.0)
    case Text(s) => if Strip(s) in MODE_THRESHOLDS then Ok(MODE_THRESHOLDS[Strip(s)]) else Err(KeyError)
    case _ => Err(TypeError)
  }

  /** The saved values of the engine keys. */
  function Saved(attrs: Obj): (saved: Obj)
    requires ENGINE_KEYS <= attrs.Keys
    ensures saved.Keys == ENGINE_KEYS
    ensures forall k :: k in saved ==> saved[k] == attrs[k]
  {
    map k | k in ENGINE_KEYS :: attrs[k]
  }

  /** One engine run on the config attributes `attrs`: the outcome and the
      attributes afterwards. A missing engine key makes `getattr` raise
      before anything is written. */
  function EngineRun(attrs: Obj, inputs: Obj, threshold: real, engine: Obj -> Option<real>,
                     cep: Obj -> real): (out: (Result<Run, Error>, Obj))
    ensures !(ENGINE_KEYS <= attrs.Keys) ==> out == (Err(AttributeError), attrs)
    ensures out.0.Ok? ==> engine(attrs + inputs) == Some(out.0.value.pHit)
    ensures out.0.Ok? ==> "target_pos" in inputs && "target_radius" in inputs
    ensures out.0.Ok? ==> (out.0.value.decision == DROP <==> out.0.value.pHit >= threshold)
    ensures out.0.Ok? ==> IsLabel(out.0.value.decision)
    ensures out.0.Err? ==> out.0.error in {AttributeError, EngineError, KeyError}
  {
    if !(ENGINE_KEYS <= attrs.Keys) then (Err(AttributeError), attrs)
    else
      var applied := attrs + inputs;
      var restored := applied + Saved(attrs);
      match engine(applied)
      case None => (Err(EngineError), restored)
      case Some(p) =>
        if "target_pos" !in inputs || "target_radius" !in inputs then (Err(KeyError), restored)
        else (Ok(Run(p, EvaluateDropDecision(p, threshold), cep(applied))), restored)
  }

  /** Every engine key the config had before the run has its old value after
      it, whatever the outcome; every other key keeps its old value unless
      the inputs set it, in which case it keeps the input's value. */
  lemma {:induction false} RunRestoresConfig(attrs: Obj, inputs: Obj, threshold: real,
                                             engine: Obj -> Option<real>, cep: Obj -> real)
    ensures var after := EngineRun(attrs, inputs, threshold, engine, cep).1;
      (forall k :: k in attrs && k in ENGINE_KEYS ==> k in after && after[k] == attrs[k]) &&
      (forall k :: k in attrs && k !in inputs ==> k in after && after[k] == attrs[k]) &&
      (ENGINE_KEYS <= attrs.Keys ==> forall k :: k in inputs && k !in ENGINE_KEYS ==> k in after && after[k] == inputs[k])
  {
    if ENGINE_KEYS <= attrs.Keys {
      var after := EngineRun(attrs, inputs, threshold, engine, cep).1;
      assert after == attrs + inputs + Saved(attrs);
    }
  }

  /** When the inputs set only engine keys, the config ends as it started. */
  lemma {:induction false} RunLeavesConfigUnchanged(attrs: Obj, inputs: Obj, threshold: real,
                                                    engine: Obj -> Option<real>, cep: Obj -> real)
    requires inputs.Keys <= ENGINE_KEYS
    ensures EngineRun(attrs, inputs, threshold, engine, cep).1 == attrs
  {
    if ENGINE_KEYS <= attrs.Keys {
      var after := EngineRun(attrs, inputs, threshold, engine, cep).1;
      assert after == attrs + inputs + Saved(attrs);
      assert after.Keys == attrs.Keys;
      forall k | k in after
        ensures after[k] == attrs[k]
      {
        if k in ENGINE_KEYS {
          assert after[k] == Saved(attrs)[k];
        }
      }
    }
  }

  /** The global `configs.mission_configs` module that the engine reads. */
  class ConfigModule {
    var attrs: Obj

    constructor (initial: Obj)
      ensures attrs == initial
    {
      attrs := initial;
    }

    /** `for key, value in items.items(): setattr(cfg, key, value)` */
    method SetAll(items: Obj)
      modifies this
      ensures attrs == old(attrs) + items
    {
      var todo := items.Keys;
      while todo != {}
        invariant todo <= items.Keys
        invariant attrs == old(attrs) + map k | k in items.Keys - todo :: items[k]
        decreases todo
      {
        var key :| key in todo;
        ghost var done := map k | k in items.Keys - todo :: items[k];
        attrs := attrs[key := items[key]];
        todo := todo - {key};
        assert (map k | k in items.Keys - todo :: items[k]) == done[key := items[key]];
      }
      assert (map k | k in items.Keys - todo :: items[k]) == items;
    }
  }

  /** `_run_engine_for_inputs`: save the engine keys, write the inputs, run,
      and restore the saved keys on every exit. */
  method RunEngineForInputs(cfg: ConfigModule, inputs: Obj, threshold: real,
                            engine: Obj -> Option<real>, cep: Obj -> real) returns (r: Result<Run, Error>)
    modifies cfg
    ensures (r, cfg.attrs) == EngineRun(old(cfg.attrs), inputs, threshold, engine, cep)
  {
    var saved: Obj := map[];
    var i := 0;
    while i < |ENGINE_INPUT_KEYS|
      invariant 0 <= i <= |ENGINE_INPUT_KEYS|
      invariant cfg.attrs == old(cfg.attrs)
      invariant forall k :: k in saved <==> k in ENGINE_INPUT_KEYS[..i]
      invariant forall k :: k in saved ==> k in cfg.attrs && saved[k] == cfg.attrs[k]
    {
      var key := ENGINE_INPUT_KEYS[i];
      if key !in cfg.attrs {
        cfg.SetAll(saved);
        assert cfg.attrs == old(cfg.attrs);
        return Err(AttributeError);
      }
      saved := saved[key := cfg.attrs[key]];
      i := i + 1;
    }
    assert ENGINE_INPUT_KEYS[..i] == ENGINE_INPUT_KEYS;
    assert saved == Saved(old(cfg.attrs));
    cfg.SetAll(inputs);
    var applied := cfg.attrs;
    var p := engine(applied);
    if p.None? {
      r := Err(EngineError);
    } else if "target_pos" !in inputs || "target_radius" !in inputs {
      r := Err(KeyError);
    } else {
      r := Ok(Run(p.value, EvaluateDropDecision(p.value, threshold), cep(applied)));
    }
    cfg.SetAll(saved);
  }

  /** What `evaluate_advisory` settles before any engine run. */
  datatype Setup = Setup(threshold: real, delta: real, base: Obj, x: real, y: real, z: real)

  /** `float(position_delta_m)`, with None meaning the 5 m default. */
  function Delta(positionDelta: Value): (r: Result<real, Error>)
    ensures positionDelta.Null? ==> r == Ok(ADVISORY_POSITION_DELTA_M)
    ensures positionDelta.Num? ==> (r.Ok? <==> positionDelta.n > 0.0)
    ensures positionDelta.Num? && r.Ok? ==> r.value == positionDelta.n
    ensures r.Ok? ==> r.value > 0.0
  {
    match Float(if positionDelta.Null? then Num(ADVISORY_POSITION_DELTA_M) else positionDelta)
    case None => if positionDelta.Text? then Err(ValueError) else Err(TypeError)
    case Some(d) => if d <= 0.0 then Err(ValueError) else Ok(d)
  }

  /** The threshold, the step, the exported engine inputs (None where
      `validate` raised) and the UAV position they carry, in source order. */
  function Prepare(policy: Value, positionDelta: Value, exported: Option<Obj>): (r: Result<Setup, Error>)
    ensures ResolveThreshold(policy).Err? ==> r == Err(ResolveThreshold(policy).error)
    ensures ResolveThreshold(policy).Ok? && Delta(positionDelta).Err? ==> r == Err(Delta(positionDelta).error)
    ensures r.Ok? ==> exported.Some? && r.value.base == exported.value && "uav_pos" in r.value.base
    ensures r.Ok? ==> r.value.threshold == ResolveThreshold(policy).value && r.value.delta == Delta(positionDelta).value
    ensures r.Ok? ==> (exported.value["uav_pos"].List? && |exported.value["uav_pos"].items| >= 3 &&
      exported.value["uav_pos"].items[..3] == [Num(r.value.x), Num(r.value.y), Num(r.value.z)])
  {
    match ResolveThreshold(policy)
    case Err(e) => Err(e)
    case Ok(t) =>
      match Delta(positionDelta)
      case Err(e) => Err(e)
      case Ok(d) =>
        if exported.None? then Err(MissionIncomplete)
        else
          var base := exported.value;
          if "uav_pos" !in base || !base["uav_pos"].List? || |base["uav_pos"].items| < 3 then Err(BadPosition)
          else
            var p := base["uav_pos"].items;
            if !(p[0].Num? && p[1].Num? && p[2].Num?) then Err(BadPosition)
            else Ok(Setup(t, d, base, p[0].n, p[1].n, p[2].n))
  }

  /** The inputs with the UAV moved to (x, y, z). */
  function MovedTo(base: Obj, x: real, y: real, z: real): (r: Obj)
    ensures r.Keys == base.Keys + {"uav_pos"} && r["uav_pos"] == List([Num(x), Num(y), Num(z)])
    ensures forall k :: k in base && k != "uav_pos" ==> r[k] == base[k]
  {
    base["uav_pos" := List([Num(x), Num(y), Num(z)])]
  }

  /** The four neighbour scenarios, forward, backward, right and left: each
      moves the UAV by the step along one horizontal axis and keeps its height. */
  function Neighbours(s: Setup): (r: seq<Obj>)
    ensures |r| == 4
    ensures r[0] == MovedTo(s.base, s.x + s.delta, s.y, s.z) && r[1] == MovedTo(s.base, s.x - s.delta, s.y, s.z)
    ensures r[2] == MovedTo(s.base, s.x, s.y + s.delta, s.z) && r[3] == MovedTo(s.base, s.x, s.y - s.delta, s.z)
  {
    [MovedTo(s.base, s.x + s.delta, s.y, s.z), MovedTo(s.base, s.x - s.delta, s.y, s.z),
     MovedTo(s.base, s.x, s.y + s.delta, s.z), MovedTo(s.base, s.x, s.y - s.delta, s.z)]
  }

  /** A neighbour lies exactly one step away in the horizontal plane, at the same height. */
  lemma NeighboursAreOneStepAway(s: Setup, i: int)
    requires 0 <= i < 4
    ensures var q := Neighbours(s)[i]["uav_pos"].items;
      |q| == 3 && q[2] == Num(s.z) &&
      ((q[0] == Num(s.x) && (q[1] == Num(s.y + s.delta) || q[1] == Num(s.y - s.delta))) ||
       (q[1] == Num(s.y) && (q[0] == Num(s.x + s.delta) || q[0] == Num(s.x - s.delta))))
  {
  }

  /** The four neighbour runs in source order, threading the config through
      them; the first run that raises ends the advisory. */
  function NeighbourRuns(attrs: Obj, s: Setup, engine: Obj -> Option<real>, cep: Obj -> real): (out: (Result<Samples, Error>, Obj))
  {
    var n := Neighbours(s);
    var (f, a1) := EngineRun(attrs, n[0], s.threshold, engine, cep);
    if f.Err? then (Err(f.error), a1) else
    var (b, a2) := EngineRun(a1, n[1], s.threshold, engine, cep);
    if b.Err? then (Err(b.error), a2) else
    var (rt, a3) := EngineRun(a2, n[2], s.threshold, engine, cep);
    if rt.Err? then (Err(rt.error), a3) else
    var (l, a4) := EngineRun(a3, n[3], s.threshold, engine, cep);
    if l.Err? then (Err(l.error), a4) else
    (Ok(Samples(f.value.pHit, b.value.pHit, rt.value.pHit, l.value.pHit)), a4)
  }

  /** The run at the current position, then the four neighbour runs. */
  function Sample(attrs: Obj, s: Setup, engine: Obj -> Option<real>, cep: Obj -> real): (out: (Result<(Run, Samples), Error>, Obj))
    ensures out.0.Ok? ==> EngineRun(attrs, s.base, s.threshold, engine, cep).0 == Ok(out.0.value.0)
  {
    var (c, a0) := EngineRun(attrs, s.base, s.threshold, engine, cep);
    if c.Err? then (Err(c.error), a0) else
    var (samples, after) := NeighbourRuns(a0, s, engine, cep);
    if samples.Err? then (Err(samples.error), after) else
    (Ok((c.value, samples.value)), after)
  }

  predicate SomeBetter(current: real, s: Samples) {
    s.forward > current || s.backward > current || s.right > current || s.left > current
  }

  predicate SomeWorse(current: real, s: Samples) {
    s.forward < current || s.backward < current || s.right < current || s.left < current
  }

  /** The trend from the best and the worst neighbour. */
  function Trend(current: real, s: Samples): (t: string)
    ensures t == TREND_VARIES <==> SomeBetter(current, s) && SomeWorse(current, s)
    ensures t == TREND_IMPROVES <==> SomeBetter(current, s) && !SomeWorse(current, s)
    ensures t == TREND_DEGRADES <==> !SomeBetter(current, s) && SomeWorse(current, s)
    ensures t == TREND_SIMILAR <==> !SomeBetter(current, s) && !SomeWorse(current, s)
  {
    var best := Max(Max(s.forward, s.backward), Max(s.right, s.left));
    var worst := Min(Min(s.forward, s.backward), Min(s.right, s.left));
    if best > current && worst < current then TREND_VARIES
    else if best > current then TREND_IMPROVES
    else if worst < current then TREND_DEGRADES
    else TREND_SIMILAR
  }

  /** The position of a direction in the order the source lists them. */
  function Rank(d: string): int {
    if d == FORWARD then 0 else if d == BACKWARD then 1 else if d == RIGHT then 2 else if d == LEFT then 3 else 4
  }

  /** `[name]` when the probability `p` is above (`better`) or below the current one. */
  function Pick(name: string, p: real, current: real, better: bool): (r: seq<string>)
    ensures r == [name] || r == []
    ensures r == [name] <==> (if better then p > current else p < current)
  {
    if (if better then p > current else p < current) then [name] else []
  }

  /** The directions, in source order, whose probability is above (`better`)
      or below the current one. */
  function Directions(current: real, s: Samples, better: bool): (r: seq<string>)
    ensures FORWARD in r <==> (if better then s.forward > current else s.forward < current)
    ensures BACKWARD in r <==> (if better then s.backward > current else s.backward < current)
    ensures RIGHT in r <==> (if better then s.right > current else s.right < current)
    ensures LEFT in r <==> (if better then s.left > current else s.left < current)
    ensures forall d :: d in r ==> d in {FORWARD, BACKWARD, RIGHT, LEFT}
    ensures forall i, j :: 0 <= i < j < |r| ==> Rank(r[i]) < Rank(r[j])
  {
    Pick(FORWARD, s.forward, current, better) + Pick(BACKWARD, s.backward, current, better) +
    Pick(RIGHT, s.right, current, better) + Pick(LEFT, s.left, current, better)
  }

  /** `suggested_direction`. */
  function Suggestion(improvements: seq<string>): (r: string)
    ensures improvements == [] ==> r == NO_SUGGESTION
    ensures improvements != [] ==> StartsWith(r, "Consider moving ")
  {
    if improvements != [] then "Consider moving " + Join(improvements, " or ") + " for higher hit probability."
    else NO_SUGGESTION
  }

  /** The advisory built from the current run and the four samples. */
  function Summarise(current: Run, s: Samples): (a: AdvisoryResult)
    ensures a.currentFeasibility == current.decision && a.currentPHit == current.pHit && a.currentCep50 == current.cep50
  {
    var better := Directions(current.pHit, s, true);
    AdvisoryResult(current.decision, current.pHit, current.cep50, Trend(current.pHit, s),
                   Suggestion(better), better, Directions(current.pHit, s, false))
  }

  /** `evaluate_advisory` on the config attributes `attrs`: the result and the
      attributes afterwards. */
  function Advisory(attrs: Obj, exported: Option<Obj>, policy: Value, positionDelta: Value,
                    engine: Obj -> Option<real>, cep: Obj -> real): (out: (Result<AdvisoryResult, Error>, Obj))
    ensures Prepare(policy, positionDelta, exported).Err? ==> out.1 == attrs && out.0.Err?
  {
    match Prepare(policy, positionDelta, exported)
    case Err(e) => (Err(e), attrs)
    case Ok(s) =>
      var (sampled, after) := Sample(attrs, s, engine, cep);
      match sampled
      case Err(e) => (Err(e), after)
      case Ok(runs) => (Ok(Summarise(runs.0, runs.1)), after)
  }

  /** `evaluate_advisory`: five engine runs, then the trend and the direction
      lists built by appending in source order. */
  method EvaluateAdvisory(cfg: ConfigModule, exported: Option<Obj>, policy: Value, positionDelta: Value,
                          engine: Obj -> Option<real>, cep: Obj -> real) returns (r: Result<AdvisoryResult, Error>)
    modifies cfg
    ensures (r, cfg.attrs) == Advisory(old(cfg.attrs), exported, policy, positionDelta, engine, cep)
  {
    var prepared := Prepare(policy, positionDelta, exported);
    if prepared.Err? {
      return Err(prepared.error);
    }
    var s := prepared.value;
    var n := Neighbours(s);
    var current := RunEngineForInputs(cfg, s.base, s.threshold, engine, cep);
    if current.Err? {
      return Err(current.error);
    }
    var forward := RunEngineForInputs(cfg, n[0], s.threshold, engine, cep);
    if forward.Err? {
      return Err(forward.error);
    }
    var backward := RunEngineForInputs(cfg, n[1], s.threshold, engine, cep);
    if backward.Err? {
      return Err(backward.error);
    }
    var right := RunEngineForInputs(cfg, n[2], s.threshold, engine, cep);
    if right.Err? {
      return Err(right.error);
    }
    var left := RunEngineForInputs(cfg, n[3], s.threshold, engine, cep);
    if left.Err? {
      return Err(left.error);
    }
    var samples := Samples(forward.value.pHit, backward.value.pHit, right.value.pHit, left.value.pHit);
    var improvements, degradations := SortDirections(current.value.pHit, samples);
    r := Ok(AdvisoryResult(current.value.decision, current.value.pHit, current.value.cep50,
                           Trend(current.value.pHit, samples), Suggestion(improvements), improvements, degradations));
  }

  /** One comparison of `evaluate_advisory`: the direction is appended to
      the improvements when better, else to the degradations when worse. */
  method Compare(name: string, p: real, current: real, improvements: seq<string>, degradations: seq<string>)
    returns (improved: seq<string>, degraded: seq<string>)
    ensures improved == improvements + Pick(name, p, current, true)
    ensures degraded == degradations + Pick(name, p, current, false)
  {
    improved, degraded := improvements, degradations;
    if p > current {
      improved := improved + [name];
    } else if p < current {
      degraded := degraded + [name];
    }
  }

  /** The four comparisons of `evaluate_advisory`, forward, backward, right
      and left. */
  method SortDirections(current: real, s: Samples) returns (improvements: seq<string>, degradations: seq<string>)
    ensures improvements == Directions(current, s, true)
    ensures degradations == Directions(current, s, false)
  {
    improvements, degradations := Compare(FORWARD, s.forward, current, [], []);
    improvements, degradations := Compare(BACKWARD, s.backward, current, improvements, degradations);
    improvements, degradations := Compare(RIGHT, s.right, current, improvements, degradations);
    improvements, degradations := Compare(LEFT, s.left, current, improvements, degradations);
    assert [] + Pick(FORWARD, s.forward, current, true) == Pick(FORWARD, s.forward, current, true);
    assert [] + Pick(FORWARD, s.forward, current, false) == Pick(FORWARD, s.forward, current, false);
  }

  /** No direction is both an improvement and a degradation. */
  lemma DirectionsExclusive(current: real, s: Samples, d: string)
    ensures !(d in Directions(current, s, true) && d in Directions(current, s, false))
  {
  }

  /** The trend summary agrees with the two direction lists. */
  lemma TrendAgreesWithDirections(current: real, s: Samples)
    ensures var imp, deg := Directions(current, s, true), Directions(current, s, false);
      (Trend(current, s) == TREND_VARIES <==> imp != [] && deg != []) &&
      (Trend(current, s) == TREND_IMPROVES <==> imp != [] && deg == []) &&
      (Trend(current, s) == TREND_DEGRADES <==> imp == [] && deg != []) &&
      (Trend(current, s) == TREND_SIMILAR <==> imp == [] && deg == [])
  {
    var imp, deg := Directions(current, s, true), Directions(current, s, false);
    assert imp != [] <==> SomeBetter(current, s) by {
      if imp != [] {
        assert imp[0] in {FORWARD, BACKWARD, RIGHT, LEFT};
      }
    }
    assert deg != [] <==> SomeWorse(current, s) by {
      if deg != [] {
        assert deg[0] in {FORWARD, BACKWARD, RIGHT, LEFT};
      }
    }
  }

  /** When the exported inputs hold only engine keys, as `export_engine_inputs`
      produces, the advisory leaves the config module as it found it. */
  lemma {:induction false} AdvisoryRestoresConfig(attrs: Obj, exported: Option<Obj>, policy: Value,
                                                  positionDelta: Value, engine: Obj -> Option<real>, cep: Obj -> real)
    requires exported.Some? ==> exported.value.Keys <= ENGINE_KEYS
    ensures Advisory(attrs, exported, policy, positionDelta, engine, cep).1 == attrs
  {
    var prepared := Prepare(policy, positionDelta, exported);
    if prepared.Ok? {
      var s := prepared.value;
      var n := Neighbours(s);
      assert "uav_pos" in ENGINE_KEYS by { assert ENGINE_INPUT_KEYS[0] == "uav_pos"; }
      RunLeavesConfigUnchanged(attrs, s.base, s.threshold, engine, cep);
      RunLeavesConfigUnchanged(attrs, n[0], s.threshold, engine, cep);
      RunLeavesConfigUnchanged(attrs, n[1], s.threshold, engine, cep);
      RunLeavesConfigUnchanged(attrs, n[2], s.threshold, engine, cep);
      RunLeavesConfigUnchanged(attrs, n[3], s.threshold, engine, cep);
    }
  }

  /** A completed advisory reports the engine's probability at the current
      position and the raw threshold rule's decision on it. */
  lemma CurrentFeasibility(attrs: Obj, exported: Option<Obj>, policy: Value, positionDelta: Value,
                           engine: Obj -> Option<real>, cep: Obj -> real)
    requires HitSpec(engine)
    requires Advisory(attrs, exported, policy, positionDelta, engine, cep).0.Ok?
    ensures var a := Advisory(attrs, exported, policy, positionDelta, engine, cep).0.value;
      exported.Some? && engine(attrs + exported.value) == Some(a.currentPHit) &&
      0.0 <= a.currentPHit <= 1.0 &&
      (a.currentFeasibility == DROP <==> a.currentPHit >= ResolveThreshold(policy).value)
  {
    var prepared := Prepare(policy, positionDelta, exported);
    assert prepared.Ok?;
    var s := prepared.value;
    var sampled := Sample(attrs, s, engine, cep);
    assert sampled.0.Ok?;
    var run := sampled.0.value.0;
    assert Advisory(attrs, exported, policy, positionDelta, engine, cep).0 == Ok(Summarise(run, sampled.0.value.1));
    var ran := EngineRun(attrs, s.base, s.threshold, engine, cep);
    assert ran.0 == Ok(run);
    assert engine(attrs + exported.value) == Some(run.pHit);
    var a := Summarise(run, sampled.0.value.1);
    assert a.currentPHit == run.pHit && a.currentFeasibility == run.decision;
    HitInRange(engine, attrs + exported.value, run.pHit);
    assert s.threshold == ResolveThreshold(policy).value;
    assert run.decision == DROP <==> run.pHit >= s.threshold;
  }
}
