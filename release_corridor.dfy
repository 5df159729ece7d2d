/** The release corridor: the stretch of release positions along x, around the
    current one, from which the hit probability still meets the threshold. */
module ReleaseCorridor {
  import opened Builtins
  import opened Sensitivity
  import opened Fragility

  const LIVE_CORRIDOR_KEY := "release_corridor_live"
  const MATRIX_CORRIDOR_KEY := "release_corridor_matrix"
  /** The default x of the UAV, `uav_pos[0]` of the mission defaults. */
  const DEFAULT_UAV_X: real := 0.0
  /** The scanned offsets in advanced mode: -5..5 metres. */
  const FIRST_OFFSET := -5
  const OFFSET_COUNT := 11

  /** The config of `_run_at_offset`: uav_x moved by dx on a copy without
      simulation_fidelity and uav_pos. */
  function OffsetConfig(config: Obj, x0: real, dx: real): (cfg: Obj)
    ensures cfg.Keys == config.Keys + {"uav_x"} - {FIDELITY_KEY, "uav_pos"}
    ensures cfg["uav_x"] == Num(x0 + dx)
    ensures forall k :: k in config && k !in {"uav_x", FIDELITY_KEY, "uav_pos"} ==> cfg[k] == config[k]
  {
    config["uav_x" := Num(x0 + dx)] - {FIDELITY_KEY, "uav_pos"}
  }

  /** `float(cfg.get("uav_x", uav_pos[0]))`, None when it raises. */
  function BaseX(config: Obj): Option<real> {
    Float(Get(config, "uav_x", Num(DEFAULT_UAV_X)))
  }

  function RunAtOffset(config: Obj, x0: real, dx: real, engine: Obj -> real): real {
    engine(OffsetConfig(config, x0, dx))
  }

  /** The threshold less half a percentage point of tolerance. */
  function EffectiveThreshold(thresholdPct: real): (t: real)
    ensures t == thresholdPct / 100.0 - 0.005
  {
    thresholdPct / 100.0 - 0.5 / 100.0
  }

  /** Standard-mode width from the runs one metre either side. */
  function StandardWidth(pMinus: real, pPlus: real, thresholdEff: real): (w: real)
    ensures w == 2.0 <==> pMinus >= thresholdEff && pPlus >= thresholdEff
    ensures w == 1.0 <==> (pMinus >= thresholdEff) != (pPlus >= thresholdEff)
    ensures w == 0.0 <==> pMinus < thresholdEff && pPlus < thresholdEff
  {
    var bothOk := pMinus >= thresholdEff && pPlus >= thresholdEff;
    var oneOk := pMinus >= thresholdEff || pPlus >= thresholdEff;
    if bothOk then 2.0 else if oneOk then 1.0 else 0.0
  }

  /** The pairs of `pHits` carry the consecutive offsets from `start`. */
  ghost predicate Consecutive(pHits: seq<(int, real)>, start: int) {
    forall i :: 0 <= i < |pHits| ==> pHits[i].0 == start + i
  }

  /** The (offset, P_hit) pairs of the advanced scan, in offset order. */
  function Scan(config: Obj, x0: real, engine: Obj -> real): (pHits: seq<(int, real)>)
    ensures |pHits| == OFFSET_COUNT
    ensures Consecutive(pHits, FIRST_OFFSET)
  {
    seq(OFFSET_COUNT, i => (FIRST_OFFSET + i, RunAtOffset(config, x0, (FIRST_OFFSET + i) as real, engine)))
  }

  /** The offsets whose probability meets the effective threshold, in order. */
  function PassingOffsets(pHits: seq<(int, real)>, thresholdEff: real): (offs: seq<int>)
    ensures |offs| <= |pHits|
  {
    if pHits == [] then []
    else
      var rest := PassingOffsets(pHits[1..], thresholdEff);
      if pHits[0].1 >= thresholdEff then [pHits[0].0] + rest else rest
  }

  /** Every offset that meets the threshold is listed. */
  lemma {:induction false} PassingComplete(pHits: seq<(int, real)>, thresholdEff: real, start: int, i: int)
    requires Consecutive(pHits, start)
    requires 0 <= i < |pHits| && pHits[i].1 >= thresholdEff
    ensures start + i in PassingOffsets(pHits, thresholdEff)
  {
    if i > 0 {
      var rest := pHits[1..];
      assert Consecutive(rest, start + 1) by {
        forall k | 0 <= k < |rest|
          ensures rest[k].0 == start + 1 + k
        {
          assert rest[k] == pHits[k + 1];
        }
      }
      assert rest[i - 1] == pHits[i];
      PassingComplete(rest, thresholdEff, start + 1, i - 1);
    }
  }

  /** Every listed offset is in range and meets the threshold. */
  lemma {:induction false} PassingSound(pHits: seq<(int, real)>, thresholdEff: real, start: int)
    requires Consecutive(pHits, start)
    ensures forall o :: o in PassingOffsets(pHits, thresholdEff) ==>
      start <= o < start + |pHits| && pHits[o - start].1 >= thresholdEff
  {
    if pHits != [] {
      var rest := pHits[1..];
      assert Consecutive(rest, start + 1) by {
        forall i | 0 <= i < |rest|
          ensures rest[i].0 == start + 1 + i
        {
          assert rest[i] == pHits[i + 1];
        }
      }
      PassingSound(rest, thresholdEff, start + 1);
      forall o | o in PassingOffsets(rest, thresholdEff)
        ensures pHits[o - start].1 >= thresholdEff
      {
        assert rest[o - (start + 1)] == pHits[o - start];
      }
    }
  }

  function MinOf(xs: seq<int>): (lo: int)
    requires xs != []
    ensures lo in xs && forall x :: x in xs ==> lo <= x
  {
    if |xs| == 1 then xs[0]
    else
      var rest := MinOf(xs[1..]);
      assert xs == [xs[0]] + xs[1..];
      if xs[0] <= rest then xs[0] else rest
  }

  function MaxOf(xs: seq<int>): (hi: int)
    requires xs != []
    ensures hi in xs && forall x :: x in xs ==> x <= hi
  {
    if |xs| == 1 then xs[0]
    else
      var rest := MaxOf(xs[1..]);
      assert xs == [xs[0]] + xs[1..];
      if xs[0] >= rest then xs[0] else rest
  }

  /** (min_offset_m, max_offset_m, corridor_width_m) of the passing offsets; all
      zero when none passes. */
  function CorridorBounds(offs: seq<int>): (b: (int, int, int))
    ensures offs == [] ==> b == (0, 0, 0)
    ensures offs != [] ==>
      b.0 in offs && b.1 in offs && (forall o :: o in offs ==> b.0 <= o <= b.1) && b.2 == b.1 - b.0
  {
    if offs == [] then (0, 0, 0) else (MinOf(offs), MaxOf(offs), MaxOf(offs) - MinOf(offs))
  }

  /** The width as stored: the text "<1.0" for a width strictly between zero
      and one step. */
  function WidthValue(width: real): Value {
    if width > 0.0 && width < 1.0 then Text("<1.0") else Num(width)
  }

  /** The standard-mode record: the width is always stored as a number. */
  function LiveCorridor(width: real, marginPct: real): (r: Value)
    ensures r.Dict? && r.entries.Keys == {"corridor_width_m", "margin_pct"}
    ensures r.entries["corridor_width_m"] == Num(width) && r.entries["margin_pct"] == Num(marginPct)
  {
    Dict(map["corridor_width_m" := Num(width), "margin_pct" := Num(marginPct)])
  }

  /** The advanced-mode record of whole-metre bounds: since a whole width is
      never strictly between 0 and 1, it is always stored as a number. */
  function MatrixCorridor(b: (int, int, int)): (r: Value)
    ensures r.Dict? && r.entries.Keys == {"min_offset_m", "max_offset_m", "corridor_width_m"}
    ensures r.entries["min_offset_m"] == Num(b.0 as real) && r.entries["max_offset_m"] == Num(b.1 as real)
    ensures r.entries["corridor_width_m"] == Num(b.2 as real)
  {
    assert b.2 > 0 ==> b.2 as real >= 1.0;
    Dict(map["min_offset_m" := Num(b.0 as real), "max_offset_m" := Num(b.1 as real),
             "corridor_width_m" := WidthValue(b.2 as real)])
  }

  /** `compute_release_corridor` on the snapshot's entries; None when a
      conversion raises, before anything is written. */
  function Corridor(m: Obj, config: Obj, mode: string, engine: Obj -> real): (r: Option<Obj>)
    ensures r.Some? && mode == "standard" ==> r.value.Keys == m.Keys + {LIVE_CORRIDOR_KEY}
    ensures r.Some? && mode == "advanced" ==> r.value.Keys == m.Keys + {MATRIX_CORRIDOR_KEY}
    ensures r.Some? && mode != "standard" && mode != "advanced" ==> r.value == m
  {
    var pBase := FloatOr(m, "P_hit", 0.0);
    var thresholdPct := FloatOr(m, "threshold_pct", 75.0);
    var nOrig := Int(Get(config, "n_samples", Num(1000.0)));
    if pBase.None? || thresholdPct.None? || nOrig.None? then None
    else
      var thresholdEff := EffectiveThreshold(thresholdPct.value);
      if mode == "standard" then
        var reduced := config["n_samples" := Num(PerturbedSamples(nOrig.value) as real)];
        var x0 := BaseX(reduced);
        if x0.None? then None
        else
          var pMinus := RunAtOffset(reduced, x0.value, -1.0, engine);
          var pPlus := RunAtOffset(reduced, x0.value, 1.0, engine);
          var width := StandardWidth(pMinus, pPlus, thresholdEff);
          Some(m[LIVE_CORRIDOR_KEY := LiveCorridor(width, MarginPct(pBase.value, thresholdPct.value))])
      else if mode == "advanced" then
        var x0 := BaseX(config);
        if x0.None? then None
        else
          var offs := PassingOffsets(Scan(config, x0.value, engine), thresholdEff);
          Some(m[MATRIX_CORRIDOR_KEY := MatrixCorridor(CorridorBounds(offs))])
      else Some(m)
  }

  /** Offsets are whole metres, so an advanced-mode width is 0 or at least one
      step: the "<1.0" text is never stored. */
  lemma WidthIsNeverFractional(offs: seq<int>)
    ensures var w := CorridorBounds(offs).2;
      w == 0 || w >= 1
    ensures MatrixCorridor(CorridorBounds(offs)).entries["corridor_width_m"].Num?
  {
    var w := CorridorBounds(offs).2;
    assert w >= 0;
    IntegerWidth(w);
  }

  lemma IntegerWidth(w: int)
    requires w >= 0
    ensures WidthValue(w as real) == Num(w as real)
  {
    if w > 0 {
      assert w as real >= 1.0;
    }
  }

  /** Standard mode evaluates one metre either side with the reduced sample
      count, on copies that no longer carry simulation_fidelity or uav_pos. */
  lemma StandardRunsOneMetreEitherSide(config: Obj, nOrig: int, x0: real)
    ensures var reduced := config["n_samples" := Num(PerturbedSamples(nOrig) as real)];
      var left, right := OffsetConfig(reduced, x0, -1.0), OffsetConfig(reduced, x0, 1.0);
      left["uav_x"] == Num(x0 - 1.0) && right["uav_x"] == Num(x0 + 1.0) &&
      left["n_samples"] == right["n_samples"] &&
      left["n_samples"].n >= MIN_PERTURBED_SAMPLES as real &&
      FIDELITY_KEY !in left && "uav_pos" !in right
  {
    var reduced := config["n_samples" := Num(PerturbedSamples(nOrig) as real)];
    assert "n_samples" !in {"uav_x", FIDELITY_KEY, "uav_pos"};
    assert "n_samples" in reduced;
  }

  /** On any scan result carrying the offsets -5..5 in order, the bounds are
      the range of the passing offsets: every passing offset lies inside,
      both ends pass, and with no passing offset everything is zero. */
  lemma PassingRange(pHits: seq<(int, real)>, thresholdEff: real)
    requires |pHits| == OFFSET_COUNT && Consecutive(pHits, FIRST_OFFSET)
    ensures var b := CorridorBounds(PassingOffsets(pHits, thresholdEff));
      (forall i :: 0 <= i < OFFSET_COUNT && pHits[i].1 >= thresholdEff ==> b.0 <= FIRST_OFFSET + i <= b.1) &&
      ((forall i :: 0 <= i < OFFSET_COUNT ==> pHits[i].1 < thresholdEff) ==> b == (0, 0, 0)) &&
      ((exists i :: 0 <= i < OFFSET_COUNT && pHits[i].1 >= thresholdEff) ==>
         -5 <= b.0 <= b.1 <= 5 && pHits[b.0 - FIRST_OFFSET].1 >= thresholdEff && pHits[b.1 - FIRST_OFFSET].1 >= thresholdEff)
  {
    var offs := PassingOffsets(pHits, thresholdEff);
    PassingSound(pHits, thresholdEff, FIRST_OFFSET);
    var b := CorridorBounds(offs);
    if offs != [] {
      var o := offs[0];
      assert o in offs;
      assert pHits[o - FIRST_OFFSET].1 >= thresholdEff;
      assert b.0 in offs && b.1 in offs;
      forall i | 0 <= i < OFFSET_COUNT && pHits[i].1 >= thresholdEff
        ensures b.0 <= FIRST_OFFSET + i <= b.1
      {
        PassingComplete(pHits, thresholdEff, FIRST_OFFSET, i);
      }
    } else {
      forall i | 0 <= i < OFFSET_COUNT
        ensures pHits[i].1 < thresholdEff
      {
        if pHits[i].1 >= thresholdEff {
          PassingComplete(pHits, thresholdEff, FIRST_OFFSET, i);
        }
      }
    }
  }

  /** The scan's entry for offset `o` is the run at that offset, so the
      ends of the corridor are positions whose own run passes. */
  lemma ScanEntry(config: Obj, x0: real, engine: Obj -> real, o: int)
    requires FIRST_OFFSET <= o < FIRST_OFFSET + OFFSET_COUNT
    ensures Scan(config, x0, engine)[o - FIRST_OFFSET].1 == RunAtOffset(config, x0, o as real, engine)
  {
  }

  /** The advanced scan: one run per offset, appended in order. */
  method ScanOffsets(config: Obj, x0: real, engine: Obj -> real) returns (pHits: seq<(int, real)>)
    ensures pHits == Scan(config, x0, engine)
  {
    pHits := [];
    var off := FIRST_OFFSET;
    while off <= 5
      invariant FIRST_OFFSET <= off <= 6
      invariant pHits == Scan(config, x0, engine)[..off - FIRST_OFFSET]
    {
      var p := RunAtOffset(config, x0, off as real, engine);
      pHits := pHits + [(off, p)];
      off := off + 1;
    }
  }

  /** `compute_release_corridor`: stores the corridor record of the mode in the
      snapshot; `raised` reports a failed conversion. */
  method ComputeReleaseCorridor(snapshot: DictObject, config: Obj, mode: string, engine: Obj -> real)
      returns (raised: bool)
    modifies snapshot
    ensures var r := Corridor(old(snapshot.entries), config, mode, engine);
      (raised <==> r.None?) &&
      (r.None? ==> snapshot.entries == old(snapshot.entries)) &&
      (r.Some? ==> snapshot.entries == r.value)
  {
    var pBase := FloatOr(snapshot.entries, "P_hit", 0.0);
    var thresholdPct := FloatOr(snapshot.entries, "threshold_pct", 75.0);
    var nOrig := Int(Get(config, "n_samples", Num(1000.0)));
    if pBase.None? || thresholdPct.None? || nOrig.None? {
      return true;
    }
    var thresholdEff := EffectiveThreshold(thresholdPct.value);
    if mode == "standard" {
      var reduced := config["n_samples" := Num(PerturbedSamples(nOrig.value) as real)];
      var x0 := BaseX(reduced);
      if x0.None? {
        return true;
      }
      var pMinus := RunAtOffset(reduced, x0.value, -1.0, engine);
      var pPlus := RunAtOffset(reduced, x0.value, 1.0, engine);
      var width := StandardWidth(pMinus, pPlus, thresholdEff);
      var marginPct := MarginPct(pBase.value, thresholdPct.value);
      snapshot.entries := snapshot.entries[LIVE_CORRIDOR_KEY := LiveCorridor(width, marginPct)];
      return false;
    } else if mode == "advanced" {
      var x0 := BaseX(config);
      if x0.None? {
        return true;
      }
      var pHits := ScanOffsets(config, x0.value, engine);
      var offs := PassingOffsets(pHits, thresholdEff);
      snapshot.entries := snapshot.entries[MATRIX_CORRIDOR_KEY := MatrixCorridor(CorridorBounds(offs))];
      return false;
    }
    raised := false;
  }
}
