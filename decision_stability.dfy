/** Decision hysteresis, robustness qualification and the stability index, and
    the in-place enrichment of an EVALUATION snapshot with all three. */
module DecisionStability {
  import opened Builtins
  import opened Strings
  import opened DecisionLogic
  import opened DecisionDoctrine

  const HYSTERESIS_MARGIN_PCT: real := 1.0
  /** The smallest interval width the stability index divides by. */
  const EPSILON: real := 0.000001

  const UNKNOWN := "UNKNOWN"
  const ROBUST := "ROBUST"
  const UNSAFE := "UNSAFE"
  const FRAGILE := "FRAGILE"
  const NUMERICAL_LIMIT := "NUMERICAL_LIMIT"

  /** `(previous_decision or "").strip().upper()` */
  function PreviousLabel(previousDecision: Option<string>): string {
    match previousDecision
    case None => ""
    case Some(s) => Norm(s)
  }

  /** Hysteresis band half-width as a fraction. */
  function HysteresisFraction(): real {
    HYSTERESIS_MARGIN_PCT / 100.0
  }

  /** `apply_decision_hysteresis`: a previous DROP is kept down to one percentage
      point below the threshold and a previous NO DROP up to one point above it;
      otherwise the caller's raw label stands, or the threshold rule when the raw
      text is not a label. */
  function ApplyDecisionHysteresis(rawDecision: string, pHit: real, thresholdPct: real,
                                   previousDecision: Option<string>): (d: string)
    ensures IsLabel(d)
    ensures PreviousLabel(previousDecision) == DROP && pHit >= thresholdPct / 100.0 - 0.01 ==> d == DROP
    ensures PreviousLabel(previousDecision) == NO_DROP && pHit <= thresholdPct / 100.0 + 0.01 ==> d == NO_DROP
    ensures !(PreviousLabel(previousDecision) == DROP && pHit >= thresholdPct / 100.0 - 0.01) &&
            !(PreviousLabel(previousDecision) == NO_DROP && pHit <= thresholdPct / 100.0 + 0.01) ==>
            d == (if IsLabel(rawDecision) then rawDecision else EvaluateDropDecision(pHit, thresholdPct / 100.0))
  {
    Hysteresis(rawDecision, pHit, thresholdPct, PreviousLabel(previousDecision))
  }

  /** The hysteresis rule for an already normalised previous label. */
  function Hysteresis(rawDecision: string, pHit: real, thresholdPct: real, prev: string): (d: string)
    ensures IsLabel(d)
  {
    var thFrac := thresholdPct / 100.0;
    var hystFrac := HysteresisFraction();
    if prev == DROP && pHit >= thFrac - hystFrac then DROP
    else if prev == NO_DROP && pHit <= thFrac + hystFrac then NO_DROP
    else if IsLabel(rawDecision) then rawDecision
    else if pHit >= thFrac then DROP
    else NO_DROP
  }

  /** Inside the band around the threshold the previous label always wins. */
  lemma HysteresisHoldsInsideBand(rawDecision: string, pHit: real, thresholdPct: real,
                                  previousDecision: Option<string>)
    requires IsLabel(PreviousLabel(previousDecision))
    requires thresholdPct / 100.0 - 0.01 <= pHit <= thresholdPct / 100.0 + 0.01
    ensures ApplyDecisionHysteresis(rawDecision, pHit, thresholdPct, previousDecision)
         == PreviousLabel(previousDecision)
  {
  }

  /** When the raw label follows the threshold rule, hysteresis overrides it only
      inside the band, and only to keep the previous label. */
  lemma HysteresisOverridesOnlyInsideBand(pHit: real, thresholdPct: real, previousDecision: Option<string>)
    ensures
      var raw := EvaluateDropDecision(pHit, thresholdPct / 100.0);
      var d := ApplyDecisionHysteresis(raw, pHit, thresholdPct, previousDecision);
      d != raw ==> d == PreviousLabel(previousDecision) &&
                   thresholdPct / 100.0 - 0.01 <= pHit <= thresholdPct / 100.0 + 0.01
  {
  }

  /** `compute_robustness_status`: the threshold (a percentage) against the interval. */
  function ComputeRobustnessStatus(ciLow: Option<real>, ciHigh: Option<real>, thresholdPct: real): (s: string)
    ensures s == UNKNOWN <==> ciLow.None? || ciHigh.None?
    ensures s == ROBUST <==> ciLow.Some? && ciHigh.Some? && ciLow.value > thresholdPct / 100.0
    ensures s == UNSAFE <==> ciLow.Some? && ciHigh.Some? && ciLow.value <= thresholdPct / 100.0
                             && ciHigh.value < thresholdPct / 100.0
    ensures s == FRAGILE <==> ciLow.Some? && ciHigh.Some? &&
                              ciLow.value <= thresholdPct / 100.0 <= ciHigh.value
  {
    if ciLow.None? || ciHigh.None? then UNKNOWN
    else
      var th := thresholdPct / 100.0;
      if ciLow.value > th then ROBUST
      else if ciHigh.value < th then UNSAFE
      else FRAGILE
  }

  /** A ROBUST interval drops even under the STRICT doctrine, and an UNSAFE one
      is refused even under the AGGRESSIVE doctrine (given enough samples). */
  lemma RobustnessAgreesWithDoctrines(pHat: real, ciLow: real, ciHigh: real, thresholdPct: real, nSamples: int)
    requires nSamples >= MIN_VALID_N
    ensures ComputeRobustnessStatus(Some(ciLow), Some(ciHigh), thresholdPct) == ROBUST ==>
      EvaluateDoctrine(pHat, ciLow, ciHigh, thresholdPct / 100.0, STRICT, nSamples) ==
      Ok(DoctrineResult(DROP, DropReason(STRICT, true), DOCTRINE_DESCRIPTIONS[STRICT]))
    ensures ComputeRobustnessStatus(Some(ciLow), Some(ciHigh), thresholdPct) == UNSAFE ==>
      EvaluateDoctrine(pHat, ciLow, ciHigh, thresholdPct / 100.0, AGGRESSIVE, nSamples) ==
      Ok(DoctrineResult(NO_DROP, DropReason(AGGRESSIVE, false), DOCTRINE_DESCRIPTIONS[AGGRESSIVE]))
  {
    NormOfDoctrine(STRICT);
    NormOfDoctrine(AGGRESSIVE);
  }

  /** The interval width used by the index: zero unless both bounds are present
      and the upper one exceeds the lower one. */
  function CiWidth(ciLow: Option<real>, ciHigh: Option<real>): (w: real)
    ensures w >= 0.0
    ensures w > 0.0 <==> ciLow.Some? && ciHigh.Some? && ciHigh.value > ciLow.value
    ensures w > 0.0 ==> w == ciHigh.value - ciLow.value
  {
    if ciLow.Some? && ciHigh.Some? && ciHigh.value > ciLow.value then ciHigh.value - ciLow.value else 0.0
  }

  /** `compute_stability_index`: distance from the threshold in units of the
      interval width (at least EPSILON), capped at 100. */
  function ComputeStabilityIndex(pHit: real, thresholdPct: real, ciLow: Option<real>, ciHigh: Option<real>): (si: real)
    ensures 0.0 <= si <= 100.0
    ensures si == 0.0 <==> pHit == thresholdPct / 100.0
  {
    var dist := Abs(pHit - thresholdPct / 100.0);
    var denom := Max(CiWidth(ciLow, ciHigh), EPSILON);
    QuotientSign(dist, denom);
    Min(dist / denom, 100.0)
  }

  lemma QuotientSign(x: real, d: real)
    requires x >= 0.0 && d > 0.0
    ensures x / d >= 0.0
    ensures x / d == 0.0 <==> x == 0.0
  {
  }

  lemma QuotientMonotone(x1: real, x2: real, d: real)
    requires 0.0 <= x1 <= x2 && d > 0.0
    ensures x1 / d <= x2 / d
  {
    assert x2 / d - x1 / d == (x2 - x1) / d;
  }

  lemma QuotientAntitone(x: real, d1: real, d2: real)
    requires 0.0 <= x && 0.0 < d1 <= d2
    ensures x / d2 <= x / d1
  {
    var a, b := x / d1, x / d2;
    assert a * d1 == x;
    assert b * d2 == x;
    assert b >= 0.0;
    assert b * d1 <= b * d2;
    assert b * d1 <= a * d1;
  }

  /** For the same interval, a hit probability further from the threshold is
      never less stable. */
  lemma StabilityGrowsWithDistance(p1: real, p2: real, thresholdPct: real, ciLow: Option<real>, ciHigh: Option<real>)
    requires Abs(p1 - thresholdPct / 100.0) <= Abs(p2 - thresholdPct / 100.0)
    ensures ComputeStabilityIndex(p1, thresholdPct, ciLow, ciHigh) <= ComputeStabilityIndex(p2, thresholdPct, ciLow, ciHigh)
  {
    QuotientMonotone(Abs(p1 - thresholdPct / 100.0), Abs(p2 - thresholdPct / 100.0),
                     Max(CiWidth(ciLow, ciHigh), EPSILON));
  }

  /** For the same estimate, a wider interval never gives a more stable index. */
  lemma StabilityShrinksWithWidth(pHit: real, thresholdPct: real, lo1: real, hi1: real, lo2: real, hi2: real)
    requires hi1 - lo1 <= hi2 - lo2
    ensures ComputeStabilityIndex(pHit, thresholdPct, Some(lo2), Some(hi2))
         <= ComputeStabilityIndex(pHit, thresholdPct, Some(lo1), Some(hi1))
  {
    QuotientAntitone(Abs(pHit - thresholdPct / 100.0),
                     Max(CiWidth(Some(lo1), Some(hi1)), EPSILON), Max(CiWidth(Some(lo2), Some(hi2)), EPSILON));
  }

  // ---------------------------------------------------------------------
  // In-place enrichment of an EVALUATION snapshot

  const DECISION_KEY := "decision"
  const ROBUSTNESS_KEY := "robustness_status"
  const STABILITY_KEY := "stability_index"

  /** Why enrichment raised: `float()` of P_hit or threshold_pct failed, or
      `ci_high > ci_low` or the `ci_high - ci_low` after it raised. */
  datatype EnrichError = PHitNotNumeric | ThresholdNotNumeric | BoundsNotComparable

  /** The snapshot after the call, and the exception if one escaped. A raise
      from the bound comparison leaves the decision already written. */
  datatype EnrichOutcome = EnrichOutcome(snapshot: Obj, error: Option<EnrichError>)

  /** An interval bound as read with `snapshot.get(key)`: None, a number (or
      bool), or any other value. */
  datatype Bound = Absent | Number(x: real) | Other(v: Value)

  function ReadBound(m: Obj, key: string): (b: Bound)
    ensures key !in m ==> b == Absent
    ensures b.Other? ==> key in m && b.v == m[key] && Float(m[key]).None? && !m[key].Null?
  {
    match Get(m, key, Null)
    case Null => Absent
    case Num(x) => Number(x)
    case Bool(flag) => Number(if flag then 1.0 else 0.0)
    case v => Other(v)
  }

  /** The bound as the Python value it was read from. */
  function BoundValue(b: Bound): Value {
    match b
    case Absent => Null
    case Number(x) => Num(x)
    case Other(v) => v
  }

  function AsOption(b: Bound): Option<real> {
    if b.Number? then Some(b.x) else None
  }

  /** `str(snapshot.get("decision", "NO DROP")).strip().upper()`; the text of a
      non-string value is never one of the two labels, so it is taken as "". */
  function RawDecisionText(m: Obj): string {
    match Get(m, DECISION_KEY, Text(NO_DROP))
    case Text(s) => Norm(s)
    case _ => ""
  }

  /** The decision written back: the stored label, or the threshold rule when
      the stored text is not a label, passed through hysteresis. */
  function FinalDecision(m: Obj, pHit: real, th: real, previousDecision: Option<string>): (d: string)
    ensures IsLabel(d)
  {
    var raw := RawDecisionText(m);
    var raw' := if IsLabel(raw) then raw else if pHit * 100.0 >= th then DROP else NO_DROP;
    ApplyDecisionHysteresis(raw', pHit, th, previousDecision)
  }

  /** The robustness status written back: NUMERICAL_LIMIT for a degenerate
      interval, which leaves no case for UNKNOWN. */
  function EnrichedRobustness(ciLow: Option<real>, ciHigh: Option<real>, th: real): (s: string)
    ensures s != UNKNOWN
    ensures s == NUMERICAL_LIMIT <==> CiWidth(ciLow, ciHigh) < EPSILON
  {
    if CiWidth(ciLow, ciHigh) < EPSILON then NUMERICAL_LIMIT
    else ComputeRobustnessStatus(ciLow, ciHigh, th)
  }

  /** Whether the width computation raises: both bounds are present and
      either `ci_high > ci_low` raises (a number against a string, two dicts)
      or it holds between bounds that are not both numbers, so that the
      subtraction raises. Two strings or two lists with `ci_high` not the
      greater compare without error and leave the width 0. */
  predicate BoundsClash(lo: Bound, hi: Bound) {
    lo != Absent && hi != Absent &&
    var greater := Greater(BoundValue(hi), BoundValue(lo));
    greater.None? || (greater == Some(true) && !(lo.Number? && hi.Number?))
  }

  /** The writes made once P_hit and threshold_pct have been converted. */
  function EnrichConverted(m: Obj, pHit: real, th: real, previousDecision: Option<string>): (r: EnrichOutcome)
    ensures r.error.None? || r.error == Some(BoundsNotComparable)
    ensures r.error == Some(BoundsNotComparable) <==> BoundsClash(ReadBound(m, "ci_low"), ReadBound(m, "ci_high"))
    ensures DECISION_KEY in r.snapshot && r.snapshot[DECISION_KEY] == Text(FinalDecision(m, pHit, th, previousDecision))
    ensures r.error.None? ==>
      ROBUSTNESS_KEY in r.snapshot && STABILITY_KEY in r.snapshot &&
      r.snapshot[ROBUSTNESS_KEY] == Text(EnrichedRobustness(AsOption(ReadBound(m, "ci_low")), AsOption(ReadBound(m, "ci_high")), th)) &&
      r.snapshot[STABILITY_KEY] == Num(ComputeStabilityIndex(pHit, th, AsOption(ReadBound(m, "ci_low")), AsOption(ReadBound(m, "ci_high"))))
    ensures forall k :: k in m && k != DECISION_KEY && k != ROBUSTNESS_KEY && k != STABILITY_KEY
              ==> k in r.snapshot && r.snapshot[k] == m[k]
    ensures r.error.None? ==> r.snapshot.Keys == m.Keys + {DECISION_KEY, ROBUSTNESS_KEY, STABILITY_KEY}
    ensures r.error.Some? ==> r.snapshot.Keys == m.Keys + {DECISION_KEY}
  {
    KeysAreDistinct();
    var lo, hi := ReadBound(m, "ci_low"), ReadBound(m, "ci_high");
    var m1 := m[DECISION_KEY := Text(FinalDecision(m, pHit, th, previousDecision))];
    if BoundsClash(lo, hi) then EnrichOutcome(m1, Some(BoundsNotComparable))
    else
      var ciLow, ciHigh := AsOption(lo), AsOption(hi);
      var m2 := m1[ROBUSTNESS_KEY := Text(EnrichedRobustness(ciLow, ciHigh, th))];
      EnrichOutcome(m2[STABILITY_KEY := Num(ComputeStabilityIndex(pHit, th, ciLow, ciHigh))], None)
  }

  lemma KeysAreDistinct()
    ensures DECISION_KEY != ROBUSTNESS_KEY && DECISION_KEY != STABILITY_KEY && ROBUSTNESS_KEY != STABILITY_KEY
  {
    assert |DECISION_KEY| == 8 && |ROBUSTNESS_KEY| == 17 && |STABILITY_KEY| == 15;
  }

  function PHitOf(m: Obj): Option<real> {
    Float(Or(Get(m, "P_hit", Num(0.0)), Num(0.0)))
  }

  function ThresholdOf(m: Obj): Option<real> {
    Float(Get(m, "threshold_pct", Num(75.0)))
  }

  /** `enrich_evaluation_snapshot` on the snapshot's entries. */
  function Enrich(m: Obj, previousDecision: Option<string>): (r: EnrichOutcome)
    ensures PHitOf(m).None? ==> r == EnrichOutcome(m, Some(PHitNotNumeric))
    ensures PHitOf(m).Some? && ThresholdOf(m).None? ==> r == EnrichOutcome(m, Some(ThresholdNotNumeric))
    ensures r.error.None? <==>
      PHitOf(m).Some? && ThresholdOf(m).Some? && !BoundsClash(ReadBound(m, "ci_low"), ReadBound(m, "ci_high"))
    ensures r.error.None? ==> r.snapshot.Keys == m.Keys + {DECISION_KEY, ROBUSTNESS_KEY, STABILITY_KEY}
  {
    if PHitOf(m).None? then EnrichOutcome(m, Some(PHitNotNumeric))
    else if ThresholdOf(m).None? then EnrichOutcome(m, Some(ThresholdNotNumeric))
    else EnrichConverted(m, PHitOf(m).value, ThresholdOf(m).value, previousDecision)
  }

  /** Enrichment writes only decision, robustness_status and stability_index;
      the numeric conversions raise before anything is written, and a raise from
      the bound comparison leaves only the decision written. */
  lemma EnrichTouchesOnlyItsKeys(m: Obj, previousDecision: Option<string>)
    ensures var r := Enrich(m, previousDecision);
      (forall k :: k in m && k != DECISION_KEY && k != ROBUSTNESS_KEY && k != STABILITY_KEY
                   ==> k in r.snapshot && r.snapshot[k] == m[k]) &&
      (r.error.None? ==> r.snapshot.Keys == m.Keys + {DECISION_KEY, ROBUSTNESS_KEY, STABILITY_KEY}) &&
      (r.error == Some(PHitNotNumeric) || r.error == Some(ThresholdNotNumeric) ==> r.snapshot == m) &&
      (r.error == Some(BoundsNotComparable) ==> r.snapshot.Keys == m.Keys + {DECISION_KEY})
  {
  }

  /** A completed enrichment stores a label, a status other than UNKNOWN (which
      is NUMERICAL_LIMIT exactly when the interval is narrower than EPSILON) and
      an index in [0, 100]. */
  lemma EnrichResultShape(m: Obj, previousDecision: Option<string>)
    ensures var r := Enrich(m, previousDecision);
      r.error != Some(PHitNotNumeric) && r.error != Some(ThresholdNotNumeric) ==>
        r.snapshot[DECISION_KEY].Text? && IsLabel(r.snapshot[DECISION_KEY].s)
    ensures var r := Enrich(m, previousDecision);
      r.error.None? ==>
        r.snapshot[ROBUSTNESS_KEY].Text? && r.snapshot[ROBUSTNESS_KEY].s != UNKNOWN &&
        (r.snapshot[ROBUSTNESS_KEY].s == NUMERICAL_LIMIT <==>
           CiWidth(AsOption(ReadBound(m, "ci_low")), AsOption(ReadBound(m, "ci_high"))) < EPSILON) &&
        r.snapshot[STABILITY_KEY].Num? && 0.0 <= r.snapshot[STABILITY_KEY].n <= 100.0
  {
    if PHitOf(m).Some? && ThresholdOf(m).Some? {
      var p, th := PHitOf(m).value, ThresholdOf(m).value;
      assert Enrich(m, previousDecision) == EnrichConverted(m, p, th, previousDecision);
    }
  }

  /** String bounds: the enrichment raises (after writing the decision)
      exactly when `ci_high` is the greater string, since strings do not
      subtract; otherwise the comparison is false, the width 0, the status
      NUMERICAL_LIMIT and the index that of a zero-width interval. */
  lemma TextBounds(m: Obj, previousDecision: Option<string>, lo: string, hi: string)
    requires PHitOf(m).Some? && ThresholdOf(m).Some?
    requires "ci_low" in m && m["ci_low"] == Text(lo) && "ci_high" in m && m["ci_high"] == Text(hi)
    ensures Enrich(m, previousDecision).error.Some? <==> TextGreater(hi, lo)
    ensures TextGreater(hi, lo) ==> Enrich(m, previousDecision).snapshot.Keys == m.Keys + {DECISION_KEY}
    ensures !TextGreater(hi, lo) ==>
      Enrich(m, previousDecision).snapshot[ROBUSTNESS_KEY] == Text(NUMERICAL_LIMIT) &&
      Enrich(m, previousDecision).snapshot[STABILITY_KEY] == Num(ComputeStabilityIndex(PHitOf(m).value, ThresholdOf(m).value, None, None))
  {
    assert Enrich(m, previousDecision) == EnrichConverted(m, PHitOf(m).value, ThresholdOf(m).value, previousDecision);
    assert ReadBound(m, "ci_low") == Other(Text(lo)) && ReadBound(m, "ci_high") == Other(Text(hi));
  }

  /** Equal string bounds, as in `ci_low = ci_high = "a"`, never raise. */
  lemma EqualTextBoundsComplete(m: Obj, previousDecision: Option<string>, s: string)
    requires PHitOf(m).Some? && ThresholdOf(m).Some?
    requires "ci_low" in m && m["ci_low"] == Text(s) && "ci_high" in m && m["ci_high"] == Text(s)
    ensures Enrich(m, previousDecision).error.None?
    ensures Enrich(m, previousDecision).snapshot[ROBUSTNESS_KEY] == Text(NUMERICAL_LIMIT)
  {
    TextGreaterIrreflexive(s);
    TextBounds(m, previousDecision, s, s);
  }

  /** A number against a string raises at the comparison. */
  lemma MixedBoundsRaise(m: Obj, previousDecision: Option<string>, lo: real, hi: string)
    requires PHitOf(m).Some? && ThresholdOf(m).Some?
    requires "ci_low" in m && m["ci_low"] == Num(lo) && "ci_high" in m && m["ci_high"] == Text(hi)
    ensures Enrich(m, previousDecision).error == Some(BoundsNotComparable)
  {
    assert Enrich(m, previousDecision) == EnrichConverted(m, PHitOf(m).value, ThresholdOf(m).value, previousDecision);
    assert ReadBound(m, "ci_high") == Other(Text(hi));
  }

  /** A stored decision that already follows the threshold rule (after
      strip/upper) is written back unchanged unless the hit probability lies
      inside the hysteresis band. */
  lemma EnrichKeepsConsistentDecisionOutsideBand(m: Obj, previousDecision: Option<string>, p: real, th: real)
    requires PHitOf(m) == Some(p) && ThresholdOf(m) == Some(th)
    requires !(th / 100.0 - 0.01 <= p <= th / 100.0 + 0.01)
    requires RawDecisionText(m) == EvaluateDropDecision(p, th / 100.0)
    ensures Enrich(m, previousDecision).snapshot[DECISION_KEY] == Text(EvaluateDropDecision(p, th / 100.0))
  {
    var raw := EvaluateDropDecision(p, th / 100.0);
    HysteresisKeepsRawOutsideBand(raw, p, th, PreviousLabel(previousDecision));
    assert FinalDecision(m, p, th, previousDecision) == raw;
    assert Enrich(m, previousDecision) == EnrichConverted(m, p, th, previousDecision);
  }

  lemma HysteresisKeepsRawOutsideBand(raw: string, p: real, th: real, prev: string)
    requires raw == EvaluateDropDecision(p, th / 100.0)
    requires !(th / 100.0 - 0.01 <= p <= th / 100.0 + 0.01)
    ensures Hysteresis(raw, p, th, prev) == raw
  {
  }

  /** `enrich_evaluation_snapshot`: updates the snapshot in place and returns it. */
  method EnrichEvaluationSnapshot(snapshot: DictObject, previousDecision: Option<string>)
      returns (result: DictObject, error: Option<EnrichError>)
    modifies snapshot
    ensures result == snapshot
    ensures snapshot.entries == Enrich(old(snapshot.entries), previousDecision).snapshot
    ensures error == Enrich(old(snapshot.entries), previousDecision).error
  {
    result := snapshot;
    var m := snapshot.entries;
    var pHit := PHitOf(m);
    if pHit.None? {
      return result, Some(PHitNotNumeric);
    }
    var th := ThresholdOf(m);
    if th.None? {
      return result, Some(ThresholdNotNumeric);
    }
    var lo := ReadBound(m, "ci_low");
    var hi := ReadBound(m, "ci_high");
    var final := FinalDecision(m, pHit.value, th.value, previousDecision);
    snapshot.entries := snapshot.entries[DECISION_KEY := Text(final)];

    if BoundsClash(lo, hi) {
      return result, Some(BoundsNotComparable);
    }
    var ciLow, ciHigh := AsOption(lo), AsOption(hi);
    var ciWidth := 0.0;
    if ciLow.Some? && ciHigh.Some? && ciHigh.value > ciLow.value {
      ciWidth := ciHigh.value - ciLow.value;
    }
    if ciWidth < EPSILON {
      snapshot.entries := snapshot.entries[ROBUSTNESS_KEY := Text(NUMERICAL_LIMIT)];
    } else {
      snapshot.entries := snapshot.entries[ROBUSTNESS_KEY := Text(ComputeRobustnessStatus(ciLow, ciHigh, th.value))];
    }
    assert CiWidth(ciLow, ciHigh) == ciWidth;
    snapshot.entries := snapshot.entries[STABILITY_KEY := Num(ComputeStabilityIndex(pHit.value, th.value, ciLow, ciHigh))];
    error := None;
  }
}
