/** Operator-selectable doctrines that decide DROP / NO DROP from the Wilson
    interval of the hit probability. */
module DecisionDoctrine {
  import opened Builtins
  import opened Strings
  import opened DecisionLogic

  const STRICT := "STRICT"
  const BALANCED := "BALANCED"
  const AGGRESSIVE := "AGGRESSIVE"

  const DOCTRINE_DESCRIPTIONS: map<string, string> := map[
    STRICT := "Drop only if lower confidence bound exceeds threshold.",
    BALANCED := "Drop based on estimated hit probability.",
    AGGRESSIVE := "Drop if upper confidence bound exceeds threshold."
  ]

  /** Fewer samples than this never support a drop. */
  const MIN_VALID_N := 30

  const INSUFFICIENT_SAMPLES := "Insufficient statistical sample size."

  datatype DoctrineResult = DoctrineResult(decision: string, reason: string, doctrineDescription: string)

  predicate IsDoctrine(d: string) {
    d == STRICT || d == BALANCED || d == AGGRESSIVE
  }

  /** `DOCTRINE_DESCRIPTIONS.get(key, fallback)` */
  function Describe(key: string, fallback: string): (s: string)
    ensures key in DOCTRINE_DESCRIPTIONS ==> s == DOCTRINE_DESCRIPTIONS[key]
    ensures key !in DOCTRINE_DESCRIPTIONS ==> s == fallback
  {
    if key in DOCTRINE_DESCRIPTIONS then DOCTRINE_DESCRIPTIONS[key] else fallback
  }

  /** The bound a doctrine compares with the threshold. */
  function DoctrineStatistic(doctrine: string, pHat: real, ciLow: real, ciHigh: real): real
    requires IsDoctrine(doctrine)
  {
    if doctrine == STRICT then ciLow
    else if doctrine == BALANCED then pHat
    else ciHigh
  }

  function DropReason(doctrine: string, drop: bool): string
    requires IsDoctrine(doctrine)
  {
    if doctrine == STRICT then
      (if drop then "Lower CI bound exceeds threshold." else "Lower CI bound below threshold.")
    else if doctrine == BALANCED then
      (if drop then "Estimated hit probability exceeds threshold." else "Estimated hit probability below threshold.")
    else
      (if drop then "Upper CI bound exceeds threshold." else "Upper CI bound below threshold.")
  }

  /** `evaluate_doctrine`: Err carries the ValueError message for an unknown doctrine. */
  function EvaluateDoctrine(pHat: real, ciLow: real, ciHigh: real, threshold: real,
                            doctrine: string, nSamples: int): (r: Result<DoctrineResult, string>)
    // The sample-size guard comes first and uses the doctrine as given.
    ensures nSamples < MIN_VALID_N ==>
      r == Ok(DoctrineResult(NO_DROP, INSUFFICIENT_SAMPLES, Describe(doctrine, doctrine)))
    // Otherwise only the three doctrines, after strip/upper, are accepted.
    ensures nSamples >= MIN_VALID_N ==> (r.Err? <==> !IsDoctrine(Norm(doctrine)))
    ensures r.Err? ==> r.error == "Unknown doctrine: " + doctrine
    ensures r.Ok? ==> IsLabel(r.value.decision)
    ensures nSamples >= MIN_VALID_N && Norm(doctrine) == STRICT ==>
      r.Ok? && (r.value.decision == DROP <==> ciLow >= threshold)
    ensures nSamples >= MIN_VALID_N && Norm(doctrine) == BALANCED ==>
      r.Ok? && (r.value.decision == DROP <==> pHat >= threshold)
    ensures nSamples >= MIN_VALID_N && Norm(doctrine) == AGGRESSIVE ==>
      r.Ok? && (r.value.decision == DROP <==> ciHigh >= threshold)
    ensures nSamples >= MIN_VALID_N && r.Ok? ==>
      r.value.reason == DropReason(Norm(doctrine), r.value.decision == DROP) &&
      r.value.doctrineDescription == DOCTRINE_DESCRIPTIONS[Norm(doctrine)]
  {
    if nSamples < MIN_VALID_N then
      Ok(DoctrineResult(NO_DROP, INSUFFICIENT_SAMPLES, Describe(doctrine, doctrine)))
    else
      var doctrineUpper := Norm(doctrine);
      if !IsDoctrine(doctrineUpper) then
        Err("Unknown doctrine: " + doctrine)
      else
        var drop := DoctrineStatistic(doctrineUpper, pHat, ciLow, ciHigh) >= threshold;
        var desc := Describe(doctrineUpper, "");
        Ok(DoctrineResult(
          if drop then DROP else NO_DROP,
          DropReason(doctrineUpper, drop),
          if desc != "" then desc else doctrineUpper))
  }

  /** For an interval that contains the estimate, STRICT is the most cautious
      doctrine and AGGRESSIVE the least: STRICT DROP implies BALANCED DROP
      implies AGGRESSIVE DROP. */
  lemma DoctrinesAreOrdered(pHat: real, ciLow: real, ciHigh: real, threshold: real, nSamples: int)
    requires ciLow <= pHat <= ciHigh
    ensures
      var s := EvaluateDoctrine(pHat, ciLow, ciHigh, threshold, STRICT, nSamples);
      var b := EvaluateDoctrine(pHat, ciLow, ciHigh, threshold, BALANCED, nSamples);
      var a := EvaluateDoctrine(pHat, ciLow, ciHigh, threshold, AGGRESSIVE, nSamples);
      s.Ok? && b.Ok? && a.Ok? &&
      (s.value.decision == DROP ==> b.value.decision == DROP) &&
      (b.value.decision == DROP ==> a.value.decision == DROP)
  {
    NormOfDoctrine(STRICT);
    NormOfDoctrine(BALANCED);
    NormOfDoctrine(AGGRESSIVE);
    var s := EvaluateDoctrine(pHat, ciLow, ciHigh, threshold, STRICT, nSamples);
    var b := EvaluateDoctrine(pHat, ciLow, ciHigh, threshold, BALANCED, nSamples);
    var a := EvaluateDoctrine(pHat, ciLow, ciHigh, threshold, AGGRESSIVE, nSamples);
    if nSamples < MIN_VALID_N {
      assert s.value.decision == b.value.decision == a.value.decision == NO_DROP;
    }
  }

  /** Below the sample-size floor the doctrine text is never examined, so even
      an unknown doctrine yields NO DROP rather than an error. */
  lemma SmallSampleNeverDrops(pHat: real, ciLow: real, ciHigh: real, threshold: real,
                              doctrine: string, nSamples: int)
    requires nSamples < MIN_VALID_N
    ensures EvaluateDoctrine(pHat, ciLow, ciHigh, threshold, doctrine, nSamples).Ok?
    ensures EvaluateDoctrine(pHat, ciLow, ciHigh, threshold, doctrine, nSamples).value.decision == NO_DROP
  {
  }

  /** BALANCED agrees with the raw threshold rule on the point estimate. */
  lemma BalancedAgreesWithRawRule(pHat: real, ciLow: real, ciHigh: real, threshold: real, nSamples: int)
    requires nSamples >= MIN_VALID_N
    ensures EvaluateDoctrine(pHat, ciLow, ciHigh, threshold, BALANCED, nSamples)
         == Ok(DoctrineResult(EvaluateDropDecision(pHat, threshold),
                              DropReason(BALANCED, pHat >= threshold),
                              DOCTRINE_DESCRIPTIONS[BALANCED]))
  {
    NormOfDoctrine(BALANCED);
  }

  /** Lower-case or padded doctrine names are accepted. */
  lemma NormalisedDoctrineAccepted()
    ensures EvaluateDoctrine(0.8, 0.7, 0.9, 0.75, " strict ", 100).Ok?
    ensures EvaluateDoctrine(0.8, 0.7, 0.9, 0.75, " strict ", 100).value.decision == NO_DROP
  {
    var padded := " strict ";
    assert TrimLeft(padded) == TrimLeft(padded[1..]) == padded[1..];
    assert TrimRight(padded[1..]) == TrimRight(padded[1..][..6]) == "strict";
    var u := Upper("strict");
    assert u[0] == 'S' && u[1] == 'T' && u[2] == 'R' && u[3] == 'I' && u[4] == 'C' && u[5] == 'T';
    assert u == STRICT;
  }

  /** The canonical doctrine names are fixed points of the normalisation. */
  lemma NormOfDoctrine(d: string)
    requires IsDoctrine(d)
    ensures Norm(d) == d
  {
    if d == STRICT {
      NormOfCanonical(STRICT);
    } else if d == BALANCED {
      NormOfCanonical(BALANCED);
    } else {
      NormOfCanonical(AGGRESSIVE);
    }
  }
}
