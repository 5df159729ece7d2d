/** The raw drop rule: release when the estimated hit probability reaches the
    operator's threshold. */
module DecisionLogic {
  import opened Strings

  const DROP := "DROP"
  const NO_DROP := "NO DROP"

  predicate IsLabel(d: string) {
    d == DROP || d == NO_DROP
  }

  /** `evaluate_drop_decision`: a threshold that is met exactly counts as met. */
  function EvaluateDropDecision(hitProbability: real, userThreshold: real): (d: string)
    ensures IsLabel(d)
    ensures d == DROP <==> hitProbability >= userThreshold
    ensures d == NO_DROP <==> hitProbability < userThreshold
  {
    if hitProbability >= userThreshold then DROP else NO_DROP
  }

  /** A higher hit probability never turns a DROP into a NO DROP. */
  lemma DropIsMonotone(p1: real, p2: real, threshold: real)
    requires p1 <= p2
    requires EvaluateDropDecision(p1, threshold) == DROP
    ensures EvaluateDropDecision(p2, threshold) == DROP
  {
  }

  /** A lower threshold never turns a DROP into a NO DROP. */
  lemma DropIsAntitoneInThreshold(p: real, t1: real, t2: real)
    requires t2 <= t1
    requires EvaluateDropDecision(p, t1) == DROP
    ensures EvaluateDropDecision(p, t2) == DROP
  {
  }

  /** The three cases of the unit test: above, below and at the threshold. */
  lemma DropDecisionExamples()
    ensures EvaluateDropDecision(0.9, 0.8) == DROP
    ensures EvaluateDropDecision(0.7, 0.8) == NO_DROP
    ensures EvaluateDropDecision(0.8, 0.8) == DROP
  {
  }

  /** Both labels are already in normal form. */
  lemma NormOfLabel(d: string)
    requires IsLabel(d)
    ensures Norm(d) == d
  {
    if d == DROP {
      NormOfCanonical(DROP);
    } else {
      assert NO_DROP[0] == 'N' && NO_DROP[6] == 'P';
      NormOfCanonical(NO_DROP);
    }
  }
}
