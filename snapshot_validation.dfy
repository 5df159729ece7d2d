/** The required-key contract a snapshot must meet before it is shown. */
module SnapshotValidation {
  import opened Builtins

  const SNAPSHOT_TYPE := "snapshot_type"

  const REQUIRED_EVALUATION_KEYS: set<string> :=
    {SNAPSHOT_TYPE, "decision", "P_hit", "ci_low", "ci_high", "n_samples"}
  const REQUIRED_CONFIG_KEYS: set<string> := {SNAPSHOT_TYPE, "threshold_pct"}
  const REQUIRED_ERROR_KEYS: set<string> := {SNAPSHOT_TYPE, "error_message"}

  /** The ValueError raised by `validate_snapshot`, by cause. */
  datatype ValidationError =
    | SnapshotIsNone
    | MissingKeys(snapshotType: string, missing: set<string>)
    | InvalidType(found: Value)

  /** The snapshot types that have a contract. */
  predicate IsKnownType(st: Value) {
    st == Text("CONFIG") || st == Text("ERROR") || st == Text("EVALUATION")
  }

  function RequiredKeys(st: Value): (keys: set<string>)
    requires IsKnownType(st)
    ensures SNAPSHOT_TYPE in keys
  {
    if st == Text("CONFIG") then REQUIRED_CONFIG_KEYS
    else if st == Text("ERROR") then REQUIRED_ERROR_KEYS
    else REQUIRED_EVALUATION_KEYS
  }

  /** `snapshot.get("snapshot_type")`, with Python's None as Null. */
  function TypeOf(m: Obj): Value {
    Get(m, SNAPSHOT_TYPE, Null)
  }

  /** `validate_snapshot`: None when the snapshot passes, else the error it raises. */
  function ValidateSnapshot(snapshot: Option<Obj>): (r: Option<ValidationError>)
    ensures snapshot.None? <==> r == Some(SnapshotIsNone)
    ensures snapshot.Some? && !IsKnownType(TypeOf(snapshot.value)) ==>
      r == Some(InvalidType(TypeOf(snapshot.value)))
    ensures snapshot.Some? && IsKnownType(TypeOf(snapshot.value)) ==>
      (r.None? <==> RequiredKeys(TypeOf(snapshot.value)) <= snapshot.value.Keys)
    ensures r.Some? && r.value.MissingKeys? ==>
      snapshot.Some? && IsKnownType(TypeOf(snapshot.value)) &&
      Text(r.value.snapshotType) == TypeOf(snapshot.value) &&
      r.value.missing == RequiredKeys(TypeOf(snapshot.value)) - snapshot.value.Keys &&
      r.value.missing != {}
  {
    if snapshot.None? then Some(SnapshotIsNone)
    else
      var m := snapshot.value;
      var st := TypeOf(m);
      if !IsKnownType(st) then Some(InvalidType(st))
      else
        if RequiredKeys(st) <= m.Keys then None
        else
          DifferenceNonEmpty(RequiredKeys(st), m.Keys);
          Some(MissingKeys(st.s, RequiredKeys(st) - m.Keys))
  }

  lemma DifferenceNonEmpty(a: set<string>, b: set<string>)
    requires !(a <= b)
    ensures a - b != {}
  {
    var k :| k in a && k !in b;
    assert k in a - b;
  }

  /** A CONFIG snapshot passes iff it carries threshold_pct. */
  lemma ConfigContract(m: Obj)
    requires TypeOf(m) == Text("CONFIG")
    ensures ValidateSnapshot(Some(m)).None? <==> "threshold_pct" in m
  {
    assert SNAPSHOT_TYPE in m;
  }

  /** An ERROR snapshot passes iff it carries error_message. */
  lemma ErrorContract(m: Obj)
    requires TypeOf(m) == Text("ERROR")
    ensures ValidateSnapshot(Some(m)).None? <==> "error_message" in m
  {
    assert SNAPSHOT_TYPE in m;
  }

  /** An EVALUATION snapshot passes iff it carries the five result keys. */
  lemma EvaluationContract(m: Obj)
    requires TypeOf(m) == Text("EVALUATION")
    ensures ValidateSnapshot(Some(m)).None? <==>
      "decision" in m && "P_hit" in m && "ci_low" in m && "ci_high" in m && "n_samples" in m
  {
    assert SNAPSHOT_TYPE in m;
  }

  /** Any snapshot that passes has one of the three known types; a missing
      snapshot_type is rejected like any other unknown value. */
  lemma PassingSnapshotHasKnownType(m: Obj)
    requires ValidateSnapshot(Some(m)).None?
    ensures SNAPSHOT_TYPE in m && IsKnownType(m[SNAPSHOT_TYPE])
  {
  }

  /** Extra keys never cause a rejection: adding keys (and keeping the type)
      preserves a pass. */
  lemma ExtraKeysNeverReject(m: Obj, bigger: Obj)
    requires m.Keys <= bigger.Keys && TypeOf(bigger) == TypeOf(m)
    requires ValidateSnapshot(Some(m)).None?
    ensures ValidateSnapshot(Some(bigger)).None?
  {
  }
}
