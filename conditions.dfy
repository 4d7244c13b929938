/** Lookup in a condition list, as the Knative duck types do it: the first
    condition of the requested type wins, and a missing one is not True. */
module Conditions {
  import opened Api

  function FindCondition(conds: seq<Condition>, kind: string): (r: Option<Condition>)
    ensures r.None? <==> forall i :: 0 <= i < |conds| ==> conds[i].kind != kind
    ensures r.Some? ==> exists i :: 0 <= i < |conds| && conds[i] == r.value && conds[i].kind == kind
                                    && forall j :: 0 <= j < i ==> conds[j].kind != kind
  {
    if |conds| == 0 then None
    else if conds[0].kind == kind then
      assert conds[0].kind == kind;
      Some(conds[0])
    else
      var r := FindCondition(conds[1..], kind);
      if r.Some? then
        var i :| 0 <= i < |conds[1..]| && conds[1..][i] == r.value && conds[1..][i].kind == kind
                   && forall j :: 0 <= j < i ==> conds[1..][j].kind != kind;
        assert conds[i + 1] == r.value && conds[i + 1].kind == kind;
        assert forall j :: 0 <= j < i + 1 ==> conds[j].kind != kind by {
          forall j | 0 <= j < i + 1 ensures conds[j].kind != kind {
            if j > 0 { assert conds[j] == conds[1..][j - 1]; }
          }
        }
        r
      else
        assert forall i :: 0 <= i < |conds| ==> conds[i].kind != kind by {
          forall i | 0 <= i < |conds| ensures conds[i].kind != kind {
            if i > 0 { assert conds[i] == conds[1..][i - 1]; }
          }
        }
        r
  }

  /** `GetCondition(ConditionSucceeded).IsTrue()`. */
  predicate SucceededIsTrue(conds: seq<Condition>)
  {
    var c := FindCondition(conds, ConditionSucceeded);
    c.Some? && c.value.status == True
  }

  /** Succeeded is True exactly when the first Succeeded condition says True. */
  lemma SucceededIsTrueIff(conds: seq<Condition>)
    ensures SucceededIsTrue(conds) <==>
            exists i :: 0 <= i < |conds| && conds[i].kind == ConditionSucceeded && conds[i].status == True
                        && forall j :: 0 <= j < i ==> conds[j].kind != ConditionSucceeded
  {
  }
}
