/** policy.py: what a policy runtime reports, and the precedence among reports. */
module Policies {
  import opened Prelude
  import opened Ordering
  import opened Unicode

  datatype PolicyLayer = Regulatory | Organizational | Task {
    function Weight(): nat {
      match this
      case Regulatory => 3
      case Organizational => 2
      case Task => 1
    }
  }

  datatype PolicyEffect = Allow | Block | RequireApproval

  datatype PolicyEvaluation = PolicyEvaluation(
    policyId: string,
    policyVersion: string,
    layer: PolicyLayer,
    effect: PolicyEffect,
    rationaleCode: string,
    runtimeId: Option<string>,
    nativeVerdict: Option<string>,
    requiredControls: seq<string>,
    evidenceArtifact: Option<string>)
  {
    function Key(): (string, string) {
      (policyId, policyVersion)
    }
  }

  /** `CallablePolicyRuntime.evaluate` lets a report through only with distinct keys. */
  ghost predicate UniqueKeys(values: seq<PolicyEvaluation>) {
    forall i, j :: 0 <= i < j < |values| ==> values[i].Key() != values[j].Key()
  }

  predicate TextBefore(a: string, b: string) {
    Before(CodePoint, a, b)
  }

  /** `a` sorts no later than `b` under the key `(-weight, policy_id, policy_version)`. */
  predicate Precedes(a: PolicyEvaluation, b: PolicyEvaluation) {
    a.layer.Weight() > b.layer.Weight() ||
    (a.layer == b.layer &&
     (if a.policyId == b.policyId then TextBefore(a.policyVersion, b.policyVersion)
      else TextBefore(a.policyId, b.policyId)))
  }

  lemma TextOrder(a: string, b: string, c: string)
    ensures TextBefore(a, b) || TextBefore(b, a)
    ensures TextBefore(a, b) && TextBefore(b, a) ==> a == b
    ensures TextBefore(a, b) && TextBefore(b, c) ==> TextBefore(a, c)
  {
    LexTotal(CodePoints(a), CodePoints(b));
    if TextBefore(a, b) && TextBefore(b, a) {
      LexAntisymmetric(CodePoints(a), CodePoints(b));
      CodePointsInjective(a, b);
    }
    if TextBefore(a, b) && TextBefore(b, c) {
      LexTransitive(CodePoints(a), CodePoints(b), CodePoints(c));
    }
  }

  lemma PrecedesTotal(a: PolicyEvaluation, b: PolicyEvaluation)
    ensures Precedes(a, b) || Precedes(b, a)
    ensures Precedes(a, b) && Precedes(b, a) ==> a.Key() == b.Key() && a.layer == b.layer
  {
    hide Before;
    TextOrder(a.policyId, b.policyId, b.policyId);
    TextOrder(a.policyVersion, b.policyVersion, b.policyVersion);
  }

  lemma PrecedesTransitive(a: PolicyEvaluation, b: PolicyEvaluation, c: PolicyEvaluation)
    requires Precedes(a, b) && Precedes(b, c)
    ensures Precedes(a, c)
  {
    hide Before;
    TextOrder(a.policyId, b.policyId, c.policyId);
    TextOrder(b.policyId, c.policyId, a.policyId);
    TextOrder(a.policyVersion, b.policyVersion, c.policyVersion);
  }

  /** `e` comes first when the values are sorted by precedence. */
  ghost predicate IsTop(e: PolicyEvaluation, values: set<PolicyEvaluation>) {
    e in values && forall v :: v in values ==> Precedes(e, v)
  }

  /** `sorted(values, key=...)[0]`: the first of the values that no other precedes. */
  function Top(values: seq<PolicyEvaluation>): (e: PolicyEvaluation)
    requires values != []
    ensures e in values
  {
    if |values| == 1 then values[0]
    else
      var rest := Top(values[1..]);
      if Precedes(values[0], rest) then values[0] else rest
  }

  lemma {:induction false} TopIsTop(values: seq<PolicyEvaluation>)
    requires values != []
    ensures IsTop(Top(values), Elements(values))
  {
    hide Precedes;
    PrecedesTotal(values[0], values[0]);
    if |values| == 1 {
      assert values == [values[0]];
    } else {
      var rest := Top(values[1..]);
      TopIsTop(values[1..]);
      PrecedesTotal(values[0], rest);
      assert values == [values[0]] + values[1..];
      forall v | v in Elements(values) ensures Precedes(Top(values), v) {
        if v in values[1..] {
          assert v in Elements(values[1..]);
          if Precedes(values[0], rest) {
            PrecedesTransitive(values[0], rest, v);
          }
        }
      }
    }
  }

  lemma TopUnique(a: PolicyEvaluation, b: PolicyEvaluation, values: set<PolicyEvaluation>)
    requires IsTop(a, values) && IsTop(b, values)
    requires forall x, y :: x in values && y in values && x.Key() == y.Key() ==> x == y
    ensures a == b
  {
    hide Precedes;
    PrecedesTotal(a, b);
  }
}
