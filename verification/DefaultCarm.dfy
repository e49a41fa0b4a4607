/** CARM under the gateway's own configuration, said of layers and effects alone: no weights, no
    severities, no thresholds but the reach of two. */
module DefaultCarm {
  import opened Topology
  import opened Policies
  import opened Carm
  import opened CarmProperties

  predicate Above(a: PolicyLayer, b: PolicyLayer) {
    (a == Regulatory && b != Regulatory) || (a == Organizational && b == Task)
  }

  /** Regulatory before organizational before task; within a layer by policy id, then version. */
  predicate Ranks(a: PolicyEvaluation, b: PolicyEvaluation) {
    || Above(a.layer, b.layer)
    || (a.layer == b.layer && a.policyId != b.policyId && TextBefore(a.policyId, b.policyId))
    || (a.layer == b.layer && a.policyId == b.policyId && TextBefore(a.policyVersion, b.policyVersion))
  }

  ghost predicate RanksFirst(values: seq<PolicyEvaluation>, i: nat) {
    i < |values| && forall j :: 0 <= j < |values| ==> Ranks(values[i], values[j])
  }

  ghost predicate BlockRanksFirst(values: seq<PolicyEvaluation>) {
    exists i: nat :: RanksFirst(values, i) && values[i].effect == Block
  }

  /** Some report has this effect at a layer above the task's own. */
  predicate BeyondTask(values: seq<PolicyEvaluation>, effect: PolicyEffect) {
    exists i :: 0 <= i < |values| && values[i].effect == effect && values[i].layer != Task
  }

  /** The gateway rejects: something blocks, and nothing allows or asks. */
  predicate Blocks(values: seq<PolicyEvaluation>) {
    Reports(values, Block) && !Reports(values, Allow) && !Reports(values, RequireApproval)
  }

  /** The gateway asks for approval: a policy does, or an ALLOW meets a BLOCK, both above the task layer,
      where at least two nodes' worth lies downstream or the BLOCK comes first. */
  ghost predicate Asks(values: seq<PolicyEvaluation>, score: real, confidence: real) {
    || Reports(values, RequireApproval)
    || (Reports(values, Allow) && Reports(values, Block) &&
        (confidence < 0.0 ||
         (BeyondTask(values, Allow) && BeyondTask(values, Block) && (score >= 2.0 || BlockRanksFirst(values)))))
  }

  lemma RanksIsPrecedes(a: PolicyEvaluation, b: PolicyEvaluation)
    ensures Ranks(a, b) <==> Precedes(a, b)
  {
  }

  /** The heaviest layer behind an effect, by name. */
  lemma HeaviestLayer(values: seq<PolicyEvaluation>, effect: PolicyEffect)
    ensures MaxWeight(values, effect) == 0 <==> !Reports(values, effect)
    ensures MaxWeight(values, effect) == 3 <==>
      exists i :: 0 <= i < |values| && values[i].effect == effect && values[i].layer == Regulatory
    ensures MaxWeight(values, effect) >= 2 <==> BeyondTask(values, effect)
    ensures MaxWeight(values, effect) <= 3
  {
    hide MaxWeight;
    MaxWeightIs(values, effect);
  }

  /** The threshold of four: both sides speak from above the task layer. */
  lemma SevereIff(values: seq<PolicyEvaluation>)
    ensures MaxWeight(values, Allow) * MaxWeight(values, Block) >= DEFAULT_CONFIG.severityThreshold <==>
      BeyondTask(values, Allow) && BeyondTask(values, Block)
  {
    hide MaxWeight, BeyondTask, Reports;
    HeaviestLayer(values, Allow);
    HeaviestLayer(values, Block);
    var a, b := MaxWeight(values, Allow), MaxWeight(values, Block);
    if a >= 2 && b >= 2 {
      ProductBound(2, 2, a, b);
    } else if a < 2 {
      ProductBound(a, b, 1, 3);
    } else {
      ProductBound(a, b, 3, 1);
    }
  }

  lemma TopRanksFirst(values: seq<PolicyEvaluation>)
    requires UniqueKeys(values) && values != []
    ensures BlockRanksFirst(values) <==> Top(values).effect == Block
  {
    hide Top, Precedes, Ranks;
    var i := TopSortsFirst(values);
    assert RanksFirst(values, i) by {
      forall j | 0 <= j < |values| ensures Ranks(values[i], values[j]) {
        RanksIsPrecedes(values[i], values[j]);
      }
    }
    forall k: nat | RanksFirst(values, k) ensures values[k] == values[i] {
      RanksIsPrecedes(values[i], values[k]);
      RanksIsPrecedes(values[k], values[i]);
      SameRank(values[i], values[k]);
      assert values[i].Key() == values[k].Key();
    }
  }

  lemma SameRank(a: PolicyEvaluation, b: PolicyEvaluation)
    requires Precedes(a, b) && Precedes(b, a)
    ensures a.Key() == b.Key()
  {
    hide TextBefore;
    TextOrder(a.policyId, b.policyId, a.policyId);
    TextOrder(a.policyVersion, b.policyVersion, a.policyVersion);
  }

  /** The closed form under the gateway's configuration decides by these two conditions. */
  lemma DefaultClosedForm(values: seq<PolicyEvaluation>, score: real, confidence: real)
    requires UniqueKeys(values)
    ensures var decision := ClosedForm(values, score, confidence, DEFAULT_CONFIG).decision;
      && (decision == BlockAction <==> Blocks(values))
      && (decision == ApprovalRequired <==> Asks(values, score, confidence))
      && (decision == AllowAction <==> !Blocks(values) && !Asks(values, score, confidence))
  {
    hide MaxWeight, BeyondTask, BlockRanksFirst, Top;
    SevereIff(values);
    if !Reports(values, RequireApproval) && Reports(values, Allow) {
      TopRanksFirst(values);
      var top := Top(values);
      assert top.effect != RequireApproval;
    }
  }

  /** Whatever the keys, the gateway's CARM blocks exactly when nothing stands against the BLOCK. */
  lemma BlocksIff(values: seq<PolicyEvaluation>, reach: ReachEstimate)
    ensures Resolve(values, reach, DEFAULT_CONFIG).decision == BlockAction <==> Blocks(values)
  {
    hide Conflicts, MaxSeverity, PriorityEffect;
    if !Reports(values, RequireApproval) {
      ConflictIff(values);
    }
  }

  /** `resolve_carm` as the gateway calls it. */
  lemma DefaultDecision(values: seq<PolicyEvaluation>, reach: ReachEstimate)
    requires UniqueKeys(values)
    ensures var decision := Resolve(values, reach, DEFAULT_CONFIG).decision;
      && (decision == BlockAction <==> Blocks(values))
      && (decision == ApprovalRequired <==> Asks(values, reach.score, reach.topologyConfidence))
      && (decision == AllowAction <==> !Blocks(values) && !Asks(values, reach.score, reach.topologyConfidence))
  {
    hide Resolve, ClosedForm, Blocks, Asks;
    ResolveIsClosedForm(values, reach, DEFAULT_CONFIG);
    DefaultClosedForm(values, reach.score, reach.topologyConfidence);
  }

  /** The closed form's reason codes say which of these conditions decided. */
  lemma DefaultReasons(values: seq<PolicyEvaluation>, score: real, confidence: real)
    requires UniqueKeys(values)
    ensures var codes := ClosedForm(values, score, confidence, DEFAULT_CONFIG).reasonCodes;
      codes == [
        if Reports(values, RequireApproval) then "CARM_UPSTREAM_APPROVAL_REQUIRED"
        else if !Reports(values, Allow) || !Reports(values, Block) then "CARM_NO_POLICY_CONFLICT"
        else if confidence < 0.0 then "CARM_TOPOLOGY_CONFIDENCE_INSUFFICIENT"
        else if !BeyondTask(values, Allow) || !BeyondTask(values, Block) then "CARM_LOW_SEVERITY_RELAXATION"
        else if score >= 2.0 then "CARM_HIGH_SEVERITY_HIGH_REACH"
        else if BlockRanksFirst(values) then "CARM_AUTOMATED_BLOCK_REROUTED"
        else "CARM_HIGH_SEVERITY_LOW_REACH"]
  {
    hide MaxWeight, BeyondTask, BlockRanksFirst, Top;
    SevereIff(values);
    if !Reports(values, RequireApproval) && Reports(values, Allow) {
      TopRanksFirst(values);
      var top := Top(values);
      assert top.effect != RequireApproval;
    }
  }
}
