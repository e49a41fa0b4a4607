/** The loops of carm.py. */
module CarmRuntime {
  import opened Prelude
  import opened Topology
  import opened GraphDigests
  import opened GovernanceGraphs
  import opened Policies
  import opened Carm

  /** `detect_conflicts`. */
  method DetectConflicts(evaluations: seq<PolicyEvaluation>) returns (conflicts: seq<PolicyConflict>)
    ensures conflicts == Conflicts(evaluations)
  {
    hide ConflictsWith, SortConflicts, Decisive;
    var values := Decisive(evaluations);
    conflicts := [];
    for i := 0 to |values|
      invariant conflicts + PairConflicts(values[i..]) == PairConflicts(values)
    {
      assert values[i..][0] == values[i] && values[i..][1..] == values[i + 1..];
      var found := ConflictsAgainst(values[i], values[i + 1..]);
      assert conflicts + (found + PairConflicts(values[i + 1..])) == (conflicts + found) + PairConflicts(values[i + 1..]);
      conflicts := conflicts + found;
    }
    assert values[|values|..] == [];
    assert conflicts + [] == conflicts;
    conflicts := SortConflicts(conflicts);
  }

  /** The pairs that `combinations` forms with one left element. */
  method ConflictsAgainst(left: PolicyEvaluation, others: seq<PolicyEvaluation>) returns (found: seq<PolicyConflict>)
    ensures found == ConflictsWith(left, others)
  {
    hide Conflict, ConflictsWith;
    found := [];
    assert others[0..] == others;
    for j := 0 to |others|
      invariant found + ConflictsWith(left, others[j..]) == ConflictsWith(left, others)
    {
      NextConflict(left, others, j);
      ghost var rest := ConflictsWith(left, others[j + 1..]);
      if left.effect != others[j].effect {
        assert found + ([Conflict(left, others[j])] + rest) == (found + [Conflict(left, others[j])]) + rest;
        found := found + [Conflict(left, others[j])];
      }
    }
    NoMoreConflicts(left, others);
    assert found + [] == found;
  }

  lemma NextConflict(left: PolicyEvaluation, others: seq<PolicyEvaluation>, j: nat)
    requires j < |others|
    ensures ConflictsWith(left, others[j..]) ==
      (if left.effect == others[j].effect then [] else [Conflict(left, others[j])]) + ConflictsWith(left, others[j + 1..])
  {
    assert others[j..][0] == others[j] && others[j..][1..] == others[j + 1..];
  }

  lemma NoMoreConflicts(left: PolicyEvaluation, others: seq<PolicyEvaluation>)
    ensures ConflictsWith(left, others[|others|..]) == []
  {
  }

  /** `_priority_effect`. */
  method FindPriorityEffect(conflicts: seq<PolicyConflict>) returns (effect: PolicyEffect)
    requires conflicts != []
    ensures effect == PriorityEffect(conflicts)
  {
    var policies: map<(string, string), PolicyEvaluation> := map[];
    for i := 0 to |conflicts|
      invariant policies == PolicyTable(conflicts[..i])
    {
      var c := conflicts[i];
      assert conflicts[..i + 1][..i] == conflicts[..i];
      policies := policies[c.left.Key() := c.left];
      policies := policies[c.right.Key() := c.right];
    }
    assert conflicts[..|conflicts|] == conflicts;
    effect := Top(Listing(policies, TableKeys(conflicts))).effect;
  }

  /** `resolve_carm`; it fails only where the reach estimate does. */
  method ResolveCarm(evaluations: seq<PolicyEvaluation>, graph: GovernanceGraph, conflictNode: string,
                     rnd: real -> real, config: CarmConfig)
    returns (r: Result<Resolution, ErrorCode>)
    requires graph.Valid()
    ensures conflictNode !in graph.nodes ==> r == Err(InvalidGovernanceGraph)
    ensures conflictNode in graph.nodes ==> r.Ok? && IsReach(graph.View(), rnd, conflictNode, r.value.reach)
    ensures conflictNode in graph.nodes ==> r.Ok? && r.value == Resolve(evaluations, r.value.reach, config)
    ensures conflictNode in graph.nodes ==> r.Ok? && r.value.reach.graphDigest == GraphDigest(graph.View())
  {
    hide Conflicts, PriorityEffect, IsReach, GraphDigest, MaxSeverity;
    var estimate := graph.EstimateReach(conflictNode, rnd);
    if estimate.Err? {
      return Err(estimate.error);
    }
    var reach := estimate.value;
    if Reports(evaluations, RequireApproval) {
      return Ok(Decide(evaluations, [], 0, Allow, reach, config));
    }
    var conflicts := DetectConflicts(evaluations);
    if conflicts == [] {
      return Ok(Decide(evaluations, conflicts, 0, Allow, reach, config));
    }
    var effect := FindPriorityEffect(conflicts);
    return Ok(Decide(evaluations, conflicts, MaxSeverity(conflicts), effect, reach, config));
  }
}
