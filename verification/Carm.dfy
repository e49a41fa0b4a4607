/** carm.py: conflict detection and the resolution of conflicting policy reports. */
module Carm {
  import opened Prelude
  import opened Topology
  import opened Policies

  datatype ResolutionMode = NoConflict | PriorityEnforcement | NegotiatedRelaxation | EscalationBoundary

  datatype RuntimeDecision = AllowAction | BlockAction | ApprovalRequired

  datatype PolicyConflict = PolicyConflict(left: PolicyEvaluation, right: PolicyEvaluation, severity: nat)

  datatype CarmConfig = CarmConfig(
    severityThreshold: int,
    reachThreshold: real,
    minimumTopologyConfidence: real,
    preventAutomatedBlocking: bool)

  const DEFAULT_CONFIG := CarmConfig(4, 2.0, 0.0, true)

  datatype Resolution = Resolution(
    mode: ResolutionMode,
    decision: RuntimeDecision,
    severity: nat,
    reach: ReachEstimate,
    conflicts: seq<PolicyConflict>,
    reasonCodes: seq<string>)

  // -------------------------------------------------------------- conflicts

  predicate Reports(values: seq<PolicyEvaluation>, effect: PolicyEffect) {
    exists i :: 0 <= i < |values| && values[i].effect == effect
  }

  function Conflict(left: PolicyEvaluation, right: PolicyEvaluation): PolicyConflict {
    PolicyConflict(left, right, left.layer.Weight() * right.layer.Weight())
  }

  function Decisive(values: seq<PolicyEvaluation>): seq<PolicyEvaluation> {
    if values == [] then []
    else (if values[0].effect == RequireApproval then [] else [values[0]]) + Decisive(values[1..])
  }

  function ConflictsWith(left: PolicyEvaluation, others: seq<PolicyEvaluation>): seq<PolicyConflict> {
    if others == [] then []
    else (if left.effect == others[0].effect then [] else [Conflict(left, others[0])]) + ConflictsWith(left, others[1..])
  }

  /** The conflicts in the order `combinations(values, 2)` yields them. */
  function PairConflicts(values: seq<PolicyEvaluation>): seq<PolicyConflict> {
    if values == [] then [] else ConflictsWith(values[0], values[1..]) + PairConflicts(values[1..])
  }

  predicate ConflictLeq(a: PolicyConflict, b: PolicyConflict) {
    if a.left.policyId == b.left.policyId then TextBefore(a.right.policyId, b.right.policyId)
    else TextBefore(a.left.policyId, b.left.policyId)
  }

  function InsertConflict(s: seq<PolicyConflict>, c: PolicyConflict): seq<PolicyConflict> {
    if s == [] || ConflictLeq(s[|s| - 1], c) then s + [c]
    else InsertConflict(s[..|s| - 1], c) + [s[|s| - 1]]
  }

  /** The stable sort by `(left.policy_id, right.policy_id)`. */
  function SortConflicts(s: seq<PolicyConflict>): seq<PolicyConflict> {
    if s == [] then [] else InsertConflict(SortConflicts(s[..|s| - 1]), s[|s| - 1])
  }

  function Conflicts(values: seq<PolicyEvaluation>): seq<PolicyConflict> {
    SortConflicts(PairConflicts(Decisive(values)))
  }

  lemma {:induction false} ConflictsWithAre(left: PolicyEvaluation, others: seq<PolicyEvaluation>, c: PolicyConflict)
    ensures c in ConflictsWith(left, others) <==>
      exists j :: 0 <= j < |others| && left.effect != others[j].effect && c == Conflict(left, others[j])
  {
    if others != [] {
      ConflictsWithAre(left, others[1..], c);
      if j :| 0 <= j < |others| && left.effect != others[j].effect && c == Conflict(left, others[j]) {
        if j > 0 {
          assert others[1..][j - 1] == others[j];
        }
      }
      if c in ConflictsWith(left, others[1..]) {
        var j :| 0 <= j < |others[1..]| && left.effect != others[1..][j].effect && c == Conflict(left, others[1..][j]);
        assert others[j + 1] == others[1..][j];
      }
    }
  }

  ghost predicate IsPairConflict(values: seq<PolicyEvaluation>, i: int, j: int, c: PolicyConflict) {
    0 <= i < j < |values| && values[i].effect != values[j].effect && c == Conflict(values[i], values[j])
  }

  lemma {:induction false} PairConflictsAre(values: seq<PolicyEvaluation>, c: PolicyConflict)
    ensures c in PairConflicts(values) <==> exists i, j :: IsPairConflict(values, i, j, c)
  {
    if values != [] {
      var tail := values[1..];
      ConflictsWithAre(values[0], tail, c);
      PairConflictsAre(tail, c);
      if i, j :| IsPairConflict(values, i, j, c) {
        if i == 0 {
          assert tail[j - 1] == values[j];
        } else {
          assert IsPairConflict(tail, i - 1, j - 1, c);
        }
      }
      if c in ConflictsWith(values[0], tail) {
        var j :| 0 <= j < |tail| && values[0].effect != tail[j].effect && c == Conflict(values[0], tail[j]);
        assert IsPairConflict(values, 0, j + 1, c);
      }
      if i, j :| IsPairConflict(tail, i, j, c) {
        assert IsPairConflict(values, i + 1, j + 1, c);
      }
    }
  }

  lemma {:induction false} InsertKeeps(s: seq<PolicyConflict>, c: PolicyConflict)
    ensures multiset(InsertConflict(s, c)) == multiset(s) + multiset{c}
  {
    if s != [] && !ConflictLeq(s[|s| - 1], c) {
      InsertKeeps(s[..|s| - 1], c);
      assert s == s[..|s| - 1] + [s[|s| - 1]];
    }
  }

  lemma {:induction false} SortKeeps(s: seq<PolicyConflict>)
    ensures multiset(SortConflicts(s)) == multiset(s)
  {
    if s != [] {
      SortKeeps(s[..|s| - 1]);
      InsertKeeps(SortConflicts(s[..|s| - 1]), s[|s| - 1]);
      assert s == s[..|s| - 1] + [s[|s| - 1]];
    }
  }

  ghost predicate InOrder(s: seq<PolicyConflict>) {
    forall i, j :: 0 <= i < j < |s| ==> ConflictLeq(s[i], s[j])
  }

  lemma ConflictOrder(a: PolicyConflict, b: PolicyConflict, c: PolicyConflict)
    ensures ConflictLeq(a, b) || ConflictLeq(b, a)
    ensures ConflictLeq(a, b) && ConflictLeq(b, c) ==> ConflictLeq(a, c)
  {
    hide TextBefore;
    TextOrder(a.left.policyId, b.left.policyId, c.left.policyId);
    TextOrder(b.left.policyId, c.left.policyId, a.left.policyId);
    TextOrder(a.right.policyId, b.right.policyId, c.right.policyId);
  }

  lemma {:induction false} InsertOrders(s: seq<PolicyConflict>, c: PolicyConflict)
    requires InOrder(s)
    ensures InOrder(InsertConflict(s, c))
  {
    hide ConflictLeq;
    if s == [] {
    } else {
      var last := s[|s| - 1];
      var front := s[..|s| - 1];
      var r := InsertConflict(s, c);
      if ConflictLeq(last, c) {
        forall i | 0 <= i < |s| ensures ConflictLeq(s[i], c) {
          if i < |s| - 1 {
            ConflictOrder(s[i], last, c);
          }
        }
      } else {
        InsertOrders(front, c);
        InsertKeeps(front, c);
        ConflictOrder(last, c, c);
        var t := InsertConflict(front, c);
        forall i | 0 <= i < |t| ensures ConflictLeq(t[i], last) {
          assert t[i] in multiset(t);
          assert t[i] in front || t[i] == c;
        }
      }
    }
  }

  lemma {:induction false} SortOrders(s: seq<PolicyConflict>)
    ensures InOrder(SortConflicts(s))
  {
    if s != [] {
      SortOrders(s[..|s| - 1]);
      InsertOrders(SortConflicts(s[..|s| - 1]), s[|s| - 1]);
    }
  }

  lemma {:induction false} DecisiveAre(values: seq<PolicyEvaluation>)
    ensures !Reports(values, RequireApproval) ==> Decisive(values) == values
    ensures forall v :: v in Decisive(values) <==> v in values && v.effect != RequireApproval
  {
    if values != [] {
      DecisiveAre(values[1..]);
      assert values == [values[0]] + values[1..];
      if !Reports(values, RequireApproval) {
        assert values[0].effect != RequireApproval;
        forall i | 0 <= i < |values[1..]| ensures values[1..][i].effect != RequireApproval {
          assert values[i + 1] == values[1..][i];
        }
      }
    }
  }

  /** Every reported conflict is between an ALLOW and a BLOCK, and none is missed. */
  lemma ConflictsAre(values: seq<PolicyEvaluation>, c: PolicyConflict)
    requires !Reports(values, RequireApproval)
    ensures c in Conflicts(values) <==> exists i, j :: IsPairConflict(values, i, j, c)
  {
    DecisiveAre(values);
    PairConflictsAre(values, c);
    SortKeeps(PairConflicts(values));
    assert c in Conflicts(values) <==> c in multiset(Conflicts(values));
    assert c in PairConflicts(values) <==> c in multiset(PairConflicts(values));
  }

  // ------------------------------------------------------------- resolution

  function MaxSeverity(conflicts: seq<PolicyConflict>): nat {
    if conflicts == [] then 0
    else
      var rest := MaxSeverity(conflicts[1..]);
      if conflicts[0].severity > rest then conflicts[0].severity else rest
  }

  /** The dict `_priority_effect` builds: a later conflict overwrites an earlier entry. */
  function PolicyTable(conflicts: seq<PolicyConflict>): map<(string, string), PolicyEvaluation> {
    if conflicts == [] then map[]
    else
      var last := conflicts[|conflicts| - 1];
      PolicyTable(conflicts[..|conflicts| - 1])[last.left.Key() := last.left][last.right.Key() := last.right]
  }

  function DecisionOf(effect: PolicyEffect): Option<RuntimeDecision> {
    match effect
    case Allow => Some(AllowAction)
    case Block => Some(BlockAction)
    case RequireApproval => None
  }

  /** `fixed_priority`; `None` where Python raises, because the enum has no such member. */
  function FixedPriority(values: seq<PolicyEvaluation>): Option<RuntimeDecision> {
    if values == [] then Some(AllowAction) else DecisionOf(Top(values).effect)
  }

  /** `most_restrictive`. */
  function MostRestrictive(values: seq<PolicyEvaluation>): RuntimeDecision {
    if Reports(values, Block) then BlockAction else AllowAction
  }

  /** The decision tree of `resolve_carm`, given the conflicts it found and, for the one branch
      that asks, the effect of the first policy by precedence. */
  function Decide(values: seq<PolicyEvaluation>, conflicts: seq<PolicyConflict>, severity: nat,
                  priority: PolicyEffect, reach: ReachEstimate, config: CarmConfig): Resolution
  {
    if Reports(values, RequireApproval) then
      Resolution(EscalationBoundary, ApprovalRequired, 0, reach, [], ["CARM_UPSTREAM_APPROVAL_REQUIRED"])
    else if conflicts == [] then
      Resolution(NoConflict, if Reports(values, Block) then BlockAction else AllowAction, 0, reach, [],
                 ["CARM_NO_POLICY_CONFLICT"])
    else if reach.topologyConfidence < config.minimumTopologyConfidence then
      Resolution(EscalationBoundary, ApprovalRequired, severity, reach, conflicts,
                 ["CARM_TOPOLOGY_CONFIDENCE_INSUFFICIENT"])
    else if severity >= config.severityThreshold && reach.score >= config.reachThreshold then
      Resolution(EscalationBoundary, ApprovalRequired, severity, reach, conflicts,
                 ["CARM_HIGH_SEVERITY_HIGH_REACH"])
    else if severity >= config.severityThreshold then
      if priority == Block && config.preventAutomatedBlocking then
        Resolution(EscalationBoundary, ApprovalRequired, severity, reach, conflicts,
                   ["CARM_AUTOMATED_BLOCK_REROUTED"])
      else
        Resolution(PriorityEnforcement, if priority == Block then BlockAction else AllowAction, severity, reach,
                   conflicts, ["CARM_HIGH_SEVERITY_LOW_REACH"])
    else
      Resolution(NegotiatedRelaxation, AllowAction, severity, reach, conflicts, ["CARM_LOW_SEVERITY_RELAXATION"])
  }

  /** The effect the priority branch acts on: that of the entry of the table which sorts first. */
  function PriorityEffect(conflicts: seq<PolicyConflict>): (effect: PolicyEffect)
    requires conflicts != []
  {
    Top(Listing(PolicyTable(conflicts), TableKeys(conflicts))).effect
  }

  /** The dict's keys in order of first insertion. */
  function TableKeys(conflicts: seq<PolicyConflict>): (keys: seq<(string, string)>)
    ensures forall k :: k in keys <==> k in PolicyTable(conflicts)
  {
    if conflicts == [] then []
    else
      var last := conflicts[|conflicts| - 1];
      var keys := TableKeys(conflicts[..|conflicts| - 1]);
      var keys' := if last.left.Key() in keys then keys else keys + [last.left.Key()];
      if last.right.Key() in keys' then keys' else keys' + [last.right.Key()]
  }

  function Listing(table: map<(string, string), PolicyEvaluation>, keys: seq<(string, string)>): (r: seq<PolicyEvaluation>)
    requires forall k :: k in keys ==> k in table
    ensures |r| == |keys| && forall i :: 0 <= i < |r| ==> r[i] == table[keys[i]]
  {
    seq(|keys|, i requires 0 <= i < |keys| => table[keys[i]])
  }

  /** `resolve_carm` on a reach estimate. */
  function Resolve(values: seq<PolicyEvaluation>, reach: ReachEstimate, config: CarmConfig): Resolution {
    var conflicts := Conflicts(values);
    if Reports(values, RequireApproval) || conflicts == []
    then Decide(values, conflicts, 0, Allow, reach, config)
    else Decide(values, conflicts, MaxSeverity(conflicts), PriorityEffect(conflicts), reach, config)
  }
}
