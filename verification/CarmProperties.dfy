/** What CARM decides, without its pairwise scan, and where in the graph it escalates. */
module CarmProperties {
  import opened Prelude
  import opened Topology
  import opened Policies
  import opened Carm

  function MaxWeight(values: seq<PolicyEvaluation>, effect: PolicyEffect): nat {
    if values == [] then 0
    else
      var rest := MaxWeight(values[1..], effect);
      if values[0].effect == effect && values[0].layer.Weight() > rest then values[0].layer.Weight() else rest
  }

  lemma {:induction false} MaxWeightIs(values: seq<PolicyEvaluation>, effect: PolicyEffect)
    ensures forall i :: 0 <= i < |values| && values[i].effect == effect ==>
      values[i].layer.Weight() <= MaxWeight(values, effect)
    ensures Reports(values, effect) ==>
      exists i :: 0 <= i < |values| && values[i].effect == effect && values[i].layer.Weight() == MaxWeight(values, effect)
    ensures !Reports(values, effect) ==> MaxWeight(values, effect) == 0
  {
    if values != [] {
      var tail := values[1..];
      MaxWeightIs(tail, effect);
      assert forall i :: 0 <= i < |tail| ==> tail[i] == values[i + 1];
      if Reports(values, effect) {
        if MaxWeight(values, effect) == MaxWeight(tail, effect) && Reports(tail, effect) {
          var i :| 0 <= i < |tail| && tail[i].effect == effect && tail[i].layer.Weight() == MaxWeight(tail, effect);
          assert values[i + 1].layer.Weight() == MaxWeight(values, effect);
        } else {
          assert values[0].layer.Weight() == MaxWeight(values, effect);
        }
      }
    }
  }

  lemma {:induction false} MaxSeverityIs(conflicts: seq<PolicyConflict>)
    ensures forall c :: c in conflicts ==> c.severity <= MaxSeverity(conflicts)
    ensures conflicts != [] ==> exists c :: c in conflicts && c.severity == MaxSeverity(conflicts)
  {
    if conflicts != [] {
      MaxSeverityIs(conflicts[1..]);
      assert conflicts == [conflicts[0]] + conflicts[1..];
      assert conflicts[0] in conflicts;
    }
  }

  /** Two policies of opposite effect are in conflict, whichever was reported first. */
  lemma OppositesConflict(values: seq<PolicyEvaluation>, i: int, j: int) returns (c: PolicyConflict)
    requires !Reports(values, RequireApproval)
    requires 0 <= i < |values| && 0 <= j < |values| && values[i].effect != values[j].effect
    ensures c in Conflicts(values)
    ensures c == Conflict(values[i], values[j]) || c == Conflict(values[j], values[i])
  {
    if i < j {
      c := Conflict(values[i], values[j]);
      assert IsPairConflict(values, i, j, c);
    } else {
      c := Conflict(values[j], values[i]);
      assert IsPairConflict(values, j, i, c);
    }
    ConflictsAre(values, c);
  }

  /** A conflict exists exactly when both an ALLOW and a BLOCK were reported. */
  lemma ConflictIff(values: seq<PolicyEvaluation>)
    requires !Reports(values, RequireApproval)
    ensures Conflicts(values) != [] <==> Reports(values, Allow) && Reports(values, Block)
  {
    hide Conflicts;
    if Reports(values, Allow) && Reports(values, Block) {
      var i :| 0 <= i < |values| && values[i].effect == Allow;
      var j :| 0 <= j < |values| && values[j].effect == Block;
      var c := OppositesConflict(values, i, j);
    }
    if Conflicts(values) != [] {
      var c := Conflicts(values)[0];
      ConflictsAre(values, c);
      var i, j :| IsPairConflict(values, i, j, c);
      assert values[i].effect != RequireApproval && values[j].effect != RequireApproval;
    }
  }

  lemma ProductBound(a: nat, b: nat, x: nat, y: nat)
    requires a <= x && b <= y
    ensures a * b <= x * y
  {
    assert a * b <= a * y <= x * y;
  }

  /** Severity is the product of the heaviest ALLOW's and the heaviest BLOCK's layer weights. */
  lemma SeverityIs(values: seq<PolicyEvaluation>)
    requires !Reports(values, RequireApproval) && Conflicts(values) != []
    ensures MaxSeverity(Conflicts(values)) == MaxWeight(values, Allow) * MaxWeight(values, Block)
  {
    hide Conflicts, MaxWeight, MaxSeverity;
    ConflictIff(values);
    MaxWeightIs(values, Allow);
    MaxWeightIs(values, Block);
    MaxSeverityIs(Conflicts(values));
    var x, y := MaxWeight(values, Allow), MaxWeight(values, Block);
    forall c | c in Conflicts(values) ensures c.severity <= x * y {
      ConflictsAre(values, c);
      var i, j :| IsPairConflict(values, i, j, c);
      assert values[i].effect != RequireApproval && values[j].effect != RequireApproval;
      if values[i].effect == Allow {
        ProductBound(values[i].layer.Weight(), values[j].layer.Weight(), x, y);
      } else {
        ProductBound(values[i].layer.Weight(), values[j].layer.Weight(), y, x);
      }
    }
    var i :| 0 <= i < |values| && values[i].effect == Allow && values[i].layer.Weight() == x;
    var j :| 0 <= j < |values| && values[j].effect == Block && values[j].layer.Weight() == y;
    var c := OppositesConflict(values, i, j);
    assert c.severity == x * y;
  }

  lemma {:induction false} TableHolds(conflicts: seq<PolicyConflict>)
    ensures forall k :: k in PolicyTable(conflicts) ==>
      PolicyTable(conflicts)[k].Key() == k &&
      exists c :: c in conflicts && (PolicyTable(conflicts)[k] == c.left || PolicyTable(conflicts)[k] == c.right)
    ensures forall c :: c in conflicts ==> c.left.Key() in PolicyTable(conflicts) && c.right.Key() in PolicyTable(conflicts)
  {
    if conflicts != [] {
      var front, last := conflicts[..|conflicts| - 1], conflicts[|conflicts| - 1];
      TableHolds(front);
      assert conflicts == front + [last];
      assert last in conflicts;
    }
  }

  lemma UniqueByKey(values: seq<PolicyEvaluation>)
    requires UniqueKeys(values)
    ensures forall x, y :: x in values && y in values && x.Key() == y.Key() ==> x == y
  {
  }

  /** With distinct keys every reported policy is in the table, under its own key. */
  lemma TableIsComplete(values: seq<PolicyEvaluation>, v: PolicyEvaluation)
    requires UniqueKeys(values) && !Reports(values, RequireApproval) && Conflicts(values) != []
    ensures v in values <==> v.Key() in PolicyTable(Conflicts(values)) && PolicyTable(Conflicts(values))[v.Key()] == v
  {
    hide Conflicts, PolicyTable;
    var table := PolicyTable(Conflicts(values));
    TableHolds(Conflicts(values));
    ConflictIff(values);
    UniqueByKey(values);
    if v.Key() in table {
      var c :| c in Conflicts(values) && (table[v.Key()] == c.left || table[v.Key()] == c.right);
      ConflictsAre(values, c);
      var i, j :| IsPairConflict(values, i, j, c);
    }
    if v in values {
      var i :| 0 <= i < |values| && values[i] == v;
      assert values[i].effect != RequireApproval;
      var other := if v.effect == Allow then Block else Allow;
      assert Reports(values, other);
      var j :| 0 <= j < |values| && values[j].effect == other;
      var c := OppositesConflict(values, i, j);
    }
  }

  /** The priority branch acts on the same policy as `fixed_priority` over all the reports. */
  lemma PriorityIs(values: seq<PolicyEvaluation>)
    requires UniqueKeys(values) && !Reports(values, RequireApproval) && Conflicts(values) != []
    ensures values != [] && PriorityEffect(Conflicts(values)) == Top(values).effect
    ensures DecisionOf(PriorityEffect(Conflicts(values))) == FixedPriority(values)
  {
    hide Conflicts, PolicyTable, TableKeys, Top, Precedes;
    ConflictIff(values);
    assert values != [];
    var conflicts := Conflicts(values);
    var keys := TableKeys(conflicts);
    var listed := Listing(PolicyTable(conflicts), keys);
    TableHolds(conflicts);
    assert conflicts[0] in conflicts;
    assert keys != [] && listed != [];
    forall v ensures v in listed <==> v in values {
      TableIsComplete(values, v);
      if v in listed {
        var i :| 0 <= i < |listed| && listed[i] == v;
        assert keys[i] in keys;
      }
      if v in values {
        assert v.Key() in keys;
        var i :| 0 <= i < |keys| && keys[i] == v.Key();
        assert listed[i] == v;
      }
    }
    assert Elements(listed) == Elements(values);
    TopIsTop(listed);
    TopIsTop(values);
    UniqueByKey(values);
    TopUnique(Top(listed), Top(values), Elements(values));
  }

  // ------------------------------------------------------------ closed form

  /** The parts of a resolution that decide what happens. */
  datatype Verdict = Verdict(mode: ResolutionMode, decision: RuntimeDecision, severity: nat, reasonCodes: seq<string>)

  function VerdictOf(r: Resolution): Verdict {
    Verdict(r.mode, r.decision, r.severity, r.reasonCodes)
  }

  /** CARM without conflicts, tables or sorting: it looks only at which effects were reported, at
      the heaviest layer behind each, and at the first policy by precedence. */
  function ClosedForm(values: seq<PolicyEvaluation>, score: real, confidence: real, config: CarmConfig): Verdict {
    var severity := MaxWeight(values, Allow) * MaxWeight(values, Block);
    if Reports(values, RequireApproval) then
      Verdict(EscalationBoundary, ApprovalRequired, 0, ["CARM_UPSTREAM_APPROVAL_REQUIRED"])
    else if !Reports(values, Allow) || !Reports(values, Block) then
      Verdict(NoConflict, MostRestrictive(values), 0, ["CARM_NO_POLICY_CONFLICT"])
    else if confidence < config.minimumTopologyConfidence then
      Verdict(EscalationBoundary, ApprovalRequired, severity, ["CARM_TOPOLOGY_CONFIDENCE_INSUFFICIENT"])
    else if severity < config.severityThreshold then
      Verdict(NegotiatedRelaxation, AllowAction, severity, ["CARM_LOW_SEVERITY_RELAXATION"])
    else if score >= config.reachThreshold then
      Verdict(EscalationBoundary, ApprovalRequired, severity, ["CARM_HIGH_SEVERITY_HIGH_REACH"])
    else if FixedPriority(values) == Some(AllowAction) then
      Verdict(PriorityEnforcement, AllowAction, severity, ["CARM_HIGH_SEVERITY_LOW_REACH"])
    else if config.preventAutomatedBlocking then
      Verdict(EscalationBoundary, ApprovalRequired, severity, ["CARM_AUTOMATED_BLOCK_REROUTED"])
    else
      Verdict(PriorityEnforcement, BlockAction, severity, ["CARM_HIGH_SEVERITY_LOW_REACH"])
  }

  /** The i-th report is the one a stable sort by precedence puts first. */
  ghost predicate SortsFirst(values: seq<PolicyEvaluation>, i: nat) {
    && i < |values|
    && (forall j :: 0 <= j < |values| ==> Precedes(values[i], values[j]))
    && (forall j :: 0 <= j < i ==> !Precedes(values[j], values[i]))
  }

  lemma {:induction false} TopSortsFirst(values: seq<PolicyEvaluation>) returns (i: nat)
    requires values != []
    ensures SortsFirst(values, i) && Top(values) == values[i]
  {
    hide Precedes;
    PrecedesTotal(values[0], values[0]);
    if |values| == 1 {
      i := 0;
    } else {
      var k := TopSortsFirst(values[1..]);
      PrecedesTotal(values[0], values[k + 1]);
      i := if Precedes(values[0], values[k + 1]) then 0 else k + 1;
      assert forall j :: 1 <= j < |values| ==> values[j] == values[1..][j - 1];
      forall j | 0 <= j < |values| ensures Precedes(values[i], values[j]) {
        if i == 0 && j > 0 {
          PrecedesTransitive(values[0], values[k + 1], values[j]);
        }
      }
    }
  }

  /** Some report that sorts first has this effect. */
  ghost predicate FirstSays(values: seq<PolicyEvaluation>, effect: PolicyEffect) {
    exists i: nat :: SortsFirst(values, i) && values[i].effect == effect
  }

  /** `fixed_priority` allows without reports; otherwise the report that sorts first, by layer, policy id and
      version and then by position, decides: it raises exactly when that one asks for approval. */
  lemma FixedPriorityIff(values: seq<PolicyEvaluation>)
    ensures FixedPriority(values) == Some(AllowAction) <==> values == [] || FirstSays(values, Allow)
    ensures FixedPriority(values) == Some(BlockAction) <==> FirstSays(values, Block)
    ensures FixedPriority(values).None? <==> FirstSays(values, RequireApproval)
  {
    hide Precedes, Top;
    if values != [] {
      var i := TopSortsFirst(values);
      forall k: nat | SortsFirst(values, k) ensures k == i {
        assert Precedes(values[i], values[k]) && Precedes(values[k], values[i]);
      }
    }
  }

  /** A regulatory REQUIRE_APPROVAL beside a task-level ALLOW. */
  lemma FixedPriorityRaises(allow: PolicyEvaluation, ask: PolicyEvaluation)
    requires allow.layer == Task && allow.effect == Allow
    requires ask.layer == Regulatory && ask.effect == RequireApproval
    ensures FixedPriority([allow, ask]).None? && MostRestrictive([allow, ask]) == AllowAction
  {
    assert [allow, ask][1..] == [ask];
    assert Top([ask]) == ask;
    assert !Precedes(allow, ask);
  }

  /** The pairwise scan and the table compute the closed form. */
  lemma ResolveIsClosedForm(values: seq<PolicyEvaluation>, reach: ReachEstimate, config: CarmConfig)
    requires UniqueKeys(values)
    ensures VerdictOf(Resolve(values, reach, config))
         == ClosedForm(values, reach.score, reach.topologyConfidence, config)
  {
    hide Conflicts, MaxWeight, MaxSeverity, PriorityEffect, Top;
    if !Reports(values, RequireApproval) {
      ConflictIff(values);
      if Conflicts(values) != [] {
        SeverityIs(values);
        PriorityIs(values);
        var top := Top(values);
        assert top.effect != RequireApproval;
      }
    }
  }

  lemma SameReports(values: seq<PolicyEvaluation>, others: seq<PolicyEvaluation>, effect: PolicyEffect)
    requires Elements(values) == Elements(others)
    ensures Reports(values, effect) == Reports(others, effect)
    ensures MaxWeight(values, effect) == MaxWeight(others, effect)
  {
    hide MaxWeight;
    MaxWeightIs(values, effect);
    MaxWeightIs(others, effect);
    forall i | 0 <= i < |values| && values[i].effect == effect ensures Reports(others, effect) {
      assert values[i] in Elements(others);
    }
    forall i | 0 <= i < |others| && others[i].effect == effect ensures Reports(values, effect) {
      assert others[i] in Elements(values);
    }
    if Reports(values, effect) {
      var i :| 0 <= i < |values| && values[i].effect == effect && values[i].layer.Weight() == MaxWeight(values, effect);
      assert values[i] in Elements(others);
      var j :| 0 <= j < |others| && others[j].effect == effect && others[j].layer.Weight() == MaxWeight(others, effect);
      assert others[j] in Elements(values);
    }
  }

  /** The order in which a runtime lists its reports does not change the verdict. */
  lemma VerdictIgnoresOrder(values: seq<PolicyEvaluation>, others: seq<PolicyEvaluation>, reach: ReachEstimate,
                            config: CarmConfig)
    requires UniqueKeys(values) && UniqueKeys(others) && Elements(values) == Elements(others)
    ensures VerdictOf(Resolve(values, reach, config)) == VerdictOf(Resolve(others, reach, config))
  {
    hide Resolve, MaxWeight, Top, Reports, Precedes;
    ResolveIsClosedForm(values, reach, config);
    ResolveIsClosedForm(others, reach, config);
    SameReports(values, others, Allow);
    SameReports(values, others, Block);
    SameReports(values, others, RequireApproval);
    if values != [] {
      assert values[0] in Elements(others);
      TopIsTop(values);
      TopIsTop(others);
      UniqueByKey(values);
      TopUnique(Top(values), Top(others), Elements(values));
    } else {
      assert forall v :: v !in Elements(values);
      assert forall i :: 0 <= i < |others| ==> others[i] in Elements(others);
    }
  }

  // ------------------------------------------------------------- escalation

  /** A larger reach with a lower confidence never turns an escalation into an automatic decision. */
  lemma EscalationMonotone(values: seq<PolicyEvaluation>, low: ReachEstimate, high: ReachEstimate, config: CarmConfig)
    requires low.score <= high.score && high.topologyConfidence <= low.topologyConfidence
    requires Resolve(values, low, config).decision == ApprovalRequired
    ensures Resolve(values, high, config).decision == ApprovalRequired
  {
    hide Conflicts, MaxSeverity, PriorityEffect;
  }

  /** If CARM asks for approval at a node, it asks for approval at every ancestor. */
  lemma EscalationUpwardClosed(g: Graph, rnd: real -> real, ancestor: string, node: string,
                               ra: ReachEstimate, rn: ReachEstimate,
                               values: seq<PolicyEvaluation>, config: CarmConfig)
    requires Rounding(rnd) && g.Reaches(ancestor, node)
    requires IsReach(g, rnd, ancestor, ra) && IsReach(g, rnd, node, rn)
    requires Resolve(values, rn, config).decision == ApprovalRequired
    ensures Resolve(values, ra, config).decision == ApprovalRequired
  {
    hide Resolve;
    ReachGrowsUpstream(g, rnd, ancestor, node, ra, rn);
    EscalationMonotone(values, rn, ra, config);
  }
}
