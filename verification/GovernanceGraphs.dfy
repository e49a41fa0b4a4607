/** governance_graph.py: construction with Kahn's check, and the reach worklist. */
module GovernanceGraphs {
  import opened Prelude
  import opened Ordering
  import opened Topology
  import opened GraphDigests
  import opened GraphLoops

  function NodeMap(nodes: seq<GraphNode>): map<string, GraphNode> {
    if nodes == [] then map[]
    else
      var last := nodes[|nodes| - 1];
      NodeMap(nodes[..|nodes| - 1])[last.nodeId := last]
  }

  function EdgeMap(edges: seq<GraphEdge>): map<(string, string), GraphEdge> {
    if edges == [] then map[]
    else
      var last := edges[|edges| - 1];
      EdgeMap(edges[..|edges| - 1])[(last.source, last.target) := last]
  }

  ghost predicate DistinctIds(nodes: seq<GraphNode>) {
    forall i, j :: 0 <= i < j < |nodes| ==> nodes[i].nodeId != nodes[j].nodeId
  }

  ghost predicate DistinctEdges(edges: seq<GraphEdge>) {
    forall i, j :: 0 <= i < j < |edges| ==>
      edges[i].source != edges[j].source || edges[i].target != edges[j].target
  }

  lemma NoNodes(nodes: seq<GraphNode>)
    ensures NodeMap(nodes[..0]) == map[] && DistinctIds(nodes[..0])
  {
  }

  lemma NextNode(nodes: seq<GraphNode>, i: nat)
    requires i < |nodes| && DistinctIds(nodes[..i])
    ensures NodeMap(nodes[..i + 1]) == NodeMap(nodes[..i])[nodes[i].nodeId := nodes[i]]
    ensures if nodes[i].nodeId in NodeMap(nodes[..i]) then !DistinctIds(nodes) else DistinctIds(nodes[..i + 1])
  {
    var done := nodes[..i];
    assert nodes[..i + 1][..i] == done;
    NodeMapIs(done);
    if nodes[i].nodeId in NodeMap(done) {
      var k :| 0 <= k < |done| && done[k].nodeId == nodes[i].nodeId;
      assert nodes[k] == done[k];
    } else {
      forall a, b | 0 <= a < b < i + 1 ensures nodes[a].nodeId != nodes[b].nodeId {
        assert nodes[a] == done[a];
        if b < i {
          assert nodes[b] == done[b];
        }
      }
    }
  }

  lemma {:induction false} NodeMapIs(nodes: seq<GraphNode>)
    ensures forall k :: k in NodeMap(nodes) ==>
      exists i :: 0 <= i < |nodes| && nodes[i].nodeId == k && NodeMap(nodes)[k] == nodes[i]
    ensures forall i :: 0 <= i < |nodes| ==> nodes[i].nodeId in NodeMap(nodes)
    ensures DistinctIds(nodes) ==> forall i :: 0 <= i < |nodes| ==> NodeMap(nodes)[nodes[i].nodeId] == nodes[i]
  {
    if nodes != [] {
      NodeMapIs(nodes[..|nodes| - 1]);
    }
  }

  lemma {:induction false} EdgeMapIs(edges: seq<GraphEdge>)
    ensures forall k :: k in EdgeMap(edges) ==>
      exists i :: 0 <= i < |edges| && (edges[i].source, edges[i].target) == k && EdgeMap(edges)[k] == edges[i]
    ensures forall i :: 0 <= i < |edges| ==> (edges[i].source, edges[i].target) in EdgeMap(edges)
    ensures DistinctEdges(edges) ==>
      forall i :: 0 <= i < |edges| ==> EdgeMap(edges)[(edges[i].source, edges[i].target)] == edges[i]
  {
    if edges != [] {
      EdgeMapIs(edges[..|edges| - 1]);
    }
  }

  /** The node and edge checks the constructor makes one by one. */
  ghost predicate NodeOk(n: GraphNode) {
    IsProbability(n.confidence)
  }

  ghost predicate EdgeOk(nodes: map<string, GraphNode>, e: GraphEdge) {
    && e.source in nodes && e.target in nodes
    && e.source != e.target
    && IsProbability(e.confidence)
  }

  /** The inputs the constructor accepts: no duplicates, and a well-formed DAG meeting the join rules. */
  ghost predicate Constructible(nodes: seq<GraphNode>, edges: seq<GraphEdge>) {
    && DistinctIds(nodes) && DistinctEdges(edges)
    && Graph(NodeMap(nodes), EdgeMap(edges)).WellFormed()
  }

  lemma NodesProperIff(nodes: seq<GraphNode>, edges: map<(string, string), GraphEdge>)
    requires DistinctIds(nodes)
    ensures Graph(NodeMap(nodes), edges).NodesProper() <==> forall i :: 0 <= i < |nodes| ==> NodeOk(nodes[i])
  {
    NodeMapIs(nodes);
    if Graph(NodeMap(nodes), edges).NodesProper() {
      forall i | 0 <= i < |nodes| ensures NodeOk(nodes[i]) {
        assert nodes[i].nodeId in NodeMap(nodes);
      }
    }
  }

  lemma EdgesProperIff(nodes: map<string, GraphNode>, edges: seq<GraphEdge>)
    requires DistinctEdges(edges)
    ensures Graph(nodes, EdgeMap(edges)).EdgesProper() <==> forall i :: 0 <= i < |edges| ==> EdgeOk(nodes, edges[i])
  {
    EdgeMapIs(edges);
    if Graph(nodes, EdgeMap(edges)).EdgesProper() {
      forall i | 0 <= i < |edges| ensures EdgeOk(nodes, edges[i]) {
        assert (edges[i].source, edges[i].target) in EdgeMap(edges);
      }
    }
  }

  /** The adjacency tables of a graph. */
  ghost predicate TablesOf(g: Graph, outgoing: map<string, set<string>>, incoming: map<string, set<string>>,
                           confidence: map<(string, string), WrittenDecimal>) {
    && outgoing.Keys == g.nodes.Keys && incoming.Keys == g.nodes.Keys && confidence.Keys == g.edges.Keys
    && (forall n :: n in g.nodes ==> outgoing[n] == g.Out(n) && incoming[n] == g.In(n))
    && (forall p :: p in g.edges ==> confidence[p] == g.edges[p].confidence)
  }

  lemma OutGrows(g: Graph, e: GraphEdge, n: string)
    requires e.source in g.nodes && e.target in g.nodes
    ensures Graph(g.nodes, g.edges[(e.source, e.target) := e]).Out(n)
         == if n == e.source then g.Out(n) + {e.target} else g.Out(n)
  {
  }

  lemma InGrows(g: Graph, e: GraphEdge, n: string)
    requires e.source in g.nodes && e.target in g.nodes
    ensures Graph(g.nodes, g.edges[(e.source, e.target) := e]).In(n)
         == if n == e.target then g.In(n) + {e.source} else g.In(n)
  {
  }

  lemma TablesGrow(g: Graph, e: GraphEdge, outgoing: map<string, set<string>>, incoming: map<string, set<string>>,
                   confidence: map<(string, string), WrittenDecimal>)
    requires TablesOf(g, outgoing, incoming, confidence) && e.source in g.nodes && e.target in g.nodes
    ensures TablesOf(Graph(g.nodes, g.edges[(e.source, e.target) := e]),
                     outgoing[e.source := outgoing[e.source] + {e.target}],
                     incoming[e.target := incoming[e.target] + {e.source}],
                     confidence[(e.source, e.target) := e.confidence])
  {
    var h := Graph(g.nodes, g.edges[(e.source, e.target) := e]);
    var out' := outgoing[e.source := outgoing[e.source] + {e.target}];
    var in' := incoming[e.target := incoming[e.target] + {e.source}];
    forall n | n in g.nodes ensures out'[n] == h.Out(n) && in'[n] == h.In(n) {
      OutGrows(g, e, n);
      InGrows(g, e, n);
    }
  }

  lemma EdgeMapStep(edges: seq<GraphEdge>, i: nat)
    requires i < |edges|
    ensures EdgeMap(edges[..i + 1]) == EdgeMap(edges[..i])[(edges[i].source, edges[i].target) := edges[i]]
  {
    assert edges[..i + 1][..i] == edges[..i];
  }

  /** An end-point pair already in the table is a duplicate; a new pair keeps the list distinct. */
  lemma DistinctStep(edges: seq<GraphEdge>, i: nat)
    requires i < |edges| && DistinctEdges(edges[..i])
    ensures (edges[i].source, edges[i].target) in EdgeMap(edges[..i]) ==> !DistinctEdges(edges)
    ensures (edges[i].source, edges[i].target) !in EdgeMap(edges[..i]) ==> DistinctEdges(edges[..i + 1])
  {
    var done, key := edges[..i], (edges[i].source, edges[i].target);
    EdgeMapIs(done);
    if key in EdgeMap(done) {
      var k :| 0 <= k < |done| && (done[k].source, done[k].target) == key;
      assert edges[k].source == edges[i].source && edges[k].target == edges[i].target;
    } else {
      forall k | 0 <= k < i ensures edges[k].source != edges[i].source || edges[k].target != edges[i].target {
        assert done[k] == edges[k];
        assert (done[k].source, done[k].target) in EdgeMap(done);
      }
    }
  }

  /** The tables hold the first `i` edges, which all passed their checks. */
  ghost predicate EdgesCollected(
      nodes: map<string, GraphNode>, edges: seq<GraphEdge>, i: nat, outgoing: map<string, set<string>>,
      incoming: map<string, set<string>>, confidence: map<(string, string), WrittenDecimal>)
  {
    && i <= |edges|
    && TablesOf(Graph(nodes, EdgeMap(edges[..i])), outgoing, incoming, confidence)
    && DistinctEdges(edges[..i])
    && forall k :: 0 <= k < i ==> EdgeOk(nodes, edges[k])
  }

  lemma EdgesCollectedStart(
      nodes: map<string, GraphNode>, edges: seq<GraphEdge>, outgoing: map<string, set<string>>,
      incoming: map<string, set<string>>)
    requires outgoing == (map n | n in nodes :: {}) && incoming == (map n | n in nodes :: {})
    ensures EdgesCollected(nodes, edges, 0, outgoing, incoming, map[])
  {
    assert edges[..0] == [];
    forall n | n in nodes ensures Graph(nodes, map[]).Out(n) == {} && Graph(nodes, map[]).In(n) == {} {
    }
  }

  lemma EdgesCollectedStep(
      nodes: map<string, GraphNode>, edges: seq<GraphEdge>, i: nat, outgoing: map<string, set<string>>,
      incoming: map<string, set<string>>, confidence: map<(string, string), WrittenDecimal>)
    requires i < |edges| && EdgesCollected(nodes, edges, i, outgoing, incoming, confidence)
    ensures outgoing.Keys == nodes.Keys && incoming.Keys == nodes.Keys
    ensures (edges[i].source, edges[i].target) in confidence ==> !DistinctEdges(edges)
    ensures EdgeOk(nodes, edges[i]) && (edges[i].source, edges[i].target) !in confidence ==>
      EdgesCollected(nodes, edges, i + 1,
                     outgoing[edges[i].source := outgoing[edges[i].source] + {edges[i].target}],
                     incoming[edges[i].target := incoming[edges[i].target] + {edges[i].source}],
                     confidence[(edges[i].source, edges[i].target) := edges[i].confidence])
  {
    DistinctStep(edges, i);
    EdgeMapStep(edges, i);
    if EdgeOk(nodes, edges[i]) {
      TablesGrow(Graph(nodes, EdgeMap(edges[..i])), edges[i], outgoing, incoming, confidence);
    }
  }

  lemma EdgesCollectedDone(
      nodes: map<string, GraphNode>, edges: seq<GraphEdge>, outgoing: map<string, set<string>>,
      incoming: map<string, set<string>>, confidence: map<(string, string), WrittenDecimal>)
    requires EdgesCollected(nodes, edges, |edges|, outgoing, incoming, confidence)
    ensures TablesOf(Graph(nodes, EdgeMap(edges)), outgoing, incoming, confidence)
    ensures DistinctEdges(edges) && forall k :: 0 <= k < |edges| ==> EdgeOk(nodes, edges[k])
  {
    assert edges[..|edges|] == edges;
  }

  class GovernanceGraph {
    var nodes: map<string, GraphNode>
    var edges: seq<GraphEdge>
    var outgoing: map<string, set<string>>
    var incoming: map<string, set<string>>
    var edgeConfidence: map<(string, string), WrittenDecimal>

    function View(): Graph
      reads this
    {
      Graph(nodes, EdgeMap(edges))
    }

    ghost predicate Tables()
      reads this
    {
      TablesOf(View(), outgoing, incoming, edgeConfidence)
    }

    ghost predicate Valid()
      reads this
    {
      Tables() && View().WellFormed()
    }

    constructor () {
      nodes, edges, outgoing, incoming, edgeConfidence := map[], [], map[], map[], map[];
    }

    /** `__init__`; `ok` is false where Python raises. */
    method Build(nodeList: seq<GraphNode>, edgeList: seq<GraphEdge>) returns (ok: bool)
      modifies this
      ensures ok <==> Constructible(nodeList, edgeList)
      ensures ok ==> Valid() && View() == Graph(NodeMap(nodeList), EdgeMap(edgeList))
    {
      ok := CollectNodes(nodeList);
      if DistinctIds(nodeList) {
        NodesProperIff(nodeList, EdgeMap(edgeList));
      }
      if !ok {
        return;
      }
      edges := edgeList;
      ok := CollectEdges();
      if DistinctEdges(edgeList) {
        EdgesProperIff(nodes, edgeList);
      }
      if !ok {
        return;
      }
      ok := JoinTypesHold();
      if !ok {
        return;
      }
      ok := IsAcyclic();
    }

    method CollectNodes(nodeList: seq<GraphNode>) returns (ok: bool)
      modifies this`nodes
      ensures ok <==> DistinctIds(nodeList) && forall i :: 0 <= i < |nodeList| ==> NodeOk(nodeList[i])
      ensures ok ==> nodes == NodeMap(nodeList)
    {
      hide NodeMap, DistinctIds, IsProbability;
      nodes := map[];
      NoNodes(nodeList);
      for i := 0 to |nodeList|
        invariant nodes == NodeMap(nodeList[..i])
        invariant DistinctIds(nodeList[..i])
        invariant forall k :: 0 <= k < i ==> NodeOk(nodeList[k])
      {
        var node := nodeList[i];
        NextNode(nodeList, i);
        if node.nodeId in nodes {
          return false;
        }
        if !IsProbability(node.confidence) {
          return false;
        }
        nodes := nodes[node.nodeId := node];
      }
      assert nodeList[..|nodeList|] == nodeList;
      return true;
    }

    method CollectEdges() returns (ok: bool)
      modifies this`outgoing, this`incoming, this`edgeConfidence
      ensures ok <==> DistinctEdges(edges) && forall i :: 0 <= i < |edges| ==> EdgeOk(nodes, edges[i])
      ensures ok ==> Tables()
    {
      hide EdgesCollected;
      outgoing := map n | n in nodes :: {};
      incoming := map n | n in nodes :: {};
      edgeConfidence := map[];
      EdgesCollectedStart(nodes, edges, outgoing, incoming);
      for i := 0 to |edges|
        invariant EdgesCollected(nodes, edges, i, outgoing, incoming, edgeConfidence)
      {
        var edge := edges[i];
        EdgesCollectedStep(nodes, edges, i, outgoing, incoming, edgeConfidence);
        if edge.source !in nodes || edge.target !in nodes {
          return false;
        }
        if edge.source == edge.target {
          return false;
        }
        if !IsProbability(edge.confidence) {
          return false;
        }
        if (edge.source, edge.target) in edgeConfidence {
          return false;
        }
        outgoing := outgoing[edge.source := outgoing[edge.source] + {edge.target}];
        incoming := incoming[edge.target := incoming[edge.target] + {edge.source}];
        edgeConfidence := edgeConfidence[(edge.source, edge.target) := edge.confidence];
      }
      EdgesCollectedDone(nodes, edges, outgoing, incoming, edgeConfidence);
      return true;
    }

    method JoinTypesHold() returns (ok: bool)
      requires Tables()
      ensures ok <==> forall n :: n in nodes ==> View().JoinRuleHolds(n)
    {
      var todo := incoming.Keys;
      while todo != {}
        invariant todo <= nodes.Keys
        invariant forall n :: n in nodes && n !in todo ==> View().JoinRuleHolds(n)
        decreases |todo|
      {
        var n :| n in todo;
        todo := todo - {n};
        var join := nodes[n].joinType;
        assert incoming[n] == View().In(n);
        if |incoming[n]| <= 1 && (join == JoinAnd || join == JoinOr) {
          assert !View().JoinRuleHolds(n);
          return false;
        }
        if |incoming[n]| > 1 && join == JoinSingle {
          assert !View().JoinRuleHolds(n);
          return false;
        }
      }
      return true;
    }

    /** `_validate_acyclic`. */
    method IsAcyclic() returns (ok: bool)
      requires Tables() && View().EdgesProper()
      ensures ok <==> View().Acyclic()
    {
      hide KahnState, Graph.Acyclic, Graph.EdgesProper, Graph.In, Graph.Out, Ascending, Distinct, Sorted;
      ghost var g := View();
      var indegree: map<string, int> := map n | n in nodes :: |incoming[n]|;
      var sources := set n | n in nodes && indegree[n] == 0;
      var ready := Sorted(CodePoint, sources);
      SortedAscending(CodePoint, sources);
      KahnStart(g, indegree, ready);
      var visited := 0;
      ghost var order: seq<string> := [];
      while ready != []
        invariant KahnState(g, order, indegree, ready)
        invariant visited == |order|
        decreases |nodes| - |order|
      {
        var current := ready[0];
        visited := visited + 1;
        indegree, ready := Release(current, indegree, ready, order);
        order := order + [current];
        KahnProgress(g, order, indegree, ready);
      }
      KahnDecides(g, order, indegree);
      ok := visited == |nodes|;
    }

    /** One round of Kahn's loop: pop `current`, decrement its targets, queue those that reach zero. */
    method Release(current: string, indegree0: map<string, int>, ready0: seq<string>, ghost order: seq<string>)
      returns (indegree: map<string, int>, ready: seq<string>)
      requires Tables() && View().EdgesProper()
      requires ready0 != [] && ready0[0] == current && KahnState(View(), order, indegree0, ready0)
      ensures KahnState(View(), order + [current], indegree, ready)
    {
      ghost var g := View();
      assert current in ready0;
      var targets := Sorted(CodePoint, outgoing[current]);
      SortedAscending(CodePoint, outgoing[current]);
      KahnVisit(g, order, indegree0, ready0, targets);
      indegree, ready := indegree0, ready0[1..];
      ghost var longer := order + [current];
      for i := 0 to |targets|
        invariant Releasing(g, longer, targets[i..], indegree, ready)
      {
        var target := targets[i];
        assert targets[i..][0] == target && targets[i..][1..] == targets[i + 1..];
        assert target in targets[i..];
        ghost var indegree', ready' := indegree, ready;
        indegree := indegree[target := indegree[target] - 1];
        if indegree[target] == 0 {
          ready := Insert(ready, target);
        }
        ReleaseStep(g, longer, targets[i..], indegree', ready', indegree, ready);
      }
      assert targets[|targets|..] == [];
      ReleaseDone(g, longer, indegree, ready);
    }

    /** `ready.append(target); ready.sort()` on a list without repeats. */
    method Insert(ready: seq<string>, target: string) returns (r: seq<string>)
      ensures Distinct(r) && forall n :: n in r <==> n in ready || n == target
    {
      var items := (set n | n in ready) + {target};
      SortedAscending(CodePoint, items);
      r := Sorted(CodePoint, items);
    }

    /** `estimate_reach`. */
    method EstimateReach(source: string, rnd: real -> real) returns (r: Result<ReachEstimate, ErrorCode>)
      requires Valid()
      ensures source !in nodes ==> r == Err(InvalidGovernanceGraph)
      ensures source in nodes ==> r.Ok? && IsReach(View(), rnd, source, r.value)
      ensures source in nodes ==> r.Ok? && r.value.graphDigest == GraphDigest(View())
    {
      if source !in nodes {
        return Err(InvalidGovernanceGraph);
      }
      var reachable, confidence := Close(source);
      var score, unknown, lowered := Score(source, reachable, confidence, rnd);
      r := Ok(ReachEstimate(score, Sorted(CodePoint, reachable), lowered, unknown, GraphDigest(View())));
    }

    method Score(source: string, reachable: set<string>, start: real, rnd: real -> real)
      returns (score: real, unknown: seq<string>, confidence: real)
      requires Tables() && source in nodes
      requires reachable == View().Descendants(source) && IsMinimum(start, TermsSoFar(View(), source, reachable))
      ensures score == Accumulate(View(), rnd, 0.0, Sorted(CodePoint, reachable))
      ensures unknown == UnknownJoins(View(), Sorted(CodePoint, reachable))
      ensures IsMinimum(confidence, ConfidenceTerms(View(), source))
    {
      hide ScoreState, UnknownTermsOf, TermsSoFar, UnknownTerms, Accumulate, UnknownJoins, Sorted, IsMinimum,
           ConfidenceTerms, JoinWeight, TablesOf, Graph.Descendants, EdgeMap, Distinct, Elements;
      ghost var g := View();
      ghost var terms := TermsSoFar(g, source, reachable);
      var ids := Sorted(CodePoint, reachable);
      score, unknown, confidence := 0.0, [], start;
      DescendantsKnown(g, source);
      ScoreStart(g, rnd, ids);
      UnknownTermsNone(g, ids, start, terms);
      for i := 0 to |ids|
        invariant ScoreState(g, rnd, ids, i, score, unknown)
        invariant IsMinimum(confidence, terms + UnknownTermsOf(g, ids[..i]))
      {
        ScoreStep(g, rnd, ids, i, score, unknown);
        UnknownTermsStep(g, ids, i, confidence, terms);
        score, unknown, confidence := ScoreNode(ids[i], score, unknown, confidence, rnd);
      }
      ScoreDone(g, rnd, ids, score, unknown);
      assert ids[..|ids|] == ids;
      UnknownTermsAll(g, ids, reachable, source);
    }

    /** One round of the scoring loop. */
    method ScoreNode(n: string, score0: real, unknown0: seq<string>, confidence0: real, rnd: real -> real)
      returns (score: real, unknown: seq<string>, confidence: real)
      requires Tables() && n in nodes
      ensures score == rnd(score0 + JoinWeight(View(), rnd, n))
      ensures nodes[n].joinType == JoinUnknown ==>
        unknown == unknown0 + [n] && confidence == (if 0.5 < confidence0 then 0.5 else confidence0)
      ensures nodes[n].joinType != JoinUnknown ==> unknown == unknown0 && confidence == confidence0
    {
      score, unknown, confidence := score0, unknown0, confidence0;
      var join := nodes[n].joinType;
      if join == JoinOr {
        var count := |incoming[n]|;
        score := rnd(score + rnd(1.0 / (if count <= 1 then 1 else count) as real));
      } else {
        score := rnd(score + 1.0);
        if join == JoinUnknown {
          unknown := unknown + [n];
          confidence := if 0.5 < confidence then 0.5 else confidence;
        }
      }
    }

    /** The worklist, which may hold a node several times. */
    method Close(source: string) returns (reachable: set<string>, confidence: real)
      requires Valid() && source in nodes
      ensures reachable == View().Descendants(source)
      ensures IsMinimum(confidence, TermsSoFar(View(), source, reachable))
    {
      hide ReachState, IsMinimum, TermsSoFar, Graph.WellFormed, Graph.Out, Graph.In;
      ghost var g := View();
      reachable := {};
      var frontier := Sorted(CodePoint, outgoing[source]);
      confidence := nodes[source].confidence.number;
      ReachStart(g, source, frontier);
      TermsStart(g, source);
      MinimumAlone(confidence);
      while frontier != []
        invariant ReachState(g, source, reachable, frontier)
        invariant IsMinimum(confidence, TermsSoFar(g, source, reachable))
        decreases |nodes.Keys - reachable|, |frontier|
      {
        var current := frontier[0];
        ReachFrontier(g, source, reachable, frontier);
        if current in reachable {
          ReachSkip(g, source, reachable, frontier);
          frontier := frontier[1..];
          continue;
        }
        confidence := Lower(current, confidence, source, reachable);
        var more := Sorted(CodePoint, outgoing[current] - (reachable + {current}));
        ReachVisit(g, source, reachable, frontier, more);
        ShrinksBy(nodes.Keys, reachable, current);
        reachable := reachable + {current};
        frontier := frontier[1..] + more;
      }
      ReachDone(g, source, reachable);
    }

    method Lower(current: string, start: real, ghost source: string, ghost reachable: set<string>)
      returns (confidence: real)
      requires Valid() && current in nodes && IsMinimum(start, TermsSoFar(View(), source, reachable))
      ensures IsMinimum(confidence, TermsSoFar(View(), source, reachable + {current}))
    {
      ghost var terms := TermsSoFar(View(), source, reachable);
      TermsGrow(View(), source, reachable, current);
      var own := nodes[current].confidence.number;
      confidence := if own < start then own else start;
      MinimumOf(start, terms, own, confidence);
      confidence := LowerByIncoming(current, confidence, terms + {own});
    }

    method LowerByIncoming(current: string, start: real, ghost terms: set<real>) returns (confidence: real)
      requires Valid() && current in nodes && IsMinimum(start, terms)
      ensures IsMinimum(confidence, terms + EdgeTerms(View(), {current}))
    {
      ghost var g := View();
      assert g.EdgesProper();
      hide Graph.WellFormed, Graph.EdgesProper, IsMinimum, IncomingTerms, Graph.In, Graph.Out;
      confidence := start;
      var todo := incoming[current];
      LowerStart(g, current, start, terms);
      while todo != {}
        invariant LowerState(g, current, todo, confidence, terms)
        decreases |todo|
      {
        var parent :| parent in todo;
        LowerStep(g, current, todo, parent, confidence, terms);
        var c := edgeConfidence[(parent, current)].number;
        todo := todo - {parent};
        confidence := if c < confidence then c else confidence;
      }
      LowerDone(g, current, confidence, terms);
    }
  }


  /** After the first `i` nodes: what is left to add is the sum and the list over the others. */
  ghost predicate ScoreState(g: Graph, rnd: real -> real, ids: seq<string>, i: nat, score: real, unknown: seq<string>) {
    && i <= |ids|
    && (forall n :: n in ids ==> n in g.nodes)
    && Accumulate(g, rnd, 0.0, ids) == Accumulate(g, rnd, score, ids[i..])
    && UnknownJoins(g, ids) == unknown + UnknownJoins(g, ids[i..])
  }

  lemma ScoreStart(g: Graph, rnd: real -> real, ids: seq<string>)
    requires forall n :: n in ids ==> n in g.nodes
    ensures ScoreState(g, rnd, ids, 0, 0.0, [])
  {
    assert ids[0..] == ids;
  }

  lemma ScoreStep(g: Graph, rnd: real -> real, ids: seq<string>, i: nat, score: real, unknown: seq<string>)
    requires i < |ids| && ScoreState(g, rnd, ids, i, score, unknown)
    ensures ids[i] in g.nodes
    ensures ScoreState(g, rnd, ids, i + 1, rnd(score + JoinWeight(g, rnd, ids[i])),
                       if g.nodes[ids[i]].joinType == JoinUnknown then unknown + [ids[i]] else unknown)
  {
    var rest := ids[i + 1..];
    assert ids[i..][1..] == rest;
    AccumulateHead(g, rnd, score, ids[i..], ids[i], rest);
    assert UnknownJoins(g, ids[i..])
        == (if g.nodes[ids[i]].joinType == JoinUnknown then [ids[i]] else []) + UnknownJoins(g, rest);
  }

  lemma ScoreDone(g: Graph, rnd: real -> real, ids: seq<string>, score: real, unknown: seq<string>)
    requires ScoreState(g, rnd, ids, |ids|, score, unknown)
    ensures score == Accumulate(g, rnd, 0.0, ids) && unknown == UnknownJoins(g, ids)
  {
    assert ids[|ids|..] == [];
  }

  lemma ShrinksBy(all: set<string>, done: set<string>, x: string)
    requires x in all && x !in done
    ensures |all - (done + {x})| < |all - done|
  {
    assert all - done == (all - (done + {x})) + {x};
  }

  ghost function IncomingTerms(g: Graph, n: string, parents: set<string>): set<real>
    requires parents <= g.In(n)
  {
    set a | a in parents :: g.edges[(a, n)].confidence.number
  }

  lemma IncomingTermsGrow(g: Graph, n: string, parents: set<string>, a: string)
    requires parents + {a} <= g.In(n)
    ensures IncomingTerms(g, n, parents + {a}) == IncomingTerms(g, n, parents) + {g.edges[(a, n)].confidence.number}
  {
  }

  lemma IncomingTermsAll(g: Graph, n: string)
    requires g.EdgesProper()
    ensures IncomingTerms(g, n, g.In(n)) == EdgeTerms(g, {n})
  {
    forall p | p in g.edges && p.1 in {n} ensures g.edges[p].confidence.number in IncomingTerms(g, n, g.In(n)) {
      assert p == (p.0, n) && p.0 in g.In(n);
    }
    forall a | a in g.In(n) ensures g.edges[(a, n)].confidence.number in EdgeTerms(g, {n}) {
      assert (a, n).1 in {n};
    }
  }

  /** The minimum so far covers the incoming edges that are no longer to do. */
  ghost predicate LowerState(g: Graph, n: string, todo: set<string>, confidence: real, terms: set<real>) {
    todo <= g.In(n) && IsMinimum(confidence, terms + IncomingTerms(g, n, g.In(n) - todo))
  }

  lemma LowerStart(g: Graph, n: string, start: real, terms: set<real>)
    requires IsMinimum(start, terms)
    ensures LowerState(g, n, g.In(n), start, terms)
  {
    hide IsMinimum;
    assert g.In(n) - g.In(n) == {};
    assert IncomingTerms(g, n, {}) == {};
    assert terms + {} == terms;
  }

  lemma LowerStep(g: Graph, n: string, todo: set<string>, a: string, confidence: real, terms: set<real>)
    requires LowerState(g, n, todo, confidence, terms) && a in todo
    ensures (a, n) in g.edges
    ensures var c := g.edges[(a, n)].confidence.number;
      LowerState(g, n, todo - {a}, if c < confidence then c else confidence, terms)
  {
    hide IsMinimum, IncomingTerms;
    assert a in g.In(n);
    var c, seen := g.edges[(a, n)].confidence.number, IncomingTerms(g, n, g.In(n) - todo);
    IncomingTermsGrow(g, n, g.In(n) - todo, a);
    assert g.In(n) - (todo - {a}) == (g.In(n) - todo) + {a};
    MinimumOf(confidence, terms + seen, c, if c < confidence then c else confidence);
    assert terms + (seen + {c}) == (terms + seen) + {c};
  }

  lemma LowerDone(g: Graph, n: string, confidence: real, terms: set<real>)
    requires g.EdgesProper() && LowerState(g, n, {}, confidence, terms)
    ensures IsMinimum(confidence, terms + EdgeTerms(g, {n}))
  {
    hide IsMinimum, IncomingTerms, Graph.EdgesProper;
    assert g.In(n) - {} == g.In(n);
    IncomingTermsAll(g, n);
  }

  ghost function UnknownTermsOf(g: Graph, ids: seq<string>): set<real> {
    if exists n :: n in ids && n in g.nodes && g.nodes[n].joinType == JoinUnknown then {0.5} else {}
  }

  lemma DescendantsKnown(g: Graph, source: string)
    ensures g.Descendants(source) <= g.nodes.Keys
  {
  }

  lemma UnknownTermsNone(g: Graph, ids: seq<string>, c: real, terms: set<real>)
    requires IsMinimum(c, terms)
    ensures IsMinimum(c, terms + UnknownTermsOf(g, ids[..0]))
  {
    assert terms + {} == terms;
  }

  lemma UnknownTermsStep(g: Graph, ids: seq<string>, i: nat, c: real, terms: set<real>)
    requires i < |ids| && ids[i] in g.nodes && IsMinimum(c, terms + UnknownTermsOf(g, ids[..i]))
    ensures IsMinimum(
      if g.nodes[ids[i]].joinType == JoinUnknown && 0.5 < c then 0.5 else c, terms + UnknownTermsOf(g, ids[..i + 1]))
  {
    assert ids[..i + 1] == ids[..i] + [ids[i]];
    assert UnknownTermsOf(g, ids[..i + 1])
        == if g.nodes[ids[i]].joinType == JoinUnknown then UnknownTermsOf(g, ids[..i]) + {0.5}
           else UnknownTermsOf(g, ids[..i]);
  }

  lemma UnknownTermsAll(g: Graph, ids: seq<string>, reachable: set<string>, source: string)
    requires forall n :: n in ids <==> n in reachable
    requires reachable == g.Descendants(source)
    ensures TermsSoFar(g, source, reachable) + UnknownTermsOf(g, ids) == ConfidenceTerms(g, source)
  {
    if n :| n in ids && n in g.nodes && g.nodes[n].joinType == JoinUnknown {
      assert n in reachable;
    }
    if n :| n in reachable && n in g.nodes && g.nodes[n].joinType == JoinUnknown {
      assert n in ids;
    }
  }
}
