/** Directed graphs as values: walks, cycles, descendants and the reach of a node. */
module Topology {
  import opened Prelude
  import opened Ordering
  import opened Canonical

  datatype JoinType = JoinSingle | JoinOr | JoinAnd | JoinUnknown

  /** A Python `Decimal`: its text (`str`) and the number it denotes. */
  datatype WrittenDecimal = WrittenDecimal(text: string, number: real)

  datatype GraphNode = GraphNode(nodeId: string, joinType: JoinType, confidence: WrittenDecimal)
  datatype GraphEdge = GraphEdge(source: string, target: string, required: bool, confidence: WrittenDecimal)

  /** The nodes by id and the edges by their end points. */
  datatype Graph = Graph(nodes: map<string, GraphNode>, edges: map<(string, string), GraphEdge>) {
    function Out(n: string): set<string> {
      set b | b in nodes && (n, b) in edges
    }

    function In(n: string): set<string> {
      set a | a in nodes && (a, n) in edges
    }

    ghost predicate IsWalk(p: seq<string>) {
      forall i :: 0 <= i < |p| - 1 ==> p[i + 1] in Out(p[i])
    }

    ghost predicate WalkBetween(p: seq<string>, a: string, b: string) {
      |p| >= 2 && IsWalk(p) && p[0] == a && p[|p| - 1] == b
    }

    /** b lies strictly downstream of a. */
    ghost predicate Reaches(a: string, b: string) {
      exists p :: WalkBetween(p, a, b)
    }

    ghost predicate Acyclic() {
      forall a :: !Reaches(a, a)
    }

    ghost predicate EdgesProper() {
      forall a, b :: (a, b) in edges ==>
        && a in nodes && b in nodes && a != b
        && edges[(a, b)].source == a && edges[(a, b)].target == b
        && IsProbability(edges[(a, b)].confidence)
    }

    ghost predicate NodesProper() {
      forall n :: n in nodes ==> nodes[n].nodeId == n && IsProbability(nodes[n].confidence)
    }

    ghost predicate JoinRuleHolds(n: string)
      requires n in nodes
    {
      && (|In(n)| <= 1 ==> nodes[n].joinType != JoinAnd && nodes[n].joinType != JoinOr)
      && (|In(n)| > 1 ==> nodes[n].joinType != JoinSingle)
    }

    /** Everything the constructor demands once the nodes have been collected. */
    ghost predicate WellFormed() {
      && NodesProper()
      && EdgesProper()
      && (forall n :: n in nodes ==> JoinRuleHolds(n))
      && Acyclic()
    }

    ghost function Descendants(a: string): set<string> {
      set n | n in nodes && Reaches(a, n)
    }
  }

  predicate IsProbability(d: WrittenDecimal) {
    0.0 <= d.number <= 1.0
  }

  // ------------------------------------------------------------------ walks

  lemma OutIn(g: Graph, a: string, b: string)
    requires a in g.nodes && b in g.nodes
    ensures b in g.Out(a) <==> a in g.In(b)
  {
  }

  lemma EdgeReaches(g: Graph, a: string, b: string)
    requires b in g.Out(a)
    ensures g.Reaches(a, b)
  {
    assert g.WalkBetween([a, b], a, b);
  }

  lemma ReachesTransitive(g: Graph, a: string, b: string, c: string)
    requires g.Reaches(a, b) && g.Reaches(b, c)
    ensures g.Reaches(a, c)
  {
    var p :| g.WalkBetween(p, a, b);
    var q :| g.WalkBetween(q, b, c);
    var r := p + q[1..];
    forall i | 0 <= i < |r| - 1 ensures r[i + 1] in g.Out(r[i]) {
      if i < |p| - 1 {
        assert r[i] == p[i] && r[i + 1] == p[i + 1];
      } else {
        var k := i - (|p| - 1);
        assert r[i] == q[k] && r[i + 1] == q[k + 1];
      }
    }
    assert g.WalkBetween(r, a, c);
  }

  /** A set closed under successors keeps every walk that starts from it or from `a`. */
  lemma {:induction false} WalkStays(g: Graph, p: seq<string>, a: string, closed: set<string>)
    requires |p| >= 2 && g.IsWalk(p) && p[0] == a
    requires g.Out(a) <= closed && forall n :: n in closed ==> g.Out(n) <= closed
    ensures p[|p| - 1] in closed
  {
    if |p| > 2 {
      WalkStays(g, p[..|p| - 1], a, closed);
    }
    assert p[|p| - 2 + 1] in g.Out(p[|p| - 2]);
  }

  lemma ClosedHoldsDescendants(g: Graph, a: string, closed: set<string>)
    requires g.Out(a) <= closed && forall n :: n in closed ==> g.Out(n) <= closed
    ensures g.Descendants(a) <= closed
  {
    forall n | n in g.Descendants(a) ensures n in closed {
      var p :| g.WalkBetween(p, a, n);
      WalkStays(g, p, a, closed);
    }
  }

  lemma DescendantsGrowUpstream(g: Graph, a: string, b: string)
    requires g.Reaches(a, b)
    ensures g.Descendants(b) <= g.Descendants(a)
  {
    forall n | n in g.Descendants(b) ensures n in g.Descendants(a) {
      ReachesTransitive(g, a, b, n);
    }
  }

  // ----------------------------------------------------------------- cycles

  ghost predicate TopologicalOrder(g: Graph, order: seq<string>) {
    forall j, a :: 0 <= j < |order| && a in g.In(order[j]) ==> a in order[..j]
  }

  /** Along a walk the position in a topological order strictly increases. */
  lemma {:induction false} WalkClimbs(g: Graph, order: seq<string>, p: seq<string>, j: nat) returns (i: nat)
    requires g.EdgesProper() && Distinct(order) && TopologicalOrder(g, order)
    requires |p| >= 2 && g.IsWalk(p) && j < |order| && p[|p| - 1] == order[j]
    ensures i < j && p[0] == order[i]
  {
    var last := |p| - 2;
    assert p[last + 1] in g.Out(p[last]);
    assert p[last] in g.In(p[last + 1]);
    assert p[last] in order[..j];
    var k :| 0 <= k < j && order[k] == p[last];
    i := k;
    if |p| > 2 {
      i := WalkClimbs(g, order, p[..|p| - 1], k);
    }
  }

  lemma OrderedIsAcyclic(g: Graph, order: seq<string>)
    requires g.EdgesProper() && Distinct(order) && TopologicalOrder(g, order)
    requires Elements(order) == g.nodes.Keys
    ensures g.Acyclic()
  {
    forall a | g.Reaches(a, a) ensures false {
      var p :| g.WalkBetween(p, a, a);
      assert p[0 + 1] in g.Out(p[0]);
      assert a in g.nodes && a in Elements(order);
      var j :| 0 <= j < |order| && order[j] == a;
      var i := WalkClimbs(g, order, p, j);
      assert false;
    }
  }

  lemma {:induction false} WalkBackwards(g: Graph, s: set<string>, start: string, k: nat) returns (p: seq<string>)
    requires start in s && s <= g.nodes.Keys
    requires forall n :: n in s ==> g.In(n) * s != {}
    ensures |p| == k + 1 && g.IsWalk(p) && forall i :: 0 <= i < |p| ==> p[i] in s
  {
    if k == 0 {
      p := [start];
    } else {
      var q := WalkBackwards(g, s, start, k - 1);
      var a :| a in g.In(q[0]) * s;
      assert q[0] in g.Out(a);
      p := [a] + q;
      forall i | 0 <= i < |p| - 1 ensures p[i + 1] in g.Out(p[i]) {
        if i > 0 {
          assert p[i] == q[i - 1] && p[i + 1] == q[i - 1 + 1];
        }
      }
    }
  }

  /** A non-empty finite set in which every node has a predecessor contains a cycle. */
  lemma PredecessorsMakeCycle(g: Graph, s: set<string>)
    requires s != {} && s <= g.nodes.Keys && forall n :: n in s ==> g.In(n) * s != {}
    ensures !g.Acyclic()
  {
    var start :| start in s;
    var p := WalkBackwards(g, s, start, |s|);
    if Distinct(p) {
      DistinctSize(p);
      assert Elements(p) <= s;
      SubsetSize(Elements(p), s);
      assert false;
    }
    var i, j :| 0 <= i < j < |p| && p[i] == p[j];
    var loop := p[i..j + 1];
    forall k | 0 <= k < |loop| - 1 ensures loop[k + 1] in g.Out(loop[k]) {
      assert loop[k] == p[i + k] && loop[k + 1] == p[i + k + 1];
    }
    assert g.WalkBetween(loop, p[i], p[i]);
    assert g.Reaches(p[i], p[i]);
  }

  // ------------------------------------------------------------------ reach

  datatype ReachEstimate = ReachEstimate(
    score: real,
    reachableNodes: seq<string>,
    topologyConfidence: real,
    unknownJoinNodes: seq<string>,
    graphDigest: Digest)

  /** The arithmetic context's rounding: any monotone projection that is exact on 0 and 1. */
  ghost predicate Rounding(rnd: real -> real) {
    && (forall x, y :: x <= y ==> rnd(x) <= rnd(y))
    && (forall x :: rnd(rnd(x)) == rnd(x))
    && rnd(0.0) == 0.0
    && rnd(1.0) == 1.0
  }

  function JoinWeight(g: Graph, rnd: real -> real, n: string): real
    requires n in g.nodes
  {
    if g.nodes[n].joinType == JoinOr
    then rnd(1.0 / (if |g.In(n)| <= 1 then 1 else |g.In(n)|) as real)
    else 1.0
  }

  /** Rounded running sum of the join weights, left to right. */
  function Accumulate(g: Graph, rnd: real -> real, acc: real, ids: seq<string>): real
    requires forall n :: n in ids ==> n in g.nodes
    decreases |ids|
  {
    if ids == [] then acc
    else Accumulate(g, rnd, rnd(acc + JoinWeight(g, rnd, ids[0])), ids[1..])
  }

  function UnknownJoins(g: Graph, ids: seq<string>): seq<string>
    requires forall n :: n in ids ==> n in g.nodes
  {
    if ids == [] then []
    else (if g.nodes[ids[0]].joinType == JoinUnknown then [ids[0]] else []) + UnknownJoins(g, ids[1..])
  }

  ghost function NodeTerms(g: Graph, ids: set<string>): set<real> {
    set n | n in ids && n in g.nodes :: g.nodes[n].confidence.number
  }

  ghost function EdgeTerms(g: Graph, ids: set<string>): set<real> {
    set p | p in g.edges && p.1 in ids :: g.edges[p].confidence.number
  }

  ghost function UnknownTerms(g: Graph, ids: set<string>): set<real> {
    if exists n :: n in ids && n in g.nodes && g.nodes[n].joinType == JoinUnknown then {0.5} else {}
  }

  /** The declared confidences a reach estimate from `a` rests on. */
  ghost function ConfidenceTerms(g: Graph, a: string): set<real> {
    var d := g.Descendants(a);
    NodeTerms(g, {a} + d) + EdgeTerms(g, d) + UnknownTerms(g, d)
  }

  ghost predicate IsMinimum(c: real, terms: set<real>) {
    c in terms && forall t :: t in terms ==> c <= t
  }

  /** What a reach estimate must be. Everything but the digest is fixed by the graph. */
  ghost predicate IsReach(g: Graph, rnd: real -> real, a: string, r: ReachEstimate) {
    && a in g.nodes
    && r.reachableNodes == Sorted(CodePoint, g.Descendants(a))
    && r.score == Accumulate(g, rnd, 0.0, Sorted(CodePoint, g.Descendants(a)))
    && r.unknownJoinNodes == UnknownJoins(g, Sorted(CodePoint, g.Descendants(a)))
    && IsMinimum(r.topologyConfidence, ConfidenceTerms(g, a))
  }

  lemma WeightNonNegative(g: Graph, rnd: real -> real, n: string)
    requires Rounding(rnd) && n in g.nodes
    ensures JoinWeight(g, rnd, n) >= 0.0
  {
    var d := (if |g.In(n)| <= 1 then 1 else |g.In(n)|) as real;
    assert 0.0 <= 1.0 / d;
    assert rnd(0.0) <= rnd(1.0 / d);
  }

  /** Adding nodes never lowers the rounded score. */
  lemma {:induction false} ScoreMonotone(
      g: Graph, rnd: real -> real, small: set<string>, large: set<string>, a: real, b: real)
    requires Rounding(rnd) && small <= large <= g.nodes.Keys
    requires a <= b && rnd(a) == a && rnd(b) == b
    ensures Accumulate(g, rnd, a, Sorted(CodePoint, small)) <= Accumulate(g, rnd, b, Sorted(CodePoint, large))
    decreases |large|
  {
    if large == {} {
      assert small == {};
    } else {
      var k := Least(CodePoint, large);
      var b' := rnd(b + JoinWeight(g, rnd, k));
      WeightNonNegative(g, rnd, k);
      AccumulateStep(g, rnd, b, large);
      if k in small {
        assert IsLeast(CodePoint, k, small);
        LeastUnique(CodePoint, small);
        assert Least(CodePoint, small) == k;
        AccumulateStep(g, rnd, a, small);
        var a' := rnd(a + JoinWeight(g, rnd, k));
        ScoreMonotone(g, rnd, small - {k}, large - {k}, a', b');
      } else {
        assert rnd(b) <= b';
        ScoreMonotone(g, rnd, small, large - {k}, a, b');
      }
    }
  }

  lemma AccumulateHead(g: Graph, rnd: real -> real, acc: real, ids: seq<string>, k: string, tail: seq<string>)
    requires ids != [] && ids[0] == k && ids[1..] == tail
    requires forall n :: n in ids ==> n in g.nodes
    ensures Accumulate(g, rnd, acc, ids) == Accumulate(g, rnd, rnd(acc + JoinWeight(g, rnd, k)), tail)
  {
  }

  lemma AccumulateStep(g: Graph, rnd: real -> real, acc: real, s: set<string>)
    requires s != {} && s <= g.nodes.Keys
    ensures Accumulate(g, rnd, acc, Sorted(CodePoint, s))
         == Accumulate(g, rnd, rnd(acc + JoinWeight(g, rnd, Least(CodePoint, s))),
                       Sorted(CodePoint, s - {Least(CodePoint, s)}))
  {
    hide Accumulate, JoinWeight, IsLeast;
    var k := Least(CodePoint, s);
    SortedStep(CodePoint, s);
    AccumulateHead(g, rnd, acc, Sorted(CodePoint, s), k, Sorted(CodePoint, s - {k}));
  }

  lemma {:induction false} UnknownJoinsAre(g: Graph, ids: seq<string>)
    requires forall n :: n in ids ==> n in g.nodes
    ensures forall n :: n in UnknownJoins(g, ids) <==> n in ids && g.nodes[n].joinType == JoinUnknown
  {
    if ids != [] {
      UnknownJoinsAre(g, ids[1..]);
      assert ids == [ids[0]] + ids[1..];
    }
  }

  /** Downstream of an unknown join nothing is more than half certain; otherwise the confidence is one that was
      declared. */
  lemma ConfidenceTells(g: Graph, rnd: real -> real, a: string, r: ReachEstimate)
    requires IsReach(g, rnd, a, r)
    ensures r.unknownJoinNodes != [] ==> 2.0 * r.topologyConfidence <= 1.0
    ensures r.unknownJoinNodes == [] ==>
      (exists n :: n in g.nodes && r.topologyConfidence == g.nodes[n].confidence.number) ||
      (exists p :: p in g.edges && r.topologyConfidence == g.edges[p].confidence.number)
  {
    hide Sorted;
    var d := g.Descendants(a);
    var ids := Sorted(CodePoint, d);
    UnknownJoinsAre(g, ids);
    if r.unknownJoinNodes != [] {
      var n := r.unknownJoinNodes[0];
      assert n in d && g.nodes[n].joinType == JoinUnknown;
      assert 0.5 in UnknownTerms(g, d);
      assert 0.5 in ConfidenceTerms(g, a);
    } else {
      assert UnknownTerms(g, d) == {};
      assert r.topologyConfidence in NodeTerms(g, {a} + d) + EdgeTerms(g, d);
    }
  }

  /** How many of these nodes are no OR joins. */
  function Whole(g: Graph, ids: seq<string>): nat
    requires forall n :: n in ids ==> n in g.nodes
  {
    if ids == [] then 0 else (if g.nodes[ids[0]].joinType == JoinOr then 0 else 1) + Whole(g, ids[1..])
  }

  /** One k-th for each OR join with k ways in. */
  ghost function Shares(g: Graph, ids: seq<string>): real
    requires g.WellFormed() && forall n :: n in ids ==> n in g.nodes
  {
    if ids == [] then 0.0
    else
      assert g.JoinRuleHolds(ids[0]);
      (if g.nodes[ids[0]].joinType == JoinOr then 1.0 / |g.In(ids[0])| as real else 0.0) + Shares(g, ids[1..])
  }

  lemma ExactWeight(g: Graph, exact: real -> real, n: string)
    requires g.WellFormed() && n in g.nodes && forall x :: exact(x) == x
    ensures g.nodes[n].joinType == JoinOr ==> |g.In(n)| > 1 && JoinWeight(g, exact, n) == 1.0 / |g.In(n)| as real
    ensures g.nodes[n].joinType != JoinOr ==> JoinWeight(g, exact, n) == 1.0
  {
    hide Graph.NodesProper, Graph.EdgesProper, Graph.Acyclic, Graph.In;
    assert g.JoinRuleHolds(n);
  }

  /** Without rounding, a node downstream counts one, and an OR join with k ways in one k-th. */
  lemma {:induction false} ExactScore(g: Graph, exact: real -> real, acc: real, ids: seq<string>)
    requires g.WellFormed() && forall n :: n in ids ==> n in g.nodes
    requires forall x :: exact(x) == x
    ensures Accumulate(g, exact, acc, ids) == acc + Whole(g, ids) as real + Shares(g, ids)
    decreases |ids|
  {
    hide Graph.WellFormed, JoinWeight;
    if ids != [] {
      ExactWeight(g, exact, ids[0]);
      ExactScore(g, exact, exact(acc + JoinWeight(g, exact, ids[0])), ids[1..]);
    }
  }

  lemma ExactReach(g: Graph, exact: real -> real, a: string, r: ReachEstimate)
    requires g.WellFormed() && IsReach(g, exact, a, r) && forall x :: exact(x) == x
    ensures Elements(r.reachableNodes) == g.Descendants(a)
    ensures r.score == Whole(g, r.reachableNodes) as real + Shares(g, r.reachableNodes)
  {
    ExactScore(g, exact, 0.0, r.reachableNodes);
  }

  lemma ConfidenceTermsGrowUpstream(g: Graph, a: string, b: string)
    requires g.Reaches(a, b) && b in g.nodes
    ensures ConfidenceTerms(g, b) <= ConfidenceTerms(g, a)
  {
    DescendantsGrowUpstream(g, a, b);
    var da, db := g.Descendants(a), g.Descendants(b);
    assert {b} + db <= {a} + da;
    assert NodeTerms(g, {b} + db) <= NodeTerms(g, {a} + da);
    assert EdgeTerms(g, db) <= EdgeTerms(g, da);
    assert UnknownTerms(g, db) <= UnknownTerms(g, da);
  }

  /** Going upstream never lowers the score and never raises the confidence. */
  lemma ReachGrowsUpstream(
      g: Graph, rnd: real -> real, a: string, b: string, ra: ReachEstimate, rb: ReachEstimate)
    requires Rounding(rnd) && g.Reaches(a, b)
    requires IsReach(g, rnd, a, ra) && IsReach(g, rnd, b, rb)
    ensures rb.score <= ra.score
    ensures ra.topologyConfidence <= rb.topologyConfidence
  {
    DescendantsGrowUpstream(g, a, b);
    ScoreMonotone(g, rnd, g.Descendants(b), g.Descendants(a), 0.0, 0.0);
    ConfidenceTermsGrowUpstream(g, a, b);
    assert rb.topologyConfidence in ConfidenceTerms(g, a);
  }
}
