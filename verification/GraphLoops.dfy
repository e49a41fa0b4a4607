/** The invariants of the two graph loops: Kahn's cycle check and the reach worklist. */
module GraphLoops {
  import opened Prelude
  import opened Topology

  // ------------------------------------------------------------- Kahn's loop

  /** The predecessors of `n` that have not been visited. */
  ghost function Unmet(g: Graph, n: string, order: seq<string>): set<string> {
    set a | a in g.nodes && (a, n) in g.edges && a !in order
  }

  ghost predicate Ordered(g: Graph, order: seq<string>) {
    && Distinct(order) && TopologicalOrder(g, order)
    && (forall n :: n in order ==> n in g.nodes)
  }

  /** Between two visits: `ready` lists the unvisited nodes whose count is zero. */
  ghost predicate KahnState(g: Graph, order: seq<string>, indegree: map<string, int>, ready: seq<string>) {
    && Ordered(g, order) && Distinct(ready)
    && indegree.Keys == g.nodes.Keys
    && (forall n :: n in g.nodes ==> indegree[n] == |Unmet(g, n, order)|)
    && (forall n :: n in ready <==> n in g.nodes && n !in order && indegree[n] == 0)
  }

  /** While a visited node's targets are released: those in `left` still await their decrement. */
  ghost predicate Releasing(g: Graph, order: seq<string>, left: seq<string>,
                            indegree: map<string, int>, ready: seq<string>) {
    && Ordered(g, order) && Distinct(ready) && Distinct(left)
    && indegree.Keys == g.nodes.Keys
    && (forall n :: n in left ==> n in g.nodes && n !in order)
    && (forall n :: n in g.nodes ==>
          indegree[n] == |Unmet(g, n, order)| + (if n in left then 1 else 0))
    && (forall n :: n in ready <==> n in g.nodes && n !in order && indegree[n] == 0)
  }

  lemma KahnStart(g: Graph, indegree: map<string, int>, ready: seq<string>)
    requires indegree.Keys == g.nodes.Keys && Distinct(ready)
    requires forall n :: n in g.nodes ==> indegree[n] == |g.In(n)|
    requires forall n :: n in ready <==> n in g.nodes && indegree[n] == 0
    ensures KahnState(g, [], indegree, ready)
  {
    forall n | n in g.nodes ensures Unmet(g, n, []) == g.In(n) {
    }
  }

  /** A node whose count is zero extends the topological order. */
  lemma VisitExtendsOrder(g: Graph, order: seq<string>, current: string)
    requires Ordered(g, order) && current in g.nodes && current !in order
    requires Unmet(g, current, order) == {}
    ensures Ordered(g, order + [current])
  {
    var longer := order + [current];
    forall j, a | 0 <= j < |longer| && a in g.In(longer[j]) ensures a in longer[..j] {
      if j < |order| {
        assert longer[..j] == order[..j];
        assert a in g.In(order[j]);
      } else {
        assert longer[..j] == order;
        assert a !in Unmet(g, current, order);
      }
    }
  }

  lemma VisitDropsOne(g: Graph, order: seq<string>, current: string, n: string)
    requires current in g.nodes && current !in order
    ensures |Unmet(g, n, order)|
         == |Unmet(g, n, order + [current])| + (if (current, n) in g.edges then 1 else 0)
  {
    var before, after := Unmet(g, n, order), Unmet(g, n, order + [current]);
    if (current, n) in g.edges {
      assert before == after + {current};
    } else {
      assert before == after;
    }
  }

  lemma PredecessorVisited(g: Graph, order: seq<string>, n: string, a: string)
    requires Ordered(g, order) && n in order && a in g.In(n)
    ensures a in order
  {
    var j :| 0 <= j < |order| && order[j] == n;
    assert a in g.In(order[j]);
    assert a in order[..j];
  }

  lemma KahnVisit(g: Graph, order: seq<string>, indegree: map<string, int>, ready: seq<string>, targets: seq<string>)
    requires ready != [] && KahnState(g, order, indegree, ready) && g.EdgesProper()
    requires Distinct(targets) && forall n :: n in targets <==> n in g.Out(ready[0])
    ensures Releasing(g, order + [ready[0]], targets, indegree, ready[1..])
  {
    var current := ready[0];
    var longer := order + [current];
    assert ready == [current] + ready[1..];
    assert current in ready;
    VisitExtendsOrder(g, order, current);
    forall n | n in g.nodes
      ensures indegree[n] == |Unmet(g, n, longer)| + (if n in targets then 1 else 0)
    {
      VisitDropsOne(g, order, current, n);
    }
    forall n | n in targets ensures n in g.nodes && n !in longer {
      if n in order {
        PredecessorVisited(g, order, n, current);
        assert false;
      }
    }
  }

  lemma ReleaseStep(g: Graph, order: seq<string>, left: seq<string>, indegree: map<string, int>, ready: seq<string>,
                    indegree': map<string, int>, ready': seq<string>)
    requires left != [] && Releasing(g, order, left, indegree, ready)
    requires left[0] in indegree && indegree' == indegree[left[0] := indegree[left[0]] - 1]
    requires Distinct(ready')
    requires forall n :: n in ready' <==> n in ready || (n == left[0] && indegree'[n] == 0)
    ensures Releasing(g, order, left[1..], indegree', ready')
  {
    assert left == [left[0]] + left[1..];
    assert left[0] in left && left[0] !in left[1..];
  }

  lemma ReleaseDone(g: Graph, order: seq<string>, indegree: map<string, int>, ready: seq<string>)
    requires Releasing(g, order, [], indegree, ready)
    ensures KahnState(g, order, indegree, ready)
  {
  }

  lemma OrderFits(g: Graph, order: seq<string>)
    requires Ordered(g, order)
    ensures |order| <= |g.nodes|
    ensures |order| == |g.nodes| ==> Elements(order) == g.nodes.Keys
  {
    DistinctSize(order);
    assert Elements(order) <= g.nodes.Keys;
    SubsetSize(Elements(order), g.nodes.Keys);
    assert |g.nodes.Keys| == |g.nodes|;
  }

  lemma KahnProgress(g: Graph, order: seq<string>, indegree: map<string, int>, ready: seq<string>)
    requires KahnState(g, order, indegree, ready)
    ensures |order| <= |g.nodes|
  {
    OrderFits(g, order);
  }

  /** Kahn's loop has visited every node exactly when the graph has no cycle. */
  lemma KahnDecides(g: Graph, order: seq<string>, indegree: map<string, int>)
    requires g.EdgesProper() && KahnState(g, order, indegree, [])
    ensures |order| == |g.nodes| <==> g.Acyclic()
  {
    OrderFits(g, order);
    if |order| == |g.nodes| {
      OrderedIsAcyclic(g, order);
    } else {
      Stuck(g, order, indegree);
    }
  }

  lemma AllVisited(g: Graph, order: seq<string>)
    requires Ordered(g, order) && forall n :: n in g.nodes ==> n in order
    ensures |order| == |g.nodes|
  {
    assert Elements(order) == g.nodes.Keys;
    DistinctSize(order);
  }

  lemma UnmetRemains(g: Graph, order: seq<string>, indegree: map<string, int>, n: string)
    requires KahnState(g, order, indegree, []) && n in g.nodes && n !in order
    ensures exists a :: a in g.In(n) && a in g.nodes && a !in order
  {
    assert n !in [];
    assert Unmet(g, n, order) != {};
    var a :| a in Unmet(g, n, order);
    assert a in g.In(n);
  }

  lemma Stuck(g: Graph, order: seq<string>, indegree: map<string, int>)
    requires KahnState(g, order, indegree, []) && |order| < |g.nodes|
    ensures !g.Acyclic()
  {
    var s := set n | n in g.nodes && n !in order;
    if forall n :: n in g.nodes ==> n in order {
      AllVisited(g, order);
      assert false;
    }
    var x :| x in g.nodes && x !in order;
    assert x in s;
    forall n | n in s ensures g.In(n) * s != {} {
      UnmetRemains(g, order, indegree, n);
      var a :| a in g.In(n) && a in g.nodes && a !in order;
      assert a in g.In(n) * s;
    }
    PredecessorsMakeCycle(g, s);
  }

  // ---------------------------------------------------------- reach worklist

  /** `reachable` has been expanded, `frontier` (possibly with repeats) has not. */
  ghost predicate ReachState(g: Graph, source: string, reachable: set<string>, frontier: seq<string>) {
    && reachable <= g.nodes.Keys
    && (forall n :: n in reachable || n in frontier ==> n in g.nodes && g.Reaches(source, n))
    && (forall m :: m in g.Out(source) ==> m in reachable || m in frontier)
    && (forall n, m :: n in reachable && m in g.Out(n) ==> m in reachable || m in frontier)
  }

  lemma ReachStart(g: Graph, source: string, frontier: seq<string>)
    requires forall n :: n in frontier <==> n in g.Out(source)
    ensures ReachState(g, source, {}, frontier)
  {
    forall n | n in frontier ensures g.Reaches(source, n) {
      EdgeReaches(g, source, n);
    }
  }

  lemma ReachFrontier(g: Graph, source: string, reachable: set<string>, frontier: seq<string>)
    requires frontier != [] && ReachState(g, source, reachable, frontier)
    ensures frontier[0] in g.nodes && g.Reaches(source, frontier[0])
    ensures reachable <= g.nodes.Keys
  {
    assert frontier[0] in frontier;
  }

  lemma ReachSkip(g: Graph, source: string, reachable: set<string>, frontier: seq<string>)
    requires frontier != [] && ReachState(g, source, reachable, frontier) && frontier[0] in reachable
    ensures ReachState(g, source, reachable, frontier[1..])
  {
    assert frontier == [frontier[0]] + frontier[1..];
  }

  lemma ReachVisit(g: Graph, source: string, reachable: set<string>, frontier: seq<string>, more: seq<string>)
    requires frontier != [] && ReachState(g, source, reachable, frontier)
    requires forall n :: n in more <==> n in g.Out(frontier[0]) && n !in reachable + {frontier[0]}
    ensures ReachState(g, source, reachable + {frontier[0]}, frontier[1..] + more)
  {
    var current := frontier[0];
    assert frontier == [current] + frontier[1..];
    assert current in frontier;
    forall n | n in more ensures n in g.nodes && g.Reaches(source, n) {
      EdgeReaches(g, current, n);
      ReachesTransitive(g, source, current, n);
    }
  }

  lemma ReachDone(g: Graph, source: string, reachable: set<string>)
    requires ReachState(g, source, reachable, [])
    ensures reachable == g.Descendants(source)
  {
    assert forall n :: n in reachable ==> g.Out(n) <= reachable;
    assert g.Out(source) <= reachable;
    ClosedHoldsDescendants(g, source, reachable);
  }

  /** The confidences met once the nodes of `reachable` have been expanded. */
  ghost function TermsSoFar(g: Graph, source: string, reachable: set<string>): set<real> {
    NodeTerms(g, {source} + reachable) + EdgeTerms(g, reachable)
  }

  lemma TermsStart(g: Graph, source: string)
    requires source in g.nodes
    ensures TermsSoFar(g, source, {}) == {g.nodes[source].confidence.number}
  {
    assert {source} + {} == {source};
  }

  lemma TermsGrow(g: Graph, source: string, reachable: set<string>, current: string)
    requires current in g.nodes
    ensures TermsSoFar(g, source, reachable + {current})
         == TermsSoFar(g, source, reachable) + {g.nodes[current].confidence.number} + EdgeTerms(g, {current})
  {
    var more := reachable + {current};
    assert {source} + more == ({source} + reachable) + {current};
    assert NodeTerms(g, {source} + more) == NodeTerms(g, {source} + reachable) + NodeTerms(g, {current});
    assert NodeTerms(g, {current}) == {g.nodes[current].confidence.number};
    assert EdgeTerms(g, more) == EdgeTerms(g, reachable) + EdgeTerms(g, {current});
  }

  lemma MinimumAlone(c: real)
    ensures IsMinimum(c, {c})
  {
  }

  lemma MinimumOf(c: real, terms: set<real>, t: real, lower: real)
    requires IsMinimum(c, terms) && lower == (if t < c then t else c)
    ensures IsMinimum(lower, terms + {t})
  {
  }
}
