/** The digest that binds a governance graph into decisions and receipts. */
module GraphDigests {
  import opened Ordering
  import opened Canonical
  import opened Topology

  function JoinText(j: JoinType): string {
    match j
    case JoinSingle => "SINGLE"
    case JoinOr => "OR"
    case JoinAnd => "AND"
    case JoinUnknown => "UNKNOWN"
  }

  function NodeDoc(n: GraphNode): Value {
    Dict(map["node_id" := Str(n.nodeId), "join_type" := Str(JoinText(n.joinType)),
             "declaration_confidence" := Str(n.confidence.text)])
  }

  function EdgeDoc(e: GraphEdge): Value {
    Dict(map["source" := Str(e.source), "target" := Str(e.target), "required" := Bool(e.required),
             "declaration_confidence" := Str(e.confidence.text)])
  }

  function NodeDocs(g: Graph, ids: seq<string>): seq<Value>
    requires forall i :: 0 <= i < |ids| ==> ids[i] in g.nodes
  {
    seq(|ids|, i requires 0 <= i < |ids| => NodeDoc(g.nodes[ids[i]]))
  }

  function PairsFrom(source: string, targets: seq<string>): (r: seq<(string, string)>)
    ensures |r| == |targets| && forall i :: 0 <= i < |r| ==> r[i] == (source, targets[i])
  {
    seq(|targets|, i requires 0 <= i < |targets| => (source, targets[i]))
  }

  /** The edges' end points in order of `(source, target)`. */
  function EdgePairs(g: Graph, sources: seq<string>): (r: seq<(string, string)>)
    ensures forall i :: 0 <= i < |r| ==> r[i] in g.edges
  {
    if sources == [] then []
    else
      var targets := Sorted(CodePoint, g.Out(sources[0]));
      assert forall i :: 0 <= i < |targets| ==> targets[i] in g.Out(sources[0]);
      PairsFrom(sources[0], targets) + EdgePairs(g, sources[1..])
  }

  function EdgeDocs(g: Graph, pairs: seq<(string, string)>): seq<Value>
    requires forall i :: 0 <= i < |pairs| ==> pairs[i] in g.edges
  {
    seq(|pairs|, i requires 0 <= i < |pairs| => EdgeDoc(g.edges[pairs[i]]))
  }

  function Document(nodes: seq<Value>, edges: seq<Value>): Value {
    Dict(map["nodes" := List(nodes), "edges" := List(edges)])
  }

  function GraphDocument(g: Graph): Value {
    var ids := Sorted(CodePoint, g.nodes.Keys);
    Document(NodeDocs(g, ids), EdgeDocs(g, EdgePairs(g, ids)))
  }

  lemma {:induction false} EdgePairsAre(g: Graph, sources: seq<string>, a: string, b: string)
    ensures (a, b) in EdgePairs(g, sources) <==> a in sources && b in g.Out(a)
  {
    if sources != [] {
      var targets := Sorted(CodePoint, g.Out(sources[0]));
      var here := PairsFrom(sources[0], targets);
      EdgePairsAre(g, sources[1..], a, b);
      if a == sources[0] && b in targets {
        var i :| 0 <= i < |targets| && targets[i] == b;
        assert here[i] == (a, b);
      }
    }
  }

  lemma DocumentAccepted(nodes: seq<Value>, edges: seq<Value>)
    requires forall i :: 0 <= i < |nodes| ==> Accepted(nodes[i])
    requires forall i :: 0 <= i < |edges| ==> Accepted(edges[i])
    ensures Accepted(Document(nodes, edges))
    ensures ArtifactDigest(Document(nodes, edges)).Ok?
    ensures Canonicalize(Document(nodes, edges)).Ok?
    ensures ArtifactDigest(Document(nodes, edges)).value.preimage == Canonicalize(Document(nodes, edges)).value
  {
    var doc := Document(nodes, edges);
    assert Accepted(List(nodes)) && Accepted(List(edges));
    assert doc.members - {"proof"} == doc.members;
  }

  lemma DocsAccepted(g: Graph, ids: seq<string>, pairs: seq<(string, string)>)
    requires forall i :: 0 <= i < |ids| ==> ids[i] in g.nodes
    requires forall i :: 0 <= i < |pairs| ==> pairs[i] in g.edges
    ensures forall i :: 0 <= i < |NodeDocs(g, ids)| ==> Accepted(NodeDocs(g, ids)[i])
    ensures forall i :: 0 <= i < |EdgeDocs(g, pairs)| ==> Accepted(EdgeDocs(g, pairs)[i])
  {
  }

  lemma GraphDocumentAccepted(g: Graph)
    ensures Accepted(GraphDocument(g))
    ensures ArtifactDigest(GraphDocument(g)).Ok?
    ensures Canonicalize(GraphDocument(g)).Ok?
    ensures ArtifactDigest(GraphDocument(g)).value.preimage == Canonicalize(GraphDocument(g)).value
  {
    hide Accepted, Sorted, NodeDocs, EdgeDocs, EdgePairs, ArtifactDigest, Canonicalize;
    var ids := Sorted(CodePoint, g.nodes.Keys);
    DocsAccepted(g, ids, EdgePairs(g, ids));
    DocumentAccepted(NodeDocs(g, ids), EdgeDocs(g, EdgePairs(g, ids)));
  }

  /** `GovernanceGraph.digest`. */
  function GraphDigest(g: Graph): Digest {
    GraphDocumentAccepted(g);
    ArtifactDigest(GraphDocument(g)).value
  }

  /** What the digest is meant to pin down: each node's and each edge's declaration. */
  ghost predicate SameGraph(g: Graph, h: Graph) {
    && g.nodes.Keys == h.nodes.Keys
    && g.edges.Keys == h.edges.Keys
    && (forall n :: n in g.nodes ==>
          g.nodes[n].joinType == h.nodes[n].joinType && g.nodes[n].confidence.text == h.nodes[n].confidence.text)
    && (forall p :: p in g.edges ==>
          g.edges[p].required == h.edges[p].required && g.edges[p].confidence.text == h.edges[p].confidence.text)
  }

  lemma NodeDocTells(m: GraphNode, n: GraphNode)
    ensures NodeDoc(m) == NodeDoc(n) <==>
      m.nodeId == n.nodeId && m.joinType == n.joinType && m.confidence.text == n.confidence.text
  {
    var a, b := NodeDoc(m).members, NodeDoc(n).members;
    if a == b {
      assert a["node_id"] == b["node_id"] && a["join_type"] == b["join_type"];
      assert a["declaration_confidence"] == b["declaration_confidence"];
      assert JoinText(m.joinType)[0] == JoinText(n.joinType)[0];
      assert JoinText(m.joinType)[..1] == JoinText(n.joinType)[..1];
    }
  }

  lemma EdgeDocTells(e: GraphEdge, f: GraphEdge)
    ensures EdgeDoc(e) == EdgeDoc(f) <==>
      && e.source == f.source && e.target == f.target
      && e.required == f.required && e.confidence.text == f.confidence.text
  {
    var a, b := EdgeDoc(e).members, EdgeDoc(f).members;
    if a == b {
      assert a["source"] == b["source"] && a["target"] == b["target"];
      assert a["required"] == b["required"] && a["declaration_confidence"] == b["declaration_confidence"];
    }
  }

  lemma {:induction false} SamePairs(g: Graph, h: Graph, sources: seq<string>)
    requires g.nodes.Keys == h.nodes.Keys && g.edges.Keys == h.edges.Keys
    ensures EdgePairs(g, sources) == EdgePairs(h, sources)
  {
    if sources != [] {
      assert g.Out(sources[0]) == h.Out(sources[0]);
      SamePairs(g, h, sources[1..]);
    }
  }

  lemma SameNodeDocs(g: Graph, h: Graph, ids: seq<string>)
    requires g.NodesProper() && h.NodesProper() && SameGraph(g, h)
    requires forall i :: 0 <= i < |ids| ==> ids[i] in g.nodes
    ensures NodeDocs(g, ids) == NodeDocs(h, ids)
  {
    forall i | 0 <= i < |ids| ensures NodeDocs(g, ids)[i] == NodeDocs(h, ids)[i] {
      NodeDocTells(g.nodes[ids[i]], h.nodes[ids[i]]);
    }
  }

  lemma SameEdgeDocs(g: Graph, h: Graph, pairs: seq<(string, string)>)
    requires g.EdgesProper() && h.EdgesProper() && SameGraph(g, h)
    requires forall i :: 0 <= i < |pairs| ==> pairs[i] in g.edges
    ensures EdgeDocs(g, pairs) == EdgeDocs(h, pairs)
  {
    forall i | 0 <= i < |pairs| ensures EdgeDocs(g, pairs)[i] == EdgeDocs(h, pairs)[i] {
      var (a, b) := pairs[i];
      assert (a, b) in g.edges && (a, b) in h.edges;
      EdgeDocTells(g.edges[(a, b)], h.edges[(a, b)]);
    }
  }

  lemma SameGraphSameDocument(g: Graph, h: Graph)
    requires g.NodesProper() && h.NodesProper() && g.EdgesProper() && h.EdgesProper()
    requires SameGraph(g, h)
    ensures GraphDocument(g) == GraphDocument(h)
  {
    var ids := Sorted(CodePoint, g.nodes.Keys);
    SamePairs(g, h, ids);
    SameNodeDocs(g, h, ids);
    SameEdgeDocs(g, h, EdgePairs(g, ids));
  }

  lemma DocumentTells(n1: seq<Value>, e1: seq<Value>, n2: seq<Value>, e2: seq<Value>)
    requires Document(n1, e1) == Document(n2, e2)
    ensures n1 == n2 && e1 == e2
  {
    var a, b := Document(n1, e1).members, Document(n2, e2).members;
    assert a["nodes"] == b["nodes"] && a["edges"] == b["edges"];
  }

  lemma NodeDocsTell(g: Graph, h: Graph, a: seq<string>, b: seq<string>)
    requires g.NodesProper() && h.NodesProper()
    requires (forall i :: 0 <= i < |a| ==> a[i] in g.nodes) && (forall i :: 0 <= i < |b| ==> b[i] in h.nodes)
    requires NodeDocs(g, a) == NodeDocs(h, b)
    ensures a == b
    ensures forall i :: 0 <= i < |a| ==>
      && g.nodes[a[i]].joinType == h.nodes[a[i]].joinType
      && g.nodes[a[i]].confidence.text == h.nodes[a[i]].confidence.text
  {
    assert |a| == |NodeDocs(g, a)| == |NodeDocs(h, b)| == |b|;
    forall i | 0 <= i < |a|
      ensures a[i] == b[i]
      ensures g.nodes[a[i]].joinType == h.nodes[b[i]].joinType
      ensures g.nodes[a[i]].confidence.text == h.nodes[b[i]].confidence.text
    {
      assert NodeDocs(g, a)[i] == NodeDocs(h, b)[i];
      NodeDocTells(g.nodes[a[i]], h.nodes[b[i]]);
    }
  }

  lemma EdgeDocsTell(g: Graph, h: Graph, a: seq<(string, string)>, b: seq<(string, string)>)
    requires g.EdgesProper() && h.EdgesProper()
    requires (forall i :: 0 <= i < |a| ==> a[i] in g.edges) && (forall i :: 0 <= i < |b| ==> b[i] in h.edges)
    requires EdgeDocs(g, a) == EdgeDocs(h, b)
    ensures a == b
    ensures forall i :: 0 <= i < |a| ==>
      && g.edges[a[i]].required == h.edges[a[i]].required
      && g.edges[a[i]].confidence.text == h.edges[a[i]].confidence.text
  {
    assert |a| == |EdgeDocs(g, a)| == |EdgeDocs(h, b)| == |b|;
    forall i | 0 <= i < |a|
      ensures a[i] == b[i]
      ensures g.edges[a[i]].required == h.edges[b[i]].required
      ensures g.edges[a[i]].confidence.text == h.edges[b[i]].confidence.text
    {
      assert EdgeDocs(g, a)[i] == EdgeDocs(h, b)[i];
      EdgeDocTells(g.edges[a[i]], h.edges[b[i]]);
      assert (a[i].0, a[i].1) in g.edges && (b[i].0, b[i].1) in h.edges;
    }
  }

  lemma SamePairsSameKeys(g: Graph, h: Graph, ids: seq<string>)
    requires forall n :: n in g.nodes <==> n in ids
    requires g.nodes.Keys == h.nodes.Keys && g.EdgesProper() && h.EdgesProper()
    requires EdgePairs(g, ids) == EdgePairs(h, ids)
    ensures g.edges.Keys == h.edges.Keys
    ensures forall p :: p in g.edges ==> p in EdgePairs(g, ids)
  {
    forall p ensures p in g.edges <==> p in EdgePairs(g, ids)
      ensures p in h.edges <==> p in EdgePairs(g, ids)
    {
      EdgePairsAre(g, ids, p.0, p.1);
      EdgePairsAre(h, ids, p.0, p.1);
      assert p == (p.0, p.1);
    }
  }

  lemma SameListsSameGraph(g: Graph, h: Graph, a: seq<string>, b: seq<string>)
    requires g.NodesProper() && h.NodesProper() && g.EdgesProper() && h.EdgesProper()
    requires (forall n :: n in a <==> n in g.nodes) && (forall n :: n in b <==> n in h.nodes)
    requires NodeDocs(g, a) == NodeDocs(h, b)
    requires EdgeDocs(g, EdgePairs(g, a)) == EdgeDocs(h, EdgePairs(h, b))
    ensures SameGraph(g, h)
  {
    NodeDocsTell(g, h, a, b);
    assert g.nodes.Keys == h.nodes.Keys;
    EdgeDocsTell(g, h, EdgePairs(g, a), EdgePairs(h, a));
    SamePairsSameKeys(g, h, a);
  }

  lemma SameDocumentSameGraph(g: Graph, h: Graph)
    requires g.NodesProper() && h.NodesProper() && g.EdgesProper() && h.EdgesProper()
    requires GraphDocument(g) == GraphDocument(h)
    ensures SameGraph(g, h)
  {
    hide Graph.NodesProper, Graph.EdgesProper, SameGraph, NodeDocs, EdgeDocs, EdgePairs, Document;
    var a, b := Sorted(CodePoint, g.nodes.Keys), Sorted(CodePoint, h.nodes.Keys);
    DocumentTells(NodeDocs(g, a), EdgeDocs(g, EdgePairs(g, a)), NodeDocs(h, b), EdgeDocs(h, EdgePairs(h, b)));
    SameListsSameGraph(g, h, a, b);
  }

  /** Two graphs share a digest exactly when they declare the same nodes and edges, whatever the
      order of declaration. */
  lemma DigestIdentifiesGraph(g: Graph, h: Graph)
    requires g.NodesProper() && h.NodesProper() && g.EdgesProper() && h.EdgesProper()
    ensures GraphDigest(g) == GraphDigest(h) <==> SameGraph(g, h)
  {
    GraphDocumentAccepted(g);
    GraphDocumentAccepted(h);
    CanonicalBytesIdentify(GraphDocument(g), GraphDocument(h));
    if GraphDigest(g) == GraphDigest(h) {
      SameDocumentSameGraph(g, h);
    }
    if SameGraph(g, h) {
      SameGraphSameDocument(g, h);
    }
  }
}
