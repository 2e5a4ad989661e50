/**
 * `process` of sparc-data/sparc2rdf.py: from a SPARC knowledge-graph dump
 * (nodes with an id and a label, edges with subject, predicate and object
 * ids) it keeps the FMA nodes, whose ids start with `FMA:`, gives each a
 * label triple, and keeps the edges between FMA nodes whose predicate is in
 * the `fma:` namespace, with the predicate moved into the FMA ontology
 * namespace. An RDF graph is a set of triples.
 */
module Sparc2Rdf {
  import opened Text

  /** The identifiers.org FMA namespace, the FMA ontology namespace, and
      `rdfs:label`. */
  const FmaIdNamespace: string := "http://identifiers.org/fma/"
  const FmaNamespace: string := "http://purl.org/sig/ont/fma/"
  const RdfsLabel: string := "http://www.w3.org/2000/01/rdf-schema#label"

  datatype Node = Node(id: string, lbl: string)
  datatype Edge = Edge(sub: string, pred: string, obj: string)

  datatype Term = Iri(iri: string) | Literal(text: string)
  datatype Triple = Triple(subject: Term, verb: Term, value: Term)

  predicate IsFmaId(id: string)
  {
    StartsWith(id, "FMA:")
  }

  /** The subject IRI of an FMA node: the namespace followed by the full id. */
  function Subject(id: string): Term
  {
    Iri(FmaIdNamespace + id)
  }

  function LabelTriple(n: Node): Triple
  {
    Triple(Subject(n.id), Iri(RdfsLabel), Literal(n.lbl))
  }

  /** The ids that end up as keys of `fma_nodes`. */
  function FmaIds(nodes: seq<Node>): set<string>
  {
    set n | n in nodes && IsFmaId(n.id) :: n.id
  }

  predicate Kept(fmaIds: set<string>, e: Edge)
  {
    e.sub in fmaIds && StartsWith(e.pred, "fma:") && e.obj in fmaIds
  }

  /** The triple of a kept edge: the predicate loses its `fma:` prefix and
      moves into the FMA ontology namespace. */
  function EdgeTriple(e: Edge): Triple
    requires StartsWith(e.pred, "fma:")
  {
    Triple(Subject(e.sub), Iri(FmaNamespace + e.pred[4..]), Subject(e.obj))
  }

  function LabelTriples(nodes: seq<Node>): set<Triple>
  {
    set n | n in nodes && IsFmaId(n.id) :: LabelTriple(n)
  }

  function EdgeTriples(fmaIds: set<string>, edges: seq<Edge>): set<Triple>
  {
    set e | e in edges && Kept(fmaIds, e) :: EdgeTriple(e)
  }

  /** The graph `process` returns, as a reference definition. */
  function Graph(nodes: seq<Node>, edges: seq<Edge>): set<Triple>
  {
    LabelTriples(nodes) + EdgeTriples(FmaIds(nodes), edges)
  }

  /** `process(json)`: the node loop fills `fma_nodes` and adds the label
      triples, then the edge loop adds the kept edges. */
  method Process(nodes: seq<Node>, edges: seq<Edge>) returns (graph: set<Triple>)
    ensures graph == Graph(nodes, edges)
  {
    var fmaNodes;
    graph, fmaNodes := AddNodes(nodes);
    graph := AddEdges(graph, fmaNodes, edges);
  }

  /** The node loop of `process`: the FMA nodes' subjects and label triples. */
  method AddNodes(nodes: seq<Node>) returns (graph: set<Triple>, fmaNodes: map<string, Term>)
    ensures fmaNodes.Keys == FmaIds(nodes)
    ensures forall id :: id in fmaNodes ==> fmaNodes[id] == Subject(id)
    ensures graph == LabelTriples(nodes)
  {
    graph := {};
    fmaNodes := map[];
    for i := 0 to |nodes|
      invariant fmaNodes.Keys == FmaIds(nodes[..i])
      invariant forall id :: id in fmaNodes ==> fmaNodes[id] == Subject(id)
      invariant graph == LabelTriples(nodes[..i])
    {
      NodeStep(nodes[..i], nodes[i]);
      assert nodes[..i + 1] == nodes[..i] + [nodes[i]];
      var node := nodes[i];
      if StartsWith(node.id, "FMA:") {
        var subject := Subject(node.id);
        fmaNodes := fmaNodes[node.id := subject];
        graph := graph + {Triple(subject, Iri(RdfsLabel), Literal(node.lbl))};
      }
    }
    assert nodes[..|nodes|] == nodes;
  }

  /** The edge loop of `process`: the triples of the edges between known FMA
      nodes whose predicate has the `fma:` prefix. */
  method AddEdges(graph0: set<Triple>, fmaNodes: map<string, Term>, edges: seq<Edge>) returns (graph: set<Triple>)
    requires forall id :: id in fmaNodes ==> fmaNodes[id] == Subject(id)
    ensures graph == graph0 + EdgeTriples(fmaNodes.Keys, edges)
  {
    graph := graph0;
    for j := 0 to |edges|
      invariant graph == graph0 + EdgeTriples(fmaNodes.Keys, edges[..j])
    {
      EdgeStep(fmaNodes.Keys, edges[..j], edges[j]);
      assert edges[..j + 1] == edges[..j] + [edges[j]];
      var edge := edges[j];
      if edge.sub in fmaNodes && StartsWith(edge.pred, "fma:") && edge.obj in fmaNodes {
        graph := graph + {Triple(fmaNodes[edge.sub], Iri(FmaNamespace + edge.pred[4..]), fmaNodes[edge.obj])};
      }
    }
    assert edges[..|edges|] == edges;
  }

  lemma NodeStep(nodes: seq<Node>, n: Node)
    ensures FmaIds(nodes + [n]) == FmaIds(nodes) + (if IsFmaId(n.id) then {n.id} else {})
    ensures LabelTriples(nodes + [n]) == LabelTriples(nodes) + (if IsFmaId(n.id) then {LabelTriple(n)} else {})
  {
    assert forall m :: m in nodes + [n] <==> m in nodes || m == n;
  }

  lemma EdgeStep(fmaIds: set<string>, edges: seq<Edge>, e: Edge)
    ensures EdgeTriples(fmaIds, edges + [e]) == EdgeTriples(fmaIds, edges) + (if Kept(fmaIds, e) then {EdgeTriple(e)} else {})
  {
    assert forall d :: d in edges + [e] <==> d in edges || d == e;
  }

  /** The namespace prefix can be taken off again: a subject IRI names one
      node id. */
  lemma PrefixCancels(ns: string, a: string, b: string)
    requires ns + a == ns + b
    ensures a == b
  {
    assert a == (ns + a)[|ns|..];
    assert b == (ns + b)[|ns|..];
  }

  /** No predicate in the FMA ontology namespace is `rdfs:label`. */
  lemma FmaPredicateIsNotLabel(p: string)
    ensures FmaNamespace + p != RdfsLabel
  {
    assert (FmaNamespace + p)[7] == 'p';
  }

  /** Every subject in the graph is an FMA node of the input. */
  lemma SubjectsAreFmaNodes(nodes: seq<Node>, edges: seq<Edge>, t: Triple)
    requires t in Graph(nodes, edges)
    ensures exists n :: n in nodes && IsFmaId(n.id) && t.subject == Subject(n.id)
  {
    if t !in LabelTriples(nodes) {
      var e :| e in edges && Kept(FmaIds(nodes), e) && t == EdgeTriple(e);
      var n :| n in nodes && IsFmaId(n.id) && n.id == e.sub;
    }
  }

  /** A label triple is in the graph exactly when an FMA node carries that
      label. */
  lemma LabelTripleIff(nodes: seq<Node>, edges: seq<Edge>, id: string, lbl: string)
    ensures Triple(Subject(id), Iri(RdfsLabel), Literal(lbl)) in Graph(nodes, edges)
      <==> Node(id, lbl) in nodes && IsFmaId(id)
  {
    var t := Triple(Subject(id), Iri(RdfsLabel), Literal(lbl));
    if t in LabelTriples(nodes) {
      var n :| n in nodes && IsFmaId(n.id) && t == LabelTriple(n);
      PrefixCancels(FmaIdNamespace, id, n.id);
      assert n == Node(id, lbl);
    }
  }

  /** An edge triple is in the graph exactly when some edge joins the two
      FMA nodes with that predicate under the `fma:` prefix. */
  lemma EdgeTripleIff(nodes: seq<Node>, edges: seq<Edge>, sub: string, p: string, obj: string)
    ensures Triple(Subject(sub), Iri(FmaNamespace + p), Subject(obj)) in Graph(nodes, edges)
      <==> Edge(sub, "fma:" + p, obj) in edges && sub in FmaIds(nodes) && obj in FmaIds(nodes)
  {
    var t := Triple(Subject(sub), Iri(FmaNamespace + p), Subject(obj));
    var e0 := Edge(sub, "fma:" + p, obj);
    assert (e0.pred)[..4] == "fma:" && e0.pred[4..] == p;
    if e0 in edges && sub in FmaIds(nodes) && obj in FmaIds(nodes) {
      assert Kept(FmaIds(nodes), e0) && t == EdgeTriple(e0);
    }
    if t in Graph(nodes, edges) {
      assert t !in LabelTriples(nodes);
      var e :| e in edges && Kept(FmaIds(nodes), e) && t == EdgeTriple(e);
      PrefixCancels(FmaIdNamespace, sub, e.sub);
      PrefixCancels(FmaIdNamespace, obj, e.obj);
      PrefixCancels(FmaNamespace, p, e.pred[4..]);
      assert e.pred == e.pred[..4] + e.pred[4..];
      assert e == e0;
    }
  }

  /** Every triple is a label triple or a kept edge's triple, and nothing
      else: the value of a label triple is a literal, that of an edge triple
      an FMA subject. */
  lemma GraphShape(nodes: seq<Node>, edges: seq<Edge>, t: Triple)
    requires t in Graph(nodes, edges)
    ensures t.verb == Iri(RdfsLabel) <==> t.value.Literal?
    ensures t.value.Literal? ==> exists n :: n in nodes && IsFmaId(n.id) && t == LabelTriple(n)
    ensures t.value.Iri? ==> exists e :: e in edges && Kept(FmaIds(nodes), e) && t == EdgeTriple(e)
  {
    if t !in LabelTriples(nodes) {
      var e :| e in edges && Kept(FmaIds(nodes), e) && t == EdgeTriple(e);
      FmaPredicateIsNotLabel(e.pred[4..]);
    }
  }
}
