/**
 * `process` of sparc-data/sparc2layers.py: it numbers the nodes of a SPARC
 * knowledge-graph dump, adds the k-th node (from 0) to a directed graph under
 * the key k+1 with its id as `name` and its label as `label`, and adds every
 * edge reversed, from its object to its subject, with the predicate as
 * `part`. A directed graph keeps, per node key, its attributes (a node added
 * only as the end of an edge has none) and, per ordered pair of keys, the
 * edge's `part`; adding an edge adds its missing ends; adding an existing
 * edge replaces its `part`.
 */
module Sparc2Layers {
  import opened Wrappers

  datatype Node = Node(id: string, lbl: string)
  datatype Edge = Edge(sub: string, pred: string, obj: string)

  datatype NodeData = Named(name: string, title: string) | Bare
  datatype DiGraph = DiGraph(nodes: map<int, NodeData>, edges: map<(int, int), string>)

  /** The error a lookup of an absent id raises. */
  datatype KeyError = KeyError(key: string)

  function AddNode(g: DiGraph, key: int, name: string, lbl: string): DiGraph
  {
    g.(nodes := g.nodes[key := Named(name, lbl)])
  }

  function WithNode(m: map<int, NodeData>, key: int): map<int, NodeData>
  {
    if key in m then m else m[key := Bare]
  }

  function AddEdge(g: DiGraph, u: int, v: int, part: string): DiGraph
  {
    DiGraph(WithNode(WithNode(g.nodes, u), v), g.edges[(u, v) := part])
  }

  /** The `nodes` dictionary after the node loop, where each node's position
      plus `base` is stored: the script as written stores the position
      itself (`base` 0); the graph keys need `base` 1. */
  function IdIndex(nodes: seq<Node>, base: nat): map<string, int>
  {
    if |nodes| == 0 then map[]
    else IdIndex(nodes[..|nodes| - 1], base)[nodes[|nodes| - 1].id := |nodes| - 1 + base]
  }

  /** The graph's nodes after the node loop: key k+1 for the k-th node. */
  function NodeTable(nodes: seq<Node>): map<int, NodeData>
  {
    if |nodes| == 0 then map[]
    else NodeTable(nodes[..|nodes| - 1])[|nodes| := Named(nodes[|nodes| - 1].id, nodes[|nodes| - 1].lbl)]
  }

  /** The pair of keys an edge is added on, when both its ends are known:
      object first, subject second. */
  function Reversed(ids: map<string, int>, e: Edge): Option<(int, int)>
  {
    if e.obj in ids && e.sub in ids then Some((ids[e.obj], ids[e.sub])) else None
  }

  /** One step of the edge loop: the object is looked up first. */
  function AddEdgeChecked(g: DiGraph, ids: map<string, int>, e: Edge): Result<DiGraph, KeyError>
  {
    if e.obj !in ids then Err(KeyError(e.obj))
    else if e.sub !in ids then Err(KeyError(e.sub))
    else Ok(AddEdge(g, ids[e.obj], ids[e.sub], e.pred))
  }

  /** The edge loop, in order; the first failing lookup ends it. */
  function AddEdges(g: DiGraph, ids: map<string, int>, edges: seq<Edge>): Result<DiGraph, KeyError>
  {
    if |edges| == 0 then Ok(g)
    else
      match AddEdges(g, ids, edges[..|edges| - 1])
      case Err(k) => Err(k)
      case Ok(h) => AddEdgeChecked(h, ids, edges[|edges| - 1])
  }

  /** What `process` returns, with the dictionary storing position + `base`. */
  function Built(nodes: seq<Node>, edges: seq<Edge>, base: nat): Result<DiGraph, KeyError>
  {
    AddEdges(DiGraph(NodeTable(nodes), map[]), IdIndex(nodes, base), edges)
  }

  /** `process(json)` as written: the dictionary stores the 0-based position
      while the graph keys start from 1. */
  method Process(nodes: seq<Node>, edges: seq<Edge>) returns (r: Result<DiGraph, KeyError>)
    ensures r == Built(nodes, edges, 0)
  {
    var graph := DiGraph(map[], map[]);
    var ids: map<string, int> := map[];
    for n := 0 to |nodes|
      invariant ids == IdIndex(nodes[..n], 0)
      invariant graph == DiGraph(NodeTable(nodes[..n]), map[])
    {
      assert nodes[..n + 1][..n] == nodes[..n];
      ids := ids[nodes[n].id := n];
      graph := AddNode(graph, n + 1, nodes[n].id, nodes[n].lbl);
    }
    assert nodes[..|nodes|] == nodes;
    r := AddEdgesInOrder(graph, ids, edges);
  }

  /** `process` with the dictionary storing the graph key, position + 1. */
  method ProcessCorrected(nodes: seq<Node>, edges: seq<Edge>) returns (r: Result<DiGraph, KeyError>)
    ensures r == Built(nodes, edges, 1)
  {
    var graph := DiGraph(map[], map[]);
    var ids: map<string, int> := map[];
    for n := 0 to |nodes|
      invariant ids == IdIndex(nodes[..n], 1)
      invariant graph == DiGraph(NodeTable(nodes[..n]), map[])
    {
      assert nodes[..n + 1][..n] == nodes[..n];
      ids := ids[nodes[n].id := n + 1];
      graph := AddNode(graph, n + 1, nodes[n].id, nodes[n].lbl);
    }
    assert nodes[..|nodes|] == nodes;
    r := AddEdgesInOrder(graph, ids, edges);
  }

  /** The edge loop of `process`. */
  method AddEdgesInOrder(graph: DiGraph, ids: map<string, int>, edges: seq<Edge>) returns (r: Result<DiGraph, KeyError>)
    ensures r == AddEdges(graph, ids, edges)
  {
    var g := graph;
    for i := 0 to |edges|
      invariant AddEdges(graph, ids, edges[..i]) == Ok(g)
    {
      assert edges[..i + 1][..i] == edges[..i];
      var e := edges[i];
      if e.obj !in ids {
        ErrPersists(graph, ids, edges, i + 1);
        return Err(KeyError(e.obj));
      }
      if e.sub !in ids {
        ErrPersists(graph, ids, edges, i + 1);
        return Err(KeyError(e.sub));
      }
      g := AddEdge(g, ids[e.obj], ids[e.sub], e.pred);
    }
    assert edges[..|edges|] == edges;
    r := Ok(g);
  }

  /** Once a lookup fails, the later edges change nothing. */
  lemma {:induction false} ErrPersists(g: DiGraph, ids: map<string, int>, edges: seq<Edge>, i: nat)
    requires i <= |edges| && AddEdges(g, ids, edges[..i]).Err?
    ensures AddEdges(g, ids, edges) == AddEdges(g, ids, edges[..i])
    decreases |edges| - i
  {
    if i == |edges| {
      assert edges[..i] == edges;
    } else {
      var init := edges[..|edges| - 1];
      assert init[..i] == edges[..i];
      ErrPersists(g, ids, init, i);
    }
  }

  /** Later duplicates win: an id is in the dictionary exactly when some node
      has it, and its entry is the last such node's position plus `base`. */
  lemma {:induction false} IdIndexLastWins(nodes: seq<Node>, base: nat, id: string)
    ensures id in IdIndex(nodes, base) <==> exists k :: 0 <= k < |nodes| && nodes[k].id == id
    ensures id in IdIndex(nodes, base) ==>
      var k := IdIndex(nodes, base)[id] - base;
      && 0 <= k < |nodes| && nodes[k].id == id
      && forall j :: k < j < |nodes| ==> nodes[j].id != id
    decreases |nodes|
  {
    if |nodes| > 0 {
      var init := nodes[..|nodes| - 1];
      IdIndexLastWins(init, base, id);
      if nodes[|nodes| - 1].id != id && (exists k :: 0 <= k < |nodes| && nodes[k].id == id) {
        var k :| 0 <= k < |nodes| && nodes[k].id == id;
        assert init[k].id == id;
      }
    }
  }

  /** The k-th node (from 0) is graph node k+1, named by its id and labelled
      by its label; there are no other nodes. */
  lemma {:induction false} NodeTableNumbering(nodes: seq<Node>)
    ensures forall key :: key in NodeTable(nodes) <==> 1 <= key <= |nodes|
    ensures forall k :: 0 <= k < |nodes| ==> NodeTable(nodes)[k + 1] == Named(nodes[k].id, nodes[k].lbl)
    decreases |nodes|
  {
    if |nodes| > 0 {
      var init := nodes[..|nodes| - 1];
      NodeTableNumbering(init);
      forall k | 0 <= k < |init|
        ensures nodes[k] == init[k]
      {
      }
    }
  }

  /** The edge loop fails exactly when some edge names an absent id, and the
      error names that id. */
  lemma {:induction false} AddEdgesErrIff(g: DiGraph, ids: map<string, int>, edges: seq<Edge>)
    ensures AddEdges(g, ids, edges).Err? <==> exists e :: e in edges && Reversed(ids, e).None?
    ensures AddEdges(g, ids, edges).Err? ==> AddEdges(g, ids, edges).error.key !in ids
    decreases |edges|
  {
    if |edges| > 0 {
      var init := edges[..|edges| - 1];
      var last := edges[|edges| - 1];
      assert edges == init + [last] && last in edges;
      AddEdgesErrIff(g, ids, init);
      if AddEdges(g, ids, init).Err? {
        assert AddEdges(g, ids, edges) == AddEdges(g, ids, init);
        var e :| e in init && Reversed(ids, e).None?;
        assert e in edges;
      } else {
        assert AddEdges(g, ids, edges) == AddEdgeChecked(AddEdges(g, ids, init).value, ids, last);
        if exists e :: e in edges && Reversed(ids, e).None? {
          var e :| e in edges && Reversed(ids, e).None?;
          if e != last {
            assert e in init;
          }
        }
      }
    }
  }

  /** Whether `key` is an end of the edge. */
  predicate Ends(ids: map<string, int>, e: Edge, key: int)
  {
    Reversed(ids, e).Some? && (key == Reversed(ids, e).value.0 || key == Reversed(ids, e).value.1)
  }

  /** The edge loop keeps every node it finds, with its attributes, and adds
      the ends of the edges it adds, without attributes. */
  lemma {:induction false} AddEdgesNodes(g: DiGraph, ids: map<string, int>, edges: seq<Edge>)
    requires AddEdges(g, ids, edges).Ok?
    ensures var h := AddEdges(g, ids, edges).value;
      && (forall key :: key in g.nodes ==> key in h.nodes && h.nodes[key] == g.nodes[key])
      && (forall key :: key in h.nodes && key !in g.nodes ==> h.nodes[key] == Bare)
      && (forall key :: key in h.nodes <==> key in g.nodes || exists e :: e in edges && Ends(ids, e, key))
    decreases |edges|
  {
    if |edges| > 0 {
      var init := edges[..|edges| - 1];
      var last := edges[|edges| - 1];
      assert edges == init + [last] && last in edges;
      AddEdgesNodes(g, ids, init);
      var h0 := AddEdges(g, ids, init).value;
      var h := AddEdges(g, ids, edges).value;
      assert h == AddEdge(h0, ids[last.obj], ids[last.sub], last.pred);
      forall key
        ensures key in h.nodes <==> key in g.nodes || exists e :: e in edges && Ends(ids, e, key)
      {
        if exists e :: e in edges && Ends(ids, e, key) {
          var e :| e in edges && Ends(ids, e, key);
          if e != last {
            assert e in init;
          }
        }
        if key in h0.nodes && key !in g.nodes {
          var e :| e in init && Ends(ids, e, key);
          assert e in edges;
        }
      }
    }
  }

  /** The pairs of the result are those found plus one per input edge: the
      pair (object, subject). */
  lemma {:induction false} AddEdgesPairs(g: DiGraph, ids: map<string, int>, edges: seq<Edge>)
    requires AddEdges(g, ids, edges).Ok?
    ensures var h := AddEdges(g, ids, edges).value;
      forall pair :: pair in h.edges <==> pair in g.edges || exists e :: e in edges && Reversed(ids, e) == Some(pair)
    decreases |edges|
  {
    if |edges| > 0 {
      var init := edges[..|edges| - 1];
      var last := edges[|edges| - 1];
      assert edges == init + [last] && last in edges;
      AddEdgesPairs(g, ids, init);
      var h0 := AddEdges(g, ids, init).value;
      var h := AddEdges(g, ids, edges).value;
      assert h == AddEdge(h0, ids[last.obj], ids[last.sub], last.pred);
      forall pair
        ensures pair in h.edges <==> pair in g.edges || exists e :: e in edges && Reversed(ids, e) == Some(pair)
      {
        if exists e :: e in edges && Reversed(ids, e) == Some(pair) {
          var e :| e in edges && Reversed(ids, e) == Some(pair);
          if e != last {
            assert e in init;
          }
        }
        if pair in h0.edges && pair !in g.edges {
          var e :| e in init && Reversed(ids, e) == Some(pair);
          assert e in edges;
        }
      }
    }
  }

  /** Whether the j-th edge is the last one on the pair. */
  predicate LastOn(ids: map<string, int>, edges: seq<Edge>, j: int, pair: (int, int))
  {
    && 0 <= j < |edges| && Reversed(ids, edges[j]) == Some(pair)
    && forall j' :: j < j' < |edges| ==> Reversed(ids, edges[j']) != Some(pair)
  }

  /** A pair added by the loop carries the `part` of the last input edge on
      it: a later edge on the same pair replaces the earlier one's. */
  lemma {:induction false} AddEdgesParts(g: DiGraph, ids: map<string, int>, edges: seq<Edge>, pair: (int, int), j: int)
    requires AddEdges(g, ids, edges).Ok? && LastOn(ids, edges, j, pair)
    ensures pair in AddEdges(g, ids, edges).value.edges
    ensures AddEdges(g, ids, edges).value.edges[pair] == edges[j].pred
    decreases |edges|
  {
    var init := edges[..|edges| - 1];
    var last := edges[|edges| - 1];
    var h0 := AddEdges(g, ids, init).value;
    assert AddEdges(g, ids, edges).value == AddEdge(h0, ids[last.obj], ids[last.sub], last.pred);
    if j < |edges| - 1 {
      assert Reversed(ids, last) != Some(pair);
      assert LastOn(ids, init, j, pair) by {
        forall j' | j < j' < |init| ensures Reversed(ids, init[j']) != Some(pair) {
          assert init[j'] == edges[j'];
        }
      }
      AddEdgesParts(g, ids, init, pair, j);
    }
  }

  /** The k-th input node is graph node k+1 with its id and label, whatever
      the dictionary stores. */
  lemma NodesNumberedFromOne(nodes: seq<Node>, edges: seq<Edge>, base: nat)
    requires Built(nodes, edges, base).Ok?
    ensures forall k :: 0 <= k < |nodes| ==>
      k + 1 in Built(nodes, edges, base).value.nodes
      && Built(nodes, edges, base).value.nodes[k + 1] == Named(nodes[k].id, nodes[k].lbl)
  {
    NodeTableNumbering(nodes);
    AddEdgesNodes(DiGraph(NodeTable(nodes), map[]), IdIndex(nodes, base), edges);
  }

  lemma TwoNodes(base: nat)
    ensures IdIndex([Node("A", "a"), Node("B", "b")], base) == map["A" := base, "B" := base + 1]
    ensures NodeTable([Node("A", "a"), Node("B", "b")]) == map[1 := Named("A", "a"), 2 := Named("B", "b")]
  {
    var nodes := [Node("A", "a"), Node("B", "b")];
    assert nodes[..1] == [Node("A", "a")];
    assert nodes[..1][..0] == [];
    assert IdIndex(nodes[..1], base) == map["A" := base];
    assert NodeTable(nodes[..1]) == map[1 := Named("A", "a")];
  }

  /** With the position stored as written, the endpoint for the k-th node is
      k, and the node k does not carry the k-th node's name: for the nodes
      A, B and one edge with subject B and object A, the edge lands between
      an attribute-less node 0 and node 1 named A, and nothing joins the
      graph nodes of A (1) and B (2). */
  lemma AsWrittenMisplacesEdge()
    ensures var r := Built([Node("A", "a"), Node("B", "b")], [Edge("B", "part", "A")], 0);
      && r.Ok?
      && r.value.edges == map[(0, 1) := "part"]
      && 0 in r.value.nodes && r.value.nodes[0] == Bare
      && 1 in r.value.nodes && r.value.nodes[1] == Named("A", "a")
      && 2 in r.value.nodes && r.value.nodes[2] == Named("B", "b")
  {
    TwoNodes(0);
    var edges := [Edge("B", "part", "A")];
    assert edges[..0] == [];
  }

  /** With the graph key stored, every edge joins the graph nodes named by its
      object and its subject, and no node without attributes appears. */
  lemma CorrectedEndsNamed(nodes: seq<Node>, edges: seq<Edge>)
    requires Built(nodes, edges, 1).Ok?
    ensures var h := Built(nodes, edges, 1).value;
      && (forall key :: key in h.nodes <==> 1 <= key <= |nodes|)
      && (forall key :: key in h.nodes ==> h.nodes[key].Named?)
      && (forall e :: e in edges ==> exists u, v ::
            (u, v) in h.edges && u in h.nodes && v in h.nodes && h.nodes[u].name == e.obj && h.nodes[v].name == e.sub)
  {
    var g := DiGraph(NodeTable(nodes), map[]);
    var ids := IdIndex(nodes, 1);
    var h := Built(nodes, edges, 1).value;
    NodeTableNumbering(nodes);
    AddEdgesNodes(g, ids, edges);
    AddEdgesPairs(g, ids, edges);
    AddEdgesErrIff(g, ids, edges);
    forall id | id in ids
      ensures 1 <= ids[id] <= |nodes| && ids[id] in h.nodes && h.nodes[ids[id]] == Named(id, nodes[ids[id] - 1].lbl)
    {
      IdIndexLastWins(nodes, 1, id);
    }
    forall key | key in h.nodes ensures 1 <= key <= |nodes| && h.nodes[key].Named? {
      var k := key - 1;
      assert 0 <= k < |nodes|;
      assert NodeTable(nodes)[k + 1] == Named(nodes[k].id, nodes[k].lbl);
    }
    forall e | e in edges
      ensures exists u, v :: (u, v) in h.edges && u in h.nodes && v in h.nodes && h.nodes[u].name == e.obj && h.nodes[v].name == e.sub
    {
      assert Reversed(ids, e).Some?;
      var u, v := ids[e.obj], ids[e.sub];
      assert (u, v) in h.edges;
    }
  }

  /** The corrected dictionary joins A and B: on the same input, the edge
      goes from A's graph node to B's. */
  lemma CorrectedJoinsNamedNodes()
    ensures Built([Node("A", "a"), Node("B", "b")], [Edge("B", "part", "A")], 1)
      == Ok(DiGraph(map[1 := Named("A", "a"), 2 := Named("B", "b")], map[(1, 2) := "part"]))
  {
    TwoNodes(1);
    var edges := [Edge("B", "part", "A")];
    assert edges[..0] == [];
  }
}
