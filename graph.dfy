/**
 * The Trustchain graph: a directed graph read from a list of document chains
 * ("trees"). Each consecutive pair of documents in a chain becomes two fresh
 * nodes joined by one edge; nodes are never shared between pairs, and no tree
 * shape is checked.
 */
module Graph {
  import opened Wrappers
  import opened DidTypes

  /** The error a graph may report; no operation of the model produces it. */
  datatype GraphError = NotATree

  /** An edge between two node indices. */
  datatype Edge = Edge(source: nat, target: nat)

  /** A directed graph whose nodes hold documents, indexed by position. */
  datatype DiGraph = DiGraph(nodes: seq<Document>, edges: seq<Edge>)

  datatype TrustchainGraph = TrustchainGraph(graph: DiGraph)

  /** The number of consecutive pairs in a chain, max(len - 1, 0). */
  function PairCount(tree: seq<Document>): nat
  {
    if |tree| < 2 then 0 else |tree| - 1
  }

  /** The number of edges read from `trees`: the sum of their pair counts. */
  function EdgeCount(trees: seq<seq<Document>>): nat
  {
    if |trees| == 0 then 0 else EdgeCount(trees[..|trees| - 1]) + PairCount(trees[|trees| - 1])
  }

  /** The nodes added for one chain: tree[0], tree[1], tree[1], tree[2], ... */
  function PairNodes(tree: seq<Document>): seq<Document>
  {
    if |tree| < 2 then [] else PairNodes(tree[..|tree| - 1]) + [tree[|tree| - 2], tree[|tree| - 1]]
  }

  /** The nodes added for all chains, in list order. */
  function TreeNodes(trees: seq<seq<Document>>): seq<Document>
  {
    if |trees| == 0 then [] else TreeNodes(trees[..|trees| - 1]) + PairNodes(trees[|trees| - 1])
  }

  /** The edges (0, 1), (2, 3), ..., (2n - 2, 2n - 1). */
  function PairEdges(n: nat): seq<Edge>
  {
    if n == 0 then [] else PairEdges(n - 1) + [Edge(2 * (n - 1), 2 * (n - 1) + 1)]
  }

  /** The graph `read_trees` builds from `trees`. */
  function ReadTreesSpec(trees: seq<seq<Document>>): DiGraph
  {
    DiGraph(TreeNodes(trees), PairEdges(EdgeCount(trees)))
  }

  /** The index of the edge read for the pair (trees[j][i - 1], trees[j][i]). */
  function EdgeIndex(trees: seq<seq<Document>>, j: nat, i: nat): nat
    requires j < |trees| && 1 <= i < |trees[j]|
  {
    EdgeCount(trees[..j]) + i - 1
  }

  /**
   * `read_trees`: for every chain and every position i from 1, add a node for
   * tree[i - 1], a node for tree[i], and record an edge between them; the
   * edges are added to the graph once all nodes are in.
   */
  method ReadTrees(trees: seq<seq<Document>>) returns (g: DiGraph)
    ensures g == ReadTreesSpec(trees)
  {
    var nodes: seq<Document> := [];
    var edges: seq<Edge> := [];
    for t := 0 to |trees|
      invariant nodes == TreeNodes(trees[..t])
      invariant |nodes| == 2 * |edges| && edges == PairEdges(|edges|)
    {
      var tree := trees[t];
      var i := 1;
      while i < |tree|
        invariant 1 <= i && (i <= |tree| || tree == [])
        invariant nodes == TreeNodes(trees[..t]) + (if tree == [] then [] else PairNodes(tree[..i]))
        invariant |nodes| == 2 * |edges| && edges == PairEdges(|edges|)
      {
        assert tree[..i + 1][..i] == tree[..i];
        var ns := |nodes|;
        nodes := nodes + [tree[i - 1]];
        var nt := |nodes|;
        nodes := nodes + [tree[i]];
        edges := edges + [Edge(ns, nt)];
        i := i + 1;
      }
      assert trees[..t + 1][..t] == trees[..t];
      assert tree != [] ==> tree[..i] == tree;
    }
    assert trees[..|trees|] == trees;
    NodeCount(trees);
    g := DiGraph(nodes, edges);
  }

  /** `TrustchainGraph::new`: always succeeds with the graph `read_trees` builds. */
  method New(trees: seq<seq<Document>>) returns (r: Result<TrustchainGraph, GraphError>)
    ensures r == Ok(TrustchainGraph(ReadTreesSpec(trees)))
  {
    var graph := ReadTrees(trees);
    r := Ok(TrustchainGraph(graph));
  }

  /** One chain adds two nodes per consecutive pair. */
  lemma {:induction false} PairNodesLength(tree: seq<Document>)
    ensures |PairNodes(tree)| == 2 * PairCount(tree)
  {
    if |tree| >= 2 {
      PairNodesLength(tree[..|tree| - 1]);
    }
  }

  /** The node count of the graph is exactly twice its edge count. */
  lemma {:induction false} NodeCount(trees: seq<seq<Document>>)
    ensures |TreeNodes(trees)| == 2 * EdgeCount(trees)
  {
    if |trees| > 0 {
      NodeCount(trees[..|trees| - 1]);
      PairNodesLength(trees[|trees| - 1]);
    }
  }

  /** The k-th edge goes from node 2k to node 2k + 1. */
  lemma {:induction false} PairEdgesAt(n: nat, k: nat)
    requires k < n
    ensures |PairEdges(n)| == n && PairEdges(n)[k] == Edge(2 * k, 2 * k + 1)
  {
    PairEdgesLength(n);
    if k < n - 1 {
      PairEdgesAt(n - 1, k);
    }
  }

  lemma {:induction false} PairEdgesLength(n: nat)
    ensures |PairEdges(n)| == n
  {
    if n > 0 {
      PairEdgesLength(n - 1);
    }
  }

  /** Within one chain, the pair ending at position i occupies nodes 2(i - 1) and 2(i - 1) + 1. */
  lemma {:induction false} PairNodesAt(tree: seq<Document>, i: nat)
    requires 1 <= i < |tree|
    ensures |PairNodes(tree)| == 2 * (|tree| - 1)
    ensures PairNodes(tree)[2 * (i - 1)] == tree[i - 1] && PairNodes(tree)[2 * (i - 1) + 1] == tree[i]
  {
    PairNodesLength(tree);
    var prefix := tree[..|tree| - 1];
    if i < |tree| - 1 {
      PairNodesAt(prefix, i);
    }
  }

  /** The pair ending at trees[j][i] occupies nodes 2k and 2k + 1, where k is its edge index. */
  lemma {:induction false} TreeNodesAt(trees: seq<seq<Document>>, j: nat, i: nat)
    requires j < |trees| && 1 <= i < |trees[j]|
    ensures 2 * EdgeIndex(trees, j, i) + 1 < |TreeNodes(trees)|
    ensures TreeNodes(trees)[2 * EdgeIndex(trees, j, i)] == trees[j][i - 1]
    ensures TreeNodes(trees)[2 * EdgeIndex(trees, j, i) + 1] == trees[j][i]
  {
    var last := |trees| - 1;
    var prefix := trees[..last];
    NodeCount(trees);
    NodeCount(prefix);
    if j < last {
      assert prefix[..j] == trees[..j];
      assert prefix[j] == trees[j];
      TreeNodesAt(prefix, j, i);
      assert EdgeIndex(prefix, j, i) == EdgeIndex(trees, j, i);
    } else {
      assert trees[..j] == prefix;
      PairNodesAt(trees[j], i);
    }
  }

  /**
   * Every consecutive pair of every chain has its own edge: the edge at index
   * k = EdgeIndex(trees, j, i) goes from node 2k, holding trees[j][i - 1], to
   * node 2k + 1, holding trees[j][i].
   */
  lemma ReadTreesEdge(trees: seq<seq<Document>>, j: nat, i: nat)
    requires j < |trees| && 1 <= i < |trees[j]|
    ensures var g, k := ReadTreesSpec(trees), EdgeIndex(trees, j, i);
            && k < |g.edges|
            && g.edges[k] == Edge(2 * k, 2 * k + 1)
            && 2 * k + 1 < |g.nodes|
            && g.nodes[g.edges[k].source] == trees[j][i - 1]
            && g.nodes[g.edges[k].target] == trees[j][i]
  {
    var k := EdgeIndex(trees, j, i);
    TreeNodesAt(trees, j, i);
    NodeCount(trees);
    PairEdgesAt(EdgeCount(trees), k);
  }

  /** The graph has one edge per consecutive pair, twice as many nodes, and edge k joins nodes 2k and 2k + 1. */
  lemma ReadTreesCounts(trees: seq<seq<Document>>)
    ensures |ReadTreesSpec(trees).edges| == EdgeCount(trees)
    ensures |ReadTreesSpec(trees).nodes| == 2 * |ReadTreesSpec(trees).edges|
    ensures forall k :: 0 <= k < |ReadTreesSpec(trees).edges| ==> ReadTreesSpec(trees).edges[k] == Edge(2 * k, 2 * k + 1)
  {
    NodeCount(trees);
    PairEdgesLength(EdgeCount(trees));
    forall k | 0 <= k < EdgeCount(trees)
      ensures PairEdges(EdgeCount(trees))[k] == Edge(2 * k, 2 * k + 1)
    {
      PairEdgesAt(EdgeCount(trees), k);
    }
  }

  /** Each node is an endpoint of exactly one edge: nodes are never shared between pairs. */
  lemma NodesNotShared(trees: seq<seq<Document>>, n: nat, k: nat)
    requires n < |ReadTreesSpec(trees).nodes| && k < |ReadTreesSpec(trees).edges|
    ensures var e := ReadTreesSpec(trees).edges[k];
            (e.source == n || e.target == n) <==> k == n / 2
  {
    ReadTreesCounts(trees);
  }

  /** The edge count never decreases as more chains are read. */
  lemma {:induction false} EdgeCountMonotone(trees: seq<seq<Document>>, a: nat, b: nat)
    requires a <= b <= |trees|
    ensures EdgeCount(trees[..a]) <= EdgeCount(trees[..b])
  {
    if a < b {
      EdgeCountMonotone(trees, a, b - 1);
      assert trees[..b][..b - 1] == trees[..b - 1];
    }
  }

  /** Edges appear in input order: chains in list order, then positions ascending within a chain. */
  lemma EdgesInInputOrder(trees: seq<seq<Document>>, j: nat, i: nat, j': nat, i': nat)
    requires j < |trees| && 1 <= i < |trees[j]|
    requires j' < |trees| && 1 <= i' < |trees[j']|
    requires j < j' || (j == j' && i < i')
    ensures EdgeIndex(trees, j, i) < EdgeIndex(trees, j', i')
  {
    if j < j' {
      EdgeCountMonotone(trees, j + 1, j');
      assert trees[..j + 1][..j] == trees[..j];
    }
  }

  /** A chain with fewer than two documents, anywhere in the list, adds no node and no edge. */
  lemma {:induction false} ShortTreeAddsNothing(before: seq<seq<Document>>, tree: seq<Document>, after: seq<seq<Document>>)
    requires |tree| < 2
    ensures ReadTreesSpec(before + [tree] + after) == ReadTreesSpec(before + after)
  {
    if after == [] {
      assert (before + [tree])[..|before|] == before;
      assert before + [] == before;
      assert before + [tree] + [] == before + [tree];
    } else {
      var init := after[..|after| - 1];
      ShortTreeAddsNothing(before, tree, init);
      var l := before + [tree] + after;
      var r := before + after;
      assert l[..|l| - 1] == before + [tree] + init;
      assert r[..|r| - 1] == before + init;
      assert l[|l| - 1] == r[|r| - 1];
      assert TreeNodes(l) == TreeNodes(r);
      NodeCount(l);
      NodeCount(r);
    }
  }

  /** Neighbouring pairs that share a document still get two separate nodes for it. */
  lemma SharedDocumentExample(a: Document, b: Document, c: Document)
    ensures ReadTreesSpec([[a, b, c]]) == DiGraph([a, b, b, c], [Edge(0, 1), Edge(2, 3)])
  {
    var trees := [[a, b, c]];
    assert trees[..0] == [];
    assert [a, b, c][..2][..1] == [a];
    assert [a, b, c][..2] == [a, b];
    assert PairNodes([a]) == [];
    assert PairNodes([a, b]) == [a, b];
    assert PairNodes([a, b, c]) == [a, b, b, c];
    assert TreeNodes(trees) == [a, b, b, c];
    assert EdgeCount(trees) == 2;
    assert PairEdges(1) == [Edge(0, 1)];
  }

  /** Two equal documents in one chain give two nodes and one edge between them, not a self-loop. */
  lemma EqualDocumentsStaySeparate(d: Document)
    ensures ReadTreesSpec([[d, d]]) == DiGraph([d, d], [Edge(0, 1)])
  {
    var trees := [[d, d]];
    assert trees[..0] == [];
    assert [d, d][..1] == [d];
    assert PairNodes([d]) == [];
    assert PairNodes([d, d]) == [d, d];
    assert TreeNodes(trees) == [d, d];
    assert EdgeCount(trees) == 1;
    assert PairEdges(1) == [Edge(0, 1)];
  }
}
