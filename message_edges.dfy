/** The collator's pass over the numbered trees of a batch that builds the
    candidate batch index and the paired tree-message source/target edge lists,
    with the running atom offset `n_nodes`. The nested loops of the collator are
    split into one method per loop level, each proved against the folds of
    BatchSpec. Looking up a map number that names no node is Python's KeyError:
    the methods then report failure instead of results. */
module MessageEdges {
  import opened JunctionTree
  import opened BatchSpec

  /** The body of the bond loop for one bond: the map numbers are looked up
      (failing on a missing key), and a message edge is found exactly when the
      bond yields one. */
  method BondMessage(table: seq<Node>, graph: set<(int, int)>, b: Bond, nNodes: nat)
    returns (ok: bool, found: bool, s: (int, int), t: (int, int))
    ensures ok <==> BondOk(table, b)
    ensures ok ==> (found <==> BondEdge(table, graph, b, nNodes) != [])
    ensures ok && found ==> BondEdge(table, graph, b, nNodes) == [MessEdge(s, t)]
  {
    ok, found, s, t := true, false, (0, 0), (0, 0);
    if b.beginMapNum > |table| || b.endMapNum > |table| {
      ok := false;
      return;
    }
    var xBid := if b.beginMapNum > 0 then table[b.beginMapNum - 1].idx else -1;
    var yBid := if b.endMapNum > 0 then table[b.endMapNum - 1].idx else -1;
    assert xBid == BatchId(table, b.beginMapNum) && yBid == BatchId(table, b.endMapNum);
    if xBid >= 0 && yBid >= 0 && xBid != yBid {
      if (xBid, yBid) in graph {
        found, s, t := true, (xBid, yBid), (b.beginIdx + nNodes, b.endIdx + nNodes);
      } else if (yBid, xBid) in graph {
        found, s, t := true, (yBid, xBid), (b.endIdx + nNodes, b.beginIdx + nNodes);
      }
    }
  }

  /** The bond loop over one candidate molecule whose atoms start at `nNodes`.
      The loop's counter is the collator's `i`, which holds `i0` on entry and
      is left at the last bond index. */
  method BondMessages(table: seq<Node>, graph: set<(int, int)>, bonds: seq<Bond>, nNodes: nat, i0: int)
    returns (ok: bool, src: seq<(int, int)>, tgt: seq<(int, int)>, i: int)
    ensures ok <==> BondsOk(table, bonds)
    ensures ok ==> i == if |bonds| > 0 then |bonds| - 1 else i0
    ensures ok ==> src == Sources(MolEdges(table, graph, bonds, nNodes))
    ensures ok ==> tgt == Targets(MolEdges(table, graph, bonds, nNodes))
    ensures |src| == |tgt|
  {
    ok, src, tgt, i := true, [], [], i0;
    ghost var es: seq<MessEdge> := [];
    ghost var prefix: seq<Bond> := [];
    SourcesTargetsEmpty();
    var k := 0;
    while k < |bonds|
      invariant 0 <= k <= |bonds| && prefix == bonds[..k]
      invariant BondsOk(table, prefix)
      invariant i == if k > 0 then k - 1 else i0
      invariant es == MolEdges(table, graph, prefix, nNodes)
      invariant src == Sources(es) && tgt == Targets(es)
    {
      i := k;
      var b := bonds[k];
      PrefixStep(bonds, k);
      BondsSnoc(table, graph, prefix, b, nNodes);
      prefix := prefix + [b];
      var bondOk, found, s, t := BondMessage(table, graph, b, nNodes);
      if !bondOk {
        ok := false;
        BondsOkAll(table, bonds);
        assert !BondOk(table, bonds[k]);
        return;
      }
      if found {
        SourcesTargetsSnoc(es, s, t);
        es := es + [MessEdge(s, t)];
        src, tgt := src + [s], tgt + [t];
      } else {
        assert es + BondEdge(table, graph, b, nNodes) == es;
      }
      k := k + 1;
    }
    WholePrefix(bonds);
  }

  /** The loop over the candidate molecules of one contributing node: every
      molecule's bonds are paired at the current offset, then the offset grows
      by the molecule's atom count. */
  method CandidateMessages(table: seq<Node>, graph: set<(int, int)>, mols: seq<CandMol>, nNodes: nat, i0: int)
    returns (ok: bool, src: seq<(int, int)>, tgt: seq<(int, int)>, nNodesAfter: nat, i: int)
    ensures ok <==> MolsOk(table, mols)
    ensures ok ==> i == LastBondIndex(mols, i0)
    ensures ok ==> src == Sources(MolsEdges(table, graph, mols, nNodes))
    ensures ok ==> tgt == Targets(MolsEdges(table, graph, mols, nNodes))
    ensures ok ==> nNodesAfter == nNodes + Atoms(mols)
    ensures |src| == |tgt|
  {
    ok, src, tgt, nNodesAfter, i := true, [], [], nNodes, i0;
    ghost var es: seq<MessEdge> := [];
    ghost var prefix: seq<CandMol> := [];
    SourcesTargetsEmpty();
    var k := 0;
    while k < |mols|
      invariant 0 <= k <= |mols| && prefix == mols[..k]
      invariant MolsOk(table, prefix)
      invariant nNodesAfter == nNodes + Atoms(prefix)
      invariant i == LastBondIndex(prefix, i0)
      invariant es == MolsEdges(table, graph, prefix, nNodes)
      invariant src == Sources(es) && tgt == Targets(es)
    {
      var m := mols[k];
      PrefixStep(mols, k);
      MolsSnoc(table, graph, prefix, m, nNodes, i0);
      prefix := prefix + [m];
      var bondsOk, s, t, iAfter := BondMessages(table, graph, m.bonds, nNodesAfter, i);
      if !bondsOk {
        ok := false;
        MolsOkAll(table, mols);
        assert !BondsOk(table, mols[k].bonds);
        return;
      }
      ghost var e := MolEdges(table, graph, m.bonds, nNodesAfter);
      SourcesTargetsAppend(es, e);
      es := es + e;
      src, tgt := src + s, tgt + t;
      nNodesAfter, i := nNodesAfter + m.numAtoms, iAfter;
      k := k + 1;
    }
    WholePrefix(mols);
  }

  /** The loop over the nodes of one tree, entered with `i` holding `i0` (the
      tree's position): leaves and single-candidate nodes are skipped; every
      other node's candidates are paired and the node adds one index entry per
      candidate, each the value `i` has after the bond loops. */
  method TreeMessages(i0: int, nodes: seq<Node>, graph: set<(int, int)>, nNodes: nat)
    returns (ok: bool, candIdx: seq<int>, src: seq<(int, int)>, tgt: seq<(int, int)>, nNodesAfter: nat, i: int)
    ensures ok <==> NodesOk(nodes, nodes)
    ensures ok ==> candIdx == NodesCandIdxAsWritten(nodes, i0) && i == RebindAfter(nodes, i0)
    ensures ok ==> src == Sources(NodesEdges(nodes, graph, nodes, nNodes))
    ensures ok ==> tgt == Targets(NodesEdges(nodes, graph, nodes, nNodes))
    ensures ok ==> nNodesAfter == nNodes + NodesAtoms(nodes)
    ensures |src| == |tgt|
  {
    ok, candIdx, src, tgt, nNodesAfter, i := true, [], [], [], nNodes, i0;
    ghost var es: seq<MessEdge> := [];
    ghost var prefix: seq<Node> := [];
    SourcesTargetsEmpty();
    var j := 0;
    while j < |nodes|
      invariant 0 <= j <= |nodes| && prefix == nodes[..j]
      invariant NodesOk(nodes, prefix)
      invariant candIdx == NodesCandIdxAsWritten(prefix, i0) && i == RebindAfter(prefix, i0)
      invariant nNodesAfter == nNodes + NodesAtoms(prefix)
      invariant es == NodesEdges(nodes, graph, prefix, nNodes)
      invariant src == Sources(es) && tgt == Targets(es)
    {
      var node := nodes[j];
      PrefixStep(nodes, j);
      NodesSnoc(nodes, graph, i0, prefix, node, nNodes);
      prefix := prefix + [node];
      if node.isLeaf || |node.cands| == 1 {
        assert es + [] == es && candIdx + [] == candIdx;
        j := j + 1;
        continue;
      }
      var molsOk, s, g, after, iAfter := CandidateMessages(nodes, graph, node.candMols, nNodesAfter, i);
      if !molsOk {
        ok := false;
        NodesOkAll(nodes, nodes);
        assert Contributes(nodes[j]) && !MolsOk(nodes, nodes[j].candMols);
        return;
      }
      ghost var e := MolsEdges(nodes, graph, node.candMols, nNodesAfter);
      SourcesTargetsAppend(es, e);
      es := es + e;
      src, tgt, nNodesAfter := src + s, tgt + g, after;
      candIdx, i := candIdx + Repeat(iAfter, |node.cands|), iAfter;
      j := j + 1;
    }
    WholePrefix(nodes);
  }

  /** The pass over all trees of the batch, with `n_nodes` starting at 0 and `i`
      set to the tree's position at the start of every tree. */
  method TreeMessageEdges(ts: seq<seq<Node>>, graph: set<(int, int)>)
    returns (ok: bool, candBatchIdx: seq<int>, src: seq<(int, int)>, tgt: seq<(int, int)>, nNodes: nat)
    ensures ok <==> BatchOk(ts)
    ensures ok ==> candBatchIdx == BatchCandIdxAsWritten(ts)
    ensures ok ==> src == Sources(BatchEdges(ts, graph))
    ensures ok ==> tgt == Targets(BatchEdges(ts, graph))
    ensures ok ==> nNodes == BatchAtoms(ts)
    ensures |src| == |tgt|
  {
    ok, candBatchIdx, src, tgt, nNodes := true, [], [], [], 0;
    ghost var es: seq<MessEdge> := [];
    ghost var prefix: seq<seq<Node>> := [];
    SourcesTargetsEmpty();
    var i := 0;
    while i < |ts|
      invariant 0 <= i <= |ts| && prefix == ts[..i]
      invariant BatchOk(prefix)
      invariant candBatchIdx == BatchCandIdxAsWritten(prefix)
      invariant nNodes == BatchAtoms(prefix)
      invariant es == BatchEdges(prefix, graph)
      invariant src == Sources(es) && tgt == Targets(es)
    {
      var tree := ts[i];
      PrefixStep(ts, i);
      BatchSnoc(prefix, graph, tree);
      prefix := prefix + [tree];
      var treeOk, c, s, g, after, lastI := TreeMessages(i, tree, graph, nNodes);
      if !treeOk {
        ok := false;
        BatchOkAll(ts);
        assert !NodesOk(ts[i], ts[i]);
        return;
      }
      ghost var e := NodesEdges(tree, graph, tree, nNodes);
      SourcesTargetsAppend(es, e);
      es := es + e;
      candBatchIdx := candBatchIdx + c;
      src, tgt, nNodes := src + s, tgt + g, after;
      i := i + 1;
    }
    WholePrefix(ts);
  }
}
