/** The JTVAE batch collator: numbering all tree nodes of a batch, building the
    tree-message edge tensors and the candidate index, adding the 3-D SMILES to
    every tree's stereo candidates and building the stereo index and labels.
    The trees are objects updated in place. */
module Collator {
  import opened JunctionTree
  import opened BatchSpec
  import opened MessageEdges

  /** A tensor as its shape and its entries in row-major order. */
  datatype Tensor = Tensor(shape: seq<nat>, data: seq<int>)

  /** The pairs written out row by row. */
  function Flat(rows: seq<(int, int)>): (r: seq<int>)
    ensures |r| == 2 * |rows|
    ensures forall k :: 0 <= k < |rows| ==> r[2 * k] == rows[k].0 && r[2 * k + 1] == rows[k].1
  {
    if |rows| == 0 then [] else Flat(rows[..|rows| - 1]) + [rows[|rows| - 1].0, rows[|rows| - 1].1]
  }

  /** The n-by-2 tensor of a list of pairs; an empty list still has width 2. */
  function EdgeTensor(rows: seq<(int, int)>): (t: Tensor)
    ensures t.shape == [|rows|, 2]
    ensures |t.data| == 2 * |rows|
    ensures forall k :: 0 <= k < |rows| ==> t.data[2 * k] == rows[k].0 && t.data[2 * k + 1] == rows[k].1
  {
    if |rows| == 0 then Tensor([0, 2], []) else Tensor([|rows|, 2], Flat(rows))
  }

  /** The one-dimensional tensor of an index list; an empty list has shape [0]. */
  function IndexTensor(entries: seq<int>): (t: Tensor)
    ensures t.shape == [|entries|] && t.data == entries
  {
    if |entries| == 0 then Tensor([0], []) else Tensor([|entries|], entries)
  }

  /** The index outputs of a training batch. */
  datatype BatchIndices = BatchIndices(candBatchIdx: Tensor,
                                       treeMessSourceEdges: Tensor,
                                       treeMessTargetEdges: Tensor,
                                       stereoCandBatchIdx: Tensor,
                                       stereoCandLabels: seq<(nat, nat)>)

  /** Outcome of a collation: only the batched graphs (evaluation), the index
      outputs (training), a map number naming no node (Python's KeyError), or an
      empty batch, which cannot be unzipped into its columns (Python's ValueError). */
  datatype Collated = GraphsOnly | Indexed(indices: BatchIndices) | KeyError | EmptyBatch

  predicate Distinct(batch: seq<MolTree>)
  {
    forall i, j :: 0 <= i < j < |batch| ==> batch[i] != batch[j]
  }

  function NodesOf(batch: seq<MolTree>): seq<seq<Node>>
    reads batch
  {
    seq(|batch|, t reads batch requires 0 <= t < |batch| => batch[t].nodes)
  }

  function StereoOf(batch: seq<MolTree>): seq<seq<Smiles>>
    reads batch
  {
    seq(|batch|, t reads batch requires 0 <= t < |batch| => batch[t].stereoCands)
  }

  function Smiles3DOf(batch: seq<MolTree>): seq<Smiles>
  {
    seq(|batch|, t requires 0 <= t < |batch| => batch[t].smiles3D)
  }

  lemma UpdateAtSplit<T>(a: seq<T>, b: seq<T>, x: T)
    requires |b| > 0
    ensures (a + b)[|a| := x] == (a + [x]) + b[1..]
    ensures a + b == (a + [b[0]]) + b[1..]
  {
  }

  /** Tree i of the batch numbers its nodes from `start`; no other tree changes. */
  method NumberTree(batch: seq<MolTree>, i: nat, start: nat) returns (next: nat)
    requires i < |batch| && Distinct(batch)
    modifies batch[i]
    ensures batch[i].nodes == Numbered(old(batch[i].nodes), start)
    ensures NodesOf(batch) == old(NodesOf(batch))[i := batch[i].nodes]
    ensures StereoOf(batch) == old(StereoOf(batch))
    ensures next == start + |old(batch[i].nodes)|
  {
    next := batch[i].SetBatchIds(start);
  }

  /** Tree i of the batch adds its 3-D SMILES to its stereo candidates; no other
      tree changes. */
  method LabelTree(batch: seq<MolTree>, i: nat)
    requires i < |batch| && Distinct(batch)
    modifies batch[i]
    ensures batch[i].stereoCands == WithStereoLabel(old(batch[i].stereoCands), batch[i].smiles3D)
    ensures StereoOf(batch) == old(StereoOf(batch))[i := batch[i].stereoCands]
    ensures NodesOf(batch) == old(NodesOf(batch))
  {
    batch[i].AddStereoLabel();
  }

  /** Every node of the batch gets its batch id from the running counter `tot`. */
  method NumberBatch(batch: seq<MolTree>) returns (tot: nat)
    requires Distinct(batch)
    modifies batch
    ensures NodesOf(batch) == NumberedBatch(old(NodesOf(batch)))
    ensures tot == |Flatten(old(NodesOf(batch)))|
    ensures StereoOf(batch) == old(StereoOf(batch))
  {
    ghost var pre := NodesOf(batch);
    ghost var done: seq<seq<Node>> := [];
    tot := 0;
    var i := 0;
    while i < |batch|
      invariant 0 <= i <= |batch| == |pre|
      invariant tot == |Flatten(pre[..i])|
      invariant done == NumberedBatch(pre[..i]) && |done| == i
      invariant NodesOf(batch) == done + pre[i..]
      invariant StereoOf(batch) == old(StereoOf(batch))
    {
      ghost var w := Numbered(pre[i], tot);
      NumberedBatchStep(pre, i);
      PrefixStep(pre, i);
      UpdateAtSplit(done, pre[i..], w);
      AppendIndex(done, pre[i..]);
      assert batch[i].nodes == NodesOf(batch)[i] == pre[i];
      tot := NumberTree(batch, i, tot);
      done := done + [w];
      i := i + 1;
    }
    WholePrefix(pre);
  }

  /** Every tree with other than one stereo candidate gets its 3-D SMILES added,
      one index entry per stereo candidate, and its label. */
  method StereoPass(batch: seq<MolTree>) returns (stereoIdx: seq<int>, labels: seq<(nat, nat)>)
    requires Distinct(batch)
    modifies batch
    ensures NodesOf(batch) == old(NodesOf(batch))
    ensures StereoOf(batch) == PreparedStereo(old(StereoOf(batch)), Smiles3DOf(batch))
    ensures stereoIdx == StereoBatchIdx(old(StereoOf(batch)), Smiles3DOf(batch))
    ensures labels == StereoLabels(old(StereoOf(batch)), Smiles3DOf(batch))
  {
    ghost var pre := StereoOf(batch);
    ghost var s3ds := Smiles3DOf(batch);
    ghost var done: seq<seq<Smiles>> := [];
    stereoIdx, labels := [], [];
    var i := 0;
    while i < |batch|
      invariant 0 <= i <= |batch| == |pre| == |s3ds|
      invariant done == PreparedStereo(pre[..i], s3ds[..i]) && |done| == i
      invariant StereoOf(batch) == done + pre[i..]
      invariant NodesOf(batch) == old(NodesOf(batch))
      invariant stereoIdx == StereoBatchIdx(pre[..i], s3ds[..i])
      invariant labels == StereoLabels(pre[..i], s3ds[..i])
    {
      var tree := batch[i];
      assert tree.stereoCands == StereoOf(batch)[i] == pre[i];
      assert tree.smiles3D == s3ds[i];
      ghost var w := WithStereoLabel(pre[i], s3ds[i]);
      StereoStep(pre, s3ds, i);
      PreparedStereoStep(pre, s3ds, i);
      UpdateAtSplit(done, pre[i..], w);
      AppendIndex(done, pre[i..]);
      PrefixStep(pre, i);
      if |tree.stereoCands| == 1 {
        done := done + [w];
        i := i + 1;
        continue;
      }
      LabelTree(batch, i);
      assert tree.stereoCands == w;
      done := done + [w];
      stereoIdx := stereoIdx + Repeat(i, |tree.stereoCands|);
      labels := labels + [(IndexOf(tree.stereoCands, tree.smiles3D), |tree.stereoCands|)];
      i := i + 1;
    }
    WholePrefix(pre);
    WholePrefix(s3ds);
  }

  class JTVAECollator {
    const training: bool

    constructor (training: bool)
      ensures this.training == training
    {
      this.training := training;
    }

    /** Collates a batch of trees whose batched tree graph has the directed
        edges `graph`. */
    method Collate(batch: seq<MolTree>, graph: set<(int, int)>) returns (r: Collated)
      requires Distinct(batch)
      modifies batch
      ensures r.EmptyBatch? <==> |batch| == 0
      ensures r.EmptyBatch? || (!training && r.GraphsOnly?) ==> NodesOf(batch) == old(NodesOf(batch))
      ensures |batch| > 0 && !training ==> r == GraphsOnly
      ensures |batch| > 0 && training ==> NodesOf(batch) == NumberedBatch(old(NodesOf(batch)))
      ensures |batch| > 0 && training ==> (r.KeyError? <==> !BatchOk(NodesOf(batch))) && !r.GraphsOnly?
      ensures !r.Indexed? ==> StereoOf(batch) == old(StereoOf(batch))
      ensures r.Indexed? ==>
                var ts := NodesOf(batch);
                var idx := r.indices;
                idx.candBatchIdx == IndexTensor(BatchCandIdxAsWritten(ts)) &&
                idx.treeMessSourceEdges == EdgeTensor(Sources(BatchEdges(ts, graph))) &&
                idx.treeMessTargetEdges == EdgeTensor(Targets(BatchEdges(ts, graph))) &&
                idx.stereoCandBatchIdx == IndexTensor(StereoBatchIdx(old(StereoOf(batch)), Smiles3DOf(batch))) &&
                idx.stereoCandLabels == StereoLabels(old(StereoOf(batch)), Smiles3DOf(batch))
      ensures r.Indexed? ==> StereoOf(batch) == PreparedStereo(old(StereoOf(batch)), Smiles3DOf(batch))
    {
      if |batch| == 0 {
        return EmptyBatch;
      }
      if !training {
        return GraphsOnly;
      }
      var tot := NumberBatch(batch);
      var ts := NodesOf(batch);
      var ok, candBatchIdx, src, tgt, nNodes := TreeMessageEdges(ts, graph);
      if !ok {
        return KeyError;
      }
      var stereoIdx, labels := StereoPass(batch);
      r := Indexed(BatchIndices(IndexTensor(candBatchIdx), EdgeTensor(src), EdgeTensor(tgt),
                                IndexTensor(stereoIdx), labels));
    }
  }
}
