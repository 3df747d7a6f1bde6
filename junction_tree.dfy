/** The junction-tree data the JTVAE dataset and collator work on, as plain data.
    A tree is an ordered sequence of cluster nodes (the position of a node is its
    node id, the key of `nodes_dict`); a candidate molecule is reduced to its atom
    count and its bonds. `MolTree` holds the parts of a tree that the dataset and
    the collator change in place. */
module JunctionTree {

  type Smiles = string

  /** A bond of a candidate molecule: the local indices of its begin and end atoms
      and the atom-map numbers of those atoms (a map number m > 0 ties the atom to
      tree node m - 1; 0 means unmapped). */
  datatype Bond = Bond(beginIdx: nat, endIdx: nat, beginMapNum: int, endMapNum: int)

  /** A candidate attachment molecule: its number of atoms and its bonds, in the
      order the cheminformatics toolkit enumerates them. */
  datatype CandMol = CandMol(numAtoms: nat, bonds: seq<Bond>)

  /** Both atoms of every bond are among the first numAtoms atoms. */
  predicate BondsWithin(bonds: seq<Bond>, numAtoms: nat)
  {
    forall k :: 0 <= k < |bonds| ==> bonds[k].beginIdx < numAtoms && bonds[k].endIdx < numAtoms
  }

  /** Every bond joins two atoms of the molecule (the toolkit guarantees this). */
  predicate WellFormedMol(m: CandMol)
  {
    BondsWithin(m.bonds, m.numAtoms)
  }

  /** One junction-tree node: whether it is a leaf, its own cluster label and the
      molecule for it, its candidate labels and molecules, and its batch-wide id. */
  datatype Node = Node(isLeaf: bool, clusterLabel: Smiles, labelMol: CandMol,
                       cands: seq<Smiles>, candMols: seq<CandMol>, idx: int)

  /** A node whose candidates are scored: neither a leaf nor a node with a single candidate. */
  predicate Contributes(n: Node)
  {
    !n.isLeaf && |n.cands| != 1
  }

  /** The node after its own label has been made one of its candidates. */
  function NormaliseNode(n: Node): (r: Node)
    ensures r.clusterLabel in r.cands
    ensures n.clusterLabel in n.cands ==> r == n
    ensures n.clusterLabel !in n.cands ==>
              |r.cands| == |n.cands| + 1 && |r.candMols| == |n.candMols| + 1 &&
              r.cands[|n.cands|] == n.clusterLabel && r.candMols[|n.candMols|] == n.labelMol
    ensures r.cands[..|n.cands|] == n.cands && r.candMols[..|n.candMols|] == n.candMols
    ensures r.(cands := n.cands, candMols := n.candMols) == n
  {
    if n.clusterLabel in n.cands then n
    else n.(cands := n.cands + [n.clusterLabel], candMols := n.candMols + [n.labelMol])
  }

  /** The stereo candidates after the molecule's own 3-D SMILES has been added:
      a list of exactly one candidate is left alone, otherwise the 3-D SMILES is
      appended unless it is already present. */
  function WithStereoLabel(cands: seq<Smiles>, smiles3D: Smiles): (r: seq<Smiles>)
    ensures |cands| == 1 || smiles3D in cands ==> r == cands
    ensures |cands| != 1 ==> smiles3D in r
    ensures |cands| <= |r| <= |cands| + 1 && r[..|cands|] == cands
  {
    if |cands| != 1 && smiles3D !in cands then cands + [smiles3D] else cands
  }

  /** The first position of x in s (Python's `list.index`). */
  function IndexOf(s: seq<Smiles>, x: Smiles): (k: nat)
    requires x in s
    ensures k < |s| && s[k] == x
    ensures x !in s[..k]
  {
    if s[0] == x then 0 else 1 + IndexOf(s[1..], x)
  }

  /** The stereo label of a tree whose stereo candidates are not skipped: the
      position of the 3-D SMILES among the candidates and the number of candidates. */
  function StereoLabel(cands: seq<Smiles>, smiles3D: Smiles): (lbl: (nat, nat))
    requires |cands| != 1
    ensures lbl.1 == |WithStereoLabel(cands, smiles3D)|
    ensures lbl.0 < lbl.1 && WithStereoLabel(cands, smiles3D)[lbl.0] == smiles3D
    ensures forall j :: 0 <= j < lbl.0 ==> WithStereoLabel(cands, smiles3D)[j] != smiles3D
  {
    var c := WithStereoLabel(cands, smiles3D);
    (IndexOf(c, smiles3D), |c|)
  }

  /** The nodes of one tree after batch numbering from `start`: node j gets id
      start + j and keeps everything else. */
  function Numbered(ns: seq<Node>, start: int): (r: seq<Node>)
    ensures |r| == |ns|
    ensures forall j :: 0 <= j < |r| ==> r[j].idx == start + j && r[j].(idx := ns[j].idx) == ns[j]
  {
    seq(|ns|, j requires 0 <= j < |ns| => ns[j].(idx := start + j))
  }

  /** The parts of a junction tree that the dataset and the collator update in place. */
  class MolTree {
    var nodes: seq<Node>
    var stereoCands: seq<Smiles>
    const smiles3D: Smiles

    constructor (nodes0: seq<Node>, stereoCands0: seq<Smiles>, smiles3D0: Smiles)
      ensures nodes == nodes0 && stereoCands == stereoCands0 && smiles3D == smiles3D0
    {
      nodes := nodes0;
      stereoCands := stereoCands0;
      smiles3D := smiles3D0;
    }

    /** Dataset access: every node's own label is appended to its candidates
        (and its molecule to the candidate molecules) when missing. */
    method NormaliseCands()
      modifies this
      ensures |nodes| == |old(nodes)|
      ensures forall j :: 0 <= j < |nodes| ==> nodes[j] == NormaliseNode(old(nodes)[j])
      ensures stereoCands == old(stereoCands)
    {
      var j := 0;
      while j < |nodes|
        invariant 0 <= j <= |nodes| == |old(nodes)|
        invariant forall k :: 0 <= k < j ==> nodes[k] == NormaliseNode(old(nodes)[k])
        invariant forall k :: j <= k < |nodes| ==> nodes[k] == old(nodes)[k]
        invariant stereoCands == old(stereoCands)
      {
        var node := nodes[j];
        if node.clusterLabel !in node.cands {
          nodes := nodes[j := node.(cands := node.cands + [node.clusterLabel],
                                    candMols := node.candMols + [node.labelMol])];
        }
        j := j + 1;
      }
    }

    /** Dataset access and collation: unless there is exactly one stereo
        candidate, the 3-D SMILES is appended when it is not yet a candidate. */
    method AddStereoLabel()
      modifies this
      ensures stereoCands == WithStereoLabel(old(stereoCands), smiles3D)
      ensures nodes == old(nodes)
    {
      if |stereoCands| != 1 {
        if smiles3D !in stereoCands {
          stereoCands := stereoCands + [smiles3D];
        }
      }
    }

    /** Collation: the nodes get consecutive batch ids from `start`; the next
        free id is returned. */
    method SetBatchIds(start: nat) returns (next: nat)
      modifies this
      ensures nodes == Numbered(old(nodes), start)
      ensures next == start + |nodes|
      ensures stereoCands == old(stereoCands)
    {
      next := start;
      var j := 0;
      while j < |nodes|
        invariant 0 <= j <= |nodes| == |old(nodes)|
        invariant next == start + j
        invariant forall k :: 0 <= k < j ==> nodes[k] == old(nodes)[k].(idx := start + k)
        invariant forall k :: j <= k < |nodes| ==> nodes[k] == old(nodes)[k]
        invariant stereoCands == old(stereoCands)
      {
        nodes := nodes[j := nodes[j].(idx := next)];
        next := next + 1;
        j := j + 1;
      }
    }
  }
}
