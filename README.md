# JTVAE collation bookkeeping in Dafny

This project models the integer bookkeeping of the JTVAE dataset and batch
collator in `python/dgllife/data/jtvae.py` and proves properties of it. That
bookkeeping cross-references junction-tree nodes with candidate-molecule atoms
across a batch.

- **Candidate-list normalisation.** A node whose own label is not among its
  candidates gets the label appended, and the label molecule is appended to its
  candidate molecules. A tree with other than exactly one stereo candidate gets
  its 3-D SMILES appended when that SMILES is missing.
- **Batch node numbering.** A running counter `tot` gives every node of every
  tree its batch-wide id.
- **Tree-message edges.** A running atom offset `n_nodes` moves the local atom
  indices of each candidate molecule into batch-wide atom indices. A bond is
  paired with a tree edge when three things hold: both of its atoms carry atom-map
  numbers, those numbers name distinct tree nodes, and the nodes are joined by an
  edge of the batched tree graph in either direction.
- **Index lists and labels.** These are the candidate batch index, the stereo
  candidate batch index, and one stereo label per tree that is not skipped. A
  label is the position of the 3-D SMILES among the candidates, paired with the
  candidate count.

The external objects are plain data:
- A junction tree is the ordered sequence of its nodes. The position of a node in
  that sequence is its key in `nodes_dict`.
- A candidate molecule is its atom count and its bonds, in the toolkit's order.
- The batched tree graph is a set of directed edges between batch node ids.
- `MolTree` is a class whose node list and stereo-candidate list the methods
  update in place, as the dataset and the collator do.

Files:
- `junction_tree.dfy`: the data model and the per-node and per-tree operations.
- `batch_spec.dfy`: what a collation computes, written as left folds over the
  batch, with the lemmas about those folds.
- `message_edges.dfy`: the nested loops at lines 311-341, one method per loop
  level. Each method is proved against the folds.
- `collator.dfy`: the in-place numbering and stereo passes over the batch's tree
  objects, the tensor shapes, and `JTVAECollator.Collate`.

A map number that names no node raises `KeyError` at lines 326-327. The model
keeps this as an outcome rather than a precondition: each loop method returns
`ok == false` exactly when some lookup fails, and `Collate` returns `KeyError`.

Line 322 makes the candidate batch index differ from what the surrounding
code evidently intends. The loop methods and `Collate` compute the index as
written, carrying the rebound loop variable `i`. The intended index is defined
beside it, with its properties proved; "## Findings" describes both.

An empty batch raises `ValueError` at lines 293-296, because `zip()` of no
datapoints cannot be unpacked into the columns. `Collate` returns the
`EmptyBatch` outcome for it.

## Model

| member | source | states |
|---|---|---|
| JunctionTree.NormaliseNode | python/dgllife/data/jtvae.py:173-176 | afterwards the label is a candidate; a node that already had its label is unchanged; otherwise `cands` and `cand_mols` each grow by exactly the label and the label molecule, and no other field changes |
| JunctionTree.MolTree.NormaliseCands | python/dgllife/data/jtvae.py:173-176 | every node of the tree is replaced by its normalised form in place; the node count and the stereo candidates stay the same |
| JunctionTree.WithStereoLabel | python/dgllife/data/jtvae.py:219-221 | a list of exactly one candidate, or one already holding the 3-D SMILES, is unchanged; otherwise the 3-D SMILES is in the result; the old list is a prefix and at most one entry is added |
| JunctionTree.MolTree.AddStereoLabel | python/dgllife/data/jtvae.py:219-221 | the tree's stereo candidates become their 3-D-labelled form in place; the nodes are unchanged |
| JunctionTree.IndexOf | python/dgllife/data/jtvae.py:369 | `list.index`: the result is a position holding x, with no earlier occurrence of x |
| JunctionTree.StereoLabel | python/dgllife/data/jtvae.py:366-369 | the label (k, n) has n equal to the candidate count after the addition, k < n, the candidate at k is the 3-D SMILES, and no earlier candidate is |
| JunctionTree.Numbered | python/dgllife/data/jtvae.py:307-309 | node j of the tree gets id start + j, and nothing else about it changes |
| JunctionTree.MolTree.SetBatchIds | python/dgllife/data/jtvae.py:306-309 | the loop gives the tree's nodes consecutive ids from `start` and returns start plus the node count; the stereo candidates are unchanged |
| BatchSpec.BatchIdsConsecutive | python/dgllife/data/jtvae.py:304-309 | after numbering, the ids of all nodes of the batch, in iteration order, are exactly 0, 1, ..., tot - 1, where tot is the node count of the batch |
| Collator.NumberTree | python/dgllife/data/jtvae.py:306-309 | numbering one tree of the batch changes only that tree's nodes and returns the next free id |
| Collator.NumberBatch | python/dgllife/data/jtvae.py:304-309 | after the pass, every tree of the batch holds its nodes numbered from the node count of the trees before it; `tot` is the node count of the batch; no stereo candidates change |
| BatchSpec.BondsOkAll | python/dgllife/data/jtvae.py:325-327 | the bond lookups of a molecule succeed exactly when every bond's map numbers are at most the number of nodes |
| BatchSpec.MolsOkAll | python/dgllife/data/jtvae.py:321-327 | the lookups for a node's candidates succeed exactly when those for every candidate molecule do |
| BatchSpec.NodesOkAll | python/dgllife/data/jtvae.py:317-327 | the lookups of a tree succeed exactly when every contributing node's candidates do |
| BatchSpec.BatchOkAll | python/dgllife/data/jtvae.py:316-327 | the lookups of the batch succeed exactly when every tree's lookups in its own nodes do |
| BatchSpec.BondEdge | python/dgllife/data/jtvae.py:323-337 | a bond yields a message edge exactly when both map numbers are positive, the batch ids differ and the pair is a tree edge in either direction; the source is always in the tree graph; when only the reverse edge exists, both the source and the target pair are swapped |
| BatchSpec.MolEdgesWithin | python/dgllife/data/jtvae.py:321-339 | every source pair recorded for a candidate molecule is a tree edge between distinct valid nodes; when the bonds are within the molecule, every target pair lies in [n_nodes, n_nodes + numAtoms) |
| BatchSpec.MolsEdgesWithin | python/dgllife/data/jtvae.py:321-339 | for all candidates of a node, the targets lie in [n_nodes, n_nodes + total atoms) |
| BatchSpec.NodesEdgesWithin | python/dgllife/data/jtvae.py:317-339 | for a whole tree, the sources are tree edges and the targets lie within the atoms the tree adds |
| BatchSpec.BatchEdgesWithin | python/dgllife/data/jtvae.py:316-339 | every message edge of the batch has its source among the tree edges and, for well-formed molecules, its target atoms in [0, final n_nodes) |
| BatchSpec.NonContributingNodesAddNothing | python/dgllife/data/jtvae.py:318-319 | leaves and single-candidate nodes add no message edges, no atoms and no index entries, and need no lookups |
| BatchSpec.NonContributingBatch | python/dgllife/data/jtvae.py:316-341 | a batch with no contributing node records nothing and leaves n_nodes at 0 |
| BatchSpec.NodesCandIdxIsRepeat | python/dgllife/data/jtvae.py:341 | one tree's part of the candidate index is its position, repeated once per candidate of its contributing nodes |
| BatchSpec.CandIdxNamesTrees | python/dgllife/data/jtvae.py:341 | the intended candidate index is sorted and names only tree positions; tree t occurs exactly as often as its contributing nodes have candidates |
| BatchSpec.CandIdxLength | python/dgllife/data/jtvae.py:341 | both the index as written and the intended one have one entry per candidate of every contributing node |
| BatchSpec.CandIdxCoversCandGraphs | python/dgllife/data/jtvae.py:204-215 | when every node has as many candidate labels as candidate molecules, the candidate index has one entry per candidate graph the dataset builds |
| BatchSpec.CandIdxAsWrittenDiffers | python/dgllife/data/jtvae.py:322 | on a one-tree batch, the index as written is [1, 1], which names no tree; the intended index is [0, 0] |
| BatchSpec.CandIdxAsWrittenAgrees | python/dgllife/data/jtvae.py:316-341 | when no candidate molecule of a contributing node has a bond, `i` is never rebound and the index as written equals the intended one |
| MessageEdges.BondMessages | python/dgllife/data/jtvae.py:322-337 | the bond loop fails exactly on a missing key; otherwise it yields the batch-wide source and target lists of the molecule's message edges; the two lists always have equal length |
| MessageEdges.CandidateMessages | python/dgllife/data/jtvae.py:321-339 | the loop over a node's candidate molecules yields their message edges and advances n_nodes by their total atom count, or fails exactly on a missing key |
| MessageEdges.TreeMessages | python/dgllife/data/jtvae.py:317-341 | the loop over one tree's nodes skips non-contributing nodes; it carries the loop variable `i`, which the bond loop rebinds, and appends its value once per candidate, as line 341 does; it yields those index entries, the message edges and the atom count, or fails exactly on a missing key |
| MessageEdges.TreeMessageEdges | python/dgllife/data/jtvae.py:311-341 | the loop over the batch starts n_nodes at 0 and sets `i` to the tree position; it yields the candidate index as line 341 writes it (`BatchCandIdxAsWritten`), the paired source and target lists and the final n_nodes, or fails exactly on a missing key |
| Collator.EdgeTensor | python/dgllife/data/jtvae.py:348-353 | the edge list becomes an n-by-2 tensor holding the pairs row by row; an empty list gives shape [0, 2] |
| Collator.IndexTensor | python/dgllife/data/jtvae.py:355-358 | an index list becomes a one-dimensional tensor of its entries; an empty list gives shape [0] |
| BatchSpec.StereoIdxMatchesLabels | python/dgllife/data/jtvae.py:362-369 | each stereo label (k, n) has k < n; the stereo index has as many entries as the labels' counts together; tree t occurs in it as often as it has stereo candidates after the addition, and not at all when skipped |
| BatchSpec.StereoIdxBelow | python/dgllife/data/jtvae.py:368 | every stereo index entry is a tree position |
| BatchSpec.StereoLabelIdempotent | python/dgllife/data/jtvae.py:219-221 | adding the 3-D SMILES is idempotent: repeating the step (as lines 366-367 repeat lines 219-221) changes nothing |
| BatchSpec.SingleStereoBatch | python/dgllife/data/jtvae.py:362-369 | a batch whose trees all have exactly one stereo candidate yields an empty stereo index and no stereo labels |
| Collator.LabelTree | python/dgllife/data/jtvae.py:366-367 | adding the 3-D SMILES to one tree changes only that tree's stereo candidates |
| Collator.StereoPass | python/dgllife/data/jtvae.py:360-369 | the pass leaves every tree's stereo candidates in their 3-D-labelled form and the nodes unchanged, and returns exactly the stereo index and labels of the batch |
| Collator.JTVAECollator.Collate | python/dgllife/data/jtvae.py:292-378 | an empty batch cannot be unzipped and is the ValueError outcome, with no tree changed; outside training, only the graphs are returned and no tree changes; in training, every batch is numbered; the result is KeyError exactly when a lookup fails; otherwise the candidate index is the one line 341 writes, and the edge tensors, stereo index and stereo labels are those of the numbered batch |

## Left out

- The featurizer factories (lines 31-108) are configuration passed to library featurizers.
- `MolTree` construction, `recover`, `assemble` and `vocab.get_index` are not modelled. Neither are `get_mol`, `mol_to_bigraph`, `apply_edges` and the feature concatenation. These are calls into RDKit, DGL and torch. The model receives their results as data: the nodes, the candidate molecules and the bond list.
- `dgl.batch` and `has_edges_between` are modelled through the batched tree graph, which is a parameter (a set of directed edges). The graph's consistency with the trees is not modelled.
- File reading in the dataset constructor and the download and extraction in `JTVAEZINC` are I/O.
- The `print(cand)` at line 209 is output only.
- The stereo-candidate graph loop at lines 223-229 is not modelled. It appends graphs to the list it iterates over, so once the branch at line 218 is taken the loop never returns normally: it raises or does not terminate, depending on what `mol_to_bigraph` does with the graphs it appended. Only the 3-D SMILES addition at lines 219-221 is modelled. As a consequence, a training-mode access that builds its data returns only trees with exactly one stereo candidate, so lines 366-369 skip every tree that comes from this dataset (`SingleStereoBatch`); the stereo pass is modelled for trees of any origin.
- The caching at lines 164-166, 192-194 and 199-202 is not modelled. Each access builds its data afresh.
- Collate: the trees of a batch must be distinct objects. A batch that holds the same cached tree twice is not modelled.
- Collate: the batched candidate and stereo graphs (lines 343-346) are left out, beyond the counting in `CandIdxCoversCandGraphs`.
- EdgeTensor: the entries are unbounded integers. The 32-bit `IntTensor` and 64-bit `LongTensor` widths are not modelled; batch ids and atom offsets are far below either bound.
- `nodes_dict` is a sequence indexed by node id. The dictionary's iteration order is taken to be increasing node id. The `MolTree` module that fills the dictionary is not part of this model.
- A map number below zero is treated like 0 (unmapped). RDKit map numbers are never negative.

## Findings

| source | as written | input that shows it | evidently intended | confidence | as-written member | corrected member |
|---|---|---|---|---|---|---|
| python/dgllife/data/jtvae.py:322 | the bond loop `for i, bond in enumerate(...)` reuses the name `i` of the tree loop at line 316, so line 341 appends the last bond index of the node's last candidate that has bonds | one tree with one contributing node that has two candidates, each a three-atom chain with two bonds (`RebindExample`): the index as written is [1, 1], naming a tree the batch does not have | each entry is the position of the tree (here [0, 0]), as are the entries of `stereo_cand_batch_idx` at line 368 | not executed | BatchSpec.BatchCandIdxAsWritten, computed by the loops of MessageEdges.TreeMessageEdges and returned by Collator.JTVAECollator.Collate (exhibited by BatchSpec.CandIdxAsWrittenDiffers) | BatchSpec.BatchCandIdx (its properties proved in BatchSpec.CandIdxNamesTrees and BatchSpec.CandIdxCoversCandGraphs; BatchSpec.CandIdxLength shows both have the same length) |
