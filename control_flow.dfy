/**
 * The control-flow graph of a method body, as a disposable value derived from
 * the instruction stream. Blocks are named by their index in the block list,
 * which follows stream order; each block is the half-open range
 * [begin, end) of stream positions, and its edges name other blocks by index.
 */
module ControlFlow {

  datatype Block = Block(begin: nat, end: nat, succs: seq<nat>, preds: seq<nat>)

  datatype Cfg = Cfg(blocks: seq<Block>)

  /** Every edge of `b` names one of the `count` blocks. */
  ghost predicate EdgesInRange(b: Block, count: nat)
  {
    (forall k :: 0 <= k < |b.succs| ==> b.succs[k] < count)
    && (forall k :: 0 <= k < |b.preds| ==> b.preds[k] < count)
  }

  /** Every block is a non-empty range of a stream of `n` entries, and every edge names a block. */
  ghost predicate BlocksIn(cfg: Cfg, n: nat)
  {
    forall i :: 0 <= i < |cfg.blocks| ==>
      cfg.blocks[i].begin < cfg.blocks[i].end <= n && EdgesInRange(cfg.blocks[i], |cfg.blocks|)
  }

  /**
   * The graph describes a stream of `n` entries: the blocks are non-empty,
   * follow one another without gap and together cover the stream, every edge
   * names a block, and the predecessor lists are the transpose of the
   * successor lists.
   */
  ghost predicate WellFormed(cfg: Cfg, n: nat)
  {
    var bs := cfg.blocks;
    (|bs| == 0 <==> n == 0)
    && (|bs| > 0 ==> bs[0].begin == 0 && bs[|bs| - 1].end == n)
    && BlocksIn(cfg, n)
    && (forall i, j :: 0 <= i < |bs| && j == i + 1 < |bs| ==> bs[i].end == bs[j].begin)
    && (forall i, j :: 0 <= i < |bs| && 0 <= j < |bs| ==> (j in bs[i].succs <==> i in bs[j].preds))
  }

  /** Blocks appear in stream order: an earlier block ends before a later one begins. */
  lemma {:induction false} BlocksOrdered(cfg: Cfg, n: nat, i: nat, j: nat)
    requires WellFormed(cfg, n)
    requires i < j < |cfg.blocks|
    ensures cfg.blocks[i].end <= cfg.blocks[j].begin
    decreases j - i
  {
    if j > i + 1 {
      BlocksOrdered(cfg, n, i, j - 1);
    }
  }

  /** Two distinct blocks share no stream position. */
  lemma BlocksDisjoint(cfg: Cfg, n: nat, i: nat, j: nat)
    requires WellFormed(cfg, n)
    requires i < |cfg.blocks| && j < |cfg.blocks| && i != j
    ensures cfg.blocks[i].end <= cfg.blocks[j].begin || cfg.blocks[j].end <= cfg.blocks[i].begin
  {
    if i < j {
      BlocksOrdered(cfg, n, i, j);
    } else {
      BlocksOrdered(cfg, n, j, i);
    }
  }

  /** The only predecessor of a block with exactly one predecessor is any block that has it as a successor. */
  lemma SolePredecessor(cfg: Cfg, n: nat, i: nat, c: nat)
    requires WellFormed(cfg, n)
    requires i < |cfg.blocks| && c in cfg.blocks[i].succs
    requires |cfg.blocks[c].preds| == 1
    ensures cfg.blocks[c].preds == [i]
  {
    var k :| 0 <= k < |cfg.blocks[i].succs| && cfg.blocks[i].succs[k] == c;
    assert c < |cfg.blocks|;
    assert i in cfg.blocks[c].preds;
  }
}
