/**
 * The collector: a walk over the parsed block tree that gathers the attributes
 * of every ranked-list block, in document order, however deeply nested.
 */
module Collector {
  import opened Wrappers
  import opened Php

  const RankedBlockName := "wcg/ranked-list-block"

  /** A parsed block: its name (absent for freeform content), its attributes (possibly absent) and its inner blocks. */
  datatype Block = Block(name: Option<string>, attrs: Option<Attrs>, inner: seq<Block>)

  predicate IsRanked(b: Block) {
    b.name == Some(RankedBlockName)
  }

  /** $block['attrs'] ?? array() */
  function AttrsOrEmpty(b: Block): Attrs {
    if b.attrs.Some? then b.attrs.value else map[]
  }

  /** Every block of the forest in document order: a block, then its inner blocks, then its later siblings. */
  function PreOrder(bs: seq<Block>): seq<Block> {
    if bs == [] then [] else [bs[0]] + PreOrder(bs[0].inner) + PreOrder(bs[1..])
  }

  /** The attributes of the ranked-list blocks of a flat list of blocks, in order. */
  function RankedAttrs(nodes: seq<Block>): seq<Attrs> {
    if nodes == [] then []
    else (if IsRanked(nodes[0]) then [AttrsOrEmpty(nodes[0])] else []) + RankedAttrs(nodes[1..])
  }

  lemma {:induction false} RankedAttrsAppend(x: seq<Block>, y: seq<Block>)
    ensures RankedAttrs(x + y) == RankedAttrs(x) + RankedAttrs(y)
  {
    if x == [] {
      assert x + y == y;
    } else {
      var own := if IsRanked(x[0]) then [AttrsOrEmpty(x[0])] else [];
      assert (x + y)[0] == x[0];
      assert (x + y)[1..] == x[1..] + y;
      assert RankedAttrs(x + y) == own + RankedAttrs(x[1..] + y);
      RankedAttrsAppend(x[1..], y);
      assert RankedAttrs(x) == own + RankedAttrs(x[1..]);
    }
  }

  lemma {:induction false} PreOrderSnoc(bs: seq<Block>, b: Block)
    ensures PreOrder(bs + [b]) == PreOrder(bs) + [b] + PreOrder(b.inner)
  {
    if bs == [] {
      assert [b][1..] == [];
    } else {
      assert (bs + [b])[0] == bs[0];
      assert (bs + [b])[1..] == bs[1..] + [b];
      PreOrderSnoc(bs[1..], b);
    }
  }

  /**
   * wcg_ranked_list_item_collect_blocks: a loop over sibling blocks that appends a
   * ranked block's attributes and then merges whatever its inner blocks yield.
   */
  method CollectBlocks(blocks: seq<Block>) returns (items: seq<Attrs>)
    ensures items == RankedAttrs(PreOrder(blocks))
  {
    items := [];
    var i := 0;
    while i < |blocks|
      invariant 0 <= i <= |blocks|
      invariant items == RankedAttrs(PreOrder(blocks[..i]))
    {
      var block := blocks[i];
      ghost var before := items;
      ghost var own := if IsRanked(block) then [AttrsOrEmpty(block)] else [];
      ghost var below := if block.inner == [] then [] else RankedAttrs(PreOrder(block.inner));
      if IsRanked(block) {
        items := items + [AttrsOrEmpty(block)];
      }
      assert items == before + own;
      if block.inner != [] {
        var nested := CollectBlocks(block.inner);
        items := items + nested;
      }
      assert items == before + own + below;
      CollectStep(blocks, i);
      i := i + 1;
    }
    assert blocks[..i] == blocks;
  }

  /** What one more sibling adds to the collected records: its own attributes when ranked, then its subtree's. */
  lemma CollectStep(blocks: seq<Block>, i: nat)
    requires i < |blocks|
    ensures RankedAttrs(PreOrder(blocks[..i + 1])) == RankedAttrs(PreOrder(blocks[..i]))
      + (if IsRanked(blocks[i]) then [AttrsOrEmpty(blocks[i])] else [])
      + (if blocks[i].inner == [] then [] else RankedAttrs(PreOrder(blocks[i].inner)))
  {
    var bs, b := blocks[..i], blocks[i];
    assert blocks[..i + 1] == bs + [b];
    PreOrderSnoc(bs, b);
    RankedAttrsAppend(PreOrder(bs), [b]);
    RankedAttrsAppend(PreOrder(bs) + [b], PreOrder(b.inner));
    assert RankedAttrs([b]) == (if IsRanked(b) then [AttrsOrEmpty(b)] else []) + RankedAttrs([]);
  }

  /** Document order distributes over a split of the sibling list. */
  lemma {:induction false} PreOrderAppend(x: seq<Block>, y: seq<Block>)
    ensures PreOrder(x + y) == PreOrder(x) + PreOrder(y)
  {
    if x == [] {
      assert x + y == y;
    } else {
      assert (x + y)[0] == x[0];
      assert (x + y)[1..] == x[1..] + y;
      PreOrderAppend(x[1..], y);
    }
  }

  /**
   * Every block of a sibling list comes in document order right before all of
   * its descendants, after everything of its earlier siblings and before
   * everything of its later siblings.
   */
  lemma NodeBeforeDescendants(bs: seq<Block>, i: int)
    requires 0 <= i < |bs|
    ensures PreOrder(bs) == PreOrder(bs[..i]) + [bs[i]] + PreOrder(bs[i].inner) + PreOrder(bs[i + 1..])
  {
    var front, b, back := bs[..i], bs[i], bs[i + 1..];
    SplitAt(bs, i);
    PreOrderAppend(front + [b], back);
    PreOrderSnoc(front, b);
  }

  lemma SplitAt(bs: seq<Block>, i: int)
    requires 0 <= i < |bs|
    ensures bs == bs[..i] + [bs[i]] + bs[i + 1..]
  {
  }

  /** The collected records are exactly the attributes of the ranked blocks among the nodes, absent attributes read as empty. */
  lemma {:induction false} RankedAttrsMembers(nodes: seq<Block>)
    ensures forall x :: x in RankedAttrs(nodes) <==>
      exists i :: 0 <= i < |nodes| && IsRanked(nodes[i]) && AttrsOrEmpty(nodes[i]) == x
    ensures |RankedAttrs(nodes)| <= |nodes|
  {
    if nodes != [] {
      RankedAttrsMembers(nodes[1..]);
      forall x | (exists i :: 0 <= i < |nodes| && IsRanked(nodes[i]) && AttrsOrEmpty(nodes[i]) == x)
        ensures x in RankedAttrs(nodes)
      {
        var i :| 0 <= i < |nodes| && IsRanked(nodes[i]) && AttrsOrEmpty(nodes[i]) == x;
        if i > 0 {
          assert nodes[1..][i - 1] == nodes[i];
        }
      }
      forall x | x in RankedAttrs(nodes)
        ensures exists i :: 0 <= i < |nodes| && IsRanked(nodes[i]) && AttrsOrEmpty(nodes[i]) == x
      {
        if !(IsRanked(nodes[0]) && AttrsOrEmpty(nodes[0]) == x) {
          var i :| 0 <= i < |nodes[1..]| && IsRanked(nodes[1..][i]) && AttrsOrEmpty(nodes[1..][i]) == x;
          assert nodes[i + 1] == nodes[1..][i];
        }
      }
    }
  }
}
