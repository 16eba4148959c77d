/** What a rendered history says of each record, and which of its three forms it takes. */
module HistoryRendering {
  import opened Prelude
  import opened History

  /** Every record's plan, execution and validation stand behind their own labels and ids, each within its own limit. */
  lemma FullBlockReads(item: Item)
    ensures FullBlock(item, false) ==
      "" + "  Task " + item.task + "\n" +
      "    Accepted plan [" + item.planId + "]: " + Bounded(item.plan, 3000) + "\n" +
      "    Final execution [" + item.executionId + "]: " + Bounded(item.execution, 2000) + "\n" +
      "    Final ACCEPT validation [" + item.validationId + "]: " + Bounded(item.validation, 2000)
  {
    hide Bounded;
  }

  /** The heading of a cycle stands before its first record. */
  lemma HeadingReads(item: Item)
    ensures item.title + " (cycle " + item.cycle + "):\n" <= FullBlock(item, true)
  {
    var heading := item.title + " (cycle " + item.cycle + "):\n";
    hide Bounded;
    assert heading <= FullBlock(item, true);
  }

  lemma CompactBlockReads(item: Item)
    ensures CompactBlock(item) ==
      item.title + " (cycle " + item.cycle + "), task " + item.task + "\n" +
      "  Plan: " + Bounded(item.plan, 500) + "\n" +
      "  Execution: " + Bounded(item.execution, 700) + "\n" +
      "  ACCEPT validation: " + Bounded(item.validation, 700)
  {
    hide Bounded;
  }

  /** One full block per record; a record carries the heading of its cycle exactly when the one before is of another. */
  lemma {:induction false} FullBlocksAre(items: seq<Item>, prior: Option<string>)
    ensures |FullBlocks(items, prior)| == |items|
    ensures forall i :: 0 <= i < |items| ==>
      FullBlocks(items, prior)[i] ==
      FullBlock(items[i], if i == 0 then prior != Some(items[0].cycle) else items[i].cycle != items[i - 1].cycle)
  {
    hide FullBlock;
    if items != [] { FullBlocksAre(items[1..], Some(items[0].cycle)); }
  }

  lemma {:induction false} CompactBlocksAre(items: seq<Item>)
    ensures |CompactBlocks(items)| == |items| && forall i :: 0 <= i < |items| ==> CompactBlocks(items)[i] == CompactBlock(items[i])
  {
    hide CompactBlock;
    if items != [] { CompactBlocksAre(items[1..]); }
  }

  /** Blocks are joined by one empty line. */
  lemma {:induction false} JoinedBy(blocks: seq<string>, last: string)
    ensures Join(blocks + [last]) == if blocks == [] then last else Join(blocks) + "\n\n" + last
  {
    if |blocks| <= 1 {
      assert blocks == [] ==> blocks + [last] == [last];
      assert |blocks| == 1 ==> (blocks + [last])[1..] == [last];
    } else {
      JoinedBy(blocks[1..], last);
      assert (blocks + [last])[1..] == blocks[1..] + [last];
    }
  }

  /** A history that fits in full is shown in full; else one that fits in compact form is shown so; else a selection of the
      compact blocks is. */
  lemma RenderedAs(items: seq<Item>, max: nat)
    ensures items == [] ==> Rendered(items, max) == "(none)"
    ensures items != [] ==>
      var full, compact := FullBlocks(items, None), CompactBlocks(items);
      Rendered(items, max) ==
        if |Join(full)| <= max then Join(full)
        else if |Join(compact)| <= max then Join(compact)
        else var ordered := Join(Ordered(compact, max)); ordered[..if |ordered| < max then |ordered| else max]
  {
    hide FullBlocks, Join, Ordered, CompactBlock;
    if items != [] {
      CompactBlocksAre(items);
      var ordered := Join(Ordered(CompactBlocks(items), max));
      assert ordered[..|ordered|] == ordered;
    }
  }
}
