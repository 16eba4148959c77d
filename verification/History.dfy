/** Bounded rendering of accepted lifecycle material: what the history shown to a later cycle keeps and what it omits. */
module History {
  import opened Prelude

  const OMITTED := "[older accepted lifecycle summaries omitted]"
  const TRUNCATED := "\n[deterministically truncated]"

  // ------------------------------------------------------------------ one field

  predicate Space(c: char) {
    c in {' ', '\t', '\n', '\r', '\U{0B}', '\U{0C}'}
  }

  function TrimRight(s: string): (r: string)
    ensures r <= s
    ensures r != [] ==> !Space(r[|r| - 1])
  {
    if s != [] && Space(s[|s| - 1]) then TrimRight(s[..|s| - 1]) else s
  }

  function TrimLeft(s: string): string {
    if s != [] && Space(s[0]) then TrimLeft(s[1..]) else s
  }

  function Strip(s: string): string {
    TrimRight(TrimLeft(s))
  }

  function Less(a: nat, b: nat): nat {
    if a > b then a - b else 0
  }

  /** `_bounded`: keep a field that fits, else cut 24 short of the limit and say so. */
  function Bounded(value: string, limit: nat): string {
    var text := Strip(value);
    if |text| <= limit then text else TrimRight(text[..Less(limit, 24)]) + TRUNCATED
  }

  /** The notice is longer than the room cut for it, so the bound is the limit plus 6, not the limit. */
  lemma BoundedLength(value: string, limit: nat)
    ensures limit >= 24 ==> |Bounded(value, limit)| <= limit + 6
    ensures |Bounded(value, limit)| <= limit || |Bounded(value, limit)| <= Less(limit, 24) + |TRUNCATED|
    ensures |Strip(value)| <= limit ==> Bounded(value, limit) == Strip(value)
    ensures |Strip(value)| > limit ==> TrimRight(Strip(value)[..Less(limit, 24)]) <= Bounded(value, limit)
  {
    assert |TRUNCATED| == 30;
  }

  function Repeat(c: char, n: nat): string {
    seq(n, _ => c)
  }

  lemma {:induction false} TrimKeeps(s: string)
    requires s != [] ==> !Space(s[0]) && !Space(s[|s| - 1])
    ensures Strip(s) == s
  {
  }

  /** The extra 6 characters are reached at every limit. */
  lemma BoundIsTight(limit: nat)
    requires limit >= 24
    ensures |Bounded(Repeat('a', limit + 1), limit)| == limit + 6
  {
    var text := Repeat('a', limit + 1);
    TrimKeeps(text);
    var kept := text[..limit - 24];
    assert kept != [] ==> kept[|kept| - 1] == 'a';
    assert |TRUNCATED| == 30;
  }

  // ------------------------------------------------------------------ joining

  /** `"\n\n".join(blocks)`. */
  function Join(blocks: seq<string>): string {
    if blocks == [] then ""
    else if |blocks| == 1 then blocks[0]
    else blocks[0] + "\n\n" + Join(blocks[1..])
  }

  /** Characters the blocks and the separators before them take. */
  function Cost(blocks: seq<string>): nat {
    if blocks == [] then 0 else |blocks[0]| + 2 + Cost(blocks[1..])
  }

  lemma {:induction false} JoinLength(blocks: seq<string>)
    requires blocks != []
    ensures |Join(blocks)| + 2 == Cost(blocks)
  {
    if |blocks| == 1 {
      assert blocks[1..] == [];
    } else {
      JoinLength(blocks[1..]);
    }
  }

  lemma {:induction false} CostAppends(x: seq<string>, y: seq<string>)
    ensures Cost(x + y) == Cost(x) + Cost(y)
  {
    if x == [] {
      assert x + y == y;
    } else {
      CostAppends(x[1..], y);
      assert (x + y)[1..] == x[1..] + y;
    }
  }

  // ------------------------------------------------------------------ the selection

  /** Room reserved before any other block: the first block, the marker and their separators. */
  function Reserved(blocks: seq<string>): nat
    requires blocks != []
  {
    |blocks[0]| + |OMITTED| + 4
  }

  /** The blocks kept from index `k` on, chosen newest first while they fit. */
  function Kept(blocks: seq<string>, k: nat, max: nat): (kept: seq<nat>)
    requires blocks != [] && 1 <= k <= |blocks|
    ensures forall i :: 0 <= i < |kept| ==> k <= kept[i] < |blocks|
    ensures forall i, j :: 0 <= i < j < |kept| ==> kept[i] < kept[j]
    ensures forall x :: x in kept ==> k <= x < |blocks|
    decreases |blocks| - k
  {
    if k == |blocks| then []
    else
      var newer := Kept(blocks, k + 1, max);
      if Reserved(blocks) + Cost(At(blocks, newer)) + |blocks[k]| + 2 > max then newer else [k] + newer
  }

  function At(blocks: seq<string>, indices: seq<nat>): (r: seq<string>)
    requires forall i :: 0 <= i < |indices| ==> indices[i] < |blocks|
    ensures |r| == |indices| && forall i :: 0 <= i < |r| ==> r[i] == blocks[indices[i]]
  {
    seq(|indices|, i requires 0 <= i < |indices| => blocks[indices[i]])
  }

  /** The text of the blocks kept from index `k` on. */
  function Chosen(blocks: seq<string>, k: nat, max: nat): seq<string>
    requires blocks != [] && 1 <= k <= |blocks|
  {
    At(blocks, Kept(blocks, k, max))
  }

  /** The first block, the marker when something is missing, and the kept blocks in their order. */
  function Ordered(blocks: seq<string>, max: nat): seq<string>
    requires blocks != []
  {
    var kept := Chosen(blocks, 1, max);
    if |kept| + 1 < |blocks| then [blocks[0], OMITTED] + kept else [blocks[0]] + kept
  }

  function Take(s: string, n: nat): string {
    if |s| <= n then s else s[..n]
  }

  /** `_join_bounded`. */
  function JoinBounded(blocks: seq<string>, max: nat): string {
    if blocks == [] then ""
    else if |Join(blocks)| <= max then Join(blocks)
    else Take(Join(Ordered(blocks, max)), max)
  }

  lemma {:induction false} AtCost(blocks: seq<string>, k: nat, rest: seq<nat>)
    requires k < |blocks| && forall i :: 0 <= i < |rest| ==> rest[i] < |blocks|
    ensures Cost(At(blocks, [k] + rest)) == |blocks[k]| + 2 + Cost(At(blocks, rest))
  {
    assert At(blocks, [k] + rest) == [blocks[k]] + At(blocks, rest);
    assert ([blocks[k]] + At(blocks, rest))[1..] == At(blocks, rest);
  }

  /** Whatever is kept fits with the reserve. */
  lemma {:induction false} KeptFits(blocks: seq<string>, k: nat, max: nat)
    requires blocks != [] && 1 <= k <= |blocks|
    ensures var kept := Kept(blocks, k, max);
      kept == [] || Reserved(blocks) + Cost(At(blocks, kept)) <= max
    decreases |blocks| - k
  {
    if k < |blocks| {
      KeptFits(blocks, k + 1, max);
      AtCost(blocks, k, Kept(blocks, k + 1, max));
    }
  }

  /** The kept blocks from `i` on. */
  function From(kept: seq<nat>, i: nat): (r: seq<nat>)
    ensures forall j :: 0 <= j < |r| ==> r[j] in kept
  {
    if kept == [] then [] else (if kept[0] >= i then [kept[0]] else []) + From(kept[1..], i)
  }

  /** Kept, from `i` on, is the choice made when the turn of `i - 1` comes. */
  lemma {:induction false} KeptFrom(blocks: seq<string>, k: nat, i: nat, max: nat)
    requires blocks != [] && 1 <= k <= i <= |blocks|
    ensures From(Kept(blocks, k, max), i) == Kept(blocks, i, max)
    decreases |blocks| - k
  {
    hide Kept, From;
    if k == i {
      FromAll(Kept(blocks, k, max), i);
    } else {
      KeptFrom(blocks, k + 1, i, max);
      FromSkips(k, Kept(blocks, k + 1, max), i);
      KeptIs(blocks, k, max);
    }
  }

  lemma KeptIs(blocks: seq<string>, k: nat, max: nat)
    requires 1 <= k < |blocks|
    ensures Kept(blocks, k, max) == Kept(blocks, k + 1, max) || Kept(blocks, k, max) == [k] + Kept(blocks, k + 1, max)
  {
  }

  lemma FromSkips(k: nat, newer: seq<nat>, i: nat)
    requires k < i
    ensures From([k] + newer, i) == From(newer, i)
  {
    assert ([k] + newer)[1..] == newer;
  }

  lemma {:induction false} FromAll(kept: seq<nat>, i: nat)
    requires forall j :: 0 <= j < |kept| ==> kept[j] >= i
    ensures From(kept, i) == kept
  {
    if kept != [] {
      FromAll(kept[1..], i);
      assert [kept[0]] + kept[1..] == kept;
    }
  }

  /** An omitted block did not fit when its turn came: the newer kept blocks and the reserve left it no room. */
  lemma {:induction false} OmittedDidNotFit(blocks: seq<string>, k: nat, i: nat, max: nat)
    requires blocks != [] && 1 <= k <= i < |blocks| && i !in Kept(blocks, k, max)
    ensures Reserved(blocks) + Cost(At(blocks, Kept(blocks, i + 1, max))) + |blocks[i]| + 2 > max
    decreases i - k
  {
    if k < i { OmittedDidNotFit(blocks, k + 1, i, max); }
  }

  /** Keeping every block of an overlong history is impossible, unless there is only the first. */
  lemma {:induction false} SomethingOmitted(blocks: seq<string>, max: nat)
    requires |blocks| > 1 && |Join(blocks)| > max
    ensures |Kept(blocks, 1, max)| + 1 < |blocks|
  {
    KeptCount(blocks, 1, max);
    if |Kept(blocks, 1, max)| + 1 == |blocks| { EverythingFits(blocks, max); }
  }

  lemma EverythingFits(blocks: seq<string>, max: nat)
    requires |blocks| > 1 && |Kept(blocks, 1, max)| + 1 == |blocks|
    ensures |Join(blocks)| <= max
  {
    KeptAll(blocks, 1, max);
    KeptFits(blocks, 1, max);
    JoinLength(blocks);
    assert At(blocks, Kept(blocks, 1, max)) == blocks[1..];
  }

  lemma {:induction false} KeptCount(blocks: seq<string>, k: nat, max: nat)
    requires blocks != [] && 1 <= k <= |blocks|
    ensures |Kept(blocks, k, max)| <= |blocks| - k
    decreases |blocks| - k
  {
    if k < |blocks| { KeptCount(blocks, k + 1, max); }
  }

  lemma {:induction false} KeptAll(blocks: seq<string>, k: nat, max: nat)
    requires blocks != [] && 1 <= k <= |blocks| && |Kept(blocks, k, max)| == |blocks| - k
    ensures forall i :: 0 <= i < |blocks| - k ==> Kept(blocks, k, max)[i] == k + i
    decreases |blocks| - k
  {
    if k < |blocks| {
      KeptCount(blocks, k + 1, max);
      KeptAll(blocks, k + 1, max);
    }
  }

  // ------------------------------------------------------------------ the bound

  /** Some other block was kept, or the first block leaves room for the marker. */
  predicate Roomy(blocks: seq<string>, max: nat)
    requires blocks != []
  {
    Kept(blocks, 1, max) != [] || |blocks[0]| + 2 + |OMITTED| <= max
  }

  /** The hard bound, and when the final cut takes nothing away. */
  lemma HistoryBound(blocks: seq<string>, max: nat)
    ensures |JoinBounded(blocks, max)| <= max || (blocks == [] && JoinBounded(blocks, max) == "")
    ensures blocks != [] && |Join(blocks)| > max && |blocks| > 1 ==>
      (JoinBounded(blocks, max) == Join([blocks[0], OMITTED] + At(blocks, Kept(blocks, 1, max))) <==> Roomy(blocks, max))
  {
    if blocks != [] && |Join(blocks)| > max && |blocks| > 1 {
      var kept := Kept(blocks, 1, max);
      SomethingOmitted(blocks, max);
      KeptFits(blocks, 1, max);
      var ordered := [blocks[0], OMITTED] + At(blocks, kept);
      JoinLength(ordered);
      CostAppends([blocks[0], OMITTED], At(blocks, kept));
      assert [blocks[0], OMITTED][1..] == [OMITTED] && [OMITTED][1..] == [];
      assert Cost([blocks[0], OMITTED]) == Reserved(blocks);
    }
  }

  /** What is left out and what stays: the first block and the marker lead, the kept blocks keep their order, and an
      omitted block failed to fit at its newest-first turn. */
  lemma OmissionIsForced(blocks: seq<string>, max: nat, i: nat)
    requires |blocks| > 1 && |Join(blocks)| > max && 1 <= i < |blocks|
    ensures Ordered(blocks, max)[0] == blocks[0] && Ordered(blocks, max)[1] == OMITTED
    ensures i in Kept(blocks, 1, max) ==> blocks[i] in Ordered(blocks, max)
    ensures i !in Kept(blocks, 1, max) ==>
      Reserved(blocks) + Cost(At(blocks, From(Kept(blocks, 1, max), i + 1))) + |blocks[i]| + 2 > max
  {
    hide Kept, From, Join;
    SomethingOmitted(blocks, max);
    if i in Kept(blocks, 1, max) {
      KeptAppears(blocks, max, i);
    } else {
      OmittedDidNotFit(blocks, 1, i, max);
      KeptFrom(blocks, 1, i + 1, max);
    }
  }

  lemma KeptAppears(blocks: seq<string>, max: nat, i: nat)
    requires blocks != [] && i in Kept(blocks, 1, max)
    ensures blocks[i] in Ordered(blocks, max)
  {
    hide Kept;
    var kept := Kept(blocks, 1, max);
    var j :| 0 <= j < |kept| && kept[j] == i;
    assert Chosen(blocks, 1, max)[j] == blocks[i];
    assert blocks[i] in Chosen(blocks, 1, max);
  }

  // ------------------------------------------------------------------ rendering

  /** One accepted task, its ids and its cycle label already as text. */
  datatype Item = Item(
    title: string, cycle: string, task: string, planId: string, plan: string, executionId: string, execution: string,
    validationId: string, validation: string)

  const MAX_PLAN_CHARS: nat := 3_000
  const MAX_EXECUTION_CHARS: nat := 2_000
  const MAX_VALIDATION_CHARS: nat := 2_000

  /** The full block of an item; the first of a cycle carries the cycle's heading. */
  function FullBlock(item: Item, heading: bool): string {
    (if heading then item.title + " (cycle " + item.cycle + "):\n" else "") +
    "  Task " + item.task + "\n" +
    "    Accepted plan [" + item.planId + "]: " + Bounded(item.plan, MAX_PLAN_CHARS) + "\n" +
    "    Final execution [" + item.executionId + "]: " + Bounded(item.execution, MAX_EXECUTION_CHARS) + "\n" +
    "    Final ACCEPT validation [" + item.validationId + "]: " + Bounded(item.validation, MAX_VALIDATION_CHARS)
  }

  function FullBlocks(items: seq<Item>, prior: Option<string>): seq<string> {
    if items == [] then []
    else [FullBlock(items[0], prior != Some(items[0].cycle))] + FullBlocks(items[1..], Some(items[0].cycle))
  }

  function CompactBlock(item: Item): string {
    item.title + " (cycle " + item.cycle + "), task " + item.task + "\n" +
    "  Plan: " + Bounded(item.plan, 500) + "\n" +
    "  Execution: " + Bounded(item.execution, 700) + "\n" +
    "  ACCEPT validation: " + Bounded(item.validation, 700)
  }

  function CompactBlocks(items: seq<Item>): seq<string> {
    if items == [] then [] else [CompactBlock(items[0])] + CompactBlocks(items[1..])
  }

  /** `render_accepted_lifecycle`: full blocks if they fit, else compact ones, else a selection of those. */
  function Rendered(items: seq<Item>, max: nat): string {
    if items == [] then "(none)"
    else if |Join(FullBlocks(items, None))| <= max then Join(FullBlocks(items, None))
    else JoinBounded(CompactBlocks(items), max)
  }

  /** No accepted history, however long its fields or however many its records, renders past the bound. */
  lemma RenderedBound(items: seq<Item>, max: nat)
    ensures items != [] ==> |Rendered(items, max)| <= max
  {
    HistoryBound(CompactBlocks(items), max);
  }

  method JoinInOrder(blocks: seq<string>) returns (joined: string)
    ensures joined == Join(blocks)
  {
    if blocks == [] { return ""; }
    var i := |blocks| - 1;
    joined := blocks[i];
    while i > 0
      invariant 0 <= i < |blocks|
      invariant joined == Join(blocks[i..])
    {
      i := i - 1;
      assert blocks[i..][1..] == blocks[i + 1..];
      joined := blocks[i] + "\n\n" + joined;
    }
    assert blocks[0..] == blocks;
  }

  /** The selection loop and its running total. */
  method Select(blocks: seq<string>, max: nat) returns (ordered: seq<string>)
    requires blocks != []
    ensures ordered == Ordered(blocks, max)
  {
    var selected: seq<string> := [];
    var used := |blocks[0]| + |OMITTED| + 4;
    var index := |blocks|;
    KeptEnd(blocks, max);
    assert used == Reserved(blocks) + Cost(selected);
    hide Chosen, Kept, At, Cost, Reserved;
    while index > 1
      invariant 1 <= index <= |blocks|
      invariant selected == Chosen(blocks, index, max)
      invariant used == Reserved(blocks) + Cost(selected)
    {
      index := index - 1;
      var cost := |blocks[index]| + 2;
      KeptStep(blocks, index, max);
      if used + cost <= max {
        selected := [blocks[index]] + selected;
        used := used + cost;
      }
    }
    ordered := if |selected| + 1 < |blocks| then [blocks[0], OMITTED] + selected else [blocks[0]] + selected;
  }

  lemma KeptEnd(blocks: seq<string>, max: nat)
    requires blocks != []
    ensures Chosen(blocks, |blocks|, max) == []
  {
  }

  /** One turn of the selection. */
  lemma KeptStep(blocks: seq<string>, k: nat, max: nat)
    requires 1 <= k < |blocks|
    ensures var newer := Chosen(blocks, k + 1, max);
      && Chosen(blocks, k, max) ==
         (if Reserved(blocks) + Cost(newer) + |blocks[k]| + 2 > max then newer else [blocks[k]] + newer)
      && Cost([blocks[k]] + newer) == |blocks[k]| + 2 + Cost(newer)
  {
    var newer := Kept(blocks, k + 1, max);
    AtCost(blocks, k, newer);
    assert At(blocks, [k] + newer) == [blocks[k]] + At(blocks, newer);
  }

  method JoinWithin(blocks: seq<string>, max: nat) returns (text: string)
    ensures text == JoinBounded(blocks, max)
  {
    if blocks == [] { return ""; }
    text := JoinInOrder(blocks);
    if |text| <= max { return; }
    var ordered := Select(blocks, max);
    text := JoinInOrder(ordered);
    if |text| > max { text := text[..max]; }
  }

  method RenderFull(items: seq<Item>) returns (blocks: seq<string>)
    ensures blocks == FullBlocks(items, None)
  {
    blocks := [];
    var prior: Option<string> := None;
    var i := 0;
    while i < |items|
      invariant 0 <= i <= |items|
      invariant blocks + FullBlocks(items[i..], prior) == FullBlocks(items, None)
    {
      blocks := FullStep(items, i, prior, blocks);
      prior := Some(items[i].cycle);
      i := i + 1;
    }
  }

  method FullStep(items: seq<Item>, i: nat, prior: Option<string>, blocks: seq<string>) returns (more: seq<string>)
    requires i < |items|
    ensures more + FullBlocks(items[i + 1..], Some(items[i].cycle)) == blocks + FullBlocks(items[i..], prior)
  {
    assert items[i..][1..] == items[i + 1..];
    more := blocks + [FullBlock(items[i], prior != Some(items[i].cycle))];
    hide FullBlock;
  }

  method RenderCompact(items: seq<Item>) returns (blocks: seq<string>)
    ensures blocks == CompactBlocks(items)
  {
    blocks := [];
    var i := |items|;
    while i > 0
      invariant 0 <= i <= |items|
      invariant blocks == CompactBlocks(items[i..])
    {
      i := i - 1;
      assert items[i..][1..] == items[i + 1..];
      blocks := [CompactBlock(items[i])] + blocks;
    }
  }

  method RenderAcceptedLifecycle(items: seq<Item>, max: nat) returns (text: string)
    ensures text == Rendered(items, max)
  {
    if items == [] { return "(none)"; }
    var blocks := RenderFull(items);
    text := JoinInOrder(blocks);
    if |text| <= max { return; }
    var compact := RenderCompact(items);
    text := JoinWithin(compact, max);
  }
}
