/** The level-mode roadmap: for every level from the current one up to the
    target, the chain to craft is the highest-level chain the level allows;
    consecutive levels with the same start material are merged into a block,
    and each block is crafted in as many chain runs as its XP needs. */
module Roadmap {
  import opened Types
  import opened Inventory
  import opened Arith
  import opened XpTable
  import opened Sorting
  import opened Simulation
  import opened ChainDiscovery

  function RequiredLevelOf(c: Chain): int
  {
    c.requiredLevel
  }

  /** `sortedChains.find(c => c.requiredLevel <= lvl)`. */
  function ChooseChain(sorted: seq<Chain>, lvl: int): (r: Option<Chain>)
    ensures r.None? <==> forall i :: 0 <= i < |sorted| ==> sorted[i].requiredLevel > lvl
    ensures r.Some? ==> r.value in sorted && r.value.requiredLevel <= lvl
  {
    if sorted == [] then None
    else if sorted[0].requiredLevel <= lvl then Some(sorted[0])
    else ChooseChain(sorted[1..], lvl)
  }

  /** The chosen chain is the first of the list whose required level is its
      own: every chain before it requires more than `lvl`. */
  lemma {:induction false} ChosenIsFirstOfItsLevel(sorted: seq<Chain>, lvl: int)
    requires ChooseChain(sorted, lvl).Some?
    ensures var c := ChooseChain(sorted, lvl).value;
            WithKey(sorted, RequiredLevelOf, c.requiredLevel) != [] &&
            WithKey(sorted, RequiredLevelOf, c.requiredLevel)[0] == c
  {
    if sorted[0].requiredLevel > lvl {
      ChosenIsFirstOfItsLevel(sorted[1..], lvl);
    }
  }

  /** In a list sorted by descending required level, the chosen chain has
      the highest required level among the chains the level allows. */
  lemma {:induction false} ChosenIsHighest(sorted: seq<Chain>, lvl: int)
    requires SortedDesc(sorted, RequiredLevelOf)
    requires ChooseChain(sorted, lvl).Some?
    ensures forall c :: c in sorted && c.requiredLevel <= lvl ==>
              c.requiredLevel <= ChooseChain(sorted, lvl).value.requiredLevel
  {
    if sorted[0].requiredLevel > lvl {
      assert ChooseChain(sorted, lvl) == ChooseChain(sorted[1..], lvl);
      assert SortedDesc(sorted[1..], RequiredLevelOf);
      ChosenIsHighest(sorted[1..], lvl);
      HighestPastHead(sorted, lvl, ChooseChain(sorted, lvl).value);
    } else {
      HighestAtHead(sorted);
    }
  }

  /** A chain above `lvl` at the head does not change the highest chain
      the level allows. */
  lemma HighestPastHead(sorted: seq<Chain>, lvl: int, r: Chain)
    requires sorted != [] && sorted[0].requiredLevel > lvl
    requires forall c :: c in sorted[1..] && c.requiredLevel <= lvl ==> c.requiredLevel <= r.requiredLevel
    ensures forall c :: c in sorted && c.requiredLevel <= lvl ==> c.requiredLevel <= r.requiredLevel
  {
    assert sorted == [sorted[0]] + sorted[1..];
  }

  /** The head of a list sorted by descending level is the highest. */
  lemma HighestAtHead(sorted: seq<Chain>)
    requires SortedDesc(sorted, RequiredLevelOf) && sorted != []
    ensures forall c :: c in sorted ==> c.requiredLevel <= sorted[0].requiredLevel
  {
    forall c | c in sorted
      ensures c.requiredLevel <= sorted[0].requiredLevel
    {
      var k :| 0 <= k < |sorted| && sorted[k] == c;
      if k > 0 {
        assert RequiredLevelOf(sorted[0]) >= RequiredLevelOf(sorted[k]);
      }
    }
  }

  /** Which chain a level gets, stated on the unsorted chain list: none when
      no chain's required level is at most `lvl`; otherwise one whose
      required level is the highest such, and among the chains of that
      required level the first in discovery order, since the sort is
      stable. */
  lemma BestChainForLevel(chains: seq<Chain>, lvl: int)
    ensures var sorted := SortDesc(chains, RequiredLevelOf);
            var r := ChooseChain(sorted, lvl);
            && (r.None? <==> forall c :: c in chains ==> c.requiredLevel > lvl)
            && (r.Some? ==>
                  && r.value in chains && r.value.requiredLevel <= lvl
                  && (forall c :: c in chains && c.requiredLevel <= lvl ==>
                        c.requiredLevel <= r.value.requiredLevel)
                  && WithKey(chains, RequiredLevelOf, r.value.requiredLevel) != []
                  && WithKey(chains, RequiredLevelOf, r.value.requiredLevel)[0] == r.value)
  {
    var sorted := SortDesc(chains, RequiredLevelOf);
    SortDescCorrect(chains, RequiredLevelOf);
    assert forall c :: c in chains <==> c in sorted by {
      forall c ensures c in chains <==> c in sorted {
        assert c in chains <==> c in multiset(chains);
        assert c in sorted <==> c in multiset(sorted);
      }
    }
    var r := ChooseChain(sorted, lvl);
    if r.Some? {
      ChosenIsHighest(sorted, lvl);
      ChosenIsFirstOfItsLevel(sorted, lvl);
    } else {
      forall c | c in chains ensures c.requiredLevel > lvl {
        var k :| 0 <= k < |sorted| && sorted[k] == c;
      }
    }
  }

  /** A run of consecutive levels planned with one chain. */
  datatype Block = Block(from: int, to: int, chain: Chain)

  /** `blocks` is the partition of the levels `level .. upto - 1` that the
      walk builds: see the three parts below. */
  ghost predicate Partition(sorted: seq<Chain>, level: int, upto: int, blocks: seq<Block>)
  {
    Ordered(level, upto, blocks) && Chosen(sorted, blocks) && Covers(sorted, level, upto, blocks)
  }

  /** Ascending, contiguous blocks with `from <= to` inside the range, and
      adjacent blocks differ in start material. */
  ghost predicate Ordered(level: int, upto: int, blocks: seq<Block>)
  {
    && (forall k :: 0 <= k < |blocks| ==> level <= blocks[k].from <= blocks[k].to < upto)
    && (forall k :: 0 <= k < |blocks| - 1 ==> blocks[k + 1].from == blocks[k].to + 1)
    && (forall k :: 0 <= k < |blocks| - 1 ==>
          blocks[k].chain.startMaterial != blocks[k + 1].chain.startMaterial)
  }

  /** A block's chain is the one chosen for its first level, and every level
      of the block chooses a chain with the same start material. */
  ghost predicate Chosen(sorted: seq<Chain>, blocks: seq<Block>)
  {
    ChosenStart(sorted, blocks) && ChosenSpan(sorted, blocks)
  }

  ghost predicate ChosenStart(sorted: seq<Chain>, blocks: seq<Block>)
  {
    forall k :: 0 <= k < |blocks| ==> ChooseChain(sorted, blocks[k].from) == Some(blocks[k].chain)
  }

  ghost predicate ChosenSpan(sorted: seq<Chain>, blocks: seq<Block>)
  {
    forall k, l :: 0 <= k < |blocks| && blocks[k].from <= l <= blocks[k].to ==>
      MaterialAt(sorted, l) == Some(blocks[k].chain.startMaterial)
  }

  /** The start material of the chain chosen for a level. */
  function MaterialAt(sorted: seq<Chain>, l: int): Option<string>
  {
    match ChooseChain(sorted, l)
    case None => None
    case Some(c) => Some(c.startMaterial)
  }

  /** The levels no chain allows are exactly those below the first block,
      and the last block reaches the end of the range. */
  ghost predicate Covers(sorted: seq<Chain>, level: int, upto: int, blocks: seq<Block>)
  {
    && (forall l :: level <= l < upto ==>
          (ChooseChain(sorted, l).None? <==> (blocks == [] || l < blocks[0].from)))
    && (blocks != [] ==> blocks[|blocks| - 1].to == upto - 1)
  }

  /** A level that allows no chain has no lower level allowing one. */
  lemma NoChoiceBelow(sorted: seq<Chain>, lvl: int, higher: int)
    requires lvl <= higher && ChooseChain(sorted, higher).None?
    ensures ChooseChain(sorted, lvl).None?
  {
  }

  /** A level no chain allows leaves the partition empty and unchanged. */
  lemma PartitionSkip(sorted: seq<Chain>, level: int, lvl: int, blocks: seq<Block>)
    requires level <= lvl && Partition(sorted, level, lvl, blocks)
    requires ChooseChain(sorted, lvl).None?
    ensures blocks == [] && Partition(sorted, level, lvl + 1, blocks)
  {
    forall l | level <= l <= lvl ensures ChooseChain(sorted, l).None? {
      NoChoiceBelow(sorted, l, lvl);
    }
    assert blocks == [];
  }

  /** A level whose chain changes the start material opens a block. */
  lemma PartitionOpen(sorted: seq<Chain>, level: int, lvl: int, blocks: seq<Block>, best: Chain)
    requires level <= lvl && Partition(sorted, level, lvl, blocks)
    requires ChooseChain(sorted, lvl) == Some(best)
    requires blocks == [] || blocks[|blocks| - 1].chain.startMaterial != best.startMaterial
    ensures Partition(sorted, level, lvl + 1, blocks + [Block(lvl, lvl, best)])
  {
    var nb := blocks + [Block(lvl, lvl, best)];
    OpenOrdered(level, lvl, blocks, best);
    OpenChosen(sorted, lvl, blocks, best);
    OpenCovers(sorted, level, lvl, blocks, best);
  }

  lemma OpenOrdered(level: int, lvl: int, blocks: seq<Block>, best: Chain)
    requires level <= lvl && Ordered(level, lvl, blocks)
    requires blocks != [] ==> blocks[|blocks| - 1].to == lvl - 1
    requires blocks == [] || blocks[|blocks| - 1].chain.startMaterial != best.startMaterial
    ensures Ordered(level, lvl + 1, blocks + [Block(lvl, lvl, best)])
  {
  }

  lemma OpenChosen(sorted: seq<Chain>, lvl: int, blocks: seq<Block>, best: Chain)
    requires Chosen(sorted, blocks) && ChooseChain(sorted, lvl) == Some(best)
    ensures Chosen(sorted, blocks + [Block(lvl, lvl, best)])
  {
    OpenChosenStart(sorted, lvl, blocks, best);
    OpenChosenSpan(sorted, lvl, blocks, best);
  }

  lemma OpenChosenStart(sorted: seq<Chain>, lvl: int, blocks: seq<Block>, best: Chain)
    requires ChosenStart(sorted, blocks) && ChooseChain(sorted, lvl) == Some(best)
    ensures ChosenStart(sorted, blocks + [Block(lvl, lvl, best)])
  {
    var nb := blocks + [Block(lvl, lvl, best)];
    forall k | 0 <= k < |nb| ensures ChooseChain(sorted, nb[k].from) == Some(nb[k].chain) {
      if k < |blocks| { assert nb[k] == blocks[k]; }
    }
  }

  lemma OpenChosenSpan(sorted: seq<Chain>, lvl: int, blocks: seq<Block>, best: Chain)
    requires ChosenSpan(sorted, blocks) && ChooseChain(sorted, lvl) == Some(best)
    ensures ChosenSpan(sorted, blocks + [Block(lvl, lvl, best)])
  {
    var nb := blocks + [Block(lvl, lvl, best)];
    assert MaterialAt(sorted, lvl) == Some(best.startMaterial);
    forall k, l | 0 <= k < |nb| && nb[k].from <= l <= nb[k].to
      ensures MaterialAt(sorted, l) == Some(nb[k].chain.startMaterial)
    {
      if k < |blocks| { assert nb[k] == blocks[k]; }
    }
  }

  lemma OpenCovers(sorted: seq<Chain>, level: int, lvl: int, blocks: seq<Block>, best: Chain)
    requires level <= lvl && Covers(sorted, level, lvl, blocks)
    requires blocks != [] ==> level <= blocks[0].from <= blocks[0].to < lvl
    requires ChooseChain(sorted, lvl) == Some(best)
    ensures Covers(sorted, level, lvl + 1, blocks + [Block(lvl, lvl, best)])
  {
    var nb := blocks + [Block(lvl, lvl, best)];
    assert nb[0].from == if blocks == [] then lvl else blocks[0].from;
  }

  /** A level whose chain keeps the start material extends the last block. */
  lemma PartitionExtend(sorted: seq<Chain>, level: int, lvl: int, blocks: seq<Block>, best: Chain)
    requires level <= lvl && Partition(sorted, level, lvl, blocks)
    requires ChooseChain(sorted, lvl) == Some(best)
    requires blocks != [] && blocks[|blocks| - 1].chain.startMaterial == best.startMaterial
    ensures Partition(sorted, level, lvl + 1,
                      blocks[|blocks| - 1 := blocks[|blocks| - 1].(to := lvl)])
  {
    ExtendOrdered(level, lvl, blocks);
    ExtendChosen(sorted, lvl, blocks, best);
    ExtendCovers(sorted, level, lvl, blocks);
  }

  lemma ExtendOrdered(level: int, lvl: int, blocks: seq<Block>)
    requires level <= lvl && Ordered(level, lvl, blocks)
    requires blocks != [] && blocks[|blocks| - 1].to == lvl - 1
    ensures Ordered(level, lvl + 1, blocks[|blocks| - 1 := blocks[|blocks| - 1].(to := lvl)])
  {
    var n := |blocks| - 1;
    var nb := blocks[n := blocks[n].(to := lvl)];
    assert forall k :: 0 <= k < n ==> nb[k] == blocks[k];
  }

  lemma ExtendChosen(sorted: seq<Chain>, lvl: int, blocks: seq<Block>, best: Chain)
    requires Chosen(sorted, blocks) && ChooseChain(sorted, lvl) == Some(best)
    requires blocks != [] && blocks[|blocks| - 1].chain.startMaterial == best.startMaterial
    requires blocks[|blocks| - 1].to == lvl - 1
    ensures Chosen(sorted, blocks[|blocks| - 1 := blocks[|blocks| - 1].(to := lvl)])
  {
    ExtendChosenStart(sorted, lvl, blocks);
    ExtendChosenSpan(sorted, lvl, blocks, best);
  }

  lemma ExtendChosenStart(sorted: seq<Chain>, lvl: int, blocks: seq<Block>)
    requires ChosenStart(sorted, blocks) && blocks != []
    ensures ChosenStart(sorted, blocks[|blocks| - 1 := blocks[|blocks| - 1].(to := lvl)])
  {
    var n := |blocks| - 1;
    var nb := blocks[n := blocks[n].(to := lvl)];
    forall k | 0 <= k < |nb| ensures ChooseChain(sorted, nb[k].from) == Some(nb[k].chain) {
      assert nb[k].from == blocks[k].from && nb[k].chain == blocks[k].chain;
    }
  }

  lemma ExtendChosenSpan(sorted: seq<Chain>, lvl: int, blocks: seq<Block>, best: Chain)
    requires ChosenSpan(sorted, blocks) && ChooseChain(sorted, lvl) == Some(best)
    requires blocks != [] && blocks[|blocks| - 1].chain.startMaterial == best.startMaterial
    requires blocks[|blocks| - 1].to == lvl - 1
    ensures ChosenSpan(sorted, blocks[|blocks| - 1 := blocks[|blocks| - 1].(to := lvl)])
  {
    var n := |blocks| - 1;
    var nb := blocks[n := blocks[n].(to := lvl)];
    assert MaterialAt(sorted, lvl) == Some(best.startMaterial);
    forall k, l | 0 <= k < |nb| && nb[k].from <= l <= nb[k].to
      ensures MaterialAt(sorted, l) == Some(nb[k].chain.startMaterial)
    {
      if k < n {
        assert nb[k] == blocks[k];
      } else if l < lvl {
        assert blocks[n].from <= l <= blocks[n].to;
      }
    }
  }

  lemma ExtendCovers(sorted: seq<Chain>, level: int, lvl: int, blocks: seq<Block>)
    requires level <= lvl && Covers(sorted, level, lvl, blocks)
    requires blocks != [] && blocks[0].from <= blocks[0].to < lvl
    requires ChooseChain(sorted, lvl).Some?
    ensures Covers(sorted, level, lvl + 1, blocks[|blocks| - 1 := blocks[|blocks| - 1].(to := lvl)])
  {
    var n := |blocks| - 1;
    var nb := blocks[n := blocks[n].(to := lvl)];
    assert nb[0].from == blocks[0].from;
  }

  /** Lines 154-166: walk the levels, opening a new block when the chosen
      chain's start material changes and extending the last block otherwise. */
  method PartitionLevels(sorted: seq<Chain>, level: int, target: int) returns (blocks: seq<Block>)
    requires level <= target
    ensures Partition(sorted, level, target, blocks)
  {
    blocks := [];
    for lvl := level to target
      invariant Partition(sorted, level, lvl, blocks)
    {
      var bestChainForLvl := ChooseChain(sorted, lvl);
      if bestChainForLvl.None? {
        PartitionSkip(sorted, level, lvl, blocks);
        continue;
      }
      var best := bestChainForLvl.value;
      if blocks == [] || blocks[|blocks| - 1].chain.startMaterial != best.startMaterial {
        PartitionOpen(sorted, level, lvl, blocks, best);
        blocks := blocks + [Block(lvl, lvl, best)];
      } else {
        PartitionExtend(sorted, level, lvl, blocks, best);
        var last := blocks[|blocks| - 1];
        blocks := blocks[|blocks| - 1 := last.(to := lvl)];
      }
    }
  }

  /** The XP a level adds to its block (lines 174-182): the table's XP for
      the level, less the XP already earned when it is the current level,
      and nothing when the table has no row for it. */
  function LevelXp(t: seq<XpRow>, lvl: int, profLevel: int, currentXp: int): int
  {
    match FindRow(t, lvl)
    case None => 0
    case Some(row) => if lvl == profLevel then row.xp - currentXp else row.xp
  }

  /** The XP of the levels `from .. to`. */
  function RangeXp(t: seq<XpRow>, from: int, to: int, profLevel: int, currentXp: int): int
    decreases to - from
  {
    if to < from then 0 else RangeXp(t, from, to - 1, profLevel, currentXp) + LevelXp(t, to, profLevel, currentXp)
  }

  /** Splitting a level range splits its XP. */
  lemma {:induction false} RangeXpSplit(t: seq<XpRow>, a: int, b: int, c: int, profLevel: int, currentXp: int)
    requires a - 1 <= b <= c
    ensures RangeXp(t, a, c, profLevel, currentXp)
            == RangeXp(t, a, b, profLevel, currentXp) + RangeXp(t, b + 1, c, profLevel, currentXp)
    decreases c - b
  {
    if b < c {
      RangeXpSplit(t, a, b, c - 1, profLevel, currentXp);
    }
  }

  /** Lines 173-182: the XP the levels of one block need. */
  method BlockXp(t: seq<XpRow>, block: Block, profLevel: int, currentXp: int) returns (xpForBlock: int)
    requires block.from <= block.to
    ensures xpForBlock == RangeXp(t, block.from, block.to, profLevel, currentXp)
  {
    xpForBlock := 0;
    for lvl := block.from to block.to + 1
      invariant xpForBlock == RangeXp(t, block.from, lvl - 1, profLevel, currentXp)
    {
      var xpData := FindRow(t, lvl);
      if xpData.None? {
        continue;
      }
      if lvl == profLevel {
        xpForBlock := xpForBlock + xpData.value.xp - currentXp;
      } else {
        xpForBlock := xpForBlock + xpData.value.xp;
      }
    }
  }

  /** `Math.ceil(xpForBlock / (totalBaseXp * multiplier))` with the
      multiplier `(100 + pct) / 100`: the least number of chain runs whose
      bonused XP reaches the block's XP. */
  function ChainsNeeded(xpForBlock: int, totalBaseXp: int, pct: nat): (n: int)
    requires totalBaseXp > 0
    ensures n * (totalBaseXp * (100 + pct)) >= 100 * xpForBlock
    ensures (n - 1) * (totalBaseXp * (100 + pct)) < 100 * xpForBlock
    ensures xpForBlock > 0 ==> n >= 1
  {
    assert totalBaseXp * (100 + pct) > 0;
    CeilDiv(100 * xpForBlock, totalBaseXp * (100 + pct))
  }

  /** A chain the roadmap can run: runnable steps and a start recipe with a
      first material. */
  predicate Plannable(c: Chain)
  {
    AllRunnable(c.steps) && |c.startRecipe.materials| >= 1
  }

  /** What one block contributes: the start material, how much of it the
      block's chain runs consume, and the skipping simulation of those runs. */
  datatype BlockPlan = BlockPlan(rawName: string, rawNeeded: int, run: Run)

  /** Lines 184-220 for one block: nothing when the block needs no XP or its
      chain gives none; otherwise ChainsNeeded runs' worth of the start
      material, crafted through the chain. */
  function PlanBlock(t: seq<XpRow>, block: Block, profLevel: int, currentXp: int, pct: nat): (p: Option<BlockPlan>)
    requires Plannable(block.chain)
    ensures p.Some? <==> RangeXp(t, block.from, block.to, profLevel, currentXp) > 0 && block.chain.totalBaseXp > 0
  {
    var xpForBlock := RangeXp(t, block.from, block.to, profLevel, currentXp);
    if xpForBlock <= 0 || block.chain.totalBaseXp <= 0 then None
    else
      var chainsNeeded := ChainsNeeded(xpForBlock, block.chain.totalBaseXp, pct);
      var rawNeeded := chainsNeeded * block.chain.startRecipe.materials[0].quantity;
      Some(BlockPlan(block.chain.startMaterial, rawNeeded,
                     RunSkipping(block.chain.steps, [Entry(block.chain.startMaterial, rawNeeded)], pct)))
  }

  /** A planned block buys its chain's start material, as many chain runs'
      worth as ChainsNeeded asks, so that the runs' bonused base XP reaches
      the block's XP while one run fewer would not; and its steps are the
      skipping simulation of the chain on exactly that much material. */
  lemma PlannedBlockCoversXp(t: seq<XpRow>, block: Block, profLevel: int, currentXp: int, pct: nat)
    requires Plannable(block.chain)
    requires PlanBlock(t, block, profLevel, currentXp, pct).Some?
    ensures var p := PlanBlock(t, block, profLevel, currentXp, pct).value;
            var xp := RangeXp(t, block.from, block.to, profLevel, currentXp);
            var c := block.chain;
            var n := ChainsNeeded(xp, c.totalBaseXp, pct);
            && p.rawName == c.startMaterial
            && p.rawNeeded == n * c.startRecipe.materials[0].quantity
            && n >= 1
            && n * (c.totalBaseXp * (100 + pct)) >= 100 * xp
            && (n - 1) * (c.totalBaseXp * (100 + pct)) < 100 * xp
            && p.run == RunSkipping(c.steps, [Entry(c.startMaterial, p.rawNeeded)], pct)
  {
  }

  /** The block title on the block's first step only. */
  function Titled(steps: seq<Step>, blockLabel: Label): seq<Step>
  {
    if steps == [] then [] else [steps[0].(title := Some(blockLabel))] + steps[1..]
  }

  predicate Untitled(steps: seq<Step>)
  {
    forall i :: 0 <= i < |steps| ==> steps[i].title.None?
  }

  /** Titling marks the first step of a block and only it, and changes
      nothing else about the steps. */
  lemma TitledMarksFirstOnly(steps: seq<Step>, blockLabel: Label)
    requires Untitled(steps)
    ensures |Titled(steps, blockLabel)| == |steps|
    ensures forall i :: 0 <= i < |steps| ==>
              Titled(steps, blockLabel)[i].title == (if i == 0 then Some(blockLabel) else None) &&
              Titled(steps, blockLabel)[i].(title := None) == steps[i]
  {
  }

  /** The title rule of line 215 as written: a step gets the block title when
      the step before it, in the whole roadmap, does not carry that title. */
  function AsWrittenTitles(prev: Option<Label>, steps: seq<Step>, blockLabel: Label): seq<Step>
    decreases |steps|
  {
    if steps == [] then []
    else
      var title := if prev != Some(blockLabel) then Some(blockLabel) else None;
      [steps[0].(title := title)] + AsWrittenTitles(title, steps[1..], blockLabel)
  }

  /** As written, the title lands on every other step of a block: the steps
      at even positions get it and those at odd positions do not. */
  lemma {:induction false} AsWrittenAlternates(prev: Option<Label>, steps: seq<Step>, blockLabel: Label)
    requires prev != Some(blockLabel)
    ensures |AsWrittenTitles(prev, steps, blockLabel)| == |steps|
    ensures forall i :: 0 <= i < |steps| ==>
              AsWrittenTitles(prev, steps, blockLabel)[i].title == (if i % 2 == 0 then Some(blockLabel) else None)
    decreases |steps|
  {
    if |steps| >= 2 {
      var rest := AsWrittenTitles(None, steps[2..], blockLabel);
      AsWrittenAlternates(None, steps[2..], blockLabel);
      assert steps[1..][1..] == steps[2..];
      assert AsWrittenTitles(prev, steps, blockLabel)
             == [steps[0].(title := Some(blockLabel)), steps[1].(title := None)] + rest;
    } else if |steps| == 1 {
      assert AsWrittenTitles(prev, steps, blockLabel) == [steps[0].(title := Some(blockLabel))];
    }
  }

  /** A three-step block shows its title twice as written, on its first and
      third steps, where the intended rule titles the first step only. */
  lemma ThreeStepBlockTitledTwice(s0: Step, s1: Step, s2: Step, blockLabel: Label)
    requires s0.title.None? && s1.title.None? && s2.title.None?
    ensures |AsWrittenTitles(None, [s0, s1, s2], blockLabel)| == 3
    ensures AsWrittenTitles(None, [s0, s1, s2], blockLabel)[2].title == Some(blockLabel)
    ensures Titled([s0, s1, s2], blockLabel)[2].title.None?
  {
    AsWrittenAlternates(None, [s0, s1, s2], blockLabel);
  }

  /** Any number of chain runs whose bonused XP reaches the block's XP is
      at least ChainsNeeded. */
  lemma ChainsNeededLeast(xpForBlock: int, totalBaseXp: int, pct: nat, m: int)
    requires totalBaseXp > 0 && m * (totalBaseXp * (100 + pct)) >= 100 * xpForBlock
    ensures ChainsNeeded(xpForBlock, totalBaseXp, pct) <= m
  {
    assert totalBaseXp * (100 + pct) > 0;
    CeilDivLeast(100 * xpForBlock, totalBaseXp * (100 + pct), m);
  }

  /** The names some step takes as input. */
  function InputNames(steps: seq<Step>): (ns: set<string>)
    ensures forall i :: 0 <= i < |steps| ==> steps[i].input.name in ns
    ensures forall n :: n in ns ==> exists i :: 0 <= i < |steps| && steps[i].input.name == n
  {
    set i | 0 <= i < |steps| :: steps[i].input.name
  }

  /** The names some step outputs. */
  function OutputNames(steps: seq<Step>): set<string>
  {
    if steps == [] then {} else OutputNames(steps[..|steps| - 1]) + {steps[|steps| - 1].output.name}
  }

  lemma {:induction false} OutputNamesMembers(steps: seq<Step>, n: string)
    ensures n in OutputNames(steps) <==> exists i :: 0 <= i < |steps| && steps[i].output.name == n
  {
    if steps != [] {
      var init := steps[..|steps| - 1];
      OutputNamesMembers(init, n);
      if exists i :: 0 <= i < |steps| && steps[i].output.name == n {
        var i :| 0 <= i < |steps| && steps[i].output.name == n;
        if i < |init| {
          assert init[i].output.name == n;
        }
      }
      if exists i :: 0 <= i < |init| && init[i].output.name == n {
        var i :| 0 <= i < |init| && init[i].output.name == n;
        assert steps[i].output.name == n;
      }
    }
  }

  /** The total output quantity under `n` of the steps. */
  function OutputOf(steps: seq<Step>, n: string): int
  {
    if steps == [] then 0
    else OutputOf(steps[..|steps| - 1], n)
         + (if steps[|steps| - 1].output.name == n then steps[|steps| - 1].output.qty else 0)
  }

  /** The reduce of lines 225-238 with the subtraction left out: the outputs
      of `done`, in order of first appearance, whose names are not `inputs`. */
  function Leftovers(done: seq<Step>, inputs: set<string>): seq<Entry>
  {
    if done == [] then []
    else
      var acc := Leftovers(done[..|done| - 1], inputs);
      var out := done[|done| - 1].output;
      if out.name in inputs then acc else Put(acc, out.name, Get(acc, out.name) + out.qty)
  }

  /** The leftovers are keyed by exactly the outputs of `done` outside `inputs`. */
  lemma {:induction false} LeftoversNames(done: seq<Step>, inputs: set<string>)
    ensures Names(Leftovers(done, inputs)) == OutputNames(done) - inputs
  {
    if done != [] {
      var init := done[..|done| - 1];
      LeftoversNames(init, inputs);
      LeftoversNamesStep(init, done[|done| - 1], inputs);
      assert init + [done[|done| - 1]] == done;
    }
  }

  lemma LeftoversNamesStep(init: seq<Step>, s: Step, inputs: set<string>)
    requires Names(Leftovers(init, inputs)) == OutputNames(init) - inputs
    ensures Names(Leftovers(init + [s], inputs)) == OutputNames(init + [s]) - inputs
  {
    var done := init + [s];
    assert done[..|done| - 1] == init;
    assert OutputNames(done) == OutputNames(init) + {s.output.name};
    if s.output.name !in inputs {
      LeftoversNamesKept(init, s, inputs);
    }
  }

  lemma LeftoversNamesKept(init: seq<Step>, s: Step, inputs: set<string>)
    requires s.output.name !in inputs
    ensures Names(Leftovers(init + [s], inputs)) == Names(Leftovers(init, inputs)) + {s.output.name}
  {
    var acc := Leftovers(init, inputs);
    var v := Get(acc, s.output.name) + s.output.qty;
    assert Leftovers(init + [s], inputs) == Put(acc, s.output.name, v) by {
      assert (init + [s])[..|init|] == init;
    }
    PutNames(acc, s.output.name, v);
  }

  /** Each leftover carries the summed output quantity of its name. */
  lemma {:induction false} LeftoversQuantities(done: seq<Step>, inputs: set<string>, n: string)
    requires n !in inputs
    ensures Get(Leftovers(done, inputs), n) == OutputOf(done, n)
  {
    if done != [] {
      LeftoversQuantities(done[..|done| - 1], inputs, n);
    }
  }

  /** Whether some step takes `n` as input (`steps.some(...)` of line 227). */
  function IsInput(steps: seq<Step>, n: string): (b: bool)
    ensures b <==> n in InputNames(steps)
  {
    exists i :: 0 <= i < |steps| && steps[i].input.name == n
  }

  /** Lines 225-238: the final products of the roadmap. The accumulator never
      holds a name that some step takes as input, so the subtraction of lines
      232-236 never applies and the result is the leftovers: every output no
      step consumes, with its summed quantity. */
  method FinalProducts(steps: seq<Step>) returns (acc: seq<Entry>)
    ensures acc == Leftovers(steps, InputNames(steps))
  {
    var inputs := InputNames(steps);
    acc := [];
    for i := 0 to |steps|
      invariant acc == Leftovers(steps[..i], inputs)
    {
      var step := steps[i];
      assert steps[..i + 1][..i] == steps[..i];
      var name := step.output.name;
      var isInputForOther := IsInput(steps, name);
      if !isInputForOther {
        acc := Put(acc, name, Get(acc, name) + step.output.qty);
      }
      var inputName := step.input.name;
      LeftoversNames(steps[..i + 1], inputs);
      GetAbsent(acc, inputName);
      if Get(acc, inputName) != 0 {
        acc := Put(acc, inputName, Get(acc, inputName) - step.input.qty);
        if Get(acc, inputName) <= 0 {
          acc := Remove(acc, inputName);
        }
      }
    }
    assert steps[..|steps|] == steps;
  }

  predicate AllPlannable(blocks: seq<Block>)
  {
    forall k :: 0 <= k < |blocks| ==> Plannable(blocks[k].chain) && blocks[k].from <= blocks[k].to
  }

  /** The roadmap's steps: each planned block's simulated steps, titled. */
  function PlanSteps(t: seq<XpRow>, blocks: seq<Block>, profLevel: int, currentXp: int, pct: nat): seq<Step>
    requires AllPlannable(blocks)
  {
    if blocks == [] then []
    else
      var b := blocks[|blocks| - 1];
      var p := PlanBlock(t, b, profLevel, currentXp, pct);
      PlanSteps(t, blocks[..|blocks| - 1], profLevel, currentXp, pct)
      + if p.None? then [] else Titled(p.value.run.steps, Label(b.from, b.to))
  }

  /** The raw materials to buy: each planned block adds its raw need under
      its start material, a material met again adding to its total. */
  function PlanBase(t: seq<XpRow>, blocks: seq<Block>, profLevel: int, currentXp: int, pct: nat): seq<Entry>
    requires AllPlannable(blocks)
  {
    if blocks == [] then []
    else
      var acc := PlanBase(t, blocks[..|blocks| - 1], profLevel, currentXp, pct);
      var p := PlanBlock(t, blocks[|blocks| - 1], profLevel, currentXp, pct);
      AddRaw(acc, p)
  }

  /** The base materials after one block's plan. */
  function AddRaw(acc: seq<Entry>, p: Option<BlockPlan>): seq<Entry>
  {
    if p.None? then acc else Put(acc, p.value.rawName, Get(acc, p.value.rawName) + p.value.rawNeeded)
  }

  /** What the blocks' raw materials cost, block by block. */
  function BlocksCost(t: seq<XpRow>, blocks: seq<Block>, profLevel: int, currentXp: int, pct: nat,
                      prices: Prices): int
    requires AllPlannable(blocks)
  {
    if blocks == [] then 0
    else
      BlocksCost(t, blocks[..|blocks| - 1], profLevel, currentXp, pct, prices)
      + RawCost(PlanBlock(t, blocks[|blocks| - 1], profLevel, currentXp, pct), prices)
  }

  /** What one block's raw material costs. */
  function RawCost(p: Option<BlockPlan>, prices: Prices): int
  {
    if p.None? then 0 else PriceOf(prices, p.value.rawName) * p.value.rawNeeded
  }

  /** Adding a block's raw need adds its cost to the value. */
  lemma AddRawValue(acc: seq<Entry>, p: Option<BlockPlan>, prices: Prices)
    ensures Value(AddRaw(acc, p), prices) == Value(acc, prices) + RawCost(p, prices)
  {
    if p.Some? {
      var k := p.value.rawName;
      var v := Get(acc, k) + p.value.rawNeeded;
      assert AddRaw(acc, p) == Put(acc, k, v);
      ValuePut(acc, k, v, prices);
      assert PriceOf(prices, k) * v == PriceOf(prices, k) * Get(acc, k) + RawCost(p, prices);
    }
  }

  /** Merging the raw needs by material does not change what they cost:
      the value of the base materials is the sum of the blocks' costs. */
  lemma {:induction false} BaseMaterialsCost(t: seq<XpRow>, blocks: seq<Block>, profLevel: int, currentXp: int,
                                             pct: nat, prices: Prices)
    requires AllPlannable(blocks)
    ensures Value(PlanBase(t, blocks, profLevel, currentXp, pct), prices)
            == BlocksCost(t, blocks, profLevel, currentXp, pct, prices)
  {
    if blocks != [] {
      var init := blocks[..|blocks| - 1];
      BaseMaterialsCost(t, init, profLevel, currentXp, pct, prices);
      AddRawValue(PlanBase(t, init, profLevel, currentXp, pct),
                  PlanBlock(t, blocks[|blocks| - 1], profLevel, currentXp, pct), prices);
    }
  }

  /** The XP the blocks need, block by block. */
  function BlocksXp(t: seq<XpRow>, blocks: seq<Block>, profLevel: int, currentXp: int): int
  {
    if blocks == [] then 0
    else
      var b := blocks[|blocks| - 1];
      BlocksXp(t, blocks[..|blocks| - 1], profLevel, currentXp) + RangeXp(t, b.from, b.to, profLevel, currentXp)
  }

  /** Contiguous blocks need, together, the XP of every level they span. */
  lemma {:induction false} BlocksXpSpan(t: seq<XpRow>, blocks: seq<Block>, profLevel: int, currentXp: int)
    requires blocks != []
    requires forall k :: 0 <= k < |blocks| ==> blocks[k].from <= blocks[k].to
    requires forall k :: 0 <= k < |blocks| - 1 ==> blocks[k + 1].from == blocks[k].to + 1
    ensures blocks[0].from <= blocks[|blocks| - 1].to
    ensures BlocksXp(t, blocks, profLevel, currentXp)
            == RangeXp(t, blocks[0].from, blocks[|blocks| - 1].to, profLevel, currentXp)
  {
    if |blocks| > 1 {
      var init := blocks[..|blocks| - 1];
      BlocksXpSpan(t, init, profLevel, currentXp);
      var last := blocks[|blocks| - 1];
      assert init[|init| - 1] == blocks[|blocks| - 2];
      RangeXpSplit(t, blocks[0].from, last.from - 1, last.to, profLevel, currentXp);
    }
  }

  /** Titles do not change the XP. */
  lemma TitledXp(steps: seq<Step>, blockLabel: Label)
    ensures SumXp(Titled(steps, blockLabel)) == SumXp(steps)
  {
    if steps != [] {
      SumXpCons(steps[0], steps[1..]);
      SumXpCons(steps[0].(title := Some(blockLabel)), steps[1..]);
      assert steps == [steps[0]] + steps[1..];
    }
  }

  /** Lines 173-220 for one block: its XP, the chain runs and raw material
      it needs, and the simulation of those runs, together with the XP the
      simulation gains. */
  method PlanOneBlock(t: seq<XpRow>, block: Block, profLevel: int, currentXp: int, pct: nat)
    returns (plan: Option<BlockPlan>, xpGained: int)
    requires Plannable(block.chain) && block.from <= block.to
    ensures plan == PlanBlock(t, block, profLevel, currentXp, pct)
    ensures plan.Some? ==> xpGained == SumXp(plan.value.run.steps)
  {
    plan, xpGained := None, 0;
    var xpForBlock := BlockXp(t, block, profLevel, currentXp);
    if xpForBlock <= 0 || block.chain.totalBaseXp <= 0 {
      return;
    }
    var chainsNeeded := CeilDiv(100 * xpForBlock, block.chain.totalBaseXp * (100 + pct));
    assert chainsNeeded == ChainsNeeded(xpForBlock, block.chain.totalBaseXp, pct);
    if chainsNeeded <= 0 {
      return;
    }
    var rawMaterialName := block.chain.startMaterial;
    var rawMaterialPerChain := block.chain.startRecipe.materials[0].quantity;
    var rawMaterialNeeded := chainsNeeded * rawMaterialPerChain;
    var itemsProduced := Put([], rawMaterialName, rawMaterialNeeded);
    var blockSteps, inv, xp := SimulateSkipping(block.chain.steps, itemsProduced, pct);
    assert itemsProduced == [Entry(rawMaterialName, rawMaterialNeeded)];
    plan, xpGained := Some(BlockPlan(rawMaterialName, rawMaterialNeeded, Run(blockSteps, inv))), xp;
  }

  /** The planning loop's unfolding, one block of `blocks[..b + 1]` at a time. */
  lemma PrefixPlannable(t: seq<XpRow>, blocks: seq<Block>, b: int, profLevel: int, currentXp: int, pct: nat)
    requires AllPlannable(blocks) && 0 <= b < |blocks|
    ensures AllPlannable(blocks[..b]) && AllPlannable(blocks[..b + 1])
  {
  }

  lemma PlanStepsUnfold(t: seq<XpRow>, blocks: seq<Block>, b: int, profLevel: int, currentXp: int, pct: nat)
    requires AllPlannable(blocks) && 0 <= b < |blocks| && AllPlannable(blocks[..b]) && AllPlannable(blocks[..b + 1])
    ensures var p := PlanBlock(t, blocks[b], profLevel, currentXp, pct);
            PlanSteps(t, blocks[..b + 1], profLevel, currentXp, pct)
               == PlanSteps(t, blocks[..b], profLevel, currentXp, pct)
                  + (if p.None? then [] else Titled(p.value.run.steps, Label(blocks[b].from, blocks[b].to)))
  {
    assert blocks[..b + 1][..b] == blocks[..b] && blocks[..b + 1][b] == blocks[b];
  }

  lemma PlanBaseUnfold(t: seq<XpRow>, blocks: seq<Block>, b: int, profLevel: int, currentXp: int, pct: nat)
    requires AllPlannable(blocks) && 0 <= b < |blocks| && AllPlannable(blocks[..b]) && AllPlannable(blocks[..b + 1])
    ensures var p := PlanBlock(t, blocks[b], profLevel, currentXp, pct);
            PlanBase(t, blocks[..b + 1], profLevel, currentXp, pct)
            == AddRaw(PlanBase(t, blocks[..b], profLevel, currentXp, pct), p)
  {
    assert blocks[..b + 1][..b] == blocks[..b] && blocks[..b + 1][b] == blocks[b];
  }

  lemma AppendXp(steps: seq<Step>, blockSteps: seq<Step>, blockLabel: Label)
    ensures SumXp(steps + Titled(blockSteps, blockLabel)) == SumXp(steps) + SumXp(blockSteps)
  {
    TitledXp(blockSteps, blockLabel);
    SumXpAppend(steps, Titled(blockSteps, blockLabel));
  }

  /** Lines 168-221: plan every block in turn, adding its raw need to the
      base materials and its titled steps to the roadmap. */
  method PlanBlocks(t: seq<XpRow>, blocks: seq<Block>, profLevel: int, currentXp: int, pct: nat)
    returns (steps: seq<Step>, baseMaterials: seq<Entry>, totalXp: int)
    requires AllPlannable(blocks)
    ensures steps == PlanSteps(t, blocks, profLevel, currentXp, pct)
    ensures baseMaterials == PlanBase(t, blocks, profLevel, currentXp, pct)
    ensures totalXp == SumXp(steps)
  {
    steps, baseMaterials, totalXp := [], [], 0;
    for b := 0 to |blocks|
      invariant steps == PlanSteps(t, blocks[..b], profLevel, currentXp, pct)
      invariant baseMaterials == PlanBase(t, blocks[..b], profLevel, currentXp, pct)
      invariant totalXp == SumXp(steps)
    {
      var block := blocks[b];
      PrefixPlannable(t, blocks, b, profLevel, currentXp, pct);
      PlanStepsUnfold(t, blocks, b, profLevel, currentXp, pct);
      PlanBaseUnfold(t, blocks, b, profLevel, currentXp, pct);
      var plan, xpGained := PlanOneBlock(t, block, profLevel, currentXp, pct);
      baseMaterials := AddRaw(baseMaterials, plan);
      if plan.Some? {
        var p := plan.value;
        var titled := Titled(p.run.steps, Label(block.from, block.to));
        AppendXp(steps, p.run.steps, Label(block.from, block.to));
        steps := steps + titled;
        totalXp := totalXp + xpGained;
      }
    }
    assert blocks[..|blocks|] == blocks;
  }

  /** The blocks of a partition, taken together, need the XP of every level
      from the first one some chain allows up to the level before the target;
      the levels below that allow no chain. */
  lemma PartitionNeedsAllXp(t: seq<XpRow>, sorted: seq<Chain>, level: int, target: int, blocks: seq<Block>,
                            currentXp: int)
    requires Partition(sorted, level, target, blocks) && blocks != []
    ensures BlocksXp(t, blocks, level, currentXp) == RangeXp(t, blocks[0].from, target - 1, level, currentXp)
    ensures forall l :: level <= l < blocks[0].from ==> ChooseChain(sorted, l).None?
  {
    BlocksXpSpan(t, blocks, level, currentXp);
  }

  /** The level-mode path for the given blocks: the planned steps, the base
      materials, and what is left over, with costs. */
  function LevelPath(t: seq<XpRow>, blocks: seq<Block>, profLevel: int, currentXp: int, pct: nat,
                     prices: Prices): Path
    requires AllPlannable(blocks)
  {
    var steps := PlanSteps(t, blocks, profLevel, currentXp, pct);
    var base := PlanBase(t, blocks, profLevel, currentXp, pct);
    var finalProducts := Leftovers(steps, InputNames(steps));
    var totalCost := Value(base, prices);
    var finalProductValue := Value(finalProducts, prices);
    Path(true, SumXp(steps), totalCost, Entry("", 0), base, steps, finalProducts, finalProductValue,
         totalCost - finalProductValue)
  }

  /** LevelPath assembled from its parts. */
  lemma LevelPathParts(t: seq<XpRow>, blocks: seq<Block>, profLevel: int, currentXp: int, pct: nat,
                       prices: Prices, steps: seq<Step>, base: seq<Entry>, finalProducts: seq<Entry>)
    requires AllPlannable(blocks)
    requires steps == PlanSteps(t, blocks, profLevel, currentXp, pct)
    requires base == PlanBase(t, blocks, profLevel, currentXp, pct)
    requires finalProducts == Leftovers(steps, InputNames(steps))
    ensures LevelPath(t, blocks, profLevel, currentXp, pct, prices)
            == Path(true, SumXp(steps), Value(base, prices), Entry("", 0), base, steps, finalProducts,
                    Value(finalProducts, prices), Value(base, prices) - Value(finalProducts, prices))
  {
  }

  /** The reconciliation of a level-mode path: its total XP is the sum of its
      steps' XP; its total cost is the sum of the blocks' raw-material costs;
      its final products are exactly the step outputs that no step consumes,
      each with its summed quantity; and its net cost is the total cost less
      the value of the final products. */
  lemma LevelPathReconciles(t: seq<XpRow>, blocks: seq<Block>, profLevel: int, currentXp: int, pct: nat,
                            prices: Prices)
    requires AllPlannable(blocks)
    ensures var path := LevelPath(t, blocks, profLevel, currentXp, pct, prices);
            && path.totalXpHundredths == SumXp(path.steps)
            && path.totalCost == BlocksCost(t, blocks, profLevel, currentXp, pct, prices)
            && Names(path.finalProducts) == OutputNames(path.steps) - InputNames(path.steps)
            && (forall n :: n in Names(path.finalProducts) ==> Get(path.finalProducts, n) == OutputOf(path.steps, n))
            && path.netCost == path.totalCost - path.finalProductValue
  {
    var steps := PlanSteps(t, blocks, profLevel, currentXp, pct);
    BaseMaterialsCost(t, blocks, profLevel, currentXp, pct, prices);
    LeftoversNames(steps, InputNames(steps));
    forall n | n in Names(Leftovers(steps, InputNames(steps)))
      ensures Get(Leftovers(steps, InputNames(steps)), n) == OutputOf(steps, n)
    {
      LeftoversQuantities(steps, InputNames(steps), n);
    }
  }

  /** Every block of the partition runs a chain of the list and spans at
      least one level. */
  lemma BlocksPlannable(chains: seq<Chain>, level: int, target: int, blocks: seq<Block>)
    requires forall i :: 0 <= i < |chains| ==> Plannable(chains[i])
    requires Partition(SortDesc(chains, RequiredLevelOf), level, target, blocks)
    ensures AllPlannable(blocks)
  {
    var sorted := SortDesc(chains, RequiredLevelOf);
    SortDescMembers(chains, RequiredLevelOf);
    forall k | 0 <= k < |blocks| ensures Plannable(blocks[k].chain) {
      assert ChooseChain(sorted, blocks[k].from) == Some(blocks[k].chain);
      assert blocks[k].chain in chains;
    }
  }

  /** Lines 168-255: plan the blocks, then price the base materials and the
      final products. */
  method AssemblePath(t: seq<XpRow>, levelBlocks: seq<Block>, profLevel: int, currentXp: int, pct: nat,
                      prices: Prices) returns (path: Path)
    requires AllPlannable(levelBlocks)
    ensures path == LevelPath(t, levelBlocks, profLevel, currentXp, pct, prices)
  {
    var steps, baseMaterials, totalXpGained := PlanBlocks(t, levelBlocks, profLevel, currentXp, pct);
    var totalCost := Value(baseMaterials, prices);
    var finalProducts := FinalProducts(steps);
    var finalProductValue := Value(finalProducts, prices);
    var netCost := totalCost - finalProductValue;
    LevelPathParts(t, levelBlocks, profLevel, currentXp, pct, prices, steps, baseMaterials, finalProducts);
    path := Path(true, totalXpGained, totalCost, Entry("", 0), baseMaterials, steps,
                 finalProducts, finalProductValue, netCost);
  }

  /** The level branch of lines 143-257: the target must be above the
      current level and some chain must exist; then the chains are sorted by
      descending required level, the levels partitioned into blocks and the
      blocks planned. */
  method LevelMode(chains: seq<Chain>, profession: Profession, targetLevel: int, t: seq<XpRow>, pct: nat,
                   prices: Prices) returns (r: Result<Path>, ghost blocks: seq<Block>)
    requires forall i :: 0 <= i < |chains| ==> Plannable(chains[i])
    ensures targetLevel == 0 || targetLevel <= profession.level ==> r == Err(TargetNotAboveCurrent)
    ensures targetLevel != 0 && targetLevel > profession.level && chains == [] ==> r == Err(NoChains)
    ensures targetLevel != 0 && targetLevel > profession.level && chains != [] ==>
              && AllPlannable(blocks)
              && Partition(SortDesc(chains, RequiredLevelOf), profession.level, targetLevel, blocks)
              && r == Ok(LevelPath(t, blocks, profession.level, profession.currentXp, pct, prices))
  {
    blocks := [];
    if targetLevel == 0 || targetLevel <= profession.level {
      return Err(TargetNotAboveCurrent), blocks;
    }
    if |chains| == 0 {
      return Err(NoChains), blocks;
    }
    var sortedChains := SortDesc(chains, RequiredLevelOf);
    var levelBlocks := PartitionLevels(sortedChains, profession.level, targetLevel);
    BlocksPlannable(chains, profession.level, targetLevel, levelBlocks);
    var path := AssemblePath(t, levelBlocks, profession.level, profession.currentXp, pct, prices);
    r := Ok(path);
    blocks := levelBlocks;
  }
}
