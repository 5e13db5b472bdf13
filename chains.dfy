/** Chain discovery: from every recipe that turns one raw (uncraftable)
    material into something, follow the unique consumer of each output to
    build a linear production chain, then probe the chain once to learn its
    XP and its final output. */
module ChainDiscovery {
  import opened Types
  import opened Inventory
  import opened RecipeGraph
  import opened Simulation
  import opened Arith

  datatype Chain = Chain(
    startMaterial: string,
    startRecipe: Recipe,
    steps: seq<Recipe>,
    totalBaseXp: int,
    requiredLevel: int,
    xpPerRawMaterial: real,
    finalOutput: Entry)

  function Ids(rs: seq<Recipe>): set<string>
  {
    set r | r in rs :: r.id
  }

  predicate DistinctIds(rs: seq<Recipe>)
  {
    forall i, j :: 0 <= i < j < |rs| ==> rs[i].id != rs[j].id
  }

  /** A chain starts at a recipe with exactly one material, and that material
      is raw: no recipe of the list outputs it. */
  predicate IsChainStart(rs: seq<Recipe>, r: Recipe)
  {
    |r.materials| == 1 && r.materials[0].name !in Craftable(rs)
  }

  /** Each step after the first is the sole consumer of the previous output. */
  predicate Linked(rs: seq<Recipe>, steps: seq<Recipe>)
  {
    forall k :: 1 <= k < |steps| ==> Consumers(rs, steps[k - 1].outputItemName) == [steps[k]]
  }

  lemma LinkedAppend(rs: seq<Recipe>, steps: seq<Recipe>, r: Recipe)
    requires Linked(rs, steps) && |steps| >= 1
    requires Consumers(rs, steps[|steps| - 1].outputItemName) == [r]
    ensures Linked(rs, steps + [r])
  {
    var s' := steps + [r];
    forall k | 1 <= k < |s'| ensures Consumers(rs, s'[k - 1].outputItemName) == [s'[k]] {
      if k < |steps| {
        assert s'[k - 1] == steps[k - 1] && s'[k] == steps[k];
      }
    }
  }

  /** Whether a step of the chain has recipe id `id` (the loop guard's
      `chainSteps.find(s => s.id === nextRecipe.id)`). */
  function HasId(steps: seq<Recipe>, id: string): (b: bool)
    ensures b <==> id in Ids(steps)
  {
    exists k :: 0 <= k < |steps| && steps[k].id == id
  }

  /** `steps` is the chain grown from `start`: each later step is the sole
      consumer of the previous step's output, no recipe id repeats, and the
      last output has no sole consumer, or its sole consumer is already in
      the chain. */
  predicate IsMaximalChain(rs: seq<Recipe>, start: Recipe, steps: seq<Recipe>)
  {
    && |steps| >= 1 && steps[0] == start
    && Linked(rs, steps)
    && DistinctIds(steps)
    && var next := Consumers(rs, steps[|steps| - 1].outputItemName);
       |next| != 1 || next[0].id in Ids(steps)
  }

  /** Two chains grown from the same start are the same chain. */
  lemma {:induction false} MaximalChainUnique(rs: seq<Recipe>, start: Recipe, a: seq<Recipe>, b: seq<Recipe>)
    requires IsMaximalChain(rs, start, a) && IsMaximalChain(rs, start, b)
    ensures a == b
  {
    var n := if |a| <= |b| then |a| else |b|;
    var k := 1;
    while k < n
      invariant 1 <= k <= n
      invariant forall j :: 0 <= j < k ==> a[j] == b[j]
    {
      assert Consumers(rs, a[k - 1].outputItemName) == [a[k]];
      assert Consumers(rs, b[k - 1].outputItemName) == [b[k]];
      k := k + 1;
    }
    NotLonger(rs, a, b);
    NotLonger(rs, b, a);
  }

  /** A chain that shares the steps of a maximal chain `a` is no longer than it. */
  lemma NotLonger(rs: seq<Recipe>, a: seq<Recipe>, b: seq<Recipe>)
    requires |a| >= 1 && IsMaximalChain(rs, a[0], a) && IsMaximalChain(rs, a[0], b)
    requires forall j :: 0 <= j < |a| && j < |b| ==> a[j] == b[j]
    ensures |b| <= |a|
  {
    NextIsInChain(rs, a, b);
    FreshIds(b);
  }

  /** Past the end of a maximal chain `a`, a longer chain could only repeat a
      recipe id of `a`. */
  lemma NextIsInChain(rs: seq<Recipe>, a: seq<Recipe>, b: seq<Recipe>)
    requires |a| >= 1 && IsMaximalChain(rs, a[0], a)
    requires Linked(rs, b)
    requires forall j :: 0 <= j < |a| && j < |b| ==> a[j] == b[j]
    ensures |a| < |b| ==> b[|a|].id in Ids(b[..|a|])
  {
    if |a| < |b| {
      assert Consumers(rs, a[|a| - 1].outputItemName) == [b[|a|]];
      assert a == b[..|a|];
    }
  }

  /** In a chain without repeated ids, no step repeats an earlier step's id. */
  lemma FreshIds(b: seq<Recipe>)
    requires DistinctIds(b)
    ensures forall m :: 0 <= m < |b| ==> b[m].id !in Ids(b[..m])
  {
    forall m | 0 <= m < |b| ensures b[m].id !in Ids(b[..m]) {
      assert forall r :: r in b[..m] ==> r.id != b[m].id;
    }
  }

  /** Appending a recipe whose id is new keeps the ids distinct and strictly
      shrinks the set of ids not yet used. */
  lemma WalkProgress(rs: seq<Recipe>, chain: seq<Recipe>, r: Recipe)
    requires r in rs && Ids(chain) <= Ids(rs) && DistinctIds(chain)
    requires forall k :: 0 <= k < |chain| ==> chain[k].id != r.id
    ensures Ids(chain + [r]) <= Ids(rs)
    ensures Ids(rs) - Ids(chain + [r]) < Ids(rs) - Ids(chain)
    ensures DistinctIds(chain + [r])
  {
    assert forall x :: x in chain + [r] <==> x in chain || x == r;
    assert Ids(chain + [r]) == Ids(chain) + {r.id};
    assert r.id !in Ids(chain);
  }

  /** The chain walk of lines 88-98: append the sole consumer of the current
      output while there is exactly one and it is not already in the chain. */
  method WalkChain(rs: seq<Recipe>, recipesByInput: map<string, seq<Recipe>>, start: Recipe)
    returns (chainSteps: seq<Recipe>)
    requires IsIndex(rs, recipesByInput)
    requires start in rs && |start.materials| >= 1
    ensures IsMaximalChain(rs, start, chainSteps)
    ensures forall k :: 0 <= k < |chainSteps| ==> chainSteps[k] in rs && |chainSteps[k].materials| >= 1
  {
    chainSteps := [start];
    var currentOutput := start.outputItemName;
    var nextRecipes := Lookup(recipesByInput, currentOutput);
    while |nextRecipes| == 1
      invariant |chainSteps| >= 1 && chainSteps[0] == start
      invariant Linked(rs, chainSteps)
      invariant DistinctIds(chainSteps)
      invariant forall k :: 0 <= k < |chainSteps| ==> chainSteps[k] in rs && |chainSteps[k].materials| >= 1
      invariant currentOutput == chainSteps[|chainSteps| - 1].outputItemName
      invariant nextRecipes == Consumers(rs, currentOutput)
      invariant Ids(chainSteps) <= Ids(rs)
      decreases Ids(rs) - Ids(chainSteps)
    {
      var nextRecipe := nextRecipes[0];
      if HasId(chainSteps, nextRecipe.id) {
        break;
      }
      ConsumersMembers(rs, currentOutput, nextRecipe);
      WalkProgress(rs, chainSteps, nextRecipe);
      assert nextRecipes == [nextRecipe];
      LinkedAppend(rs, chainSteps, nextRecipe);
      chainSteps := chainSteps + [nextRecipe];
      currentOutput := nextRecipe.outputItemName;
      nextRecipes := Lookup(recipesByInput, currentOutput);
    }
  }

  /** What the one-batch probe accumulates: base XP and the inventory. */
  datatype Probe = Probe(xp: int, inv: seq<Entry>)

  /** The probe over the later steps of a chain (lines 106-117): a step with
      less input than one batch is skipped, any other crafts
      `floor(available / needed)` batches and earns their base XP. */
  function ProbeRun(rs: seq<Recipe>, inv: seq<Entry>): Probe
    requires AllRunnable(rs)
  {
    if rs == [] then Probe(0, inv)
    else
      var m := rs[0].materials[0];
      var avail := Get(inv, m.name);
      if avail >= m.quantity then
        var c := avail / m.quantity;
        var rest := ProbeRun(rs[1..], AfterCraft(inv, rs[0], c));
        Probe(c * rs[0].xp + rest.xp, rest.inv)
      else ProbeRun(rs[1..], inv)
  }

  /** The probe's inventory after one craft of the start recipe. */
  function ProbeStart(start: Recipe): seq<Entry>
  {
    [Entry(start.outputItemName, start.outputQuantity)]
  }

  lemma ProbeUnfold(rs: seq<Recipe>, inv: seq<Entry>)
    requires AllRunnable(rs) && rs != []
    requires Get(inv, rs[0].materials[0].name) >= rs[0].materials[0].quantity
    ensures var c := Get(inv, rs[0].materials[0].name) / rs[0].materials[0].quantity;
            var rest := ProbeRun(rs[1..], AfterCraft(inv, rs[0], c));
            ProbeRun(rs, inv) == Probe(c * rs[0].xp + rest.xp, rest.inv)
  {
  }

  /** The probe is the roadmap's skipping simulation without bonus: its XP
      is the run's XP (which is kept in hundredths) and it leaves the same
      inventory. */
  lemma {:induction false} ProbeIsSkippingRun(rs: seq<Recipe>, inv: seq<Entry>)
    requires AllRunnable(rs) && NonNegative(inv)
    decreases |rs|, 1
    ensures 100 * ProbeRun(rs, inv).xp == SumXp(RunSkipping(rs, inv, 0).steps)
    ensures ProbeRun(rs, inv).inv == RunSkipping(rs, inv, 0).inv
  {
    if rs != [] {
      var m := rs[0].materials[0];
      var avail := Get(inv, m.name);
      if avail >= m.quantity {
        ProbeCraftingStep(rs, inv);
      } else {
        GetNonNegative(inv, m.name);
        FloorBounds(avail, m.quantity);
        assert Crafts(inv, rs[0]) == 0;
        assert ProbeRun(rs, inv) == ProbeRun(rs[1..], inv);
        assert RunSkipping(rs, inv, 0) == RunSkipping(rs[1..], inv, 0);
        ProbeIsSkippingRun(rs[1..], inv);
      }
    }
  }

  /** The inductive step of ProbeIsSkippingRun for a step that crafts. */
  lemma {:induction false} ProbeCraftingStep(rs: seq<Recipe>, inv: seq<Entry>)
    requires AllRunnable(rs) && NonNegative(inv) && rs != []
    requires Get(inv, rs[0].materials[0].name) >= rs[0].materials[0].quantity
    decreases |rs|, 0
    ensures 100 * ProbeRun(rs, inv).xp == SumXp(RunSkipping(rs, inv, 0).steps)
    ensures ProbeRun(rs, inv).inv == RunSkipping(rs, inv, 0).inv
  {
    var c := Crafts(inv, rs[0]);
    FloorBounds(Get(inv, rs[0].materials[0].name), rs[0].materials[0].quantity);
    assert c >= 1;
    CraftBounds(inv, rs[0]);
    ProbeUnfold(rs, inv);
    SkippingUnfold(rs, inv, 0);
    var next := AfterCraft(inv, rs[0], c);
    ProbeIsSkippingRun(rs[1..], next);
    var s0 := StepOf(rs[0], c, 0);
    SumXpCons(s0, RunSkipping(rs[1..], next, 0).steps);
    assert s0.xpHundredths == 100 * (c * rs[0].xp);
  }

  /** The probe of lines 100-120: one craft of the start recipe, then the
      later steps; returns the chain's total base XP and its final output. */
  method ProbeChain(chainSteps: seq<Recipe>) returns (totalBaseXp: int, finalOutput: Entry)
    requires |chainSteps| >= 1 && AllRunnable(chainSteps)
    ensures var p := ProbeRun(chainSteps[1..], ProbeStart(chainSteps[0]));
            var last := chainSteps[|chainSteps| - 1].outputItemName;
            totalBaseXp == chainSteps[0].xp + p.xp && finalOutput == Entry(last, Get(p.inv, last))
  {
    var startRecipe := chainSteps[0];
    totalBaseXp := 0;
    var itemsProduced: seq<Entry> := [];
    itemsProduced := Put(itemsProduced, startRecipe.outputItemName, startRecipe.outputQuantity);
    totalBaseXp := totalBaseXp + startRecipe.xp;
    ghost var full := ProbeRun(chainSteps[1..], ProbeStart(startRecipe));
    assert chainSteps[1..][0..] == chainSteps[1..];
    for i := 1 to |chainSteps|
      invariant full.xp == totalBaseXp - startRecipe.xp + ProbeRun(chainSteps[i..], itemsProduced).xp
      invariant full.inv == ProbeRun(chainSteps[i..], itemsProduced).inv
    {
      var step := chainSteps[i];
      var inputName := step.materials[0].name;
      var inputNeeded := step.materials[0].quantity;
      var inputAvailable := Get(itemsProduced, inputName);
      assert chainSteps[i..][0] == step && chainSteps[i..][1..] == chainSteps[i + 1..];
      if inputAvailable >= inputNeeded {
        var crafts := inputAvailable / inputNeeded;
        ProbeUnfold(chainSteps[i..], itemsProduced);
        totalBaseXp := totalBaseXp + crafts * step.xp;
        itemsProduced := ApplyCraft(itemsProduced, step, crafts);
      }
    }
    var finalStep := chainSteps[|chainSteps| - 1];
    var finalOutputQty := Get(itemsProduced, finalStep.outputItemName);
    finalOutput := Entry(finalStep.outputItemName, finalOutputQty);
  }

  /** `Math.max` of the steps' required levels. */
  function MaxRequiredLevel(steps: seq<Recipe>): (m: int)
    requires |steps| >= 1
    ensures forall k :: 0 <= k < |steps| ==> steps[k].requiredLevel <= m
    ensures exists k :: 0 <= k < |steps| && steps[k].requiredLevel == m
  {
    if |steps| == 1 then steps[0].requiredLevel
    else
      var m' := MaxRequiredLevel(steps[..|steps| - 1]);
      var last := steps[|steps| - 1].requiredLevel;
      if m' >= last then m' else last
  }

  /** The recipes of `rs`, in order, that start a chain among `all`. */
  function ChainStarts(all: seq<Recipe>, rs: seq<Recipe>): (starts: seq<Recipe>)
    ensures forall r :: r in starts <==> r in rs && IsChainStart(all, r)
  {
    if rs == [] then []
    else
      var last := rs[|rs| - 1];
      assert rs == rs[..|rs| - 1] + [last];
      ChainStarts(all, rs[..|rs| - 1]) + (if IsChainStart(all, last) then [last] else [])
  }

  /** The materials of a recipe that no recipe outputs. */
  function RawMaterials(ms: seq<Material>, craftable: set<string>): (raw: seq<Material>)
    ensures forall m :: m in raw <==> m in ms && m.name !in craftable
    ensures |raw| <= |ms|
    ensures |ms| == 1 && ms[0].name !in craftable ==> raw == ms
  {
    if ms == [] then []
    else (if ms[0].name !in craftable then [ms[0]] else []) + RawMaterials(ms[1..], craftable)
  }

  /** What discovery records about a chain: it was grown from a chain start
      along sole consumers, its start material is the start recipe's raw
      input, its base XP and final output are the probe's, its required level
      is the highest of its steps, and its XP per raw unit is the base XP
      over the start recipe's input quantity. */
  predicate ValidChain(rs: seq<Recipe>, c: Chain)
  {
    && IsChainStart(rs, c.startRecipe)
    && c.startMaterial == c.startRecipe.materials[0].name
    && IsMaximalChain(rs, c.startRecipe, c.steps)
    && (forall k :: 0 <= k < |c.steps| ==> c.steps[k] in rs)
    && AllRunnable(c.steps)
    && c.startRecipe.materials[0].quantity >= 1
    && var p := ProbeRun(c.steps[1..], ProbeStart(c.startRecipe));
       var last := c.steps[|c.steps| - 1].outputItemName;
       && c.totalBaseXp == c.startRecipe.xp + p.xp
       && c.finalOutput == Entry(last, Get(p.inv, last))
       && c.requiredLevel == MaxRequiredLevel(c.steps)
       && c.xpPerRawMaterial == (c.totalBaseXp as real) / (c.startRecipe.materials[0].quantity as real)
  }

  /** Lines 88-130 for one chain-starting recipe: walk, probe and record. */
  method BuildChain(rs: seq<Recipe>, recipesByInput: map<string, seq<Recipe>>, startRecipe: Recipe,
                    startMaterial: string) returns (chain: Chain)
    requires WellFormedRecipes(rs) && IsIndex(rs, recipesByInput)
    requires startRecipe in rs && IsChainStart(rs, startRecipe)
    requires startMaterial == startRecipe.materials[0].name
    ensures chain.startRecipe == startRecipe && ValidChain(rs, chain)
  {
    var chainSteps := WalkChain(rs, recipesByInput, startRecipe);
    assert AllRunnable(chainSteps) by {
      forall r | r in chainSteps ensures Runnable(r) {
        assert r in rs;
        assert r.materials[0] in r.materials;
      }
    }
    var totalBaseXp, finalOutput := ProbeChain(chainSteps);
    assert startRecipe.materials[0] in startRecipe.materials;
    var rawMaterialCost := startRecipe.materials[0].quantity;
    chain := Chain(startMaterial, startRecipe, chainSteps, totalBaseXp,
                   MaxRequiredLevel(chainSteps),
                   (totalBaseXp as real) / (rawMaterialCost as real), finalOutput);
  }

  /** The chain starts of one more recipe. */
  lemma ChainStartsSnoc(all: seq<Recipe>, rs: seq<Recipe>, i: int)
    requires 0 <= i < |rs|
    ensures ChainStarts(all, rs[..i + 1])
            == ChainStarts(all, rs[..i]) + (if IsChainStart(all, rs[i]) then [rs[i]] else [])
  {
    assert rs[..i + 1][..i] == rs[..i];
  }

  /** Appending a valid chain keeps the chains in step with their starts. */
  lemma RecordChain(rs: seq<Recipe>, before: seq<Chain>, prev: seq<Recipe>, chain: Chain)
    requires |before| == |prev|
    requires forall k :: 0 <= k < |before| ==> before[k].startRecipe == prev[k] && ValidChain(rs, before[k])
    requires ValidChain(rs, chain)
    ensures var cs, ps := before + [chain], prev + [chain.startRecipe];
            |cs| == |ps| && forall k :: 0 <= k < |cs| ==> cs[k].startRecipe == ps[k] && ValidChain(rs, cs[k])
  {
    var cs, ps := before + [chain], prev + [chain.startRecipe];
    forall k | 0 <= k < |cs|
      ensures cs[k].startRecipe == ps[k] && ValidChain(rs, cs[k])
    {
      if k < |before| {
        assert cs[k] == before[k] && ps[k] == prev[k];
      }
    }
  }

  /** `discoverChains` (lines 73-134): one chain per chain-starting recipe,
      in recipe-list order. */
  method DiscoverChains(rs: seq<Recipe>) returns (chains: seq<Chain>)
    requires WellFormedRecipes(rs)
    ensures |chains| == |ChainStarts(rs, rs)|
    ensures forall k :: 0 <= k < |chains| ==>
              chains[k].startRecipe == ChainStarts(rs, rs)[k] && ValidChain(rs, chains[k])
  {
    var craftableItems := Craftable(rs);
    var recipesByInput := BuildIndex(rs);
    chains := [];
    for i := 0 to |rs|
      invariant |chains| == |ChainStarts(rs, rs[..i])|
      invariant forall k :: 0 <= k < |chains| ==>
                  chains[k].startRecipe == ChainStarts(rs, rs[..i])[k] && ValidChain(rs, chains[k])
    {
      var startRecipe := rs[i];
      var rawMaterials := RawMaterials(startRecipe.materials, craftableItems);
      ghost var prev := ChainStarts(rs, rs[..i]);
      ChainStartsSnoc(rs, rs, i);
      if |rawMaterials| > 0 && |startRecipe.materials| == 1 {
        assert rawMaterials[0] in startRecipe.materials;
        assert IsChainStart(rs, startRecipe);
        var chain := BuildChain(rs, recipesByInput, startRecipe, rawMaterials[0].name);
        RecordChain(rs, chains, prev, chain);
        chains := chains + [chain];
        assert ChainStarts(rs, rs[..i + 1]) == prev + [chain.startRecipe];
      } else {
        assert !IsChainStart(rs, startRecipe);
        assert ChainStarts(rs, rs[..i + 1]) == prev;
      }
    }
    assert rs[..|rs|] == rs;
  }
}
