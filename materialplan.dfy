/** The material-mode plan: given a raw material and a quantity, pick among
    the chains starting from that material (compared case-insensitively) one
    with the most steps, and craft the material through it, stopping at the
    first step that can craft nothing. */
module MaterialPlan {
  import opened Types
  import opened Inventory
  import opened Sorting
  import opened Simulation
  import opened ChainDiscovery

  /** A chain the material planner can run: runnable steps, the first of
      which consumes the chain's start material. */
  predicate Seeded(c: Chain)
  {
    AllRunnable(c.steps) && |c.steps| >= 1 && c.steps[0].materials[0].name == c.startMaterial
  }

  function StepCount(c: Chain): int
  {
    |c.steps|
  }

  /** `chains.filter(c => lower(c.startMaterial) === lower(material))`, with
      the lower-casing given as `lower`. */
  function Matching(chains: seq<Chain>, material: string, lower: string -> string): (r: seq<Chain>)
    ensures forall c :: c in r <==> c in chains && lower(c.startMaterial) == lower(material)
    ensures |r| <= |chains|
  {
    if chains == [] then []
    else
      (if lower(chains[0].startMaterial) == lower(material) then [chains[0]] else [])
      + Matching(chains[1..], material, lower)
  }

  /** The chain the planner runs: the head of the matching chains sorted by
      descending step count. It matches, no matching chain has more steps,
      and among those with as many steps it is the first in discovery order. */
  lemma BestChainHasMostSteps(relevant: seq<Chain>)
    requires relevant != []
    ensures var best := SortDesc(relevant, StepCount)[0];
            && best in relevant
            && (forall c :: c in relevant ==> |c.steps| <= |best.steps|)
            && WithKey(relevant, StepCount, |best.steps|) != []
            && WithKey(relevant, StepCount, |best.steps|)[0] == best
  {
    var sorted := SortDesc(relevant, StepCount);
    HeadIsMaximal(relevant, StepCount);
    SortDescMembers(relevant, StepCount);
    SortDescCorrect(relevant, StepCount);
    var best := sorted[0];
    assert sorted == [best] + sorted[1..];
    assert WithKey(sorted, StepCount, |best.steps|)[0] == best;
  }

  /** The material-mode path for a chain started from `quantity` of `seed`:
      the stopping run, everything left in the inventory except the seed as
      final products, and the seed's price as the cost. */
  function MaterialPath(best: Chain, seed: string, quantity: int, pct: nat, prices: Prices): Path
    requires AllRunnable(best.steps)
  {
    var run := RunStopping(best.steps, [Entry(seed, quantity)], pct);
    var finalProducts := Remove(run.inv, seed);
    var totalCost := PriceOf(prices, seed) * quantity;
    var finalProductValue := Value(finalProducts, prices);
    Path(false, SumXp(run.steps), totalCost, Entry(seed, quantity), [], run.steps, finalProducts,
         finalProductValue, totalCost - finalProductValue)
  }

  /** MaterialPath assembled from its parts. */
  lemma MaterialPathParts(best: Chain, seed: string, quantity: int, pct: nat, prices: Prices,
                          steps: seq<Step>, inv: seq<Entry>)
    requires AllRunnable(best.steps)
    requires Run(steps, inv) == RunStopping(best.steps, [Entry(seed, quantity)], pct)
    ensures var finalProducts := Remove(inv, seed);
            var totalCost := PriceOf(prices, seed) * quantity;
            MaterialPath(best, seed, quantity, pct, prices)
            == Path(false, SumXp(steps), totalCost, Entry(seed, quantity), [], steps, finalProducts,
                    Value(finalProducts, prices), totalCost - Value(finalProducts, prices))
  {
  }

  /** The reconciliation of a material-mode path: its total XP is the sum of
      its steps' XP; its steps are a stopping run from the seed in which every
      step crafts at least once; its final products are exactly the inventory
      entries not named after the seed, none negative; its cost is the seed's
      price times the quantity; and its net cost is the cost less the value
      of the final products. */
  lemma MaterialPathReconciles(best: Chain, seed: string, quantity: int, pct: nat, prices: Prices)
    requires AllRunnable(best.steps) && quantity >= 0
    ensures var path := MaterialPath(best, seed, quantity, pct, prices);
            var run := RunStopping(best.steps, [Entry(seed, quantity)], pct);
            && path.totalXpHundredths == SumXp(path.steps)
            && path.steps == run.steps
            && (forall s :: s in path.steps ==> s.crafts >= 1)
            && (forall e :: e in path.finalProducts <==> e in run.inv && e.name != seed)
            && NonNegative(path.finalProducts)
            && path.totalCost == PriceOf(prices, seed) * quantity
            && path.netCost == path.totalCost - path.finalProductValue
  {
    var inv := [Entry(seed, quantity)];
    assert NonNegative(inv);
    RunsStayNonNegative(best.steps, inv, pct);
    RemoveShape(RunStopping(best.steps, inv, pct).inv, seed);
  }

  /** As written, the run is seeded under the user's spelling of the
      material. When it differs from the chain's own spelling, which the
      case-insensitive match allows, the first step finds none of its input,
      and the plan crafts nothing and gains no XP however much material is
      given. */
  lemma SpellingMismatchCraftsNothing(best: Chain, material: string, quantity: int, pct: nat, prices: Prices)
    requires Seeded(best) && material != best.startMaterial
    ensures MaterialPath(best, material, quantity, pct, prices).steps == []
    ensures MaterialPath(best, material, quantity, pct, prices).totalXpHundredths == 0
  {
    var inv := [Entry(material, quantity)];
    assert Get(inv, best.steps[0].materials[0].name) == Get([], best.steps[0].materials[0].name);
  }

  /** Seeded under the chain's own spelling, the plan crafts the first step
      as soon as the quantity covers one batch of its input. */
  lemma ChainSpellingCraftsFirstStep(best: Chain, quantity: int, pct: nat, prices: Prices)
    requires Seeded(best) && quantity >= best.steps[0].materials[0].quantity
    ensures |MaterialPath(best, best.startMaterial, quantity, pct, prices).steps| >= 1
    ensures MaterialPath(best, best.startMaterial, quantity, pct, prices).steps[0].crafts
            == quantity / best.steps[0].materials[0].quantity
  {
    var inv := [Entry(best.startMaterial, quantity)];
    var q := best.steps[0].materials[0].quantity;
    assert Crafts(inv, best.steps[0]) == quantity / q;
    assert quantity / q >= 1;
    StoppingUnfold(best.steps, inv, pct);
  }

  /** The material branch of lines 259-318: a material and a positive
      quantity must be given, and some chain must start from the material up
      to case; the chain with the most steps is then run. The run is seeded,
      priced and filtered under the chain's own spelling of the material. */
  method MaterialMode(chains: seq<Chain>, material: string, quantity: int, lower: string -> string,
                      pct: nat, prices: Prices) returns (r: Result<Path>)
    requires forall i :: 0 <= i < |chains| ==> Seeded(chains[i])
    ensures material == "" || quantity <= 0 ==> r == Err(InvalidMaterialOrQuantity)
    ensures material != "" && quantity > 0 && Matching(chains, material, lower) == [] ==>
              r == Err(NoChainForMaterial(material))
    ensures material != "" && quantity > 0 && Matching(chains, material, lower) != [] ==>
              var best := SortDesc(Matching(chains, material, lower), StepCount)[0];
              Seeded(best) && r == Ok(MaterialPath(best, best.startMaterial, quantity, pct, prices))
  {
    if material == "" || quantity <= 0 {
      return Err(InvalidMaterialOrQuantity);
    }
    var relevantChains := Matching(chains, material, lower);
    if |relevantChains| == 0 {
      return Err(NoChainForMaterial(material));
    }
    var bestChain := SortDesc(relevantChains, StepCount)[0];
    BestChainHasMostSteps(relevantChains);
    assert bestChain in chains;
    var k :| 0 <= k < |chains| && chains[k] == bestChain;
    assert Seeded(bestChain);
    var seed := bestChain.startMaterial;
    var pathSteps, itemsProduced, totalXpGained :=
      SimulateStopping(bestChain.steps, [Entry(seed, quantity)], pct);
    var finalProducts := Remove(itemsProduced, seed);
    var finalProductValue := Value(finalProducts, prices);
    var totalCost := PriceOf(prices, seed) * quantity;
    var netCost := totalCost - finalProductValue;
    MaterialPathParts(bestChain, seed, quantity, pct, prices, pathSteps, itemsProduced);
    var path := Path(false, totalXpGained, totalCost, Entry(seed, quantity), [], pathSteps,
                     finalProducts, finalProductValue, netCost);
    assert path == MaterialPath(bestChain, seed, quantity, pct, prices);
    r := Ok(path);
  }
}
