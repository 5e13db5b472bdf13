# Crafting calculators: verified model

This project models the calculation core of a crafting helper for an online
game's professions. It covers:

- the **efficiency calculator**:
  - it discovers linear production chains among a profession's recipes;
  - it probes each chain once to learn its XP, its required level and its final output;
  - it plans either a leveling roadmap, which splits the level range into blocks served by the best chain available, or a single material run;
  - it reconciles the cost, the final products and the net cost of the plan;
- the **single-recipe calculator**: its validation, the XP needed, the crafts needed, and the materials, cost, revenue and profit;
- the **profession page**: saving an edited profession, toggling the calculator's recipe, and the learned/unlearned recipe lists;
- the **price sheet**: the sorted, duplicate-free item list, and the update of one price.

Modules, in dependency order:

| module | file | what it holds |
|---|---|---|
| `Types` | types.dfy | recipes, materials, XP rows, bonuses, professions, errors, prices |
| `Inventory` | inventory.dfy | the insertion-ordered name → quantity table (JavaScript `Map` or plain object) |
| `Arith` | arith.dfy | `Math.ceil` of a positive division, floor bounds |
| `Bonus` | bonus.dfy | the XP bonus as a whole percentage and as a fraction |
| `XpTable` | xptable.dfy | the level table and `find` on it |
| `Sorting` | sorting.dfy | the stable sort by descending integer key (`Array.prototype.sort`) |
| `RecipeGraph` | graph.dfy | craftable items and the consumers-by-material index |
| `Simulation` | simulation.dfy | one craft, and the stopping and skipping runs of a chain |
| `ChainDiscovery` | chains.dfy | the chain walk, the probe, `discoverChains` |
| `Roadmap` | roadmap.dfy | level mode: chain choice, block partition, block plan, final products, costs |
| `MaterialPlan` | materialplan.dfy | material mode |
| `Efficiency` | efficiency.dfy | `calculateTotalBonus` and `handleCalculate` of the efficiency calculator |
| `LevelCalculator` | calculator.dfy | `handleCalculate` of the single-recipe calculator |
| `CraftingPage` | crafting.dfy | `handleSave`, `handleSelectRecipeForCalc`, the recipe filters |
| `PriceSheet` | prices.dfy | `uniqueItems`, `handlePriceChange` |

XP is exact. A bonus is a whole percentage `pct` (0 to 70). An XP amount
with the bonus is kept in hundredths, as `crafts × xp × (100 + pct)`. A
number of crafts or chain runs is the ceiling of `100 × xpNeeded` divided by
the hundredths one craft or one run yields.

## Model

| member | source | states |
|---|---|---|
| Arith.CeilDiv | src/components/Calculator.tsx:96 | `n` is the ceiling of `a / b`: `n·b ≥ a` and `(n−1)·b < a` |
| Arith.CeilDivLeast | src/components/Calculator.tsx:96 | any `m` with `m·b ≥ a` is at least the ceiling |
| Arith.FloorBounds | src/components/EfficiencyCalculator.tsx:112 | `floor(a/q)·q ≤ a < (floor(a/q)+1)·q`, so the remainder is below `q`; the quotient is 0 below one batch and at least 1 from one batch on |
| Bonus.PremiumPercent | src/components/EfficiencyCalculator.tsx:59-69 | 30 exactly for the craft premium, 0 exactly for none, otherwise 10 |
| Bonus.BonusPercent | src/components/Calculator.tsx:51-60 | the percentage is a multiple of 10 between 0 and 70 |
| Bonus.BonusFraction | src/components/EfficiencyCalculator.tsx:52-71 | the fraction lies in [0, 0.7] |
| Bonus.PercentIsHundredTimesFraction | src/components/Calculator.tsx:51-60 | the single-recipe calculator's percentage is 100 × the efficiency calculator's fraction |
| Efficiency.TotalBonus | src/components/EfficiencyCalculator.tsx:52-71 | accumulating 0.10 per flag and the premium's share gives `BonusFraction` |
| Efficiency.ValidChainUsable | src/components/EfficiencyCalculator.tsx:85-130 | every discovered chain can be run in level mode and in material mode |
| Efficiency.Calculate | src/components/EfficiencyCalculator.tsx:136-319 | level mode: a missing target, or one not above the current level, is rejected first, then a profession without chains; material mode: a blank material or a non-positive quantity is rejected; a plan's leveling flag is its mode; net cost = cost − final-product value |
| XpTable.FindRow | src/components/EfficiencyCalculator.tsx:175 | a found row is in the table with the asked level; nothing is found exactly when no row has that level |
| XpTable.FindRowIsFirst | src/components/EfficiencyCalculator.tsx:175 | the found row is the first row of the table with the asked level, as `find` returns |
| XpTable.MaxLevel | src/components/Calculator.tsx:45-48 | the last row's level is the highest level of the table |
| RecipeGraph.Craftable | src/components/EfficiencyCalculator.tsx:74 | exactly the recipes' output names |
| RecipeGraph.CountUsesPositive | src/components/EfficiencyCalculator.tsx:77-80 | a recipe is indexed under a name exactly when one of its materials has that name |
| RecipeGraph.ConsumersMembers | src/components/EfficiencyCalculator.tsx:76-81 | a recipe consumes `n` exactly when it is in the list and one of its materials is `n` |
| RecipeGraph.BuildIndex | src/components/EfficiencyCalculator.tsx:75-81 | the index maps every material name to its consumers, in recipe order, and holds no other key |
| ChainDiscovery.LinkedAppend | src/components/EfficiencyCalculator.tsx:92-95 | appending the sole consumer of the last output keeps the chain linked |
| ChainDiscovery.HasId | src/components/EfficiencyCalculator.tsx:94 | true exactly when some step has the id |
| ChainDiscovery.MaximalChainUnique | src/components/EfficiencyCalculator.tsx:88-98 | two maximal chains from one start are equal |
| ChainDiscovery.WalkProgress | src/components/EfficiencyCalculator.tsx:92-98 | each appended step shrinks the set of unused recipe ids, so the walk ends, and ids stay distinct |
| ChainDiscovery.WalkChain | src/components/EfficiencyCalculator.tsx:88-98 | the walk returns the maximal chain: each later step is the sole consumer of the previous output, no id repeats, and the last output has no fresh sole consumer |
| ChainDiscovery.ProbeIsSkippingRun | src/components/EfficiencyCalculator.tsx:106-117 | the probe's XP (×100) and inventory are those of the skipping run without bonus |
| ChainDiscovery.ProbeChain | src/components/EfficiencyCalculator.tsx:100-120 | base XP = start recipe XP + probe XP; the final output is the probe's stock of the last step's output |
| ChainDiscovery.MaxRequiredLevel | src/components/EfficiencyCalculator.tsx:127 | the result bounds every step's level and is one of them |
| ChainDiscovery.ChainStarts | src/components/EfficiencyCalculator.tsx:86-87 | a recipe is kept exactly when it has one material and that material is raw |
| ChainDiscovery.RawMaterials | src/components/EfficiencyCalculator.tsx:86 | exactly the materials no recipe outputs |
| ChainDiscovery.BuildChain | src/components/EfficiencyCalculator.tsx:88-130 | the recorded chain is valid: grown maximally from the start, base XP and final output from the probe, highest step level, XP per raw unit |
| ChainDiscovery.DiscoverChains | src/components/EfficiencyCalculator.tsx:73-134 | one valid chain per chain-starting recipe, in recipe order |
| Simulation.ApplyCraft | src/components/EfficiencyCalculator.tsx:218-219 | the inventory after consuming `c` batches of input and adding `c` batches of output |
| Simulation.SimulateStopping | src/components/EfficiencyCalculator.tsx:278-297 | the loop's steps and inventory are the stopping run's, and its total XP is the sum of the step XP |
| Simulation.SimulateSkipping | src/components/EfficiencyCalculator.tsx:200-220 | the loop's steps and inventory are the skipping run's, and its total XP is the sum of the step XP |
| Simulation.CraftBounds | src/components/EfficiencyCalculator.tsx:203 | `crafts·q ≤ available < (crafts+1)·q`; stock stays non-negative; less than one batch of input is left |
| Simulation.RunsStayNonNegative | src/components/EfficiencyCalculator.tsx:200-220 | both runs keep every stock non-negative, and every recorded step crafts at least once |
| Simulation.StoppingIsPrefixOfSkipping | src/components/EfficiencyCalculator.tsx:282 | the stopping run's steps are a prefix of the skipping run's steps |
| Simulation.RunsAgreeWithoutShortSteps | src/components/EfficiencyCalculator.tsx:204 | when no step is short of input, the two runs are the same |
| Simulation.SkippingShorter | src/components/EfficiencyCalculator.tsx:204 | a run has at most one step per recipe |
| Simulation.SumXpCons | src/components/EfficiencyCalculator.tsx:207 | total XP of a step list = first step's XP + rest |
| Simulation.SumXpAppend | src/components/EfficiencyCalculator.tsx:207 | total XP adds over concatenation |
| Inventory.Names | src/components/EfficiencyCalculator.tsx:102 | every entry's name is a key |
| Inventory.GetNonNegative | src/components/EfficiencyCalculator.tsx:110 | `get(...) \|\| 0` is non-negative on a non-negative table |
| Inventory.Put | src/components/EfficiencyCalculator.tsx:114-115 | the key reads the new value and every other key is unchanged |
| Inventory.Remove | src/components/EfficiencyCalculator.tsx:299-301 | exactly the entries with another name are kept, values unchanged |
| Inventory.PutNonNegative | src/components/EfficiencyCalculator.tsx:114-115 | storing a non-negative value keeps the table non-negative |
| Inventory.PutAppends | src/components/EfficiencyCalculator.tsx:114-115 | a new key is appended at the end |
| Inventory.PutInPlace | src/components/EfficiencyCalculator.tsx:114-115 | a present key is updated in place: the length and the name at every position are kept |
| Inventory.RemoveShape | src/components/EfficiencyCalculator.tsx:299-301 | the keys lose exactly the removed name |
| Inventory.PutNames | src/components/EfficiencyCalculator.tsx:114-115 | the keys gain exactly the stored name |
| Inventory.GetAbsent | src/components/EfficiencyCalculator.tsx:233 | a missing key reads 0 |
| Inventory.ValuePut | src/components/EfficiencyCalculator.tsx:193 | storing a value changes the priced total by price × change of quantity |
| Sorting.SortDescCorrect | src/components/EfficiencyCalculator.tsx:155 | the sort is descending by key, a permutation, and stable |
| Sorting.HeadIsMaximal | src/components/EfficiencyCalculator.tsx:271 | the first element has the greatest key |
| Sorting.SortDescMembers | src/components/EfficiencyCalculator.tsx:155 | the same elements as the input |
| Roadmap.ChooseChain | src/components/EfficiencyCalculator.tsx:158 | nothing exactly when every chain requires more than the level; otherwise a qualifying chain |
| Roadmap.ChosenIsFirstOfItsLevel | src/components/EfficiencyCalculator.tsx:158 | the chosen chain is the first of its required level |
| Roadmap.ChosenIsHighest | src/components/EfficiencyCalculator.tsx:158 | no qualifying chain has a higher required level |
| Roadmap.BestChainForLevel | src/components/EfficiencyCalculator.tsx:155-158 | on the unsorted chains: nothing exactly when none qualifies; otherwise the highest qualifying level, and the first chain of that level in discovery order |
| Roadmap.PartitionSkip | src/components/EfficiencyCalculator.tsx:159 | a level without a chain before any block leaves no blocks |
| Roadmap.PartitionOpen | src/components/EfficiencyCalculator.tsx:161-162 | opening a block for a new start material keeps the partition invariant |
| Roadmap.PartitionExtend | src/components/EfficiencyCalculator.tsx:163-164 | extending the last block keeps the partition invariant |
| Roadmap.PartitionLevels | src/components/EfficiencyCalculator.tsx:154-166 | blocks are ordered and contiguous up to the target; each level is in the block of its chosen chain's material; levels before the first block have no chain |
| Roadmap.RangeXpSplit | src/components/EfficiencyCalculator.tsx:174-182 | the XP of a level range splits at any point |
| Roadmap.BlockXp | src/components/EfficiencyCalculator.tsx:173-182 | the loop sums the rows of the block's levels, less the current XP on the current level |
| Roadmap.ChainsNeeded | src/components/EfficiencyCalculator.tsx:186-187 | the ceiling: enough runs, one fewer is not enough, and at least one for a positive need |
| Roadmap.ChainsNeededLeast | src/components/EfficiencyCalculator.tsx:187 | any sufficient number of runs is at least ChainsNeeded |
| Roadmap.PlanBlock | src/components/EfficiencyCalculator.tsx:184-196 | a block is planned exactly when it needs XP and its chain yields XP |
| Roadmap.PlannedBlockCoversXp | src/components/EfficiencyCalculator.tsx:186-220 | raw need = runs × start quantity, the runs are the ceiling, and the block's steps are the skipping run seeded with that raw need |
| Roadmap.TitledMarksFirstOnly | src/components/EfficiencyCalculator.tsx:215 | the corrected title rule: the block title is on the first step only, nothing else changes |
| Roadmap.AsWrittenAlternates | src/components/EfficiencyCalculator.tsx:215 | as written, steps at even positions of a block get the title and those at odd positions do not |
| Roadmap.ThreeStepBlockTitledTwice | src/components/EfficiencyCalculator.tsx:215 | a three-step block shows its title on step 3 as written, and not with the corrected rule |
| Roadmap.InputNames | src/components/EfficiencyCalculator.tsx:227 | exactly the input names of the steps |
| Roadmap.OutputNamesMembers | src/components/EfficiencyCalculator.tsx:226 | exactly the output names of the steps |
| Roadmap.LeftoversNames | src/components/EfficiencyCalculator.tsx:225-238 | the final products are the outputs that no step takes as input |
| Roadmap.LeftoversQuantities | src/components/EfficiencyCalculator.tsx:229 | each such product's quantity is the total the steps produce of it |
| Roadmap.IsInput | src/components/EfficiencyCalculator.tsx:227 | true exactly when some step takes the name as input |
| Roadmap.FinalProducts | src/components/EfficiencyCalculator.tsx:225-238 | the reduce yields the leftovers; its subtraction branch never fires |
| Roadmap.BaseMaterialsCost | src/components/EfficiencyCalculator.tsx:193-223 | the priced base materials equal the sum of every planned block's raw cost |
| Roadmap.BlocksXpSpan | src/components/EfficiencyCalculator.tsx:172-182 | the blocks' XP is the XP of the range they span |
| Roadmap.TitledXp | src/components/EfficiencyCalculator.tsx:215 | titling does not change XP |
| Roadmap.PlanOneBlock | src/components/EfficiencyCalculator.tsx:173-220 | the block's plan, and the XP its steps gain |
| Roadmap.PlanBlocks | src/components/EfficiencyCalculator.tsx:168-221 | the steps, base materials and total XP of all blocks in order |
| Roadmap.PartitionNeedsAllXp | src/components/EfficiencyCalculator.tsx:154-182 | the blocks together need the XP from the first served level to the level before the target |
| Roadmap.LevelPathReconciles | src/components/EfficiencyCalculator.tsx:223-255 | total XP = sum of step XP; cost = blocks' raw cost; final products as above; net cost = cost − product value |
| Roadmap.LevelMode | src/components/EfficiencyCalculator.tsx:143-257 | the error order; otherwise the blocks partition the levels and the result is the roadmap of those blocks |
| MaterialPlan.Matching | src/components/EfficiencyCalculator.tsx:265 | a chain is kept exactly when its start material matches up to case |
| MaterialPlan.BestChainHasMostSteps | src/components/EfficiencyCalculator.tsx:271 | the chosen chain has the most steps, and is the first such chain |
| MaterialPlan.MaterialPathReconciles | src/components/EfficiencyCalculator.tsx:273-305 | steps = the stopping run; every step crafts; products = the run's stock other than the seed; cost = seed price × quantity; net cost = cost − product value |
| MaterialPlan.SpellingMismatchCraftsNothing | src/components/EfficiencyCalculator.tsx:276 | seeded under another spelling than the chain's, the plan crafts nothing and gains no XP |
| MaterialPlan.ChainSpellingCraftsFirstStep | src/components/EfficiencyCalculator.tsx:276 | seeded under the chain's spelling, the first step crafts `floor(quantity / q)` times |
| MaterialPlan.MaterialMode | src/components/EfficiencyCalculator.tsx:259-318 | the error order; otherwise the plan of the chain with the most steps |
| LevelCalculator.BonusPercentage | src/components/Calculator.tsx:51-60 | the `+=` sum equals BonusPercent, between 0 and 70 |
| LevelCalculator.FirstMissing | src/components/Calculator.tsx:71-79 | a reported level is in the range and has no row |
| LevelCalculator.FirstMissingIsFirst | src/components/Calculator.tsx:71-79 | every level before the reported one has a row; with none reported, every level of the range has one |
| LevelCalculator.AccumulateXpNeeded | src/components/Calculator.tsx:69-80 | the loop yields the XP needed, or the first missing level |
| LevelCalculator.AgreesWithRoadmap | src/components/Calculator.tsx:69-80 | with all rows present, the XP needed equals the roadmap's XP from the current level to the level before the target |
| LevelCalculator.Scaled | src/components/Calculator.tsx:97-100 | the recipe's materials in order, each quantity × crafts |
| LevelCalculator.ScaledCost | src/components/Calculator.tsx:103-106 | the scaled materials cost crafts × one craft's materials |
| LevelCalculator.Calculate | src/components/Calculator.tsx:33-121 | the five errors in source order; the zero result for no XP need; otherwise the least sufficient crafts, the scaled materials, cost, revenue by the recipe name's price, and profit = revenue − cost |
| LevelCalculator.CraftsAreFewest | src/components/Calculator.tsx:96 | any sufficient number of crafts is at least the one computed |
| CraftingPage.Normalise | src/pages/CraftingPage.tsx:64-77 | the field-by-field update yields the normalised profession |
| CraftingPage.NormalisedCases | src/pages/CraftingPage.tsx:66-77 | a tabulated level takes its row's XP; otherwise a level at or above the last row takes the last row's XP; a level below 1 becomes 1 with the first row's XP; any other level is unchanged; id, name, current XP and recipes are always kept |
| CraftingPage.NormalisedLevelPositive | src/pages/CraftingPage.tsx:73-76 | for a table starting at level 1 or later, the saved level is at least 1 |
| CraftingPage.NormalisedMatchesTable | src/pages/CraftingPage.tsx:66-77 | for a table starting at level 1, a saved tabulated level carries its row's XP |
| CraftingPage.NormalisedIdempotent | src/pages/CraftingPage.tsx:64-77 | saving twice is saving once, for a table starting at level 1 or later |
| CraftingPage.ReplaceById | src/pages/CraftingPage.tsx:79-81 | same length; an entry is replaced exactly when its id is the saved one's |
| CraftingPage.ReplaceByIdUpdatesOne | src/pages/CraftingPage.tsx:79-81 | with unique ids, only the one position with the id changes |
| CraftingPage.ReplaceByIdAbsent | src/pages/CraftingPage.tsx:79-81 | an unknown id leaves the list unchanged |
| CraftingPage.Save | src/pages/CraftingPage.tsx:61-86 | nothing changes without an edit; otherwise the normalised profession replaces its id and becomes the selection |
| CraftingPage.Toggle | src/pages/CraftingPage.tsx:109-111 | choosing the selected id clears the selection; any other recipe becomes the selection |
| CraftingPage.ToggleTwiceClears | src/pages/CraftingPage.tsx:110 | choosing a new recipe twice ends with no selection |
| CraftingPage.Learned | src/pages/CraftingPage.tsx:115-117 | exactly the recipes of required level ≤ the level |
| CraftingPage.Unlearned | src/pages/CraftingPage.tsx:119-121 | exactly the recipes of required level > the level |
| CraftingPage.LearnedKeepsOrder | src/pages/CraftingPage.tsx:115-117 | the filter commutes with concatenation, so order is kept |
| CraftingPage.UnlearnedKeepsOrder | src/pages/CraftingPage.tsx:119-121 | the filter commutes with concatenation, so order is kept |
| CraftingPage.FiltersPartition | src/pages/CraftingPage.tsx:115-121 | the two lists together hold every recipe exactly as often as the recipe list |
| PriceSheet.Add | src/components/PriceModal.tsx:34-35 | `Set.add`: the items gain exactly the name and stay duplicate-free |
| PriceSheet.CollectItems | src/components/PriceModal.tsx:32-36 | the collected items are exactly the output and material names, each once |
| PriceSheet.LessIrreflexive | src/components/PriceModal.tsx:37 | no string sorts before itself |
| PriceSheet.LessTotal | src/components/PriceModal.tsx:37 | two different strings are ordered one way or the other |
| PriceSheet.LessTransitive | src/components/PriceModal.tsx:37 | string order is transitive |
| PriceSheet.SortCorrect | src/components/PriceModal.tsx:37 | the sort is ordered and a permutation |
| PriceSheet.StrictlyIncreasing | src/components/PriceModal.tsx:37 | a sorted duplicate-free list is strictly increasing |
| PriceSheet.NoDuplicatesPermutation | src/components/PriceModal.tsx:37 | sorting a duplicate-free list leaves it duplicate-free |
| PriceSheet.UniqueItems | src/components/PriceModal.tsx:31-38 | exactly the output and material names, in strictly increasing order, hence no duplicates |
| PriceSheet.SetPrice | src/components/PriceModal.tsx:40-45 | the item becomes a key and every other key keeps its price |
| PriceSheet.SetPriceReads | src/components/PriceModal.tsx:41-44 | the item reads the parsed price, or 0 for a non-number; every other item reads its old price |
| PriceSheet.SetPriceOverrides | src/components/PriceModal.tsx:40-45 | a later update of the same item overrides an earlier one |

## Left out

- React state, effects, dialogs and rendering. Results are return values, and errors are an `Error` datatype instead of message strings.
- Floating point. The bonus multiplier and XP are exact (hundredths), and `xpPerRawMaterial` is a `real`. Rounding artefacts of `0.1 + 0.1 + …` are not modelled.
- Efficiency.Calculate: the material-mode "no chain for this material" error and the level-mode roadmap are stated on `MaterialPlan.MaterialMode` and `Roadmap.LevelMode`, not restated on the entry point, because they depend on the discovered chains.
- Roadmap.PlanBlock: a block whose chain has no base XP is skipped. The source divides by zero there and gets `Infinity` runs of the chain.
- Lowercasing (`toLowerCase`) is a function parameter. `parseInt` is a given `Option<int>`: `None` stands for a non-number.
- The XP table and the recipe lists are parameters (`@/data/xpTable` and `@/data/professions` are not part of this model).
- Path titles and block titles are display strings. A block's title is a `Label(from, to)`, so titles of different blocks differ.
- JavaScript objects list integer-like keys before the other keys. The model keeps every key in insertion order, for `baseMaterials` and for level-mode `finalProducts`.
- PriceSheet.Less: compares characters as Dafny `char` values. JavaScript's default sort compares UTF-16 code units, which differs for characters outside the Basic Multilingual Plane.
- In material mode the source leaves `baseMaterials` undefined; the model returns an empty list. Level-mode `startingMaterial` is `("", 0)` as in the source.
- Prices read through `prices[name] || 0`. A name like `constructor` would find an inherited property of the object; the model reads only the given keys.
- LevelCalculator.Calculate: revenue uses the price of the recipe's `name`, as the source does, and not that of its output item.
- The `xpPercentage` progress bar, RecipeCard, the XP-table and bonus forms, and `handleFormChange` are presentation and are not modelled.
- Efficiency.Calculate and ChainDiscovery.DiscoverChains: a recipe whose first material has quantity 0 or less is excluded (so is a negative output quantity). The source divides by that quantity and gets `Infinity` or `NaN` crafts and `xpPerRawMaterial`. The other materials of a recipe may have any quantity.
- LevelCalculator.Calculate, CraftingPage.Save and CraftingPage.Normalised: the XP table is assumed non-empty with strictly increasing levels (`WellFormedTable`), as the shipped table is. The source needs only a non-empty table; a table with duplicate or unsorted levels is not modelled.
- Efficiency.Calculate and LevelCalculator.Calculate: integers are unbounded. The source's doubles lose precision only beyond 2^53, which the game's quantities do not reach.

## Findings

| source | as written | input that shows it | evidently intended | confidence | as-written member | corrected member |
|---|---|---|---|---|---|---|
| src/components/EfficiencyCalculator.tsx:215 | a step gets the block title when the previous step does not carry it, so within one block the title lands on steps 1, 3, 5, … | a level block whose chain has three steps that all craft: steps 1 and 3 show the title | the title on the first step of each block only | not executed; high | Roadmap.AsWrittenAlternates | Roadmap.TitledMarksFirstOnly |
| src/components/EfficiencyCalculator.tsx:265-276 | chains match the material up to case, but the run is seeded (and priced and filtered) under the user's spelling | material `iron ore` with a chain starting from `Iron Ore`: the first step finds 0 input, so no step is crafted and 0 XP is gained | seed the run with the matched chain's own material name | not executed; high | MaterialPlan.SpellingMismatchCraftsNothing | MaterialPlan.ChainSpellingCraftsFirstStep |

The rest of the model follows the corrections:

- level mode titles blocks with `Roadmap.Titled`;
- `MaterialPlan.MaterialMode` seeds, prices and filters under the chain's spelling.
