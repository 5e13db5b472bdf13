/** The efficiency calculator's entry point: the XP bonus, chain discovery
    over the profession's recipes, and the level-mode or material-mode plan
    of the selected tab. */
module Efficiency {
  import opened Types
  import opened Bonus
  import opened Simulation
  import opened ChainDiscovery
  import opened Roadmap
  import opened MaterialPlan

  /** `calculateTotalBonus` (lines 52-71): 0.10 per boolean bonus switched
      on, plus 0.30 for the craft premium and 0.10 for the farm or exp
      premium. */
  method TotalBonus(bonuses: Bonuses) returns (total: real)
    ensures total == BonusFraction(bonuses)
  {
    total := 0.0;
    if bonuses.gathererTitle {
      total := total + 0.10;
    }
    if bonuses.eggStuffedPeppers {
      total := total + 0.10;
    }
    if bonuses.serverExpEvent {
      total := total + 0.10;
    }
    if bonuses.kingExpEvent {
      total := total + 0.10;
    }
    match bonuses.premium {
      case CraftPremium =>
        total := total + 0.30;
      case FarmPremium =>
        total := total + 0.10;
      case ExpPremium =>
        total := total + 0.10;
      case NoPremium =>
    }
  }

  /** The calculator's two tabs: level up to a target, or craft up a given
      quantity of one raw material. */
  datatype Mode = ByLevel | ByMaterial

  /** A discovered chain can be planned in either mode. */
  lemma ValidChainUsable(rs: seq<Recipe>, c: Chain)
    requires ValidChain(rs, c)
    ensures Plannable(c) && Seeded(c)
  {
  }

  /** `handleCalculate` (lines 136-319): the bonus multiplier `1 + total` is
      carried as the whole percentage `pct`, so that XP stays exact in
      hundredths. In level mode the errors come first for a missing target
      or one not above the current level and then for a profession without
      chains; material mode rejects a blank material or a non-positive
      quantity before it looks for chains. */
  method Calculate(mode: Mode, profession: Profession, prices: Prices, bonuses: Bonuses, targetLevel: int,
                   material: string, quantity: int, t: seq<XpRow>, lower: string -> string)
    returns (r: Result<Path>)
    requires WellFormedRecipes(profession.recipes)
    ensures mode == ByLevel && (targetLevel == 0 || targetLevel <= profession.level) ==>
              r == Err(TargetNotAboveCurrent)
    ensures (mode == ByLevel && targetLevel != 0 && targetLevel > profession.level &&
             ChainStarts(profession.recipes, profession.recipes) == []) ==> r == Err(NoChains)
    ensures mode == ByMaterial && (material == "" || quantity <= 0) ==> r == Err(InvalidMaterialOrQuantity)
    ensures r.Ok? ==> r.value.isLevelingPath == (mode == ByLevel)
    ensures r.Ok? ==> r.value.netCost == r.value.totalCost - r.value.finalProductValue
  {
    var total := TotalBonus(bonuses);
    var xpMultiplier := 1.0 + total;
    var pct := BonusPercent(bonuses);
    PercentIsHundredTimesFraction(bonuses);
    assert xpMultiplier == (100 + pct) as real / 100.0;
    var chains := DiscoverChains(profession.recipes);
    forall i | 0 <= i < |chains| ensures Plannable(chains[i]) && Seeded(chains[i]) {
      ValidChainUsable(profession.recipes, chains[i]);
    }
    if mode == ByLevel {
      ghost var blocks;
      r, blocks := LevelMode(chains, profession, targetLevel, t, pct, prices);
    } else {
      r := MaterialMode(chains, material, quantity, lower, pct, prices);
    }
  }
}
