/** The single-recipe leveling calculator: how many crafts of one recipe
    take a profession from its current level and XP to a target level, what
    their materials cost and what their products earn. */
module LevelCalculator {
  import opened Types
  import opened Arith
  import opened Bonus
  import opened XpTable
  import Roadmap

  datatype CalcResult = CalcResult(
    xpToGain: int,
    craftsNeeded: int,
    materials: seq<Material>,
    totalCost: int,
    totalRevenue: int,
    profit: int,
    totalBonusPercentage: int)

  /** Lines 51-60: 10 per boolean bonus switched on, plus 30, 10 or 10 for
      the craft, farm or exp premium. */
  method BonusPercentage(bonuses: Bonuses) returns (totalBonusPercentage: int)
    ensures totalBonusPercentage == BonusPercent(bonuses)
    ensures 0 <= totalBonusPercentage <= 70
  {
    totalBonusPercentage := 0;
    if bonuses.gathererTitle {
      totalBonusPercentage := totalBonusPercentage + 10;
    }
    if bonuses.eggStuffedPeppers {
      totalBonusPercentage := totalBonusPercentage + 10;
    }
    if bonuses.serverExpEvent {
      totalBonusPercentage := totalBonusPercentage + 10;
    }
    if bonuses.kingExpEvent {
      totalBonusPercentage := totalBonusPercentage + 10;
    }
    match bonuses.premium {
      case CraftPremium =>
        totalBonusPercentage := totalBonusPercentage + 30;
      case FarmPremium =>
        totalBonusPercentage := totalBonusPercentage + 10;
      case ExpPremium =>
        totalBonusPercentage := totalBonusPercentage + 10;
      case NoPremium =>
    }
  }

  /** The XP of the current level: its table row, or the profession's own
      `xpToNextLevel` when the table has none. */
  function XpForCurrentLevel(t: seq<XpRow>, profession: Profession): int
  {
    match FindRow(t, profession.level)
    case None => profession.xpToNextLevel
    case Some(row) => row.xp
  }

  /** The first level of `lo .. hi - 1` the table has no row for. */
  function FirstMissing(t: seq<XpRow>, lo: int, hi: int): (m: Option<int>)
    ensures m.Some? ==> lo <= m.value < hi && FindRow(t, m.value).None?
    decreases hi - lo
  {
    if hi <= lo then None
    else match FirstMissing(t, lo, hi - 1)
      case Some(i) => Some(i)
      case None => if FindRow(t, hi - 1).None? then Some(hi - 1) else None
  }

  /** FirstMissing finds the first gap: every level before it has a row, and
      when there is no gap every level of the range has one. */
  lemma {:induction false} FirstMissingIsFirst(t: seq<XpRow>, lo: int, hi: int)
    ensures var m := FirstMissing(t, lo, hi);
            forall i :: lo <= i < hi && (m.None? || i < m.value) ==> FindRow(t, i).Some?
    decreases hi - lo
  {
    if hi > lo {
      FirstMissingIsFirst(t, lo, hi - 1);
    }
  }

  /** The table XP of the levels `lo .. hi - 1`. */
  function SumRows(t: seq<XpRow>, lo: int, hi: int): int
    decreases hi - lo
  {
    if hi <= lo then 0
    else SumRows(t, lo, hi - 1) + match FindRow(t, hi - 1) case None => 0 case Some(row) => row.xp
  }

  /** Lines 69-80: the XP left in the current level plus the XP of every
      level up to the target, or the first level whose row is missing. */
  function XpNeeded(t: seq<XpRow>, profession: Profession, targetLevel: int): Result<int>
  {
    match FirstMissing(t, profession.level + 1, targetLevel)
    case Some(i) => Err(MissingXpRow(i))
    case None => Ok(XpForCurrentLevel(t, profession) - profession.currentXp
                    + SumRows(t, profession.level + 1, targetLevel))
  }

  /** Lines 69-80: accumulate the XP needed, level by level. */
  method AccumulateXpNeeded(t: seq<XpRow>, profession: Profession, targetLevel: int) returns (r: Result<int>)
    requires targetLevel > profession.level
    ensures r == XpNeeded(t, profession, targetLevel)
  {
    var xpForCurrentLevel := XpForCurrentLevel(t, profession);
    var xpNeeded := xpForCurrentLevel - profession.currentXp;
    for i := profession.level + 1 to targetLevel
      invariant FirstMissing(t, profession.level + 1, i) == None
      invariant xpNeeded == xpForCurrentLevel - profession.currentXp + SumRows(t, profession.level + 1, i)
    {
      var levelData := FindRow(t, i);
      if levelData.Some? {
        xpNeeded := xpNeeded + levelData.value.xp;
      } else {
        assert FirstMissing(t, profession.level + 1, i + 1) == Some(i);
        r := Err(MissingXpRow(i));
        FirstMissingStops(t, profession.level + 1, i + 1, targetLevel);
        return;
      }
    }
    r := Ok(xpNeeded);
  }

  /** A gap in a range is the first gap of every longer range. */
  lemma {:induction false} FirstMissingStops(t: seq<XpRow>, lo: int, mid: int, hi: int)
    requires mid <= hi && FirstMissing(t, lo, mid).Some?
    ensures FirstMissing(t, lo, hi) == FirstMissing(t, lo, mid)
    decreases hi - mid
  {
    if mid < hi {
      FirstMissingStops(t, lo, mid, hi - 1);
    }
  }

  /** When every level of the range has a row, the calculator's XP needed is
      the roadmap's XP for the levels from the current one to the one before
      the target: the two calculators agree. */
  lemma {:induction false} AgreesWithRoadmap(t: seq<XpRow>, profession: Profession, targetLevel: int)
    requires targetLevel > profession.level
    requires FindRow(t, profession.level).Some?
    requires FirstMissing(t, profession.level + 1, targetLevel).None?
    ensures XpNeeded(t, profession, targetLevel)
            == Ok(Roadmap.RangeXp(t, profession.level, targetLevel - 1, profession.level, profession.currentXp))
  {
    SumRowsIsRangeXp(t, profession, profession.level + 1, targetLevel - 1);
    Roadmap.RangeXpSplit(t, profession.level, profession.level, targetLevel - 1, profession.level, profession.currentXp);
  }

  lemma {:induction false} SumRowsIsRangeXp(t: seq<XpRow>, profession: Profession, lo: int, hi: int)
    requires lo > profession.level
    ensures SumRows(t, lo, hi + 1) == Roadmap.RangeXp(t, lo, hi, profession.level, profession.currentXp)
    decreases hi - lo
  {
    if hi >= lo {
      SumRowsIsRangeXp(t, profession, lo, hi - 1);
    }
  }

  /** The recipe's materials, in order, each multiplied by `crafts`. */
  function Scaled(ms: seq<Material>, crafts: int): (r: seq<Material>)
    ensures |r| == |ms|
    ensures forall i :: 0 <= i < |ms| ==> r[i] == Material(ms[i].name, ms[i].quantity * crafts)
  {
    if ms == [] then [] else [Material(ms[0].name, ms[0].quantity * crafts)] + Scaled(ms[1..], crafts)
  }

  /** The price of the materials: quantity times unit price, summed. */
  function MaterialsCost(ms: seq<Material>, prices: Prices): int
  {
    if ms == [] then 0 else ms[0].quantity * PriceOf(prices, ms[0].name) + MaterialsCost(ms[1..], prices)
  }

  /** Scaling the materials by the crafts scales their cost alike. */
  lemma {:induction false} ScaledCost(ms: seq<Material>, crafts: int, prices: Prices)
    ensures MaterialsCost(Scaled(ms, crafts), prices) == crafts * MaterialsCost(ms, prices)
  {
    if ms != [] {
      ScaledCost(ms[1..], crafts, prices);
      var q, p := ms[0].quantity, PriceOf(prices, ms[0].name);
      var rest := MaterialsCost(ms[1..], prices);
      assert Scaled(ms, crafts)[1..] == Scaled(ms[1..], crafts);
      assert MaterialsCost(Scaled(ms, crafts), prices) == q * crafts * p + crafts * rest;
      assert MaterialsCost(ms, prices) == q * p + rest;
      assert q * crafts * p == crafts * (q * p);
      assert crafts * (q * p + rest) == crafts * (q * p) + crafts * rest;
    }
  }

  /** `handleCalculate` (lines 33-121). The errors come in the order the
      source checks them: no recipe, a target not above the current level, a
      target above the highest reachable level, a recipe without XP, and a
      missing table row. A non-positive XP need gives the all-zero result.
      Otherwise the crafts are the least number whose bonused XP (kept in
      hundredths) covers the XP needed, the materials are the recipe's
      scaled by the crafts, and profit is revenue less cost. */
  method Calculate(selected: Option<Recipe>, profession: Profession, targetLevel: int, t: seq<XpRow>,
                   bonuses: Bonuses, prices: Prices) returns (r: Result<CalcResult>)
    requires WellFormedTable(t)
    ensures selected.None? ==> r == Err(NoRecipeSelected)
    ensures selected.Some? && targetLevel <= profession.level ==> r == Err(TargetNotAboveCurrent)
    ensures selected.Some? && targetLevel > profession.level && targetLevel > MaxLevel(t) + 1 ==>
              r == Err(TargetAboveMaximum(MaxLevel(t) + 1))
    ensures selected.Some? && profession.level < targetLevel <= MaxLevel(t) + 1 && selected.value.xp == 0 ==>
              r == Err(ZeroXpYield)
    ensures selected.Some? && profession.level < targetLevel <= MaxLevel(t) + 1 && selected.value.xp > 0 ==>
              match XpNeeded(t, profession, targetLevel)
              case Err(e) => r == Err(e)
              case Ok(xp) =>
                && r.Ok?
                && r.value.totalBonusPercentage == BonusPercent(bonuses)
                && (xp <= 0 ==> r.value == CalcResult(0, 0, [], 0, 0, 0, BonusPercent(bonuses)))
                && (xp > 0 ==>
                      var perCraft := selected.value.xp * (100 + BonusPercent(bonuses));
                      var n := r.value.craftsNeeded;
                      && r.value.xpToGain == xp
                      && n * perCraft >= 100 * xp && (n - 1) * perCraft < 100 * xp
                      && r.value.materials == Scaled(selected.value.materials, n)
                      && r.value.totalCost == n * MaterialsCost(selected.value.materials, prices)
                      && r.value.totalRevenue == n * PriceOf(prices, selected.value.name)
                      && r.value.profit == r.value.totalRevenue - r.value.totalCost)
  {
    if selected.None? {
      return Err(NoRecipeSelected);
    }
    var recipe := selected.value;
    if targetLevel <= profession.level {
      return Err(TargetNotAboveCurrent);
    }
    if targetLevel > t[|t| - 1].level + 1 {
      return Err(TargetAboveMaximum(t[|t| - 1].level + 1));
    }
    var totalBonusPercentage := BonusPercentage(bonuses);
    var xpPerCraftWithBonus := recipe.xp * (100 + totalBonusPercentage);
    if xpPerCraftWithBonus <= 0 {
      return Err(ZeroXpYield);
    }
    var needed := AccumulateXpNeeded(t, profession, targetLevel);
    if needed.Err? {
      return Err(needed.error);
    }
    var xpNeeded := needed.value;
    if xpNeeded <= 0 {
      return Ok(CalcResult(0, 0, [], 0, 0, 0, totalBonusPercentage));
    }
    var craftsNeeded := CeilDiv(100 * xpNeeded, xpPerCraftWithBonus);
    var totalMaterials := Scaled(recipe.materials, craftsNeeded);
    var totalCost := MaterialsCost(totalMaterials, prices);
    ScaledCost(recipe.materials, craftsNeeded, prices);
    var productPrice := PriceOf(prices, recipe.name);
    var totalRevenue := craftsNeeded * productPrice;
    var profit := totalRevenue - totalCost;
    r := Ok(CalcResult(xpNeeded, craftsNeeded, totalMaterials, totalCost, totalRevenue, profit,
                       totalBonusPercentage));
  }

  /** The crafts the calculator asks for are the fewest that suffice: any
      number of crafts whose bonused XP covers the XP needed is at least as
      many. */
  lemma CraftsAreFewest(xpNeeded: int, recipeXp: nat, pct: nat, m: int)
    requires recipeXp > 0 && m * (recipeXp * (100 + pct)) >= 100 * xpNeeded
    ensures CeilDiv(100 * xpNeeded, recipeXp * (100 + pct)) <= m
  {
    CeilDivLeast(100 * xpNeeded, recipeXp * (100 + pct), m);
  }
}
