/** The XP bonus model: 10 percent for each of four boolean bonuses, plus 30,
    10, 10 or 0 percent for the craft, farm, exp or no premium. */
module Bonus {
  import opened Types

  /** How many of the four boolean bonuses are switched on. */
  function FlagCount(b: Bonuses): (n: nat)
    ensures n <= 4
  {
    (if b.gathererTitle then 1 else 0) + (if b.eggStuffedPeppers then 1 else 0)
    + (if b.serverExpEvent then 1 else 0) + (if b.kingExpEvent then 1 else 0)
  }

  /** The percentage a premium adds. */
  function PremiumPercent(p: Premium): (pct: nat)
    ensures pct <= 30
    ensures pct == 30 <==> p == CraftPremium
    ensures pct == 0 <==> p == NoPremium
    ensures p == FarmPremium || p == ExpPremium ==> pct == 10
  {
    match p
    case NoPremium => 0
    case CraftPremium => 30
    case FarmPremium => 10
    case ExpPremium => 10
  }

  /** The whole bonus as an integer percentage; it lies in 0..70. */
  function BonusPercent(b: Bonuses): (pct: nat)
    ensures pct <= 70
    ensures pct % 10 == 0
  {
    10 * FlagCount(b) + PremiumPercent(b.premium)
  }

  /** The whole bonus as a fraction of the base XP; it lies in [0, 0.7]. */
  function BonusFraction(b: Bonuses): (f: real)
    ensures 0.0 <= f <= 0.7
  {
    (FlagCount(b) as real) / 10.0 + (PremiumPercent(b.premium) as real) / 100.0
  }

  /** The percentage and the fraction describe the same bonus. */
  lemma PercentIsHundredTimesFraction(b: Bonuses)
    ensures BonusPercent(b) as real == 100.0 * BonusFraction(b)
  {
  }
}
