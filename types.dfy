/** The records of the crafting calculator: materials, recipes, level-table
    rows, XP bonuses, professions and the error values its calculations report. */
module Types {

  datatype Option<+T> = None | Some(value: T)

  datatype Result<+T> = Ok(value: T) | Err(error: Error)

  /** The validation failures the calculators report to the user. */
  datatype Error =
    | NoRecipeSelected
    | TargetNotAboveCurrent
    | TargetAboveMaximum(maxLevel: int)
    | ZeroXpYield
    | MissingXpRow(level: int)
    | NoChains
    | InvalidMaterialOrQuantity
    | NoChainForMaterial(material: string)

  /** A named quantity of an item, as a recipe input. */
  datatype Material = Material(name: string, quantity: int)

  datatype Recipe = Recipe(
    id: string,
    name: string,
    outputItemName: string,
    requiredLevel: int,
    xp: nat,
    materials: seq<Material>,
    outputQuantity: int)

  /** The first input quantity, the one crafting divides by, is at least one
      and the output quantity is not negative; the other inputs may be any
      quantity. */
  predicate WellFormedRecipe(r: Recipe)
  {
    r.outputQuantity >= 0 && (|r.materials| > 0 ==> r.materials[0].quantity >= 1)
  }

  predicate WellFormedRecipes(rs: seq<Recipe>)
  {
    forall r :: r in rs ==> WellFormedRecipe(r)
  }

  datatype XpRow = XpRow(level: int, xp: int)

  datatype Premium = NoPremium | CraftPremium | FarmPremium | ExpPremium

  datatype Bonuses = Bonuses(
    gathererTitle: bool,
    premium: Premium,
    eggStuffedPeppers: bool,
    serverExpEvent: bool,
    kingExpEvent: bool)

  datatype Profession = Profession(
    id: string,
    name: string,
    level: int,
    currentXp: int,
    xpToNextLevel: int,
    recipes: seq<Recipe>)

  /** Unit prices by item name; a missing name costs 0. */
  type Prices = map<string, int>

  function PriceOf(prices: Prices, name: string): int
  {
    if name in prices then prices[name] else 0
  }
}
