/** Running a chain of single-input recipes forward over an inventory with
    floor-division crafting: each step crafts as many whole batches as its
    first material allows. The roadmap planner skips a step that can craft
    nothing and goes on; the material planner stops there. */
module Simulation {
  import opened Types
  import opened Inventory
  import opened Arith

  /** The level range a step was planned for. */
  datatype Label = Label(from: int, to: int)

  /** One simulated step; XP is kept in hundredths, since the bonus
      multiplier is (100 + pct) / 100. */
  datatype Step = Step(
    recipeName: string,
    crafts: int,
    xpHundredths: int,
    input: Entry,
    output: Entry,
    title: Option<Label>)

  /** A recipe the simulation can run: it names a first material whose
      quantity, the divisor of a craft, is positive, and its output quantity
      is not negative. */
  predicate Runnable(r: Recipe)
  {
    |r.materials| >= 1 && r.materials[0].quantity >= 1 && r.outputQuantity >= 0
  }

  predicate AllRunnable(rs: seq<Recipe>)
  {
    forall i :: 0 <= i < |rs| ==> Runnable(rs[i])
  }

  datatype Run = Run(steps: seq<Step>, inv: seq<Entry>)

  /** `Math.floor(available / needed)` for the recipe's first material. */
  function Crafts(inv: seq<Entry>, r: Recipe): int
    requires Runnable(r)
  {
    Get(inv, r.materials[0].name) / r.materials[0].quantity
  }

  /** The inventory after crafting `c` batches: the input is decremented first,
      then the output is read and incremented. */
  function AfterCraft(inv: seq<Entry>, r: Recipe, c: int): seq<Entry>
    requires Runnable(r)
  {
    var m := r.materials[0];
    var inv1 := Put(inv, m.name, Get(inv, m.name) - c * m.quantity);
    Put(inv1, r.outputItemName, Get(inv1, r.outputItemName) + c * r.outputQuantity)
  }

  function StepOf(r: Recipe, c: int, pct: int): Step
    requires Runnable(r)
  {
    Step(r.name, c, c * r.xp * (100 + pct),
         Entry(r.materials[0].name, c * r.materials[0].quantity),
         Entry(r.outputItemName, c * r.outputQuantity), None)
  }

  /** The material planner's run: stop at the first step that crafts nothing. */
  function RunStopping(rs: seq<Recipe>, inv: seq<Entry>, pct: int): Run
    requires AllRunnable(rs)
  {
    if rs == [] then Run([], inv)
    else
      var c := Crafts(inv, rs[0]);
      if c == 0 then Run([], inv)
      else
        var rest := RunStopping(rs[1..], AfterCraft(inv, rs[0], c), pct);
        Run([StepOf(rs[0], c, pct)] + rest.steps, rest.inv)
  }

  /** The roadmap planner's run: skip a step that crafts nothing. */
  function RunSkipping(rs: seq<Recipe>, inv: seq<Entry>, pct: int): Run
    requires AllRunnable(rs)
  {
    if rs == [] then Run([], inv)
    else
      var c := Crafts(inv, rs[0]);
      if c == 0 then RunSkipping(rs[1..], inv, pct)
      else
        var rest := RunSkipping(rs[1..], AfterCraft(inv, rs[0], c), pct);
        Run([StepOf(rs[0], c, pct)] + rest.steps, rest.inv)
  }

  /** The XP of a list of steps, in hundredths. */
  function SumXp(steps: seq<Step>): int
  {
    if steps == [] then 0 else SumXp(steps[..|steps| - 1]) + steps[|steps| - 1].xpHundredths
  }

  /** The run `r` after the steps `pre`. */
  function Prepend(pre: seq<Step>, r: Run): Run
  {
    Run(pre + r.steps, r.inv)
  }

  lemma PrependTwice(pre: seq<Step>, s: Step, r: Run)
    ensures Prepend(pre, Run([s] + r.steps, r.inv)) == Prepend(pre + [s], r)
  {
    assert pre + ([s] + r.steps) == (pre + [s]) + r.steps;
  }

  /** One step of RunStopping when the step crafts something. */
  lemma StoppingUnfold(rs: seq<Recipe>, inv: seq<Entry>, pct: int)
    requires AllRunnable(rs) && rs != [] && Crafts(inv, rs[0]) != 0
    ensures var c := Crafts(inv, rs[0]);
            var rest := RunStopping(rs[1..], AfterCraft(inv, rs[0], c), pct);
            RunStopping(rs, inv, pct) == Run([StepOf(rs[0], c, pct)] + rest.steps, rest.inv)
  {
  }

  /** One step of RunSkipping when the step crafts something. */
  lemma SkippingUnfold(rs: seq<Recipe>, inv: seq<Entry>, pct: int)
    requires AllRunnable(rs) && rs != [] && Crafts(inv, rs[0]) != 0
    ensures var c := Crafts(inv, rs[0]);
            var rest := RunSkipping(rs[1..], AfterCraft(inv, rs[0], c), pct);
            RunSkipping(rs, inv, pct) == Run([StepOf(rs[0], c, pct)] + rest.steps, rest.inv)
  {
  }

  /** The loop step of SimulateStopping: a step that crafts moves to the
      next recipe with the step recorded. */
  lemma StoppingStep(rs: seq<Recipe>, i: int, start: seq<Entry>, inv: seq<Entry>, steps: seq<Step>, pct: int)
    requires AllRunnable(rs) && 0 <= i < |rs| && Crafts(inv, rs[i]) != 0
    requires RunStopping(rs, start, pct) == Prepend(steps, RunStopping(rs[i..], inv, pct))
    ensures var c := Crafts(inv, rs[i]);
            RunStopping(rs, start, pct)
            == Prepend(steps + [StepOf(rs[i], c, pct)], RunStopping(rs[i + 1..], AfterCraft(inv, rs[i], c), pct))
  {
    var c := Crafts(inv, rs[i]);
    assert rs[i..][0] == rs[i] && rs[i..][1..] == rs[i + 1..];
    StoppingUnfold(rs[i..], inv, pct);
    PrependTwice(steps, StepOf(rs[i], c, pct), RunStopping(rs[i + 1..], AfterCraft(inv, rs[i], c), pct));
  }

  /** The loop step of SimulateSkipping for a step that crafts. */
  lemma SkippingStep(rs: seq<Recipe>, i: int, start: seq<Entry>, inv: seq<Entry>, steps: seq<Step>, pct: int)
    requires AllRunnable(rs) && 0 <= i < |rs| && Crafts(inv, rs[i]) != 0
    requires RunSkipping(rs, start, pct) == Prepend(steps, RunSkipping(rs[i..], inv, pct))
    ensures var c := Crafts(inv, rs[i]);
            RunSkipping(rs, start, pct)
            == Prepend(steps + [StepOf(rs[i], c, pct)], RunSkipping(rs[i + 1..], AfterCraft(inv, rs[i], c), pct))
  {
    var c := Crafts(inv, rs[i]);
    assert rs[i..][0] == rs[i] && rs[i..][1..] == rs[i + 1..];
    SkippingUnfold(rs[i..], inv, pct);
    PrependTwice(steps, StepOf(rs[i], c, pct), RunSkipping(rs[i + 1..], AfterCraft(inv, rs[i], c), pct));
  }

  /** The loop exit of SimulateStopping: a step that crafts nothing ends
      the run. */
  lemma StoppingDone(rs: seq<Recipe>, i: int, start: seq<Entry>, inv: seq<Entry>, steps: seq<Step>, pct: int)
    requires AllRunnable(rs) && 0 <= i < |rs| && Crafts(inv, rs[i]) == 0
    requires RunStopping(rs, start, pct) == Prepend(steps, RunStopping(rs[i..], inv, pct))
    ensures RunStopping(rs, start, pct) == Run(steps, inv)
  {
    assert rs[i..][0] == rs[i];
    assert RunStopping(rs[i..], inv, pct) == Run([], inv);
    assert steps + [] == steps;
  }

  /** SimulateSkipping passes over a step that crafts nothing. */
  lemma SkippingSkip(rs: seq<Recipe>, i: int, start: seq<Entry>, inv: seq<Entry>, steps: seq<Step>, pct: int)
    requires AllRunnable(rs) && 0 <= i < |rs| && Crafts(inv, rs[i]) == 0
    requires RunSkipping(rs, start, pct) == Prepend(steps, RunSkipping(rs[i..], inv, pct))
    ensures RunSkipping(rs, start, pct) == Prepend(steps, RunSkipping(rs[i + 1..], inv, pct))
  {
    assert rs[i..][0] == rs[i] && rs[i..][1..] == rs[i + 1..];
  }

  lemma SumXpSnoc(steps: seq<Step>, s: Step)
    ensures SumXp(steps + [s]) == SumXp(steps) + s.xpHundredths
  {
    assert (steps + [s])[..|steps|] == steps;
  }

  /** Takes `c` batches of the first material out of the inventory and puts
      their output in. */
  method ApplyCraft(inv: seq<Entry>, r: Recipe, c: int) returns (inv': seq<Entry>)
    requires Runnable(r)
    ensures inv' == AfterCraft(inv, r, c)
  {
    var inputMat := r.materials[0];
    var inputAvailable := Get(inv, inputMat.name);
    inv' := Put(inv, inputMat.name, inputAvailable - c * inputMat.quantity);
    var outputAvailable := Get(inv', r.outputItemName);
    inv' := Put(inv', r.outputItemName, outputAvailable + c * r.outputQuantity);
    assert inv' == AfterCraft(inv, r, c) by {
      assert r.materials[0] == inputMat;
    }
  }

  /** The material-mode loop (`break` on zero crafts), returning the steps,
      the inventory and the XP gained. */
  method SimulateStopping(rs: seq<Recipe>, start: seq<Entry>, pct: int)
    returns (steps: seq<Step>, inv: seq<Entry>, totalXp: int)
    requires AllRunnable(rs)
    ensures Run(steps, inv) == RunStopping(rs, start, pct)
    ensures totalXp == SumXp(steps)
  {
    steps, inv, totalXp := [], start, 0;
    var i := 0;
    assert rs[i..] == rs;
    while i < |rs|
      invariant 0 <= i <= |rs|
      invariant RunStopping(rs, start, pct) == Prepend(steps, RunStopping(rs[i..], inv, pct))
      invariant totalXp == SumXp(steps)
    {
      var recipe := rs[i];
      var inputMat := recipe.materials[0];
      var inputAvailable := Get(inv, inputMat.name);
      var crafts := inputAvailable / inputMat.quantity;
      assert crafts == Crafts(inv, recipe);
      if crafts == 0 {
        StoppingDone(rs, i, start, inv, steps, pct);
        break;
      }
      var xpGained := crafts * recipe.xp * (100 + pct);
      totalXp := totalXp + xpGained;
      var step := Step(recipe.name, crafts, xpGained,
                       Entry(inputMat.name, crafts * inputMat.quantity),
                       Entry(recipe.outputItemName, crafts * recipe.outputQuantity), None);
      assert step == StepOf(recipe, crafts, pct);
      SumXpSnoc(steps, step);
      StoppingStep(rs, i, start, inv, steps, pct);
      steps := steps + [step];
      inv := ApplyCraft(inv, recipe, crafts);
      i := i + 1;
    }
  }

  /** The roadmap loop (`continue` on zero crafts). */
  method SimulateSkipping(rs: seq<Recipe>, start: seq<Entry>, pct: int)
    returns (steps: seq<Step>, inv: seq<Entry>, totalXp: int)
    requires AllRunnable(rs)
    ensures Run(steps, inv) == RunSkipping(rs, start, pct)
    ensures totalXp == SumXp(steps)
  {
    steps, inv, totalXp := [], start, 0;
    var i := 0;
    assert rs[i..] == rs;
    while i < |rs|
      invariant 0 <= i <= |rs|
      invariant RunSkipping(rs, start, pct) == Prepend(steps, RunSkipping(rs[i..], inv, pct))
      invariant totalXp == SumXp(steps)
    {
      var recipe := rs[i];
      var inputMat := recipe.materials[0];
      var inputAvailable := Get(inv, inputMat.name);
      var crafts := inputAvailable / inputMat.quantity;
      assert crafts == Crafts(inv, recipe);
      if crafts == 0 {
        SkippingSkip(rs, i, start, inv, steps, pct);
        i := i + 1;
        continue;
      }
      var xpGained := crafts * recipe.xp * (100 + pct);
      totalXp := totalXp + xpGained;
      var step := Step(recipe.name, crafts, xpGained,
                       Entry(inputMat.name, crafts * inputMat.quantity),
                       Entry(recipe.outputItemName, crafts * recipe.outputQuantity), None);
      assert step == StepOf(recipe, crafts, pct);
      SumXpSnoc(steps, step);
      SkippingStep(rs, i, start, inv, steps, pct);
      steps := steps + [step];
      inv := ApplyCraft(inv, recipe, crafts);
      i := i + 1;
    }
  }

  /** Floor-division crafting: the batches crafted use at most what is
      available, one more batch would not fit, what is left of the input is
      less than one batch (unless the step outputs its own input), and no
      quantity becomes negative. */
  lemma {:induction false} CraftBounds(inv: seq<Entry>, r: Recipe)
    requires Runnable(r) && NonNegative(inv)
    ensures var c := Crafts(inv, r);
            var m := r.materials[0];
            && c >= 0
            && c * m.quantity <= Get(inv, m.name) < (c + 1) * m.quantity
            && NonNegative(AfterCraft(inv, r, c))
            && (r.outputItemName != m.name ==> 0 <= Get(AfterCraft(inv, r, c), m.name) < m.quantity)
  {
    var c := Crafts(inv, r);
    var m := r.materials[0];
    var avail := Get(inv, m.name);
    GetNonNegative(inv, m.name);
    FloorBounds(avail, m.quantity);
    var left := avail - c * m.quantity;
    assert 0 <= left < m.quantity;
    var inv1 := Put(inv, m.name, left);
    PutNonNegative(inv, m.name, left);
    var made := c * r.outputQuantity;
    assert made >= 0;
    var out := Get(inv1, r.outputItemName) + made;
    GetNonNegative(inv1, r.outputItemName);
    PutNonNegative(inv1, r.outputItemName, out);
    assert AfterCraft(inv, r, c) == Put(inv1, r.outputItemName, out);
    assert Get(inv1, m.name) == left;
  }

  /** Both runs keep every inventory quantity non-negative and emit only steps
      that craft at least once. */
  lemma {:induction false} RunsStayNonNegative(rs: seq<Recipe>, inv: seq<Entry>, pct: int)
    requires AllRunnable(rs) && NonNegative(inv)
    ensures NonNegative(RunStopping(rs, inv, pct).inv)
    ensures NonNegative(RunSkipping(rs, inv, pct).inv)
    ensures forall s :: s in RunStopping(rs, inv, pct).steps ==> s.crafts >= 1
    ensures forall s :: s in RunSkipping(rs, inv, pct).steps ==> s.crafts >= 1
  {
    if rs != [] {
      var c := Crafts(inv, rs[0]);
      CraftBounds(inv, rs[0]);
      RunsStayNonNegative(rs[1..], inv, pct);
      if c != 0 {
        RunsStayNonNegative(rs[1..], AfterCraft(inv, rs[0], c), pct);
        StoppingUnfold(rs, inv, pct);
        SkippingUnfold(rs, inv, pct);
      }
    }
  }

  /** The material planner's stopping run is a prefix of the roadmap's
      skipping run: the two agree up to the first step that crafts nothing,
      where one stops and the other carries on. */
  lemma {:induction false} StoppingIsPrefixOfSkipping(rs: seq<Recipe>, inv: seq<Entry>, pct: int)
    requires AllRunnable(rs)
    ensures var stop := RunStopping(rs, inv, pct).steps;
            var skip := RunSkipping(rs, inv, pct).steps;
            |stop| <= |skip| && skip[..|stop|] == stop
  {
    if rs != [] {
      var c := Crafts(inv, rs[0]);
      if c != 0 {
        var next := AfterCraft(inv, rs[0], c);
        StoppingIsPrefixOfSkipping(rs[1..], next, pct);
        StoppingUnfold(rs, inv, pct);
        SkippingUnfold(rs, inv, pct);
        var s0 := StepOf(rs[0], c, pct);
        var stop := RunStopping(rs[1..], next, pct).steps;
        var skip := RunSkipping(rs[1..], next, pct).steps;
        assert ([s0] + skip)[..|stop| + 1] == [s0] + skip[..|stop|];
      }
    }
  }

  /** When no step of the run is short of input the two runs coincide. */
  lemma {:induction false} RunsAgreeWithoutShortSteps(rs: seq<Recipe>, inv: seq<Entry>, pct: int)
    requires AllRunnable(rs)
    requires |RunSkipping(rs, inv, pct).steps| == |rs|
    ensures RunStopping(rs, inv, pct) == RunSkipping(rs, inv, pct)
  {
    if rs != [] {
      var c := Crafts(inv, rs[0]);
      if c == 0 {
        SkippingShorter(rs[1..], inv, pct);
        assert false;
      } else {
        RunsAgreeWithoutShortSteps(rs[1..], AfterCraft(inv, rs[0], c), pct);
        StoppingUnfold(rs, inv, pct);
        SkippingUnfold(rs, inv, pct);
      }
    }
  }

  /** A run emits at most one step per recipe. */
  lemma {:induction false} SkippingShorter(rs: seq<Recipe>, inv: seq<Entry>, pct: int)
    requires AllRunnable(rs)
    ensures |RunSkipping(rs, inv, pct).steps| <= |rs|
  {
    if rs != [] {
      var c := Crafts(inv, rs[0]);
      if c == 0 {
        SkippingShorter(rs[1..], inv, pct);
      } else {
        SkippingShorter(rs[1..], AfterCraft(inv, rs[0], c), pct);
        SkippingUnfold(rs, inv, pct);
      }
    }
  }

  lemma {:induction false} SumXpCons(s: Step, t: seq<Step>)
    ensures SumXp([s] + t) == s.xpHundredths + SumXp(t)
  {
    if t != [] {
      var init := t[..|t| - 1];
      SumXpCons(s, init);
      assert ([s] + t)[..|[s] + t| - 1] == [s] + init;
    }
  }

  /** The XP of two step lists one after the other is the sum of their XP. */
  lemma {:induction false} SumXpAppend(a: seq<Step>, b: seq<Step>)
    ensures SumXp(a + b) == SumXp(a) + SumXp(b)
  {
    if b != [] {
      var init := b[..|b| - 1];
      SumXpAppend(a, init);
      assert (a + b)[..|a + b| - 1] == a + init;
    } else {
      assert a + b == a;
    }
  }

  /** A calculated path, as shown to the user: XP in hundredths, the cost of
      what is bought, the steps, what is left over and the net cost. */
  datatype Path = Path(
    isLevelingPath: bool,
    totalXpHundredths: int,
    totalCost: int,
    startingMaterial: Entry,
    baseMaterials: seq<Entry>,
    steps: seq<Step>,
    finalProducts: seq<Entry>,
    finalProductValue: int,
    netCost: int)
}
