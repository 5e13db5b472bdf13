/** The price sheet: the list of items a price can be entered for, and the
    update of one item's price. */
module PriceSheet {
  import opened Types

  /** Every recipe output name and every material name, and nothing else. */
  ghost function ItemSet(rs: seq<Recipe>): set<string>
  {
    (set r | r in rs :: r.outputItemName) + (set r, m | r in rs && m in r.materials :: m.name)
  }

  /** The names one recipe adds: its output and its materials. */
  ghost function RecipeItems(r: Recipe): set<string>
  {
    {r.outputItemName} + MaterialNames(r.materials)
  }

  /** The names of a list of materials. */
  ghost function MaterialNames(ms: seq<Material>): set<string>
  {
    set m | m in ms :: m.name
  }

  lemma MaterialNamesSnoc(ms: seq<Material>, j: int)
    requires 0 <= j < |ms|
    ensures MaterialNames(ms[..j + 1]) == MaterialNames(ms[..j]) + {ms[j].name}
  {
    assert ms[..j + 1] == ms[..j] + [ms[j]];
  }

  lemma ItemSetSnoc(rs: seq<Recipe>, r: Recipe)
    ensures ItemSet(rs + [r]) == ItemSet(rs) + RecipeItems(r)
  {
    var rs' := rs + [r];
    assert forall x :: x in rs' <==> x in rs || x == r;
  }

  /** The items of a list, as a set. */
  function Elements(s: seq<string>): set<string>
  {
    set i | i in s
  }

  predicate NoDuplicates(s: seq<string>)
  {
    forall i, j :: 0 <= i < j < |s| ==> s[i] != s[j]
  }

  /** Adds `x` to an insertion-ordered set, as `Set.add` does. */
  function Add(items: seq<string>, x: string): (r: seq<string>)
    ensures NoDuplicates(items) ==> NoDuplicates(r)
    ensures Elements(r) == Elements(items) + {x}
  {
    if x in items then items else items + [x]
  }

  /** Lines 32-36: every output and material name of every recipe, each once,
      in the order they are first met. */
  method CollectItems(rs: seq<Recipe>) returns (items: seq<string>)
    ensures NoDuplicates(items)
    ensures Elements(items) == ItemSet(rs)
  {
    items := [];
    for k := 0 to |rs|
      invariant NoDuplicates(items)
      invariant Elements(items) == ItemSet(rs[..k])
    {
      var recipe := rs[k];
      items := Add(items, recipe.outputItemName);
      ghost var before := ItemSet(rs[..k]) + {recipe.outputItemName};
      assert recipe.materials[..0] == [];
      for j := 0 to |recipe.materials|
        invariant NoDuplicates(items)
        invariant Elements(items) == before + MaterialNames(recipe.materials[..j])
      {
        MaterialNamesSnoc(recipe.materials, j);
        items := Add(items, recipe.materials[j].name);
      }
      assert recipe.materials[..|recipe.materials|] == recipe.materials;
      assert rs[..k + 1] == rs[..k] + [recipe];
      ItemSetSnoc(rs[..k], recipe);
    }
    assert rs[..|rs|] == rs;
  }

  /** String order as JavaScript's default sort compares: by character,
      a proper prefix first. */
  predicate Less(a: string, b: string)
    decreases |a|
  {
    b != [] && (a == [] || a[0] < b[0] || (a[0] == b[0] && Less(a[1..], b[1..])))
  }

  lemma {:induction false} LessIrreflexive(a: string)
    ensures !Less(a, a)
  {
    if a != [] {
      LessIrreflexive(a[1..]);
    }
  }

  lemma {:induction false} LessTotal(a: string, b: string)
    ensures a == b || Less(a, b) || Less(b, a)
  {
    if a != [] && b != [] && a[0] == b[0] {
      LessTotal(a[1..], b[1..]);
      if a[1..] == b[1..] {
        assert a == [a[0]] + a[1..] && b == [b[0]] + b[1..];
      }
    }
  }

  lemma {:induction false} LessTransitive(a: string, b: string, c: string)
    requires Less(a, b) && Less(b, c)
    ensures Less(a, c)
  {
    if a != [] && a[0] == b[0] && b[0] == c[0] {
      LessTransitive(a[1..], b[1..], c[1..]);
    }
  }

  /** Non-decreasing in string order. */
  predicate Sorted(s: seq<string>)
  {
    forall i, j :: 0 <= i < j < |s| ==> !Less(s[j], s[i])
  }

  /** `x` placed before the first element not below it. */
  function Insert(s: seq<string>, x: string): seq<string>
  {
    if s == [] || !Less(s[0], x) then [x] + s else [s[0]] + Insert(s[1..], x)
  }

  lemma {:induction false} InsertMultiset(s: seq<string>, x: string)
    ensures multiset(Insert(s, x)) == multiset(s) + multiset{x}
  {
    if s != [] && Less(s[0], x) {
      InsertMultiset(s[1..], x);
      assert s == [s[0]] + s[1..];
    }
  }

  lemma {:induction false} InsertSorted(s: seq<string>, x: string)
    requires Sorted(s)
    ensures Sorted(Insert(s, x))
  {
    if s == [] {
    } else if !Less(s[0], x) {
      forall j | 0 <= j < |s| ensures !Less(s[j], x) {
        if Less(s[j], x) {
          LessTotal(s[0], s[j]);
          if s[0] != s[j] { LessTransitive(s[0], s[j], x); }
        }
      }
    } else {
      InsertSorted(s[1..], x);
      var r := Insert(s[1..], x);
      InsertMultiset(s[1..], x);
      forall j | 0 <= j < |r| ensures !Less(r[j], s[0]) {
        assert r[j] in multiset(r);
        if r[j] != x {
          assert r[j] in multiset(s[1..]);
          var k :| 0 <= k < |s[1..]| && s[1..][k] == r[j];
          assert s[k + 1] == r[j];
        } else if Less(x, s[0]) {
          LessTransitive(x, s[0], x);
          LessIrreflexive(x);
        }
      }
    }
  }

  /** `Array.prototype.sort` with its default order. */
  function Sort(s: seq<string>): seq<string>
  {
    if s == [] then [] else Insert(Sort(s[1..]), s[0])
  }

  /** Sorting orders the items and keeps exactly the same ones. */
  lemma {:induction false} SortCorrect(s: seq<string>)
    ensures Sorted(Sort(s))
    ensures multiset(Sort(s)) == multiset(s)
  {
    if s != [] {
      SortCorrect(s[1..]);
      InsertSorted(Sort(s[1..]), s[0]);
      InsertMultiset(Sort(s[1..]), s[0]);
      assert s == [s[0]] + s[1..];
    }
  }

  /** A sorted list without repeats is strictly increasing. */
  lemma StrictlyIncreasing(s: seq<string>)
    requires Sorted(s) && NoDuplicates(s)
    ensures forall i, j :: 0 <= i < j < |s| ==> Less(s[i], s[j])
  {
    forall i, j | 0 <= i < j < |s| ensures Less(s[i], s[j]) {
      LessTotal(s[i], s[j]);
    }
  }

  /** Elements that each occur once still do after a permutation. */
  lemma NoDuplicatesPermutation(s: seq<string>, r: seq<string>)
    requires NoDuplicates(s) && multiset(r) == multiset(s)
    ensures NoDuplicates(r)
  {
    forall i, j | 0 <= i < j < |r| ensures r[i] != r[j] {
      if r[i] == r[j] {
        OccursTwice(r, i, j);
        OccursOnce(s, r[i]);
        assert false;
      }
    }
  }

  lemma OccursTwice(r: seq<string>, i: int, j: int)
    requires 0 <= i < j < |r| && r[i] == r[j]
    ensures multiset(r)[r[i]] >= 2
  {
    assert r == r[..i] + [r[i]] + r[i + 1..j] + [r[j]] + r[j + 1..];
  }

  lemma {:induction false} OccursOnce(s: seq<string>, x: string)
    requires NoDuplicates(s)
    ensures multiset(s)[x] <= 1
  {
    if s != [] {
      assert s == [s[0]] + s[1..];
      OccursOnce(s[1..], x);
      if s[0] == x {
        assert x !in s[1..];
      }
    }
  }

  /** `uniqueItems` (lines 31-38): every output and material name exactly
      once, in strictly increasing string order. */
  method UniqueItems(rs: seq<Recipe>) returns (sorted: seq<string>)
    ensures Elements(sorted) == ItemSet(rs)
    ensures forall i, j :: 0 <= i < j < |sorted| ==> Less(sorted[i], sorted[j])
  {
    var items := CollectItems(rs);
    sorted := Sort(items);
    SortCorrect(items);
    NoDuplicatesPermutation(items, sorted);
    StrictlyIncreasing(sorted);
    assert forall x :: x in sorted <==> x in multiset(sorted);
    assert forall x :: x in items <==> x in multiset(items);
  }

  /** Lines 40-45: the item's price becomes the parsed input, or 0 when the
      input is not a number (`parsed` is None). */
  function SetPrice(prices: Prices, item: string, parsed: Option<int>): (r: Prices)
    ensures r.Keys == prices.Keys + {item}
    ensures forall k :: k in prices && k != item ==> r[k] == prices[k]
  {
    prices[item := match parsed case Some(v) => v case None => 0]
  }

  /** What the calculators read after an update: the new price for the item,
      0 for an input that is not a number, and the old price for every other
      item. */
  lemma SetPriceReads(prices: Prices, item: string, parsed: Option<int>, other: string)
    ensures PriceOf(SetPrice(prices, item, parsed), item) == if parsed.Some? then parsed.value else 0
    ensures other != item ==> PriceOf(SetPrice(prices, item, parsed), other) == PriceOf(prices, other)
  {
  }

  /** A later update of the same item overrides an earlier one. */
  lemma SetPriceOverrides(prices: Prices, item: string, a: Option<int>, b: Option<int>)
    ensures SetPrice(SetPrice(prices, item, a), item, b) == SetPrice(prices, item, b)
  {
  }
}
