/** The recipe graph: which recipes consume a material, and which items some
    recipe produces. */
module RecipeGraph {
  import opened Types

  /** The names some recipe outputs ("craftable items"). */
  function Craftable(rs: seq<Recipe>): (c: set<string>)
    ensures forall r :: r in rs ==> r.outputItemName in c
    ensures forall x :: x in c ==> exists r :: r in rs && r.outputItemName == x
  {
    set r | r in rs :: r.outputItemName
  }

  /** How many of the material entries `ms` are named `n`. */
  function CountUses(ms: seq<Material>, n: string): nat
  {
    if ms == [] then 0
    else CountUses(ms[..|ms| - 1], n) + (if ms[|ms| - 1].name == n then 1 else 0)
  }

  /** `k` copies of `r`. */
  function Repeat(r: Recipe, k: nat): (s: seq<Recipe>)
    ensures |s| == k
    ensures forall x :: x in s ==> x == r
  {
    if k == 0 then [] else Repeat(r, k - 1) + [r]
  }

  /** The recipes consuming `n`, in recipe-list order, a recipe once for each
      of its material entries named `n`. */
  function Consumers(rs: seq<Recipe>, n: string): seq<Recipe>
  {
    if rs == [] then []
    else
      var last := rs[|rs| - 1];
      Consumers(rs[..|rs| - 1], n) + Repeat(last, CountUses(last.materials, n))
  }

  /** The index maps a name to its consumers and holds no empty list, so a
      missing key and an empty list never need to be told apart. */
  ghost predicate IsIndex(rs: seq<Recipe>, idx: map<string, seq<Recipe>>)
  {
    (forall n :: n in idx ==> idx[n] == Consumers(rs, n) && idx[n] != [])
    && (forall n :: n !in idx ==> Consumers(rs, n) == [])
  }

  /** `recipesByInput.get(n) || []`. */
  function Lookup(idx: map<string, seq<Recipe>>, n: string): seq<Recipe>
  {
    if n in idx then idx[n] else []
  }

  lemma {:induction false} CountUsesPositive(ms: seq<Material>, n: string)
    ensures CountUses(ms, n) > 0 <==> exists m :: m in ms && m.name == n
  {
    if ms != [] {
      var init := ms[..|ms| - 1];
      CountUsesPositive(init, n);
      assert ms == init + [ms[|ms| - 1]];
      forall m | m in ms ensures m in init || m == ms[|ms| - 1] { }
    }
  }

  /** Exactly the recipes of the list that name `n` among their materials
      consume `n`. */
  lemma {:induction false} ConsumersMembers(rs: seq<Recipe>, n: string, r: Recipe)
    ensures r in Consumers(rs, n) <==> r in rs && exists m :: m in r.materials && m.name == n
  {
    if rs != [] {
      var last := rs[|rs| - 1];
      var init := rs[..|rs| - 1];
      ConsumersMembers(init, n, r);
      CountUsesPositive(last.materials, n);
      assert rs == init + [last];
      assert r in rs <==> r in init || r == last;
      if r == last && CountUses(last.materials, n) > 0 {
        var rep := Repeat(last, CountUses(last.materials, n));
        assert rep[0] in rep;
      }
    }
  }

  /** Appending `r` to the list of its `j`-th material counts that entry. */
  lemma IndexStep(idx: map<string, seq<Recipe>>, prefix: seq<Recipe>, r: Recipe, j: nat)
    requires j < |r.materials|
    requires forall n :: Lookup(idx, n) == Consumers(prefix, n) + Repeat(r, CountUses(r.materials[..j], n))
    ensures var k := r.materials[j].name;
            forall n :: Lookup(idx[k := Lookup(idx, k) + [r]], n)
                        == Consumers(prefix, n) + Repeat(r, CountUses(r.materials[..j + 1], n))
  {
    var k := r.materials[j].name;
    var idx' := idx[k := Lookup(idx, k) + [r]];
    assert r.materials[..j + 1][..j] == r.materials[..j];
    forall n
      ensures Lookup(idx', n) == Consumers(prefix, n) + Repeat(r, CountUses(r.materials[..j + 1], n))
    {
      var c := CountUses(r.materials[..j], n);
      if n == k {
        assert CountUses(r.materials[..j + 1], n) == c + 1;
        assert Repeat(r, c + 1) == Repeat(r, c) + [r];
        Associative(Consumers(prefix, n), Repeat(r, c), [r]);
      } else {
        assert CountUses(r.materials[..j + 1], n) == c;
      }
    }
  }

  /** Regrouping a concatenation, as a separate fact so that the proofs
      using it do not search for it among the index's own facts. */
  lemma Associative(a: seq<Recipe>, b: seq<Recipe>, c: seq<Recipe>)
    ensures (a + b) + c == a + (b + c)
  {
  }

  /** `recipesByInput`: for each recipe in order, each of its material
      entries appends the recipe to that material's list. */
  method BuildIndex(rs: seq<Recipe>) returns (idx: map<string, seq<Recipe>>)
    ensures IsIndex(rs, idx)
  {
    idx := map[];
    var i := 0;
    while i < |rs|
      invariant 0 <= i <= |rs|
      invariant forall n :: Lookup(idx, n) == Consumers(rs[..i], n)
      invariant forall n :: n in idx ==> idx[n] != []
    {
      idx := IndexRecipe(idx, rs[..i], rs[i]);
      ConsumersSnoc(rs, i);
      i := i + 1;
    }
    assert rs[..i] == rs;
  }

  /** The body of the outer loop: file one recipe under each of its
      material entries. */
  method IndexRecipe(idx0: map<string, seq<Recipe>>, prefix: seq<Recipe>, r: Recipe)
    returns (idx: map<string, seq<Recipe>>)
    requires forall n :: Lookup(idx0, n) == Consumers(prefix, n)
    requires forall n :: n in idx0 ==> idx0[n] != []
    ensures forall n :: Lookup(idx, n) == Consumers(prefix, n) + Repeat(r, CountUses(r.materials, n))
    ensures forall n :: n in idx ==> idx[n] != []
  {
    idx := idx0;
    var j := 0;
    assert r.materials[..0] == [];
    assert forall n :: Consumers(prefix, n) + Repeat(r, 0) == Consumers(prefix, n);
    while j < |r.materials|
      invariant 0 <= j <= |r.materials|
      invariant forall n :: Lookup(idx, n) == Consumers(prefix, n) + Repeat(r, CountUses(r.materials[..j], n))
      invariant forall n :: n in idx ==> idx[n] != []
    {
      var m := r.materials[j];
      var existing := Lookup(idx, m.name);
      IndexStep(idx, prefix, r, j);
      idx := idx[m.name := existing + [r]];
      j := j + 1;
    }
    assert r.materials[..j] == r.materials;
  }

  /** The consumers of one more recipe. */
  lemma ConsumersSnoc(rs: seq<Recipe>, i: int)
    requires 0 <= i < |rs|
    ensures forall n :: Consumers(rs[..i + 1], n)
                        == Consumers(rs[..i], n) + Repeat(rs[i], CountUses(rs[i].materials, n))
  {
    assert rs[..i + 1][..i] == rs[..i];
  }
}
