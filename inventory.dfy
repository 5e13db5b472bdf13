/** An item-name keyed quantity table that keeps its keys in insertion order,
    as the JavaScript `Map` and plain objects the calculators accumulate into
    do: setting a present key keeps its position, setting a new key appends,
    and reading a missing key gives 0. */
module Inventory {
  import opened Types

  datatype Entry = Entry(name: string, qty: int)

  /** The keys of the table. */
  function Names(inv: seq<Entry>): (ns: set<string>)
    ensures forall i :: 0 <= i < |inv| ==> inv[i].name in ns
  {
    if inv == [] then {} else {inv[0].name} + Names(inv[1..])
  }

  /** Every stored quantity is non-negative. */
  predicate NonNegative(inv: seq<Entry>)
  {
    forall e :: e in inv ==> e.qty >= 0
  }

  /** The quantity stored under `k`, or 0 when `k` is absent. */
  function Get(inv: seq<Entry>, k: string): int
  {
    if inv == [] then 0
    else if inv[0].name == k then inv[0].qty
    else Get(inv[1..], k)
  }

  /** A table of non-negative quantities reads non-negative everywhere. */
  lemma {:induction false} GetNonNegative(inv: seq<Entry>, k: string)
    requires NonNegative(inv)
    ensures Get(inv, k) >= 0
  {
    if inv != [] && inv[0].name != k {
      assert forall e :: e in inv[1..] ==> e in inv;
      GetNonNegative(inv[1..], k);
    }
  }

  /** Stores `v` under `k`: in place when `k` is present, appended otherwise. */
  function Put(inv: seq<Entry>, k: string, v: int): (r: seq<Entry>)
    ensures Get(r, k) == v
    ensures forall k' :: k' != k ==> Get(r, k') == Get(inv, k')
  {
    if inv == [] then [Entry(k, v)]
    else if inv[0].name == k then [Entry(k, v)] + inv[1..]
    else [inv[0]] + Put(inv[1..], k, v)
  }

  /** Deletes `k`, keeping the order of the other keys; it is also the filter
      that drops every entry named `k`. */
  function Remove(inv: seq<Entry>, k: string): (r: seq<Entry>)
    ensures forall e :: e in r <==> e in inv && e.name != k
    ensures forall k' :: k' != k ==> Get(r, k') == Get(inv, k')
  {
    if inv == [] then []
    else if inv[0].name == k then Remove(inv[1..], k)
    else [inv[0]] + Remove(inv[1..], k)
  }

  /** The market value of every entry: the sum of price times quantity. */
  function Value(inv: seq<Entry>, prices: Prices): int
  {
    if inv == [] then 0
    else PriceOf(prices, inv[0].name) * inv[0].qty + Value(inv[1..], prices)
  }

  /** Put keeps quantities non-negative. */
  lemma {:induction false} PutNonNegative(inv: seq<Entry>, k: string, v: int)
    requires NonNegative(inv) && v >= 0
    ensures NonNegative(Put(inv, k, v))
  {
    if inv != [] && inv[0].name != k {
      PutNonNegative(inv[1..], k, v);
    }
  }

  /** Put of a new key appends it at the end. */
  lemma {:induction false} PutAppends(inv: seq<Entry>, k: string, v: int)
    requires k !in Names(inv)
    ensures Put(inv, k, v) == inv + [Entry(k, v)]
  {
    if inv != [] {
      assert inv[0].name != k;
      assert Names(inv) == {inv[0].name} + Names(inv[1..]);
      PutAppends(inv[1..], k, v);
      assert inv == [inv[0]] + inv[1..];
    }
  }

  /** Put of a present key updates it in place: the length and the name at
      every position are kept. */
  lemma {:induction false} PutInPlace(inv: seq<Entry>, k: string, v: int)
    requires k in Names(inv)
    ensures |Put(inv, k, v)| == |inv|
    ensures forall i :: 0 <= i < |inv| ==> Put(inv, k, v)[i].name == inv[i].name
  {
    if inv != [] && inv[0].name != k {
      PutInPlace(inv[1..], k, v);
    }
  }

  /** Remove drops exactly the key `k` and keeps quantities non-negative. */
  lemma {:induction false} RemoveShape(inv: seq<Entry>, k: string)
    ensures k !in Names(Remove(inv, k))
    ensures Names(Remove(inv, k)) == Names(inv) - {k}
    ensures NonNegative(inv) ==> NonNegative(Remove(inv, k))
  {
    if inv != [] {
      RemoveShape(inv[1..], k);
    }
  }

  /** Put adds `k` to the keys and no other name. */
  lemma {:induction false} PutNames(inv: seq<Entry>, k: string, v: int)
    ensures Names(Put(inv, k, v)) == Names(inv) + {k}
  {
    if inv != [] && inv[0].name != k {
      PutNames(inv[1..], k, v);
    }
  }

  /** A key that is not stored reads as 0. */
  lemma {:induction false} GetAbsent(inv: seq<Entry>, k: string)
    requires k !in Names(inv)
    ensures Get(inv, k) == 0
  {
    if inv != [] {
      GetAbsent(inv[1..], k);
    }
  }

  /** Storing `v` under `k` in place of the stored quantity changes the value
      by `k`'s price times the change of its quantity: the old value and the
      price of the new quantity balance the new value and the price of the
      old quantity. */
  lemma {:induction false} ValuePut(inv: seq<Entry>, k: string, v: int, prices: Prices)
    ensures Value(Put(inv, k, v), prices) + PriceOf(prices, k) * Get(inv, k)
            == Value(inv, prices) + PriceOf(prices, k) * v
  {
    if inv == [] {
      assert Put(inv, k, v) == [Entry(k, v)];
      ValueCons(Entry(k, v), [], prices);
      assert Get(inv, k) == 0;
    } else if inv[0].name == k {
      var e, rest := inv[0], inv[1..];
      assert inv == [e] + rest;
      assert Put(inv, k, v) == [Entry(k, v)] + rest;
      ValueCons(Entry(k, v), rest, prices);
      ValueCons(e, rest, prices);
      assert Get(inv, k) == e.qty;
    } else {
      var e, rest := inv[0], inv[1..];
      ValuePut(rest, k, v, prices);
      assert inv == [e] + rest;
      assert Put(inv, k, v) == [e] + Put(rest, k, v);
      ValueCons(e, Put(rest, k, v), prices);
      ValueCons(e, rest, prices);
      assert Get(inv, k) == Get(rest, k);
    }
  }

  /** Value of a table with one more entry in front. */
  lemma ValueCons(e: Entry, s: seq<Entry>, prices: Prices)
    ensures Value([e] + s, prices) == PriceOf(prices, e.name) * e.qty + Value(s, prices)
  {
    assert ([e] + s)[1..] == s;
  }
}
