/** The stable descending sort by an integer key that `Array.prototype.sort`
    performs with a comparator `(a, b) => key(b) - key(a)`. */
module Sorting {

  predicate SortedDesc<T>(s: seq<T>, key: T -> int)
  {
    forall i, j :: 0 <= i < j < |s| ==> key(s[i]) >= key(s[j])
  }

  /** The elements of `s` whose key is `v`, in order. */
  function WithKey<T>(s: seq<T>, key: T -> int, v: int): seq<T>
  {
    if s == [] then []
    else (if key(s[0]) == v then [s[0]] else []) + WithKey(s[1..], key, v)
  }

  /** Inserts `x` after every element whose key is at least its own. */
  function Insert<T>(x: T, s: seq<T>, key: T -> int): seq<T>
  {
    if s == [] then [x]
    else if key(s[0]) < key(x) then [x] + s
    else [s[0]] + Insert(x, s[1..], key)
  }

  /** Insertion sort, taking the elements in their original order. */
  function SortDesc<T>(s: seq<T>, key: T -> int): seq<T>
  {
    if s == [] then []
    else Insert(s[|s| - 1], SortDesc(s[..|s| - 1], key), key)
  }

  lemma {:induction false} InsertMultiset<T>(x: T, s: seq<T>, key: T -> int)
    ensures multiset(Insert(x, s, key)) == multiset(s) + multiset{x}
  {
    if s != [] && key(s[0]) >= key(x) {
      InsertMultiset(x, s[1..], key);
      assert s == [s[0]] + s[1..];
    }
  }

  lemma {:induction false} InsertSorted<T>(x: T, s: seq<T>, key: T -> int)
    requires SortedDesc(s, key)
    ensures SortedDesc(Insert(x, s, key), key)
  {
    if s != [] && key(s[0]) >= key(x) {
      var t := s[1..];
      assert SortedDesc(t, key);
      InsertSorted(x, t, key);
      InsertMultiset(x, t, key);
      var r := [s[0]] + Insert(x, t, key);
      forall j | 0 < j < |r| ensures key(r[0]) >= key(r[j]) {
        assert r[j] in multiset(Insert(x, t, key));
        if r[j] != x {
          assert r[j] in multiset(t);
          var k :| 0 <= k < |t| && t[k] == r[j];
          assert s[k + 1] == r[j];
        }
      }
    }
  }

  lemma {:induction false} InsertWithKey<T>(x: T, s: seq<T>, key: T -> int, v: int)
    requires SortedDesc(s, key)
    ensures WithKey(Insert(x, s, key), key, v)
            == WithKey(s, key, v) + (if key(x) == v then [x] else [])
  {
    var e := if key(x) == v then [x] else [];
    if s == [] {
      assert WithKey([x], key, v) == e + WithKey([], key, v);
    } else if key(s[0]) < key(x) {
      assert ([x] + s)[1..] == s;
      assert WithKey([x] + s, key, v) == e + WithKey(s, key, v);
      if key(x) == v {
        NoKeyAbove(s, key, v);
      } else {
        assert e + WithKey(s, key, v) == WithKey(s, key, v) + e;
      }
    } else {
      var t := s[1..];
      var h := if key(s[0]) == v then [s[0]] else [];
      assert SortedDesc(t, key);
      InsertWithKey(x, t, key, v);
      assert ([s[0]] + Insert(x, t, key))[1..] == Insert(x, t, key);
      assert WithKey(Insert(x, s, key), key, v) == h + WithKey(Insert(x, t, key), key, v);
      assert WithKey(s, key, v) == h + WithKey(t, key, v);
      assert h + (WithKey(t, key, v) + e) == (h + WithKey(t, key, v)) + e;
    }
  }

  /** In a descending sequence whose first key is below `v`, no key equals `v`. */
  lemma {:induction false} NoKeyAbove<T>(s: seq<T>, key: T -> int, v: int)
    requires SortedDesc(s, key) && (s != [] ==> key(s[0]) < v)
    ensures WithKey(s, key, v) == []
  {
    if s != [] {
      assert SortedDesc(s[1..], key);
      NoKeyAbove(s[1..], key, v);
    }
  }

  /** The sort orders by descending key, permutes its input, and is stable:
      the elements of any one key keep their original order. */
  lemma {:induction false} SortDescCorrect<T>(s: seq<T>, key: T -> int)
    ensures SortedDesc(SortDesc(s, key), key)
    ensures multiset(SortDesc(s, key)) == multiset(s)
    ensures forall v :: WithKey(SortDesc(s, key), key, v) == WithKey(s, key, v)
  {
    if s != [] {
      var init := s[..|s| - 1];
      var x := s[|s| - 1];
      SortDescCorrect(init, key);
      InsertSorted(x, SortDesc(init, key), key);
      InsertMultiset(x, SortDesc(init, key), key);
      assert s == init + [x];
      forall v ensures WithKey(SortDesc(s, key), key, v) == WithKey(s, key, v) {
        InsertWithKey(x, SortDesc(init, key), key, v);
        WithKeyAppend(init, x, key, v);
      }
    }
  }

  lemma {:induction false} WithKeyAppend<T>(s: seq<T>, x: T, key: T -> int, v: int)
    ensures WithKey(s + [x], key, v) == WithKey(s, key, v) + (if key(x) == v then [x] else [])
  {
    if s != [] {
      WithKeyAppend(s[1..], x, key, v);
      assert (s + [x])[1..] == s[1..] + [x];
    }
  }

  /** The head of the sorted sequence has the largest key of the input. */
  lemma HeadIsMaximal<T>(s: seq<T>, key: T -> int)
    requires s != []
    ensures |SortDesc(s, key)| == |s|
    ensures forall x :: x in s ==> key(x) <= key(SortDesc(s, key)[0])
  {
    SortDescCorrect(s, key);
    var r := SortDesc(s, key);
    assert |multiset(r)| == |multiset(s)|;
    forall x | x in s ensures key(x) <= key(r[0]) {
      assert x in multiset(s);
      assert x in multiset(r);
      var k :| 0 <= k < |r| && r[k] == x;
    }
  }

  /** The sort keeps exactly the elements of its input. */
  lemma SortDescMembers<T>(s: seq<T>, key: T -> int)
    ensures forall x :: x in SortDesc(s, key) <==> x in s
  {
    SortDescCorrect(s, key);
    forall x ensures x in SortDesc(s, key) <==> x in s {
      assert x in SortDesc(s, key) <==> x in multiset(SortDesc(s, key));
      assert x in s <==> x in multiset(s);
    }
  }
}
