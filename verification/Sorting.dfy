/** The stable sort of the language, on a numeric key. */
module Sorting {

  predicate Ordered<T>(s: seq<T>, key: T -> real) {
    forall i, j :: 0 <= i < j < |s| ==> key(s[i]) <= key(s[j])
  }

  function Insert<T>(s: seq<T>, key: T -> real, x: T): (r: seq<T>)
    ensures |r| == |s| + 1
  {
    if s != [] && key(x) < key(s[|s| - 1]) then Insert(s[..|s| - 1], key, x) + [s[|s| - 1]] else s + [x]
  }

  function StableSort<T>(s: seq<T>, key: T -> real): (r: seq<T>)
    ensures |r| == |s|
  {
    if s == [] then [] else Insert(StableSort(s[..|s| - 1], key), key, s[|s| - 1])
  }

  /** The elements whose key is `k`, in their order. */
  function WithKey<T>(s: seq<T>, key: T -> real, k: real): seq<T> {
    if s == [] then [] else WithKey(s[..|s| - 1], key, k) + if key(s[|s| - 1]) == k then [s[|s| - 1]] else []
  }

  lemma {:induction false} InsertPermutes<T>(s: seq<T>, key: T -> real, x: T)
    ensures multiset(Insert(s, key, x)) == multiset(s) + multiset{x}
  {
    if s != [] && key(x) < key(s[|s| - 1]) {
      InsertPermutes(s[..|s| - 1], key, x);
      assert s == s[..|s| - 1] + [s[|s| - 1]];
    }
  }

  lemma {:induction false} InsertOrdered<T>(s: seq<T>, key: T -> real, x: T)
    requires Ordered(s, key)
    ensures Ordered(Insert(s, key, x), key)
    ensures forall y :: y in Insert(s, key, x) ==> y == x || y in s
  {
    if s != [] && key(x) < key(s[|s| - 1]) {
      InsertOrdered(s[..|s| - 1], key, x);
      var r := Insert(s[..|s| - 1], key, x);
      forall i | 0 <= i < |r| ensures key(r[i]) <= key(s[|s| - 1]) {
        assert r[i] in r;
      }
    }
  }

  lemma {:induction false} InsertIsStable<T>(s: seq<T>, key: T -> real, x: T, k: real)
    ensures WithKey(Insert(s, key, x), key, k) == WithKey(s, key, k) + if key(x) == k then [x] else []
  {
    var r := Insert(s, key, x);
    if s != [] && key(x) < key(s[|s| - 1]) {
      InsertIsStable(s[..|s| - 1], key, x, k);
      assert r[..|s|] == Insert(s[..|s| - 1], key, x);
    } else {
      assert r[..|s|] == s;
    }
  }

  lemma {:induction false} SortTwo<T>(x: T, y: T, key: T -> real)
    ensures StableSort([x], key) == [x]
    ensures StableSort([x] + [y], key) == if key(y) < key(x) then [y] + [x] else [x] + [y]
  {
    assert [x][..0] == [] && ([x] + [y])[..1] == [x];
    assert Insert([x][..0], key, y) == [y];
  }

  /** The sort orders, permutes, and leaves elements of equal key as they were. */
  lemma {:induction false} SortIsStable<T>(s: seq<T>, key: T -> real)
    ensures Ordered(StableSort(s, key), key)
    ensures multiset(StableSort(s, key)) == multiset(s)
    ensures forall k :: WithKey(StableSort(s, key), key, k) == WithKey(s, key, k)
  {
    if s != [] {
      var init, last := s[..|s| - 1], s[|s| - 1];
      SortIsStable(init, key);
      InsertPermutes(StableSort(init, key), key, last);
      InsertOrdered(StableSort(init, key), key, last);
      assert s == init + [last];
      forall k ensures WithKey(StableSort(s, key), key, k) == WithKey(s, key, k) {
        InsertIsStable(StableSort(init, key), key, last, k);
      }
    }
  }
}
