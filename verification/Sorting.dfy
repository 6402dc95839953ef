/**
Stable sorting by a numeric key, as the library sort does it.
*/
module Sorting {
  function Insert<T>(x: T, s: seq<T>, key: T -> nat): seq<T> {
    if s == [] || key(s[|s| - 1]) <= key(x) then s + [x]
    else Insert(x, s[..|s| - 1], key) + [s[|s| - 1]]
  }

  function SortBy<T>(s: seq<T>, key: T -> nat): seq<T> {
    if s == [] then [] else Insert(s[|s| - 1], SortBy(s[..|s| - 1], key), key)
  }

  ghost predicate Sorted<T>(s: seq<T>, key: T -> nat) {
    forall i, j :: 0 <= i < j < |s| ==> key(s[i]) <= key(s[j])
  }

  lemma {:induction false} InsertKeeps<T>(x: T, s: seq<T>, key: T -> nat)
    ensures multiset(Insert(x, s, key)) == multiset(s) + multiset{x}
    ensures |Insert(x, s, key)| == |s| + 1
    decreases |s|
  {
    if s != [] && key(s[|s| - 1]) > key(x) {
      InsertKeeps(x, s[..|s| - 1], key);
      assert s == s[..|s| - 1] + [s[|s| - 1]];
    }
  }

  lemma {:induction false} InsertElements<T>(x: T, s: seq<T>, key: T -> nat)
    ensures forall y :: y in Insert(x, s, key) ==> y == x || y in s
    decreases |s|
  {
    if s != [] && key(s[|s| - 1]) > key(x) { InsertElements(x, s[..|s| - 1], key); }
  }

  lemma {:induction false} InsertSorted<T>(x: T, s: seq<T>, key: T -> nat)
    requires Sorted(s, key)
    ensures Sorted(Insert(x, s, key), key)
    decreases |s|
  {
    if s != [] && key(s[|s| - 1]) > key(x) {
      var rest, last := s[..|s| - 1], s[|s| - 1];
      InsertSorted(x, rest, key);
      InsertElements(x, rest, key);
      SortedSnoc(Insert(x, rest, key), last, key);
    }
  }

  lemma SortedSnoc<T>(s: seq<T>, x: T, key: T -> nat)
    requires Sorted(s, key) && forall y :: y in s ==> key(y) <= key(x)
    ensures Sorted(s + [x], key)
  {
  }

  /** Sorting orders by the key and only rearranges. */
  lemma {:induction false} SortBySorts<T>(s: seq<T>, key: T -> nat)
    ensures Sorted(SortBy(s, key), key) && multiset(SortBy(s, key)) == multiset(s) && |SortBy(s, key)| == |s|
    decreases |s|
  {
    if s != [] {
      var rest := s[..|s| - 1];
      SortBySorts(rest, key);
      InsertSorted(s[|s| - 1], SortBy(rest, key), key);
      InsertKeeps(s[|s| - 1], SortBy(rest, key), key);
      assert s == rest + [s[|s| - 1]];
    }
  }

  /** The elements with a given key, in order. */
  function WithKey<T>(s: seq<T>, key: T -> nat, k: nat): seq<T> {
    if s == [] then []
    else WithKey(s[..|s| - 1], key, k) + if key(s[|s| - 1]) == k then [s[|s| - 1]] else []
  }

  lemma WithKeySnoc<T>(s: seq<T>, x: T, key: T -> nat, k: nat)
    ensures WithKey(s + [x], key, k) == WithKey(s, key, k) + if key(x) == k then [x] else []
  {
    assert (s + [x])[..|s|] == s;
  }

  lemma {:induction false} InsertStable<T>(x: T, s: seq<T>, key: T -> nat, k: nat)
    requires Sorted(s, key)
    ensures WithKey(Insert(x, s, key), key, k) == WithKey(s, key, k) + if key(x) == k then [x] else []
    decreases |s|
  {
    if s == [] || key(s[|s| - 1]) <= key(x) {
      WithKeySnoc(s, x, key, k);
    } else {
      var rest, last := s[..|s| - 1], s[|s| - 1];
      InsertStable(x, rest, key, k);
      WithKeySnoc(Insert(x, rest, key), last, key, k);
    }
  }

  /** Elements with equal keys keep their order. */
  lemma {:induction false} SortByStable<T>(s: seq<T>, key: T -> nat, k: nat)
    ensures WithKey(SortBy(s, key), key, k) == WithKey(s, key, k)
    decreases |s|
  {
    if s != [] {
      SortByStable(s[..|s| - 1], key, k);
      SortBySorts(s[..|s| - 1], key);
      InsertStable(s[|s| - 1], SortBy(s[..|s| - 1], key), key, k);
    }
  }

  lemma {:induction false} InsertBehind<T>(x: T, y: T, s: seq<T>, key: T -> nat)
    requires key(x) == 0
    ensures Insert(y, [x] + s, key) == [x] + Insert(y, s, key)
    decreases |s|
  {
    var all := [x] + s;
    if s != [] {
      assert all[|all| - 1] == s[|s| - 1] && all[..|all| - 1] == [x] + s[..|s| - 1];
      if key(s[|s| - 1]) > key(y) { InsertBehind(x, y, s[..|s| - 1], key); }
    }
  }

  /** What comes first with the smallest possible key stays first, and the rest is sorted behind it. */
  lemma {:induction false} SortByFront<T>(x: T, s: seq<T>, key: T -> nat)
    requires key(x) == 0
    ensures SortBy([x] + s, key) == [x] + SortBy(s, key)
    decreases |s|
  {
    var all := [x] + s;
    if s == [] {
      assert all[..0] == [];
    } else {
      assert all[|all| - 1] == s[|s| - 1] && all[..|all| - 1] == [x] + s[..|s| - 1];
      SortByFront(x, s[..|s| - 1], key);
      InsertBehind(x, s[|s| - 1], SortBy(s[..|s| - 1], key), key);
    }
  }
}
