/** Sorting by an integer key, stable: later equals stay later. */
module Sorting {

  function Insert<T>(key: T -> int, s: seq<T>, x: T): seq<T> {
    if s == [] || key(s[0]) > key(x) then [x] + s else [s[0]] + Insert(key, s[1..], x)
  }

  function Sort<T>(key: T -> int, s: seq<T>): seq<T> {
    if s == [] then [] else Insert(key, Sort(key, s[..|s| - 1]), s[|s| - 1])
  }

  predicate Sorted<T>(key: T -> int, s: seq<T>) {
    forall i, j :: 0 <= i < j < |s| ==> key(s[i]) <= key(s[j])
  }

  lemma {:induction false} InsertMembers<T>(key: T -> int, s: seq<T>, x: T)
    ensures forall y :: y in Insert(key, s, x) <==> y in s || y == x
    ensures multiset(Insert(key, s, x)) == multiset(s) + multiset{x}
  {
    if s != [] {
      assert s == [s[0]] + s[1..];
      InsertMembers(key, s[1..], x);
    }
  }

  lemma {:induction false} InsertSorted<T>(key: T -> int, s: seq<T>, x: T)
    requires Sorted(key, s)
    ensures Sorted(key, Insert(key, s, x))
  {
    if s != [] && key(s[0]) <= key(x) {
      InsertSorted(key, s[1..], x);
      var rest := Insert(key, s[1..], x);
      assert key(s[0]) <= key(rest[0]);
    }
  }

  /** A sorted permutation. */
  lemma {:induction false} SortSorts<T>(key: T -> int, s: seq<T>)
    ensures Sorted(key, Sort(key, s))
    ensures multiset(Sort(key, s)) == multiset(s)
    ensures forall x :: x in Sort(key, s) <==> x in s
  {
    if s != [] {
      var q, x := s[..|s| - 1], s[|s| - 1];
      assert s == q + [x];
      SortSorts(key, q);
      InsertSorted(key, Sort(key, q), x);
      InsertMembers(key, Sort(key, q), x);
    }
  }

  predicate Strict<T>(key: T -> int, s: seq<T>) {
    forall i, j :: 0 <= i < j < |s| ==> key(s[i]) < key(s[j])
  }

  /** `k` is not the key of any element. */
  predicate Avoids<T>(key: T -> int, s: seq<T>, k: int) {
    forall i :: 0 <= i < |s| ==> key(s[i]) != k
  }

  lemma {:induction false} InsertAvoids<T>(key: T -> int, s: seq<T>, x: T, k: int)
    requires Avoids(key, s, k) && key(x) != k
    ensures Avoids(key, Insert(key, s, x), k)
  {
    if s != [] {
      InsertAvoids(key, s[1..], x, k);
    }
  }

  lemma {:induction false} SortAvoids<T>(key: T -> int, s: seq<T>, k: int)
    requires Avoids(key, s, k)
    ensures Avoids(key, Sort(key, s), k)
  {
    if s != [] {
      SortAvoids(key, s[..|s| - 1], k);
      InsertAvoids(key, Sort(key, s[..|s| - 1]), s[|s| - 1], k);
    }
  }

  lemma {:induction false} InsertStrict<T>(key: T -> int, s: seq<T>, x: T)
    requires Strict(key, s) && Avoids(key, s, key(x))
    ensures Strict(key, Insert(key, s, x))
  {
    if s != [] && key(s[0]) <= key(x) {
      InsertStrict(key, s[1..], x);
      var rest := Insert(key, s[1..], x);
      assert key(s[0]) < key(rest[0]);
    }
  }

  /** Without repeated keys the order is strict. */
  lemma {:induction false} SortStrict<T>(key: T -> int, s: seq<T>)
    requires forall i, j :: 0 <= i < j < |s| ==> key(s[i]) != key(s[j])
    ensures Strict(key, Sort(key, s))
  {
    if s != [] {
      var q, x := s[..|s| - 1], s[|s| - 1];
      SortStrict(key, q);
      SortAvoids(key, q, key(x));
      InsertStrict(key, Sort(key, q), x);
    }
  }

  /** The elements with this key, in order. */
  function WithKey<T>(key: T -> int, s: seq<T>, k: int): seq<T> {
    if s == [] then [] else (if key(s[0]) == k then [s[0]] else []) + WithKey(key, s[1..], k)
  }

  lemma {:induction false} WithKeyLast<T>(key: T -> int, s: seq<T>, x: T, k: int)
    ensures WithKey(key, s + [x], k) == WithKey(key, s, k) + if key(x) == k then [x] else []
  {
    if s == [] {
      assert [x][1..] == [];
    } else {
      WithKeyLast(key, s[1..], x, k);
      assert (s + [x])[1..] == s[1..] + [x];
    }
  }

  lemma {:induction false} NoneBelow<T>(key: T -> int, s: seq<T>, k: int)
    requires forall i :: 0 <= i < |s| ==> key(s[i]) > k
    ensures WithKey(key, s, k) == []
  {
    if s != [] {
      NoneBelow(key, s[1..], k);
    }
  }

  lemma {:induction false} InsertStable<T>(key: T -> int, s: seq<T>, x: T, k: int)
    requires Sorted(key, s)
    ensures WithKey(key, Insert(key, s, x), k) == WithKey(key, s, k) + if key(x) == k then [x] else []
  {
    if s == [] || key(s[0]) > key(x) {
      assert ([x] + s)[1..] == s;
      if key(x) == k {
        NoneBelow(key, s, k);
      }
    } else {
      InsertStable(key, s[1..], x, k);
    }
  }

  /** Equal keys keep the order they came in. */
  lemma {:induction false} SortStable<T>(key: T -> int, s: seq<T>, k: int)
    ensures WithKey(key, Sort(key, s), k) == WithKey(key, s, k)
  {
    if s != [] {
      var q, x := s[..|s| - 1], s[|s| - 1];
      assert s == q + [x];
      SortStable(key, q, k);
      SortSorts(key, q);
      InsertStable(key, Sort(key, q), x, k);
      WithKeyLast(key, q, x, k);
    }
  }
}
