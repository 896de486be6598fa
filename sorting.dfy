/**
 * The order that `Array.prototype.sort` produces with a comparator of the
 * form `(a, b) => key(b) - key(a)`: non-increasing keys, and a
 * permutation of the input.  It is written as a stable insertion sort.
 */
module Sorting {

  ghost predicate SortedDesc<T>(s: seq<T>, key: T -> int) {
    forall i, j :: 0 <= i < j < |s| ==> key(s[i]) >= key(s[j])
  }

  function InsertDesc<T>(x: T, s: seq<T>, key: T -> int): (r: seq<T>)
    requires SortedDesc(s, key)
    ensures SortedDesc(r, key)
    ensures multiset(r) == multiset(s) + multiset{x}
    ensures |r| == |s| + 1
    ensures r[0] == x || (s != [] && r[0] == s[0])
  {
    if s == [] || key(s[0]) <= key(x) then [x] + s
    else
      var t := InsertDesc(x, s[1..], key);
      assert key(t[0]) <= key(s[0]);
      assert s == [s[0]] + s[1..];
      [s[0]] + t
  }

  /** Sort by `key`, largest first; equal keys keep their input order. */
  function SortDesc<T>(s: seq<T>, key: T -> int): (r: seq<T>)
    ensures SortedDesc(r, key)
    ensures multiset(r) == multiset(s)
    ensures |r| == |s|
  {
    if s == [] then []
    else
      assert s == [s[0]] + s[1..];
      InsertDesc(s[0], SortDesc(s[1..], key), key)
  }

  /** The elements of `s` whose key is `k`, in their order in `s`. */
  function WithKey<T>(s: seq<T>, key: T -> int, k: int): (r: seq<T>)
    ensures |r| <= |s|
    ensures forall i :: 0 <= i < |r| ==> key(r[i]) == k && r[i] in s
  {
    if s == [] then []
    else (if key(s[0]) == k then [s[0]] else []) + WithKey(s[1..], key, k)
  }

  lemma WithKeyCons<T>(x: T, s: seq<T>, key: T -> int, k: int)
    ensures WithKey([x] + s, key, k) == (if key(x) == k then [x] else []) + WithKey(s, key, k)
  {
    assert ([x] + s)[0] == x && ([x] + s)[1..] == s;
  }

  /** Inserting `x` puts it ahead of every element of equal key and moves no other. */
  lemma {:induction false} InsertDescWithKey<T>(x: T, s: seq<T>, key: T -> int, k: int)
    requires SortedDesc(s, key)
    ensures WithKey(InsertDesc(x, s, key), key, k) == (if key(x) == k then [x] else []) + WithKey(s, key, k)
  {
    if s == [] || key(s[0]) <= key(x) {
      WithKeyCons(x, s, key, k);
    } else {
      var t := InsertDesc(x, s[1..], key);
      assert SortedDesc(s[1..], key);
      calc {
        WithKey(InsertDesc(x, s, key), key, k);
        WithKey([s[0]] + t, key, k);
        { WithKeyCons(s[0], t, key, k); }
        (if key(s[0]) == k then [s[0]] else []) + WithKey(t, key, k);
        { InsertDescWithKey(x, s[1..], key, k); }
        (if key(s[0]) == k then [s[0]] else []) + ((if key(x) == k then [x] else []) + WithKey(s[1..], key, k));
        // key(s[0]) > key(x), so at most one of the two singletons is present
        (if key(x) == k then [x] else []) + ((if key(s[0]) == k then [s[0]] else []) + WithKey(s[1..], key, k));
        { WithKeyCons(s[0], s[1..], key, k); assert [s[0]] + s[1..] == s; }
        (if key(x) == k then [x] else []) + WithKey(s, key, k);
      }
    }
  }

  /** The sort is stable: elements of equal key keep their input order. */
  lemma {:induction false} SortDescStable<T>(s: seq<T>, key: T -> int, k: int)
    ensures WithKey(SortDesc(s, key), key, k) == WithKey(s, key, k)
  {
    if s != [] {
      calc {
        WithKey(SortDesc(s, key), key, k);
        WithKey(InsertDesc(s[0], SortDesc(s[1..], key), key), key, k);
        { InsertDescWithKey(s[0], SortDesc(s[1..], key), key, k); }
        (if key(s[0]) == k then [s[0]] else []) + WithKey(SortDesc(s[1..], key), key, k);
        { SortDescStable(s[1..], key, k); }
        (if key(s[0]) == k then [s[0]] else []) + WithKey(s[1..], key, k);
      }
    }
  }
}
