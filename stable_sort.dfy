/**
 * `[...xs].sort((a, b) => key(b) - key(a))`: a stable sort into non-increasing key order.
 * The engine's sort is stable, so it is specified here by insertion sort, which is.
 */
module StableSort {

  /** Keys never increase from left to right. */
  predicate SortedDesc<T>(s: seq<T>, key: T -> int)
  {
    forall i, j :: 0 <= i < j < |s| ==> key(s[i]) >= key(s[j])
  }

  /** The entries of `s` whose key is `k`, in their order in `s`. */
  function WithKey<T>(s: seq<T>, key: T -> int, k: int): seq<T>
  {
    if s == [] then []
    else (if key(s[0]) == k then [s[0]] else []) + WithKey(s[1..], key, k)
  }

  /**
   * Inserts `x` in front of the first entry whose key is not greater than its own, so that `x`
   * comes before every later entry with an equal key.
   */
  function Insert<T>(x: T, s: seq<T>, key: T -> int): (r: seq<T>)
    ensures multiset(r) == multiset(s) + multiset{x}
  {
    if s == [] then [x]
    else if key(s[0]) <= key(x) then [x] + s
    else
      assert s == [s[0]] + s[1..];
      [s[0]] + Insert(x, s[1..], key)
  }

  /** Inserting into a sorted sequence keeps it sorted. */
  lemma {:induction false} InsertSorted<T>(x: T, s: seq<T>, key: T -> int)
    requires SortedDesc(s, key)
    ensures SortedDesc(Insert(x, s, key), key)
  {
    if s != [] && key(s[0]) > key(x) {
      var t := Insert(x, s[1..], key);
      InsertSorted(x, s[1..], key);
      forall i | 0 <= i < |t| ensures key(s[0]) >= key(t[i]) {
        assert t[i] in multiset(t);
        assert t[i] == x || t[i] in multiset(s[1..]);
        if t[i] != x {
          var j :| 0 <= j < |s[1..]| && s[1..][j] == t[i];
          assert s[j + 1] == t[i];
        }
      }
      assert Insert(x, s, key) == [s[0]] + t;
    }
  }

  /** Sorts into non-increasing key order, keeping entries with equal keys in input order. */
  function SortByKeyDesc<T>(s: seq<T>, key: T -> int): (r: seq<T>)
    ensures multiset(r) == multiset(s)
    ensures |r| == |s|
    ensures SortedDesc(r, key)
  {
    if s == [] then []
    else
      assert s == [s[0]] + s[1..];
      InsertSorted(s[0], SortByKeyDesc(s[1..], key), key);
      Insert(s[0], SortByKeyDesc(s[1..], key), key)
  }

  lemma {:induction false} WithKeyAppend<T>(a: seq<T>, b: seq<T>, key: T -> int, k: int)
    ensures WithKey(a + b, key, k) == WithKey(a, key, k) + WithKey(b, key, k)
  {
    if a != [] {
      assert (a + b)[0] == a[0];
      assert (a + b)[1..] == a[1..] + b;
      WithKeyAppend(a[1..], b, key, k);
    } else {
      assert a + b == b;
    }
  }

  lemma WithKeySingle<T>(y: T, key: T -> int, k: int)
    ensures WithKey([y], key, k) == if key(y) == k then [y] else []
  {
    assert [y][1..] == [];
  }

  /** Inserting `x` puts it ahead of every entry with its own key... */
  lemma {:induction false} InsertSameKey<T>(x: T, s: seq<T>, key: T -> int, k: int)
    requires key(x) == k
    ensures WithKey(Insert(x, s, key), key, k) == [x] + WithKey(s, key, k)
  {
    if s == [] {
      WithKeySingle(x, key, k);
      assert [x] + [] == [x];
    } else if key(s[0]) <= key(x) {
      WithKeyAppend([x], s, key, k);
      WithKeySingle(x, key, k);
    } else {
      var t := Insert(x, s[1..], key);
      InsertSameKey(x, s[1..], key, k);
      WithKeySingle(s[0], key, k);
      WithKeyAppend([s[0]], t, key, k);
      WithKeyAppend([s[0]], s[1..], key, k);
      assert Insert(x, s, key) == [s[0]] + t;
      assert s == [s[0]] + s[1..];
    }
  }

  /** ... and leaves the entries of every other key as they were. */
  lemma {:induction false} InsertOtherKey<T>(x: T, s: seq<T>, key: T -> int, k: int)
    requires key(x) != k
    ensures WithKey(Insert(x, s, key), key, k) == WithKey(s, key, k)
  {
    if s == [] {
      WithKeySingle(x, key, k);
    } else if key(s[0]) <= key(x) {
      WithKeySingle(x, key, k);
      WithKeyAppend([x], s, key, k);
    } else {
      InsertOtherKey(x, s[1..], key, k);
      WithKeyAppend([s[0]], Insert(x, s[1..], key), key, k);
      WithKeyAppend([s[0]], s[1..], key, k);
      assert s == [s[0]] + s[1..];
    }
  }

  /** Stability: for every key, the entries with that key keep their relative order. */
  lemma {:induction false} SortStable<T>(s: seq<T>, key: T -> int, k: int)
    ensures WithKey(SortByKeyDesc(s, key), key, k) == WithKey(s, key, k)
  {
    if s != [] {
      SortStable(s[1..], key, k);
      if key(s[0]) == k {
        InsertSameKey(s[0], SortByKeyDesc(s[1..], key), key, k);
      } else {
        InsertOtherKey(s[0], SortByKeyDesc(s[1..], key), key, k);
      }
      WithKeyAppend([s[0]], s[1..], key, k);
      assert s == [s[0]] + s[1..];
    }
  }

  /** Sorting into an order that coincides with the input's leaves the input as it was. */
  lemma {:induction false} SortOfSorted<T>(s: seq<T>, key: T -> int)
    requires forall i, j :: 0 <= i < j < |s| ==> key(s[i]) > key(s[j])
    ensures SortByKeyDesc(s, key) == s
  {
    if s != [] {
      SortOfSorted(s[1..], key);
      if |s| > 1 {
        assert SortByKeyDesc(s[1..], key)[0] == s[1];
      }
    }
  }
}
