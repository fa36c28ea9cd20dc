/** JavaScript's `Array.prototype.sort` with a numeric comparator
    `(a, b) => key(a) - key(b)`: a stable sort, so elements with equal keys
    keep their original relative order. */
module Sorting {

  /** Inserts `x` before the first element whose key is not smaller. */
  function Insert<T>(x: T, s: seq<T>, key: T -> real): (r: seq<T>)
  {
    if s == [] || key(x) <= key(s[0]) then [x] + s
    else [s[0]] + Insert(x, s[1..], key)
  }

  /** Stable insertion sort by ascending key. */
  function SortBy<T>(s: seq<T>, key: T -> real): (r: seq<T>)
  {
    if s == [] then [] else Insert(s[0], SortBy(s[1..], key), key)
  }

  ghost predicate SortedBy<T>(s: seq<T>, key: T -> real)
  {
    forall i, j :: 0 <= i < j < |s| ==> key(s[i]) <= key(s[j])
  }

  /** The elements of `s` whose key is `k`, in order. */
  function WithKey<T>(s: seq<T>, key: T -> real, k: real): seq<T>
  {
    if s == [] then []
    else (if key(s[0]) == k then [s[0]] else []) + WithKey(s[1..], key, k)
  }

  lemma InsertFacts<T>(x: T, s: seq<T>, key: T -> real)
    ensures multiset(Insert(x, s, key)) == multiset(s) + multiset{x}
    ensures SortedBy(s, key) ==> SortedBy(Insert(x, s, key), key)
    ensures forall k :: WithKey(Insert(x, s, key), key, k)
                     == (if key(x) == k then [x] else []) + WithKey(s, key, k)
  {
    InsertMultiset(x, s, key);
    if SortedBy(s, key) {
      InsertSorted(x, s, key);
    }
    forall k {
      InsertWithKey(x, s, key, k);
    }
  }

  lemma {:induction false} InsertMultiset<T>(x: T, s: seq<T>, key: T -> real)
    ensures multiset(Insert(x, s, key)) == multiset(s) + multiset{x}
  {
    if s != [] && key(x) > key(s[0]) {
      InsertMultiset(x, s[1..], key);
      assert s == [s[0]] + s[1..];
    }
  }

  lemma {:induction false} InsertSorted<T>(x: T, s: seq<T>, key: T -> real)
    requires SortedBy(s, key)
    ensures SortedBy(Insert(x, s, key), key)
  {
    if s != [] && key(x) > key(s[0]) {
      var t := Insert(x, s[1..], key);
      InsertSorted(x, s[1..], key);
      InsertMultiset(x, s[1..], key);
      var r := Insert(x, s, key);
      assert r == [s[0]] + t;
      forall j | 0 < j < |r| ensures key(r[0]) <= key(r[j]) {
        assert r[j] == t[j - 1];
        assert t[j - 1] in multiset(s[1..]) + multiset{x};
        if r[j] != x {
          var m :| 0 <= m < |s[1..]| && s[1..][m] == r[j];
          assert s[m + 1] == r[j];
        }
      }
    }
  }

  lemma {:induction false} InsertWithKey<T>(x: T, s: seq<T>, key: T -> real, k: real)
    ensures WithKey(Insert(x, s, key), key, k) == (if key(x) == k then [x] else []) + WithKey(s, key, k)
  {
    if s == [] || key(x) <= key(s[0]) {
      assert Insert(x, s, key)[1..] == s;
    } else {
      InsertWithKey(x, s[1..], key, k);
      assert Insert(x, s, key)[1..] == Insert(x, s[1..], key);
    }
  }

  /** The sort is a permutation of its input, sorted by key, and stable:
      for every key value, the elements carrying it appear in the same
      relative order as in the input. */
  lemma {:induction false} SortByFacts<T>(s: seq<T>, key: T -> real)
    ensures multiset(SortBy(s, key)) == multiset(s)
    ensures SortedBy(SortBy(s, key), key)
    ensures forall k :: WithKey(SortBy(s, key), key, k) == WithKey(s, key, k)
  {
    if s != [] {
      SortByFacts(s[1..], key);
      InsertFacts(s[0], SortBy(s[1..], key), key);
      assert s == [s[0]] + s[1..];
    }
  }

  /** `s.reduce((sum, e) => sum + val(e), 0)`. */
  function Total<T>(s: seq<T>, val: T -> real): real
  {
    if s == [] then 0.0 else Total(s[..|s| - 1], val) + val(s[|s| - 1])
  }

  lemma {:induction false} TotalAppend<T>(a: seq<T>, b: seq<T>, val: T -> real)
    ensures Total(a + b, val) == Total(a, val) + Total(b, val)
  {
    if b != [] {
      TotalAppend(a, b[..|b| - 1], val);
      var ab := a + b;
      assert ab[..|ab| - 1] == a + b[..|b| - 1];
      assert ab[|ab| - 1] == b[|b| - 1];
      assert Total(ab, val) == Total(ab[..|ab| - 1], val) + val(ab[|ab| - 1]);
    } else {
      assert a + b == a;
    }
  }

  /** Sorting neither adds nor loses anything from a total. */
  lemma {:induction false} SortByTotal<T>(s: seq<T>, key: T -> real, val: T -> real)
    ensures Total(SortBy(s, key), val) == Total(s, val)
  {
    if s != [] {
      SortByTotal(s[1..], key, val);
      InsertTotal(s[0], SortBy(s[1..], key), key, val);
      TotalAppend([s[0]], s[1..], val);
      assert s == [s[0]] + s[1..];
    }
  }

  lemma {:induction false} InsertTotal<T>(x: T, s: seq<T>, key: T -> real, val: T -> real)
    ensures Total(Insert(x, s, key), val) == val(x) + Total(s, val)
  {
    TotalAppend([x], s, val);
    if s != [] && key(x) > key(s[0]) {
      InsertTotal(x, s[1..], key, val);
      TotalAppend([s[0]], s[1..], val);
      TotalAppend([s[0]], Insert(x, s[1..], key), val);
      assert s == [s[0]] + s[1..];
    }
  }

  /** With no negative values, the total is at least the first `n` values plus any one value after them. */
  lemma {:induction false} TotalAtLeast<T>(s: seq<T>, val: T -> real, n: nat, i: nat)
    requires n <= i < |s|
    requires forall j :: 0 <= j < |s| ==> val(s[j]) >= 0.0
    ensures Total(s, val) >= Total(s[..n], val) + val(s[i])
  {
    if i == |s| - 1 {
      TotalNonNegativeAppend(s[..n], s[n..i], val);
      assert s[..i] == s[..n] + s[n..i];
      assert s[..|s| - 1] == s[..i];
    } else {
      TotalAtLeast(s[..|s| - 1], val, n, i);
      assert s[..|s| - 1][..n] == s[..n];
    }
  }

  lemma {:induction false} TotalNonNegativeAppend<T>(a: seq<T>, b: seq<T>, val: T -> real)
    requires forall j :: 0 <= j < |b| ==> val(b[j]) >= 0.0
    ensures Total(a + b, val) >= Total(a, val)
  {
    TotalAppend(a, b, val);
    TotalNonNegative(b, val);
  }

  lemma {:induction false} TotalNonNegative<T>(s: seq<T>, val: T -> real)
    requires forall j :: 0 <= j < |s| ==> val(s[j]) >= 0.0
    ensures Total(s, val) >= 0.0
  {
    if s != [] {
      TotalNonNegative(s[..|s| - 1], val);
    }
  }
}
