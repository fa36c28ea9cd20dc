/** A JavaScript `Map`: a finite map that remembers the order in which its
    keys were first inserted, plus the running-total idiom
    `m.set(k, (m.get(k) || 0) + a)` used throughout the ledger. */
module OrderedMaps {
  import opened Sorting

  datatype OrderedMap<K, V> = OrderedMap(keys: seq<K>, values: map<K, V>)

  /** Keys are distinct and are exactly the keys of the map. */
  ghost predicate Valid<K, V>(m: OrderedMap<K, V>)
  {
    && (forall i, j :: 0 <= i < j < |m.keys| ==> m.keys[i] != m.keys[j])
    && m.values.Keys == (set i | 0 <= i < |m.keys| :: m.keys[i])
  }

  function Empty<K, V>(): (m: OrderedMap<K, V>)
    ensures Valid(m) && m.keys == []
  {
    OrderedMap([], map[])
  }

  function Size<K, V>(m: OrderedMap<K, V>): nat
  {
    |m.keys|
  }

  /** `m.get(k) || d`: the stored value, or `d` for a missing key. */
  function Get<K, V>(m: OrderedMap<K, V>, k: K, d: V): V
  {
    if k in m.values then m.values[k] else d
  }

  /** `m.set(k, v)`: an existing key keeps its position, a new key goes last. */
  function Put<K, V>(m: OrderedMap<K, V>, k: K, v: V): (r: OrderedMap<K, V>)
    requires Valid(m)
    ensures Valid(r)
    ensures r.values == m.values[k := v]
    ensures r.keys == if k in m.keys then m.keys else m.keys + [k]
  {
    if k in m.values then OrderedMap(m.keys, m.values[k := v])
    else
      var keys := m.keys + [k];
      KeySetAppend(m.keys, k);
      OrderedMap(keys, m.values[k := v])
  }

  lemma KeySetAppend<K>(keys: seq<K>, k: K)
    ensures (set i | 0 <= i < |keys + [k]| :: (keys + [k])[i]) == (set i | 0 <= i < |keys| :: keys[i]) + {k}
  {
    var ks := keys + [k];
    var after := set i | 0 <= i < |ks| :: ks[i];
    var before := (set i | 0 <= i < |keys| :: keys[i]) + {k};
    forall x | x in after ensures x in before {
      var i :| 0 <= i < |ks| && ks[i] == x;
      if i < |keys| {
        assert keys[i] == x;
      }
    }
    forall x | x in before ensures x in after {
      if x == k {
        assert ks[|keys|] == x;
      } else {
        var i :| 0 <= i < |keys| && keys[i] == x;
        assert ks[i] == x;
      }
    }
  }

  /** `m.set(k, (m.get(k) || 0) + a)`. */
  function AddTo<K>(m: OrderedMap<K, real>, k: K, a: real): (r: OrderedMap<K, real>)
    requires Valid(m)
    ensures Valid(r)
    ensures Get(r, k, 0.0) == Get(m, k, 0.0) + a
    ensures r.values.Keys == m.values.Keys + {k}
    ensures forall k' :: k' != k && k' in m.values ==> k' in r.values && r.values[k'] == m.values[k']
    ensures r.keys == if k in m.keys then m.keys else m.keys + [k]
    ensures r.values == m.values[k := Get(m, k, 0.0) + a]
  {
    Put(m, k, Get(m, k, 0.0) + a)
  }

  /** The values of `keys` in `values`, added up left to right. */
  function SumOf<K>(keys: seq<K>, values: map<K, real>): real
    requires forall k :: k in keys ==> k in values
  {
    if keys == [] then 0.0
    else SumOf(keys[..|keys| - 1], values) + values[keys[|keys| - 1]]
  }

  /** The sum of all values, in key order. */
  function Sum<K>(m: OrderedMap<K, real>): real
    requires Valid(m)
  {
    SumOf(m.keys, m.values)
  }

  /** Changing the value of a key that occurs nowhere in `keys` leaves their sum alone. */
  lemma {:induction false} SumOfOther<K>(keys: seq<K>, values: map<K, real>, k: K, v: real)
    requires forall x :: x in keys ==> x in values
    requires k !in keys
    ensures SumOf(keys, values[k := v]) == SumOf(keys, values)
  {
    if keys != [] {
      SumOfOther(keys[..|keys| - 1], values, k, v);
    }
  }

  /** Adding `a` to the value of a key that occurs once in `keys` adds `a` to their sum. */
  lemma {:induction false} SumOfBump<K>(keys: seq<K>, values: map<K, real>, k: K, a: real)
    requires forall x :: x in keys ==> x in values
    requires forall i, j :: 0 <= i < j < |keys| ==> keys[i] != keys[j]
    requires k in keys
    ensures SumOf(keys, values[k := values[k] + a]) == SumOf(keys, values) + a
  {
    var init := keys[..|keys| - 1];
    if keys[|keys| - 1] == k {
      assert k !in init;
      SumOfOther(init, values, k, values[k] + a);
    } else {
      assert k in init;
      SumOfBump(init, values, k, a);
    }
  }

  /** The running-total update adds exactly `a` to the sum of all values. */
  lemma AddToSum<K>(m: OrderedMap<K, real>, k: K, a: real)
    requires Valid(m)
    ensures Sum(AddTo(m, k, a)) == Sum(m) + a
  {
    var r := AddTo(m, k, a);
    if k in m.keys {
      SumOfBump(m.keys, m.values, k, a);
    } else {
      SumOfOther(m.keys, m.values, k, a);
      SumOfSnoc(m.keys, k, r.values);
    }
  }

  lemma SumOfSnoc<K>(keys: seq<K>, k: K, values: map<K, real>)
    requires forall x :: x in keys + [k] ==> x in values
    ensures SumOf(keys + [k], values) == SumOf(keys, values) + values[k]
  {
    assert (keys + [k])[..|keys|] == keys;
  }

  /** `Array.from(m.entries())`: the key-value pairs in key order. */
  function Entries<K, V>(m: OrderedMap<K, V>): (r: seq<(K, V)>)
    requires Valid(m)
    ensures |r| == |m.keys|
    ensures forall i :: 0 <= i < |r| ==> r[i].0 == m.keys[i] && m.keys[i] in m.values && r[i].1 == m.values[m.keys[i]]
  {
    EntriesOf(m.keys, m.values)
  }

  function EntriesOf<K, V>(keys: seq<K>, values: map<K, V>): (r: seq<(K, V)>)
    requires forall k :: k in keys ==> k in values
    ensures |r| == |keys|
    ensures forall i :: 0 <= i < |r| ==> r[i] == (keys[i], values[keys[i]])
  {
    if keys == [] then [] else EntriesOf(keys[..|keys| - 1], values) + [(keys[|keys| - 1], values[keys[|keys| - 1]])]
  }

  /** Setting a new key appends one entry and leaves the others alone. */
  lemma EntriesPutNew<K, V>(m: OrderedMap<K, V>, k: K, v: V)
    requires Valid(m) && k !in m.values
    ensures Entries(Put(m, k, v)) == Entries(m) + [(k, v)]
  {
    var before, after := Entries(m), Entries(Put(m, k, v));
    assert k !in m.keys;
    forall i | 0 <= i < |before| ensures after[i] == before[i] {
      assert m.keys[i] in m.values;
    }
  }

  /** Every key appears among the entries, paired with its value. */
  lemma EntriesComplete<K, V>(m: OrderedMap<K, V>, k: K)
    requires Valid(m) && k in m.values
    ensures (k, m.values[k]) in Entries(m)
  {
    var i :| 0 <= i < |m.keys| && m.keys[i] == k;
    assert Entries(m)[i] == (k, m.values[k]);
  }

  /** The value of an entry. */
  function Value<K>(): ((K, real)) -> real
  {
    (e: (K, real)) => e.1
  }

  /** Adding up the values of the entries gives the sum of the map. */
  lemma EntriesTotal<K>(m: OrderedMap<K, real>)
    requires Valid(m)
    ensures Total(Entries(m), Value()) == Sum(m)
  {
    EntriesOfTotal(m.keys, m.values);
  }

  lemma {:induction false} EntriesOfTotal<K>(keys: seq<K>, values: map<K, real>)
    requires forall k :: k in keys ==> k in values
    ensures Total(EntriesOf(keys, values), Value()) == SumOf(keys, values)
  {
    if keys != [] {
      EntriesOfTotal(keys[..|keys| - 1], values);
      var es := EntriesOf(keys, values);
      assert es[..|es| - 1] == EntriesOf(keys[..|keys| - 1], values);
    }
  }

  lemma {:induction false} SumOfAppend<K>(a: seq<K>, b: seq<K>, values: map<K, real>)
    requires forall k :: k in a + b ==> k in values
    ensures SumOf(a + b, values) == SumOf(a, values) + SumOf(b, values)
  {
    if b != [] {
      var ab := a + b;
      assert ab[..|ab| - 1] == a + b[..|b| - 1];
      assert ab[|ab| - 1] == b[|b| - 1];
      SumOfAppend(a, b[..|b| - 1], values);
    } else {
      assert a + b == a;
    }
  }

  /** The sum over a list of keys does not depend on the order of the keys. */
  lemma {:induction false} SumOfPermutation<K>(a: seq<K>, b: seq<K>, values: map<K, real>)
    requires multiset(a) == multiset(b)
    requires forall k :: k in a ==> k in values
    requires forall k :: k in b ==> k in values
    ensures SumOf(a, values) == SumOf(b, values)
  {
    if a != [] {
      var init, x := a[..|a| - 1], a[|a| - 1];
      assert a == init + [x];
      assert multiset(init) == multiset(a) - multiset{x};
      assert x in multiset(b);
      var i :| 0 <= i < |b| && b[i] == x;
      var rest := SumOfRemove(b, i, values);
      SumOfPermutation(init, rest, values);
    }
  }

  /** Taking the key at `i` out of the list takes its value out of the sum. */
  lemma SumOfRemove<K>(b: seq<K>, i: nat, values: map<K, real>) returns (rest: seq<K>)
    requires i < |b|
    requires forall k :: k in b ==> k in values
    ensures rest == b[..i] + b[i + 1..]
    ensures multiset(rest) == multiset(b) - multiset{b[i]}
    ensures SumOf(b, values) == SumOf(rest, values) + values[b[i]]
  {
    rest := b[..i] + b[i + 1..];
    assert b == b[..i] + [b[i]] + b[i + 1..];
    assert multiset(b) == multiset(b[..i]) + multiset{b[i]} + multiset(b[i + 1..]);
    SumOfAppend(b[..i], b[i + 1..], values);
    SumOfAppend(b[..i] + [b[i]], b[i + 1..], values);
    SumOfAppend(b[..i], [b[i]], values);
  }

  /** A permutation of a list without repetitions has none either. */
  lemma DistinctPermutation<K>(a: seq<K>, b: seq<K>)
    requires multiset(a) == multiset(b)
    requires forall i, j :: 0 <= i < j < |a| ==> a[i] != a[j]
    ensures forall i, j :: 0 <= i < j < |b| ==> b[i] != b[j]
  {
    forall i, j | 0 <= i < j < |b| ensures b[i] != b[j] {
      if b[i] == b[j] {
        assert b == b[..j] + [b[j]] + b[j + 1..];
        assert b[i] in multiset(b[..j]);
        assert multiset(b)[b[j]] >= 2;
        DistinctOnce(a, b[j]);
        assert false;
      }
    }
  }

  lemma {:induction false} DistinctOnce<K>(a: seq<K>, x: K)
    requires forall i, j :: 0 <= i < j < |a| ==> a[i] != a[j]
    ensures multiset(a)[x] <= 1
  {
    if a != [] {
      var init := a[..|a| - 1];
      assert a == init + [a[|a| - 1]];
      DistinctOnce(init, x);
      if a[|a| - 1] == x {
        assert x !in init;
      }
    }
  }
}
