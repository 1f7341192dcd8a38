/**
 Facts about finite maps, lists and indexes that the broker model needs: the sum of a
 multiset-valued measure over a map, removal from duplicate-free lists, and keyed indexes
 that list a set of members exactly once.
 */
module Collections {

  datatype Option<+T> = None | Some(value: T)

  // ---------------------------------------------------------------- sums over maps

  /** The multiset sum of f over all the values of m. */
  ghost function Sum<K, V, E>(m: map<K, V>, f: V -> multiset<E>): multiset<E>
    decreases |m|
  {
    if m == map[] then multiset{}
    else
      var k :| k in m;
      f(m[k]) + Sum(m - {k}, f)
  }

  /** Any key can be taken out of the sum first. */
  lemma {:induction false} SumPick<K, V, E>(m: map<K, V>, f: V -> multiset<E>, k: K)
    requires k in m
    ensures Sum(m, f) == f(m[k]) + Sum(m - {k}, f)
    decreases |m|
  {
    var j :| j in m && Sum(m, f) == f(m[j]) + Sum(m - {j}, f);
    if j != k {
      SumPick(m - {j}, f, k);
      SumPick(m - {k}, f, j);
      assert m - {j} - {k} == m - {k} - {j};
    }
  }

  lemma SumUpdate<K, V, E>(m: map<K, V>, f: V -> multiset<E>, k: K, v: V)
    ensures Sum(m[k := v], f) == f(v) + Sum(m - {k}, f)
  {
    SumPick(m[k := v], f, k);
    assert m[k := v] - {k} == m - {k};
  }

  /** The update of one entry, as an equation between the two sums. */
  lemma SumReplace<K, V, E>(m: map<K, V>, f: V -> multiset<E>, k: K, v: V)
    requires k in m
    ensures Sum(m[k := v], f) + f(m[k]) == Sum(m, f) + f(v)
  {
    SumUpdate(m, f, k, v);
    SumPick(m, f, k);
  }

  lemma SumInsert<K, V, E>(m: map<K, V>, f: V -> multiset<E>, k: K, v: V)
    requires k !in m
    ensures Sum(m[k := v], f) == Sum(m, f) + f(v)
  {
    SumUpdate(m, f, k, v);
    assert m - {k} == m;
  }

  /** Maps whose values measure the same have the same sum. */
  lemma {:induction false} SumSame<K, V, E>(m: map<K, V>, m': map<K, V>, f: V -> multiset<E>)
    requires m.Keys == m'.Keys
    requires forall k | k in m :: f(m[k]) == f(m'[k])
    ensures Sum(m, f) == Sum(m', f)
    decreases |m|
  {
    if m == map[] {
      assert m' == map[];
    } else {
      var k :| k in m;
      SumPick(m, f, k);
      SumPick(m', f, k);
      SumSame(m - {k}, m' - {k}, f);
    }
  }

  /** The part of a map on the given keys. */
  function Only<K, V>(m: map<K, V>, ks: set<K>): map<K, V> {
    m - (m.Keys - ks)
  }

  lemma {:induction false} SumSplit<K, V, E>(m: map<K, V>, f: V -> multiset<E>, ks: set<K>)
    ensures Sum(m, f) == Sum(m - ks, f) + Sum(Only(m, ks), f)
    decreases |m|
  {
    if k :| k in m && k in ks {
      var rest := m - {k};
      SumSplit(rest, f, ks);
      assert Sum(m, f) == f(m[k]) + Sum(rest, f) by { SumPick(m, f, k); }
      assert Sum(Only(m, ks), f) == f(m[k]) + Sum(Only(rest, ks), f) by {
        SumPick(Only(m, ks), f, k);
        assert Only(m, ks) - {k} == Only(rest, ks);
      }
      assert m - ks == rest - ks;
    } else {
      assert m - ks == m && Only(m, ks) == map[];
    }
  }

  /** What one entry measures is part of the sum, and so are two entries together. */
  lemma SumParts<K, V, E>(m: map<K, V>, f: V -> multiset<E>, j: K, k: K)
    requires j in m && k in m
    ensures Sum(m, f) >= f(m[k])
    ensures j != k ==> Sum(m, f) >= f(m[j]) + f(m[k])
  {
    SumPick(m, f, k);
    if j != k { SumPick(m - {k}, f, j); }
  }

  /** What is in the sum comes from some entry. */
  lemma {:induction false} SumFrom<K, V, E>(m: map<K, V>, f: V -> multiset<E>, x: E) returns (k: K)
    requires x in Sum(m, f)
    ensures k in m && x in f(m[k])
    decreases |m|
  {
    k :| k in m && Sum(m, f) == f(m[k]) + Sum(m - {k}, f);
    if x !in f(m[k]) {
      k := SumFrom(m - {k}, f, x);
    }
  }

  /** An element at two positions is counted twice. */
  lemma CountedTwice<T>(xs: seq<T>, i: nat, j: nat)
    requires i < j < |xs| && xs[i] == xs[j]
    ensures multiset(xs)[xs[j]] >= 2
  {
    assert xs == xs[..j] + [xs[j]] + xs[j + 1..];
    assert xs[..j][i] == xs[j];
    assert xs[j] in multiset(xs[..j]);
  }

  // ---------------------------------------------------------------- lists without duplicates

  ghost predicate NoDup<T>(xs: seq<T>) {
    forall i, j | 0 <= i < j < |xs| :: xs[i] != xs[j]
  }

  /** The list without its first occurrence of x. */
  function RemoveFirst<T(==)>(xs: seq<T>, x: T): seq<T> {
    if xs == [] then []
    else if xs[0] == x then xs[1..]
    else [xs[0]] + RemoveFirst(xs[1..], x)
  }

  lemma {:induction false} RemoveFirstAt<T>(xs: seq<T>, x: T, i: nat)
    requires i < |xs| && xs[i] == x && x !in xs[..i]
    ensures RemoveFirst(xs, x) == xs[..i] + xs[i + 1..]
  {
    if i > 0 {
      assert xs[0] in xs[..i];
      assert xs[1..][..i - 1] == xs[..i][1..];
      RemoveFirstAt(xs[1..], x, i - 1);
    }
  }

  lemma {:induction false} RemoveFirstExact<T>(xs: seq<T>, x: T)
    requires NoDup(xs)
    ensures NoDup(RemoveFirst(xs, x))
    ensures forall y :: y in RemoveFirst(xs, x) <==> y in xs && y != x
    ensures x !in xs ==> RemoveFirst(xs, x) == xs
  {
    if xs != [] {
      assert xs == [xs[0]] + xs[1..];
      assert forall y :: y in xs <==> y == xs[0] || y in xs[1..];
      RemoveFirstExact(xs[1..], x);
      if xs[0] == x {
        assert forall y | y in xs[1..] :: y != x;
      } else {
        var r := RemoveFirst(xs[1..], x);
        assert xs[0] !in xs[1..];
        assert forall y :: y in [xs[0]] + r <==> y == xs[0] || y in r;
      }
    }
  }

  // ---------------------------------------------------------------- indexes

  /** The list stored under k; a Go map gives the empty list for a missing key. */
  function Get<K, V>(idx: map<K, seq<V>>, k: K): seq<V> {
    if k in idx then idx[k] else []
  }

  /** idx lists every member exactly once, under its own key, and nothing else. */
  ghost predicate Indexes<K, V>(idx: map<K, seq<V>>, members: set<V>, key: V -> K) {
    && (forall k | k in idx :: NoDup(idx[k]))
    && (forall k, v | k in idx && v in idx[k] :: v in members && key(v) == k)
    && (forall v | v in members :: v in Get(idx, key(v)))
  }

  function AddTo<K, V>(idx: map<K, seq<V>>, k: K, v: V): map<K, seq<V>> {
    idx[k := Get(idx, k) + [v]]
  }

  function RemoveFrom<K, V(==)>(idx: map<K, seq<V>>, k: K, v: V): map<K, seq<V>> {
    if k in idx && v in idx[k] then idx[k := RemoveFirst(idx[k], v)] else idx
  }

  lemma AddToIndexes<K, V>(idx: map<K, seq<V>>, members: set<V>, key: V -> K, v: V)
    requires Indexes(idx, members, key) && v !in members
    ensures Indexes(AddTo(idx, key(v), v), members + {v}, key)
  {
    var idx' := AddTo(idx, key(v), v);
    assert v !in Get(idx, key(v));
    forall w | w in members ensures w in Get(idx', key(w)) {
      assert w in Get(idx, key(w));
    }
    assert idx'[key(v)][|idx'[key(v)]| - 1] == v;
  }

  lemma RemoveFromIndexes<K, V>(idx: map<K, seq<V>>, members: set<V>, key: V -> K, v: V)
    requires Indexes(idx, members, key)
    ensures Indexes(RemoveFrom(idx, key(v), v), members - {v}, key)
  {
    var k := key(v);
    if k in idx && v in idx[k] {
      var xs, xs' := idx[k], RemoveFirst(idx[k], v);
      assert NoDup(xs') && forall y :: y in xs' <==> y in xs && y != v by { RemoveFirstExact(xs, v); }
      var idx' := idx[k := xs'];
      assert idx' == RemoveFrom(idx, k, v);
      forall j, w | j in idx' && w in idx'[j] ensures w in members - {v} && key(w) == j {
        assert w in idx[j];
      }
      forall w | w in members - {v} ensures w in Get(idx', key(w)) {
        assert w in Get(idx, key(w));
      }
    } else {
      assert v !in members;
      assert members - {v} == members;
    }
  }
}
