/** Sums over multisets and over the values of a map, which come out the same
    whatever order the elements are taken in, and the sizes of sets. */
module Bags {

  ghost function Pick<T>(ms: multiset<T>): (x: T)
    requires ms != multiset{}
    ensures x in ms
  {
    var x :| x in ms; x
  }

  /** The sum of `f` over the elements, each as often as it occurs. */
  ghost function Sum<T(!new)>(ms: multiset<T>, f: T -> nat): nat
    decreases |ms|
  {
    if ms == multiset{} then 0 else f(Pick(ms)) + Sum(ms - multiset{Pick(ms)}, f)
  }

  lemma {:induction false} SumTakesOut<T(!new)>(ms: multiset<T>, x: T, f: T -> nat)
    requires x in ms
    ensures Sum(ms, f) == f(x) + Sum(ms - multiset{x}, f)
    decreases |ms|
  {
    var y := Pick(ms);
    if x != y {
      var without := ms - multiset{x} - multiset{y};
      assert without == ms - multiset{y} - multiset{x};
      SumTakesOut(ms - multiset{y}, x, f);
      SumTakesOut(ms - multiset{x}, y, f);
    }
  }

  lemma SumPutsIn<T(!new)>(ms: multiset<T>, x: T, f: T -> nat)
    ensures Sum(ms + multiset{x}, f) == Sum(ms, f) + f(x)
  {
    SumTakesOut(ms + multiset{x}, x, f);
    assert ms + multiset{x} - multiset{x} == ms;
  }

  lemma {:induction false} SumAdds<T(!new)>(a: multiset<T>, b: multiset<T>, f: T -> nat)
    ensures Sum(a + b, f) == Sum(a, f) + Sum(b, f)
    decreases |b|
  {
    if b == multiset{} {
      assert a + b == a;
    } else {
      var x := Pick(b);
      var b' := b - multiset{x};
      assert a + b == a + b' + multiset{x};
      SumAdds(a, b', f);
      SumPutsIn(a + b', x, f);
    }
  }

  ghost function PickKey<K, V>(m: map<K, V>): (k: K)
    requires m != map[]
    ensures k in m
  {
    var k :| k in m; k
  }

  /** What `f` makes of the values of a map, all together. */
  ghost function Gather<K, V, T>(m: map<K, V>, f: V -> multiset<T>): multiset<T>
    decreases |m|
  {
    if m == map[] then multiset{}
    else f(m[PickKey(m)]) + Gather(m - {PickKey(m)}, f)
  }

  lemma {:induction false} GatherTakesOut<K, V, T>(m: map<K, V>, k: K, f: V -> multiset<T>)
    requires k in m
    ensures Gather(m, f) == f(m[k]) + Gather(m - {k}, f)
    decreases |m|
  {
    var j := PickKey(m);
    if j != k {
      assert m - {j} - {k} == m - {k} - {j};
      GatherTakesOut(m - {j}, k, f);
      GatherTakesOut(m - {k}, j, f);
    }
  }

  /** Storing a value replaces the old one's share, if there was one. */
  lemma GatherPutsIn<K, V, T>(m: map<K, V>, k: K, v: V, f: V -> multiset<T>)
    ensures k !in m ==> Gather(m[k := v], f) == Gather(m, f) + f(v)
    ensures k in m ==> Gather(m[k := v], f) + f(m[k]) == Gather(m, f) + f(v)
  {
    GatherTakesOut(m[k := v], k, f);
    assert m[k := v] - {k} == m - {k};
    if k in m {
      GatherTakesOut(m, k, f);
    } else {
      assert m - {k} == m;
    }
  }

  /** The part of a map on some keys. */
  function Only<K, V>(m: map<K, V>, ks: set<K>): map<K, V> {
    map k | k in m && k in ks :: m[k]
  }

  lemma OnlyOneMore<K, V>(m: map<K, V>, ks: set<K>, k: K)
    requires k in m
    ensures Only(m, ks + {k}) == Only(m, ks)[k := m[k]]
  {
  }

  lemma GatherMovesOne<K, V, T>(m: map<K, V>, ks: set<K>, k: K, f: V -> multiset<T>)
    requires k in m && k !in ks
    ensures Gather(m - ks, f) == f(m[k]) + Gather(m - (ks + {k}), f)
    ensures Gather(Only(m, ks + {k}), f) == f(m[k]) + Gather(Only(m, ks), f)
  {
    GatherTakesOut(m - ks, k, f);
    assert m - ks - {k} == m - (ks + {k});
    OnlyOneMore(m, ks, k);
    GatherPutsIn(Only(m, ks), k, m[k], f);
  }

  /** Splitting a map along any set of its keys splits what it gathers. */
  lemma {:induction false} GatherSplits<K, V, T>(m: map<K, V>, ks: set<K>, f: V -> multiset<T>)
    requires ks <= m.Keys
    ensures Gather(m, f) == Gather(m - ks, f) + Gather(Only(m, ks), f)
    decreases |ks|
  {
    if ks == {} {
      assert m - ks == m;
      assert Only(m, ks) == map[];
    } else {
      var k :| k in ks;
      var rest := ks - {k};
      GatherSplits(m, rest, f);
      assert ks == rest + {k};
      GatherMovesOne(m, rest, k, f);
    }
  }

  lemma Cancel<T>(a: multiset<T>, b: multiset<T>, x: multiset<T>)
    requires a + x == b + x
    ensures a == b
  {
    forall e
      ensures a[e] == b[e]
    {
      assert (a + x)[e] == a[e] + x[e];
      assert (b + x)[e] == b[e] + x[e];
    }
  }

  lemma SubsetIsNoLarger<T>(a: set<T>, b: set<T>)
    requires a <= b
    ensures |a| <= |b|
    ensures |a| == |b| ==> a == b
  {
    assert b == a + (b - a);
  }

  lemma UnionIsNoLarger<T>(a: set<T>, b: set<T>)
    ensures |a + b| <= |a| + |b|
  {
    assert a + b == a + (b - a);
    SubsetIsNoLarger(b - a, b);
  }
}
