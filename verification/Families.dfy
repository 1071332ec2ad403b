/** Counter families: label tuples with their counts, the partial matches that
    select among them, and the sums such a selection adds up to. */
module Families {
  import opened Bags

  datatype Option<T> = None | Some(value: T)

  /** One series. `labels` are the family's own labels, without site and path. */
  datatype Series = Series(site: string, labels: seq<string>, path: string)

  type Family = map<Series, nat>

  /** A partial match on the site, the first own label and the path. It is what
      a deletion names and what a `sum by` adds up. */
  datatype Query = Query(site: string, first: Option<string>, path: Option<string>)

  predicate Matches(q: Query, k: Series) {
    && k.site == q.site
    && (q.first.Some? ==> k.labels != [] && k.labels[0] == q.first.value)
    && (q.path.Some? ==> k.path == q.path.value)
  }

  function Inc(f: Family, k: Series): Family {
    f[k := (if k in f then f[k] else 0) + 1]
  }

  function Slice(f: Family, q: Query): Family {
    map k | k in f && Matches(q, k) :: f[k]
  }

  function Without(f: Family, q: Query): Family {
    map k | k in f && !Matches(q, k) :: f[k]
  }

  ghost function Total(f: Family): nat
    decreases |f|
  {
    if f == map[] then 0 else f[PickKey(f)] + Total(f - {PickKey(f)})
  }

  lemma {:induction false} TotalTakesOut(f: Family, k: Series)
    requires k in f
    ensures Total(f) == f[k] + Total(f - {k})
    decreases |f|
  {
    var j := PickKey(f);
    if j != k {
      assert f - {j} - {k} == f - {k} - {j};
      TotalTakesOut(f - {j}, k);
      TotalTakesOut(f - {k}, j);
    }
  }

  lemma TotalOfInc(f: Family, k: Series)
    ensures Total(Inc(f, k)) == Total(f) + 1
  {
    TotalTakesOut(Inc(f, k), k);
    assert Inc(f, k) - {k} == f - {k};
    if k in f {
      TotalTakesOut(f, k);
    } else {
      assert f - {k} == f;
    }
  }

  /** Taking series away takes exactly their counts away. */
  lemma {:induction false} TotalSplits(f: Family, ks: set<Series>)
    requires ks <= f.Keys
    ensures Total(f) == Total(f - ks) + Total(Only(f, ks))
    decreases |ks|
  {
    if ks == {} {
      assert f - ks == f;
      assert Only(f, ks) == map[];
    } else {
      var k :| k in ks;
      var rest := ks - {k};
      TotalSplits(f, rest);
      TotalTakesOut(f - rest, k);
      assert f - rest - {k} == f - ks;
      TotalTakesOut(Only(f, ks), k);
      assert Only(f, ks) - {k} == Only(f, rest);
    }
  }

  /** The sum of a family over a selection. */
  ghost function Mass(f: Family, q: Query): nat {
    Total(Slice(f, q))
  }

  lemma MassOfInc(f: Family, k: Series, q: Query)
    ensures Mass(Inc(f, k), q) == Mass(f, q) + if Matches(q, k) then 1 else 0
  {
    if Matches(q, k) {
      assert Slice(Inc(f, k), q) == Inc(Slice(f, q), k);
      TotalOfInc(Slice(f, q), k);
    } else {
      assert Slice(Inc(f, k), q) == Slice(f, q);
    }
  }

  lemma MassSplits(f: Family, ks: set<Series>, q: Query)
    requires ks <= f.Keys
    ensures Mass(f, q) == Mass(f - ks, q) + Mass(Only(f, ks), q)
  {
    var picked := Slice(Only(f, ks), q);
    TotalSplits(Slice(f, q), picked.Keys);
    assert Slice(f, q) - picked.Keys == Slice(f - ks, q);
    assert Only(Slice(f, q), picked.Keys) == picked;
  }
}
