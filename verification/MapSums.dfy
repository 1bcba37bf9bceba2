/** Sums over the values of a finite map, and how they move when one entry changes. */
module MapSums {

  ghost function Pick<K>(m: map<K, nat>): (k: K)
    requires m != map[]
    ensures k in m
  {
    var k :| k in m; k
  }

  ghost function Sum<K>(m: map<K, nat>): nat
    decreases m.Keys
  {
    if m == map[] then 0 else
      var k := Pick(m);
      m[k] + Sum(m - {k})
  }

  /** The sum does not depend on the order in which the entries are taken out. */
  lemma {:induction false} SumSplit<K>(m: map<K, nat>, k: K)
    requires k in m
    ensures Sum(m) == m[k] + Sum(m - {k})
    decreases m.Keys
  {
    var j := Pick(m);
    if j == k {
    } else {
      SumSplit(m - {j}, k);
      SumSplit(m - {k}, j);
      assert m - {j} - {k} == m - {k} - {j};
    }
  }

  lemma SumPut<K>(m: map<K, nat>, k: K, x: nat)
    ensures Sum(m[k := x]) == Sum(m) - (if k in m then m[k] else 0) + x
  {
    SumSplit(m[k := x], k);
    assert m[k := x] - {k} == m - {k};
    if k in m {
      SumSplit(m, k);
    } else {
      assert m - {k} == m;
    }
  }

  lemma SumDrop<K>(m: map<K, nat>, k: K)
    ensures Sum(m - {k}) == Sum(m) - (if k in m then m[k] else 0)
  {
    if k in m {
      SumSplit(m, k);
    } else {
      assert m - {k} == m;
    }
  }

  function Only<K, V>(m: map<K, V>, ks: set<K>): map<K, V> { map k | k in m && k in ks :: m[k] }

  /** Taking some entries out lowers the sum by exactly what they held. */
  lemma {:induction false} SumDropAll<K>(m: map<K, nat>, ks: set<K>)
    ensures Sum(m - ks) + Sum(Only(m, ks)) == Sum(m)
    decreases ks
  {
    if ks == {} {
      assert m - ks == m;
    } else {
      var k :| k in ks;
      SumDrop(m, k);
      SumDropAll(m - {k}, ks - {k});
      assert m - ks == (m - {k}) - (ks - {k});
      SumDrop(Only(m, ks), k);
      assert Only(m, ks) - {k} == Only(m - {k}, ks - {k});
    }
  }

  /** A pointwise smaller map has a smaller sum. */
  lemma {:induction false} SumMonotone<K>(a: map<K, nat>, b: map<K, nat>)
    requires a.Keys == b.Keys
    requires forall k | k in a :: a[k] <= b[k]
    ensures Sum(a) <= Sum(b)
    decreases a.Keys
  {
    if a != map[] {
      var k := Pick(a);
      SumSplit(b, k);
      SumMonotone(a - {k}, b - {k});
    } else {
      assert b == map[];
    }
  }
}
