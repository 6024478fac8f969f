/** Sums over the entries of a dictionary. */
module MapSums {

  /** The multiset sum of f over the values of m. */
  ghost function Sum<K(!new), V(!new), T>(m: map<K, V>, f: V -> multiset<T>): multiset<T>
    decreases |m|
  {
    if m == map[] then multiset{}
    else
      var k :| k in m;
      f(m[k]) + Sum(m - {k}, f)
  }

  /** The sum does not depend on the order in which entries are taken. */
  lemma {:induction false} SumTake<K(!new), V(!new), T>(m: map<K, V>, f: V -> multiset<T>, k: K)
    requires k in m
    ensures Sum(m, f) == f(m[k]) + Sum(m - {k}, f)
    decreases |m|
  {
    var l :| l in m && Sum(m, f) == f(m[l]) + Sum(m - {l}, f);
    if l != k {
      SumTake(m - {l}, f, k);
      SumTake(m - {k}, f, l);
      assert m - {l} - {k} == m - {k} - {l};
    }
  }

  lemma SumUpdate<K(!new), V(!new), T>(m: map<K, V>, f: V -> multiset<T>, k: K, v: V)
    ensures Sum(m[k := v], f) == f(v) + Sum(m - {k}, f)
    ensures k in m ==> Sum(m, f) == f(m[k]) + Sum(m - {k}, f)
    ensures k !in m ==> Sum(m, f) == Sum(m - {k}, f)
  {
    SumTake(m[k := v], f, k);
    assert m[k := v] - {k} == m - {k};
    if k in m {
      SumTake(m, f, k);
    } else {
      assert m - {k} == m;
    }
  }

  /** What two different entries hold is there twice in the sum. */
  lemma SumTwo<K(!new), V(!new), T>(m: map<K, V>, f: V -> multiset<T>, k: K, l: K)
    requires k in m && l in m && k != l
    ensures f(m[k]) + f(m[l]) <= Sum(m, f)
  {
    SumTake(m, f, k);
    SumTake(m - {k}, f, l);
  }

  /** Everything in the sum is held by some entry. */
  lemma {:induction false} SumWitness<K(!new), V(!new), T>(m: map<K, V>, f: V -> multiset<T>, x: T) returns (k: K)
    requires x in Sum(m, f)
    ensures k in m && x in f(m[k])
    decreases |m|
  {
    var l :| l in m && Sum(m, f) == f(m[l]) + Sum(m - {l}, f);
    if x in f(m[l]) {
      k := l;
    } else {
      k := SumWitness(m - {l}, f, x);
    }
  }

  /** The sum of the numbers f gives for the values of m. */
  ghost function Total<K(!new), V(!new)>(m: map<K, V>, f: V -> int): int
    decreases |m|
  {
    if m == map[] then 0
    else
      var k :| k in m;
      f(m[k]) + Total(m - {k}, f)
  }

  lemma {:induction false} TotalTake<K(!new), V(!new)>(m: map<K, V>, f: V -> int, k: K)
    requires k in m
    ensures Total(m, f) == f(m[k]) + Total(m - {k}, f)
    decreases |m|
  {
    var l :| l in m && Total(m, f) == f(m[l]) + Total(m - {l}, f);
    if l != k {
      TotalTake(m - {l}, f, k);
      TotalTake(m - {k}, f, l);
      assert m - {l} - {k} == m - {k} - {l};
    }
  }

  lemma TotalUpdate<K(!new), V(!new)>(m: map<K, V>, f: V -> int, k: K, v: V)
    ensures Total(m[k := v], f) == f(v) + Total(m - {k}, f)
    ensures k in m ==> Total(m, f) == f(m[k]) + Total(m - {k}, f)
    ensures k !in m ==> Total(m, f) == Total(m - {k}, f)
  {
    TotalTake(m[k := v], f, k);
    assert m[k := v] - {k} == m - {k};
    if k in m {
      TotalTake(m, f, k);
    } else {
      assert m - {k} == m;
    }
  }

  lemma {:induction false} SumSame<K(!new), V(!new), T>(m: map<K, V>, n: map<K, V>, f: V -> multiset<T>)
    requires m.Keys == n.Keys && forall k :: k in m ==> f(m[k]) == f(n[k])
    ensures Sum(m, f) == Sum(n, f)
    decreases |m|
  {
    if m == map[] {
      assert n == map[];
    } else {
      var k :| k in m;
      SumTake(m, f, k);
      SumTake(n, f, k);
      SumSame(m - {k}, n - {k}, f);
    }
  }

  lemma {:induction false} TotalSame<K(!new), V(!new)>(m: map<K, V>, n: map<K, V>, f: V -> int)
    requires m.Keys == n.Keys && forall k :: k in m ==> f(m[k]) == f(n[k])
    ensures Total(m, f) == Total(n, f)
    decreases |m|
  {
    if m == map[] {
      assert n == map[];
    } else {
      var k :| k in m;
      TotalTake(m, f, k);
      TotalTake(n, f, k);
      TotalSame(m - {k}, n - {k}, f);
    }
  }
}
