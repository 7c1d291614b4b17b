/** Sums over the entries of a finite map. */
module Sums {

  ghost function Sum<T>(m: map<nat, T>, f: T -> nat): nat
    decreases |m|
  {
    if m == map[] then 0
    else
      var k :| k in m;
      f(m[k]) + Sum(m - {k}, f)
  }

  ghost function At<T>(m: map<nat, T>, f: T -> nat, k: nat): nat {
    if k in m then f(m[k]) else 0
  }

  lemma {:induction false} SumSplit<T>(m: map<nat, T>, f: T -> nat, k: nat)
    ensures Sum(m, f) == At(m, f, k) + Sum(m - {k}, f)
    decreases |m|
  {
    if k !in m {
      assert m - {k} == m;
    } else {
      var j :| j in m && Sum(m, f) == f(m[j]) + Sum(m - {j}, f);
      if j != k {
        SumSplit(m - {j}, f, k);
        SumSplit(m - {k}, f, j);
        assert m - {j} - {k} == m - {k} - {j};
      }
    }
  }

  /** Two maps that differ at most at `k`. */
  lemma SumChange<T>(m: map<nat, T>, m': map<nat, T>, f: T -> nat, k: nat)
    requires m - {k} == m' - {k}
    ensures Sum(m', f) + At(m, f, k) == Sum(m, f) + At(m', f, k)
  {
    SumSplit(m, f, k);
    SumSplit(m', f, k);
  }
}
