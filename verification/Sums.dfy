/** Sums over finite maps, the one notion of "total" that every ledger below is measured by. */
module Sums {

  ghost function Sum(m: map<nat, nat>): nat
  {
    if m == map[] then 0 else
      var k :| k in m;
      m[k] + Sum(m - {k})
  }

  function Get(m: map<nat, nat>, k: nat): nat {
    if k in m then m[k] else 0
  }

  lemma {:induction false} SumRemove(m: map<nat, nat>, k: nat)
    requires k in m
    ensures Sum(m) == m[k] + Sum(m - {k})
    decreases |m|
  {
    var j :| j in m && Sum(m) == m[j] + Sum(m - {j});
    if j != k {
      SumRemove(m - {j}, k);
      SumRemove(m - {k}, j);
      assert m - {j} - {k} == m - {k} - {j};
    }
  }

  lemma SumUpdate(m: map<nat, nat>, k: nat, v: nat)
    ensures Sum(m[k := v]) + Get(m, k) == Sum(m) + v
  {
    SumRemove(m[k := v], k);
    assert m[k := v] - {k} == m - {k};
    if k in m {
      SumRemove(m, k);
    } else {
      assert m - {k} == m;
    }
  }

  lemma SumDrop(m: map<nat, nat>, k: nat)
    ensures Sum(m - {k}) + Get(m, k) == Sum(m)
  {
    if k in m {
      SumRemove(m, k);
    } else {
      assert m - {k} == m;
    }
  }

  /** A map that is pointwise below another one sums to no more. */
  lemma {:induction false} SumMonotone(m: map<nat, nat>, n: map<nat, nat>)
    requires forall k | k in m :: m[k] <= Get(n, k)
    ensures Sum(m) <= Sum(n)
    decreases |m|
  {
    if m != map[] {
      var k :| k in m;
      SumRemove(m, k);
      SumDrop(n, k);
      SumMonotone(m - {k}, n - {k});
    }
  }

  lemma SumEntry(m: map<nat, nat>, k: nat)
    ensures Get(m, k) <= Sum(m)
  {
    SumDrop(m, k);
  }

  lemma SumTwoEntries(m: map<nat, nat>, j: nat, k: nat)
    requires j != k
    ensures Get(m, j) + Get(m, k) <= Sum(m)
  {
    SumDrop(m, j);
    SumDrop(m - {j}, k);
  }

  lemma {:induction false} SumMerge(m: map<nat, nat>, n: map<nat, nat>)
    requires m.Keys !! n.Keys
    ensures Sum(m + n) == Sum(m) + Sum(n)
    decreases |m|
  {
    if m == map[] {
      assert m + n == n;
    } else {
      var k :| k in m;
      var rest := m - {k};
      SumMerge(rest, n);
      MergeWithout(m, n, k);
      SumRemove(m, k);
      SumRemove(m + n, k);
    }
  }

  lemma MergeWithout(m: map<nat, nat>, n: map<nat, nat>, k: nat)
    requires m.Keys !! n.Keys && k in m
    ensures (m + n) - {k} == (m - {k}) + n
    ensures (m + n)[k] == m[k]
  {
    assert k !in n;
  }

  lemma {:induction false} SumZero(m: map<nat, nat>)
    requires forall k | k in m :: m[k] == 0
    ensures Sum(m) == 0
    decreases |m|
  {
    if m != map[] {
      var k :| k in m;
      SumRemove(m, k);
      SumZero(m - {k});
    }
  }
}
