// Sums of the values of finite maps: the arithmetic behind order totals, the
// money ledger and the aggregate version of a cached seat map.
module Sums {

  ghost function Pick<K>(m: map<K, nat>): (k: K)
    requires m.Keys != {}
    ensures k in m
  {
    var k :| k in m.Keys;
    k
  }

  ghost function MapSum<K>(m: map<K, nat>): nat
    decreases m.Keys
  {
    if m.Keys == {} then 0 else
      var k := Pick(m);
      m[k] + MapSum(m - {k})
  }

  lemma {:induction false} SumRemove<K>(m: map<K, nat>, k: K)
    requires k in m
    ensures MapSum(m) == m[k] + MapSum(m - {k})
    decreases m.Keys
  {
    var p := Pick(m);
    if p != k {
      var a, b := m - {p}, m - {k};
      SumRemove(a, k);
      SumRemove(b, p);
      assert a - {k} == b - {p};
    }
  }

  lemma SumEmpty<K(!new)>(m: map<K, nat>)
    requires forall k :: k !in m
    ensures MapSum(m) == 0
  {
    assert m.Keys == {};
  }

  lemma SumAdd<K>(m: map<K, nat>, k: K, v: nat)
    requires k !in m
    ensures MapSum(m[k := v]) == MapSum(m) + v
  {
    SumRemove(m[k := v], k);
    assert m[k := v] - {k} == m;
  }

  lemma SumReplace<K>(m: map<K, nat>, k: K, v: nat)
    requires k in m
    ensures MapSum(m[k := v]) == MapSum(m) - m[k] + v
  {
    SumRemove(m, k);
    SumRemove(m[k := v], k);
    assert m[k := v] - {k} == m - {k};
  }

  lemma {:induction false} SumUnion<K>(m: map<K, nat>, n: map<K, nat>)
    requires forall k :: k in n ==> k !in m
    ensures MapSum(m + n) == MapSum(m) + MapSum(n)
    decreases n.Keys
  {
    if n.Keys == {} {
      assert m + n == m;
    } else {
      var k := Pick(n);
      var rest := n - {k};
      SumUnion(m, rest);
      SumRemove(n, k);
      UnionRemove(m, n, k);
      SumRemove(m + n, k);
    }
  }

  lemma UnionRemove<K>(m: map<K, nat>, n: map<K, nat>, k: K)
    requires k !in m
    ensures (m + n) - {k} == m + (n - {k})
  {
  }

  // Pointwise order carries over to sums, and a strict step anywhere is visible in the sum.
  lemma {:induction false} SumMonotone<K>(m: map<K, nat>, n: map<K, nat>)
    requires m.Keys <= n.Keys
    requires forall k :: k in m ==> m[k] <= n[k]
    ensures MapSum(m) <= MapSum(n)
    ensures forall k :: k in m && m[k] < n[k] ==> MapSum(m) < MapSum(n)
    decreases m.Keys
  {
    if m.Keys != {} {
      var p := Pick(m);
      SumRemove(m, p);
      SumRemove(n, p);
      SumMonotone(m - {p}, n - {p});
      forall k | k in m && m[k] < n[k]
        ensures MapSum(m) < MapSum(n)
      {
        if k != p {
          assert k in m - {p};
        }
      }
    }
  }
}
