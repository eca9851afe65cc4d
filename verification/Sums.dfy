/** Option, and sums over finite maps: what the accumulator loops over `Map.values()` compute. */
module Sums {

  datatype Option<+T> = None | Some(value: T)

  ghost function Sum<K(!new)>(m: map<K, nat>): nat
    decreases |m|
  {
    if m == map[] then 0
    else
      var k :| k in m;
      m[k] + Sum(m - {k})
  }

  /** The sum does not depend on the order in which the keys are visited. */
  lemma {:induction false} SumRemove<K(!new)>(m: map<K, nat>, k: K)
    requires k in m
    ensures Sum(m) == m[k] + Sum(m - {k})
    decreases |m|
  {
    var first :| first in m && Sum(m) == m[first] + Sum(m - {first});
    if first != k {
      SumRemove(m - {first}, k);
      SumRemove(m - {k}, first);
      assert m - {first} - {k} == m - {k} - {first};
    }
  }

  lemma SumAdd<K(!new)>(m: map<K, nat>, k: K, v: nat)
    requires k !in m
    ensures Sum(m[k := v]) == Sum(m) + v
  {
    SumRemove(m[k := v], k);
    assert m[k := v] - {k} == m;
  }

  lemma SumReplace<K(!new)>(m: map<K, nat>, k: K, v: nat)
    requires k in m
    ensures Sum(m[k := v]) + m[k] == Sum(m) + v
  {
    SumRemove(m, k);
    SumRemove(m[k := v], k);
    assert m[k := v] - {k} == m - {k};
  }

  lemma {:induction false} SumPointwise<K(!new)>(m: map<K, nat>, n: map<K, nat>)
    requires m.Keys <= n.Keys && forall k :: k in m ==> m[k] <= n[k]
    ensures Sum(m) <= Sum(n)
    decreases |n|
  {
    if n != map[] {
      var k :| k in n;
      SumRemove(n, k);
      if k in m {
        SumRemove(m, k);
        SumPointwise(m - {k}, n - {k});
      } else {
        SumPointwise(m, n - {k});
      }
    } else {
      assert m == map[];
    }
  }

  /** Dropping keys that hold zero leaves the sum alone. */
  lemma {:induction false} SumDropZeros<K(!new)>(m: map<K, nat>, n: map<K, nat>)
    requires n.Keys <= m.Keys && (forall k :: k in n ==> n[k] == m[k]) && forall k :: k in m && k !in n ==> m[k] == 0
    ensures Sum(m) == Sum(n)
    decreases |m|
  {
    if m == map[] {
      assert n == map[];
    } else {
      var k :| k in m;
      SumRemove(m, k);
      if k in n {
        SumRemove(n, k);
        SumDropZeros(m - {k}, n - {k});
      } else {
        SumDropZeros(m - {k}, n);
      }
    }
  }

  /** `a` and `b` are two disjoint parts of `m`. */
  ghost predicate Parts<K(!new)>(m: map<K, nat>, a: map<K, nat>, b: map<K, nat>) {
    && (forall k :: k in m <==> k in a || k in b)
    && (forall k :: k in a ==> k !in b && a[k] == m[k])
    && (forall k :: k in b ==> b[k] == m[k])
  }

  /** A sum splits over two disjoint parts. */
  lemma {:induction false} SumUnion<K(!new)>(m: map<K, nat>, a: map<K, nat>, b: map<K, nat>)
    requires Parts(m, a, b)
    ensures Sum(m) == Sum(a) + Sum(b)
    decreases |a|
  {
    if a == map[] {
      assert m == b;
    } else {
      var k :| k in a;
      SumRemove(m, k);
      SumRemove(a, k);
      assert Parts(m - {k}, a - {k}, b);
      SumUnion(m - {k}, a - {k}, b);
    }
  }
}
