/**
 * Sums over the values of a finite map, independent of the order in which
 * the keys are visited (JavaScript's `for...in` order is not modelled).
 */
module MapSums {

  /** Keep only the entries whose key is in `keys`. */
  function Restrict<K, V>(m: map<K, V>, keys: set<K>): (r: map<K, V>)
    ensures r.Keys == m.Keys * keys
    ensures forall k :: k in r ==> r[k] == m[k]
  {
    map k | k in m && k in keys :: m[k]
  }

  /** The sum of the values of an integer-valued map. */
  ghost function SumInt<K>(m: map<K, int>): int
    decreases |m|
  {
    if m == map[] then 0
    else
      var k :| k in m;
      m[k] + SumInt(m - {k})
  }

  /** The sum of the values of a real-valued map. */
  ghost function SumReal<K>(m: map<K, real>): real
    decreases |m|
  {
    if m == map[] then 0.0
    else
      var k :| k in m;
      m[k] + SumReal(m - {k})
  }

  /** The sum does not depend on which key is taken out first. */
  lemma {:induction false} SumIntRemove<K>(m: map<K, int>, k: K)
    requires k in m
    ensures SumInt(m) == m[k] + SumInt(m - {k})
    decreases |m|
  {
    var j :| j in m && SumInt(m) == m[j] + SumInt(m - {j});
    if j != k {
      SumIntRemove(m - {j}, k);
      SumIntRemove(m - {k}, j);
      assert (m - {j}) - {k} == (m - {k}) - {j};
    }
  }

  lemma {:induction false} SumRealRemove<K>(m: map<K, real>, k: K)
    requires k in m
    ensures SumReal(m) == m[k] + SumReal(m - {k})
    decreases |m|
  {
    var j :| j in m && SumReal(m) == m[j] + SumReal(m - {j});
    if j != k {
      SumRealRemove(m - {j}, k);
      SumRealRemove(m - {k}, j);
      assert (m - {j}) - {k} == (m - {k}) - {j};
    }
  }

  /** One step of a loop that visits the keys in `pending` in any order. */
  lemma SumIntStep<K>(m: map<K, int>, pending: set<K>, k: K)
    requires k in pending && k in m
    ensures SumInt(Restrict(m, pending)) == m[k] + SumInt(Restrict(m, pending - {k}))
  {
    SumIntRemove(Restrict(m, pending), k);
    assert Restrict(m, pending) - {k} == Restrict(m, pending - {k});
  }

  lemma SumRealStep<K>(m: map<K, real>, pending: set<K>, k: K)
    requires k in pending && k in m
    ensures SumReal(Restrict(m, pending)) == m[k] + SumReal(Restrict(m, pending - {k}))
  {
    SumRealRemove(Restrict(m, pending), k);
    assert Restrict(m, pending) - {k} == Restrict(m, pending - {k});
  }

  /** A map whose values are all non-negative has a non-negative sum. */
  lemma {:induction false} SumIntNonNegative<K>(m: map<K, int>)
    requires forall k :: k in m ==> m[k] >= 0
    ensures SumInt(m) >= 0
    decreases |m|
  {
    if m != map[] {
      var k :| k in m && SumInt(m) == m[k] + SumInt(m - {k});
      SumIntNonNegative(m - {k});
    }
  }
}
