/**
 The sum of the values of a finite map, and how it changes when one entry is
 written. The ledgers use it to state supply conservation.
 */
module MapSum {

  /** Some key of a non-empty set; the same one every time for the same set. */
  ghost function Pick<K>(keys: set<K>): (k: K)
    requires keys != {}
    ensures k in keys
  {
    var k :| k in keys; k
  }

  /** The sum of all values stored in `m`. */
  ghost function Sum<K>(m: map<K, nat>): nat
    decreases |m.Keys|
  {
    if m.Keys == {} then 0
    else
      var k := Pick(m.Keys);
      assert (m - {k}).Keys == m.Keys - {k};
      m[k] + Sum(m - {k})
  }

  /** The sum splits into any one entry plus the sum of the rest. */
  lemma {:induction false} SumRemove<K>(m: map<K, nat>, k: K)
    requires k in m
    ensures Sum(m) == m[k] + Sum(m - {k})
    decreases |m.Keys|
  {
    var j := Pick(m.Keys);
    assert (m - {j}).Keys == m.Keys - {j};
    if j != k {
      var rest := m - {j};
      assert k in rest;
      assert (rest - {k}).Keys == rest.Keys - {k};
      SumRemove(rest, k);
      var other := m - {k};
      assert j in other;
      assert other.Keys == m.Keys - {k};
      SumRemove(other, j);
      assert rest - {k} == other - {j};
    }
  }

  /** Writing `v` at `k` replaces the old value (zero when absent) in the sum. */
  lemma {:induction false} SumUpdate<K>(m: map<K, nat>, k: K, v: nat)
    ensures Sum(m[k := v]) + (if k in m then m[k] else 0) == Sum(m) + v
  {
    var m' := m[k := v];
    SumRemove(m', k);
    if k in m {
      SumRemove(m, k);
      assert m' - {k} == m - {k};
    } else {
      assert m' - {k} == m;
    }
  }

  /** A single entry is the whole sum. */
  lemma {:induction false} SumSingleton<K>(k: K, v: nat)
    ensures Sum(map[k := v]) == v
  {
    var m: map<K, nat> := map[];
    SumUpdate(m, k, v);
    assert m[k := v] == map[k := v];
  }

  /** No entry exceeds the sum. */
  lemma {:induction false} EntryAtMostSum<K>(m: map<K, nat>, k: K)
    requires k in m
    ensures m[k] <= Sum(m)
  {
    SumRemove(m, k);
  }
}
