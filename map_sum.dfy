/** Sums of the values held in a finite map, and how single-key updates and
    removals change them. Storage in the ledger treats an absent key as a
    zero value, so `Get` is the lookup every balance query goes through. */
module MapSum {

  /** Lookup with the storage default: an absent key reads as zero. */
  function Get<K>(m: map<K, nat>, k: K): (r: nat)
    ensures k in m ==> r == m[k]
    ensures k !in m ==> r == 0
  {
    if k in m then m[k] else 0
  }

  /** The sum of all values of `m` (the order of summation is irrelevant,
      which `SumRemove` establishes). */
  ghost function Sum<K>(m: map<K, nat>): nat
    decreases |m|
  {
    if |m| == 0 then 0
    else
      var k :| k in m;
      assert |m - {k}| < |m| by { SizeRemove(m, k); }
      m[k] + Sum(m - {k})
  }

  lemma SizeRemove<K>(m: map<K, nat>, k: K)
    requires k in m
    ensures |m - {k}| == |m| - 1
  {
    assert (m - {k}).Keys == m.Keys - {k};
  }

  lemma RemoveCommutes<K>(m: map<K, nat>, j: K, k: K)
    ensures (m - {j}) - {k} == (m - {k}) - {j}
  {
  }

  /** The key `Sum` splits off first, and the equation that defines it. */
  lemma SumUnfold<K>(m: map<K, nat>) returns (j: K)
    requires |m| > 0
    ensures j in m && Sum(m) == m[j] + Sum(m - {j})
  {
    j :| j in m && Sum(m) == m[j] + Sum(m - {j});
  }

  /** Any key may be split off first. */
  lemma {:induction false} SumRemove<K>(m: map<K, nat>, k: K)
    requires k in m
    ensures Sum(m) == m[k] + Sum(m - {k})
    decreases |m|
  {
    var j := SumUnfold(m);
    if j != k {
      var mj, mk := m - {j}, m - {k};
      SizeRemove(m, j);
      SizeRemove(m, k);
      assert k in mj && mj[k] == m[k];
      assert j in mk && mk[j] == m[j];
      RemoveCommutes(m, j, k);
      calc {
        Sum(m);
        m[j] + Sum(mj);
        { SumRemove(mj, k); }
        m[j] + (m[k] + Sum(mj - {k}));
        m[k] + (m[j] + Sum(mk - {j}));
        { SumRemove(mk, j); }
        m[k] + Sum(mk);
      }
    }
  }

  /** One entry never exceeds the sum. */
  lemma EntryBelowSum<K>(m: map<K, nat>, k: K)
    ensures Get(m, k) <= Sum(m)
  {
    if k in m {
      SumRemove(m, k);
    }
  }

  /** Writing `v` at `k` replaces the old (possibly default) value in the sum. */
  lemma SumUpdate<K>(m: map<K, nat>, k: K, v: nat)
    ensures Sum(m[k := v]) + Get(m, k) == Sum(m) + v
  {
    SumRemove(m[k := v], k);
    UpdateThenRemove(m, k, v);
    SumTake(m, k);
  }

  /** Removing `k` subtracts its (possibly default) value. */
  lemma SumTake<K>(m: map<K, nat>, k: K)
    ensures Sum(m - {k}) + Get(m, k) == Sum(m)
  {
    if k in m {
      SumRemove(m, k);
    } else {
      RemoveAbsent(m, k);
    }
  }

  lemma UpdateThenRemove<K>(m: map<K, nat>, k: K, v: nat)
    ensures m[k := v] - {k} == m - {k}
  {
  }

  lemma RemoveAbsent<K>(m: map<K, nat>, k: K)
    requires k !in m
    ensures m - {k} == m
  {
  }

  lemma SumSingleton<K>(k: K, v: nat)
    ensures Sum(map[k := v]) == v
  {
    var e: map<K, nat> := map[];
    SumUpdate(e, k, v);
    assert e[k := v] == map[k := v];
  }
}
