/** Sums over the values of a finite map. */
module Sums {
  function ValueAt<K>(m: map<K, nat>, k: K): nat {
    if k in m then m[k] else 0
  }

  ghost function SumOver<K>(m: map<K, nat>, ks: set<K>): nat {
    if ks == {} then 0
    else
      var k :| k in ks;
      ValueAt(m, k) + SumOver(m, ks - {k})
  }

  ghost function Sum<K>(m: map<K, nat>): nat {
    SumOver(m, m.Keys)
  }

  lemma {:induction false} SumPick<K>(m: map<K, nat>, ks: set<K>, k: K)
    requires k in ks
    ensures SumOver(m, ks) == ValueAt(m, k) + SumOver(m, ks - {k})
  {
    var j :| j in ks && SumOver(m, ks) == ValueAt(m, j) + SumOver(m, ks - {j});
    if j != k {
      SumPick(m, ks - {j}, k);
      SumPick(m, ks - {k}, j);
      assert ks - {j} - {k} == ks - {k} - {j};
    }
  }

  lemma {:induction false} SumFrame<K>(m: map<K, nat>, n: map<K, nat>, ks: set<K>)
    requires forall k :: k in ks ==> ValueAt(m, k) == ValueAt(n, k)
    ensures SumOver(m, ks) == SumOver(n, ks)
  {
    if ks != {} {
      var k :| k in ks;
      SumPick(m, ks, k);
      SumPick(n, ks, k);
      SumFrame(m, n, ks - {k});
    }
  }

  /** The sum is one entry and all the others. */
  lemma SumSplit<K>(m: map<K, nat>, k: K)
    ensures Sum(m) == ValueAt(m, k) + SumOver(m, m.Keys - {k})
  {
    if k in m {
      SumPick(m, m.Keys, k);
    } else {
      assert m.Keys - {k} == m.Keys;
    }
  }

  /** Setting one entry moves the sum by that entry's difference. */
  lemma SumPut<K>(m: map<K, nat>, k: K, v: nat)
    ensures Sum(m[k := v]) == Sum(m) - ValueAt(m, k) + v
  {
    var n := m[k := v];
    SumSplit(m, k);
    SumSplit(n, k);
    assert n.Keys - {k} == m.Keys - {k};
    SumFrame(m, n, m.Keys - {k});
  }

  /** Two different entries never exceed the sum. */
  lemma TwoWithinSum<K>(m: map<K, nat>, j: K, k: K)
    requires j != k
    ensures ValueAt(m, j) + ValueAt(m, k) <= Sum(m)
  {
    SumSplit(m, j);
    if k in m {
      SumPick(m, m.Keys - {j}, k);
    }
  }
}
