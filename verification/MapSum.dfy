/** The sum of the values of a finite map, in no particular order. */
module MapSum {

  function Get<K>(m: map<K, nat>, k: K): (n: nat) {
    if k in m then m[k] else 0
  }

  ghost function Sum<K>(m: map<K, nat>): (n: nat)
    decreases |m|
  {
    if m == map[] then 0
    else
      var k :| k in m;
      m[k] + Sum(m - {k})
  }

  /** Any key can be taken out first. */
  lemma {:induction false} SumRemove<K>(m: map<K, nat>, k: K)
    requires k in m
    ensures Sum(m) == m[k] + Sum(m - {k})
    decreases |m|
  {
    var j :| j in m && Sum(m) == m[j] + Sum(m - {j});
    if j != k {
      SumRemove(m - {j}, k);
      SumRemove(m - {k}, j);
      assert m - {j} - {k} == m - {k} - {j};
    }
  }

  lemma SumUpdate<K>(m: map<K, nat>, k: K, v: nat)
    ensures Sum(m[k := v]) == Sum(m) - Get(m, k) + v
  {
    var m' := m[k := v];
    SumRemove(m', k);
    if k in m {
      SumRemove(m, k);
      assert m' - {k} == m - {k};
    } else {
      assert m' - {k} == m;
    }
  }

  lemma {:induction false} SumAdd<K>(m: map<K, nat>, gain: map<K, nat>, grown: map<K, nat>)
    requires m.Keys == gain.Keys == grown.Keys
    requires forall k :: k in m ==> grown[k] == m[k] + gain[k]
    ensures Sum(grown) == Sum(m) + Sum(gain)
    decreases |m|
  {
    if m == map[] {
      assert gain == map[] && grown == map[];
    } else {
      var k :| k in m;
      SumAdd(m - {k}, gain - {k}, grown - {k});
      SumRemove(m, k);
      SumRemove(gain, k);
      SumRemove(grown, k);
    }
  }

  function Times(a: nat, b: nat): (n: nat) {
    a * b
  }

  /** `c` for every unit of weight is `c` times the total weight. */
  lemma {:induction false} SumTimes<K>(weights: map<K, nat>, c: nat, gain: map<K, nat>)
    requires weights.Keys == gain.Keys
    requires forall k :: k in gain ==> gain[k] == Times(weights[k], c)
    ensures Sum(gain) == Times(Sum(weights), c)
    decreases |weights|
  {
    hide Times;
    if weights == map[] {
      assert gain == map[];
      TimesZero(c);
    } else {
      var k :| k in weights;
      SumTimes(weights - {k}, c, gain - {k});
      SumRemove(weights, k);
      SumRemove(gain, k);
      TimesAdd(weights[k], Sum(weights - {k}), c);
    }
  }

  lemma TimesZero(n: nat)
    ensures Times(0, n) == 0 && Times(n, 0) == 0
  {
  }

  lemma TimesAdd(a: nat, b: nat, c: nat)
    ensures Times(a + b, c) == Times(a, c) + Times(b, c)
    ensures Times(a, c) == Times(c, a)
  {
  }

  lemma SumPart<K>(m: map<K, nat>, k: K)
    requires k in m
    ensures m[k] <= Sum(m)
  {
    SumRemove(m, k);
  }

  lemma {:induction false} SumZero<K>(m: map<K, nat>)
    requires forall k :: k in m ==> m[k] == 0
    ensures Sum(m) == 0
    decreases |m|
  {
    if m != map[] {
      var k :| k in m;
      SumRemove(m, k);
      SumZero(m - {k});
    }
  }

  /** Entries that are zero can be left out. */
  lemma {:induction false} SumNonZero<K>(m: map<K, nat>, part: map<K, nat>)
    requires part.Keys <= m.Keys && forall k :: k in m ==> m[k] == Get(part, k)
    ensures Sum(m) == Sum(part)
    decreases |m|
  {
    if m == map[] {
      assert part == map[];
    } else {
      var k :| k in m;
      SumRemove(m, k);
      SumNonZero(m - {k}, part - {k});
      if k in part {
        SumRemove(part, k);
      } else {
        assert part - {k} == part;
      }
    }
  }

  lemma {:induction false} SumLe<K>(m: map<K, nat>, n: map<K, nat>)
    requires m.Keys <= n.Keys && forall k :: k in m ==> m[k] <= n[k]
    ensures Sum(m) <= Sum(n)
    decreases |n|
  {
    if n == map[] {
      assert m == map[];
    } else {
      var k :| k in n;
      SumRemove(n, k);
      SumLe(m - {k}, n - {k});
      if k in m {
        SumRemove(m, k);
      } else {
        assert m - {k} == m;
      }
    }
  }
}
