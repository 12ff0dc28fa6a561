/** Sums over finite maps, independent of the order of summation. */
module Sums {

  /** Sum of the values of a map. */
  ghost function Sum<K>(m: map<K, int>): (r: int)
    decreases |m|
  {
    if m == map[] then 0 else
    var k :| k in m;
    m[k] + Sum(m - {k})
  }

  /** Any key may be taken out first. */
  lemma {:induction false} SumRemove<K>(m: map<K, int>, k: K)
    requires k in m
    ensures Sum(m) == m[k] + Sum(m - {k})
    decreases |m|
  {
    var j :| j in m && Sum(m) == m[j] + Sum(m - {j});
    if j != k {
      SumRemove(m - {j}, k);
      SumRemove(m - {k}, j);
      assert m - {j} - {k} == m - {k} - {j};
    }
  }

  lemma SumUpdate<K>(m: map<K, int>, k: K, v: int)
    ensures Sum(m[k := v]) == Sum(m) - (if k in m then m[k] else 0) + v
  {
    SumRemove(m[k := v], k);
    assert m[k := v] - {k} == m - {k};
    if k in m {
      SumRemove(m, k);
    } else {
      assert m - {k} == m;
    }
  }

  lemma {:induction false} SumZero<K>(m: map<K, int>)
    requires forall k :: k in m ==> m[k] == 0
    ensures Sum(m) == 0
    decreases |m|
  {
    if m != map[] {
      var k :| k in m;
      SumRemove(m, k);
      SumZero(m - {k});
    }
  }

  lemma {:induction false} SumNonNegative<K>(m: map<K, int>)
    requires forall k :: k in m ==> m[k] >= 0
    ensures Sum(m) >= 0
    ensures forall k :: k in m ==> m[k] <= Sum(m)
    decreases |m|
  {
    forall k | k in m ensures 0 <= m[k] <= Sum(m) {
      SumRemove(m, k);
      SumNonNegative(m - {k});
    }
    if m != map[] {
      var k :| k in m;
    }
  }

  lemma {:induction false} SumAdd<K>(f: map<K, int>, g: map<K, int>, h: map<K, int>)
    requires f.Keys == g.Keys == h.Keys
    requires forall k :: k in h ==> h[k] == f[k] + g[k]
    ensures Sum(h) == Sum(f) + Sum(g)
    decreases |h|
  {
    if h == map[] {
      assert f == map[] && g == map[];
    } else {
      var k :| k in h;
      SumRemove(f, k);
      SumRemove(g, k);
      SumRemove(h, k);
      SumAdd(f - {k}, g - {k}, h - {k});
    }
  }

  /** Two sums, one of them nowhere above the other, are equal exactly when their parts are. */
  lemma {:induction false} SumBelow<K>(f: map<K, int>, g: map<K, int>)
    requires f.Keys == g.Keys && forall k :: k in f ==> f[k] <= g[k]
    ensures Sum(f) <= Sum(g) && (Sum(f) == Sum(g) <==> forall k :: k in f ==> f[k] == g[k])
    decreases |f|
  {
    if f == map[] {
      assert g == map[];
    } else {
      var k :| k in f;
      SumRemove(f, k);
      SumRemove(g, k);
      SumBelow(f - {k}, g - {k});
      assert forall j :: j in f <==> j == k || j in f - {k};
    }
  }

  /** Keys whose value is zero can be left out. */
  lemma {:induction false} SumSupport<K>(m: map<K, int>, part: map<K, int>)
    requires part.Keys <= m.Keys && forall k :: k in part ==> part[k] == m[k]
    requires forall k :: k in m && k !in part ==> m[k] == 0
    ensures Sum(m) == Sum(part)
    decreases |m|
  {
    hide Sum;
    if k :| k in m && k !in part {
      SumRemove(m, k);
      SumSupport(m - {k}, part);
    } else {
      assert part == m;
    }
  }

  /** Sum of a map that is zero away from one key. */
  lemma SumAtMostOne<K>(m: map<K, int>, j: K)
    requires forall k :: k in m && k != j ==> m[k] == 0
    ensures Sum(m) == if j in m then m[j] else 0
  {
    if j in m {
      SumRemove(m, j);
      SumZero(m - {j});
    } else {
      SumZero(m);
    }
  }

  /** Adding `n` keys that all have the same value. */
  lemma {:induction false} SumExtended<K>(m: map<K, int>, m': map<K, int>, c: int, n: nat)
    requires m.Keys <= m'.Keys && |m'.Keys| == |m.Keys| + n
    requires forall k :: k in m ==> m'[k] == m[k]
    requires forall k :: k in m'.Keys - m.Keys ==> m'[k] == c
    ensures Sum(m') == Sum(m) + n * c
    decreases n
  {
    hide Sum;
    var added := m'.Keys - m.Keys;
    assert m'.Keys == m.Keys + added && |added| == n;
    if n == 0 {
      assert added == {};
      assert m' == m;
    } else {
      var k :| k in added;
      var rest := m' - {k};
      assert rest.Keys == m'.Keys - {k};
      SumRemove(m', k);
      SumExtended(m, rest, c, n - 1);
      Times(n, c);
    }
  }

  lemma Times(n: nat, c: int)
    requires n > 0
    ensures n * c == (n - 1) * c + c
  {
  }
}
