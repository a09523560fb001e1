/** Sums of the values of a finite map, whatever order a loop over it takes. */
module MapSums {

  ghost function Sum<K>(m: map<K, int>): int
    decreases |m|
  {
    if m == map[] then 0 else
      var k :| k in m;
      assert (m - {k}).Keys == m.Keys - {k};
      m[k] + Sum(m - {k})
  }

  function Get<K>(m: map<K, int>, k: K): int {
    if k in m then m[k] else 0
  }

  /** Any key may be taken out first: the sum does not depend on the order. */
  lemma {:induction false} SumPick<K>(m: map<K, int>, k: K)
    requires k in m
    ensures Sum(m) == m[k] + Sum(m - {k})
    decreases |m|
  {
    var j :| j in m && Sum(m) == m[j] + Sum(m - {j});
    if j != k {
      assert (m - {j}).Keys == m.Keys - {j};
      assert (m - {k}).Keys == m.Keys - {k};
      SumPick(m - {j}, k);
      SumPick(m - {k}, j);
      assert m - {j} - {k} == m - {k} - {j};
    }
  }

  lemma {:induction false} SumDrop<K>(m: map<K, int>, k: K)
    ensures Sum(m - {k}) == Sum(m) - Get(m, k)
  {
    if k in m {
      SumPick(m, k);
    } else {
      assert m - {k} == m;
    }
  }

  lemma {:induction false} SumUpdate<K>(m: map<K, int>, k: K, v: int)
    ensures Sum(m[k := v]) == Sum(m) - Get(m, k) + v
  {
    SumPick(m[k := v], k);
    assert m[k := v] - {k} == m - {k};
    SumDrop(m, k);
  }

  /** Keys that carry zero do not matter. */
  lemma {:induction false} SumPad<K>(part: map<K, int>, whole: map<K, int>)
    requires part.Keys <= whole.Keys
    requires forall k :: k in whole ==> whole[k] == Get(part, k)
    ensures Sum(part) == Sum(whole)
    decreases |whole|
  {
    if whole == map[] {
      assert part == map[];
    } else {
      var k :| k in whole;
      SumPick(whole, k);
      SumDrop(part, k);
      assert (whole - {k}).Keys == whole.Keys - {k};
      SumPad(part - {k}, whole - {k});
    }
  }

  lemma {:induction false} SumAdd<K>(a: map<K, int>, b: map<K, int>, c: map<K, int>)
    requires a.Keys == b.Keys == c.Keys
    requires forall k :: k in c ==> c[k] == a[k] + b[k]
    ensures Sum(c) == Sum(a) + Sum(b)
    decreases |c|
  {
    if c == map[] {
      assert a == map[] && b == map[];
    } else {
      var k :| k in c;
      SumPick(a, k);
      SumPick(b, k);
      SumPick(c, k);
      assert (c - {k}).Keys == c.Keys - {k};
      SumAdd(a - {k}, b - {k}, c - {k});
    }
  }

  lemma {:induction false} SumAdd3<K>(a: map<K, int>, b: map<K, int>, c: map<K, int>, d: map<K, int>)
    requires a.Keys == b.Keys == c.Keys == d.Keys
    requires forall k :: k in d ==> d[k] == a[k] + b[k] + c[k]
    ensures Sum(d) == Sum(a) + Sum(b) + Sum(c)
  {
    var ab := map k | k in a :: a[k] + b[k];
    SumAdd(a, b, ab);
    SumAdd(ab, c, d);
  }

  lemma {:induction false} SumLe<K>(a: map<K, int>, b: map<K, int>)
    requires a.Keys == b.Keys
    requires forall k :: k in a ==> a[k] <= b[k]
    ensures Sum(a) <= Sum(b)
    decreases |a|
  {
    if a == map[] {
      assert b == map[];
    } else {
      var k :| k in a;
      SumPick(a, k);
      SumPick(b, k);
      assert (a - {k}).Keys == a.Keys - {k};
      SumLe(a - {k}, b - {k});
    }
  }
}
