/** Sums over the values of a map, independent of any order of its keys. */
module Sums {

  /** The sum of `share` over all values of `m`. */
  ghost function Total<K, V>(m: map<K, V>, share: V -> real): real
    decreases |m|
  {
    if m == map[] then 0.0
    else
      var k :| k in m;
      share(m[k]) + Total(m - {k}, share)
  }

  lemma {:induction false} TotalSplit<K, V>(m: map<K, V>, share: V -> real, k: K)
    requires k in m
    ensures Total(m, share) == share(m[k]) + Total(m - {k}, share)
    decreases |m|
  {
    var j :| j in m && Total(m, share) == share(m[j]) + Total(m - {j}, share);
    if j != k {
      TotalSplit(m - {j}, share, k);
      TotalSplit(m - {k}, share, j);
      assert m - {j} - {k} == m - {k} - {j};
    }
  }

  lemma TotalPut<K, V>(m: map<K, V>, share: V -> real, k: K, v: V)
    ensures Total(m[k := v], share) == Total(m - {k}, share) + share(v)
    ensures k in m ==> Total(m[k := v], share) == Total(m, share) - share(m[k]) + share(v)
    ensures k !in m ==> Total(m[k := v], share) == Total(m, share) + share(v)
  {
    TotalSplit(m[k := v], share, k);
    assert m[k := v] - {k} == m - {k};
    if k in m {
      TotalSplit(m, share, k);
    } else {
      assert m - {k} == m;
    }
  }

  lemma TotalDrop<K, V>(m: map<K, V>, share: V -> real, k: K)
    ensures Total(m - {k}, share) == Total(m, share) - if k in m then share(m[k]) else 0.0
  {
    if k in m {
      TotalSplit(m, share, k);
    } else {
      assert m - {k} == m;
    }
  }

  lemma {:induction false} TotalNonNegative<K, V>(m: map<K, V>, share: V -> real)
    requires forall k :: k in m ==> share(m[k]) >= 0.0
    ensures Total(m, share) >= 0.0
    decreases |m|
  {
    if m != map[] {
      var k :| k in m;
      TotalSplit(m, share, k);
      TotalNonNegative(m - {k}, share);
    }
  }

  lemma {:induction false} TotalAdds<K, V>(m: map<K, V>, whole: V -> real, left: V -> real, right: V -> real)
    requires forall k :: k in m ==> whole(m[k]) == left(m[k]) + right(m[k])
    ensures Total(m, whole) == Total(m, left) + Total(m, right)
    decreases |m|
  {
    if m != map[] {
      var k :| k in m;
      TotalSplit(m, whole, k);
      TotalSplit(m, left, k);
      TotalSplit(m, right, k);
      TotalAdds(m - {k}, whole, left, right);
    }
  }
}
