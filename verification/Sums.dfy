/** Sums over the entries of a table. */
module Sums {

  /** What the values of the table amount to, each by its share. */
  ghost function Total<K(!new), V>(m: map<K, V>, share: V -> int): int
    decreases |m|
  {
    if m == map[] then 0
    else
      var k :| k in m;
      share(m[k]) + Total(m - {k}, share)
  }

  /** Any entry may be taken out first. */
  lemma {:induction false} TotalSplit<K(!new), V>(m: map<K, V>, k: K, share: V -> int)
    requires k in m
    ensures Total(m, share) == share(m[k]) + Total(m - {k}, share)
    decreases |m|
  {
    var j :| j in m && Total(m, share) == share(m[j]) + Total(m - {j}, share);
    if j != k {
      TotalSplit(m - {j}, k, share);
      TotalSplit(m - {k}, j, share);
      assert m - {j} - {k} == m - {k} - {j};
    }
  }

  lemma TotalUpdate<K(!new), V>(m: map<K, V>, k: K, v: V, share: V -> int)
    ensures Total(m[k := v], share) == Total(m, share) + share(v) - if k in m then share(m[k]) else 0
  {
    TotalSplit(m[k := v], k, share);
    assert m[k := v] - {k} == m - {k};
    if k in m {
      TotalSplit(m, k, share);
    } else {
      assert m - {k} == m;
    }
  }

  /** Where the shares add up, so do the totals. */
  lemma {:induction false} TotalAdds<K(!new), V(!new)>(m: map<K, V>, share: V -> int, some: V -> int, rest: V -> int)
    requires forall v :: share(v) == some(v) + rest(v)
    ensures Total(m, share) == Total(m, some) + Total(m, rest)
    decreases |m|
  {
    if m != map[] {
      var k :| k in m;
      TotalAdds(m - {k}, share, some, rest);
      TotalSplit(m, k, share);
      TotalSplit(m, k, some);
      TotalSplit(m, k, rest);
    }
  }
}
