// Sums over the requests resident on one replica.

module Totals {

  ghost function Pick<K(!new)>(m: map<K, real>): (k: K)
    requires |m| > 0
    ensures k in m
  {
    var k :| k in m;
    k
  }

  ghost function Total<K(!new)>(m: map<K, real>): real {
    if |m| == 0 then 0.0 else m[Pick(m)] + Total(m - {Pick(m)})
  }

  // Any entry may be taken out first.
  lemma {:induction false} TotalWithout<K(!new)>(m: map<K, real>, k: K)
    requires k in m
    ensures Total(m) == m[k] + Total(m - {k})
    decreases |m|
  {
    var j := Pick(m);
    if j != k {
      assert k in m - {j} && j in m - {k};
      TotalWithout(m - {j}, k);
      TotalWithout(m - {k}, j);
      assert m - {j} - {k} == m - {k} - {j};
    }
  }

  lemma TotalWithoutAny<K(!new)>(m: map<K, real>, k: K)
    ensures Total(m - {k}) == Total(m) - if k in m then m[k] else 0.0
  {
    hide Total;
    if k in m {
      TotalWithout(m, k);
    } else {
      assert m - {k} == m;
    }
  }

  lemma TotalWith<K(!new)>(m: map<K, real>, k: K, v: real)
    ensures Total(m[k := v]) == Total(m) - (if k in m then m[k] else 0.0) + v
  {
    hide Total;
    assert m[k := v] - {k} == m - {k};
    TotalWithout(m[k := v], k);
    TotalWithoutAny(m, k);
  }

  lemma {:induction false} TotalNonNegative<K(!new)>(m: map<K, real>)
    requires forall j :: j in m ==> m[j] >= 0.0
    ensures Total(m) >= 0.0
    decreases |m|
  {
    if |m| > 0 {
      var k :| k in m;
      TotalWithout(m, k);
      TotalNonNegative(m - {k});
    }
  }

  lemma TotalCoversEntry<K(!new)>(m: map<K, real>, k: K)
    requires forall j :: j in m ==> m[j] >= 0.0
    requires k in m
    ensures Total(m) >= m[k]
  {
    TotalWithout(m, k);
    TotalNonNegative(m - {k});
  }

  lemma {:induction false} TotalOfSums<K(!new)>(a: map<K, real>, b: map<K, real>, c: map<K, real>)
    requires a.Keys == b.Keys == c.Keys
    requires forall k :: k in a ==> a[k] + b[k] == c[k]
    ensures Total(a) + Total(b) == Total(c)
    decreases |a|
  {
    if |a| > 0 {
      var k :| k in a;
      TotalWithout(a, k);
      TotalWithout(b, k);
      TotalWithout(c, k);
      TotalOfSums(a - {k}, b - {k}, c - {k});
    } else {
      assert |a.Keys| == 0;
      assert a == map[] && b == map[] && c == map[];
    }
  }

  // The values of the keys that `where` maps to r.
  ghost function On<K(!new), R(!new)>(where: map<K, R>, values: map<K, real>, r: R): map<K, real> {
    map k | k in values && k in where && where[k] == r :: values[k]
  }

  // What key k contributes to r.
  ghost function Share<K(!new), R(!new)>(where: map<K, R>, values: map<K, real>, r: R, k: K): real {
    if k in where && where[k] == r && k in values then values[k] else 0.0
  }

  lemma OnPlaced<K(!new), R(!new)>(where: map<K, R>, values: map<K, real>, k: K, dest: R, v: real, r: R)
    ensures var before := On(where, values, r);
            On(where[k := dest], values[k := v], r) == if dest == r then before[k := v] else before - {k}
  {
  }

  lemma PlaceEffect<K(!new), R(!new)>(where: map<K, R>, values: map<K, real>, k: K, dest: R, v: real, r: R)
    ensures Total(On(where[k := dest], values[k := v], r))
            == Total(On(where, values, r)) - Share(where, values, r, k) + if dest == r then v else 0.0
  {
    hide Total;
    OnPlaced(where, values, k, dest, v, r);
    TotalWith(On(where, values, r), k, v);
    TotalWithoutAny(On(where, values, r), k);
  }

  lemma RemoveEffect<K(!new), R(!new)>(where: map<K, R>, values: map<K, real>, k: K, r: R)
    ensures Total(On(where - {k}, values - {k}, r)) == Total(On(where, values, r)) - Share(where, values, r, k)
  {
    hide Total;
    assert On(where - {k}, values - {k}, r) == On(where, values, r) - {k};
    TotalWithoutAny(On(where, values, r), k);
  }
}
