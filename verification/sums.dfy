/** Sums over the values of a finite map. */
module Sums {

  ghost function Sum<K>(m: map<K, nat>): nat {
    if m == map[] then 0
    else
      var k :| k in m;
      m[k] + Sum(m - {k})
  }

  ghost function At<K>(m: map<K, nat>, k: K): nat {
    if k in m then m[k] else 0
  }

  lemma {:induction false} SumOut<K>(m: map<K, nat>, k: K)
    requires k in m
    ensures Sum(m) == m[k] + Sum(m - {k})
    decreases |m|
  {
    var j :| j in m && Sum(m) == m[j] + Sum(m - {j});
    if j != k {
      SumOut(m - {j}, k);
      SumOut(m - {k}, j);
      assert m - {j} - {k} == m - {k} - {j};
    }
  }

  lemma SumSplit<K>(m: map<K, nat>, k: K)
    ensures Sum(m) == At(m, k) + Sum(m - {k})
  {
    if k in m { SumOut(m, k); } else { assert m - {k} == m; }
  }

  lemma SumSet<K>(m: map<K, nat>, k: K, v: nat)
    ensures Sum(m[k := v]) + At(m, k) == Sum(m) + v
  {
    SumSplit(m, k);
    SumSplit(m[k := v], k);
    assert m[k := v] - {k} == m - {k};
  }

  lemma {:induction false} SumAdd<K>(keys: set<K>, a: map<K, nat>, b: map<K, nat>, c: map<K, nat>)
    requires a.Keys + b.Keys + c.Keys <= keys
    requires forall k | k in keys :: At(c, k) == At(a, k) + At(b, k)
    ensures Sum(c) == Sum(a) + Sum(b)
    decreases keys
  {
    if keys != {} {
      var k :| k in keys;
      SumSplit(a, k);
      SumSplit(b, k);
      SumSplit(c, k);
      SumAdd(keys - {k}, a - {k}, b - {k}, c - {k});
    }
  }

  lemma SumSame<K(!new)>(a: map<K, nat>, b: map<K, nat>)
    requires forall k :: At(a, k) == At(b, k)
    ensures Sum(a) == Sum(b)
  {
    SumAdd(a.Keys + b.Keys, a, map[], b);
  }

  lemma {:induction false} SumPositive<K>(m: map<K, nat>) returns (k: K)
    requires Sum(m) > 0
    ensures k in m && m[k] > 0
    decreases m.Keys
  {
    k :| k in m && Sum(m) == m[k] + Sum(m - {k});
    if m[k] == 0 { k := SumPositive(m - {k}); }
  }

  lemma {:induction false} SumLe<K>(keys: set<K>, a: map<K, nat>, b: map<K, nat>)
    requires a.Keys <= keys && b.Keys <= keys && forall k | k in keys :: At(a, k) <= At(b, k)
    ensures Sum(a) <= Sum(b)
    decreases keys
  {
    if keys != {} {
      var k :| k in keys;
      SumSplit(a, k);
      SumSplit(b, k);
      SumLe(keys - {k}, a - {k}, b - {k});
    }
  }

  lemma Distribute(a: nat, n: nat)
    ensures a * (n + 1) == a * n + a
  {
  }

  lemma {:induction false} SumBound<K>(keys: set<K>, m: map<K, nat>, bound: nat)
    requires m.Keys <= keys && forall k | k in m :: m[k] <= bound
    ensures Sum(m) <= bound * |keys|
    decreases keys
  {
    if k :| k in keys {
      var others := keys - {k};
      assert At(m, k) <= bound;
      SumSplit(m, k);
      SumBound(others, m - {k}, bound);
      Distribute(bound, |others|);
      assert |keys| == |others| + 1;
    } else {
      assert m == map[];
    }
  }
}
