/** Sums over finite maps and ascending enumerations of finite sets: what the SQL aggregates and
    ORDER BY clauses of the repository need. */
module Sums {

  function Get<K(==)>(m: map<K, int>, k: K): int {
    if k in m then m[k] else 0
  }

  ghost function Sum<K>(m: map<K, int>): int
    decreases |m|
  {
    if m == map[] then 0
    else
      var k :| k in m;
      m[k] + Sum(m - {k})
  }

  // Any key may be summed first.
  lemma {:induction false} SumPick<K>(m: map<K, int>, k: K)
    requires k in m
    ensures Sum(m) == m[k] + Sum(m - {k})
    decreases |m|
  {
    var p :| p in m && Sum(m) == m[p] + Sum(m - {p});
    if p != k {
      SumPick(m - {p}, k);
      SumPick(m - {k}, p);
      assert (m - {p}) - {k} == (m - {k}) - {p};
    }
  }

  lemma SumPut<K>(m: map<K, int>, k: K, v: int)
    ensures Sum(m[k := v]) == v + Sum(m - {k})
  {
    SumPick(m[k := v], k);
    assert m[k := v] - {k} == m - {k};
  }

  // Pointwise order; a key absent from a map counts as zero there.
  ghost predicate Below<K(!new)>(a: map<K, int>, b: map<K, int>) {
    forall k :: Get(a, k) <= Get(b, k)
  }

  lemma BelowDrop<K(!new)>(a: map<K, int>, b: map<K, int>, k: K)
    requires Below(a, b)
    ensures Below(a - {k}, b - {k})
  {
    forall j
      ensures Get(a - {k}, j) <= Get(b - {k}, j)
    {
      assert Get(a, j) <= Get(b, j);
    }
  }

  lemma {:induction false} SumLeq<K(!new)>(a: map<K, int>, b: map<K, int>)
    requires Below(a, b)
    ensures Sum(a) <= Sum(b)
    decreases |a| + |b|
  {
    var keys := a.Keys + b.Keys;
    if keys != {} {
      var k :| k in keys;
      SumDrop(a, k);
      SumDrop(b, k);
      assert Get(a, k) <= Get(b, k);
      BelowDrop(a, b, k);
      DropShrinks(a, b, k);
      SumLeq(a - {k}, b - {k});
    } else {
      assert forall k :: k in a || k in b ==> k in keys;
      assert a == map[] && b == map[];
    }
  }

  lemma SumDrop<K>(m: map<K, int>, k: K)
    ensures Sum(m) == Get(m, k) + Sum(m - {k})
  {
    if k in m {
      SumPick(m, k);
    } else {
      assert m - {k} == m;
    }
  }

  lemma DropShrinks<K>(a: map<K, int>, b: map<K, int>, k: K)
    requires k in a.Keys + b.Keys
    ensures |a - {k}| + |b - {k}| < |a| + |b|
  {
    DropSize(a, k);
    DropSize(b, k);
  }

  lemma DropSize<K>(m: map<K, int>, k: K)
    ensures |m - {k}| == if k in m then |m| - 1 else |m|
  {
    assert (m - {k}).Keys == m.Keys - {k};
  }

  // A sum of non-negative values is zero exactly when all of them are.
  lemma {:induction false} SumZero<K>(m: map<K, int>)
    requires forall k :: k in m ==> m[k] >= 0
    ensures Sum(m) >= 0
    ensures Sum(m) == 0 <==> forall k :: k in m ==> m[k] == 0
    decreases |m|
  {
    if m != map[] {
      var p :| p in m && Sum(m) == m[p] + Sum(m - {p});
      SumZero(m - {p});
      assert forall k :: k in m && k != p ==> k in m - {p} && (m - {p})[k] == m[k];
    }
  }

  predicate IsLeast(m: nat, ks: set<nat>) {
    m in ks && forall k :: k in ks ==> m <= k
  }

  lemma {:induction false} LeastExists(ks: set<nat>)
    requires ks != {}
    ensures exists m :: IsLeast(m, ks)
    decreases |ks|
  {
    var p :| p in ks;
    var rest := ks - {p};
    assert ks == rest + {p};
    if rest == {} {
      assert IsLeast(p, ks);
    } else {
      LeastExists(rest);
      var m :| IsLeast(m, rest);
      assert IsLeast(if m < p then m else p, ks);
    }
  }

  function Least(ks: set<nat>): (m: nat)
    requires ks != {}
    ensures IsLeast(m, ks)
  {
    LeastExists(ks);
    var m :| m in ks && IsLeast(m, ks);
    m
  }

  function Ascending(ks: set<nat>): (s: seq<nat>)
    ensures forall k :: k in s <==> k in ks
    ensures forall i, j :: 0 <= i < j < |s| ==> s[i] < s[j]
    ensures |s| == |ks|
    decreases |ks|
  {
    if ks == {} then [] else
      var m := Least(ks);
      var rest := Ascending(ks - {m});
      assert forall k :: k in [m] + rest <==> k == m || k in rest;
      [m] + rest
  }
}
