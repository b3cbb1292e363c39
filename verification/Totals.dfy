/** Totals over finite maps and over append-only sequences. */
module Totals {

  ghost function Total<K(!new)>(m: map<K, int>): int
    decreases |m|
  {
    if m == map[] then 0
    else
      var k :| k in m;
      m[k] + Total(m - {k})
  }

  lemma {:induction false} TotalWithout<K(!new)>(m: map<K, int>, k: K)
    requires k in m
    ensures Total(m) == m[k] + Total(m - {k})
    decreases |m|
  {
    var j :| j in m && Total(m) == m[j] + Total(m - {j});
    if j != k {
      TotalWithout(m - {j}, k);
      TotalWithout(m - {k}, j);
      assert m - {j} - {k} == m - {k} - {j};
    }
  }

  lemma TotalUpdate<K(!new)>(m: map<K, int>, k: K, v: int)
    ensures Total(m[k := v]) == Total(m) - (if k in m then m[k] else 0) + v
  {
    TotalWithout(m[k := v], k);
    if k in m {
      TotalWithout(m, k);
      assert m[k := v] - {k} == m - {k};
    } else {
      assert m[k := v] - {k} == m;
    }
  }

  lemma {:induction false} TotalZero<K(!new)>(m: map<K, int>)
    requires forall k :: k in m ==> m[k] == 0
    ensures Total(m) == 0
    decreases |m|
  {
    if m != map[] {
      var k :| k in m;
      TotalWithout(m, k);
      TotalZero(m - {k});
    }
  }

  lemma {:induction false} TotalBelow<K(!new)>(small: map<K, int>, large: map<K, int>)
    requires small.Keys == large.Keys && forall k :: k in small ==> small[k] <= large[k]
    ensures Total(small) <= Total(large)
    decreases |small|
  {
    if small != map[] {
      var k :| k in small;
      TotalWithout(small, k);
      TotalWithout(large, k);
      TotalBelow(small - {k}, large - {k});
    } else {
      assert large == map[];
    }
  }

  lemma {:induction false} TotalAdds<K(!new)>(sum: map<K, int>, a: map<K, int>, b: map<K, int>)
    requires sum.Keys == a.Keys == b.Keys && forall k :: k in sum ==> sum[k] == a[k] + b[k]
    ensures Total(sum) == Total(a) + Total(b)
    decreases |sum|
  {
    if sum != map[] {
      var k :| k in sum;
      TotalWithout(sum, k);
      TotalWithout(a, k);
      TotalWithout(b, k);
      TotalAdds(sum - {k}, a - {k}, b - {k});
    } else {
      assert a == map[] && b == map[];
    }
  }

  /** The sum of `f` over a sequence, built from the end so that appending adds. */
  function Tally<T>(s: seq<T>, f: T -> int): int {
    if s == [] then 0 else Tally(s[..|s| - 1], f) + f(s[|s| - 1])
  }

  lemma TallyAppend<T>(s: seq<T>, t: T, f: T -> int)
    ensures Tally(s + [t], f) == Tally(s, f) + f(t)
  {
    assert (s + [t])[..|s|] == s;
  }

  lemma {:induction false} TallyNonNegative<T>(s: seq<T>, f: T -> int)
    requires forall i :: 0 <= i < |s| ==> f(s[i]) >= 0
    ensures Tally(s, f) >= 0
    ensures forall i :: 0 <= i < |s| ==> f(s[i]) <= Tally(s, f)
  {
    if s == [] {
    } else {
      var init := s[..|s| - 1];
      forall i | 0 <= i < |init| ensures f(init[i]) >= 0 {
        assert init[i] == s[i];
      }
      TallyNonNegative(init, f);
      forall i | 0 <= i < |s| ensures f(s[i]) <= Tally(s, f) {
        if i < |init| {
          assert init[i] == s[i];
        }
      }
    }
  }

  lemma {:induction false} TallyZero<T>(s: seq<T>, f: T -> int)
    requires forall i :: 0 <= i < |s| ==> f(s[i]) == 0
    ensures Tally(s, f) == 0
  {
    if s == [] {
    } else {
      var init := s[..|s| - 1];
      forall i | 0 <= i < |init| ensures f(init[i]) == 0 {
        assert init[i] == s[i];
      }
      TallyZero(init, f);
    }
  }

  lemma {:induction false} TallyConcat<T>(a: seq<T>, b: seq<T>, f: T -> int)
    ensures Tally(a + b, f) == Tally(a, f) + Tally(b, f)
  {
    if b == [] {
      assert a + b == a;
    } else {
      var init := b[..|b| - 1];
      TallyConcat(a, init, f);
      assert (a + b)[..|a + b| - 1] == a + init;
    }
  }

  // ---- Sums over finite sets ---------------------------------------------------------

  ghost function SumOver<K(!new)>(s: set<K>, f: K -> int): int {
    if s == {} then 0
    else
      var k :| k in s;
      f(k) + SumOver(s - {k}, f)
  }

  lemma {:induction false} SumWithout<K(!new)>(s: set<K>, f: K -> int, k: K)
    requires k in s
    ensures SumOver(s, f) == f(k) + SumOver(s - {k}, f)
  {
    var j :| j in s && SumOver(s, f) == f(j) + SumOver(s - {j}, f);
    if j != k {
      SumWithout(s - {j}, f, k);
      SumWithout(s - {k}, f, j);
      assert s - {j} - {k} == s - {k} - {j};
    }
  }

  lemma {:induction false} SumZero<K(!new)>(s: set<K>, f: K -> int)
    requires forall k :: k in s ==> f(k) == 0
    ensures SumOver(s, f) == 0
  {
    if s != {} {
      var k :| k in s;
      SumWithout(s, f, k);
      SumZero(s - {k}, f);
    }
  }

  lemma {:induction false} SumAdds<K(!new)>(s: set<K>, f: K -> int, g: K -> int, h: K -> int)
    requires forall k :: k in s ==> h(k) == f(k) + g(k)
    ensures SumOver(s, h) == SumOver(s, f) + SumOver(s, g)
  {
    if s != {} {
      var k :| k in s;
      SumWithout(s, f, k);
      SumWithout(s, g, k);
      SumWithout(s, h, k);
      SumAdds(s - {k}, f, g, h);
    }
  }

  lemma SumSingle<K(!new)>(s: set<K>, f: K -> int, k: K)
    requires forall x :: x in s && x != k ==> f(x) == 0
    ensures SumOver(s, f) == if k in s then f(k) else 0
  {
    if k in s {
      SumWithout(s, f, k);
      SumZero(s - {k}, f);
    } else {
      SumZero(s, f);
    }
  }

  lemma Associative<T>(a: seq<T>, b: seq<T>, c: seq<T>)
    ensures a + b + c == a + (b + c)
  {
  }
}
