/** Sums of finite sequences of reals, as used by the pricing proofs. */
module RealSums {

  function Sum(s: seq<real>): real {
    if s == [] then 0.0 else Sum(s[..|s| - 1]) + s[|s| - 1]
  }

  /** The sum of the entries whose flag equals `want`. */
  function SumIf(s: seq<real>, flags: seq<bool>, want: bool): real
    requires |s| == |flags|
  {
    if s == [] then 0.0
    else SumIf(s[..|s| - 1], flags[..|s| - 1], want) + if flags[|s| - 1] == want then s[|s| - 1] else 0.0
  }

  function Count(flags: seq<bool>): nat {
    if flags == [] then 0 else Count(flags[..|flags| - 1]) + if flags[|flags| - 1] then 1 else 0
  }

  function Scale(s: seq<real>, k: real): (r: seq<real>)
    ensures |r| == |s|
  {
    if s == [] then [] else Scale(s[..|s| - 1], k) + [s[|s| - 1] * k]
  }

  lemma {:induction false} ScaleAt(s: seq<real>, k: real, i: nat)
    requires i < |s|
    ensures Scale(s, k)[i] == s[i] * k
  {
    if i < |s| - 1 {
      ScaleAt(s[..|s| - 1], k, i);
    }
  }

  lemma ScaleEverywhere(s: seq<real>, k: real)
    ensures forall i :: 0 <= i < |s| ==> Scale(s, k)[i] == s[i] * k
  {
    forall i | 0 <= i < |s| ensures Scale(s, k)[i] == s[i] * k {
      ScaleAt(s, k, i);
    }
  }

  lemma ScaleOne(s: seq<real>)
    ensures Scale(s, 1.0) == s
  {
    ScaleEverywhere(s, 1.0);
  }

  lemma ScaleOrder(a: seq<real>, j: real, b: seq<real>, k: real, i: nat)
    requires i < |a| && i < |b|
    requires 0.0 <= a[i] <= b[i] && 0.0 <= j <= k
    ensures Scale(a, j)[i] <= Scale(b, k)[i]
  {
    ScaleAt(a, j, i);
    ScaleAt(b, k, i);
    ProductOrder(a[i], b[i], j, k);
  }

  lemma ProductOrder(x: real, y: real, j: real, k: real)
    requires 0.0 <= x <= y && 0.0 <= j <= k
    ensures x * j <= y * k
  {
    assert x * j <= x * k;
    assert x * k <= y * k;
  }

  lemma ScaleCompose(s: seq<real>, j: real, k: real)
    ensures Scale(Scale(s, j), k) == Scale(s, j * k)
  {
    forall i | 0 <= i < |s| ensures Scale(Scale(s, j), k)[i] == Scale(s, j * k)[i] {
      ScaleAt(s, j, i);
      ScaleAt(Scale(s, j), k, i);
      ScaleAt(s, j * k, i);
      assert s[i] * j * k == s[i] * (j * k);
    }
  }

  lemma Shrink(x: real, k: real)
    requires x > 0.0 && 0.0 < k <= 1.0
    ensures 0.0 < x * k <= x
  {
  }

  /** Scaling down by a factor in (0, 1] keeps entries positive and no larger. */
  lemma ScaleDown(s: seq<real>, k: real, i: nat)
    requires i < |s| && s[i] > 0.0 && 0.0 < k <= 1.0
    ensures 0.0 < Scale(s, k)[i] <= s[i]
  {
    ScaleAt(s, k, i);
    Shrink(s[i], k);
  }

  lemma {:induction false} SumScale(s: seq<real>, k: real)
    ensures Sum(Scale(s, k)) == Sum(s) * k
  {
    if s == [] {
    } else {
      var init := s[..|s| - 1];
      SumScale(init, k);
      assert Scale(s, k)[..|init|] == Scale(init, k);
    }
  }

  lemma {:induction false} SumAtMost(a: seq<real>, b: seq<real>)
    requires |a| == |b|
    requires forall i :: 0 <= i < |a| ==> a[i] <= b[i]
    ensures Sum(a) <= Sum(b)
  {
    if a == [] {
    } else {
      SumAtMost(a[..|a| - 1], b[..|b| - 1]);
    }
  }

  /** Pointwise ordered sequences with equal sums are equal. */
  lemma {:induction false} SumSqueeze(a: seq<real>, b: seq<real>)
    requires |a| == |b| && Sum(b) <= Sum(a)
    requires forall i :: 0 <= i < |a| ==> a[i] <= b[i]
    ensures a == b
  {
    if a == [] {
    } else {
      var n := |a| - 1;
      SumAtMost(a[..n], b[..n]);
      SumSqueeze(a[..n], b[..n]);
      assert a == a[..n] + [a[n]] && b == b[..n] + [b[n]];
    }
  }

  lemma SumStrict(a: seq<real>, b: seq<real>)
    requires |a| == |b| && a != b
    requires forall i :: 0 <= i < |a| ==> a[i] <= b[i]
    ensures Sum(a) < Sum(b)
  {
    if Sum(b) <= Sum(a) {
      SumSqueeze(a, b);
    }
  }

  lemma {:induction false} SumPositive(s: seq<real>)
    requires s != [] && forall i :: 0 <= i < |s| ==> s[i] > 0.0
    ensures Sum(s) > 0.0
  {
    if |s| == 1 {
      assert s[..0] == [];
    } else {
      SumPositive(s[..|s| - 1]);
    }
  }

  lemma {:induction false} SumSplits(s: seq<real>, flags: seq<bool>)
    requires |s| == |flags|
    ensures Sum(s) == SumIf(s, flags, true) + SumIf(s, flags, false)
  {
    if s == [] {
    } else {
      SumSplits(s[..|s| - 1], flags[..|s| - 1]);
    }
  }

  lemma Distribute(a: real, b: real, k: real)
    ensures (a + b) * k == a * k + b * k
  {
  }

  /** Rescaling the unflagged entries rescales their share of the sum. */
  lemma {:induction false} SumRescaled(before: seq<real>, after: seq<real>, flags: seq<bool>, k: real)
    requires |before| == |after| == |flags|
    requires forall i :: 0 <= i < |flags| ==> after[i] == if flags[i] then before[i] else Scale(before, k)[i]
    ensures Sum(after) == SumIf(before, flags, true) + SumIf(before, flags, false) * k
  {
    if before == [] {
    } else {
      var n := |before| - 1;
      assert Scale(before, k)[..n] == Scale(before[..n], k);
      SumRescaled(before[..n], after[..n], flags[..n], k);
      ScaleAt(before, k, n);
      Distribute(SumIf(before[..n], flags[..n], false), before[n], k);
    }
  }

  lemma {:induction false} SumIfAgrees(a: seq<real>, b: seq<real>, flags: seq<bool>, want: bool)
    requires |a| == |b| == |flags|
    requires forall i :: 0 <= i < |flags| && flags[i] == want ==> a[i] == b[i]
    ensures SumIf(a, flags, want) == SumIf(b, flags, want)
  {
    if a == [] {
    } else {
      SumIfAgrees(a[..|a| - 1], b[..|a| - 1], flags[..|a| - 1], want);
    }
  }

  /** A positive unflagged share needs an unflagged entry, and so gives any
      other positive sequence a positive unflagged share as well. */
  lemma {:induction false} UnflaggedShare(a: seq<real>, b: seq<real>, flags: seq<bool>)
    requires |a| == |b| == |flags|
    requires forall i :: 0 <= i < |b| ==> b[i] > 0.0
    ensures SumIf(b, flags, false) >= 0.0
    ensures SumIf(a, flags, false) > 0.0 ==> SumIf(b, flags, false) > 0.0 && false in flags
  {
    if a == [] {
    } else {
      var n := |a| - 1;
      UnflaggedShare(a[..n], b[..n], flags[..n]);
    }
  }

  lemma {:induction false} CountBelowLength(flags: seq<bool>)
    ensures Count(flags) <= |flags|
  {
    if flags == [] {
    } else {
      CountBelowLength(flags[..|flags| - 1]);
    }
  }

  lemma {:induction false} CountGrows(before: seq<bool>, after: seq<bool>)
    requires |before| == |after|
    requires forall i :: 0 <= i < |before| && before[i] ==> after[i]
    ensures Count(before) <= Count(after)
    ensures before != after ==> Count(before) < Count(after)
  {
    if before == [] {
    } else {
      var n := |before| - 1;
      CountGrows(before[..n], after[..n]);
      assert before == before[..n] + [before[n]] && after == after[..n] + [after[n]];
    }
  }

  function Product(s: seq<real>): real {
    if s == [] then 1.0 else Product(s[..|s| - 1]) * s[|s| - 1]
  }

  function Without<T>(s: seq<T>, k: nat): (r: seq<T>)
    requires k < |s|
    ensures |r| == |s| - 1
  {
    s[..k] + s[k + 1..]
  }

  lemma WithoutContents<T>(s: seq<T>, k: nat)
    requires k < |s|
    ensures multiset(Without(s, k)) == multiset(s) - multiset{s[k]}
  {
    assert s == s[..k] + [s[k]] + s[k + 1..];
  }

  lemma WithoutSnoc<T>(s: seq<T>, k: nat)
    requires k < |s|
    ensures s == s[..|s| - 1] + [s[|s| - 1]]
    ensures k == |s| - 1 ==> Without(s, k) == s[..|s| - 1]
    ensures k < |s| - 1 ==> Without(s, k) == Without(s[..|s| - 1], k) + [s[|s| - 1]] && s[k] == s[..|s| - 1][k]
  {
  }

  lemma {:induction false} ProductWithout(s: seq<real>, k: nat)
    requires k < |s|
    ensures Product(s) == Product(Without(s, k)) * s[k]
  {
    var n := |s| - 1;
    if k == n {
      assert Without(s, k) == s[..n];
    } else {
      ProductWithout(s[..n], k);
      var rest := Without(s[..n], k);
      assert Without(s, k) == rest + [s[n]];
      assert (rest + [s[n]])[..|rest|] == rest;
      SwapFactors(Product(rest), s[k], s[n]);
    }
  }

  lemma SwapFactors(a: real, b: real, c: real)
    ensures a * b * c == a * c * b
  {
  }

  /** Where the last element of `a` stands in a permutation of it. */
  lemma Matching<T>(a: seq<T>, b: seq<T>) returns (k: nat)
    requires a != [] && multiset(a) == multiset(b)
    ensures k < |b| && b[k] == a[|a| - 1]
    ensures multiset(a[..|a| - 1]) == multiset(Without(b, k))
  {
    var last := a[|a| - 1];
    assert a == a[..|a| - 1] + [last];
    assert last in multiset(b);
    k :| 0 <= k < |b| && b[k] == last;
    WithoutContents(b, k);
  }

  lemma {:induction false} ProductIgnoresOrder(a: seq<real>, b: seq<real>)
    requires multiset(a) == multiset(b)
    ensures Product(a) == Product(b)
  {
    if a == [] {
      assert |multiset(b)| == 0;
    } else {
      var k := Matching(a, b);
      ProductIgnoresOrder(a[..|a| - 1], Without(b, k));
      ProductWithout(b, k);
    }
  }

  function Map<A, B>(f: A -> B, s: seq<A>): (r: seq<B>)
    ensures |r| == |s|
  {
    if s == [] then [] else Map(f, s[..|s| - 1]) + [f(s[|s| - 1])]
  }

  lemma MapSnoc<A, B>(f: A -> B, init: seq<A>, last: A)
    ensures multiset(Map(f, init + [last])) == multiset(Map(f, init)) + multiset{f(last)}
  {
    assert (init + [last])[..|init|] == init;
  }

  lemma {:induction false} MapWithout<A, B>(f: A -> B, s: seq<A>, k: nat)
    requires k < |s|
    ensures multiset(Map(f, s)) == multiset(Map(f, Without(s, k))) + multiset{f(s[k])}
  {
    WithoutSnoc(s, k);
    var init, last := s[..|s| - 1], s[|s| - 1];
    if k < |init| {
      MapWithout(f, init, k);
      MapSnoc(f, Without(init, k), last);
    }
    MapSnoc(f, init, last);
  }

  lemma {:induction false} MapIgnoresOrder<A, B>(f: A -> B, a: seq<A>, b: seq<A>)
    requires multiset(a) == multiset(b)
    ensures multiset(Map(f, a)) == multiset(Map(f, b))
  {
    if a == [] {
      assert |multiset(b)| == 0;
    } else {
      var k := Matching(a, b);
      var init, last := a[..|a| - 1], a[|a| - 1];
      MapIgnoresOrder(f, init, Without(b, k));
      MapWithout(f, b, k);
      assert a == init + [last];
      MapSnoc(f, init, last);
    }
  }
}
