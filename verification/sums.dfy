/** Sums of a quantity over a list, and the arithmetic of sharing a total by rounded-down weights. */
module Sums {
  import opened Arithmetic

  function Sum<T>(f: T -> int, xs: seq<T>): int {
    if xs == [] then 0 else Sum(f, xs[..|xs| - 1]) + f(xs[|xs| - 1])
  }

  lemma SumAppend<T>(f: T -> int, xs: seq<T>, x: T)
    ensures Sum(f, xs + [x]) == Sum(f, xs) + f(x)
  {
    assert (xs + [x])[..|xs|] == xs;
  }

  lemma {:induction false} SumUpdate<T>(f: T -> int, xs: seq<T>, i: nat, x: T)
    requires i < |xs|
    ensures Sum(f, xs[i := x]) == Sum(f, xs) - f(xs[i]) + f(x)
    decreases |xs|
  {
    var n := |xs| - 1;
    if i < n {
      assert xs[i := x][..n] == xs[..n][i := x];
      SumUpdate(f, xs[..n], i, x);
    } else {
      assert xs[i := x][..n] == xs[..n];
    }
  }

  /** Quantities that agree element by element have the same sum. */
  lemma {:induction false} SumSame<S, T>(f: S -> int, xs: seq<S>, g: T -> int, ys: seq<T>)
    requires |xs| == |ys| && forall i :: 0 <= i < |xs| ==> f(xs[i]) == g(ys[i])
    ensures Sum(f, xs) == Sum(g, ys)
    decreases |xs|
  {
    if xs != [] {
      SumSame(f, xs[..|xs| - 1], g, ys[..|ys| - 1]);
    }
  }

  lemma {:induction false} SumNonNegative<T>(f: T -> int, xs: seq<T>)
    requires forall j :: 0 <= j < |xs| ==> f(xs[j]) >= 0
    ensures Sum(f, xs) >= 0
    decreases |xs|
  {
    if xs != [] {
      SumNonNegative(f, xs[..|xs| - 1]);
    }
  }

  lemma {:induction false} MemberBelowSum<T>(f: T -> int, xs: seq<T>, i: nat)
    requires i < |xs| && forall j :: 0 <= j < |xs| ==> f(xs[j]) >= 0
    ensures 0 <= f(xs[i]) <= Sum(f, xs)
    decreases |xs|
  {
    SumNonNegative(f, xs[..|xs| - 1]);
    if i < |xs| - 1 {
      MemberBelowSum(f, xs[..|xs| - 1], i);
    }
  }

  function Times(a: int, b: int): int { a * b }

  /** `share` is the part of m that weight w of a total t is given, rounded down; `one` counts the
      elements that take part. */
  predicate Shared(m: nat, t: nat, w: int, share: int, one: int) {
    Times(t, share) <= Times(m, w) <= Times(t, share) + Times(t - 1, one)
  }

  lemma RoundedDown(m: nat, t: nat, w: nat)
    requires t > 0
    ensures Shared(m, t, w, w * m / t, 1)
  {
    var a := w * m;
    assert a == t * (a / t) + a % t;
  }

  lemma SharesAdd(m: nat, t: nat, w0: int, s0: int, o0: int, w1: int, s1: int, o1: int)
    requires Shared(m, t, w0, s0, o0) && Shared(m, t, w1, s1, o1)
    ensures Shared(m, t, w0 + w1, s0 + s1, o0 + o1)
  {
  }

  lemma {:induction false} SumShared<T>(m: nat, t: nat, w: T -> int, share: T -> int, one: T -> int, xs: seq<T>)
    requires forall i :: 0 <= i < |xs| ==> Shared(m, t, w(xs[i]), share(xs[i]), one(xs[i]))
    ensures Shared(m, t, Sum(w, xs), Sum(share, xs), Sum(one, xs))
    decreases |xs|
  {
    if xs != [] {
      var n := |xs| - 1;
      SumShared(m, t, w, share, one, xs[..n]);
      hide Shared;
      SharesAdd(m, t, Sum(w, xs[..n]), Sum(share, xs[..n]), Sum(one, xs[..n]), w(xs[n]), share(xs[n]), one(xs[n]));
    }
  }

  /** Rounded shares of m by weights that sum to at most t never exceed m, and when the weights sum
      to exactly t less than one unit per member is lost. */
  lemma SharesOfWhole(m: nat, t: nat, w: int, share: int, one: nat)
    requires t > 0 && 0 <= w <= t && Shared(m, t, w, share, one)
    ensures share <= m
    ensures w == t && one > 0 ==> m - one < share
  {
    assert Times(m, w) <= Times(m, t) by { assert Times(m, t) - Times(m, w) == Times(m, t - w); }
    assert Times(t, m - share) >= 0;
    NonNegativeFactor(t, m - share);
    if w == t && one > 0 {
      assert Times(t, share + one - m) == Times(t, share) + Times(t - 1, one) - Times(m, t) + one;
      PositiveFactor(t, share + one - m);
    }
  }

  lemma BelowAdd(m: nat, t: nat, w0: int, s0: int, w1: int, s1: int)
    requires Times(t, s0) <= Times(m, w0) && Times(t, s1) <= Times(m, w1)
    ensures Times(t, s0 + s1) <= Times(m, w0 + w1)
  {
  }

  /** Shares that are each at most their weight's part of m add up to at most m. */
  lemma {:induction false} SumBelow<T>(m: nat, t: nat, w: T -> int, share: T -> int, xs: seq<T>)
    requires forall i :: 0 <= i < |xs| ==> Times(t, share(xs[i])) <= Times(m, w(xs[i]))
    ensures Times(t, Sum(share, xs)) <= Times(m, Sum(w, xs))
    decreases |xs|
  {
    if xs != [] {
      var n := |xs| - 1;
      SumBelow(m, t, w, share, xs[..n]);
      hide Times;
      BelowAdd(m, t, Sum(w, xs[..n]), Sum(share, xs[..n]), w(xs[n]), share(xs[n]));
    }
  }

  lemma {:induction false} SumLess<T>(f: T -> int, g: T -> int, xs: seq<T>)
    requires forall i :: 0 <= i < |xs| ==> f(xs[i]) <= g(xs[i])
    ensures Sum(f, xs) <= Sum(g, xs)
    decreases |xs|
  {
    if xs != [] {
      SumLess(f, g, xs[..|xs| - 1]);
    }
  }

  lemma {:induction false} SumRemove<T>(f: T -> int, xs: seq<T>, i: nat)
    requires i < |xs|
    ensures Sum(f, xs[..i] + xs[i + 1..]) == Sum(f, xs) - f(xs[i])
    decreases |xs|
  {
    var n := |xs| - 1;
    if i < n {
      assert (xs[..i] + xs[i + 1..])[..n - 1] == xs[..n][..i] + xs[..n][i + 1..];
      SumRemove(f, xs[..n], i);
    } else {
      assert xs[..i] + xs[i + 1..] == xs[..n];
    }
  }
}
