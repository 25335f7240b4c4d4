/** The rate control law of vq.c, rx.c and tx.c, r * (3C - y) / (2C) clamped to [MIN_RFAIR, C]: the
    three machine-arithmetic forms of the code, exactly when each agrees with the law, and where the
    law drives N senders that obey it. */
module Rcp {
  import opened Params
  import opened Arithmetic

  /** One step of the law on unbounded integers, clipped at zero when the load passes 3C. A load may be
      negative where the code keeps it in a signed int. */
  function Law(r: nat, cap: nat, y: int): nat
    requires cap > 0
  {
    if y <= 3 * cap then Div(Mul(r, 3 * cap - y), 2 * cap) else 0
  }

  /** One clamped step. */
  function Next(r: nat, cap: nat, y: int): nat
    requires cap > 0
  {
    Max(MIN_RFAIR, Min(cap, Law(r, cap, y)))
  }

  // ---- the three forms in the code ----

  /** A difference computed on `width` (a power of two): it wraps when it would be negative. */
  function Wrap(x: int, width: nat): nat
    requires width > 0
  {
    x % width
  }

  /** tx.c: every operation is on 32 bits. */
  function NextTx(r: nat, cap: nat, y: nat): nat
    requires cap > 0
  {
    Max(MIN_RFAIR, Min(cap, Div(Wrap(Mul(r, Wrap(3 * cap - y, U32)), U32), 2 * cap)))
  }

  /** rx.c: the bracket is on 32 bits, the product on 64; the clamps come in the other order. */
  function NextRx(r: nat, cap: nat, y: nat): nat
    requires cap > 0
  {
    Min(cap, Max(MIN_RFAIR, Div(Wrap(Mul(r, Wrap(3 * cap - y, U32)), U64), 2 * cap)))
  }

  /** vq.c: on 64 bits, with a 32-bit divisor that does not overflow; the load is a signed int. */
  function NextVq(r: nat, cap: nat, y: int): nat
    requires 0 < cap < I32
  {
    Max(MIN_RFAIR, Min(cap, Div(Wrap(Mul(r, Wrap(3 * cap - y, U64)), U64), 2 * cap)))
  }

  // ---- wrapping ----

  lemma NoWrap(x: nat, width: nat)
    requires x < width
    ensures Wrap(x, width) == x
  {
  }

  lemma WrapOnce(x: int, width: nat)
    requires 0 < x <= width
    ensures Wrap(-x, width) == width - x
  {
  }

  /** A product with a wrapped difference wraps to the same negative multiple. */
  lemma WrapProduct(r: nat, over: nat, width: nat)
    requires width == U32 || width == U64
    requires 0 < r && 0 < over <= width && 0 < Mul(r, over) <= width
    ensures Wrap(Mul(r, width - over), width) == width - Mul(r, over)
  {
    var x := width - Mul(r, over);
    assert r * (width - over) == (r - 1) * width + x;
    if width == U32 {
      ModAbsorbs32(r - 1, x);
    } else {
      ModAbsorbs64(r - 1, x);
    }
  }

  // ---- when the forms compute the law ----

  lemma TxFormFits(r: nat, cap: nat, y: nat)
    requires 0 < cap <= 37837 && r <= cap && y <= 3 * cap
    ensures NextTx(r, cap, y) == Next(r, cap, y)
  {
    NoWrap(3 * cap - y, U32);
    MulMono(r, 37837, 3 * cap - y, 3 * 37837);
    NoWrap(Mul(r, 3 * cap - y), U32);
  }

  /** The bracket of tx.c once the load has passed 3C. */
  function Bracket(cap: nat, y: nat): nat { Wrap(3 * cap - y, U32) }

  lemma BracketWraps(cap: nat, y: nat)
    requires 3 * cap < y < U32
    ensures Bracket(cap, y) == U32 - (y - 3 * cap) && 3 * cap < Bracket(cap, y) < U32
  {
    WrapOnce(y - 3 * cap, U32);
  }

  lemma ConsecutiveProducts(b: nat)
    requires b < U32
    ensures 10 * b % U32 + b < U32 ==> 11 * b % U32 == 10 * b % U32 + b
  {
    var q := 10 * b / U32;
    if 10 * b % U32 + b < U32 {
      assert 11 * b == q * U32 + (10 * b % U32 + b);
      ModAbsorbs32(q, 10 * b % U32 + b);
    }
  }

  /** A wrapped bracket is large at one of two neighbouring rates. */
  lemma LargeAtOne(cap: nat, b: nat)
    requires MIN_RFAIR < cap <= 37837 && 3 * cap < b < U32
    ensures 10 * b % U32 >= 22 * cap || 11 * b % U32 >= 22 * cap
  {
    if b > U32 - 22 * cap {
      assert 10 * b == 9 * U32 + (U32 - 10 * (U32 - b));
      ModAbsorbs32(9, U32 - 10 * (U32 - b));
    } else if b >= 22 * cap {
      ConsecutiveProducts(b);
    }
  }

  lemma LargeIsWrong(r: nat, cap: nat, y: nat)
    requires MIN_RFAIR < cap && Wrap(Mul(r, Bracket(cap, y)), U32) >= 22 * cap
    ensures NextTx(r, cap, y) > MIN_RFAIR
  {
    DivAtLeast(Wrap(Mul(r, Bracket(cap, y)), U32), 2 * cap, 11);
  }

  /** Past 3C the law says the lowest rate everywhere; the 32-bit form does not, at one of the two
      lowest rates. */
  lemma TxFormWraps(cap: nat, y: nat)
    requires MIN_RFAIR < cap <= 37837 && 3 * cap < y < U32
    ensures NextTx(10, cap, y) > MIN_RFAIR || NextTx(11, cap, y) > MIN_RFAIR
  {
    BracketWraps(cap, y);
    LargeAtOne(cap, Bracket(cap, y));
    hide Bracket;
    if 10 * Bracket(cap, y) % U32 >= 22 * cap {
      LargeIsWrong(10, cap, y);
    } else {
      LargeIsWrong(11, cap, y);
    }
  }

  /** In tx.c, for every 32-bit load and any link up to 37837 Mb/s, the form computes the law at every
      rate if and only if the load is at most 3C. */
  lemma TxFormExact(cap: nat, y: nat)
    requires MIN_RFAIR < cap <= 37837 && y < U32
    ensures (forall r: nat :: MIN_RFAIR <= r <= cap ==> NextTx(r, cap, y) == Next(r, cap, y)) <==> y <= 3 * cap
  {
    if y <= 3 * cap {
      forall r: nat | MIN_RFAIR <= r <= cap ensures NextTx(r, cap, y) == Next(r, cap, y) {
        TxFormFits(r, cap, y);
      }
    } else {
      TxFormWraps(cap, y);
      assert Next(10, cap, y) == MIN_RFAIR && Next(11, cap, y) == MIN_RFAIR;
      hide NextTx, Next;
    }
  }

  /** One Mb/s more and an idle link at full rate already overflows 32 bits. */
  lemma TxFormLimitIsTight()
    ensures NextTx(37838, 37838, 0) < Next(37838, 37838, 0)
  {
    assert Mul(37838, 3 * 37838) == U32 + 175436;
    assert Div(175436, 2 * 37838) == 2;
    assert Wrap(U32 + 175436, U32) == 175436;
  }

  lemma RxFormFits(r: nat, cap: nat, y: nat)
    requires MIN_RFAIR < cap <= 100_000 && r <= cap && y <= 3 * cap
    ensures NextRx(r, cap, y) == Next(r, cap, y)
  {
    NoWrap(3 * cap - y, U32);
    MulMono(r, 100_000, 3 * cap - y, 300_000);
    NoWrap(Mul(r, 3 * cap - y), U64);
  }

  lemma RxFormWraps(r: nat, cap: nat, y: nat)
    requires MIN_RFAIR < cap <= 100_000 && MIN_RFAIR <= r <= cap && 3 * cap < y < U32
    ensures NextRx(r, cap, y) > MIN_RFAIR
    ensures y <= I32 ==> NextRx(r, cap, y) == cap
  {
    var b := U32 - (y - 3 * cap);
    WrapOnce(y - 3 * cap, U32);
    MulMono(r, 100_000, b, U32);
    NoWrap(Mul(r, b), U64);
    MulMono(MIN_RFAIR, r, 3 * cap, b);
    DivAtLeast(Mul(r, b), 2 * cap, 15);
    if y <= I32 {
      MulMono(MIN_RFAIR, r, I32, b);
      MulMono(2 * cap, 200_000, cap, 100_000);
      DivAtLeast(Mul(r, b), 2 * cap, cap);
    }
  }

  /** In rx.c, for every 32-bit load, the form computes the law if and only if the load is at most 3C;
      up to half the 32-bit range an overload even gets the full rate where the law says the lowest. */
  lemma RxFormExact(r: nat, cap: nat, y: nat)
    requires MIN_RFAIR < cap <= 100_000 && MIN_RFAIR <= r <= cap && y < U32
    ensures NextRx(r, cap, y) == Next(r, cap, y) <==> y <= 3 * cap
    ensures 3 * cap < y <= I32 ==> NextRx(r, cap, y) == cap && Next(r, cap, y) == MIN_RFAIR
  {
    if y <= 3 * cap {
      RxFormFits(r, cap, y);
    } else {
      RxFormWraps(r, cap, y);
    }
  }

  lemma BracketFits(r: nat, b: nat)
    requires r < I32 && b <= 4 * I32
    ensures Mul(r, b) < U64
  {
    MulMono(r, I32 - 1, b, 4 * I32);
  }

  lemma VqFormFits(r: nat, cap: nat, y: int)
    requires 0 < cap < I32 && r < I32 && 0 <= y + I32 && y <= 3 * cap
    ensures NextVq(r, cap, y) == Next(r, cap, y)
  {
    BracketFits(r, 3 * cap - y);
    hide Mul, Div, Wrap;
    NoWrap(3 * cap - y, U64);
    NoWrap(Mul(r, 3 * cap - y), U64);
  }

  lemma SmallProduct(r: nat, over: nat)
    requires 0 < r < I32 && 0 < over < I32
    ensures 0 < Mul(r, over) <= U64 / 4
  {
    MulMono(r, I32, over, I32);
    MulMono(1, r, 1, over);
  }

  lemma RoomToSpare(cap: nat, m: nat)
    requires cap < I32 && m <= U64 / 4
    ensures 2 * cap * cap <= U64 - m
  {
    MulMono(2 * cap, 2 * I32, cap, I32);
  }

  lemma VqFormWraps(r: nat, cap: nat, y: int)
    requires 0 < cap < I32 && 0 < r < I32 && 3 * cap < y < I32
    ensures NextVq(r, cap, y) == Max(MIN_RFAIR, cap)
  {
    var over := y - 3 * cap;
    WrapOnce(over, U64);
    SmallProduct(r, over);
    WrapProduct(r, over, U64);
    hide Mul, Div, Wrap;
    RoomToSpare(cap, Mul(r, over));
    DivAtLeast(U64 - Mul(r, over), 2 * cap, cap);
  }

  /** In vq.c, for every int load, the form computes the law if and only if the load is at most 3C, or
      the queue's own rate is at the floor anyway; otherwise an overload advertises the full rate. */
  lemma VqFormExact(r: nat, cap: nat, y: int)
    requires 0 < cap < I32 && 0 < r < I32 && 0 <= y + I32 && y < I32
    ensures NextVq(r, cap, y) == Next(r, cap, y) <==> (y <= 3 * cap || cap <= MIN_RFAIR)
    ensures y > 3 * cap ==> NextVq(r, cap, y) == Max(MIN_RFAIR, cap) && Next(r, cap, y) == MIN_RFAIR
  {
    if y <= 3 * cap {
      VqFormFits(r, cap, y);
    } else {
      VqFormWraps(r, cap, y);
    }
  }

  // ---- N senders that obey ----

  /** `n` is the number of senders, or their total weight: each unit of weight sends at rate `r`. */
  ghost predicate Fair(n: nat, cap: nat) { n >= 1 && cap > 0 && n * MIN_RFAIR <= cap }

  /** The next rate when the measured load is what `n` obeying senders produce. */
  function Closed(n: nat, cap: nat, r: nat): nat
    requires cap > 0
  {
    Next(r, cap, Mul(n, r))
  }

  /** For q = floor(r * (3C - y) / 2C) and y = n * r: the load n * q is at most the parabola's value. */
  lemma LoadBelowParabola(n: nat, cap: nat, r: nat)
    requires cap > 0 && Mul(n, r) <= 3 * cap
    ensures var y := Mul(n, r); 2 * cap * Mul(n, Law(r, cap, y)) <= y * (3 * cap - y)
  {
    var y := Mul(n, r);
    var p := Mul(r, 3 * cap - y);
    var q := Law(r, cap, y);
    DivBounds(p, 2 * cap);
    MulMono(n, n, 2 * cap * q, p);
    hide Div, Law;
    assert n * (2 * cap * q) == 2 * cap * (n * q);
    assert n * (r * (3 * cap - y)) == n * r * (3 * cap - y);
  }

  /** The parabola lies below its tangent at the capacity. */
  lemma ParabolaBelowLine(y: int, cap: int)
    ensures 2 * (y * (3 * cap - y)) <= 2 * cap * (y + cap)
  {
    Square(y - cap);
    assert (y - cap) * (y - cap) == y * y - 2 * (y * cap) + cap * cap;
    assert y * (3 * cap - y) == 3 * (y * cap) - y * y;
    assert cap * (y + cap) == y * cap + cap * cap;
  }

  lemma CancelDouble(cap: nat, z: int, t: int)
    requires cap > 0 && 2 * (2 * cap * z) <= 2 * cap * t
    ensures 2 * z <= t
  {
    assert 2 * cap * (t + 1 - 2 * z) == 2 * cap * t + 2 * cap - 2 * (2 * cap * z);
    PositiveFactor(2 * cap, t + 1 - 2 * z);
  }

  /** Overshoot: whatever the load up to 3C, one step at least halves its excess over C. */
  lemma ExcessHalves(n: nat, cap: nat, r: nat)
    requires Fair(n, cap) && Mul(n, r) <= 3 * cap
    ensures 2 * (Mul(n, Law(r, cap, Mul(n, r))) - cap) <= Mul(n, r) - cap
  {
    hide Mul, Law;
    var y := Mul(n, r);
    LoadBelowParabola(n, cap, r);
    ParabolaBelowLine(y, cap);
    CancelDouble(cap, Mul(n, Law(r, cap, y)), y + cap);
  }

  /** One step's product: what keeps the rate, and what is left over. */
  lemma StepSplits(cap: nat, r: nat, y: nat)
    requires y <= cap
    ensures Mul(r, 3 * cap - y) == 2 * cap * r + Mul(r, cap - y)
  {
    assert r * (3 * cap - y) == r * (2 * cap) + r * (cap - y);
  }

  /** A quotient with remainder left over: it stays exactly when the remainder is below the divisor. */
  lemma QuotientStays(d: nat, r: nat, g: nat)
    requires d > 0
    ensures Div(d * r + g, d) >= r
    ensures Div(d * r + g, d) == r <==> g < d
  {
    hide Div;
    DivAtLeast(d * r + g, d, r);
    if g < d {
      DivIs(d * r + g, d, r);
    } else {
      assert d * (r + 1) == d * r + d;
      DivAtLeast(d * r + g, d, r + 1);
    }
  }

  lemma MulOne(q: nat)
    ensures Mul(1, q) == q
  {
  }

  /** Undershoot: from a load at or below C the rate does not fall and the load stays at or below C. */
  lemma ClimbIsSafe(n: nat, cap: nat, r: nat)
    requires Fair(n, cap) && MIN_RFAIR <= r && Mul(n, r) <= cap
    ensures r <= Closed(n, cap, r) && Mul(n, Closed(n, cap, r)) <= cap
    ensures Closed(n, cap, r) == Law(r, cap, Mul(n, r))
  {
    hide Mul, Div;
    var y := Mul(n, r);
    var q := Law(r, cap, y);
    StepSplits(cap, r, y);
    QuotientStays(2 * cap, r, Mul(r, cap - y));
    ExcessHalves(n, cap, r);
    MulMono(1, n, q, q);
    MulOne(q);
  }

  /** The climb stops exactly in the band r * (C - n * r) < 2C. */
  lemma StopsInBand(n: nat, cap: nat, r: nat)
    requires Fair(n, cap) && MIN_RFAIR <= r && Mul(n, r) <= cap
    ensures Closed(n, cap, r) == r <==> Mul(r, cap - Mul(n, r)) < 2 * cap
  {
    hide Mul, Div, Closed;
    var y := Mul(n, r);
    ClimbIsSafe(n, cap, r);
    StepSplits(cap, r, y);
    QuotientStays(2 * cap, r, Mul(r, cap - y));
  }

  /** In the band the senders use more than four fifths of the capacity. */
  lemma BandIsBusy(n: nat, cap: nat, r: nat)
    requires MIN_RFAIR <= r && Mul(n, r) <= cap && Mul(r, cap - Mul(n, r)) < 2 * cap
    ensures 5 * (cap - Mul(n, r)) < cap
  {
    MulMono(MIN_RFAIR, r, cap - Mul(n, r), cap - Mul(n, r));
  }

  function Iterate(n: nat, cap: nat, r: nat, k: nat): nat
    requires cap > 0
    decreases k
  {
    if k == 0 then r else Iterate(n, cap, Closed(n, cap, r), k - 1)
  }

  /** One closed step from anywhere up to 3C: never below the floor, excess over C at least halved. */
  lemma StepFromAnywhere(n: nat, cap: nat, r: nat)
    requires Fair(n, cap) && Mul(n, r) <= 3 * cap
    ensures MIN_RFAIR <= Closed(n, cap, r)
    ensures 2 * (Mul(n, Closed(n, cap, r)) - cap) <= Max(0, Mul(n, r) - cap)
  {
    var q := Law(r, cap, Mul(n, r));
    ExcessHalves(n, cap, r);
    MulMono(n, n, Min(cap, q), q);
    assert Mul(n, MIN_RFAIR) <= cap;
  }

  lemma Doubles(p: nat, e: int)
    ensures (2 * p) * e == 2 * (p * e)
  {
  }

  /** After k steps the excess over C has shrunk by 2^k. */
  lemma {:induction false} ExcessVanishes(n: nat, cap: nat, r: nat, k: nat)
    requires Fair(n, cap) && Mul(n, r) <= 3 * cap
    ensures Pow2(k) * (Mul(n, Iterate(n, cap, r, k)) - cap) <= Max(0, Mul(n, r) - cap)
    ensures Mul(n, Iterate(n, cap, r, k)) <= 3 * cap
    decreases k
  {
    if k > 0 {
      var r' := Closed(n, cap, r);
      StepFromAnywhere(n, cap, r);
      ExcessVanishes(n, cap, r', k - 1);
      Doubles(Pow2(k - 1), Mul(n, Iterate(n, cap, r, k)) - cap);
    }
  }

  lemma {:induction false} StaysFixed(n: nat, cap: nat, r: nat, k: nat)
    requires cap > 0 && Closed(n, cap, r) == r
    ensures Iterate(n, cap, r, k) == r
    decreases k
  {
    if k > 0 { StaysFixed(n, cap, r, k - 1); }
  }

  /** Climbing from at or below C: each step either has reached the band or gains at least one, so
      after k >= C steps the rate is in the band, is a fixed point, and stays there. */
  lemma {:induction false} ClimbSettles(n: nat, cap: nat, r: nat, k: nat)
    requires Fair(n, cap) && MIN_RFAIR <= r && Mul(n, r) <= cap && r + k >= cap
    ensures var s := Iterate(n, cap, r, k);
            r <= s && Mul(n, s) <= cap && Mul(s, cap - Mul(n, s)) < 2 * cap && Closed(n, cap, s) == s
    decreases k
  {
    ClimbIsSafe(n, cap, r);
    StopsInBand(n, cap, r);
    MulMono(1, n, r, r);
    if k == 0 {
      assert r == cap && Mul(n, r) == cap;
    } else if Closed(n, cap, r) == r {
      StaysFixed(n, cap, r, k);
    } else {
      ClimbSettles(n, cap, Closed(n, cap, r), k - 1);
    }
  }

  lemma {:induction false} IterateAdds(n: nat, cap: nat, r: nat, a: nat, b: nat)
    requires cap > 0
    ensures Iterate(n, cap, r, a + b) == Iterate(n, cap, Iterate(n, cap, r, a), b)
    decreases a
  {
    if a > 0 { IterateAdds(n, cap, Closed(n, cap, r), a - 1, b); }
  }

  lemma NoExcessLeft(p: nat, e: int, bound: nat)
    requires p > bound && p * e <= bound
    ensures e <= 0
  {
    MulCancelLess(p, e, 1);
  }

  lemma {:induction false} FloorKept(n: nat, cap: nat, r: nat, k: nat)
    requires cap > 0 && k >= 1
    ensures MIN_RFAIR <= Iterate(n, cap, r, k)
    decreases k
  {
    if k > 1 { FloorKept(n, cap, Closed(n, cap, r), k - 1); }
  }

  /** Convergence: from any rate whose load is at most 3C, `a` steps with 2^a > 2C bring the load to
      at most C, and C more bring it into the band for good: no overshoot, at least 80% utilisation,
      a fixed point. */
  lemma Converges(n: nat, cap: nat, r: nat, a: nat, b: nat)
    requires Fair(n, cap) && Mul(n, r) <= 3 * cap && Pow2(a) > 2 * cap && a >= 1 && b >= cap
    ensures var s := Iterate(n, cap, r, a + b);
            && Mul(n, s) <= cap && 5 * (cap - Mul(n, s)) < cap
            && Mul(s, cap - Mul(n, s)) < 2 * cap
            && Closed(n, cap, s) == s
  {
    ExcessVanishes(n, cap, r, a);
    var m := Iterate(n, cap, r, a);
    NoExcessLeft(Pow2(a), Mul(n, m) - cap, 2 * cap);
    FloorKept(n, cap, r, a);
    ClimbSettles(n, cap, m, b);
    IterateAdds(n, cap, r, a, b);
    BandIsBusy(n, cap, Iterate(n, cap, m, b));
  }

  lemma {:induction false} CeilingKept(n: nat, cap: nat, r: nat, k: nat)
    requires cap >= MIN_RFAIR && k >= 1
    ensures Iterate(n, cap, r, k) <= cap
    decreases k
  {
    if k > 1 { CeilingKept(n, cap, Closed(n, cap, r), k - 1); }
  }

  /** Along the whole trajectory the load stays within 3C, so the code's three forms compute the law
      at every step of it. */
  lemma FormsFollowTheLaw(n: nat, cap: nat, r: nat, k: nat)
    requires Fair(n, cap) && Mul(n, r) <= 3 * cap && MIN_RFAIR < cap <= 37837 && k >= 1
    ensures var s := Iterate(n, cap, r, k);
            var y := Mul(n, s);
            && NextTx(s, cap, y) == Iterate(n, cap, r, k + 1)
            && NextRx(s, cap, y) == Iterate(n, cap, r, k + 1)
            && NextVq(s, cap, y) == Iterate(n, cap, r, k + 1)
  {
    var s := Iterate(n, cap, r, k);
    ExcessVanishes(n, cap, r, k);
    FloorKept(n, cap, r, k);
    CeilingKept(n, cap, r, k);
    IterateAdds(n, cap, r, k, 1);
    assert Iterate(n, cap, s, 1) == Iterate(n, cap, Closed(n, cap, s), 0) == Closed(n, cap, s);
    TxFormFits(s, cap, Mul(n, s));
    RxFormExact(s, cap, Mul(n, s));
    VqFormExact(s, cap, Mul(n, s));
  }
}
