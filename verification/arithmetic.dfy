/** Products, quotients and powers of two: the few nonlinear facts the other modules rest on. */
module Arithmetic {
  import opened Params

  function Mul(a: nat, b: nat): nat { a * b }

  function Div(a: nat, b: nat): nat
    requires b > 0
  {
    a / b
  }

  function Pow2(k: nat): (p: nat)
    ensures p > 0
  {
    if k == 0 then 1 else 2 * Pow2(k - 1)
  }

  lemma MulMono(a: nat, b: nat, x: nat, y: nat)
    requires a <= b && x <= y
    ensures Mul(a, x) <= Mul(b, y)
  {
    assert a * x <= b * x <= b * y;
  }

  lemma PositiveFactor(b: nat, x: int)
    requires b * x > 0
    ensures x > 0
  {
  }

  lemma MulCancelLess(b: nat, x: int, y: int)
    requires b * x < b * y
    ensures x < y
  {
    assert b * (y - x) == b * y - b * x;
    PositiveFactor(b, y - x);
  }

  lemma NonNegativeFactor(b: nat, x: int)
    requires b > 0 && b * x >= 0
    ensures x >= 0
  {
  }

  lemma Square(x: int)
    ensures x * x >= 0
  {
  }

  lemma DivBounds(a: nat, b: nat)
    requires b > 0
    ensures b * Div(a, b) <= a < b * Div(a, b) + b
  {
  }

  lemma DivAtLeast(a: nat, b: nat, q: nat)
    requires b > 0 && b * q <= a
    ensures q <= Div(a, b)
  {
    DivBounds(a, b);
    hide Div;
    assert b * (Div(a, b) + 1) == b * Div(a, b) + b;
    MulCancelLess(b, q, Div(a, b) + 1);
  }

  lemma DivBelow(a: nat, b: nat, q: nat)
    requires b > 0 && a < b * q
    ensures Div(a, b) < q
  {
    DivBounds(a, b);
    hide Div;
    MulCancelLess(b, Div(a, b), q);
  }

  lemma DivIs(a: nat, b: nat, q: nat)
    requires b > 0 && b * q <= a < b * q + b
    ensures Div(a, b) == q
  {
    DivAtLeast(a, b, q);
    hide Div;
    assert b * (q + 1) == b * q + b;
    DivBelow(a, b, q + 1);
  }

  /** Halving a quotient is dividing by twice as much. */
  lemma HalveQuotient(a: nat, b: nat)
    requires b > 0
    ensures Div(Div(a, b), 2) == Div(a, 2 * b)
  {
    var q := Div(a, b);
    DivBounds(a, b);
    DivBounds(q, 2);
    var h := Div(q, 2);
    hide Div;
    assert 2 * b * h == b * (2 * h);
    assert b * (2 * h) <= b * q by { assert b * (q - 2 * h) >= 0; }
    assert b * (q + 1) <= b * (2 * h + 2) by { assert b * (2 * h + 1 - q) >= 0; }
    assert b * (2 * h + 2) == 2 * b * h + 2 * b;
    assert b * (q + 1) == b * q + b;
    DivIs(a, 2 * b, h);
  }

  lemma ModAbsorbs32(k: nat, x: nat)
    requires x < U32
    ensures (k * U32 + x) % U32 == x
  {
  }

  lemma ModAbsorbs64(k: nat, x: nat)
    requires x < U64
    ensures (k * U64 + x) % U64 == x
  {
  }
}
