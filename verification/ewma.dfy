/** The receiver's congestion estimate: the marked fraction in 1/1024ths and its 15/16 moving average
    (`EWMA_G16` in vq.h). */
module Ewma {
  import opened Params
  import opened Arithmetic

  const DEN: nat := 1024

  /** `EWMA_G16(old, new)`: ((old << 4) - old + new) >> 4 */
  function G16(a: nat, f: nat): nat { ((16 * a - a) + f) / 16 }

  /** The fraction of marked packets; the shift is on 32 bits, and counts may race. */
  function Fraction(marked: nat, pkts: nat): (f: nat)
    ensures f <= DEN
  {
    Min(DEN, marked * DEN % U32 / (if pkts == 0 then 1 else pkts))
  }

  /** Below four million packets the fraction is exact: 1024ths of the packets that were marked, rounded
      down. */
  lemma FractionExact(marked: nat, pkts: nat)
    requires marked <= pkts < 0x40_0000
    ensures var f := Fraction(marked, pkts); f * pkts <= 1024 * marked && (pkts > 0 ==> 1024 * marked < f * pkts + pkts)
  {
    if pkts > 0 {
      var a := 1024 * marked;
      assert marked * DEN % U32 == a;
      DivBounds(a, pkts);
      DivBelow(a, pkts, 1025) by {
        assert pkts * 1025 == 1024 * pkts + pkts;
      }
    }
  }

  /** The estimate after a run of drains with the given (marked, packets) counts. */
  function Average(alpha: nat, counts: seq<(nat, nat)>): nat
    decreases |counts|
  {
    if counts == [] then alpha else Average(G16(alpha, Fraction(counts[0].0, counts[0].1)), counts[1..])
  }

  /** On every run, with any counts at all, the estimate stays in [0, 1024]. */
  lemma {:induction false} AverageInRange(alpha: nat, counts: seq<(nat, nat)>)
    requires alpha <= DEN
    ensures Average(alpha, counts) <= DEN
    decreases |counts|
  {
    if counts != [] {
      AverageInRange(G16(alpha, Fraction(counts[0].0, counts[0].1)), counts[1..]);
    }
  }

  /** The estimate after k drains that all see the same fraction f. */
  function Held(alpha: nat, f: nat, k: nat): nat
    decreases k
  {
    if k == 0 then alpha else Held(G16(alpha, f), f, k - 1)
  }

  function Gap(alpha: nat, f: nat): nat { if alpha >= f then alpha - f else f - alpha }

  /** One step is fifteen parts of the old estimate and one of the fraction, rounded down: from above it
      falls by at least one and not past f; from 16 or more below it rises by at least one and not past
      f; within 15 below it rests. */
  lemma OneStep(alpha: nat, f: nat)
    ensures alpha > f ==> f <= G16(alpha, f) < alpha
    ensures alpha <= f && f - alpha >= 16 ==> alpha < G16(alpha, f) <= f
    ensures G16(alpha, f) == alpha <==> alpha <= f <= alpha + 15
    ensures 16 * G16(alpha, f) <= 15 * alpha + f < 16 * G16(alpha, f) + 16
  {
  }

  lemma {:induction false} HeldRests(alpha: nat, f: nat, k: nat)
    requires alpha <= f <= alpha + 15
    ensures Held(alpha, f, k) == alpha
    decreases k
  {
    if k > 0 { HeldRests(alpha, f, k - 1); }
  }

  /** For a constant fraction f the estimate reaches [f - 15, f] in at most |alpha - f| steps and
      stays; coming from above it reaches f exactly. */
  lemma {:induction false} HeldSettles(alpha: nat, f: nat, k: nat)
    requires k >= Gap(alpha, f)
    ensures Held(alpha, f, k) <= f <= Held(alpha, f, k) + 15
    ensures alpha >= f ==> Held(alpha, f, k) == f
    decreases k
  {
    OneStep(alpha, f);
    if k > 0 {
      if alpha <= f <= alpha + 15 {
        HeldRests(alpha, f, k);
      } else {
        HeldSettles(G16(alpha, f), f, k - 1);
      }
    }
  }

  /** Under a constant fraction the estimate never moves. */
  ghost predicate Rests(alpha: nat, f: nat) { forall k: nat :: Held(alpha, f, k) == alpha }

  lemma MovesAtOnce(alpha: nat, f: nat, one: nat)
    requires one == 1
    ensures Held(alpha, f, one) == G16(alpha, f)
  {
    assert Held(alpha, f, one) == Held(G16(alpha, f), f, one - 1);
  }

  /** The band is exact: every value in [f - 15, f], and no other, is a resting point. */
  lemma RestingBand(alpha: nat, f: nat)
    ensures Rests(alpha, f) <==> alpha <= f <= alpha + 15
  {
    var one: nat := 1;
    OneStep(alpha, f);
    MovesAtOnce(alpha, f, one);
    if alpha <= f <= alpha + 15 {
      forall k: nat ensures Held(alpha, f, k) == alpha { HeldRests(alpha, f, k); }
    }
  }
}
