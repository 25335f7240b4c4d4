/** How much a limiter can send: token conservation, the rate envelope and the burst bound, over
    every sequence of actions on every CPU; and the books each queue keeps. */
module Envelope {
  import opened Params
  import opened Arithmetic
  import opened Limiter
  import opened LimiterOps

  function SumTokens(qs: seq<Queue>): nat {
    if qs == [] then 0 else qs[0].tokens + SumTokens(qs[1..])
  }

  function SumXmit(qs: seq<Queue>): nat {
    if qs == [] then 0 else qs[0].xmit + SumXmit(qs[1..])
  }

  lemma {:induction false} SumsUpdate(qs: seq<Queue>, c: nat, q: Queue)
    requires c < |qs|
    ensures SumTokens(qs[c := q]) == SumTokens(qs) - qs[c].tokens + q.tokens
    ensures SumXmit(qs[c := q]) == SumXmit(qs) - qs[c].xmit + q.xmit
  {
    if c == 0 {
      assert qs[c := q][1..] == qs[1..];
    } else {
      assert qs[c := q][1..] == qs[1..][c - 1 := q];
      SumsUpdate(qs[1..], c - 1, q);
    }
  }

  /** Everything a limiter has been given and not thrown away: pooled, hoarded or spent. */
  function Funds(rl: Rl): nat { rl.pool + SumTokens(rl.queue) + SumXmit(rl.queue) }

  /** The tokens a refill earns at the rate it settles on. */
  function Earned(rl: Rl, op: Op): nat {
    if op.Refill? && ShouldRefill(rl, op.now) then RateAt(rl, op.now) * UsDelta(op.now, rl.last) / 8 else 0
  }

  function EarnedAll(rl: Rl, ops: seq<Op>): nat
    decreases |ops|
  {
    if ops == [] then 0 else Earned(rl, ops[0]) + EarnedAll(Do(rl, ops[0]), ops[1..])
  }

  /** No action mints tokens: funds grow only by what a refill earns, and only a refill's cap
      destroys any. */
  lemma OpConserves(rl: Rl, op: Op)
    ensures Funds(Do(rl, op)) <= Funds(rl) + Earned(rl, op)
    ensures !op.Refill? ==> Funds(Do(rl, op)) == Funds(rl)
  {
    match op {
      case Borrow(c) =>
        if c < |rl.queue| { SumsUpdate(rl.queue, c, rl.queue[c].(tokens := rl.queue[c].tokens + rl.pool)); }
      case Measure(c) =>
        if c < |rl.queue| && rl.queue[c].list != [] { SumsUpdate(rl.queue, c, Measured(rl.queue[c])); }
      case Depart(c) =>
        if c < |rl.queue| && rl.queue[c].list != [] && Size(rl.queue[c].list[0]) <= rl.queue[c].tokens {
          SumsUpdate(rl.queue, c, Departed(rl.queue[c]));
        }
      case Take(c, p) =>
        if c < |rl.queue| { SumsUpdate(rl.queue, c, Append(rl.queue[c], p)); }
      case _ =>
    }
  }

  /** Conservation over any interleaving: pool, hoards and bytes sent never exceed the initial
      funds plus the sum of rate * time over the refills. */
  lemma {:induction false} FundsConserved(rl: Rl, ops: seq<Op>)
    ensures Funds(DoAll(rl, ops)) <= Funds(rl) + EarnedAll(rl, ops)
    decreases |ops|
  {
    if ops != [] {
      OpConserves(rl, ops[0]);
      FundsConserved(Do(rl, ops[0]), ops[1..]);
    }
  }

  lemma RateStaysBelow(rl: Rl, op: Op, rmax: nat)
    requires 2 <= rmax && rl.rate <= rmax && (op.SetRate? ==> op.rate <= rmax)
    ensures Do(rl, op).rate <= rmax
    ensures op.Refill? ==> RateAt(rl, op.now) <= rmax
    ensures rl.last <= Do(rl, op).last
  {
  }

  lemma EighthsBelow(r: nat, us: nat, rmax: nat)
    requires r <= rmax
    ensures 8 * (r * us / 8) <= rmax * us
  {
    assert r * us <= rmax * us;
  }

  lemma EarnedBound(rl: Rl, op: Op, rmax: nat)
    requires 2 <= rmax && rl.rate <= rmax && (op.SetRate? ==> op.rate <= rmax)
    ensures 8 * Earned(rl, op) <= rmax * UsDelta(Do(rl, op).last, rl.last)
  {
    RateStaysBelow(rl, op, rmax);
    if op.Refill? && ShouldRefill(rl, op.now) {
      EighthsBelow(RateAt(rl, op.now), UsDelta(op.now, rl.last), rmax);
    }
  }

  lemma MulAdd(r: nat, a: nat, b: nat, c: nat)
    requires a + b <= c
    ensures r * a + r * b <= r * c
  {
    assert r * (a + b) <= r * c;
  }

  /** If the rate never exceeds `rmax`, what the refills earn fits under the line rmax * time. */
  lemma {:induction false} EarnedEnvelope(rl: Rl, ops: seq<Op>, b: Bounds)
    requires b.Bounds? && 2 <= b.rmax && rl.rate <= b.rmax && Within(ops, b)
    ensures rl.last <= DoAll(rl, ops).last
    ensures 8 * EarnedAll(rl, ops) <= b.rmax * UsDelta(DoAll(rl, ops).last, rl.last)
    decreases |ops|
  {
    if ops != [] {
      var rl1 := Do(rl, ops[0]);
      assert ops[0] in ops;
      assert Within(ops[1..], b);
      RateStaysBelow(rl, ops[0], b.rmax);
      EarnedBound(rl, ops[0], b.rmax);
      EarnedEnvelope(rl1, ops[1..], b);
      var last := DoAll(rl, ops).last;
      UsDeltaTelescopes(rl.last, rl1.last, last);
      MulAdd(b.rmax, UsDelta(rl1.last, rl.last), UsDelta(last, rl1.last), UsDelta(last, rl.last));
    }
  }

  /** The rate envelope from any state: the bytes all CPUs send are at most what was pooled and
      hoarded at the start plus rmax * time / 8, the time counted from the last refill before it. */
  lemma WindowEnvelope(rl: Rl, ops: seq<Op>, b: Bounds)
    requires b.Bounds? && 2 <= b.rmax && rl.rate <= b.rmax && Within(ops, b)
    ensures var rl' := DoAll(rl, ops);
            8 * (rl'.pool + SumTokens(rl'.queue) + SumXmit(rl'.queue) - SumXmit(rl.queue))
              <= 8 * (rl.pool + SumTokens(rl.queue)) + b.rmax * UsDelta(rl'.last, rl.last)
  {
    FundsConserved(rl, ops);
    EarnedEnvelope(rl, ops, b);
  }

  lemma {:induction false} EmptySums(n: nat)
    ensures var qs := seq(n, i => EMPTY_QUEUE); SumTokens(qs) == 0 && SumXmit(qs) == 0
  {
    var qs := seq(n, i => EMPTY_QUEUE);
    if n > 0 {
      assert qs[1..] == seq(n - 1, i => EMPTY_QUEUE);
      EmptySums(n - 1);
    }
  }

  /** From creation: bytes sent, hoards and pool stay within 15000 + rmax * elapsed_us / 8. */
  lemma EnvelopeSinceInit(ncpu: nat, born: nat, ops: seq<Op>, b: Bounds)
    requires b.Bounds? && RFAIR_INITIAL <= b.rmax && Within(ops, b)
    ensures var rl := DoAll(NewRl(ncpu, born), ops);
            8 * Funds(rl) <= 8 * INITIAL_TOKENS + b.rmax * UsDelta(rl.last, born)
  {
    EmptySums(ncpu);
    WindowEnvelope(NewRl(ncpu, born), ops, b);
  }

  // ---- hoards and bursts ----

  /** No cap exceeds this when rates stay at or below `rmax`. */
  function BurstCap(rmax: nat): nat { Max(MIN_BURST_BYTES, rmax * MAX_BURST_TIME_US / 8) }

  lemma CapBound(rate: nat, rmax: nat)
    requires rate <= rmax
    ensures Cap(rate) <= BurstCap(rmax)
  {
    assert (rate * MAX_BURST_TIME_US) % U32 <= rate * MAX_BURST_TIME_US <= rmax * MAX_BURST_TIME_US;
  }

  ghost predicate QueueBounded(q: Queue, b: Bounds)
    requires b.Bounds?
  {
    q.first <= b.pmax && q.tokens <= BurstCap(b.rmax) + b.pmax - 1 && SmallList(q.list, b)
  }

  /** Bounds that leave room for the slowest rate and for one packet. */
  predicate Sound(b: Bounds) { b.Bounds? ==> 2 <= b.rmax && 0 < b.pmax }

  /** Rates, pool, hoards and packet sizes are all within their bounds. */
  ghost predicate Bounded(rl: Rl, b: Bounds) {
    b.Bounds? ==>
      && rl.rate <= b.rmax
      && rl.pool <= BurstCap(b.rmax)
      && forall c :: 0 <= c < |rl.queue| ==> QueueBounded(rl.queue[c], b)
  }

  /** Every action keeps every per-CPU hoard at most BurstCap + pmax - 1: a queue borrows only when
      it cannot pay for one packet, and then takes at most one full pool. */
  lemma OpKeepsBounded(rl: Rl, op: Op, b: Bounds)
    requires Sound(b) && Bounded(rl, b)
    requires OpOk(op, b)
    ensures Bounded(Do(rl, op), b)
  {
    if b.Bounds? {
      RateStaysBelow(rl, op, b.rmax);
      match op {
        case Refill(now) => CapBound(RateAt(rl, now), b.rmax);
        case Borrow(c) =>
        case Measure(c) =>
          if c < |rl.queue| && rl.queue[c].list != [] {
            assert QueueBounded(rl.queue[c], b) && rl.queue[c].list[0] in rl.queue[c].list;
          }
        case Depart(c) =>
        case Take(c, p) =>
        case Cut =>
        case SetRate(_, _) =>
      }
    }
  }

  lemma {:induction false} HoardsBounded(rl: Rl, ops: seq<Op>, b: Bounds)
    requires Sound(b) && Bounded(rl, b) && Within(ops, b)
    ensures Bounded(DoAll(rl, ops), b)
    decreases |ops|
  {
    if ops != [] {
      assert ops[0] in ops;
      assert Within(ops[1..], b);
      OpKeepsBounded(rl, ops[0], b);
      HoardsBounded(Do(rl, ops[0]), ops[1..], b);
    }
  }

  lemma {:induction false} SumTokensBound(qs: seq<Queue>, h: nat)
    requires forall c :: 0 <= c < |qs| ==> qs[c].tokens <= h
    ensures SumTokens(qs) <= |qs| * h
  {
    if qs != [] {
      SumTokensBound(qs[1..], h);
      assert |qs| * h == h + (|qs| - 1) * h;
    }
  }

  /** The burst bound between refills: N CPUs together send at most one full pool, plus N hoards of
      BurstCap + pmax - 1 bytes, plus rmax * time / 8, the time counted from the last refill before
      the first of the actions. */
  lemma BurstBounded(rl: Rl, ops: seq<Op>, b: Bounds)
    requires b.Bounds? && Sound(b) && Bounded(rl, b) && Within(ops, b)
    ensures var rl' := DoAll(rl, ops);
            8 * (SumXmit(rl'.queue) - SumXmit(rl.queue))
              <= 8 * (BurstCap(b.rmax) + |rl.queue| * (BurstCap(b.rmax) + b.pmax - 1))
                 + b.rmax * UsDelta(rl'.last, rl.last)
  {
    WindowEnvelope(rl, ops, b);
    SumTokensBound(rl.queue, BurstCap(b.rmax) + b.pmax - 1);
  }

  // ---- the envelope in clock time ----

  lemma EarlierStart(r: nat, last: nat, start: nat, since: nat)
    requires since <= start
    ensures r * UsDelta(last, start) <= r * UsDelta(last, since)
  {
    UsDeltaMono(last, last, start, since);
    MulMono(r, r, UsDelta(last, start), UsDelta(last, since));
  }

  /** What the first refill of a window adds to the funds is at most one full pool, however long the
      limiter had been idle. */
  lemma RefillAddsOnePool(rl: Rl, now: nat, rmax: nat)
    requires 2 <= rmax && rl.rate <= rmax && ShouldRefill(rl, now)
    ensures var rl' := Do(rl, Refill(now));
            Funds(rl') <= Funds(rl) + BurstCap(rmax) && rl'.last == now && rl'.rate <= rmax
  {
    RateStaysBelow(rl, Refill(now), rmax);
    CapBound(RateAt(rl, now), rmax);
  }

  /** The rate envelope over a window of clock time: with no refill before `since`, the funds grow by
      at most one full pool plus rmax * time / 8, the time counted from `since`. Time the limiter was
      idle before the window counts for nothing beyond that pool. */
  lemma {:induction false} ClockEnvelope(rl: Rl, ops: seq<Op>, b: Bounds)
    requires b.Bounds? && 2 <= b.rmax && rl.rate <= b.rmax && Within(ops, b)
    ensures 8 * Funds(DoAll(rl, ops))
              <= 8 * (Funds(rl) + BurstCap(b.rmax)) + b.rmax * UsDelta(DoAll(rl, ops).last, b.since)
    decreases |ops|
  {
    if ops != [] {
      assert OpOk(ops[0], b) && Within(ops[1..], b);
      var rl1 := Do(rl, ops[0]);
      if ops[0].Refill? && ShouldRefill(rl, ops[0].now) {
        RefillAddsOnePool(rl, ops[0].now, b.rmax);
        WindowEnvelope(rl1, ops[1..], b);
        EarlierStart(b.rmax, DoAll(rl, ops).last, ops[0].now, b.since);
      } else {
        OpConserves(rl, ops[0]);
        RateStaysBelow(rl, ops[0], b.rmax);
        ClockEnvelope(rl1, ops[1..], b);
      }
    }
  }

  /** The burst bound in clock time: N CPUs together send at most two full pools, plus N hoards, plus
      rmax * window / 8. */
  lemma ClockBurst(rl: Rl, ops: seq<Op>, b: Bounds)
    requires b.Bounds? && Sound(b) && Bounded(rl, b) && Within(ops, b)
    ensures var rl' := DoAll(rl, ops);
            8 * (SumXmit(rl'.queue) - SumXmit(rl.queue))
              <= 8 * (2 * BurstCap(b.rmax) + |rl.queue| * (BurstCap(b.rmax) + b.pmax - 1))
                 + b.rmax * UsDelta(rl'.last, b.since)
  {
    ClockEnvelope(rl, ops, b);
    SumTokensBound(rl.queue, BurstCap(b.rmax) + b.pmax - 1);
  }

  /** A limiter of one CPU with `n` buffers of a whole pool each, and what it has left. */
  ghost predicate Holds(rl: Rl, n: nat, pool: nat, tokens: nat, sent: nat, last: nat) {
    && rl.rate == 100 && rl.pool == pool && rl.last == last && rl.lastRate == 0 && |rl.queue| == 1
    && var q := rl.queue[0];
    && |q.list| == n && q.first == MIN_BURST_BYTES && q.tokens == tokens && q.xmit == sent
    && forall i :: 0 <= i < n ==> Size(q.list[i]) == MIN_BURST_BYTES
  }

  lemma HolderSends(rl: Rl, n: nat, pool: nat, sent: nat, last: nat)
    requires n > 0 && Holds(rl, n, pool, MIN_BURST_BYTES, sent, last)
    ensures Holds(Do(rl, Depart(0)), n - 1, pool, 0, sent + MIN_BURST_BYTES, last)
  {
  }

  lemma HolderBorrows(rl: Rl, n: nat, sent: nat, last: nat)
    requires Holds(rl, n, MIN_BURST_BYTES, 0, sent, last)
    ensures Holds(Do(rl, Borrow(0)), n, 0, MIN_BURST_BYTES, sent, last)
  {
  }

  lemma HolderRefills(rl: Rl, n: nat, sent: nat, now: nat)
    requires Holds(rl, n, 0, 0, sent, 0) && now == 10_000_000
    ensures Holds(Do(rl, Refill(now)), n, MIN_BURST_BYTES, 0, sent, now)
  {
  }

  lemma DoThree(rl: Rl, a: Op, b: Op, c: Op)
    ensures DoAll(rl, [a, b, c]) == Do(Do(Do(rl, a), b), c)
  {
    hide Do;
    assert [a, b, c][1..] == [b, c] && [b, c][1..] == [c] && [c][1..] == [];
    assert DoAll(rl, [a, b, c]) == DoAll(Do(rl, a), [b, c]) == DoAll(Do(Do(rl, a), b), [c]);
  }

  ghost function EarlyAndLate(now: nat): seq<Op> {
    [Depart(0), Borrow(0), Depart(0)] + [Refill(now), Borrow(0), Depart(0)]
  }

  lemma ThreeAtOnce(rl: Rl, now: nat)
    requires Holds(rl, 3, MIN_BURST_BYTES, MIN_BURST_BYTES, 0, 0) && now == 10_000_000
    ensures Holds(DoAll(rl, EarlyAndLate(now)), 0, 0, 0, 3 * MIN_BURST_BYTES, now)
  {
    hide Do, Holds;
    var rl2 := Do(Do(rl, Depart(0)), Borrow(0));
    var rl3 := Do(rl2, Depart(0));
    var rl5 := Do(Do(rl3, Refill(now)), Borrow(0));
    DoThree(rl, Depart(0), Borrow(0), Depart(0));
    DoThree(rl3, Refill(now), Borrow(0), Depart(0));
    DoAllConcat(rl, [Depart(0), Borrow(0), Depart(0)], [Refill(now), Borrow(0), Depart(0)]);
    HolderSends(rl, 3, MIN_BURST_BYTES, 0, 0);
    HolderBorrows(Do(rl, Depart(0)), 2, MIN_BURST_BYTES, 0);
    HolderSends(rl2, 2, 0, MIN_BURST_BYTES, 0);
    HolderRefills(rl3, 1, 2 * MIN_BURST_BYTES, now);
    HolderBorrows(Do(rl3, Refill(now)), 1, 2 * MIN_BURST_BYTES, now);
    HolderSends(rl5, 1, 0, 2 * MIN_BURST_BYTES, now);
  }

  /** In clock time the second pool is needed: after an idle spell one CPU sends three buffers at a
      single instant, a byte more than one pool and its hoard. */
  lemma OnePoolIsNotEnough() returns (rl: Rl, ops: seq<Op>, b: Bounds)
    ensures b.Bounds? && Sound(b) && Bounded(rl, b) && Within(ops, b) && |rl.queue| == 1
    ensures var rl' := DoAll(rl, ops);
            && rl'.last == b.since
            && SumXmit(rl'.queue) - SumXmit(rl.queue) > BurstCap(b.rmax) + (BurstCap(b.rmax) + b.pmax - 1)
  {
    var p := Packet(0, MIN_BURST_BYTES - ETH_HLEN, Root(0), false);
    var q := Queue([p, p, p], MIN_BURST_BYTES, 3 * MIN_BURST_BYTES, 0, MIN_BURST_BYTES, [p, p, p], []);
    b := Bounds(100, MIN_BURST_BYTES, 10_000_000);
    rl := Rl(100, MIN_BURST_BYTES, 0, 0, [q], 0);
    ops := EarlyAndLate(b.since);
    ThreeAtOnce(rl, b.since);
    var rl' := DoAll(rl, ops);
    assert SumXmit(rl'.queue[1..]) == 0 && SumXmit(rl.queue[1..]) == 0;
  }

  /** A limiter that is offered no buffer above GSO_MIN_SPLIT_BYTES never segments one. */
  lemma {:induction false} NeverSplits(rl: Rl, ops: seq<Op>, b: Bounds)
    requires b.Bounds? && b.pmax <= GSO_MIN_SPLIT_BYTES && Within(ops, b)
    ensures DoAll(rl, ops).splits == rl.splits
    decreases |ops|
  {
    if ops != [] {
      assert OpOk(ops[0], b) && Within(ops[1..], b);
      NeverSplits(Do(rl, ops[0]), ops[1..], b);
    }
  }

  // ---- each queue's own books ----

  /** The list is what was accepted and has not departed, and both byte counters say so. */
  ghost predicate Books(q: Queue) {
    && q.accepted == q.departed + q.list
    && q.enqueued == Bytes(q.list)
    && q.xmit == Bytes(q.departed)
  }

  ghost predicate AllBooks(rl: Rl) {
    forall c :: 0 <= c < |rl.queue| ==> Books(rl.queue[c])
  }

  lemma AppendKeepsBooks(q: Queue, p: Packet)
    requires Books(q)
    ensures Books(Append(q, p))
  {
    BytesConcat(q.list, [p]);
    assert q.departed + (q.list + [p]) == q.departed + q.list + [p];
  }

  lemma DepartKeepsBooks(q: Queue)
    requires Books(q) && q.list != [] && Size(q.list[0]) <= q.tokens
    ensures Books(Departed(q))
  {
    assert q.list == [q.list[0]] + q.list[1..];
    BytesConcat([q.list[0]], q.list[1..]);
    BytesConcat(q.departed, [q.list[0]]);
    assert q.departed + q.list == q.departed + [q.list[0]] + q.list[1..];
  }

  lemma OpKeepsBooks(rl: Rl, op: Op)
    requires AllBooks(rl)
    ensures AllBooks(Do(rl, op))
  {
    match op {
      case Take(c, p) => if c < |rl.queue| { AppendKeepsBooks(rl.queue[c], p); }
      case Depart(c) =>
        if c < |rl.queue| && rl.queue[c].list != [] && Size(rl.queue[c].list[0]) <= rl.queue[c].tokens {
          DepartKeepsBooks(rl.queue[c]);
        }
      case _ =>
    }
  }

  /** Every interleaving keeps every queue in order and its byte counters exact; in particular
      `bytes_enqueued` never underflows. */
  lemma {:induction false} BooksKept(rl: Rl, ops: seq<Op>)
    requires AllBooks(rl)
    ensures AllBooks(DoAll(rl, ops))
    decreases |ops|
  {
    if ops != [] {
      OpKeepsBooks(rl, ops[0]);
      BooksKept(Do(rl, ops[0]), ops[1..]);
    }
  }
}
