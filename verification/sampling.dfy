/** Rates sampled from monotone byte counters (tx_rate of the device and of each class, rx_rate of
    the receiver): every sampler reads a total, divides by whole microseconds, and starts over. */
module Sampling {
  import opened Params
  import opened Arithmetic

  /** A rate sampler: the total and the time of the last reading, and the rate then computed. */
  datatype Meter = Meter(total: nat, at: nat, rate: nat)

  /** (bytes << 3) / dt: the shift on 64 bits, the result kept in 32. */
  function Sample(bytes: nat, dt: nat): nat
    requires dt > 0
  {
    bytes * 8 % U64 / dt % U32
  }

  /** What a tick at `now` that finds `total` does; ticks closer than `interval` do nothing. */
  function Read(m: Meter, total: nat, now: nat, interval: nat): Meter
    requires interval > 0
  {
    var dt := UsDelta(now, m.at);
    if dt < interval then m else Meter(total, now, Sample((total - m.total) % U64, dt))
  }

  /** The quotient fits 32 bits, and the bit count 64. */
  predicate FitsSample(bytes: int, dt: nat) { 0 <= bytes * 8 < U64 && bytes * 8 < U32 * dt }

  datatype Tick = Tick(total: nat, now: nat)

  predicate Fires(m: Meter, t: Tick, interval: nat) { UsDelta(t.now, m.at) >= interval }

  function ReadAll(m: Meter, ticks: seq<Tick>, interval: nat): Meter
    requires interval > 0
    decreases |ticks|
  {
    if ticks == [] then m else ReadAll(Read(m, ticks[0].total, ticks[0].now, interval), ticks[1..], interval)
  }

  function Bits(rate: nat, dt: nat): int { rate * dt }

  /** Sum of rate * dt over the ticks that fired: what the samples claim was sent, in bits. */
  function Claimed(m: Meter, ticks: seq<Tick>, interval: nat): int
    requires interval > 0
    decreases |ticks|
  {
    if ticks == [] then 0
    else
      var m' := Read(m, ticks[0].total, ticks[0].now, interval);
      (if Fires(m, ticks[0], interval) then Bits(m'.rate, UsDelta(ticks[0].now, m.at)) else 0)
      + Claimed(m', ticks[1..], interval)
  }

  /** Sum of dt over the ticks that fired. */
  function Span(m: Meter, ticks: seq<Tick>, interval: nat): nat
    requires interval > 0
    decreases |ticks|
  {
    if ticks == [] then 0
    else (if Fires(m, ticks[0], interval) then UsDelta(ticks[0].now, m.at) else 0)
         + Span(Read(m, ticks[0].total, ticks[0].now, interval), ticks[1..], interval)
  }

  /** The counter never runs backwards, and no sample exceeds 32 bits. */
  ghost predicate Plausible(m: Meter, ticks: seq<Tick>, interval: nat)
    requires interval > 0
    decreases |ticks|
  {
    ticks != [] ==>
      && m.total <= ticks[0].total
      && (Fires(m, ticks[0], interval) ==> FitsSample(ticks[0].total - m.total, UsDelta(ticks[0].now, m.at)))
      && Plausible(Read(m, ticks[0].total, ticks[0].now, interval), ticks[1..], interval)
  }

  lemma SmallMod(q: nat)
    requires q < U32
    ensures q % U32 == q
  {
  }

  lemma SmallerProduct(x: nat, q: nat, dt: nat)
    requires x + 1 <= q
    ensures x * dt + dt <= q * dt
  {
    assert (q - x - 1) * dt >= 0;
    assert (q - x - 1) * dt == q * dt - x * dt - dt;
  }

  lemma OneQuotient(a: nat, dt: nat)
    requires dt > 0
    ensures a / dt % U32 * dt <= a
    ensures a < a / dt % U32 * dt + dt <==> a < U32 * dt
  {
    var q := Div(a, dt);
    DivBounds(a, dt);
    if a < U32 * dt {
      DivBelow(a, dt, U32);
      SmallMod(q);
    } else {
      DivAtLeast(a, dt, U32);
      assert q % U32 + 1 <= q;
      hide Div;
      SmallerProduct(q % U32, q, dt);
    }
  }

  /** One sample: it claims no more bits than were counted and misses less than one per microsecond,
      exactly when the quotient fits 32 bits. */
  lemma OneSample(bytes: nat, dt: nat)
    requires dt > 0 && bytes * 8 < U64
    ensures Sample(bytes, dt) * dt <= 8 * bytes
    ensures 8 * bytes < Sample(bytes, dt) * dt + dt <==> bytes * 8 < U32 * dt
  {
    assert bytes * 8 % U64 == bytes * 8;
    OneQuotient(bytes * 8, dt);
  }

  lemma OneRead(m: Meter, t: Tick, interval: nat)
    requires interval > 0 && Fires(m, t, interval) && m.total <= t.total
    requires FitsSample(t.total - m.total, UsDelta(t.now, m.at))
    ensures var dt, m' := UsDelta(t.now, m.at), Read(m, t.total, t.now, interval);
            && m'.total == t.total
            && Bits(m'.rate, dt) <= 8 * (t.total - m.total) < Bits(m'.rate, dt) + dt
  {
    hide Sample, UsDelta;
    assert (t.total - m.total) % U64 == t.total - m.total;
    OneSample(t.total - m.total, UsDelta(t.now, m.at));
  }

  /** Over any run of ticks the samples claim no more than 8 bits per byte counted, fall short by less
      than one bit per microsecond sampled, and never divide by zero. */
  lemma {:induction false} SamplesConserve(m: Meter, ticks: seq<Tick>, interval: nat)
    requires interval > 0 && Plausible(m, ticks, interval)
    ensures var bits := 8 * (ReadAll(m, ticks, interval).total - m.total);
            var claimed, span := Claimed(m, ticks, interval), Span(m, ticks, interval);
            claimed <= bits && bits <= claimed + span && (span > 0 ==> bits < claimed + span)
    decreases |ticks|
  {
    if ticks != [] {
      var m' := Read(m, ticks[0].total, ticks[0].now, interval);
      if Fires(m, ticks[0], interval) {
        OneRead(m, ticks[0], interval);
      }
      hide Sample, Bits, FitsSample, UsDelta;
      SamplesConserve(m', ticks[1..], interval);
    }
  }
}
