/** The receiver's virtual queue (vq.c): per-CPU counters, the periodic drain with its congestion
    estimate and rate control, and the range every advertised rate stays in. */
module VirtualQueues {
  import opened Params
  import opened Arithmetic
  import opened Ewma
  import Rcp

  /** `struct iso_vq_stats`. `rxSince` is bumped by one here and by packet sizes in `iso_rx`. */
  datatype Stats = Stats(
    bytesQueued: nat, networkMarked: nat, rxPackets: nat, rxBytes: nat,
    lastFeedbackGen: nat, rxSince: nat, rxMarkedSince: nat)

  /** `struct iso_vq` */
  datatype Vq = Vq(
    isStatic: bool, rate: nat, feedbackRate: nat, rxRate: int, lastRxBytes: nat,
    weight: nat, alpha: nat, lastUpdate: nat, stats: seq<Stats>)

  const NO_STATS := Stats(0, 0, 0, 0, 0, 0, 0)

  /** `iso_vq_init` */
  function NewVq(ncpu: nat, now: nat): Vq {
    Vq(false, MIN_RFAIR, MIN_RFAIR, 0, 0, 1, 0, now, seq(ncpu, i => NO_STATS))
  }

  // ---- the drain ----

  /** Conversion of a 64-bit value to a C int. */
  function AsInt(x: int): int {
    var m := x % U32;
    if m < I32 then m else m - U32
  }

  /** Per-CPU sums over the first n CPUs, on 64 and on 32 bits. */
  function SumBytes(stats: seq<Stats>, n: nat): nat
    requires n <= |stats|
  {
    if n == 0 then 0 else (SumBytes(stats, n - 1) + stats[n - 1].rxBytes) % U64
  }

  function SumSince(stats: seq<Stats>, n: nat): nat
    requires n <= |stats|
  {
    if n == 0 then 0 else (SumSince(stats, n - 1) + stats[n - 1].rxSince) % U32
  }

  function SumMarked(stats: seq<Stats>, n: nat): nat
    requires n <= |stats|
  {
    if n == 0 then 0 else (SumMarked(stats, n - 1) + stats[n - 1].rxMarkedSince) % U32
  }

  /** "Assimilate and reset": what a drain leaves in each CPU's counters. */
  function ResetOne(s: Stats): Stats { s.(bytesQueued := 0, rxSince := 0, rxMarkedSince := 0) }

  function Reset(stats: seq<Stats>): (r: seq<Stats>)
    ensures |r| == |stats|
  {
    seq(|stats|, i requires 0 <= i < |stats| => ResetOne(stats[i]))
  }

  /** The rate this queue is entitled to: its weight's share, unless it is capped. */
  function Entitled(vq: Vq, rcpRate: nat): nat {
    var rate := vq.weight * rcpRate;
    if vq.isStatic then Min(rate, vq.rate) else rate
  }

  /** The drain divides by twice this: it is positive exactly when the queue has a weight, and a rate
      if it is capped. */
  lemma EntitledPositive(vq: Vq, rcpRate: nat)
    requires MIN_RFAIR <= rcpRate
    ensures Entitled(vq, rcpRate) > 0 <==> vq.weight > 0 && (vq.isStatic ==> vq.rate > 0)
  {
    if vq.weight > 0 {
      MulMono(1, vq.weight, rcpRate, rcpRate);
    }
  }

  /** A byte count over dt microseconds as an int rate. */
  function Rate(bytes: nat, dt: nat): int
    requires dt > 0
  {
    AsInt(bytes * 8 % U64 / dt)
  }

  /** What the bottleneck queue must hold for this fraction of packets to be marked, as a rate. */
  function Surplus(frac: nat, dt: nat): int
    requires dt > 0
  {
    ECN_MARK_THRESH_BYTES * 8 * (DEN + frac) / DEN / dt
  }

  /** Bits per microsecond received since the last drain. */
  function Received(vq: Vq, rxBytes: nat, dt: nat): int
    requires dt > 0
  {
    Rate((rxBytes - vq.lastRxBytes) % U64, dt)
  }

  /** The load fed to the control law: congestion marks add the bottleneck's surplus, and then the
      load is held to three times the entitlement. */
  function Load(received: int, frac: nat, entitled: nat, dt: nat): int
    requires dt > 0
  {
    if frac == 0 then received
    else Min(AsInt(received + Surplus(frac, dt)), AsInt(3 * entitled))
  }

  /** The next advertised rate; control is off when the drain rate exceeds the link. */
  function Advertised(r: nat, entitled: nat, load: int): nat
    requires 0 < entitled < I32
  {
    if VQ_DRAIN_RATE <= MAX_TX_RATE then Rcp.NextVq(r, entitled, load) else MAX_TX_RATE
  }

  function Drained(vq: Vq, dt: nat, now: nat, rcpRate: nat): (r: Vq)
    requires dt > 0 && 0 < Entitled(vq, rcpRate) < I32
  {
    if UsDelta(now, vq.lastUpdate) < VQ_UPDATE_INTERVAL_US then vq
    else
      var n := |vq.stats|;
      var rxBytes := SumBytes(vq.stats, n);
      var entitled := Entitled(vq, rcpRate);
      var frac := Fraction(SumMarked(vq.stats, n), SumSince(vq.stats, n));
      var load := Load(Received(vq, rxBytes, dt), frac, entitled, dt);
      vq.(lastUpdate := now,
          stats := Reset(vq.stats),
          alpha := G16(vq.alpha, frac),
          feedbackRate := Advertised(vq.feedbackRate, entitled, load),
          rxRate := load,
          lastRxBytes := rxBytes)
  }

  /** The most a queue of this weight can be entitled to. */
  function Mult(weight: nat): nat { weight * VQ_DRAIN_RATE }

  /** In range for a queue whose weight never exceeds w. */
  predicate InRange(vq: Vq, w: nat) {
    vq.weight <= w && MIN_RFAIR <= vq.feedbackRate <= Max(MIN_RFAIR, Mult(w)) && vq.alpha <= DEN
  }

  /** A drain's advertised rate and estimate stay in range, whatever was counted. */
  lemma DrainInRange(vq: Vq, dt: nat, now: nat, rcpRate: nat, w: nat)
    requires dt > 0 && 0 < Entitled(vq, rcpRate) < I32 && InRange(vq, w) && rcpRate <= VQ_DRAIN_RATE
    ensures InRange(Drained(vq, dt, now, rcpRate), w)
  {
    MulMono(vq.weight, w, rcpRate, VQ_DRAIN_RATE);
  }

  /** The drain follows the control law, for a capacity of the weight times the device's rate or of a lower
      cap, exactly when the load it used is at most three times that (or that is at the floor). */
  lemma DrainFollowsLaw(vq: Vq, dt: nat, now: nat, rcpRate: nat)
    requires dt > 0 && 0 < Entitled(vq, rcpRate) < I32
    requires 0 < vq.feedbackRate < I32 && UsDelta(now, vq.lastUpdate) >= VQ_UPDATE_INTERVAL_US
    ensures var r, share := Drained(vq, dt, now, rcpRate), vq.weight * rcpRate;
            var cap := if vq.isStatic && vq.rate < share then vq.rate else share;
            && cap > 0
            && (r.feedbackRate == Rcp.Next(vq.feedbackRate, cap, r.rxRate)
                <==> (r.rxRate <= 3 * cap || cap <= MIN_RFAIR))
  {
    Rcp.VqFormExact(vq.feedbackRate, Entitled(vq, rcpRate), Drained(vq, dt, now, rcpRate).rxRate);
  }

  /** A drain that saw any mark is always in that case. */
  lemma MarksHoldTheLoad(received: int, frac: nat, entitled: nat, dt: nat)
    requires dt > 0 && frac > 0
    ensures Load(received, frac, entitled, dt) <= 3 * entitled
  {
  }

  // ---- iso_vq_enqueue and runs ----

  /** One received packet: its CPU, size and CE codepoint; the clock when it arrived and when the
      drain it may start reads it again; whether the trylock succeeds; and the device's rate. */
  datatype Arrival = Arrival(cpu: nat, size: nat, ce: bool, now: nat, later: nat, lock: bool, rcpRate: nat)

  function Counted(s: Stats, ce: bool): Stats {
    s.(rxSince := (s.rxSince + 1) % U32, rxPackets := s.rxPackets + 1,
       networkMarked := s.networkMarked + (if ce then 1 else 0),
       rxMarkedSince := if ce then (s.rxMarkedSince + 1) % U32 else s.rxMarkedSince)
  }

  function Weighed(s: Stats, size: nat): Stats {
    s.(bytesQueued := s.bytesQueued + size, rxBytes := s.rxBytes + size)
  }

  ghost predicate Sane(vq: Vq, a: Arrival) {
    a.cpu < |vq.stats| && a.now <= a.later && 0 < Entitled(vq, a.rcpRate) < I32
  }

  function Enqueued(vq: Vq, a: Arrival): (r: Vq)
    requires Sane(vq, a)
    ensures |r.stats| == |vq.stats| && r.weight == vq.weight && r.isStatic == vq.isStatic && r.rate == vq.rate
  {
    var vq1 := vq.(stats := vq.stats[a.cpu := Counted(vq.stats[a.cpu], a.ce)]);
    var dt := UsDelta(a.now, vq.lastUpdate);
    var vq2 := if dt > VQ_UPDATE_INTERVAL_US && a.lock then Drained(vq1, dt, a.later, a.rcpRate) else vq1;
    vq2.(stats := vq2.stats[a.cpu := Weighed(vq2.stats[a.cpu], a.size)])
  }

  lemma EnqueueInRange(vq: Vq, a: Arrival, w: nat)
    requires Sane(vq, a) && InRange(vq, w) && a.rcpRate <= VQ_DRAIN_RATE
    ensures InRange(Enqueued(vq, a), w)
  {
    var vq1 := vq.(stats := vq.stats[a.cpu := Counted(vq.stats[a.cpu], a.ce)]);
    var dt := UsDelta(a.now, vq.lastUpdate);
    if dt > VQ_UPDATE_INTERVAL_US && a.lock {
      DrainInRange(vq1, dt, a.later, a.rcpRate, w);
    }
  }

  ghost predicate SaneRun(vq: Vq, es: seq<Arrival>)
    decreases |es|
  {
    es != [] ==> Sane(vq, es[0]) && es[0].rcpRate <= VQ_DRAIN_RATE && SaneRun(Enqueued(vq, es[0]), es[1..])
  }

  function RunVq(vq: Vq, es: seq<Arrival>): Vq
    requires SaneRun(vq, es)
    decreases |es|
  {
    if es == [] then vq else RunVq(Enqueued(vq, es[0]), es[1..])
  }

  /** On every run of arrivals the advertised rate stays in [MIN_RFAIR, weight * drain rate] and the
      congestion estimate in [0, 1024]. */
  lemma {:induction false} RunInRange(vq: Vq, es: seq<Arrival>, w: nat)
    requires SaneRun(vq, es) && InRange(vq, w)
    ensures InRange(RunVq(vq, es), w)
    decreases |es|
  {
    if es != [] {
      EnqueueInRange(vq, es[0], w);
      RunInRange(Enqueued(vq, es[0]), es[1..], w);
    }
  }

  // ---- every mark and every byte is counted by one drain ----

  predicate Drains(vq: Vq, a: Arrival) {
    && UsDelta(a.now, vq.lastUpdate) > VQ_UPDATE_INTERVAL_US && a.lock
    && UsDelta(a.later, vq.lastUpdate) >= VQ_UPDATE_INTERVAL_US
  }

  /** Marks waiting in the per-CPU counters, and the marks the drains of a run have read. */
  function Pending(vq: Vq): nat { SumMarked(vq.stats, |vq.stats|) }

  function CountedIn(vq: Vq, a: Arrival): Vq
    requires a.cpu < |vq.stats|
  {
    vq.(stats := vq.stats[a.cpu := Counted(vq.stats[a.cpu], a.ce)])
  }

  function MarksRead(vq: Vq, es: seq<Arrival>): nat
    requires SaneRun(vq, es)
    decreases |es|
  {
    if es == [] then 0
    else
      (if Drains(vq, es[0]) then Pending(CountedIn(vq, es[0])) else 0) + MarksRead(Enqueued(vq, es[0]), es[1..])
  }

  function MarksArrived(es: seq<Arrival>): nat {
    if es == [] then 0 else (if es[0].ce then 1 else 0) + MarksArrived(es[1..])
  }

  /** The sum of the marks, without 32-bit wrap-around. */
  function TrueMarked(stats: seq<Stats>, n: nat): nat
    requires n <= |stats|
  {
    if n == 0 then 0 else TrueMarked(stats, n - 1) + stats[n - 1].rxMarkedSince
  }

  lemma {:induction false} MarkedFits(stats: seq<Stats>, n: nat)
    requires n <= |stats| && TrueMarked(stats, n) < U32
    ensures SumMarked(stats, n) == TrueMarked(stats, n)
    decreases n
  {
    if n > 0 { MarkedFits(stats, n - 1); }
  }

  lemma {:induction false} MarkedUpdate(stats: seq<Stats>, c: nat, s: Stats, n: nat)
    requires c < |stats| && n <= |stats|
    ensures TrueMarked(stats[c := s], n)
            == TrueMarked(stats, n) + (if c < n then s.rxMarkedSince - stats[c].rxMarkedSince else 0)
    decreases n
  {
    if n > 0 { MarkedUpdate(stats, c, s, n - 1); }
  }

  lemma {:induction false} MarkedReset(stats: seq<Stats>, n: nat)
    requires n <= |stats|
    ensures TrueMarked(Reset(stats), n) == 0
    decreases n
  {
    if n > 0 { MarkedReset(stats, n - 1); }
  }

  lemma {:induction false} MarkedMember(stats: seq<Stats>, c: nat, n: nat)
    requires c < n <= |stats|
    ensures stats[c].rxMarkedSince <= TrueMarked(stats, n)
    decreases n
  {
    if c < n - 1 { MarkedMember(stats, c, n - 1); }
  }

  /** One arrival: the mark it may bring is waiting, or the drain it started has read everything. */
  lemma ArrivalMarks(vq: Vq, a: Arrival)
    requires Sane(vq, a) && TrueMarked(vq.stats, |vq.stats|) + 1 < U32
    ensures var n, m := |vq.stats|, TrueMarked(vq.stats, |vq.stats|) + (if a.ce then 1 else 0);
            && Pending(CountedIn(vq, a)) == m
            && TrueMarked(Enqueued(vq, a).stats, n) == if Drains(vq, a) then 0 else m
  {
    var n := |vq.stats|;
    var vq1 := CountedIn(vq, a);
    MarkedMember(vq.stats, a.cpu, n);
    MarkedUpdate(vq.stats, a.cpu, Counted(vq.stats[a.cpu], a.ce), n);
    MarkedFits(vq1.stats, n);
    MarkedReset(vq1.stats, n);
    hide SumMarked, SumBytes, SumSince, TrueMarked, UsDelta, Advertised, G16, Load, Received;
    var dt := UsDelta(a.now, vq.lastUpdate);
    var vq2 := if dt > VQ_UPDATE_INTERVAL_US && a.lock then Drained(vq1, dt, a.later, a.rcpRate) else vq1;
    assert vq2.stats == if Drains(vq, a) then Reset(vq1.stats) else vq1.stats;
    MarkedUpdate(vq2.stats, a.cpu, Weighed(vq2.stats[a.cpu], a.size), n);
  }

  /** The marks waiting at any one moment of the run fit the 32-bit counters. */
  predicate NeverFull(vq: Vq, es: seq<Arrival>)
    requires SaneRun(vq, es)
    decreases |es|
  {
    TrueMarked(vq.stats, |vq.stats|) + 1 < U32 && (es != [] ==> NeverFull(Enqueued(vq, es[0]), es[1..]))
  }

  /** Over any run, however long, marks read by drains plus marks still waiting are the marks that
      arrived: none is lost and none is read twice. */
  lemma {:induction false} MarksReadOnce(vq: Vq, es: seq<Arrival>)
    requires SaneRun(vq, es) && NeverFull(vq, es)
    ensures MarksRead(vq, es) + Pending(RunVq(vq, es)) == TrueMarked(vq.stats, |vq.stats|) + MarksArrived(es)
    decreases |es|
  {
    if es == [] {
      MarkedFits(vq.stats, |vq.stats|);
    } else {
      ArrivalMarks(vq, es[0]);
      hide Enqueued, CountedIn, Drains, Pending, TrueMarked, Sane;
      MarksReadOnce(Enqueued(vq, es[0]), es[1..]);
    }
  }

  lemma SmallInt(q: nat)
    requires q < I32
    ensures AsInt(q) == q
  {
  }

  lemma RateIsQuotient(bytes: nat, dt: nat)
    requires dt > 0 && bytes * 8 < U64 && bytes * 8 / dt < I32
    ensures Rate(bytes, dt) == bytes * 8 / dt
  {
    assert bytes * 8 % U64 == bytes * 8;
    SmallInt(bytes * 8 / dt);
  }

  lemma RateExact(bytes: nat, dt: nat)
    requires dt > 0 && bytes * 8 < U64 && bytes * 8 < I32 * dt
    ensures Rate(bytes, dt) * dt <= bytes * 8 < Rate(bytes, dt) * dt + dt
  {
    hide Rate;
    DivBelow(bytes * 8, dt, I32);
    DivBounds(bytes * 8, dt);
    RateIsQuotient(bytes, dt);
  }

  /** A drain with no marks: its rate claims no more bits than arrived since the last drain and misses
      less than one per microsecond, and the next drain starts from there. */
  lemma DrainSamples(vq: Vq, dt: nat, now: nat, rcpRate: nat)
    requires dt > 0 && 0 < Entitled(vq, rcpRate) < I32 && UsDelta(now, vq.lastUpdate) >= VQ_UPDATE_INTERVAL_US
    requires SumMarked(vq.stats, |vq.stats|) == 0 && vq.lastRxBytes <= SumBytes(vq.stats, |vq.stats|)
    requires 8 * (SumBytes(vq.stats, |vq.stats|) - vq.lastRxBytes) < U64
    requires 8 * (SumBytes(vq.stats, |vq.stats|) - vq.lastRxBytes) < I32 * dt
    ensures var r, bits := Drained(vq, dt, now, rcpRate), 8 * (SumBytes(vq.stats, |vq.stats|) - vq.lastRxBytes);
            r.lastRxBytes == SumBytes(vq.stats, |vq.stats|) && r.rxRate * dt <= bits < r.rxRate * dt + dt
  {
    hide SumBytes, SumMarked, SumSince, Advertised, G16, Reset, Surplus, UsDelta, Rate;
    var bytes := SumBytes(vq.stats, |vq.stats|) - vq.lastRxBytes;
    assert Fraction(0, SumSince(vq.stats, |vq.stats|)) == 0;
    RateExact(bytes, dt);
    assert bytes % U64 == bytes;
  }

  // ---- the object ----

  class VirtualQueue {
    var isStatic: bool
    var rate: nat
    var feedbackRate: nat
    var rxRate: int
    var lastRxBytes: nat
    var weight: nat
    var alpha: nat
    var lastUpdate: nat
    var stats: seq<Stats>

    function View(): Vq
      reads this
    {
      Vq(isStatic, rate, feedbackRate, rxRate, lastRxBytes, weight, alpha, lastUpdate, stats)
    }

    /** `iso_vq_init` */
    constructor (ncpu: nat, now: nat)
      ensures View() == NewVq(ncpu, now) && |stats| == ncpu
      ensures weight == 1 && feedbackRate == 10 && !isStatic && alpha == 0 && lastRxBytes == 0 && lastUpdate == now
      ensures forall i :: 0 <= i < ncpu ==> stats[i] == Stats(0, 0, 0, 0, 0, 0, 0)
    {
      isStatic, rate, feedbackRate := false, MIN_RFAIR, MIN_RFAIR;
      rxRate, lastRxBytes, weight, alpha, lastUpdate := 0, 0, 1, 0, now;
      stats := seq(ncpu, i => NO_STATS);
    }

    /** The per-CPU loop of the drain: sum and reset. */
    method Assimilate() returns (rxBytes: nat, rxPkts: nat, rxMarked: nat)
      modifies this`stats
      ensures stats == Reset(old(stats))
      ensures rxBytes == SumBytes(old(stats), |old(stats)|)
      ensures rxPkts == SumSince(old(stats), |old(stats)|)
      ensures rxMarked == SumMarked(old(stats), |old(stats)|)
    {
      rxBytes, rxPkts, rxMarked := 0, 0, 0;
      ghost var s := stats;
      for i := 0 to |stats|
        invariant |stats| == |s|
        invariant forall j :: 0 <= j < i ==> stats[j] == ResetOne(s[j])
        invariant forall j :: i <= j < |s| ==> stats[j] == s[j]
        invariant rxBytes == SumBytes(s, i) && rxPkts == SumSince(s, i) && rxMarked == SumMarked(s, i)
      {
        rxBytes := (rxBytes + stats[i].rxBytes) % U64;
        rxPkts := (rxPkts + stats[i].rxSince) % U32;
        rxMarked := (rxMarked + stats[i].rxMarkedSince) % U32;
        stats := stats[i := stats[i].(bytesQueued := 0, rxSince := 0, rxMarkedSince := 0)];
      }
    }

    /** `iso_vq_drain` */
    method Drain(dt: nat, now: nat, rcpRate: nat)
      requires dt > 0 && 0 < Entitled(View(), rcpRate) < I32
      modifies this
      ensures View() == Drained(old(View()), dt, now, rcpRate)
    {
      hide Rate, Surplus, AsInt, UsDelta, G16, Advertised, Reset, SumBytes, SumMarked, SumSince;
      if UsDelta(now, lastUpdate) < VQ_UPDATE_INTERVAL_US {
        return;
      }
      lastUpdate := now;
      var rxBytes, rxPkts, rxMarked := Assimilate();
      var target := weight * rcpRate;
      if isStatic {
        target := Min(target, rate);
      }
      var diff := (rxBytes - lastRxBytes) % U64;
      var measured := Rate(diff, dt);
      var frac := Fraction(rxMarked, rxPkts);
      alpha := G16(alpha, frac);
      if frac != 0 {
        measured := AsInt(measured + Surplus(frac, dt));
        measured := Min(measured, AsInt(3 * target));
      }
      feedbackRate := Advertised(feedbackRate, target, measured);
      rxRate := measured;
      lastRxBytes := rxBytes;
    }

    /** `iso_vq_enqueue` */
    method Enqueue(a: Arrival)
      requires Sane(View(), a)
      modifies this
      ensures View() == Enqueued(old(View()), a)
    {
      stats := stats[a.cpu := Counted(stats[a.cpu], a.ce)];
      var dt := UsDelta(a.now, lastUpdate);
      if dt > VQ_UPDATE_INTERVAL_US {
        if a.lock {
          Drain(dt, a.later, a.rcpRate);
        }
      }
      stats := stats[a.cpu := Weighed(stats[a.cpu], a.size)];
    }
  }
}
