/** The receive side of a device (rx.c): received-byte counters, the sampled receive rate and the
    device-wide rate the virtual queues share. */
module RxContexts {
  import opened Params
  import opened Arithmetic
  import opened Sampling
  import Rcp

  datatype RxStats = RxStats(rxBytes: nat, rxPackets: nat)

  /** `struct iso_rx_context`: `meter` is (global rx_bytes, last_stats_update_time, rx_rate). */
  datatype Rx = Rx(stats: seq<RxStats>, meter: Meter, packets: nat, lastRcp: nat, rcpRate: nat)

  function NewRx(ncpu: nat, now: nat): Rx {
    Rx(seq(ncpu, i => RxStats(0, 0)), Meter(0, now, 0), 0, now, VQ_DRAIN_RATE)
  }

  function SumRx(stats: seq<RxStats>, n: nat): nat
    requires n <= |stats|
  {
    if n == 0 then 0 else SumRx(stats, n - 1) + stats[n - 1].rxBytes
  }

  function Bump(s: RxStats, size: nat): RxStats { RxStats(s.rxBytes + size, s.rxPackets + 1) }

  datatype Arrival = Arrival(cpu: nat, size: nat, now: nat, lock: bool)

  /** `iso_rx_stats_update`. The packet total is overwritten, not summed, by each CPU in turn. */
  function StatsUpdated(rx: Rx, a: Arrival): (r: Rx)
    requires a.cpu < |rx.stats|
    ensures |r.stats| == |rx.stats|
  {
    var stats := rx.stats[a.cpu := Bump(rx.stats[a.cpu], a.size)];
    if UsDelta(a.now, rx.meter.at) < VQ_UPDATE_INTERVAL_US || !a.lock then rx.(stats := stats)
    else rx.(stats := stats,
             meter := Read(rx.meter, SumRx(stats, |stats|), a.now, VQ_UPDATE_INTERVAL_US),
             packets := stats[|stats| - 1].rxPackets)
  }

  /** `iso_rx_rcp_update` */
  function RcpUpdated(rx: Rx, now: nat, lock: bool): Rx {
    if UsDelta(now, rx.lastRcp) < VQ_HRCP_US || !lock then rx
    else rx.(rcpRate := Rcp.NextRx(rx.rcpRate, VQ_DRAIN_RATE, rx.meter.rate), lastRcp := now)
  }

  /** The device's rate stays in [MIN_RFAIR, drain rate] on every update. It moves only with the lock and a
      millisecond after it last did, and then follows the control law exactly when the measured rate is
      at most three times the drain rate. */
  lemma RcpUpdateLaw(rx: Rx, now: nat, lock: bool)
    requires MIN_RFAIR <= rx.rcpRate <= VQ_DRAIN_RATE && rx.meter.rate < U32
    ensures var r := RcpUpdated(rx, now, lock);
            && MIN_RFAIR <= r.rcpRate <= VQ_DRAIN_RATE
            && r == rx.(rcpRate := r.rcpRate, lastRcp := r.lastRcp)
            && (UsDelta(now, rx.lastRcp) < 1000 || !lock ==> r == rx)
            && (UsDelta(now, rx.lastRcp) >= 1000 && lock ==> r.lastRcp == now)
            && (UsDelta(now, rx.lastRcp) >= 1000 && lock ==>
                  (r.rcpRate == Rcp.Next(rx.rcpRate, VQ_DRAIN_RATE, rx.meter.rate)
                   <==> rx.meter.rate <= 3 * VQ_DRAIN_RATE))
  {
    Rcp.RxFormExact(rx.rcpRate, VQ_DRAIN_RATE, rx.meter.rate);
  }

  /** A device that starts at its drain rate and is never loaded beyond it stays there. */
  lemma FullRateStays(rx: Rx, now: nat, lock: bool)
    requires rx.rcpRate == VQ_DRAIN_RATE && rx.meter.rate <= VQ_DRAIN_RATE
    ensures RcpUpdated(rx, now, lock).rcpRate == VQ_DRAIN_RATE
  {
    var c, y := VQ_DRAIN_RATE, rx.meter.rate;
    Rcp.RxFormFits(c, c, y);
    MulMono(c, c, 2 * c, 3 * c - y);
    DivAtLeast(Mul(c, 3 * c - y), 2 * c, c);
  }

  /** A packet adds one and its size to its CPU's counters. With the lock, and 200 microseconds after the last
      reading, the device's total is read anew, and its packet count becomes the last CPU's alone. */
  lemma StatsExactly(rx: Rx, a: Arrival)
    requires a.cpu < |rx.stats|
    ensures var r, due := StatsUpdated(rx, a), UsDelta(a.now, rx.meter.at) >= 200 && a.lock;
            && r.stats[a.cpu].rxBytes == rx.stats[a.cpu].rxBytes + a.size
            && r.stats[a.cpu].rxPackets == rx.stats[a.cpu].rxPackets + 1
            && (forall c :: 0 <= c < |rx.stats| && c != a.cpu ==> r.stats[c] == rx.stats[c])
            && r.rcpRate == rx.rcpRate && r.lastRcp == rx.lastRcp
            && (due ==> r.meter.total == SumRx(r.stats, |r.stats|) && r.meter.at == a.now
                        && r.packets == r.stats[|r.stats| - 1].rxPackets)
            && (!due ==> r.meter == rx.meter && r.packets == rx.packets)
  {
    hide UsDelta, Sample;
  }

  // ---- runs of arrivals ----

  lemma {:induction false} SumBump(stats: seq<RxStats>, c: nat, size: nat, n: nat)
    requires c < |stats| && n <= |stats|
    ensures SumRx(stats[c := Bump(stats[c], size)], n) == SumRx(stats, n) + (if c < n then size else 0)
    decreases n
  {
    if n > 0 { SumBump(stats, c, size, n - 1); }
  }

  function Total(rx: Rx): nat { SumRx(rx.stats, |rx.stats|) }

  function SizesOf(es: seq<Arrival>): nat { if es == [] then 0 else es[0].size + SizesOf(es[1..]) }

  ghost predicate Fits(rx: Rx, es: seq<Arrival>)
    decreases |es|
  {
    es != [] ==>
      && es[0].cpu < |rx.stats|
      && (UsDelta(es[0].now, rx.meter.at) >= VQ_UPDATE_INTERVAL_US ==>
            FitsSample(Total(StatsUpdated(rx, es[0])) - rx.meter.total, UsDelta(es[0].now, rx.meter.at)))
      && Fits(StatsUpdated(rx, es[0]), es[1..])
  }

  function RunRx(rx: Rx, es: seq<Arrival>): Rx
    requires Fits(rx, es)
    decreases |es|
  {
    if es == [] then rx else RunRx(StatsUpdated(rx, es[0]), es[1..])
  }

  /** Every byte that arrives is counted, whether or not a reading is due. */
  lemma {:induction false} AllReceived(rx: Rx, es: seq<Arrival>)
    requires Fits(rx, es)
    ensures Total(RunRx(rx, es)) == Total(rx) + SizesOf(es)
    decreases |es|
  {
    if es != [] {
      SumBump(rx.stats, es[0].cpu, es[0].size, |rx.stats|);
      hide UsDelta, Sample, FitsSample, SumRx;
      AllReceived(StatsUpdated(rx, es[0]), es[1..]);
    }
  }

  function Arrived(es: seq<Arrival>): nat { if es == [] then 0 else es[0].size + Arrived(es[1..]) }

  /** The readings the meter takes along a run. */
  ghost function Readings(rx: Rx, es: seq<Arrival>): seq<Tick>
    requires Fits(rx, es)
    decreases |es|
  {
    if es == [] then []
    else
      var rx' := StatsUpdated(rx, es[0]);
      (if es[0].lock then [Tick(Total(rx'), es[0].now)] else []) + Readings(rx', es[1..])
  }

  lemma {:induction false} RunReads(rx: Rx, es: seq<Arrival>)
    requires Fits(rx, es) && rx.meter.total <= Total(rx)
    ensures ReadAll(rx.meter, Readings(rx, es), VQ_UPDATE_INTERVAL_US) == RunRx(rx, es).meter
    ensures Plausible(rx.meter, Readings(rx, es), VQ_UPDATE_INTERVAL_US)
    ensures Total(RunRx(rx, es)) == Total(rx) + Arrived(es)
    decreases |es|
  {
    if es != [] {
      var rx' := StatsUpdated(rx, es[0]);
      SumBump(rx.stats, es[0].cpu, es[0].size, |rx.stats|);
      hide UsDelta, Sample, FitsSample;
      RunReads(rx', es[1..]);
      if es[0].lock {
        assert Readings(rx, es)[1..] == Readings(rx', es[1..]);
      } else {
        assert Readings(rx, es) == Readings(rx', es[1..]);
      }
    }
  }

  /** Over any run of arrivals the sampled receive rates account for the bytes received: they claim no
      more than was counted, and less than one bit per sampled microsecond is missing. */
  lemma RxSamplesConserve(rx: Rx, es: seq<Arrival>)
    requires Fits(rx, es) && rx.meter.total <= Total(rx)
    ensures var bits := 8 * (RunRx(rx, es).meter.total - rx.meter.total);
            var ticks := Readings(rx, es);
            var claimed := Claimed(rx.meter, ticks, VQ_UPDATE_INTERVAL_US);
            var span := Span(rx.meter, ticks, VQ_UPDATE_INTERVAL_US);
            claimed <= bits && bits <= claimed + span && (span > 0 ==> bits < claimed + span)
  {
    RunReads(rx, es);
    SamplesConserve(rx.meter, Readings(rx, es), VQ_UPDATE_INTERVAL_US);
  }

  // ---- the object ----

  class RxContext {
    var stats: seq<RxStats>
    var globalBytes: nat
    var globalPackets: nat
    var lastBytes: nat
    var lastStatsUpdate: nat
    var lastRcpTime: nat
    var rcpRate: nat
    var rxRate: nat

    function View(): Rx
      reads this
    {
      Rx(stats, Meter(globalBytes, lastStatsUpdate, rxRate), globalPackets, lastRcpTime, rcpRate)
    }

    /** `iso_rx_init` */
    constructor (ncpu: nat, now: nat)
      ensures View() == NewRx(ncpu, now) && |stats| == ncpu
      ensures rcpRate == 9000 && rxRate == globalBytes == globalPackets == 0 && lastStatsUpdate == lastRcpTime == now
      ensures forall i :: 0 <= i < ncpu ==> stats[i] == RxStats(0, 0)
    {
      stats := seq(ncpu, i => RxStats(0, 0));
      globalBytes, globalPackets, lastBytes := 0, 0, 0;
      lastStatsUpdate, lastRcpTime := now, now;
      rcpRate, rxRate := VQ_DRAIN_RATE, 0;
    }

    /** `iso_rx_stats_update` */
    method StatsUpdate(a: Arrival)
      requires a.cpu < |stats|
      modifies this
      ensures View() == StatsUpdated(old(View()), a)
    {
      stats := stats[a.cpu := Bump(stats[a.cpu], a.size)];
      var dt := UsDelta(a.now, lastStatsUpdate);
      if dt < VQ_UPDATE_INTERVAL_US || !a.lock {
        return;
      }
      lastStatsUpdate := a.now;
      lastBytes := globalBytes;
      globalBytes, globalPackets := 0, 0;
      for i := 0 to |stats|
        invariant stats == old(stats)[a.cpu := Bump(old(stats)[a.cpu], a.size)]
        invariant globalBytes == SumRx(stats, i)
        invariant i > 0 ==> globalPackets == stats[i - 1].rxPackets
        invariant lastStatsUpdate == a.now && lastBytes == old(globalBytes)
        invariant lastRcpTime == old(lastRcpTime) && rcpRate == old(rcpRate)
      {
        globalBytes := globalBytes + stats[i].rxBytes;
        globalPackets := stats[i].rxPackets;
      }
      rxRate := Sample((globalBytes - lastBytes) % U64, dt);
    }

    /** `iso_rx_rcp_update` */
    method RcpUpdate(now: nat, lock: bool)
      modifies this
      ensures View() == RcpUpdated(old(View()), now, lock)
    {
      if UsDelta(now, lastRcpTime) < VQ_HRCP_US || !lock {
        return;
      }
      rcpRate := Rcp.NextRx(rcpRate, VQ_DRAIN_RATE, rxRate);
      lastRcpTime := now;
    }
  }
}
