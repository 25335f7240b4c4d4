/** The per-destination rate controller (rc.c): multiplicative decrease on a mark, five steps of fast
    recovery towards the rate before it, then additive increase. */
module RateControl {
  import opened Params
  import opened Arithmetic

  /** `struct iso_rc_stats` */
  datatype Stats = Stats(numMarked: nat, numRx: nat)

  /** `struct iso_rc_state`; `ai` is state RC_AI, otherwise RC_FAST_RECOVERY. */
  datatype Rc = Rc(
    rfair: nat, target: nat, ai: bool, alpha: nat, count: nat,
    lastChange: nat, lastDecrease: nat, stats: seq<Stats>)

  /** `iso_rc_init` */
  function NewRc(ncpu: nat, now: nat): Rc {
    Rc(RFAIR_INITIAL, RFAIR_INITIAL, true, 0, 0, now, now, seq(ncpu, i => Stats(0, 0)))
  }

  /** A received packet: its CPU, the rate it carries as feedback (0 for none), the clock, the
      interval read before the lock is tried, and whether the lock was free. Another CPU may have
      acted since that first reading, so it is at least the interval found under the lock. */
  datatype Packet = Packet(cpu: nat, marked: nat, now: nat, seen: nat, lock: bool)

  predicate Fit(rc: Rc, p: Packet) {
    && p.cpu < |rc.stats|
    && UsDelta(p.now, if p.marked != 0 then rc.lastDecrease else rc.lastChange) <= p.seen
  }

  /** A rate unused for long starts again from the idle rate. */
  function Rested(rc: Rc, now: nat): Rc {
    if UsDelta(now, rc.lastChange) > IDLE_TIMEOUT_US && rc.rfair > IDLE_RATE
    then rc.(rfair := IDLE_RATE, target := IDLE_RATE) else rc
  }

  /** r * (512 - marked) / 512 on 64 bits. */
  function Cut(r: nat, marked: nat): nat { r * ((512 - marked) % U64) % U64 / 512 }

  function Decreased(rc0: Rc, marked: nat, now: nat): Rc {
    var rc := Rested(rc0, now);
    rc.(target := rc.rfair, rfair := Max(MIN_RFAIR, Cut(rc.rfair, marked)),
        count := 0, alpha := marked, lastDecrease := now, ai := false)
  }

  function Increased(rc0: Rc, now: nat): Rc {
    var rc := Rested(rc0, now);
    if !rc.ai && rc.count < 5 then rc.(rfair := (rc.rfair + rc.target) / 2, count := rc.count + 1)
    else
      var r := Min(MAX_TX_RATE, rc.rfair + RFAIR_INCREMENT);
      rc.(ai := true, count := 0, rfair := r, target := r)
  }

  function Counted(rc: Rc, p: Packet): Rc
    requires p.cpu < |rc.stats|
  {
    var s := rc.stats[p.cpu];
    rc.(stats := rc.stats[p.cpu := Stats(s.numMarked + (if p.marked != 0 then 1 else 0), s.numRx + 1)])
  }

  /** `iso_rc_rx`. Whoever gets the lock marks the change time, even when the second look says no. */
  function Received(rc: Rc, p: Packet): (r: Rc)
    requires Fit(rc, p)
    ensures |r.stats| == |rc.stats|
  {
    var rc1 := Counted(rc, p);
    if p.marked != 0 then
      if p.seen <= DECREASE_INTERVAL_US || !p.lock then rc1
      else if UsDelta(p.now, rc.lastDecrease) < DECREASE_INTERVAL_US then rc1.(lastChange := p.now)
      else Decreased(rc1, p.marked, p.now).(lastChange := p.now)
    else
      if p.seen <= INCREASE_INTERVAL_US || !p.lock then rc1
      else if UsDelta(p.now, rc.lastChange) < INCREASE_INTERVAL_US then rc1.(lastChange := p.now)
      else Increased(rc1, p.now).(lastChange := p.now)
  }

  // ---- what every run keeps ----

  predicate Valid(rc: Rc) {
    && MIN_RFAIR <= rc.rfair <= rc.target <= Max(RFAIR_INITIAL, MAX_TX_RATE)
    && rc.count <= 5
    && (rc.ai ==> rc.rfair == rc.target)
  }

  lemma Bound(r: nat, over: nat)
    requires r <= MAX_TX_RATE && over <= U16
    ensures r * over <= MAX_TX_RATE * U16
  {
    assert (MAX_TX_RATE - r) * over >= 0;
    assert (MAX_TX_RATE - r) * over == MAX_TX_RATE * over - r * over;
  }

  /** A cut by at most everything never raises the rate; past 512 it wraps to an enormous one. */
  lemma CutBounds(r: nat, marked: nat)
    requires MIN_RFAIR <= r <= MAX_TX_RATE && marked < U16
    ensures marked <= 512 ==> Cut(r, marked) <= r
    ensures marked > 512 ==> Cut(r, marked) > MAX_TX_RATE
  {
    if marked <= 512 {
      assert (512 - marked) % U64 == 512 - marked;
      assert r * (512 - marked) <= r * 512;
    } else {
      var over := marked - 512;
      assert (512 - marked) % U64 == U64 - over;
      assert r * over <= MAX_TX_RATE * U16 by { Bound(r, over); }
      assert r * (U64 - over) == (r - 1) * U64 + (U64 - r * over);
      ModAbsorbs64(r - 1, U64 - r * over);
    }
  }

  /** A decrease keeps the controller in range exactly when the mark is at most 512. */
  lemma DecreaseValid(rc: Rc, marked: nat, now: nat)
    requires Valid(rc) && marked < U16
    ensures Valid(Decreased(rc, marked, now)) <==> marked <= 512
    ensures Decreased(rc, marked, now).target == Rested(rc, now).rfair
  {
    hide UsDelta;
    CutBounds(Rested(rc, now).rfair, marked);
  }

  lemma IncreaseValid(rc: Rc, now: nat)
    requires Valid(rc)
    ensures Valid(Increased(rc, now))
  {
    hide UsDelta;
  }

  ghost predicate FitRun(rc: Rc, ps: seq<Packet>)
    decreases |ps|
  {
    ps != [] ==> Fit(rc, ps[0]) && FitRun(Received(rc, ps[0]), ps[1..])
  }

  ghost function Run(rc: Rc, ps: seq<Packet>): Rc
    requires FitRun(rc, ps)
    decreases |ps|
  {
    if ps == [] then rc else Run(Received(rc, ps[0]), ps[1..])
  }

  lemma ReceiveValid(rc: Rc, p: Packet)
    requires Valid(rc) && Fit(rc, p) && p.marked <= 512
    ensures Valid(Received(rc, p))
  {
    hide UsDelta, Cut;
    DecreaseValid(Counted(rc, p), p.marked, p.now);
    IncreaseValid(Counted(rc, p), p.now);
  }

  /** Over every run whose marks are at most 512: MIN <= rfair <= target <= the highest rate, at most
      five recovery steps, and no recovery left to do while increasing additively. */
  lemma {:induction false} RunValid(rc: Rc, ps: seq<Packet>)
    requires Valid(rc) && FitRun(rc, ps) && forall i :: 0 <= i < |ps| ==> ps[i].marked <= 512
    ensures Valid(Run(rc, ps))
    decreases |ps|
  {
    if ps != [] {
      ReceiveValid(rc, ps[0]);
      hide Received, Valid;
      RunValid(Received(rc, ps[0]), ps[1..]);
    }
  }

  /** The same from a fresh controller. */
  lemma LifetimeValid(ncpu: nat, now: nat, ps: seq<Packet>)
    requires FitRun(NewRc(ncpu, now), ps) && forall i :: 0 <= i < |ps| ==> ps[i].marked <= 512
    ensures Valid(Run(NewRc(ncpu, now), ps))
  {
    hide Run, FitRun;
    RunValid(NewRc(ncpu, now), ps);
  }

  // ---- additive increase ----

  /** Unmarked packets that each get the lock an increase interval after the last change, and before
      the rate counts as idle. */
  ghost predicate Steady(rc: Rc, ps: seq<Packet>)
    decreases |ps|
  {
    ps != [] ==>
      && Fit(rc, ps[0]) && ps[0].marked == 0 && ps[0].lock
      && INCREASE_INTERVAL_US < UsDelta(ps[0].now, rc.lastChange) <= IDLE_TIMEOUT_US
      && Steady(Received(rc, ps[0]), ps[1..])
  }

  lemma OneMore(rc: Rc, p: Packet)
    requires rc.ai && rc.rfair <= MAX_TX_RATE && Fit(rc, p) && p.marked == 0 && p.lock
    requires INCREASE_INTERVAL_US < UsDelta(p.now, rc.lastChange) <= IDLE_TIMEOUT_US
    ensures Received(rc, p).ai && Received(rc, p).rfair == Min(MAX_TX_RATE, rc.rfair + RFAIR_INCREMENT)
  {
    hide UsDelta;
  }

  /** Additive increase: n such packets raise the rate by n increments, up to the link and no further. */
  lemma {:induction false} AdditiveClimb(rc: Rc, ps: seq<Packet>)
    requires rc.ai && rc.rfair <= MAX_TX_RATE && Steady(rc, ps)
    ensures FitRun(rc, ps) && Run(rc, ps).ai
    ensures Run(rc, ps).rfair == Min(MAX_TX_RATE, rc.rfair + RFAIR_INCREMENT * |ps|)
    decreases |ps|
  {
    if ps != [] {
      OneMore(rc, ps[0]);
      hide Received, Fit, UsDelta;
      AdditiveClimb(Received(rc, ps[0]), ps[1..]);
    }
  }

  // ---- fast recovery ----

  /** h is g / p rounded up. */
  predicate CeilOf(g: int, p: nat, h: int) { p * (h - 1) < g <= p * h }

  lemma HalveCeil(g: int, p: nat, h: int)
    requires p > 0 && CeilOf(g, p, h)
    ensures CeilOf(g, 2 * p, (h + 1) / 2)
  {
    var h2 := (h + 1) / 2;
    assert 2 * p * h2 == p * (2 * h2) && p * (2 * h2) >= p * h;
    assert 2 * p * (h2 - 1) == p * (2 * h2 - 2) && p * (2 * h2 - 2) <= p * (h - 1);
  }

  /** Recovering towards `peak` from `gap` below it: after `count` steps the gap is gap / 2^count
      rounded up, unless an idle spell put both rates at the idle rate. */
  predicate Recovering(rc: Rc, peak: nat, gap: int) {
    || rc.ai
    || (rc.rfair <= rc.target == peak && CeilOf(gap, Pow2(rc.count), rc.target - rc.rfair))
    || rc.rfair == rc.target == IDLE_RATE < peak
  }

  lemma DecreaseStartsRecovery(rc: Rc, marked: nat, now: nat)
    requires Valid(rc) && marked <= 512
    ensures var r := Decreased(rc, marked, now); Recovering(r, r.target, r.target - r.rfair)
  {
    DecreaseValid(rc, marked, now);
    hide Cut, UsDelta;
  }

  lemma IncreaseRecovers(rc: Rc, now: nat, peak: nat, gap: int)
    requires Valid(rc) && Recovering(rc, peak, gap)
    ensures Recovering(Increased(rc, now), peak, gap)
    ensures !rc.ai && rc.count == 5 ==> Increased(rc, now).ai
  {
    hide UsDelta;
    if !rc.ai && Rested(rc, now) == rc && rc.target == peak && CeilOf(gap, Pow2(rc.count), rc.target - rc.rfair) {
      HalveCeil(gap, Pow2(rc.count), rc.target - rc.rfair);
      assert rc.target - (rc.rfair + rc.target) / 2 == (rc.target - rc.rfair + 1) / 2;
    }
  }

  lemma UnmarkedRecovers(rc: Rc, p: Packet, peak: nat, gap: int)
    requires Valid(rc) && Fit(rc, p) && p.marked == 0 && Recovering(rc, peak, gap)
    ensures Recovering(Received(rc, p), peak, gap)
  {
    IncreaseRecovers(Counted(rc, p), p.now, peak, gap);
    hide CeilOf, UsDelta, Pow2;
  }

  /** Fast recovery: after a decrease and any run of unmarked packets, as long as the controller is
      still recovering the gap to the rate before the decrease is exactly the first gap halved once
      per step and rounded up, so that rate is approached and never passed. */
  lemma {:induction false} RecoveryHalvesGap(rc: Rc, ps: seq<Packet>, peak: nat, gap: int)
    requires Valid(rc) && Recovering(rc, peak, gap) && FitRun(rc, ps) && forall i :: 0 <= i < |ps| ==> ps[i].marked == 0
    ensures Recovering(Run(rc, ps), peak, gap) && Valid(Run(rc, ps))
    decreases |ps|
  {
    if ps != [] {
      UnmarkedRecovers(rc, ps[0], peak, gap);
      ReceiveValid(rc, ps[0]);
      hide Recovering, Received, Valid;
      RecoveryHalvesGap(Received(rc, ps[0]), ps[1..], peak, gap);
    }
  }

  /** Consecutive decreases are at least the decrease interval apart, and the rate falls for no other
      reason than such a decrease or idleness. */
  lemma DecreasesAreSpaced(rc: Rc, p: Packet)
    requires Valid(rc) && Fit(rc, p)
    ensures Received(rc, p).lastDecrease != rc.lastDecrease ==>
              Received(rc, p).lastDecrease == p.now && UsDelta(p.now, rc.lastDecrease) >= DECREASE_INTERVAL_US
    ensures Received(rc, p).rfair < rc.rfair ==>
              (p.marked != 0 && UsDelta(p.now, rc.lastDecrease) >= DECREASE_INTERVAL_US)
              || (UsDelta(p.now, rc.lastChange) > IDLE_TIMEOUT_US && rc.rfair > IDLE_RATE)
  {
    hide UsDelta, Cut;
  }

  /** The whole episode: a decrease, then any run without marks. */
  lemma RecoveryAfterDecrease(rc: Rc, marked: nat, now: nat, ps: seq<Packet>)
    requires Valid(rc) && 0 < marked <= 512
    requires FitRun(Decreased(rc, marked, now).(lastChange := now), ps)
    requires forall i :: 0 <= i < |ps| ==> ps[i].marked == 0
    ensures var cut := Decreased(rc, marked, now).(lastChange := now);
            var end, peak := Run(cut, ps), Rested(rc, now).rfair;
            || end.ai
            || (end.count <= 5 && end.rfair <= end.target == peak
                && CeilOf(peak - cut.rfair, Pow2(end.count), peak - end.rfair))
            || end.rfair == end.target == IDLE_RATE < peak
  {
    var cut := Decreased(rc, marked, now);
    DecreaseValid(rc, marked, now);
    DecreaseStartsRecovery(rc, marked, now);
    RecoveryHalvesGap(cut.(lastChange := now), ps, cut.target, cut.target - cut.rfair);
  }

  // ---- the object ----

  class RateController {
    var rfair: nat
    var target: nat
    var ai: bool
    var alpha: nat
    var count: nat
    var lastChange: nat
    var lastDecrease: nat
    var stats: seq<Stats>

    function View(): Rc
      reads this
    {
      Rc(rfair, target, ai, alpha, count, lastChange, lastDecrease, stats)
    }

    /** `iso_rc_init` */
    constructor (ncpu: nat, now: nat)
      ensures View() == NewRc(ncpu, now) && |stats| == ncpu
      ensures rfair == target == 5000 && ai && alpha == count == 0 && lastChange == lastDecrease == now
      ensures forall i :: 0 <= i < ncpu ==> stats[i] == Stats(0, 0)
    {
      rfair, target, ai, alpha, count := RFAIR_INITIAL, RFAIR_INITIAL, true, 0, 0;
      lastChange, lastDecrease := now, now;
      stats := seq(ncpu, i => Stats(0, 0));
    }

    /** `iso_rc_do_ai` */
    method DoAi()
      modifies `rfair
      ensures rfair == Min(MAX_TX_RATE, old(rfair) + RFAIR_INCREMENT)
      ensures old(rfair) <= MAX_TX_RATE ==> old(rfair) <= rfair <= MAX_TX_RATE
    {
      rfair := Min(MAX_TX_RATE, rfair + RFAIR_INCREMENT);
    }

    /** The body of a decrease, under the lock. */
    method Decrease(marked: nat, now: nat)
      modifies this
      ensures View() == Decreased(old(View()), marked, now)
    {
      if UsDelta(now, lastChange) > IDLE_TIMEOUT_US && rfair > IDLE_RATE {
        rfair, target := IDLE_RATE, IDLE_RATE;
      }
      var before := rfair;
      count := 0;
      alpha := marked;
      rfair := Cut(rfair, marked);
      rfair := Max(MIN_RFAIR, rfair);
      lastDecrease := now;
      ai := false;
      target := before;
    }

    /** The body of an increase, under the lock. */
    method Increase(now: nat)
      modifies this
      ensures View() == Increased(old(View()), now)
    {
      if UsDelta(now, lastChange) > IDLE_TIMEOUT_US && rfair > IDLE_RATE {
        rfair, target := IDLE_RATE, IDLE_RATE;
      }
      if !ai && count < 5 {
        rfair := (rfair + target) / 2;
        count := count + 1;
      } else {
        ai := true;
        count := 0;
        DoAi();
        target := rfair;
      }
    }

    /** `iso_rc_rx` */
    method Rx(p: Packet) returns (changed: bool)
      requires Fit(View(), p)
      modifies this
      ensures View() == Received(old(View()), p)
      ensures changed ==> lastChange == p.now
      ensures !changed ==> View() == Counted(old(View()), p)
    {
      stats := stats[p.cpu := stats[p.cpu].(numRx := stats[p.cpu].numRx + 1)];
      changed := false;
      if p.marked != 0 {
        stats := stats[p.cpu := stats[p.cpu].(numMarked := stats[p.cpu].numMarked + 1)];
        if p.seen > DECREASE_INTERVAL_US && p.lock {
          if UsDelta(p.now, lastDecrease) >= DECREASE_INTERVAL_US {
            Decrease(p.marked, p.now);
          }
          changed := true;
        }
      } else if p.seen > INCREASE_INTERVAL_US && p.lock {
        if UsDelta(p.now, lastChange) >= INCREASE_INTERVAL_US {
          Increase(p.now);
        }
        changed := true;
      }
      if changed {
        lastChange := p.now;
      }
    }
  }
}
