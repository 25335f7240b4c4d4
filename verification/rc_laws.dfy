/** What one packet does to the rate controller, and the whole course of a recovery: how deep a cut is,
    exactly when a mark cuts and a packet raises, and that recovery takes five steps and then ends. */
module RcLaws {
  import opened Params
  import opened Arithmetic
  import opened RateControl

  // ---- a decrease ----

  /** A mark of m takes m/512ths of the rate away, rounding the rest down. */
  lemma CutExactly(r: nat, m: nat)
    requires r <= 9800 && m <= 512
    ensures 512 * Cut(r, m) <= r * (512 - m) < 512 * Cut(r, m) + 512
  {
    assert (512 - m) % U64 == 512 - m;
    MulMono(r, 9800, 512 - m, 512);
    assert r * (512 - m) % U64 == r * (512 - m);
  }

  /** The rate a decrease or increase starts from: after a thousand seconds without a change, 2500 at most. */
  function Base(rc: Rc, now: nat): nat {
    if UsDelta(now, rc.lastChange) > 1_000_000_000 && rc.rfair > 2500 then 2500 else rc.rfair
  }

  /** A decrease by a mark of m remembers the rate it starts from as the target, takes m/512ths of it away but
      leaves at least 10, and begins a recovery; it touches nothing else. */
  lemma DecreaseExactly(rc: Rc, m: nat, now: nat)
    requires rc.rfair <= 9800 && m <= 512
    ensures var d, base := Decreased(rc, m, now), Base(rc, now);
            && d.target == base && !d.ai && d.count == 0 && d.alpha == m && d.lastDecrease == now
            && (base * (512 - m) >= 512 * 10 ==> 512 * d.rfair <= base * (512 - m) < 512 * d.rfair + 512)
            && (base * (512 - m) < 512 * 10 ==> d.rfair == 10)
            && d.lastChange == rc.lastChange && d.stats == rc.stats
  {
    CutExactly(Base(rc, now), m);
    hide Cut, UsDelta;
  }

  /** An increase in recovery, of which there are five, goes half way to the target; any other adds 10, up to
      the link, and the target goes along. */
  lemma IncreaseExactly(rc: Rc, now: nat)
    ensures var i, rested := Increased(rc, now), UsDelta(now, rc.lastChange) > 1_000_000_000 && rc.rfair > 2500;
            var target := if rested then 2500 else rc.target;
            && i.alpha == rc.alpha && i.lastChange == rc.lastChange && i.lastDecrease == rc.lastDecrease
            && i.stats == rc.stats
            && (!rc.ai && rc.count < 5 ==>
                  !i.ai && i.count == rc.count + 1 && i.target == target && i.rfair == (Base(rc, now) + target) / 2)
            && (rc.ai || rc.count >= 5 ==>
                  i.ai && i.count == 0 && i.target == i.rfair == Min(9800, Base(rc, now) + 10))
  {
  }

  /** Exactly when a packet does what. Every packet is counted. A mark seen more than 120 microseconds after
      the last decrease, with the lock, cuts the rate, and a packet without one seen more than 120
      microseconds after the last change, with the lock, raises it, unless another CPU got there first;
      either way the change time is then now. Otherwise nothing else happens. */
  lemma ReceivedExactly(rc: Rc, p: Packet)
    requires Fit(rc, p)
    ensures var r, s := Received(rc, p), rc.stats[p.cpu];
            var s' := Stats(s.numMarked + (if p.marked != 0 then 1 else 0), s.numRx + 1);
            var counted := rc.(stats := rc.stats[p.cpu := s']);
            var since := UsDelta(p.now, if p.marked != 0 then rc.lastDecrease else rc.lastChange);
            && (p.seen <= 120 || !p.lock ==> r == counted)
            && (p.seen > 120 && p.lock ==>
                  r == (if since < 120 then counted
                        else if p.marked != 0 then Decreased(counted, p.marked, p.now)
                        else Increased(counted, p.now)).(lastChange := p.now))
  {
    hide UsDelta, Cut;
  }

  // ---- a recovery ----

  lemma StepOfRecovery(rc: Rc, p: Packet)
    requires !rc.ai && rc.count < 5 && Fit(rc, p) && p.marked == 0 && p.lock
    requires INCREASE_INTERVAL_US < UsDelta(p.now, rc.lastChange) <= IDLE_TIMEOUT_US
    ensures var r := Received(rc, p);
            !r.ai && r.count == rc.count + 1 && r.target == rc.target && r.rfair == (rc.rfair + rc.target) / 2
  {
    hide UsDelta;
  }

  lemma EndOfRecovery(rc: Rc, p: Packet)
    requires !rc.ai && rc.count == 5 && rc.rfair <= MAX_TX_RATE && Fit(rc, p) && p.marked == 0 && p.lock
    requires INCREASE_INTERVAL_US < UsDelta(p.now, rc.lastChange) <= IDLE_TIMEOUT_US
    ensures var r := Received(rc, p); r.ai && r.rfair == Min(MAX_TX_RATE, rc.rfair + 10)
  {
    hide UsDelta;
  }

  /** A recovery that is not disturbed: n steady packets without marks are n steps, each half way to the
      target, until five are done; the target stays, and the gap is the first one over 2^n rounded up. */
  lemma {:induction false} RecoveryTakesFive(rc: Rc, ps: seq<Packet>, gap: int)
    requires !rc.ai && rc.count + |ps| <= 5 && Steady(rc, ps) && rc.rfair <= rc.target
    requires CeilOf(gap, Pow2(rc.count), rc.target - rc.rfair)
    ensures FitRun(rc, ps)
    ensures var r := Run(rc, ps);
            && !r.ai && r.count == rc.count + |ps| && r.rfair <= r.target == rc.target
            && CeilOf(gap, Pow2(r.count), r.target - r.rfair)
    decreases |ps|
  {
    if ps != [] {
      StepOfRecovery(rc, ps[0]);
      HalveCeil(gap, Pow2(rc.count), rc.target - rc.rfair);
      var r := Received(rc, ps[0]);
      assert r.target - r.rfair == (rc.target - rc.rfair + 1) / 2;
      assert Pow2(r.count) == 2 * Pow2(rc.count);
      hide Received, Fit, UsDelta, CeilOf, Pow2;
      RecoveryTakesFive(r, ps[1..], gap);
    }
  }

  // ---- counting ----

  function MarkedBy(stats: seq<Stats>): nat { if stats == [] then 0 else stats[0].numMarked + MarkedBy(stats[1..]) }

  function SeenBy(stats: seq<Stats>): nat { if stats == [] then 0 else stats[0].numRx + SeenBy(stats[1..]) }

  function MarksIn(ps: seq<Packet>): nat {
    if ps == [] then 0 else (if ps[0].marked != 0 then 1 else 0) + MarksIn(ps[1..])
  }

  lemma {:induction false} CountsUpdate(stats: seq<Stats>, c: nat, s: Stats)
    requires c < |stats|
    ensures MarkedBy(stats[c := s]) == MarkedBy(stats) - stats[c].numMarked + s.numMarked
    ensures SeenBy(stats[c := s]) == SeenBy(stats) - stats[c].numRx + s.numRx
    decreases |stats|
  {
    if c == 0 {
      assert stats[c := s][1..] == stats[1..];
    } else {
      assert stats[c := s][1..] == stats[1..][c - 1 := s];
      CountsUpdate(stats[1..], c - 1, s);
    }
  }

  lemma OneCounted(rc: Rc, p: Packet)
    requires Fit(rc, p)
    ensures SeenBy(Received(rc, p).stats) == SeenBy(rc.stats) + 1
    ensures MarkedBy(Received(rc, p).stats) == MarkedBy(rc.stats) + if p.marked != 0 then 1 else 0
  {
    hide UsDelta, Cut, SeenBy, MarkedBy;
    var s := rc.stats[p.cpu];
    CountsUpdate(rc.stats, p.cpu, Stats(s.numMarked + (if p.marked != 0 then 1 else 0), s.numRx + 1));
  }

  /** Over any run every packet and every mark is counted once. */
  lemma {:induction false} AllCounted(rc: Rc, ps: seq<Packet>)
    requires FitRun(rc, ps)
    ensures SeenBy(Run(rc, ps).stats) == SeenBy(rc.stats) + |ps|
    ensures MarkedBy(Run(rc, ps).stats) == MarkedBy(rc.stats) + MarksIn(ps)
    decreases |ps|
  {
    if ps != [] {
      OneCounted(rc, ps[0]);
      hide Received, Fit, SeenBy, MarkedBy;
      AllCounted(Received(rc, ps[0]), ps[1..]);
    }
  }
}
