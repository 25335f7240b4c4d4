/** What the receiver's virtual queue does, in numbers: a cap that is set is kept to, congestion marks
    raise the load by what the bottleneck must hold, drains are spaced, and every packet and byte is
    counted. */
module VqLaws {
  import opened Params
  import opened Arithmetic
  import opened Ewma
  import opened VirtualQueues

  // ---- caps ----

  /** Not above the cap, or at the floor. */
  predicate Capped(vq: Vq) { vq.isStatic && vq.feedbackRate <= Max(10, vq.rate) }

  /** A drain that is due leaves a capped queue advertising no more than its cap. */
  lemma DrainCaps(vq: Vq, dt: nat, now: nat, rcpRate: nat)
    requires vq.isStatic && dt > 0 && 0 < Entitled(vq, rcpRate) < I32 && UsDelta(now, vq.lastUpdate) >= 200
    ensures Capped(Drained(vq, dt, now, rcpRate))
  {
    hide UsDelta, SumBytes, SumMarked, SumSince, Load, Received, Reset, G16;
  }

  /** Any packet keeps a capped queue to its cap, and one that starts a drain brings it there. */
  lemma ArrivalCaps(vq: Vq, a: Arrival)
    requires vq.isStatic && Sane(vq, a) && (Capped(vq) || Drains(vq, a))
    ensures Capped(Enqueued(vq, a))
  {
    hide UsDelta;
    var vq1 := CountedIn(vq, a);
    if Drains(vq, a) {
      DrainCaps(vq1, UsDelta(a.now, vq.lastUpdate), a.later, a.rcpRate);
    }
    hide Drained;
  }

  /** So a queue whose cap is left alone never advertises more than it, once it has drained. */
  lemma {:induction false} RunCapped(vq: Vq, es: seq<Arrival>)
    requires Capped(vq) && SaneRun(vq, es)
    ensures Capped(RunVq(vq, es))
    decreases |es|
  {
    if es != [] {
      ArrivalCaps(vq, es[0]);
      hide Enqueued, Sane, Drains;
      RunCapped(Enqueued(vq, es[0]), es[1..]);
    }
  }

  // ---- the load ----

  lemma IntIs(x: int)
    requires 0 <= x < I32
    ensures AsInt(x) == x
  {
    SmallInt(x);
  }

  lemma SurplusBounds(frac: nat, dt: nat)
    requires dt > 0 && frac <= 1024
    ensures Surplus(frac, dt) == (360_000 + 360_000 * frac / 1024) / dt
    ensures 0 <= Surplus(frac, dt) <= 720_000
  {
    assert 360_000 * (1024 + frac) / 1024 == 360_000 + 360_000 * frac / 1024;
    DivBounds(360_000 + 360_000 * frac / 1024, dt);
  }

  /** Marks raise the load: on top of the rate received, by the 45000 bytes the bottleneck's queue holds when
      it begins to mark and as many again for the marked fraction, spread over the interval; but never
      past three times the capacity. */
  lemma MarksRaiseLoad(received: nat, frac: nat, entitled: nat, dt: nat)
    requires dt > 0 && 0 < frac <= 1024 && received + 720_000 < I32 && 3 * entitled < I32
    ensures Load(received, frac, entitled, dt)
            == Min(received + (360_000 + 360_000 * frac / 1024) / dt, 3 * entitled)
  {
    SurplusBounds(frac, dt);
    hide Surplus;
    IntIs(received + Surplus(frac, dt));
    IntIs(3 * entitled);
    hide AsInt;
  }

  /** Without marks it is the rate received. */
  lemma UnmarkedLoad(received: int, entitled: nat, dt: nat)
    requires dt > 0
    ensures Load(received, 0, entitled, dt) == received
  {
  }

  /** What a drain that is due reads and leaves: the load of the bytes and marks since the last one, one step
      of the average towards the marked fraction, the totals it read, and cleared counters. */
  lemma DrainReads(vq: Vq, dt: nat, now: nat, rcpRate: nat)
    requires dt > 0 && 0 < Entitled(vq, rcpRate) < I32 && UsDelta(now, vq.lastUpdate) >= 200
    ensures var r, n := Drained(vq, dt, now, rcpRate), |vq.stats|;
            var total, frac := SumBytes(vq.stats, n), Fraction(SumMarked(vq.stats, n), SumSince(vq.stats, n));
            && r.rxRate == Load(Rate((total - vq.lastRxBytes) % U64, dt), frac, Entitled(vq, rcpRate), dt)
            && r.alpha == G16(vq.alpha, frac) && r.lastRxBytes == total && r.lastUpdate == now
            && (forall c :: 0 <= c < n ==>
                  && r.stats[c].rxSince == 0 && r.stats[c].rxMarkedSince == 0 && r.stats[c].bytesQueued == 0
                  && r.stats[c].rxBytes == vq.stats[c].rxBytes && r.stats[c].rxPackets == vq.stats[c].rxPackets
                  && r.stats[c].lastFeedbackGen == vq.stats[c].lastFeedbackGen
                  && r.stats[c].networkMarked == vq.stats[c].networkMarked)
  {
    hide UsDelta, SumBytes, SumMarked, SumSince, Load, G16, Advertised, Rate;
  }

  /** A drain that is not due does nothing. */
  lemma EarlyDrain(vq: Vq, dt: nat, now: nat, rcpRate: nat)
    requires dt > 0 && 0 < Entitled(vq, rcpRate) < I32 && UsDelta(now, vq.lastUpdate) < 200
    ensures Drained(vq, dt, now, rcpRate) == vq
  {
  }

  // ---- pacing and counting ----

  /** A packet starts a drain exactly when more than 200 microseconds have passed since the last and the lock
      is free, and the drain's own reading of the clock agrees; the next is counted from there. */
  lemma DrainsSpaced(vq: Vq, a: Arrival)
    requires Sane(vq, a)
    ensures Enqueued(vq, a).lastUpdate
            == if UsDelta(a.now, vq.lastUpdate) > 200 && a.lock && UsDelta(a.later, vq.lastUpdate) >= 200
               then a.later else vq.lastUpdate
  {
    hide UsDelta, SumBytes, SumMarked, SumSince, Load, Received, G16, Advertised, Reset;
  }

  function PacketsIn(stats: seq<Stats>): nat { if stats == [] then 0 else stats[0].rxPackets + PacketsIn(stats[1..]) }

  function BytesIn(stats: seq<Stats>): nat { if stats == [] then 0 else stats[0].rxBytes + BytesIn(stats[1..]) }

  function TrueBytes(stats: seq<Stats>, n: nat): nat
    requires n <= |stats|
  {
    if n == 0 then 0 else TrueBytes(stats, n - 1) + stats[n - 1].rxBytes
  }

  function TrueSince(stats: seq<Stats>, n: nat): nat
    requires n <= |stats|
  {
    if n == 0 then 0 else TrueSince(stats, n - 1) + stats[n - 1].rxSince
  }

  function SizesOf(es: seq<Arrival>): nat { if es == [] then 0 else es[0].size + SizesOf(es[1..]) }

  lemma ModStep64(a: nat, b: nat)
    ensures (a % U64 + b) % U64 == (a + b) % U64
  {
  }

  lemma ModStep32(a: nat, b: nat)
    ensures (a % U32 + b) % U32 == (a + b) % U32
  {
  }

  /** The sums a drain reads are the counters' sums, on 64 and on 32 bits. */
  lemma {:induction false} SumsAreTotals(stats: seq<Stats>, n: nat)
    requires n <= |stats|
    ensures SumBytes(stats, n) == TrueBytes(stats, n) % U64
    ensures SumSince(stats, n) == TrueSince(stats, n) % U32
    decreases n
  {
    if n > 0 {
      SumsAreTotals(stats, n - 1);
      ModStep64(TrueBytes(stats, n - 1), stats[n - 1].rxBytes);
      ModStep32(TrueSince(stats, n - 1), stats[n - 1].rxSince);
    }
  }

  lemma {:induction false} TotalsUpdate(stats: seq<Stats>, c: nat, s: Stats)
    requires c < |stats|
    ensures PacketsIn(stats[c := s]) == PacketsIn(stats) - stats[c].rxPackets + s.rxPackets
    ensures BytesIn(stats[c := s]) == BytesIn(stats) - stats[c].rxBytes + s.rxBytes
    decreases |stats|
  {
    if c == 0 {
      assert stats[c := s][1..] == stats[1..];
    } else {
      assert stats[c := s][1..] == stats[1..][c - 1 := s];
      TotalsUpdate(stats[1..], c - 1, s);
    }
  }

  lemma {:induction false} ResetKeepsTotals(stats: seq<Stats>)
    ensures PacketsIn(Reset(stats)) == PacketsIn(stats) && BytesIn(Reset(stats)) == BytesIn(stats)
    decreases |stats|
  {
    if stats != [] {
      assert Reset(stats)[1..] == Reset(stats[1..]);
      ResetKeepsTotals(stats[1..]);
    }
  }

  /** What one packet leaves in its CPU's counters: the drain it may start clears what counts from drain to
      drain, the packet itself included, but not its bytes; other CPUs' counters are only cleared. */
  lemma ArrivalSince(vq: Vq, a: Arrival)
    requires Sane(vq, a)
    ensures var e, s, one := Enqueued(vq, a), vq.stats[a.cpu], if a.ce then 1 else 0;
            var s' := e.stats[a.cpu];
            && s'.rxSince == (if Drains(vq, a) then 0 else (s.rxSince + 1) % U32)
            && s'.bytesQueued == (if Drains(vq, a) then 0 else s.bytesQueued) + a.size
            && s'.networkMarked == s.networkMarked + one && s'.lastFeedbackGen == s.lastFeedbackGen
            && (forall c :: 0 <= c < |vq.stats| && c != a.cpu ==>
                  e.stats[c] == if Drains(vq, a) then ResetOne(vq.stats[c]) else vq.stats[c])
  {
    hide UsDelta, SumBytes, SumMarked, SumSince, Load, Received, G16, Advertised;
  }

  lemma ArrivalCounts(vq: Vq, a: Arrival)
    requires Sane(vq, a)
    ensures PacketsIn(Enqueued(vq, a).stats) == PacketsIn(vq.stats) + 1
    ensures BytesIn(Enqueued(vq, a).stats) == BytesIn(vq.stats) + a.size
  {
    hide UsDelta, SumBytes, SumMarked, SumSince, Load, Received, G16, Advertised;
    var vq1 := CountedIn(vq, a);
    TotalsUpdate(vq.stats, a.cpu, Counted(vq.stats[a.cpu], a.ce));
    ResetKeepsTotals(vq1.stats);
    var vq2 := if Drains(vq, a) then Drained(vq1, UsDelta(a.now, vq.lastUpdate), a.later, a.rcpRate) else vq1;
    assert vq2.stats == if Drains(vq, a) then Reset(vq1.stats) else vq1.stats;
    TotalsUpdate(vq2.stats, a.cpu, Weighed(vq2.stats[a.cpu], a.size));
  }

  /** Over any run every packet and every byte is counted, once, whatever is drained in between. */
  lemma {:induction false} AllCounted(vq: Vq, es: seq<Arrival>)
    requires SaneRun(vq, es)
    ensures PacketsIn(RunVq(vq, es).stats) == PacketsIn(vq.stats) + |es|
    ensures BytesIn(RunVq(vq, es).stats) == BytesIn(vq.stats) + SizesOf(es)
    decreases |es|
  {
    if es != [] {
      ArrivalCounts(vq, es[0]);
      hide Enqueued, PacketsIn, BytesIn, Sane;
      AllCounted(Enqueued(vq, es[0]), es[1..]);
    }
  }
}
