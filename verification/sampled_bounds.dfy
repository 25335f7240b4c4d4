/** Why no sample of the transmit context overflows: between two readings the machine cannot send more
    than the burst bound in clock time allows, and that fits. */
module SampledBounds {
  import opened Params
  import opened Arithmetic
  import opened Sampling
  import opened TxContexts
  import opened SampledMachine
  import L = Limiter
  import O = LimiterOps
  import E = Envelope
  import M = Machine
  import B = MachineEnvelope
  import F = MachineFifo
  import D = DeviceBurst

  // ---- what a counter can gain ----

  lemma {:induction false} DeviceTotal(st: M.State, n: nat)
    requires n <= |st.cbs|
    ensures Total(CpuBytes(st), n) == D.TxBytes(st.cbs, n)
    decreases n
  {
    if n > 0 { DeviceTotal(st, n - 1); }
  }

  lemma {:induction false} LimiterTotal(rl: L.Rl, n: nat)
    requires n <= |rl.queue|
    ensures Total(XmitOf(rl), n) == D.XmitUpTo(rl.queue, n)
    decreases n
  {
    if n > 0 { LimiterTotal(rl, n - 1); }
  }

  lemma ClassCounter(st: M.State, i: nat, m: L.Lid)
    requires m in st.rls
    ensures Counter(st, Class(i), m) == E.SumXmit(st.rls[m].queue)
  {
    var qs := st.rls[m].queue;
    LimiterTotal(st.rls[m], |qs|);
    assert qs[..|qs|] == qs;
    D.SumXmitSplit(qs, |qs|);
  }

  lemma AtLeastOnce(k: nat, x: nat)
    requires k >= 1
    ensures x <= k * x
  {
    MulMono(1, k, x, x);
  }

  lemma MoreOften(j: nat, k: nat, x: nat)
    requires j <= k
    ensures j * x <= k * x
  {
    MulMono(j, k, x, x);
  }

  /** In any window of clock time a counter grows by at most k bursts, if at most k class limiters
      exist at its end. */
  lemma CounterWindow(st: M.State, run: seq<M.Event>, gso: L.Gso, w: Which, m: L.Lid, b: O.Bounds, k: nat)
    requires b.Bounds? && D.Settled(st, b) && B.RunWithin(run, b) && B.Limits(gso, b)
    requires (w.Class? ==> m in st.rls) && k >= 1 && |F.Roots(M.Run(st, run, gso))| <= k
    ensures var st' := M.Run(st, run, gso);
            && (w.Class? ==> m in st'.rls)
            && Counter(st', w, m)
                 <= Counter(st, w, m) + k * D.Burst(|st.cbs|, b, UsDelta(st'.clock, st.clock))
  {
    hide M.Run, B.RunWithin, UsDelta, D.TxBytes, E.SumXmit, D.Burst;
    var st' := M.Run(st, run, gso);
    var d := D.Burst(|st.cbs|, b, UsDelta(st'.clock, st.clock));
    if w.Device? {
      D.DeviceWindow(st, run, gso, b);
      MoreOften(|F.Roots(st')|, k, d);
      DeviceTotal(st, |st.cbs|);
      DeviceTotal(st', |st.cbs|);
    } else {
      D.LimiterWindow(st, run, gso, m, b);
      AtLeastOnce(k, d);
      ClassCounter(st, w.i, m);
      ClassCounter(st', w.i, m);
    }
  }

  // ---- and what a sample can hold ----

  /** At most k class limiters, rates up to rmax, buffers up to pmax, and ticks at most `gap` microseconds
      apart: no window of at least one sampling interval holds more bits than its sample can. */
  predicate Modest(ncpu: nat, b: O.Bounds, k: nat, gap: nat)
    requires b.Bounds? && 0 < b.pmax
  {
    var fixed := 8 * Mul(k, D.Burst(ncpu, b, 0));
    && 1 <= k && Mul(k, b.rmax) < U32
    && fixed < TXC_UPDATE_INTERVAL_US * (U32 - Mul(k, b.rmax))
    && fixed + Mul(Mul(k, b.rmax), gap) < U64
  }

  lemma BurstSplits(ncpu: nat, b: O.Bounds, us: nat)
    requires b.Bounds? && 0 < b.pmax
    ensures 8 * D.Burst(ncpu, b, us) <= 8 * D.Burst(ncpu, b, 0) + b.rmax * us
  {
    DivBounds(b.rmax * us, 8);
  }

  lemma ScaledBurst(ncpu: nat, b: O.Bounds, k: nat, us: nat)
    requires b.Bounds? && 0 < b.pmax
    ensures 8 * Mul(k, D.Burst(ncpu, b, us)) <= 8 * Mul(k, D.Burst(ncpu, b, 0)) + Mul(Mul(k, b.rmax), us)
  {
    BurstSplits(ncpu, b, us);
    var x, y := D.Burst(ncpu, b, us), D.Burst(ncpu, b, 0);
    MulMono(k, k, 8 * x, 8 * y + b.rmax * us);
    assert k * (8 * x) == 8 * (k * x);
    assert k * (8 * y + b.rmax * us) == 8 * (k * y) + k * b.rmax * us;
  }

  lemma LongerBurst(ncpu: nat, b: O.Bounds, k: nat, us: nat, longer: nat)
    requires b.Bounds? && 0 < b.pmax && us <= longer
    ensures k * D.Burst(ncpu, b, us) <= k * D.Burst(ncpu, b, longer)
  {
    MulMono(b.rmax, b.rmax, us, longer);
    assert D.Burst(ncpu, b, us) <= D.Burst(ncpu, b, longer);
    MulMono(k, k, D.Burst(ncpu, b, us), D.Burst(ncpu, b, longer));
  }

  /** A modest machine's bits over any sampled interval fit the sample. */
  lemma ModestFits(ncpu: nat, b: O.Bounds, k: nat, gap: nat, us: nat)
    requires b.Bounds? && 0 < b.pmax && Modest(ncpu, b, k, gap)
    requires TXC_UPDATE_INTERVAL_US <= us <= gap
    ensures 8 * (k * D.Burst(ncpu, b, us)) < U64 && 8 * (k * D.Burst(ncpu, b, us)) < U32 * us
  {
    ScaledBurst(ncpu, b, k, us);
    var r := Mul(k, b.rmax);
    var fixed := 8 * Mul(k, D.Burst(ncpu, b, 0));
    assert k * D.Burst(ncpu, b, us) == Mul(k, D.Burst(ncpu, b, us));
    MulMono(r, r, us, gap);
    MulMono(U32 - r, U32 - r, TXC_UPDATE_INTERVAL_US, us);
    assert Mul(U32 - r, us) + Mul(r, us) == U32 * us by { assert (U32 - r) * us + r * us == U32 * us; }
    hide D.Burst, Mul;
  }

  // ---- along a run of the context ----

  /** The runs between the context's events respect the bounds, ticks carry the machine's time and come
      within `gap` of the last reading, and no more than k class limiters exist. */
  ghost predicate OnTheClock(st: M.State, runs: seq<seq<M.Event>>, gso: L.Gso, tx: Tx, es: seq<Event>,
                             b: O.Bounds, k: nat, gap: nat)
    requires M.WF(st) && Fit(tx, es)
    decreases |es|
  {
    && |runs| == |es|
    && (es != [] ==>
          var st' := M.Run(st, runs[0], gso);
          && B.RunWithin(runs[0], b) && |F.Roots(st')| <= k
          && (es[0].Tick? ==> es[0].p.now == st'.clock && UsDelta(es[0].p.now, tx.lastUpdate) <= gap)
          && OnTheClock(st', runs[1..], gso, Step(tx, es[0]), es[1..], b, k, gap))
  }

  lemma {:induction false} RunConcat(st: M.State, a: seq<M.Event>, c: seq<M.Event>, gso: L.Gso)
    requires M.WF(st)
    ensures M.Run(st, a + c, gso) == M.Run(M.Run(st, a, gso), c, gso)
    decreases |a|
  {
    hide M.Step;
    if a == [] {
      assert a + c == c;
    } else {
      assert (a + c)[0] == a[0] && (a + c)[1..] == a[1..] + c;
      M.StepFrame(st, a[0], gso);
      RunConcat(M.Step(st, a[0], gso), a[1..], c, gso);
    }
  }

  /** A reading at the end of a run, by a meter last read at or before its start, fits. */
  lemma ReadingFits(st: M.State, run: seq<M.Event>, gso: L.Gso, w: Which, m: L.Lid, meter: Meter,
                    b: O.Bounds, k: nat, gap: nat)
    requires M.WF(st) && b.Bounds? && D.Settled(st, b) && B.RunWithin(run, b) && B.Limits(gso, b)
    requires (w.Class? ==> m in st.rls) && Modest(|st.cbs|, b, k, gap)
    requires meter.total == Counter(st, w, m) && meter.at <= st.clock
    requires var st' := M.Run(st, run, gso);
             |F.Roots(st')| <= k && TXC_UPDATE_INTERVAL_US <= UsDelta(st'.clock, meter.at) <= gap
    ensures var st' := M.Run(st, run, gso);
            && (Counter(st', w, m) - meter.total) * 8 < U64
            && (Counter(st', w, m) - meter.total) * 8 < U32 * UsDelta(st'.clock, meter.at)
  {
    hide M.Run, B.RunWithin, D.Settled, Counter, D.Burst;
    var st' := M.Run(st, run, gso);
    var us := UsDelta(st'.clock, meter.at);
    CounterWindow(st, run, gso, w, m, b, k);
    UsDeltaMono(st'.clock, st'.clock, st.clock, meter.at);
    LongerBurst(|st.cbs|, b, k, UsDelta(st'.clock, st.clock), us);
    ModestFits(|st.cbs|, b, k, gap, us);
  }

  lemma NextReading(st: M.State, past: seq<M.Event>, run: seq<M.Event>, gso: L.Gso, tx: Tx, e: Event,
                    w: Which, m: L.Lid)
    requires M.WF(st) && Agrees(tx) && Ready(tx, e) && Names(tx, w) && (w.Class? ==> m in st.rls)
    requires MeterOf(tx, w).total == Counter(st, w, m)
    requires w.Class? ==> m in M.Run(M.Run(st, past, gso), run, gso).rls
    requires e.Tick? && e.p.lock ==> Reading(e.p, w).total == Counter(M.Run(M.Run(st, past, gso), run, gso), w, m)
    ensures M.Run(st, past + run, gso) == M.Run(M.Run(st, past, gso), run, gso)
    ensures MeterOf(Step(tx, e), w)
            == if e.Tick? && e.p.lock
               then Read(MeterOf(tx, w), Reading(e.p, w).total, e.p.now, TXC_UPDATE_INTERVAL_US)
               else MeterOf(tx, w)
    ensures MeterOf(tx, w).at == tx.lastUpdate && (e.Tick? ==> Reading(e.p, w).now == e.p.now)
  {
    RunConcat(st, past, run, gso);
    CounterGrows(st, past, gso, w, m);
    OneObserved(M.Run(st, past, gso), run, gso, tx, e, w, m);
  }

  lemma ReadingsStart(tx: Tx, es: seq<Event>, w: Which)
    requires es != [] && Fit(tx, es) && Names(tx, w)
    ensures Readings(tx, es, w)
            == (if es[0].Tick? && es[0].p.lock then [Reading(es[0].p, w)] else [])
               + Readings(Step(tx, es[0]), es[1..], w)
  {
  }

  lemma NoReadings(tx: Tx, w: Which)
    requires Fit(tx, []) && Names(tx, w)
    ensures NoOverflow(MeterOf(tx, w), Readings(tx, [], w))
  {
  }

  lemma OneMoreFits(meter: Meter, t: Sampling.Tick, rest: seq<Sampling.Tick>)
    requires Sampling.Fires(meter, t, TXC_UPDATE_INTERVAL_US) ==>
               (t.total - meter.total) * 8 < U64 && (t.total - meter.total) * 8 < U32 * UsDelta(t.now, meter.at)
    requires NoOverflow(Read(meter, t.total, t.now, TXC_UPDATE_INTERVAL_US), rest)
    ensures NoOverflow(meter, [t] + rest)
  {
    assert ([t] + rest)[1..] == rest;
  }

  lemma NothingSince(st: M.State, gso: L.Gso, b: O.Bounds)
    requires M.WF(st)
    ensures M.Run(st, [], gso) == st && B.RunWithin([], b)
  {
  }

  lemma WithinConcat(a: seq<M.Event>, c: seq<M.Event>, b: O.Bounds)
    requires B.RunWithin(a, b) && B.RunWithin(c, b)
    ensures B.RunWithin(a + c, b)
  {
  }

  /** `st` is the machine when the meter was last read, `past` what it has done since. */
  lemma {:induction false} ObservedFits(st: M.State, past: seq<M.Event>, runs: seq<seq<M.Event>>, gso: L.Gso, tx: Tx,
                                        es: seq<Event>, w: Which, m: L.Lid, b: O.Bounds, k: nat, gap: nat)
    requires M.WF(st) && b.Bounds? && D.Settled(st, b) && B.RunWithin(past, b) && B.Limits(gso, b)
    requires Fit(tx, es) && Names(tx, w) && (w.Class? ==> m in st.rls) && Modest(|st.cbs|, b, k, gap)
    requires Observes(M.Run(st, past, gso), runs, gso, tx, es, w, m)
    requires OnTheClock(M.Run(st, past, gso), runs, gso, tx, es, b, k, gap)
    requires MeterOf(tx, w).total == Counter(st, w, m) && MeterOf(tx, w).at <= st.clock
    ensures NoOverflow(MeterOf(tx, w), Readings(tx, es, w))
    decreases |es|
  {
    hide M.Run, Counter, Step, MeterOf, Agrees, UsDelta, B.RunWithin, D.Settled, F.Roots, Modest, M.WF,
      Reading, Readings, NoOverflow;
    if es == [] {
      NoReadings(tx, w);
    } else {
      var meter, more := MeterOf(tx, w), past + runs[0];
      NextReading(st, past, runs[0], gso, tx, es[0], w, m);
      WithinConcat(past, runs[0], b);
      ReadingsStart(tx, es, w);
      var st', tx' := M.Run(st, more, gso), Step(tx, es[0]);
      var rest := Readings(tx', es[1..], w);
      if es[0].Tick? && es[0].p.lock {
        var t := Reading(es[0].p, w);
        if Sampling.Fires(meter, t, TXC_UPDATE_INTERVAL_US) {
          ReadingFits(st, more, gso, w, m, meter, b, k, gap);
          D.RunSettled(st, more, gso, b);
          NothingSince(st', gso, b);
          ObservedFits(st', [], runs[1..], gso, tx', es[1..], w, m, b, k, gap);
        } else {
          ObservedFits(st, more, runs[1..], gso, tx', es[1..], w, m, b, k, gap);
        }
        OneMoreFits(meter, t, rest);
      } else {
        assert Readings(tx, es, w) == rest;
        ObservedFits(st, more, runs[1..], gso, tx', es[1..], w, m, b, k, gap);
      }
    }
  }

  /** The transmit context over the machine, with nothing assumed of the samples: from any settled state,
      with bounded rates, buffers, class limiters and pauses, the sampled rates of the device and of each
      class claim no more bits than were sent and miss less than one per sampled microsecond. */
  lemma BoundedSamplesConserve(st: M.State, runs: seq<seq<M.Event>>, gso: L.Gso, tx: Tx, es: seq<Event>,
                               w: Which, m: L.Lid, b: O.Bounds, k: nat, gap: nat)
    requires M.WF(st) && b.Bounds? && D.Settled(st, b) && B.Limits(gso, b) && Modest(|st.cbs|, b, k, gap)
    requires Fit(tx, es) && Names(tx, w) && (w.Class? ==> m in st.rls)
    requires Observes(st, runs, gso, tx, es, w, m) && OnTheClock(st, runs, gso, tx, es, b, k, gap)
    requires MeterOf(tx, w).total == Counter(st, w, m) && MeterOf(tx, w).at <= st.clock
    ensures var bits := 8 * (MeterOf(Run(tx, es), w).total - MeterOf(tx, w).total);
            var claimed := Claimed(MeterOf(tx, w), Readings(tx, es, w), TXC_UPDATE_INTERVAL_US);
            var span := Span(MeterOf(tx, w), Readings(tx, es, w), TXC_UPDATE_INTERVAL_US);
            claimed <= bits && bits <= claimed + span && (span > 0 ==> bits < claimed + span)
  {
    hide Observes, OnTheClock, Counter, D.Settled, Modest, NoOverflow, Fit, Readings, Run;
    NothingSince(st, gso, b);
    ObservedFits(st, [], runs, gso, tx, es, w, m, b, k, gap);
    MachineSamplesConserve(st, runs, gso, tx, es, w, m);
  }

  /** The shipped speeds are modest: 64 CPUs, 64 classes at the link's rate, 64 KB buffers, and a tick at
      least every hundred days. */
  lemma ShippedIsModest()
    ensures Modest(64, O.Bounds(MAX_TX_RATE, 65_550, 0), 64, 100 * 24 * 3600 * 1_000_000)
  {
    var b := O.Bounds(MAX_TX_RATE, 65_550, 0);
    assert E.BurstCap(MAX_TX_RATE) == 183_750;
    assert D.Burst(64, b, 0) == 367_500 + 64 * 249_299;
  }
}
