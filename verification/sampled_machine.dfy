/** The transmit context sampling the machine: its ticks read the counters that the machine's runs
    leave, so the sampled rates account for the bytes the machine really sent. */
module SampledMachine {
  import opened Params
  import opened Sampling
  import opened TxContexts
  import opened Counters
  import L = Limiter
  import M = Machine

  /** What `iso_txctx_accum` reads, and what `iso_rl_accum` reads of one limiter. */
  ghost function CpuBytes(st: M.State): seq<nat> {
    seq(|st.cbs|, i requires 0 <= i < |st.cbs| => st.cbs[i].txBytes)
  }

  ghost function XmitOf(rl: L.Rl): seq<nat> {
    seq(|rl.queue|, i requires 0 <= i < |rl.queue| => rl.queue[i].xmit)
  }

  /** The counter behind a meter: the device's, or that of the class limiter `m`. */
  ghost function Counter(st: M.State, w: Which, m: L.Lid): nat
    requires w.Class? ==> m in st.rls
  {
    if w.Device? then Total(CpuBytes(st), |CpuBytes(st)|) else Total(XmitOf(st.rls[m]), |XmitOf(st.rls[m])|)
  }

  lemma {:induction false} TotalMono(xs: seq<nat>, ys: seq<nat>, n: nat)
    requires n <= |xs| == |ys| && forall i :: 0 <= i < |xs| ==> xs[i] <= ys[i]
    ensures Total(xs, n) <= Total(ys, n)
    decreases n
  {
    if n > 0 { TotalMono(xs, ys, n - 1); }
  }

  /** No run of the machine lets a counter fall. */
  lemma CounterGrows(st: M.State, es: seq<M.Event>, gso: L.Gso, w: Which, m: L.Lid)
    requires M.WF(st) && (w.Class? ==> m in st.rls)
    ensures w.Class? ==> m in M.Run(st, es, gso).rls
    ensures Counter(st, w, m) <= Counter(M.Run(st, es, gso), w, m)
  {
    var st' := M.Run(st, es, gso);
    if w.Device? {
      DeviceCountersGrow(st, es, gso);
      TotalMono(CpuBytes(st), CpuBytes(st'), |CpuBytes(st)|);
    } else {
      LimiterCountersGrow(st, es, gso, m);
      TotalMono(XmitOf(st.rls[m]), XmitOf(st'.rls[m]), |XmitOf(st.rls[m])|);
    }
  }

  /** Between two events of the context the machine runs; every tick that gets the lock reads the
      counter as the machine then has it. */
  ghost predicate Observes(st: M.State, runs: seq<seq<M.Event>>, gso: L.Gso, tx: Tx, es: seq<Event>,
                           w: Which, m: L.Lid)
    requires M.WF(st) && Fit(tx, es) && Names(tx, w) && (w.Class? ==> m in st.rls)
    decreases |es|
  {
    && |runs| == |es|
    && (es != [] ==>
          var st' := M.Run(st, runs[0], gso);
          && (es[0].Tick? && es[0].p.lock ==> Reading(es[0].p, w).total == Counter(st', w, m))
          && Observes(st', runs[1..], gso, Step(tx, es[0]), es[1..], w, m))
  }

  /** No sample overflows 32 bits, and no bit count 64. */
  ghost predicate NoOverflow(m: Meter, ticks: seq<Sampling.Tick>)
    decreases |ticks|
  {
    ticks != [] ==>
      && (Sampling.Fires(m, ticks[0], TXC_UPDATE_INTERVAL_US) ==>
            (ticks[0].total - m.total) * 8 < U64
            && (ticks[0].total - m.total) * 8 < U32 * UsDelta(ticks[0].now, m.at))
      && NoOverflow(Read(m, ticks[0].total, ticks[0].now, TXC_UPDATE_INTERVAL_US), ticks[1..])
  }

  lemma OneObserved(st: M.State, run: seq<M.Event>, gso: L.Gso, tx: Tx, e: Event, w: Which, m: L.Lid)
    requires M.WF(st) && Agrees(tx) && Ready(tx, e) && Names(tx, w) && (w.Class? ==> m in st.rls)
    requires MeterOf(tx, w).total <= Counter(st, w, m)
    requires e.Tick? && e.p.lock ==> Reading(e.p, w).total == Counter(M.Run(st, run, gso), w, m)
    ensures var st', tx' := M.Run(st, run, gso), Step(tx, e);
            && MeterOf(tx, w).total <= Counter(st', w, m)
            && MeterOf(tx', w).total <= Counter(st', w, m)
            && MeterOf(tx', w) == if e.Tick? && e.p.lock
                                  then Read(MeterOf(tx, w), Reading(e.p, w).total, e.p.now, TXC_UPDATE_INTERVAL_US)
                                  else MeterOf(tx, w)
  {
    CounterGrows(st, run, gso, w, m);
    hide M.Run, Counter, Ticked, Configured, MeterOf, Agrees, Reading;
    match e {
      case Configure(c) => ConfigureKeepsMeter(tx, c, w);
      case Tick(p) => TickReads(tx, p, w);
    }
  }

  lemma {:induction false} ObservedPlausible(st: M.State, runs: seq<seq<M.Event>>, gso: L.Gso, tx: Tx, es: seq<Event>,
                                             w: Which, m: L.Lid)
    requires M.WF(st) && Fit(tx, es) && Names(tx, w) && (w.Class? ==> m in st.rls)
    requires Observes(st, runs, gso, tx, es, w, m) && MeterOf(tx, w).total <= Counter(st, w, m)
    requires NoOverflow(MeterOf(tx, w), Readings(tx, es, w))
    ensures Plausible(MeterOf(tx, w), Readings(tx, es, w), TXC_UPDATE_INTERVAL_US)
    decreases |es|
  {
    if es != [] {
      OneObserved(st, runs[0], gso, tx, es[0], w, m);
      var st', tx' := M.Run(st, runs[0], gso), Step(tx, es[0]);
      hide M.Run, Counter, Step, MeterOf, Read, Agrees, UsDelta, Reading;
      var rest := Readings(tx', es[1..], w);
      if es[0].Tick? && es[0].p.lock {
        assert Readings(tx, es, w)[1..] == rest;
      } else {
        assert Readings(tx, es, w) == rest;
      }
      ObservedPlausible(st', runs[1..], gso, tx', es[1..], w, m);
    }
  }

  /** Whatever the machine does between ticks, unless a sample overflows: the sampled rates of the device
      and of each class claim no more bits than their limiters counted, and miss less than one per
      sampled microsecond. */
  lemma MachineSamplesConserve(st: M.State, runs: seq<seq<M.Event>>, gso: L.Gso, tx: Tx, es: seq<Event>,
                               w: Which, m: L.Lid)
    requires M.WF(st) && Fit(tx, es) && Names(tx, w) && (w.Class? ==> m in st.rls)
    requires Observes(st, runs, gso, tx, es, w, m) && MeterOf(tx, w).total <= Counter(st, w, m)
    requires NoOverflow(MeterOf(tx, w), Readings(tx, es, w))
    ensures var bits := 8 * (MeterOf(Run(tx, es), w).total - MeterOf(tx, w).total);
            var claimed := Claimed(MeterOf(tx, w), Readings(tx, es, w), TXC_UPDATE_INTERVAL_US);
            var span := Span(MeterOf(tx, w), Readings(tx, es, w), TXC_UPDATE_INTERVAL_US);
            claimed <= bits && bits <= claimed + span && (span > 0 ==> bits < claimed + span)
  {
    hide M.Run, Counter, Observes, NoOverflow;
    ObservedPlausible(st, runs, gso, tx, es, w, m);
    TxSamplesConserve(tx, es, w);
  }
}
