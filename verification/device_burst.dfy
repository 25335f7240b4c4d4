/** The burst bound of the whole device in clock time: however the class limiters come and go, the
    bytes all CPUs transmit in a window are bounded by the number of class limiters, their bursts and
    their rates. */
module DeviceBurst {
  import opened Params
  import opened Arithmetic
  import opened Limiter
  import opened LimiterOps
  import opened Envelope
  import opened Machine
  import opened MachineEnvelope
  import opened Headroom
  import opened Flows
  import opened MachineFifo

  /** What one limiter can send in a window of `us` microseconds. */
  function Burst(ncpu: nat, b: Bounds, us: nat): nat
    requires b.Bounds? && 0 < b.pmax
  {
    2 * BurstCap(b.rmax) + ncpu * (BurstCap(b.rmax) + b.pmax - 1) + b.rmax * us / 8
  }

  // ---- limiters that appear during the window ----

  lemma {:induction false} NewcomerBound(st: State, es: seq<Event>, gso: Gso, m: Lid, b: Bounds)
    requires WF(st) && b.Bounds? && RunWithin(es, b) && Limits(gso, b) && AllBounded(st, b) && AllRoomy(st, None)
    requires m.Root? && m !in st.rls && m in Run(st, es, gso).rls
    ensures var st' := Run(st, es, gso);
            8 * SumXmit(st'.rls[m].queue) <= 8 * INITIAL_TOKENS + b.rmax * UsDelta(st'.clock, st.clock)
    decreases |es|
  {
    hide AllRoomy, Limits, AllBounded, Step;
    assert es[0] in es && RunWithin(es[1..], b);
    var st1, st' := Step(st, es[0], gso), Run(st, es, gso);
    StepFrame(st, es[0], gso);
    StepKeepsBounded(st, es[0], gso, b);
    StepRoomy(st, es[0], gso, None);
    hide RunWithin;
    if m in st1.rls {
      NewOnlyByCreate(st, es[0], gso, m);
      LifetimeEnvelope(st, m, es[1..], gso, b);
      RunRoomy(st1, es[1..], gso, None);
      OnTime(st', m);
      LaterEnd(b.rmax, st'.rls[m].last, st'.clock, st.clock);
    } else {
      NewcomerBound(st1, es[1..], gso, m, b);
      EarlierStart(b.rmax, st'.clock, st1.clock, st.clock);
    }
  }

  /** A limiter sends at most one burst in a window of clock time. */
  lemma LimiterWindow(st: State, es: seq<Event>, gso: Gso, m: Lid, b: Bounds)
    requires WF(st) && b.Bounds? && RunWithin(es, b) && Limits(gso, b) && AllBounded(st, b) && AllRoomy(st, None)
    requires m in st.rls
    ensures var st' := Run(st, es, gso);
            SumXmit(st'.rls[m].queue)
              <= SumXmit(st.rls[m].queue) + Burst(|st.cbs|, b, UsDelta(st'.clock, st.clock))
  {
    hide AllRoomy, RunWithin, AllBounded, Run, UsDelta, SumXmit;
    RunBurst(st, es, gso, m, b);
  }

  /** Every class limiter of the last state, old or new, has sent at most one burst since the first. */
  lemma RootBound(st: State, es: seq<Event>, gso: Gso, m: Lid, b: Bounds)
    requires WF(st) && b.Bounds? && RunWithin(es, b) && Limits(gso, b) && AllBounded(st, b) && AllRoomy(st, None)
    requires m.Root? && m in Run(st, es, gso).rls
    ensures var st' := Run(st, es, gso);
            SumXmit(st'.rls[m].queue) <= (if m in st.rls then SumXmit(st.rls[m].queue) else 0)
                                         + Burst(|st.cbs|, b, UsDelta(st'.clock, st.clock))
  {
    hide AllRoomy, RunWithin, AllBounded, Run, UsDelta, SumXmit;
    if m in st.rls {
      LimiterWindow(st, es, gso, m, b);
    } else {
      NewcomerBound(st, es, gso, m, b);
    }
  }

  // ---- sums over the class limiters ----

  lemma {:induction false} SumsAdd(s: set<Lid>, f: map<Lid, nat>, g: map<Lid, nat>, h: map<Lid, nat>)
    requires s <= f.Keys && s <= g.Keys && s <= h.Keys && forall l :: l in s ==> h[l] == f[l] + g[l]
    ensures SumOver(s, h) == SumOver(s, f) + SumOver(s, g)
    decreases s
  {
    if s != {} {
      var l :| l in s;
      SumRemove(s, f, l);
      SumRemove(s, g, l);
      SumRemove(s, h, l);
      SumsAdd(s - {l}, f, g, h);
    }
  }

  lemma OneMore(t: set<Lid>, l: Lid, d: nat)
    requires l in t
    ensures |t| * d == |t - {l}| * d + d
  {
    assert |t| == |t - {l}| + 1;
  }

  lemma {:induction false} SumGrowth(s: set<Lid>, f: map<Lid, nat>, t: set<Lid>, g: map<Lid, nat>, d: nat)
    requires s <= t && s <= f.Keys && t <= g.Keys
    requires forall l :: l in t ==> g[l] <= (if l in s then f[l] else 0) + d
    ensures SumOver(t, g) <= SumOver(s, f) + |t| * d
    decreases t
  {
    if t == {} {
      assert s == {};
    } else {
      hide SumOver;
      var l :| l in t;
      SumRemove(t, g, l);
      if l in s {
        SumRemove(s, f, l);
      } else {
        assert s - {l} == s;
      }
      SumGrowth(s - {l}, f, t - {l}, g, d);
      OneMore(t, l, d);
    }
  }

  /** Bytes transmitted on the first n CPUs, by the device and by one limiter. */
  function TxBytes(cbs: seq<Cb>, n: nat): nat
    requires n <= |cbs|
  {
    if n == 0 then 0 else TxBytes(cbs, n - 1) + cbs[n - 1].txBytes
  }

  function XmitUpTo(qs: seq<Queue>, n: nat): nat
    requires n <= |qs|
  {
    if n == 0 then 0 else XmitUpTo(qs, n - 1) + qs[n - 1].xmit
  }

  lemma {:induction false} SumXmitAppend(qs: seq<Queue>, q: Queue)
    ensures SumXmit(qs + [q]) == SumXmit(qs) + q.xmit
  {
    if qs == [] {
      assert [q][1..] == [];
    } else {
      assert (qs + [q])[1..] == qs[1..] + [q];
      SumXmitAppend(qs[1..], q);
    }
  }

  lemma {:induction false} SumXmitSplit(qs: seq<Queue>, n: nat)
    requires n <= |qs|
    ensures SumXmit(qs[..n]) == XmitUpTo(qs, n)
    decreases n
  {
    if n > 0 {
      SumXmitSplit(qs, n - 1);
      assert qs[..n] == qs[..n - 1] + [qs[n - 1]];
      SumXmitAppend(qs[..n - 1], qs[n - 1]);
    }
  }

  ghost function XmitTable(st: State, n: nat): map<Lid, nat>
    requires WF(st) && n <= |st.cbs|
  {
    map l | l in Roots(st) :: XmitUpTo(st.rls[l].queue, n)
  }

  /** The device's bytes, CPU by CPU, are the class limiters' bytes, limiter by limiter. */
  lemma {:induction false} DeviceIsRoots(st: State, n: nat)
    requires WF(st) && Linked(st) && n <= |st.cbs|
    ensures TxBytes(st.cbs, n) == SumOver(Roots(st), XmitTable(st, n))
    decreases n
  {
    hide Linked, WF, SumOver;
    if n == 0 {
      ZeroSum(Roots(st), XmitTable(st, 0));
    } else {
      DeviceIsRoots(st, n - 1);
      DeviceLedger(st, n - 1);
      SumsAdd(Roots(st), XmitTable(st, n - 1), XmitBy(st, Roots(st), n - 1), XmitTable(st, n));
    }
  }

  // ---- the bound ----

  lemma RootsBound(st: State, es: seq<Event>, gso: Gso, b: Bounds)
    requires WF(st) && b.Bounds? && RunWithin(es, b) && Limits(gso, b) && AllBounded(st, b) && AllRoomy(st, None)
    ensures var st', n := Run(st, es, gso), |st.cbs|;
            SumOver(Roots(st'), XmitTable(st', n))
              <= SumOver(Roots(st), XmitTable(st, n)) + |Roots(st')| * Burst(n, b, UsDelta(st'.clock, st.clock))
  {
    hide AllRoomy, RunWithin, AllBounded, Run, UsDelta, SumXmit, XmitUpTo, Burst;
    var st', n := Run(st, es, gso), |st.cbs|;
    var d := Burst(n, b, UsDelta(st'.clock, st.clock));
    forall l | l in Roots(st')
      ensures XmitTable(st', n)[l] <= (if l in Roots(st) then XmitTable(st, n)[l] else 0) + d
    {
      RootBound(st, es, gso, l, b);
      assert st'.rls[l].queue[..n] == st'.rls[l].queue;
      SumXmitSplit(st'.rls[l].queue, n);
      if l in Roots(st) {
        assert st.rls[l].queue[..n] == st.rls[l].queue;
        SumXmitSplit(st.rls[l].queue, n);
      }
    }
    SumGrowth(Roots(st), XmitTable(st, n), Roots(st'), XmitTable(st', n), d);
  }

  /** In any window of clock time the device transmits at most one burst per class limiter. */
  lemma DeviceWindow(st: State, es: seq<Event>, gso: Gso, b: Bounds)
    requires Linked(st) && b.Bounds? && RunWithin(es, b) && Limits(gso, b) && AllBounded(st, b) && AllRoomy(st, None)
    ensures var st', n := Run(st, es, gso), |st.cbs|;
            TxBytes(st'.cbs, n) <= TxBytes(st.cbs, n)
                                   + |Roots(st')| * Burst(n, b, UsDelta(st'.clock, st.clock))
  {
    hide AllRoomy, RunWithin, AllBounded, Run, UsDelta, Burst;
    RunKeepsLinks(st, es, gso);
    RootsBound(st, es, gso, b);
    DeviceIsRoots(st, |st.cbs|);
    DeviceIsRoots(Run(st, es, gso), |st.cbs|);
  }

  /** A state any run from boot leaves: linked, within its bounds, with no refill in the future. */
  ghost predicate Settled(st: State, b: Bounds) {
    WF(st) && Linked(st) && AllBounded(st, b) && AllRoomy(st, None)
  }

  lemma RunSettled(st: State, es: seq<Event>, gso: Gso, b: Bounds)
    requires Settled(st, b) && RunWithin(es, b) && Limits(gso, b)
    ensures Settled(Run(st, es, gso), b)
  {
    hide Linked, AllBounded, AllRoomy, Limits, RunWithin, Run;
    RunKeepsLinks(st, es, gso);
    RunKeepsBounded(st, es, gso, b);
    RunRoomy(st, es, gso, None);
  }

  lemma BootedSettled(ncpu: nat, b: Bounds)
    requires TimeOk(0, b)
    ensures Settled(Booted(ncpu), b)
  {
    BootedIsLinked(ncpu);
    BootedRoomy(ncpu, None);
  }

  /** The same between any two moments of any run from boot. */
  lemma LifetimeDeviceWindow(ncpu: nat, es0: seq<Event>, es: seq<Event>, gso: Gso, b: Bounds)
    requires b.Bounds? && b.since == 0 && RunWithin(es0, b) && RunWithin(es, b) && Limits(gso, b)
    ensures var st := Run(Booted(ncpu), es0, gso);
            var st' := Run(st, es, gso);
            TxBytes(st'.cbs, ncpu) <= TxBytes(st.cbs, ncpu)
                                      + |Roots(st')| * Burst(ncpu, b, UsDelta(st'.clock, st.clock))
  {
    hide Linked, AllBounded, AllRoomy, RunWithin, Run, Burst;
    BootedSettled(ncpu, b);
    RunSettled(Booted(ncpu), es0, gso, b);
    DeviceWindow(Run(Booted(ncpu), es0, gso), es, gso, b);
  }
}
