/** Two bounds on every run of the machine: no queue is ever a whole segment above its limit, and no
    limiter was ever refilled in the future. With the latter the rate envelope reaches the present. */
module Headroom {
  import opened Params
  import opened Arithmetic
  import opened Limiter
  import opened LimiterOps
  import opened QueueBounds
  import opened Envelope
  import opened Machine
  import opened MachineEnvelope

  /** Segmenting any buffer yields segments of at most `s` bytes, if a bound is given at all. */
  ghost predicate SegmentsUpTo(gso: Gso, s: Option<nat>) {
    s.Some? ==> s.value > 0 && forall p: Packet, i :: 0 <= i < |gso(p)| ==> Size(gso(p)[i]) <= s.value
  }

  /** No queue is a whole segment above its limit. */
  ghost predicate Short(qs: seq<Queue>, s: Option<nat>) {
    s.Some? ==> forall c :: 0 <= c < |qs| ==> qs[c].enqueued < MAX_QUEUE_LEN_BYTES + s.value
  }

  ghost predicate Roomy(rl: Rl, s: Option<nat>, clock: nat) { rl.last <= clock && Short(rl.queue, s) }

  ghost predicate AllRoomy(st: State, s: Option<nat>) {
    forall l :: l in st.rls ==> Roomy(st.rls[l], s, st.clock)
  }

  // ---- one limiter ----

  lemma EnqueuedRoomy(rl: Rl, c: nat, p: Packet, now: nat, root: bool, gso: Gso, s: Option<nat>)
    requires c < |rl.queue| && Roomy(rl, s, now) && SegmentsUpTo(gso, s)
    ensures Roomy(Enqueued(rl, c, p, now, root, gso).rl, s, now)
  {
    assert Enqueued(rl, c, p, now, root, gso).rl.last == Clocked(rl, now).last;
    EnqueueElsewhere(rl, c, p, now, root, gso);
    if s.Some? {
      OvershootBelowOneSegment(rl, c, p, now, root, gso, s.value);
    }
    hide Enqueued;
  }

  lemma {:induction false} DrainChildRoomy(q: Queue, root: Rl, c: nat, now: nat, gso: Gso, sum: nat, s: Option<nat>)
    requires q.list != [] && c < |root.queue| && Roomy(root, s, now) && SegmentsUpTo(gso, s)
    ensures Roomy(DrainChild(q, root, c, now, gso, sum).root, s, now)
    decreases |q.list|
  {
    hide DrainChild, Enqueued, Roomy, SegmentsUpTo;
    if Size(q.list[0]) <= q.tokens && sum <= 2 * MIN_BURST_BYTES && HasSpaceFor(root, c, q.list[0]) {
      ChildTurn(q, root, c, now, gso, sum);
      EnqueuedRoomy(root, c, q.list[0], now, true, gso, s);
      var d := Departed(q);
      if d.list != [] {
        DrainChildRoomy(Measured(d), Enqueued(root, c, q.list[0], now, true, gso).rl, c, now, gso,
                        sum + Size(d.list[0]), s);
      }
    } else {
      ChildStops(q, root, c, now, gso, sum);
    }
  }

  /** A queue that let go of a prefix is no fuller, and neither is its limiter. */
  lemma PrefixRoomy(rl: Rl, rl': Rl, c: nat, before: Queue, s: Option<nat>, clock: nat)
    requires c < |rl.queue| && |rl'.queue| == |rl.queue| && Roomy(rl, s, clock) && rl'.last == rl.last
    requires before.enqueued == rl.queue[c].enqueued && PrefixDeparted(before, rl'.queue[c])
    requires forall j :: 0 <= j < |rl.queue| && j != c ==> rl'.queue[j] == rl.queue[j]
    ensures Roomy(rl', s, clock)
  {
  }

  lemma ServeRootRoomy(rl: Rl, c: nat, lock: bool, s: Option<nat>, clock: nat)
    requires c < |rl.queue| && Roomy(rl, s, clock)
    ensures Roomy(ServeRoot(rl, c, lock).rl, s, clock)
  {
    ServeRootWork(rl, c, lock);
    var r := ServeRoot(rl, c, lock).rl;
    assert r.last == rl.last && Funded(rl, c, lock).0.queue[c].enqueued == rl.queue[c].enqueued by { hide DrainRoot; }
    hide ServeRoot, Funded, PrefixDeparted;
    PrefixRoomy(rl, r, c, Funded(rl, c, lock).0.queue[c], s, clock);
  }

  lemma ServeChildRoomy(rl: Rl, root: Rl, c: nat, now: nat, lock: bool, gso: Gso, s: Option<nat>)
    requires c < |rl.queue| && c < |root.queue| && Roomy(rl, s, now) && Roomy(root, s, now) && SegmentsUpTo(gso, s)
    ensures var r := ServeChild(rl, root, c, now, lock, gso); Roomy(r.rl, s, now) && Roomy(r.root, s, now)
  {
    ServeChildWork(rl, root, c, now, lock, gso);
    var r := ServeChild(rl, root, c, now, lock, gso);
    var (rl1, blocked) := Funded(rl, c, lock);
    assert r.rl.last == rl.last && rl1.queue[c].enqueued == rl.queue[c].enqueued by { hide DrainChild; }
    if !blocked && rl1.queue[c].list != [] {
      DrainChildRoomy(Measured(rl1.queue[c]), root, c, now, gso, Size(rl1.queue[c].list[0]), s);
    }
    assert Roomy(r.root, s, now) by { hide DrainChild, Roomy; }
    hide ServeChild, Funded, PrefixDeparted;
    PrefixRoomy(rl, r.rl, c, rl1.queue[c], s, now);
  }

  // ---- the machine ----

  lemma LaterRoomy(st: State, dt: nat, s: Option<nat>)
    requires AllRoomy(st, s)
    ensures AllRoomy(Advanced(st, dt), s)
  {
    forall l | l in st.rls ensures Roomy(st.rls[l], s, st.clock + dt) {
      assert Roomy(st.rls[l], s, st.clock);
    }
  }

  lemma DequeueRoomy(st: State, l: Lid, c: nat, luck: Luck, gso: Gso, s: Option<nat>)
    requires WF(st) && l in st.rls && c < |st.cbs| && AllRoomy(st, s) && SegmentsUpTo(gso, s)
    ensures AllRoomy(DequeueAt(st, l, c, luck, gso).st, s)
  {
    hide ServeRoot, ServeChild, Roomy, SegmentsUpTo, Rescheduled, Transmitted;
    if l.Root? {
      ServeRootRoomy(st.rls[l], c, luck.lock, s, st.clock);
    } else {
      var root := st.rls[Root(l.cls)];
      ServeChildRoomy(st.rls[l], root, c, st.clock, luck.lock, gso, s);
      var r := ServeChild(st.rls[l], root, c, st.clock, luck.lock, gso);
      if !r.blocked {
        ServeRootRoomy(r.root, c, luck.rootLock, s, st.clock);
      }
    }
  }

  lemma ClockedRoomy(st: State, l: Lid, s: Option<nat>)
    requires l in st.rls && AllRoomy(st, s)
    ensures AllRoomy(ClockedAt(st, l), s)
  {
    assert Roomy(st.rls[l], s, st.clock);
    assert Roomy(Clocked(st.rls[l], st.clock), s, st.clock) by { hide Refilled, RateAt, UsDelta; }
    hide Clocked, Roomy;
  }

  lemma ServiceRoomy(st: State, c: nat, luck: Luck, gso: Gso, s: Option<nat>)
    requires WF(st) && c < |st.cbs| && st.cbs[c].active != [] && AllRoomy(st, s) && SegmentsUpTo(gso, s)
    ensures AllRoomy(ServiceHead(st, c, luck, gso).st, s)
  {
    hide Roomy, SegmentsUpTo, DequeueAt, Clocked;
    ServicePrepares(st, c, luck);
    var l := st.cbs[c].active[0];
    LaterRoomy(st, luck.dt, s);
    var st1 := Popped(Advanced(st, luck.dt), c);
    assert AllRoomy(st1, s);
    ClockedRoomy(st1, l, s);
    DequeueRoomy(ClockedAt(st1, l), l, c, luck, gso, s);
  }

  lemma {:induction false} SweepRoomy(st: State, c: nat, first: Lid, k: nat, sent: nat, lucks: seq<Luck>, gso: Gso,
                                      s: Option<nat>)
    requires WF(st) && c < |st.cbs| && st.cbs[c].active != [] && k >= 1 && AllRoomy(st, s) && SegmentsUpTo(gso, s)
    ensures AllRoomy(Sweep(st, c, first, k, sent, lucks, gso).st, s)
    decreases TASKLET_BUDGET - k
  {
    hide ServiceHead, WF, AllRoomy, SegmentsUpTo;
    var active := st.cbs[c].active;
    if !StopsBefore(active, first, k, sent) {
      ServiceFrame(st, c, LuckAt(lucks, k - 1), gso);
      ServiceRoomy(st, c, LuckAt(lucks, k - 1), gso, s);
      var d := ServiceHead(st, c, LuckAt(lucks, k - 1), gso);
      if |active| != 1 {
        SweepRoomy(d.st, c, first, k + 1, sent + d.sum, lucks, gso, s);
      }
    }
  }

  lemma SameLimitersRoomy(st: State, st': State, s: Option<nat>)
    requires AllRoomy(st, s) && st'.rls == st.rls && st'.clock == st.clock
    ensures AllRoomy(st', s)
  {
    hide Roomy;
  }

  lemma TaskletRoomy(st: State, c: nat, lucks: seq<Luck>, gso: Gso, s: Option<nat>)
    requires WF(st) && c < |st.cbs| && AllRoomy(st, s) && SegmentsUpTo(gso, s)
    ensures AllRoomy(TaskletRun(st, c, lucks, gso).st, s)
  {
    hide Sweep, AllRoomy, SegmentsUpTo;
    var st1 := WithCb(st, c, st.cbs[c].(pending := false));
    SameLimitersRoomy(st, st1, s);
    if !st.exiting && st1.cbs[c].active != [] {
      SweepRoomy(st1, c, st1.cbs[c].active[0], 1, 0, lucks, gso, s);
      SameLimitersRoomy(Sweep(st1, c, st1.cbs[c].active[0], 1, 0, lucks, gso).st, TaskletRun(st, c, lucks, gso).st, s);
    }
  }

  lemma TxRoomy(st: State, l: Lid, c: nat, p: Packet, luck: Luck, gso: Gso, s: Option<nat>)
    requires WF(st) && l in st.rls && l.Dest? && c < |st.cbs| && AllRoomy(st, s) && SegmentsUpTo(gso, s)
    ensures AllRoomy(Step(st, Tx(l, c, p, luck), gso), s)
  {
    hide Roomy, SegmentsUpTo, DequeueAt, Enqueued;
    var st1 := Advanced(st, luck.dt);
    LaterRoomy(st, luck.dt, s);
    EnqueueFrame(st1, l, c, p, gso);
    EnqueuedRoomy(st1.rls[l], c, p.(flow := l), st1.clock, false, gso, s);
    DequeueRoomy(EnqueuedAt(st1, l, c, p, gso), l, c, luck, gso, s);
  }

  lemma NewRoomy(ncpu: nat, now: nat, s: Option<nat>)
    requires s.Some? ==> s.value > 0
    ensures Roomy(NewRl(ncpu, now), s, now)
  {
  }

  lemma StepRoomy(st: State, e: Event, gso: Gso, s: Option<nat>)
    requires WF(st) && AllRoomy(st, s) && SegmentsUpTo(gso, s)
    ensures AllRoomy(Step(st, e, gso), s)
  {
    hide DequeueAt, EnqueuedAt, TaskletRun;
    match e {
      case Tx(l, c, p, luck) =>
        if l in st.rls && l.Dest? && c < |st.cbs| { TxRoomy(st, l, c, p, luck, gso, s); }
      case Tasklet(c, lucks) =>
        if c < |st.cbs| && st.cbs[c].pending { TaskletRoomy(st, c, lucks, gso, s); }
      case Create(l) => NewRoomy(|st.cbs|, st.clock, s);
      case Advance(dt) => LaterRoomy(st, dt, s);
      case _ =>
    }
  }

  lemma BootedRoomy(ncpu: nat, s: Option<nat>)
    ensures AllRoomy(Booted(ncpu), s)
  {
  }

  lemma {:induction false} RunRoomy(st: State, es: seq<Event>, gso: Gso, s: Option<nat>)
    requires WF(st) && AllRoomy(st, s) && SegmentsUpTo(gso, s)
    ensures AllRoomy(Run(st, es, gso), s)
    decreases |es|
  {
    if es != [] {
      StepRoomy(st, es[0], gso, s);
      StepFrame(st, es[0], gso);
      hide Step, WF, AllRoomy, SegmentsUpTo;
      RunRoomy(Step(st, es[0], gso), es[1..], gso, s);
    }
  }

  // ---- the theorems ----

  /** On every run from boot, every queue of every limiter on every CPU stays less than one segment
      above its limit. */
  lemma RunOvershoot(ncpu: nat, es: seq<Event>, gso: Gso, s: nat, l: Lid, c: nat)
    requires SegmentsUpTo(gso, Some(s)) && l in Run(Booted(ncpu), es, gso).rls && c < ncpu
    ensures Run(Booted(ncpu), es, gso).rls[l].queue[c].enqueued < MAX_QUEUE_LEN_BYTES + s
  {
    BootedRoomy(ncpu, Some(s));
    RunRoomy(Booted(ncpu), es, gso, Some(s));
    hide SegmentsUpTo;
    assert Roomy(Run(Booted(ncpu), es, gso).rls[l], Some(s), Run(Booted(ncpu), es, gso).clock);
  }

  lemma OnTime(st: State, m: Lid)
    requires AllRoomy(st, None) && m in st.rls
    ensures st.rls[m].last <= st.clock
  {
    assert Roomy(st.rls[m], None, st.clock);
  }

  /** And whatever is segmented, no limiter's last refill lies in the future. */
  lemma RunOnTime(ncpu: nat, es: seq<Event>, gso: Gso, l: Lid)
    requires l in Run(Booted(ncpu), es, gso).rls
    ensures Run(Booted(ncpu), es, gso).rls[l].last <= Run(Booted(ncpu), es, gso).clock
  {
    BootedRoomy(ncpu, None);
    RunRoomy(Booted(ncpu), es, gso, None);
    OnTime(Run(Booted(ncpu), es, gso), l);
  }

  lemma LaterEnd(r: nat, now: nat, later: nat, start: nat)
    requires now <= later
    ensures r * UsDelta(now, start) <= r * UsDelta(later, start)
  {
    UsDeltaMono(now, later, start, start);
    MulMono(r, r, UsDelta(now, start), UsDelta(later, start));
  }

  lemma BoundedAt(st: State, gso: Gso, m: Lid, b: Bounds)
    requires AllBounded(st, b) && Limits(gso, b) && m in st.rls
    ensures Sound(b) && Bounded(st.rls[m], b)
  {
  }

  /** The burst bound in clock time, from any state whose limiters were refilled in the past: until
      the clock shows st'.clock, the CPUs together send at most two full pools, one hoard each, and
      rmax * (st'.clock - st.clock) / 8. */
  lemma RunBurst(st: State, es: seq<Event>, gso: Gso, m: Lid, b: Bounds)
    requires WF(st) && m in st.rls && b.Bounds? && RunWithin(es, b) && Limits(gso, b)
    requires AllBounded(st, b) && AllRoomy(st, None)
    ensures var st' := Run(st, es, gso);
            8 * (SumXmit(st'.rls[m].queue) - SumXmit(st.rls[m].queue))
              <= 8 * (2 * BurstCap(b.rmax) + |st.cbs| * (BurstCap(b.rmax) + b.pmax - 1))
                 + b.rmax * UsDelta(st'.clock, st.clock)
  {
    hide Run, AllBounded, AllRoomy, RunWithin, Limits, Bounded, Within, UsDelta, DoAll, SumXmit;
    var st', now := Run(st, es, gso), b.(since := st.clock);
    RunRoomy(st, es, gso, None);
    OnTime(st', m);
    SameFrom(st, es, gso, b, st.clock);
    BoundedAt(st, gso, m, now);
    var ops := RunOps(st, es, gso, m, now);
    ClockBurst(st.rls[m], ops, now);
    LaterEnd(b.rmax, st'.rls[m].last, st'.clock, st.clock);
  }

  /** The same between any two moments of any run from boot. */
  lemma LifetimeBurst(ncpu: nat, es0: seq<Event>, es: seq<Event>, gso: Gso, m: Lid, b: Bounds)
    requires b.Bounds? && Limits(gso, b) && RunWithin(es0, b) && RunWithin(es, b)
    requires m in Run(Booted(ncpu), es0, gso).rls
    ensures var st := Run(Booted(ncpu), es0, gso);
            var st' := Run(st, es, gso);
            8 * (SumXmit(st'.rls[m].queue) - SumXmit(st.rls[m].queue))
              <= 8 * (2 * BurstCap(b.rmax) + ncpu * (BurstCap(b.rmax) + b.pmax - 1))
                 + b.rmax * UsDelta(st'.clock, st.clock)
  {
    hide Run, AllBounded, AllRoomy, RunWithin, Limits;
    var st := Run(Booted(ncpu), es0, gso);
    BootedBounded(ncpu, es0, gso, b);
    BootedRoomy(ncpu, None);
    RunRoomy(Booted(ncpu), es0, gso, None);
    SameFrom(st, es, gso, b, 0);
    RunBurst(st, es, gso, m, b.(since := 0));
  }

  /** The machine from boot, with a limiter created along the way. */
  ghost function Grown(ncpu: nat, es0: seq<Event>, m: Lid, es: seq<Event>, gso: Gso): (st: State)
    ensures WF(st)
  {
    var before := Run(Booted(ncpu), es0, gso);
    StepFrame(before, Create(m), gso);
    Run(Step(before, Create(m), gso), es, gso)
  }

  /** The rate envelope in elapsed time, over every run from boot: a limiter created at some time has
      by now sent, hoarded and pooled at most 15000 + rmax * elapsed_us / 8 bytes. */
  lemma EnvelopeToNow(ncpu: nat, es0: seq<Event>, m: Lid, es: seq<Event>, gso: Gso, b: Bounds)
    requires b.Bounds? && Limits(gso, b) && RunWithin(es0, b) && RunWithin(es, b)
    requires var before := Run(Booted(ncpu), es0, gso); m !in before.rls && (m.Dest? ==> Root(m.cls) in before.rls)
    ensures var born, st := Run(Booted(ncpu), es0, gso).clock, Grown(ncpu, es0, m, es, gso);
            && m in st.rls
            && 8 * (SumXmit(st.rls[m].queue) + SumTokens(st.rls[m].queue) + st.rls[m].pool)
                 <= 8 * INITIAL_TOKENS + b.rmax * UsDelta(st.clock, born)
  {
    hide Run, AllBounded, RunWithin, Limits;
    var before := Run(Booted(ncpu), es0, gso);
    BootedBounded(ncpu, es0, gso, b);
    SameFrom(before, es, gso, b, 0);
    LifetimeEnvelope(before, m, es, gso, b.(since := 0));
    BootedRoomy(ncpu, None);
    RunRoomy(Booted(ncpu), es0, gso, None);
    StepRoomy(before, Create(m), gso, None);
    StepFrame(before, Create(m), gso);
    assert m in Step(before, Create(m), gso).rls;
    hide Step;
    RunRoomy(Step(before, Create(m), gso), es, gso, None);
    var st := Grown(ncpu, es0, m, es, gso);
    assert Roomy(st.rls[m], None, st.clock);
    LaterEnd(b.rmax, st.rls[m].last, st.clock, before.clock);
  }
}
