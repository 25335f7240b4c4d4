/** The envelope, the burst bound and the queue books, for every limiter over every run of the
    whole machine: any packets, any lock races, any timer and tasklet schedule, any number of CPUs. */
module MachineEnvelope {
  import opened Params
  import opened Limiter
  import opened LimiterOps
  import opened Envelope
  import opened Machine

  /** Every limiter is within the bounds, and the time they speak of has come. */
  ghost predicate AllBounded(st: State, b: Bounds) {
    TimeOk(st.clock, b) && forall l :: l in st.rls ==> Bounded(st.rls[l], b)
  }

  ghost predicate Limits(gso: Gso, b: Bounds) {
    (b.Bounds? ==> RFAIR_INITIAL <= b.rmax && 0 < b.pmax) && SmallSegments(gso, b)
  }

  ghost predicate EventWithin(e: Event, b: Bounds) {
    match e
    case Tx(_, _, p, _) => SizeOk(p, b)
    case Retune(_, rate) => RateOk(rate, b)
    case Feedback(_, rate) => RateOk(rate, b)
    case _ => true
  }

  ghost predicate RunWithin(es: seq<Event>, b: Bounds) {
    forall e :: e in es ==> EventWithin(e, b)
  }

  // ---- each step is, for each limiter, a sequence of elementary actions ----

  /** A destination limiter's dequeue seen from the limiter itself (`self`) or its class limiter. */
  lemma ChildOps(rl: Rl, root: Rl, id: Lid, cb: Cb, c: nat, now: nat, luck: Luck, exiting: bool, gso: Gso,
                 self: bool, b: Bounds)
    returns (ops: seq<Op>)
    requires c < |rl.queue| && c < |root.queue|
    requires Bounded(rl, b) && SmallSegments(gso, b) && TimeOk(now, b)
    ensures var r := ChildStep(rl, root, id, cb, c, now, luck, exiting, gso);
            if self then DoAll(rl, ops) == r.rl else DoAll(root, ops) == r.root
    ensures Within(ops, b)
  {
    var s := ServeChild(rl, root, c, now, luck.lock, gso);
    var selfOps, rootOps := ServeChildOps(rl, root, c, now, luck.lock, gso, b);
    if self {
      ops := selfOps;
    } else if s.blocked {
      ops := rootOps;
    } else {
      var more := ServeRootOps(s.root, c, luck.rootLock, b);
      DoAllConcat(root, rootOps, more);
      ops := rootOps + more;
    }
  }

  lemma DequeueOps(st: State, l: Lid, c: nat, luck: Luck, gso: Gso, m: Lid, b: Bounds)
    returns (ops: seq<Op>)
    requires WF(st) && l in st.rls && c < |st.cbs| && m in st.rls
    requires AllBounded(st, b) && Limits(gso, b)
    ensures m in DequeueAt(st, l, c, luck, gso).st.rls
    ensures DoAll(st.rls[m], ops) == DequeueAt(st, l, c, luck, gso).st.rls[m]
    ensures Within(ops, b)
  {
    DequeueFrame(st, l, c, luck, gso);
    ops := [];
    if l.Root? {
      if m == l {
        ops := ServeRootOps(st.rls[l], c, luck.lock, b);
      }
    } else if m == l || m == Root(l.cls) {
      ops := ChildOps(st.rls[l], st.rls[Root(l.cls)], l, st.cbs[c], c, st.clock, luck, st.exiting, gso, m == l, b);
    }
  }

  lemma DequeueKeepsBounded(st: State, l: Lid, c: nat, luck: Luck, gso: Gso, b: Bounds)
    requires WF(st) && l in st.rls && c < |st.cbs|
    requires AllBounded(st, b) && Limits(gso, b)
    ensures AllBounded(DequeueAt(st, l, c, luck, gso).st, b)
  {
    var st' := DequeueAt(st, l, c, luck, gso).st;
    DequeueFrame(st, l, c, luck, gso);
    forall m | m in st'.rls ensures Bounded(st'.rls[m], b) {
      var ops := DequeueOps(st, l, c, luck, gso, m, b);
      HoardsBounded(st.rls[m], ops, b);
    }
  }

  /** Clocking the head of the active list before its dequeue. */
  lemma PreparedKeepsBounded(st: State, c: nat, luck: Luck, b: Bounds)
    requires WF(st) && c < |st.cbs| && st.cbs[c].active != []
    requires AllBounded(st, b) && Sound(b)
    ensures st.cbs[c].active[0] in st.rls
    ensures AllBounded(ClockedAt(Popped(Advanced(st, luck.dt), c), st.cbs[c].active[0]), b)
  {
    ServicePrepares(st, c, luck);
    var l := st.cbs[c].active[0];
    OpKeepsBounded(st.rls[l], Refill(st.clock + luck.dt), b);
  }

  lemma ServiceOps(st: State, c: nat, luck: Luck, gso: Gso, m: Lid, b: Bounds) returns (ops: seq<Op>)
    requires WF(st) && c < |st.cbs| && st.cbs[c].active != [] && m in st.rls
    requires AllBounded(st, b) && Limits(gso, b)
    ensures m in ServiceHead(st, c, luck, gso).st.rls
    ensures DoAll(st.rls[m], ops) == ServiceHead(st, c, luck, gso).st.rls[m]
    ensures Within(ops, b)
  {
    hide DequeueAt, AllBounded, Clocked;
    ServicePrepares(st, c, luck);
    PreparedKeepsBounded(st, c, luck, b);
    var l := st.cbs[c].active[0];
    var st1 := ClockedAt(Popped(Advanced(st, luck.dt), c), l);
    ops := DequeueOps(st1, l, c, luck, gso, m, b);
    if m == l {
      var refill := [Refill(st.clock + luck.dt)];
      DoAllConcat(st.rls[m], refill, ops);
      assert DoAll(st.rls[m], refill) == st1.rls[m];
      ops := refill + ops;
    }
  }

  lemma ServiceKeepsBounded(st: State, c: nat, luck: Luck, gso: Gso, b: Bounds)
    requires WF(st) && c < |st.cbs| && st.cbs[c].active != []
    requires AllBounded(st, b) && Limits(gso, b)
    ensures AllBounded(ServiceHead(st, c, luck, gso).st, b)
  {
    hide DequeueAt, AllBounded, Clocked;
    ServicePrepares(st, c, luck);
    PreparedKeepsBounded(st, c, luck, b);
    var l := st.cbs[c].active[0];
    DequeueKeepsBounded(ClockedAt(Popped(Advanced(st, luck.dt), c), l), l, c, luck, gso, b);
  }

  lemma SweepOps(st: State, c: nat, first: Lid, k: nat, sent: nat, lucks: seq<Luck>, gso: Gso,
                 m: Lid, b: Bounds)
    returns (ops: seq<Op>)
    requires WF(st) && c < |st.cbs| && st.cbs[c].active != [] && k >= 1 && m in st.rls
    requires AllBounded(st, b) && Limits(gso, b)
    ensures m in Sweep(st, c, first, k, sent, lucks, gso).st.rls
    ensures DoAll(st.rls[m], ops) == Sweep(st, c, first, k, sent, lucks, gso).st.rls[m]
    ensures Within(ops, b)
    decreases TASKLET_BUDGET - k
  {
    hide ServiceHead;
    ops := [];
    var active := st.cbs[c].active;
    if !StopsBefore(active, first, k, sent) {
      var luck := LuckAt(lucks, k - 1);
      ops := ServiceOps(st, c, luck, gso, m, b);
      ServiceFrame(st, c, luck, gso);
      var d := ServiceHead(st, c, luck, gso);
      if |active| != 1 {
        ServiceKeepsBounded(st, c, luck, gso, b);
        var rest := SweepOps(d.st, c, first, k + 1, sent + d.sum, lucks, gso, m, b);
        DoAllConcat(st.rls[m], ops, rest);
        ops := ops + rest;
      }
    }
  }

  lemma TxOps(st: State, l: Lid, c: nat, p: Packet, luck: Luck, gso: Gso, m: Lid, b: Bounds)
    returns (ops: seq<Op>)
    requires WF(st) && l in st.rls && l.Dest? && c < |st.cbs| && m in st.rls && SizeOk(p, b)
    requires AllBounded(st, b) && Limits(gso, b)
    ensures m in Step(st, Tx(l, c, p, luck), gso).rls
    ensures DoAll(st.rls[m], ops) == Step(st, Tx(l, c, p, luck), gso).rls[m]
    ensures Within(ops, b)
  {
    var st1 := Advanced(st, luck.dt);
    EnqueueFrame(st1, l, c, p, gso);
    var st2 := EnqueuedAt(st1, l, c, p, gso);
    var enq := EnqueuedOps(st1.rls[l], c, p.(flow := l), st1.clock, false, gso, b);
    HoardsBounded(st1.rls[l], enq, b);
    ops := DequeueOps(st2, l, c, luck, gso, m, b);
    if m == l {
      DoAllConcat(st.rls[m], enq, ops);
      ops := enq + ops;
    }
  }

  /** Any step of the machine acts on any existing limiter by a sequence of elementary actions. */
  lemma StepOps(st: State, e: Event, gso: Gso, m: Lid, b: Bounds) returns (ops: seq<Op>)
    requires WF(st) && m in st.rls && EventWithin(e, b)
    requires AllBounded(st, b) && Limits(gso, b)
    ensures m in Step(st, e, gso).rls
    ensures DoAll(st.rls[m], ops) == Step(st, e, gso).rls[m]
    ensures Within(ops, b)
  {
    hide DequeueAt, Sweep, EnqueuedAt;
    ops := [];
    match e {
      case Tx(l, c, p, luck) =>
        if l in st.rls && l.Dest? && c < |st.cbs| {
          ops := TxOps(st, l, c, p, luck, gso, m, b);
        }
      case Tasklet(c, lucks) =>
        if c < |st.cbs| && st.cbs[c].pending {
          var st1 := WithCb(st, c, st.cbs[c].(pending := false));
          if !st.exiting && st1.cbs[c].active != [] {
            ops := SweepOps(st1, c, st1.cbs[c].active[0], 1, 0, lucks, gso, m, b);
          }
        }
      case Retune(l, rate) => if m == l { ops := [SetRate(rate, st.rls[l].lastRate)]; }
      case Feedback(l, rate) => if m == l { ops := [SetRate(rate, st.clock)]; }
      case _ =>
    }
  }

  lemma NewIsBounded(ncpu: nat, now: nat, b: Bounds)
    requires b.Bounds? ==> RFAIR_INITIAL <= b.rmax && 0 < b.pmax
    ensures Bounded(NewRl(ncpu, now), b)
  {
  }

  /** A limiter appears only by being created, in its initial state. */
  lemma NewOnlyByCreate(st: State, e: Event, gso: Gso, m: Lid)
    requires WF(st) && m !in st.rls && m in Step(st, e, gso).rls
    ensures e == Create(m) && Step(st, e, gso).rls[m] == NewRl(|st.cbs|, st.clock)
  {
    match e {
      case Tx(l, c, p, luck) =>
        if l in st.rls && l.Dest? && c < |st.cbs| {
          var st1 := Advanced(st, luck.dt);
          EnqueueFrame(st1, l, c, p, gso);
          DequeueFrame(EnqueuedAt(st1, l, c, p, gso), l, c, luck, gso);
        }
      case Tasklet(c, lucks) =>
        if c < |st.cbs| && st.cbs[c].pending {
          var st1 := WithCb(st, c, st.cbs[c].(pending := false));
          if !st.exiting && st1.cbs[c].active != [] {
            SweepFrame(st1, c, st1.cbs[c].active[0], 1, 0, lucks, gso);
          }
        }
      case _ =>
    }
  }

  lemma StepKeepsBounded(st: State, e: Event, gso: Gso, b: Bounds)
    requires WF(st) && EventWithin(e, b)
    requires AllBounded(st, b) && Limits(gso, b)
    ensures AllBounded(Step(st, e, gso), b)
  {
    var st' := Step(st, e, gso);
    StepFrame(st, e, gso);
    forall m | m in st'.rls ensures Bounded(st'.rls[m], b) {
      if m in st.rls {
        var ops := StepOps(st, e, gso, m, b);
        HoardsBounded(st.rls[m], ops, b);
      } else {
        NewOnlyByCreate(st, e, gso, m);
        NewIsBounded(|st.cbs|, st.clock, b);
      }
    }
  }

  /** So does any run. */
  lemma RunOps(st: State, es: seq<Event>, gso: Gso, m: Lid, b: Bounds) returns (ops: seq<Op>)
    requires WF(st) && m in st.rls && RunWithin(es, b)
    requires AllBounded(st, b) && Limits(gso, b)
    ensures DoAll(st.rls[m], ops) == Run(st, es, gso).rls[m]
    ensures Within(ops, b)
    decreases |es|
  {
    ops := [];
    if es != [] {
      assert es[0] in es && RunWithin(es[1..], b);
      ops := StepOps(st, es[0], gso, m, b);
      StepFrame(st, es[0], gso);
      StepKeepsBounded(st, es[0], gso, b);
      var rest := RunOps(Step(st, es[0], gso), es[1..], gso, m, b);
      DoAllConcat(st.rls[m], ops, rest);
      ops := ops + rest;
    }
  }

  // ---- the theorems over runs ----

  /** Every per-CPU hoard of every limiter stays within BurstCap + pmax - 1, on every run. */
  lemma {:induction false} RunKeepsBounded(st: State, es: seq<Event>, gso: Gso, b: Bounds)
    requires WF(st) && RunWithin(es, b)
    requires AllBounded(st, b) && Limits(gso, b)
    ensures AllBounded(Run(st, es, gso), b)
    decreases |es|
  {
    if es != [] {
      assert es[0] in es && RunWithin(es[1..], b);
      StepFrame(st, es[0], gso);
      StepKeepsBounded(st, es[0], gso, b);
      RunKeepsBounded(Step(st, es[0], gso), es[1..], gso, b);
    }
  }

  /** Rates and sizes are within their bounds whatever time the bounds speak of. */
  lemma SameFrom(st: State, es: seq<Event>, gso: Gso, b: Bounds, t: nat)
    requires b.Bounds? && Limits(gso, b) && RunWithin(es, b)
    ensures Limits(gso, b.(since := t)) && RunWithin(es, b.(since := t))
    ensures AllBounded(st, b) && t <= st.clock ==> AllBounded(st, b.(since := t))
  {
    var b' := b.(since := t);
    forall p: Packet ensures SizeOk(p, b) == SizeOk(p, b') {
    }
    forall e | e in es ensures EventWithin(e, b') {
      assert EventWithin(e, b);
    }
    if AllBounded(st, b) && t <= st.clock {
      forall l | l in st.rls ensures Bounded(st.rls[l], b') {
        assert Bounded(st.rls[l], b);
      }
    }
  }

  lemma BootedBounded(ncpu: nat, es: seq<Event>, gso: Gso, b: Bounds)
    requires b.Bounds? && Limits(gso, b) && RunWithin(es, b)
    ensures AllBounded(Run(Booted(ncpu), es, gso), b.(since := 0))
  {
    SameFrom(Booted(ncpu), es, gso, b, 0);
    RunKeepsBounded(Booted(ncpu), es, gso, b.(since := 0));
  }

  /** Rate envelope and burst bound of any limiter over any run, in the time between the last refill
      before it and the last refill in it. */
  lemma RunEnvelope(st: State, es: seq<Event>, gso: Gso, m: Lid, b: Bounds)
    requires WF(st) && m in st.rls && RunWithin(es, b) && b.Bounds?
    requires AllBounded(st, b) && Limits(gso, b)
    ensures var rl, rl' := st.rls[m], Run(st, es, gso).rls[m];
            var sent, us := SumXmit(rl'.queue) - SumXmit(rl.queue), UsDelta(rl'.last, rl.last);
            && 8 * (sent + rl'.pool + SumTokens(rl'.queue)) <= 8 * (rl.pool + SumTokens(rl.queue)) + b.rmax * us
            && 8 * sent <= 8 * (BurstCap(b.rmax) + |st.cbs| * (BurstCap(b.rmax) + b.pmax - 1)) + b.rmax * us
  {
    var ops := RunOps(st, es, gso, m, b);
    WindowEnvelope(st.rls[m], ops, b);
    BurstBounded(st.rls[m], ops, b);
  }

  /** From boot: a limiter created at time `born` has sent, hoarded and pooled at most
      15000 + rmax * elapsed_us / 8 bytes, whatever happened since. */
  lemma LifetimeEnvelope(before: State, m: Lid, es: seq<Event>, gso: Gso, b: Bounds)
    requires b.Bounds? && WF(before) && m !in before.rls && (m.Dest? ==> Root(m.cls) in before.rls)
    requires AllBounded(before, b) && Limits(gso, b) && RunWithin(es, b)
    ensures WF(Step(before, Create(m), gso))
    ensures var rl := Run(Step(before, Create(m), gso), es, gso).rls[m];
            8 * (SumXmit(rl.queue) + SumTokens(rl.queue) + rl.pool)
              <= 8 * INITIAL_TOKENS + b.rmax * UsDelta(rl.last, before.clock)
  {
    StepFrame(before, Create(m), gso);
    StepKeepsBounded(before, Create(m), gso, b);
    var ops := RunOps(Step(before, Create(m), gso), es, gso, m, b);
    EnvelopeSinceInit(|before.cbs|, before.clock, ops, b);
  }

  ghost predicate AllInOrder(st: State) {
    forall l :: l in st.rls ==> AllBooks(st.rls[l])
  }

  lemma StepKeepsBooks(st: State, e: Event, gso: Gso)
    requires WF(st) && AllInOrder(st)
    ensures AllInOrder(Step(st, e, gso))
  {
    var st' := Step(st, e, gso);
    forall m | m in st'.rls ensures AllBooks(st'.rls[m]) {
      if m in st.rls {
        var ops := StepOps(st, e, gso, m, Anything);
        BooksKept(st.rls[m], ops);
      } else {
        NewOnlyByCreate(st, e, gso, m);
      }
    }
  }

  /** Every queue of every limiter keeps its packets in order and its byte counters exact, on every
      run whatever the packets, rates and segmentation. */
  lemma {:induction false} RunKeepsBooks(st: State, es: seq<Event>, gso: Gso)
    requires WF(st) && AllInOrder(st)
    ensures AllInOrder(Run(st, es, gso))
    decreases |es|
  {
    if es != [] {
      StepFrame(st, es[0], gso);
      StepKeepsBooks(st, es[0], gso);
      RunKeepsBooks(Step(st, es[0], gso), es[1..], gso);
    }
  }
}
