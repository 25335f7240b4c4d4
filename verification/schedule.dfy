/** No packet is stranded and no queue starves: what the active lists, timers and tasklets keep
    over every run of the machine. */
module Schedule {
  import opened Params
  import opened Limiter
  import opened QueueBounds
  import opened Machine

  ghost predicate NoDup(a: seq<Lid>) {
    forall i, j :: 0 <= i < j < |a| ==> a[i] != a[j]
  }

  /** Every non-empty queue of CPU `c`, except perhaps `hole`'s, is on the active list. */
  ghost predicate Listed(st: State, c: nat, hole: set<Lid>)
    requires WF(st) && c < |st.cbs|
  {
    forall l :: l in st.rls && l !in hole && st.rls[l].queue[c].list != [] ==> l in st.cbs[c].active
  }

  ghost predicate Alarmed(cb: Cb) { cb.active != [] ==> cb.armed || cb.pending }

  /** Unless the module is exiting, every non-empty queue is on its CPU's active list, exactly once,
      and a CPU with anything on its list has its timer armed or its tasklet pending. */
  ghost predicate Awake(st: State) {
    && WF(st)
    && (forall c: nat :: c < |st.cbs| ==> NoDup(st.cbs[c].active))
    && (!st.exiting ==> forall c: nat :: c < |st.cbs| ==> Listed(st, c, {}) && Alarmed(st.cbs[c]))
  }

  // ---- one dequeue ----

  /** How a dequeue may change a control block's schedule. */
  ghost predicate Rearmed(cb: Cb, cb': Cb) {
    && cb.active <= cb'.active
    && (NoDup(cb.active) ==> NoDup(cb'.active))
    && (cb.armed ==> cb'.armed)
    && cb'.pending == cb.pending
    && (cb'.active != cb.active ==> cb'.armed)
  }

  lemma RescheduleRearms(cb: Cb, l: Lid, timeout: bool, exiting: bool)
    ensures Rearmed(cb, Rescheduled(cb, l, timeout, exiting))
    ensures timeout && !exiting ==> l in Rescheduled(cb, l, timeout, exiting).active
  {
  }

  lemma RearmedTransitive(a: Cb, b: Cb, c: Cb)
    requires Rearmed(a, b) && Rearmed(b, c)
    ensures Rearmed(a, c)
  {
  }

  lemma RootStepLists(root: Rl, id: Lid, cb: Cb, c: nat, lock: bool, exiting: bool)
    requires c < |root.queue|
    ensures var r := RootStep(root, id, cb, c, lock, exiting);
            && Rearmed(cb, r.cb)
            && (!exiting && r.root.queue[c].list != [] ==> id in r.cb.active)
            && (forall j :: 0 <= j < |root.queue| && j != c ==> r.root.queue[j] == root.queue[j])
  {
    ServeRootWork(root, c, lock);
    var s := ServeRoot(root, c, lock);
    hide ServeRoot;
    var cb1 := Transmitted(cb, Out(root.queue[c], s.rl.queue[c]));
    RescheduleRearms(cb1, id, s.timeout, exiting);
  }

  lemma ChildStepLists(rl: Rl, root: Rl, id: Lid, cb: Cb, c: nat, now: nat, luck: Luck, exiting: bool, gso: Gso)
    requires c < |rl.queue| && c < |root.queue|
    ensures var r := ChildStep(rl, root, id, cb, c, now, luck, exiting, gso);
            && Rearmed(cb, r.cb)
            && (!exiting && r.rl.queue[c].list != [] ==> id in r.cb.active)
            && (!exiting && r.root.queue[c].list != [] ==> Root(id.cls) in r.cb.active || r.root == root)
            && (forall j :: 0 <= j < |rl.queue| && j != c ==> r.rl.queue[j] == rl.queue[j])
            && (forall j :: 0 <= j < |root.queue| && j != c ==> r.root.queue[j] == root.queue[j])
  {
    ServeChildWork(rl, root, c, now, luck.lock, gso);
    ServeChildElsewhere(rl, root, c, now, luck.lock, gso);
    var s := ServeChild(rl, root, c, now, luck.lock, gso);
    hide ServeChild, RootStep, Rescheduled, PrefixDeparted;
    if s.blocked {
      RescheduleRearms(cb, id, true, exiting);
    } else {
      RootStepLists(s.root, Root(id.cls), cb, c, luck.rootLock, exiting);
      var r := RootStep(s.root, Root(id.cls), cb, c, luck.rootLock, exiting);
      RescheduleRearms(r.cb, id, s.timeout, exiting);
      RearmedTransitive(cb, r.cb, Rescheduled(r.cb, id, s.timeout, exiting));
    }
  }

  /** What other CPUs see of a step on CPU `c`: their queues and control blocks are untouched. */
  ghost predicate OnlyCpu(st: State, st': State, c: nat) {
    && WF(st) && WF(st') && |st'.cbs| == |st.cbs| && st'.exiting == st.exiting && st'.rls.Keys == st.rls.Keys
    && (forall j: nat :: j < |st.cbs| && j != c ==> st'.cbs[j] == st.cbs[j])
    && (forall m, j: nat :: m in st.rls && j < |st.cbs| && j != c ==> st'.rls[m].queue[j] == st.rls[m].queue[j])
  }

  lemma OnlyCpuTransitive(a: State, b: State, d: State, c: nat)
    requires OnlyCpu(a, b, c) && OnlyCpu(b, d, c)
    ensures OnlyCpu(a, d, c)
  {
  }

  lemma ChildDequeueLists(st: State, l: Lid, c: nat, luck: Luck, gso: Gso)
    requires WF(st) && l in st.rls && l.Dest? && c < |st.cbs| && !st.exiting && Listed(st, c, {l})
    requires WF(DequeueAt(st, l, c, luck, gso).st) && |DequeueAt(st, l, c, luck, gso).st.cbs| == |st.cbs|
    ensures Listed(DequeueAt(st, l, c, luck, gso).st, c, {})
  {
    hide ChildStep;
    ChildStepLists(st.rls[l], st.rls[Root(l.cls)], l, st.cbs[c], c, st.clock, luck, st.exiting, gso);
  }

  /** A dequeue touches its own CPU only, and leaves every non-empty queue there listed whether or
      not `l` was before. */
  lemma DequeueSettles(st: State, l: Lid, c: nat, luck: Luck, gso: Gso)
    requires WF(st) && l in st.rls && c < |st.cbs|
    ensures var st' := DequeueAt(st, l, c, luck, gso).st;
            && OnlyCpu(st, st', c)
            && Rearmed(st.cbs[c], st'.cbs[c])
            && (!st.exiting && Listed(st, c, {l}) ==> Listed(st', c, {}))
  {
    DequeueFrame(st, l, c, luck, gso);
    hide RootStep, ChildStep, Rearmed;
    if l.Root? {
      RootStepLists(st.rls[l], l, st.cbs[c], c, luck.lock, st.exiting);
    } else {
      ChildStepLists(st.rls[l], st.rls[Root(l.cls)], l, st.cbs[c], c, st.clock, luck, st.exiting, gso);
      if !st.exiting && Listed(st, c, {l}) {
        ChildDequeueLists(st, l, c, luck, gso);
      }
    }
  }

  // ---- one tasklet turn and the whole sweep ----

  lemma PreparedOnlyCpu(st: State, c: nat, luck: Luck)
    requires WF(st) && c < |st.cbs| && st.cbs[c].active != []
    ensures st.cbs[c].active[0] in st.rls
    ensures var l := st.cbs[c].active[0];
            var st1 := ClockedAt(Popped(Advanced(st, luck.dt), c), l);
            && OnlyCpu(st, st1, c)
            && st1.cbs[c].active == st.cbs[c].active[1..]
            && (NoDup(st.cbs[c].active) ==> NoDup(st1.cbs[c].active))
            && (Listed(st, c, {}) ==> Listed(st1, c, {l}))
  {
    ServicePrepares(st, c, luck);
    var l := st.cbs[c].active[0];
    var st1 := ClockedAt(Popped(Advanced(st, luck.dt), c), l);
    if Listed(st, c, {}) {
      forall m | m in st1.rls && m != l && st1.rls[m].queue[c].list != [] ensures m in st1.cbs[c].active {
        assert m in st.cbs[c].active;
      }
    }
  }

  lemma ServiceSettles(st: State, c: nat, luck: Luck, gso: Gso)
    requires WF(st) && !st.exiting && c < |st.cbs| && st.cbs[c].active != []
    requires Listed(st, c, {}) && NoDup(st.cbs[c].active)
    ensures var st' := ServiceHead(st, c, luck, gso).st;
            && OnlyCpu(st, st', c)
            && Listed(st', c, {}) && NoDup(st'.cbs[c].active)
  {
    var l := st.cbs[c].active[0];
    PreparedOnlyCpu(st, c, luck);
    var st1 := ClockedAt(Popped(Advanced(st, luck.dt), c), l);
    hide DequeueAt, ClockedAt, Popped, NoDup, Listed;
    DequeueSettles(st1, l, c, luck, gso);
    OnlyCpuTransitive(st, st1, DequeueAt(st1, l, c, luck, gso).st, c);
  }

  lemma {:induction false} SweepSettles(st: State, c: nat, first: Lid, k: nat, sent: nat, lucks: seq<Luck>, gso: Gso)
    requires WF(st) && !st.exiting && c < |st.cbs| && st.cbs[c].active != [] && k >= 1
    requires Listed(st, c, {}) && NoDup(st.cbs[c].active)
    ensures var st' := Sweep(st, c, first, k, sent, lucks, gso).st;
            && OnlyCpu(st, st', c)
            && Listed(st', c, {}) && NoDup(st'.cbs[c].active)
    decreases TASKLET_BUDGET - k
  {
    hide ServiceHead, Listed, NoDup;
    var active := st.cbs[c].active;
    if !StopsBefore(active, first, k, sent) {
      var luck := LuckAt(lucks, k - 1);
      ServiceFrame(st, c, luck, gso);
      ServiceSettles(st, c, luck, gso);
      var d := ServiceHead(st, c, luck, gso);
      if |active| != 1 {
        SweepSettles(d.st, c, first, k + 1, sent + d.sum, lucks, gso);
        OnlyCpuTransitive(st, d.st, Sweep(st, c, first, k, sent, lucks, gso).st, c);
      }
    }
  }

  // ---- every step, every run ----

  lemma OneCpuStaysAwake(st: State, st': State, c: nat)
    requires Awake(st) && c < |st.cbs| && OnlyCpu(st, st', c)
    requires NoDup(st'.cbs[c].active)
    requires !st.exiting ==> Listed(st', c, {}) && Alarmed(st'.cbs[c])
    ensures Awake(st')
  {
    hide NoDup, Alarmed;
    forall j: nat | j < |st'.cbs|
      ensures NoDup(st'.cbs[j].active)
      ensures !st'.exiting ==> Listed(st', j, {}) && Alarmed(st'.cbs[j])
    {
      if j != c {
        assert NoDup(st.cbs[j].active);
        if !st.exiting {
          assert Listed(st, j, {}) && Alarmed(st.cbs[j]);
        }
      }
    }
  }

  lemma EnqueueOnlyCpu(st: State, l: Lid, c: nat, p: Packet, dt: nat, gso: Gso)
    requires WF(st) && l in st.rls && c < |st.cbs|
    ensures var st' := EnqueuedAt(Advanced(st, dt), l, c, p, gso);
            && OnlyCpu(st, st', c) && st'.cbs == st.cbs && l in st'.rls
            && (Listed(st, c, {}) ==> Listed(st', c, {l}))
  {
    var st1 := Advanced(st, dt);
    EnqueueFrame(st1, l, c, p, gso);
    EnqueueElsewhere(st1.rls[l], c, p.(flow := l), st1.clock, false, gso);
    hide Enqueued;
  }

  lemma OnlyCpuShapes(st: State, st': State, c: nat)
    requires OnlyCpu(st, st', c)
    ensures WF(st') && |st'.cbs| == |st.cbs| && st'.exiting == st.exiting
  {
  }

  lemma TxStaysAwake(st: State, l: Lid, c: nat, p: Packet, luck: Luck, gso: Gso)
    requires Awake(st) && l in st.rls && l.Dest? && c < |st.cbs|
    ensures Awake(Step(st, Tx(l, c, p, luck), gso))
  {
    hide DequeueAt, EnqueuedAt, NoDup, Listed, OnlyCpu;
    var st2 := EnqueuedAt(Advanced(st, luck.dt), l, c, p, gso);
    EnqueueOnlyCpu(st, l, c, p, luck.dt, gso);
    OnlyCpuShapes(st, st2, c);
    DequeueSettles(st2, l, c, luck, gso);
    var st3 := DequeueAt(st2, l, c, luck, gso).st;
    OnlyCpuTransitive(st, st2, st3, c);
    OnlyCpuShapes(st, st3, c);
    OneCpuStaysAwake(st, st3, c);
  }

  /** Writing a CPU's timer and tasklet flags changes no list. */
  lemma FlagsOnly(st: State, c: nat, armed: bool, pending: bool)
    requires WF(st) && c < |st.cbs|
    ensures var st' := WithCb(st, c, st.cbs[c].(armed := armed, pending := pending));
            && WF(st') && OnlyCpu(st, st', c) && st'.cbs[c].active == st.cbs[c].active
            && (NoDup(st.cbs[c].active) ==> NoDup(st'.cbs[c].active))
            && (Listed(st, c, {}) ==> Listed(st', c, {}))
  {
  }

  lemma TaskletStaysAwake(st: State, c: nat, lucks: seq<Luck>, gso: Gso)
    requires Awake(st) && c < |st.cbs|
    ensures Awake(TaskletRun(st, c, lucks, gso).st)
  {
    hide Sweep, NoDup, Listed, OnlyCpu;
    var st1 := WithCb(st, c, st.cbs[c].(pending := false));
    FlagsOnly(st, c, st.cbs[c].armed, false);
    if st.exiting || st1.cbs[c].active == [] {
      OneCpuStaysAwake(st, st1, c);
    } else {
      SweepSettles(st1, c, st1.cbs[c].active[0], 1, 0, lucks, gso);
      var s := Sweep(st1, c, st1.cbs[c].active[0], 1, 0, lucks, gso);
      OnlyCpuTransitive(st, st1, s.st, c);
      OnlyCpuShapes(st, s.st, c);
      if s.st.cbs[c].active != [] {
        FlagsOnly(s.st, c, true, s.st.cbs[c].pending);
        OnlyCpuTransitive(st, s.st, TaskletRun(st, c, lucks, gso).st, c);
      }
      OneCpuStaysAwake(st, TaskletRun(st, c, lucks, gso).st, c);
    }
  }

  /** Steps that leave every list and every schedule alone. */
  lemma QuietStaysAwake(st: State, st': State)
    requires Awake(st) && WF(st') && st'.cbs == st.cbs && (st.exiting ==> st'.exiting)
    requires forall m :: m in st'.rls ==>
               (m in st.rls && st'.rls[m].queue == st.rls[m].queue)
               || (forall j: nat :: j < |st.cbs| ==> st'.rls[m].queue[j].list == [])
    ensures Awake(st')
  {
    if !st'.exiting {
      forall j: nat | j < |st'.cbs| ensures Listed(st', j, {}) && Alarmed(st'.cbs[j]) {
        assert Listed(st, j, {}) && Alarmed(st.cbs[j]);
      }
    }
  }

  /** Every step of the machine keeps every packet within reach of a timer or tasklet. */
  lemma StepStaysAwake(st: State, e: Event, gso: Gso)
    requires Awake(st)
    ensures Awake(Step(st, e, gso))
  {
    StepFrame(st, e, gso);
    hide DequeueAt, EnqueuedAt, TaskletRun;
    match e {
      case Tx(l, c, p, luck) =>
        if l in st.rls && l.Dest? && c < |st.cbs| { TxStaysAwake(st, l, c, p, luck, gso); }
      case Timer(c) =>
        if c < |st.cbs| && st.cbs[c].armed {
          assert NoDup(st.cbs[c].active);
          assert !st.exiting ==> Listed(st, c, {});
          OneCpuStaysAwake(st, Step(st, e, gso), c);
        }
      case Tasklet(c, lucks) =>
        if c < |st.cbs| && st.cbs[c].pending { TaskletStaysAwake(st, c, lucks, gso); }
      case _ => QuietStaysAwake(st, Step(st, e, gso));
    }
  }

  /** No stranded packets, on every run. */
  lemma {:induction false} RunStaysAwake(st: State, es: seq<Event>, gso: Gso)
    requires Awake(st)
    ensures Awake(Run(st, es, gso))
    decreases |es|
  {
    if es != [] {
      StepStaysAwake(st, es[0], gso);
      hide Step;
      RunStaysAwake(Step(st, es[0], gso), es[1..], gso);
    }
  }

  lemma BootedIsAwake(ncpu: nat)
    ensures Awake(Booted(ncpu))
  {
  }

  // ---- starvation freedom ----

  /** What a run of turns does to position p of the list: `serviced` is a prefix of the list as it
      stood, in order, and what is behind it has moved up by exactly that many places. */
  ghost predicate MovedUp(active: seq<Lid>, serviced: seq<Lid>, active': seq<Lid>, p: nat)
    requires p < |active|
  {
    && (|serviced| <= p ==> p - |serviced| < |active'| && active'[p - |serviced|] == active[p])
    && (p < |serviced| ==> serviced[p] == active[p])
  }

  lemma MovedNowhere(active: seq<Lid>, p: nat)
    requires p < |active|
    ensures MovedUp(active, [], active, p)
  {
  }

  lemma MovedUpOnce(active: seq<Lid>, mid: seq<Lid>, rest: seq<Lid>, active': seq<Lid>, p: nat)
    requires p < |active| && active[1..] <= mid
    requires 0 < p ==> p - 1 < |mid| && MovedUp(mid, rest, active', p - 1)
    ensures MovedUp(active, [active[0]] + rest, active', p)
  {
    assert p > 0 ==> active[p] == active[1..][p - 1] == mid[p - 1];
  }

  lemma {:induction false} SweepMovesUp(st: State, c: nat, first: Lid, k: nat, sent: nat, lucks: seq<Luck>, gso: Gso,
                                        p: nat)
    requires WF(st) && c < |st.cbs| && k >= 1 && p < |st.cbs[c].active|
    ensures var r := Sweep(st, c, first, k, sent, lucks, gso);
            && |r.st.cbs| == |st.cbs|
            && |r.serviced| <= (if k <= 250 then 251 - k else 0)
            && MovedUp(st.cbs[c].active, r.serviced, r.st.cbs[c].active, p)
            && (!StopsBefore(st.cbs[c].active, first, k, sent) ==> r.serviced != [])
    decreases TASKLET_BUDGET - k
  {
    hide ServiceHead, WF, MovedUp;
    var active := st.cbs[c].active;
    if StopsBefore(active, first, k, sent) {
      MovedNowhere(active, p);
    } else {
      var luck := LuckAt(lucks, k - 1);
      ServiceFrame(st, c, luck, gso);
      var d := ServiceHead(st, c, luck, gso);
      if |active| == 1 {
        MovedUpOnce(active, d.st.cbs[c].active, [], d.st.cbs[c].active, p);
        assert [active[0]] + [] == [active[0]];
      } else {
        SweepMovesUp(d.st, c, first, k + 1, sent + d.sum, lucks, gso, if p > 0 then p - 1 else 0);
        var r := Sweep(d.st, c, first, k + 1, sent + d.sum, lucks, gso);
        MovedUpOnce(active, d.st.cbs[c].active, r.serviced, r.st.cbs[c].active, p);
      }
    }
  }

  /** What a tasklet run with work to do comes to: the sweep, but for the timer it arms. */
  lemma TaskletForm(st: State, c: nat, lucks: seq<Luck>, gso: Gso)
    requires WF(st) && !st.exiting && c < |st.cbs| && st.cbs[c].active != []
    ensures var st1 := WithCb(st, c, st.cbs[c].(pending := false));
            && WF(st1) && |st1.cbs| == |st.cbs| && st1.cbs[c].active == st.cbs[c].active
            && var s, r := Sweep(st1, c, st.cbs[c].active[0], 1, 0, lucks, gso), TaskletRun(st, c, lucks, gso);
            && r.serviced == s.serviced && r.st.cbs[c].active == s.st.cbs[c].active
  {
    hide Sweep;
  }

  /** The first turn of a run is never cut short, even by the wrap-around test: the list could name
      its own head again only as a duplicate. */
  lemma FirstTurnHappens(st: State, c: nat, first: Lid, lucks: seq<Luck>, gso: Gso)
    requires WF(st) && c < |st.cbs| && st.cbs[c].active != [] && first == st.cbs[c].active[0]
    requires NoDup(st.cbs[c].active)
    ensures !StopsBefore(st.cbs[c].active, first, 1, 0)
  {
  }

  /** A tasklet run that finds work services the head, then a prefix of the list as it stood, at most
      250 queues in all; everything it does not reach moves up by the number serviced. */
  lemma TaskletServicesPrefix(st: State, c: nat, lucks: seq<Luck>, gso: Gso, p: nat)
    requires WF(st) && !st.exiting && c < |st.cbs| && p < |st.cbs[c].active|
    requires NoDup(st.cbs[c].active)
    ensures var r := TaskletRun(st, c, lucks, gso);
            && 1 <= |r.serviced| <= 250
            && r.serviced[0] == st.cbs[c].active[0]
            && MovedUp(st.cbs[c].active, r.serviced, r.st.cbs[c].active, p)
  {
    TaskletForm(st, c, lucks, gso);
    var st1 := WithCb(st, c, st.cbs[c].(pending := false));
    var first := st.cbs[c].active[0];
    FirstTurnHappens(st1, c, first, lucks, gso);
    hide Sweep, TaskletRun, WithCb, WF, NoDup, StopsBefore;
    SweepMovesUp(st1, c, first, 1, 0, lucks, gso, p);
    SweepMovesUp(st1, c, first, 1, 0, lucks, gso, 0);
  }

  predicate Fires(st: State, e: Event, c: nat) { e.Tasklet? && e.c == c && c < |st.cbs| && st.cbs[c].pending }

  /** The tasklet runs of CPU `c` that happen in a run of the machine. */
  ghost function TaskletRuns(st: State, es: seq<Event>, gso: Gso, c: nat): nat
    requires WF(st)
    decreases |es|
  {
    if es == [] then 0
    else
      StepFrame(st, es[0], gso);
      (if Fires(st, es[0], c) then 1 else 0) + TaskletRuns(Step(st, es[0], gso), es[1..], gso, c)
  }

  /** Some tasklet run of CPU `c` services limiter `l`'s queue. */
  ghost predicate Serviced(st: State, es: seq<Event>, gso: Gso, c: nat, l: Lid)
    requires WF(st)
    decreases |es|
  {
    es != [] && (
      StepFrame(st, es[0], gso);
      || (Fires(st, es[0], c) && l in TaskletRun(st, c, es[0].lucks, gso).serviced)
      || Serviced(Step(st, es[0], gso), es[1..], gso, c, l))
  }

  /** Any step other than this CPU's own tasklet leaves a listed queue where it was. */
  lemma PositionKept(st: State, e: Event, gso: Gso, c: nat, p: nat)
    requires WF(st) && c < |st.cbs| && p < |st.cbs[c].active| && !Fires(st, e, c)
    ensures var st' := Step(st, e, gso);
            |st'.cbs| == |st.cbs| && p < |st'.cbs[c].active| && st'.cbs[c].active[p] == st.cbs[c].active[p]
  {
    hide DequeueAt, Sweep, Enqueued;
    match e {
      case Tx(l, j, pkt, luck) =>
        if l in st.rls && l.Dest? && j < |st.cbs| {
          var st1 := Advanced(st, luck.dt);
          EnqueueFrame(st1, l, j, pkt, gso);
          DequeueFrame(EnqueuedAt(st1, l, j, pkt, gso), l, j, luck, gso);
        }
      case Tasklet(j, lucks) =>
        if j < |st.cbs| && st.cbs[j].pending {
          var st1 := WithCb(st, j, st.cbs[j].(pending := false));
          if !st.exiting && st1.cbs[j].active != [] {
            SweepFrame(st1, j, st1.cbs[j].active[0], 1, 0, lucks, gso);
          }
        }
      case _ =>
    }
  }

  /** This CPU's tasklet: the queue at position p is serviced, or is now at q, further up. */
  lemma TaskletAdvances(st: State, lucks: seq<Luck>, gso: Gso, c: nat, p: nat) returns (q: nat)
    requires WF(st) && c < |st.cbs| && p < |st.cbs[c].active| && !st.exiting && NoDup(st.cbs[c].active)
    ensures var r, l := TaskletRun(st, c, lucks, gso), st.cbs[c].active[p];
            l in r.serviced || (q < |r.st.cbs[c].active| && r.st.cbs[c].active[q] == l && q < p)
  {
    hide TaskletRun, WF, NoDup;
    q := p;
    TaskletServicesPrefix(st, c, lucks, gso, p);
    var r := TaskletRun(st, c, lucks, gso);
    if |r.serviced| <= p {
      q := p - |r.serviced|;
    } else {
      assert r.serviced[p] in r.serviced;
    }
  }

  /** One step of the machine: the queue at position p is serviced, or is now at q, no further back,
      and further up if this CPU's tasklet ran. */
  lemma QueueAdvances(st: State, e: Event, gso: Gso, c: nat, p: nat) returns (q: nat)
    requires WF(st) && c < |st.cbs| && p < |st.cbs[c].active| && !st.exiting && NoDup(st.cbs[c].active)
    ensures var st', l := Step(st, e, gso), st.cbs[c].active[p];
            && |st'.cbs| == |st.cbs|
            && ((Fires(st, e, c) && l in TaskletRun(st, c, e.lucks, gso).serviced)
                || (q < |st'.cbs[c].active| && st'.cbs[c].active[q] == l && q <= p && (Fires(st, e, c) ==> q < p)))
  {
    q := p;
    hide WF, NoDup, TaskletRun, DequeueAt, EnqueuedAt;
    if Fires(st, e, c) {
      q := TaskletAdvances(st, e.lucks, gso, c, p);
    } else {
      PositionKept(st, e, gso, c, p);
    }
  }

  /** Starvation freedom: a queue at position p of CPU c's active list is serviced within the next
      p + 1 tasklet runs of that CPU, whatever else happens in between. */
  lemma {:induction false} NoStarvation(st: State, es: seq<Event>, gso: Gso, c: nat, p: nat)
    requires Awake(st) && c < |st.cbs| && p < |st.cbs[c].active|
    requires !Run(st, es, gso).exiting && TaskletRuns(st, es, gso, c) >= p + 1
    ensures Serviced(st, es, gso, c, st.cbs[c].active[p])
    decreases |es|
  {
    assert WF(st) && NoDup(st.cbs[c].active);
    StepStaysAwake(st, es[0], gso);
    var st' := Step(st, es[0], gso);
    assert WF(st');
    hide Step, TaskletRun, Awake, WF, Fires, NoDup;
    var q := QueueAdvances(st, es[0], gso, c, p);
    if !(Fires(st, es[0], c) && st.cbs[c].active[p] in TaskletRun(st, c, es[0].lucks, gso).serviced) {
      NoStarvation(st', es[1..], gso, c, q);
    }
  }

  /** A waiting packet is reached: if the queue holds one, that CPU's tasklet services the queue
      within as many runs as the active list is long. */
  lemma WaitingIsServiced(st: State, es: seq<Event>, gso: Gso, c: nat, l: Lid)
    requires Awake(st) && c < |st.cbs| && l in st.rls && st.rls[l].queue[c].list != []
    requires !Run(st, es, gso).exiting && TaskletRuns(st, es, gso, c) >= |st.cbs[c].active|
    ensures Serviced(st, es, gso, c, l)
  {
    assert Listed(st, c, {});
    var p :| 0 <= p < |st.cbs[c].active| && st.cbs[c].active[p] == l;
    hide Awake, Run, TaskletRuns, Serviced;
    NoStarvation(st, es, gso, c, p);
  }

  // ---- from boot ----

  /** No stranded packets, from boot: after any run that has not begun to exit, a queue that holds a
      packet is on its CPU's active list, once, and that CPU's timer is armed or its tasklet pending. */
  lemma LifetimeAwake(ncpu: nat, es: seq<Event>, gso: Gso, c: nat, l: Lid) returns (p: nat)
    requires !Run(Booted(ncpu), es, gso).exiting && c < ncpu
    requires l in Run(Booted(ncpu), es, gso).rls && Run(Booted(ncpu), es, gso).rls[l].queue[c].list != []
    ensures var st := Run(Booted(ncpu), es, gso);
            && Awake(st)
            && p < |st.cbs[c].active| && st.cbs[c].active[p] == l
            && (forall q :: 0 <= q < |st.cbs[c].active| && st.cbs[c].active[q] == l ==> q == p)
            && (st.cbs[c].armed || st.cbs[c].pending)
  {
    BootedIsAwake(ncpu);
    RunStaysAwake(Booted(ncpu), es, gso);
    var st := Run(Booted(ncpu), es, gso);
    hide Run;
    assert Listed(st, c, {}) && Alarmed(st.cbs[c]) && NoDup(st.cbs[c].active);
    p :| 0 <= p < |st.cbs[c].active| && st.cbs[c].active[p] == l;
  }

  /** Starvation freedom, from boot: from any point of any run, a queue that holds a packet is serviced
      within as many tasklet runs of its CPU as that CPU's list is long. */
  lemma LifetimeServiced(ncpu: nat, es0: seq<Event>, es: seq<Event>, gso: Gso, c: nat, l: Lid)
    requires var st := Run(Booted(ncpu), es0, gso);
             && c < ncpu && l in st.rls && st.rls[l].queue[c].list != []
             && !Run(st, es, gso).exiting && TaskletRuns(st, es, gso, c) >= |st.cbs[c].active|
    ensures Serviced(Run(Booted(ncpu), es0, gso), es, gso, c, l)
  {
    BootedIsAwake(ncpu);
    RunStaysAwake(Booted(ncpu), es0, gso);
    hide Awake, TaskletRuns, Serviced;
    WaitingIsServiced(Run(Booted(ncpu), es0, gso), es, gso, c, l);
  }
}
