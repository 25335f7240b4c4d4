/** The transmit side of one device: all limiters, the per-CPU control blocks (`struct
    iso_rl_cb`), and one step for every softirq, timer or configuration body that touches them. */
module Machine {
  import opened Params
  import opened Limiter
  import opened QueueBounds

  /** `wire` is what `skb_xmit` has been given on this CPU; `txBytes` is tx_bytes. */
  datatype Cb = Cb(active: seq<Lid>, armed: bool, pending: bool, txBytes: nat, wire: seq<Packet>)

  datatype State = State(rls: map<Lid, Rl>, cbs: seq<Cb>, clock: nat, exiting: bool)

  /** What a dequeue cannot choose: the time since the previous one, and who wins each
      `spin_trylock`. */
  datatype Luck = Luck(dt: nat, lock: bool, rootLock: bool)

  ghost predicate WF(st: State) {
    && (forall l :: l in st.rls ==> |st.rls[l].queue| == |st.cbs|)
    && (forall l :: l in st.rls && l.Dest? ==> Root(l.cls) in st.rls)
    && (forall c, l :: 0 <= c < |st.cbs| && l in st.cbs[c].active ==> l in st.rls)
  }

  function Booted(ncpu: nat): State {
    State(map[], seq(ncpu, i => Cb([], false, false, 0, [])), 0, false)
  }

  // ---- iso_rl_dequeue ----

  /** `list_add_tail` unless already listed, and `hrtimer_start` unless already running. */
  function Activated(cb: Cb, l: Lid): Cb {
    cb.(active := if l in cb.active then cb.active else cb.active + [l], armed := true)
  }

  function Rescheduled(cb: Cb, l: Lid, timeout: bool, exiting: bool): Cb {
    if timeout && !exiting then Activated(cb, l) else cb
  }

  /** The packets that left `q` on the way to `q'`. */
  function Out(q: Queue, q': Queue): seq<Packet> {
    if |q.departed| <= |q'.departed| then q'.departed[|q.departed|..] else []
  }

  function Transmitted(cb: Cb, out: seq<Packet>): Cb {
    cb.(wire := cb.wire + out, txBytes := cb.txBytes + Bytes(out))
  }

  datatype RootDone = RootDone(root: Rl, cb: Cb, sum: nat)

  function RootStep(root: Rl, id: Lid, cb: Cb, c: nat, lock: bool, exiting: bool): (r: RootDone)
    requires c < |root.queue|
    ensures |r.root.queue| == |root.queue|
  {
    var s := ServeRoot(root, c, lock);
    RootDone(s.rl,
             Rescheduled(Transmitted(cb, Out(root.queue[c], s.rl.queue[c])), id, s.timeout, exiting),
             s.sum)
  }

  datatype ChildDone = ChildDone(rl: Rl, root: Rl, cb: Cb, sum: nat)

  function ChildStep(rl: Rl, root: Rl, id: Lid, cb: Cb, c: nat, now: nat, luck: Luck, exiting: bool, gso: Gso)
    : (r: ChildDone)
    requires c < |rl.queue| && c < |root.queue|
    ensures |r.rl.queue| == |rl.queue| && |r.root.queue| == |root.queue|
  {
    var s := ServeChild(rl, root, c, now, luck.lock, gso);
    if s.blocked then ChildDone(s.rl, s.root, Rescheduled(cb, id, true, exiting), 0)
    else
      var r := RootStep(s.root, Root(id.cls), cb, c, luck.rootLock, exiting);
      ChildDone(s.rl, r.root, Rescheduled(r.cb, id, s.timeout, exiting), s.sum)
  }

  datatype Dequeued = Dequeued(st: State, sum: nat)

  /** `iso_rl_dequeue` on CPU `c`'s queue of limiter `l`. */
  function DequeueAt(st: State, l: Lid, c: nat, luck: Luck, gso: Gso): (r: Dequeued)
    requires WF(st) && l in st.rls && c < |st.cbs|
  {
    if l.Root? then
      var r := RootStep(st.rls[l], l, st.cbs[c], c, luck.lock, st.exiting);
      Dequeued(st.(rls := st.rls[l := r.root], cbs := st.cbs[c := r.cb]), r.sum)
    else
      var r := ChildStep(st.rls[l], st.rls[Root(l.cls)], l, st.cbs[c], c, st.clock, luck, st.exiting, gso);
      Dequeued(st.(rls := st.rls[l := r.rl][Root(l.cls) := r.root], cbs := st.cbs[c := r.cb]), r.sum)
  }

  lemma RescheduleGrows(cb: Cb, l: Lid, timeout: bool, exiting: bool)
    ensures cb.active <= Rescheduled(cb, l, timeout, exiting).active
    ensures forall m :: m in Rescheduled(cb, l, timeout, exiting).active ==> m in cb.active || m == l
  {
  }

  lemma RootActiveGrows(root: Rl, id: Lid, cb: Cb, c: nat, lock: bool, exiting: bool)
    requires c < |root.queue|
    ensures var a := RootStep(root, id, cb, c, lock, exiting).cb.active;
            cb.active <= a && forall m :: m in a ==> m in cb.active || m == id
  {
    var s := ServeRoot(root, c, lock);
    RescheduleGrows(Transmitted(cb, Out(root.queue[c], s.rl.queue[c])), id, s.timeout, exiting);
  }

  /** A dequeue adds at most its own queue and its class limiter's, at the tail. */
  lemma ActiveGrows(rl: Rl, root: Rl, id: Lid, cb: Cb, c: nat, now: nat, luck: Luck, exiting: bool, gso: Gso)
    requires c < |rl.queue| && c < |root.queue|
    ensures var a := ChildStep(rl, root, id, cb, c, now, luck, exiting, gso).cb.active;
            cb.active <= a && forall m :: m in a ==> m in cb.active || m == id || m == Root(id.cls)
  {
    var s := ServeChild(rl, root, c, now, luck.lock, gso);
    if s.blocked {
      RescheduleGrows(cb, id, true, exiting);
    } else {
      var r := RootStep(s.root, Root(id.cls), cb, c, luck.rootLock, exiting);
      RootActiveGrows(s.root, Root(id.cls), cb, c, luck.rootLock, exiting);
      RescheduleGrows(r.cb, id, s.timeout, exiting);
    }
  }

  lemma StoreKeepsWF(st: State, l: Lid, rl: Rl, c: nat, cb: Cb)
    requires WF(st) && l in st.rls && c < |st.cbs| && |rl.queue| == |st.cbs|
    requires forall m :: m in cb.active ==> m in st.rls
    ensures WF(st.(rls := st.rls[l := rl], cbs := st.cbs[c := cb]))
  {
  }

  /** What surrounds a dequeue stays put, and the active list only grows at its tail. */
  lemma DequeueFrame(st: State, l: Lid, c: nat, luck: Luck, gso: Gso)
    requires WF(st) && l in st.rls && c < |st.cbs|
    ensures var r := DequeueAt(st, l, c, luck, gso).st;
            && WF(r)
            && r.rls.Keys == st.rls.Keys && |r.cbs| == |st.cbs|
            && r.clock == st.clock && r.exiting == st.exiting
            && st.cbs[c].active <= r.cbs[c].active
            && (forall j :: 0 <= j < |st.cbs| && j != c ==> r.cbs[j] == st.cbs[j])
            && (forall m :: m in st.rls && m != l && (l.Dest? ==> m != Root(l.cls)) ==> r.rls[m] == st.rls[m])
  {
    hide RootStep, ChildStep;
    if l.Root? {
      RootActiveGrows(st.rls[l], l, st.cbs[c], c, luck.lock, st.exiting);
      var r := RootStep(st.rls[l], l, st.cbs[c], c, luck.lock, st.exiting);
      StoreKeepsWF(st, l, r.root, c, r.cb);
    } else {
      ActiveGrows(st.rls[l], st.rls[Root(l.cls)], l, st.cbs[c], c, st.clock, luck, st.exiting, gso);
      var r := ChildStep(st.rls[l], st.rls[Root(l.cls)], l, st.cbs[c], c, st.clock, luck, st.exiting, gso);
      StoreKeepsWF(st, l, r.rl, c, r.cb);
      StoreKeepsWF(st.(rls := st.rls[l := r.rl], cbs := st.cbs[c := r.cb]), Root(l.cls), r.root, c, r.cb);
      assert st.cbs[c := r.cb][c := r.cb] == st.cbs[c := r.cb];
    }
  }

  // ---- iso_rl_xmit_tasklet ----

  function Advanced(st: State, dt: nat): State { st.(clock := st.clock + dt) }

  /** `list_del_init` of the head of the active list. */
  function Popped(st: State, c: nat): State
    requires c < |st.cbs| && st.cbs[c].active != []
  {
    st.(cbs := st.cbs[c := st.cbs[c].(active := st.cbs[c].active[1..])])
  }

  function ClockedAt(st: State, l: Lid): State
    requires l in st.rls
  {
    st.(rls := st.rls[l := Clocked(st.rls[l], st.clock)])
  }

  lemma ServicePrepares(st: State, c: nat, luck: Luck)
    requires WF(st) && c < |st.cbs| && st.cbs[c].active != []
    ensures st.cbs[c].active[0] in st.rls
    ensures WF(ClockedAt(Popped(Advanced(st, luck.dt), c), st.cbs[c].active[0]))
  {
    assert st.cbs[c].active[0] in st.cbs[c].active;
  }

  /** One turn of the tasklet: the head comes off the list, is clocked and dequeued. */
  function ServiceHead(st: State, c: nat, luck: Luck, gso: Gso): Dequeued
    requires WF(st) && c < |st.cbs| && st.cbs[c].active != []
  {
    var l := st.cbs[c].active[0];
    ServicePrepares(st, c, luck);
    DequeueAt(ClockedAt(Popped(Advanced(st, luck.dt), c), l), l, c, luck, gso)
  }

  lemma ServiceFrame(st: State, c: nat, luck: Luck, gso: Gso)
    requires WF(st) && c < |st.cbs| && st.cbs[c].active != []
    ensures var r := ServiceHead(st, c, luck, gso).st;
            && WF(r)
            && r.rls.Keys == st.rls.Keys && |r.cbs| == |st.cbs|
            && r.exiting == st.exiting && st.clock <= r.clock
            && st.cbs[c].active[1..] <= r.cbs[c].active
            && (forall j :: 0 <= j < |st.cbs| && j != c ==> r.cbs[j] == st.cbs[j])
  {
    var l := st.cbs[c].active[0];
    ServicePrepares(st, c, luck);
    DequeueFrame(ClockedAt(Popped(Advanced(st, luck.dt), c), l), l, c, luck, gso);
  }

  datatype Swept = Swept(st: State, serviced: seq<Lid>)

  function LuckAt(lucks: seq<Luck>, k: nat): Luck {
    if k < |lucks| then lucks[k] else Luck(0, true, true)
  }

  /** The guard the tasklet tests before its k-th turn (k from 1): the walk has come round to
      where it started, the budget is spent (the counter advances twice a turn), or enough was sent. */
  predicate StopsBefore(active: seq<Lid>, first: Lid, k: nat, sent: nat) {
    || (|active| > 1 && active[1] == first)
    || 2 * k - 1 > TASKLET_BUDGET
    || sent > 2 * MIN_BURST_BYTES
  }

  /** `list_for_each_entry_safe` over the active list. Every turn takes the entry it is at off the
      list and re-adds only at the tail, so the walk is always at the head; it ends when the entry
      had no successor before its turn. */
  function Sweep(st: State, c: nat, first: Lid, k: nat, sent: nat, lucks: seq<Luck>, gso: Gso): (r: Swept)
    requires WF(st) && c < |st.cbs| && st.cbs[c].active != [] && k >= 1
    ensures |r.st.cbs| == |st.cbs|
    decreases TASKLET_BUDGET - k
  {
    var active := st.cbs[c].active;
    if StopsBefore(active, first, k, sent) then Swept(st, [])
    else
      ServiceFrame(st, c, LuckAt(lucks, k - 1), gso);
      var d := ServiceHead(st, c, LuckAt(lucks, k - 1), gso);
      if |active| == 1 then Swept(d.st, [active[0]])
      else
        var rest := Sweep(d.st, c, first, k + 1, sent + d.sum, lucks, gso);
        Swept(rest.st, [active[0]] + rest.serviced)
  }

  lemma {:induction false} SweepFrame(st: State, c: nat, first: Lid, k: nat, sent: nat, lucks: seq<Luck>, gso: Gso)
    requires WF(st) && c < |st.cbs| && st.cbs[c].active != [] && k >= 1
    ensures var r := Sweep(st, c, first, k, sent, lucks, gso).st;
            && WF(r)
            && r.rls.Keys == st.rls.Keys && |r.cbs| == |st.cbs|
            && r.exiting == st.exiting && st.clock <= r.clock
            && (forall j :: 0 <= j < |st.cbs| && j != c ==> r.cbs[j] == st.cbs[j])
    decreases TASKLET_BUDGET - k
  {
    hide ServiceHead;
    var active := st.cbs[c].active;
    if !StopsBefore(active, first, k, sent) {
      ServiceFrame(st, c, LuckAt(lucks, k - 1), gso);
      var d := ServiceHead(st, c, LuckAt(lucks, k - 1), gso);
      if |active| != 1 {
        SweepFrame(d.st, c, first, k + 1, sent + d.sum, lucks, gso);
      }
    }
  }

  function WithCb(st: State, c: nat, cb: Cb): State
    requires c < |st.cbs|
  {
    st.(cbs := st.cbs[c := cb])
  }

  /** A run of the tasklet. */
  function TaskletRun(st0: State, c: nat, lucks: seq<Luck>, gso: Gso): (r: Swept)
    requires WF(st0) && c < |st0.cbs|
    ensures |r.st.cbs| == |st0.cbs|
  {
    var st := WithCb(st0, c, st0.cbs[c].(pending := false));
    if st.exiting || st.cbs[c].active == [] then Swept(st, [])
    else
      var s := Sweep(st, c, st.cbs[c].active[0], 1, 0, lucks, gso);
      if s.st.cbs[c].active != [] then Swept(WithCb(s.st, c, s.st.cbs[c].(armed := true)), s.serviced)
      else s
  }

  // ---- the machine ----

  datatype Event =
    | Tx(l: Lid, c: nat, p: Packet, luck: Luck)     // iso_tx found destination limiter l
    | Timer(c: nat)                                 // iso_rl_timeout
    | Tasklet(c: nat, lucks: seq<Luck>)             // iso_rl_xmit_tasklet
    | Retune(l: Lid, rate: nat)                     // iso_txc_tick or iso_txc_recompute_rates
    | Feedback(l: Lid, rate: nat)                   // iso_rx accepted an advertised rate
    | Create(l: Lid)                                // iso_rl_init
    | Advance(dt: nat)
    | Exit

  function EnqueuedAt(st: State, l: Lid, c: nat, p: Packet, gso: Gso): State
    requires WF(st) && l in st.rls && c < |st.cbs|
  {
    st.(rls := st.rls[l := Enqueued(st.rls[l], c, p.(flow := l), st.clock, false, gso).rl])
  }

  lemma EnqueueFrame(st: State, l: Lid, c: nat, p: Packet, gso: Gso)
    requires WF(st) && l in st.rls && c < |st.cbs|
    ensures WF(EnqueuedAt(st, l, c, p, gso))
  {
    EnqueuedKeepsShape(st.rls[l], c, p.(flow := l), st.clock, false, gso);
  }

  function Step(st: State, e: Event, gso: Gso): (st': State)
    requires WF(st)
  {
    match e
    case Tx(l, c, p, luck) =>
      if l in st.rls && l.Dest? && c < |st.cbs| then
        var st1 := Advanced(st, luck.dt);
        EnqueueFrame(st1, l, c, p, gso);
        DequeueAt(EnqueuedAt(st1, l, c, p, gso), l, c, luck, gso).st
      else st
    case Timer(c) =>
      if c < |st.cbs| && st.cbs[c].armed then WithCb(st, c, st.cbs[c].(armed := false, pending := true)) else st
    case Tasklet(c, lucks) =>
      if c < |st.cbs| && st.cbs[c].pending then TaskletRun(st, c, lucks, gso).st else st
    case Retune(l, rate) =>
      if l in st.rls then st.(rls := st.rls[l := st.rls[l].(rate := rate)]) else st
    case Feedback(l, rate) =>
      if l in st.rls then st.(rls := st.rls[l := st.rls[l].(rate := rate, lastRate := st.clock)]) else st
    case Create(l) =>
      if l !in st.rls && (l.Dest? ==> Root(l.cls) in st.rls)
      then st.(rls := st.rls[l := NewRl(|st.cbs|, st.clock)]) else st
    case Advance(dt) => Advanced(st, dt)
    case Exit => st.(exiting := true)
  }

  lemma TaskletFrame(st: State, c: nat, lucks: seq<Luck>, gso: Gso)
    requires WF(st) && c < |st.cbs|
    ensures var st' := TaskletRun(st, c, lucks, gso).st;
            && WF(st') && st'.rls.Keys == st.rls.Keys && |st'.cbs| == |st.cbs|
            && st'.exiting == st.exiting && st.clock <= st'.clock
  {
    hide Sweep;
    var st1 := WithCb(st, c, st.cbs[c].(pending := false));
    if !st.exiting && st1.cbs[c].active != [] {
      SweepFrame(st1, c, st1.cbs[c].active[0], 1, 0, lucks, gso);
    }
  }

  lemma TxFrame(st: State, l: Lid, c: nat, p: Packet, luck: Luck, gso: Gso)
    requires WF(st) && l in st.rls && c < |st.cbs|
    ensures var st1 := Advanced(st, luck.dt);
            && WF(EnqueuedAt(st1, l, c, p, gso))
            && var st' := DequeueAt(EnqueuedAt(st1, l, c, p, gso), l, c, luck, gso).st;
            && WF(st') && st'.rls.Keys == st.rls.Keys && |st'.cbs| == |st.cbs|
            && st'.exiting == st.exiting && st.clock <= st'.clock
  {
    hide DequeueAt, Enqueued;
    var st1 := Advanced(st, luck.dt);
    EnqueueFrame(st1, l, c, p, gso);
    DequeueFrame(EnqueuedAt(st1, l, c, p, gso), l, c, luck, gso);
  }

  /** Every step keeps the machine well formed, forgets no limiter and never un-exits;
      the clock never goes back. */
  lemma StepFrame(st: State, e: Event, gso: Gso)
    requires WF(st)
    ensures var st' := Step(st, e, gso);
            && WF(st') && st.rls.Keys <= st'.rls.Keys && |st'.cbs| == |st.cbs|
            && (st.exiting ==> st'.exiting) && st.clock <= st'.clock
  {
    hide DequeueAt, EnqueuedAt, TaskletRun;
    match e {
      case Tx(l, c, p, luck) =>
        if l in st.rls && l.Dest? && c < |st.cbs| { TxFrame(st, l, c, p, luck, gso); }
      case Tasklet(c, lucks) =>
        if c < |st.cbs| && st.cbs[c].pending { TaskletFrame(st, c, lucks, gso); }
      case _ =>
    }
  }

  function Run(st: State, es: seq<Event>, gso: Gso): (st': State)
    requires WF(st)
    ensures WF(st') && st.rls.Keys <= st'.rls.Keys && |st'.cbs| == |st.cbs|
    ensures (st.exiting ==> st'.exiting) && st.clock <= st'.clock
    decreases |es|
  {
    if es == [] then st
    else
      StepFrame(st, es[0], gso);
      Run(Step(st, es[0], gso), es[1..], gso)
  }
}
