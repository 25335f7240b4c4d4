/** Progress over runs of the machine: on one CPU, a class limiter's head that is paid for is sent
    within as many tasklet runs as the active list is long. */
module MachineProgress {
  import opened Params
  import opened Limiter
  import opened QueueBounds
  import opened LimiterOps
  import opened Envelope
  import opened Machine
  import opened MachineEnvelope
  import opened Schedule
  import opened Progress

  // ---- one turn of the tasklet ----

  /** A turn on a class limiter's queue, on any number of CPUs: it sends the head exactly when the queue
      can afford it after the refill. */
  lemma TurnSends(st: State, c: nat, luck: Luck, gso: Gso)
    requires WF(st) && c < |st.cbs| && st.cbs[c].active != []
    requires var l := st.cbs[c].active[0]; l in st.rls && l.Root? && st.rls[l].queue[c].list != []
    ensures var l, st' := st.cbs[c].active[0], ServiceHead(st, c, luck, gso).st;
            var rl := Clocked(st.rls[l], st.clock + luck.dt);
            && l in st'.rls && c < |st'.rls[l].queue|
            && if Affords(rl, c, luck.lock) then Sent(st.rls[l].queue[c], st'.rls[l].queue[c])
               else Saved(rl, st'.rls[l], c, luck.lock)
  {
    hide ServeRoot, Affords, Sent, Saved;
    ServicePrepares(st, c, luck);
    var l := st.cbs[c].active[0];
    var rl := Clocked(st.rls[l], st.clock + luck.dt);
    ServeRootSends(rl, c, luck.lock);
    assert ServiceHead(st, c, luck, gso).st.rls[l] == ServeRoot(rl, c, luck.lock).rl;
  }

  // ---- one CPU ----

  /** The head has left, or it waits, perhaps measured, and is paid for. */
  ghost predicate RipeAt(st: State, l: Lid, q: Queue, measured: bool)
    requires q.list != []
  {
    l in st.rls && Ripe(st.rls[l], q, Head(q), measured)
  }

  lemma ActionsKeepRipe(rl: Rl, ops: seq<Op>, q: Queue, measured: bool)
    requires q.list != [] && Head(q) <= MIN_BURST_BYTES && Ripe(rl, q, Head(q), measured)
    ensures Ripe(DoAll(rl, ops), q, Head(q), measured)
  {
    SavingsKept(rl, ops, q, Head(q), measured);
  }

  lemma AnyState(st: State, es: seq<Event>, gso: Gso)
    ensures AllBounded(st, Anything) && Limits(gso, Anything) && RunWithin(es, Anything)
  {
  }

  lemma StepKeepsRipe(st: State, e: Event, gso: Gso, l: Lid, q: Queue, measured: bool)
    requires WF(st) && q.list != [] && Head(q) <= MIN_BURST_BYTES && RipeAt(st, l, q, measured)
    ensures RipeAt(Step(st, e, gso), l, q, measured)
  {
    hide Ripe, Step;
    AnyState(st, [e], gso);
    assert e in [e];
    var ops := StepOps(st, e, gso, l, Anything);
    ActionsKeepRipe(st.rls[l], ops, q, measured);
  }

  lemma ServiceKeepsRipe(st: State, c: nat, luck: Luck, gso: Gso, l: Lid, q: Queue, measured: bool)
    requires WF(st) && c < |st.cbs| && st.cbs[c].active != []
    requires q.list != [] && Head(q) <= MIN_BURST_BYTES && RipeAt(st, l, q, measured)
    ensures RipeAt(ServiceHead(st, c, luck, gso).st, l, q, measured)
  {
    hide Ripe, ServiceHead;
    AnyState(st, [], gso);
    var ops := ServiceOps(st, c, luck, gso, l, Anything);
    ActionsKeepRipe(st.rls[l], ops, q, measured);
  }

  /** The head has left. */
  ghost predicate SentAt(st: State, l: Lid, q: Queue)
    requires q.list != []
  {
    l in st.rls && |st.rls[l].queue| == 1 && Sent(q, st.rls[l].queue[0])
  }

  lemma ActionsKeepSent(rl: Rl, ops: seq<Op>, q: Queue)
    requires q.list != [] && |rl.queue| == 1 && Sent(q, rl.queue[0])
    ensures |DoAll(rl, ops).queue| == 1 && Sent(q, DoAll(rl, ops).queue[0])
  {
    OnlyAddsDeparted(rl, ops, 0);
    SentStays(q, rl.queue[0], DoAll(rl, ops).queue[0]);
  }

  lemma SweepKeepsSent(st: State, first: Lid, k: nat, sent: nat, lucks: seq<Luck>, gso: Gso, l: Lid, q: Queue)
    requires WF(st) && |st.cbs| == 1 && st.cbs[0].active != [] && k >= 1
    requires q.list != [] && SentAt(st, l, q)
    ensures SentAt(Sweep(st, 0, first, k, sent, lucks, gso).st, l, q)
  {
    hide Sweep, Sent;
    AnyState(st, [], gso);
    var ops := SweepOps(st, 0, first, k, sent, lucks, gso, l, Anything);
    ActionsKeepSent(st.rls[l], ops, q);
  }

  lemma RunKeepsSent(st: State, es: seq<Event>, gso: Gso, l: Lid, q: Queue)
    requires WF(st) && q.list != [] && SentAt(st, l, q)
    ensures SentAt(Run(st, es, gso), l, q)
  {
    hide Run, Sent;
    AnyState(st, es, gso);
    var ops := RunOps(st, es, gso, l, Anything);
    ActionsKeepSent(st.rls[l], ops, q);
  }

  /** The turn itself: a head that is paid for is sent, or measured if it was not. */
  lemma TurnSendsRipe(st: State, luck: Luck, gso: Gso, l: Lid, q: Queue, measured: bool)
    requires WF(st) && |st.cbs| == 1 && st.cbs[0].active != [] && st.cbs[0].active[0] == l && l.Root? && luck.lock
    requires q.list != [] && Head(q) <= MIN_BURST_BYTES && RipeAt(st, l, q, measured)
    ensures var st' := ServiceHead(st, 0, luck, gso).st;
            RipeAt(st', l, q, true) && (measured ==> SentAt(st', l, q))
  {
    hide ServeRoot, Ripe, Sent;
    ServicePrepares(st, 0, luck);
    ActionsKeepRipe(st.rls[l], [Refill(st.clock + luck.dt)], q, measured);
    var rl := Clocked(st.rls[l], st.clock + luck.dt);
    assert DoAll(st.rls[l], [Refill(st.clock + luck.dt)]) == rl;
    RipeIsSent(rl, q, measured);
    assert ServiceHead(st, 0, luck, gso).st.rls[l] == ServeRoot(rl, 0, luck.lock).rl;
  }

  predicate LocksWon(lucks: seq<Luck>) { forall i :: 0 <= i < |lucks| ==> lucks[i].lock }

  lemma SweepKeepsRipe(st: State, first: Lid, k: nat, sent: nat, lucks: seq<Luck>, gso: Gso, l: Lid, q: Queue)
    requires WF(st) && |st.cbs| == 1 && st.cbs[0].active != [] && k >= 1
    requires q.list != [] && Head(q) <= MIN_BURST_BYTES && RipeAt(st, l, q, true)
    ensures RipeAt(Sweep(st, 0, first, k, sent, lucks, gso).st, l, q, true)
  {
    hide Sweep, Ripe;
    AnyState(st, [], gso);
    var ops := SweepOps(st, 0, first, k, sent, lucks, gso, l, Anything);
    ActionsKeepRipe(st.rls[l], ops, q, true);
  }

  /** A tasklet's walk that reaches the queue sends the head, or measures it if it was not. */
  lemma {:induction false} SweepSendsRipe(st: State, first: Lid, k: nat, sent: nat, lucks: seq<Luck>, gso: Gso,
                                          l: Lid, q: Queue, measured: bool)
    requires WF(st) && |st.cbs| == 1 && st.cbs[0].active != [] && k >= 1 && l.Root? && LocksWon(lucks)
    requires q.list != [] && Head(q) <= MIN_BURST_BYTES && RipeAt(st, l, q, measured)
    requires l in Sweep(st, 0, first, k, sent, lucks, gso).serviced
    ensures var st' := Sweep(st, 0, first, k, sent, lucks, gso).st;
            RipeAt(st', l, q, true) && (measured ==> SentAt(st', l, q))
    decreases TASKLET_BUDGET - k
  {
    hide ServiceHead, RipeAt, SentAt, WF;
    var active, luck := st.cbs[0].active, LuckAt(lucks, k - 1);
    ServiceFrame(st, 0, luck, gso);
    var d := ServiceHead(st, 0, luck, gso);
    if active[0] == l {
      TurnSendsRipe(st, luck, gso, l, q, measured);
      if |active| != 1 {
        SweepKeepsRipe(d.st, first, k + 1, sent + d.sum, lucks, gso, l, q);
        if measured {
          SweepKeepsSent(d.st, first, k + 1, sent + d.sum, lucks, gso, l, q);
        }
      }
    } else {
      ServiceKeepsRipe(st, 0, luck, gso, l, q, measured);
      SweepSendsRipe(d.st, first, k + 1, sent + d.sum, lucks, gso, l, q, measured);
    }
  }

  lemma TaskletSendsRipe(st: State, lucks: seq<Luck>, gso: Gso, l: Lid, q: Queue, measured: bool)
    requires WF(st) && |st.cbs| == 1 && l.Root? && LocksWon(lucks)
    requires q.list != [] && Head(q) <= MIN_BURST_BYTES && RipeAt(st, l, q, measured)
    requires l in TaskletRun(st, 0, lucks, gso).serviced
    ensures var st' := TaskletRun(st, 0, lucks, gso).st;
            RipeAt(st', l, q, true) && (measured ==> SentAt(st', l, q))
  {
    hide Sweep, Ripe, Sent;
    var st1 := WithCb(st, 0, st.cbs[0].(pending := false));
    SweepSendsRipe(st1, st1.cbs[0].active[0], 1, 0, lucks, gso, l, q, measured);
  }

  // ---- runs ----

  /** Every tasklet of the run wins the locks it tries, as it must with no other CPU to hold them. */
  predicate Uncontended(es: seq<Event>) {
    forall i :: 0 <= i < |es| && es[i].Tasklet? ==> LocksWon(es[i].lucks)
  }

  lemma RunKeepsRipe(st: State, es: seq<Event>, gso: Gso, l: Lid, q: Queue, measured: bool)
    requires WF(st) && q.list != [] && Head(q) <= MIN_BURST_BYTES && RipeAt(st, l, q, measured)
    ensures RipeAt(Run(st, es, gso), l, q, measured)
  {
    hide Run, Ripe;
    AnyState(st, es, gso);
    var ops := RunOps(st, es, gso, l, Anything);
    ActionsKeepRipe(st.rls[l], ops, q, measured);
  }

  /** A run that services the queue sends the head, or measures it if it was not. */
  lemma {:induction false} ServicedSendsRipe(st: State, es: seq<Event>, gso: Gso, l: Lid, q: Queue, measured: bool)
    requires WF(st) && |st.cbs| == 1 && l.Root? && Uncontended(es) && Serviced(st, es, gso, 0, l)
    requires q.list != [] && Head(q) <= MIN_BURST_BYTES && RipeAt(st, l, q, measured)
    ensures var st' := Run(st, es, gso);
            RipeAt(st', l, q, true) && (measured ==> SentAt(st', l, q))
    decreases |es|
  {
    hide WF, TaskletRun, RipeAt, SentAt, LocksWon, DequeueAt, EnqueuedAt;
    StepFrame(st, es[0], gso);
    var st' := Step(st, es[0], gso);
    if Fires(st, es[0], 0) && l in TaskletRun(st, 0, es[0].lucks, gso).serviced {
      TaskletSendsRipe(st, es[0].lucks, gso, l, q, measured);
      RunKeepsRipe(st', es[1..], gso, l, q, true);
      if measured {
        RunKeepsSent(st', es[1..], gso, l, q);
      }
    } else {
      StepKeepsRipe(st, es[0], gso, l, q, measured);
      hide Step;
      ServicedSendsRipe(st', es[1..], gso, l, q, measured);
    }
  }

  /** On one CPU, once the tokens of a class limiter cover the head of its queue, the head is sent within
      as many tasklet runs as the active list is long if its size has been measured; and if not, within
      two such rounds. Nothing that happens in between can take the tokens away. */
  lemma PaidHeadIsSent(st: State, es: seq<Event>, more: seq<Event>, gso: Gso, l: Lid)
    requires Awake(st) && |st.cbs| == 1 && l in st.rls && l.Root? && st.rls[l].queue[0].list != []
    requires Head(st.rls[l].queue[0]) <= Min(MIN_BURST_BYTES, st.rls[l].queue[0].tokens + st.rls[l].pool)
    requires !Run(st, es, gso).exiting && TaskletRuns(st, es, gso, 0) >= |st.cbs[0].active| && Uncontended(es)
    requires var mid := Run(st, es, gso);
             && !Run(mid, more, gso).exiting && Uncontended(more)
             && TaskletRuns(mid, more, gso, 0) >= |mid.cbs[0].active|
    ensures var q := st.rls[l].queue[0];
            && (q.first == Head(q) ==> SentAt(Run(st, es, gso), l, q))
            && SentAt(Run(Run(st, es, gso), more, gso), l, q)
  {
    var q, measured := st.rls[l].queue[0], st.rls[l].queue[0].first == Head(st.rls[l].queue[0]);
    assert RipeAt(st, l, q, measured);
    var mid := Run(st, es, gso);
    hide Run, TaskletRuns, Serviced, Uncontended;
    WaitingIsServiced(st, es, gso, 0, l);
    ServicedSendsRipe(st, es, gso, l, q, measured);
    RunStaysAwake(st, es, gso);
    if SentAt(mid, l, q) {
      RunKeepsSent(mid, more, gso, l, q);
    } else {
      WaitingIsServiced(mid, more, gso, 0, l);
      ServicedSendsRipe(mid, more, gso, l, q, true);
    }
  }

  /** The same from any point of any run from boot. */
  lemma LifetimePaidHeadIsSent(es0: seq<Event>, es: seq<Event>, more: seq<Event>, gso: Gso, l: Lid)
    requires var st := Run(Booted(1), es0, gso);
             && l in st.rls && l.Root? && st.rls[l].queue[0].list != []
             && Head(st.rls[l].queue[0]) <= Min(MIN_BURST_BYTES, st.rls[l].queue[0].tokens + st.rls[l].pool)
             && TaskletRuns(st, es, gso, 0) >= |st.cbs[0].active| && Uncontended(es)
             && var mid := Run(st, es, gso);
             && TaskletRuns(mid, more, gso, 0) >= |mid.cbs[0].active| && Uncontended(more)
             && !Run(mid, more, gso).exiting
    ensures var st := Run(Booted(1), es0, gso);
            SentAt(Run(Run(st, es, gso), more, gso), l, st.rls[l].queue[0])
  {
    hide Run, TaskletRuns, Uncontended, Awake;
    BootedIsAwake(1);
    RunStaysAwake(Booted(1), es0, gso);
    PaidHeadIsSent(Run(Booted(1), es0, gso), es, more, gso, l);
  }
}
