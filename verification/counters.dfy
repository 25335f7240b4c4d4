/** The byte counters that rates are sampled from never run backwards, on any run of the machine. */
module Counters {
  import opened Params
  import opened Limiter
  import opened LimiterOps
  import opened Envelope
  import opened Machine
  import opened MachineEnvelope

  /** No CPU's queue of the limiter has sent less than before. */
  ghost predicate Grew(qs: seq<Queue>, qs': seq<Queue>) {
    |qs'| == |qs| && forall c :: 0 <= c < |qs| ==> qs[c].xmit <= qs'[c].xmit
  }

  lemma {:induction false} OpsGrow(rl: Rl, ops: seq<Op>)
    ensures Grew(rl.queue, DoAll(rl, ops).queue)
    decreases |ops|
  {
    if ops != [] {
      assert Grew(rl.queue, Do(rl, ops[0]).queue);
      hide Do;
      OpsGrow(Do(rl, ops[0]), ops[1..]);
    }
  }

  lemma {:induction false} SumGrows(qs: seq<Queue>, qs': seq<Queue>)
    requires Grew(qs, qs')
    ensures SumXmit(qs) <= SumXmit(qs')
    decreases |qs|
  {
    if qs != [] {
      assert Grew(qs[1..], qs'[1..]);
      SumGrows(qs[1..], qs'[1..]);
    }
  }

  /** No CPU's queue of any limiter has ever sent less than before. */
  lemma LimiterCountersGrow(st: State, es: seq<Event>, gso: Gso, m: Lid)
    requires WF(st) && m in st.rls
    ensures Grew(st.rls[m].queue, Run(st, es, gso).rls[m].queue)
  {
    assert RunWithin(es, Anything) && AllBounded(st, Anything) && Limits(gso, Anything);
    var ops := RunOps(st, es, gso, m, Anything);
    OpsGrow(st.rls[m], ops);
  }

  /** `iso_rl_accum` reads a total that only grows. */
  lemma LimiterTotalGrows(st: State, es: seq<Event>, gso: Gso, m: Lid)
    requires WF(st) && m in st.rls
    ensures SumXmit(st.rls[m].queue) <= SumXmit(Run(st, es, gso).rls[m].queue)
  {
    LimiterCountersGrow(st, es, gso, m);
    SumGrows(st.rls[m].queue, Run(st, es, gso).rls[m].queue);
  }

  /** No CPU has transmitted less than before. */
  ghost predicate Sent(st: State, st': State) {
    |st'.cbs| == |st.cbs| && forall c :: 0 <= c < |st.cbs| ==> st.cbs[c].txBytes <= st'.cbs[c].txBytes
  }

  lemma DequeueSends(st: State, l: Lid, c: nat, luck: Luck, gso: Gso)
    requires WF(st) && l in st.rls && c < |st.cbs|
    ensures Sent(st, DequeueAt(st, l, c, luck, gso).st)
  {
    hide ServeRoot, ServeChild, Out, Bytes;
  }

  lemma ServiceSends(st: State, c: nat, luck: Luck, gso: Gso)
    requires WF(st) && c < |st.cbs| && st.cbs[c].active != []
    ensures Sent(st, ServiceHead(st, c, luck, gso).st)
  {
    hide DequeueAt, Clocked;
    ServicePrepares(st, c, luck);
    DequeueSends(ClockedAt(Popped(Advanced(st, luck.dt), c), st.cbs[c].active[0]), st.cbs[c].active[0], c, luck, gso);
  }

  lemma {:induction false} SweepSends(st: State, c: nat, first: Lid, k: nat, sent: nat, lucks: seq<Luck>, gso: Gso)
    requires WF(st) && c < |st.cbs| && st.cbs[c].active != [] && k >= 1
    ensures Sent(st, Sweep(st, c, first, k, sent, lucks, gso).st)
    decreases TASKLET_BUDGET - k
  {
    hide ServiceHead, WF;
    var active := st.cbs[c].active;
    if !StopsBefore(active, first, k, sent) {
      ServiceFrame(st, c, LuckAt(lucks, k - 1), gso);
      ServiceSends(st, c, LuckAt(lucks, k - 1), gso);
      var d := ServiceHead(st, c, LuckAt(lucks, k - 1), gso);
      if |active| != 1 {
        SweepSends(d.st, c, first, k + 1, sent + d.sum, lucks, gso);
      }
    }
  }

  lemma StepSends(st: State, e: Event, gso: Gso)
    requires WF(st)
    ensures Sent(st, Step(st, e, gso))
  {
    hide DequeueAt, Enqueued, Sweep;
    match e {
      case Tx(l, c, p, luck) =>
        if l in st.rls && l.Dest? && c < |st.cbs| {
          EnqueueFrame(Advanced(st, luck.dt), l, c, p, gso);
          DequeueSends(EnqueuedAt(Advanced(st, luck.dt), l, c, p, gso), l, c, luck, gso);
        }
      case Tasklet(c, lucks) =>
        if c < |st.cbs| && st.cbs[c].pending {
          var st1 := WithCb(st, c, st.cbs[c].(pending := false));
          if !st.exiting && st1.cbs[c].active != [] {
            SweepSends(st1, c, st1.cbs[c].active[0], 1, 0, lucks, gso);
          }
        }
      case _ =>
    }
  }

  /** `iso_txctx_accum` adds up counters that only grow. */
  lemma {:induction false} DeviceCountersGrow(st: State, es: seq<Event>, gso: Gso)
    requires WF(st)
    ensures Sent(st, Run(st, es, gso))
    decreases |es|
  {
    if es != [] {
      StepSends(st, es[0], gso);
      StepFrame(st, es[0], gso);
      hide Step, WF;
      DeviceCountersGrow(Step(st, es[0], gso), es[1..], gso);
    }
  }
}
