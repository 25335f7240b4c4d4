/** The device's limiters and control blocks as one heap of objects: `iso_tx` from the limiter on,
    and the tasklet with its safe list walk. Both are proved to be the steps of `Machine`. */
module TxPathObjects {
  import opened Params
  import opened Limiter
  import opened Machine
  import opened LimiterObjects

  datatype Cursor = AtEnd | At(l: Lid)

  /** The entry after `x` in a list (`x->next`), or the list head itself. */
  function Next(list: seq<Lid>, x: Lid): Cursor {
    if |list| < 2 then AtEnd else if list[0] == x then At(list[1]) else Next(list[1..], x)
  }

  /** `list_del_init` */
  function Unlinked(list: seq<Lid>, x: Lid): seq<Lid> {
    if list == [] then [] else if list[0] == x then list[1..] else [list[0]] + Unlinked(list[1..], x)
  }

  /** The machine once a packet has been offered to limiter `l` at a later time. */
  ghost function Offered(st: State, l: Lid, rl: Rl, dt: nat): State {
    State(st.rls[l := rl], st.cbs, st.clock + dt, st.exiting)
  }

  lemma OfferThenDequeue(st: State, l: Lid, c: nat, p: Packet, luck: Luck, gso: Gso)
    requires WF(st) && l in st.rls && l.Dest? && c < |st.cbs|
    ensures c < |st.rls[l].queue|
    ensures var rl := Enqueued(st.rls[l], c, p.(flow := l), st.clock + luck.dt, false, gso).rl;
            var st2 := Offered(st, l, rl, luck.dt);
            WF(st2) && Step(st, Tx(l, c, p, luck), gso) == DequeueAt(st2, l, c, luck, gso).st
  {
    hide DequeueAt, Enqueued;
    EnqueueFrame(Advanced(st, luck.dt), l, c, p, gso);
    assert EnqueuedAt(Advanced(st, luck.dt), l, c, p, gso)
        == Offered(st, l, Enqueued(st.rls[l], c, p.(flow := l), st.clock + luck.dt, false, gso).rl, luck.dt);
  }

  /** Servicing the head leaves its successor at the head. */
  lemma SuccessorSurvives(st: State, c: nat, luck: Luck, gso: Gso)
    requires WF(st) && c < |st.cbs| && st.cbs[c].active != []
    ensures var active, r := st.cbs[c].active, ServiceHead(st, c, luck, gso).st;
            |r.cbs| == |st.cbs| && (|active| > 1 ==> r.cbs[c].active != [] && r.cbs[c].active[0] == active[1])
  {
    ServiceFrame(st, c, luck, gso);
    hide ServiceHead;
    if |st.cbs[c].active| > 1 {
      assert st.cbs[c].active[1..][0] == st.cbs[c].active[1];
    }
  }

  lemma FlagsKeepWF(st: State, c: nat, armed: bool, pending: bool)
    requires WF(st) && c < |st.cbs|
    ensures WF(WithCb(st, c, st.cbs[c].(armed := armed, pending := pending)))
  {
  }

  /** The continuation of a walk that has already serviced `done`. */
  ghost function Resumed(done: seq<Lid>, rest: Swept): Swept { Swept(rest.st, done + rest.serviced) }

  function Successor(list: seq<Lid>): Cursor { if |list| > 1 then At(list[1]) else AtEnd }

  lemma SweepStops(st: State, c: nat, first: Lid, k: nat, sent: nat, lucks: seq<Luck>, gso: Gso)
    requires WF(st) && c < |st.cbs| && st.cbs[c].active != [] && k >= 1
    requires StopsBefore(st.cbs[c].active, first, k, sent)
    ensures Sweep(st, c, first, k, sent, lucks, gso) == Swept(st, [])
  {
  }

  /** One turn of the walk, resumed from what was serviced before; the successor survives the turn. */
  lemma SweepTurn(st: State, c: nat, first: Lid, k: nat, sent: nat, lucks: seq<Luck>, gso: Gso, done: seq<Lid>)
    requires WF(st) && c < |st.cbs| && st.cbs[c].active != [] && k >= 1
    requires !StopsBefore(st.cbs[c].active, first, k, sent)
    ensures var d := ServiceHead(st, c, LuckAt(lucks, k - 1), gso);
            var active := st.cbs[c].active;
            && WF(d.st) && |d.st.cbs| == |st.cbs|
            && (|active| > 1 ==> d.st.cbs[c].active != [])
            && Resumed(done, Sweep(st, c, first, k, sent, lucks, gso))
                 == if |active| == 1 then Swept(d.st, done + [active[0]])
                    else Resumed(done + [active[0]], Sweep(d.st, c, first, k + 1, sent + d.sum, lucks, gso))
  {
    hide ServiceHead, WF;
    ServiceFrame(st, c, LuckAt(lucks, k - 1), gso);
    var d := ServiceHead(st, c, LuckAt(lucks, k - 1), gso);
    var active := st.cbs[c].active;
    if |active| > 1 {
      assert active[1..][0] == active[1];
      var rest := Sweep(d.st, c, first, k + 1, sent + d.sum, lucks, gso);
      assert done + ([active[0]] + rest.serviced) == done + [active[0]] + rest.serviced;
    }
  }

  class TxPath {
    const rls: map<Lid, RateLimiter>
    const cbs: seq<ControlBlock>
    var clock: nat
    var exiting: bool

    ghost const limiters: set<RateLimiter>
    ghost const blocks: set<ControlBlock>

    /** Each limiter knows its name and its class limiter, each control block its CPU, so no two
        entries are the same object. None of this can change. */
    ghost predicate Wired() {
      && (forall l :: l in rls ==> rls[l].id == l && rls[l] in limiters)
      && (forall l :: l in rls && l.Root? ==> rls[l].parent == null)
      && (forall l :: l in rls && l.Dest? ==> Root(l.cls) in rls && rls[l].parent == rls[Root(l.cls)])
      && (forall i :: 0 <= i < |cbs| ==> cbs[i].cpu == i && cbs[i] in blocks)
    }

    ghost function RlViews(): map<Lid, Rl>
      requires Wired()
      reads limiters
    {
      map l | l in rls :: rls[l].View()
    }

    ghost function CbViews(): (s: seq<Cb>)
      requires Wired()
      reads blocks
      ensures |s| == |cbs|
    {
      seq(|cbs|, i requires 0 <= i < |cbs| reads blocks => cbs[i].View())
    }

    ghost function View(): State
      requires Wired()
      reads this, limiters, blocks
    {
      State(RlViews(), CbViews(), clock, exiting)
    }

    /** The objects are wired up and the machine they amount to is well formed. */
    ghost predicate Valid()
      reads this, limiters, blocks
    {
      Wired() && WF(View())
    }

    constructor (rls: map<Lid, RateLimiter>, cbs: seq<ControlBlock>)
      requires forall l :: l in rls ==> rls[l].id == l
      requires forall l :: l in rls && l.Root? ==> rls[l].parent == null
      requires forall l :: l in rls && l.Dest? ==> Root(l.cls) in rls && rls[l].parent == rls[Root(l.cls)]
      requires forall i :: 0 <= i < |cbs| ==> cbs[i].cpu == i
      ensures this.rls == rls && this.cbs == cbs && clock == 0 && !exiting && Wired()
    {
      this.rls, this.cbs := rls, cbs;
      limiters, blocks := set l | l in rls :: rls[l], set i | 0 <= i < |cbs| :: cbs[i];
      clock, exiting := 0, false;
    }

    lemma RlViewAt(l: Lid)
      requires Wired() && l in rls
      ensures rls[l] in limiters && l in View().rls && View().rls[l] == rls[l].View()
    {
    }

    lemma CbViewAt(c: nat)
      requires Wired() && c < |cbs|
      ensures View().cbs[c] == cbs[c].View()
    {
    }

    /** `iso_rl_dequeue` on a class limiter, from the device's point of view. */
    method DequeueRootQueue(l: Lid, c: nat, luck: Luck, gso: Gso) returns (sum: nat)
      requires Wired() && l in rls && l.Root? && c < |cbs| && c < |rls[l].queue|
      modifies rls[l], cbs[c]
      ensures var r := RootStep(old(rls[l].View()), l, old(cbs[c].View()), c, luck.lock, exiting);
              && sum == r.sum
              && RlViews() == old(RlViews())[l := r.root]
              && CbViews() == old(CbViews())[c := r.cb]
    {
      hide RootStep;
      sum := rls[l].Dequeue(c, cbs[c], clock, luck, exiting, gso);
    }

    method DequeueDestQueue(l: Lid, c: nat, luck: Luck, gso: Gso) returns (sum: nat)
      requires Wired() && l in rls && l.Dest? && c < |cbs| && c < |rls[l].queue| && c < |rls[Root(l.cls)].queue|
      modifies rls[l], rls[Root(l.cls)], cbs[c]
      ensures var r := ChildStep(old(rls[l].View()), old(rls[Root(l.cls)].View()), l, old(cbs[c].View()), c, clock,
                                 luck, exiting, gso);
              && sum == r.sum
              && RlViews() == old(RlViews())[l := r.rl][Root(l.cls) := r.root]
              && CbViews() == old(CbViews())[c := r.cb]
    {
      hide ChildStep;
      sum := rls[l].Dequeue(c, cbs[c], clock, luck, exiting, gso);
    }

    /** `iso_rl_dequeue` */
    method DequeueQueue(l: Lid, c: nat, luck: Luck, gso: Gso) returns (sum: nat)
      requires Valid() && l in rls && c < |cbs|
      modifies limiters, blocks
      ensures Dequeued(View(), sum) == DequeueAt(old(View()), l, c, luck, gso)
      ensures Valid()
    {
      hide RootStep, ChildStep, RlViews, CbViews;
      RlViewAt(l);
      CbViewAt(c);
      DequeueFrame(View(), l, c, luck, gso);
      if l.Root? {
        sum := DequeueRootQueue(l, c, luck, gso);
      } else {
        RlViewAt(Root(l.cls));
        sum := DequeueDestQueue(l, c, luck, gso);
      }
    }

    /** `iso_rl_clock` on one limiter. */
    method ClockLimiter(l: Lid)
      requires Wired() && l in rls
      modifies rls[l]
      ensures CbViews() == old(CbViews())
      ensures RlViews() == old(RlViews())[l := Clocked(old(rls[l].View()), clock)]
    {
      rls[l].Clock(clock);
    }

    /** `list_del_init` on one CPU's active list. */
    method Unlink(c: nat, l: Lid)
      requires Wired() && c < |cbs|
      modifies cbs[c]
      ensures RlViews() == old(RlViews())
      ensures CbViews() == old(CbViews())[c := old(cbs[c].View()).(active := Unlinked(old(cbs[c].active), l))]
    {
      cbs[c].active := Unlinked(cbs[c].active, l);
    }

    /** The body of the tasklet's loop up to the dequeue: take `q` off the list and clock it. */
    method PrepareQueue(q: Lid, c: nat, dt: nat)
      requires Wired() && c < |cbs| && q in rls && cbs[c].active != [] && q == cbs[c].active[0]
      modifies this`clock, rls[q], cbs[c]
      ensures exiting == old(exiting)
      ensures View() == ClockedAt(Popped(Advanced(old(View()), dt), c), q)
    {
      hide Clocked, RlViews, CbViews, Wired;
      RlViewAt(q);
      CbViewAt(c);
      clock := clock + dt;
      Unlink(c, q);
      ClockLimiter(q);
    }

    /** The body of the tasklet's loop: take `q` off the list, clock it, dequeue it. */
    method ServiceQueue(q: Lid, c: nat, luck: Luck, gso: Gso) returns (sum: nat)
      requires Valid() && c < |cbs| && cbs[c].active != [] && q == cbs[c].active[0]
      modifies this`clock, limiters, blocks
      ensures Valid() && exiting == old(exiting)
      ensures Dequeued(View(), sum) == ServiceHead(old(View()), c, luck, gso)
    {
      assert View().cbs[c] == cbs[c].View();
      ServicePrepares(View(), c, luck);
      hide DequeueAt, WF, ClockedAt, Popped;
      PrepareQueue(q, c, luck.dt);
      sum := DequeueQueue(q, c, luck, gso);
    }

    method EnqueueLimiter(l: Lid, c: nat, p: Packet, now: nat, gso: Gso) returns (verdict: Verdict)
      requires Wired() && l in rls && l.Dest? && c < |rls[l].queue|
      modifies rls[l]
      ensures CbViews() == old(CbViews())
      ensures var e := Enqueued(old(rls[l].View()), c, p.(flow := l), now, false, gso);
              RlViews() == old(RlViews())[l := e.rl] && verdict == e.verdict
    {
      hide Enqueued;
      verdict := rls[l].Enqueue(p.(flow := l), c, now, gso);
    }

    /** Time passes, and the packet is enqueued. */
    method Offer(l: Lid, c: nat, p: Packet, dt: nat, gso: Gso) returns (verdict: Verdict)
      requires Wired() && l in rls && l.Dest? && c < |rls[l].queue|
      modifies this`clock, rls[l]
      ensures var e := Enqueued(old(rls[l].View()), c, p.(flow := l), old(clock) + dt, false, gso);
              View() == Offered(old(View()), l, e.rl, dt) && verdict == e.verdict
    {
      hide Enqueued, RlViews, CbViews, Wired;
      verdict := EnqueueLimiter(l, c, p, clock + dt, gso);
      clock := clock + dt;
    }

    /** `iso_tx` once the destination limiter is found: enqueue, then dequeue. */
    method Transmit(l: Lid, c: nat, p: Packet, luck: Luck, gso: Gso) returns (verdict: Verdict)
      requires Valid() && l in rls && l.Dest? && c < |cbs| && c < |rls[l].queue|
      modifies this`clock, limiters, blocks
      ensures Valid()
      ensures View() == Step(old(View()), Tx(l, c, p, luck), gso)
      ensures verdict == Enqueued(old(rls[l].View()), c, p.(flow := l), old(clock) + luck.dt, false, gso).verdict
    {
      hide Step, DequeueAt, WF, Enqueued, RlViews, CbViews, Offered, Wired;
      RlViewAt(l);
      OfferThenDequeue(View(), l, c, p, luck, gso);
      verdict := Offer(l, c, p, luck.dt, gso);
      var _ := DequeueQueue(l, c, luck, gso);
    }

    /** Writing one CPU's timer and tasklet flags. */
    method SetFlags(c: nat, armed: bool, pending: bool)
      requires Valid() && c < |cbs|
      modifies cbs[c]
      ensures Valid()
      ensures View() == WithCb(old(View()), c, old(cbs[c].View()).(armed := armed, pending := pending))
    {
      ghost var st := View();
      assert st.cbs[c] == cbs[c].View();
      FlagsKeepWF(st, c, armed, pending);
      hide WF;
      cbs[c].armed := armed;
      cbs[c].pending := pending;
      assert RlViews() == st.rls;
      assert CbViews() == st.cbs[c := cbs[c].View()];
    }

    /** `iso_rl_timeout` */
    method TimerFires(c: nat)
      requires Valid() && c < |cbs| && cbs[c].armed
      modifies cbs[c]
      ensures Valid() && View() == Step(old(View()), Timer(c), (p: Packet) => [])
    {
      assert View().cbs[c] == cbs[c].View();
      SetFlags(c, false, true);
    }

    /** One turn of the walk: service `q`, then step both cursors. */
    method Turn(q: Lid, c: nat, luck: Luck, gso: Gso) returns (sum: nat, q': Cursor, qtmp': Cursor)
      requires Valid() && c < |cbs| && cbs[c].active != [] && q == cbs[c].active[0]
      modifies this`clock, limiters, blocks
      ensures Valid() && exiting == old(exiting)
      ensures Dequeued(View(), sum) == ServiceHead(old(View()), c, luck, gso)
      ensures q' == Successor(old(cbs[c].active))
      ensures q'.At? ==> cbs[c].active != [] && q'.l == cbs[c].active[0] && qtmp' == Successor(cbs[c].active)
    {
      hide ServiceHead, WF, RlViews, CbViews, Wired;
      CbViewAt(c);
      SuccessorSurvives(View(), c, luck, gso);
      var qtmp := Next(cbs[c].active, q);
      sum := ServiceQueue(q, c, luck, gso);
      CbViewAt(c);
      q' := qtmp;
      qtmp' := if q'.At? then Next(cbs[c].active, q'.l) else AtEnd;
    }

    /** The loop of the tasklet. */
    method WalkActiveList(c: nat, first: Lid, lucks: seq<Luck>, gso: Gso) returns (serviced: seq<Lid>)
      requires Valid() && c < |cbs| && cbs[c].active != []
      modifies this`clock, limiters, blocks
      ensures Valid() && exiting == old(exiting)
      ensures Swept(View(), serviced) == Sweep(old(View()), c, first, 1, 0, lucks, gso)
    {
      hide ServiceHead, WF, Sweep, Wired, RlViews, CbViews;
      CbViewAt(c);
      ghost var st := View();
      ghost var target := Sweep(st, c, first, 1, 0, lucks, gso);
      var k: nat := 1;
      serviced := [];
      var count: nat, sent: nat := 0, 0;
      var q := At(cbs[c].active[0]);
      var qtmp := Next(cbs[c].active, q.l);
      while q.At?
        invariant Valid() && exiting == old(exiting) && st == View()
        invariant k >= 1 && count == 2 * (k - 1)
        invariant q.At? ==> cbs[c].active != [] && q.l == cbs[c].active[0] && qtmp == Successor(cbs[c].active)
        invariant st.cbs[c] == cbs[c].View()
        invariant q.At? ==> Resumed(serviced, Sweep(st, c, first, k, sent, lucks, gso)) == target
        invariant q.AtEnd? ==> Swept(st, serviced) == target
        decreases TASKLET_BUDGET + 2 - count, if q.At? then 1 else 0
      {
        count := count + 1;
        if qtmp == At(first) || count > TASKLET_BUDGET || sent > 2 * MIN_BURST_BYTES {
          SweepStops(st, c, first, k, sent, lucks, gso);
          break;
        }
        count := count + 1;
        SweepTurn(st, c, first, k, sent, lucks, gso, serviced);
        var sum;
        serviced := serviced + [q.l];
        sum, q, qtmp := Turn(q.l, c, LuckAt(lucks, k - 1), gso);
        CbViewAt(c);
        st := View();
        sent := sent + sum;
        k := k + 1;
      }
    }

    /** `iso_rl_xmit_tasklet`. `q` and `qtmp` are the two cursors of `list_for_each_entry_safe`: the
        invariant says that although the body unlinks and re-appends entries, `q` is always the head of
        the list and `qtmp` is still its successor. */
    method XmitTasklet(c: nat, lucks: seq<Luck>, gso: Gso) returns (serviced: seq<Lid>)
      requires Valid() && c < |cbs|
      modifies this`clock, limiters, blocks
      ensures Valid()
      ensures Swept(View(), serviced) == TaskletRun(old(View()), c, lucks, gso)
    {
      serviced := [];
      ghost var st0 := View();
      assert st0.cbs[c] == cbs[c].View();
      SetFlags(c, cbs[c].armed, false);
      ghost var st := View();
      assert st.cbs[c] == cbs[c].View();
      if exiting || cbs[c].active == [] {
        return;
      }
      var first := cbs[c].active[0];
      serviced := WalkActiveList(c, first, lucks, gso);
      ghost var swept := View();
      assert swept.cbs[c] == cbs[c].View();
      if cbs[c].active != [] && !exiting {
        SetFlags(c, true, cbs[c].pending);
      }
    }
  }
}
