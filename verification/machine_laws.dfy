/** One dequeue and one transmission on the machine, said in full: what is returned, who is listed again
    and whether the timer runs, that a destination's dequeue serves its class too, and that a packet
    that can be paid for passes both limiters at once. */
module MachineLaws {
  import opened Params
  import opened Limiter
  import opened QueueBounds
  import opened LimiterOps
  import opened Envelope
  import opened Machine
  import opened MachineEnvelope
  import opened Progress
  import opened MachineProgress
  import opened LimiterLaws

  // ---- what a dequeue returns and whom it lists ----

  /** Bytes sent plus the size of the head that is left. */
  function SentAndHead(q: Queue, q': Queue): int {
    q'.xmit - q.xmit + if q'.list == [] then 0 else Size(q'.list[0])
  }

  /** The queue wants service again: it could not borrow, or packets are left; never while exiting. */
  predicate Wants(rl: Rl, rl': Rl, c: nat, lock: bool, exiting: bool)
    requires c < |rl.queue| && c < |rl'.queue|
  {
    !exiting && (Blocked(rl, c, lock) || rl'.queue[c].list != [])
  }

  /** The list with an entry added at the tail if it is wanted and not there. */
  function WithEntry(active: seq<Lid>, l: Lid, wanted: bool): seq<Lid> {
    if wanted && l !in active then active + [l] else active
  }

  lemma ServedSums(rl: Rl, c: nat, lock: bool)
    requires c < |rl.queue|
    ensures var s := ServeRoot(rl, c, lock);
            && s.sum == (if Blocked(rl, c, lock) then 0 else SentAndHead(rl.queue[c], s.rl.queue[c]))
            && (s.timeout <==> Blocked(rl, c, lock) || s.rl.queue[c].list != [])
  {
    ServeRootWork(rl, c, lock);
    hide DrainRoot;
  }

  lemma ServedChildSums(rl: Rl, root: Rl, c: nat, now: nat, lock: bool, gso: Gso)
    requires c < |rl.queue| && c < |root.queue|
    ensures var s := ServeChild(rl, root, c, now, lock, gso);
            && s.sum == (if Blocked(rl, c, lock) then 0 else SentAndHead(rl.queue[c], s.rl.queue[c]))
            && (s.timeout <==> Blocked(rl, c, lock) || s.rl.queue[c].list != [])
            && (s.blocked <==> Blocked(rl, c, lock)) && (s.blocked ==> s.rl == rl && s.root == root)
  {
    ServeChildWork(rl, root, c, now, lock, gso);
    hide DrainChild;
  }

  /** A class limiter's dequeue: the sum it returns, the list and the timer it leaves, and the packets
      that are now on the wire. */
  lemma RootDequeueExactly(st: State, l: Lid, c: nat, luck: Luck, gso: Gso)
    requires WF(st) && l in st.rls && l.Root? && c < |st.cbs|
    ensures var d, rl, cb := DequeueAt(st, l, c, luck, gso), st.rls[l], st.cbs[c];
            && l in d.st.rls && c < |d.st.rls[l].queue| && c < |d.st.cbs|
            && var rl', cb' := d.st.rls[l], d.st.cbs[c];
            && rl' == ServeRoot(rl, c, luck.lock).rl
            && d.sum == (if Blocked(rl, c, luck.lock) then 0 else SentAndHead(rl.queue[c], rl'.queue[c]))
            && cb'.active == WithEntry(cb.active, l, Wants(rl, rl', c, luck.lock, st.exiting))
            && cb'.armed == (cb.armed || Wants(rl, rl', c, luck.lock, st.exiting)) && cb'.pending == cb.pending
            && cb'.wire == cb.wire + Out(rl.queue[c], rl'.queue[c])
  {
    hide ServeRoot;
    ServedSums(st.rls[l], c, luck.lock);
  }

  /** A destination limiter's dequeue: unless it could not borrow, the class limiter is served in the same
      call, after the hand-over; both are listed again as they need, the class limiter first. */
  lemma DestDequeueExactly(st: State, l: Lid, c: nat, luck: Luck, gso: Gso)
    requires WF(st) && l in st.rls && l.Dest? && c < |st.cbs|
    ensures var d, rl, root, cb := DequeueAt(st, l, c, luck, gso), st.rls[l], st.rls[Root(l.cls)], st.cbs[c];
            && l in d.st.rls && Root(l.cls) in d.st.rls
            && c < |d.st.rls[l].queue| && c < |d.st.rls[Root(l.cls)].queue| && c < |d.st.cbs|
            && var rl', root', cb' := d.st.rls[l], d.st.rls[Root(l.cls)], d.st.cbs[c];
            var s := ServeChild(rl, root, c, st.clock, luck.lock, gso);
            && rl' == s.rl
            && (Blocked(rl, c, luck.lock) ==>
                  && root' == root && d.sum == 0
                  && cb' == cb.(active := WithEntry(cb.active, l, !st.exiting), armed := cb.armed || !st.exiting))
            && (!Blocked(rl, c, luck.lock) ==>
                  && root' == ServeRoot(s.root, c, luck.rootLock).rl
                  && d.sum == SentAndHead(rl.queue[c], rl'.queue[c])
                  && var more := Wants(s.root, root', c, luck.rootLock, st.exiting);
                  && cb'.active == WithEntry(WithEntry(cb.active, Root(l.cls), more), l,
                                             Wants(rl, rl', c, luck.lock, st.exiting))
                  && cb'.armed == (cb.armed || more || Wants(rl, rl', c, luck.lock, st.exiting))
                  && cb'.wire == cb.wire + Out(s.root.queue[c], root'.queue[c]))
  {
    hide ServeRoot, ServeChild;
    var rl, root := st.rls[l], st.rls[Root(l.cls)];
    ServedChildSums(rl, root, c, st.clock, luck.lock, gso);
    var s := ServeChild(rl, root, c, st.clock, luck.lock, gso);
    ServedSums(s.root, c, luck.rootLock);
  }

  // ---- a destination's head ----

  /** A turn of the tasklet on a destination's queue, on any number of CPUs: it hands the head on exactly
      when the queue can afford it after the refill and it leaves the class queue below 128 KB. */
  lemma TurnHandsOn(st: State, c: nat, luck: Luck, gso: Gso)
    requires WF(st) && c < |st.cbs| && st.cbs[c].active != []
    requires var l := st.cbs[c].active[0]; l in st.rls && l.Dest? && st.rls[l].queue[c].list != []
    ensures var l, st' := st.cbs[c].active[0], ServiceHead(st, c, luck, gso).st;
            var rl, q := Clocked(st.rls[l], st.clock + luck.dt), st.rls[l].queue[c];
            && l in st'.rls && c < |st'.rls[l].queue|
            && if Affords(rl, c, luck.lock) && st.rls[Root(l.cls)].queue[c].enqueued + Head(q) < 128 * 1024
               then Sent(q, st'.rls[l].queue[c]) else Saved(rl, st'.rls[l], c, luck.lock)
  {
    hide ServeRoot, ServeChild, Affords, Sent, Saved;
    ServicePrepares(st, c, luck);
    var l := st.cbs[c].active[0];
    var rl, root := Clocked(st.rls[l], st.clock + luck.dt), st.rls[Root(l.cls)];
    ServeChildSends(rl, root, c, st.clock + luck.dt, luck.lock, gso);
    assert ServiceHead(st, c, luck, gso).st.rls[l] == ServeChild(rl, root, c, st.clock + luck.dt, luck.lock, gso).rl;
  }

  lemma RipeIsHandedOn(rl: Rl, root: Rl, q: Queue, now: nat, gso: Gso)
    requires q.list != [] && Head(q) <= MIN_BURST_BYTES && Ripe(rl, q, Head(q), true)
    requires |root.queue| == 1 && root.queue[0].enqueued + Head(q) < 128 * 1024
    ensures Sent(q, ServeChild(rl, root, 0, now, true, gso).rl.queue[0])
  {
    var s := ServeChild(rl, root, 0, now, true, gso);
    if Sent(q, rl.queue[0]) {
      ServeChildWork(rl, root, 0, now, true, gso);
      assert rl.queue[0].departed <= s.rl.queue[0].departed by { hide DrainChild; }
      SentStays(q, rl.queue[0], s.rl.queue[0]);
    } else {
      ServeChildSends(rl, root, 0, now, true, gso);
    }
    hide DrainChild;
  }

  /** On one CPU, once the tokens of a destination limiter cover the measured head of its queue, then
      whatever happens, the next turn it gets with the class queue below 128 KB by that much hands the
      head on. */
  lemma PaidHeadIsHandedOn(st: State, es: seq<Event>, luck: Luck, gso: Gso, l: Lid)
    requires WF(st) && |st.cbs| == 1 && l in st.rls && l.Dest? && st.rls[l].queue[0].list != [] && luck.lock
    requires var q := st.rls[l].queue[0];
             q.first == Head(q) <= Min(MIN_BURST_BYTES, q.tokens + st.rls[l].pool)
    requires var mid := Run(st, es, gso);
             && mid.cbs[0].active != [] && mid.cbs[0].active[0] == l && Root(l.cls) in mid.rls
             && mid.rls[Root(l.cls)].queue[0].enqueued + Head(st.rls[l].queue[0]) < 128 * 1024
    ensures SentAt(ServiceHead(Run(st, es, gso), 0, luck, gso).st, l, st.rls[l].queue[0])
  {
    hide ServeRoot, ServeChild, Run, Sent, Clocked;
    var q, mid := st.rls[l].queue[0], Run(st, es, gso);
    assert RipeAt(st, l, q, true);
    RunKeepsRipe(st, es, gso, l, q, true);
    hide Ripe;
    ServicePrepares(mid, 0, luck);
    var now := mid.clock + luck.dt;
    ActionsKeepRipe(mid.rls[l], [Refill(now)], q, true);
    var rl, root := Clocked(mid.rls[l], now), mid.rls[Root(l.cls)];
    assert DoAll(mid.rls[l], [Refill(now)]) == rl;
    RipeIsHandedOn(rl, root, q, now, gso);
    assert ServiceHead(mid, 0, luck, gso).st.rls[l] == ServeChild(rl, root, 0, now, true, gso).rl;
  }

  /** A transmission always serves the destination's queue in the same call, whatever was waiting there: the
      head it finds after the enqueue is handed on exactly when the queue can afford it and it leaves the
      class queue below 128 KB. */
  lemma TxServes(st: State, l: Lid, c: nat, p: Packet, luck: Luck, gso: Gso)
    requires WF(st) && l in st.rls && l.Dest? && c < |st.cbs|
    ensures var rl := Enqueued(st.rls[l], c, p.(flow := l), st.clock + luck.dt, false, gso).rl;
            var st' := Step(st, Tx(l, c, p, luck), gso);
            && st'.clock == st.clock + luck.dt && c < |rl.queue| && l in st'.rls && c < |st'.rls[l].queue|
            && (rl.queue[c].list != [] ==>
                  var q := rl.queue[c];
                  if Affords(rl, c, luck.lock) && st.rls[Root(l.cls)].queue[c].enqueued + Head(q) < 128 * 1024
                  then Sent(q, st'.rls[l].queue[c]) else Saved(rl, st'.rls[l], c, luck.lock))
  {
    hide ServeChild, ServeRoot, Enqueued, Affords, Sent, Saved, DequeueAt;
    var st1 := Advanced(st, luck.dt);
    EnqueuedKeepsShape(st.rls[l], c, p.(flow := l), st1.clock, false, gso);
    EnqueueFrame(st1, l, c, p, gso);
    var st2 := EnqueuedAt(st1, l, c, p, gso);
    DequeueFrame(st2, l, c, luck, gso);
    DestDequeueExactly(st2, l, c, luck, gso);
    if st2.rls[l].queue[c].list != [] {
      ServeChildSends(st2.rls[l], st.rls[Root(l.cls)], c, st1.clock, luck.lock, gso);
    }
  }

  // ---- straight through ----

  /** An idle queue with enough tokens of its own for the packet. */
  predicate Flush(q: Queue, p: Packet) {
    q.list == [] && q.enqueued == 0 && q.tokens >= Size(p) && q.tokens >= q.first
  }

  lemma OneTaken(rl: Rl, c: nat, p: Packet, now: nat, root: bool, gso: Gso)
    requires c < |rl.queue| && Flush(rl.queue[c], p) && Size(p) <= 10000
    ensures var rl' := Enqueued(rl, c, p, now, root, gso).rl;
            && |rl'.queue| == |rl.queue|
            && rl'.queue[c] == rl.queue[c].(list := [p], accepted := rl.queue[c].accepted + [p], enqueued := Size(p))
  {
    WholeExactly(rl, c, p, now, root, gso);
    assert p.(ce := p.ce) == p && [] + [p] == [p];
    hide Enqueued;
  }

  lemma OneHandedOn(rl: Rl, root: Rl, c: nat, p: Packet, now: nat, lock: bool, gso: Gso)
    requires c < |rl.queue| && c < |root.queue| && rl.queue[c].list == [p] && Size(p) <= 10000
    requires rl.queue[c].tokens >= Size(p) && rl.queue[c].tokens >= rl.queue[c].first && root.queue[c].enqueued == 0
    ensures ServeChild(rl, root, c, now, lock, gso).root == Enqueued(root, c, p, now, true, gso).rl
  {
    ChildTurn(Measured(rl.queue[c]), root, c, now, gso, Size(p));
    hide DrainChild, Enqueued;
  }

  lemma OneSent(rl: Rl, c: nat, p: Packet, lock: bool)
    requires c < |rl.queue| && rl.queue[c].list == [p] && Size(p) <= 10000
    requires rl.queue[c].tokens >= Size(p) && rl.queue[c].tokens >= rl.queue[c].first
    ensures ServeRoot(rl, c, lock).rl.queue[c].departed == rl.queue[c].departed + [p]
  {
    RootTurn(Measured(rl.queue[c]), Size(p));
    hide DrainRoot;
  }

  /** A packet of at most 10000 bytes that finds both its queues idle, each with tokens enough, is on the
      wire when the call returns, unmarked. */
  lemma CutThrough(st: State, l: Lid, c: nat, p: Packet, luck: Luck, gso: Gso)
    requires WF(st) && l in st.rls && l.Dest? && c < |st.cbs| && Size(p) <= 10000
    requires Flush(st.rls[l].queue[c], p) && Flush(st.rls[Root(l.cls)].queue[c], p)
    ensures c < |Step(st, Tx(l, c, p, luck), gso).cbs|
    ensures Step(st, Tx(l, c, p, luck), gso).cbs[c].wire == st.cbs[c].wire + [p.(flow := l)]
  {
    hide Enqueued, ServeChild, ServeRoot, DequeueAt;
    var st1, p1, now := Advanced(st, luck.dt), p.(flow := l), st.clock + luck.dt;
    EnqueueFrame(st1, l, c, p, gso);
    var st2 := EnqueuedAt(st1, l, c, p, gso);
    var root := st.rls[Root(l.cls)];
    OneTaken(st.rls[l], c, p1, now, false, gso);
    OneTaken(root, c, p1, now, true, gso);
    OneHandedOn(st2.rls[l], root, c, p1, now, luck.lock, gso);
    DestDequeueExactly(st2, l, c, luck, gso);
    OneSent(ServeChild(st2.rls[l], root, c, now, luck.lock, gso).root, c, p1, luck.rootLock);
  }

  // ---- what comes from outside ----

  /** A limiter created: 5000 Mb/s, 15000 tokens in the pool, an empty queue without tokens on every CPU. */
  predicate Blank(rl: Rl, ncpu: nat, now: nat) {
    && rl.rate == 5000 && rl.pool == 15000 && rl.last == rl.lastRate == now && rl.splits == 0 && |rl.queue| == ncpu
    && forall c :: 0 <= c < ncpu ==>
         rl.queue[c].list == [] && rl.queue[c].tokens == rl.queue[c].first == rl.queue[c].xmit == 0
         && rl.queue[c].enqueued == 0
  }

  /** The steps that other parts of the module cause: a tick or a reconfiguration sets a rate and no clock,
      accepted feedback sets the rate and the time of feedback, a limiter is created once and a
      destination's only under its class, and a timer that runs hands over to the tasklet. */
  lemma OutsideExactly(st: State, l: Lid, rate: nat, c: nat, dt: nat, gso: Gso)
    requires WF(st) && c < |st.cbs|
    ensures l in st.rls ==>
              && Step(st, Retune(l, rate), gso) == st.(rls := st.rls[l := st.rls[l].(rate := rate)])
              && Step(st, Feedback(l, rate), gso)
                 == st.(rls := st.rls[l := st.rls[l].(rate := rate, lastRate := st.clock)])
              && Step(st, Create(l), gso) == st
    ensures l !in st.rls && (l.Dest? ==> Root(l.cls) in st.rls) ==>
              var st' := Step(st, Create(l), gso);
              l in st'.rls && Blank(st'.rls[l], |st.cbs|, st.clock) && st' == st.(rls := st.rls[l := st'.rls[l]])
    ensures Step(st, Timer(c), gso)
            == if st.cbs[c].armed then st.(cbs := st.cbs[c := st.cbs[c].(armed := false, pending := true)]) else st
    ensures Step(st, Advance(dt), gso) == st.(clock := st.clock + dt)
  {
  }
}
