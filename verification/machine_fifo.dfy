/** Two-level FIFO without loss and the three-level byte ledger, over every run of the machine. */
module MachineFifo {
  import opened Params
  import opened Limiter
  import opened QueueBounds
  import opened LimiterOps
  import opened Envelope
  import opened Machine
  import opened MachineEnvelope
  import opened Flows

  // ---- what one dequeue does to the class limiter's queue ----

  /** The class limiter's queue took packets of flow `l`; nothing left it. */
  ghost predicate FedBy(q: Queue, q': Queue, l: Lid) {
    && q.accepted <= q'.accepted
    && q'.departed == q.departed
    && Tagged(q'.accepted[|q.accepted|..], l)
  }

  lemma FedTransitive(q: Queue, q': Queue, q'': Queue, l: Lid)
    requires FedBy(q, q', l) && FedBy(q', q'', l)
    ensures FedBy(q, q'', l)
  {
    assert q''.accepted[|q.accepted|..] == q'.accepted[|q.accepted|..] + q''.accepted[|q'.accepted|..];
  }

  lemma {:induction false} KeepSegmentsFeeds(q: Queue, segs: seq<Packet>, l: Lid)
    requires Tagged(segs, l)
    ensures FedBy(q, KeepSegments(q, segs), l)
    decreases |segs|
  {
    if segs != [] {
      var q' := if q.enqueued < MAX_QUEUE_LEN_BYTES then Append(q, segs[0]) else q;
      assert segs[0] in segs && Tagged(segs[1..], l);
      KeepSegmentsFeeds(q', segs[1..], l);
      assert FedBy(q, q', l);
      FedTransitive(q, q', KeepSegments(q, segs), l);
    }
  }

  /** An enqueue adds packets of the packet's own flow, to this CPU's queue only. */
  lemma EnqueueFeeds(rl: Rl, c: nat, p: Packet, now: nat, root: bool, gso: Gso, l: Lid)
    requires c < |rl.queue| && Belongs(p, l) && l.Dest?
    ensures var rl' := Enqueued(rl, c, p, now, root, gso).rl;
            && |rl'.queue| == |rl.queue|
            && FedBy(rl.queue[c], rl'.queue[c], l)
            && rl.splits <= rl'.splits
            && (forall j :: 0 <= j < |rl.queue| && j != c ==> rl'.queue[j] == rl.queue[j])
  {
    if Whole(Clocked(rl, now).rate, p) {
      TakenWholeOrRefused(rl, c, p, now, root, gso);
    } else {
      assert Tagged(Stamped(gso(p), p.flow), l);
      KeepSegmentsFeeds(rl.queue[c], Stamped(gso(p), p.flow), l);
    }
  }

  /** A packet offered with space to spare: the class limiter takes it whole, or segments it. */
  lemma RootTakes(root: Rl, c: nat, p: Packet, now: nat, gso: Gso)
    requires c < |root.queue| && HasSpaceFor(root, c, p)
    ensures var root' := Enqueued(root, c, p, now, true, gso).rl;
            && |root'.queue| == |root.queue|
            && (root'.splits == root.splits ==>
                  Plain(root'.queue[c].accepted) == Plain(root.queue[c].accepted) + Plain([p]))
  {
    if Whole(Clocked(root, now).rate, p) {
      TakenWholeOrRefused(root, c, p, now, true, gso);
    }
  }

  /** Destination limiter `l` let go of `out` into CPU `c`'s queue of the class limiter. */
  ghost predicate Passed(root: Rl, root': Rl, c: nat, out: seq<Packet>, l: Lid)
    requires c < |root.queue|
  {
    && |root'.queue| == |root.queue|
    && FedBy(root.queue[c], root'.queue[c], l)
    && root.splits <= root'.splits
    && (forall j :: 0 <= j < |root.queue| && j != c ==> root'.queue[j] == root.queue[j])
    && (root'.splits == root.splits ==>
          Plain(root'.queue[c].accepted) == Plain(root.queue[c].accepted) + Plain(out))
  }

  lemma NothingPassed(root: Rl, c: nat, l: Lid)
    requires c < |root.queue|
    ensures Passed(root, root, c, [], l)
  {
  }

  lemma PassedTransitive(a: Rl, b: Rl, d: Rl, c: nat, out: seq<Packet>, more: seq<Packet>, l: Lid)
    requires c < |a.queue| && Passed(a, b, c, out, l) && Passed(b, d, c, more, l)
    ensures Passed(a, d, c, out + more, l)
  {
    FedTransitive(a.queue[c], b.queue[c], d.queue[c], l);
    PlainConcat(out, more);
    hide FedBy, Plain;
  }

  lemma OnePassed(root: Rl, c: nat, p: Packet, now: nat, gso: Gso, l: Lid)
    requires c < |root.queue| && HasSpaceFor(root, c, p) && Belongs(p, l) && l.Dest?
    ensures Passed(root, Enqueued(root, c, p, now, true, gso).rl, c, [p], l)
  {
    EnqueueFeeds(root, c, p, now, true, gso, l);
    RootTakes(root, c, p, now, gso);
    hide Enqueued, FedBy, Plain;
  }

  lemma OutSplits(q: Queue, q2: Queue)
    requires q.list != [] && Size(q.list[0]) <= q.tokens && Departed(q).departed <= q2.departed
    ensures Out(q, q2) == [q.list[0]] + Out(Departed(q), q2)
  {
  }

  /** What a whole send loop of destination limiter `l` does to the class limiter. */
  lemma {:induction false} DrainChildFeeds(q: Queue, root: Rl, c: nat, now: nat, gso: Gso, sum: nat, l: Lid)
    requires q.list != [] && c < |root.queue| && Tagged(q.list, l) && l.Dest?
    ensures var d := DrainChild(q, root, c, now, gso, sum);
            Passed(root, d.root, c, Out(q, d.q), l)
    decreases |q.list|
  {
    hide Enqueued, Passed;
    var d := DrainChild(q, root, c, now, gso, sum);
    if Size(q.list[0]) <= q.tokens && sum <= 2 * MIN_BURST_BYTES && HasSpaceFor(root, c, q.list[0]) {
      assert q.list[0] in q.list;
      OnePassed(root, c, q.list[0], now, gso, l);
      EnqueuedKeepsShape(root, c, q.list[0], now, true, gso);
      var root' := Enqueued(root, c, q.list[0], now, true, gso).rl;
      var q' := Departed(q);
      if q'.list == [] {
        assert Out(q, d.q) == [q.list[0]];
      } else {
        DrainChildFeeds(Measured(q'), root', c, now, gso, sum + Size(q'.list[0]), l);
        DrainChildPrefix(Measured(q'), root', c, now, gso, sum + Size(q'.list[0]));
        OutSplits(q, d.q);
        PassedTransitive(root, root', d.root, c, [q.list[0]], Out(q', d.q), l);
      }
    } else {
      NothingPassed(root, c, l);
      assert Out(q, d.q) == [];
    }
  }

  lemma ServeChildFeeds(rl: Rl, root: Rl, c: nat, now: nat, lock: bool, gso: Gso, l: Lid)
    requires c < |rl.queue| && c < |root.queue| && Tagged(rl.queue[c].list, l) && l.Dest?
    ensures var s := ServeChild(rl, root, c, now, lock, gso);
            && FedBy(root.queue[c], s.root.queue[c], l)
            && root.splits <= s.root.splits
            && (forall j :: 0 <= j < |root.queue| && j != c ==> s.root.queue[j] == root.queue[j])
            && (s.root.splits == root.splits ==>
                  Plain(s.root.queue[c].accepted)
                    == Plain(root.queue[c].accepted) + Plain(Out(rl.queue[c], s.rl.queue[c])))
  {
    var (rl1, blocked) := Funded(rl, c, lock);
    if !blocked && rl1.queue[c].list != [] {
      DrainChildFeeds(Measured(rl1.queue[c]), root, c, now, gso, Size(rl1.queue[c].list[0]), l);
    }
  }

  /** A dequeue extends the history of departures by exactly the packets it let go, and touches
      no other queue and nothing else of the histories. */
  ghost predicate Departs(rl: Rl, rl': Rl, c: nat)
    requires c < |rl.queue|
  {
    && |rl'.queue| == |rl.queue|
    && rl'.splits == rl.splits
    && (forall j :: 0 <= j < |rl.queue| && j != c ==> rl'.queue[j] == rl.queue[j])
    && rl'.queue[c].accepted == rl.queue[c].accepted
    && rl'.queue[c].departed == rl.queue[c].departed + Out(rl.queue[c], rl'.queue[c])
    && (forall p :: p in Out(rl.queue[c], rl'.queue[c]) ==> p in rl.queue[c].list)
  }

  lemma ServeRootDeparts(rl: Rl, c: nat, lock: bool)
    requires c < |rl.queue|
    ensures Departs(rl, ServeRoot(rl, c, lock).rl, c)
  {
    ServeRootWork(rl, c, lock);
    var q, q' := Funded(rl, c, lock).0.queue[c], ServeRoot(rl, c, lock).rl.queue[c];
    assert Out(rl.queue[c], q') == q.list[..Taken(q, q')];
  }

  lemma ServeChildDeparts(rl: Rl, root: Rl, c: nat, now: nat, lock: bool, gso: Gso)
    requires c < |rl.queue| && c < |root.queue|
    ensures Departs(rl, ServeChild(rl, root, c, now, lock, gso).rl, c)
  {
    ServeChildWork(rl, root, c, now, lock, gso);
    var q, q' := Funded(rl, c, lock).0.queue[c], ServeChild(rl, root, c, now, lock, gso).rl.queue[c];
    assert Out(rl.queue[c], q') == q.list[..Taken(q, q')];
  }

  // ---- the invariant ----

  /** Destination queue against class queue: as long as the class limiter has segmented nothing,
      it has accepted of this flow exactly what the destination queue let go, in order. */
  ghost predicate ChildLink(child: Queue, root: Queue, splits: nat, l: Lid) {
    && (splits == 0 ==> Of(l, root.accepted) == Plain(child.departed))
    && Tagged(child.accepted, l)
  }

  /** Class queue against the wire: what is on the wire of this class is what the queue let go. */
  ghost predicate RootLink(root: Queue, wire: seq<Packet>, l: Lid) {
    && Of(l, wire) == Plain(root.departed)
    && Tagged(root.accepted, l)
  }

  ghost predicate Known(ps: seq<Packet>, rls: set<Lid>) {
    forall p :: p in ps ==> p.flow.Dest? && p.flow in rls
  }

  ghost predicate CbLink(cb: Cb, rls: set<Lid>) {
    cb.txBytes == Bytes(cb.wire) && Known(cb.wire, rls)
  }

  ghost predicate LinkedAt(st: State, l: Lid, c: nat)
    requires WF(st) && l in st.rls && c < |st.cbs|
  {
    if l.Root? then
      RootLink(st.rls[l].queue[c], st.cbs[c].wire, l) && Known(st.rls[l].queue[c].accepted, st.rls.Keys)
    else
      ChildLink(st.rls[l].queue[c], st.rls[Root(l.cls)].queue[c], st.rls[Root(l.cls)].splits, l)
  }

  ghost predicate Linked(st: State) {
    && WF(st)
    && AllInOrder(st)
    && (forall c :: 0 <= c < |st.cbs| ==> CbLink(st.cbs[c], st.rls.Keys))
    && (forall l, c: nat :: l in st.rls && c < |st.cbs| ==> LinkedAt(st, l, c))
  }

  // ---- links under one dequeue ----

  lemma ForeignUntouched(l: Lid, q: Queue, q': Queue, m: Lid)
    requires FedBy(q, q', m) && l.Dest? && m.Dest? && l != m
    ensures Of(l, q'.accepted) == Of(l, q.accepted)
  {
    var added := q'.accepted[|q.accepted|..];
    assert q'.accepted == q.accepted + added;
    OfForeign(l, added);
    OfConcat(l, q.accepted, added);
  }

  lemma OwnFollows(child: Queue, child': Queue, root: Queue, root': Queue, l: Lid)
    requires Of(l, root.accepted) == Plain(child.departed)
    requires child'.departed == child.departed + Out(child, child')
    requires Tagged(Out(child, child'), l)
    requires Plain(root'.accepted) == Plain(root.accepted) + Plain(Out(child, child'))
    ensures Of(l, root'.accepted) == Plain(child'.departed)
  {
    var out := Out(child, child');
    OfIgnoresMarks(l, root'.accepted);
    OfIgnoresMarks(l, root.accepted);
    OfIgnoresMarks(l, out);
    OfConcat(l, Plain(root.accepted), Plain(out));
    OfOwn(l, out);
    PlainConcat(child.departed, out);
  }

  lemma FedStaysTagged(q: Queue, q': Queue, l: Lid, rls: set<Lid>)
    requires FedBy(q, q', l) && l.Dest? && l in rls && Tagged(q.accepted, Root(l.cls)) && Known(q.accepted, rls)
    ensures Tagged(q'.accepted, Root(l.cls)) && Known(q'.accepted, rls)
  {
    var added := q'.accepted[|q.accepted|..];
    assert q'.accepted == q.accepted + added;
  }

  lemma WireFollows(root: Queue, root': Queue, wire: seq<Packet>, l: Lid, m: Lid)
    requires l.Root? && m.Root? && root'.departed == root.departed + Out(root, root')
    requires Tagged(Out(root, root'), l)
    requires l == m ==> Of(l, wire) == Plain(root.departed)
    ensures l == m ==> Of(l, wire + Out(root, root')) == Plain(root'.departed)
    ensures l != m ==> Of(m, wire + Out(root, root')) == Of(m, wire)
  {
    var out := Out(root, root');
    OfConcat(m, wire, out);
    if l == m {
      OfOwn(l, out);
      PlainConcat(root.departed, out);
    } else {
      OfForeign(m, out);
    }
  }

  /** A class limiter's departures go to the wire. */
  ghost predicate RootSends(st: State, l: Lid, root: Rl, c: nat, cb: Cb) {
    && Linked(st) && l in st.rls && l.Root? && c < |st.cbs|
    && Departs(st.rls[l], root, c) && AllBooks(root)
    && cb.wire == st.cbs[c].wire + Out(st.rls[l].queue[c], root.queue[c])
    && cb.txBytes == st.cbs[c].txBytes + Bytes(Out(st.rls[l].queue[c], root.queue[c]))
    && (forall m :: m in cb.active ==> m in st.rls)
  }

  lemma RootSendWire(st: State, l: Lid, root: Rl, c: nat, cb: Cb)
    requires RootSends(st, l, root, c, cb)
    ensures CbLink(cb, st.rls.Keys)
    ensures Tagged(Out(st.rls[l].queue[c], root.queue[c]), l)
  {
    var q := st.rls[l].queue[c];
    var out := Out(q, root.queue[c]);
    assert LinkedAt(st, l, c) && Books(q) && CbLink(st.cbs[c], st.rls.Keys);
    assert forall p :: p in out ==> p in q.accepted;
    BytesConcat(st.cbs[c].wire, out);
  }

  lemma RootSendLink(st: State, l: Lid, root: Rl, c: nat, cb: Cb, m: Lid, j: nat)
    requires RootSends(st, l, root, c, cb) && m in st.rls && j < |st.cbs|
    requires Tagged(Out(st.rls[l].queue[c], root.queue[c]), l)
    requires WF(st.(rls := st.rls[l := root], cbs := st.cbs[c := cb]))
    ensures LinkedAt(st.(rls := st.rls[l := root], cbs := st.cbs[c := cb]), m, j)
  {
    assert st.rls[l := root].Keys == st.rls.Keys;
    assert LinkedAt(st, m, j);
    if m.Root? && j == c {
      WireFollows(st.rls[l].queue[c], root.queue[c], st.cbs[c].wire, l, m);
    }
  }

  lemma RootSendKeepsLinks(st: State, l: Lid, root: Rl, c: nat, cb: Cb)
    requires RootSends(st, l, root, c, cb)
    ensures Linked(st.(rls := st.rls[l := root], cbs := st.cbs[c := cb]))
  {
    var st' := st.(rls := st.rls[l := root], cbs := st.cbs[c := cb]);
    assert st'.rls.Keys == st.rls.Keys;
    StoreKeepsWF(st, l, root, c, cb);
    RootSendWire(st, l, root, c, cb);
    hide LinkedAt, Books;
    forall m, j: nat | m in st'.rls && j < |st'.cbs| ensures LinkedAt(st', m, j) {
      RootSendLink(st, l, root, c, cb, m, j);
    }
  }

  /** A destination limiter feeds its class limiter. */
  ghost predicate ChildFeeds(st: State, l: Lid, rl: Rl, root: Rl, c: nat) {
    && Linked(st) && l in st.rls && l.Dest? && c < |st.cbs|
    && Departs(st.rls[l], rl, c) && AllBooks(rl) && AllBooks(root)
    && var root0 := st.rls[Root(l.cls)];
    && |root.queue| == |root0.queue|
    && FedBy(root0.queue[c], root.queue[c], l)
    && root0.splits <= root.splits
    && (forall j :: 0 <= j < |root.queue| && j != c ==> root.queue[j] == root0.queue[j])
    && (root.splits == root0.splits ==>
          Plain(root.queue[c].accepted) == Plain(root0.queue[c].accepted) + Plain(Out(st.rls[l].queue[c], rl.queue[c])))
  }

  lemma ChildFeedTags(st: State, l: Lid, rl: Rl, root: Rl, c: nat)
    requires ChildFeeds(st, l, rl, root, c)
    ensures Tagged(Out(st.rls[l].queue[c], rl.queue[c]), l)
    ensures Tagged(root.queue[c].accepted, Root(l.cls)) && Known(root.queue[c].accepted, st.rls.Keys)
  {
    var r := Root(l.cls);
    assert LinkedAt(st, l, c) && LinkedAt(st, r, c) && Books(st.rls[l].queue[c]);
    assert forall p :: p in Out(st.rls[l].queue[c], rl.queue[c]) ==> p in st.rls[l].queue[c].accepted;
    FedStaysTagged(st.rls[r].queue[c], root.queue[c], l, st.rls.Keys);
  }

  lemma ChildFeedLink(st: State, l: Lid, rl: Rl, root: Rl, c: nat, m: Lid, j: nat)
    requires ChildFeeds(st, l, rl, root, c) && m in st.rls && j < |st.cbs|
    requires Tagged(Out(st.rls[l].queue[c], rl.queue[c]), l)
    requires Tagged(root.queue[c].accepted, Root(l.cls)) && Known(root.queue[c].accepted, st.rls.Keys)
    requires WF(st.(rls := st.rls[l := rl][Root(l.cls) := root]))
    ensures LinkedAt(st.(rls := st.rls[l := rl][Root(l.cls) := root]), m, j)
  {
    var root0 := st.rls[Root(l.cls)];
    assert st.rls[l := rl][Root(l.cls) := root].Keys == st.rls.Keys;
    assert LinkedAt(st, m, j);
    if m == l && j == c {
      if root.splits == 0 {
        OwnFollows(st.rls[l].queue[c], rl.queue[c], root0.queue[c], root.queue[c], l);
      }
    } else if m.Dest? && m.cls == l.cls && j == c {
      ForeignUntouched(m, root0.queue[c], root.queue[c], l);
    }
  }

  lemma ChildFeedKeepsLinks(st: State, l: Lid, rl: Rl, root: Rl, c: nat)
    requires ChildFeeds(st, l, rl, root, c)
    ensures Linked(st.(rls := st.rls[l := rl][Root(l.cls) := root]))
  {
    var st' := st.(rls := st.rls[l := rl][Root(l.cls) := root]);
    assert st'.rls.Keys == st.rls.Keys;
    assert WF(st');
    ChildFeedTags(st, l, rl, root, c);
    hide LinkedAt, Books;
    forall m, j: nat | m in st'.rls && j < |st'.cbs| ensures LinkedAt(st', m, j) {
      ChildFeedLink(st, l, rl, root, c, m, j);
    }
  }

  /** Rescheduling touches no link. */
  lemma RescheduleKeepsLinks(st: State, c: nat, cb: Cb)
    requires Linked(st) && c < |st.cbs|
    requires cb.wire == st.cbs[c].wire && cb.txBytes == st.cbs[c].txBytes
    requires forall m :: m in cb.active ==> m in st.rls
    ensures Linked(WithCb(st, c, cb))
  {
    var st' := WithCb(st, c, cb);
    assert WF(st');
    forall m, j: nat | m in st'.rls && j < |st'.cbs| ensures LinkedAt(st', m, j) {
      assert LinkedAt(st, m, j);
    }
  }

  lemma RootStepKeepsLinks(st: State, l: Lid, c: nat, lock: bool)
    requires Linked(st) && l in st.rls && l.Root? && c < |st.cbs|
    ensures var r := RootStep(st.rls[l], l, st.cbs[c], c, lock, st.exiting);
            Linked(st.(rls := st.rls[l := r.root], cbs := st.cbs[c := r.cb]))
  {
    var r := RootStep(st.rls[l], l, st.cbs[c], c, lock, st.exiting);
    ServeRootDeparts(st.rls[l], c, lock);
    RootActiveGrows(st.rls[l], l, st.cbs[c], c, lock, st.exiting);
    var ops := ServeRootOps(st.rls[l], c, lock, Anything);
    BooksKept(st.rls[l], ops);
    hide ServeRoot, Departed, DrainRoot;
    RootSendKeepsLinks(st, l, r.root, c, r.cb);
  }

  /** The state between a destination limiter's send loop and its class limiter's dequeue. */
  function Handed(st: State, l: Lid, s: ServedChild): State { st.(rls := st.rls[l := s.rl][Root(l.cls) := s.root]) }

  lemma HandedKeepsLinks(st: State, l: Lid, c: nat, lock: bool, gso: Gso)
    requires Linked(st) && l in st.rls && l.Dest? && c < |st.cbs|
    ensures Linked(Handed(st, l, ServeChild(st.rls[l], st.rls[Root(l.cls)], c, st.clock, lock, gso)))
  {
    var rl, root := st.rls[l], st.rls[Root(l.cls)];
    var s := ServeChild(rl, root, c, st.clock, lock, gso);
    assert LinkedAt(st, l, c) && Books(rl.queue[c]);
    assert forall p :: p in rl.queue[c].list ==> p in rl.queue[c].accepted;
    ServeChildDeparts(rl, root, c, st.clock, lock, gso);
    ServeChildFeeds(rl, root, c, st.clock, lock, gso, l);
    var ops, rootOps := ServeChildOps(rl, root, c, st.clock, lock, gso, Anything);
    BooksKept(rl, ops);
    BooksKept(root, rootOps);
    hide ServeChild;
    ChildFeedKeepsLinks(st, l, s.rl, s.root, c);
  }

  /** A destination limiter's dequeue is: feed, then the class limiter's dequeue unless the borrow
      lost its race, then reschedule. */
  function FedThenServed(st: State, l: Lid, c: nat, luck: Luck, gso: Gso): State
    requires WF(st) && l in st.rls && l.Dest? && c < |st.cbs|
  {
    var s := ServeChild(st.rls[l], st.rls[Root(l.cls)], c, st.clock, luck.lock, gso);
    var st1 := Handed(st, l, s);
    if s.blocked then st1
    else
      var r := RootStep(s.root, Root(l.cls), st.cbs[c], c, luck.rootLock, st.exiting);
      st1.(rls := st1.rls[Root(l.cls) := r.root], cbs := st1.cbs[c := r.cb])
  }

  lemma ChildDequeueParts(st: State, l: Lid, c: nat, luck: Luck, gso: Gso)
    requires WF(st) && l in st.rls && l.Dest? && c < |st.cbs|
    ensures var s := ServeChild(st.rls[l], st.rls[Root(l.cls)], c, st.clock, luck.lock, gso);
            var st2 := FedThenServed(st, l, c, luck, gso);
            && |st2.cbs| == |st.cbs|
            && DequeueAt(st, l, c, luck, gso).st
                 == WithCb(st2, c, Rescheduled(st2.cbs[c], l, s.blocked || s.timeout, st.exiting))
  {
    hide ServeChild, RootStep, Rescheduled;
    var root := Root(l.cls);
    var s := ServeChild(st.rls[l], st.rls[root], c, st.clock, luck.lock, gso);
    if s.blocked {
      assert DequeueAt(st, l, c, luck, gso).st.rls == FedThenServed(st, l, c, luck, gso).rls;
    } else {
      var r := RootStep(s.root, root, st.cbs[c], c, luck.rootLock, st.exiting);
      assert Handed(st, l, s).rls[root := r.root] == st.rls[l := s.rl][root := r.root];
    }
  }

  lemma FedThenServedKeepsLinks(st: State, l: Lid, c: nat, luck: Luck, gso: Gso)
    requires Linked(st) && l in st.rls && l.Dest? && c < |st.cbs|
    ensures Linked(FedThenServed(st, l, c, luck, gso))
  {
    HandedKeepsLinks(st, l, c, luck.lock, gso);
    var s := ServeChild(st.rls[l], st.rls[Root(l.cls)], c, st.clock, luck.lock, gso);
    hide ServeChild, RootStep, Linked;
    if !s.blocked {
      RootStepKeepsLinks(Handed(st, l, s), Root(l.cls), c, luck.rootLock);
    }
  }

  lemma ChildStepKeepsLinks(st: State, l: Lid, c: nat, luck: Luck, gso: Gso)
    requires Linked(st) && l in st.rls && l.Dest? && c < |st.cbs|
    ensures Linked(DequeueAt(st, l, c, luck, gso).st)
  {
    ChildDequeueParts(st, l, c, luck, gso);
    FedThenServedKeepsLinks(st, l, c, luck, gso);
    var s := ServeChild(st.rls[l], st.rls[Root(l.cls)], c, st.clock, luck.lock, gso);
    var st2 := FedThenServed(st, l, c, luck, gso);
    RescheduleGrows(st2.cbs[c], l, s.blocked || s.timeout, st.exiting);
    assert st2.rls.Keys == st.rls.Keys;
    hide ServeChild, RootStep, FedThenServed, DequeueAt;
    RescheduleKeepsLinks(st2, c, Rescheduled(st2.cbs[c], l, s.blocked || s.timeout, st.exiting));
  }

  /** Every dequeue keeps the links. */
  lemma DequeueKeepsLinks(st: State, l: Lid, c: nat, luck: Luck, gso: Gso)
    requires Linked(st) && l in st.rls && c < |st.cbs|
    ensures Linked(DequeueAt(st, l, c, luck, gso).st)
  {
    if l.Root? {
      RootStepKeepsLinks(st, l, c, luck.lock);
    } else {
      ChildStepKeepsLinks(st, l, c, luck, gso);
    }
  }

  // ---- links under every step ----

  /** Clocking, retuning and queuing at a destination limiter: no departures, and a class limiter's
      histories do not move. */
  lemma UpdateKeepsLinks(st: State, l: Lid, rl: Rl)
    requires Linked(st) && l in st.rls && |rl.queue| == |st.cbs| && AllBooks(rl)
    requires l.Root? ==> rl.splits == st.rls[l].splits
    requires forall j :: 0 <= j < |st.cbs| ==>
               if l.Root? then rl.queue[j].accepted == st.rls[l].queue[j].accepted
                               && rl.queue[j].departed == st.rls[l].queue[j].departed
               else FedBy(st.rls[l].queue[j], rl.queue[j], l)
    ensures Linked(st.(rls := st.rls[l := rl]))
  {
    var st' := st.(rls := st.rls[l := rl]);
    assert st'.rls.Keys == st.rls.Keys;
    forall m, j: nat | m in st'.rls && j < |st'.cbs| ensures LinkedAt(st', m, j) {
      assert LinkedAt(st, m, j);
      if m == l && l.Dest? {
        var q, q' := st.rls[l].queue[j], rl.queue[j];
        assert q'.accepted == q.accepted + q'.accepted[|q.accepted|..];
      }
    }
  }

  lemma NothingFed(q: Queue, l: Lid)
    ensures FedBy(q, q, l)
  {
    assert q.accepted[|q.accepted|..] == [];
  }

  lemma QuietKeepsLinks(st: State, l: Lid, rl: Rl)
    requires Linked(st) && l in st.rls && rl.queue == st.rls[l].queue && rl.splits == st.rls[l].splits
    ensures Linked(st.(rls := st.rls[l := rl]))
  {
    forall j | 0 <= j < |st.cbs| ensures FedBy(st.rls[l].queue[j], rl.queue[j], l) {
      NothingFed(rl.queue[j], l);
    }
    UpdateKeepsLinks(st, l, rl);
  }

  lemma EnqueueKeepsLinks(st: State, l: Lid, c: nat, p: Packet, gso: Gso)
    requires Linked(st) && l in st.rls && l.Dest? && c < |st.cbs|
    ensures Linked(EnqueuedAt(st, l, c, p, gso))
  {
    var p' := p.(flow := l);
    var rl := Enqueued(st.rls[l], c, p', st.clock, false, gso).rl;
    EnqueueFeeds(st.rls[l], c, p', st.clock, false, gso, l);
    forall j | 0 <= j < |st.cbs| ensures FedBy(st.rls[l].queue[j], rl.queue[j], l) {
      if j != c { NothingFed(rl.queue[j], l); }
    }
    var ops := EnqueuedOps(st.rls[l], c, p', st.clock, false, gso, Anything);
    BooksKept(st.rls[l], ops);
    hide Enqueued;
    UpdateKeepsLinks(st, l, rl);
  }

  lemma CreateKeepsLinks(st: State, l: Lid)
    requires Linked(st) && l !in st.rls && (l.Dest? ==> Root(l.cls) in st.rls)
    ensures Linked(st.(rls := st.rls[l := NewRl(|st.cbs|, st.clock)]))
  {
    var rl := NewRl(|st.cbs|, st.clock);
    var st' := st.(rls := st.rls[l := rl]);
    assert WF(st');
    forall m, j: nat | m in st'.rls && j < |st'.cbs| ensures LinkedAt(st', m, j) {
      if m == l && l.Root? {
        assert CbLink(st.cbs[j], st.rls.Keys);
        OfForeign(l, st.cbs[j].wire);
      } else if m == l {
        assert LinkedAt(st, Root(l.cls), j);
        OfForeign(l, st.rls[Root(l.cls)].queue[j].accepted);
      } else {
        assert LinkedAt(st, m, j);
      }
    }
  }

  lemma ClockPassesKeepsLinks(st: State, dt: nat)
    requires Linked(st)
    ensures Linked(Advanced(st, dt))
  {
    var st' := Advanced(st, dt);
    forall m, j: nat | m in st'.rls && j < |st'.cbs| ensures LinkedAt(st', m, j) {
      assert LinkedAt(st, m, j);
    }
  }

  lemma ServiceKeepsLinks(st: State, c: nat, luck: Luck, gso: Gso)
    requires Linked(st) && c < |st.cbs| && st.cbs[c].active != []
    ensures Linked(ServiceHead(st, c, luck, gso).st)
  {
    var l := st.cbs[c].active[0];
    ServicePrepares(st, c, luck);
    var st1 := Advanced(st, luck.dt);
    ClockPassesKeepsLinks(st, luck.dt);
    RescheduleKeepsLinks(st1, c, st1.cbs[c].(active := st1.cbs[c].active[1..]));
    var st2 := Popped(st1, c);
    QuietKeepsLinks(st2, l, Clocked(st2.rls[l], st2.clock));
    hide DequeueAt;
    DequeueKeepsLinks(ClockedAt(st2, l), l, c, luck, gso);
  }

  lemma {:induction false} SweepKeepsLinks(st: State, c: nat, first: Lid, k: nat, sent: nat, lucks: seq<Luck>, gso: Gso)
    requires Linked(st) && c < |st.cbs| && st.cbs[c].active != [] && k >= 1
    ensures Linked(Sweep(st, c, first, k, sent, lucks, gso).st)
    decreases TASKLET_BUDGET - k
  {
    hide ServiceHead;
    var active := st.cbs[c].active;
    if !StopsBefore(active, first, k, sent) {
      var luck := LuckAt(lucks, k - 1);
      ServiceFrame(st, c, luck, gso);
      ServiceKeepsLinks(st, c, luck, gso);
      var d := ServiceHead(st, c, luck, gso);
      if |active| != 1 {
        SweepKeepsLinks(d.st, c, first, k + 1, sent + d.sum, lucks, gso);
      }
    }
  }

  lemma TaskletKeepsLinks(st: State, c: nat, lucks: seq<Luck>, gso: Gso)
    requires Linked(st) && c < |st.cbs|
    ensures Linked(TaskletRun(st, c, lucks, gso).st)
  {
    var st1 := WithCb(st, c, st.cbs[c].(pending := false));
    RescheduleKeepsLinks(st, c, st1.cbs[c]);
    hide Sweep;
    if !st1.exiting && st1.cbs[c].active != [] {
      SweepKeepsLinks(st1, c, st1.cbs[c].active[0], 1, 0, lucks, gso);
      var s := Sweep(st1, c, st1.cbs[c].active[0], 1, 0, lucks, gso);
      RescheduleKeepsLinks(s.st, c, s.st.cbs[c].(armed := true));
    }
  }

  lemma EnqueuedHas(st: State, l: Lid, c: nat, p: Packet, gso: Gso)
    requires WF(st) && l in st.rls && c < |st.cbs|
    ensures var r := EnqueuedAt(st, l, c, p, gso); l in r.rls && |r.cbs| == |st.cbs|
  {
  }

  lemma TxKeepsLinks(st: State, l: Lid, c: nat, p: Packet, luck: Luck, gso: Gso)
    requires Linked(st) && l in st.rls && l.Dest? && c < |st.cbs|
    ensures Linked(Step(st, Tx(l, c, p, luck), gso))
  {
    var st1 := Advanced(st, luck.dt);
    ClockPassesKeepsLinks(st, luck.dt);
    EnqueueKeepsLinks(st1, l, c, p, gso);
    hide DequeueAt, EnqueuedAt;
    assert l in EnqueuedAt(st1, l, c, p, gso).rls && |EnqueuedAt(st1, l, c, p, gso).cbs| == |st.cbs| by {
      EnqueuedHas(st1, l, c, p, gso);
    }
    DequeueKeepsLinks(EnqueuedAt(st1, l, c, p, gso), l, c, luck, gso);
  }

  lemma ExitKeepsLinks(st: State)
    requires Linked(st)
    ensures Linked(st.(exiting := true))
  {
    var st' := st.(exiting := true);
    forall m, j: nat | m in st'.rls && j < |st'.cbs| ensures LinkedAt(st', m, j) {
      assert LinkedAt(st, m, j);
    }
  }

  /** Every step keeps both levels linked. */
  lemma StepKeepsLinks(st: State, e: Event, gso: Gso)
    requires Linked(st)
    ensures Linked(Step(st, e, gso))
  {
    hide DequeueAt, EnqueuedAt, TaskletRun;
    match e {
      case Tx(l, c, p, luck) =>
        if l in st.rls && l.Dest? && c < |st.cbs| { TxKeepsLinks(st, l, c, p, luck, gso); }
      case Timer(c) =>
        if c < |st.cbs| && st.cbs[c].armed {
          RescheduleKeepsLinks(st, c, st.cbs[c].(armed := false, pending := true));
        }
      case Tasklet(c, lucks) =>
        if c < |st.cbs| && st.cbs[c].pending { TaskletKeepsLinks(st, c, lucks, gso); }
      case Retune(l, rate) => if l in st.rls { QuietKeepsLinks(st, l, st.rls[l].(rate := rate)); }
      case Feedback(l, rate) =>
        if l in st.rls { QuietKeepsLinks(st, l, st.rls[l].(rate := rate, lastRate := st.clock)); }
      case Create(l) =>
        if l !in st.rls && (l.Dest? ==> Root(l.cls) in st.rls) { CreateKeepsLinks(st, l); }
      case Advance(dt) => ClockPassesKeepsLinks(st, dt);
      case Exit => ExitKeepsLinks(st);
    }
  }

  lemma {:induction false} RunKeepsLinks(st: State, es: seq<Event>, gso: Gso)
    requires Linked(st)
    ensures Linked(Run(st, es, gso))
    decreases |es|
  {
    if es != [] {
      StepKeepsLinks(st, es[0], gso);
      hide Step;
      RunKeepsLinks(Step(st, es[0], gso), es[1..], gso);
    }
  }

  lemma BootedIsLinked(ncpu: nat)
    ensures Linked(Booted(ncpu))
  {
  }

  // ---- the theorems ----

  /** On one CPU, what the wire carries of a destination, then what the class queue holds of it, then
      the destination queue, is exactly what the destination limiter accepted, in order: nothing
      lost, duplicated or reordered, unless the class limiter has had to segment a buffer. */
  lemma TwoLevelFifo(st: State, l: Lid, c: nat)
    requires Linked(st) && l in st.rls && l.Dest? && c < |st.cbs|
    requires st.rls[Root(l.cls)].splits == 0
    ensures var child, root := st.rls[l].queue[c], st.rls[Root(l.cls)].queue[c];
            Of(l, st.cbs[c].wire) + Of(l, root.list) + Plain(child.list) == Plain(child.accepted)
  {
    var child, root := st.rls[l].queue[c], st.rls[Root(l.cls)].queue[c];
    assert LinkedAt(st, l, c) && LinkedAt(st, Root(l.cls), c) && Books(child) && Books(root);
    OfThroughClass(l, st.cbs[c].wire);
    OfIgnoresMarks(l, root.departed);
    OfConcat(l, root.departed, root.list);
    PlainConcat(child.departed, child.list);
  }

  /** The same over every run from boot. */
  lemma RunTwoLevelFifo(ncpu: nat, es: seq<Event>, gso: Gso, l: Lid, c: nat)
    requires var st := Run(Booted(ncpu), es, gso);
             l in st.rls && l.Dest? && c < ncpu && st.rls[Root(l.cls)].splits == 0
    ensures var st := Run(Booted(ncpu), es, gso);
            var child, root := st.rls[l].queue[c], st.rls[Root(l.cls)].queue[c];
            Of(l, st.cbs[c].wire) + Of(l, root.list) + Plain(child.list) == Plain(child.accepted)
  {
    BootedIsLinked(ncpu);
    RunKeepsLinks(Booted(ncpu), es, gso);
    TwoLevelFifo(Run(Booted(ncpu), es, gso), l, c);
  }

  /** Buffers of at most GSO_MIN_SPLIT_BYTES are never segmented, so for them the FIFO law needs no
      condition on the run at all. */
  lemma {:induction false} RunNeverSplits(st: State, es: seq<Event>, gso: Gso, b: Bounds)
    requires WF(st) && RunWithin(es, b) && AllBounded(st, b) && Limits(gso, b)
    requires b.Bounds? && b.pmax <= GSO_MIN_SPLIT_BYTES
    requires forall l :: l in st.rls ==> st.rls[l].splits == 0
    ensures forall l :: l in Run(st, es, gso).rls ==> Run(st, es, gso).rls[l].splits == 0
    decreases |es|
  {
    if es != [] {
      assert es[0] in es && RunWithin(es[1..], b);
      var st' := Step(st, es[0], gso);
      StepFrame(st, es[0], gso);
      StepKeepsBounded(st, es[0], gso, b);
      forall m | m in st'.rls ensures st'.rls[m].splits == 0 {
        if m in st.rls {
          var ops := StepOps(st, es[0], gso, m, b);
          NeverSplits(st.rls[m], ops, b);
        } else {
          NewOnlyByCreate(st, es[0], gso, m);
        }
      }
      hide Step;
      RunNeverSplits(st', es[1..], gso, b);
    }
  }

  /** The destination limiters of a class, and the class limiters. */
  ghost function Children(st: State, k: nat): set<Lid> { set l | l in st.rls && l.Dest? && l.cls == k }

  ghost function Roots(st: State): set<Lid> { set l | l in st.rls && l.Root? }

  ghost function XmitBy(st: State, s: set<Lid>, c: nat): map<Lid, nat>
    requires WF(st) && c < |st.cbs| && s <= st.rls.Keys
  {
    map l | l in s :: st.rls[l].queue[c].xmit
  }

  /** Level one: every queue's accepted bytes are sent or still queued, to the byte. */
  lemma QueueLedger(st: State, l: Lid, c: nat)
    requires Linked(st) && l in st.rls && c < |st.cbs|
    ensures var q := st.rls[l].queue[c];
            q.enqueued == Bytes(q.list) && Bytes(q.accepted) == q.xmit + q.enqueued && q.enqueued >= 0
  {
    var q := st.rls[l].queue[c];
    assert Books(q);
    BytesConcat(q.departed, q.list);
  }

  /** Level two: on each CPU, what the destination limiters of a class sent is what the class
      limiter sent plus what it holds. */
  lemma ClassLedger(st: State, k: nat, c: nat)
    requires Linked(st) && Root(k) in st.rls && c < |st.cbs| && st.rls[Root(k)].splits == 0
    ensures var root := st.rls[Root(k)].queue[c];
            SumOver(Children(st, k), XmitBy(st, Children(st, k), c)) == root.xmit + root.enqueued
  {
    var root := st.rls[Root(k)].queue[c];
    var s := Children(st, k);
    assert LinkedAt(st, Root(k), c) && Books(root);
    forall p | p in root.accepted ensures Carried(s, p) {
      assert p.flow in s && Belongs(p, p.flow);
    }
    BytesSplit(s, root.accepted);
    forall l | l in s ensures BytesBy(s, root.accepted)[l] == XmitBy(st, s, c)[l] {
      assert LinkedAt(st, l, c) && Books(st.rls[l].queue[c]);
      PlainBytes(st.rls[l].queue[c].departed);
    }
    assert BytesBy(s, root.accepted) == XmitBy(st, s, c);
    QueueLedger(st, Root(k), c);
  }

  /** Level three: a CPU's `tx_bytes` is the sum of what its class limiters sent. */
  lemma DeviceLedger(st: State, c: nat)
    requires Linked(st) && c < |st.cbs|
    ensures st.cbs[c].txBytes == SumOver(Roots(st), XmitBy(st, Roots(st), c))
  {
    var s, wire := Roots(st), st.cbs[c].wire;
    assert CbLink(st.cbs[c], st.rls.Keys);
    forall p | p in wire ensures Carried(s, p) {
      assert Root(p.flow.cls) in s && Belongs(p, Root(p.flow.cls));
    }
    BytesSplit(s, wire);
    forall l | l in s ensures BytesBy(s, wire)[l] == XmitBy(st, s, c)[l] {
      assert LinkedAt(st, l, c) && Books(st.rls[l].queue[c]);
      PlainBytes(st.rls[l].queue[c].departed);
    }
    assert BytesBy(s, wire) == XmitBy(st, s, c);
  }

  /** The ledgers over every run from boot, at all three levels: destination queues, class limiters
      that have not had to segment, and CPUs. */
  lemma LifetimeLedgers(ncpu: nat, es: seq<Event>, gso: Gso, k: nat, c: nat)
    requires Root(k) in Run(Booted(ncpu), es, gso).rls && c < ncpu
    ensures var st := Run(Booted(ncpu), es, gso);
            var root := st.rls[Root(k)].queue[c];
            && (forall l :: l in st.rls ==> Bytes(st.rls[l].queue[c].accepted)
                                              == st.rls[l].queue[c].xmit + st.rls[l].queue[c].enqueued)
            && (st.rls[Root(k)].splits == 0 ==>
                  SumOver(Children(st, k), XmitBy(st, Children(st, k), c)) == root.xmit + root.enqueued)
            && st.cbs[c].txBytes == SumOver(Roots(st), XmitBy(st, Roots(st), c))
  {
    hide Run;
    var st := Run(Booted(ncpu), es, gso);
    BootedIsLinked(ncpu);
    RunKeepsLinks(Booted(ncpu), es, gso);
    hide Linked;
    forall l | l in st.rls
      ensures Bytes(st.rls[l].queue[c].accepted) == st.rls[l].queue[c].xmit + st.rls[l].queue[c].enqueued
    {
      QueueLedger(st, l, c);
    }
    if st.rls[Root(k)].splits == 0 { ClassLedger(st, k, c); }
    DeviceLedger(st, c);
  }

  lemma LifetimeNeverSplits(ncpu: nat, es: seq<Event>, gso: Gso, b: Bounds)
    requires RunWithin(es, b) && Limits(gso, b) && b.Bounds? && b.pmax <= GSO_MIN_SPLIT_BYTES
    ensures forall l :: l in Run(Booted(ncpu), es, gso).rls ==> Run(Booted(ncpu), es, gso).rls[l].splits == 0
  {
    SameFrom(Booted(ncpu), es, gso, b, 0);
    RunNeverSplits(Booted(ncpu), es, gso, b.(since := 0));
  }

  /** For buffers of at most GSO_MIN_SPLIT_BYTES the FIFO law and the class ledger hold of every run
      from boot, with no condition on the run. */
  lemma SmallBuffersFifo(ncpu: nat, es: seq<Event>, gso: Gso, b: Bounds, l: Lid, c: nat)
    requires RunWithin(es, b) && Limits(gso, b) && b.Bounds? && b.pmax <= GSO_MIN_SPLIT_BYTES
    requires l in Run(Booted(ncpu), es, gso).rls && l.Dest? && c < ncpu
    ensures var st := Run(Booted(ncpu), es, gso);
            && Root(l.cls) in st.rls
            && var child, root := st.rls[l].queue[c], st.rls[Root(l.cls)].queue[c];
            && Of(l, st.cbs[c].wire) + Of(l, root.list) + Plain(child.list) == Plain(child.accepted)
            && SumOver(Children(st, l.cls), XmitBy(st, Children(st, l.cls), c)) == root.xmit + root.enqueued
  {
    hide Run, RunWithin, Limits, Of, Plain;
    LifetimeNeverSplits(ncpu, es, gso, b);
    RunTwoLevelFifo(ncpu, es, gso, l, c);
    LifetimeLedgers(ncpu, es, gso, l.cls, c);
  }
}
