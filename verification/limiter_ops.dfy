/** The elementary actions on one limiter, on any CPU and in any order, and the proof that every
    function of rl.c is a sequence of them. What every sequence of actions keeps is therefore
    kept by every interleaving of the functions, on any number of CPUs. */
module LimiterOps {
  import opened Params
  import opened Limiter
  import opened QueueBounds

  datatype Op =
    | Refill(now: nat)                       // iso_rl_clock
    | Borrow(c: nat)                         // iso_rl_borrow_tokens, lock taken
    | Measure(c: nat)                        // first_pkt_size := size of the head
    | Depart(c: nat)                         // the head is sent, or moved to the class limiter
    | Take(c: nat, p: Packet)                // a packet or segment is queued
    | Cut                                    // a buffer is segmented
    | SetRate(rate: nat, lastRate: nat)      // tick, reconfiguration or feedback

  /** An action whose guard in the code fails changes nothing. */
  function Do(rl: Rl, op: Op): Rl {
    match op
    case Refill(now) => Clocked(rl, now)
    case Borrow(c) =>
      if c < |rl.queue| && rl.queue[c].tokens < rl.queue[c].first then Borrowed(rl, c) else rl
    case Measure(c) =>
      if c < |rl.queue| && rl.queue[c].list != [] then rl.(queue := rl.queue[c := Measured(rl.queue[c])]) else rl
    case Depart(c) =>
      if c < |rl.queue| && rl.queue[c].list != [] && Size(rl.queue[c].list[0]) <= rl.queue[c].tokens
      then rl.(queue := rl.queue[c := Departed(rl.queue[c])]) else rl
    case Take(c, p) =>
      if c < |rl.queue| then rl.(queue := rl.queue[c := Append(rl.queue[c], p)]) else rl
    case Cut => rl.(splits := rl.splits + 1)
    case SetRate(rate, lastRate) => rl.(rate := rate, lastRate := lastRate)
  }

  function DoAll(rl: Rl, ops: seq<Op>): Rl
    decreases |ops|
  {
    if ops == [] then rl else DoAll(Do(rl, ops[0]), ops[1..])
  }

  lemma {:induction false} DoAllConcat(rl: Rl, a: seq<Op>, b: seq<Op>)
    ensures DoAll(rl, a + b) == DoAll(DoAll(rl, a), b)
    decreases |a|
  {
    if a == [] {
      assert a + b == b;
    } else {
      assert (a + b)[1..] == a[1..] + b;
      DoAllConcat(Do(rl, a[0]), a[1..], b);
    }
  }

  /** What is known about the rates that get set, the packets that get queued and the times of the
      refills: a bound on each, or nothing. */
  datatype Bounds = Anything | Bounds(rmax: nat, pmax: nat, since: nat)

  predicate RateOk(rate: nat, b: Bounds) { b.Bounds? ==> rate <= b.rmax }

  predicate SizeOk(p: Packet, b: Bounds) { b.Bounds? ==> Size(p) <= b.pmax }

  predicate TimeOk(now: nat, b: Bounds) { b.Bounds? ==> b.since <= now }

  ghost predicate OpOk(op: Op, b: Bounds) {
    && (op.Refill? ==> TimeOk(op.now, b))
    && (op.SetRate? ==> RateOk(op.rate, b))
    && (op.Take? ==> SizeOk(op.p, b))
    && (op.Cut? ==> b.Bounds? ==> b.pmax > GSO_MIN_SPLIT_BYTES)
  }

  ghost predicate Within(ops: seq<Op>, b: Bounds) {
    forall op :: op in ops ==> OpOk(op, b)
  }

  ghost predicate SmallList(ps: seq<Packet>, b: Bounds) {
    forall p :: p in ps ==> SizeOk(p, b)
  }

  /** Segmenting a buffer that may be segmented produces none larger than the bound. */
  ghost predicate SmallSegments(gso: Gso, b: Bounds) {
    forall p: Packet :: Size(p) > GSO_MIN_SPLIT_BYTES && SizeOk(p, b) ==> SmallList(gso(p), b)
  }

  // ---- every function of rl.c is a sequence of actions ----

  lemma KeepSegmentsOps(rl: Rl, c: nat, segs: seq<Packet>, b: Bounds) returns (ops: seq<Op>)
    requires c < |rl.queue|
    requires SmallList(segs, b)
    ensures DoAll(rl, ops) == rl.(queue := rl.queue[c := KeepSegments(rl.queue[c], segs)])
    ensures Within(ops, b)
    decreases |segs|
  {
    var q := rl.queue[c];
    if segs == [] {
      ops := [];
      assert rl.queue[c := q] == rl.queue;
    } else {
      assert segs[0] in segs;
      if q.enqueued < MAX_QUEUE_LEN_BYTES {
        var rl1 := Do(rl, Take(c, segs[0]));
        var rest := KeepSegmentsOps(rl1, c, segs[1..], b);
        ops := [Take(c, segs[0])] + rest;
        assert rl1.queue[c := KeepSegments(q, segs)] == rl.queue[c := KeepSegments(q, segs)];
      } else {
        ops := KeepSegmentsOps(rl, c, segs[1..], b);
      }
    }
  }

  lemma StampedSmall(segs: seq<Packet>, flow: Lid, b: Bounds)
    requires SmallList(segs, b)
    ensures SmallList(Stamped(segs, flow), b)
  {
    forall p | p in Stamped(segs, flow) ensures SizeOk(p, b) {
      var i :| 0 <= i < |segs| && Stamped(segs, flow)[i] == p;
      assert segs[i] in segs;
    }
  }

  lemma EnqueuedOps(rl: Rl, c: nat, p: Packet, now: nat, root: bool, gso: Gso, b: Bounds)
    returns (ops: seq<Op>)
    requires c < |rl.queue| && SizeOk(p, b) && SmallSegments(gso, b) && TimeOk(now, b)
    ensures DoAll(rl, ops) == Enqueued(rl, c, p, now, root, gso).rl
    ensures Within(ops, b)
  {
    var rl1 := Do(rl, Refill(now));
    if Whole(rl1.rate, p) {
      TakenWholeOrRefused(rl, c, p, now, root, gso);
      if Enqueued(rl, c, p, now, root, gso).verdict == Success {
        var p' :| p' in [p, p.(ce := true)] && Enqueued(rl, c, p, now, root, gso).rl
                     == rl1.(queue := rl.queue[c := Append(rl.queue[c], p')]);
        ops := [Refill(now), Take(c, p')];
        assert ops[1..] == [Take(c, p')];
        assert DoAll(rl, ops) == DoAll(rl1, ops[1..]) == Do(rl1, Take(c, p'));
      } else {
        ops := [Refill(now)];
      }
    } else {
      var rl2 := Do(rl1, Cut);
      assert SmallList(gso(p), b);
      StampedSmall(gso(p), p.flow, b);
      ops := KeepSegmentsOps(rl2, c, Stamped(gso(p), p.flow), b);
      if gso(p) == [] {
        ops := [];
      }
      ops := [Refill(now), Cut] + ops;
      assert ops[1..][0] == Cut;
      assert DoAll(rl, ops) == DoAll(rl1, ops[1..]) == DoAll(rl2, ops[1..][1..]);
    }
  }

  /** The send loops are runs of `Depart` and `Measure`. */
  lemma DrainRootOps(rl: Rl, c: nat, sum: nat, b: Bounds) returns (ops: seq<Op>)
    requires c < |rl.queue| && rl.queue[c].list != []
    ensures DoAll(rl, ops) == rl.(queue := rl.queue[c := DrainRoot(rl.queue[c], sum).q])
    ensures Within(ops, b)
    decreases |rl.queue[c].list|
  {
    var q := rl.queue[c];
    if Size(q.list[0]) <= q.tokens && sum <= 2 * MIN_BURST_BYTES {
      var q' := Departed(q);
      var rl1 := Do(rl, Depart(c));
      if q'.list == [] {
        ops := [Depart(c)];
        assert ops[1..] == [];
      } else {
        var rl2 := Do(rl1, Measure(c));
        var rest := DrainRootOps(rl2, c, sum + Size(q'.list[0]), b);
        ops := [Depart(c), Measure(c)] + rest;
        assert ops[1..][0] == Measure(c) && ops[1..][1..] == rest;
        assert DoAll(rl, ops) == DoAll(rl1, ops[1..]) == DoAll(rl2, rest);
        assert rl2.queue[c := DrainRoot(q, sum).q] == rl.queue[c := DrainRoot(q, sum).q];
      }
    } else {
      ops := [];
      assert rl.queue[c := q] == rl.queue;
    }
  }

  lemma DrainChildSelfOps(rl: Rl, root: Rl, c: nat, now: nat, gso: Gso, sum: nat, b: Bounds)
    returns (ops: seq<Op>)
    requires c < |rl.queue| && c < |root.queue| && rl.queue[c].list != []
    ensures DoAll(rl, ops) == rl.(queue := rl.queue[c := DrainChild(rl.queue[c], root, c, now, gso, sum).q])
    ensures Within(ops, b)
    decreases |rl.queue[c].list|
  {
    hide Enqueued;
    var q := rl.queue[c];
    var d := DrainChild(q, root, c, now, gso, sum);
    if Size(q.list[0]) <= q.tokens && sum <= 2 * MIN_BURST_BYTES && HasSpaceFor(root, c, q.list[0]) {
      EnqueuedKeepsShape(root, c, q.list[0], now, true, gso);
      var root' := Enqueued(root, c, q.list[0], now, true, gso).rl;
      var q' := Departed(q);
      var rl1 := Do(rl, Depart(c));
      if q'.list == [] {
        ops := [Depart(c)];
        assert ops[1..] == [];
      } else {
        var rl2 := Do(rl1, Measure(c));
        var rest := DrainChildSelfOps(rl2, root', c, now, gso, sum + Size(q'.list[0]), b);
        ops := [Depart(c), Measure(c)] + rest;
        assert ops[1..][0] == Measure(c) && ops[1..][1..] == rest;
        assert DoAll(rl, ops) == DoAll(rl1, ops[1..]) == DoAll(rl2, rest);
        assert rl2.queue[c := d.q] == rl.queue[c := d.q];
      }
    } else {
      ops := [];
      assert rl.queue[c := q] == rl.queue;
    }
  }

  lemma DrainChildRootOps(q: Queue, root: Rl, c: nat, now: nat, gso: Gso, sum: nat, b: Bounds)
    returns (ops: seq<Op>)
    requires c < |root.queue| && q.list != []
    requires SmallList(q.list, b) && SmallSegments(gso, b) && TimeOk(now, b)
    ensures DoAll(root, ops) == DrainChild(q, root, c, now, gso, sum).root
    ensures Within(ops, b)
    decreases |q.list|
  {
    hide Enqueued;
    ops := [];
    if Size(q.list[0]) <= q.tokens && sum <= 2 * MIN_BURST_BYTES && HasSpaceFor(root, c, q.list[0]) {
      assert q.list[0] in q.list;
      EnqueuedKeepsShape(root, c, q.list[0], now, true, gso);
      ops := EnqueuedOps(root, c, q.list[0], now, true, gso, b);
      var root' := Enqueued(root, c, q.list[0], now, true, gso).rl;
      var q' := Departed(q);
      if q'.list != [] {
        var rest := DrainChildRootOps(Measured(q'), root', c, now, gso, sum + Size(q'.list[0]), b);
        DoAllConcat(root, ops, rest);
        ops := ops + rest;
      }
    }
  }

  lemma FundedOps(rl: Rl, c: nat, lock: bool) returns (ops: seq<Op>)
    requires c < |rl.queue|
    ensures DoAll(rl, ops) == Funded(rl, c, lock).0
    ensures ops == [] || ops == [Borrow(c)]
  {
    ops := if rl.queue[c].tokens < rl.queue[c].first && lock then [Borrow(c)] else [];
  }

  lemma MeasureOps(rl: Rl, c: nat, ops: seq<Op>, q: Queue)
    requires c < |rl.queue| && rl.queue[c].list != []
    requires DoAll(Do(rl, Measure(c)), ops) == Do(rl, Measure(c)).(queue := Do(rl, Measure(c)).queue[c := q])
    ensures DoAll(rl, [Measure(c)] + ops) == rl.(queue := rl.queue[c := q])
  {
    assert ([Measure(c)] + ops)[1..] == ops;
    assert Do(rl, Measure(c)).queue[c := q] == rl.queue[c := q];
  }

  lemma ServeRootOps(rl: Rl, c: nat, lock: bool, b: Bounds) returns (ops: seq<Op>)
    requires c < |rl.queue|
    ensures DoAll(rl, ops) == ServeRoot(rl, c, lock).rl
    ensures Within(ops, b)
  {
    var (rl1, blocked) := Funded(rl, c, lock);
    ops := FundedOps(rl, c, lock);
    if !blocked && rl1.queue[c].list != [] {
      var rl2 := Do(rl1, Measure(c));
      var rest := DrainRootOps(rl2, c, rl2.queue[c].first, b);
      MeasureOps(rl1, c, rest, ServeRoot(rl, c, lock).rl.queue[c]);
      DoAllConcat(rl, ops, [Measure(c)] + rest);
      ops := ops + ([Measure(c)] + rest);
    }
  }

  /** A destination limiter's dequeue is a sequence of actions on it and one on its class limiter. */
  lemma ServeChildOps(rl: Rl, root: Rl, c: nat, now: nat, lock: bool, gso: Gso, b: Bounds)
    returns (ops: seq<Op>, rootOps: seq<Op>)
    requires c < |rl.queue| && c < |root.queue|
    requires SmallList(rl.queue[c].list, b) && SmallSegments(gso, b) && TimeOk(now, b)
    ensures DoAll(rl, ops) == ServeChild(rl, root, c, now, lock, gso).rl
    ensures DoAll(root, rootOps) == ServeChild(rl, root, c, now, lock, gso).root
    ensures Within(ops, b) && Within(rootOps, b)
  {
    var (rl1, blocked) := Funded(rl, c, lock);
    ops := FundedOps(rl, c, lock);
    rootOps := [];
    if !blocked && rl1.queue[c].list != [] {
      var rl2 := Do(rl1, Measure(c));
      var rest := DrainChildSelfOps(rl2, root, c, now, gso, rl2.queue[c].first, b);
      MeasureOps(rl1, c, rest, ServeChild(rl, root, c, now, lock, gso).rl.queue[c]);
      DoAllConcat(rl, ops, [Measure(c)] + rest);
      ops := ops + ([Measure(c)] + rest);
      rootOps := DrainChildRootOps(rl2.queue[c], root, c, now, gso, rl2.queue[c].first, b);
    }
  }
}
