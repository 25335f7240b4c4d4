/** What one call does to a queue: packets are taken whole or refused, the queue limit is
    exceeded by less than one segment, and one dequeue moves a bounded prefix of the list. */
module QueueBounds {
  import opened Params
  import opened Limiter

  /** On the unsplit path a packet is queued, at full length, exactly when it fits; otherwise the
      limiter is only clocked. So the `skb_trim` branch is dead. */
  lemma TakenWholeOrRefused(rl: Rl, c: nat, p: Packet, now: nat, root: bool, gso: Gso)
    requires c < |rl.queue|
    requires Whole(Clocked(rl, now).rate, p)
    ensures var e := Enqueued(rl, c, p, now, root, gso);
            var q := rl.queue[c];
            && (e.verdict == Success <==> q.enqueued + Size(p) <= MAX_QUEUE_LEN_BYTES)
            && (e.verdict == Success ==>
                  exists p' :: (
                    && p' in [p, p.(ce := true)]
                    && (p'.ce != p.ce ==> root)
                    && e.rl == Clocked(rl, now).(queue := rl.queue[c := Append(q, p')])))
            && (e.verdict != Success ==> e.verdict == Drop && e.rl == Clocked(rl, now))
  {
    var q := rl.queue[c];
    var p' := Marked(q, p, root);
    assert p' in [p, p.(ce := true)];
  }

  /** `iso_rl_has_space_for` is enough: the class limiter never refuses a packet it was asked about. */
  lemma SpaceMeansNoDrop(root: Rl, c: nat, p: Packet, now: nat, gso: Gso)
    requires c < |root.queue| && HasSpaceFor(root, c, p)
    ensures Enqueued(root, c, p, now, true, gso).verdict != Drop
  {
    if Whole(Clocked(root, now).rate, p) {
      TakenWholeOrRefused(root, c, p, now, true, gso);
    }
  }

  lemma {:induction false} KeepSegmentsBound(q: Queue, segs: seq<Packet>, s: nat)
    requires forall p :: p in segs ==> Size(p) <= s
    requires q.enqueued < MAX_QUEUE_LEN_BYTES + s
    ensures KeepSegments(q, segs).enqueued < MAX_QUEUE_LEN_BYTES + s
    decreases |segs|
  {
    if segs != [] {
      assert segs[0] in segs;
      KeepSegmentsBound(if q.enqueued < MAX_QUEUE_LEN_BYTES then Append(q, segs[0]) else q, segs[1..], s);
    }
  }

  /** Whatever path a packet takes, the queue stays less than one segment above its limit. */
  lemma OvershootBelowOneSegment(rl: Rl, c: nat, p: Packet, now: nat, root: bool, gso: Gso, s: nat)
    requires c < |rl.queue| && s > 0
    requires forall seg :: seg in gso(p) ==> Size(seg) <= s
    requires rl.queue[c].enqueued < MAX_QUEUE_LEN_BYTES + s
    ensures Enqueued(rl, c, p, now, root, gso).rl.queue[c].enqueued < MAX_QUEUE_LEN_BYTES + s
  {
    if Whole(Clocked(rl, now).rate, p) {
      TakenWholeOrRefused(rl, c, p, now, root, gso);
    } else {
      var segs := Stamped(gso(p), p.flow);
      forall seg | seg in segs ensures Size(seg) <= s {
        var i :| 0 <= i < |segs| && segs[i] == seg;
        assert gso(p)[i] in gso(p);
      }
      KeepSegmentsBound(rl.queue[c], segs, s);
    }
  }

  /** How many packets a call took off the front of `q`, given the queue it left. */
  function Taken(q: Queue, q': Queue): int { |q.list| - |q'.list| }

  /** `q'` is `q` after a prefix of its list departed: contents, counters, price, and nothing else. */
  predicate PrefixDeparted(q: Queue, q': Queue) {
    var n := Taken(q, q');
    && 0 <= n <= |q.list|
    && q'.list == q.list[n..]
    && q'.departed == q.departed + q.list[..n]
    && q'.accepted == q.accepted
    && q'.xmit == q.xmit + Bytes(q.list[..n])
    && q'.enqueued == q.enqueued - Bytes(q.list[..n])
    && q'.tokens + Bytes(q.list[..n]) == q.tokens
  }

  lemma NothingDeparted(q: Queue)
    ensures PrefixDeparted(q, q)
  {
    assert q.list[..0] == [];
  }

  lemma HeadDeparted(q: Queue, q': Queue)
    requires q.list != [] && Size(q.list[0]) <= q.tokens
    requires PrefixDeparted(Departed(q), q')
    ensures PrefixDeparted(q, q')
  {
    var n := Taken(q, q');
    var d := Departed(q);
    assert q.list[..n] == [q.list[0]] + d.list[..n - 1];
    BytesConcat([q.list[0]], d.list[..n - 1]);
    assert d.list[n - 1..] == q.list[n..];
    assert q.departed + q.list[..n] == d.departed + d.list[..n - 1];
  }

  lemma MeasuringIsNeutral(q: Queue, q': Queue)
    requires q.list != []
    ensures PrefixDeparted(Measured(q), q') <==> PrefixDeparted(q, q')
  {
  }

  /** One turn of each send loop. */
  lemma RootTurn(q: Queue, sum: nat)
    requires q.list != [] && Size(q.list[0]) <= q.tokens && sum <= 2 * MIN_BURST_BYTES
    ensures var q' := Departed(q);
            DrainRoot(q, sum) == if q'.list == [] then Drained(q', sum, false)
                                 else DrainRoot(Measured(q'), sum + Size(q'.list[0]))
  {
  }

  lemma RootStops(q: Queue, sum: nat)
    requires q.list != [] && !(Size(q.list[0]) <= q.tokens && sum <= 2 * MIN_BURST_BYTES)
    ensures DrainRoot(q, sum) == Drained(q, sum, true)
  {
  }

  lemma ChildTurn(q: Queue, root: Rl, c: nat, now: nat, gso: Gso, sum: nat)
    requires q.list != [] && Size(q.list[0]) <= q.tokens && sum <= 2 * MIN_BURST_BYTES
    requires c < |root.queue| && HasSpaceFor(root, c, q.list[0])
    ensures |Enqueued(root, c, q.list[0], now, true, gso).rl.queue| == |root.queue|
    ensures var q' := Departed(q);
            var root' := Enqueued(root, c, q.list[0], now, true, gso).rl;
            DrainChild(q, root, c, now, gso, sum)
            == if q'.list == [] then Fed(q', root', sum, false)
               else DrainChild(Measured(q'), root', c, now, gso, sum + Size(q'.list[0]))
  {
    EnqueuedKeepsShape(root, c, q.list[0], now, true, gso);
  }

  lemma ChildStops(q: Queue, root: Rl, c: nat, now: nat, gso: Gso, sum: nat)
    requires q.list != [] && c < |root.queue|
    requires !(Size(q.list[0]) <= q.tokens && sum <= 2 * MIN_BURST_BYTES && HasSpaceFor(root, c, q.list[0]))
    ensures DrainChild(q, root, c, now, gso, sum) == Fed(q, root, sum, true)
  {
  }

  /** One packet departs, and then either nothing is left or a prefix of the rest departs too. */
  lemma PrefixTurn(q: Queue, q': Queue)
    requires q.list != [] && Size(q.list[0]) <= q.tokens
    requires var d := Departed(q); if d.list == [] then q' == d else PrefixDeparted(Measured(d), q')
    ensures PrefixDeparted(q, q')
  {
    var d := Departed(q);
    NothingDeparted(d);
    if d.list != [] {
      MeasuringIsNeutral(d, q');
    }
    HeadDeparted(q, q');
  }

  /** The send loop takes a prefix of the list. */
  lemma {:induction false} DrainRootPrefix(q: Queue, sum: nat)
    requires q.list != []
    ensures PrefixDeparted(q, DrainRoot(q, sum).q)
    decreases |q.list|
  {
    hide DrainRoot, PrefixDeparted;
    if Size(q.list[0]) <= q.tokens && sum <= 2 * MIN_BURST_BYTES {
      RootTurn(q, sum);
      var d := Departed(q);
      if d.list != [] {
        DrainRootPrefix(Measured(d), sum + Size(d.list[0]));
      }
      PrefixTurn(q, DrainRoot(q, sum).q);
    } else {
      RootStops(q, sum);
      NothingDeparted(q);
    }
  }

  lemma {:induction false} DrainChildPrefix(q: Queue, root: Rl, c: nat, now: nat, gso: Gso, sum: nat)
    requires q.list != [] && c < |root.queue|
    ensures PrefixDeparted(q, DrainChild(q, root, c, now, gso, sum).q)
    decreases |q.list|
  {
    hide DrainChild, PrefixDeparted, Enqueued;
    if Size(q.list[0]) <= q.tokens && sum <= 2 * MIN_BURST_BYTES && HasSpaceFor(root, c, q.list[0]) {
      ChildTurn(q, root, c, now, gso, sum);
      var d := Departed(q);
      if d.list != [] {
        DrainChildPrefix(Measured(d), Enqueued(root, c, q.list[0], now, true, gso).rl, c, now, gso,
                         sum + Size(d.list[0]));
      }
      PrefixTurn(q, DrainChild(q, root, c, now, gso, sum).q);
    } else {
      ChildStops(q, root, c, now, gso, sum);
      NothingDeparted(q);
    }
  }

  /** Bytes sent plus the size of the head left behind, as a function of the queue left. */
  function SentPlusHead(before: Queue, after: Queue): int {
    after.xmit - before.xmit + (if after.list == [] then 0 else Size(after.list[0]))
  }

  /** The class limiter's send loop: the returned sum is bytes sent plus the head left, the queue
      asks for more service exactly when it is not empty, and it stops within
      2 * MIN_BURST_BYTES. `sent` is what the loop has sent before this iteration. */
  lemma {:induction false} DrainRootWork(q: Queue, sent: nat)
    requires q.list != [] && sent <= 2 * MIN_BURST_BYTES
    ensures var d := DrainRoot(q, sent + Size(q.list[0]));
            && d.sum == sent + SentPlusHead(q, d.q)
            && sent + (d.q.xmit - q.xmit) <= 2 * MIN_BURST_BYTES
            && (d.timeout <==> d.q.list != [])
    decreases |q.list|
  {
    var sum := sent + Size(q.list[0]);
    if Size(q.list[0]) <= q.tokens && sum <= 2 * MIN_BURST_BYTES {
      var q' := Departed(q);
      if q'.list != [] {
        DrainRootWork(Measured(q'), sum);
      }
    }
  }

  /** The same for a destination limiter, whatever the class limiter does with the packets. */
  lemma {:induction false} DrainChildWork(q: Queue, root: Rl, c: nat, now: nat, gso: Gso, sent: nat)
    requires q.list != [] && c < |root.queue| && sent <= 2 * MIN_BURST_BYTES
    ensures var d := DrainChild(q, root, c, now, gso, sent + Size(q.list[0]));
            && d.sum == sent + SentPlusHead(q, d.q)
            && sent + (d.q.xmit - q.xmit) <= 2 * MIN_BURST_BYTES
            && (d.timeout <==> d.q.list != [])
    decreases |q.list|
  {
    hide Enqueued;
    var sum := sent + Size(q.list[0]);
    if Size(q.list[0]) <= q.tokens && sum <= 2 * MIN_BURST_BYTES && HasSpaceFor(root, c, q.list[0]) {
      EnqueuedKeepsShape(root, c, q.list[0], now, true, gso);
      var q' := Departed(q);
      var root' := Enqueued(root, c, q.list[0], now, true, gso).rl;
      if q'.list != [] {
        DrainChildWork(Measured(q'), root', c, now, gso, sum);
      }
    }
  }

  /** An enqueue touches no other CPU's queue; neither does a destination limiter's send loop in its
      class limiter. */
  lemma EnqueueElsewhere(rl: Rl, c: nat, p: Packet, now: nat, root: bool, gso: Gso)
    requires c < |rl.queue|
    ensures var rl' := Enqueued(rl, c, p, now, root, gso).rl;
            |rl'.queue| == |rl.queue| && forall j :: 0 <= j < |rl.queue| && j != c ==> rl'.queue[j] == rl.queue[j]
  {
  }

  lemma {:induction false} DrainChildElsewhere(q: Queue, root: Rl, c: nat, now: nat, gso: Gso, sum: nat)
    requires q.list != [] && c < |root.queue|
    ensures var root' := DrainChild(q, root, c, now, gso, sum).root;
            forall j :: 0 <= j < |root.queue| && j != c ==> root'.queue[j] == root.queue[j]
    decreases |q.list|
  {
    hide Enqueued;
    if Size(q.list[0]) <= q.tokens && sum <= 2 * MIN_BURST_BYTES && HasSpaceFor(root, c, q.list[0]) {
      EnqueueElsewhere(root, c, q.list[0], now, true, gso);
      var q' := Departed(q);
      var root' := Enqueued(root, c, q.list[0], now, true, gso).rl;
      if q'.list != [] {
        DrainChildElsewhere(Measured(q'), root', c, now, gso, sum + Size(q'.list[0]));
      }
    }
  }

  lemma ServeChildElsewhere(rl: Rl, root: Rl, c: nat, now: nat, lock: bool, gso: Gso)
    requires c < |rl.queue| && c < |root.queue|
    ensures var root' := ServeChild(rl, root, c, now, lock, gso).root;
            forall j :: 0 <= j < |root.queue| && j != c ==> root'.queue[j] == root.queue[j]
  {
    var (rl1, blocked) := Funded(rl, c, lock);
    if !blocked && rl1.queue[c].list != [] {
      DrainChildElsewhere(Measured(rl1.queue[c]), root, c, now, gso, Size(rl1.queue[c].list[0]));
    }
  }

  /** What one `iso_rl_dequeue` does to the queue it is called on, for a class limiter: unless the
      borrow lost the lock race it returns bytes sent plus the head left, sends at most
      2 * MIN_BURST_BYTES, and asks to be serviced again exactly when packets remain. */
  lemma ServeRootWork(rl: Rl, c: nat, lock: bool)
    requires c < |rl.queue|
    ensures var s := ServeRoot(rl, c, lock);
            var before := Funded(rl, c, lock).0.queue[c];
            && PrefixDeparted(before, s.rl.queue[c])
            && s.rl.queue[c].xmit - before.xmit <= 2 * MIN_BURST_BYTES
            && (forall j :: 0 <= j < |rl.queue| && j != c ==> s.rl.queue[j] == rl.queue[j])
            && (s.rl.queue[c].list != [] ==> s.timeout)
            && (s.timeout && s.rl.queue[c].list == [] ==> Funded(rl, c, lock).1)
            && (!Funded(rl, c, lock).1 ==> s.sum == SentPlusHead(before, s.rl.queue[c]))
            && (Funded(rl, c, lock).1 ==> s == Served(rl, 0, true))
  {
    var (rl1, blocked) := Funded(rl, c, lock);
    var q := rl1.queue[c];
    NothingDeparted(q);
    if !blocked && q.list != [] {
      DrainRootWork(Measured(q), 0);
      DrainRootPrefix(Measured(q), Size(q.list[0]));
      hide DrainRoot, PrefixDeparted;
      MeasuringIsNeutral(q, ServeRoot(rl, c, lock).rl.queue[c]);
    }
  }

  /** The same for a destination limiter's queue. */
  lemma ServeChildWork(rl: Rl, root: Rl, c: nat, now: nat, lock: bool, gso: Gso)
    requires c < |rl.queue| && c < |root.queue|
    ensures var s := ServeChild(rl, root, c, now, lock, gso);
            var before := Funded(rl, c, lock).0.queue[c];
            && PrefixDeparted(before, s.rl.queue[c])
            && s.rl.queue[c].xmit - before.xmit <= 2 * MIN_BURST_BYTES
            && (forall j :: 0 <= j < |rl.queue| && j != c ==> s.rl.queue[j] == rl.queue[j])
            && (s.rl.queue[c].list != [] ==> s.timeout)
            && (s.timeout && s.rl.queue[c].list == [] ==> s.blocked)
            && (!s.blocked ==> s.sum == SentPlusHead(before, s.rl.queue[c]))
            && (s.blocked ==> s == ServedChild(rl, root, 0, true, true))
  {
    var (rl1, blocked) := Funded(rl, c, lock);
    var q := rl1.queue[c];
    NothingDeparted(q);
    if !blocked && q.list != [] {
      DrainChildWork(Measured(q), root, c, now, gso, 0);
      DrainChildPrefix(Measured(q), root, c, now, gso, Size(q.list[0]));
      hide DrainChild, PrefixDeparted;
      MeasuringIsNeutral(q, ServeChild(rl, root, c, now, lock, gso).rl.queue[c]);
    }
  }
}
