/** What the functions of rl.c do to one limiter, said in bytes, microseconds and Mb/s: when a refill
    slows a limiter down and how much it fills, which packets and segments an enqueue keeps and marks,
    and exactly how much one dequeue sends. */
module LimiterLaws {
  import opened Params
  import opened Limiter
  import opened QueueBounds
  import opened LimiterOps
  import opened Progress

  // ---- refill ----

  /** When a refill happens and what it does to the rate: nothing within 20 microseconds of the last
      one; after a second without feedback the rate is halved, down to 2, and the second starts over;
      after a thousand seconds without a refill a rate above 2500 first drops to 2500. */
  lemma RefillSlows(rl: Rl, now: nat)
    ensures var r, us, late := Clocked(rl, now), UsDelta(now, rl.last), UsDelta(now, rl.lastRate) > 1_000_000;
            var idle := if us > 1_000_000_000 && rl.rate > 2500 then 2500 else rl.rate;
            && (us <= 20 ==> r == rl)
            && (us > 20 ==>
                  && r.last == now && r.queue == rl.queue && r.splits == rl.splits
                  && (!late ==> r.rate == idle && r.lastRate == rl.lastRate)
                  && (late ==> r.lastRate == now
                               && if idle < 4 then r.rate == 2 else 2 * r.rate <= idle < 2 * r.rate + 2))
  {
  }

  /** The product in the cap is a 32-bit one; below this rate it does not overflow. */
  const WIDEST: nat := 28_633_115

  /** What a refill leaves in the pool: all it had and all it earned, up to 150 microseconds of the
      rate or 64 KB, whichever is more. */
  lemma RefillFills(rl: Rl, now: nat)
    requires UsDelta(now, rl.last) > 20 && Clocked(rl, now).rate <= WIDEST
    ensures var r := Clocked(rl, now);
            var sum, full := rl.pool + r.rate * UsDelta(now, rl.last) / 8, r.rate * 150 / 8;
            && (sum <= 65536 || sum <= full ==> r.pool == sum)
            && (sum > 65536 >= full ==> r.pool == 65536)
            && (sum > full > 65536 ==> r.pool == full)
  {
    var r := Clocked(rl, now);
    assert (r.rate * 150) % U32 == r.rate * 150;
  }

  lemma LongEnough(r: nat, us: nat)
    requires us >= 150
    ensures r * 150 / 8 <= r * us / 8
  {
    assert r * 150 <= r * us;
  }

  /** However long a limiter was left alone, it then holds 150 microseconds of its rate, if that is at
      least 64 KB. */
  lemma IdleFillsExactly(rl: Rl, now: nat)
    requires UsDelta(now, rl.last) >= 150 && Clocked(rl, now).rate <= WIDEST
    requires Clocked(rl, now).rate * 150 / 8 >= 65536
    ensures Clocked(rl, now).pool == Clocked(rl, now).rate * 150 / 8
  {
    RefillFills(rl, now);
    LongEnough(Clocked(rl, now).rate, UsDelta(now, rl.last));
    hide Clocked, UsDelta;
  }

  /** Actions that set no rate, with every refill within a second of the last feedback and a thousand
      seconds of the last refill. */
  ghost predicate Fresh(rl: Rl, ops: seq<Op>) {
    forall i :: 0 <= i < |ops| ==>
      && !ops[i].SetRate?
      && (ops[i].Refill? ==>
            UsDelta(ops[i].now, rl.lastRate) <= 1_000_000 && UsDelta(ops[i].now, rl.last) <= 1_000_000_000)
  }

  lemma FreshOp(rl: Rl, ops: seq<Op>)
    requires ops != [] && Fresh(rl, ops)
    ensures var rl' := Do(rl, ops[0]);
            rl'.rate == rl.rate && rl'.lastRate == rl.lastRate && Fresh(rl', ops[1..])
  {
    var rl' := Do(rl, ops[0]);
    if ops[0].Refill? {
      RefillSlows(rl, ops[0].now);
    }
    assert rl'.last >= rl.last;
    forall i | 0 <= i < |ops[1..]| && ops[1..][i].Refill? ensures UsDelta(ops[1..][i].now, rl'.last) <= 1_000_000_000 {
      assert ops[1..][i] == ops[i + 1];
      UsDeltaMono(ops[i + 1].now, ops[i + 1].now, rl'.last, rl.last);
    }
  }

  /** A rate set by feedback stands for a second, whatever the limiter does meanwhile. */
  lemma {:induction false} FreshRateHolds(rl: Rl, ops: seq<Op>)
    requires Fresh(rl, ops)
    ensures DoAll(rl, ops).rate == rl.rate && DoAll(rl, ops).lastRate == rl.lastRate
    decreases |ops|
  {
    if ops != [] {
      FreshOp(rl, ops);
      hide Do, Fresh;
      FreshRateHolds(Do(rl, ops[0]), ops[1..]);
    }
  }

  // ---- enqueue ----

  /** A packet is taken whole when the rate is above 1000 Mb/s or it is at most 10000 bytes. Then it is
      refused exactly when it would take the queue past 128 KB, and a class limiter sets its congestion
      codepoint exactly when it takes the queue past 100 KB. */
  lemma WholeExactly(rl: Rl, c: nat, p: Packet, now: nat, root: bool, gso: Gso)
    requires c < |rl.queue| && (Clocked(rl, now).rate > 1000 || Size(p) <= 10000)
    ensures var e, rl1, q := Enqueued(rl, c, p, now, root, gso), Clocked(rl, now), rl.queue[c];
            var p' := p.(ce := p.ce || (root && q.enqueued + Size(p) > 100 * 1024));
            && (q.enqueued + Size(p) > 128 * 1024 ==> e == Enq(rl1, Drop))
            && (q.enqueued + Size(p) <= 128 * 1024 ==>
                  e == Enq(rl1.(queue := rl1.queue[c := q.(list := q.list + [p'], accepted := q.accepted + [p'],
                                                           enqueued := q.enqueued + Size(p))]), Success))
  {
    hide UsDelta, Refilled, RateAt;
    assert Clocked(rl, now).queue == rl.queue;
    assert p.(ce := p.ce) == p;
  }

  lemma PrefixBytes(ps: seq<Packet>, j: nat)
    requires 0 < j <= |ps|
    ensures Bytes(ps[..j]) == Size(ps[0]) + Bytes(ps[1..][..j - 1])
  {
    assert ps[..j] == [ps[0]] + ps[1..][..j - 1];
    BytesConcat([ps[0]], ps[1..][..j - 1]);
  }

  lemma {:induction false} NoneKept(q: Queue, segs: seq<Packet>)
    requires q.enqueued >= 128 * 1024
    ensures KeepSegments(q, segs) == q
    decreases |segs|
  {
    if segs != [] { NoneKept(q, segs[1..]); }
  }

  /** The queue with the first n segments added. */
  function Gained(q: Queue, segs: seq<Packet>, n: nat): Queue
    requires n <= |segs|
  {
    q.(list := q.list + segs[..n], accepted := q.accepted + segs[..n], enqueued := q.enqueued + Bytes(segs[..n]))
  }

  /** n is the longest prefix of which each segment found the queue below 128 KB. */
  predicate Fits(q: Queue, segs: seq<Packet>, n: nat)
    requires n <= |segs|
  {
    && (forall j :: 0 <= j < n ==> q.enqueued + Bytes(segs[..j]) < 128 * 1024)
    && (n < |segs| ==> q.enqueued + Bytes(segs[..n]) >= 128 * 1024)
  }

  lemma GainedNext(q: Queue, segs: seq<Packet>, n: nat)
    requires 0 < n <= |segs|
    ensures Gained(Append(q, segs[0]), segs[1..], n - 1) == Gained(q, segs, n)
  {
    PrefixBytes(segs, n);
    assert segs[..n] == [segs[0]] + segs[1..][..n - 1];
    assert q.list + [segs[0]] + segs[1..][..n - 1] == q.list + segs[..n];
    assert q.accepted + [segs[0]] + segs[1..][..n - 1] == q.accepted + segs[..n];
  }

  lemma FitsNext(q: Queue, segs: seq<Packet>, n: nat)
    requires 0 < n <= |segs| && q.enqueued < 128 * 1024 && Fits(Append(q, segs[0]), segs[1..], n - 1)
    ensures Fits(q, segs, n)
  {
    forall j | 0 <= j <= n ensures Bytes(segs[..j]) == if j == 0 then 0 else Size(segs[0]) + Bytes(segs[1..][..j - 1]) {
      if j > 0 { PrefixBytes(segs, j); }
    }
  }

  /** The segment loop keeps exactly that prefix. */
  lemma {:induction false} SegmentsKept(q: Queue, segs: seq<Packet>) returns (n: nat)
    ensures n <= |segs| && KeepSegments(q, segs) == Gained(q, segs, n) && Fits(q, segs, n)
    decreases |segs|
  {
    n := 0;
    assert segs[..0] == [] && q.list + [] == q.list && q.accepted + [] == q.accepted;
    if segs != [] {
      if q.enqueued < 128 * 1024 {
        hide Gained, Fits, Append;
        n := SegmentsKept(Append(q, segs[0]), segs[1..]);
        n := n + 1;
        GainedNext(q, segs, n);
        FitsNext(q, segs, n);
      } else {
        NoneKept(q, segs);
      }
    }
  }

  /** A buffer above 10000 bytes at a rate of at most 1000 Mb/s is segmented: an error leaves the queue
      alone; otherwise the queue gains, in order and under the buffer's flow, exactly the segments that
      found it below 128 KB, and the rest are lost although the call succeeds. */
  lemma SplitExactly(rl: Rl, c: nat, p: Packet, now: nat, root: bool, gso: Gso) returns (n: nat)
    requires c < |rl.queue| && Clocked(rl, now).rate <= 1000 && Size(p) > 10000
    ensures n <= |gso(p)|
    ensures var e, rl1, q := Enqueued(rl, c, p, now, root, gso), Clocked(rl, now), rl.queue[c];
            var kept := seq(n, i requires 0 <= i < n => gso(p)[i].(flow := p.flow));
            && e.rl.splits == rl.splits + 1
            && (gso(p) == [] ==> e == Enq(rl1.(splits := rl1.splits + 1), Error))
            && (gso(p) != [] ==>
                  && e.verdict == Success
                  && e.rl == rl1.(splits := rl1.splits + 1,
                                  queue := rl1.queue[c := q.(list := q.list + kept, accepted := q.accepted + kept,
                                                             enqueued := q.enqueued + Bytes(kept))])
                  && (forall j :: 0 <= j < n ==> q.enqueued + Bytes(kept[..j]) < 128 * 1024)
                  && (n < |gso(p)| ==> q.enqueued + Bytes(kept) >= 128 * 1024))
  {
    hide UsDelta, Refilled, RateAt, KeepSegments, Bytes;
    var segs := Stamped(gso(p), p.flow);
    n := SegmentsKept(rl.queue[c], segs);
    var kept := seq(n, i requires 0 <= i < n => gso(p)[i].(flow := p.flow));
    assert kept == segs[..n];
    forall j | 0 <= j < n ensures rl.queue[c].enqueued + Bytes(kept[..j]) < 128 * 1024 {
      assert kept[..j] == segs[..j];
    }
  }

  // ---- dequeue ----

  /** The first j packets are within the tokens, and with `sent` bytes before them within 128 KB. */
  predicate Covered(q: Queue, sent: nat, j: nat)
    requires j <= |q.list|
  {
    Bytes(q.list[..j]) <= q.tokens && sent + Bytes(q.list[..j]) <= 2 * 65536
  }

  lemma CoveredNext(q: Queue, sent: nat, j: nat)
    requires q.list != [] && Size(q.list[0]) <= q.tokens && 0 < j <= |q.list|
    ensures Covered(q, sent, j) <==> Covered(Departed(q), sent + Size(q.list[0]), j - 1)
  {
    PrefixBytes(q.list, j);
  }

  lemma MeasuredCovers(q: Queue, sent: nat, j: nat)
    requires q.list != [] && j <= |q.list|
    ensures Covered(Measured(q), sent, j) <==> Covered(q, sent, j)
  {
  }

  lemma One(q: Queue, sent: nat)
    requires q.list != []
    ensures Covered(q, sent, 1) <==> Size(q.list[0]) <= q.tokens && sent + Size(q.list[0]) <= 2 * 65536
  {
    PrefixBytes(q.list, 1);
    assert q.list[1..][..0] == [];
  }

  /** Exactly how much the class limiter's send loop sends: packet after packet until one is not covered. */
  lemma {:induction false} DrainRootExactly(q: Queue, sent: nat)
    requires q.list != []
    ensures var d := DrainRoot(q, sent + Size(q.list[0])).q;
            var n := |q.list| - |d.list|;
            && 0 <= n <= |q.list|
            && (forall j :: 0 < j <= n ==> Covered(q, sent, j))
            && (n < |q.list| ==> !Covered(q, sent, n + 1) && d.first == if n == 0 then q.first else Size(d.list[0]))
    decreases |q.list|
  {
    hide DrainRoot, Covered;
    var size := Size(q.list[0]);
    One(q, sent);
    DrainRootPrefix(q, sent + size);
    if size <= q.tokens && sent + size <= 2 * MIN_BURST_BYTES {
      RootTurn(q, sent + size);
      var q' := Departed(q);
      if q'.list == [] {
      } else {
        var m := Measured(q');
        DrainRootExactly(m, sent + size);
        var d := DrainRoot(m, sent + size + Size(m.list[0])).q;
        var n := |q.list| - |d.list|;
        forall j | 0 < j <= |q.list| ensures Covered(q, sent, j) <==> Covered(m, sent + size, j - 1) {
          CoveredNext(q, sent, j);
          MeasuredCovers(q', sent + size, j - 1);
        }
      }
    } else {
      RootStops(q, sent + size);
    }
  }

  /** The class limiter after packets were handed to it one by one. */
  ghost function HandedOver(root: Rl, c: nat, ps: seq<Packet>, now: nat, gso: Gso): (r: Rl)
    requires c < |root.queue|
    ensures |r.queue| == |root.queue|
    decreases |ps|
  {
    if ps == [] then root
    else
      EnqueuedKeepsShape(root, c, ps[0], now, true, gso);
      HandedOver(Enqueued(root, c, ps[0], now, true, gso).rl, c, ps[1..], now, gso)
  }

  /** After j hand-overs the next packet still leaves the class limiter's queue below 128 KB. */
  ghost predicate Room(root: Rl, c: nat, ps: seq<Packet>, now: nat, gso: Gso, j: nat)
    requires c < |root.queue| && j < |ps|
  {
    HandedOver(root, c, ps[..j], now, gso).queue[c].enqueued + Size(ps[j]) < 128 * 1024
  }

  lemma RoomFirst(root: Rl, c: nat, ps: seq<Packet>, now: nat, gso: Gso)
    requires c < |root.queue| && ps != []
    ensures HandedOver(root, c, ps[..0], now, gso) == root
    ensures Room(root, c, ps, now, gso, 0) <==> HasSpaceFor(root, c, ps[0])
  {
    assert ps[..0] == [];
  }

  lemma HandedNext(root: Rl, c: nat, ps: seq<Packet>, now: nat, gso: Gso, j: nat)
    requires c < |root.queue| && 0 < j <= |ps|
    ensures |Enqueued(root, c, ps[0], now, true, gso).rl.queue| == |root.queue|
    ensures var root' := Enqueued(root, c, ps[0], now, true, gso).rl;
            && HandedOver(root, c, ps[..j], now, gso) == HandedOver(root', c, ps[1..][..j - 1], now, gso)
            && (j < |ps| ==> (Room(root, c, ps, now, gso, j) <==> Room(root', c, ps[1..], now, gso, j - 1)))
  {
    EnqueuedKeepsShape(root, c, ps[0], now, true, gso);
    hide Enqueued;
    assert ps[..j][0] == ps[0] && ps[..j][1..] == ps[1..][..j - 1];
  }

  lemma NoHandOver(root: Rl, c: nat, now: nat, gso: Gso)
    requires c < |root.queue|
    ensures HandedOver(root, c, [], now, gso) == root
  {
  }

  /** The first j packets are covered and each found room. */
  ghost predicate Passed(q: Queue, root: Rl, c: nat, now: nat, gso: Gso, sent: nat, j: nat)
    requires c < |root.queue| && 0 < j <= |q.list|
  {
    Covered(q, sent, j) && Room(root, c, q.list, now, gso, j - 1)
  }

  lemma PassedNext(q: Queue, root: Rl, c: nat, now: nat, gso: Gso, sent: nat, j: nat)
    requires c < |root.queue| && q.list != [] && Size(q.list[0]) <= q.tokens && 1 < j <= |q.list|
    ensures |Enqueued(root, c, q.list[0], now, true, gso).rl.queue| == |root.queue|
    ensures var root' := Enqueued(root, c, q.list[0], now, true, gso).rl;
            Passed(q, root, c, now, gso, sent, j)
            <==> Passed(Measured(Departed(q)), root', c, now, gso, sent + Size(q.list[0]), j - 1)
  {
    hide Enqueued, HandedOver, Covered, Room;
    CoveredNext(q, sent, j);
    MeasuredCovers(Departed(q), sent + Size(q.list[0]), j - 1);
    HandedNext(root, c, q.list, now, gso, j - 1);
  }

  /** Exactly how much a destination limiter's send loop hands on: packet after packet until one is not
      covered or finds no room; and the class limiter is what those hand-overs make of it. */
  lemma {:induction false} DrainChildExactly(q: Queue, root: Rl, c: nat, now: nat, gso: Gso, sent: nat)
    requires q.list != [] && c < |root.queue|
    ensures var d := DrainChild(q, root, c, now, gso, sent + Size(q.list[0]));
            var n := |q.list| - |d.q.list|;
            && 0 <= n <= |q.list|
            && d.root == HandedOver(root, c, q.list[..n], now, gso)
            && (forall j :: 0 < j <= n ==> Passed(q, root, c, now, gso, sent, j))
            && (n < |q.list| ==> !Passed(q, root, c, now, gso, sent, n + 1)
                                 && d.q.first == if n == 0 then q.first else Size(d.q.list[0]))
    decreases |q.list|
  {
    hide DrainChild, Covered, Enqueued, HandedOver, Room;
    var size := Size(q.list[0]);
    One(q, sent);
    RoomFirst(root, c, q.list, now, gso);
    DrainChildPrefix(q, root, c, now, gso, sent + size);
    if size <= q.tokens && sent + size <= 2 * MIN_BURST_BYTES && HasSpaceFor(root, c, q.list[0]) {
      ChildTurn(q, root, c, now, gso, sent + size);
      var q', root' := Departed(q), Enqueued(root, c, q.list[0], now, true, gso).rl;
      HandedNext(root, c, q.list, now, gso, 1);
      if q'.list == [] {
        assert q.list[1..][..0] == [];
        NoHandOver(root', c, now, gso);
      } else {
        var m := Measured(q');
        DrainChildExactly(m, root', c, now, gso, sent + size);
        var d := DrainChild(m, root', c, now, gso, sent + size + Size(m.list[0]));
        var n := |q.list| - |d.q.list|;
        HandedNext(root, c, q.list, now, gso, n);
        forall j | 1 < j <= |q.list|
          ensures Passed(q, root, c, now, gso, sent, j) <==> Passed(m, root', c, now, gso, sent + size, j - 1)
        {
          PassedNext(q, root, c, now, gso, sent, j);
        }
      }
    } else {
      ChildStops(q, root, c, now, gso, sent + size);
    }
  }

  /** A dequeue stops before it looks at the queue exactly when it must borrow and loses the lock. */
  predicate Blocked(rl: Rl, c: nat, lock: bool)
    requires c < |rl.queue|
  {
    rl.queue[c].tokens < rl.queue[c].first && !lock
  }

  /** What is dequeued when nothing blocks it: the queue with its whole purse and its head measured. */
  function Opened(rl: Rl, c: nat, lock: bool): Queue
    requires c < |rl.queue|
  {
    var q := rl.queue[c];
    q.(tokens := Purse(rl, c, lock), first := if q.list == [] then q.first else Size(q.list[0]))
  }

  /** The longest prefix that the tokens and 128 KB cover has n packets. */
  predicate Longest(q: Queue, n: nat)
    requires n <= |q.list|
  {
    && (forall j :: 0 < j <= n ==> Bytes(q.list[..j]) <= Min(q.tokens, 2 * 65536))
    && (n < |q.list| ==> Bytes(q.list[..n + 1]) > Min(q.tokens, 2 * 65536))
  }

  /** The j-th packet is within the tokens and 128 KB with those before it, and finds room. */
  ghost predicate FedAt(q: Queue, root: Rl, c: nat, now: nat, gso: Gso, j: nat)
    requires 0 < j <= |q.list| && c < |root.queue|
  {
    Bytes(q.list[..j]) <= Min(q.tokens, 2 * 65536) && Room(root, c, q.list, now, gso, j - 1)
  }

  /** n packets were handed on, each covered and with room, and the next is not, or has none. */
  ghost predicate LongestFed(q: Queue, root: Rl, c: nat, now: nat, gso: Gso, n: nat)
    requires n <= |q.list| && c < |root.queue|
  {
    && (forall j :: 0 < j <= n ==> FedAt(q, root, c, now, gso, j))
    && (n < |q.list| ==> !FedAt(q, root, c, now, gso, n + 1))
  }

  /** n packets have left `q`, paid for, and the head that is left has been looked at. */
  predicate Emptied(q: Queue, q': Queue, n: nat)
    requires n <= |q.list|
  {
    && q'.list == q.list[n..] && q'.departed == q.departed + q.list[..n] && q'.accepted == q.accepted
    && q'.tokens + Bytes(q.list[..n]) == q.tokens && q'.xmit == q.xmit + Bytes(q.list[..n])
    && (n < |q.list| ==> q'.first == Size(q'.list[0]))
  }

  lemma PrefixEmptied(q: Queue, q': Queue, n: nat)
    requires PrefixDeparted(q, q') && n == |q.list| - |q'.list|
    requires n < |q.list| ==> q'.first == Size(q'.list[0])
    ensures Emptied(q, q', n)
  {
    hide Bytes;
  }

  lemma CoveredIsLongest(q: Queue, n: nat)
    requires n <= |q.list| && (forall j :: 0 < j <= n ==> Covered(q, 0, j)) && (n < |q.list| ==> !Covered(q, 0, n + 1))
    ensures Longest(q, n)
  {
    hide Bytes;
    forall j | 0 < j <= n ensures Bytes(q.list[..j]) <= Min(q.tokens, 2 * 65536) {
      assert Covered(q, 0, j);
    }
  }

  lemma PassedIsLongest(q: Queue, root: Rl, c: nat, now: nat, gso: Gso, n: nat)
    requires n <= |q.list| && c < |root.queue|
    requires forall j :: 0 < j <= n ==> Passed(q, root, c, now, gso, 0, j)
    requires n < |q.list| ==> !Passed(q, root, c, now, gso, 0, n + 1)
    ensures LongestFed(q, root, c, now, gso, n)
  {
    hide Bytes, Room;
    forall j | 0 < j <= |q.list| ensures FedAt(q, root, c, now, gso, j) <==> Passed(q, root, c, now, gso, 0, j) {
    }
  }

  lemma RootLoop(q: Queue)
    requires q.list != [] && q.first == Size(q.list[0])
    ensures var d := DrainRoot(q, q.first).q;
            var n := |q.list| - |d.list|;
            0 <= n <= |q.list| && Longest(q, n) && Emptied(q, d, n)
  {
    hide DrainRoot, Bytes, Longest, Emptied, Covered;
    DrainRootExactly(q, 0);
    DrainRootPrefix(q, q.first);
    var d := DrainRoot(q, q.first).q;
    var n := |q.list| - |d.list|;
    CoveredIsLongest(q, n);
    PrefixEmptied(q, d, n);
  }

  lemma ChildLoop(q: Queue, root: Rl, c: nat, now: nat, gso: Gso)
    requires q.list != [] && q.first == Size(q.list[0]) && c < |root.queue|
    ensures var d := DrainChild(q, root, c, now, gso, q.first);
            var n := |q.list| - |d.q.list|;
            && 0 <= n <= |q.list| && LongestFed(q, root, c, now, gso, n) && Emptied(q, d.q, n)
            && d.root == HandedOver(root, c, q.list[..n], now, gso)
  {
    hide DrainChild, Bytes, Room, HandedOver, LongestFed, Emptied, Passed;
    DrainChildExactly(q, root, c, now, gso, 0);
    DrainChildPrefix(q, root, c, now, gso, q.first);
    var d := DrainChild(q, root, c, now, gso, q.first);
    var n := |q.list| - |d.q.list|;
    PassedIsLongest(q, root, c, now, gso, n);
    PrefixEmptied(q, d.q, n);
  }

  lemma NothingEmptied(q: Queue)
    requires q.list == []
    ensures Longest(q, 0) && Emptied(q, q, 0)
  {
    assert q.list[..0] == [];
  }

  /** A whole dequeue of a class limiter's queue, from what it had: unless blocked it sends the longest
      prefix that its purse and 128 KB cover, pays for it, empties the pool exactly if it had to borrow,
      and has then looked at the head that is left. */
  lemma ServeRootExactly(rl: Rl, c: nat, lock: bool)
    requires c < |rl.queue|
    ensures Blocked(rl, c, lock) ==> ServeRoot(rl, c, lock) == Served(rl, 0, true)
    ensures !Blocked(rl, c, lock) ==>
              var q, rl' := Opened(rl, c, lock), ServeRoot(rl, c, lock).rl;
              var n := |q.list| - |rl'.queue[c].list|;
              && 0 <= n <= |q.list| && Longest(q, n) && Emptied(q, rl'.queue[c], n)
              && rl'.pool == if rl.queue[c].tokens < rl.queue[c].first then 0 else rl.pool
  {
    hide DrainRoot, Longest, Emptied;
    if !Blocked(rl, c, lock) {
      var q := Opened(rl, c, lock);
      if q.list == [] {
        NothingEmptied(q);
      } else {
        RootLoop(q);
      }
    }
  }

  /** The same for a destination limiter's queue, where each packet must also find room, and what left
      was handed to the class limiter. */
  lemma ServeChildExactly(rl: Rl, root: Rl, c: nat, now: nat, lock: bool, gso: Gso)
    requires c < |rl.queue| && c < |root.queue|
    ensures Blocked(rl, c, lock) ==> ServeChild(rl, root, c, now, lock, gso) == ServedChild(rl, root, 0, true, true)
    ensures !Blocked(rl, c, lock) ==>
              var q, s := Opened(rl, c, lock), ServeChild(rl, root, c, now, lock, gso);
              var n := |q.list| - |s.rl.queue[c].list|;
              && 0 <= n <= |q.list| && LongestFed(q, root, c, now, gso, n) && Emptied(q, s.rl.queue[c], n)
              && s.root == HandedOver(root, c, q.list[..n], now, gso)
              && !s.blocked && s.rl.pool == if rl.queue[c].tokens < rl.queue[c].first then 0 else rl.pool
  {
    hide DrainChild, Emptied, HandedOver, Room, Bytes;
    if !Blocked(rl, c, lock) {
      var q := Opened(rl, c, lock);
      if q.list == [] {
        NothingEmptied(q);
        NoHandOver(root, c, now, gso);
        assert q.list[..0] == [];
      } else {
        ChildLoop(q, root, c, now, gso);
      }
    }
  }
}
