/** rl.c as objects updated in place. Every method is proved to compute the function of the same
    step in `Limiter` and `Machine`, so everything proved there holds of these methods. */
module LimiterObjects {
  import opened Params
  import opened Limiter
  import opened QueueBounds
  import opened Machine

  /** One more packet out of the queue is one more packet on the wire. */
  lemma OutGrows(start: Queue, q: Queue, cb: Cb)
    requires start.departed <= q.departed && q.list != [] && Size(q.list[0]) <= q.tokens
    ensures start.departed <= Departed(q).departed
    ensures Transmitted(Transmitted(cb, Out(start, q)), [q.list[0]]) == Transmitted(cb, Out(start, Departed(q)))
  {
    var p, before := q.list[0], Out(start, q);
    assert Out(start, Departed(q)) == before + [p];
    BytesConcat(before, [p]);
    assert cb.wire + before + [p] == cb.wire + (before + [p]);
  }

  lemma NothingOut(q: Queue, q': Queue)
    requires q.departed == q'.departed
    ensures Out(q, q') == [] && forall r: Queue :: Out(q, r) == Out(q', r)
  {
  }

  lemma LostRaceDoesNothing(rl: Rl, root: Rl, c: nat, now: nat, lock: bool, gso: Gso)
    requires c < |rl.queue| && c < |root.queue|
    ensures var s := ServeChild(rl, root, c, now, lock, gso); s.blocked ==> s.timeout && s.sum == 0
  {
  }

  lemma OutOfMeasured(start: Queue, q: Queue)
    requires q.list != []
    ensures Out(start, Measured(q)) == Out(start, q)
  {
  }

  lemma NothingOnTheWire()
    ensures forall v: Cb :: Transmitted(v, []) == v
  {
    forall v: Cb ensures Transmitted(v, []) == v {
      assert v.wire + [] == v.wire;
    }
  }

  /** `struct iso_rl_cb` */
  class ControlBlock {
    const cpu: nat
    var active: seq<Lid>
    var armed: bool
    var pending: bool
    var txBytes: nat
    var wire: seq<Packet>

    function View(): Cb
      reads this
    {
      Cb(active, armed, pending, txBytes, wire)
    }

    constructor (cpu: nat)
      ensures this.cpu == cpu && View() == Cb([], false, false, 0, [])
    {
      this.cpu := cpu;
      active, armed, pending, txBytes, wire := [], false, false, 0, [];
    }

    /** The tail of `iso_rl_dequeue`. */
    method Reschedule(l: Lid, timeout: bool, exiting: bool)
      modifies this`active, this`armed
      ensures View() == Rescheduled(old(View()), l, timeout, exiting)
    {
      if timeout && !exiting {
        if l !in active {
          active := active + [l];
        }
        if !armed {
          armed := true;
        }
      }
    }

    /** `skb_xmit`, and the byte count kept beside it. */
    method Xmit(p: Packet)
      modifies this`wire, this`txBytes
      ensures View() == Transmitted(old(View()), [p])
    {
      assert Bytes([p]) == Size(p) + Bytes([]);
      wire := wire + [p];
      txBytes := txBytes + Size(p);
    }
  }

  /** `struct iso_rl`; `parent` is the class limiter reached through `rl->txc`, or null. */
  class RateLimiter {
    const id: Lid
    const parent: RateLimiter?
    var rate: nat
    var totalTokens: nat
    var lastUpdateTime: nat
    var lastRateUpdateTime: nat
    var queue: seq<Queue>
    ghost var splits: nat

    ghost function View(): Rl
      reads this
    {
      Rl(rate, totalTokens, lastUpdateTime, lastRateUpdateTime, queue, splits)
    }

    /** `iso_rl_init` */
    constructor (id: Lid, parent: RateLimiter?, ncpu: nat, now: nat)
      ensures this.id == id && this.parent == parent && View() == NewRl(ncpu, now)
      ensures View().rate == 5000 && View().pool == 15000 && View().last == View().lastRate == now
      ensures View().queue == seq(ncpu, i => Queue([], 0, 0, 0, 0, [], []))
    {
      this.id, this.parent := id, parent;
      rate, totalTokens := RFAIR_INITIAL, INITIAL_TOKENS;
      lastUpdateTime, lastRateUpdateTime := now, now;
      queue := seq(ncpu, i => EMPTY_QUEUE);
      splits := 0;
    }

    /** `iso_rl_clock` */
    method Clock(now: nat)
      modifies this
      ensures View() == Clocked(old(View()), now)
    {
      hide UsDelta, Refilled;
      if UsDelta(now, lastUpdateTime) <= RL_UPDATE_INTERVAL_US {
        return;
      }
      var us := UsDelta(now, lastUpdateTime);
      if us > IDLE_TIMEOUT_US && rate > IDLE_RATE {
        rate := IDLE_RATE;
      }
      var us2 := UsDelta(now, lastRateUpdateTime);
      if us2 > FEEDBACK_TIMEOUT_US {
        rate := rate / 2;
        rate := Max(2, rate);
        lastRateUpdateTime := now;
      }
      totalTokens := Refilled(totalTokens, rate, us);
      lastUpdateTime := now;
    }

    /** The segment loop of `iso_rl_enqueue`. */
    method QueueSegments(segs: seq<Packet>, c: nat)
      requires c < |queue| && segs != []
      modifies this`queue
      ensures queue == old(queue)[c := KeepSegments(old(queue)[c], segs)]
    {
      var rest := segs;
      ghost var target := KeepSegments(queue[c], segs);
      while rest != []
        invariant |queue| == |old(queue)| && queue == old(queue)[c := queue[c]]
        invariant KeepSegments(queue[c], rest) == target
        decreases |rest|
      {
        var skb := rest[0];
        rest := rest[1..];
        if queue[c].enqueued < MAX_QUEUE_LEN_BYTES {
          queue := queue[c := Append(queue[c], skb)];
        }
      }
    }

    /** `iso_rl_enqueue` */
    method Enqueue(p: Packet, c: nat, now: nat, gso: Gso) returns (verdict: Verdict)
      requires c < |queue|
      modifies this
      ensures Enq(View(), verdict) == Enqueued(old(View()), c, p, now, parent == null, gso)
    {
      Clock(now);
      var len := Size(p);
      if rate > GSO_THRESH_RATE || len <= GSO_MIN_SPLIT_BYTES {
        var pkt := p;
        if queue[c].enqueued + len > MAX_QUEUE_LEN_BYTES {
          var diff := queue[c].enqueued + len - MAX_QUEUE_LEN_BYTES;
          if diff > len || diff - len < MIN_PKT_SIZE {
            return Drop;
          }
          pkt := Trimmed(pkt, diff);
        }
        if parent == null && queue[c].enqueued + Size(pkt) > TX_MARK_THRESH {
          pkt := pkt.(ce := true);
        }
        queue := queue[c := Append(queue[c], pkt)];
      } else {
        var segs := gso(p);
        splits := splits + 1;
        if segs == [] {
          return Error;
        }
        QueueSegments(Stamped(segs, p.flow), c);
      }
      verdict := Success;
    }

    /** `iso_rl_borrow_tokens`; the burst computed first is overwritten by the whole pool. */
    method BorrowTokens(c: nat, lock: bool) returns (timeout: bool)
      requires c < |queue|
      modifies this
      ensures timeout == !lock
      ensures View() == if lock then Borrowed(old(View()), c) else old(View())
    {
      timeout := true;
      if !lock {
        return;
      }
      var borrow := totalTokens;
      if totalTokens >= borrow {
        totalTokens := totalTokens - borrow;
        queue := queue[c := queue[c].(tokens := queue[c].tokens + borrow)];
        timeout := false;
      }
    }

    /** The send loop of `iso_rl_dequeue` when this is a class limiter. */
    method DrainToWire(c: nat, cb: ControlBlock) returns (sum: nat, timeout: bool)
      requires c < |queue| && queue[c].list != []
      modifies this`queue, cb`wire, cb`txBytes
      ensures var d := DrainRoot(Measured(old(queue)[c]), Size(old(queue)[c].list[0]));
              && queue == old(queue)[c := d.q] && sum == d.sum && timeout == d.timeout
              && cb.View() == Transmitted(old(cb.View()), Out(old(queue)[c], d.q))
    {
      var q := queue[c];
      var pkt := q.list[0];
      var size := Size(pkt);
      sum := size;
      q := q.(first := size);
      timeout := true;
      ghost var start := q;
      ghost var target := DrainRoot(start, sum);
      NothingOut(start, start);
      NothingOnTheWire();
      NothingOut(queue[c], start);
      hide Transmitted, Out;
      while size <= q.tokens && sum <= 2 * MIN_BURST_BYTES
        invariant queue == old(queue)
        invariant q.list != [] && pkt == q.list[0] && size == Size(pkt)
        invariant DrainRoot(q, sum) == target && timeout
        invariant start.departed <= q.departed
        invariant cb.View() == Transmitted(old(cb.View()), Out(start, q))
        decreases |q.list|
      {
        OutGrows(start, q, old(cb.View()));
        RootTurn(q, sum);
        cb.Xmit(pkt);
        q := Departed(q);
        if q.list == [] {
          timeout := false;
          break;
        }
        pkt := q.list[0];
        size := Size(pkt);
        sum := sum + size;
        OutOfMeasured(start, q);
        q := q.(first := size);
      }
      queue := queue[c := q];
    }

    /** The send loop of `iso_rl_dequeue` when this is a destination limiter. */
    method DrainToParent(c: nat, now: nat, gso: Gso) returns (sum: nat, timeout: bool)
      requires c < |queue| && queue[c].list != []
      requires parent != null && parent != this && parent.parent == null && c < |parent.queue|
      modifies this`queue, parent
      ensures var d := DrainChild(Measured(old(queue)[c]), old(parent.View()), c, now, gso,
                                  Size(old(queue)[c].list[0]));
              && queue == old(queue)[c := d.q] && sum == d.sum && timeout == d.timeout
              && parent.View() == d.root
    {
      hide Enqueued, DrainChild, Clocked;
      var q := queue[c];
      var pkt := q.list[0];
      var size := Size(pkt);
      sum := size;
      q := q.(first := size);
      timeout := true;
      ghost var target := DrainChild(q, parent.View(), c, now, gso, sum);
      while size <= q.tokens && sum <= 2 * MIN_BURST_BYTES
        invariant queue == old(queue)
        invariant q.list != [] && pkt == q.list[0] && size == Size(pkt)
        invariant c < |parent.queue| && timeout
        invariant DrainChild(q, parent.View(), c, now, gso, sum) == target
        decreases |q.list|
      {
        if parent.queue[c].enqueued + size < MAX_QUEUE_LEN_BYTES {
          ChildTurn(q, parent.View(), c, now, gso, sum);
          var _ := parent.Enqueue(pkt, c, now, gso);
          q := Departed(q);
        } else {
          break;
        }
        if q.list == [] {
          timeout := false;
          break;
        }
        pkt := q.list[0];
        size := Size(pkt);
        sum := sum + size;
        q := q.(first := size);
      }
      if timeout {
        ChildStops(q, parent.View(), c, now, gso, sum);
      }
      queue := queue[c := q];
    }

    /** The first half of `iso_rl_dequeue` on a class limiter: borrow, then send. */
    method ServeWire(c: nat, cb: ControlBlock, lock: bool) returns (sum: nat, timeout: bool)
      requires c < |queue|
      modifies this, cb`wire, cb`txBytes
      ensures Served(View(), sum, timeout) == ServeRoot(old(View()), c, lock)
      ensures cb.View() == Transmitted(old(cb.View()), Out(old(queue)[c], queue[c]))
    {
      hide DrainRoot, Transmitted, Out;
      timeout := false;
      sum := 0;
      if queue[c].tokens < queue[c].first {
        timeout := BorrowTokens(c, lock);
      }
      NothingOut(old(queue)[c], queue[c]);
      NothingOnTheWire();
      if !timeout && queue[c].list != [] {
        sum, timeout := DrainToWire(c, cb);
      }
    }

    /** The first half of `iso_rl_dequeue` on a destination limiter: borrow, then feed the parent. */
    method ServeParent(c: nat, now: nat, lock: bool, gso: Gso) returns (sum: nat, timeout: bool, blocked: bool)
      requires c < |queue|
      requires parent != null && parent != this && parent.parent == null && c < |parent.queue|
      modifies this, parent
      ensures ServedChild(View(), parent.View(), sum, timeout, blocked)
                == ServeChild(old(View()), old(parent.View()), c, now, lock, gso)
    {
      hide DrainChild;
      blocked := false;
      sum := 0;
      if queue[c].tokens < queue[c].first {
        blocked := BorrowTokens(c, lock);
      }
      timeout := blocked;
      if !blocked && queue[c].list != [] {
        sum, timeout := DrainToParent(c, now, gso);
      }
    }

    /** `iso_rl_dequeue`. The recursion goes up at most one level: a class limiter has no parent. */
    method Dequeue(c: nat, cb: ControlBlock, now: nat, luck: Luck, exiting: bool, gso: Gso) returns (sum: nat)
      requires c < |queue|
      requires parent != null ==> parent != this && parent.parent == null && c < |parent.queue|
      requires parent != null ==> parent.id == Root(id.cls)
      modifies this, parent, cb
      ensures parent == null ==>
                RootDone(View(), cb.View(), sum) == RootStep(old(View()), id, old(cb.View()), c, luck.lock, exiting)
      ensures parent != null ==>
                ChildDone(View(), parent.View(), cb.View(), sum)
                  == ChildStep(old(View()), old(parent.View()), id, old(cb.View()), c, now, luck, exiting, gso)
      decreases if parent == null then 0 else 1
    {
      if parent != null {
        LostRaceDoesNothing(View(), parent.View(), c, now, luck.lock, gso);
      }
      hide ServeRoot, ServeChild, Rescheduled, Transmitted, Out;
      var timeout, blocked := false, false;
      if parent == null {
        sum, timeout := ServeWire(c, cb, luck.lock);
      } else {
        sum, timeout, blocked := ServeParent(c, now, luck.lock, gso);
        if !blocked {
          var _ := parent.Dequeue(c, cb, now, Luck(0, luck.rootLock, true), exiting, gso);
        }
      }
      cb.Reschedule(id, timeout, exiting);
    }
  }
}
