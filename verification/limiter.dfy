/** One rate limiter (`struct iso_rl` with its per-CPU `struct iso_rl_queue`s) as a value, and
    what each function of rl.c computes on it. The objects in limiter_objects.dfy are proved to
    compute exactly these functions. */
module Limiter {
  import opened Params

  /** The class limiter of a tenant, or the limiter of one destination inside that tenant. */
  datatype Lid = Root(cls: nat) | Dest(cls: nat, dst: nat)

  /** A packet: `flow` names the destination limiter that `iso_tx` handed it to, `ce` says that
      the class limiter has overwritten its DS field with the congestion codepoint. */
  datatype Packet = Packet(id: nat, len: nat, flow: Lid, ce: bool)

  function Size(p: Packet): nat { ETH_HLEN + p.len }

  function Bytes(ps: seq<Packet>): nat {
    if ps == [] then 0 else Size(ps[0]) + Bytes(ps[1..])
  }

  lemma {:induction false} BytesConcat(a: seq<Packet>, b: seq<Packet>)
    ensures Bytes(a + b) == Bytes(a) + Bytes(b)
  {
    if a == [] {
      assert a + b == b;
    } else {
      assert (a + b)[1..] == a[1..] + b;
      BytesConcat(a[1..], b);
    }
  }

  /** `accepted` and `departed` are histories the C struct does not have: everything ever put on
      the list and everything ever taken off it. */
  datatype Queue = Queue(
    list: seq<Packet>,
    first: nat,          // first_pkt_size
    enqueued: int,       // bytes_enqueued
    xmit: nat,           // bytes_xmit
    tokens: nat,
    accepted: seq<Packet>,
    departed: seq<Packet>)

  /** `pool` is total_tokens; `splits` counts the buffers this limiter has segmented (history). */
  datatype Rl = Rl(rate: nat, pool: nat, last: nat, lastRate: nat, queue: seq<Queue>, splits: nat)

  datatype Verdict = Success | Drop | Pass | Error

  const EMPTY_QUEUE := Queue([], 0, 0, 0, 0, [], [])

  /** What `skb_gso_segment` yields for a packet; the empty sequence stands for IS_ERR. */
  type Gso = Packet -> seq<Packet>

  function NewRl(ncpu: nat, now: nat): (r: Rl) {
    Rl(RFAIR_INITIAL, INITIAL_TOKENS, now, now, seq(ncpu, i => EMPTY_QUEUE), 0)
  }

  // ---- iso_rl_clock ----

  /** The burst cap; the product is a 32-bit one. */
  function Cap(rate: nat): nat {
    Max((rate * MAX_BURST_TIME_US) % U32 / 8, MIN_BURST_BYTES)
  }

  function IdleCapped(rate: nat, us: nat): nat {
    if us > IDLE_TIMEOUT_US && rate > IDLE_RATE then IDLE_RATE else rate
  }

  function Halved(rate: nat): nat { Max(2, rate / 2) }

  /** The rate a refill at `now` ends up using. */
  function RateAt(rl: Rl, now: nat): nat {
    var idle := IdleCapped(rl.rate, UsDelta(now, rl.last));
    if UsDelta(now, rl.lastRate) > FEEDBACK_TIMEOUT_US then Halved(idle) else idle
  }

  predicate ShouldRefill(rl: Rl, now: nat) { UsDelta(now, rl.last) > RL_UPDATE_INTERVAL_US }

  function Refilled(pool: nat, rate: nat, us: nat): nat { Min(Cap(rate), pool + rate * us / 8) }

  function Clocked(rl: Rl, now: nat): Rl {
    if !ShouldRefill(rl, now) then rl
    else
      var rate := RateAt(rl, now);
      rl.(rate := rate,
          lastRate := if UsDelta(now, rl.lastRate) > FEEDBACK_TIMEOUT_US then now else rl.lastRate,
          pool := Refilled(rl.pool, rate, UsDelta(now, rl.last)),
          last := now)
  }

  // ---- iso_rl_enqueue ----

  function Append(q: Queue, p: Packet): Queue {
    q.(list := q.list + [p], enqueued := q.enqueued + Size(p), accepted := q.accepted + [p])
  }

  /** The segment loop: each segment is queued while the queue is below its limit, else freed. */
  function KeepSegments(q: Queue, segs: seq<Packet>): Queue
    decreases |segs|
  {
    if segs == [] then q
    else KeepSegments(if q.enqueued < MAX_QUEUE_LEN_BYTES then Append(q, segs[0]) else q, segs[1..])
  }

  predicate Whole(rate: nat, p: Packet) {
    rate > GSO_THRESH_RATE || Size(p) <= GSO_MIN_SPLIT_BYTES
  }

  /** The class limiter (`rl->txc == NULL`) overwrites the DS field of a packet that leaves its
      queue above the marking threshold. */
  function Marked(q: Queue, p: Packet, root: bool): Packet {
    if root && q.enqueued + Size(p) > TX_MARK_THRESH then p.(ce := true) else p
  }

  /** `skb_trim(pkt, n)` */
  function Trimmed(p: Packet, n: int): Packet { if 0 <= n < p.len then p.(len := n) else p }

  datatype Enq = Enq(rl: Rl, verdict: Verdict)

  /** Segments travel with the packet they were cut from. */
  function Stamped(segs: seq<Packet>, flow: Lid): seq<Packet> {
    seq(|segs|, i requires 0 <= i < |segs| => segs[i].(flow := flow))
  }

  function Enqueued(rl0: Rl, c: nat, p: Packet, now: nat, root: bool, gso: Gso): Enq
    requires c < |rl0.queue|
  {
    var rl := Clocked(rl0, now);
    var q := rl.queue[c];
    if Whole(rl.rate, p) then
      var diff := q.enqueued + Size(p) - MAX_QUEUE_LEN_BYTES;
      if diff > 0 && (diff > Size(p) || diff - Size(p) < MIN_PKT_SIZE) then Enq(rl, Drop)
      else
        var p' := if diff > 0 then Trimmed(p, diff) else p;
        Enq(rl.(queue := rl.queue[c := Append(q, Marked(q, p', root))]), Success)
    else if gso(p) == [] then Enq(rl.(splits := rl.splits + 1), Error)
    else Enq(rl.(queue := rl.queue[c := KeepSegments(q, Stamped(gso(p), p.flow))], splits := rl.splits + 1), Success)
  }

  predicate HasSpaceFor(rl: Rl, c: nat, p: Packet)
    requires c < |rl.queue|
  {
    rl.queue[c].enqueued + Size(p) < MAX_QUEUE_LEN_BYTES
  }

  // ---- iso_rl_borrow_tokens and iso_rl_dequeue ----

  /** The pool is taken whole, so a borrow that gets the lock never fails. */
  function Borrowed(rl: Rl, c: nat): Rl
    requires c < |rl.queue|
  {
    rl.(pool := 0, queue := rl.queue[c := rl.queue[c].(tokens := rl.queue[c].tokens + rl.pool)])
  }

  /** `first_pkt_size` is set to the size of the head. */
  function Measured(q: Queue): Queue
    requires q.list != []
  {
    q.(first := Size(q.list[0]))
  }

  /** The head leaves the queue and is paid for. */
  function Departed(q: Queue): Queue
    requires q.list != [] && Size(q.list[0]) <= q.tokens
  {
    var p := q.list[0];
    q.(list := q.list[1..], tokens := q.tokens - Size(p), enqueued := q.enqueued - Size(p),
       xmit := q.xmit + Size(p), departed := q.departed + [p])
  }

  datatype Drained = Drained(q: Queue, sum: nat, timeout: bool)

  /** The send loop of the class limiter, entered with the head measured and counted in `sum`. */
  function DrainRoot(q: Queue, sum: nat): Drained
    requires q.list != []
    decreases |q.list|
  {
    if Size(q.list[0]) <= q.tokens && sum <= 2 * MIN_BURST_BYTES then
      var q' := Departed(q);
      if q'.list == [] then Drained(q', sum, false)
      else DrainRoot(Measured(q'), sum + Size(q'.list[0]))
    else Drained(q, sum, true)
  }

  datatype Fed = Fed(q: Queue, root: Rl, sum: nat, timeout: bool)

  lemma EnqueuedKeepsShape(rl: Rl, c: nat, p: Packet, now: nat, root: bool, gso: Gso)
    requires c < |rl.queue|
    ensures |Enqueued(rl, c, p, now, root, gso).rl.queue| == |rl.queue|
  {
  }

  /** The same loop in a destination limiter: packets go to the class limiter while it has space. */
  function DrainChild(q: Queue, root: Rl, c: nat, now: nat, gso: Gso, sum: nat): (d: Fed)
    requires q.list != [] && c < |root.queue|
    ensures |d.root.queue| == |root.queue|
    decreases |q.list|
  {
    var p := q.list[0];
    if Size(p) <= q.tokens && sum <= 2 * MIN_BURST_BYTES && HasSpaceFor(root, c, p) then
      EnqueuedKeepsShape(root, c, p, now, true, gso);
      var root' := Enqueued(root, c, p, now, true, gso).rl;
      var q' := Departed(q);
      if q'.list == [] then Fed(q', root', sum, false)
      else DrainChild(Measured(q'), root', c, now, gso, sum + Size(q'.list[0]))
    else Fed(q, root, sum, true)
  }

  /** Up to the peek: the limiter after the borrow, and whether the borrow lost the lock race. */
  function Funded(rl: Rl, c: nat, lock: bool): (Rl, bool)
    requires c < |rl.queue|
  {
    if rl.queue[c].tokens < rl.queue[c].first then (if lock then (Borrowed(rl, c), false) else (rl, true))
    else (rl, false)
  }

  datatype Served = Served(rl: Rl, sum: nat, timeout: bool)

  /** `iso_rl_dequeue` on a class limiter's queue. */
  function ServeRoot(rl: Rl, c: nat, lock: bool): (s: Served)
    requires c < |rl.queue|
    ensures |s.rl.queue| == |rl.queue|
  {
    var (rl1, blocked) := Funded(rl, c, lock);
    if blocked then Served(rl1, 0, true)
    else if rl1.queue[c].list == [] then Served(rl1, 0, false)
    else
      var q := Measured(rl1.queue[c]);
      var d := DrainRoot(q, q.first);
      Served(rl1.(queue := rl1.queue[c := d.q]), d.sum, d.timeout)
  }

  datatype ServedChild = ServedChild(rl: Rl, root: Rl, sum: nat, timeout: bool, blocked: bool)

  /** `iso_rl_dequeue` on a destination limiter's queue, up to the parent's own dequeue. */
  function ServeChild(rl: Rl, root: Rl, c: nat, now: nat, lock: bool, gso: Gso): (s: ServedChild)
    requires c < |rl.queue| && c < |root.queue|
    ensures |s.rl.queue| == |rl.queue| && |s.root.queue| == |root.queue|
  {
    var (rl1, blocked) := Funded(rl, c, lock);
    if blocked then ServedChild(rl1, root, 0, true, true)
    else if rl1.queue[c].list == [] then ServedChild(rl1, root, 0, false, false)
    else
      var q := Measured(rl1.queue[c]);
      var d := DrainChild(q, root, c, now, gso, q.first);
      ServedChild(rl1.(queue := rl1.queue[c := d.q]), d.root, d.sum, d.timeout, false)
  }
}
