/** Feedback packets (rx.h, rl.h, class.h): how the receiver builds one from a data packet, how the
    sender classifies and decodes it, and how often the receiver sends one (rx.c). */
module Feedback {
  import opened Params
  import opened VirtualQueues

  /** An Ethernet frame; the IPv4 fields of a frame that is not `ip` are never read. Addresses are
      kept in wire order. The 16-bit Identification field is section 3.1 of RFC 791. */
  datatype Frame = Frame(
    source: nat, dest: nat, ip: bool,
    tos: nat, totLen: nat, id: nat, ttl: nat, protocol: nat, saddr: nat, daddr: nat)

  const REFLECT_MASK: nat := 8
  const ECT_0: nat := 2
  const HEADER_SIZE: nat := 20
  const TTL: nat := 64

  /** `iso_generate_feedback`: nothing for a frame that is not IP or without memory. */
  function Generated(bit: int, pkt: Frame, alloc: bool): Option<Frame> {
    if !pkt.ip || !alloc then None
    else Some(Frame(pkt.dest, pkt.source, true, ECT_0 + (if bit != 0 then REFLECT_MASK else 0),
                    HEADER_SIZE, bit % U16, TTL, FEEDBACK_IPPROTO, pkt.daddr, pkt.saddr))
  }

  method Generate(bit: int, pkt: Frame, alloc: bool) returns (r: Option<Frame>)
    ensures r == Generated(bit, pkt, alloc)
  {
    if !pkt.ip {
      return None;
    }
    if alloc {
      var skb := Frame(0, 0, false, 0, 0, 0, 0, 0, 0, 0);
      skb := skb.(source := pkt.dest);
      skb := skb.(dest := pkt.source);
      skb := skb.(ip := pkt.ip);
      skb := skb.(tos := ECT_0 + (if bit != 0 then REFLECT_MASK else 0));
      skb := skb.(totLen := HEADER_SIZE);
      skb := skb.(id := bit % U16);
      skb := skb.(ttl := TTL);
      skb := skb.(protocol := FEEDBACK_IPPROTO);
      skb := skb.(saddr := pkt.daddr);
      skb := skb.(daddr := pkt.saddr);
      return Some(skb);
    }
    return None;
  }

  /** `iso_txc_classify`: a transmitted frame belongs to the class of its source address. */
  function TxClass(f: Frame): nat { if f.ip then f.saddr else 0 }

  /** `iso_rx_classify`: a received frame belongs to the class of its destination address. */
  function RxClass(f: Frame): nat { if f.ip then f.daddr else 0 }

  /** The peer address `iso_state_get` looks up: the destination when sending, the source when
      receiving; frames that are not IP have no state. */
  function StateKey(f: Frame, rx: bool): Option<nat> {
    if !f.ip then None else Some(if rx then f.saddr else f.daddr)
  }

  /** `skb_has_feedback` */
  function HasFeedback(f: Frame): nat { if f.ip && f.protocol == FEEDBACK_IPPROTO then f.id else 0 }

  /** `iso_is_generated_feedback` */
  predicate IsFeedback(f: Frame) { f.ip && f.protocol == FEEDBACK_IPPROTO }

  /** Feedback for a data packet goes back to the station it came from, reaches there the class and the state
      that sent it, is ECN-capable but no congestion mark (section 5 of RFC 3168), and decodes to the
      advertised rate exactly when that fits 16 bits; a rate that is a multiple of 65536 reads as no
      feedback at all. */
  lemma Steering(data: Frame, rate: nat, alloc: bool)
    ensures Generated(rate, data, alloc).Some? <==> data.ip && alloc
    ensures data.ip && alloc ==>
              var f := Generated(rate, data, alloc).value;
              && RxClass(f) == TxClass(data) && StateKey(f, true) == StateKey(data, false)
              && RxClass(f) == f.daddr == data.saddr && TxClass(f) == RxClass(data) == f.saddr == data.daddr
              && IsFeedback(f) && f.tos % 4 == 2
              && f.source == data.dest && f.dest == data.source && f.ttl == 64 && f.totLen == 20
              && (HasFeedback(f) == rate <==> rate < U16)
              && (HasFeedback(f) == 0 <==> rate % U16 == 0)
  {
    if rate >= U16 {
      assert rate % U16 < U16;
    }
  }

  // ---- pacing ----

  /** The tail of `iso_rx`: count the packet, and send feedback if the interval or the byte count has
      been reached. The counter also counts packets, one each, in `iso_vq_enqueue`. */
  function Gated(s: Stats, size: nat, now: nat): (bool, Stats) {
    var since := (s.rxSince + size) % U32;
    if UsDelta(now, s.lastFeedbackGen) > FEEDBACK_INTERVAL_US || since >= FEEDBACK_INTERVAL_BYTES
    then (true, s.(lastFeedbackGen := now, rxSince := 0, networkMarked := 0))
    else (false, s.(rxSince := since))
  }

  /** The gate opens exactly when more than 100 microseconds have passed since it last did, or 10000 have been
      counted since; then both start over, and otherwise the packet's size is added to the count. */
  lemma GateExactly(s: Stats, size: nat, now: nat)
    requires s.rxSince + size < U32
    ensures var (send, s') := Gated(s, size, now);
            && (send <==> UsDelta(now, s.lastFeedbackGen) > 100 || s.rxSince + size >= 10_000)
            && s'.lastFeedbackGen == (if send then now else s.lastFeedbackGen)
            && s'.rxSince == (if send then 0 else s.rxSince + size)
            && s'.networkMarked == (if send then 0 else s.networkMarked)
            && s'.rxBytes == s.rxBytes && s'.rxPackets == s.rxPackets && s'.rxMarkedSince == s.rxMarkedSince
            && s'.bytesQueued == s.bytesQueued
  {
    hide UsDelta;
  }

  /** A packet on one CPU: whether a drain reset the counter while the packet was counted. */
  datatype Visit = Visit(size: nat, now: nat, drained: bool)

  function Visited(s: Stats, v: Visit): (bool, Stats) {
    Gated(s.(rxSince := if v.drained then 0 else (s.rxSince + 1) % U32), v.size, v.now)
  }

  function Sent(s: Stats, vs: seq<Visit>): nat
    decreases |vs|
  {
    if vs == [] then 0 else (if Visited(s, vs[0]).0 then 1 else 0) + Sent(Visited(s, vs[0]).1, vs[1..])
  }

  function Volume(vs: seq<Visit>): nat { if vs == [] then 0 else vs[0].size + 1 + Volume(vs[1..]) }

  function End(vs: seq<Visit>, start: nat): nat { if vs == [] then start else vs[|vs| - 1].now }

  predicate Forward(vs: seq<Visit>, start: nat)
    decreases |vs|
  {
    vs != [] ==> start <= vs[0].now && vs[0].size < U16 && Forward(vs[1..], vs[0].now)
  }

  lemma OneVisit(s: Stats, v: Visit)
    requires s.rxSince < FEEDBACK_INTERVAL_BYTES && s.lastFeedbackGen <= v.now && v.size < U16
    ensures var (send, s') := Visited(s, v);
            && s'.rxSince < FEEDBACK_INTERVAL_BYTES && s'.lastFeedbackGen <= v.now
            && (send ==> s'.lastFeedbackGen == v.now && s'.rxSince == 0)
            && (send ==> v.now - s.lastFeedbackGen >= (FEEDBACK_INTERVAL_US + 1) * 1000
                         || s.rxSince + v.size + 1 >= FEEDBACK_INTERVAL_BYTES)
            && (!send ==> s'.lastFeedbackGen == s.lastFeedbackGen && s'.rxSince <= s.rxSince + v.size + 1)
  {
  }

  lemma {:induction false} EachIsPaid(s: Stats, vs: seq<Visit>, start: nat) returns (byTime: nat, byBytes: nat)
    requires s.rxSince < FEEDBACK_INTERVAL_BYTES && s.lastFeedbackGen <= start && Forward(vs, start)
    ensures Sent(s, vs) == byTime + byBytes
    ensures byTime * 101_000 <= End(vs, start) - s.lastFeedbackGen
    ensures byBytes * FEEDBACK_INTERVAL_BYTES <= s.rxSince + Volume(vs)
    decreases |vs|
  {
    byTime, byBytes := 0, 0;
    if vs != [] {
      OneVisit(s, vs[0]);
      hide Visited;
      var (send, s') := Visited(s, vs[0]);
      byTime, byBytes := EachIsPaid(s', vs[1..], vs[0].now);
      assert End(vs, start) == End(vs[1..], vs[0].now);
      if send {
        if vs[0].now - s.lastFeedbackGen >= 101_000 {
          byTime := byTime + 1;
        } else {
          byBytes := byBytes + 1;
        }
      }
    }
  }

  /** Feedback overhead: over any run of packets on one CPU, every feedback packet is paid for by more
      than the feedback interval of time or by the feedback byte count of traffic. */
  lemma FeedbackOverhead(s: Stats, vs: seq<Visit>, start: nat)
    requires s.rxSince < FEEDBACK_INTERVAL_BYTES && s.lastFeedbackGen <= start && Forward(vs, start)
    ensures s.lastFeedbackGen <= End(vs, start)
    ensures Sent(s, vs) <= (End(vs, start) - s.lastFeedbackGen) / ((FEEDBACK_INTERVAL_US + 1) * 1000)
                           + (s.rxSince + Volume(vs)) / FEEDBACK_INTERVAL_BYTES
  {
    var byTime, byBytes := EachIsPaid(s, vs, start);
    hide Sent, Volume, End, Forward;
    assert byTime <= (End(vs, start) - s.lastFeedbackGen) / 101_000;
    assert byBytes <= (s.rxSince + Volume(vs)) / FEEDBACK_INTERVAL_BYTES;
  }
}
