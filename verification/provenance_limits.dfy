/** How far rate provenance goes: runs from no host at all that reach a limiter set by another
    destination's feedback, and one set by an advertised rate that does not fit its 16 bits; and with
    them the exact conditions under which neither can happen. */
module ProvenanceLimits {
  import opened Params
  import opened Arithmetic
  import opened VirtualQueues
  import opened Feedback
  import opened Provenance
  import Ewma
  import Rcp

  // ---- reachable worlds ----

  ghost predicate Reachable(hash: Hash, w: World, top: nat) {
    exists es :: Fit(hash, EMPTY, es, top) && Run(hash, EMPTY, es, top) == w
  }

  lemma {:induction false} RunAppend(hash: Hash, w: World, es: seq<Event>, e: Event, top: nat)
    requires Fit(hash, w, es, top) && Ready(Run(hash, w, es, top), e, top)
    ensures Fit(hash, w, es + [e], top)
    ensures Run(hash, w, es + [e], top) == Step(hash, Run(hash, w, es, top), e)
    decreases |es|
  {
    hide Step;
    if es == [] {
      assert (es + [e])[1..] == [] && (es + [e])[0] == e;
    } else {
      assert (es + [e])[0] == es[0] && (es + [e])[1..] == es[1..] + [e];
      RunAppend(hash, Step(hash, w, es[0]), es[1..], e, top);
    }
  }

  ghost predicate FullRate(es: seq<Event>) {
    forall i :: 0 <= i < |es| && es[i].Receive? ==> es[i].r.a.rcpRate == VQ_DRAIN_RATE
  }

  /** Reachable while every device still gives its queues its initial rate. */
  ghost predicate AtFullRate(hash: Hash, w: World, top: nat) {
    exists es :: Fit(hash, EMPTY, es, top) && FullRate(es) && Run(hash, EMPTY, es, top) == w
  }

  lemma FullRateReachable(hash: Hash, w: World, top: nat)
    requires AtFullRate(hash, w, top)
    ensures Reachable(hash, w, top)
  {
  }

  lemma StartReachable(hash: Hash, top: nat)
    ensures AtFullRate(hash, EMPTY, top)
  {
    assert Fit(hash, EMPTY, [], top) && FullRate([]) && Run(hash, EMPTY, [], top) == EMPTY;
  }

  lemma StepReachable(hash: Hash, w: World, e: Event, top: nat)
    requires AtFullRate(hash, w, top) && Ready(w, e, top) && (e.Receive? ==> e.r.a.rcpRate == VQ_DRAIN_RATE)
    ensures AtFullRate(hash, Step(hash, w, e), top)
  {
    hide Ready, Step;
    var es :| Fit(hash, EMPTY, es, top) && FullRate(es) && Run(hash, EMPTY, es, top) == w;
    RunAppend(hash, EMPTY, es, e, top);
    assert FullRate(es + [e]);
  }

  lemma ReachableSound(hash: Hash, w: World, top: nat)
    requires Reachable(hash, w, top) && top <= MAX_WEIGHT
    ensures Sound(hash, w, top)
  {
    var es :| Fit(hash, EMPTY, es, top) && Run(hash, EMPTY, es, top) == w;
    hide Sound, Fit, Run;
    LifetimeSound(hash, es, top);
  }

  // ---- a calm virtual queue ----

  const MS: nat := 1_000_000
  const SIZE: nat := FEEDBACK_PACKET_SIZE

  /** At most this many bytes arrive between two drains. */
  const WINDOW: nat := 200_000

  /** One CPU, no cap, no marks, no flood since the last drain. */
  predicate Calm(vq: Vq, weight: nat, fb: nat, at: nat, bytes: nat) {
    && !vq.isStatic && vq.weight == weight && vq.feedbackRate == fb && vq.lastUpdate == at
    && |vq.stats| == 1 && vq.stats[0].rxMarkedSince == 0 && vq.stats[0].rxBytes == bytes
    && vq.lastRxBytes <= bytes <= vq.lastRxBytes + WINDOW && bytes < U32
  }

  lemma NewCalm(weight: nat, rate: nat)
    ensures Calm(NewVq(1, 0).(weight := weight, isStatic := false, rate := rate), weight, MIN_RFAIR, 0, 0)
  {
  }

  lemma OneCpu(vq: Vq)
    requires |vq.stats| == 1 && vq.stats[0].rxMarkedSince == 0 && vq.stats[0].rxBytes < U32
    ensures SumMarked(vq.stats, 1) == 0 && SumBytes(vq.stats, 1) == vq.stats[0].rxBytes
  {
    assert SumMarked(vq.stats, 0) == 0 && SumBytes(vq.stats, 0) == 0;
  }

  /** The load of so many bytes, in Mb/s. */
  function LoadOf(bytes: nat, dt: nat): nat
    requires dt > 0
  {
    bytes * 8 / dt
  }

  lemma CalmLoad(bytes: nat, dt: nat)
    requires bytes <= WINDOW && dt >= 200
    ensures Rate(bytes % U64, dt) == LoadOf(bytes, dt)
  {
    assert bytes % U64 == bytes;
    DivBelow(bytes * 8, dt, I32);
    RateIsQuotient(bytes, dt);
  }

  /** A drain of a calm queue: the load is that of the bytes since the last one. */
  lemma CalmDrain(vq: Vq, weight: nat, fb: nat, at: nat, bytes: nat, dt: nat, now: nat, rcp: nat)
    requires Calm(vq, weight, fb, at, bytes) && dt >= 200 && UsDelta(now, at) >= VQ_UPDATE_INTERVAL_US
    requires 0 < Mul(weight, rcp) < I32
    ensures 0 < Entitled(vq, rcp) < I32
    ensures var d := Drained(vq, dt, now, rcp);
            && d.feedbackRate == Rcp.NextVq(fb, Mul(weight, rcp), LoadOf(bytes - vq.lastRxBytes, dt))
            && Calm(d, weight, d.feedbackRate, now, bytes) && d.lastRxBytes == bytes
  {
    hide SumMarked, SumBytes, SumSince, UsDelta, Rcp.NextVq, Ewma.G16, Surplus, LoadOf, Rate;
    OneCpu(vq);
    assert Ewma.Fraction(0, SumSince(vq.stats, 1)) == 0;
    CalmLoad(bytes - vq.lastRxBytes, dt);
    assert Reset(vq.stats)[0] == ResetOne(vq.stats[0]);
  }

  /** A packet that starts such a drain, from the queue's point of view. */
  lemma CalmEnqueue(vq: Vq, weight: nat, fb: nat, at: nat, bytes: nat, a: Arrival)
    requires Calm(vq, weight, fb, at, bytes) && bytes + a.size < U32 && a.size <= WINDOW
    requires a.cpu == 0 && !a.ce && a.later == a.now && a.lock && 0 < Mul(weight, a.rcpRate) < I32
    requires UsDelta(a.now, at) > VQ_UPDATE_INTERVAL_US
    ensures Sane(vq, a)
    ensures var e := Enqueued(vq, a);
            && e.feedbackRate
                 == Rcp.NextVq(fb, Mul(weight, a.rcpRate), LoadOf(bytes - vq.lastRxBytes, UsDelta(a.now, at)))
            && Calm(e, weight, e.feedbackRate, a.now, bytes + a.size) && e.lastRxBytes == bytes
  {
    hide UsDelta, Rcp.NextVq, Drained, LoadOf;
    var vq1 := vq.(stats := vq.stats[0 := Counted(vq.stats[0], false)]);
    assert Calm(vq1, weight, fb, at, bytes);
    CalmDrain(vq1, weight, fb, at, bytes, UsDelta(a.now, at), a.now, a.rcpRate);
  }

  /** A packet too soon after the last drain for another. */
  lemma CalmCount(vq: Vq, weight: nat, fb: nat, at: nat, bytes: nat, a: Arrival)
    requires Calm(vq, weight, fb, at, bytes) && bytes + a.size < U32 && bytes + a.size <= vq.lastRxBytes + WINDOW
    requires a.cpu == 0 && !a.ce && a.later == a.now && 0 < Mul(weight, a.rcpRate) < I32
    requires UsDelta(a.now, at) <= VQ_UPDATE_INTERVAL_US
    ensures Sane(vq, a)
    ensures var e := Enqueued(vq, a);
            Calm(e, weight, fb, at, bytes + a.size) && e.lastRxBytes == vq.lastRxBytes
  {
    hide UsDelta, Drained;
  }

  // ---- receptions ----

  /** A data frame from one host to another, of `size` bytes with its header. */
  function Data(s: nat, d: nat, size: nat): Frame
    requires size >= ETH_HLEN
  {
    Frame(11, 12, true, ECT_0, size - ETH_HLEN, 7, TTL, 6, s, d)
  }

  /** The feedback it is answered with. */
  function Reply(s: nat, d: nat, rate: nat): Frame { Generated(rate, Data(s, d, SIZE), true).value }

  /** An arrival on a device that still gives every queue its initial rate. */
  function ArrivalOf(size: nat, now: nat, lock: bool): Arrival {
    Arrival(0, size, false, now, now, lock, VQ_DRAIN_RATE)
  }

  function ArrivalAt(now: nat, lock: bool): Arrival { ArrivalOf(SIZE, now, lock) }

  /** Data reaches its destination, which may drain and may be able to answer. */
  function DataRx(s: nat, d: nat, size: nat, now: nat, lock: bool, alloc: bool): Event
    requires size >= ETH_HLEN
  {
    Receive(Reception(Data(s, d, size), 0, ArrivalOf(size, now, lock), now, false, 0, false, alloc))
  }

  /** Feedback reaches the sender, which may make a state or take the rate. */
  function ReplyRx(s: nat, d: nat, rate: nat, now: nat): Event {
    Receive(Reception(Reply(s, d, rate), rate, ArrivalAt(now, false), now, true, 0, true, true))
  }

  lemma ReplyFields(s: nat, d: nat, rate: nat)
    ensures var f := Reply(s, d, rate);
            && IsFeedback(f) && RxClass(f) == s && f.saddr == d && f.ip && HasFeedback(f) == rate % U16
  {
  }

  /** Receiving data: only the destination's queue changes, and if it can answer, its current rate goes
      out. */
  lemma DataStep(hash: Hash, w: World, s: nat, d: nat, now: nat, lock: bool)
    requires d in w.vqs && d in w.classes && (d, hash(s)) !in w.table
    requires Sane(w.vqs[d], ArrivalAt(now, lock))
    requires var vq := Enqueued(w.vqs[d], ArrivalAt(now, lock));
             vq.feedbackRate < I32 && UsDelta(now, vq.stats[0].lastFeedbackGen) > FEEDBACK_INTERVAL_US
    ensures Ready(w, DataRx(s, d, SIZE, now, lock, true), 0)
    ensures var w' := Step(hash, w, DataRx(s, d, SIZE, now, lock, true));
            var rate := Enqueued(w.vqs[d], ArrivalAt(now, lock)).feedbackRate;
            && w'.vqs.Keys == w.vqs.Keys && w'.classes == w.classes && w'.table == w.table && w'.heard == w.heard
            && (forall k :: k in w.vqs && k != d ==> w'.vqs[k] == w.vqs[k])
            && w'.net == w.net + {(Reply(s, d, rate), rate)} && w'.said == w.said + {(d, rate)}
  {
    hide Enqueued, UsDelta, Sane;
    assert Enqueued(w.vqs[d], ArrivalAt(now, lock)).feedbackRate
        == AsInt(Enqueued(w.vqs[d], ArrivalAt(now, lock)).feedbackRate);
  }

  /** The gate for feedback moves its own counters and clock, and nothing a drain reads. */
  predicate OnlyGated(vq: Vq, vq': Vq, now: nat) {
    && |vq.stats| == |vq'.stats| == 1 && vq' == vq.(stats := vq'.stats)
    && vq'.stats[0].rxBytes == vq.stats[0].rxBytes && vq'.stats[0].rxMarkedSince == vq.stats[0].rxMarkedSince
    && vq'.stats[0].lastFeedbackGen <= Max(now, vq.stats[0].lastFeedbackGen)
  }

  /** Receiving data without being able to answer. */
  lemma QuietStep(hash: Hash, w: World, s: nat, d: nat, size: nat, now: nat, lock: bool)
    requires d in w.vqs && d in w.classes && (d, hash(s)) !in w.table && size >= ETH_HLEN && |w.vqs[d].stats| == 1
    requires Sane(w.vqs[d], ArrivalOf(size, now, lock))
    ensures Ready(w, DataRx(s, d, size, now, lock, false), 0)
    ensures var w' := Step(hash, w, DataRx(s, d, size, now, lock, false));
            && w' == w.(vqs := w.vqs[d := w'.vqs[d]])
            && OnlyGated(Enqueued(w.vqs[d], ArrivalOf(size, now, lock)), w'.vqs[d], now)
  {
    hide Enqueued, UsDelta, Sane;
  }

  lemma GatedCalm(vq: Vq, vq': Vq, now: nat, weight: nat, fb: nat, at: nat, bytes: nat)
    requires OnlyGated(vq, vq', now) && Calm(vq, weight, fb, at, bytes)
    ensures Calm(vq', weight, fb, at, bytes) && vq'.lastRxBytes == vq.lastRxBytes
  {
  }

  /** Receiving feedback whose bucket is empty makes a state for its sender. */
  lemma FirstReplyStep(hash: Hash, w: World, s: nat, d: nat, rate: nat, now: nat)
    requires s in w.vqs && s in w.classes && (s, hash(d)) !in w.table && rate % U16 != 0
    requires (Reply(s, d, rate), rate) in w.net && Sane(w.vqs[s], ArrivalAt(now, false))
    ensures Ready(w, ReplyRx(s, d, rate, now), 0)
    ensures Step(hash, w, ReplyRx(s, d, rate, now)) ==
            w.(vqs := w.vqs[s := Enqueued(w.vqs[s], ArrivalAt(now, false))],
               table := w.table[(s, hash(d)) := [NewPeer(d, 0, now)]], heard := w.heard + {(s, d)})
  {
    ReplyFields(s, d, rate);
    hide Enqueued, Sane, Reply, Generated;
    var p := NewPeer(d, 0, now);
    assert UsDelta(now, now) == 0;
    assert Overwritten(p, Reply(s, d, rate), rate, now, true) == p;
    assert Walk([p], d) == 0 && [p][0 := p] == [p];
  }

  /** Receiving feedback whose bucket holds a state sets that state's rate, whoever it belongs to. */
  lemma NextReplyStep(hash: Hash, w: World, s: nat, d: nat, rate: nat, now: nat, p: Peer)
    requires s in w.vqs && s in w.classes && (s, hash(d)) in w.table && w.table[(s, hash(d))] == [p] && rate % U16 != 0
    requires (Reply(s, d, rate), rate) in w.net && Sane(w.vqs[s], ArrivalAt(now, false))
    requires UsDelta(now, p.lastChange) >= DECREASE_INTERVAL_US
    ensures Ready(w, ReplyRx(s, d, rate, now), 0)
    ensures var w' := Step(hash, w, ReplyRx(s, d, rate, now));
            && w'.heard == w.heard + {(s, d)} && w'.said == w.said && (s, hash(d)) in w'.table
            && var b := w'.table[(s, hash(d))];
            && |b| == 1 && b[0].ip == p.ip && b[0].rl.rate == rate % U16 && b[0].source == Told(d, rate)
  {
    ReplyFields(s, d, rate);
    hide Enqueued, Sane, Reply, UsDelta;
    assert Walk([p], d) == 0;
  }

  lemma ReadyAnyTop(w: World, e: Event, top: nat)
    requires e.Receive? && Ready(w, e, 0)
    ensures Ready(w, e, top)
  {
  }

  /** What a packet leaves of the gate's clock: the drain does not touch it. */
  lemma GateKept(vq: Vq, a: Arrival)
    requires Sane(vq, a) && a.cpu == 0 && |vq.stats| == 1
    ensures |Enqueued(vq, a).stats| == 1 && Enqueued(vq, a).stats[0].lastFeedbackGen == vq.stats[0].lastFeedbackGen
  {
    hide UsDelta, Advertised, Ewma.G16, Load, Received, SumBytes, SumMarked, SumSince;
    var vq1 := vq.(stats := vq.stats[0 := Counted(vq.stats[0], a.ce)]);
    assert Reset(vq1.stats)[0] == ResetOne(vq1.stats[0]);
  }

  /** A fresh queue of weight one takes a packet without draining. */
  lemma FreshSane(now: nat, lock: bool)
    ensures Sane(NewVq(1, 0), ArrivalAt(now, lock))
    ensures var e := Enqueued(NewVq(1, 0), ArrivalAt(now, false));
            e.feedbackRate == MIN_RFAIR && |e.stats| == 1 && e.stats[0].lastFeedbackGen == 0
            && e.weight == 1 && !e.isStatic
  {
  }

  lemma FirstClimb()
    ensures Rcp.NextVq(MIN_RFAIR, VQ_DRAIN_RATE, 0) == 15
  {
    Rcp.VqFormFits(MIN_RFAIR, VQ_DRAIN_RATE, 0);
    assert Mul(MIN_RFAIR, 3 * VQ_DRAIN_RATE) == 270_000;
    assert Div(270_000, 2 * VQ_DRAIN_RATE) == 15;
  }

  /** The same packet with the drain's lock free: the idle queue's rate climbs by half. */
  lemma FreshDrain()
    ensures var e := Enqueued(NewVq(1, 0), ArrivalAt(MS, true));
            e.feedbackRate == 15 && |e.stats| == 1 && e.stats[0].lastFeedbackGen == 0
  {
    var vq, a := NewVq(1, 0), ArrivalAt(MS, true);
    NewCalm(1, MIN_RFAIR);
    FirstClimb();
    assert UsDelta(MS, 0) == 1000 && Mul(1, VQ_DRAIN_RATE) == VQ_DRAIN_RATE && LoadOf(0, 1000) == 0;
    hide Rcp.NextVq, UsDelta, Enqueued, Sane;
    CalmEnqueue(vq, 1, MIN_RFAIR, 0, 0, a);
    GateKept(vq, a);
  }

  // ---- two destinations in one bucket ----

  lemma ThreeHosts(hash: Hash, top: nat, k: nat, a: nat, b: nat) returns (w: World)
    requires top >= 1 && k != a && k != b && a != b
    ensures AtFullRate(hash, w, top)
    ensures w == World({k, a, b}, map[k := NewVq(1, 0), a := NewVq(1, 0), b := NewVq(1, 0)], map[], {}, {}, {})
  {
    StartReachable(hash, top);
    var vq := NewVq(1, 0);
    hide AtFullRate;
    StepReachable(hash, EMPTY, Install(k, 1, 0), top);
    var w1 := World({k}, map[k := vq], map[], {}, {}, {});
    assert Step(hash, EMPTY, Install(k, 1, 0)) == w1;
    StepReachable(hash, w1, Install(a, 1, 0), top);
    var w2 := World({k, a}, map[k := vq, a := vq], map[], {}, {}, {});
    assert Step(hash, w1, Install(a, 1, 0)) == w2;
    StepReachable(hash, w2, Install(b, 1, 0), top);
    w := World({k, a, b}, map[k := vq, a := vq, b := vq], map[], {}, {}, {});
    assert Step(hash, w2, Install(b, 1, 0)) == w;
  }

  /** One answers at the lowest rate, the other once it has drained. */
  lemma BothAnswer(hash: Hash, top: nat, k: nat, a: nat, b: nat) returns (w: World)
    requires top >= 1 && k != a && k != b && a != b
    ensures AtFullRate(hash, w, top)
    ensures k in w.vqs && k in w.classes && w.vqs[k] == NewVq(1, 0) && w.table == map[] && w.heard == {}
    ensures w.said == {(a, MIN_RFAIR), (b, 15)}
    ensures (Reply(k, a, MIN_RFAIR), MIN_RFAIR) in w.net && (Reply(k, b, 15), 15) in w.net
  {
    var w0 := ThreeHosts(hash, top, k, a, b);
    FreshSane(MS, false);
    FreshSane(MS, true);
    FreshDrain();
    assert UsDelta(MS, 0) == 1000;
    hide AtFullRate, Enqueued, Sane, Ready, Step;
    DataStep(hash, w0, k, a, MS, false);
    ReadyAnyTop(w0, DataRx(k, a, SIZE, MS, false, true), top);
    StepReachable(hash, w0, DataRx(k, a, SIZE, MS, false, true), top);
    var w1 := Step(hash, w0, DataRx(k, a, SIZE, MS, false, true));
    DataStep(hash, w1, k, b, MS, true);
    ReadyAnyTop(w1, DataRx(k, b, SIZE, MS, true, true), top);
    StepReachable(hash, w1, DataRx(k, b, SIZE, MS, true, true), top);
    w := Step(hash, w1, DataRx(k, b, SIZE, MS, true, true));
  }

  lemma StillSane(vq: Vq, now: nat)
    requires vq.weight == 1 && !vq.isStatic && |vq.stats| == 1
    ensures Sane(vq, ArrivalAt(now, false))
  {
  }

  /** The sender hears the first, which makes a state for it. */
  lemma FirstHeard(hash: Hash, top: nat, k: nat, a: nat, b: nat) returns (w: World)
    requires top >= 1 && k != a && k != b && a != b
    ensures AtFullRate(hash, w, top)
    ensures k in w.vqs && k in w.classes && Sane(w.vqs[k], ArrivalAt(2 * MS, false))
    ensures w.table == map[(k, hash(a)) := [NewPeer(a, 0, MS)]] && w.heard == {(k, a)}
    ensures w.said == {(a, MIN_RFAIR), (b, 15)} && (Reply(k, b, 15), 15) in w.net
  {
    var w0 := BothAnswer(hash, top, k, a, b);
    FreshSane(MS, false);
    StillSane(Enqueued(NewVq(1, 0), ArrivalAt(MS, false)), 2 * MS);
    hide AtFullRate, Enqueued, Sane, Ready, Step, Reply;
    FirstReplyStep(hash, w0, k, a, MIN_RFAIR, MS);
    ReadyAnyTop(w0, ReplyRx(k, a, MIN_RFAIR, MS), top);
    StepReachable(hash, w0, ReplyRx(k, a, MIN_RFAIR, MS), top);
    w := Step(hash, w0, ReplyRx(k, a, MIN_RFAIR, MS));
  }

  /** Any two addresses that share a bucket: a run in which a class hears just those two, and the first
      one's limiter ends up at a rate that only the second advertised. */
  lemma CollisionMisleads(hash: Hash, top: nat, a: nat, b: nat) returns (w: World, key: (nat, nat))
    requires top >= 1 && a != b && hash(a) == hash(b)
    ensures AtFullRate(hash, w, top) && key in w.table && !Own(w, key)
    ensures forall x :: x in w.heard ==> x.1 == a || x.1 == b
  {
    var k := a + b + 1;
    key := (k, hash(a));
    assert UsDelta(2 * MS, MS) == 1000;
    hide AtFullRate, Enqueued, Sane, Ready, Step, Reply;
    var w1 := FirstHeard(hash, top, k, a, b);
    NextReplyStep(hash, w1, k, b, 15, 2 * MS, NewPeer(a, 0, MS));
    ReadyAnyTop(w1, ReplyRx(k, b, 15, 2 * MS), top);
    StepReachable(hash, w1, ReplyRx(k, b, 15, 2 * MS), top);
    w := Step(hash, w1, ReplyRx(k, b, 15, 2 * MS));
    assert w.table[key][0].ip == a && w.table[key][0].source == Told(b, 15) && (a, 15) !in w.said;
  }

  /** Whatever happens while classes hear only these addresses, every rate is traced to its own. */
  ghost predicate AlwaysOwn(hash: Hash, addresses: set<nat>, top: nat) {
    forall w :: Reachable(hash, w, top) && (forall x :: x in w.heard ==> x.1 in addresses) ==>
      forall key :: key in w.table ==> Own(w, key)
  }

  predicate Separate(hash: Hash, addresses: set<nat>) {
    forall a, b :: a in addresses && b in addresses && a != b ==> hash(a) != hash(b)
  }

  lemma SeparateAlone(hash: Hash, addresses: set<nat>, w: World, key: (nat, nat))
    requires Separate(hash, addresses) && forall x :: x in w.heard ==> x.1 in addresses
    ensures Alone(hash, w, key)
  {
    forall a: nat, b: nat | InBucket(hash, key, a, w.heard) && InBucket(hash, key, b, w.heard) ensures a == b {
      assert (key.0, a).1 in addresses && (key.0, b).1 in addresses;
    }
  }

  /** A limiter's rate is always traced to its own destination if and only if no two of the addresses
      that are heard share a bucket. */
  lemma OwnExactlyWhenSeparate(hash: Hash, addresses: set<nat>, top: nat)
    requires 1 <= top <= MAX_WEIGHT
    ensures AlwaysOwn(hash, addresses, top) <==> Separate(hash, addresses)
  {
    if Separate(hash, addresses) {
      forall w, key | Reachable(hash, w, top) && (forall x :: x in w.heard ==> x.1 in addresses) && key in w.table
        ensures Own(w, key)
      {
        ReachableSound(hash, w, top);
        SeparateAlone(hash, addresses, w, key);
        OwnIfAlone(hash, w, top, key);
      }
    } else {
      var a, b :| a in addresses && b in addresses && a != b && hash(a) == hash(b);
      var w, key := CollisionMisleads(hash, top, a, b);
      FullRateReachable(hash, w, top);
      hide Reachable, AtFullRate, Own;
    }
  }

  // ---- rates that do not fit ----

  /** Five times the drain rate, the milliseconds that suffice to climb to it, and the packets that
      then arrive at once. */
  const CAP: nat := 45_000
  const DRAINS: nat := 9000
  const BULK: nat := 65_396

  /** The advertised rate after k idle drains of a queue entitled to CAP. */
  function Climbed(k: nat): nat { if k == 0 then MIN_RFAIR else Min(CAP, Climbed(k - 1) * 3 / 2) }

  lemma {:induction false} ClimbedInRange(k: nat)
    ensures MIN_RFAIR <= Climbed(k) <= CAP && Min(CAP, MIN_RFAIR + 5 * k) <= Climbed(k)
  {
    if k > 0 { ClimbedInRange(k - 1); }
  }

  lemma NextClimbed(k: nat)
    ensures Climbed(k + 1) == Min(CAP, Climbed(k) * 3 / 2)
  {
  }

  lemma IdleStep(r: nat)
    requires MIN_RFAIR <= r <= CAP
    ensures Rcp.NextVq(r, CAP, 0) == Min(CAP, r * 3 / 2)
  {
    Rcp.VqFormFits(r, CAP, 0);
    assert r * 3 == 2 * (r * 3 / 2) + r * 3 % 2;
    assert Mul(r, 3 * CAP) == 2 * CAP * (r * 3 / 2) + CAP * (r * 3 % 2);
    DivIs(Mul(r, 3 * CAP), 2 * CAP, r * 3 / 2);
  }

  /** Host 1 is the sender, host 2 its destination; no feedback has been heard. */
  ghost predicate TwoHosts(w: World) {
    && 1 in w.vqs && 2 in w.vqs && 1 in w.classes && 2 in w.classes && w.vqs[1] == NewVq(1, 0)
    && w.table == map[]
  }

  /** Host 2, of weight 5, has climbed for k milliseconds on one small packet each. */
  ghost predicate Climbing(w: World, k: nat) {
    && TwoHosts(w)
    && Calm(w.vqs[2], 5, Climbed(k), k * MS, k * SIZE)
    && w.vqs[2].lastRxBytes == (if k > 0 then (k - 1) * SIZE else 0)
    && w.vqs[2].stats[0].lastFeedbackGen <= k * MS
  }

  lemma ClimbStarts(hash: Hash, top: nat) returns (w: World)
    requires top >= 8
    ensures AtFullRate(hash, w, top) && Climbing(w, 0)
  {
    StartReachable(hash, top);
    hide AtFullRate;
    StepReachable(hash, EMPTY, Install(1, 1, 0), top);
    var w1 := Step(hash, EMPTY, Install(1, 1, 0));
    StepReachable(hash, w1, Install(2, 1, 0), top);
    var w2 := Step(hash, w1, Install(2, 1, 0));
    StepReachable(hash, w2, Configure(2, 5, false, 0), top);
    w := Step(hash, w2, Configure(2, 5, false, 0));
    NewCalm(5, 0);
  }

  lemma NextMs(k: nat)
    ensures UsDelta((k + 1) * MS, k * MS) == 1000
  {
    assert (k + 1) * MS - k * MS == MS;
  }

  lemma NoLoad(bytes: nat)
    requires bytes <= SIZE
    ensures LoadOf(bytes, 1000) == 0
  {
  }

  /** One more packet, from the queue's point of view. */
  lemma ClimbingDrain(vq: Vq, k: nat)
    requires Calm(vq, 5, Climbed(k), k * MS, k * SIZE) && k < DRAINS
    requires vq.lastRxBytes == if k > 0 then (k - 1) * SIZE else 0
    ensures var e := Enqueued(vq, ArrivalAt((k + 1) * MS, true));
            && Sane(vq, ArrivalAt((k + 1) * MS, true))
            && Calm(e, 5, Climbed(k + 1), (k + 1) * MS, (k + 1) * SIZE) && e.lastRxBytes == k * SIZE
            && e.stats[0].lastFeedbackGen == vq.stats[0].lastFeedbackGen
  {
    var a := ArrivalAt((k + 1) * MS, true);
    NextMs(k);
    ClimbedInRange(k);
    IdleStep(Climbed(k));
    NextClimbed(k);
    NoLoad(k * SIZE - vq.lastRxBytes);
    assert Mul(5, VQ_DRAIN_RATE) == CAP;
    hide Rcp.NextVq, UsDelta, Climbed, LoadOf, Mul, Enqueued, Sane;
    CalmEnqueue(vq, 5, Climbed(k), k * MS, k * SIZE, a);
    GateKept(vq, a);
  }

  lemma ClimbOnce(hash: Hash, w: World, top: nat, k: nat) returns (w': World)
    requires AtFullRate(hash, w, top) && Climbing(w, k) && k < DRAINS
    ensures AtFullRate(hash, w', top) && Climbing(w', k + 1)
  {
    hide AtFullRate, UsDelta, Climbed, Enqueued, Step, Ready, Sane;
    var now := (k + 1) * MS;
    ClimbingDrain(w.vqs[2], k);
    QuietStep(hash, w, 1, 2, SIZE, now, true);
    ReadyAnyTop(w, DataRx(1, 2, SIZE, now, true, false), top);
    StepReachable(hash, w, DataRx(1, 2, SIZE, now, true, false), top);
    w' := Step(hash, w, DataRx(1, 2, SIZE, now, true, false));
    GatedCalm(Enqueued(w.vqs[2], ArrivalAt(now, true)), w'.vqs[2], now, 5, Climbed(k + 1), now, (k + 1) * SIZE);
  }

  lemma {:induction false} ClimbTo(hash: Hash, top: nat, k: nat) returns (w: World)
    requires top >= 8 && k <= DRAINS
    ensures AtFullRate(hash, w, top) && Climbing(w, k)
  {
    hide AtFullRate, Climbing;
    if k == 0 {
      w := ClimbStarts(hash, top);
    } else {
      var w0 := ClimbTo(hash, top, k - 1);
      w := ClimbOnce(hash, w0, top, k - 1);
    }
  }

  /** The climb done and the weight raised to 8, j large packets have come within j microseconds. */
  ghost predicate Loaded(w: World, j: nat) {
    && TwoHosts(w)
    && Calm(w.vqs[2], 8, CAP, DRAINS * MS, DRAINS * SIZE + j * BULK)
    && w.vqs[2].lastRxBytes == (DRAINS - 1) * SIZE
    && w.vqs[2].stats[0].lastFeedbackGen <= DRAINS * MS + j * 1000
  }

  lemma LoadStarts(hash: Hash, top: nat) returns (w: World)
    requires top >= 8
    ensures AtFullRate(hash, w, top) && Loaded(w, 0)
  {
    hide AtFullRate, Climbed;
    var w0 := ClimbTo(hash, top, DRAINS);
    ClimbedInRange(DRAINS);
    StepReachable(hash, w0, Configure(2, 8, false, 0), top);
    w := Step(hash, w0, Configure(2, 8, false, 0));
  }

  lemma LoadingCount(vq: Vq, j: nat)
    requires j < 3 && Calm(vq, 8, CAP, DRAINS * MS, DRAINS * SIZE + j * BULK) && vq.lastRxBytes == (DRAINS - 1) * SIZE
    ensures var a := ArrivalOf(BULK, DRAINS * MS + (j + 1) * 1000, true);
            && Sane(vq, a)
            && var e := Enqueued(vq, a);
            && Calm(e, 8, CAP, DRAINS * MS, DRAINS * SIZE + (j + 1) * BULK) && e.lastRxBytes == vq.lastRxBytes
            && e.stats[0].lastFeedbackGen == vq.stats[0].lastFeedbackGen
  {
    var a := ArrivalOf(BULK, DRAINS * MS + (j + 1) * 1000, true);
    assert UsDelta(a.now, DRAINS * MS) == j + 1;
    assert Mul(8, VQ_DRAIN_RATE) == 8 * VQ_DRAIN_RATE;
    hide UsDelta, Mul, Enqueued, Sane;
    CalmCount(vq, 8, CAP, DRAINS * MS, DRAINS * SIZE + j * BULK, a);
    GateKept(vq, a);
  }

  lemma LoadOnce(hash: Hash, w: World, top: nat, j: nat) returns (w': World)
    requires AtFullRate(hash, w, top) && Loaded(w, j) && j < 3
    ensures AtFullRate(hash, w', top) && Loaded(w', j + 1)
  {
    hide AtFullRate, UsDelta, Enqueued, Step, Ready, Sane;
    var now := DRAINS * MS + (j + 1) * 1000;
    LoadingCount(w.vqs[2], j);
    QuietStep(hash, w, 1, 2, BULK, now, true);
    ReadyAnyTop(w, DataRx(1, 2, BULK, now, true, false), top);
    StepReachable(hash, w, DataRx(1, 2, BULK, now, true, false), top);
    w' := Step(hash, w, DataRx(1, 2, BULK, now, true, false));
    GatedCalm(Enqueued(w.vqs[2], ArrivalOf(BULK, now, true)), w'.vqs[2], now,
              8, CAP, DRAINS * MS, DRAINS * SIZE + (j + 1) * BULK);
  }

  lemma LastStep()
    ensures Rcp.NextVq(CAP, 8 * VQ_DRAIN_RATE, 6280) == 65537
  {
    Rcp.VqFormFits(CAP, 8 * VQ_DRAIN_RATE, 6280);
    assert Mul(CAP, 3 * (8 * VQ_DRAIN_RATE) - 6280) == 9_437_400_000;
    assert Div(9_437_400_000, 2 * (8 * VQ_DRAIN_RATE)) == 65537;
  }

  /** The next drain reads a load of 6280 Mb/s, within the device's rate, and advertises 65537. */
  lemma WideLoad(vq: Vq)
    requires Calm(vq, 8, CAP, DRAINS * MS, DRAINS * SIZE + 3 * BULK) && vq.lastRxBytes == (DRAINS - 1) * SIZE
    ensures var a := ArrivalAt(DRAINS * MS + 250_000, true);
            && Sane(vq, a)
            && var e := Enqueued(vq, a);
            && e.feedbackRate == 65537 && |e.stats| == 1
            && e.stats[0].lastFeedbackGen == vq.stats[0].lastFeedbackGen
  {
    var a := ArrivalAt(DRAINS * MS + 250_000, true);
    assert UsDelta(a.now, DRAINS * MS) == 250;
    assert LoadOf(SIZE + 3 * BULK, 250) == 6280 && Mul(8, VQ_DRAIN_RATE) == 8 * VQ_DRAIN_RATE;
    LastStep();
    hide UsDelta, Rcp.NextVq, LoadOf, Mul, Enqueued, Sane;
    CalmEnqueue(vq, 8, CAP, DRAINS * MS, DRAINS * SIZE + 3 * BULK, a);
    GateKept(vq, a);
  }

  lemma GateIsOpen(now: nat, gen: nat)
    requires gen + 200_000 <= now
    ensures UsDelta(now, gen) > FEEDBACK_INTERVAL_US
  {
  }

  /** And 65537 goes out. */
  lemma WideAnswer(hash: Hash, top: nat) returns (w: World)
    requires top >= 8
    ensures AtFullRate(hash, w, top) && TwoHosts(w)
    ensures (Reply(1, 2, 65537), 65537) in w.net
  {
    var now := DRAINS * MS + 250_000;
    hide AtFullRate, UsDelta, Enqueued, Step, Ready, Sane;
    var w0 := LoadStarts(hash, top);
    var w1 := LoadOnce(hash, w0, top, 0);
    var w2 := LoadOnce(hash, w1, top, 1);
    var w3 := LoadOnce(hash, w2, top, 2);
    WideLoad(w3.vqs[2]);
    GateIsOpen(now, w3.vqs[2].stats[0].lastFeedbackGen);
    DataStep(hash, w3, 1, 2, now, true);
    ReadyAnyTop(w3, DataRx(1, 2, SIZE, now, true, true), top);
    StepReachable(hash, w3, DataRx(1, 2, SIZE, now, true, true), top);
    w := Step(hash, w3, DataRx(1, 2, SIZE, now, true, true));
  }

  /** A limiter is set to a rate of 1: from no host at all, with queues installed at weight 1 on devices
      that stay at their initial rate, for every top weight of at least 8. */
  lemma WideRatesEscape(hash: Hash, top: nat) returns (w: World, key: (nat, nat))
    requires top >= 8
    ensures AtFullRate(hash, w, top) && key in w.table && |w.table[key]| == 1 && w.table[key][0].rl.rate == 1
  {
    var w0 := WideAnswer(hash, top);
    var t := 30 * MS;
    key := (1, hash(2));
    FreshSane(t, false);
    StillSane(Enqueued(NewVq(1, 0), ArrivalAt(t, false)), t + MS);
    assert UsDelta(t + MS, t) == 1000;
    hide AtFullRate, Enqueued, Sane, Ready, Step;
    FirstReplyStep(hash, w0, 1, 2, 65537, t);
    ReadyAnyTop(w0, ReplyRx(1, 2, 65537, t), top);
    StepReachable(hash, w0, ReplyRx(1, 2, 65537, t), top);
    var w1 := Step(hash, w0, ReplyRx(1, 2, 65537, t));
    NextReplyStep(hash, w1, 1, 2, 65537, t + MS, NewPeer(2, 0, t));
    ReadyAnyTop(w1, ReplyRx(1, 2, 65537, t + MS), top);
    StepReachable(hash, w1, ReplyRx(1, 2, 65537, t + MS), top);
    w := Step(hash, w1, ReplyRx(1, 2, 65537, t + MS));
  }

  /** Every limiter rate in every reachable world lies in [2, max(initial, top weight * drain)]. */
  ghost predicate AlwaysInRange(hash: Hash, top: nat) {
    forall w, key, i :: Reachable(hash, w, top) && key in w.table && 0 <= i < |w.table[key]| ==>
      2 <= w.table[key][i].rl.rate <= Max(RFAIR_INITIAL, Mult(top))
  }

  /** They do if and only if the highest advertised rate fits 16 bits. */
  lemma InRangeExactlyWhenFits(hash: Hash, top: nat)
    requires top <= MAX_WEIGHT
    ensures AlwaysInRange(hash, top) <==> Mult(top) < U16
  {
    if Mult(top) < U16 {
      forall w, key, i | Reachable(hash, w, top) && key in w.table && 0 <= i < |w.table[key]|
        ensures 2 <= w.table[key][i].rl.rate <= Max(RFAIR_INITIAL, Mult(top))
      {
        ReachableSound(hash, w, top);
        RatesInRange(hash, w, top, key);
      }
    } else {
      var w, key := WideRatesEscape(hash, top);
      FullRateReachable(hash, w, top);
      assert w.table[key][0].rl.rate == 1;
    }
  }
}
