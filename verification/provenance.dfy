/** Senders and receivers over a network that loses, duplicates and reorders (rx.c, tx.c, rl.c, vq.c,
    rx.h): where the rate of every destination limiter comes from. */
module Provenance {
  import opened Params
  import opened Arithmetic
  import opened Lists
  import opened VirtualQueues
  import opened Feedback
  import L = Limiter

  /** The bucket an address hashes to, the same in every class. */
  type Hash = nat -> nat

  /** What changes a limiter's rate between two pieces of feedback. */
  datatype Op = Idle | Halve

  /** Where a rate started: the initial rate, or a value some host advertised, as 16 bits. */
  datatype Source = Initial | Told(host: nat, value: nat)

  function StartOf(s: Source): nat { if s.Told? then s.value % U16 else RFAIR_INITIAL }

  function Apply(r: nat, ops: seq<Op>): nat {
    if ops == [] then r
    else
      var r' := Apply(r, ops[..|ops| - 1]);
      if ops[|ops| - 1].Idle? then Min(r', IDLE_RATE) else L.Halved(r')
  }

  /** A sender's `struct iso_per_dest_state`: its address, its limiter and the controller's change time,
      with the history of its rate and of when feedback set it. */
  datatype Peer = Peer(ip: nat, rl: L.Rl, lastChange: nat, source: Source, ops: seq<Op>, overwrites: seq<nat>)

  /** The limiter was initialised when it was preallocated, the controller when the state is taken. */
  function NewPeer(ip: nat, born: nat, now: nat): Peer { Peer(ip, L.NewRl(0, born), now, Initial, [], []) }

  /** Every host at once, by address: installed transmit classes, virtual queues, and the state buckets
      of each class. `net` holds every feedback frame ever sent with the rate it stood for: a frame may
      be delivered never, once or often, in any order. `said` is what each receiver has advertised,
      `heard` the addresses each class has had feedback from. */
  datatype World = World(
    classes: set<nat>, vqs: map<nat, Vq>, table: map<(nat, nat), seq<Peer>>,
    net: set<(Frame, nat)>, said: set<(nat, nat)>, heard: set<(nat, nat)>)

  const EMPTY := World({}, map[], map[], {}, {}, {})

  // ---- a refill ----

  function ClockOps(rl: L.Rl, now: nat): seq<Op> {
    if !L.ShouldRefill(rl, now) then []
    else (if UsDelta(now, rl.last) > IDLE_TIMEOUT_US then [Idle] else [])
         + (if UsDelta(now, rl.lastRate) > FEEDBACK_TIMEOUT_US then [Halve] else [])
  }

  /** `iso_rl_clock` with its history. */
  function Ticked(p: Peer, now: nat): Peer {
    p.(rl := L.Clocked(p.rl, now), ops := p.ops + ClockOps(p.rl, now))
  }

  // ---- the bucket walk ----

  function BucketAt(table: map<(nat, nat), seq<Peer>>, key: (nat, nat)): seq<Peer> {
    if key in table then table[key] else []
  }

  function FirstMatch(b: seq<Peer>, ip: nat): nat { FirstWhere((p: Peer) => p.ip == ip, b) }

  /** What the walk in `iso_state_get` leaves in its loop variable: the first state with the address;
      failing that the last state of the bucket, whatever its address; and NULL, here -1, only when the
      bucket is empty. */
  function Walk(b: seq<Peer>, ip: nat): (i: int)
    ensures -1 <= i < |b| && (i < 0 <==> b == [])
  {
    var i := FirstMatch(b, ip);
    if i < |b| then i else |b| - 1
  }

  // ---- a received frame ----

  /** Rate control is on while the drain rate is below the link's. */
  predicate ControlOn() { VQ_DRAIN_RATE <= MAX_TX_RATE }

  /** The overwrite in `iso_rx`: `f` stood for the advertised rate `value`. */
  function Overwritten(p: Peer, f: Frame, value: nat, now: nat, lock: bool): Peer {
    if ControlOn() && HasFeedback(f) != 0 && UsDelta(now, p.lastChange) >= DECREASE_INTERVAL_US && lock
    then p.(rl := p.rl.(rate := HasFeedback(f), lastRate := now), lastChange := now,
            source := Told(f.saddr, value), ops := [], overwrites := p.overwrites + [now])
    else p
  }

  /** A reception: the frame and the rate it stood for if it is feedback; what the virtual queue sees;
      the clock; whether a missing state can be created and when its limiter was preallocated; whether
      the lock is free, and a frame can be allocated. */
  datatype Reception = Reception(
    f: Frame, value: nat, a: Arrival, now: nat, create: bool, born: nat, lock: bool, alloc: bool)

  function KeyOf(hash: Hash, f: Frame): (nat, nat) { (RxClass(f), hash(f.saddr)) }

  /** The bucket with the state made for it if it was empty and one may be made. */
  function Filled(b: seq<Peer>, r: Reception): seq<Peer> {
    if b == [] && HasFeedback(r.f) != 0 && r.create then [NewPeer(r.f.saddr, r.born, r.now)] else b
  }

  /** The state lookup, creation and overwrite. */
  function Noted(hash: Hash, table: map<(nat, nat), seq<Peer>>, r: Reception): map<(nat, nat), seq<Peer>> {
    var key := KeyOf(hash, r.f);
    var b := Filled(BucketAt(table, key), r);
    if !r.f.ip || b == [] then table
    else
      var i := Walk(b, r.f.saddr);
      table[key := b[i := Overwritten(b[i], r.f, r.value, r.now, r.lock)]]
  }

  /** The feedback gate and the frame it may send, for queue k. */
  function Answered(w: World, k: nat, r: Reception): World
    requires k in w.vqs && r.a.cpu < |w.vqs[k].stats|
  {
    var vq := w.vqs[k];
    var (send, s) := Gated(vq.stats[r.a.cpu], r.a.size, r.now);
    var w1 := w.(vqs := w.vqs[k := vq.(stats := vq.stats[r.a.cpu := s])]);
    var fb := Generated(AsInt(vq.feedbackRate), r.f, r.alloc);
    if send && fb.Some?
    then w1.(net := w1.net + {(fb.value, vq.feedbackRate)}, said := w1.said + {(k, vq.feedbackRate)})
    else w1
  }

  ghost predicate CanReceive(w: World, r: Reception) {
    && (IsFeedback(r.f) ==> (r.f, r.value) in w.net)
    && (RxClass(r.f) in w.vqs ==> Sane(w.vqs[RxClass(r.f)], r.a) && r.a.rcpRate <= VQ_DRAIN_RATE)
  }

  function Heard(heard: set<(nat, nat)>, f: Frame): set<(nat, nat)> {
    if HasFeedback(f) != 0 then heard + {(RxClass(f), f.saddr)} else heard
  }

  /** Once the class is known: note the feedback, then drop it or answer. */
  function Classed(hash: Hash, w: World, r: Reception): (World, bool)
    requires RxClass(r.f) in w.vqs && r.a.cpu < |w.vqs[RxClass(r.f)].stats|
  {
    var w1 := w.(table := Noted(hash, w.table, r), heard := Heard(w.heard, r.f));
    if IsFeedback(r.f) && BucketAt(w1.table, KeyOf(hash, r.f)) != [] then (w1, true)
    else (Answered(w1, RxClass(r.f), r), false)
  }

  /** `iso_rx` without its device-wide counters; the verdict is true for a dropped frame. */
  function Handled(hash: Hash, w: World, r: Reception): (World, bool)
    requires RxClass(r.f) in w.vqs ==> Sane(w.vqs[RxClass(r.f)], r.a)
  {
    var k := RxClass(r.f);
    if k !in w.vqs then (w, false)
    else
      var w1 := w.(vqs := w.vqs[k := Enqueued(w.vqs[k], r.a)]);
      if k !in w.classes then (w1, false) else Classed(hash, w1, r)
  }

  // ---- steps and runs ----

  datatype Event =
    | Receive(r: Reception)
    | Refill(key: (nat, nat), i: nat, now: nat)
    | Configure(k: nat, weight: nat, isStatic: bool, rate: nat)
    | Install(k: nat, ncpu: nat, now: nat)

  /** Weights stay at or below `top`; a queue is installed with weight 1. */
  ghost predicate Ready(w: World, e: Event, top: nat) {
    match e
    case Receive(r) => CanReceive(w, r)
    case Refill(key, i, _) => i < |BucketAt(w.table, key)|
    case Configure(k, weight, _, _) => k in w.vqs && weight <= top
    case Install(k, _, _) => k !in w.vqs && 1 <= top
  }

  function Step(hash: Hash, w: World, e: Event): World
    requires e.Receive? && RxClass(e.r.f) in w.vqs ==> Sane(w.vqs[RxClass(e.r.f)], e.r.a)
    requires e.Refill? ==> e.i < |BucketAt(w.table, e.key)|
    requires e.Configure? ==> e.k in w.vqs
  {
    match e
    case Receive(r) => Handled(hash, w, r).0
    case Refill(key, i, now) => w.(table := w.table[key := w.table[key][i := Ticked(w.table[key][i], now)]])
    case Configure(k, weight, isStatic, rate) =>
      w.(vqs := w.vqs[k := w.vqs[k].(weight := weight, isStatic := isStatic, rate := rate)])
    case Install(k, ncpu, now) => w.(vqs := w.vqs[k := NewVq(ncpu, now)], classes := w.classes + {k})
  }

  ghost predicate Fit(hash: Hash, w: World, es: seq<Event>, top: nat)
    decreases |es|
  {
    es != [] ==> Ready(w, es[0], top) && Fit(hash, Step(hash, w, es[0]), es[1..], top)
  }

  ghost function Run(hash: Hash, w: World, es: seq<Event>, top: nat): World
    requires Fit(hash, w, es, top)
    decreases |es|
  {
    if es == [] then w else Run(hash, Step(hash, w, es[0]), es[1..], top)
  }

  // ---- the invariant ----

  predicate Spaced(ts: seq<nat>) {
    forall i :: 0 <= i < |ts| - 1 ==> UsDelta(ts[i + 1], ts[i]) >= DECREASE_INTERVAL_US
  }

  /** A host this class has heard that falls into this bucket. */
  predicate InBucket(hash: Hash, key: (nat, nat), ip: nat, heard: set<(nat, nat)>) {
    hash(ip) == key.1 && (key.0, ip) in heard
  }

  /** A limiter's rate is what its source and operations make of it; a source other than the initial
      rate is a non-zero value advertised by some destination of the state's bucket; overwrites keep
      their distance. */
  ghost predicate Traced(hash: Hash, key: (nat, nat), p: Peer, said: set<(nat, nat)>, heard: set<(nat, nat)>) {
    && p.rl.rate == Apply(StartOf(p.source), p.ops)
    && InBucket(hash, key, p.ip, heard)
    && (p.source.Told? ==>
          && (p.source.host, p.source.value) in said && p.source.value % U16 != 0
          && InBucket(hash, key, p.source.host, heard))
    && Spaced(p.overwrites)
    && (p.overwrites != [] ==> p.overwrites[|p.overwrites| - 1] == p.lastChange)
  }

  /** A bucket once used holds exactly one state: a non-empty bucket never reports a miss. */
  ghost predicate BucketOk(hash: Hash, key: (nat, nat), b: seq<Peer>, said: set<(nat, nat)>, heard: set<(nat, nat)>) {
    |b| == 1 && Traced(hash, key, b[0], said, heard)
  }

  ghost predicate AllTraced(hash: Hash, table: map<(nat, nat), seq<Peer>>,
                            said: set<(nat, nat)>, heard: set<(nat, nat)>)
  {
    forall key :: key in table ==> BucketOk(hash, key, table[key], said, heard)
  }

  /** A frame on the network carries, in 16 bits, a value its source address advertised. */
  ghost predicate Genuine(m: (Frame, nat), said: set<(nat, nat)>) {
    IsFeedback(m.0) && m.0.id == m.1 % U16 && (m.0.saddr, m.1) in said
  }

  ghost predicate Sound(hash: Hash, w: World, top: nat) {
    && (forall k :: k in w.vqs ==> InRange(w.vqs[k], top))
    && (forall m :: m in w.net ==> Genuine(m, w.said))
    && (forall s :: s in w.said ==> MIN_RFAIR <= s.1 <= Max(MIN_RFAIR, Mult(top)))
    && AllTraced(hash, w.table, w.said, w.heard)
  }

  // ---- a limiter's history ----

  lemma ApplyAppend(r: nat, ops: seq<Op>, op: Op)
    ensures Apply(r, ops + [op]) == if op.Idle? then Min(Apply(r, ops), IDLE_RATE) else L.Halved(Apply(r, ops))
  {
    assert (ops + [op])[..|ops|] == ops;
  }

  /** A refill changes a rate only by the idle cap and one halving. */
  lemma TickedRate(p: Peer, now: nat, r: nat)
    requires p.rl.rate == Apply(r, p.ops)
    ensures Ticked(p, now).rl.rate == Apply(r, Ticked(p, now).ops)
  {
    hide UsDelta, L.Refilled;
    var idle := UsDelta(now, p.rl.last) > IDLE_TIMEOUT_US;
    var late := UsDelta(now, p.rl.lastRate) > FEEDBACK_TIMEOUT_US;
    var ops1 := if idle then p.ops + [Idle] else p.ops;
    if idle { ApplyAppend(r, p.ops, Idle); }
    if late { ApplyAppend(r, ops1, Halve); }
    if L.ShouldRefill(p.rl, now) {
      assert p.ops + ClockOps(p.rl, now) == if late then ops1 + [Halve] else ops1;
    } else {
      assert p.ops + ClockOps(p.rl, now) == p.ops;
    }
  }

  lemma TickedTraced(hash: Hash, key: (nat, nat), p: Peer, said: set<(nat, nat)>, heard: set<(nat, nat)>, now: nat)
    requires Traced(hash, key, p, said, heard)
    ensures Traced(hash, key, Ticked(p, now), said, heard)
  {
    TickedRate(p, now, StartOf(p.source));
    hide L.Clocked, ClockOps, Apply, StartOf;
  }

  /** An overwrite starts the history over, from a value advertised by whichever host of the bucket the
      frame came from. */
  lemma OverwrittenTraced(hash: Hash, key: (nat, nat), p: Peer, said: set<(nat, nat)>, heard: set<(nat, nat)>,
                          f: Frame, value: nat, now: nat, lock: bool)
    requires Traced(hash, key, p, said, heard)
    requires HasFeedback(f) != 0 ==> Genuine((f, value), said) && InBucket(hash, key, f.saddr, heard)
    ensures Traced(hash, key, Overwritten(p, f, value, now, lock), said, heard)
  {
    hide UsDelta;
  }

  lemma NewTraced(hash: Hash, key: (nat, nat), ip: nat, said: set<(nat, nat)>, heard: set<(nat, nat)>,
                  born: nat, now: nat)
    requires InBucket(hash, key, ip, heard)
    ensures Traced(hash, key, NewPeer(ip, born, now), said, heard)
  {
  }

  lemma BucketMono(hash: Hash, key: (nat, nat), b: seq<Peer>, said: set<(nat, nat)>, heard: set<(nat, nat)>,
                   said': set<(nat, nat)>, heard': set<(nat, nat)>)
    requires BucketOk(hash, key, b, said, heard) && said <= said' && heard <= heard'
    ensures BucketOk(hash, key, b, said', heard')
  {
    hide Apply, Spaced;
  }

  lemma TracedMono(hash: Hash, table: map<(nat, nat), seq<Peer>>, said: set<(nat, nat)>, heard: set<(nat, nat)>,
                   said': set<(nat, nat)>, heard': set<(nat, nat)>)
    requires AllTraced(hash, table, said, heard) && said <= said' && heard <= heard'
    ensures AllTraced(hash, table, said', heard')
  {
    forall key | key in table ensures BucketOk(hash, key, table[key], said', heard') {
      BucketMono(hash, key, table[key], said, heard, said', heard');
    }
    hide BucketOk;
  }

  // ---- every step ----

  lemma NotedTraced(hash: Hash, table: map<(nat, nat), seq<Peer>>, said: set<(nat, nat)>, heard: set<(nat, nat)>,
                    r: Reception)
    requires AllTraced(hash, table, said, heard)
    requires IsFeedback(r.f) ==> Genuine((r.f, r.value), said)
    requires HasFeedback(r.f) != 0 ==> (RxClass(r.f), r.f.saddr) in heard
    ensures AllTraced(hash, Noted(hash, table, r), said, heard)
  {
    var key := KeyOf(hash, r.f);
    var b := Filled(BucketAt(table, key), r);
    hide Traced, Overwritten, Genuine;
    if r.f.ip && b != [] {
      if key in table {
        assert BucketOk(hash, key, table[key], said, heard);
      } else {
        NewTraced(hash, key, r.f.saddr, said, heard, r.born, r.now);
      }
      assert Walk(b, r.f.saddr) == 0;
      OverwrittenTraced(hash, key, b[0], said, heard, r.f, r.value, r.now, r.lock);
    }
  }

  lemma AnsweredSound(hash: Hash, w: World, k: nat, r: Reception, top: nat)
    requires Sound(hash, w, top) && k in w.vqs && r.a.cpu < |w.vqs[k].stats| && k == RxClass(r.f) && top <= MAX_WEIGHT
    ensures Sound(hash, Answered(w, k, r), top)
  {
    var vq := w.vqs[k];
    var s := (k, vq.feedbackRate);
    assert InRange(vq, top);
    assert AsInt(vq.feedbackRate) == vq.feedbackRate;
    TracedMono(hash, w.table, w.said, w.heard, w.said + {s}, w.heard);
    hide AllTraced, Gated, AsInt;
  }

  lemma ClassedSound(hash: Hash, w: World, r: Reception, top: nat)
    requires Sound(hash, w, top) && RxClass(r.f) in w.vqs && r.a.cpu < |w.vqs[RxClass(r.f)].stats| && top <= MAX_WEIGHT
    requires IsFeedback(r.f) ==> (r.f, r.value) in w.net
    ensures Sound(hash, Classed(hash, w, r).0, top)
  {
    hide AllTraced, Noted, InRange, Answered;
    assert IsFeedback(r.f) ==> Genuine((r.f, r.value), w.said);
    hide Genuine;
    TracedMono(hash, w.table, w.said, w.heard, w.said, Heard(w.heard, r.f));
    NotedTraced(hash, w.table, w.said, Heard(w.heard, r.f), r);
    var w1 := w.(table := Noted(hash, w.table, r), heard := Heard(w.heard, r.f));
    assert Sound(hash, w1, top);
    AnsweredSound(hash, w1, RxClass(r.f), r, top);
  }

  lemma HandledSound(hash: Hash, w: World, r: Reception, top: nat)
    requires Sound(hash, w, top) && CanReceive(w, r) && top <= MAX_WEIGHT
    ensures Sound(hash, Handled(hash, w, r).0, top)
  {
    var k := RxClass(r.f);
    if k in w.vqs {
      EnqueueInRange(w.vqs[k], r.a, top);
      hide AllTraced, Enqueued, InRange, Genuine, Classed;
      var w1 := w.(vqs := w.vqs[k := Enqueued(w.vqs[k], r.a)]);
      assert Sound(hash, w1, top);
      if k in w.classes {
        ClassedSound(hash, w1, r, top);
      }
    }
  }

  lemma RefillSound(hash: Hash, w: World, key: (nat, nat), i: nat, now: nat, top: nat)
    requires Sound(hash, w, top) && i < |BucketAt(w.table, key)|
    ensures Sound(hash, Step(hash, w, Refill(key, i, now)), top)
  {
    hide Traced, Genuine, InRange, Ticked;
    assert BucketOk(hash, key, w.table[key], w.said, w.heard);
    TickedTraced(hash, key, w.table[key][0], w.said, w.heard, now);
  }

  lemma StepSound(hash: Hash, w: World, e: Event, top: nat)
    requires Sound(hash, w, top) && Ready(w, e, top) && top <= MAX_WEIGHT
    ensures Sound(hash, Step(hash, w, e), top)
  {
    hide AllTraced, Genuine;
    match e
    case Receive(r) => HandledSound(hash, w, r, top);
    case Refill(key, i, now) => RefillSound(hash, w, key, i, now, top);
    case Configure(_, _, _, _) =>
    case Install(_, _, _) =>
  }

  /** Rate provenance: on every run, under any loss, duplication and reordering, every limiter's rate is
      the initial rate or a value advertised by a destination that falls into the same bucket, changed
      only by idle caps and halvings since; and a bucket never holds more than one state. */
  lemma {:induction false} RunSound(hash: Hash, w: World, es: seq<Event>, top: nat)
    requires Sound(hash, w, top) && Fit(hash, w, es, top) && top <= MAX_WEIGHT
    ensures Sound(hash, Run(hash, w, es, top), top)
    decreases |es|
  {
    if es != [] {
      StepSound(hash, w, es[0], top);
      hide Sound, Ready, Step;
      RunSound(hash, Step(hash, w, es[0]), es[1..], top);
    }
  }

  /** The same from no host at all. */
  lemma LifetimeSound(hash: Hash, es: seq<Event>, top: nat)
    requires Fit(hash, EMPTY, es, top) && top <= MAX_WEIGHT
    ensures Sound(hash, Run(hash, EMPTY, es, top), top)
  {
    hide Run, Fit;
    RunSound(hash, EMPTY, es, top);
  }

  // ---- what provenance gives ----

  /** Operations keep a rate of at least 2 there, and never raise it. */
  lemma {:induction false} ApplyBounds(r: nat, ops: seq<Op>)
    requires r >= 2
    ensures 2 <= Apply(r, ops) <= r
    decreases |ops|
  {
    if ops != [] {
      ApplyBounds(r, ops[..|ops| - 1]);
    }
  }

  /** k feedback timeouts and nothing else leave max(2, rate / 2^k). */
  lemma {:induction false} HalvingsClosedForm(r: nat, ops: seq<Op>)
    requires ops != [] && forall i :: 0 <= i < |ops| ==> ops[i].Halve?
    ensures Apply(r, ops) == Max(2, r / Pow2(|ops|))
    decreases |ops|
  {
    var n := |ops| - 1;
    if n > 0 {
      HalvingsClosedForm(r, ops[..n]);
      HalveQuotient(r, Pow2(n));
    } else {
      assert ops[..0] == [];
      assert Pow2(1) == 2 * Pow2(0);
    }
  }

  /** When every advertised rate fits 16 bits, limiter rates stay in [2, max(initial, advertised)]. */
  lemma RatesInRange(hash: Hash, w: World, top: nat, key: (nat, nat))
    requires Sound(hash, w, top) && Mult(top) < U16 && key in w.table
    ensures |w.table[key]| == 1 && 2 <= w.table[key][0].rl.rate <= Max(RFAIR_INITIAL, Mult(top))
  {
    assert BucketOk(hash, key, w.table[key], w.said, w.heard);
    var p := w.table[key][0];
    if p.source.Told? {
      assert MIN_RFAIR <= p.source.value < U16;
      assert StartOf(p.source) == p.source.value;
    }
    ApplyBounds(StartOf(p.source), p.ops);
  }

  /** The rate comes from a value that very destination advertised, or is still the initial one. */
  ghost predicate Own(w: World, key: (nat, nat))
    requires key in w.table
  {
    forall i :: 0 <= i < |w.table[key]| ==>
      var p := w.table[key][i]; p.source.Told? ==> (p.ip, p.source.value) in w.said
  }

  /** No other address this class has heard falls into the bucket. */
  ghost predicate Alone(hash: Hash, w: World, key: (nat, nat)) {
    forall a, b :: InBucket(hash, key, a, w.heard) && InBucket(hash, key, b, w.heard) ==> a == b
  }

  /** Where a bucket has one address to itself, the rate is traced to that very destination. */
  lemma OwnIfAlone(hash: Hash, w: World, top: nat, key: (nat, nat))
    requires Sound(hash, w, top) && key in w.table && Alone(hash, w, key)
    ensures Own(w, key)
  {
    assert BucketOk(hash, key, w.table[key], w.said, w.heard);
    hide InBucket, Apply, Spaced;
  }

  /** A feedback frame never triggers feedback where its bucket has a state, and is dropped there even
      if the state is another destination's; it is answered exactly when the bucket is empty, no state
      can be made, and the gate is open. */
  lemma EchoExactly(hash: Hash, w: World, r: Reception)
    requires CanReceive(w, r) && IsFeedback(r.f) && RxClass(r.f) in w.vqs && RxClass(r.f) in w.classes
    ensures var key := KeyOf(hash, r.f);
            var stateless := BucketAt(w.table, key) == [] && !(HasFeedback(r.f) != 0 && r.create);
            && (Handled(hash, w, r).1 <==> !stateless)
            && (!stateless ==> Handled(hash, w, r).0.net == w.net && BucketAt(Handled(hash, w, r).0.table, key) != [])
            && (stateless ==>
                  var vq := Enqueued(w.vqs[key.0], r.a);
                  Handled(hash, w, r).0.net ==
                    if Gated(vq.stats[r.a.cpu], r.a.size, r.now).0 && r.alloc
                    then w.net + {(Generated(AsInt(vq.feedbackRate), r.f, true).value, vq.feedbackRate)} else w.net)
  {
    hide Enqueued, Gated, Overwritten, Walk;
  }

  lemma StepKeepsStates(hash: Hash, w: World, e: Event, top: nat, key: (nat, nat))
    requires Ready(w, e, top) && BucketAt(w.table, key) != []
    ensures BucketAt(Step(hash, w, e).table, key) != []
  {
    hide Enqueued, Gated, Overwritten, Generated, Walk, Ticked;
  }

  /** State, once made, stays: the bucket's frames stay silent for good. */
  lemma {:induction false} StatesStay(hash: Hash, w: World, es: seq<Event>, top: nat, key: (nat, nat))
    requires Fit(hash, w, es, top) && BucketAt(w.table, key) != []
    ensures BucketAt(Run(hash, w, es, top).table, key) != []
    decreases |es|
  {
    if es != [] {
      StepKeepsStates(hash, w, es[0], top, key);
      hide Step, Ready, BucketAt;
      StatesStay(hash, Step(hash, w, es[0]), es[1..], top, key);
    }
  }

  /** Consecutive overwrites by feedback are at least the decrease interval apart. */
  lemma OverwritesSpaced(hash: Hash, w: World, top: nat, key: (nat, nat), i: nat)
    requires Sound(hash, w, top) && key in w.table && w.table[key] != [] && i + 1 < |w.table[key][0].overwrites|
    ensures var ts := w.table[key][0].overwrites; ts[i + 1] >= ts[i] + DECREASE_INTERVAL_US * 1000
  {
    assert BucketOk(hash, key, w.table[key], w.said, w.heard);
  }

  // ---- the object ----

  class ReceivePath {
    const hash: Hash
    var classes: set<nat>
    var vqs: map<nat, Vq>
    var table: map<(nat, nat), seq<Peer>>
    var net: set<(Frame, nat)>
    var said: set<(nat, nat)>
    var heard: set<(nat, nat)>

    function View(): World
      reads this
    {
      World(classes, vqs, table, net, said, heard)
    }

    constructor (hash: Hash)
      ensures this.hash == hash && View() == EMPTY
    {
      this.hash := hash;
      classes, vqs, table, net, said, heard := {}, map[], map[], {}, {}, {};
    }

    /** The walk of `iso_state_get`: the loop variable keeps the last entry it saw. */
    method WalkBucket(b: seq<Peer>, ip: nat) returns (state: int)
      ensures state == Walk(b, ip)
    {
      state := -1;
      var i := 0;
      while i < |b|
        invariant i <= |b| && state == i - 1
        invariant forall j :: 0 <= j < i ==> b[j].ip != ip
      {
        state := i;
        if b[i].ip == ip {
          break;
        }
        i := i + 1;
      }
    }

    /** Look the state up, create it if the bucket is empty and it may be, and take the rate the frame
        carries. */
    method TakeFeedback(r: Reception) returns (found: bool)
      modifies `table
      ensures table == Noted(hash, old(table), r)
      ensures found <==> r.f.ip && BucketAt(table, KeyOf(hash, r.f)) != []
    {
      hide UsDelta, Walk;
      if !r.f.ip {
        return false;
      }
      var key := KeyOf(hash, r.f);
      var b := BucketAt(table, key);
      var state := WalkBucket(b, r.f.saddr);
      if state < 0 && HasFeedback(r.f) != 0 && r.create {
        b := [NewPeer(r.f.saddr, r.born, r.now)];
        state := 0;
      }
      found := state >= 0;
      if found {
        var rate := HasFeedback(r.f);
        var p := b[state];
        if ControlOn() && rate != 0 && UsDelta(r.now, p.lastChange) >= DECREASE_INTERVAL_US {
          if r.lock {
            p := p.(rl := p.rl.(rate := rate));
            p := p.(rl := p.rl.(lastRate := r.now));
            p := p.(lastChange := r.now, source := Told(r.f.saddr, r.value), ops := [],
                    overwrites := p.overwrites + [r.now]);
          }
        }
        table := table[key := b[state := p]];
      }
    }

    /** Count the packet at the feedback gate and answer it if the gate opens. */
    method Answer(k: nat, r: Reception)
      requires k in vqs && r.a.cpu < |vqs[k].stats|
      modifies `vqs, `net, `said
      ensures View() == Answered(old(View()), k, r)
    {
      hide UsDelta, Generated, AsInt;
      var vq := vqs[k];
      var s := vq.stats[r.a.cpu];
      var dt := UsDelta(r.now, s.lastFeedbackGen);
      s := s.(rxSince := (s.rxSince + r.a.size) % U32);
      if dt > FEEDBACK_INTERVAL_US || s.rxSince >= FEEDBACK_INTERVAL_BYTES {
        var fb := Generate(AsInt(vq.feedbackRate), r.f, r.alloc);
        if fb.Some? {
          net := net + {(fb.value, vq.feedbackRate)};
          said := said + {(k, vq.feedbackRate)};
        }
        s := s.(lastFeedbackGen := r.now);
        s := s.(rxSince := 0);
        s := s.(networkMarked := 0);
      }
      vqs := vqs[k := vq.(stats := vq.stats[r.a.cpu := s])];
    }

    /** `iso_rx` */
    method Rx(r: Reception) returns (dropped: bool)
      requires RxClass(r.f) in vqs ==> Sane(vqs[RxClass(r.f)], r.a)
      modifies this
      ensures (View(), dropped) == Handled(hash, old(View()), r)
    {
      dropped := false;
      var k := RxClass(r.f);
      hide Noted, Answered, BucketAt;
      if k in vqs {
        vqs := vqs[k := Enqueued(vqs[k], r.a)];
        assert r.a.cpu < |vqs[k].stats|;
        hide Enqueued;
        if k in classes {
          heard := Heard(heard, r.f);
          var found := TakeFeedback(r);
          if found && IsFeedback(r.f) {
            dropped := true;
          } else {
            Answer(k, r);
          }
        }
      }
    }
  }
}
