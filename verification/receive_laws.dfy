/** What one received frame does on its host, exactly: when feedback sets a rate and how long that rate then
    stands, which state it reaches, and when and with what a frame is answered. */
module ReceiveLaws {
  import opened Params
  import opened VirtualQueues
  import opened Feedback
  import opened Provenance
  import L = Limiter
  import O = LimiterOps
  import Laws = LimiterLaws

  // ---- taking a rate ----

  /** The frame is feedback with a rate in it, the last change is at least 120 microseconds ago, and the lock
      is free. */
  predicate Takes(p: Peer, f: Frame, now: nat, lock: bool) {
    f.ip && f.protocol == 143 && f.id != 0 && UsDelta(now, p.lastChange) >= 120 && lock
  }

  /** Feedback sets the limiter's rate to the 16 bits it carries exactly then, and both clocks to now; the
      limiter's tokens and queues stay. Otherwise nothing changes. */
  lemma OverwriteExactly(p: Peer, f: Frame, value: nat, now: nat, lock: bool)
    ensures !Takes(p, f, now, lock) ==> Overwritten(p, f, value, now, lock) == p
    ensures Takes(p, f, now, lock) ==>
              var p' := Overwritten(p, f, value, now, lock);
              && p'.rl == p.rl.(rate := f.id, lastRate := now) && p'.lastChange == now && p'.ip == p.ip
              && p'.source == Told(f.saddr, value) && p'.ops == []
  {
    hide UsDelta;
  }

  /** And it then stands for a second: whatever the limiter does, as long as no other rate is set, every
      refill within a second of the feedback uses that rate. */
  lemma FeedbackStands(p: Peer, f: Frame, value: nat, now: nat, lock: bool, ops: seq<O.Op>)
    requires Takes(p, f, now, lock) && Laws.Fresh(Overwritten(p, f, value, now, lock).rl, ops)
    ensures O.DoAll(Overwritten(p, f, value, now, lock).rl, ops).rate == f.id
  {
    OverwriteExactly(p, f, value, now, lock);
    Laws.FreshRateHolds(Overwritten(p, f, value, now, lock).rl, ops);
  }

  // ---- the state it reaches ----

  /** The state the walk settles on: the first with the address, or the last if none has it. */
  ghost predicate Reached(b: seq<Peer>, ip: nat, i: nat) {
    && i < |b|
    && (b[i].ip == ip || i == |b| - 1)
    && (forall j :: 0 <= j < i ==> b[j].ip != ip)
    && (b[i].ip != ip ==> forall j :: 0 <= j < |b| ==> b[j].ip != ip)
  }

  lemma WalkReaches(b: seq<Peer>, ip: nat, i: nat)
    requires Reached(b, ip, i)
    ensures Walk(b, ip) == i
  {
    var f := FirstMatch(b, ip);
    if b[i].ip != ip {
      assert f == |b|;
    }
  }

  /** A frame whose bucket has states changes at most the one the walk reaches; every other bucket and every
      other state stays as it was. */
  lemma NotedExactly(hash: Hash, table: map<(nat, nat), seq<Peer>>, r: Reception, i: nat)
    requires r.f.ip && (r.f.daddr, hash(r.f.saddr)) in table
    requires Reached(table[(r.f.daddr, hash(r.f.saddr))], r.f.saddr, i)
    ensures var key := (r.f.daddr, hash(r.f.saddr));
            Noted(hash, table, r)
            == table[key := table[key][i := Overwritten(table[key][i], r.f, r.value, r.now, r.lock)]]
  {
    WalkReaches(table[(r.f.daddr, hash(r.f.saddr))], r.f.saddr, i);
    hide Overwritten, Walk;
  }

  /** A frame whose bucket is empty makes a state there exactly if it carries a rate and one can be made: the
      sender's, with a limiter still at the initial rate. Otherwise no table changes. */
  lemma MadeExactly(hash: Hash, table: map<(nat, nat), seq<Peer>>, r: Reception)
    requires r.f.ip ==> BucketAt(table, (r.f.daddr, hash(r.f.saddr))) == []
    ensures var key := (r.f.daddr, hash(r.f.saddr));
            Noted(hash, table, r)
            == if r.f.ip && r.f.protocol == 143 && r.f.id != 0 && r.create
               then table[key := [Peer(r.f.saddr, L.NewRl(0, r.born), r.now, Initial, [], [])]] else table
  {
    if r.f.ip && r.f.protocol == 143 && r.f.id != 0 && r.create {
      var p := NewPeer(r.f.saddr, r.born, r.now);
      assert UsDelta(r.now, r.now) == 0;
      OverwriteExactly(p, r.f, r.value, r.now, r.lock);
      assert Walk([p], r.f.saddr) == 0 && [p][0 := p] == [p];
    }
    hide UsDelta, Overwritten;
  }

  // ---- the answer ----

  /** The answer to a frame: back along its way, with the queue's rate in it. */
  function AnswerTo(f: Frame, rate: nat): Frame {
    Frame(f.dest, f.source, true, if AsInt(rate) != 0 then 10 else 2, 20, AsInt(rate) % U16, 64, 143, f.daddr, f.saddr)
  }

  /** A frame for a class with a queue is counted there. Feedback that reached a state is dropped. Anything
      else is passed on, and answered exactly when it is IP, there is memory, and more than 100
      microseconds have passed since this CPU last answered or 10000 were counted since. */
  lemma AnsweredExactly(hash: Hash, w: World, r: Reception)
    requires CanReceive(w, r) && RxClass(r.f) in w.vqs && RxClass(r.f) in w.classes
    requires Enqueued(w.vqs[RxClass(r.f)], r.a).stats[r.a.cpu].rxSince + r.a.size < U32
    ensures var k, w', dropped := RxClass(r.f), Handled(hash, w, r).0, Handled(hash, w, r).1;
            var vq := Enqueued(w.vqs[k], r.a);
            var s := vq.stats[r.a.cpu];
            var open := UsDelta(r.now, s.lastFeedbackGen) > 100 || s.rxSince + r.a.size >= 10_000;
            && (dropped <==> r.f.ip && r.f.protocol == 143
                             && BucketAt(w'.table, (r.f.daddr, hash(r.f.saddr))) != [])
            && (if !dropped && open && r.f.ip && r.alloc
                then w'.net == w.net + {(AnswerTo(r.f, vq.feedbackRate), vq.feedbackRate)}
                     && w'.said == w.said + {(k, vq.feedbackRate)}
                else w'.net == w.net && w'.said == w.said)
            && w'.table == Noted(hash, w.table, r) && w'.classes == w.classes
            && w'.vqs.Keys == w.vqs.Keys && r.a.cpu < |w'.vqs[k].stats|
            && (forall j :: j in w.vqs && j != k ==> w'.vqs[j] == w.vqs[j])
            && w'.heard == (if r.f.ip && r.f.protocol == 143 && r.f.id != 0
                            then w.heard + {(k, r.f.saddr)} else w.heard)
            && (dropped ==> w'.vqs[k] == vq)
            && (!dropped ==>
                  && w'.vqs[k] == vq.(stats := vq.stats[r.a.cpu := w'.vqs[k].stats[r.a.cpu]])
                  && w'.vqs[k].stats[r.a.cpu].lastFeedbackGen == (if open then r.now else s.lastFeedbackGen)
                  && w'.vqs[k].stats[r.a.cpu].rxSince == if open then 0 else s.rxSince + r.a.size)
  {
    hide Enqueued, UsDelta, Noted;
    var vq := Enqueued(w.vqs[RxClass(r.f)], r.a);
    GateExactly(vq.stats[r.a.cpu], r.a.size, r.now);
    hide Gated;
  }

  /** A frame whose class has no queue changes nothing; one whose queue has no transmit class is counted and
      passed on. */
  lemma UnknownPasses(hash: Hash, w: World, r: Reception)
    requires CanReceive(w, r) && (RxClass(r.f) !in w.vqs || RxClass(r.f) !in w.classes)
    ensures !Handled(hash, w, r).1
    ensures RxClass(r.f) !in w.vqs ==> Handled(hash, w, r).0 == w
    ensures RxClass(r.f) in w.vqs ==>
              Handled(hash, w, r).0 == w.(vqs := w.vqs[RxClass(r.f) := Enqueued(w.vqs[RxClass(r.f)], r.a)])
  {
    hide Enqueued;
  }
}
