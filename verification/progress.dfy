/** Progress: exactly when a serviced queue sends its head, why on one CPU what is saved up for the
    head is never lost, and how on two CPUs one queue can starve the other. */
module Progress {
  import opened Params
  import opened Limiter
  import opened QueueBounds
  import opened LimiterOps
  import opened Envelope
  import opened Machine
  import opened MachineEnvelope

  // ---- one service ----

  function Head(q: Queue): nat
    requires q.list != []
  {
    Size(q.list[0])
  }

  /** What a queue can spend when it is serviced: it borrows only if its tokens are below the size it
      last measured, and then it needs the lock. */
  function Purse(rl: Rl, c: nat, lock: bool): nat
    requires c < |rl.queue|
  {
    var q := rl.queue[c];
    if q.tokens >= q.first then q.tokens else if lock then q.tokens + rl.pool else 0
  }

  predicate Affords(rl: Rl, c: nat, lock: bool)
    requires c < |rl.queue| && rl.queue[c].list != []
  {
    Head(rl.queue[c]) <= Min(Purse(rl, c, lock), 2 * 65536)
  }

  /** The queue let its head go, and what left first was that head. */
  predicate Sent(q: Queue, q': Queue)
    requires q.list != []
  {
    |q'.departed| > |q.departed| && q'.departed[|q.departed|] == q.list[0]
  }

  lemma SentOnceDeparted(q: Queue, q': Queue)
    requires q.list != [] && Head(q) <= q.tokens && PrefixDeparted(Departed(q), q')
    ensures Sent(q, q')
  {
  }

  lemma DrainRootSends(q: Queue)
    requires q.list != []
    ensures var q' := DrainRoot(q, Head(q)).q;
            if Head(q) <= Min(q.tokens, 2 * 65536) then Sent(q, q') else q' == q
  {
    hide DrainRoot, PrefixDeparted;
    if Head(q) <= Min(q.tokens, 2 * MIN_BURST_BYTES) {
      RootTurn(q, Head(q));
      var d := Departed(q);
      NothingDeparted(d);
      if d.list != [] {
        DrainRootPrefix(Measured(d), Head(q) + Size(d.list[0]));
        MeasuringIsNeutral(d, DrainRoot(q, Head(q)).q);
      }
      SentOnceDeparted(q, DrainRoot(q, Head(q)).q);
    } else {
      RootStops(q, Head(q));
    }
  }

  lemma DrainChildSends(q: Queue, root: Rl, c: nat, now: nat, gso: Gso)
    requires q.list != [] && c < |root.queue|
    ensures var q' := DrainChild(q, root, c, now, gso, Head(q)).q;
            if Head(q) <= Min(q.tokens, 2 * 65536) && root.queue[c].enqueued + Head(q) < 128 * 1024
            then Sent(q, q') else q' == q
  {
    hide DrainChild, PrefixDeparted, Enqueued;
    if Head(q) <= Min(q.tokens, 2 * MIN_BURST_BYTES) && HasSpaceFor(root, c, q.list[0]) {
      ChildTurn(q, root, c, now, gso, Head(q));
      var d := Departed(q);
      NothingDeparted(d);
      if d.list != [] {
        DrainChildPrefix(Measured(d), Enqueued(root, c, q.list[0], now, true, gso).rl, c, now, gso,
                         Head(q) + Size(d.list[0]));
        MeasuringIsNeutral(d, DrainChild(q, root, c, now, gso, Head(q)).q);
      }
      SentOnceDeparted(q, DrainChild(q, root, c, now, gso, Head(q)).q);
    } else {
      ChildStops(q, root, c, now, gso, Head(q));
    }
  }

  /** A queue whose head stays: nothing left it, and unless the borrow lost the lock race the head is
      now measured and every token the limiter had is still there. */
  predicate Saved(rl: Rl, rl': Rl, c: nat, lock: bool)
    requires c < |rl.queue| && c < |rl'.queue| && rl.queue[c].list != []
  {
    var q, q' := rl.queue[c], rl'.queue[c];
    && q'.list == q.list && q'.departed == q.departed
    && q'.tokens + rl'.pool == q.tokens + rl.pool
    && (lock || q.tokens >= q.first ==> q'.first == Head(q))
  }

  /** A service of a class limiter's queue sends the head exactly when the queue can afford it. */
  lemma ServeRootSends(rl: Rl, c: nat, lock: bool)
    requires c < |rl.queue| && rl.queue[c].list != []
    ensures var rl' := ServeRoot(rl, c, lock).rl;
            if Affords(rl, c, lock) then Sent(rl.queue[c], rl'.queue[c]) else Saved(rl, rl', c, lock)
  {
    var (rl1, blocked) := Funded(rl, c, lock);
    if !blocked {
      DrainRootSends(Measured(rl1.queue[c]));
    }
    hide DrainRoot;
  }

  /** A service of a destination limiter's queue hands the head on exactly when the queue can afford it
      and it leaves the class limiter's queue below 128 KB. */
  lemma ServeChildSends(rl: Rl, root: Rl, c: nat, now: nat, lock: bool, gso: Gso)
    requires c < |rl.queue| && c < |root.queue| && rl.queue[c].list != []
    ensures var rl' := ServeChild(rl, root, c, now, lock, gso).rl;
            if Affords(rl, c, lock) && root.queue[c].enqueued + Head(rl.queue[c]) < 128 * 1024
            then Sent(rl.queue[c], rl'.queue[c]) else Saved(rl, rl', c, lock)
  {
    var (rl1, blocked) := Funded(rl, c, lock);
    if !blocked {
      DrainChildSends(Measured(rl1.queue[c]), root, c, now, gso);
    }
    hide DrainChild;
  }

  // ---- one CPU: nothing saved for the head is lost ----

  lemma SentStays(q: Queue, q': Queue, q'': Queue)
    requires q.list != [] && Sent(q, q') && q'.departed <= q''.departed
    ensures Sent(q, q'')
  {
  }

  lemma OpOnlyAddsDeparted(rl: Rl, op: Op, c: nat)
    requires c < |rl.queue|
    ensures |Do(rl, op).queue| == |rl.queue| && rl.queue[c].departed <= Do(rl, op).queue[c].departed
  {
  }

  /** The head of `q` has left, or it still waits, perhaps measured, with at least `saved` tokens at
      hand. */
  ghost predicate Ripe(rl: Rl, q: Queue, saved: nat, measured: bool)
    requires q.list != []
  {
    && |rl.queue| == 1
    && var q' := rl.queue[0];
    || Sent(q, q')
    || (q'.list != [] && q'.list[0] == q.list[0] && q'.departed == q.departed
        && (measured ==> q'.first == Head(q)) && q'.tokens + rl.pool >= Min(Head(q), saved))
  }

  lemma OpRipens(rl: Rl, op: Op, q: Queue, saved: nat, measured: bool)
    requires q.list != [] && Head(q) <= MIN_BURST_BYTES && Ripe(rl, q, saved, measured)
    ensures Ripe(Do(rl, op), q, saved + Earned(rl, op), measured)
  {
    OpOnlyAddsDeparted(rl, op, 0);
    if Sent(q, rl.queue[0]) {
      SentStays(q, rl.queue[0], Do(rl, op).queue[0]);
    }
  }

  /** On one CPU, whatever happens to the limiter while a head waits, the tokens pooled and
      hoarded for it grow by all that is earned until they cover it. */
  lemma {:induction false} SavingsKept(rl: Rl, ops: seq<Op>, q: Queue, saved: nat, measured: bool)
    requires q.list != [] && Head(q) <= MIN_BURST_BYTES && Ripe(rl, q, saved, measured)
    ensures Ripe(DoAll(rl, ops), q, saved + EarnedAll(rl, ops), measured)
    decreases |ops|
  {
    if ops != [] {
      OpRipens(rl, ops[0], q, saved, measured);
      hide Ripe, Do, Earned;
      SavingsKept(Do(rl, ops[0]), ops[1..], q, saved + Earned(rl, ops[0]), measured);
    }
  }

  lemma ServedOnlyAddsDeparted(rl: Rl, c: nat, lock: bool)
    requires c < |rl.queue|
    ensures rl.queue[c].departed <= ServeRoot(rl, c, lock).rl.queue[c].departed
  {
    ServeRootWork(rl, c, lock);
    hide DrainRoot;
  }

  /** With the whole head covered, a service with the lock sends it if it is measured, and otherwise
      sends or measures it. */
  lemma RipeIsSent(rl: Rl, q: Queue, measured: bool)
    requires q.list != [] && Head(q) <= MIN_BURST_BYTES && Ripe(rl, q, Head(q), measured)
    ensures var rl' := ServeRoot(rl, 0, true).rl;
            Ripe(rl', q, Head(q), true) && (measured ==> Sent(q, rl'.queue[0]))
  {
    hide ServeRoot;
    if Sent(q, rl.queue[0]) {
      ServedOnlyAddsDeparted(rl, 0, true);
      SentStays(q, rl.queue[0], ServeRoot(rl, 0, true).rl.queue[0]);
    } else {
      ServeRootSends(rl, 0, true);
    }
  }

  lemma {:induction false} OnlyAddsDeparted(rl: Rl, ops: seq<Op>, c: nat)
    requires c < |rl.queue|
    ensures |DoAll(rl, ops).queue| == |rl.queue| && rl.queue[c].departed <= DoAll(rl, ops).queue[c].departed
    decreases |ops|
  {
    if ops != [] {
      OpOnlyAddsDeparted(rl, ops[0], c);
      hide Do;
      OnlyAddsDeparted(Do(rl, ops[0]), ops[1..], c);
    }
  }

  lemma OneQueueFunds(rl: Rl)
    requires |rl.queue| == 1
    ensures Funds(rl) == rl.pool + rl.queue[0].tokens + rl.queue[0].xmit
  {
    assert SumTokens(rl.queue[1..]) == 0 && SumXmit(rl.queue[1..]) == 0;
  }

  /** A service moves tokens about and spends them; it earns none. */
  lemma ServingConserves(rl: Rl, lock: bool)
    requires |rl.queue| == 1
    ensures Funds(ServeRoot(rl, 0, lock).rl) == Funds(rl)
  {
    ServeRootWork(rl, 0, lock);
    OneQueueFunds(rl);
    OneQueueFunds(ServeRoot(rl, 0, lock).rl);
    hide DrainRoot, SumTokens, SumXmit;
  }

  lemma SentBytes(q: Queue, q': Queue)
    requires q.list != [] && Books(q) && Books(q') && q.departed <= q'.departed && Sent(q, q')
    ensures q'.xmit >= q.xmit + Head(q)
  {
    var n := |q.departed|;
    assert q'.departed == q.departed + ([q.list[0]] + q'.departed[n + 1..]);
    BytesConcat(q.departed, [q.list[0]] + q'.departed[n + 1..]);
    BytesConcat([q.list[0]], q'.departed[n + 1..]);
  }

  lemma FirstBooks(rl: Rl)
    requires AllBooks(rl) && |rl.queue| == 1
    ensures Books(rl.queue[0])
  {
  }

  lemma SentIsPaidFor(rl: Rl, ops: seq<Op>)
    requires |rl.queue| == 1 && AllBooks(rl) && rl.queue[0].list != []
    requires |DoAll(rl, ops).queue| == 1
    requires Sent(rl.queue[0], ServeRoot(DoAll(rl, ops), 0, true).rl.queue[0])
    ensures rl.queue[0].tokens + rl.pool + EarnedAll(rl, ops) >= Head(rl.queue[0])
  {
    hide ServeRoot, Sent, AllBooks, EarnedAll;
    var rl1 := DoAll(rl, ops);
    var rl2 := ServeRoot(rl1, 0, true).rl;
    FundsConserved(rl, ops);
    ServingConserves(rl1, true);
    OneQueueFunds(rl);
    OneQueueFunds(rl2);
    OnlyAddsDeparted(rl, ops, 0);
    ServedOnlyAddsDeparted(rl1, 0, true);
    BooksKept(rl, ops);
    var more := ServeRootOps(rl1, 0, true, Anything);
    BooksKept(rl1, more);
    FirstBooks(rl);
    FirstBooks(rl2);
    SentBytes(rl.queue[0], rl2.queue[0]);
  }

  /** One CPU, exactly: after anything at all has happened to the limiter, a service with the lock
      leaves a measured head sent if and only if the tokens at hand when it was measured and all that
      was earned since cover it. */
  lemma SentExactlyWhenSaved(rl: Rl, ops: seq<Op>)
    requires |rl.queue| == 1 && AllBooks(rl) && rl.queue[0].list != []
    requires rl.queue[0].first == Head(rl.queue[0]) <= MIN_BURST_BYTES
    ensures |DoAll(rl, ops).queue| == 1
    ensures Sent(rl.queue[0], ServeRoot(DoAll(rl, ops), 0, true).rl.queue[0])
            <==> rl.queue[0].tokens + rl.pool + EarnedAll(rl, ops) >= Head(rl.queue[0])
  {
    var q, saved := rl.queue[0], rl.queue[0].tokens + rl.pool;
    OnlyAddsDeparted(rl, ops, 0);
    SavingsKept(rl, ops, q, saved, true);
    if saved + EarnedAll(rl, ops) >= Head(q) {
      RipeIsSent(DoAll(rl, ops), q, true);
    }
    hide ServeRoot, Sent, EarnedAll, DoAll, AllBooks;
    if Sent(q, ServeRoot(DoAll(rl, ops), 0, true).rl.queue[0]) {
      SentIsPaidFor(rl, ops);
    }
  }

  // ---- two CPUs: one queue can starve the other ----

  /** One round at time `now`: a refill, then a service of CPU 1's queue and one of CPU 0's, both with
      the lock. */
  function Round(rl: Rl, now: nat): (r: Rl)
    requires |rl.queue| == 2
    ensures |r.queue| == 2
  {
    ServeRoot(ServeRoot(Clocked(rl, now), 1, true).rl, 0, true).rl
  }

  const ROUND: nat := 2_000_000_000

  /** The limiter after `n` rounds, the first of them two seconds after time `t`. */
  function Rounds(rl: Rl, t: nat, n: nat): (r: Rl)
    requires |rl.queue| == 2
    ensures |r.queue| == 2
    decreases n
  {
    if n == 0 then rl else Rounds(Round(rl, t + ROUND), t + ROUND, n - 1)
  }

  /** Both queues hold buffers of one full pool, and neither has a token left. */
  ghost predicate Hungry(rl: Rl, t: nat, m: nat) {
    && rl.rate == 2 && rl.pool == 0 && rl.last == t && rl.lastRate == t && |rl.queue| == 2
    && (forall c :: 0 <= c < 2 ==> rl.queue[c].tokens == 0 && rl.queue[c].first == MIN_BURST_BYTES)
    && (forall c, i :: 0 <= c < 2 && 0 <= i < |rl.queue[c].list| ==> Size(rl.queue[c].list[i]) == MIN_BURST_BYTES)
    && |rl.queue[0].list| == 1 && |rl.queue[1].list| == m
  }

  lemma RefillFillsPool(rl: Rl, t: nat, m: nat)
    requires Hungry(rl, t, m)
    ensures Clocked(rl, t + ROUND) == rl.(pool := MIN_BURST_BYTES, last := t + ROUND, lastRate := t + ROUND)
  {
    assert UsDelta(t + ROUND, t) == 2_000_000;
  }

  lemma OtherSends(rl: Rl, t: nat, m: nat)
    requires m > 0 && rl.pool == MIN_BURST_BYTES && Hungry(rl.(pool := 0), t, m)
    ensures var rl' := ServeRoot(rl, 1, true).rl;
            Hungry(rl', t, m - 1) && rl'.queue[0] == rl.queue[0]
  {
    var q := Measured(rl.queue[1].(tokens := MIN_BURST_BYTES));
    assert Borrowed(rl, 1).queue[1] == rl.queue[1].(tokens := MIN_BURST_BYTES);
    RootTurn(q, MIN_BURST_BYTES);
    var d := Departed(q);
    if d.list != [] {
      assert Size(d.list[0]) == MIN_BURST_BYTES;
      RootStops(Measured(d), MIN_BURST_BYTES + MIN_BURST_BYTES);
    }
    hide DrainRoot;
  }

  lemma NothingLeft(rl: Rl, t: nat, m: nat)
    requires Hungry(rl, t, m)
    ensures var rl' := ServeRoot(rl, 0, true).rl;
            Hungry(rl', t, m) && rl'.queue[0] == rl.queue[0]
  {
    var q := Measured(rl.queue[0]);
    assert Borrowed(rl, 0).queue[0] == rl.queue[0];
    RootStops(q, MIN_BURST_BYTES);
    hide DrainRoot;
  }

  lemma RoundStarves(rl: Rl, t: nat, m: nat)
    requires m > 0 && Hungry(rl, t, m)
    ensures Hungry(Round(rl, t + ROUND), t + ROUND, m - 1) && Round(rl, t + ROUND).queue[0] == rl.queue[0]
  {
    hide ServeRoot, Clocked;
    RefillFillsPool(rl, t, m);
    var rl1 := Clocked(rl, t + ROUND);
    OtherSends(rl1, t + ROUND, m);
    NothingLeft(ServeRoot(rl1, 1, true).rl, t + ROUND, m - 1);
  }

  lemma {:induction false} HungryStarves(rl: Rl, t: nat, n: nat)
    requires |rl.queue| == 2 && Hungry(rl, t, n)
    ensures Rounds(rl, t, n).queue[0] == rl.queue[0]
    decreases n
  {
    hide Round, Hungry;
    if n > 0 {
      RoundStarves(rl, t, n);
      HungryStarves(Round(rl, t + ROUND), t + ROUND, n - 1);
    }
  }

  /** On two CPUs progress fails: for every number of rounds there is a limiter with a buffer waiting on
      CPU 0 that is serviced with the lock in every round, each round with a full pool to begin with,
      and is never sent, because CPU 1 is serviced first and takes the whole pool. */
  lemma TwoCpusStarve(n: nat) returns (rl: Rl)
    ensures |rl.queue| == 2 && rl.queue[0].list != [] && rl.queue[0].first == Head(rl.queue[0]) == MIN_BURST_BYTES
    ensures Rounds(rl, 0, n).queue[0] == rl.queue[0]
  {
    var p := Packet(0, MIN_BURST_BYTES - ETH_HLEN, Root(0), false);
    var many := seq(n, i => p);
    rl := Rl(2, 0, 0, 0, [Queue([p], MIN_BURST_BYTES, MIN_BURST_BYTES, 0, 0, [p], []),
                          Queue(many, MIN_BURST_BYTES, n * MIN_BURST_BYTES, 0, 0, many, [])], 0);
    HungryStarves(rl, 0, n);
  }
}
