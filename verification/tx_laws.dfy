/** What the transmit context's tick and configuration calls do to a class, in Mb/s: how spare bandwidth
    is lent, and what each call sets and what it leaves alone. */
module TxLaws {
  import opened Params
  import opened Arithmetic
  import opened Sums
  import opened Sampling
  import opened TxContexts
  import Rcp

  // ---- the tick ----

  lemma SmallProduct(r: nat, w: nat)
    requires r <= 9800 && w <= 1024
    ensures r * w < U32
  {
    MulMono(r, 9800, w, 1024);
  }

  /** A tick with the lock, at least 200 microseconds after the last. */
  predicate Due(tx: Tx, p: Pulse) { UsDelta(p.now, tx.lastUpdate) >= 200 && p.lock }

  lemma DueRates(tx: Tx, p: Pulse)
    requires Guaranteed(tx) && |p.xmit| == |tx.txcs| && Due(tx, p)
    ensures Ticked(tx, p).rate <= 9800 && forall i :: 0 <= i < |tx.txcs| ==> tx.txcs[i].weight <= 1024
  {
  }

  /** What a class sends at when its weight entitles it to `fair`: that, wherever it lies between its
      guarantee and the link, its guarantee where it is less, and the link's rate where it is more; a cap
      holds it down if it is lower, and changes nothing if not. */
  predicate Lent(c: Txc, fair: nat, rate: nat) {
    var low, cap := c.minRate, c.maxRate;
    && (!c.isStatic ==>
          && (low <= fair <= 9800 ==> rate == fair)
          && (fair < low ==> rate == low)
          && (low <= 9800 < fair ==> rate == 9800))
    && (c.isStatic ==>
          && (cap <= low || cap <= fair <= 9800 || cap <= 9800 < fair ==> rate == cap)
          && (low <= fair <= 9800 && fair < cap ==> rate == fair)
          && (fair < low < cap ==> rate == low))
  }

  lemma SetByLends(c: Txc, r: nat)
    requires r * c.weight < U32
    ensures Lent(c, Mul(r, c.weight), SetBy(c, r))
  {
    assert r * c.weight % U32 == r * c.weight;
  }

  lemma TickedClass(tx: Tx, p: Pulse, i: nat)
    requires |p.xmit| == |tx.txcs| && i < |tx.txcs|
    ensures !Due(tx, p) ==> Ticked(tx, p) == tx
    ensures Due(tx, p) ==>
              var c, c' := tx.txcs[i], Ticked(tx, p).txcs[i];
              && c' == c.(accumXmit := c'.accumXmit, txRate := c'.txRate, txRateSmooth := c'.txRateSmooth,
                          rlRate := c'.rlRate)
              && c'.rlRate == SetBy(c, Ticked(tx, p).rate)
  {
    hide Sample, Rcp.NextTx, SetBy;
  }

  /** What a tick does to a class. One that is not due does nothing. One that leaves the device at rate r
      lends the class r times its weight, and changes nothing else that was configured. */
  lemma TickSetsRates(tx: Tx, p: Pulse, i: nat)
    requires Guaranteed(tx) && |p.xmit| == |tx.txcs| && i < |tx.txcs|
    ensures !Due(tx, p) ==> Ticked(tx, p) == tx
    ensures Due(tx, p) ==>
              var c, c' := tx.txcs[i], Ticked(tx, p).txcs[i];
              && c' == c.(accumXmit := c'.accumXmit, txRate := c'.txRate, txRateSmooth := c'.txRateSmooth,
                          rlRate := c'.rlRate)
              && Lent(c, Mul(Ticked(tx, p).rate, c.weight), c'.rlRate)
  {
    TickedClass(tx, p, i);
    if Due(tx, p) {
      DueRates(tx, p);
      hide Ticked, Lent;
      SmallProduct(Ticked(tx, p).rate, tx.txcs[i].weight);
      SetByLends(tx.txcs[i], Ticked(tx, p).rate);
    }
    hide Guaranteed;
  }

  /** Idle bandwidth is lent: while a device at the link's rate measures no more than the link, every class
      in the table with a weight and no cap may send at the link's rate, whatever its guarantee. */
  lemma IdleBandwidthIsLent(tx: Tx, p: Pulse, i: nat)
    requires Guaranteed(tx) && |p.xmit| == |tx.txcs| && Due(tx, p) && i < |tx.txcs|
    requires tx.rate == 9800 && Ticked(tx, p).txRate <= 9800
    requires tx.txcs[i].live && !tx.txcs[i].isStatic && tx.txcs[i].weight >= 1
    ensures Ticked(tx, p).rate == 9800 && Ticked(tx, p).txcs[i].rlRate == 9800
  {
    var y := Ticked(tx, p).txRate;
    TickFollowsLaw(tx, p);
    MulMono(9800, 9800, 2 * 9800, 3 * 9800 - y);
    DivAtLeast(Mul(9800, 3 * 9800 - y), 2 * 9800, 9800);
    assert Ticked(tx, p).rate == 9800 by { hide Ticked; }
    MemberBelowSum(LiveMin, tx.txcs, i);
    TickSetsRates(tx, p, i);
    MulMono(9800, 9800, 1, tx.txcs[i].weight);
    assert Mul(9800, tx.txcs[i].weight) == 9800 * tx.txcs[i].weight;
    hide Ticked, Guaranteed;
  }

  // ---- configuration ----

  /** What configuration sets of a class. */
  predicate SameSetup(c: Txc, c': Txc) {
    c'.klass == c.klass && c'.live == c.live && c'.weight == c.weight && c'.isStatic == c.isStatic
    && (c.isStatic ==> c'.maxRate == c.maxRate)
  }

  /** Every class but the i-th is set up as before. */
  predicate OthersKept(a: seq<Txc>, b: seq<Txc>, i: int) {
    |a| <= |b| && forall j :: 0 <= j < |a| && j != i ==> SameSetup(a[j], b[j])
  }

  /** Rates were recomputed: each class has its weight's part of the link, and sends at that or at a lower
      cap. */
  ghost predicate Reset(tx: Tx) {
    tx.totalWeight > 0 ==>
      forall i :: 0 <= i < |tx.txcs| ==>
        var c := tx.txcs[i];
        && c.minRate == c.weight * 9800 / tx.totalWeight
        && c.rlRate == if c.isStatic && c.maxRate < c.minRate then c.maxRate else c.minRate
  }

  lemma RecomputedExactly(tx: Tx)
    requires tx.totalWeight >= 0
    ensures Reset(Recomputed(tx)) && Recomputed(tx).totalWeight == tx.totalWeight
    ensures |Recomputed(tx).txcs| == |tx.txcs|
    ensures forall j :: 0 <= j < |tx.txcs| ==>
              SameSetup(tx.txcs[j], Recomputed(tx).txcs[j]) && Recomputed(tx).txcs[j].maxRate == tx.txcs[j].maxRate
  {
  }

  /** Installing a class fails exactly if a class of that name can be found; otherwise a class of weight 1
      without a cap is added and every rate recomputed. */
  lemma InstallExactly(tx: Tx, k: nat)
    requires Agrees(tx)
    ensures var tx', n := Configured(tx, Config.Install(k)), |tx.txcs|;
            if exists j :: 0 <= j < n && tx.txcs[j].live && tx.txcs[j].klass == k then tx' == tx
            else && |tx'.txcs| == n + 1 && OthersKept(tx.txcs, tx'.txcs, -1) && Reset(tx')
                 && tx'.txcs[n].klass == k && tx'.txcs[n].live && tx'.txcs[n].weight == 1 && !tx'.txcs[n].isStatic
                 && tx'.totalWeight == tx.totalWeight + 1
  {
    ChangeAgrees(tx, Config.Install(k));
    RecomputedExactly(Changed(tx, Config.Install(k)));
    hide Recomputed, Agrees, Reset;
    if exists j :: 0 <= j < |tx.txcs| && tx.txcs[j].live && tx.txcs[j].klass == k {
      var j :| 0 <= j < |tx.txcs| && tx.txcs[j].live && tx.txcs[j].klass == k;
      assert Is(tx.txcs[j], k);
    }
  }

  /** The class a call names: the one of that name that can be found. */
  ghost predicate Named(tx: Tx, k: nat, i: nat) {
    && i < |tx.txcs| && tx.txcs[i].live && tx.txcs[i].klass == k
    && forall j :: i < j < |tx.txcs| ==> !(tx.txcs[j].live && tx.txcs[j].klass == k)
  }

  lemma NamedIsFound(tx: Tx, k: nat, i: nat)
    requires Named(tx, k, i)
    ensures Find(tx.txcs, k) == i
  {
    var f := Find(tx.txcs, k);
    assert Is(tx.txcs[i], k);
  }

  /** Setting a weight from 0 to 1024 sets it, moves the total by the difference and recomputes every rate;
      any other weight is refused. */
  lemma SetWeightExactly(tx: Tx, k: nat, w: int, i: nat)
    requires Agrees(tx) && Named(tx, k, i)
    ensures var tx' := Configured(tx, Config.SetWeight(k, w));
            if w < 0 || w > 1024 then tx' == tx
            else && |tx'.txcs| == |tx.txcs| && OthersKept(tx.txcs, tx'.txcs, i) && Reset(tx')
                 && tx'.txcs[i].weight == w && SameSetup(tx.txcs[i].(weight := w), tx'.txcs[i])
                 && tx'.totalWeight == tx.totalWeight - tx.txcs[i].weight + w
  {
    NamedIsFound(tx, k, i);
    ChangeAgrees(tx, Config.SetWeight(k, w));
    RecomputedExactly(Changed(tx, Config.SetWeight(k, w)));
    hide Recomputed, Agrees, Reset, Find, Named;
  }

  /** Setting a rate from 1 to 1024 caps the class there, 0 lifts its cap, any other rate is refused; every
      rate is recomputed. */
  lemma SetRateExactly(tx: Tx, k: nat, r: int, i: nat)
    requires Agrees(tx) && Named(tx, k, i)
    ensures var tx' := Configured(tx, Config.SetRate(k, r));
            if r < 0 || r > 1024 then tx' == tx
            else && |tx'.txcs| == |tx.txcs| && OthersKept(tx.txcs, tx'.txcs, i) && Reset(tx')
                 && tx'.txcs[i].isStatic == (r > 0) && tx'.txcs[i].maxRate == (if r > 0 then r else 9800)
                 && tx'.txcs[i].klass == k && tx'.txcs[i].live && tx'.txcs[i].weight == tx.txcs[i].weight
                 && tx'.totalWeight == tx.totalWeight
  {
    NamedIsFound(tx, k, i);
    ChangeAgrees(tx, Config.SetRate(k, r));
    RecomputedExactly(Changed(tx, Config.SetRate(k, r)));
    hide Recomputed, Agrees, Reset, Find, Named;
  }

  /** Deleting takes the class out of the table and its weight out of the total, and recomputes. */
  lemma DeleteExactly(tx: Tx, k: nat, i: nat)
    requires Agrees(tx) && Named(tx, k, i)
    ensures var tx' := Configured(tx, Config.Delete(k));
            && |tx'.txcs| == |tx.txcs| && OthersKept(tx.txcs, tx'.txcs, i) && Reset(tx')
            && SameSetup(tx.txcs[i].(live := false), tx'.txcs[i])
            && tx'.totalWeight == tx.totalWeight - tx.txcs[i].weight
  {
    NamedIsFound(tx, k, i);
    ChangeAgrees(tx, Config.Delete(k));
    RecomputedExactly(Changed(tx, Config.Delete(k)));
    hide Recomputed, Agrees, Reset, Find, Named;
  }

  /** A call that names no class that can be found changes nothing. */
  lemma UnknownChangesNothing(tx: Tx, c: Config)
    requires Agrees(tx) && !c.Install?
    requires forall j :: 0 <= j < |tx.txcs| ==> !(tx.txcs[j].live && tx.txcs[j].klass == c.klass)
    ensures Configured(tx, c) == tx
  {
  }
}
