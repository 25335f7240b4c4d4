/** The transmit side of a device (tx.c, tx.h): its classes, the guarantee each class's weight buys,
    the periodic tick that measures and sets rates, and the configuration calls of params.c. */
module TxContexts {
  import opened Params
  import opened Lists
  import opened Sums
  import opened Sampling
  import Rcp

  /** `struct iso_tx_class`. A deleted class leaves the hash table but stays on the list. */
  datatype Txc = Txc(
    klass: nat, live: bool, weight: nat, minRate: nat, maxRate: nat, isStatic: bool,
    rlRate: nat, accumXmit: nat, txRate: nat, txRateSmooth: nat)

  /** `struct iso_tx_context` */
  datatype Tx = Tx(txcs: seq<Txc>, totalWeight: int, rate: nat, txBytes: nat, txRate: nat, lastUpdate: nat)

  /** `iso_tx_init` */
  function NewTx(now: nat): Tx { Tx([], 0, 2, 0, 0, now) }

  /** `iso_txc_init` */
  function NewTxc(k: nat): Txc { Txc(k, true, 1, MAX_TX_RATE, MAX_TX_RATE, false, RFAIR_INITIAL, 0, 0, 0) }

  predicate Is(c: Txc, k: nat) { c.live && c.klass == k }

  /** `iso_txc_find`: where the class is, or -1. */
  function Find(txcs: seq<Txc>, k: nat): (i: int)
    ensures -1 <= i < |txcs|
    ensures i >= 0 ==> Is(txcs[i], k)
    ensures forall j :: i < j < |txcs| ==> !Is(txcs[j], k)
  {
    LastWhere((c: Txc) => Is(c, k), txcs)
  }

  // ---- guarantees ----

  function Capped(c: Txc, rate: nat): nat { if c.isStatic then Min(c.maxRate, rate) else rate }

  function Share(weight: nat, total: nat): nat
    requires total > 0
  {
    weight * MAX_TX_RATE / total
  }

  function RecomputedOne(c: Txc, total: nat): Txc
    requires total > 0
  {
    var share := Share(c.weight, total);
    c.(minRate := share, rlRate := Capped(c, share))
  }

  /** `iso_txc_recompute_rates` */
  function Recomputed(tx: Tx): (r: Tx)
    requires tx.totalWeight >= 0
    ensures |r.txcs| == |tx.txcs| && r == tx.(txcs := r.txcs)
  {
    if tx.totalWeight == 0 then tx
    else tx.(txcs := seq(|tx.txcs|, i requires 0 <= i < |tx.txcs| => RecomputedOne(tx.txcs[i], tx.totalWeight)))
  }

  /** What counts of a class while it is in the hash table. */
  function LiveWeight(c: Txc): int { if c.live then c.weight else 0 }
  function LiveMin(c: Txc): int { if c.live then c.minRate else 0 }
  function LiveOne(c: Txc): int { if c.live then 1 else 0 }

  ghost predicate Agrees(tx: Tx) { tx.totalWeight == Sum(LiveWeight, tx.txcs) }

  // ---- configuration ----

  datatype Config =
    | Install(klass: nat)
    | SetWeight(klass: nat, weight: int)
    | SetRate(klass: nat, rate: int)
    | Delete(klass: nat)

  /** The list and the total weight just before rates are recomputed; nothing on an error. */
  function Changed(tx: Tx, c: Config): Tx {
    var i := Find(tx.txcs, c.klass);
    match c
    case Install(k) =>
      if i >= 0 then tx else tx.(txcs := tx.txcs + [NewTxc(k)], totalWeight := tx.totalWeight + 1)
    case SetWeight(_, w) =>
      if i < 0 || w < 0 || w > MAX_WEIGHT then tx
      else tx.(txcs := tx.txcs[i := tx.txcs[i].(weight := w)], totalWeight := tx.totalWeight - tx.txcs[i].weight + w)
    case SetRate(_, r) =>
      if i < 0 || r < 0 || r > 1024 then tx
      else tx.(txcs := tx.txcs[i := tx.txcs[i].(isStatic := r > 0, maxRate := if r == 0 then MAX_TX_RATE else r)])
    case Delete(_) =>
      if i < 0 then tx
      else tx.(txcs := tx.txcs[i := tx.txcs[i].(live := false)], totalWeight := tx.totalWeight - tx.txcs[i].weight)
  }

  predicate Accepted(tx: Tx, c: Config) {
    var i := Find(tx.txcs, c.klass);
    match c
    case Install(_) => i < 0
    case SetWeight(_, w) => i >= 0 && 0 <= w <= MAX_WEIGHT
    case SetRate(_, r) => i >= 0 && 0 <= r <= 1024
    case Delete(_) => i >= 0
  }

  lemma ChangeAgrees(tx: Tx, c: Config)
    requires Agrees(tx)
    ensures Agrees(Changed(tx, c)) && Changed(tx, c).totalWeight >= 0
  {
    hide Sum, Find;
    var i := Find(tx.txcs, c.klass);
    var tx' := Changed(tx, c);
    if c.Install? {
      SumAppend(LiveWeight, tx.txcs, NewTxc(c.klass));
    } else if i >= 0 {
      SumUpdate(LiveWeight, tx.txcs, i, tx'.txcs[i]);
      SumUpdate(LiveWeight, tx.txcs, i, tx.txcs[i]);
      assert tx.txcs[i := tx.txcs[i]] == tx.txcs;
    }
    SumNonNegative(LiveWeight, tx'.txcs);
  }

  function Configured(tx: Tx, c: Config): Tx
    requires Agrees(tx)
  {
    ChangeAgrees(tx, c);
    if Accepted(tx, c) then Recomputed(Changed(tx, c)) else tx
  }

  // ---- the tick ----

  /** `iso_rl_accum` and `iso_txctx_accum` */
  function Total(xs: seq<nat>, n: nat): nat
    requires n <= |xs|
  {
    if n == 0 then 0 else Total(xs, n - 1) + xs[n - 1]
  }

  /** One tick: the clock, the trylock, each CPU's transmit counter and each class's, per CPU. */
  datatype Pulse = Pulse(now: nat, lock: bool, cpuBytes: seq<nat>, xmit: seq<seq<nat>>)

  function SetBy(c: Txc, rate: nat): nat {
    Capped(c, Max(c.minRate, Min(MAX_TX_RATE, rate * c.weight % U32)))
  }

  function TickedOne(c: Txc, xmit: nat, dt: nat, rate: nat): Txc
    requires dt > 0
  {
    var sample := Sample((xmit - c.accumXmit) % U64, dt);
    c.(accumXmit := xmit, txRate := sample, txRateSmooth := (c.txRateSmooth * 15 + sample) % U32 / 16,
       rlRate := SetBy(c, rate))
  }

  function TickedAll(txcs: seq<Txc>, xmit: seq<seq<nat>>, dt: nat, rate: nat): (r: seq<Txc>)
    requires dt > 0 && |xmit| == |txcs|
    ensures |r| == |txcs|
  {
    seq(|txcs|, i requires 0 <= i < |txcs| => TickedOne(txcs[i], Total(xmit[i], |xmit[i]|), dt, rate))
  }

  predicate Fires(tx: Tx, p: Pulse) { UsDelta(p.now, tx.lastUpdate) >= TXC_UPDATE_INTERVAL_US && p.lock }

  /** `iso_txc_tick` */
  function Ticked(tx: Tx, p: Pulse): (r: Tx)
    requires |p.xmit| == |tx.txcs|
    ensures |r.txcs| == |tx.txcs|
  {
    if !Fires(tx, p) then tx
    else
      var dt := UsDelta(p.now, tx.lastUpdate);
      var total := Total(p.cpuBytes, |p.cpuBytes|);
      var sample := Sample((total - tx.txBytes) % U64, dt);
      var rate := Rcp.NextTx(tx.rate, MAX_TX_RATE, sample);
      Tx(TickedAll(tx.txcs, p.xmit, dt, rate), tx.totalWeight, rate, total, sample, p.now)
  }

  // ---- runs ----

  datatype Event = Configure(c: Config) | Tick(p: Pulse)

  predicate Ready(tx: Tx, e: Event) { e.Tick? ==> |e.p.xmit| == |tx.txcs| }

  function Step(tx: Tx, e: Event): (r: Tx)
    requires Agrees(tx) && Ready(tx, e)
    ensures |tx.txcs| <= |r.txcs|
  {
    match e
    case Configure(c) => Configured(tx, c)
    case Tick(p) => Ticked(tx, p)
  }

  ghost predicate Fit(tx: Tx, es: seq<Event>)
    decreases |es|
  {
    Agrees(tx) && (es != [] ==> Ready(tx, es[0]) && Fit(Step(tx, es[0]), es[1..]))
  }

  ghost function Run(tx: Tx, es: seq<Event>): (r: Tx)
    requires Fit(tx, es)
    ensures |tx.txcs| <= |r.txcs|
    decreases |es|
  {
    if es == [] then tx else Run(Step(tx, es[0]), es[1..])
  }

  predicate Sane(c: Txc) {
    c.weight <= MAX_WEIGHT && c.maxRate <= MAX_TX_RATE && (!c.isStatic ==> c.maxRate == MAX_TX_RATE)
  }

  /** The shares of the classes in the hash table: never more than the link, and each exactly its
      weight's part of the total whenever that is positive. */
  ghost predicate Guaranteed(tx: Tx) {
    && Agrees(tx) && tx.totalWeight >= 0
    && (forall i :: 0 <= i < |tx.txcs| ==> Sane(tx.txcs[i]))
    && (forall i, j :: 0 <= i < j < |tx.txcs| && tx.txcs[i].live && tx.txcs[j].live ==>
          tx.txcs[i].klass != tx.txcs[j].klass)
    && (tx.totalWeight > 0 ==>
          forall i :: 0 <= i < |tx.txcs| ==> tx.txcs[i].minRate == Share(tx.txcs[i].weight, tx.totalWeight))
    && Sum(LiveMin, tx.txcs) <= MAX_TX_RATE
  }

  /** Nothing was ever deleted, and every share is within one Mb/s of exact. */
  ghost predicate Complete(tx: Tx) {
    && (forall i :: 0 <= i < |tx.txcs| ==> tx.txcs[i].live)
    && (|tx.txcs| > 0 ==> MAX_TX_RATE - |tx.txcs| < Sum(LiveMin, tx.txcs))
  }

  lemma OneShared(c: Txc, total: nat)
    requires total > 0 && c.minRate == Share(c.weight, total)
    ensures Shared(MAX_TX_RATE, total, LiveWeight(c), LiveMin(c), LiveOne(c))
  {
    RoundedDown(MAX_TX_RATE, total, c.weight);
  }

  lemma {:induction false} SomeoneLive(txcs: seq<Txc>)
    ensures Sum(LiveOne, txcs) >= 0
    ensures Sum(LiveWeight, txcs) > 0 ==> Sum(LiveOne, txcs) > 0
    decreases |txcs|
  {
    if txcs != [] {
      SomeoneLive(txcs[..|txcs| - 1]);
    }
  }

  /** Exact shares add up to the link speed, less under one Mb/s per class. */
  lemma SharesAddUp(tx: Tx)
    requires Agrees(tx) && tx.totalWeight > 0
    requires forall i :: 0 <= i < |tx.txcs| ==> tx.txcs[i].minRate == Share(tx.txcs[i].weight, tx.totalWeight)
    ensures MAX_TX_RATE - Sum(LiveOne, tx.txcs) < Sum(LiveMin, tx.txcs) <= MAX_TX_RATE
  {
    forall i | 0 <= i < |tx.txcs|
      ensures Shared(MAX_TX_RATE, tx.totalWeight, LiveWeight(tx.txcs[i]), LiveMin(tx.txcs[i]), LiveOne(tx.txcs[i]))
    {
      OneShared(tx.txcs[i], tx.totalWeight);
    }
    hide Shared, Share;
    SumShared(MAX_TX_RATE, tx.totalWeight, LiveWeight, LiveMin, LiveOne, tx.txcs);
    SomeoneLive(tx.txcs);
    SharesOfWhole(MAX_TX_RATE, tx.totalWeight, Sum(LiveWeight, tx.txcs), Sum(LiveMin, tx.txcs), Sum(LiveOne, tx.txcs));
  }

  lemma {:induction false} AllLive(txcs: seq<Txc>)
    requires forall i :: 0 <= i < |txcs| ==> txcs[i].live
    ensures Sum(LiveOne, txcs) == |txcs|
    decreases |txcs|
  {
    if txcs != [] {
      AllLive(txcs[..|txcs| - 1]);
    }
  }

  /** Recomputing keeps the weights and identities, and gives exact shares. */
  lemma RecomputeShares(tx: Tx)
    requires Agrees(tx) && tx.totalWeight > 0
    ensures Agrees(Recomputed(tx)) && Recomputed(tx).totalWeight == tx.totalWeight
    ensures forall i :: 0 <= i < |tx.txcs| ==> Recomputed(tx).txcs[i] == RecomputedOne(tx.txcs[i], tx.totalWeight)
  {
    hide Share, Capped;
    SumSame(LiveWeight, tx.txcs, LiveWeight, Recomputed(tx).txcs);
  }

  /** When the total weight is zero nothing is recomputed: dropping a class only lowers the sum. */
  lemma ChangeLowersMin(tx: Tx, c: Config)
    requires Guaranteed(tx) && Changed(tx, c).totalWeight == 0
    ensures Sum(LiveMin, Changed(tx, c).txcs) <= Sum(LiveMin, tx.txcs)
    ensures !c.Delete? ==>
              Sum(LiveMin, Changed(tx, c).txcs) == Sum(LiveMin, tx.txcs) && |Changed(tx, c).txcs| == |tx.txcs|
  {
    var i := Find(tx.txcs, c.klass);
    var tx' := Changed(tx, c);
    if tx' != tx && |tx'.txcs| == |tx.txcs| {
      SumUpdate(LiveMin, tx.txcs, i, tx'.txcs[i]);
    }
  }

  lemma ChangeKeepsSane(tx: Tx, c: Config)
    requires Guaranteed(tx)
    ensures var txcs := Changed(tx, c).txcs;
            && (forall i :: 0 <= i < |txcs| ==> Sane(txcs[i]))
            && (forall i, j :: 0 <= i < j < |txcs| && txcs[i].live && txcs[j].live ==> txcs[i].klass != txcs[j].klass)
  {
    hide Share, Sum;
  }

  lemma WeightlessGuaranteed(tx: Tx, c: Config)
    requires Guaranteed(tx) && Changed(tx, c).totalWeight == 0
    ensures Guaranteed(Changed(tx, c))
    ensures Complete(tx) && !c.Delete? ==> Complete(Changed(tx, c))
  {
    ChangeAgrees(tx, c);
    ChangeKeepsSane(tx, c);
    ChangeLowersMin(tx, c);
    hide Sum;
  }

  lemma RecomputeGuaranteed(tx: Tx)
    requires Agrees(tx) && tx.totalWeight > 0
    requires forall i :: 0 <= i < |tx.txcs| ==> Sane(tx.txcs[i])
    requires forall i, j :: 0 <= i < j < |tx.txcs| && tx.txcs[i].live && tx.txcs[j].live ==>
               tx.txcs[i].klass != tx.txcs[j].klass
    ensures Guaranteed(Recomputed(tx))
    ensures (forall i :: 0 <= i < |tx.txcs| ==> tx.txcs[i].live) ==> Complete(Recomputed(tx))
  {
    RecomputeShares(tx);
    var r := Recomputed(tx);
    SharesAddUp(r);
    if forall i :: 0 <= i < |tx.txcs| ==> tx.txcs[i].live {
      AllLive(r.txcs);
    }
    hide Sum, Share, Recomputed;
  }

  lemma GuaranteedAgrees(tx: Tx)
    requires Guaranteed(tx)
    ensures Agrees(tx)
  {
  }

  lemma ChangeKeepsLive(tx: Tx, c: Config)
    requires Complete(tx) && !c.Delete?
    ensures forall i :: 0 <= i < |Changed(tx, c).txcs| ==> Changed(tx, c).txcs[i].live
  {
    hide Find, Sum;
  }

  lemma ConfigureGuaranteed(tx: Tx, c: Config)
    requires Guaranteed(tx)
    ensures Guaranteed(Configured(tx, c))
    ensures Complete(tx) && !c.Delete? ==> Complete(Configured(tx, c))
  {
    hide Sum, Share, Changed, Guaranteed, Complete, Find, Accepted;
    if Accepted(tx, c) {
      var tx' := Changed(tx, c);
      GuaranteedAgrees(tx);
      ChangeAgrees(tx, c);
      if tx'.totalWeight == 0 {
        WeightlessGuaranteed(tx, c);
      } else {
        ChangeKeepsSane(tx, c);
        if Complete(tx) && !c.Delete? {
          ChangeKeepsLive(tx, c);
        }
        RecomputeGuaranteed(tx');
      }
    }
  }

  lemma TickGuaranteed(tx: Tx, p: Pulse)
    requires Guaranteed(tx) && |p.xmit| == |tx.txcs|
    ensures Guaranteed(Ticked(tx, p))
    ensures Complete(tx) ==> Complete(Ticked(tx, p))
  {
    if Fires(tx, p) {
      var tx' := Ticked(tx, p);
      hide Share, SetBy, Sample, Rcp.NextTx;
      SumSame(LiveWeight, tx.txcs, LiveWeight, tx'.txcs);
      SumSame(LiveMin, tx.txcs, LiveMin, tx'.txcs);
    }
  }

  /** Weighted guarantees over every run of installs, weight and rate changes, deletions and ticks:
      the total is the sum of the weights of the classes that can be found, their guarantees are the
      exact rounded shares and never add up to more than the link; and as long as nothing was deleted
      less than one Mb/s per class is left over. */
  lemma {:induction false} RunGuaranteed(tx: Tx, es: seq<Event>)
    requires Guaranteed(tx) && Fit(tx, es)
    ensures Guaranteed(Run(tx, es))
    ensures Complete(tx) && (forall i :: 0 <= i < |es| && es[i].Configure? ==> !es[i].c.Delete?) ==>
              Complete(Run(tx, es))
    decreases |es|
  {
    if es != [] {
      match es[0] {
        case Configure(c) => ConfigureGuaranteed(tx, c);
        case Tick(p) => TickGuaranteed(tx, p);
      }
      hide Guaranteed, Complete, Changed, Recomputed, Ticked;
      RunGuaranteed(Step(tx, es[0]), es[1..]);
    }
  }

  /** The same from a fresh context: whatever is called and whenever it ticks. */
  lemma LifetimeGuaranteed(now: nat, es: seq<Event>)
    requires Fit(NewTx(now), es)
    ensures Guaranteed(Run(NewTx(now), es))
    ensures (forall i :: 0 <= i < |es| && es[i].Configure? ==> !es[i].c.Delete?) ==> Complete(Run(NewTx(now), es))
  {
    hide Run, Fit;
    RunGuaranteed(NewTx(now), es);
  }

  lemma {:induction false} Listed(txcs: seq<Txc>)
    ensures Sum((c: Txc) => c.weight, txcs) == Sum(LiveWeight, txcs) + Sum((c: Txc) => c.weight - LiveWeight(c), txcs)
    ensures Sum((c: Txc) => c.weight - LiveWeight(c), txcs) >= 0
    ensures Sum((c: Txc) => c.weight - LiveWeight(c), txcs) == 0 <==>
            (forall i :: 0 <= i < |txcs| && !txcs[i].live ==> txcs[i].weight == 0)
    decreases |txcs|
  {
    if txcs != [] {
      var n := |txcs| - 1;
      Listed(txcs[..n]);
      assert forall i :: 0 <= i < n ==> txcs[i] == txcs[..n][i];
    }
  }

  /** Deleting leaves the class on the list, so the listed weights exceed the total by exactly what
      was deleted: list and total agree if and only if the deleted classes weighed nothing. */
  lemma ListedWeights(tx: Tx)
    requires Agrees(tx)
    ensures Sum((c: Txc) => c.weight, tx.txcs) == tx.totalWeight + Sum((c: Txc) => c.weight - LiveWeight(c), tx.txcs)
    ensures Sum((c: Txc) => c.weight, tx.txcs) == tx.totalWeight <==>
            (forall i :: 0 <= i < |tx.txcs| && !tx.txcs[i].live ==> tx.txcs[i].weight == 0)
  {
    Listed(tx.txcs);
  }

  /** Right after a tick that fires, every class that can be found transmits at no less than its
      guarantee and no more than the link, or at no more than its configured cap. */
  lemma TickedRates(tx: Tx, p: Pulse, i: nat)
    requires Guaranteed(tx) && |p.xmit| == |tx.txcs| && Fires(tx, p) && i < |tx.txcs| && tx.txcs[i].live
    ensures var c := Ticked(tx, p).txcs[i];
            && (!c.isStatic ==> c.minRate <= c.rlRate <= MAX_TX_RATE)
            && (c.isStatic ==> Min(c.minRate, c.maxRate) <= c.rlRate <= c.maxRate)
    ensures MIN_RFAIR <= Ticked(tx, p).rate <= MAX_TX_RATE
  {
    MemberBelowSum(LiveMin, tx.txcs, i);
  }

  /** The tick follows the control law if the link was measured at no more than three times its speed,
      and only then whatever rate it stands at. */
  lemma TickFollowsLaw(tx: Tx, p: Pulse)
    requires |p.xmit| == |tx.txcs| && Fires(tx, p) && tx.rate <= MAX_TX_RATE
    ensures Ticked(tx, p).txRate <= 3 * MAX_TX_RATE ==>
              Ticked(tx, p).rate == Rcp.Next(tx.rate, MAX_TX_RATE, Ticked(tx, p).txRate)
    ensures (forall r: nat :: MIN_RFAIR <= r <= MAX_TX_RATE ==>
               Ticked(tx.(rate := r), p).rate == Rcp.Next(r, MAX_TX_RATE, Ticked(tx, p).txRate))
            <==> Ticked(tx, p).txRate <= 3 * MAX_TX_RATE
  {
    var y := Ticked(tx, p).txRate;
    assert y < U32;
    if y <= 3 * MAX_TX_RATE {
      Rcp.TxFormFits(tx.rate, MAX_TX_RATE, y);
    }
    forall r: nat ensures Ticked(tx.(rate := r), p).rate == Rcp.NextTx(r, MAX_TX_RATE, y) {
    }
    Rcp.TxFormExact(MAX_TX_RATE, y);
    hide Ticked, Rcp.Next, Rcp.NextTx;
  }

  /** The 32-bit average of two values is their true average exactly when the sum does not overflow. */
  lemma AverageFits(a: nat, s: nat)
    ensures var x, avg := a * 15 + s, (a * 15 + s) % U32 / 16;
            && avg < U32 / 16
            && (avg == x / 16 <==> x < U32)
            && (x < U32 ==> Min(a, s) <= avg <= Max(a, s))
  {
    var x := a * 15 + s;
    if x >= U32 {
      assert x == U32 * (x / U32) + x % U32;
    }
  }

  /** A class's smoothed rate is the average of fifteen parts of its old value and one of the sample
      exactly when their sum fits 32 bits, and then lies between the two. Every tick leaves it below
      2^28, and from there samples of up to 2^28 Mb/s fit. */
  lemma SmoothStaysBetween(c: Txc, xmit: nat, dt: nat, rate: nat)
    requires dt > 0
    ensures var c' := TickedOne(c, xmit, dt, rate);
            var a, s := c.txRateSmooth, c'.txRate;
            && (c'.txRateSmooth == (a * 15 + s) / 16 <==> a * 15 + s < U32)
            && (a * 15 + s < U32 ==> Min(a, s) <= c'.txRateSmooth <= Max(a, s))
            && c'.txRateSmooth < U32 / 16
            && (a < U32 / 16 && s <= U32 / 16 ==> a * 15 + s < U32)
  {
    hide Sample, SetBy;
    AverageFits(c.txRateSmooth, Sample((xmit - c.accumXmit) % U64, dt));
  }

  // ---- sampled rates ----

  datatype Which = Device | Class(i: nat)

  predicate Names(tx: Tx, w: Which) { w.Class? ==> w.i < |tx.txcs| }

  function MeterOf(tx: Tx, w: Which): Meter
    requires Names(tx, w)
  {
    match w
    case Device => Meter(tx.txBytes, tx.lastUpdate, tx.txRate)
    case Class(i) => Meter(tx.txcs[i].accumXmit, tx.lastUpdate, tx.txcs[i].txRate)
  }

  function Reading(p: Pulse, w: Which): Sampling.Tick
    requires w.Class? ==> w.i < |p.xmit|
  {
    match w
    case Device => Sampling.Tick(Total(p.cpuBytes, |p.cpuBytes|), p.now)
    case Class(i) => Sampling.Tick(Total(p.xmit[i], |p.xmit[i]|), p.now)
  }

  /** The readings a meter takes along a run. */
  ghost function Readings(tx: Tx, es: seq<Event>, w: Which): seq<Sampling.Tick>
    requires Fit(tx, es) && Names(tx, w)
    decreases |es|
  {
    if es == [] then []
    else
      (if es[0].Tick? && es[0].p.lock then [Reading(es[0].p, w)] else []) + Readings(Step(tx, es[0]), es[1..], w)
  }

  lemma ConfigureKeepsMeter(tx: Tx, c: Config, w: Which)
    requires Agrees(tx) && Names(tx, w)
    ensures Names(Configured(tx, c), w) && MeterOf(Configured(tx, c), w) == MeterOf(tx, w)
  {
    hide Sum, Share;
  }

  lemma TickReads(tx: Tx, p: Pulse, w: Which)
    requires |p.xmit| == |tx.txcs| && Names(tx, w)
    ensures var m := MeterOf(tx, w);
            MeterOf(Ticked(tx, p), w) ==
              if p.lock then Read(m, Reading(p, w).total, p.now, TXC_UPDATE_INTERVAL_US) else m
  {
    hide Sample, SetBy, Rcp.NextTx, Total;
  }

  lemma {:induction false} RunReads(tx: Tx, es: seq<Event>, w: Which)
    requires Fit(tx, es) && Names(tx, w)
    ensures ReadAll(MeterOf(tx, w), Readings(tx, es, w), TXC_UPDATE_INTERVAL_US) == MeterOf(Run(tx, es), w)
    decreases |es|
  {
    if es != [] {
      match es[0] {
        case Configure(c) => ConfigureKeepsMeter(tx, c, w);
        case Tick(p) => TickReads(tx, p, w);
      }
      hide Ticked, Configured, MeterOf, Read, Agrees;
      RunReads(Step(tx, es[0]), es[1..], w);
      var rest := Readings(Step(tx, es[0]), es[1..], w);
      if es[0].Tick? && es[0].p.lock {
        assert Readings(tx, es, w)[1..] == rest;
      } else {
        assert Readings(tx, es, w) == rest;
      }
    }
  }

  /** Over any run the sampled transmit rates of the device and of each class account for the bytes
      counted: never more than were sent, and short by less than a bit per sampled microsecond. */
  lemma TxSamplesConserve(tx: Tx, es: seq<Event>, w: Which)
    requires Fit(tx, es) && Names(tx, w)
    requires Plausible(MeterOf(tx, w), Readings(tx, es, w), TXC_UPDATE_INTERVAL_US)
    ensures var bits := 8 * (MeterOf(Run(tx, es), w).total - MeterOf(tx, w).total);
            var claimed := Claimed(MeterOf(tx, w), Readings(tx, es, w), TXC_UPDATE_INTERVAL_US);
            var span := Span(MeterOf(tx, w), Readings(tx, es, w), TXC_UPDATE_INTERVAL_US);
            claimed <= bits && bits <= claimed + span && (span > 0 ==> bits < claimed + span)
  {
    RunReads(tx, es, w);
    SamplesConserve(MeterOf(tx, w), Readings(tx, es, w), TXC_UPDATE_INTERVAL_US);
  }

  // ---- the object ----

  method Accumulate(xs: seq<nat>) returns (total: nat)
    ensures total == Total(xs, |xs|)
  {
    total := 0;
    for i := 0 to |xs|
      invariant total == Total(xs, i)
    {
      total := total + xs[i];
    }
  }

  class TxContext {
    var txcs: seq<Txc>
    var totalWeight: int
    var rate: nat
    var txBytes: nat
    var txRate: nat
    var lastUpdate: nat

    function View(): Tx
      reads this
    {
      Tx(txcs, totalWeight, rate, txBytes, txRate, lastUpdate)
    }

    /** `iso_tx_init` */
    constructor (now: nat)
      ensures View() == NewTx(now) && txcs == [] && totalWeight == 0 && rate == 2 && txBytes == 0 && lastUpdate == now
    {
      txcs, totalWeight, rate, txBytes, txRate, lastUpdate := [], 0, 2, 0, 0, now;
    }

    /** `iso_txc_find` */
    method Lookup(klass: nat) returns (found: int)
      ensures found == Find(txcs, klass)
    {
      found := |txcs| - 1;
      while found >= 0 && !Is(txcs[found], klass)
        invariant -1 <= found < |txcs|
        invariant forall j :: found < j < |txcs| ==> !Is(txcs[j], klass)
      {
        found := found - 1;
      }
    }

    /** `iso_txc_recompute_rates` */
    method RecomputeRates()
      requires totalWeight >= 0
      modifies `txcs
      ensures View() == Recomputed(old(View()))
    {
      if totalWeight == 0 {
        return;
      }
      for i := 0 to |txcs|
        invariant |txcs| == |old(txcs)|
        invariant forall j :: 0 <= j < |txcs| ==>
                    txcs[j] == if j < i then RecomputedOne(old(txcs)[j], totalWeight) else old(txcs)[j]
      {
        hide Capped, Share;
        var c := txcs[i];
        c := c.(minRate := Share(c.weight, totalWeight));
        c := c.(rlRate := Capped(c, c.minRate));
        txcs := txcs[i := c];
      }
      hide RecomputedOne;
      assert txcs == Recomputed(old(View())).txcs;
    }

    /** `iso_txc_install` and `iso_txc_alloc` */
    method Install(klass: nat) returns (ok: bool)
      requires Agrees(View())
      modifies this
      ensures View() == Configured(old(View()), Config.Install(klass))
      ensures ok == Accepted(old(View()), Config.Install(klass))
    {
      var i := Lookup(klass);
      ok := i < 0;
      ghost var tx := View();
      ChangeAgrees(tx, Config.Install(klass));
      assert ok == Accepted(tx, Config.Install(klass));
      assert ok ==> Changed(tx, Config.Install(klass))
                    == tx.(txcs := txcs + [NewTxc(klass)], totalWeight := totalWeight + 1);
      hide Agrees, Recomputed, Changed, Accepted, Find;
      if ok {
        txcs := txcs + [NewTxc(klass)];
        totalWeight := totalWeight + 1;
        RecomputeRates();
      }
    }

    /** `iso_sys_set_txc_weight` */
    method SetWeight(klass: nat, weight: int) returns (ok: bool)
      requires Agrees(View())
      modifies this
      ensures View() == Configured(old(View()), Config.SetWeight(klass, weight))
      ensures ok == Accepted(old(View()), Config.SetWeight(klass, weight))
    {
      var i := Lookup(klass);
      ok := i >= 0 && 0 <= weight <= MAX_WEIGHT;
      ChangeAgrees(View(), Config.SetWeight(klass, weight));
      hide Agrees, Recomputed;
      if ok {
        totalWeight := totalWeight - txcs[i].weight;
        txcs := txcs[i := txcs[i].(weight := weight)];
        totalWeight := totalWeight + txcs[i].weight;
        RecomputeRates();
      }
    }

    /** `iso_sys_set_txc_rate` */
    method SetRate(klass: nat, cap: int) returns (ok: bool)
      requires Agrees(View())
      modifies this
      ensures View() == Configured(old(View()), Config.SetRate(klass, cap))
      ensures ok == Accepted(old(View()), Config.SetRate(klass, cap))
    {
      var i := Lookup(klass);
      ok := i >= 0 && 0 <= cap <= 1024;
      ChangeAgrees(View(), Config.SetRate(klass, cap));
      hide Agrees, Recomputed;
      if ok {
        if cap == 0 {
          txcs := txcs[i := txcs[i].(isStatic := false, maxRate := MAX_TX_RATE)];
        } else {
          txcs := txcs[i := txcs[i].(isStatic := true, maxRate := cap)];
        }
        RecomputeRates();
      }
    }

    /** `iso_sys_delete_txc` */
    method Delete(klass: nat) returns (ok: bool)
      requires Agrees(View())
      modifies this
      ensures View() == Configured(old(View()), Config.Delete(klass))
      ensures ok == Accepted(old(View()), Config.Delete(klass))
    {
      var i := Lookup(klass);
      ok := i >= 0;
      ChangeAgrees(View(), Config.Delete(klass));
      hide Agrees, Recomputed;
      if ok {
        txcs := txcs[i := txcs[i].(live := false)];
        totalWeight := totalWeight - txcs[i].weight;
        RecomputeRates();
      }
    }

    /** The class loop of `iso_txc_tick`. */
    method TickClasses(xmit: seq<seq<nat>>, dt: nat)
      requires dt > 0 && |xmit| == |txcs|
      modifies `txcs
      ensures txcs == TickedAll(old(txcs), xmit, dt, rate)
    {
      for i := 0 to |txcs|
        invariant |txcs| == |old(txcs)|
        invariant forall j :: 0 <= j < |txcs| ==>
                    txcs[j] == if j < i then TickedOne(old(txcs)[j], Total(xmit[j], |xmit[j]|), dt, rate)
                               else old(txcs)[j]
      {
        var accum := Accumulate(xmit[i]);
        hide Total, Sample;
        var c := txcs[i];
        var last := c.accumXmit;
        c := c.(accumXmit := accum);
        c := c.(txRate := Sample((c.accumXmit - last) % U64, dt));
        c := c.(txRateSmooth := (c.txRateSmooth * 15 + c.txRate) % U32 / 16);
        c := c.(rlRate := rate * c.weight % U32);
        c := c.(rlRate := Min(MAX_TX_RATE, c.rlRate));
        c := c.(rlRate := Max(c.minRate, c.rlRate));
        if c.isStatic {
          c := c.(rlRate := Min(c.maxRate, c.rlRate));
        }
        txcs := txcs[i := c];
      }
      hide TickedOne;
    }

    /** `iso_txc_tick` */
    method Tick(p: Pulse)
      requires |p.xmit| == |txcs|
      modifies this
      ensures View() == Ticked(old(View()), p)
    {
      var dt := UsDelta(p.now, lastUpdate);
      if dt < TXC_UPDATE_INTERVAL_US || !p.lock {
        return;
      }
      lastUpdate := p.now;
      var last := txBytes;
      txBytes := Accumulate(p.cpuBytes);
      txRate := Sample((txBytes - last) % U64, dt);
      rate := Rcp.NextTx(rate, MAX_TX_RATE, txRate);
      hide TickedAll, Sample, Total, Rcp.NextTx, UsDelta;
      TickClasses(p.xmit, dt);
    }
  }
}
