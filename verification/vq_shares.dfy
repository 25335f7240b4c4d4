/** How the receiver divides its drain rate between virtual queues (vq.c): the weights and caps that
    params.c sets, and what the queues are then given. */
module VqShares {
  import opened Params
  import opened Arithmetic
  import opened Lists
  import opened Sums

  /** The part of `struct iso_vq` that configuration reads and writes. */
  datatype Entry = Entry(klass: nat, weight: nat, isStatic: bool, rate: nat)

  /** Sum of the weights of the first n queues, kept in 32 bits. */
  function TotalWeight(vqs: seq<Entry>, n: nat): nat
    requires n <= |vqs|
  {
    if n == 0 then 0 else (TotalWeight(vqs, n - 1) + vqs[n - 1].weight) % U32
  }

  function Part(weight: nat, total: nat): nat
    requires total > 0
  {
    VQ_DRAIN_RATE * weight / total
  }

  function GivenOne(vq: Entry, total: nat): Entry
    requires total > 0
  {
    if vq.isStatic then vq else vq.(rate := Part(vq.weight, total))
  }

  /** `iso_vq_calculate_rates` */
  function Calculated(vqs: seq<Entry>): (r: seq<Entry>)
    ensures |r| == |vqs|
  {
    var total := TotalWeight(vqs, |vqs|);
    if total == 0 then vqs else seq(|vqs|, i requires 0 <= i < |vqs| => GivenOne(vqs[i], total))
  }

  /** `iso_vq_find`, for a class whose queue was not deleted. */
  function Find(vqs: seq<Entry>, k: nat): (i: int)
    ensures -1 <= i < |vqs|
    ensures i >= 0 ==> vqs[i].klass == k
    ensures forall j :: i < j < |vqs| ==> vqs[j].klass != k
  {
    LastWhere((vq: Entry) => vq.klass == k, vqs)
  }

  datatype Config =
    | Install(klass: nat)
    | SetWeight(klass: nat, weight: int)
    | SetRate(klass: nat, rate: int)
    | Delete(klass: nat)

  function NewEntry(k: nat): Entry { Entry(k, 1, false, MIN_RFAIR) }

  /** The configuration calls; an error changes nothing. A rate of zero lifts the cap. */
  function Configured(vqs: seq<Entry>, c: Config): seq<Entry> {
    var i := Find(vqs, c.klass);
    match c
    case Install(k) => if i >= 0 then vqs else Calculated(vqs + [NewEntry(k)])
    case SetWeight(_, w) =>
      if i < 0 || w < 0 || w > MAX_WEIGHT then vqs else Calculated(vqs[i := vqs[i].(weight := w)])
    case SetRate(_, r) =>
      if i < 0 || r < 0 || r > VQ_DRAIN_RATE then vqs
      else if r > 0 then vqs[i := vqs[i].(rate := r, isStatic := true)]
      else Calculated(vqs[i := vqs[i].(isStatic := false)])
    case Delete(_) => if i < 0 then vqs else vqs[..i] + vqs[i + 1..]
  }

  // ---- shares ----

  function Weight(vq: Entry): int { vq.weight }
  function SharedWeight(vq: Entry): int { if vq.isStatic then 0 else vq.weight }
  function SharedRate(vq: Entry): int { if vq.isStatic then 0 else vq.rate }
  function SharedOne(vq: Entry): int { if vq.isStatic then 0 else 1 }

  /** So few queues that 32 bits hold the sum of their weights. */
  predicate Few(vqs: seq<Entry>) { |vqs| * MAX_WEIGHT < U32 }

  predicate Sane(vq: Entry) { vq.weight <= MAX_WEIGHT && (vq.isStatic ==> vq.rate <= VQ_DRAIN_RATE) }

  lemma {:induction false} TotalIsSum(vqs: seq<Entry>, n: nat)
    requires n <= |vqs| && Few(vqs) && forall i :: 0 <= i < |vqs| ==> Sane(vqs[i])
    ensures TotalWeight(vqs, n) == Sum(Weight, vqs[..n]) && 0 <= Sum(Weight, vqs[..n]) <= n * MAX_WEIGHT
    decreases n
  {
    if n > 0 {
      TotalIsSum(vqs, n - 1);
      assert vqs[..n][..n - 1] == vqs[..n - 1];
    }
  }

  lemma TotalOf(vqs: seq<Entry>)
    requires Few(vqs) && forall i :: 0 <= i < |vqs| ==> Sane(vqs[i])
    ensures TotalWeight(vqs, |vqs|) == Sum(Weight, vqs)
  {
    TotalIsSum(vqs, |vqs|);
    assert vqs[..|vqs|] == vqs;
  }

  /** What an uncapped queue has is no more than its weight's part of the drain rate. */
  predicate Within(vq: Entry, total: int) { !vq.isStatic ==> Times(total, vq.rate) <= Times(VQ_DRAIN_RATE, vq.weight) }

  ghost predicate Fair(vqs: seq<Entry>) {
    && Few(vqs)
    && (forall i :: 0 <= i < |vqs| ==> Sane(vqs[i]))
    && (Sum(Weight, vqs) > 0 ==> forall i :: 0 <= i < |vqs| ==> Within(vqs[i], Sum(Weight, vqs)))
  }

  lemma SharedBelow(vqs: seq<Entry>)
    ensures Sum(SharedWeight, vqs) <= Sum(Weight, vqs)
  {
    SumLess(SharedWeight, Weight, vqs);
  }

  /** While some queue has a weight, the uncapped queues never hold more than the drain rate. */
  lemma FairFits(vqs: seq<Entry>)
    requires Fair(vqs) && Sum(Weight, vqs) > 0
    ensures 0 <= Sum(SharedRate, vqs) <= VQ_DRAIN_RATE
  {
    var t := Sum(Weight, vqs);
    forall i | 0 <= i < |vqs| ensures Times(t, SharedRate(vqs[i])) <= Times(VQ_DRAIN_RATE, SharedWeight(vqs[i])) {
      assert Within(vqs[i], t);
    }
    SumNonNegative(SharedRate, vqs);
    SumBelow(VQ_DRAIN_RATE, t, SharedWeight, SharedRate, vqs);
    SharedBelow(vqs);
    assert Times(t, VQ_DRAIN_RATE - Sum(SharedRate, vqs)) >= 0;
    NonNegativeFactor(t, VQ_DRAIN_RATE - Sum(SharedRate, vqs));
  }

  lemma GivenShared(vq: Entry, total: nat)
    requires total > 0
    ensures var g := GivenOne(vq, total);
            Within(g, total) && Shared(VQ_DRAIN_RATE, total, SharedWeight(g), SharedRate(g), SharedOne(g))
  {
    RoundedDown(VQ_DRAIN_RATE, total, vq.weight);
  }

  lemma CalculateKeepsWeights(vqs: seq<Entry>)
    ensures Sum(Weight, Calculated(vqs)) == Sum(Weight, vqs)
  {
    SumSame(Weight, Calculated(vqs), Weight, vqs);
  }

  lemma CalculatedFair(vqs: seq<Entry>)
    requires Few(vqs) && forall i :: 0 <= i < |vqs| ==> Sane(vqs[i])
    ensures Fair(Calculated(vqs))
  {
    var total := Sum(Weight, vqs);
    TotalOf(vqs);
    CalculateKeepsWeights(vqs);
    if total > 0 {
      forall i | 0 <= i < |vqs| ensures Within(Calculated(vqs)[i], total) && Sane(Calculated(vqs)[i]) {
        GivenShared(vqs[i], total);
      }
    }
  }

  lemma {:induction false} Uncapped(vqs: seq<Entry>)
    requires forall i :: 0 <= i < |vqs| ==> !vqs[i].isStatic
    ensures Sum(SharedOne, vqs) == |vqs|
    decreases |vqs|
  {
    if vqs != [] {
      Uncapped(vqs[..|vqs| - 1]);
    }
  }

  /** A recomputation with positive total weight: the uncapped queues get no more than the drain rate
      between them, and with no caps less than one Mb/s per queue is left over. */
  lemma CalculatedShares(vqs: seq<Entry>)
    requires Few(vqs) && (forall i :: 0 <= i < |vqs| ==> Sane(vqs[i])) && Sum(Weight, vqs) > 0
    ensures Sum(SharedRate, Calculated(vqs)) <= VQ_DRAIN_RATE
    ensures (forall i :: 0 <= i < |vqs| ==> !vqs[i].isStatic) ==>
              VQ_DRAIN_RATE - |vqs| < Sum(SharedRate, Calculated(vqs))
  {
    var r, total := Calculated(vqs), Sum(Weight, vqs);
    CalculatedFair(vqs);
    CalculateKeepsWeights(vqs);
    TotalOf(vqs);
    FairFits(r);
    if forall i :: 0 <= i < |vqs| ==> !vqs[i].isStatic {
      forall i | 0 <= i < |r|
        ensures Shared(VQ_DRAIN_RATE, total, SharedWeight(r[i]), SharedRate(r[i]), SharedOne(r[i]))
      {
        GivenShared(vqs[i], total);
      }
      SumShared(VQ_DRAIN_RATE, total, SharedWeight, SharedRate, SharedOne, r);
      SumSame(SharedWeight, r, Weight, vqs);
      Uncapped(r);
      SharesOfWhole(VQ_DRAIN_RATE, total, total, Sum(SharedRate, r), |r|);
    }
  }

  // ---- runs ----

  lemma FewerStayWithin(vq: Entry, t: nat, t': nat)
    requires Within(vq, t) && t' <= t
    ensures Within(vq, t')
  {
    assert Times(t, vq.rate) - Times(t', vq.rate) == Times(t - t', vq.rate);
  }

  lemma CapFair(vqs: seq<Entry>, i: nat, rate: nat)
    requires Fair(vqs) && i < |vqs| && rate <= VQ_DRAIN_RATE
    ensures Fair(vqs[i := vqs[i].(rate := rate, isStatic := true)])
  {
    hide Times;
    SumUpdate(Weight, vqs, i, vqs[i].(rate := rate, isStatic := true));
  }

  lemma DeleteFair(vqs: seq<Entry>, i: nat)
    requires Fair(vqs) && i < |vqs|
    ensures Fair(vqs[..i] + vqs[i + 1..])
  {
    var rest := vqs[..i] + vqs[i + 1..];
    SumRemove(Weight, vqs, i);
    forall j | 0 <= j < |rest| ensures Sane(rest[j]) && (Sum(Weight, rest) > 0 ==> Within(rest[j], Sum(Weight, rest))) {
      var k := if j < i then j else j + 1;
      assert rest[j] == vqs[k];
      if Sum(Weight, rest) > 0 {
        FewerStayWithin(vqs[k], Sum(Weight, vqs), Sum(Weight, rest));
      }
    }
  }

  lemma ReplaceFair(vqs: seq<Entry>, i: nat, vq: Entry)
    requires Fair(vqs) && i < |vqs| && Sane(vq)
    ensures Fair(Calculated(vqs[i := vq]))
  {
    hide Times, Sum, Calculated;
    CalculatedFair(vqs[i := vq]);
  }

  lemma InstallFair(vqs: seq<Entry>, k: nat)
    requires Fair(vqs) && Few(vqs + [NewEntry(k)])
    ensures Fair(Calculated(vqs + [NewEntry(k)]))
  {
    hide Times, Sum, Calculated;
    CalculatedFair(vqs + [NewEntry(k)]);
  }

  lemma ConfiguredFair(vqs: seq<Entry>, c: Config)
    requires Fair(vqs) && Few(vqs + [NewEntry(c.klass)])
    ensures Fair(Configured(vqs, c))
  {
    var i := Find(vqs, c.klass);
    assert i >= 0 ==> Sane(vqs[i]);
    hide Fair, Few, Calculated;
    match c
    case Install(k) => if i < 0 { InstallFair(vqs, k); }
    case SetWeight(_, w) => if i >= 0 && 0 <= w <= MAX_WEIGHT { ReplaceFair(vqs, i, vqs[i].(weight := w)); }
    case SetRate(_, r) =>
      if i >= 0 && 0 <= r <= VQ_DRAIN_RATE {
        if r > 0 { CapFair(vqs, i, r); } else { ReplaceFair(vqs, i, vqs[i].(isStatic := false)); }
      }
    case Delete(_) => if i >= 0 { DeleteFair(vqs, i); }
  }

  function Run(vqs: seq<Entry>, cs: seq<Config>): seq<Entry>
    decreases |cs|
  {
    if cs == [] then vqs else Run(Configured(vqs, cs[0]), cs[1..])
  }

  /** At no point of the run are there so many queues that their weights could overflow. */
  predicate AlwaysFew(vqs: seq<Entry>, cs: seq<Config>)
    decreases |cs|
  {
    (|vqs| + 1) * MAX_WEIGHT < U32 && (cs != [] ==> AlwaysFew(Configured(vqs, cs[0]), cs[1..]))
  }

  /** After any run of configuration calls, if any queue has a weight then the uncapped queues hold at
      most the drain rate between them, and each at most its weight's part. */
  lemma {:induction false} RunFair(vqs: seq<Entry>, cs: seq<Config>)
    requires Fair(vqs) && AlwaysFew(vqs, cs)
    ensures Fair(Run(vqs, cs))
    ensures Sum(Weight, Run(vqs, cs)) > 0 ==> 0 <= Sum(SharedRate, Run(vqs, cs)) <= VQ_DRAIN_RATE
    decreases |cs|
  {
    if cs == [] {
      if Sum(Weight, vqs) > 0 { FairFits(vqs); }
    } else {
      ConfiguredFair(vqs, cs[0]);
      hide Fair;
      RunFair(Configured(vqs, cs[0]), cs[1..]);
    }
  }

  /** The same from no queue at all. */
  lemma LifetimeFair(cs: seq<Config>)
    requires AlwaysFew([], cs)
    ensures var vqs := Run([], cs);
            Fair(vqs) && (Sum(Weight, vqs) > 0 ==> 0 <= Sum(SharedRate, vqs) <= VQ_DRAIN_RATE)
  {
    RunFair([], cs);
  }

  // ---- all weights zero ----

  lemma FindTwo(a: Entry, b: Entry)
    requires a.klass != b.klass
    ensures Find([a, b], a.klass) == 0 && Find([a, b], b.klass) == 1
  {
    assert [a, b][0] == a && [a, b][1] == b;
  }

  lemma CalculateOne(a: Entry)
    requires 0 < a.weight < 10
    ensures Calculated([a]) == [GivenOne(a, a.weight)]
  {
    assert TotalWeight([a], 1) == a.weight;
  }

  lemma CalculateTwo(a: Entry, b: Entry)
    requires a.weight + b.weight < 10
    ensures var t := a.weight + b.weight;
            Calculated([a, b]) == if t == 0 then [a, b] else [GivenOne(a, t), GivenOne(b, t)]
  {
    assert TotalWeight([a, b], 1) == a.weight;
    assert TotalWeight([a, b], 2) == a.weight + b.weight;
  }

  /** Replacing one of two queues and recomputing, as `set_vq_weight` and lifting a cap do. */
  lemma ReplaceTwo(a: Entry, b: Entry, vq: Entry)
    requires a.weight < 5 && b.weight < 5 && vq.weight < 5
    ensures var t := vq.weight + b.weight;
            Calculated([a, b][0 := vq]) == if t == 0 then [vq, b] else [GivenOne(vq, t), GivenOne(b, t)]
    ensures var t := a.weight + vq.weight;
            Calculated([a, b][1 := vq]) == if t == 0 then [a, vq] else [GivenOne(a, t), GivenOne(vq, t)]
  {
    assert [a, b][0 := vq] == [vq, b] && [a, b][1 := vq] == [a, vq];
    CalculateTwo(vq, b);
    CalculateTwo(a, vq);
  }

  lemma FirstTwoQueues()
    ensures Configured([], Install(1)) == [Entry(1, 1, false, 9000)]
    ensures Configured([Entry(1, 1, false, 9000)], Install(2)) == [Entry(1, 1, false, 4500), Entry(2, 1, false, 4500)]
  {
    assert [] + [NewEntry(1)] == [NewEntry(1)];
    CalculateOne(NewEntry(1));
    var a := Entry(1, 1, false, 9000);
    assert Find([a], 2) == -1;
    assert [a] + [NewEntry(2)] == [a, NewEntry(2)];
    CalculateTwo(a, NewEntry(2));
  }

  lemma SecondIsCapped()
    ensures Configured([Entry(1, 1, false, 4500), Entry(2, 1, false, 4500)], SetWeight(2, 0))
            == [Entry(1, 1, false, 9000), Entry(2, 0, false, 0)]
    ensures Configured([Entry(1, 1, false, 9000), Entry(2, 0, false, 0)], SetRate(2, 9000))
            == [Entry(1, 1, false, 9000), Entry(2, 0, true, 9000)]
  {
    var a, b := Entry(1, 1, false, 4500), Entry(2, 1, false, 4500);
    FindTwo(a, b);
    ReplaceTwo(a, b, Entry(2, 0, false, 4500));
    FindTwo(Entry(1, 1, false, 9000), Entry(2, 0, false, 0));
    hide Calculated, Find;
  }

  lemma NothingRecomputed()
    ensures Configured([Entry(1, 1, false, 9000), Entry(2, 0, true, 9000)], SetWeight(1, 0))
            == [Entry(1, 0, false, 9000), Entry(2, 0, true, 9000)]
    ensures Configured([Entry(1, 0, false, 9000), Entry(2, 0, true, 9000)], SetRate(2, 0))
            == [Entry(1, 0, false, 9000), Entry(2, 0, false, 9000)]
  {
    var a, b := Entry(1, 1, false, 9000), Entry(2, 0, true, 9000);
    FindTwo(a, b);
    ReplaceTwo(a, b, Entry(1, 0, false, 9000));
    FindTwo(Entry(1, 0, false, 9000), b);
    ReplaceTwo(Entry(1, 0, false, 9000), b, Entry(2, 0, false, 9000));
    hide Calculated, Find;
  }

  lemma RunOne(vqs: seq<Entry>, c: Config, cs: seq<Config>)
    ensures Run(vqs, [c] + cs) == Run(Configured(vqs, c), cs)
  {
    assert ([c] + cs)[1..] == cs;
  }

  lemma SumTwo(f: Entry -> int, a: Entry, b: Entry)
    ensures Sum(f, [a, b]) == f(a) + f(b)
  {
    assert [a, b][..1] == [a] && [a][..0] == [];
    assert Sum(f, [a]) == Sum(f, [a][..0]) + f(a);
  }

  /** Six calls that leave every weight at zero and then lift a cap. */
  function OvercommittingCalls(): seq<Config> {
    [Install(1)]
    + ([Install(2)]
       + ([SetWeight(2, 0)] + ([SetRate(2, 9000)] + ([SetWeight(1, 0)] + ([SetRate(2, 0)] + [])))))
  }

  /** With every weight at zero nothing is recomputed, and lifting a cap then leaves twice the drain
      rate handed out: six calls from no queue at all. */
  lemma WeightlessOvercommits()
    ensures Sum(SharedRate, Run([], OvercommittingCalls())) == 2 * VQ_DRAIN_RATE
    ensures Sum(Weight, Run([], OvercommittingCalls())) == 0
  {
    FirstTwoQueues();
    SecondIsCapped();
    NothingRecomputed();
    hide Configured;
    var v1, v2 := [Entry(1, 1, false, 9000)], [Entry(1, 1, false, 4500), Entry(2, 1, false, 4500)];
    var v3 := [Entry(1, 1, false, 9000), Entry(2, 0, false, 0)];
    var v4 := [Entry(1, 1, false, 9000), Entry(2, 0, true, 9000)];
    var v5 := [Entry(1, 0, false, 9000), Entry(2, 0, true, 9000)];
    var c6 := [SetRate(2, 0)] + [];
    var c5 := [SetWeight(1, 0)] + c6;
    var c4 := [SetRate(2, 9000)] + c5;
    var c3 := [SetWeight(2, 0)] + c4;
    RunOne([], Install(1), [Install(2)] + c3);
    RunOne(v1, Install(2), c3);
    RunOne(v2, SetWeight(2, 0), c4);
    RunOne(v3, SetRate(2, 9000), c5);
    RunOne(v4, SetWeight(1, 0), c6);
    RunOne(v5, SetRate(2, 0), []);
    SumTwo(SharedRate, Entry(1, 0, false, 9000), Entry(2, 0, false, 9000));
    SumTwo(Weight, Entry(1, 0, false, 9000), Entry(2, 0, false, 9000));
  }

  // ---- the object ----

  class RxQueues {
    var vqs: seq<Entry>

    /** `iso_vqs_init` */
    constructor ()
      ensures vqs == []
    {
      vqs := [];
    }

    /** `iso_vq_find` */
    method Lookup(klass: nat) returns (found: int)
      ensures found == Find(vqs, klass)
    {
      found := |vqs| - 1;
      while found >= 0 && vqs[found].klass != klass
        invariant -1 <= found < |vqs|
        invariant forall j :: found < j < |vqs| ==> vqs[j].klass != klass
      {
        found := found - 1;
      }
    }

    /** `iso_vq_calculate_rates` */
    method CalculateRates()
      modifies this
      ensures vqs == Calculated(old(vqs))
    {
      var total := 0;
      for i := 0 to |vqs|
        invariant vqs == old(vqs) && total == TotalWeight(vqs, i)
      {
        total := (total + vqs[i].weight) % U32;
      }
      hide TotalWeight, Part;
      if total > 0 {
        for i := 0 to |vqs|
          invariant |vqs| == |old(vqs)|
          invariant forall j :: 0 <= j < |vqs| ==> vqs[j] == if j < i then GivenOne(old(vqs)[j], total) else old(vqs)[j]
        {
          if !vqs[i].isStatic {
            vqs := vqs[i := vqs[i].(rate := Part(vqs[i].weight, total))];
          }
        }
      }
    }

    /** `iso_vq_install` and `iso_vq_alloc` */
    method Install(klass: nat)
      modifies this
      ensures vqs == Configured(old(vqs), Config.Install(klass))
    {
      var i := Lookup(klass);
      if i < 0 {
        vqs := vqs + [NewEntry(klass)];
        CalculateRates();
      }
    }

    /** `iso_sys_set_vq_weight` */
    method SetWeight(klass: nat, weight: int)
      modifies this
      ensures vqs == Configured(old(vqs), Config.SetWeight(klass, weight))
    {
      var i := Lookup(klass);
      if i >= 0 && 0 <= weight <= MAX_WEIGHT {
        vqs := vqs[i := vqs[i].(weight := weight)];
        CalculateRates();
      }
    }

    /** `iso_sys_set_vq_rate` */
    method SetRate(klass: nat, rate: int)
      modifies this
      ensures vqs == Configured(old(vqs), Config.SetRate(klass, rate))
    {
      var i := Lookup(klass);
      if i >= 0 && 0 <= rate <= VQ_DRAIN_RATE {
        if rate > 0 {
          vqs := vqs[i := vqs[i].(rate := rate, isStatic := true)];
        } else {
          vqs := vqs[i := vqs[i].(isStatic := false)];
          CalculateRates();
        }
      }
    }

    /** `iso_vq_free` takes the queue off the list without dividing its share. */
    method Delete(klass: nat)
      modifies this
      ensures vqs == Configured(old(vqs), Config.Delete(klass))
    {
      var i := Lookup(klass);
      if i >= 0 {
        vqs := vqs[..i] + vqs[i + 1..];
      }
    }
  }
}
