/** What the receiver's configuration calls do to the virtual queues: which are refused, what each sets, and
    what the queues are given afterwards. */
module ShareLaws {
  import opened Params
  import opened Sums
  import opened VqShares

  /** Same class, weight and cap. */
  predicate SameSetup(a: Entry, b: Entry) {
    a.klass == b.klass && a.weight == b.weight && a.isStatic == b.isStatic && (a.isStatic ==> a.rate == b.rate)
  }

  /** Every queue without a cap has its weight's part of the drain rate, if there is any weight at all; the
      queues are otherwise those of `vqs`. */
  ghost predicate Given(vqs: seq<Entry>, r: seq<Entry>) {
    && |r| == |vqs|
    && (forall i :: 0 <= i < |vqs| ==> SameSetup(vqs[i], r[i]))
    && (Sum(Weight, vqs) == 0 ==> r == vqs)
    && (Sum(Weight, vqs) > 0 ==>
          forall i :: 0 <= i < |vqs| && !vqs[i].isStatic ==> r[i].rate == 9000 * vqs[i].weight / Sum(Weight, vqs))
  }

  lemma CalculatedExactly(vqs: seq<Entry>)
    requires 0 <= Sum(Weight, vqs) && TotalWeight(vqs, |vqs|) == Sum(Weight, vqs)
    ensures Given(vqs, Calculated(vqs))
  {
    hide Sum, TotalWeight;
  }

  /** The queue a call names: the last of that class. */
  ghost predicate Named(vqs: seq<Entry>, k: nat, i: nat) {
    i < |vqs| && vqs[i].klass == k && forall j :: i < j < |vqs| ==> vqs[j].klass != k
  }

  lemma NamedIsFound(vqs: seq<Entry>, k: nat, i: nat)
    requires Named(vqs, k, i)
    ensures Find(vqs, k) == i
  {
  }

  lemma SmallTotal(vqs: seq<Entry>)
    requires Few(vqs) && forall i :: 0 <= i < |vqs| ==> Sane(vqs[i])
    ensures 0 <= Sum(Weight, vqs) && TotalWeight(vqs, |vqs|) == Sum(Weight, vqs)
  {
    TotalIsSum(vqs, |vqs|);
    assert vqs[..|vqs|] == vqs;
    SumNonNegative(Weight, vqs);
  }

  /** A second queue of a class is refused; a new one has weight 1 and no cap, and all shares are given
      anew. */
  lemma InstallExactly(vqs: seq<Entry>, k: nat)
    requires Few(vqs + [NewEntry(k)]) && forall i :: 0 <= i < |vqs| ==> Sane(vqs[i])
    ensures if exists j :: 0 <= j < |vqs| && vqs[j].klass == k then Configured(vqs, Install(k)) == vqs
            else Given(vqs + [Entry(k, 1, false, 10)], Configured(vqs, Install(k)))
  {
    if exists j :: 0 <= j < |vqs| && vqs[j].klass == k {
    } else {
      SmallTotal(vqs + [NewEntry(k)]);
      CalculatedExactly(vqs + [NewEntry(k)]);
    }
    hide Calculated, Given;
  }

  /** A weight from 0 to 1024 is set and all shares given anew; any other is refused. */
  lemma SetWeightExactly(vqs: seq<Entry>, k: nat, w: int, i: nat)
    requires Few(vqs) && Named(vqs, k, i) && forall i :: 0 <= i < |vqs| ==> Sane(vqs[i])
    ensures if w < 0 || w > 1024 then Configured(vqs, SetWeight(k, w)) == vqs
            else Given(vqs[i := vqs[i].(weight := w)], Configured(vqs, SetWeight(k, w)))
  {
    NamedIsFound(vqs, k, i);
    if 0 <= w <= 1024 {
      SmallTotal(vqs[i := vqs[i].(weight := w)]);
      CalculatedExactly(vqs[i := vqs[i].(weight := w)]);
    }
    hide Calculated, Given, Find, Named;
  }

  /** A rate from 1 to 9000 becomes the queue's cap and nothing else changes; 0 lifts the cap and all shares
      are given anew; any other is refused. */
  lemma SetRateExactly(vqs: seq<Entry>, k: nat, r: int, i: nat)
    requires Few(vqs) && Named(vqs, k, i) && forall i :: 0 <= i < |vqs| ==> Sane(vqs[i])
    ensures var vqs' := Configured(vqs, SetRate(k, r));
            && (r < 0 || r > 9000 ==> vqs' == vqs)
            && (0 < r <= 9000 ==> vqs' == vqs[i := vqs[i].(isStatic := true, rate := r)])
            && (r == 0 ==> Given(vqs[i := vqs[i].(isStatic := false)], vqs'))
  {
    NamedIsFound(vqs, k, i);
    if r == 0 {
      SmallTotal(vqs[i := vqs[i].(isStatic := false)]);
      CalculatedExactly(vqs[i := vqs[i].(isStatic := false)]);
    }
    hide Calculated, Given, Find, Named;
  }

  /** A deleted queue is gone and the others stay as they are; calls that name no queue change nothing. */
  lemma DeleteExactly(vqs: seq<Entry>, k: nat, i: nat)
    requires Named(vqs, k, i)
    ensures Configured(vqs, Delete(k)) == vqs[..i] + vqs[i + 1..]
  {
    NamedIsFound(vqs, k, i);
  }

  lemma UnknownChangesNothing(vqs: seq<Entry>, c: Config)
    requires !c.Install? && forall j :: 0 <= j < |vqs| ==> vqs[j].klass != c.klass
    ensures Configured(vqs, c) == vqs
  {
  }
}
