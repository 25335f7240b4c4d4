/** Who may free a virtual queue (params.c, tx.c, vq.c): reference counts, the lookups that hand out
    pointers, and the two orders a device can be torn down in. */
module VqRefs {
  import opened Params
  import opened Lists
  import opened Sums

  /** A transmit class in the hash table and the queue it points at. */
  datatype Class = Class(klass: nat, vq: Option<nat>)

  /** A hash bucket entry of the receive side; deleting a queue does not remove it. */
  datatype Slot = Slot(klass: nat, id: nat)

  /** `vqs` maps each allocated queue to its refcnt; `listed` is vq_list. `deleted` is the queues
      deleted so far (history). */
  datatype Refs = Refs(
    vqs: map<nat, int>, listed: seq<nat>, bucket: seq<Slot>, txcs: seq<Class>, next: nat, deleted: set<nat>)

  const EMPTY := Refs(map[], [], [], [], 0, {})

  function FindTxc(txcs: seq<Class>, k: nat): (i: int)
    ensures -1 <= i < |txcs|
    ensures i >= 0 ==> txcs[i].klass == k
    ensures forall j :: i < j < |txcs| ==> txcs[j].klass != k
  {
    LastWhere((c: Class) => c.klass == k, txcs)
  }

  /** `iso_vq_find` */
  function FindVq(bucket: seq<Slot>, k: nat): (r: Option<nat>)
    ensures r.Some? ==> Slot(k, r.value) in bucket
    ensures r.None? ==> forall i :: 0 <= i < |bucket| ==> bucket[i].klass != k
  {
    if bucket == [] then None else if bucket[0].klass == k then Some(bucket[0].id) else FindVq(bucket[1..], k)
  }

  function Added(vqs: map<nat, int>, p: Option<nat>, d: int): map<nat, int> {
    if p.Some? && p.value in vqs then vqs[p.value := vqs[p.value] + d] else vqs
  }

  function Without(s: seq<nat>, x: nat): seq<nat> {
    if s == [] then [] else if s[0] == x then s[1..] else [s[0]] + Without(s[1..], x)
  }

  // ---- the configuration calls ----

  datatype Call =
    | CreateVq(klass: nat)
    | CreateTxc(klass: nat)
    | Associate(txc: nat, vqc: nat)
    | DeleteTxc(klass: nat)
    | DeleteVq(klass: nat)

  /** `iso_vq_free` */
  function Freed(vqs: map<nat, int>, listed: seq<nat>, id: nat): (map<nat, int>, seq<nat>)
    requires id in vqs
  {
    if vqs[id] > 0 then (vqs, listed) else (vqs - {id}, Without(listed, id))
  }

  /** Errors change nothing. */
  function Called(r: Refs, c: Call): Refs {
    match c
    case CreateVq(k) =>
      if FindVq(r.bucket, k).Some? then r
      else r.(vqs := r.vqs[r.next := 0], listed := r.listed + [r.next], bucket := [Slot(k, r.next)] + r.bucket,
              next := r.next + 1)
    case CreateTxc(k) =>
      if FindTxc(r.txcs, k) >= 0 then r else r.(txcs := r.txcs + [Class(k, None)])
    case Associate(t, q) =>
      var i, vq := FindTxc(r.txcs, t), FindVq(r.bucket, q);
      if i < 0 || vq.None? then r
      else r.(vqs := Added(Added(r.vqs, r.txcs[i].vq, -1), vq, 1), txcs := r.txcs[i := r.txcs[i].(vq := vq)])
    case DeleteTxc(k) =>
      var i := FindTxc(r.txcs, k);
      if i < 0 then r else r.(vqs := Added(r.vqs, r.txcs[i].vq, -1), txcs := r.txcs[..i] + r.txcs[i + 1..])
    case DeleteVq(k) =>
      var vq := FindVq(r.bucket, k);
      if vq.None? || vq.value !in r.vqs || r.vqs[vq.value] > 0 then r
      else
        var (vqs, listed) := Freed(r.vqs, r.listed, vq.value);
        r.(vqs := vqs, listed := listed, deleted := r.deleted + {vq.value})
  }

  /** The class's queue was deleted, but its bucket entry is still there. */
  predicate Dangles(r: Refs, k: nat) { FindVq(r.bucket, k).Some? && FindVq(r.bucket, k).value in r.deleted }

  /** Calls name no class whose queue was deleted. */
  predicate Ready(r: Refs, c: Call) {
    match c
    case Associate(_, q) => !Dangles(r, q)
    case DeleteVq(k) => !Dangles(r, k)
    case _ => true
  }

  // ---- the invariant ----

  function Points(id: nat): Class -> int { (c: Class) => if c.vq == Some(id) then 1 else 0 }

  function RefsTo(id: nat, txcs: seq<Class>): int { Sum(Points(id), txcs) }

  /** Every refcnt is the number of classes pointing at the queue, and no class points elsewhere. */
  ghost predicate Counted(vqs: map<nat, int>, txcs: seq<Class>) {
    && (forall id :: id in vqs ==> vqs[id] == RefsTo(id, txcs))
    && (forall i :: 0 <= i < |txcs| && txcs[i].vq.Some? ==> txcs[i].vq.value in vqs)
  }

  /** The list holds exactly the allocated queues, once each. */
  ghost predicate Listed(vqs: map<nat, int>, listed: seq<nat>) { multiset(listed) == multiset(vqs.Keys) }

  /** A bucket entry leads to an allocated queue unless that queue was deleted. */
  ghost predicate SlotOk(s: Slot, r: Refs) { s.id < r.next && (s.id in r.vqs <==> s.id !in r.deleted) }

  ghost predicate Hashed(r: Refs) {
    && (forall i :: 0 <= i < |r.bucket| ==> SlotOk(r.bucket[i], r))
    && (forall id :: id in r.vqs || id in r.deleted ==> id < r.next)
  }

  ghost predicate Valid(r: Refs) { Counted(r.vqs, r.txcs) && Listed(r.vqs, r.listed) && Hashed(r) }

  // ---- counting ----

  lemma RepointCounted(vqs: map<nat, int>, txcs: seq<Class>, i: nat, vq: Option<nat>)
    requires Counted(vqs, txcs) && i < |txcs| && vq.Some? && vq.value in vqs
    ensures Counted(Added(Added(vqs, txcs[i].vq, -1), vq, 1), txcs[i := txcs[i].(vq := vq)])
  {
    var vqs' := Added(Added(vqs, txcs[i].vq, -1), vq, 1);
    var c := txcs[i].(vq := vq);
    forall id | id in vqs' ensures vqs'[id] == RefsTo(id, txcs[i := c]) {
      SumUpdate(Points(id), txcs, i, c);
    }
  }

  lemma DropCounted(vqs: map<nat, int>, txcs: seq<Class>, i: nat)
    requires Counted(vqs, txcs) && i < |txcs|
    ensures Counted(Added(vqs, txcs[i].vq, -1), txcs[..i] + txcs[i + 1..])
  {
    var vqs' := Added(vqs, txcs[i].vq, -1);
    var rest := txcs[..i] + txcs[i + 1..];
    forall id | id in vqs' ensures vqs'[id] == RefsTo(id, rest) {
      SumRemove(Points(id), txcs, i);
    }
    forall j | 0 <= j < |rest| && rest[j].vq.Some? ensures rest[j].vq.value in vqs' {
      assert rest[j] == txcs[if j < i then j else j + 1];
    }
  }

  lemma {:induction false} AllZero(txcs: seq<Class>)
    ensures Sum((c: Class) => 0, txcs) == 0
    decreases |txcs|
  {
    if txcs != [] { AllZero(txcs[..|txcs| - 1]); }
  }

  lemma NoPointerNoRef(id: nat, txcs: seq<Class>)
    requires forall i :: 0 <= i < |txcs| ==> txcs[i].vq != Some(id)
    ensures RefsTo(id, txcs) == 0
  {
    SumSame(Points(id), txcs, (c: Class) => 0, txcs);
    AllZero(txcs);
  }

  lemma PointerIsRef(id: nat, txcs: seq<Class>, i: nat)
    requires i < |txcs| && txcs[i].vq == Some(id)
    ensures RefsTo(id, txcs) >= 1
  {
    MemberBelowSum(Points(id), txcs, i);
  }

  lemma CreateCounted(vqs: map<nat, int>, txcs: seq<Class>, id: nat)
    requires Counted(vqs, txcs) && id !in vqs
    ensures Counted(vqs[id := 0], txcs)
  {
    NoPointerNoRef(id, txcs);
    hide RefsTo;
  }

  lemma InstallCounted(vqs: map<nat, int>, txcs: seq<Class>, k: nat)
    requires Counted(vqs, txcs)
    ensures Counted(vqs, txcs + [Class(k, None)])
  {
    forall id | id in vqs ensures vqs[id] == RefsTo(id, txcs + [Class(k, None)]) {
      SumAppend(Points(id), txcs, Class(k, None));
    }
  }

  /** A queue with refcnt zero is one nobody points at, so freeing it leaves no dangling pointer. */
  lemma FreeCounted(vqs: map<nat, int>, txcs: seq<Class>, id: nat)
    requires Counted(vqs, txcs) && id in vqs && vqs[id] <= 0
    ensures Counted(vqs - {id}, txcs)
    ensures forall i :: 0 <= i < |txcs| ==> txcs[i].vq != Some(id)
  {
    forall i | 0 <= i < |txcs| ensures txcs[i].vq != Some(id) {
      if txcs[i].vq == Some(id) { PointerIsRef(id, txcs, i); }
    }
    hide RefsTo;
  }

  // ---- the list ----

  lemma {:induction false} WithoutListed(s: seq<nat>, x: nat)
    requires x in s
    ensures multiset(Without(s, x)) == multiset(s) - multiset{x}
    decreases |s|
  {
    assert s == [s[0]] + s[1..];
    assert multiset(s) == multiset{s[0]} + multiset(s[1..]);
    if s[0] != x {
      WithoutListed(s[1..], x);
    }
  }

  lemma FreeListed(vqs: map<nat, int>, listed: seq<nat>, id: nat)
    requires Listed(vqs, listed) && id in vqs
    ensures Listed(vqs - {id}, Without(listed, id))
  {
    assert id in multiset(vqs.Keys);
    WithoutListed(listed, id);
    assert (vqs - {id}).Keys == vqs.Keys - {id};
    assert multiset(vqs.Keys - {id}) == multiset(vqs.Keys) - multiset{id};
  }

  lemma CreateListed(vqs: map<nat, int>, listed: seq<nat>, id: nat)
    requires Listed(vqs, listed) && id !in vqs
    ensures Listed(vqs[id := 0], listed + [id])
  {
    assert vqs[id := 0].Keys == vqs.Keys + {id};
    assert multiset(vqs.Keys + {id}) == multiset(vqs.Keys) + multiset{id};
  }

  lemma SameKeysListed(vqs: map<nat, int>, vqs': map<nat, int>, listed: seq<nat>)
    requires Listed(vqs, listed) && vqs'.Keys == vqs.Keys
    ensures Listed(vqs', listed)
  {
  }

  // ---- every call ----

  lemma AddedKeys(vqs: map<nat, int>, p: Option<nat>, d: int)
    ensures Added(vqs, p, d).Keys == vqs.Keys
  {
  }

  lemma CreateVqHashed(r: Refs, k: nat)
    requires Hashed(r) && FindVq(r.bucket, k).None?
    ensures Hashed(Called(r, CreateVq(k)))
  {
    var r' := Called(r, CreateVq(k));
    hide FindVq;
    forall i | 0 < i < |r'.bucket| ensures SlotOk(r'.bucket[i], r') {
      assert SlotOk(r.bucket[i - 1], r);
    }
  }

  lemma SameKeysHashed(r: Refs, vqs: map<nat, int>, listed: seq<nat>, txcs: seq<Class>)
    requires Hashed(r) && vqs.Keys == r.vqs.Keys
    ensures Hashed(r.(vqs := vqs, listed := listed, txcs := txcs))
  {
    forall i | 0 <= i < |r.bucket| ensures SlotOk(r.bucket[i], r.(vqs := vqs, listed := listed, txcs := txcs)) {
      assert SlotOk(r.bucket[i], r);
    }
  }

  lemma DeleteVqHashed(r: Refs, id: nat)
    requires Hashed(r) && id in r.vqs
    ensures Hashed(r.(vqs := r.vqs - {id}, deleted := r.deleted + {id}))
  {
    forall i | 0 <= i < |r.bucket| ensures SlotOk(r.bucket[i], r.(vqs := r.vqs - {id}, deleted := r.deleted + {id})) {
      assert SlotOk(r.bucket[i], r);
    }
  }

  lemma FoundAllocated(r: Refs, k: nat)
    requires Hashed(r) && FindVq(r.bucket, k).Some?
    ensures FindVq(r.bucket, k).value in r.vqs <==> !Dangles(r, k)
  {
    var i :| 0 <= i < |r.bucket| && r.bucket[i] == Slot(k, FindVq(r.bucket, k).value);
    assert SlotOk(r.bucket[i], r);
  }

  lemma AssociateValid(r: Refs, t: nat, q: nat)
    requires Valid(r) && !Dangles(r, q)
    ensures Valid(Called(r, Associate(t, q)))
  {
    var i, vq := FindTxc(r.txcs, t), FindVq(r.bucket, q);
    if i >= 0 && vq.Some? {
      FoundAllocated(r, q);
      var vqs1 := Added(r.vqs, r.txcs[i].vq, -1);
      var vqs2 := Added(vqs1, vq, 1);
      RepointCounted(r.vqs, r.txcs, i, vq);
      AddedKeys(r.vqs, r.txcs[i].vq, -1);
      AddedKeys(vqs1, vq, 1);
      SameKeysListed(r.vqs, vqs2, r.listed);
      SameKeysHashed(r, vqs2, r.listed, r.txcs[i := r.txcs[i].(vq := vq)]);
      hide Counted, Listed, Hashed, Added;
    }
  }

  lemma DeleteVqValid(r: Refs, k: nat)
    requires Valid(r)
    ensures Valid(Called(r, DeleteVq(k)))
  {
    var vq := FindVq(r.bucket, k);
    if vq.Some? && vq.value in r.vqs && r.vqs[vq.value] <= 0 {
      FreeCounted(r.vqs, r.txcs, vq.value);
      FreeListed(r.vqs, r.listed, vq.value);
      DeleteVqHashed(r, vq.value);
      var r1 := r.(vqs := r.vqs - {vq.value}, deleted := r.deleted + {vq.value});
      SameKeysHashed(r1, r1.vqs, Without(r.listed, vq.value), r.txcs);
      hide Counted, Listed, FindVq, Hashed;
    }
  }

  lemma CallValid(r: Refs, c: Call)
    requires Valid(r) && Ready(r, c)
    ensures Valid(Called(r, c))
  {
    match c
    case CreateVq(k) =>
      if FindVq(r.bucket, k).None? {
        CreateCounted(r.vqs, r.txcs, r.next);
        CreateListed(r.vqs, r.listed, r.next);
        CreateVqHashed(r, k);
        hide Counted, Listed, Hashed;
      }
    case CreateTxc(k) =>
      InstallCounted(r.vqs, r.txcs, k);
      SameKeysHashed(r, r.vqs, r.listed, r.txcs + [Class(k, None)]);
      hide Counted, Listed, Hashed;
    case Associate(t, q) => AssociateValid(r, t, q);
    case DeleteTxc(k) =>
      var i := FindTxc(r.txcs, k);
      if i >= 0 {
        var vqs := Added(r.vqs, r.txcs[i].vq, -1);
        DropCounted(r.vqs, r.txcs, i);
        AddedKeys(r.vqs, r.txcs[i].vq, -1);
        SameKeysListed(r.vqs, vqs, r.listed);
        SameKeysHashed(r, vqs, r.listed, r.txcs[..i] + r.txcs[i + 1..]);
        hide Counted, Listed, Hashed, Added;
      }
    case DeleteVq(k) => DeleteVqValid(r, k);
  }

  function Run(r: Refs, cs: seq<Call>): Refs
    decreases |cs|
  {
    if cs == [] then r else Run(Called(r, cs[0]), cs[1..])
  }

  predicate ReadyRun(r: Refs, cs: seq<Call>)
    decreases |cs|
  {
    cs != [] ==> Ready(r, cs[0]) && ReadyRun(Called(r, cs[0]), cs[1..])
  }

  /** On every run of configuration calls each refcnt equals the number of classes pointing at that
      queue, so every class points at an allocated queue: none is freed while referenced. */
  lemma {:induction false} RunValid(r: Refs, cs: seq<Call>)
    requires Valid(r) && ReadyRun(r, cs)
    ensures Valid(Run(r, cs))
    decreases |cs|
  {
    if cs != [] {
      CallValid(r, cs[0]);
      hide Valid, Called, Ready;
      RunValid(Called(r, cs[0]), cs[1..]);
    }
  }

  lemma FrontKeeps(s: Slot, bucket: seq<Slot>, k: nat)
    requires s.klass != k
    ensures FindVq([s] + bucket, k) == FindVq(bucket, k)
  {
    assert ([s] + bucket)[1..] == bucket;
  }

  lemma CallKeepsLookup(r: Refs, c: Call, k: nat)
    requires FindVq(r.bucket, k).Some?
    ensures FindVq(Called(r, c).bucket, k) == FindVq(r.bucket, k)
    ensures r.deleted <= Called(r, c).deleted
  {
    if c.CreateVq? && FindVq(r.bucket, c.klass).None? {
      FrontKeeps(Slot(c.klass, r.next), r.bucket, k);
    }
  }

  /** A class's lookup never changes once it has a queue, on any run; it yields an allocated queue if
      and only if that queue was never deleted, so after a deletion it dangles for good. */
  lemma {:induction false} LookupStays(r: Refs, cs: seq<Call>, k: nat)
    requires Valid(r) && ReadyRun(r, cs) && FindVq(r.bucket, k).Some?
    ensures var r' := Run(r, cs);
            && FindVq(r'.bucket, k) == FindVq(r.bucket, k)
            && (FindVq(r'.bucket, k).value in r'.vqs <==> FindVq(r.bucket, k).value !in r'.deleted)
            && r.deleted <= r'.deleted
    decreases |cs|
  {
    if cs == [] {
      FoundAllocated(r, k);
    } else {
      CallKeepsLookup(r, cs[0], k);
      CallValid(r, cs[0]);
      hide Called, Valid, Ready;
      LookupStays(Called(r, cs[0]), cs[1..], k);
    }
  }

  // ---- teardown ----

  /** `iso_tx_exit`: every class in the hash table is freed and lets go of its queue. */
  function TxExit(r: Refs): Refs
    decreases |r.txcs|
  {
    if r.txcs == [] then r else TxExit(r.(vqs := Added(r.vqs, r.txcs[0].vq, -1), txcs := r.txcs[1..]))
  }

  /** `iso_vqs_exit`: each listed queue is unlisted and freed, or kept if it is referenced. */
  function FreeEach(vqs: map<nat, int>, listed: seq<nat>, ids: seq<nat>): (map<nat, int>, seq<nat>)
    decreases |ids|
  {
    if ids == [] then (vqs, listed)
    else
      var (vqs1, listed1) := if ids[0] in vqs then Freed(vqs, listed, ids[0]) else (vqs, listed);
      FreeEach(vqs1, listed1, ids[1..])
  }

  function VqsExit(r: Refs): Refs {
    var (vqs, listed) := FreeEach(r.vqs, r.listed, r.listed);
    r.(vqs := vqs, listed := listed)
  }

  /** Exactly the queues on the list with refcnt zero are freed. */
  lemma {:induction false} FreeEachExactly(vqs: map<nat, int>, listed: seq<nat>, ids: seq<nat>, id: nat)
    ensures var vqs' := FreeEach(vqs, listed, ids).0;
            && (id in vqs' <==> id in vqs && (id in ids ==> vqs[id] > 0))
            && (id in vqs' ==> vqs'[id] == vqs[id])
    decreases |ids|
  {
    if ids != [] {
      var (vqs1, listed1) := if ids[0] in vqs then Freed(vqs, listed, ids[0]) else (vqs, listed);
      FreeEachExactly(vqs1, listed1, ids[1..], id);
      assert id in ids <==> id == ids[0] || id in ids[1..];
    }
  }

  /** The list keeps naming exactly what is allocated. */
  lemma {:induction false} FreeEachListed(vqs: map<nat, int>, listed: seq<nat>, ids: seq<nat>)
    requires Listed(vqs, listed)
    ensures var (vqs', listed') := FreeEach(vqs, listed, ids); Listed(vqs', listed')
    decreases |ids|
  {
    hide Listed;
    if ids != [] {
      if ids[0] in vqs && vqs[ids[0]] <= 0 {
        FreeListed(vqs, listed, ids[0]);
      }
      var (vqs1, listed1) := if ids[0] in vqs then Freed(vqs, listed, ids[0]) else (vqs, listed);
      FreeEachListed(vqs1, listed1, ids[1..]);
    }
  }

  lemma {:induction false} TxExitCounted(r: Refs)
    requires Counted(r.vqs, r.txcs)
    ensures var r' := TxExit(r);
            r'.txcs == [] && r'.vqs.Keys == r.vqs.Keys && r'.listed == r.listed && Counted(r'.vqs, [])
    decreases |r.txcs|
  {
    hide Counted, Added;
    if r.txcs != [] {
      var vqs := Added(r.vqs, r.txcs[0].vq, -1);
      DropCounted(r.vqs, r.txcs, 0);
      assert r.txcs[..0] + r.txcs[1..] == r.txcs[1..];
      AddedKeys(r.vqs, r.txcs[0].vq, -1);
      TxExitCounted(r.(vqs := vqs, txcs := r.txcs[1..]));
    }
  }

  lemma NothingListed(listed: seq<nat>)
    requires Listed(map[], listed)
    ensures listed == []
  {
    assert |multiset(listed)| == |listed|;
  }

  /** Transmit then receive, as the device does it: every queue is freed and unlisted. */
  lemma TeardownFreesAll(r: Refs)
    requires Valid(r)
    ensures VqsExit(TxExit(r)).vqs == map[] && VqsExit(TxExit(r)).listed == []
  {
    var r' := TxExit(r);
    TxExitCounted(r);
    forall id ensures id !in FreeEach(r'.vqs, r'.listed, r'.listed).0 {
      FreeEachExactly(r'.vqs, r'.listed, r'.listed, id);
      assert id in r'.vqs ==> id in multiset(r.vqs.Keys);
      assert id in r'.vqs ==> r'.vqs[id] == RefsTo(id, []);
    }
    FreeEachListed(r'.vqs, r'.listed, r'.listed);
    assert FreeEach(r'.vqs, r'.listed, r'.listed).0 == map[];
    NothingListed(FreeEach(r'.vqs, r'.listed, r'.listed).1);
  }

  lemma {:induction false} TxExitKeys(r: Refs)
    ensures TxExit(r).vqs.Keys == r.vqs.Keys
    decreases |r.txcs|
  {
    if r.txcs != [] {
      AddedKeys(r.vqs, r.txcs[0].vq, -1);
      TxExitKeys(r.(vqs := Added(r.vqs, r.txcs[0].vq, -1), txcs := r.txcs[1..]));
    }
  }

  /** Receive then transmit would leave exactly the queues that classes pointed at. */
  lemma ReverseTeardownLeaks(r: Refs, id: nat)
    requires Valid(r)
    ensures id in TxExit(VqsExit(r)).vqs <==> exists i :: 0 <= i < |r.txcs| && r.txcs[i].vq == Some(id)
  {
    var r' := VqsExit(r);
    FreeEachExactly(r.vqs, r.listed, r.listed, id);
    assert id in r.vqs ==> id in r.listed by { assert id in r.vqs ==> id in multiset(r.vqs.Keys); }
    forall i | 0 <= i < |r.txcs| && r.txcs[i].vq == Some(id) ensures id in r.vqs && r.vqs[id] >= 1 {
      PointerIsRef(id, r.txcs, i);
    }
    if id in r.vqs && forall i :: 0 <= i < |r.txcs| ==> r.txcs[i].vq != Some(id) {
      NoPointerNoRef(id, r.txcs);
    }
    TxExitKeys(r');
  }

  /** Whatever was configured since boot, counts are exact and a teardown leaves no queue. */
  lemma LifetimeValid(cs: seq<Call>)
    requires ReadyRun(EMPTY, cs)
    ensures Valid(Run(EMPTY, cs))
    ensures VqsExit(TxExit(Run(EMPTY, cs))).vqs == map[]
  {
    hide Run, ReadyRun, VqsExit, TxExit;
    RunValid(EMPTY, cs);
    TeardownFreesAll(Run(EMPTY, cs));
  }

  // ---- the object ----

  class VqTable {
    var vqs: map<nat, int>
    var listed: seq<nat>
    var bucket: seq<Slot>
    var txcs: seq<Class>
    var next: nat
    var deleted: set<nat>

    function View(): Refs
      reads this
    {
      Refs(vqs, listed, bucket, txcs, next, deleted)
    }

    constructor ()
      ensures View() == EMPTY
    {
      vqs, listed, bucket, txcs, next, deleted := map[], [], [], [], 0, {};
    }

    /** The bucket walk of `iso_vq_find`. */
    method Find(k: nat) returns (r: Option<nat>)
      ensures r == FindVq(bucket, k)
    {
      var i := 0;
      while i < |bucket|
        invariant i <= |bucket|
        invariant FindVq(bucket, k) == FindVq(bucket[i..], k)
      {
        if bucket[i].klass == k {
          return Some(bucket[i].id);
        }
        assert bucket[i..][1..] == bucket[i + 1..];
        i := i + 1;
      }
      return None;
    }

    /** `atomic_dec` and `atomic_inc` on a queue's refcnt. */
    method Bump(id: nat, d: int)
      requires id in vqs
      modifies `vqs
      ensures vqs == Added(old(vqs), Some(id), d)
    {
      vqs := vqs[id := vqs[id] + d];
    }

    /** `iso_vq_install` and `iso_vq_alloc` */
    method InstallVq(k: nat)
      requires Valid(View())
      modifies this
      ensures View() == Called(old(View()), CreateVq(k)) && Valid(View())
    {
      hide Valid, Counted, Listed, Hashed;
      CallValid(View(), CreateVq(k));
      var vq := Find(k);
      if vq.None? {
        vqs := vqs[next := 0];
        listed := listed + [next];
        bucket := [Slot(k, next)] + bucket;
        next := next + 1;
      }
    }

    /** `iso_txc_free` lets go of the class's queue. */
    method ReleaseTxc(k: nat)
      requires Valid(View())
      modifies this
      ensures View() == Called(old(View()), DeleteTxc(k)) && Valid(View())
    {
      CallValid(View(), DeleteTxc(k));
      var i := FindTxc(txcs, k);
      if i >= 0 {
        hide Valid, Listed, Hashed, RefsTo;
        if txcs[i].vq.Some? {
          Bump(txcs[i].vq.value, -1);
        }
        txcs := txcs[..i] + txcs[i + 1..];
      }
    }

    /** The two counts and the pointer that an association changes. */
    method Repoint(i: nat, id: nat)
      requires i < |txcs| && id in vqs && (txcs[i].vq.Some? ==> txcs[i].vq.value in vqs)
      modifies `vqs, `txcs
      ensures vqs == Added(Added(old(vqs), old(txcs)[i].vq, -1), Some(id), 1)
      ensures txcs == old(txcs)[i := old(txcs)[i].(vq := Some(id))]
    {
      if txcs[i].vq.Some? {
        Bump(txcs[i].vq.value, -1);
      }
      txcs := txcs[i := txcs[i].(vq := Some(id))];
      Bump(id, 1);
    }

    /** `iso_sys_assoc_txc_vq` */
    method AssociateTxcVq(t: nat, q: nat)
      requires Valid(View()) && !Dangles(View(), q)
      modifies this
      ensures View() == Called(old(View()), Associate(t, q)) && Valid(View())
    {
      AssociateValid(View(), t, q);
      var i := FindTxc(txcs, t);
      var vq := Find(q);
      if i >= 0 && vq.Some? {
        FoundAllocated(View(), q);
        hide Valid, Hashed, Listed, Added, FindVq, RefsTo;
        Repoint(i, vq.value);
      }
    }

    /** `iso_vq_free` */
    method FreeVq(id: nat)
      requires id in vqs
      modifies `vqs, `listed
      ensures (vqs, listed) == Freed(old(vqs), old(listed), id)
    {
      if vqs[id] > 0 {
        return;
      }
      listed := Without(listed, id);
      vqs := vqs - {id};
    }

    /** `iso_sys_delete_vq` */
    method DeleteVq(k: nat) returns (ok: bool)
      requires Valid(View()) && !Dangles(View(), k)
      modifies this
      ensures View() == Called(old(View()), Call.DeleteVq(k)) && Valid(View())
      ensures ok <==> FindVq(bucket, k).Some? && FindVq(bucket, k).value !in vqs
    {
      DeleteVqValid(View(), k);
      var vq := Find(k);
      if vq.None? {
        return false;
      }
      FoundAllocated(View(), k);
      hide Valid, Hashed, Listed, Counted, FindVq;
      if vqs[vq.value] > 0 {
        return false;
      }
      FreeVq(vq.value);
      deleted := deleted + {vq.value};
      ok := true;
    }

    /** `iso_tx_exit`: free every class. */
    method ExitTx()
      requires Valid(View())
      modifies `vqs, `txcs
      ensures View() == TxExit(old(View()))
    {
      hide Listed, Hashed, RefsTo;
      while txcs != []
        invariant Counted(vqs, txcs)
        invariant TxExit(View()) == TxExit(old(View()))
        invariant View() == old(View()).(vqs := vqs, txcs := txcs)
        decreases |txcs|
      {
        DropCounted(vqs, txcs, 0);
        assert txcs[..0] + txcs[1..] == txcs[1..];
        if txcs[0].vq.Some? {
          Bump(txcs[0].vq.value, -1);
        }
        txcs := txcs[1..];
      }
    }

    /** `iso_vqs_exit`: try to free every queue. */
    method ExitVqs()
      modifies `vqs, `listed
      ensures View() == VqsExit(old(View()))
    {
      var ids := listed;
      for i := 0 to |ids|
        invariant FreeEach(vqs, listed, ids[i..]) == FreeEach(old(vqs), old(listed), ids)
      {
        assert ids[i..][1..] == ids[i + 1..];
        if ids[i] in vqs {
          FreeVq(ids[i]);
        }
      }
      assert ids[|ids|..] == [];
    }

    /** The device's own order, transmit side first: no queue is left. */
    method Destroy()
      requires Valid(View())
      modifies `vqs, `txcs, `listed
      ensures vqs == map[] && txcs == [] && listed == []
    {
      TeardownFreesAll(View());
      TxExitCounted(View());
      ExitTx();
      ExitVqs();
    }
  }
}
