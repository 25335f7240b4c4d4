/** A transmit class's per-destination states and rate limiters (tx.c): the free lists they are taken
    from, the tables they are put in, and the memory they occupy. */
module StateTables {
  import opened Params
  import opened Lists

  /** A `struct iso_per_dest_state` in its bucket, and a `struct iso_rl` in its own: newest first. */
  datatype State = State(id: nat, ip: nat, rl: Picked)
  datatype Hashed = Hashed(id: nat, ip: nat)

  /** `heapStates` and `heapRls` are the objects now allocated; `next` is one never used. */
  datatype Table = Table(
    count: int, freeStates: seq<nat>, freeRls: seq<nat>, live: seq<State>, rls: seq<Hashed>,
    heapStates: set<nat>, heapRls: set<nat>, next: nat)

  const EMPTY := Table(0, [], [], [], [], {}, {}, 0)

  function StateId(s: State): nat { s.id }

  function RlId(h: Hashed): nat { h.id }

  // ---- iso_pick_rl and iso_state_get ----

  /** What a walk that stops at the list head yields: the head itself, taken for an element. */
  datatype Picked = Rl(id: nat) | Sentinel

  function FindRl(rls: seq<Hashed>, ip: nat): nat { FirstWhere((h: Hashed) => h.ip == ip, rls) }

  /** `iso_pick_rl` */
  function PickRl(t: Table, ip: nat): (Table, Picked) {
    var i := FindRl(t.rls, ip);
    if i < |t.rls| then (t, Rl(t.rls[i].id))
    else if t.freeRls == [] then (t, Sentinel)
    else (t.(rls := [Hashed(t.freeRls[0], ip)] + t.rls, freeRls := t.freeRls[1..]), Rl(t.freeRls[0]))
  }

  /** Picking a limiter: the newest one hashed under the address if there is any, and then nothing moves;
      otherwise the first spare one, hashed under it; and the list head itself when none is spare. */
  lemma PickExactly(t: Table, ip: nat, i: nat)
    ensures i < |t.rls| && t.rls[i].ip == ip && (forall j :: 0 <= j < i ==> t.rls[j].ip != ip) ==>
              PickRl(t, ip) == (t, Rl(t.rls[i].id))
    ensures (forall j :: 0 <= j < |t.rls| ==> t.rls[j].ip != ip) ==>
              PickRl(t, ip) == if t.freeRls == [] then (t, Sentinel)
                               else (t.(rls := [Hashed(t.freeRls[0], ip)] + t.rls, freeRls := t.freeRls[1..]),
                                     Rl(t.freeRls[0]))
  {
    var f := FindRl(t.rls, ip);
    if i < |t.rls| && t.rls[i].ip == ip && (forall j :: 0 <= j < i ==> t.rls[j].ip != ip) {
      assert f == i;
    }
  }

  /** A lookup: the address, what the first walk found, whether the caller wants a state made, whether
      the lock is free, and what the second walk, under the lock, found. */
  datatype Query = Query(ip: nat, hit: Option<State>, create: bool, lock: bool, again: Option<State>)

  /** The second walk may report any state, but misses only when no state has the address. */
  ghost predicate Fit(t: Table, q: Query) {
    && (q.again.Some? ==> q.again.value in t.live)
    && (q.again.None? ==> forall i :: 0 <= i < |t.live| ==> t.live[i].ip != q.ip)
  }

  datatype Got = Null | Found(s: State) | Garbage

  /** The walk over the free list: it takes the first state, or runs off the end. */
  function Take(t: Table, ip: nat): (Table, Got) {
    if t.freeStates == [] then (t, Garbage)
    else
      var (t1, picked) := PickRl(t, ip);
      var s := State(t.freeStates[0], ip, picked);
      (t1.(live := [s] + t1.live, freeStates := t1.freeStates[1..], count := t1.count - 1), Found(s))
  }

  /** `iso_state_get` for an IP packet. */
  function Get(t: Table, q: Query): (Table, Got) {
    if q.hit.Some? then (t, Found(q.hit.value))
    else if !q.create || !q.lock then (t, Null)
    else if q.again.Some? then (t, Found(q.again.value))
    else Take(t, q.ip)
  }

  // ---- iso_txc_prealloc ----

  /** How far an iteration of the allocation loop gets. */
  datatype Luck = Both | NoState | NoStats | NoRl

  function AllocOne(t: Table): Table {
    t.(count := t.count + 1, freeStates := t.freeStates + [t.next], freeRls := t.freeRls + [t.next],
       heapStates := t.heapStates + {t.next}, heapRls := t.heapRls + {t.next}, next := t.next + 1)
  }

  /** `iso_txc_prealloc`: as many iterations as there is memory for. A failed one gives everything
      back, and ends the loop; its state used up an identity. */
  function Prealloc(t: Table, lucks: seq<Luck>): Table
    decreases |lucks|
  {
    if lucks == [] || lucks[0].NoState? then t
    else if lucks[0].Both? then Prealloc(AllocOne(t), lucks[1..])
    else t.(next := t.next + 1)
  }

  // ---- the invariant ----

  /** States and limiters pair up in order, by address, and no address occurs twice. */
  ghost predicate Matched(live: seq<State>, rls: seq<Hashed>) {
    && |live| == |rls|
    && (forall i :: 0 <= i < |live| ==> live[i].rl == Rl(rls[i].id) && live[i].ip == rls[i].ip)
    && (forall i, j :: 0 <= i < j < |live| ==> live[i].ip != live[j].ip)
  }

  /** The allocated objects are exactly those on a list, once each. */
  ghost predicate Booked(free: seq<nat>, used: seq<nat>, heap: set<nat>) {
    multiset(free) + multiset(used) == multiset(heap)
  }

  /** Equal free lists, matched tables, and nothing lost or listed twice. */
  ghost predicate Paired(t: Table) {
    && t.count == |t.freeStates| == |t.freeRls|
    && Matched(t.live, t.rls)
    && Booked(t.freeStates, Map(StateId, t.live), t.heapStates)
    && Booked(t.freeRls, Map(RlId, t.rls), t.heapRls)
    && (forall x :: x in t.heapStates || x in t.heapRls ==> x < t.next)
  }

  lemma MoveFirst(free: seq<nat>, used: seq<nat>, heap: set<nat>)
    requires free != [] && Booked(free, used, heap)
    ensures Booked(free[1..], [free[0]] + used, heap)
  {
    assert free == [free[0]] + free[1..];
    assert multiset([free[0]] + free[1..]) == multiset{free[0]} + multiset(free[1..]);
    assert multiset([free[0]] + used) == multiset{free[0]} + multiset(used);
  }

  lemma GrowHeap(free: seq<nat>, used: seq<nat>, heap: set<nat>, x: nat)
    requires Booked(free, used, heap) && x !in heap
    ensures Booked(free + [x], used, heap + {x})
  {
    assert multiset(free + [x]) == multiset(free) + multiset{x};
    assert multiset(heap + {x}) == multiset(heap) + multiset{x};
  }

  lemma MatchOneMore(live: seq<State>, rls: seq<Hashed>, s: State, h: Hashed)
    requires Matched(live, rls) && s.rl == Rl(h.id) && s.ip == h.ip
    requires forall i :: 0 <= i < |live| ==> live[i].ip != s.ip
    ensures Matched([s] + live, [h] + rls)
  {
  }

  lemma TakeForm(t: Table, ip: nat)
    requires Paired(t) && t.freeStates != [] && forall i :: 0 <= i < |t.live| ==> t.live[i].ip != ip
    ensures var s, h := State(t.freeStates[0], ip, Rl(t.freeRls[0])), Hashed(t.freeRls[0], ip);
            Take(t, ip) == (t.(live := [s] + t.live, rls := [h] + t.rls, freeStates := t.freeStates[1..],
                               freeRls := t.freeRls[1..], count := t.count - 1), Found(s))
  {
    hide Booked, Map;
    assert forall j :: 0 <= j < |t.rls| ==> t.live[j].ip == t.rls[j].ip;
  }

  /** A non-empty state list always supplies a limiter, so taking keeps the pairing. */
  lemma TakePaired(t: Table, ip: nat)
    requires Paired(t) && forall i :: 0 <= i < |t.live| ==> t.live[i].ip != ip
    ensures Paired(Take(t, ip).0)
    ensures Take(t, ip).1.Garbage? <==> t.freeStates == []
    ensures t.freeStates != [] ==>
              Take(t, ip).1.s.ip == ip && Take(t, ip).1.s.rl.Rl? && Take(t, ip).0.count == t.count - 1
  {
    if t.freeStates != [] {
      TakeForm(t, ip);
      MoveFirst(t.freeStates, Map(StateId, t.live), t.heapStates);
      MoveFirst(t.freeRls, Map(RlId, t.rls), t.heapRls);
      var s, h := State(t.freeStates[0], ip, Rl(t.freeRls[0])), Hashed(t.freeRls[0], ip);
      MatchOneMore(t.live, t.rls, s, h);
      assert ([s] + t.live)[1..] == t.live && ([h] + t.rls)[1..] == t.rls;
      assert Map(StateId, [s] + t.live) == [s.id] + Map(StateId, t.live);
      assert Map(RlId, [h] + t.rls) == [h.id] + Map(RlId, t.rls);
      hide Booked, Matched, Take, Map;
    }
  }

  /** What a lookup answers, and what it changes. A hit is returned. Without one a state is made only with the
      lock, for a caller that wants it, and if there still is none; it is then the first spare state with
      the first spare limiter, under the address looked up, and nothing else moves. Only with no spare
      left does it yield garbage. Whatever happens the pairing is kept. */
  lemma GetPaired(t: Table, q: Query)
    requires Paired(t) && Fit(t, q)
    ensures Paired(Get(t, q).0)
    ensures Get(t, q).1.Garbage? <==> q.hit.None? && q.create && q.lock && q.again.None? && t.freeStates == []
    ensures q.hit.Some? ==> Get(t, q) == (t, Found(q.hit.value))
    ensures q.hit.None? && (!q.create || !q.lock) ==> Get(t, q) == (t, Null)
    ensures q.hit.None? && q.create && q.lock && q.again.Some? ==> Get(t, q) == (t, Found(q.again.value))
    ensures q.hit.None? && q.create && q.lock && q.again.None? ==>
              if t.freeStates == [] then Get(t, q) == (t, Garbage)
              else && t.freeRls != []
                   && var s := State(t.freeStates[0], q.ip, Rl(t.freeRls[0]));
                   Get(t, q) == (t.(live := [s] + t.live, rls := [Hashed(t.freeRls[0], q.ip)] + t.rls,
                                    freeStates := t.freeStates[1..], freeRls := t.freeRls[1..], count := t.count - 1),
                                 Found(s))
  {
    if q.again.None? {
      TakePaired(t, q.ip);
      if t.freeStates != [] {
        TakeForm(t, q.ip);
      }
    }
    hide Booked, Matched, Map, PickRl;
  }

  /** A failed iteration leaves nothing but a used identity. */
  lemma SkipPaired(t: Table)
    requires Paired(t)
    ensures Paired(t.(next := t.next + 1))
  {
    hide Booked, Matched, Map;
  }

  lemma AllocPaired(t: Table)
    requires Paired(t)
    ensures Paired(AllocOne(t)) && AllocOne(t).count == t.count + 1
    ensures AllocOne(t).live == t.live && AllocOne(t).rls == t.rls
    ensures t.freeStates <= AllocOne(t).freeStates && t.freeRls <= AllocOne(t).freeRls
  {
    hide Map, Booked, Matched;
    GrowHeap(t.freeStates, Map(StateId, t.live), t.heapStates, t.next);
    GrowHeap(t.freeRls, Map(RlId, t.rls), t.heapRls, t.next);
  }

  /** How many iterations succeed. */
  function Made(lucks: seq<Luck>): nat { if lucks == [] || !lucks[0].Both? then 0 else 1 + Made(lucks[1..]) }

  lemma {:induction false} PreallocPaired(t: Table, lucks: seq<Luck>)
    requires Paired(t)
    ensures Paired(Prealloc(t, lucks))
    ensures Prealloc(t, lucks).count == t.count + Made(lucks)
    ensures Prealloc(t, lucks).live == t.live && Prealloc(t, lucks).rls == t.rls
    ensures t.freeStates <= Prealloc(t, lucks).freeStates && t.freeRls <= Prealloc(t, lucks).freeRls
    decreases |lucks|
  {
    hide Paired, AllocOne, Booked, Matched, Map;
    if lucks != [] {
      if lucks[0].Both? {
        AllocPaired(t);
        PreallocPaired(AllocOne(t), lucks[1..]);
      } else {
        SkipPaired(t);
      }
    }
  }

  datatype Event = Lookup(q: Query) | Refill(lucks: seq<Luck>)

  function Step(t: Table, e: Event): Table { if e.Lookup? then Get(t, e.q).0 else Prealloc(t, e.lucks) }

  ghost predicate FitRun(t: Table, es: seq<Event>)
    decreases |es|
  {
    es != [] ==> (es[0].Lookup? ==> Fit(t, es[0].q)) && FitRun(Step(t, es[0]), es[1..])
  }

  function Run(t: Table, es: seq<Event>): Table
    decreases |es|
  {
    if es == [] then t else Run(Step(t, es[0]), es[1..])
  }

  /** Over every run of lookups and allocations, whatever memory runs out: the count is the length of
      both free lists, live states and limiters stay paired by address with none shared, and no
      object is lost or listed twice. */
  lemma {:induction false} RunPaired(t: Table, es: seq<Event>)
    requires Paired(t) && FitRun(t, es)
    ensures Paired(Run(t, es))
    decreases |es|
  {
    if es != [] {
      if es[0].Lookup? { GetPaired(t, es[0].q); } else { PreallocPaired(t, es[0].lucks); }
      hide Paired, Step;
      RunPaired(Step(t, es[0]), es[1..]);
    }
  }

  /** The same from empty tables. */
  lemma LifetimePaired(es: seq<Event>)
    requires FitRun(EMPTY, es)
    ensures Paired(Run(EMPTY, es))
  {
    hide Run, FitRun;
    RunPaired(EMPTY, es);
  }

  lemma NoRepeat(a: seq<nat>, b: seq<nat>, heap: set<nat>, i: nat, j: nat)
    requires Booked(a, b, heap) && i < j < |b|
    ensures b[i] != b[j]
  {
    assert b == b[..j] + b[j..];
    assert multiset(b) == multiset(b[..j]) + multiset(b[j..]);
    assert b[i] in multiset(b[..j]) && b[j] in multiset(b[j..]) by {
      assert b[..j][i] == b[i] && b[j..][0] == b[j];
    }
    assert multiset(heap)[b[i]] <= 1;
  }

  /** No two live states share a limiter, and no state or limiter is in use and free at once. */
  lemma LimitersDistinct(t: Table, i: nat, j: nat)
    requires Paired(t) && i < j < |t.live|
    ensures t.live[i].rl != t.live[j].rl && t.live[i].id != t.live[j].id && t.live[i].ip != t.live[j].ip
  {
    NoRepeat(t.freeStates, Map(StateId, t.live), t.heapStates, i, j);
    NoRepeat(t.freeRls, Map(RlId, t.rls), t.heapRls, i, j);
  }

  // ---- freeing ----

  /** The object about to be freed is allocated, and freeing it leaves the books straight. */
  lemma FreeOne(ids: seq<nat>, rest: seq<nat>, heap: set<nat>)
    requires ids != [] && Booked(rest, ids, heap)
    ensures ids[0] in heap && Booked(rest, ids[1..], heap - {ids[0]})
  {
    assert ids == [ids[0]] + ids[1..];
    assert multiset(ids) == multiset{ids[0]} + multiset(ids[1..]);
    assert ids[0] in multiset(heap);
    assert multiset(heap - {ids[0]}) == multiset(heap) - multiset{ids[0]};
  }

  /** What has been freed and what is still allocated is what there was, once each. */
  ghost predicate Spent(freed: seq<nat>, heap: set<nat>, heap0: set<nat>) {
    multiset(freed) + multiset(heap) == multiset(heap0)
  }

  lemma SpendOne(freed: seq<nat>, heap: set<nat>, heap0: set<nat>, id: nat)
    requires Spent(freed, heap, heap0) && id in heap
    ensures Spent(freed + [id], heap - {id}, heap0)
  {
    assert multiset(freed + [id]) == multiset(freed) + multiset{id};
    assert multiset(heap - {id}) == multiset(heap) - multiset{id};
  }

  lemma NoneUsed(free: seq<nat>, heap: set<nat>)
    requires Booked(free, [], heap)
    ensures Booked([], free, heap)
  {
  }

  lemma NothingLeft(heap: set<nat>)
    requires Booked([], [], heap)
    ensures heap == {}
  {
    assert forall x :: x in heap ==> x in multiset(heap);
  }

  // ---- the object ----

  class TxcTables {
    var count: int
    var freeStates: seq<nat>
    var freeRls: seq<nat>
    var live: seq<State>
    var rls: seq<Hashed>
    var heapStates: set<nat>
    var heapRls: set<nat>
    var next: nat

    function View(): Table
      reads this
    {
      Table(count, freeStates, freeRls, live, rls, heapStates, heapRls, next)
    }

    /** `iso_txc_init` */
    constructor ()
      ensures View() == EMPTY
    {
      count, freeStates, freeRls, live, rls, heapStates, heapRls, next := 0, [], [], [], [], {}, {}, 0;
    }

    /** The bucket walk of `iso_pick_rl`. */
    method WalkRls(ip: nat) returns (i: nat)
      ensures i == FindRl(rls, ip)
    {
      i := 0;
      while i < |rls| && rls[i].ip != ip
        invariant i <= |rls|
        invariant forall j :: 0 <= j < i ==> rls[j].ip != ip
      {
        i := i + 1;
      }
    }

    /** `iso_pick_rl` */
    method Pick(ip: nat) returns (picked: Picked)
      modifies `rls, `freeRls
      ensures (View(), picked) == PickRl(old(View()), ip)
    {
      var i := WalkRls(ip);
      if i < |rls| {
        return Rl(rls[i].id);
      }
      if freeRls == [] {
        return Sentinel;
      }
      picked := Rl(freeRls[0]);
      rls := [Hashed(freeRls[0], ip)] + rls;
      freeRls := freeRls[1..];
    }

    /** The walk over the free states in `iso_state_get`. */
    method TakeFree(ip: nat) returns (got: Got)
      modifies this
      ensures (View(), got) == Take(old(View()), ip)
    {
      if freeStates == [] {
        return Garbage;
      }
      hide FindRl;
      var first := freeStates[0];
      var picked := Pick(ip);
      var s := State(first, ip, picked);
      live := [s] + live;
      freeStates := freeStates[1..];
      count := count - 1;
      got := Found(s);
    }

    /** `iso_state_get` */
    method StateGet(q: Query) returns (got: Got, work: bool)
      requires Paired(View()) && Fit(View(), q)
      modifies this
      ensures (View(), got) == Get(old(View()), q)
      ensures work <==> q.hit.None? && q.create && q.lock && q.again.None? && count <= 10
      ensures Paired(View())
    {
      GetPaired(View(), q);
      hide Paired, Booked, Matched, Fit, Take;
      work := false;
      if q.hit.Some? {
        return Found(q.hit.value), false;
      }
      if !q.create || !q.lock {
        return Null, false;
      }
      if q.again.Some? {
        return Found(q.again.value), false;
      }
      got := TakeFree(q.ip);
      work := count <= 10;
    }

    /** `iso_txc_prealloc`; `lucks` says what memory there is. */
    method Preallocate(lucks: seq<Luck>)
      requires forall x :: x in heapStates ==> x < next
      modifies this
      ensures View() == Prealloc(old(View()), lucks)
    {
      var i := 0;
      while i < |lucks|
        invariant i <= |lucks|
        invariant forall x :: x in heapStates ==> x < next
        invariant Prealloc(View(), lucks[i..]) == Prealloc(old(View()), lucks)
      {
        assert lucks[i..][1..] == lucks[i + 1..];
        if lucks[i].NoState? {
          return;
        }
        var state := next;
        heapStates := heapStates + {state};
        next := next + 1;
        if !lucks[i].Both? {
          heapStates := heapStates - {state};
          return;
        }
        heapRls := heapRls + {state};
        count := count + 1;
        freeStates := freeStates + [state];
        freeRls := freeRls + [state];
        i := i + 1;
      }
    }

    /** The limiter half of `iso_txc_free`: every limiter in a bucket, then every spare one. */
    method FreeRls() returns (freed: seq<nat>)
      requires Booked(freeRls, Map(RlId, rls), heapRls)
      modifies `rls, `freeRls, `heapRls
      ensures rls == [] && freeRls == [] && heapRls == {}
      ensures multiset(freed) == multiset(old(heapRls))
    {
      freed := [];
      hide Booked;
      while rls != []
        invariant Booked(freeRls, Map(RlId, rls), heapRls)
        invariant Spent(freed, heapRls, old(heapRls))
        decreases |rls|
      {
        var id := rls[0].id;
        FreeOne(Map(RlId, rls), freeRls, heapRls);
        SpendOne(freed, heapRls, old(heapRls), id);
        rls := rls[1..];
        heapRls := heapRls - {id};
        freed := freed + [id];
      }
      NoneUsed(freeRls, heapRls);
      while freeRls != []
        invariant rls == [] && Booked([], freeRls, heapRls)
        invariant Spent(freed, heapRls, old(heapRls))
        decreases |freeRls|
      {
        var id := freeRls[0];
        FreeOne(freeRls, [], heapRls);
        SpendOne(freed, heapRls, old(heapRls), id);
        freeRls := freeRls[1..];
        heapRls := heapRls - {id};
        freed := freed + [id];
      }
      NothingLeft(heapRls);
    }

    /** The state half. */
    method FreeStates() returns (freed: seq<nat>)
      requires Booked(freeStates, Map(StateId, live), heapStates)
      modifies `live, `freeStates, `heapStates
      ensures live == [] && freeStates == [] && heapStates == {}
      ensures multiset(freed) == multiset(old(heapStates))
    {
      freed := [];
      hide Booked;
      while live != []
        invariant Booked(freeStates, Map(StateId, live), heapStates)
        invariant Spent(freed, heapStates, old(heapStates))
        decreases |live|
      {
        var id := live[0].id;
        FreeOne(Map(StateId, live), freeStates, heapStates);
        SpendOne(freed, heapStates, old(heapStates), id);
        live := live[1..];
        heapStates := heapStates - {id};
        freed := freed + [id];
      }
      NoneUsed(freeStates, heapStates);
      while freeStates != []
        invariant live == [] && Booked([], freeStates, heapStates)
        invariant Spent(freed, heapStates, old(heapStates))
        decreases |freeStates|
      {
        var id := freeStates[0];
        FreeOne(freeStates, [], heapStates);
        SpendOne(freed, heapStates, old(heapStates), id);
        freeStates := freeStates[1..];
        heapStates := heapStates - {id};
        freed := freed + [id];
      }
      NothingLeft(heapStates);
    }

    /** `iso_txc_free`: every allocated object is freed exactly once, and none is left. */
    method FreeAll() returns (freedRls: seq<nat>, freedStates: seq<nat>)
      requires Paired(View())
      modifies this
      ensures heapStates == {} && heapRls == {}
      ensures multiset(freedRls) == multiset(old(heapRls)) && multiset(freedStates) == multiset(old(heapStates))
    {
      hide Booked, Matched;
      freedRls := FreeRls();
      freedStates := FreeStates();
    }
  }
}
