/** What each configuration call does to classes, virtual queues and the pointers between them. The counts are
    then what `VqRefs.CallValid` says they are. */
module RefLaws {
  import opened Params
  import opened VqRefs

  /** The class a call names. */
  ghost predicate NamedTxc(r: Refs, k: nat, i: nat) {
    i < |r.txcs| && r.txcs[i].klass == k && forall j :: i < j < |r.txcs| ==> r.txcs[j].klass != k
  }

  /** The queue a call names: that of the newest bucket entry of the class. */
  ghost predicate NamedVq(r: Refs, k: nat, id: nat) {
    exists i :: 0 <= i < |r.bucket| && r.bucket[i] == Slot(k, id) && forall j :: 0 <= j < i ==> r.bucket[j].klass != k
  }

  ghost predicate NoTxc(r: Refs, k: nat) { forall j :: 0 <= j < |r.txcs| ==> r.txcs[j].klass != k }

  ghost predicate NoVq(r: Refs, k: nat) { forall j :: 0 <= j < |r.bucket| ==> r.bucket[j].klass != k }

  lemma {:induction false} NewestIsFound(bucket: seq<Slot>, k: nat, id: nat, i: nat)
    requires i < |bucket| && bucket[i] == Slot(k, id) && forall j :: 0 <= j < i ==> bucket[j].klass != k
    ensures FindVq(bucket, k) == Some(id)
    decreases |bucket|
  {
    if i > 0 { NewestIsFound(bucket[1..], k, id, i - 1); }
  }

  lemma NamedVqIsFound(r: Refs, k: nat, id: nat)
    requires NamedVq(r, k, id)
    ensures FindVq(r.bucket, k) == Some(id)
  {
    var i :| 0 <= i < |r.bucket| && r.bucket[i] == Slot(k, id) && forall j :: 0 <= j < i ==> r.bucket[j].klass != k;
    NewestIsFound(r.bucket, k, id, i);
  }

  /** Creating a queue for a class that has one, even a deleted one, changes nothing; otherwise there is one
      more queue, unused so far, at the end of the list, and it is the one a lookup now finds. */
  lemma CreateVqExactly(r: Refs, k: nat)
    ensures var r' := Called(r, CreateVq(k));
            if !NoVq(r, k) then r' == r
            else && r' == r.(vqs := r.vqs[r.next := 0], listed := r.listed + [r.next], bucket := r'.bucket,
                             next := r.next + 1)
                 && FindVq(r'.bucket, k) == Some(r.next)
                 && forall j :: j != k ==> FindVq(r'.bucket, j) == FindVq(r.bucket, j)
  {
    if NoVq(r, k) {
      var r' := Called(r, CreateVq(k));
      assert r'.bucket[0] == Slot(k, r.next) && r'.bucket[1..] == r.bucket;
    }
  }

  /** Creating a class that exists changes nothing; a new one points nowhere. */
  lemma CreateTxcExactly(r: Refs, k: nat)
    ensures Called(r, CreateTxc(k)) == if NoTxc(r, k) then r.(txcs := r.txcs + [Class(k, None)]) else r
  {
  }

  /** Associating makes the class point at the queue and changes no other pointer; an unknown class or queue
      changes nothing. */
  lemma AssociateExactly(r: Refs, t: nat, q: nat, i: nat, id: nat)
    ensures NamedTxc(r, t, i) && NamedVq(r, q, id) ==>
              var r' := Called(r, Associate(t, q));
              && r' == r.(vqs := r'.vqs, txcs := r.txcs[i := Class(t, Some(id))])
              && r'.vqs.Keys == r.vqs.Keys
    ensures NoTxc(r, t) || NoVq(r, q) ==> Called(r, Associate(t, q)) == r
  {
    if NamedTxc(r, t, i) && NamedVq(r, q, id) {
      NamedVqIsFound(r, q, id);
      assert FindTxc(r.txcs, t) == i;
    }
  }

  /** Deleting a class takes it out and leaves the others as they are. */
  lemma DeleteTxcExactly(r: Refs, k: nat, i: nat)
    ensures NamedTxc(r, k, i) ==>
              var r' := Called(r, DeleteTxc(k));
              r' == r.(vqs := r'.vqs, txcs := r.txcs[..i] + r.txcs[i + 1..]) && r'.vqs.Keys == r.vqs.Keys
    ensures NoTxc(r, k) ==> Called(r, DeleteTxc(k)) == r
  {
    if NamedTxc(r, k, i) {
      assert FindTxc(r.txcs, k) == i;
    }
  }

  lemma {:induction false} WithoutTakesOne(s: seq<nat>, x: nat)
    ensures multiset(Without(s, x)) == multiset(s) - multiset{x}
    decreases |s|
  {
    if s != [] {
      assert s == [s[0]] + s[1..];
      if s[0] != x {
        WithoutTakesOne(s[1..], x);
      }
    }
  }

  /** Deleting a queue that a class points at changes nothing; otherwise exactly that queue is freed and taken
      off the list, and its bucket entry stays. */
  lemma DeleteVqExactly(r: Refs, k: nat, id: nat)
    ensures NamedVq(r, k, id) && id in r.vqs ==>
              var r' := Called(r, DeleteVq(k));
              if r.vqs[id] > 0 then r' == r
              else r' == r.(vqs := r.vqs - {id}, listed := r'.listed, deleted := r.deleted + {id})
                   && multiset(r'.listed) == multiset(r.listed) - multiset{id}
    ensures NoVq(r, k) ==> Called(r, DeleteVq(k)) == r
  {
    if NamedVq(r, k, id) {
      NamedVqIsFound(r, k, id);
      WithoutTakesOne(r.listed, id);
    }
  }
}
