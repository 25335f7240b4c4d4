/** Sequences of packets seen per flow: selecting the packets of one limiter, and splitting the
    bytes of a sequence over a set of limiters. */
module Flows {
  import opened Params
  import opened Limiter

  /** Packet `p` passes through limiter `l`: its own destination limiter, or that one's class limiter. */
  predicate Belongs(p: Packet, l: Lid) {
    p.flow.Dest? && (if l.Root? then p.flow.cls == l.cls else p.flow == l)
  }

  /** Packets compared up to the congestion mark, which the class limiter may add on the way. */
  function Plain(ps: seq<Packet>): (r: seq<Packet>)
    ensures |r| == |ps|
  {
    seq(|ps|, i requires 0 <= i < |ps| => ps[i].(ce := false))
  }

  lemma PlainConcat(a: seq<Packet>, b: seq<Packet>)
    ensures Plain(a + b) == Plain(a) + Plain(b)
  {
  }

  /** The packets of `ps` that belong to `l`, in order, marks removed. */
  function Of(l: Lid, ps: seq<Packet>): seq<Packet> {
    if ps == [] then []
    else (if Belongs(ps[0], l) then [ps[0].(ce := false)] else []) + Of(l, ps[1..])
  }

  lemma {:induction false} OfConcat(l: Lid, a: seq<Packet>, b: seq<Packet>)
    ensures Of(l, a + b) == Of(l, a) + Of(l, b)
  {
    if a == [] {
      assert a + b == b;
    } else {
      assert (a + b)[1..] == a[1..] + b;
      OfConcat(l, a[1..], b);
    }
  }

  ghost predicate Tagged(ps: seq<Packet>, l: Lid) {
    forall p :: p in ps ==> Belongs(p, l)
  }

  lemma {:induction false} OfOwn(l: Lid, ps: seq<Packet>)
    requires Tagged(ps, l)
    ensures Of(l, ps) == Plain(ps)
  {
    if ps != [] {
      OfOwn(l, ps[1..]);
      assert ps == [ps[0]] + ps[1..];
      PlainConcat([ps[0]], ps[1..]);
    }
  }

  lemma {:induction false} OfForeign(l: Lid, ps: seq<Packet>)
    requires forall p :: p in ps ==> !Belongs(p, l)
    ensures Of(l, ps) == []
  {
    if ps != [] {
      assert ps[0] in ps;
      OfForeign(l, ps[1..]);
    }
  }

  lemma {:induction false} OfIgnoresMarks(l: Lid, ps: seq<Packet>)
    ensures Of(l, Plain(ps)) == Of(l, ps)
  {
    if ps != [] {
      assert Plain(ps)[1..] == Plain(ps[1..]);
      OfIgnoresMarks(l, ps[1..]);
    }
  }

  /** Selecting a class first loses none of its destinations' packets. */
  lemma {:induction false} OfThroughClass(l: Lid, ps: seq<Packet>)
    requires l.Dest?
    ensures Of(l, Of(Root(l.cls), ps)) == Of(l, ps)
  {
    if ps != [] {
      OfThroughClass(l, ps[1..]);
      var head := if Belongs(ps[0], Root(l.cls)) then [ps[0].(ce := false)] else [];
      OfConcat(l, head, Of(Root(l.cls), ps[1..]));
      if head != [] {
        assert head[1..] == [];
        assert Of(l, head) == (if Belongs(ps[0], l) then [ps[0].(ce := false)] else []);
      }
    }
  }

  lemma {:induction false} PlainBytes(ps: seq<Packet>)
    ensures Bytes(Plain(ps)) == Bytes(ps)
  {
    if ps != [] {
      assert Plain(ps)[1..] == Plain(ps[1..]);
      PlainBytes(ps[1..]);
    }
  }

  // ---- sums over sets of limiters ----

  ghost function SumOver(s: set<Lid>, f: map<Lid, nat>): nat
    requires s <= f.Keys
  {
    if s == {} then 0 else var l :| l in s; f[l] + SumOver(s - {l}, f)
  }

  lemma {:induction false} SumRemove(s: set<Lid>, f: map<Lid, nat>, x: Lid)
    requires s <= f.Keys && x in s
    ensures SumOver(s, f) == f[x] + SumOver(s - {x}, f)
    decreases s
  {
    var l :| l in s && SumOver(s, f) == f[l] + SumOver(s - {l}, f);
    if l != x {
      SumRemove(s - {l}, f, x);
      SumRemove(s - {x}, f, l);
      assert s - {l} - {x} == s - {x} - {l};
    }
  }

  /** Two tables that agree outside `x` and differ by `d` at `x` have sums that differ by `d`. */
  lemma {:induction false} SumDiffersAt(s: set<Lid>, f: map<Lid, nat>, g: map<Lid, nat>, x: Lid, d: nat)
    requires s <= f.Keys && s <= g.Keys
    requires forall l :: l in s ==> f[l] == g[l] + (if l == x then d else 0)
    ensures SumOver(s, f) == SumOver(s, g) + (if x in s then d else 0)
    decreases s
  {
    if s != {} {
      var l :| l in s;
      SumRemove(s, f, l);
      SumRemove(s, g, l);
      SumDiffersAt(s - {l}, f, g, x, d);
    }
  }

  ghost function BytesBy(s: set<Lid>, ps: seq<Packet>): map<Lid, nat> {
    map l | l in s :: Bytes(Of(l, ps))
  }

  /** Limiters of one level: no packet belongs to two of them. */
  ghost predicate SameLevel(s: set<Lid>) {
    (forall l :: l in s ==> l.Root?) || (forall l :: l in s ==> l.Dest?)
  }

  ghost predicate Carried(s: set<Lid>, p: Packet) { exists l :: l in s && Belongs(p, l) }

  ghost predicate Covered(s: set<Lid>, ps: seq<Packet>) { forall p :: p in ps ==> Carried(s, p) }

  lemma {:induction false} ZeroSum(s: set<Lid>, f: map<Lid, nat>)
    requires s <= f.Keys && forall l :: l in s ==> f[l] == 0
    ensures SumOver(s, f) == 0
    decreases s
  {
    if s != {} {
      var l :| l in s;
      SumRemove(s, f, l);
      ZeroSum(s - {l}, f);
    }
  }

  /** Splitting a sequence over the limiters of one level accounts for every byte once. */
  lemma {:induction false} BytesSplit(s: set<Lid>, ps: seq<Packet>)
    requires SameLevel(s) && Covered(s, ps)
    ensures SumOver(s, BytesBy(s, ps)) == Bytes(ps)
    decreases |ps|
  {
    if ps == [] {
      ZeroSum(s, BytesBy(s, ps));
    } else {
      assert ps[0] in ps && Carried(s, ps[0]);
      var x :| x in s && Belongs(ps[0], x);
      assert Covered(s, ps[1..]);
      BytesSplit(s, ps[1..]);
      forall l | l in s
        ensures BytesBy(s, ps)[l] == BytesBy(s, ps[1..])[l] + (if l == x then Size(ps[0]) else 0)
      {
        assert l != x ==> !Belongs(ps[0], l);
        BytesConcat(if Belongs(ps[0], l) then [ps[0].(ce := false)] else [], Of(l, ps[1..]));
      }
      SumDiffersAt(s, BytesBy(s, ps), BytesBy(s, ps[1..]), x, Size(ps[0]));
    }
  }
}
