/** Exactly where a tasklet run stops: the walk over the active list as plain turns, one after the other,
    and the first of them after which the code gives up. */
module TaskletExact {
  import opened Params
  import opened Limiter
  import opened Machine
  import opened Schedule

  /** The machine after i turns, and the sum of what they returned; `k` is the number of the first. */
  ghost function After(st: State, c: nat, k: nat, lucks: seq<Luck>, gso: Gso, i: nat): (r: Dequeued)
    requires WF(st) && c < |st.cbs| && k >= 1
    ensures WF(r.st) && |r.st.cbs| == |st.cbs|
    decreases i
  {
    if i == 0 || st.cbs[c].active == [] then Dequeued(st, 0)
    else
      ServiceFrame(st, c, LuckAt(lucks, k - 1), gso);
      var d := ServiceHead(st, c, LuckAt(lucks, k - 1), gso);
      var rest := After(d.st, c, k + 1, lucks, gso, i - 1);
      Dequeued(rest.st, d.sum + rest.sum)
  }

  ghost function ListAfter(st: State, c: nat, k: nat, lucks: seq<Luck>, gso: Gso, i: nat): seq<Lid>
    requires WF(st) && c < |st.cbs| && k >= 1
  {
    After(st, c, k, lucks, gso, i).st.cbs[c].active
  }

  /** After i turns the walk ends: 250 turns are done, more than 128 KB were sent, the next but one entry is
      the one the walk started at, or the last turn's entry had no successor. */
  ghost predicate Halts(st: State, c: nat, first: Lid, k: nat, sent: nat, lucks: seq<Luck>, gso: Gso, i: nat)
    requires WF(st) && c < |st.cbs| && k >= 1
  {
    var active := ListAfter(st, c, k, lucks, gso, i);
    || k + i > 250
    || sent + After(st, c, k, lucks, gso, i).sum > 2 * 65536
    || (|active| > 1 && active[1] == first)
    || (i > 0 && |ListAfter(st, c, k, lucks, gso, i - 1)| == 1)
  }

  lemma NoTurn(st: State, c: nat, k: nat, lucks: seq<Luck>, gso: Gso)
    requires WF(st) && c < |st.cbs| && k >= 1
    ensures After(st, c, k, lucks, gso, 0) == Dequeued(st, 0)
  {
  }

  lemma NextTurn(st: State, c: nat, k: nat, lucks: seq<Luck>, gso: Gso, i: nat)
    requires WF(st) && c < |st.cbs| && k >= 1 && st.cbs[c].active != [] && i > 0
    ensures var d := ServiceHead(st, c, LuckAt(lucks, k - 1), gso);
            && WF(d.st) && |d.st.cbs| == |st.cbs|
            && After(st, c, k, lucks, gso, i).st == After(d.st, c, k + 1, lucks, gso, i - 1).st
            && After(st, c, k, lucks, gso, i).sum == d.sum + After(d.st, c, k + 1, lucks, gso, i - 1).sum
  {
    ServiceFrame(st, c, LuckAt(lucks, k - 1), gso);
    hide ServiceHead;
  }

  lemma HaltsFirst(st: State, c: nat, first: Lid, k: nat, sent: nat, lucks: seq<Luck>, gso: Gso)
    requires WF(st) && c < |st.cbs| && k >= 1
    ensures Halts(st, c, first, k, sent, lucks, gso, 0) <==> StopsBefore(st.cbs[c].active, first, k, sent)
  {
    hide After;
    NoTurn(st, c, k, lucks, gso);
  }

  lemma HaltsNext(st: State, c: nat, first: Lid, k: nat, sent: nat, lucks: seq<Luck>, gso: Gso, i: nat)
    requires WF(st) && c < |st.cbs| && k >= 1 && |st.cbs[c].active| > 1 && i > 0
    ensures var d := ServiceHead(st, c, LuckAt(lucks, k - 1), gso);
            && WF(d.st) && |d.st.cbs| == |st.cbs|
            && (Halts(st, c, first, k, sent, lucks, gso, i)
                <==> Halts(d.st, c, first, k + 1, sent + d.sum, lucks, gso, i - 1))
  {
    hide After, ServiceHead;
    NextTurn(st, c, k, lucks, gso, i);
    if i > 1 {
      NextTurn(st, c, k, lucks, gso, i - 1);
    } else {
      NoTurn(st, c, k, lucks, gso);
    }
  }

  lemma HaltsAlone(st: State, c: nat, first: Lid, k: nat, sent: nat, lucks: seq<Luck>, gso: Gso)
    requires WF(st) && c < |st.cbs| && k >= 1 && |st.cbs[c].active| == 1
    ensures Halts(st, c, first, k, sent, lucks, gso, 1)
    ensures After(st, c, k, lucks, gso, 1).st == ServiceHead(st, c, LuckAt(lucks, k - 1), gso).st
  {
    hide After, ServiceHead;
    NoTurn(st, c, k, lucks, gso);
    NextTurn(st, c, k, lucks, gso, 1);
    NoTurn(ServiceHead(st, c, LuckAt(lucks, k - 1), gso).st, c, k + 1, lucks, gso);
  }

  /** The turns a walk takes are the heads of the lists it meets. */
  ghost predicate TurnsTaken(st: State, c: nat, k: nat, lucks: seq<Luck>, gso: Gso, serviced: seq<Lid>)
    requires WF(st) && c < |st.cbs| && k >= 1
  {
    forall j :: 0 <= j < |serviced| ==>
      var active := ListAfter(st, c, k, lucks, gso, j); active != [] && active[0] == serviced[j]
  }

  lemma TurnsNext(st: State, c: nat, k: nat, lucks: seq<Luck>, gso: Gso, rest: seq<Lid>)
    requires WF(st) && c < |st.cbs| && k >= 1 && st.cbs[c].active != []
    requires var d := ServiceHead(st, c, LuckAt(lucks, k - 1), gso);
             WF(d.st) && c < |d.st.cbs| && TurnsTaken(d.st, c, k + 1, lucks, gso, rest)
    ensures TurnsTaken(st, c, k, lucks, gso, [st.cbs[c].active[0]] + rest)
  {
    hide After, ServiceHead;
    var all := [st.cbs[c].active[0]] + rest;
    NoTurn(st, c, k, lucks, gso);
    forall j | 0 <= j < |all|
      ensures var active := ListAfter(st, c, k, lucks, gso, j); active != [] && active[0] == all[j]
    {
      if j > 0 {
        NextTurn(st, c, k, lucks, gso, j);
        assert all[j] == rest[j - 1];
      }
    }
  }

  lemma NoneTaken(st: State, c: nat, k: nat, lucks: seq<Luck>, gso: Gso)
    requires WF(st) && c < |st.cbs| && k >= 1
    ensures TurnsTaken(st, c, k, lucks, gso, [])
  {
  }

  /** The walk is the turns up to the first point at which it must end, and no further. */
  lemma {:induction false} SweepExactly(st: State, c: nat, first: Lid, k: nat, sent: nat, lucks: seq<Luck>, gso: Gso)
    requires WF(st) && c < |st.cbs| && st.cbs[c].active != [] && k >= 1
    ensures var r := Sweep(st, c, first, k, sent, lucks, gso);
            var n := |r.serviced|;
            && r.st == After(st, c, k, lucks, gso, n).st
            && TurnsTaken(st, c, k, lucks, gso, r.serviced)
            && Halts(st, c, first, k, sent, lucks, gso, n)
            && (forall j :: 0 <= j < n ==> !Halts(st, c, first, k, sent, lucks, gso, j))
    decreases TASKLET_BUDGET - k
  {
    hide ServiceHead, After, Halts, TurnsTaken, WF;
    var active, luck := st.cbs[c].active, LuckAt(lucks, k - 1);
    HaltsFirst(st, c, first, k, sent, lucks, gso);
    if StopsBefore(active, first, k, sent) {
      NoTurn(st, c, k, lucks, gso);
      NoneTaken(st, c, k, lucks, gso);
    } else {
      ServiceFrame(st, c, luck, gso);
      var d := ServiceHead(st, c, luck, gso);
      if |active| == 1 {
        HaltsAlone(st, c, first, k, sent, lucks, gso);
        NoneTaken(d.st, c, k + 1, lucks, gso);
        TurnsNext(st, c, k, lucks, gso, []);
        assert [active[0]] + [] == [active[0]];
      } else {
        SweepExactly(d.st, c, first, k + 1, sent + d.sum, lucks, gso);
        var rest := Sweep(d.st, c, first, k + 1, sent + d.sum, lucks, gso);
        TurnsNext(st, c, k, lucks, gso, rest.serviced);
        NextTurn(st, c, k, lucks, gso, |rest.serviced| + 1);
        forall j | 0 < j <= |rest.serviced| + 1
          ensures Halts(st, c, first, k, sent, lucks, gso, j)
                  <==> Halts(d.st, c, first, k + 1, sent + d.sum, lucks, gso, j - 1)
        {
          HaltsNext(st, c, first, k, sent, lucks, gso, j);
        }
      }
    }
  }

  /** What has not had its turn stays where it was, behind what comes after. */
  lemma {:induction false} SuffixStays(st: State, c: nat, k: nat, lucks: seq<Luck>, gso: Gso, i: nat)
    requires WF(st) && c < |st.cbs| && k >= 1 && i <= |st.cbs[c].active|
    ensures st.cbs[c].active[i..] <= ListAfter(st, c, k, lucks, gso, i)
    decreases i
  {
    hide After, ServiceHead;
    if i == 0 {
      NoTurn(st, c, k, lucks, gso);
    } else {
      ServiceFrame(st, c, LuckAt(lucks, k - 1), gso);
      var d := ServiceHead(st, c, LuckAt(lucks, k - 1), gso);
      NextTurn(st, c, k, lucks, gso, i);
      SuffixStays(d.st, c, k + 1, lucks, gso, i - 1);
      assert st.cbs[c].active[i..] == st.cbs[c].active[1..][i - 1..];
      assert st.cbs[c].active[1..][i - 1..] <= d.st.cbs[c].active[i - 1..];
    }
  }

  /** The state a tasklet run walks from. */
  function Begun(st: State, c: nat): State
    requires c < |st.cbs|
  {
    WithCb(st, c, st.cbs[c].(pending := false))
  }

  /** Before the whole list is walked: the first i turns are where a run gives up, because 250 are done,
      because they sent more than 128 KB, or because the one entry left is followed by the first. */
  ghost predicate GivesUp(st: State, c: nat, lucks: seq<Luck>, gso: Gso, i: nat)
    requires WF(st) && c < |st.cbs| && st.cbs[c].active != []
  {
    var active, now := st.cbs[c].active, ListAfter(Begun(st, c), c, 1, lucks, gso, i);
    || i == 250
    || After(Begun(st, c), c, 1, lucks, gso, i).sum > 2 * 65536
    || (i == |active| - 1 && |now| > 1 && now[1] == active[0])
  }

  lemma HaltsIsGivesUp(st: State, c: nat, lucks: seq<Luck>, gso: Gso, i: nat)
    requires WF(st) && c < |st.cbs| && st.cbs[c].active != [] && NoDup(st.cbs[c].active)
    requires i < |st.cbs[c].active| && i <= 250
    ensures Halts(Begun(st, c), c, st.cbs[c].active[0], 1, 0, lucks, gso, i) <==> GivesUp(st, c, lucks, gso, i)
  {
    hide After;
    var st1, active := Begun(st, c), st.cbs[c].active;
    SuffixStays(st1, c, 1, lucks, gso, i);
    var now := ListAfter(st1, c, 1, lucks, gso, i);
    assert now[0] == active[i..][0];
    if i + 1 < |active| {
      assert now[1] == active[i..][1] == active[i + 1];
    }
    if i > 0 {
      SuffixStays(st1, c, 1, lucks, gso, i - 1);
      assert |ListAfter(st1, c, 1, lucks, gso, i - 1)| >= |active[i - 1..]|;
    }
  }

  lemma NeverAtOnce(st: State, c: nat, lucks: seq<Luck>, gso: Gso)
    requires WF(st) && c < |st.cbs| && st.cbs[c].active != []
    ensures !GivesUp(st, c, lucks, gso, 0)
  {
    hide After;
    NoTurn(Begun(st, c), c, 1, lucks, gso);
  }

  lemma WalkExactly(st: State, c: nat, lucks: seq<Luck>, gso: Gso)
    requires WF(st) && c < |st.cbs| && !st.exiting && st.cbs[c].active != []
    ensures var r, st1, first := TaskletRun(st, c, lucks, gso), Begun(st, c), st.cbs[c].active[0];
            var n := |r.serviced|;
            && r.st.rls == After(st1, c, 1, lucks, gso, n).st.rls
            && TurnsTaken(st1, c, 1, lucks, gso, r.serviced)
            && Halts(st1, c, first, 1, 0, lucks, gso, n)
            && (forall j :: 0 <= j < n ==> !Halts(st1, c, first, 1, 0, lucks, gso, j))
  {
    hide Sweep, After, Halts, TurnsTaken;
    SweepExactly(Begun(st, c), c, st.cbs[c].active[0], 1, 0, lucks, gso);
  }

  lemma HaltsAt250(st: State, c: nat, first: Lid, lucks: seq<Luck>, gso: Gso)
    requires WF(st) && c < |st.cbs|
    ensures Halts(st, c, first, 1, 0, lucks, gso, 250)
  {
  }

  lemma AtMost250(st: State, c: nat, first: Lid, lucks: seq<Luck>, gso: Gso, n: nat)
    requires WF(st) && c < |st.cbs| && forall j :: 0 <= j < n ==> !Halts(st, c, first, 1, 0, lucks, gso, j)
    ensures n <= 250
  {
    HaltsAt250(st, c, first, lucks, gso);
  }

  /** A tasklet run, exactly. It services the list in order, at least the head and at most 250 entries. If
      it services fewer than the list is long, then because 250 turns are done, because the turns so far
      sent more than 128 KB, or because only one is left and the first has been listed again right
      behind it; and it goes on as long as none of the three is so. */
  lemma TaskletStopsExactly(st: State, c: nat, lucks: seq<Luck>, gso: Gso)
    requires WF(st) && c < |st.cbs| && !st.exiting && st.cbs[c].active != [] && NoDup(st.cbs[c].active)
    ensures var r, active := TaskletRun(st, c, lucks, gso), st.cbs[c].active;
            var n := |r.serviced|;
            && 1 <= n <= 250
            && r.st.rls == After(Begun(st, c), c, 1, lucks, gso, n).st.rls
            && (forall j :: 0 <= j < n && j < |active| ==> r.serviced[j] == active[j])
            && (n < |active| ==> GivesUp(st, c, lucks, gso, n))
            && (forall j :: 0 <= j < n && j < |active| ==> !GivesUp(st, c, lucks, gso, j))
  {
    hide TaskletRun, After, Halts, NoDup, GivesUp;
    var r, st1, active := TaskletRun(st, c, lucks, gso), Begun(st, c), st.cbs[c].active;
    var n := |r.serviced|;
    WalkExactly(st, c, lucks, gso);
    AtMost250(st1, c, active[0], lucks, gso, n);
    NeverAtOnce(st, c, lucks, gso);
    HaltsIsGivesUp(st, c, lucks, gso, 0);
    if n < |active| {
      HaltsIsGivesUp(st, c, lucks, gso, n);
    }
    forall j | 0 <= j < n && j < |active| ensures r.serviced[j] == active[j] && !GivesUp(st, c, lucks, gso, j) {
      HaltsIsGivesUp(st, c, lucks, gso, j);
      SuffixStays(st1, c, 1, lucks, gso, j);
      assert ListAfter(st1, c, 1, lucks, gso, j)[0] == r.serviced[j];
      assert active[j..][0] == active[j];
    }
  }
}
