/** Searching and mapping lists. */
module Lists {
  /** Where the first element with the property is, or the length of the list. */
  function FirstWhere<T>(p: T -> bool, xs: seq<T>): (i: nat)
    ensures i <= |xs|
    ensures i < |xs| ==> p(xs[i])
    ensures forall j :: 0 <= j < i ==> !p(xs[j])
  {
    if xs == [] || p(xs[0]) then 0 else 1 + FirstWhere(p, xs[1..])
  }

  /** Where the last element with the property is, or -1. */
  function LastWhere<T>(p: T -> bool, xs: seq<T>): (i: int)
    ensures -1 <= i < |xs|
    ensures i >= 0 ==> p(xs[i])
    ensures forall j :: i < j < |xs| ==> !p(xs[j])
  {
    var n := |xs| - 1;
    if n < 0 then -1 else if p(xs[n]) then n else LastWhere(p, xs[..n])
  }

  function Map<S, T>(f: S -> T, xs: seq<S>): (r: seq<T>)
    ensures |r| == |xs|
    ensures forall i :: 0 <= i < |xs| ==> r[i] == f(xs[i])
  {
    if xs == [] then [] else [f(xs[0])] + Map(f, xs[1..])
  }
}
