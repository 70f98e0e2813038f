/** Sums over sequences, changed one element at a time. */
module Sums {
  ghost function Sum<T>(f: T -> int, xs: seq<T>): int {
    if xs == [] then 0 else Sum(f, xs[..|xs| - 1]) + f(xs[|xs| - 1])
  }

  lemma SumAppend<T>(f: T -> int, xs: seq<T>, x: T)
    ensures Sum(f, xs + [x]) == Sum(f, xs) + f(x)
  {
    assert (xs + [x])[..|xs|] == xs;
  }

  lemma {:induction false} SumUpdate<T>(f: T -> int, xs: seq<T>, i: nat, x: T)
    requires i < |xs|
    ensures Sum(f, xs[i := x]) == Sum(f, xs) - f(xs[i]) + f(x)
  {
    var last := |xs| - 1;
    if i < last {
      SumUpdate(f, xs[..last], i, x);
      assert xs[i := x][..last] == xs[..last][i := x];
    } else {
      assert xs[i := x][..last] == xs[..last];
    }
  }

  lemma {:induction false} SumFirst<T>(f: T -> int, xs: seq<T>)
    requires xs != []
    ensures Sum(f, xs) == f(xs[0]) + Sum(f, xs[1..])
  {
    var last := |xs| - 1;
    if last > 0 {
      SumFirst(f, xs[..last]);
      assert xs[..last][1..] == xs[1..][..last - 1];
    }
  }

  lemma {:induction false} SumNatural<T>(f: T -> int, xs: seq<T>)
    requires forall i :: 0 <= i < |xs| ==> f(xs[i]) >= 0
    ensures Sum(f, xs) >= 0
  {
    if xs != [] { SumNatural(f, xs[..|xs| - 1]); }
  }

  lemma {:induction false} SumPositive<T>(f: T -> int, xs: seq<T>) returns (i: nat)
    requires Sum(f, xs) > 0
    ensures i < |xs| && f(xs[i]) > 0
  {
    var last := |xs| - 1;
    if f(xs[last]) > 0 { i := last; } else { i := SumPositive(f, xs[..last]); }
  }
}
