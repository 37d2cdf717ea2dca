/** Sums over a sequence of actors. */
module Sums {

  function Total<T>(xs: seq<T>, f: T -> int): int {
    if xs == [] then 0 else Total(xs[..|xs| - 1], f) + f(xs[|xs| - 1])
  }

  lemma TotalAppend<T>(xs: seq<T>, x: T, f: T -> int)
    ensures Total(xs + [x], f) == Total(xs, f) + f(x)
  {
    assert (xs + [x])[..|xs|] == xs;
  }

  lemma {:induction false} TotalUpdate<T>(xs: seq<T>, i: nat, x: T, f: T -> int)
    requires i < |xs|
    ensures Total(xs[i := x], f) == Total(xs, f) - f(xs[i]) + f(x)
  {
    var n := |xs| - 1;
    if i < n {
      assert xs[i := x][..n] == xs[..n][i := x];
      TotalUpdate(xs[..n], i, x, f);
    } else {
      assert xs[i := x][..n] == xs[..n];
    }
  }

  lemma {:induction false} TotalNonNegative<T>(xs: seq<T>, f: T -> int)
    requires forall j :: 0 <= j < |xs| ==> f(xs[j]) >= 0
    ensures Total(xs, f) >= 0
  {
    if xs != [] {
      TotalNonNegative(xs[..|xs| - 1], f);
    }
  }

  lemma {:induction false} TotalBelow<T>(xs: seq<T>, f: T -> int, g: T -> int)
    requires forall j :: 0 <= j < |xs| ==> f(xs[j]) <= g(xs[j])
    ensures Total(xs, f) <= Total(xs, g)
  {
    if xs != [] {
      TotalBelow(xs[..|xs| - 1], f, g);
    }
  }

  lemma {:induction false} TotalBounds<T>(xs: seq<T>, i: nat, f: T -> int)
    requires i < |xs| && forall j :: 0 <= j < |xs| ==> f(xs[j]) >= 0
    ensures Total(xs, f) >= f(xs[i])
  {
    var n := |xs| - 1;
    if i < n {
      TotalBounds(xs[..n], i, f);
    } else {
      TotalNonNegative(xs[..n], f);
    }
  }

  lemma {:induction false} TotalZero<T>(xs: seq<T>, f: T -> int)
    requires forall j :: 0 <= j < |xs| ==> f(xs[j]) == 0
    ensures Total(xs, f) == 0
  {
    if xs != [] {
      TotalZero(xs[..|xs| - 1], f);
    }
  }
}
