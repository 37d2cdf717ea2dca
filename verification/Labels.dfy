/** Routing labels: how a class's labels are put together, and when GitHub's labels need an update. */
module Labels {
  // ----- the labels of a class -----

  /** The first label of its lower-cased form; empty labels do not count. */
  predicate FirstOfKind(xs: seq<string>, i: nat, lower: string -> string)
    requires i < |xs|
  {
    xs[i] != "" && forall j :: 0 <= j < i && xs[j] != "" ==> lower(xs[j]) != lower(xs[i])
  }

  /** The positions that are kept, in order. */
  function Kept(xs: seq<string>, n: nat, lower: string -> string): seq<nat>
    requires n <= |xs|
  {
    if n == 0 then []
    else Kept(xs, n - 1, lower) + (if FirstOfKind(xs, n - 1, lower) then [n - 1] else [])
  }

  function Pick(xs: seq<string>, at: seq<nat>): seq<string>
    requires forall k :: 0 <= k < |at| ==> at[k] < |xs|
  {
    seq(|at|, k requires 0 <= k < |at| => xs[at[k]])
  }

  lemma {:induction false} KeptIncreases(xs: seq<string>, n: nat, lower: string -> string)
    requires n <= |xs|
    ensures forall k :: 0 <= k < |Kept(xs, n, lower)| ==> Kept(xs, n, lower)[k] < n
    ensures forall k, l :: 0 <= k < l < |Kept(xs, n, lower)| ==> Kept(xs, n, lower)[k] < Kept(xs, n, lower)[l]
  {
    if n > 0 {
      KeptIncreases(xs, n - 1, lower);
    }
  }

  lemma {:induction false} KeptExactly(xs: seq<string>, n: nat, lower: string -> string, i: nat)
    requires n <= |xs| && i < n
    ensures i in Kept(xs, n, lower) <==> FirstOfKind(xs, i, lower)
  {
    KeptIncreases(xs, n - 1, lower);
    if i < n - 1 {
      KeptExactly(xs, n - 1, lower, i);
    }
  }

  /** The labels in their order, without empty ones and without repetitions up to case. */
  function Deduplicated(xs: seq<string>, lower: string -> string): seq<string> {
    KeptIncreases(xs, |xs|, lower);
    Pick(xs, Kept(xs, |xs|, lower))
  }

  /** The lower-cased forms seen so far. */
  function Keys(xs: seq<string>, n: nat, lower: string -> string): set<string>
    requires n <= |xs|
  {
    if n == 0 then {} else Keys(xs, n - 1, lower) + (if xs[n - 1] != "" then {lower(xs[n - 1])} else {})
  }

  lemma {:induction false} KeysSeen(xs: seq<string>, n: nat, lower: string -> string, key: string)
    requires n <= |xs|
    ensures key in Keys(xs, n, lower) <==> exists j :: 0 <= j < n && xs[j] != "" && lower(xs[j]) == key
  {
    if n > 0 {
      KeysSeen(xs, n - 1, lower, key);
    }
  }

  lemma PickMore(xs: seq<string>, at: seq<nat>, i: nat)
    requires (forall k :: 0 <= k < |at| ==> at[k] < |xs|) && i < |xs|
    ensures Pick(xs, at + [i]) == Pick(xs, at) + [xs[i]]
  {}

  /** ScaleSetLabels, for any notion of lower case. */
  method ScaleSetLabels(base: seq<string>, className: string, lower: string -> string) returns (out: seq<string>)
    ensures out == Deduplicated(base + [className], lower)
  {
    var xs := base + [className];
    var seen: set<string> := {};
    out := [];
    KeptIncreases(xs, 0, lower);
    for i := 0 to |xs|
      invariant forall k :: 0 <= k < |Kept(xs, i, lower)| ==> Kept(xs, i, lower)[k] < |xs|
      invariant out == Pick(xs, Kept(xs, i, lower))
      invariant seen == Keys(xs, i, lower)
    {
      KeptIncreases(xs, i + 1, lower);
      KeysSeen(xs, i, lower, lower(xs[i]));
      PickMore(xs, Kept(xs, i, lower), i);
      var l := xs[i];
      var repeated := lower(l) in seen;
      if l != "" && !repeated {
        seen := seen + {lower(l)};
        out := out + [l];
      }
    }
  }

  lemma {:induction false} FirstWithKey(xs: seq<string>, i: nat, lower: string -> string) returns (f: nat)
    requires i < |xs| && xs[i] != ""
    ensures f <= i && FirstOfKind(xs, f, lower) && lower(xs[f]) == lower(xs[i])
  {
    f := i;
    if !FirstOfKind(xs, i, lower) {
      var j :| 0 <= j < i && xs[j] != "" && lower(xs[j]) == lower(xs[i]);
      f := FirstWithKey(xs, j, lower);
    }
  }

  /** Every label of the input is there in some casing, none twice, none empty, all in input order, and of
      several casings it is the first that stays. */
  lemma LabelsCover(xs: seq<string>, lower: string -> string)
    ensures var out, at := Deduplicated(xs, lower), Kept(xs, |xs|, lower);
            && |out| == |at|
            && (forall k :: 0 <= k < |at| ==> at[k] < |xs| && out[k] == xs[at[k]] && FirstOfKind(xs, at[k], lower))
            && (forall k, l :: 0 <= k < l < |at| ==> at[k] < at[l])
            && (forall k :: 0 <= k < |out| ==> out[k] != "")
            && (forall k, j :: 0 <= k < |out| && 0 <= j < at[k] && xs[j] != "" ==> lower(xs[j]) != lower(out[k]))
            && (forall k, l :: 0 <= k < l < |out| ==> lower(out[k]) != lower(out[l]))
            && (forall i :: 0 <= i < |xs| && xs[i] != "" ==>
                  exists k :: 0 <= k < |out| && lower(out[k]) == lower(xs[i]))
  {
    var at := Kept(xs, |xs|, lower);
    KeptIncreases(xs, |xs|, lower);
    forall k | 0 <= k < |at| ensures FirstOfKind(xs, at[k], lower) {
      KeptExactly(xs, |xs|, lower, at[k]);
    }
    forall i | 0 <= i < |xs| && xs[i] != ""
      ensures exists k :: 0 <= k < |at| && lower(xs[at[k]]) == lower(xs[i])
    {
      var f := FirstWithKey(xs, i, lower);
      KeptExactly(xs, |xs|, lower, f);
      var k :| 0 <= k < |at| && at[k] == f;
    }
  }

  // ----- the order of strings -----

  predicate Leq(a: string, b: string) {
    a == "" || (b != "" && (a[0] < b[0] || (a[0] == b[0] && Leq(a[1..], b[1..]))))
  }

  lemma {:induction false} LeqTotal(a: string, b: string)
    ensures Leq(a, b) || Leq(b, a)
    ensures Leq(a, b) && Leq(b, a) ==> a == b
  {
    if a != "" && b != "" && a[0] == b[0] {
      LeqTotal(a[1..], b[1..]);
      assert a == [a[0]] + a[1..] && b == [b[0]] + b[1..];
    }
  }

  lemma {:induction false} LeqTransitive(a: string, b: string, c: string)
    requires Leq(a, b) && Leq(b, c)
    ensures Leq(a, c)
  {
    if a != "" && a[0] == b[0] == c[0] {
      LeqTransitive(a[1..], b[1..], c[1..]);
    }
  }

  // ----- sorting -----

  predicate Sorted(xs: seq<string>) {
    forall i, j :: 0 <= i < j < |xs| ==> Leq(xs[i], xs[j])
  }

  /** Moves a[n] down to its place among the sorted elements before it. */
  method Insert(a: array<string>, n: nat)
    requires n < a.Length && Sorted(a[..n])
    modifies a
    ensures Sorted(a[..n + 1]) && multiset(a[..]) == multiset(old(a[..]))
  {
    var j := n;
    while j > 0 && !Leq(a[j - 1], a[j])
      invariant 0 <= j <= n
      invariant multiset(a[..]) == multiset(old(a[..]))
      invariant forall k, l :: 0 <= k < l <= n && l != j ==> Leq(a[k], a[l])
    {
      LeqTotal(a[j - 1], a[j]);
      a[j - 1], a[j] := a[j], a[j - 1];
      j := j - 1;
    }
    if j > 0 {
      forall k | 0 <= k < j ensures Leq(a[k], a[j]) {
        if k < j - 1 { LeqTransitive(a[k], a[j - 1], a[j]); }
      }
    }
  }

  /** sort.Strings: the one in-place sort the comparison relies on. */
  method SortStrings(a: array<string>)
    modifies a
    ensures Sorted(a[..]) && multiset(a[..]) == multiset(old(a[..]))
  {
    for i := 0 to a.Length
      invariant Sorted(a[..i]) && multiset(a[..]) == multiset(old(a[..]))
    {
      Insert(a, i);
    }
    assert a[..a.Length] == a[..];
  }

  lemma WithoutLast(xs: seq<string>)
    requires xs != []
    ensures multiset(xs) == multiset(xs[..|xs| - 1]) + multiset{xs[|xs| - 1]}
  {
    assert xs == xs[..|xs| - 1] + [xs[|xs| - 1]];
  }

  lemma Cancel(a: multiset<string>, b: multiset<string>, x: string)
    requires a + multiset{x} == b + multiset{x}
    ensures a == b
  {
    assert a == a + multiset{x} - multiset{x};
    assert b == b + multiset{x} - multiset{x};
  }

  lemma LastIsGreatest(xs: seq<string>, y: string)
    requires Sorted(xs) && xs != [] && y in xs
    ensures Leq(y, xs[|xs| - 1])
  {
    LeqTotal(y, y);
  }

  lemma SameLast(xs: seq<string>, ys: seq<string>)
    requires Sorted(xs) && Sorted(ys) && multiset(xs) == multiset(ys) && xs != [] && ys != []
    ensures xs[|xs| - 1] == ys[|ys| - 1]
  {
    var x, y := xs[|xs| - 1], ys[|ys| - 1];
    assert x in multiset(ys) && y in multiset(xs);
    LastIsGreatest(xs, y);
    LastIsGreatest(ys, x);
    LeqTotal(x, y);
  }

  /** A sorted sequence is determined by its elements. */
  lemma {:induction false} SortedUnique(xs: seq<string>, ys: seq<string>)
    requires Sorted(xs) && Sorted(ys) && multiset(xs) == multiset(ys)
    ensures xs == ys
  {
    assert |multiset(xs)| == |xs| && |multiset(ys)| == |ys|;
    if xs != [] {
      SameLast(xs, ys);
      WithoutLast(xs);
      WithoutLast(ys);
      var fx, fy := xs[..|xs| - 1], ys[..|ys| - 1];
      Cancel(multiset(fx), multiset(fy), xs[|xs| - 1]);
      SortedUnique(fx, fy);
      assert xs == fx + [xs[|xs| - 1]] && ys == fy + [ys[|ys| - 1]];
    }
  }

  // ----- comparing labels -----

  function Lowered(xs: seq<string>, lower: string -> string): seq<string> {
    seq(|xs|, i requires 0 <= i < |xs| => lower(xs[i]))
  }

  /** The same labels, each as often, up to case and order. */
  predicate SameLabels(xs: seq<string>, ys: seq<string>, lower: string -> string) {
    multiset(Lowered(xs, lower)) == multiset(Lowered(ys, lower))
  }

  /** Where a label stands, in whatever casing. */
  function Positions(xs: seq<string>, key: string, lower: string -> string): set<nat> {
    set i: nat | i < |xs| && lower(xs[i]) == key
  }

  lemma {:induction false} CountPositions(xs: seq<string>, key: string, lower: string -> string)
    ensures multiset(Lowered(xs, lower))[key] == |Positions(xs, key, lower)|
  {
    if xs == [] {
      assert Positions(xs, key, lower) == {};
    } else {
      var front, n := xs[..|xs| - 1], |xs| - 1;
      CountPositions(front, key, lower);
      WithoutLast(Lowered(xs, lower));
      assert Lowered(xs, lower)[..n] == Lowered(front, lower);
      assert Positions(xs, key, lower) == Positions(front, key, lower) + (if lower(xs[n]) == key then {n} else {});
    }
  }

  /** Spelled out: every label stands in both equally often, up to case. */
  lemma SameLabelsCount(xs: seq<string>, ys: seq<string>, lower: string -> string)
    ensures SameLabels(xs, ys, lower) <==>
      forall key :: |Positions(xs, key, lower)| == |Positions(ys, key, lower)|
  {
    var a, b := multiset(Lowered(xs, lower)), multiset(Lowered(ys, lower));
    forall key ensures a[key] == |Positions(xs, key, lower)| && b[key] == |Positions(ys, key, lower)| {
      CountPositions(xs, key, lower);
      CountPositions(ys, key, lower);
    }
    if forall key :: |Positions(xs, key, lower)| == |Positions(ys, key, lower)| {
      assert forall key :: a[key] == b[key];
    }
  }

  predicate Distinct(xs: seq<string>) {
    forall i, j :: 0 <= i < j < |xs| ==> xs[i] != xs[j]
  }

  lemma {:induction false} DistinctOnce(xs: seq<string>, x: string)
    requires Distinct(xs)
    ensures multiset(xs)[x] == if x in xs then 1 else 0
  {
    if xs != [] {
      WithoutLast(xs);
      DistinctOnce(xs[..|xs| - 1], x);
      assert xs == xs[..|xs| - 1] + [xs[|xs| - 1]];
    }
  }

  /** Among sequences without repetitions the elements decide. */
  lemma DistinctSame(xs: seq<string>, ys: seq<string>)
    requires Distinct(xs) && Distinct(ys)
    ensures multiset(xs) == multiset(ys) <==> forall x :: x in xs <==> x in ys
  {
    forall x ensures multiset(xs)[x] == (if x in xs then 1 else 0) && multiset(ys)[x] == if x in ys then 1 else 0 {
      DistinctOnce(xs, x);
      DistinctOnce(ys, x);
    }
    assert forall x :: x in multiset(xs) <==> x in xs;
    assert forall x :: x in multiset(ys) <==> x in ys;
  }

  /** The label, up to case, is among the labels. */
  predicate Mentions(xs: seq<string>, key: string, lower: string -> string) {
    exists i :: 0 <= i < |xs| && xs[i] != "" && lower(xs[i]) == key
  }

  lemma LoweredKeys(xs: seq<string>, lower: string -> string, key: string)
    ensures Distinct(Lowered(Deduplicated(xs, lower), lower))
    ensures key in Lowered(Deduplicated(xs, lower), lower) <==> Mentions(xs, key, lower)
  {
    LabelsCover(xs, lower);
    var out := Deduplicated(xs, lower);
    var keys := Lowered(out, lower);
    if Mentions(xs, key, lower) {
      var i :| 0 <= i < |xs| && xs[i] != "" && lower(xs[i]) == key;
      var k :| 0 <= k < |out| && lower(out[k]) == lower(xs[i]);
      assert keys[k] == key;
    }
  }

  /** Two configurations count as the same exactly if they mention the same labels: their order, their
      casing and their repetitions never make a difference, one label more or less always does. */
  lemma SameLabelsMeans(xs: seq<string>, ys: seq<string>, lower: string -> string)
    ensures SameLabels(Deduplicated(xs, lower), Deduplicated(ys, lower), lower) <==>
      forall key :: Mentions(xs, key, lower) <==> Mentions(ys, key, lower)
  {
    var a, b := Lowered(Deduplicated(xs, lower), lower), Lowered(Deduplicated(ys, lower), lower);
    forall key: string
      ensures Distinct(a) && Distinct(b) && (key in a <==> Mentions(xs, key, lower))
        && (key in b <==> Mentions(ys, key, lower))
    {
      LoweredKeys(xs, lower, key);
      LoweredKeys(ys, lower, key);
    }
    LoweredKeys(xs, lower, "");
    LoweredKeys(ys, lower, "");
    DistinctSame(a, b);
  }

  method LoweredArray(xs: seq<string>, lower: string -> string) returns (a: array<string>)
    ensures fresh(a) && a[..] == Lowered(xs, lower)
  {
    a := new string[|xs|];
    for i := 0 to |xs|
      invariant a[..i] == Lowered(xs, lower)[..i]
    {
      a[i] := lower(xs[i]);
    }
  }

  method LabelNamesMatch(existing: seq<string>, want: seq<string>, lower: string -> string) returns (same: bool)
    ensures same <==> SameLabels(existing, want, lower)
  {
    if |existing| != |want| {
      assert |multiset(Lowered(existing, lower))| == |existing| && |multiset(Lowered(want, lower))| == |want|;
      return false;
    }
    var a := LoweredArray(existing, lower);
    var b := LoweredArray(want, lower);
    SortStrings(a);
    SortStrings(b);
    if a[..] == b[..] {
      assert multiset(a[..]) == multiset(b[..]);
    } else if multiset(a[..]) == multiset(b[..]) {
      SortedUnique(a[..], b[..]);
    }
    same := true;
    for i := 0 to a.Length
      invariant same && a[..i] == b[..i]
    {
      if a[i] != b[i] {
        return false;
      }
    }
    assert a[..] == a[..a.Length] && b[..] == b[..b.Length];
  }
}
