/** Scalar helpers over `real`: clamping, sums, first arg-min / arg-max scans,
    and the facts about sums that softmax and weighted averaging rely on. */
module Reals {

  function Min(a: real, b: real): real { if a <= b then a else b }

  function Max(a: real, b: real): real { if a >= b then a else b }

  function Abs(x: real): real { if x < 0.0 then -x else x }

  /** `max(0.0, min(1.0, x))`: the clamp applied to every mapped coordinate. */
  function Clamp01(x: real): (r: real)
    ensures 0.0 <= r <= 1.0
    ensures 0.0 <= x <= 1.0 ==> r == x
    ensures x < 0.0 ==> r == 0.0
    ensures x > 1.0 ==> r == 1.0
  {
    Max(0.0, Min(1.0, x))
  }

  function Sum(xs: seq<real>): real
  {
    if |xs| == 0 then 0.0 else xs[0] + Sum(xs[1..])
  }

  /** Every entry of `xs` divided by `d`. */
  function DivideAll(xs: seq<real>, d: real): (r: seq<real>)
    requires d != 0.0
    ensures |r| == |xs|
    ensures forall i :: 0 <= i < |xs| ==> r[i] == xs[i] / d
  {
    seq(|xs|, i requires 0 <= i < |xs| => xs[i] / d)
  }

  lemma {:induction false} SumDivideAll(xs: seq<real>, d: real)
    requires d != 0.0
    ensures Sum(DivideAll(xs, d)) == Sum(xs) / d
  {
    if |xs| > 0 {
      assert DivideAll(xs, d)[1..] == DivideAll(xs[1..], d);
      SumDivideAll(xs[1..], d);
    }
  }

  lemma {:induction false} SumNonNegative(xs: seq<real>)
    requires forall i :: 0 <= i < |xs| ==> xs[i] >= 0.0
    ensures Sum(xs) >= 0.0
  {
    if |xs| > 0 {
      SumNonNegative(xs[1..]);
    }
  }

  /** A sum of non-negative terms is positive exactly when some term is. */
  lemma {:induction false} SumPositiveIff(xs: seq<real>)
    requires forall i :: 0 <= i < |xs| ==> xs[i] >= 0.0
    ensures Sum(xs) > 0.0 <==> exists i :: 0 <= i < |xs| && xs[i] > 0.0
  {
    if |xs| > 0 {
      SumPositiveIff(xs[1..]);
      SumNonNegative(xs[1..]);
      if xs[0] <= 0.0 {
        assert forall i :: 1 <= i < |xs| ==> xs[i] == xs[1..][i - 1];
      } else {
        assert Sum(xs) > 0.0;
      }
    }
  }

  /** If every term stays below `c`, the sum stays below `|xs| * c`. */
  lemma {:induction false} SumBelowBound(xs: seq<real>, c: real)
    requires |xs| > 0
    requires forall i :: 0 <= i < |xs| ==> xs[i] < c
    ensures Sum(xs) < (|xs| as real) * c
  {
    if |xs| > 1 {
      SumBelowBound(xs[1..], c);
    }
  }

  /** If the sum reaches `|xs| * c`, some term reaches `c`. */
  lemma SomeTermReaches(xs: seq<real>, c: real)
    requires |xs| > 0
    requires Sum(xs) >= (|xs| as real) * c
    ensures exists i :: 0 <= i < |xs| && xs[i] >= c
  {
    if forall i :: 0 <= i < |xs| ==> xs[i] < c {
      SumBelowBound(xs, c);
    }
  }

  /** Index of the FIRST minimal entry: a left-to-right scan that replaces the
      best so far only on a strictly smaller value. */
  function ArgMinFirst(xs: seq<real>): (k: nat)
    requires |xs| > 0
    ensures k < |xs|
    ensures forall j :: 0 <= j < |xs| ==> xs[k] <= xs[j]
    ensures forall j :: 0 <= j < k ==> xs[j] > xs[k]
  {
    if |xs| == 1 then 0
    else
      var k := ArgMinFirst(xs[..|xs| - 1]);
      if xs[|xs| - 1] < xs[k] then |xs| - 1 else k
  }

  /** The first-minimum is the only index that is minimal with nothing minimal before it. */
  lemma ArgMinFirstUnique(xs: seq<real>, k: nat)
    requires k < |xs|
    requires forall j :: 0 <= j < |xs| ==> xs[k] <= xs[j]
    requires forall j :: 0 <= j < k ==> xs[j] > xs[k]
    ensures ArgMinFirst(xs) == k
  {
  }

  function Negate(xs: seq<real>): (r: seq<real>)
    ensures |r| == |xs|
    ensures forall i :: 0 <= i < |xs| ==> r[i] == -xs[i]
  {
    seq(|xs|, i requires 0 <= i < |xs| => -xs[i])
  }

  /** Index of the FIRST maximal entry, as Python's `max(d, key=d.get)` picks it. */
  function ArgMaxFirst(xs: seq<real>): (k: nat)
    requires |xs| > 0
    ensures k < |xs|
    ensures forall j :: 0 <= j < |xs| ==> xs[j] <= xs[k]
    ensures forall j :: 0 <= j < k ==> xs[j] < xs[k]
  {
    ArgMinFirst(Negate(xs))
  }

  lemma ArgMaxFirstUnique(xs: seq<real>, k: nat)
    requires k < |xs|
    requires forall j :: 0 <= j < |xs| ==> xs[j] <= xs[k]
    requires forall j :: 0 <= j < k ==> xs[j] < xs[k]
    ensures ArgMaxFirst(xs) == k
  {
    ArgMinFirstUnique(Negate(xs), k);
  }

  function MaxOf(xs: seq<real>): (r: real)
    requires |xs| > 0
    ensures forall j :: 0 <= j < |xs| ==> xs[j] <= r
    ensures exists j :: 0 <= j < |xs| && xs[j] == r
  {
    xs[ArgMaxFirst(xs)]
  }
}
