/** Geometry over the taxonomy: distances to the six visual-type centers, the
    first-declared nearest type, and softmax weighting. */
module Geometry {
  import opened Reals
  import opened Space
  import opened Transcendental
  import opened Taxonomy

  /** Squared distance from `p` to every center, in declaration order. */
  function SqDistances(p: Point): (ds: seq<real>)
    ensures |ds| == |VisualTypes|
    ensures forall i :: 0 <= i < |ds| ==> ds[i] == SqDist(p, Center(VisualTypes[i]))
  {
    seq(|VisualTypes|, i requires 0 <= i < |VisualTypes| => SqDist(p, Center(VisualTypes[i])))
  }

  /** Euclidean distance from `p` to every center, in declaration order. */
  function Distances(p: Point, m: Math): (ds: seq<real>)
    requires Valid(m)
    ensures |ds| == |VisualTypes|
    ensures forall i :: 0 <= i < |ds| ==> ds[i] == Distance(p, Center(VisualTypes[i]), m)
  {
    seq(|VisualTypes|, i requires 0 <= i < |VisualTypes| => Distance(p, Center(VisualTypes[i]), m))
  }

  /** The nearest visual type: a scan in declaration order that only replaces
      the best type on a strictly smaller distance, so the first-declared type
      wins a tie. */
  function NearestType(p: Point): (v: VisualType)
    ensures forall u :: SqDist(p, Center(v)) <= SqDist(p, Center(u))
    ensures forall u :: Index(u) < Index(v) ==> SqDist(p, Center(u)) > SqDist(p, Center(v))
  {
    var ds := SqDistances(p);
    var k := ArgMinFirst(ds);
    assert forall u :: ds[Index(u)] == SqDist(p, Center(u));
    VisualTypes[k]
  }

  /** The two properties of `NearestType` determine it. */
  lemma NearestTypeUnique(p: Point, v: VisualType)
    requires forall u :: SqDist(p, Center(v)) <= SqDist(p, Center(u))
    requires forall u :: Index(u) < Index(v) ==> SqDist(p, Center(u)) > SqDist(p, Center(v))
    ensures NearestType(p) == v
  {
    var w := NearestType(p);
    assert SqDist(p, Center(w)) == SqDist(p, Center(v));
  }

  /** Scanning the true (square-rooted) distances, as the source does, finds the
      same type as scanning squared distances. */
  lemma NearestBySqrtDistance(p: Point, m: Math)
    requires Valid(m)
    ensures VisualTypes[ArgMinFirst(Distances(p, m))] == NearestType(p)
  {
    var ds := Distances(p, m);
    var k := ArgMinFirst(ds);
    var v := VisualTypes[k];
    assert Index(v) == k;
    forall u
      ensures SqDist(p, Center(v)) <= SqDist(p, Center(u))
      ensures Index(u) < Index(v) ==> SqDist(p, Center(u)) > SqDist(p, Center(v))
    {
      assert ds[Index(u)] == Distance(p, Center(u), m);
      SqrtMonotone(m, SqDist(p, Center(u)), SqDist(p, Center(v)));
    }
    NearestTypeUnique(p, v);
  }

  /** Each center is nearest to its own visual type. */
  lemma NearestOfCenter(v: VisualType)
    ensures NearestType(Center(v)) == v
  {
    forall u | Index(u) < Index(v)
      ensures SqDist(Center(v), Center(u)) > SqDist(Center(v), Center(v))
    {
    }
    NearestTypeUnique(Center(v), v);
  }

  /** Distance from `p` to its nearest center. */
  function NearestDistance(p: Point, m: Math): (d: real)
    requires Valid(m)
    ensures d >= 0.0
    ensures forall u :: d <= Distance(p, Center(u), m)
    ensures exists u :: d == Distance(p, Center(u), m)
  {
    var v := NearestType(p);
    forall u ensures Distance(p, Center(v), m) <= Distance(p, Center(u), m) {
      SqrtMonotone(m, SqDist(p, Center(v)), SqDist(p, Center(u)));
    }
    Distance(p, Center(v), m)
  }

  /** `exp((s - top) / temperature)` for every score `s`. */
  function Exponentials(scores: seq<real>, top: real, temperature: real, m: Math): (e: seq<real>)
    requires Valid(m) && temperature != 0.0
    ensures |e| == |scores|
    ensures forall i :: 0 <= i < |e| ==> e[i] > 0.0
    ensures forall i, j :: 0 <= i < |e| && 0 <= j < |e| && scores[i] == scores[j] ==> e[i] == e[j]
  {
    seq(|scores|, i requires 0 <= i < |scores| => m.exp((scores[i] - top) / temperature))
  }

  /** Divide positive values by their total so they sum to one. */
  function Normalize(e: seq<real>): (w: seq<real>)
    requires forall i :: 0 <= i < |e| ==> e[i] > 0.0
    ensures |w| == |e|
    ensures forall i :: 0 <= i < |w| ==> w[i] > 0.0
    ensures |e| > 0 ==> Sum(w) == 1.0
    ensures forall i, j :: 0 <= i < |w| && 0 <= j < |w| && e[i] == e[j] ==> w[i] == w[j]
  {
    if |e| == 0 then []
    else
      var total := Sum(e);
      SumPositiveIff(e);
      assert e[0] > 0.0;
      SumDivideAll(e, total);
      assert Sum(e) / total == 1.0;
      DivideAll(e, total)
  }

  /** Softmax at a temperature, stabilised by subtracting the maximum score.
      An empty score list gives an empty weight list. */
  function Softmax(scores: seq<real>, temperature: real, m: Math): (w: seq<real>)
    requires Valid(m) && temperature != 0.0
    ensures |w| == |scores|
    ensures forall i :: 0 <= i < |w| ==> w[i] > 0.0
    ensures |scores| > 0 ==> Sum(w) == 1.0
    ensures forall i, j :: 0 <= i < |w| && 0 <= j < |w| && scores[i] == scores[j] ==> w[i] == w[j]
  {
    var top := if |scores| == 0 then 0.0 else MaxOf(scores);
    Normalize(Exponentials(scores, top, temperature, m))
  }

  /** Equal scores give the uniform distribution: every weight equals the
      first, which is one n-th. */
  lemma SoftmaxUniform(scores: seq<real>, temperature: real, m: Math)
    requires Valid(m) && temperature != 0.0
    requires |scores| > 0
    requires forall i :: 0 <= i < |scores| ==> scores[i] == scores[0]
    ensures forall i :: 0 <= i < |scores| ==>
              Softmax(scores, temperature, m)[i] == Softmax(scores, temperature, m)[0]
    ensures Softmax(scores, temperature, m)[0] * (|scores| as real) == 1.0
  {
    UniformWeights(Softmax(scores, temperature, m), |scores|);
  }

  /** Equal weights summing to one are each one n-th. */
  lemma UniformWeights(w: seq<real>, n: nat)
    requires n == |w| > 0 && Sum(w) == 1.0
    requires forall i :: 0 <= i < |w| ==> w[i] == w[0]
    ensures w[0] * (n as real) == 1.0
  {
    SumConstant(w, w[0]);
  }

  lemma {:induction false} SumConstant(xs: seq<real>, c: real)
    requires forall i :: 0 <= i < |xs| ==> xs[i] == c
    ensures Sum(xs) == (|xs| as real) * c
  {
    if |xs| > 0 {
      SumConstant(xs[1..], c);
      assert (|xs| as real) * c == c + ((|xs| - 1) as real) * c;
    }
  }
}
