/** The five-axis dissolution parameter space: axes in their canonical order,
    points as immutable 5-tuples of reals, linear interpolation, squared
    distance and weighted averaging. */
module Space {
  import opened Reals

  datatype Axis = DissolutionRate | EdgeCoherence | SubstrateVisibility | PigmentHydrology | AnchorDensity

  /** The canonical axis order every per-coordinate iteration follows. */
  const Axes: seq<Axis> := [DissolutionRate, EdgeCoherence, SubstrateVisibility, PigmentHydrology, AnchorDensity]

  function AxisId(a: Axis): string
  {
    match a
    case DissolutionRate => "dissolution_rate"
    case EdgeCoherence => "edge_coherence"
    case SubstrateVisibility => "substrate_visibility"
    case PigmentHydrology => "pigment_hydrology"
    case AnchorDensity => "anchor_density"
  }

  /** Position of an axis in `Axes`. */
  function AxisIndex(a: Axis): (i: nat)
    ensures i < |Axes| && Axes[i] == a
  {
    match a
    case DissolutionRate => 0
    case EdgeCoherence => 1
    case SubstrateVisibility => 2
    case PigmentHydrology => 3
    case AnchorDensity => 4
  }

  datatype Point = Point(dissolutionRate: real, edgeCoherence: real, substrateVisibility: real,
                         pigmentHydrology: real, anchorDensity: real)
  {
    function Coord(a: Axis): real
    {
      match a
      case DissolutionRate => dissolutionRate
      case EdgeCoherence => edgeCoherence
      case SubstrateVisibility => substrateVisibility
      case PigmentHydrology => pigmentHydrology
      case AnchorDensity => anchorDensity
    }
  }

  /** The point whose coordinate on each axis `k` is `f(k)` (a dict comprehension over the axes). */
  function Make(f: Axis -> real): (p: Point)
    ensures forall k :: p.Coord(k) == f(k)
  {
    Point(f(DissolutionRate), f(EdgeCoherence), f(SubstrateVisibility), f(PigmentHydrology), f(AnchorDensity))
  }

  /** Two points are equal when they agree on every axis. */
  lemma PointExt(p: Point, q: Point)
    requires forall k :: p.Coord(k) == q.Coord(k)
    ensures p == q
  {
    assert p.Coord(DissolutionRate) == q.Coord(DissolutionRate);
    assert p.Coord(EdgeCoherence) == q.Coord(EdgeCoherence);
    assert p.Coord(SubstrateVisibility) == q.Coord(SubstrateVisibility);
    assert p.Coord(PigmentHydrology) == q.Coord(PigmentHydrology);
    assert p.Coord(AnchorDensity) == q.Coord(AnchorDensity);
  }

  ghost predicate InUnitCube(p: Point)
  {
    forall k :: 0.0 <= p.Coord(k) <= 1.0
  }

  /** Linear interpolation `a + t*(b - a)` on every axis; `t` is not clamped. */
  function Lerp(a: Point, b: Point, t: real): (r: Point)
    ensures t == 0.0 ==> r == a
    ensures t == 1.0 ==> r == b
    ensures 0.0 <= t <= 1.0 ==>
              forall k :: Min(a.Coord(k), b.Coord(k)) <= r.Coord(k) <= Max(a.Coord(k), b.Coord(k))
  {
    var r := Make(k => a.Coord(k) + t * (b.Coord(k) - a.Coord(k)));
    if t == 0.0 then
      PointExt(r, a); r
    else if t == 1.0 then
      PointExt(r, b); r
    else
      BetweenOnEveryAxis(a, b, t, r); r
  }

  lemma BetweenOnEveryAxis(a: Point, b: Point, t: real, r: Point)
    requires forall k :: r.Coord(k) == a.Coord(k) + t * (b.Coord(k) - a.Coord(k))
    ensures 0.0 <= t <= 1.0 ==>
              forall k :: Min(a.Coord(k), b.Coord(k)) <= r.Coord(k) <= Max(a.Coord(k), b.Coord(k))
  {
    if 0.0 <= t <= 1.0 {
      forall k
        ensures Min(a.Coord(k), b.Coord(k)) <= r.Coord(k) <= Max(a.Coord(k), b.Coord(k))
      {
        StepBetween(a.Coord(k), b.Coord(k), t);
      }
    }
  }

  /** `x + t*(y - x)` lies between `x` and `y` for `t` in [0, 1]. */
  lemma StepBetween(x: real, y: real, t: real)
    requires 0.0 <= t <= 1.0
    ensures Min(x, y) <= x + t * (y - x) <= Max(x, y)
  {
    if x <= y {
      ProductNonNegative(t, y - x);
      ProductNonNegative(1.0 - t, y - x);
    } else {
      ProductNonNegative(t, x - y);
      ProductNonNegative(1.0 - t, x - y);
    }
  }

  lemma ProductNonNegative(a: real, b: real)
    requires a >= 0.0 && b >= 0.0
    ensures a * b >= 0.0
  {
  }

  /** `c * s` split over `s == a + b`. */
  lemma SplitProduct(c: real, a: real, b: real, s: real)
    requires s == a + b
    ensures c * s == c * a + c * b
  {
  }

  lemma SquarePositive(x: real)
    ensures x * x >= 0.0
  {
  }

  /** Squared Euclidean distance: the comparison key of every nearest-type scan. */
  function SqDist(a: Point, b: Point): (d: real)
    ensures d >= 0.0
    ensures a == b ==> d == 0.0
  {
    var d0 := a.dissolutionRate - b.dissolutionRate;
    var d1 := a.edgeCoherence - b.edgeCoherence;
    var d2 := a.substrateVisibility - b.substrateVisibility;
    var d3 := a.pigmentHydrology - b.pigmentHydrology;
    var d4 := a.anchorDensity - b.anchorDensity;
    SquarePositive(d0); SquarePositive(d1); SquarePositive(d2); SquarePositive(d3); SquarePositive(d4);
    d0 * d0 + d1 * d1 + d2 * d2 + d3 * d3 + d4 * d4
  }

  /** Squared distance does not depend on the order of its arguments. */
  lemma SqDistSymmetric(a: Point, b: Point)
    ensures SqDist(a, b) == SqDist(b, a)
  {
    SquareOfDifference(a.dissolutionRate, b.dissolutionRate);
    SquareOfDifference(a.edgeCoherence, b.edgeCoherence);
    SquareOfDifference(a.substrateVisibility, b.substrateVisibility);
    SquareOfDifference(a.pigmentHydrology, b.pigmentHydrology);
    SquareOfDifference(a.anchorDensity, b.anchorDensity);
  }

  lemma SquareOfDifference(x: real, y: real)
    ensures (x - y) * (x - y) == (y - x) * (y - x)
  {
    assert y - x == -(x - y);
  }

  /** Coordinate `a` of every point in `ps`. */
  function Project(ps: seq<Point>, a: Axis): (r: seq<real>)
    ensures |r| == |ps|
    ensures forall i :: 0 <= i < |ps| ==> r[i] == ps[i].Coord(a)
  {
    seq(|ps|, i requires 0 <= i < |ps| => ps[i].Coord(a))
  }

  /** `w[0]*x[0] + w[1]*x[1] + ...`, accumulated in order. */
  function WeightedSum(ws: seq<real>, xs: seq<real>): real
    requires |ws| == |xs|
  {
    if |ws| == 0 then 0.0 else ws[0] * xs[0] + WeightedSum(ws[1..], xs[1..])
  }

  /** With non-negative weights, a weighted sum lies between `lo*Sum(ws)` and `hi*Sum(ws)`
      whenever every value lies in `[lo, hi]`. */
  lemma WeightedSumBounds(ws: seq<real>, xs: seq<real>, lo: real, hi: real)
    requires |ws| == |xs|
    requires forall i :: 0 <= i < |ws| ==> ws[i] >= 0.0
    requires forall i :: 0 <= i < |xs| ==> lo <= xs[i] <= hi
    ensures lo * Sum(ws) <= WeightedSum(ws, xs) <= hi * Sum(ws)
  {
    WeightedSumAtLeast(ws, xs, lo);
    WeightedSumAtMost(ws, xs, hi);
  }

  lemma {:induction false} WeightedSumAtLeast(ws: seq<real>, xs: seq<real>, lo: real)
    requires |ws| == |xs|
    requires forall i :: 0 <= i < |ws| ==> ws[i] >= 0.0
    requires forall i :: 0 <= i < |xs| ==> lo <= xs[i]
    ensures lo * Sum(ws) <= WeightedSum(ws, xs)
  {
    if |ws| > 0 {
      WeightedSumAtLeast(ws[1..], xs[1..], lo);
      LowerStep(ws[0], xs[0], lo, Sum(ws[1..]), WeightedSum(ws[1..], xs[1..]), Sum(ws));
    }
  }

  lemma {:induction false} WeightedSumAtMost(ws: seq<real>, xs: seq<real>, hi: real)
    requires |ws| == |xs|
    requires forall i :: 0 <= i < |ws| ==> ws[i] >= 0.0
    requires forall i :: 0 <= i < |xs| ==> xs[i] <= hi
    ensures WeightedSum(ws, xs) <= hi * Sum(ws)
  {
    if |ws| > 0 {
      WeightedSumAtMost(ws[1..], xs[1..], hi);
      UpperStep(ws[0], xs[0], hi, Sum(ws[1..]), WeightedSum(ws[1..], xs[1..]), Sum(ws));
    }
  }

  /** One step of `WeightedSumAtLeast`: adding `w*x` with `x >= lo` keeps the lower bound. */
  lemma LowerStep(w: real, x: real, lo: real, restSum: real, restValue: real, total: real)
    requires w >= 0.0 && lo <= x
    requires lo * restSum <= restValue
    requires total == w + restSum
    ensures lo * total <= w * x + restValue
  {
    ProductNonNegative(w, x - lo);
    SplitProduct(lo, w, restSum, total);
  }

  /** One step of `WeightedSumAtMost`: adding `w*x` with `x <= hi` keeps the upper bound. */
  lemma UpperStep(w: real, x: real, hi: real, restSum: real, restValue: real, total: real)
    requires w >= 0.0 && x <= hi
    requires restValue <= hi * restSum
    requires total == w + restSum
    ensures w * x + restValue <= hi * total
  {
    ProductNonNegative(w, hi - x);
    SplitProduct(hi, w, restSum, total);
  }

  /** The weighted average of `ps` on every axis (weights are not renormalised). */
  function Blend(ws: seq<real>, ps: seq<Point>): (r: Point)
    requires |ws| == |ps|
    ensures forall k :: r.Coord(k) == WeightedSum(ws, Project(ps, k))
  {
    Make(k => WeightedSum(ws, Project(ps, k)))
  }

  /** Smallest and largest coordinate on axis `a` among `ps`. */
  function AxisMin(ps: seq<Point>, a: Axis): (r: real)
    requires |ps| > 0
    ensures forall i :: 0 <= i < |ps| ==> r <= ps[i].Coord(a)
    ensures exists i :: 0 <= i < |ps| && ps[i].Coord(a) == r
  {
    -MaxOf(Negate(Project(ps, a)))
  }

  function AxisMax(ps: seq<Point>, a: Axis): (r: real)
    requires |ps| > 0
    ensures forall i :: 0 <= i < |ps| ==> ps[i].Coord(a) <= r
    ensures exists i :: 0 <= i < |ps| && ps[i].Coord(a) == r
  {
    MaxOf(Project(ps, a))
  }

  /** A convex combination of points stays inside their bounding box. */
  lemma BlendInBox(ws: seq<real>, ps: seq<Point>)
    requires |ws| == |ps| > 0
    requires forall i :: 0 <= i < |ws| ==> ws[i] >= 0.0
    requires Sum(ws) == 1.0
    ensures forall k :: AxisMin(ps, k) <= Blend(ws, ps).Coord(k) <= AxisMax(ps, k)
  {
    forall k
      ensures AxisMin(ps, k) <= Blend(ws, ps).Coord(k) <= AxisMax(ps, k)
    {
      BlendInBoxOnAxis(ws, ps, k);
    }
  }

  /** A point whose coordinates are a convex combination of `ps` lies in their bounding box. */
  lemma AverageInBox(ws: seq<real>, ps: seq<Point>, p: Point)
    requires |ws| == |ps| > 0
    requires forall i :: 0 <= i < |ws| ==> ws[i] >= 0.0
    requires Sum(ws) == 1.0
    requires forall k :: p.Coord(k) == WeightedSum(ws, Project(ps, k))
    ensures forall k :: AxisMin(ps, k) <= p.Coord(k) <= AxisMax(ps, k)
  {
    forall k ensures AxisMin(ps, k) <= p.Coord(k) <= AxisMax(ps, k) {
      BlendInBoxOnAxis(ws, ps, k);
    }
  }

  /** A convex combination of points of the unit cube lies in the unit cube. */
  lemma AverageInUnitCube(ws: seq<real>, ps: seq<Point>, p: Point)
    requires |ws| == |ps|
    requires forall i :: 0 <= i < |ws| ==> ws[i] >= 0.0
    requires Sum(ws) == 1.0
    requires forall i :: 0 <= i < |ps| ==> InUnitCube(ps[i])
    requires forall k :: p.Coord(k) == WeightedSum(ws, Project(ps, k))
    ensures InUnitCube(p)
  {
    forall k ensures 0.0 <= p.Coord(k) <= 1.0 {
      var xs := Project(ps, k);
      assert forall i :: 0 <= i < |xs| ==> 0.0 <= xs[i] <= 1.0;
      WeightedSumBounds(ws, xs, 0.0, 1.0);
    }
  }

  lemma BlendInBoxOnAxis(ws: seq<real>, ps: seq<Point>, k: Axis)
    requires |ws| == |ps| > 0
    requires forall i :: 0 <= i < |ws| ==> ws[i] >= 0.0
    requires Sum(ws) == 1.0
    ensures AxisMin(ps, k) <= Blend(ws, ps).Coord(k) <= AxisMax(ps, k)
  {
    var xs := Project(ps, k);
    var lo, hi := AxisMin(ps, k), AxisMax(ps, k);
    assert forall i :: 0 <= i < |xs| ==> lo <= xs[i] <= hi;
    ConvexBounds(ws, xs, lo, hi);
    assert Blend(ws, ps).Coord(k) == WeightedSum(ws, xs);
  }

  /** With non-negative weights summing to one, a weighted sum of values in
      `[lo, hi]` lies in `[lo, hi]`. */
  lemma ConvexBounds(ws: seq<real>, xs: seq<real>, lo: real, hi: real)
    requires |ws| == |xs|
    requires forall i :: 0 <= i < |ws| ==> ws[i] >= 0.0
    requires Sum(ws) == 1.0
    requires forall i :: 0 <= i < |xs| ==> lo <= xs[i] <= hi
    ensures lo <= WeightedSum(ws, xs) <= hi
  {
    WeightedSumBounds(ws, xs, lo, hi);
    assert lo * Sum(ws) == lo * 1.0 && hi * Sum(ws) == hi * 1.0;
  }
}
