/** Id resolution and the operations built on it: the distance report, the
    linear trajectory, and the state resolution of the vocabulary extractor
    and of the attractor prompt (which uses a different order and never fails). */
module Resolution {
  import opened Reals
  import opened Results
  import opened Space
  import opened Transcendental
  import opened Taxonomy
  import opened Geometry
  import opened Vocabulary

  // ---------------------------------------------------------------- ids

  /** `_resolve`: a canonical state first, then a visual type, then an attractor preset. */
  function Resolve(id: string): (r: Option<Point>)
    ensures r.Some? <==> id in CanonicalIds() || id in VisualTypeIds || id in AttractorIds()
    ensures id in CanonicalIds() ==> r == FindCanonical(id)
    ensures id !in CanonicalIds() && id in VisualTypeIds ==> r == Some(Center(ParseVisualType(id).value))
    ensures id !in CanonicalIds() && id !in VisualTypeIds ==> r == FindAttractor(id)
  {
    if FindCanonical(id).Some? then FindCanonical(id)
    else if ParseVisualType(id).Some? then Some(Center(ParseVisualType(id).value))
    else FindAttractor(id)
  }

  /** Every visual type id is also a canonical id with the same coordinates, so
      the visual-type branch of the resolver never decides anything. */
  lemma ResolveVisualType(v: VisualType)
    ensures VisualTypeId(v) in CanonicalIds()
    ensures Resolve(VisualTypeId(v)) == Some(Center(v))
  {
    VisualTypesAreCanonical(v);
  }

  /** An unresolved id is an error that names it. */
  function ResolveOrFail(id: string): (r: Result<Point>)
    ensures r.Err? <==> Resolve(id).None?
    ensures r.Err? ==> r.error == UnknownId(id)
    ensures r.Ok? ==> Some(r.value) == Resolve(id)
  {
    match Resolve(id)
    case None => Err(UnknownId(id))
    case Some(p) => Ok(p)
  }

  // ---------------------------------------------------------------- distance

  /** `b - a` on every axis. */
  function Difference(a: Point, b: Point): (d: Point)
    ensures forall k :: d.Coord(k) == b.Coord(k) - a.Coord(k)
  {
    Make(k => b.Coord(k) - a.Coord(k))
  }

  /** Absolute per-axis values in axis order. */
  function Magnitudes(d: Point): (r: seq<real>)
    ensures |r| == |Axes|
    ensures forall k :: r[AxisIndex(k)] == Abs(d.Coord(k))
  {
    seq(|Axes|, i requires 0 <= i < |Axes| => Abs(d.Coord(Axes[i])))
  }

  /** The first axis (in axis order) with the largest absolute difference. */
  function DominantAxis(d: Point): (a: Axis)
    ensures forall k :: Abs(d.Coord(k)) <= Abs(d.Coord(a))
    ensures forall k :: AxisIndex(k) < AxisIndex(a) ==> Abs(d.Coord(k)) < Abs(d.Coord(a))
  {
    var ms := Magnitudes(d);
    var i := ArgMaxFirst(ms);
    assert AxisIndex(Axes[i]) == i;
    Axes[i]
  }

  datatype DistanceReport = DistanceReport(distance: real, difference: Point, dominant: Axis)

  /** The distance report between two ids; the first id is checked first. */
  function ComputeDistance(id1: string, id2: string, m: Math): (r: Result<DistanceReport>)
    requires Valid(m)
    ensures Resolve(id1).None? ==> r == Err(UnknownId(id1))
    ensures Resolve(id1).Some? && Resolve(id2).None? ==> r == Err(UnknownId(id2))
    ensures r.Ok? <==> Resolve(id1).Some? && Resolve(id2).Some?
    ensures r.Ok? ==>
              var a, b := Resolve(id1).value, Resolve(id2).value;
              && r.value.distance == Distance(a, b, m)
              && r.value.difference == Difference(a, b)
              && r.value.dominant == DominantAxis(Difference(a, b))
  {
    match (ResolveOrFail(id1), ResolveOrFail(id2))
    case (Err(e), _) => Err(e)
    case (_, Err(e)) => Err(e)
    case (Ok(a), Ok(b)) =>
      var d := Difference(a, b);
      Ok(DistanceReport(Distance(a, b, m), d, DominantAxis(d)))
  }

  /** Swapping the ids keeps the distance and the dominant axis and negates the difference. */
  lemma DistanceSymmetric(id1: string, id2: string, m: Math)
    requires Valid(m)
    requires Resolve(id1).Some? && Resolve(id2).Some?
    ensures var r, s := ComputeDistance(id1, id2, m), ComputeDistance(id2, id1, m);
            && r.Ok? && s.Ok?
            && r.value.distance == s.value.distance
            && r.value.dominant == s.value.dominant
            && forall k :: r.value.difference.Coord(k) == -s.value.difference.Coord(k)
  {
    var a, b := Resolve(id1).value, Resolve(id2).value;
    SqDistSymmetric(a, b);
    DominantAxisOfNegation(Difference(a, b), Difference(b, a));
  }

  lemma DominantAxisOfNegation(d: Point, e: Point)
    requires forall k :: e.Coord(k) == -d.Coord(k)
    ensures DominantAxis(d) == DominantAxis(e)
  {
    assert forall i :: 0 <= i < |Axes| ==> Abs(d.Coord(Axes[i])) == Abs(e.Coord(Axes[i]));
    assert Magnitudes(d) == Magnitudes(e);
  }

  // ---------------------------------------------------------------- trajectory

  datatype Sample = Sample(step: int, t: real, state: Point, nearest: VisualType, nearestDistance: real)

  /** The sample at parameter `t` of the segment from `a` to `b`. */
  function SampleAt(step: int, t: real, a: Point, b: Point, m: Math): (s: Sample)
    requires Valid(m)
    ensures s.step == step && s.t == t && s.state == Lerp(a, b, t)
    ensures s.nearest == NearestType(s.state) && s.nearestDistance == NearestDistance(s.state, m)
  {
    var state := Lerp(a, b, t);
    Sample(step, t, state, NearestType(state), NearestDistance(state, m))
  }

  datatype Trajectory = Trajectory(samples: seq<Sample>, totalDistance: real)

  /** `num_steps + 1` evenly spaced samples from start to end. Zero steps divide
      by zero in the first sample, which is an error; a negative count gives no samples. */
  function ComputeTrajectory(startId: string, endId: string, numSteps: int, m: Math): (r: Result<Trajectory>)
    requires Valid(m)
    ensures Resolve(startId).None? ==> r == Err(UnknownId(startId))
    ensures Resolve(startId).Some? && Resolve(endId).None? ==> r == Err(UnknownId(endId))
    ensures Resolve(startId).Some? && Resolve(endId).Some? && numSteps == 0 ==> r == Err(ZeroStepCount)
    ensures r.Ok? <==> Resolve(startId).Some? && Resolve(endId).Some? && numSteps != 0
    ensures r.Ok? ==>
              var a, b, ss := Resolve(startId).value, Resolve(endId).value, r.value.samples;
              && r.value.totalDistance == Distance(a, b, m)
              && (numSteps < 0 ==> ss == [])
              && (numSteps > 0 ==> ss == Segment(a, b, numSteps, m))
  {
    match (ResolveOrFail(startId), ResolveOrFail(endId))
    case (Err(e), _) => Err(e)
    case (_, Err(e)) => Err(e)
    case (Ok(a), Ok(b)) =>
      if numSteps == 0 then Err(ZeroStepCount)
      else if numSteps < 0 then Ok(Trajectory([], Distance(a, b, m)))
      else Ok(Trajectory(Segment(a, b, numSteps, m), Distance(a, b, m)))
  }

  /** Samples `i / n` for `i = 0 .. n`: they start at `a`, end at `b`, and
      every sample lies between them on every axis. */
  function Segment(a: Point, b: Point, n: nat, m: Math): (ss: seq<Sample>)
    requires Valid(m) && n > 0
    ensures |ss| == n + 1
    ensures ss[0].state == a && ss[n].state == b
    ensures forall i :: 0 <= i < |ss| ==> ss[i] == SampleAt(i, Fraction(i, n), a, b, m)
    ensures forall i :: 0 <= i < |ss| ==> 0.0 <= ss[i].t <= 1.0
    ensures forall i, k :: 0 <= i < |ss| ==>
              Min(a.Coord(k), b.Coord(k)) <= ss[i].state.Coord(k) <= Max(a.Coord(k), b.Coord(k))
  {
    var ss := seq(n + 1, i requires 0 <= i <= n => SampleAt(i, Fraction(i, n), a, b, m));
    SegmentBetween(ss, a, b, n, m);
    ss
  }

  /** Every sample of a segment has its parameter in [0, 1], so its state lies
      between the endpoints; the first and last samples are the endpoints. */
  lemma SegmentBetween(ss: seq<Sample>, a: Point, b: Point, n: nat, m: Math)
    requires Valid(m) && n > 0 && |ss| == n + 1
    requires forall i :: 0 <= i < |ss| ==> ss[i] == SampleAt(i, Fraction(i, n), a, b, m)
    ensures ss[0].state == a && ss[n].state == b
    ensures forall i :: 0 <= i < |ss| ==> 0.0 <= ss[i].t <= 1.0
    ensures forall i, k :: 0 <= i < |ss| ==>
              Min(a.Coord(k), b.Coord(k)) <= ss[i].state.Coord(k) <= Max(a.Coord(k), b.Coord(k))
  {
    assert ss[0].t == 0.0 && ss[n].t == 1.0;
    forall i | 0 <= i < |ss|
      ensures 0.0 <= ss[i].t <= 1.0
      ensures forall k :: Min(a.Coord(k), b.Coord(k)) <= ss[i].state.Coord(k) <= Max(a.Coord(k), b.Coord(k))
    {
      assert ss[i].t == Fraction(i, n) && ss[i].state == Lerp(a, b, ss[i].t);
    }
  }

  /** `i / n`, which lies in [0, 1] for `0 <= i <= n`. */
  function Fraction(i: nat, n: nat): (q: real)
    requires n > 0
    ensures q * (n as real) == i as real
    ensures i <= n ==> 0.0 <= q <= 1.0
    ensures i == 0 ==> q == 0.0
    ensures i == n ==> q == 1.0
  {
    var q := i as real / n as real;
    assert (1.0 - q) * (n as real) == (n - i) as real;
    q
  }

  // ---------------------------------------------------------------- state resolution

  /** The state the vocabulary extractor works on: a non-empty id that names a
      canonical state (or, redundantly, a visual type) wins; otherwise the given
      state; an error when there is neither. An unknown id falls back to the state. */
  function ExtractState(state: Option<Point>, dissolutionId: string): (r: Result<Point>)
    ensures dissolutionId in CanonicalIds() ==> r == Ok(FindCanonical(dissolutionId).value)
    ensures dissolutionId !in CanonicalIds() && state.Some? ==> r == Ok(state.value)
    ensures dissolutionId !in CanonicalIds() && state.None? ==> r == Err(MissingInput)
  {
    if dissolutionId != "" && FindCanonical(dissolutionId).Some? then Ok(FindCanonical(dissolutionId).value)
    else if dissolutionId != "" && ParseVisualType(dissolutionId).Some? then
      match ParseVisualType(dissolutionId)
      case Some(v) => Ok(Center(v))
      case None => Err(MissingInput)
    else if state.None? then Err(MissingInput)
    else Ok(state.value)
  }

  /** The vocabulary of the resolved state. */
  function ExtractVocabulary(state: Option<Point>, dissolutionId: string, strength: real, m: Math)
    : (r: Result<Vocabulary>)
    requires Valid(m)
    ensures r.Err? <==> ExtractState(state, dissolutionId).Err?
    ensures r.Ok? ==> r.value == Interpolate(ExtractState(state, dissolutionId).value, strength, m)
  {
    match ExtractState(state, dissolutionId)
    case Err(e) => Err(e)
    case Ok(p) => Ok(Interpolate(p, strength, m))
  }

  /** The attractor prompt's state: a custom state first, then an attractor
      preset, a visual type, a canonical state, and `contested_boundary` as the
      fallback; it never fails. */
  function AttractorState(custom: Option<Point>, attractorId: string): (p: Point)
    ensures custom.Some? ==> p == custom.value
    ensures custom.None? && attractorId in AttractorIds() ==> Some(p) == FindAttractor(attractorId)
    ensures custom.None? && attractorId !in AttractorIds() && attractorId in VisualTypeIds ==>
              p == Center(ParseVisualType(attractorId).value)
    ensures (custom.None? && attractorId !in AttractorIds() && attractorId !in VisualTypeIds
             && attractorId in CanonicalIds()) ==> Some(p) == FindCanonical(attractorId)
    ensures custom.None? && Resolve(attractorId).None? ==> p == Center(ContestedBoundary)
  {
    if custom.Some? then custom.value
    else if FindAttractor(attractorId).Some? then FindAttractor(attractorId).value
    else if ParseVisualType(attractorId).Some? then Center(ParseVisualType(attractorId).value)
    else if FindCanonical(attractorId).Some? then FindCanonical(attractorId).value
    else Center(ContestedBoundary)
  }

  /** The two resolution orders agree on every id `_resolve` knows, because
      attractor ids are disjoint from canonical and visual ids. */
  lemma AttractorStateAgreesWithResolve(attractorId: string)
    requires Resolve(attractorId).Some?
    ensures Some(AttractorState(None, attractorId)) == Resolve(attractorId)
  {
    IdsDistinct();
    if attractorId in VisualTypeIds {
      var v := ParseVisualType(attractorId).value;
      ResolveVisualType(v);
    }
  }
}
