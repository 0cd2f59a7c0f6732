/** The visual-vocabulary synthesizer: inverse-distance scores, softmax
    weights, the three best-weighted visual types, and per-type descriptor
    bands read off each contributing type's center. Phrases are represented by
    the ladder branch that produces them, not by their text. */
module Vocabulary {
  import opened Reals
  import opened Space
  import opened Transcendental
  import opened Taxonomy
  import opened Geometry
  import opened Ranking

  // ---------------------------------------------------------------- ladders

  /** A three-step ladder on strict lower bounds: 2 above `hi`, 1 above `lo`, else 0. */
  function TierAbove(x: real, lo: real, hi: real): (t: nat)
    requires lo <= hi
    ensures t <= 2
    ensures t == 2 <==> x > hi
    ensures t == 0 <==> x <= lo
  {
    if x > hi then 2 else if x > lo then 1 else 0
  }

  /** A three-step ladder on strict upper bounds: 0 below `lo`, 1 below `hi`, else 2. */
  function TierBelow(x: real, lo: real, hi: real): (t: nat)
    requires lo <= hi
    ensures t <= 2
    ensures t == 0 <==> x < lo
    ensures t == 2 <==> x >= hi
  {
    if x < lo then 0 else if x < hi then 1 else 2
  }

  lemma TierAboveMonotone(x: real, y: real, lo: real, hi: real)
    requires lo <= hi && x <= y
    ensures TierAbove(x, lo, hi) <= TierAbove(y, lo, hi)
  {
  }

  lemma TierBelowMonotone(x: real, y: real, lo: real, hi: real)
    requires lo <= hi && x <= y
    ensures TierBelow(x, lo, hi) <= TierBelow(y, lo, hi)
  {
  }

  datatype EdgeBand = FeatheredBleedEdges | MixedEdgeNegotiation | ArchitecturalHardEdges
  datatype PaperBand = SubstrateHidden | PaperPartiallyVisible | PaperDominant
  datatype WaterBand = DryTechnique | ControlledWashFrom | WetFlooding
  datatype DissolutionBand = PhotographicDominant | MidDissolutionTension | PainterlyDominant
  datatype AnchorBand = MinimalAnchoring | ScatteredAnchors | DenseAnchors

  /** Edge character of a contributing type: above 0.7 hard, above 0.4 mixed, else feathered. */
  function EdgeBandOf(edgeCoherence: real): EdgeBand
  {
    [FeatheredBleedEdges, MixedEdgeNegotiation, ArchitecturalHardEdges][TierAbove(edgeCoherence, 0.4, 0.7)]
  }

  /** Substrate character of a contributing type: thresholds 0.7 and 0.3. */
  function PaperBandOf(substrateVisibility: real): PaperBand
  {
    [SubstrateHidden, PaperPartiallyVisible, PaperDominant][TierAbove(substrateVisibility, 0.3, 0.7)]
  }

  /** Hydrology character of a contributing type: thresholds 0.7 and 0.3. */
  function WaterBandOf(pigmentHydrology: real): WaterBand
  {
    [DryTechnique, ControlledWashFrom, WetFlooding][TierAbove(pigmentHydrology, 0.3, 0.7)]
  }

  /** Dissolution character of the query point: below 0.3, below 0.6, else painterly. */
  function DissolutionBandOf(dissolutionRate: real): DissolutionBand
  {
    [PhotographicDominant, MidDissolutionTension, PainterlyDominant][TierBelow(dissolutionRate, 0.3, 0.6)]
  }

  /** Anchor character of the query point: thresholds 0.7 and 0.3. */
  function AnchorBandOf(anchorDensity: real): AnchorBand
  {
    [MinimalAnchoring, ScatteredAnchors, DenseAnchors][TierAbove(anchorDensity, 0.3, 0.7)]
  }

  // ---------------------------------------------------------------- weights

  /** Similarity `1 / (d + 0.01)` of `p` to every center. */
  function Scores(p: Point, m: Math): (s: seq<real>)
    requires Valid(m)
    ensures |s| == |VisualTypes|
    ensures forall i :: 0 <= i < |s| ==> s[i] > 0.0 && s[i] == 1.0 / (Distances(p, m)[i] + 0.01)
    ensures forall i, j :: 0 <= i < |s| && 0 <= j < |s| && Distances(p, m)[i] == Distances(p, m)[j] ==> s[i] == s[j]
  {
    var ds := Distances(p, m);
    seq(|ds|, i requires 0 <= i < |ds| => 1.0 / (ds[i] + 0.01))
  }

  /** Softmax of the similarities at temperature 0.5, in declaration order. */
  function Weights(p: Point, m: Math): (w: seq<real>)
    requires Valid(m)
    ensures |w| == |VisualTypes|
    ensures forall i :: 0 <= i < |w| ==> w[i] > 0.0
    ensures Sum(w) == 1.0
    ensures forall i, j :: 0 <= i < |w| && 0 <= j < |w| && Distances(p, m)[i] == Distances(p, m)[j] ==>
              w[i] == w[j]
  {
    Softmax(Scores(p, m), 0.5, m)
  }

  /** Visual types among `top` whose weight exceeds 0.1, in ranking order. */
  function Gate(ws: seq<real>, top: seq<nat>): (g: seq<VisualType>)
    requires forall a :: 0 <= a < |top| ==> top[a] < |VisualTypes| && top[a] < |ws|
    ensures |g| <= |top|
    ensures forall v :: v in g <==> Index(v) in top && ws[Index(v)] > 0.1
    ensures Ranked(ws, top) ==> Ranked(ws, Positions(g))
  {
    if |top| == 0 then []
    else
      var rest := Gate(ws, top[1..]);
      if ws[top[0]] > 0.1 then
        KeptHeadRanked(ws, top, rest);
        [VisualTypes[top[0]]] + rest
      else
        rest
  }

  /** The position of each listed type. */
  function Positions(g: seq<VisualType>): (ps: seq<nat>)
    ensures |ps| == |g|
    ensures forall i :: 0 <= i < |g| ==> ps[i] == Index(g[i])
  {
    seq(|g|, i requires 0 <= i < |g| => Index(g[i]))
  }

  /** Keeping the head of a ranked list in front of a ranked selection from its tail keeps it ranked. */
  lemma KeptHeadRanked(ws: seq<real>, top: seq<nat>, rest: seq<VisualType>)
    requires |top| > 0 && top[0] < |VisualTypes|
    requires forall v :: v in rest ==> Index(v) in top[1..]
    ensures Ranked(ws, top) && Ranked(ws, Positions(rest)) ==> Ranked(ws, Positions([VisualTypes[top[0]]] + rest))
  {
    if Ranked(ws, top) && Ranked(ws, Positions(rest)) {
      var ps := Positions([VisualTypes[top[0]]] + rest);
      forall a, b | 0 <= a < b < |ps| ensures Precedes(ws, ps[a], ps[b]) {
        if a == 0 {
          assert rest[b - 1] in rest;
          var y :| 0 <= y < |top[1..]| && top[1..][y] == Index(rest[b - 1]);
          assert top[y + 1] == ps[b];
        } else {
          assert Positions(rest)[a - 1] == ps[a] && Positions(rest)[b - 1] == ps[b];
        }
      }
    }
  }

  /** The weight-gated contributing types: at most three, best first. */
  function Contributors(p: Point, m: Math): (g: seq<VisualType>)
    requires Valid(m)
    ensures |g| <= 3
    ensures forall v :: v in g <==> Index(v) in Top(Weights(p, m), 3) && Weights(p, m)[Index(v)] > 0.1
    ensures Ranked(Weights(p, m), Positions(g))
  {
    Gate(Weights(p, m), Top(Weights(p, m), 3))
  }

  // ---------------------------------------------------------------- descriptors

  /** A descriptor: the band read off a contributing type's center, or the fallback phrase. */
  datatype Note<B> = From(band: B, source: VisualType) | Fallback

  /** One descriptor per contributing type, or the single fallback when there is none. */
  function Describe<B>(g: seq<VisualType>, band: VisualType -> B): (r: seq<Note<B>>)
    ensures |g| == 0 ==> r == [Fallback]
    ensures |g| > 0 ==> |r| == |g| && forall i :: 0 <= i < |g| ==> r[i] == From(band(g[i]), g[i])
  {
    if |g| == 0 then [Fallback] else seq(|g|, i requires 0 <= i < |g| => From(band(g[i]), g[i]))
  }

  /** The band each descriptor category reads off a contributing type's center. */
  function EdgeOf(v: VisualType): EdgeBand { EdgeBandOf(Center(v).edgeCoherence) }
  function PaperOf(v: VisualType): PaperBand { PaperBandOf(Center(v).substrateVisibility) }
  function WaterOf(v: VisualType): WaterBand { WaterBandOf(Center(v).pigmentHydrology) }

  /** The edge, paper and water descriptor lists of a list of contributing types:
      aligned entry by entry, each naming the same source type. */
  function Categories(g: seq<VisualType>): (c: (seq<Note<EdgeBand>>, seq<Note<PaperBand>>, seq<Note<WaterBand>>))
    requires |g| <= 3
    ensures 1 <= |c.0| <= 3 && |c.0| == |c.1| == |c.2|
    ensures c.0[0].Fallback? <==> |g| == 0
    ensures |g| > 0 ==> |c.0| == |g|
    ensures forall i :: 0 <= i < |g| ==>
              && c.0[i] == From(EdgeOf(g[i]), g[i])
              && c.1[i] == From(PaperOf(g[i]), g[i])
              && c.2[i] == From(WaterOf(g[i]), g[i])
  {
    (Describe(g, EdgeOf), Describe(g, PaperOf), Describe(g, WaterOf))
  }

  datatype Vocabulary = Vocabulary(
    nearest: VisualType,
    distance: real,
    dissolution: seq<DissolutionBand>,
    edges: seq<Note<EdgeBand>>,
    paper: seq<Note<PaperBand>>,
    water: seq<Note<WaterBand>>,
    anchors: seq<AnchorBand>,
    strength: real)

  /** `min(distances, key=distances.get)` over the true distances: the first
      closest type and its distance, which agree with the squared-distance scan. */
  function MinDistance(p: Point, m: Math): (r: (VisualType, real))
    requires Valid(m)
    ensures r.0 == NearestType(p)
    ensures r.1 == NearestDistance(p, m)
  {
    var ds := Distances(p, m);
    var k := ArgMinFirst(ds);
    NearestBySqrtDistance(p, m);
    (VisualTypes[k], ds[k])
  }

  /** The vocabulary of a point: the nearest type, the query point's own
      dissolution and anchor bands, and one edge, paper and water descriptor
      per contributing type. */
  function Interpolate(p: Point, strength: real, m: Math): (r: Vocabulary)
    requires Valid(m)
    ensures r.nearest == NearestType(p)
    ensures r.distance == NearestDistance(p, m)
    ensures r.dissolution == [DissolutionBandOf(p.dissolutionRate)]
    ensures r.anchors == [AnchorBandOf(p.anchorDensity)]
    ensures 1 <= |r.edges| <= 3 && |r.edges| == |r.paper| == |r.water|
    ensures (r.edges, r.paper, r.water) == Categories(Contributors(p, m))
    ensures r.strength == strength
  {
    var (nearest, distance) := MinDistance(p, m);
    var g := Contributors(p, m);
    var (edges, paper, water) := Categories(g);
    Vocabulary(
      nearest,
      distance,
      [DissolutionBandOf(p.dissolutionRate)],
      edges,
      paper,
      water,
      [AnchorBandOf(p.anchorDensity)],
      strength)
  }

  /** For any six weights summing to one, the best-weighted type carries at
      least one sixth of the weight, which clears the 0.1 gate. */
  lemma GateKeepsBest(ws: seq<real>)
    requires |ws| == |VisualTypes| && Sum(ws) == 1.0
    ensures VisualTypes[ArgMaxFirst(ws)] in Gate(ws, Top(ws, 3))
  {
    var best := ArgMaxFirst(ws);
    SomeTermReaches(ws, 1.0 / 6.0);
    var i :| 0 <= i < |ws| && ws[i] >= 1.0 / 6.0;
    assert ws[best] > 0.1;
    RankHeadIsArgMax(ws);
    assert Top(ws, 3)[0] == best;
    HeavyHeadKept(ws, Top(ws, 3));
  }

  /** The gate keeps the head of the list when its weight clears 0.1. */
  lemma HeavyHeadKept(ws: seq<real>, top: seq<nat>)
    requires forall a :: 0 <= a < |top| ==> top[a] < |VisualTypes| && top[a] < |ws|
    requires |top| > 0 && ws[top[0]] > 0.1
    ensures VisualTypes[top[0]] in Gate(ws, top)
  {
    var rest := Gate(ws, top[1..]);
    assert Gate(ws, top) == [VisualTypes[top[0]]] + rest;
  }

  /** So the best-weighted type is always a contributor. */
  lemma BestTypeContributes(p: Point, m: Math)
    requires Valid(m)
    ensures VisualTypes[ArgMaxFirst(Weights(p, m))] in Contributors(p, m)
  {
    GateKeepsBest(Weights(p, m));
  }

  /** With at least one contributor, no list holds the fallback. */
  lemma CategoriesWithoutFallback(g: seq<VisualType>)
    requires 0 < |g| <= 3
    ensures var c := Categories(g);
            Fallback !in c.0 && Fallback !in c.1 && Fallback !in c.2
  {
    var c := Categories(g);
    assert forall i :: 0 <= i < |c.0| ==> c.0[i].From? && c.1[i].From? && c.2[i].From?;
  }

  /** Hence the fallback phrases of the three descriptor lists never appear. */
  lemma NeverFallback(p: Point, strength: real, m: Math)
    requires Valid(m)
    ensures var r := Interpolate(p, strength, m);
            Fallback !in r.edges && Fallback !in r.paper && Fallback !in r.water
  {
    BestTypeContributes(p, m);
    CategoriesWithoutFallback(Contributors(p, m));
  }
}
