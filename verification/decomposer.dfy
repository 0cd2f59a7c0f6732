/** The description decomposer: additive fragment scores per visual type
    (1 for a full fragment, 0.5 for an optical or color fragment), softmax
    weights at temperature 1, and the weighted average of the six centers. */
module Decomposer {
  import opened Reals
  import opened Space
  import opened Transcendental
  import opened Taxonomy
  import opened Text
  import opened Geometry

  /** Fragment lists per visual type, in declaration order. */
  const FragmentTerms: seq<seq<string>> := [
    ["editorial", "magazine", "controlled", "sharp", "accent", "selective", "restrain", "subtle", "disciplin", "photographic"],
    ["tension", "between", "neither", "oscillat", "coexist", "compete", "boundary", "unresolved", "both", "mural"],
    ["dissolv", "loose", "bloom", "backrun", "granulat", "diffus", "abstract", "painterly", "watercolor", "paper texture"],
    ["ghost", "faded", "blueprint", "palimpsest", "trace", "skeleton", "bleach", "dry", "parchment", "iron-gall"],
    ["paper", "white space", "negative space", "minimal", "restraint", "breath", "ma ", "sparse", "empty", "unpaint"],
    ["flood", "saturat", "wet-on-wet", "drip", "capillary", "pour", "expressionist", "bold color", "vivid", "chromatic"]
  ]

  const OpticalTerms: seq<seq<string>> := [
    ["matte", "opaque", "photographic"],
    ["mixed", "variable", "halation"],
    ["translucent", "diffuse", "paper matte"],
    ["dry matte", "semi transparent", "no scatter"],
    ["paper dominant", "zero scatter", "ground"],
    ["wet satin", "maximum scatter", "saturated"]
  ]

  const ColorTerms: seq<seq<string>> := [
    ["neutral", "muted", "editorial"],
    ["warm", "analogous", "amber"],
    ["diluted", "granulation", "paper white"],
    ["faded", "earth", "parchment", "tea"],
    ["white dominant", "sparse", "chromatic island"],
    ["saturated", "vivid", "intense", "bright"]
  ]

  /** Every term that can score for visual type `i`. */
  function TermsOf(i: nat): seq<string>
    requires i < |VisualTypes|
  {
    FragmentTerms[i] + OpticalTerms[i] + ColorTerms[i]
  }

  /** One per hit of `full`, one half per hit of `optical` or `color`. */
  function Score(full: seq<string>, optical: seq<string>, color: seq<string>, text: string): (s: real)
    ensures 0.0 <= s <= |full| as real + 0.5 * (|optical| + |color|) as real
    ensures s > 0.0 <==> exists t :: t in full + optical + color && Contains(text, t)
    ensures s == |OccurringPositions(full, text)| as real
                 + 0.5 * (|OccurringPositions(optical, text)| + |OccurringPositions(color, text)|) as real
  {
    var f, o, c := Matches(full, text), Matches(optical, text), Matches(color, text);
    MatchesNonEmpty(full, text);
    MatchesNonEmpty(optical, text);
    MatchesNonEmpty(color, text);
    MatchCount(full, text);
    MatchCount(optical, text);
    MatchCount(color, text);
    |f| as real + 0.5 * |o| as real + 0.5 * |c| as real
  }

  /** Score of visual type `i`. */
  function TypeScore(i: nat, text: string): (s: real)
    requires i < |VisualTypes|
    ensures s >= 0.0
    ensures s > 0.0 <==> exists t :: t in TermsOf(i) && Contains(text, t)
  {
    assert TermsOf(i) == FragmentTerms[i] + OpticalTerms[i] + ColorTerms[i];
    Score(FragmentTerms[i], OpticalTerms[i], ColorTerms[i], text)
  }

  function TypeScores(text: string): (s: seq<real>)
    ensures |s| == |VisualTypes|
    ensures forall i :: 0 <= i < |s| ==> s[i] == TypeScore(i, text) && s[i] >= 0.0
  {
    seq(|VisualTypes|, i requires 0 <= i < |VisualTypes| => TypeScore(i, text))
  }

  /** The distinct fragments that matched, for any type (`sorted(set(...))` without the sort). */
  function MatchedFragments(text: string): (r: set<string>)
    ensures forall t :: t in r <==> exists i :: 0 <= i < |VisualTypes| && t in TermsOf(i) && Contains(text, t)
  {
    set i, t | 0 <= i < |VisualTypes| && t in TermsOf(i) && Contains(text, t) :: t
  }

  datatype Decomposition = Decomposition(
    coordinates: Point,
    confidence: real,
    nearest: VisualType,
    nearestDistance: real,
    scores: seq<real>,
    weights: seq<real>,
    matched: set<string>,
    detected: bool)

  /** Decompose a description (after ASCII lowercasing) into coordinates. */
  function Decompose(description: string, m: Math): (d: Decomposition)
    requires Valid(m)
    ensures d.scores == TypeScores(Lower(description))
    ensures d.weights == Softmax(d.scores, 1.0, m)
    ensures |d.weights| == |VisualTypes| && Sum(d.weights) == 1.0
    ensures forall i :: 0 <= i < |d.weights| ==> d.weights[i] > 0.0
    ensures forall i, j :: 0 <= i < |d.weights| && 0 <= j < |d.weights| && d.scores[i] == d.scores[j] ==>
              d.weights[i] == d.weights[j]
    ensures forall k :: d.coordinates.Coord(k) == WeightedSum(d.weights, Project(Centers(), k))
    ensures d.confidence == Confidence(d.scores) && 0.0 <= d.confidence <= 1.0
    ensures d.nearest == NearestType(d.coordinates) && d.nearestDistance == NearestDistance(d.coordinates, m)
    ensures d.matched == MatchedFragments(Lower(description))
    ensures d.detected <==> |d.matched| > 0
  {
    var text := Lower(description);
    ScoresPositiveIffMatched(text);
    FromScores(TypeScores(text), MatchedFragments(text), m)
  }

  /** Softmax the six scores, blend the type centers with the weights, and
      locate the nearest type; `detected` records whether anything scored. */
  function FromScores(scores: seq<real>, matched: set<string>, m: Math): (d: Decomposition)
    requires Valid(m)
    requires |scores| == |VisualTypes|
    requires forall i :: 0 <= i < |scores| ==> scores[i] >= 0.0
    ensures d.scores == scores && d.matched == matched
    ensures d.weights == Softmax(scores, 1.0, m)
    ensures |d.weights| == |VisualTypes| && Sum(d.weights) == 1.0
    ensures forall i :: 0 <= i < |d.weights| ==> d.weights[i] > 0.0
    ensures forall i, j :: 0 <= i < |d.weights| && 0 <= j < |d.weights| && d.scores[i] == d.scores[j] ==>
              d.weights[i] == d.weights[j]
    ensures forall k :: d.coordinates.Coord(k) == WeightedSum(d.weights, Project(Centers(), k))
    ensures d.confidence == Confidence(d.scores) && 0.0 <= d.confidence <= 1.0
    ensures d.nearest == NearestType(d.coordinates) && d.nearestDistance == NearestDistance(d.coordinates, m)
    ensures d.detected <==> Sum(scores) > 0.0
  {
    var weights := Softmax(scores, 1.0, m);
    Located(Blend(weights, Centers()), Confidence(scores), scores, weights, matched, m)
  }

  /** The decomposition at `p`, with its nearest type and distance. */
  function Located(p: Point, confidence: real, scores: seq<real>, weights: seq<real>, matched: set<string>, m: Math)
    : (d: Decomposition)
    requires Valid(m)
    ensures d.coordinates == p && d.confidence == confidence && d.scores == scores
    ensures d.weights == weights && d.matched == matched
    ensures d.nearest == NearestType(p) && d.nearestDistance == NearestDistance(p, m)
    ensures d.detected <==> Sum(scores) > 0.0
  {
    Decomposition(p, confidence, NearestType(p), NearestDistance(p, m), scores, weights, matched, Sum(scores) > 0.0)
  }

  /** `min(1, total / 8)`: zero exactly when nothing scored, full from a total of 8 on. */
  function Confidence(scores: seq<real>): (c: real)
    requires forall i :: 0 <= i < |scores| ==> scores[i] >= 0.0
    ensures 0.0 <= c <= 1.0
    ensures c == 0.0 <==> Sum(scores) == 0.0
    ensures c == 1.0 <==> Sum(scores) >= 8.0
  {
    SumNonNegative(scores);
    Min(1.0, Sum(scores) / 8.0)
  }

  /** Some type scores exactly when some fragment matched. */
  lemma ScoresPositiveIffMatched(text: string)
    ensures Sum(TypeScores(text)) > 0.0 <==> |MatchedFragments(text)| > 0
  {
    SumPositiveIff(TypeScores(text));
    if Sum(TypeScores(text)) > 0.0 {
      ScoringTypeMatches(text);
    }
    if |MatchedFragments(text)| > 0 {
      MatchedTypeScores(text);
    }
  }

  lemma ScoringTypeMatches(text: string)
    requires exists i :: 0 <= i < |VisualTypes| && TypeScores(text)[i] > 0.0
    ensures |MatchedFragments(text)| > 0
  {
    var i :| 0 <= i < |VisualTypes| && TypeScores(text)[i] > 0.0;
    assert TypeScore(i, text) > 0.0;
    var t :| t in TermsOf(i) && Contains(text, t);
    assert t in MatchedFragments(text);
  }

  lemma MatchedTypeScores(text: string)
    requires |MatchedFragments(text)| > 0
    ensures exists i :: 0 <= i < |VisualTypes| && TypeScores(text)[i] > 0.0
  {
    var t :| t in MatchedFragments(text);
    var i :| 0 <= i < |VisualTypes| && t in TermsOf(i) && Contains(text, t);
    assert TypeScore(i, text) > 0.0;
    assert TypeScores(text)[i] > 0.0;
  }

  /** The decomposed coordinates stay inside the bounding box of the six
      centers, and so inside the unit cube. */
  lemma DecomposeInBox(description: string, m: Math)
    requires Valid(m)
    ensures InCentersBox(Decompose(description, m).coordinates)
    ensures InUnitCube(Decompose(description, m).coordinates)
  {
    var d := Decompose(description, m);
    AverageOfCentersInBox(d.weights, d.coordinates);
  }

  /** Every coordinate lies between the least and the greatest center coordinate on its axis. */
  ghost predicate InCentersBox(p: Point) {
    forall k :: AxisMin(Centers(), k) <= p.Coord(k) <= AxisMax(Centers(), k)
  }

  /** A point whose coordinates average the centers with positive weights summing to one. */
  lemma AverageOfCentersInBox(ws: seq<real>, p: Point)
    requires |ws| == |VisualTypes| && Sum(ws) == 1.0
    requires forall i :: 0 <= i < |ws| ==> ws[i] > 0.0
    requires forall k :: p.Coord(k) == WeightedSum(ws, Project(Centers(), k))
    ensures InCentersBox(p)
    ensures InUnitCube(p)
  {
    var cs := Centers();
    forall i | 0 <= i < |cs| ensures InUnitCube(cs[i]) {
      CenterInUnitCube(VisualTypes[i]);
    }
    AverageInBox(ws, cs, p);
    AverageInUnitCube(ws, cs, p);
  }

  /** A description without any fragment: nothing detected, zero confidence,
      and every type weighted equally. */
  lemma DecomposeNothing(description: string, m: Math)
    requires Valid(m)
    requires forall i, t :: 0 <= i < |VisualTypes| && t in TermsOf(i) ==> !Contains(Lower(description), t)
    ensures var d := Decompose(description, m);
            && !d.detected && d.confidence == 0.0
            && forall i :: 0 <= i < |d.weights| ==> d.weights[i] == d.weights[0]
  {
    ZeroScores(Lower(description));
  }

  lemma ZeroScores(text: string)
    requires forall i, t :: 0 <= i < |VisualTypes| && t in TermsOf(i) ==> !Contains(text, t)
    ensures forall i :: 0 <= i < |VisualTypes| ==> TypeScores(text)[i] == 0.0
    ensures Sum(TypeScores(text)) == 0.0
  {
    var scores := TypeScores(text);
    forall i | 0 <= i < |scores| ensures scores[i] == 0.0 {
      assert !exists t :: t in TermsOf(i) && Contains(text, t);
    }
    SumZero(scores);
  }

  lemma {:induction false} SumZero(xs: seq<real>)
    requires forall i :: 0 <= i < |xs| ==> xs[i] == 0.0
    ensures Sum(xs) == 0.0
  {
    if |xs| > 0 {
      SumZero(xs[1..]);
    }
  }
}
