# Watercolor dissolution engine — a Dafny model

This project models the deterministic core of the watercolor-dissolution server.
That core places every watercolor treatment at a point of a five-axis parameter space:

- dissolution rate;
- edge coherence;
- substrate visibility;
- pigment hydrology;
- anchor density.

On top of that space it builds a set of derived operations.

The model covers:

- **Reference tables** (`Taxonomy`):
  - the six visual types and their centers;
  - the ten canonical states, with their provenance;
  - the seven attractor presets;
  - the five rhythmic presets;
  - the hydrology, edge-mode, substrate and contrast-curve ids.
- **Geometry** (`Space`, `Geometry`):
  - linear interpolation;
  - squared and true Euclidean distance;
  - the first-declared nearest visual type;
  - softmax with max-subtraction.
- **Vocabulary synthesis** (`Vocabulary`, `Ranking`):
  - inverse-distance similarities, softmax at temperature 0.5, and a stable ranking;
  - the top three contributors, gated at weight 0.1, with one edge, substrate and hydrology descriptor each;
  - the dissolution and anchor bands of the query point.
- **Intent classification** (`Classifier`):
  - per-type term counts, with a first-maximum winner and its confidence;
  - the hydrology hint, decided by the last category with a hit;
  - the substrate hint, decided by the first group with a hit.
- **Decomposition of a description** (`Decomposer`):
  - additive fragment scores;
  - softmax weights at temperature 1;
  - the weighted average of the centers;
  - confidence and detection.
- **Parameter mapping** (`Mapper`):
  - intensity scaling of each coordinate's deviation from 0.5, an emphasis shift, and clamping to [0, 1];
  - the overlapping edge-mode bands;
  - the hydrology ladder;
  - the priority-ordered contrast curve;
  - the characteristics list;
  - the optional substrate.
- **Id resolution and paths** (`Resolution`):
  - the canonical → visual → attractor resolution order;
  - the distance report with its dominant axis;
  - straight-line trajectories;
  - state resolution for vocabulary extraction.
- **Rhythm** (`Rhythm`):
  - the custom oscillation (sinusoidal, triangle, sawtooth) with Python's floor `%` and `//`;
  - quarter-cycle decimation of the recorded steps;
  - the curated presets, each one full sinusoidal cycle.
- **Prompts and enhancement** (`Prompts`):
  - the attractor prompt's state resolution;
  - its four descriptor ladders;
  - its three modes: composite, split view, and keyframe sequence;
  - style selection and composition in the enhancement bundle.

Floating-point library calls (`exp`, `sqrt`, `sin`) are fields of a `Transcendental.Math` record passed as a parameter. `Valid(m)` states only what the model relies on:

- `exp` is positive;
- `sqrt` is zero at zero, non-negative, and strictly increasing on the non-negative reals (nothing says it squares back to its argument);
- `sinTurns(x)`, which stands for `sin(2*pi*x)`, lies in [-1, 1].

Reals are exact: the model does not round.

Behaviours the proofs bring out:

- **The hydrology hint's precedence.** The inner loop breaks on its first hit, but the outer loop runs on. So the LAST category, in declaration order, with any hit decides the hint. A "first match wins" reading is not what the code does, and the model follows the code (`Classifier.LastHit`). The classification reports the hint string the loop produces as written. Beside it, the classification carries the corrected hydrology state, which the rest of the model uses (`Classifier.ClassifyHydrologyHints`). See also the finding below.
- **Dead vocabulary fallbacks.** The three fallback phrases of the vocabulary ("balanced edge mix", …) can never appear. The best-weighted type always carries at least a sixth of the weight, which clears the 0.1 gate (`Vocabulary.NeverFallback`).
- **A redundant branch in vocabulary extraction.** The visual-type branch of the extractor's id resolution is never taken. Every visual-type id is also a canonical id with the same coordinates (`Taxonomy.VisualTypesAreCanonical`).
- **Two substrate ladders.** The attractor prompt's substrate ladder uses 0.35 where the vocabulary's uses 0.3. The two disagree exactly on (0.3, 0.35] (`Prompts.Describe`).
- **A single keyframe.** A one-keyframe sequence shows the `editorial_wash` start, not the target (`Prompts.Keyframes`).
- **Preset endpoints.** Every rhythmic preset endpoint is a visual type (`Rhythm.PresetEndpointsAreVisualTypes`).

## Model

| member | source | states |
|---|---|---|
| Space.Lerp | src/water_dissolution_mcp/watercolor_dissolution_mcp.py:666-668 | t = 0 gives the start state, t = 1 the end state, and for t in [0, 1] every axis lies between the two endpoints |
| Space.SqDistSymmetric | src/water_dissolution_mcp/watercolor_dissolution_mcp.py:661-663 | the squared distance is symmetric in its two states |
| Space.WeightedSumBounds | src/water_dissolution_mcp/watercolor_dissolution_mcp.py:1106-1110 | a non-negatively weighted sum of values in [lo, hi] lies in [lo·Σw, hi·Σw] |
| Space.BlendInBox | src/water_dissolution_mcp/watercolor_dissolution_mcp.py:1105-1110 | a convex combination of centers lies inside their bounding box on every axis |
| Space.AverageInBox | src/water_dissolution_mcp/watercolor_dissolution_mcp.py:1105-1110 | a point whose coordinates are a convex combination of the given points lies in their bounding box |
| Space.AverageInUnitCube | src/water_dissolution_mcp/watercolor_dissolution_mcp.py:1105-1110 | a convex combination of points of the unit cube lies in the unit cube |
| Transcendental.Distance | src/water_dissolution_mcp/watercolor_dissolution_mcp.py:661-663 | the Euclidean distance is non-negative and is zero between equal states |
| Geometry.NearestType | src/water_dissolution_mcp/watercolor_dissolution_mcp.py:671-680 | the chosen type is at minimal distance, and every type declared before it is strictly farther (a tie goes to the first-declared type) |
| Geometry.NearestTypeUnique | src/water_dissolution_mcp/watercolor_dissolution_mcp.py:671-680 | minimality plus strictness against earlier types determine the nearest type |
| Geometry.NearestBySqrtDistance | src/water_dissolution_mcp/watercolor_dissolution_mcp.py:671-680 | scanning the square-rooted distances, as the code does, picks the same type as scanning squared distances |
| Geometry.NearestOfCenter | src/water_dissolution_mcp/watercolor_dissolution_mcp.py:671-680 | each visual type's center has that type as its nearest type |
| Geometry.NearestDistance | src/water_dissolution_mcp/watercolor_dissolution_mcp.py:671-680 | the reported distance is non-negative, no larger than the distance to any center, and equal to the distance to some center (the minimum is attained) |
| Geometry.Softmax | src/water_dissolution_mcp/watercolor_dissolution_mcp.py:683-688 | softmax weights are positive, one per score, sum to one for a non-empty dict, and equal scores get equal weights |
| Geometry.SoftmaxUniform | src/water_dissolution_mcp/watercolor_dissolution_mcp.py:683-688 | n equal scores give every entry weight 1/n |
| Geometry.Normalize | src/water_dissolution_mcp/watercolor_dissolution_mcp.py:687-688 | dividing positive exponentials by their total gives positive weights summing to one |
| Ranking.Insert | src/water_dissolution_mcp/watercolor_dissolution_mcp.py:706 | inserting a position into a ranking keeps it ranked and adds exactly that position |
| Ranking.Rank | src/water_dissolution_mcp/watercolor_dissolution_mcp.py:706 | the ranking is a permutation of all positions, by decreasing weight with ties in declaration order (a stable sort on -weight) |
| Ranking.RankHeadIsArgMax | src/water_dissolution_mcp/watercolor_dissolution_mcp.py:706 | the first-ranked position is the first position of maximal weight |
| Ranking.Top | src/water_dissolution_mcp/watercolor_dissolution_mcp.py:706 | the slice `[:3]` holds the best min(3, n) positions in ranking order, and no position outside it outranks one inside |
| Vocabulary.TierAboveMonotone | src/water_dissolution_mcp/watercolor_dissolution_mcp.py:719-740 | a ladder on strict lower bounds never picks a lower rung for a larger value |
| Vocabulary.Scores | src/water_dissolution_mcp/watercolor_dissolution_mcp.py:693-698 | each similarity is 1/(d + 0.01) for the true distance d to that center, and is positive; centers at equal distance get equal similarities |
| Vocabulary.Weights | src/water_dissolution_mcp/watercolor_dissolution_mcp.py:699 | the six weights are positive and sum to one, and centers at equal distance get equal weights |
| Vocabulary.Gate | src/water_dissolution_mcp/watercolor_dissolution_mcp.py:714-717 | a type contributes exactly when it is among the ranked positions and its weight exceeds 0.1; the contributors keep the ranking order |
| Vocabulary.Contributors | src/water_dissolution_mcp/watercolor_dissolution_mcp.py:706-717 | at most three contributors, exactly the top-three types whose weight exceeds 0.1, best first with ties in declaration order |
| Vocabulary.Categories | src/water_dissolution_mcp/watercolor_dissolution_mcp.py:714-759 | the edge, substrate and hydrology lists are aligned, entry i reading the bands off contributor i's center, with the single fallback only when nothing contributes |
| Vocabulary.MinDistance | src/water_dissolution_mcp/watercolor_dissolution_mcp.py:702-703 | `min(distances, key=...)` gives the nearest type and its distance |
| Vocabulary.Interpolate | src/water_dissolution_mcp/watercolor_dissolution_mcp.py:691-769 | the vocabulary names the nearest type and distance, the query point's dissolution and anchor bands, the contributors' descriptors and the strength |
| Vocabulary.GateKeepsBest | src/water_dissolution_mcp/watercolor_dissolution_mcp.py:699-717 | for six weights summing to one, the best-weighted type passes the 0.1 gate |
| Vocabulary.BestTypeContributes | src/water_dissolution_mcp/watercolor_dissolution_mcp.py:699-717 | the best-weighted type is always a contributor |
| Vocabulary.CategoriesWithoutFallback | src/water_dissolution_mcp/watercolor_dissolution_mcp.py:757-759 | with any contributor, no descriptor list holds the fallback |
| Vocabulary.NeverFallback | src/water_dissolution_mcp/watercolor_dissolution_mcp.py:757-759 | the fallback phrases never appear in any vocabulary |
| Text.Lower | src/water_dissolution_mcp/watercolor_dissolution_mcp.py:942 | lowercasing keeps the length and lowers every character |
| Text.ContainsIffOccurs | src/water_dissolution_mcp/watercolor_dissolution_mcp.py:971 | `term in text` holds exactly when some window of the text spells the term |
| Text.Matches | src/water_dissolution_mcp/watercolor_dissolution_mcp.py:970-973 | the matches are exactly the listed terms that occur |
| Text.MatchPositions | src/water_dissolution_mcp/watercolor_dissolution_mcp.py:970-973 | the positions whose term occurs, each exactly once and in increasing order |
| Text.MatchesInOrder | src/water_dissolution_mcp/watercolor_dissolution_mcp.py:970-973 | the matches follow the list order, one entry per occurring position, so a term listed twice counts twice |
| Text.MatchCount | src/water_dissolution_mcp/watercolor_dissolution_mcp.py:968-974 | the number of matches, which is the type score, is the number of positions whose term occurs |
| Text.IncreasingCount | src/water_dissolution_mcp/watercolor_dissolution_mcp.py:968-974 | a strictly increasing list has as many entries as the set of its entries |
| Text.AnyHitIffSome | src/water_dissolution_mcp/watercolor_dissolution_mcp.py:996 | `any(t in text for t in terms)` holds exactly when some listed term occurs |
| Classifier.TypeCounts | src/water_dissolution_mcp/watercolor_dissolution_mcp.py:967-976 | each type's score is the number of its terms found in the text, between 0 and the list length |
| Classifier.PrimaryStyle | src/water_dissolution_mcp/watercolor_dissolution_mcp.py:978-984 | no hit gives contested_boundary at 0.3; otherwise the first type of maximal count at min(1, max/4) |
| Classifier.LastHit | src/water_dissolution_mcp/watercolor_dissolution_mcp.py:987-992 | the deciding category has a hit, and no later category has one |
| Classifier.LastHitUnique | src/water_dissolution_mcp/watercolor_dissolution_mcp.py:987-992 | those two properties determine the deciding category |
| Classifier.LastHitCategory | src/water_dissolution_mcp/watercolor_dissolution_mcp.py:987-992 | there is no deciding category exactly when no category has a hit |
| Classifier.AsWrittenId | src/water_dissolution_mcp/watercolor_dissolution_mcp.py:991 | a category records its own state id ("dry" renamed "dry_brush"), except that the controlled category records "controlled" |
| Classifier.HydrologyHintScan | src/water_dissolution_mcp/watercolor_dissolution_mcp.py:987-992 | the loop keeps its default without a hit and otherwise yields the last hit category's state |
| Classifier.HydrologyHint | src/water_dissolution_mcp/watercolor_dissolution_mcp.py:986-992 | controlled_wash when no hydrology term occurs, otherwise the state of the last category with a hit |
| Classifier.HintScanAgreement | src/water_dissolution_mcp/watercolor_dissolution_mcp.py:986-992 | the as-written loop and the corrected one agree on every text, except where the controlled category decides |
| Classifier.ControlledTailAgreement | src/water_dissolution_mcp/watercolor_dissolution_mcp.py:986-992 | after a controlled hit, the as-written loop keeps "controlled" or takes a later category's id |
| Classifier.HydrologyHintAsWrittenValidity | src/water_dissolution_mcp/watercolor_dissolution_mcp.py:986-992 | the as-written hint is a hydrology-state id exactly when the controlled category does not decide, and it then equals the corrected hint's id |
| Classifier.ControlledHintIsNotAState | src/water_dissolution_mcp/watercolor_dissolution_mcp.py:959-992 | on "even" the code suggests "controlled", which is not a hydrology state |
| Classifier.CorrectedHintOnEven | src/water_dissolution_mcp/watercolor_dissolution_mcp.py:986-992 | on "even" the corrected hint suggests controlled_wash |
| Classifier.EvenDecidedByControlled | src/water_dissolution_mcp/watercolor_dissolution_mcp.py:959-992 | in "even" the controlled category is the last one with a hit, so it decides the hint |
| Classifier.EvenMissesCategory | src/water_dissolution_mcp/watercolor_dissolution_mcp.py:959-965 | no category other than the controlled one has a term in "even" |
| Classifier.SubstrateHint | src/water_dissolution_mcp/watercolor_dissolution_mcp.py:994-1003 | the first group in the order hot press, rough, masa, yupo with a hit decides; none gives cold_press |
| Classifier.Classify | src/water_dissolution_mcp/watercolor_dissolution_mcp.py:935-1017 | the classification of the lowercased intent: counts, primary style and confidence, the matched terms per type (exactly `Matches` of that type's intent terms, in list order), the hydrology hint as the loop writes it and the corrected state, and the substrate hint |
| Classifier.ClassifyHydrologyHints | src/water_dissolution_mcp/watercolor_dissolution_mcp.py:986-992 | the reported hydrology string names the corrected state, except when the controlled category decides; then it is "controlled", which names no state |
| Classifier.ClassifyEmpty | src/water_dissolution_mcp/watercolor_dissolution_mcp.py:978-1003 | an empty intent falls to every default: contested_boundary at 0.3, zero counts, the reported hint string "controlled_wash", the state controlled_wash and cold_press |
| Classifier.EmptyAsWrittenHint | src/water_dissolution_mcp/watercolor_dissolution_mcp.py:986-991 | with no term of any category in the text the loop never overwrites its initial "controlled_wash" |
| Decomposer.Score | src/water_dissolution_mcp/watercolor_dissolution_mcp.py:1086-1100 | the score is the number of full-fragment positions whose fragment occurs plus one half of the number of such optical and color positions; so it is positive exactly when some fragment occurs, and bounded by the list sizes |
| Decomposer.TypeScores | src/water_dissolution_mcp/watercolor_dissolution_mcp.py:1086-1100 | one non-negative score per visual type, in declaration order |
| Decomposer.MatchedFragments | src/water_dissolution_mcp/watercolor_dissolution_mcp.py:1089-1099 | the matched set holds exactly the fragments of any type that occur in the text |
| Decomposer.Decompose | src/water_dissolution_mcp/watercolor_dissolution_mcp.py:1033-1133 | the weights are the softmax of the scores at temperature 1, positive and summing to one, with equal weights for equal scores, and the coordinates are the weighted centers; the confidence is min(1, total / 8) of the scores; the result is detected exactly when some fragment matched |
| Decomposer.Confidence | src/water_dissolution_mcp/watercolor_dissolution_mcp.py:1112-1114 | confidence is in [0, 1], zero exactly when nothing scored and one exactly from a total of 8 |
| Decomposer.ScoresPositiveIffMatched | src/water_dissolution_mcp/watercolor_dissolution_mcp.py:1113-1133 | the score total is positive exactly when the matched-fragment set is non-empty |
| Decomposer.DecomposeInBox | src/water_dissolution_mcp/watercolor_dissolution_mcp.py:1105-1110 | decomposed coordinates lie within the centers' bounding box, and so in the unit cube |
| Decomposer.AverageOfCentersInBox | src/water_dissolution_mcp/watercolor_dissolution_mcp.py:1105-1110 | averaging the six centers with positive weights summing to one stays in their bounding box and in the unit cube |
| Decomposer.DecomposeNothing | src/water_dissolution_mcp/watercolor_dissolution_mcp.py:1102-1114 | a description without any fragment is undetected, has confidence 0 and weights all types equally |
| Mapper.IntensityScale | src/water_dissolution_mcp/watercolor_dissolution_mcp.py:1160 | subtle scales by 0.6 and dramatic by 1.4, exactly; anything else scales by 1.0 |
| Mapper.UnknownIntensityIsModerate | src/water_dissolution_mcp/watercolor_dissolution_mcp.py:1160 | an unknown intensity behaves as moderate |
| Mapper.UnknownEmphasisIsBalanced | src/water_dissolution_mcp/watercolor_dissolution_mcp.py:1163-1170 | an unknown emphasis shifts nothing, as balanced does |
| Mapper.MapCoord | src/water_dissolution_mcp/watercolor_dissolution_mcp.py:1173-1176 | a mapped coordinate is always in [0, 1], and scale 1 with no shift leaves a unit coordinate unchanged |
| Mapper.MapState | src/water_dissolution_mcp/watercolor_dissolution_mcp.py:1172-1176 | the mapped state lies in the unit cube, each axis mapped independently |
| Mapper.MapStateIdentity | src/water_dissolution_mcp/watercolor_dissolution_mcp.py:1172-1176 | scale 1 and no shift leave a state of the unit cube where it is |
| Mapper.EdgeModes | src/water_dissolution_mcp/watercolor_dissolution_mcp.py:1180-1187 | each mode pair is active exactly inside its band (> 0.6, [0.3, 0.7], < 0.4); the list keeps its order, holds two or four modes, and never mixes hard and feathered |
| Mapper.HydrologyBand | src/water_dissolution_mcp/watercolor_dissolution_mcp.py:1189-1199 | the chosen state's band [0.15, 0.35, 0.55, 0.8 below/above] holds the hydrology value |
| Mapper.HydrologyBandMonotone | src/water_dissolution_mcp/watercolor_dissolution_mcp.py:1189-1199 | more water never selects a drier hydrology state |
| Mapper.ContrastFor | src/water_dissolution_mcp/watercolor_dissolution_mcp.py:1201-1211 | each curve is chosen exactly when its guard holds and no earlier guard does; granulation_curve is never chosen |
| Mapper.Characteristics | src/water_dissolution_mcp/watercolor_dissolution_mcp.py:1218-1243 | a dissolution phrase comes first, then exactly the other characteristics whose thresholds hold, in the order edges, paper, hydrology, anchors; one to five in all |
| Mapper.SlotsConcat | src/water_dissolution_mcp/watercolor_dissolution_mcp.py:1218-1243 | appending a later group after an earlier one keeps the characteristics in group order |
| Mapper.SurfaceTraits | src/water_dissolution_mcp/watercolor_dissolution_mcp.py:1227-1233 | the edge and paper characteristics present are exactly those whose thresholds hold |
| Mapper.BodyTraits | src/water_dissolution_mcp/watercolor_dissolution_mcp.py:1235-1243 | the hydrology and anchor characteristics present are exactly those whose thresholds hold |
| Mapper.SubstrateOf | src/water_dissolution_mcp/watercolor_dissolution_mcp.py:1213-1216 | a substrate record is attached exactly for a known substrate id, and it is that substrate |
| Mapper.MapParameters | src/water_dissolution_mcp/watercolor_dissolution_mcp.py:1138-1266 | an unknown style is an error listing the six ids; otherwise the mapping is the scaled, shifted and clamped center with its nearest type, edge modes, hydrology, contrast, substrate, characteristics and vocabulary |
| Mapper.ModerateBalancedIsCenter | src/water_dissolution_mcp/watercolor_dissolution_mcp.py:1156-1178 | moderate and balanced map a style to its own center, whose nearest type is the style itself |
| Mapper.ModerateBalancedState | src/water_dissolution_mcp/watercolor_dissolution_mcp.py:1156-1176 | moderate intensity with balanced emphasis leaves a center unchanged |
| Resolution.Resolve | src/water_dissolution_mcp/watercolor_dissolution_mcp.py:1292-1299 | an id resolves exactly when it is a canonical, visual or attractor id, looked up in that order |
| Resolution.ResolveVisualType | src/water_dissolution_mcp/watercolor_dissolution_mcp.py:1292-1296 | every visual type id resolves, through the canonical table, to that type's center |
| Resolution.ResolveOrFail | src/water_dissolution_mcp/watercolor_dissolution_mcp.py:1301-1306 | an unresolved id is an error naming it; a resolved id gives its state |
| Resolution.DominantAxis | src/water_dissolution_mcp/watercolor_dissolution_mcp.py:1316 | the dominant axis has the largest absolute difference, and every earlier axis a strictly smaller one |
| Resolution.ComputeDistance | src/water_dissolution_mcp/watercolor_dissolution_mcp.py:1290-1317 | the first unknown id (checked first to second) is the error; otherwise the report holds the distance, the per-axis difference b − a, and its dominant axis |
| Resolution.DistanceSymmetric | src/water_dissolution_mcp/watercolor_dissolution_mcp.py:1308-1316 | swapping the ids keeps the distance and dominant axis and negates the difference |
| Resolution.DominantAxisOfNegation | src/water_dissolution_mcp/watercolor_dissolution_mcp.py:1316 | negating every difference keeps the dominant axis |
| Resolution.Segment | src/water_dissolution_mcp/watercolor_dissolution_mcp.py:1343-1354 | n + 1 samples at i/n, starting at the start state, ending at the end state, each between them on every axis |
| Resolution.SegmentBetween | src/water_dissolution_mcp/watercolor_dissolution_mcp.py:1344-1347 | every sample has its parameter in [0, 1] and lies between the endpoints on every axis, and the first and last samples are the endpoints |
| Resolution.Fraction | src/water_dissolution_mcp/watercolor_dissolution_mcp.py:1345 | i/n times n is i; it lies in [0, 1] for i ≤ n, with 0 and 1 at the ends |
| Resolution.ComputeTrajectory | src/water_dissolution_mcp/watercolor_dissolution_mcp.py:1321-1362 | the trajectory succeeds exactly when both ids resolve and the step count is non-zero; unknown ids fail first to second; zero steps is an error; a negative count gives no samples; otherwise the evenly spaced segment and the total distance |
| Resolution.ExtractState | src/water_dissolution_mcp/watercolor_dissolution_mcp.py:1278-1283 | a canonical id wins over the given state; without either the request fails |
| Resolution.ExtractVocabulary | src/water_dissolution_mcp/watercolor_dissolution_mcp.py:1270-1286 | fails exactly when no state can be resolved, and otherwise is the resolved state's vocabulary |
| Resolution.AttractorState | src/water_dissolution_mcp/watercolor_dissolution_mcp.py:1378-1387 | a custom state, then an attractor, visual or canonical id, and contested_boundary for any other id |
| Resolution.AttractorStateAgreesWithResolve | src/water_dissolution_mcp/watercolor_dissolution_mcp.py:1378-1387 | on every resolvable id the prompt's resolution order and the distance tools' order give the same state |
| Rhythm.PyMod | src/water_dissolution_mcp/watercolor_dissolution_mcp.py:1533-1536 | Python's remainder takes the divisor's sign and satisfies (a // b)·b + a % b = a |
| Rhythm.PyModUnique | src/water_dissolution_mcp/watercolor_dissolution_mcp.py:1533-1536 | those two laws determine the remainder |
| Rhythm.PyModPeriodic | src/water_dissolution_mcp/watercolor_dissolution_mcp.py:1533-1536 | adding the divisor leaves the remainder unchanged |
| Rhythm.ParsePattern | src/water_dissolution_mcp/watercolor_dissolution_mcp.py:1530-1538 | "triangle" and "sawtooth" select their waves; every other name is sinusoidal |
| Rhythm.CyclePosition | src/water_dissolution_mcp/watercolor_dissolution_mcp.py:1533-1536 | the cycle position lies in [0, 1) and times the cycle length is the Python remainder |
| Rhythm.CyclePositionInFirstCycle | src/water_dissolution_mcp/watercolor_dissolution_mcp.py:1536 | within the first positive cycle the position is step / spc |
| Rhythm.CyclePositionPeriodic | src/water_dissolution_mcp/watercolor_dissolution_mcp.py:1533-1536 | the cycle position repeats every spc steps |
| Rhythm.SineWave | src/water_dissolution_mcp/watercolor_dissolution_mcp.py:1528-1531 | the sinusoidal parameter lies in [0, 1] |
| Rhythm.TriangleWave | src/water_dissolution_mcp/watercolor_dissolution_mcp.py:1534 | the triangle lies in [0, 1], is 0 exactly at the cycle start and 1 exactly at mid-cycle |
| Rhythm.TriangleSymmetric | src/water_dissolution_mcp/watercolor_dissolution_mcp.py:1534 | the triangle is symmetric about mid-cycle |
| Rhythm.Oscillation | src/water_dissolution_mcp/watercolor_dissolution_mcp.py:1528-1538 | every pattern gives an interpolation parameter in [0, 1] |
| Rhythm.OscillationPeriodic | src/water_dissolution_mcp/watercolor_dissolution_mcp.py:1532-1536 | triangle and sawtooth repeat every cycle, for either sign of the cycle length |
| Rhythm.SawtoothRamp | src/water_dissolution_mcp/watercolor_dissolution_mcp.py:1535-1536 | the sawtooth rises as step / spc over the first cycle |
| Rhythm.TrianglePeak | src/water_dissolution_mcp/watercolor_dissolution_mcp.py:1532-1534 | the triangle starts at 0 and reaches 1 at the middle of an even cycle |
| Rhythm.BeatAt | src/water_dissolution_mcp/watercolor_dissolution_mcp.py:1540-1541 | a beat holds the interpolated state between the endpoints and its nearest type |
| Rhythm.Decimation | src/water_dissolution_mcp/watercolor_dissolution_mcp.py:1543 | the recording stride is at least 1, a quarter of the cycle (rounded down) from 8 steps on, and 1 below |
| Rhythm.KeptSteps | src/water_dissolution_mcp/watercolor_dissolution_mcp.py:1527-1549 | the recorded steps are exactly the steps in range divisible by the stride, in increasing order |
| Rhythm.Beats | src/water_dissolution_mcp/watercolor_dissolution_mcp.py:1527-1549 | one beat per recorded step, each computed at its own step |
| Rhythm.RhythmicSequence | src/water_dissolution_mcp/watercolor_dissolution_mcp.py:1499-1560 | unknown ids fail first to second; total = spc · cycles; a non-positive total records nothing; otherwise step 0 comes first and the beats are the recorded steps' beats, all with t in [0, 1] |
| Rhythm.FirstKeptStepIsZero | src/water_dissolution_mcp/watercolor_dissolution_mcp.py:1543 | step 0 is always recorded, and first |
| Rhythm.PresetEndpoint | src/water_dissolution_mcp/watercolor_dissolution_mcp.py:1573-1574 | a preset endpoint gets the same state as the id resolver gives it |
| Rhythm.PresetEndpointsAreVisualTypes | src/water_dissolution_mcp/watercolor_dissolution_mcp.py:486-527 | every preset names two visual types and a positive period |
| Rhythm.Cycle | src/water_dissolution_mcp/watercolor_dissolution_mcp.py:1579-1590 | one beat per step of the period, at the sinusoidal parameter of step / period |
| Rhythm.ApplyPreset | src/water_dissolution_mcp/watercolor_dissolution_mcp.py:1564-1599 | an unknown name is an error listing the five names; otherwise the beats are the one-cycle sine sequence between the resolved endpoints, numbered from 0 |
| Rhythm.PresetIsOneSinusoidalCycle | src/water_dissolution_mcp/watercolor_dissolution_mcp.py:1564-1590 | a preset equals the custom sinusoidal sequence of one cycle at every step the latter records |
| Prompts.Describe | src/water_dissolution_mcp/watercolor_dissolution_mcp.py:1394-1428 | the hydrology, edge and anchor descriptors follow the mapper and vocabulary ladders; the substrate one agrees with the vocabulary ladder except on (0.3, 0.35] |
| Prompts.DescribeMonotone | src/water_dissolution_mcp/watercolor_dissolution_mcp.py:1394-1428 | more of an axis never selects a lower rung of its descriptor ladder |
| Prompts.ParseMode | src/water_dissolution_mcp/watercolor_dissolution_mcp.py:1446-1495 | the three mode names select their modes, and any other name is unknown |
| Prompts.Spacing | src/water_dissolution_mcp/watercolor_dissolution_mcp.py:1475 | the keyframe divisor is count − 1 from two keyframes on, and 1 below |
| Prompts.KeyframeAt | src/water_dissolution_mcp/watercolor_dissolution_mcp.py:1474-1488 | keyframe i + 1 sits at i / spacing in [0, 1] on the line from editorial_wash to the target |
| Prompts.Keyframes | src/water_dissolution_mcp/watercolor_dissolution_mcp.py:1470-1488 | max(0, count) keyframes numbered from 1; the first is the editorial_wash center; from two on the last is the target |
| Prompts.AttractorPrompt | src/water_dissolution_mcp/watercolor_dissolution_mcp.py:1366-1495 | only an unknown mode fails; each mode is built from the resolved state: descriptors, vocabulary or keyframes |
| Prompts.PromptOfVisualType | src/water_dissolution_mcp/watercolor_dissolution_mcp.py:1378-1389 | a visual type id's prompt describes its center with that type nearest, and its sequence ends there |
| Prompts.AppliedStyle | src/water_dissolution_mcp/watercolor_dissolution_mcp.py:1705-1709 | an override naming a visual type is applied; a missing, empty or unknown override falls to the detected style |
| Prompts.Enhance | src/water_dissolution_mcp/watercolor_dissolution_mcp.py:1688-1755 | the bundle combines the classification, the applied style's balanced mapping, its composite prompt and its vocabulary |
| Prompts.StyleOutcomes | src/water_dissolution_mcp/watercolor_dissolution_mcp.py:1712-1725 | for a visual type's own id, mapping succeeds, the composite prompt describes its center, and the vocabulary is that of its center |
| Prompts.EnhanceAgreesAtModerate | src/water_dissolution_mcp/watercolor_dissolution_mcp.py:1705-1725 | at moderate intensity the mapped state, the prompt's state and the vocabulary's nearest type are all the applied style's center and type |
| Taxonomy.ParseVisualType | src/water_dissolution_mcp/watercolor_dissolution_mcp.py:39-267 | a string parses exactly when it is one of the six visual type ids, and to that type |
| Taxonomy.FindCanonical | src/water_dissolution_mcp/watercolor_dissolution_mcp.py:270-349 | the lookup succeeds exactly for the ten canonical ids and gives that entry's coordinates |
| Taxonomy.FindAttractor | src/water_dissolution_mcp/watercolor_dissolution_mcp.py:530-573 | the lookup succeeds exactly for the seven attractor ids and gives that preset's state |
| Taxonomy.FindRhythmicPreset | src/water_dissolution_mcp/watercolor_dissolution_mcp.py:486-527 | the lookup succeeds exactly for the five preset names and gives that preset |
| Taxonomy.ParseSubstrate | src/water_dissolution_mcp/watercolor_dissolution_mcp.py:442-483 | a string parses exactly when it is one of the five substrate ids |
| Taxonomy.TablesInUnitCube | src/water_dissolution_mcp/watercolor_dissolution_mcp.py:270-349 | every center, canonical state and attractor state lies in the unit cube |
| Taxonomy.CanonicalStatesMatchProvenance | src/water_dissolution_mcp/watercolor_dissolution_mcp.py:270-349 | visual-type canonical states sit on their centers; interpolated ones are within 0.005 of the blend their description names |
| Taxonomy.VisualTypesAreCanonical | src/water_dissolution_mcp/watercolor_dissolution_mcp.py:270-349 | every visual type id is a canonical id with the same coordinates |
| Taxonomy.FindCanonicalAt | src/water_dissolution_mcp/watercolor_dissolution_mcp.py:270-349 | looking up the id of any canonical entry finds that entry, because the ids are distinct |
| Taxonomy.IdsDistinct | src/water_dissolution_mcp/watercolor_dissolution_mcp.py:530-573 | canonical ids are distinct, and no attractor id is a canonical or visual id |

## Left out

- **Transport and serialisation.** The MCP transport, JSON encoding and `main` are left out: they are I/O.
- **Rounding.** `round(…)` on reported numbers is not modelled; reals are exact.
- **IEEE-754 floats.** `exp`, `sqrt` and `sin` are abstract. Only the facts stated by `Valid` are assumed.
- **Prose.** Names, descriptions, keywords, optical records, color associations and every f-string of prompt text are left out. The descriptors are modelled as band values, and the prompt as the state, nearest type and descriptors it is built from. The `style_modifier` suffix is prose too.
- **Operations outside the core.** The Layer-1 listing tools are pure table reads. Also left out: `generate_dissolution_sequence_prompts`, the registry and configuration tools, and the decomposition round-trip validator.
- **Lowercasing.** `str.lower` is ASCII-only; Unicode case mapping is not modelled.
- **Custom states.** A custom or given state dict is modelled as an optional complete point. A dict with missing keys, which raises `KeyError`, is not modelled. Nor is an empty dict, which the attractor prompt treats as absent.
- **Dict shapes.** The mapping's detail records (`edge_mode_details`, `hydrology_details`, `contrast_curve_details`) are plain table reads keyed by the modelled ids, and are left out. The classification's matched terms are one list per visual type, in declaration order, and a list may be empty. The source's `matched_keywords` dict omits the types with no match.
- Decomposer.MatchedFragments: models the fragments as a set; the output sorts that set into a list.
- Rhythm.KeptSteps: characterises the recorded steps exactly, but does not state their count (`sampled_keyframes`) in closed form. Modular arithmetic with a variable stride was too costly for the solver.
- Rhythm.OscillationPeriodic: covers triangle and sawtooth only. The sinusoidal wave's period would need `sin` periodicity, which `Valid` does not assume.
- Rhythm.Cycle: states the preset parameter as the sine wave at step / period. The closed form `0.5 * (1 + sin(2*pi*step/period))` is kept abstract.
- Vocabulary.Interpolate: states the descriptors as bands and source types rather than the sentences built from them. It omits the nearest type's keyword records.
- Prompts.AttractorPrompt: states the prompt's ingredients, not its text.
- Prompts.Enhance: states the mapping with the "balanced" emphasis that the code passes implicitly. The bundle's copied fields (keywords, optical, colors) are omitted with the prose.

## Findings

| source | as written | input that shows it | evidently intended | confidence | as-written member | corrected member |
|---|---|---|---|---|---|---|
| src/water_dissolution_mcp/watercolor_dissolution_mcp.py:987-992 | the hint loop renames the "dry" category to `dry_brush` but records the controlled category under its own key, `controlled`, which is not a hydrology state (the states are dry_brush, controlled_wash, wet_on_dry, wet_on_wet, flooding) | the intent "even" (only the controlled category has a hit) yields `suggested_hydrology` = "controlled" | the controlled category suggests `controlled_wash`, as every other category suggests its own state | not executed | Classifier.ControlledHintIsNotAState | Classifier.HydrologyHint |
