/** The attractor prompt (state resolution, descriptor ladders, the three
    output modes) and the enhancement bundle that chains classification,
    parameter mapping, the composite prompt and the vocabulary. Prompt prose
    is not modelled: a prompt is the choice of descriptors it is built from. */
module Prompts {
  import opened Reals
  import opened Results
  import opened Space
  import opened Transcendental
  import opened Taxonomy
  import opened Geometry
  import opened Vocabulary
  import opened Classifier
  import opened Mapper
  import opened Resolution

  // ---------------------------------------------------------------- descriptors

  datatype Descriptors = Descriptors(hydrology: HydrologyState, edge: EdgeBand, paper: PaperBand, anchor: AnchorBand)

  /** The four descriptor ladders of the attractor prompt. The hydrology ladder
      is the mapper's, the edge and anchor ladders are the vocabulary's, but the
      substrate ladder steps up at 0.35 where the vocabulary's steps up at 0.3,
      so the two disagree exactly on (0.3, 0.35]. */
  function Describe(p: Point): (d: Descriptors)
    ensures d.hydrology == HydrologyBand(p.pigmentHydrology)
    ensures d.edge == EdgeBandOf(p.edgeCoherence)
    ensures d.anchor == AnchorBandOf(p.anchorDensity)
    ensures !(0.3 < p.substrateVisibility <= 0.35) ==> d.paper == PaperBandOf(p.substrateVisibility)
    ensures 0.3 < p.substrateVisibility <= 0.35 ==>
              d.paper == SubstrateHidden && PaperBandOf(p.substrateVisibility) == PaperPartiallyVisible
  {
    var x := p.pigmentHydrology;
    var hydrology :=
      if x < 0.15 then DryBrush
      else if x < 0.35 then ControlledWash
      else if x < 0.55 then WetOnDry
      else if x < 0.8 then WetOnWet
      else Flooding;
    var edge :=
      if p.edgeCoherence > 0.7 then ArchitecturalHardEdges
      else if p.edgeCoherence > 0.4 then MixedEdgeNegotiation
      else FeatheredBleedEdges;
    var paper :=
      if p.substrateVisibility > 0.7 then PaperDominant
      else if p.substrateVisibility > 0.35 then PaperPartiallyVisible
      else SubstrateHidden;
    var anchor :=
      if p.anchorDensity > 0.7 then DenseAnchors
      else if p.anchorDensity > 0.3 then ScatteredAnchors
      else MinimalAnchoring;
    Descriptors(hydrology, edge, paper, anchor)
  }

  /** More of an axis never selects a lower rung of its ladder. */
  lemma DescribeMonotone(p: Point, q: Point)
    requires forall k :: p.Coord(k) <= q.Coord(k)
    ensures HydrologyRank(Describe(p).hydrology) <= HydrologyRank(Describe(q).hydrology)
    ensures PaperRung(Describe(p).paper) <= PaperRung(Describe(q).paper)
    ensures EdgeRung(Describe(p).edge) <= EdgeRung(Describe(q).edge)
    ensures AnchorRung(Describe(p).anchor) <= AnchorRung(Describe(q).anchor)
  {
    assert p.Coord(PigmentHydrology) <= q.Coord(PigmentHydrology);
    assert p.Coord(SubstrateVisibility) <= q.Coord(SubstrateVisibility);
    assert p.Coord(EdgeCoherence) <= q.Coord(EdgeCoherence);
    assert p.Coord(AnchorDensity) <= q.Coord(AnchorDensity);
    HydrologyBandMonotone(p.pigmentHydrology, q.pigmentHydrology);
  }

  function PaperRung(b: PaperBand): nat
  {
    match b
    case SubstrateHidden => 0
    case PaperPartiallyVisible => 1
    case PaperDominant => 2
  }

  function EdgeRung(b: EdgeBand): nat
  {
    match b
    case FeatheredBleedEdges => 0
    case MixedEdgeNegotiation => 1
    case ArchitecturalHardEdges => 2
  }

  function AnchorRung(b: AnchorBand): nat
  {
    match b
    case MinimalAnchoring => 0
    case ScatteredAnchors => 1
    case DenseAnchors => 2
  }

  // ---------------------------------------------------------------- modes

  datatype Mode = Composite | SplitView | Sequence

  /** The output mode; any other name is an unknown mode. */
  function ParseMode(mode: string): (r: Option<Mode>)
    ensures r == Some(Composite) <==> mode == "composite"
    ensures r == Some(SplitView) <==> mode == "split_view"
    ensures r == Some(Sequence) <==> mode == "sequence"
    ensures r.None? <==> mode !in ["composite", "split_view", "sequence"]
  {
    if mode == "composite" then Some(Composite)
    else if mode == "split_view" then Some(SplitView)
    else if mode == "sequence" then Some(Sequence)
    else None
  }

  // ---------------------------------------------------------------- keyframes

  datatype Keyframe = Keyframe(number: int, t: real, state: Point, nearest: VisualType)

  /** `keyframe_count` keyframes from the `editorial_wash` center towards the
      state, at `t = i / max(1, count - 1)`: they start at the editorial center
      and, from two keyframes on, end at the state; a single keyframe is the
      start alone, and a non-positive count gives none. */
  function Keyframes(target: Point, count: int): (ks: seq<Keyframe>)
    ensures |ks| == if count > 0 then count else 0
    ensures forall i :: 0 <= i < |ks| ==> ks[i].number == i + 1 && 0.0 <= ks[i].t <= 1.0
    ensures forall i :: 0 <= i < |ks| ==> ks[i].t == Fraction(i, Spacing(count))
    ensures forall i :: 0 <= i < |ks| ==>
              ks[i].state == Lerp(Center(EditorialWash), target, ks[i].t) && ks[i].nearest == NearestType(ks[i].state)
    ensures count > 0 ==> ks[0].state == Center(EditorialWash) && ks[0].nearest == EditorialWash
    ensures count >= 2 ==> ks[count - 1].state == target
  {
    var n := if count > 0 then count else 0;
    var ks := seq(n, i requires 0 <= i < n => KeyframeAt(i, target, count));
    NearestOfCenter(EditorialWash);
    ks
  }

  /** The divisor `max(1, count - 1)`. */
  function Spacing(count: int): (d: nat)
    ensures d >= 1
    ensures count >= 2 ==> d == count - 1
    ensures count < 2 ==> d == 1
  {
    if count - 1 >= 1 then count - 1 else 1
  }

  /** Keyframe number `i + 1`. */
  function KeyframeAt(i: nat, target: Point, count: int): (k: Keyframe)
    requires i < count
    ensures k.number == i + 1 && k.t == Fraction(i, Spacing(count))
    ensures 0.0 <= k.t <= 1.0
    ensures k.state == Lerp(Center(EditorialWash), target, k.t) && k.nearest == NearestType(k.state)
  {
    var t := Fraction(i, Spacing(count));
    var state := Lerp(Center(EditorialWash), target, t);
    Keyframe(i + 1, t, state, NearestType(state))
  }

  // ---------------------------------------------------------------- attractor prompt

  datatype Prompt =
    | CompositePrompt(state: Point, nearest: VisualType, descriptors: Descriptors)
    | SplitViewPrompt(state: Point, nearest: VisualType, descriptors: Descriptors, vocabulary: Vocabulary)
    | SequencePrompt(count: int, keyframes: seq<Keyframe>)

  /** The attractor prompt for a custom state or an id (never an error: an
      unknown id falls back to `contested_boundary`); only an unknown mode fails. */
  function AttractorPrompt(attractorId: string, custom: Option<Point>, mode: string, keyframeCount: int, m: Math)
    : (r: Result<Prompt>)
    requires Valid(m)
    ensures r.Err? <==> ParseMode(mode).None?
    ensures r.Err? ==> r.error == UnknownMode(mode)
    ensures r.Ok? ==>
              var state := AttractorState(custom, attractorId);
              match r.value
              case CompositePrompt(s, v, d) =>
                mode == "composite" && s == state && v == NearestType(state) && d == Describe(state)
              case SplitViewPrompt(s, v, d, vocab) =>
                mode == "split_view" && s == state && v == NearestType(state) && d == Describe(state)
                && vocab == Interpolate(state, 1.0, m)
              case SequencePrompt(n, ks) =>
                mode == "sequence" && n == keyframeCount && ks == Keyframes(state, keyframeCount)
  {
    var state := AttractorState(custom, attractorId);
    match ParseMode(mode)
    case None => Err(UnknownMode(mode))
    case Some(Composite) => Ok(CompositePrompt(state, NearestType(state), Describe(state)))
    case Some(SplitView) =>
      Ok(SplitViewPrompt(state, NearestType(state), Describe(state), Interpolate(state, 1.0, m)))
    case Some(Sequence) => Ok(SequencePrompt(keyframeCount, Keyframes(state, keyframeCount)))
  }

  /** The prompt for a visual type's own id describes that type's center, and
      the last of two or more keyframes reaches it. */
  lemma PromptOfVisualType(v: VisualType, keyframeCount: int, m: Math)
    requires Valid(m)
    ensures var r := AttractorPrompt(VisualTypeId(v), None, "composite", keyframeCount, m);
            r.Ok? && r.value.state == Center(v) && r.value.nearest == v
    ensures var r := AttractorPrompt(VisualTypeId(v), None, "sequence", keyframeCount, m);
            r.Ok? && (keyframeCount >= 2 ==> r.value.keyframes[keyframeCount - 1].state == Center(v))
  {
    IdsDistinct();
    ResolveVisualType(v);
    AttractorStateAgreesWithResolve(VisualTypeId(v));
    NearestOfCenter(v);
  }

  // ---------------------------------------------------------------- enhancement

  /** `style_override or detected`, kept only when it names a visual type. */
  function AppliedStyle(styleOverride: Option<string>, detected: VisualType): (v: VisualType)
    ensures styleOverride.Some? && styleOverride.value in VisualTypeIds ==>
              VisualTypeId(v) == styleOverride.value
    ensures styleOverride.None? || styleOverride.value !in VisualTypeIds ==> v == detected
  {
    var requested := if styleOverride.Some? && styleOverride.value != "" then styleOverride.value
                     else VisualTypeId(detected);
    match ParseVisualType(requested)
    case Some(v) => v
    case None => detected
  }

  datatype Enhancement = Enhancement(
    classification: Classification,
    applied: VisualType,
    mapping: Mapping,
    prompt: Prompt,
    vocabulary: Vocabulary)

  /** The enhancement bundle: classify the intent, choose the style, and map,
      prompt (composite) and describe that style. It never fails, because the
      applied style is always a visual type. */
  function Enhance(userIntent: string, styleOverride: Option<string>, substrate: Option<string>,
                   intensity: string, m: Math): (e: Enhancement)
    requires Valid(m)
    ensures e.classification == Classify(userIntent)
    ensures e.applied == AppliedStyle(styleOverride, e.classification.primary)
    ensures Ok(e.mapping) == MapParameters(VisualTypeId(e.applied), intensity, "balanced", substrate, m)
    ensures e.prompt == CompositePrompt(Center(e.applied), e.applied, Describe(Center(e.applied)))
    ensures Ok(e.vocabulary) == ExtractVocabulary(None, VisualTypeId(e.applied), 1.0, m)
    ensures e.vocabulary == Interpolate(Center(e.applied), 1.0, m)
  {
    Bundle(Classify(userIntent), styleOverride, substrate, intensity, m)
  }

  /** The bundle for an intent already classified as `c`. */
  function Bundle(c: Classification, styleOverride: Option<string>, substrate: Option<string>,
                  intensity: string, m: Math): (e: Enhancement)
    requires Valid(m)
    ensures e.classification == c
    ensures e.applied == AppliedStyle(styleOverride, c.primary)
    ensures Ok(e.mapping) == MapParameters(VisualTypeId(e.applied), intensity, "balanced", substrate, m)
    ensures e.prompt == CompositePrompt(Center(e.applied), e.applied, Describe(Center(e.applied)))
    ensures Ok(e.vocabulary) == ExtractVocabulary(None, VisualTypeId(e.applied), 1.0, m)
    ensures e.vocabulary == Interpolate(Center(e.applied), 1.0, m)
  {
    var v := AppliedStyle(styleOverride, c.primary);
    var id := VisualTypeId(v);
    StyleOutcomes(v, intensity, substrate, m);
    Enhancement(c, v,
                MapParameters(id, intensity, "balanced", substrate, m).value,
                AttractorPrompt(id, None, "composite", 4, m).value,
                ExtractVocabulary(None, id, 1.0, m).value)
  }

  /** The three steps of the bundle on a visual type's own id. */
  lemma StyleOutcomes(v: VisualType, intensity: string, substrate: Option<string>, m: Math)
    requires Valid(m)
    ensures MapParameters(VisualTypeId(v), intensity, "balanced", substrate, m).Ok?
    ensures AttractorPrompt(VisualTypeId(v), None, "composite", 4, m) ==
            Ok(CompositePrompt(Center(v), v, Describe(Center(v))))
    ensures ExtractVocabulary(None, VisualTypeId(v), 1.0, m) == Ok(Interpolate(Center(v), 1.0, m))
  {
    StyleMaps(v, intensity, substrate, m);
    StylePrompt(v, m);
    StyleVocabulary(v, m);
  }

  /** A visual type's own id always maps. */
  lemma StyleMaps(v: VisualType, intensity: string, substrate: Option<string>, m: Math)
    requires Valid(m)
    ensures MapParameters(VisualTypeId(v), intensity, "balanced", substrate, m).Ok?
  {
    ParseVisualTypeId(v);
  }

  /** A visual type's composite prompt describes its center. */
  lemma StylePrompt(v: VisualType, m: Math)
    requires Valid(m)
    ensures AttractorPrompt(VisualTypeId(v), None, "composite", 4, m) ==
            Ok(CompositePrompt(Center(v), v, Describe(Center(v))))
  {
    PromptOfVisualType(v, 4, m);
  }

  /** A visual type's vocabulary is that of its center. */
  lemma StyleVocabulary(v: VisualType, m: Math)
    requires Valid(m)
    ensures ExtractVocabulary(None, VisualTypeId(v), 1.0, m) == Ok(Interpolate(Center(v), 1.0, m))
  {
    ResolveVisualType(v);
    VisualTypesAreCanonical(v);
  }

  /** At moderate intensity the mapped state, the prompt's state and the
      vocabulary's state are all the applied style's center. */
  lemma EnhanceAgreesAtModerate(userIntent: string, styleOverride: Option<string>, substrate: Option<string>, m: Math)
    requires Valid(m)
    ensures var e := Enhance(userIntent, styleOverride, substrate, "moderate", m);
            && e.mapping.state == e.prompt.state == Center(e.applied)
            && e.mapping.nearest == e.prompt.nearest == e.vocabulary.nearest == e.applied
  {
    var e := Enhance(userIntent, styleOverride, substrate, "moderate", m);
    ModerateBalancedIsCenter(e.applied, substrate, m);
  }
}
