/** The parameter mapper: intensity scaling of each coordinate's deviation
    from 0.5, an emphasis shift and a clamp to [0, 1], followed by the
    threshold ladders that select edge modes, a hydrology state, a contrast
    curve and a list of characteristics. */
module Mapper {
  import opened Reals
  import opened Results
  import opened Space
  import opened Transcendental
  import opened Taxonomy
  import opened Geometry
  import opened Vocabulary

  // ---------------------------------------------------------------- state

  /** Intensity scale: subtle 0.6, moderate 1.0, dramatic 1.4, and 1.0 for any other name. */
  function IntensityScale(intensity: string): (s: real)
    ensures s == 0.6 <==> intensity == "subtle"
    ensures s == 1.4 <==> intensity == "dramatic"
    ensures intensity != "subtle" && intensity != "dramatic" ==> s == 1.0
  {
    if intensity == "subtle" then 0.6
    else if intensity == "moderate" then 1.0
    else if intensity == "dramatic" then 1.4
    else 1.0
  }

  /** Shift an emphasis adds on an axis; unknown emphases and "balanced" shift nothing. */
  function EmphasisShift(emphasis: string, k: Axis): real
  {
    if emphasis == "dissolution" then
      (if k == DissolutionRate then 0.1 else if k == AnchorDensity then -0.1 else 0.0)
    else if emphasis == "edge" then (if k == EdgeCoherence then 0.15 else 0.0)
    else if emphasis == "substrate" then (if k == SubstrateVisibility then 0.15 else 0.0)
    else if emphasis == "hydrology" then (if k == PigmentHydrology then 0.15 else 0.0)
    else 0.0
  }

  const Emphases: seq<string> := ["dissolution", "edge", "substrate", "hydrology", "balanced"]

  /** An emphasis outside the known names behaves like "balanced": no shift at all. */
  lemma UnknownEmphasisIsBalanced(emphasis: string, k: Axis)
    requires emphasis !in Emphases
    ensures EmphasisShift(emphasis, k) == EmphasisShift("balanced", k) == 0.0
  {
  }

  /** An intensity outside the known names behaves like "moderate". */
  lemma UnknownIntensityIsModerate(intensity: string)
    requires intensity !in ["subtle", "moderate", "dramatic"]
    ensures IntensityScale(intensity) == IntensityScale("moderate") == 1.0
  {
  }

  /** One mapped coordinate: the deviation from 0.5 scaled, then shifted, then clamped. */
  function MapCoord(x: real, scale: real, shift: real): (y: real)
    ensures 0.0 <= y <= 1.0
    ensures 0.0 <= x <= 1.0 && scale == 1.0 && shift == 0.0 ==> y == x
  {
    var deviation := (x - 0.5) * scale;
    assert scale == 1.0 ==> deviation == x - 0.5;
    Clamp01(0.5 + deviation + shift)
  }

  /** The mapped state, axis by axis. */
  function MapState(center: Point, scale: real, emphasis: string): (p: Point)
    ensures InUnitCube(p)
    ensures forall k :: p.Coord(k) == MapCoord(center.Coord(k), scale, EmphasisShift(emphasis, k))
  {
    Make(k => MapCoord(center.Coord(k), scale, EmphasisShift(emphasis, k)))
  }

  /** Scale 1 and no shift leave any point of the unit cube where it is. */
  lemma MapStateIdentity(center: Point, emphasis: string)
    requires InUnitCube(center)
    requires forall k :: EmphasisShift(emphasis, k) == 0.0
    ensures MapState(center, 1.0, emphasis) == center
  {
    var p := MapState(center, 1.0, emphasis);
    PointExt(p, center);
  }

  // ---------------------------------------------------------------- selections

  /** Position of an edge mode in the order the mapper lists them. */
  function EdgeModeRank(e: EdgeMode): nat
  {
    match e
    case ArchitecturalHard => 0
    case SilhouetteCut => 1
    case CauliflowerBackrun => 2
    case GranulationBoundary => 3
    case FeatheredBleed => 4
    case WetLift => 5
  }

  /** Active edge modes for an edge coherence. The three bands overlap on
      purpose: above 0.6 hard, between 0.3 and 0.7 organic, below 0.4 soft. */
  function EdgeModes(edgeCoherence: real): (r: seq<EdgeMode>)
    ensures |r| == 2 || |r| == 4
    ensures forall i, j :: 0 <= i < j < |r| ==> EdgeModeRank(r[i]) < EdgeModeRank(r[j])
    ensures ArchitecturalHard in r <==> edgeCoherence > 0.6
    ensures SilhouetteCut in r <==> edgeCoherence > 0.6
    ensures CauliflowerBackrun in r <==> 0.3 <= edgeCoherence <= 0.7
    ensures GranulationBoundary in r <==> 0.3 <= edgeCoherence <= 0.7
    ensures FeatheredBleed in r <==> edgeCoherence < 0.4
    ensures WetLift in r <==> edgeCoherence < 0.4
    ensures !(ArchitecturalHard in r && FeatheredBleed in r)
  {
    (if edgeCoherence > 0.6 then [ArchitecturalHard, SilhouetteCut] else [])
    + (if 0.3 <= edgeCoherence <= 0.7 then [CauliflowerBackrun, GranulationBoundary] else [])
    + (if edgeCoherence < 0.4 then [FeatheredBleed, WetLift] else [])
  }

  /** Boundaries between consecutive hydrology states, in order of increasing water. */
  const HydrologyThresholds: seq<real> := [0.15, 0.35, 0.55, 0.8]

  /** The hydrology state whose band `[threshold below, threshold above)` holds the value. */
  function HydrologyBand(pigmentHydrology: real): (h: HydrologyState)
    ensures HydrologyRank(h) > 0 ==> HydrologyThresholds[HydrologyRank(h) - 1] <= pigmentHydrology
    ensures HydrologyRank(h) < 4 ==> pigmentHydrology < HydrologyThresholds[HydrologyRank(h)]
  {
    if pigmentHydrology < 0.15 then DryBrush
    else if pigmentHydrology < 0.35 then ControlledWash
    else if pigmentHydrology < 0.55 then WetOnDry
    else if pigmentHydrology < 0.8 then WetOnWet
    else Flooding
  }

  /** More water never selects a drier hydrology state. */
  lemma HydrologyBandMonotone(x: real, y: real)
    requires x <= y
    ensures HydrologyRank(HydrologyBand(x)) <= HydrologyRank(HydrologyBand(y))
  {
  }

  /** Contrast curve by priority: dense anchors, then flood, then high key, then lifted wash. */
  function ContrastFor(p: Point): (c: ContrastCurve)
    ensures p.anchorDensity > 0.7 ==> c == AnchorContrast
    ensures c == FloodFlat <==> p.anchorDensity <= 0.7 && p.dissolutionRate > 0.8 && p.pigmentHydrology > 0.8
    ensures c == HighKeyDissolution <==> p.anchorDensity <= 0.7 && p.dissolutionRate > 0.6
                                         && !(p.dissolutionRate > 0.8 && p.pigmentHydrology > 0.8)
    ensures c == LiftedWash <==> p.anchorDensity <= 0.7 && p.dissolutionRate <= 0.6 && p.substrateVisibility > 0.6
    ensures c == PhotographicPreserved <==> p.anchorDensity <= 0.7 && p.dissolutionRate <= 0.6
                                            && p.substrateVisibility <= 0.6
    ensures c != GranulationCurve
  {
    if p.anchorDensity > 0.7 then AnchorContrast
    else if p.dissolutionRate > 0.8 && p.pigmentHydrology > 0.8 then FloodFlat
    else if p.dissolutionRate > 0.6 then HighKeyDissolution
    else if p.substrateVisibility > 0.6 then LiftedWash
    else PhotographicPreserved
  }

  datatype Characteristic =
    | PhotographicFidelity | ContestedTerritory | PainterlyDissolution
    | SharpArchitecturalEdges | SoftenedEdges
    | PaperBreathing
    | WetOnWetTexture | DryStructuralMarks
    | DenseRecognizableAnchors | NearAbstract

  predicate IsDissolutionCharacteristic(c: Characteristic)
  {
    c == PhotographicFidelity || c == ContestedTerritory || c == PainterlyDissolution
  }

  /** When a characteristic describes a state, read off the thresholds directly. */
  predicate Applies(p: Point, c: Characteristic)
  {
    match c
    case PhotographicFidelity => p.dissolutionRate < 0.3
    case ContestedTerritory => 0.3 <= p.dissolutionRate < 0.6
    case PainterlyDissolution => p.dissolutionRate >= 0.6
    case SharpArchitecturalEdges => p.edgeCoherence > 0.6
    case SoftenedEdges => p.edgeCoherence < 0.3
    case PaperBreathing => p.substrateVisibility > 0.6
    case WetOnWetTexture => p.pigmentHydrology > 0.7
    case DryStructuralMarks => p.pigmentHydrology < 0.2
    case DenseRecognizableAnchors => p.anchorDensity > 0.6
    case NearAbstract => p.anchorDensity < 0.2
  }

  /** The place of a characteristic's group in the list: the dissolution
      phrase, then edges, paper, hydrology and anchors, in the order the
      characteristics are appended. */
  function Slot(c: Characteristic): nat
  {
    match c
    case PhotographicFidelity | ContestedTerritory | PainterlyDissolution => 0
    case SharpArchitecturalEdges | SoftenedEdges => 1
    case PaperBreathing => 2
    case WetOnWetTexture | DryStructuralMarks => 3
    case DenseRecognizableAnchors | NearAbstract => 4
  }

  /** Characteristics: exactly the ones that apply, the dissolution phrase
      first, then at most one per other axis in axis order. */
  function Characteristics(p: Point): (r: seq<Characteristic>)
    ensures 1 <= |r| <= 5
    ensures forall i, j :: 0 <= i < j < |r| ==> Slot(r[i]) < Slot(r[j])
    ensures IsDissolutionCharacteristic(r[0])
    ensures forall c :: c in r[1..] ==> !IsDissolutionCharacteristic(c)
    ensures forall c :: c in r <==> Applies(p, c)
  {
    var dissolution := if p.dissolutionRate < 0.3 then PhotographicFidelity
                       else if p.dissolutionRate < 0.6 then ContestedTerritory
                       else PainterlyDissolution;
    var surface, body := SurfaceTraits(p), BodyTraits(p);
    SlotsConcat(surface, body, 3);
    SlotsConcat([dissolution], surface + body, 1);
    var r := [dissolution] + (surface + body);
    assert r[1..] == surface + body;
    r
  }

  /** Two lists with increasing slots, the first below `mid` and the second
      from `mid` on, concatenate to a list with increasing slots. */
  lemma SlotsConcat(xs: seq<Characteristic>, ys: seq<Characteristic>, mid: nat)
    requires forall i, j :: 0 <= i < j < |xs| ==> Slot(xs[i]) < Slot(xs[j])
    requires forall i, j :: 0 <= i < j < |ys| ==> Slot(ys[i]) < Slot(ys[j])
    requires forall i :: 0 <= i < |xs| ==> Slot(xs[i]) < mid
    requires forall j :: 0 <= j < |ys| ==> mid <= Slot(ys[j])
    ensures forall i, j :: 0 <= i < j < |xs + ys| ==> Slot((xs + ys)[i]) < Slot((xs + ys)[j])
  {
  }

  /** The edge and paper characteristics. */
  function SurfaceTraits(p: Point): (r: seq<Characteristic>)
    ensures |r| <= 2
    ensures forall c :: c in r ==> !IsDissolutionCharacteristic(c)
    ensures forall c :: !IsDissolutionCharacteristic(c) && c !in BodyKinds ==> (c in r <==> Applies(p, c))
    ensures forall c :: c in BodyKinds ==> c !in r
    ensures forall i :: 0 <= i < |r| ==> 1 <= Slot(r[i]) <= 2
    ensures forall i, j :: 0 <= i < j < |r| ==> Slot(r[i]) < Slot(r[j])
  {
    Either(p.edgeCoherence > 0.6, SharpArchitecturalEdges, p.edgeCoherence < 0.3, SoftenedEdges)
    + Either(p.substrateVisibility > 0.6, PaperBreathing, false, PaperBreathing)
  }

  const BodyKinds: set<Characteristic> := {WetOnWetTexture, DryStructuralMarks, DenseRecognizableAnchors, NearAbstract}

  /** The hydrology and anchor characteristics. */
  function BodyTraits(p: Point): (r: seq<Characteristic>)
    ensures |r| <= 2
    ensures forall c :: c in r ==> c in BodyKinds
    ensures forall c :: c in BodyKinds ==> (c in r <==> Applies(p, c))
    ensures forall i :: 0 <= i < |r| ==> 3 <= Slot(r[i]) <= 4
    ensures forall i, j :: 0 <= i < j < |r| ==> Slot(r[i]) < Slot(r[j])
  {
    Either(p.pigmentHydrology > 0.7, WetOnWetTexture, p.pigmentHydrology < 0.2, DryStructuralMarks)
    + Either(p.anchorDensity > 0.6, DenseRecognizableAnchors, p.anchorDensity < 0.2, NearAbstract)
  }

  /** `[x]` when the first test holds, else `[y]` when the second holds, else nothing. */
  function Either(first: bool, x: Characteristic, second: bool, y: Characteristic): (r: seq<Characteristic>)
    ensures |r| <= 1
    ensures forall c :: c in r <==> (first && c == x) || (!first && second && c == y)
  {
    if first then [x] else if second then [y] else []
  }

  // ---------------------------------------------------------------- mapping

  datatype Mapping = Mapping(
    style: VisualType,
    intensity: string,
    emphasis: string,
    state: Point,
    nearest: VisualType,
    nearestDistance: real,
    edgeModes: seq<EdgeMode>,
    hydrology: HydrologyState,
    contrast: ContrastCurve,
    substrate: Option<SubstrateType>,
    characteristics: seq<Characteristic>,
    vocabulary: Vocabulary)

  /** The substrate record is attached only for a known substrate id. */
  function SubstrateOf(substrate: Option<string>): (r: Option<SubstrateType>)
    ensures r.Some? <==> substrate.Some? && substrate.value in SubstrateIds
    ensures r.Some? ==> SubstrateId(r.value) == substrate.value
  {
    if substrate.Some? then ParseSubstrate(substrate.value) else None
  }

  /** Map a style to its full parameter set; an unknown style is an error
      carrying the six valid ids. */
  function MapParameters(styleId: string, intensity: string, emphasis: string, substrate: Option<string>, m: Math)
    : (r: Result<Mapping>)
    requires Valid(m)
    ensures r.Err? <==> styleId !in VisualTypeIds
    ensures r.Err? ==> r.error == UnknownStyle(styleId, VisualTypeIds)
    ensures r.Ok? ==>
              var g := r.value;
              && VisualTypeId(g.style) == styleId && ParseVisualType(styleId) == Some(g.style)
              && g.state == MapState(Center(g.style), IntensityScale(intensity), emphasis)
              && InUnitCube(g.state)
              && g.nearest == NearestType(g.state)
              && g.nearestDistance == NearestDistance(g.state, m)
              && g.edgeModes == EdgeModes(g.state.edgeCoherence)
              && g.hydrology == HydrologyBand(g.state.pigmentHydrology)
              && g.contrast == ContrastFor(g.state)
              && g.substrate == SubstrateOf(substrate)
              && g.characteristics == Characteristics(g.state)
              && g.vocabulary == Interpolate(g.state, 1.0, m)
  {
    match ParseVisualType(styleId)
    case None => Err(UnknownStyle(styleId, VisualTypeIds))
    case Some(style) =>
      var state := MapState(Center(style), IntensityScale(intensity), emphasis);
      Ok(Mapping(style, intensity, emphasis, state, NearestType(state), NearestDistance(state, m),
                 EdgeModes(state.edgeCoherence), HydrologyBand(state.pigmentHydrology), ContrastFor(state),
                 SubstrateOf(substrate), Characteristics(state), Interpolate(state, 1.0, m)))
  }

  /** With moderate intensity and balanced emphasis the mapped state is the
      style's own center, and so the nearest type is the style itself. */
  lemma ModerateBalancedIsCenter(v: VisualType, substrate: Option<string>, m: Math)
    requires Valid(m)
    ensures var r := MapParameters(VisualTypeId(v), "moderate", "balanced", substrate, m);
            r.Ok? && r.value.state == Center(v) && r.value.nearest == v
  {
    ParseVisualTypeId(v);
    ModerateBalancedState(v);
    NearestOfCenter(v);
  }

  lemma ModerateBalancedState(v: VisualType)
    ensures MapState(Center(v), IntensityScale("moderate"), "balanced") == Center(v)
  {
    assert IntensityScale("moderate") == 1.0;
    assert forall k :: EmphasisShift("balanced", k) == 0.0 by {
      UnknownEmphasisIsBalancedOrNamed();
    }
    CenterInUnitCube(v);
    MapStateIdentity(Center(v), "balanced");
  }

  lemma UnknownEmphasisIsBalancedOrNamed()
    ensures forall k :: EmphasisShift("balanced", k) == 0.0
  {
    assert "balanced" != "dissolution" && "balanced" != "edge";
    assert "balanced" != "substrate" && "balanced" != "hydrology";
  }
}
