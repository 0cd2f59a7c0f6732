/** The fixed reference tables: the six visual types and their centers, the ten
    canonical states, the attractor and rhythmic presets, and the identifier
    catalogs for edge modes, hydrology states, substrates and contrast curves.
    Every sequence lists its entries in declaration order, which is the order
    every scan and every tie-break follows. Descriptive prose is not kept. */
module Taxonomy {
  import opened Results
  import opened Space

  // ---------------------------------------------------------------- visual types

  datatype VisualType = EditorialWash | ContestedBoundary | FullDissolution
                      | GhostImpression | SubstrateEmergence | ChromaticFlood

  const VisualTypes: seq<VisualType> :=
    [EditorialWash, ContestedBoundary, FullDissolution, GhostImpression, SubstrateEmergence, ChromaticFlood]

  const VisualTypeIds: seq<string> :=
    ["editorial_wash", "contested_boundary", "full_dissolution",
     "ghost_impression", "substrate_emergence", "chromatic_flood"]

  /** Position of a visual type in declaration order. */
  function Index(v: VisualType): (i: nat)
    ensures i < |VisualTypes| && VisualTypes[i] == v
  {
    match v
    case EditorialWash => 0
    case ContestedBoundary => 1
    case FullDissolution => 2
    case GhostImpression => 3
    case SubstrateEmergence => 4
    case ChromaticFlood => 5
  }

  function VisualTypeId(v: VisualType): (s: string)
    ensures s == VisualTypeIds[Index(v)]
  {
    match v
    case EditorialWash => "editorial_wash"
    case ContestedBoundary => "contested_boundary"
    case FullDissolution => "full_dissolution"
    case GhostImpression => "ghost_impression"
    case SubstrateEmergence => "substrate_emergence"
    case ChromaticFlood => "chromatic_flood"
  }

  /** Lookup of a visual type by id (the `in VISUAL_TYPES` test). */
  function ParseVisualType(s: string): (r: Option<VisualType>)
    ensures r.Some? <==> s in VisualTypeIds
    ensures r.Some? ==> VisualTypeId(r.value) == s
  {
    if s == "editorial_wash" then Some(EditorialWash)
    else if s == "contested_boundary" then Some(ContestedBoundary)
    else if s == "full_dissolution" then Some(FullDissolution)
    else if s == "ghost_impression" then Some(GhostImpression)
    else if s == "substrate_emergence" then Some(SubstrateEmergence)
    else if s == "chromatic_flood" then Some(ChromaticFlood)
    else None
  }

  lemma ParseVisualTypeId(v: VisualType)
    ensures ParseVisualType(VisualTypeId(v)) == Some(v)
  {
  }

  function Center(v: VisualType): Point
  {
    match v
    case EditorialWash => Point(0.15, 0.85, 0.10, 0.20, 0.90)
    case ContestedBoundary => Point(0.50, 0.50, 0.35, 0.50, 0.50)
    case FullDissolution => Point(0.85, 0.15, 0.75, 0.85, 0.10)
    case GhostImpression => Point(0.65, 0.75, 0.50, 0.10, 0.20)
    case SubstrateEmergence => Point(0.70, 0.30, 0.85, 0.40, 0.30)
    case ChromaticFlood => Point(0.90, 0.20, 0.50, 0.95, 0.15)
  }

  /** The six centers in declaration order. */
  function Centers(): (cs: seq<Point>)
    ensures |cs| == |VisualTypes|
    ensures forall i :: 0 <= i < |cs| ==> cs[i] == Center(VisualTypes[i])
  {
    seq(|VisualTypes|, i requires 0 <= i < |VisualTypes| => Center(VisualTypes[i]))
  }

  // ---------------------------------------------------------------- canonical states

  /** Where a canonical state comes from: a visual type center, or a blend of
      two centers at a fixed factor (the stored coordinates are rounded to two decimals). */
  datatype Provenance = FromVisualType(v: VisualType) | Interpolated(from: VisualType, to: VisualType, factor: real)

  datatype CanonicalState = CanonicalState(id: string, coordinates: Point, source: Provenance)

  const CanonicalStates: seq<CanonicalState> := [
    CanonicalState("editorial_wash", Center(EditorialWash), FromVisualType(EditorialWash)),
    CanonicalState("light_wash", Point(0.27, 0.73, 0.18, 0.30, 0.77),
                   Interpolated(EditorialWash, ContestedBoundary, 0.33)),
    CanonicalState("contested_boundary", Center(ContestedBoundary), FromVisualType(ContestedBoundary)),
    CanonicalState("ghost_impression", Center(GhostImpression), FromVisualType(GhostImpression)),
    CanonicalState("advancing_dissolution", Point(0.68, 0.33, 0.55, 0.68, 0.30),
                   Interpolated(ContestedBoundary, FullDissolution, 0.5)),
    CanonicalState("substrate_emergence", Center(SubstrateEmergence), FromVisualType(SubstrateEmergence)),
    CanonicalState("full_dissolution", Center(FullDissolution), FromVisualType(FullDissolution)),
    CanonicalState("saturating_flood", Point(0.88, 0.18, 0.63, 0.90, 0.13),
                   Interpolated(FullDissolution, ChromaticFlood, 0.5)),
    CanonicalState("chromatic_flood", Center(ChromaticFlood), FromVisualType(ChromaticFlood)),
    CanonicalState("restrained_study", Point(0.68, 0.53, 0.68, 0.25, 0.25),
                   Interpolated(SubstrateEmergence, GhostImpression, 0.5))
  ]

  function CanonicalIds(): (ids: seq<string>)
    ensures |ids| == |CanonicalStates|
    ensures forall i :: 0 <= i < |ids| ==> ids[i] == CanonicalStates[i].id
  {
    seq(|CanonicalStates|, i requires 0 <= i < |CanonicalStates| => CanonicalStates[i].id)
  }

  /** Dictionary lookup of a canonical state by id. */
  function FindCanonical(id: string): (r: Option<Point>)
    ensures r.Some? <==> id in CanonicalIds()
    ensures r.Some? ==> exists i :: 0 <= i < |CanonicalStates| && CanonicalStates[i].id == id
                                    && CanonicalStates[i].coordinates == r.value
  {
    FindCanonicalFrom(id, 0)
  }

  function FindCanonicalFrom(id: string, i: nat): (r: Option<Point>)
    requires i <= |CanonicalStates|
    ensures r.Some? <==> exists j :: i <= j < |CanonicalStates| && CanonicalStates[j].id == id
    ensures r.Some? ==> exists j :: i <= j < |CanonicalStates| && CanonicalStates[j].id == id
                                    && CanonicalStates[j].coordinates == r.value
    decreases |CanonicalStates| - i
  {
    if i == |CanonicalStates| then None
    else if CanonicalStates[i].id == id then Some(CanonicalStates[i].coordinates)
    else FindCanonicalFrom(id, i + 1)
  }

  // ---------------------------------------------------------------- attractor presets

  datatype AttractorPreset = AttractorPreset(id: string, state: Point, basinRadius: real)

  const AttractorPresets: seq<AttractorPreset> := [
    AttractorPreset("editorial_discipline", Center(EditorialWash), 0.25),
    AttractorPreset("creative_tension", Center(ContestedBoundary), 0.20),
    AttractorPreset("painterly_freedom", Center(FullDissolution), 0.25),
    AttractorPreset("spectral_trace", Center(GhostImpression), 0.20),
    AttractorPreset("breath_of_paper", Center(SubstrateEmergence), 0.22),
    AttractorPreset("saturated_tide", Center(ChromaticFlood), 0.25),
    AttractorPreset("balanced_study", Point(0.68, 0.53, 0.68, 0.25, 0.25), 0.18)
  ]

  function AttractorIds(): (ids: seq<string>)
    ensures |ids| == |AttractorPresets|
    ensures forall i :: 0 <= i < |ids| ==> ids[i] == AttractorPresets[i].id
  {
    seq(|AttractorPresets|, i requires 0 <= i < |AttractorPresets| => AttractorPresets[i].id)
  }

  function FindAttractor(id: string): (r: Option<Point>)
    ensures r.Some? <==> id in AttractorIds()
    ensures r.Some? ==> exists i :: 0 <= i < |AttractorPresets| && AttractorPresets[i].id == id
                                    && AttractorPresets[i].state == r.value
  {
    FindAttractorFrom(id, 0)
  }

  function FindAttractorFrom(id: string, i: nat): (r: Option<Point>)
    requires i <= |AttractorPresets|
    ensures r.Some? <==> exists j :: i <= j < |AttractorPresets| && AttractorPresets[j].id == id
    ensures r.Some? ==> exists j :: i <= j < |AttractorPresets| && AttractorPresets[j].id == id
                                    && AttractorPresets[j].state == r.value
    decreases |AttractorPresets| - i
  {
    if i == |AttractorPresets| then None
    else if AttractorPresets[i].id == id then Some(AttractorPresets[i].state)
    else FindAttractorFrom(id, i + 1)
  }

  // ---------------------------------------------------------------- rhythmic presets

  datatype RhythmicPreset = RhythmicPreset(id: string, stateA: string, stateB: string, period: int)

  const RhythmicPresets: seq<RhythmicPreset> := [
    RhythmicPreset("fidelity_breathing", "editorial_wash", "full_dissolution", 20),
    RhythmicPreset("hydrology_pulse", "ghost_impression", "chromatic_flood", 16),
    RhythmicPreset("substrate_tide", "chromatic_flood", "substrate_emergence", 18),
    RhythmicPreset("edge_negotiation", "editorial_wash", "contested_boundary", 22),
    RhythmicPreset("dissolution_sweep", "editorial_wash", "chromatic_flood", 24)
  ]

  const RhythmicPresetIds: seq<string> :=
    ["fidelity_breathing", "hydrology_pulse", "substrate_tide", "edge_negotiation", "dissolution_sweep"]

  function FindRhythmicPreset(name: string): (r: Option<RhythmicPreset>)
    ensures r.Some? <==> name in RhythmicPresetIds
    ensures r.Some? ==> r.value in RhythmicPresets && r.value.id == name
  {
    FindRhythmicPresetFrom(name, 0)
  }

  function FindRhythmicPresetFrom(name: string, i: nat): (r: Option<RhythmicPreset>)
    requires i <= |RhythmicPresets|
    ensures r.Some? <==> exists j :: i <= j < |RhythmicPresets| && RhythmicPresets[j].id == name
    ensures r.Some? ==> r.value in RhythmicPresets[i..] && r.value.id == name
    decreases |RhythmicPresets| - i
  {
    if i == |RhythmicPresets| then None
    else if RhythmicPresets[i].id == name then Some(RhythmicPresets[i])
    else FindRhythmicPresetFrom(name, i + 1)
  }

  // ---------------------------------------------------------------- catalogs

  datatype EdgeMode = ArchitecturalHard | CauliflowerBackrun | FeatheredBleed
                    | SilhouetteCut | GranulationBoundary | WetLift

  function EdgeModeId(e: EdgeMode): string
  {
    match e
    case ArchitecturalHard => "architectural_hard"
    case CauliflowerBackrun => "cauliflower_backrun"
    case FeatheredBleed => "feathered_bleed"
    case SilhouetteCut => "silhouette_cut"
    case GranulationBoundary => "granulation_boundary"
    case WetLift => "wet_lift"
  }

  datatype HydrologyState = DryBrush | ControlledWash | WetOnDry | WetOnWet | Flooding

  const HydrologyStateIds: seq<string> := ["dry_brush", "controlled_wash", "wet_on_dry", "wet_on_wet", "flooding"]

  /** Position in declaration order, which is also the order of increasing water. */
  function HydrologyRank(h: HydrologyState): (i: nat)
    ensures i < |HydrologyStateIds|
  {
    match h
    case DryBrush => 0
    case ControlledWash => 1
    case WetOnDry => 2
    case WetOnWet => 3
    case Flooding => 4
  }

  function HydrologyStateId(h: HydrologyState): (s: string)
    ensures s == HydrologyStateIds[HydrologyRank(h)]
  {
    match h
    case DryBrush => "dry_brush"
    case ControlledWash => "controlled_wash"
    case WetOnDry => "wet_on_dry"
    case WetOnWet => "wet_on_wet"
    case Flooding => "flooding"
  }

  datatype SubstrateType = HotPress | ColdPress | Rough | Yupo | Masa

  const SubstrateIds: seq<string> := ["hot_press", "cold_press", "rough", "yupo", "masa"]

  function SubstrateId(s: SubstrateType): string
  {
    match s
    case HotPress => "hot_press"
    case ColdPress => "cold_press"
    case Rough => "rough"
    case Yupo => "yupo"
    case Masa => "masa"
  }

  /** Lookup of a substrate by id (the `in SUBSTRATE_TYPES` test). */
  function ParseSubstrate(s: string): (r: Option<SubstrateType>)
    ensures r.Some? <==> s in SubstrateIds
    ensures r.Some? ==> SubstrateId(r.value) == s
  {
    if s == "hot_press" then Some(HotPress)
    else if s == "cold_press" then Some(ColdPress)
    else if s == "rough" then Some(Rough)
    else if s == "yupo" then Some(Yupo)
    else if s == "masa" then Some(Masa)
    else None
  }

  datatype ContrastCurve = PhotographicPreserved | LiftedWash | HighKeyDissolution
                         | AnchorContrast | GranulationCurve | FloodFlat

  function ContrastCurveId(c: ContrastCurve): string
  {
    match c
    case PhotographicPreserved => "photographic_preserved"
    case LiftedWash => "lifted_wash"
    case HighKeyDissolution => "high_key_dissolution"
    case AnchorContrast => "anchor_contrast"
    case GranulationCurve => "granulation_curve"
    case FloodFlat => "flood_flat"
  }

  // ---------------------------------------------------------------- table facts

  /** Every reference point of every table lies in the unit cube. */
  lemma TablesInUnitCube()
    ensures forall v :: InUnitCube(Center(v))
    ensures forall i :: 0 <= i < |CanonicalStates| ==> InUnitCube(CanonicalStates[i].coordinates)
    ensures forall i :: 0 <= i < |AttractorPresets| ==> InUnitCube(AttractorPresets[i].state)
  {
    forall v ensures InUnitCube(Center(v)) {
      CenterInUnitCube(v);
    }
    forall i | 0 <= i < |CanonicalStates|
      ensures InUnitCube(CanonicalStates[i].coordinates)
    {
      var s := CanonicalStates[i];
      if s.source.FromVisualType? {
        CenterInUnitCube(s.source.v);
      }
    }
    forall i | 0 <= i < |AttractorPresets|
      ensures InUnitCube(AttractorPresets[i].state)
    {
      if i < 6 {
        CenterInUnitCube(VisualTypes[i]);
      }
    }
  }

  lemma CenterInUnitCube(v: VisualType)
    ensures InUnitCube(Center(v))
  {
  }

  /** A canonical state that comes from a visual type sits exactly on its center;
      an interpolated one is within 0.005 (two-decimal rounding) on every axis of
      the blend its provenance names. */
  lemma CanonicalStatesMatchProvenance()
    ensures forall i :: 0 <= i < |CanonicalStates| && CanonicalStates[i].source.FromVisualType? ==>
              CanonicalStates[i].coordinates == Center(CanonicalStates[i].source.v)
              && CanonicalStates[i].id == VisualTypeId(CanonicalStates[i].source.v)
    ensures forall i, k :: 0 <= i < |CanonicalStates| && CanonicalStates[i].source.Interpolated? ==>
              var src := CanonicalStates[i].source;
              -0.005 <= CanonicalStates[i].coordinates.Coord(k)
                        - Lerp(Center(src.from), Center(src.to), src.factor).Coord(k) <= 0.005
  {
    CanonicalCentersExact();
    CanonicalBlendsRounded();
  }

  lemma CanonicalCentersExact()
    ensures forall i :: 0 <= i < |CanonicalStates| && CanonicalStates[i].source.FromVisualType? ==>
              CanonicalStates[i].coordinates == Center(CanonicalStates[i].source.v)
              && CanonicalStates[i].id == VisualTypeId(CanonicalStates[i].source.v)
  {
  }

  lemma CanonicalBlendsRounded()
    ensures forall i, k :: 0 <= i < |CanonicalStates| && CanonicalStates[i].source.Interpolated? ==>
              var src := CanonicalStates[i].source;
              -0.005 <= CanonicalStates[i].coordinates.Coord(k)
                        - Lerp(Center(src.from), Center(src.to), src.factor).Coord(k) <= 0.005
  {
  }

  /** Every visual type id is also a canonical state id, with the same coordinates. */
  lemma VisualTypesAreCanonical(v: VisualType)
    ensures FindCanonical(VisualTypeId(v)) == Some(Center(v))
  {
    FindCanonicalAt(CanonicalPosition(v));
  }

  /** Looking up the id of table entry `i` finds that entry, since the ids are distinct. */
  lemma FindCanonicalAt(i: nat)
    requires i < |CanonicalStates|
    ensures FindCanonical(CanonicalStates[i].id) == Some(CanonicalStates[i].coordinates)
  {
    var id := CanonicalStates[i].id;
    assert CanonicalIds()[i] == id;
    var r := FindCanonical(id);
    var j :| 0 <= j < |CanonicalStates| && CanonicalStates[j].id == id && CanonicalStates[j].coordinates == r.value;
    IdsDistinct();
    assert !(i < j) && !(j < i);
  }

  /** Where each visual type sits in the canonical-state table. */
  function CanonicalPosition(v: VisualType): (i: nat)
    ensures i < |CanonicalStates| && CanonicalStates[i].id == VisualTypeId(v)
    ensures CanonicalStates[i].coordinates == Center(v)
  {
    match v
    case EditorialWash => 0
    case ContestedBoundary => 2
    case FullDissolution => 6
    case GhostImpression => 3
    case SubstrateEmergence => 5
    case ChromaticFlood => 8
  }

  /** Canonical ids are pairwise distinct, and no attractor id is a canonical or visual id. */
  lemma IdsDistinct()
    ensures forall i, j :: 0 <= i < j < |CanonicalStates| ==> CanonicalStates[i].id != CanonicalStates[j].id
    ensures forall i :: 0 <= i < |AttractorPresets| ==>
              AttractorPresets[i].id !in CanonicalIds() && AttractorPresets[i].id !in VisualTypeIds
  {
    CanonicalIdsDistinct();
    AttractorIdsFresh();
  }

  lemma CanonicalIdsDistinct()
    ensures forall i, j :: 0 <= i < j < |CanonicalStates| ==> CanonicalStates[i].id != CanonicalStates[j].id
  {
  }

  lemma AttractorIdsFresh()
    ensures forall i :: 0 <= i < |AttractorPresets| ==>
              AttractorPresets[i].id !in CanonicalIds() && AttractorPresets[i].id !in VisualTypeIds
  {
  }
}
