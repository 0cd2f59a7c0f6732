/** The intent classifier: substring hit counts per visual type with a
    first-maximum winner, and two hint detectors with different precedence
    rules (last matching hydrology category; first matching substrate group). */
module Classifier {
  import opened Reals
  import opened Results
  import opened Text
  import opened Taxonomy

  /** Intent terms per visual type, in declaration order. */
  const IntentTerms: seq<seq<string>> := [
    ["editorial", "magazine", "controlled", "sharp subject", "accent", "selective", "subtle", "restrained"],
    ["tension", "between", "both", "neither", "oscillat", "coexist", "compete", "mural", "boundary", "mix"],
    ["loose", "dissolve", "painterly", "watercolor", "abstract", "bloom", "backrun", "complete"],
    ["ghost", "faded", "blueprint", "trace", "skeleton", "palimpsest", "bleach", "dry", "crisp edge"],
    ["paper", "white space", "negative", "minimal", "restraint", "breath", "ma ", "sparse", "empty"],
    ["flood", "saturated", "wet", "drip", "pour", "expressionist", "bold", "vivid", "maximum", "intense"]
  ]

  // ---------------------------------------------------------------- style

  /** Hit count of every visual type's term list in `text`. */
  function TypeCounts(text: string): (s: seq<real>)
    ensures |s| == |VisualTypes|
    ensures forall i :: 0 <= i < |s| ==> s[i] == |Matches(IntentTerms[i], text)| as real
    ensures forall i :: 0 <= i < |s| ==> 0.0 <= s[i] <= |IntentTerms[i]| as real
  {
    seq(|VisualTypes|, i requires 0 <= i < |VisualTypes| => |Matches(IntentTerms[i], text)| as real)
  }

  /** The primary style and its confidence. With no hit at all the style is
      `contested_boundary` at confidence 0.3; otherwise it is the first type with
      the maximal count, at confidence `min(1, max/4)`. */
  function PrimaryStyle(counts: seq<real>): (r: (VisualType, real))
    requires |counts| == |VisualTypes|
    requires forall i :: 0 <= i < |counts| ==> counts[i] >= 0.0
    ensures MaxOf(counts) == 0.0 ==> r == (ContestedBoundary, 0.3)
    ensures MaxOf(counts) != 0.0 ==>
              && (forall u :: counts[Index(u)] <= counts[Index(r.0)])
              && (forall u :: Index(u) < Index(r.0) ==> counts[Index(u)] < counts[Index(r.0)])
              && r.1 == Min(1.0, counts[Index(r.0)] / 4.0)
    ensures 0.0 < r.1 <= 1.0
  {
    var top := MaxOf(counts);
    if top == 0.0 then (ContestedBoundary, 0.3)
    else
      var k := ArgMaxFirst(counts);
      assert Index(VisualTypes[k]) == k;
      (VisualTypes[k], Min(1.0, top / 4.0))
  }

  // ---------------------------------------------------------------- hydrology hint

  datatype HydrologyCategory = DryCategory | ControlledCategory | WetOnDryCategory | WetOnWetCategory | FloodingCategory

  const HydrologyCategories: seq<HydrologyCategory> :=
    [DryCategory, ControlledCategory, WetOnDryCategory, WetOnWetCategory, FloodingCategory]

  function HydrologyCategoryId(c: HydrologyCategory): string
  {
    match c
    case DryCategory => "dry"
    case ControlledCategory => "controlled"
    case WetOnDryCategory => "wet_on_dry"
    case WetOnWetCategory => "wet_on_wet"
    case FloodingCategory => "flooding"
  }

  function HydrologyTerms(c: HydrologyCategory): seq<string>
  {
    match c
    case DryCategory => ["dry brush", "dry", "textured", "broken", "scratchy"]
    case ControlledCategory => ["controlled", "even", "smooth", "balanced", "standard"]
    case WetOnDryCategory => ["layered", "crisp layer", "hard edge layer", "glazing"]
    case WetOnWetCategory => ["wet on wet", "diffuse", "merge", "soft edge", "bloom"]
    case FloodingCategory => ["flood", "drip", "gravity", "pour", "capillary", "run"]
  }

  predicate Hit(c: HydrologyCategory, text: string)
  {
    AnyHit(HydrologyTerms(c), text)
  }

  /** Reference reading of the hint loop: the position of the LAST category
      with a hit, or -1 when none hits, since the `break` only leaves the inner loop. */
  function LastHit(cs: seq<HydrologyCategory>, text: string): (k: int)
    ensures -1 <= k < |cs|
    ensures k >= 0 ==> Hit(cs[k], text)
    ensures forall j :: k < j < |cs| ==> !Hit(cs[j], text)
  {
    if |cs| == 0 then -1
    else if Hit(cs[|cs| - 1], text) then |cs| - 1
    else
      var k := LastHit(cs[..|cs| - 1], text);
      assert forall j :: 0 <= j < |cs| - 1 ==> cs[..|cs| - 1][j] == cs[j];
      k
  }

  /** The three properties of `LastHit` determine it. */
  lemma LastHitUnique(cs: seq<HydrologyCategory>, text: string, k: int)
    requires -1 <= k < |cs|
    requires k >= 0 ==> Hit(cs[k], text)
    requires forall j :: k < j < |cs| ==> !Hit(cs[j], text)
    ensures LastHit(cs, text) == k
  {
    var l := LastHit(cs, text);
    assert l <= k && k <= l;
  }

  /** The last hit of a list is found in its tail, or is the head when the tail has none. */
  lemma LastHitSplit(cs: seq<HydrologyCategory>, text: string)
    requires |cs| > 0
    ensures LastHit(cs, text) ==
              if LastHit(cs[1..], text) >= 0 then LastHit(cs[1..], text) + 1
              else if Hit(cs[0], text) then 0
              else -1
  {
    var t := LastHit(cs[1..], text);
    if t >= 0 {
      assert cs[1..][t] == cs[t + 1];
      forall j | t + 1 < j < |cs| ensures !Hit(cs[j], text) {
        assert cs[1..][j - 1] == cs[j];
      }
      LastHitUnique(cs, text, t + 1);
    } else {
      forall j | 0 < j < |cs| ensures !Hit(cs[j], text) {
        assert cs[1..][j - 1] == cs[j];
      }
      LastHitUnique(cs, text, if Hit(cs[0], text) then 0 else -1);
    }
  }

  /** The category whose hit decides the hint, if any. */
  function LastHitCategory(cs: seq<HydrologyCategory>, text: string): (r: Option<HydrologyCategory>)
    ensures r.None? <==> forall i :: 0 <= i < |cs| ==> !Hit(cs[i], text)
    ensures r.Some? ==> r.value == cs[LastHit(cs, text)]
  {
    var k := LastHit(cs, text);
    if k < 0 then None else Some(cs[k])
  }

  /** The hint loop as written: each category with a hit overwrites the hint
      with its id, except that "dry" is renamed "dry_brush". The controlled
      category therefore yields "controlled", which is not a hydrology-state id. */
  function HydrologyHintScanAsWritten(cs: seq<HydrologyCategory>, text: string, hint: string): (h: string)
  {
    if |cs| == 0 then hint
    else
      var next := if Hit(cs[0], text) then AsWrittenId(cs[0]) else hint;
      HydrologyHintScanAsWritten(cs[1..], text, next)
  }

  /** The id the loop records for a category: its own id, with "dry" renamed "dry_brush". */
  function AsWrittenId(c: HydrologyCategory): (id: string)
    ensures c != ControlledCategory ==> id == HydrologyStateId(CategoryState(c))
    ensures c == ControlledCategory ==> id == "controlled"
  {
    var id := HydrologyCategoryId(c);
    if id != "dry" then id else "dry_brush"
  }

  function HydrologyHintAsWritten(text: string): (h: string)
  {
    HydrologyHintScanAsWritten(HydrologyCategories, text, "controlled_wash")
  }

  /** The hydrology state each category stands for. */
  function CategoryState(c: HydrologyCategory): HydrologyState
  {
    match c
    case DryCategory => DryBrush
    case ControlledCategory => ControlledWash
    case WetOnDryCategory => WetOnDry
    case WetOnWetCategory => WetOnWet
    case FloodingCategory => Flooding
  }

  /** The hint loop with every category mapped to its hydrology state. */
  function HydrologyHintScan(cs: seq<HydrologyCategory>, text: string, hint: HydrologyState): (h: HydrologyState)
    ensures var k := LastHit(cs, text); h == if k < 0 then hint else CategoryState(cs[k])
  {
    if |cs| == 0 then hint
    else
      var next := if Hit(cs[0], text) then CategoryState(cs[0]) else hint;
      var h := HydrologyHintScan(cs[1..], text, next);
      HintScanStep(cs, text, hint, next, h);
      h
  }

  /** One step of the hint scan: the tail's answer, started from the head's
      update, is the answer for the whole list. */
  lemma HintScanStep(cs: seq<HydrologyCategory>, text: string, hint: HydrologyState, next: HydrologyState, h: HydrologyState)
    requires |cs| > 0
    requires next == if Hit(cs[0], text) then CategoryState(cs[0]) else hint
    requires var t := LastHit(cs[1..], text); h == if t < 0 then next else CategoryState(cs[1..][t])
    ensures var k := LastHit(cs, text); h == if k < 0 then hint else CategoryState(cs[k])
  {
    LastHitSplit(cs, text);
    var t := LastHit(cs[1..], text);
    if t >= 0 {
      assert cs[1..][t] == cs[t + 1];
    }
  }

  /** The suggested hydrology state: `controlled_wash` when no hydrology term
      occurs, otherwise the state of the last category with a hit. */
  function HydrologyHint(text: string): (h: HydrologyState)
    ensures (forall c :: c in HydrologyCategories ==> !Hit(c, text)) ==> h == ControlledWash
    ensures LastHitCategory(HydrologyCategories, text).Some? ==>
              h == CategoryState(LastHitCategory(HydrologyCategories, text).value)
  {
    HydrologyHintScan(HydrologyCategories, text, ControlledWash)
  }

  /** The last category with a hit is found in the tail, or is the head when the tail has none. */
  lemma LastHitCategorySplit(cs: seq<HydrologyCategory>, text: string)
    requires |cs| > 0
    ensures LastHitCategory(cs, text) ==
              if LastHitCategory(cs[1..], text).Some? then LastHitCategory(cs[1..], text)
              else if Hit(cs[0], text) then Some(cs[0])
              else None
  {
    LastHitSplit(cs, text);
    var t := LastHit(cs[1..], text);
    if t >= 0 {
      assert cs[1..][t] == cs[t + 1];
      assert LastHitCategory(cs[1..], text) == Some(cs[t + 1]);
      assert LastHitCategory(cs, text) == Some(cs[t + 1]);
    } else if Hit(cs[0], text) {
      assert LastHitCategory(cs[1..], text) == None;
      assert LastHitCategory(cs, text) == Some(cs[0]);
    } else {
      assert LastHitCategory(cs[1..], text) == None;
      assert LastHitCategory(cs, text) == None;
    }
  }

  /** The as-written hint agrees with the state hint's id, except that the
      controlled category produces "controlled" instead of "controlled_wash". */
  lemma {:induction false} HintScanAgreement(cs: seq<HydrologyCategory>, text: string, hint: HydrologyState)
    ensures var w := HydrologyHintScanAsWritten(cs, text, HydrologyStateId(hint));
            var c := HydrologyHintScan(cs, text, hint);
            if LastHitCategory(cs, text) == Some(ControlledCategory) then w == "controlled" && c == ControlledWash
            else w == HydrologyStateId(c)
  {
    if |cs| > 0 {
      var hit := Hit(cs[0], text);
      var nextState := if hit then CategoryState(cs[0]) else hint;
      LastHitCategorySplit(cs, text);
      if hit && cs[0] == ControlledCategory {
        ControlledTailAgreement(cs[1..], text);
      } else {
        assert (if hit then AsWrittenId(cs[0]) else HydrologyStateId(hint)) == HydrologyStateId(nextState);
        HintScanAgreement(cs[1..], text, nextState);
      }
    }
  }

  /** After the controlled category has hit, the as-written scan either keeps
      "controlled" (no later hit) or agrees with the state scan again. */
  lemma {:induction false} ControlledTailAgreement(cs: seq<HydrologyCategory>, text: string)
    ensures var w := HydrologyHintScanAsWritten(cs, text, "controlled");
            var c := HydrologyHintScan(cs, text, ControlledWash);
            if LastHitCategory(cs, text).None? then w == "controlled" && c == ControlledWash
            else if LastHitCategory(cs, text) == Some(ControlledCategory) then w == "controlled" && c == ControlledWash
            else w == HydrologyStateId(c)
  {
    if |cs| > 0 {
      var hit := Hit(cs[0], text);
      LastHitCategorySplit(cs, text);
      if !hit || cs[0] == ControlledCategory {
        ControlledTailAgreement(cs[1..], text);
      } else {
        HintScanAgreement(cs[1..], text, CategoryState(cs[0]));
      }
    }
  }

  /** The as-written hint is a hydrology-state id exactly when the controlled
      category is not the last one with a hit. */
  lemma HydrologyHintAsWrittenValidity(text: string)
    ensures HydrologyHintAsWritten(text) in HydrologyStateIds <==>
              LastHitCategory(HydrologyCategories, text) != Some(ControlledCategory)
    ensures LastHitCategory(HydrologyCategories, text) != Some(ControlledCategory) ==>
              HydrologyHintAsWritten(text) == HydrologyStateId(HydrologyHint(text))
  {
    HintScanAgreement(HydrologyCategories, text, ControlledWash);
  }

  /** A concrete input: "even" hits only the controlled category, and the
      as-written hint is "controlled", which names no hydrology state. */
  lemma ControlledHintIsNotAState()
    ensures HydrologyHintAsWritten("even") == "controlled"
    ensures "controlled" !in HydrologyStateIds
  {
    EvenDecidedByControlled();
    HydrologyHintAsWrittenValidity("even");
  }

  /** On the same input the corrected hint is `controlled_wash`. */
  lemma CorrectedHintOnEven()
    ensures HydrologyHint("even") == ControlledWash
  {
    EvenDecidedByControlled();
  }

  /** In "even" the controlled category is the last (indeed the only) one with a hit. */
  lemma EvenDecidedByControlled()
    ensures LastHitCategory(HydrologyCategories, "even") == Some(ControlledCategory)
  {
    assert Contains("even", "even");
    assert Hit(ControlledCategory, "even") by {
      assert Contains("even", HydrologyTerms(ControlledCategory)[1]);
    }
    EvenMissesCategory(DryCategory);
    EvenMissesCategory(WetOnDryCategory);
    EvenMissesCategory(WetOnWetCategory);
    EvenMissesCategory(FloodingCategory);
    var cs := HydrologyCategories;
    assert cs[1] == ControlledCategory && cs[2] == WetOnDryCategory;
    assert cs[3] == WetOnWetCategory && cs[4] == FloodingCategory;
    LastHitUnique(cs, "even", 1);
  }

  /** No term outside the controlled category starts with 'e', 'v' or 'n'. */
  lemma EvenMissesCategory(c: HydrologyCategory)
    requires c != ControlledCategory
    ensures !Hit(c, "even")
  {
    var terms := HydrologyTerms(c);
    forall i | 0 <= i < |terms| ensures |terms[i]| > 0 && terms[i][0] !in "even" {
      var f := terms[i][0];
      assert f != 'e' && f != 'v' && f != 'n';
    }
    NoHitByFirstChars(terms, "even");
  }

  // ---------------------------------------------------------------- substrate hint

  const HotPressTerms: seq<string> := ["smooth", "fine detail", "illustration"]
  const RoughTerms: seq<string> := ["rough", "texture", "expressive"]
  const MasaTerms: seq<string> := ["japanese", "sumi", "ink wash"]
  const YupoTerms: seq<string> := ["experimental", "synthetic", "yupo"]

  /** The suggested substrate: the first group with a hit in the priority order
      hot press, rough, masa, yupo; cold press when none hits. */
  function SubstrateHint(text: string): (s: SubstrateType)
    ensures AnyHit(HotPressTerms, text) ==> s == HotPress
    ensures s == Rough <==> !AnyHit(HotPressTerms, text) && AnyHit(RoughTerms, text)
    ensures s == Masa <==> !AnyHit(HotPressTerms, text) && !AnyHit(RoughTerms, text) && AnyHit(MasaTerms, text)
    ensures s == Yupo <==> !AnyHit(HotPressTerms, text) && !AnyHit(RoughTerms, text) && !AnyHit(MasaTerms, text)
                           && AnyHit(YupoTerms, text)
    ensures s == ColdPress <==> !AnyHit(HotPressTerms, text) && !AnyHit(RoughTerms, text) && !AnyHit(MasaTerms, text)
                                && !AnyHit(YupoTerms, text)
  {
    if AnyHit(HotPressTerms, text) then HotPress
    else if AnyHit(RoughTerms, text) then Rough
    else if AnyHit(MasaTerms, text) then Masa
    else if AnyHit(YupoTerms, text) then Yupo
    else ColdPress
  }

  // ---------------------------------------------------------------- classification

  datatype Classification = Classification(
    primary: VisualType,
    confidence: real,
    counts: seq<real>,
    matched: seq<seq<string>>,
    suggestedHydrology: string,
    hydrology: HydrologyState,
    substrate: SubstrateType)

  /** Classify a free-text intent after ASCII lowercasing. The reported
      `suggestedHydrology` is the string the loop produces as written; `hydrology`
      is the corrected state, which the rest of the model works with. */
  function Classify(userIntent: string): (c: Classification)
    ensures var text := Lower(userIntent);
            && c.counts == TypeCounts(text)
            && (c.primary, c.confidence) == PrimaryStyle(c.counts)
            && |c.matched| == |VisualTypes|
            && (forall i :: 0 <= i < |c.matched| ==> c.matched[i] == Matches(IntentTerms[i], text))
            && (forall i :: 0 <= i < |c.matched| ==>
                  forall t :: t in c.matched[i] <==> t in IntentTerms[i] && Contains(text, t))
            && c.suggestedHydrology == HydrologyHintAsWritten(text)
            && c.hydrology == HydrologyHint(text)
            && c.substrate == SubstrateHint(text)
  {
    var text := Lower(userIntent);
    var counts := TypeCounts(text);
    var (primary, confidence) := PrimaryStyle(counts);
    Classification(primary, confidence, counts,
                   seq(|VisualTypes|, i requires 0 <= i < |VisualTypes| => Matches(IntentTerms[i], text)),
                   HydrologyHintAsWritten(text), HydrologyHint(text), SubstrateHint(text))
  }

  /** The two hydrology answers of a classification: the reported string names
      the corrected state, except when the controlled category decides, where it
      is "controlled" and names no hydrology state. */
  lemma ClassifyHydrologyHints(userIntent: string)
    ensures var c := Classify(userIntent);
            var decider := LastHitCategory(HydrologyCategories, Lower(userIntent));
            && (decider == Some(ControlledCategory) ==>
                  c.suggestedHydrology == "controlled" && c.suggestedHydrology !in HydrologyStateIds
                  && c.hydrology == ControlledWash)
            && (decider != Some(ControlledCategory) ==> c.suggestedHydrology == HydrologyStateId(c.hydrology))
  {
    var text := Lower(userIntent);
    HintScanAgreement(HydrologyCategories, text, ControlledWash);
    HydrologyHintAsWrittenValidity(text);
  }

  /** An empty intent hits nothing: the defaults apply throughout. */
  lemma ClassifyEmpty()
    ensures var c := Classify("");
            && c.primary == ContestedBoundary && c.confidence == 0.3
            && (forall i :: 0 <= i < |c.counts| ==> c.counts[i] == 0.0)
            && c.suggestedHydrology == "controlled_wash"
            && c.hydrology == ControlledWash && c.substrate == ColdPress
  {
    assert Lower("") == "";
    EmptyCounts();
    EmptyHints();
    EmptyAsWrittenHint();
  }

  /** With no hit the as-written loop keeps its initial `controlled_wash`. */
  lemma EmptyAsWrittenHint()
    ensures HydrologyHintAsWritten("") == "controlled_wash"
  {
    EmptyHints();
    HydrologyHintAsWrittenValidity("");
  }

  lemma EmptyCounts()
    ensures forall i :: 0 <= i < |VisualTypes| ==> TypeCounts("")[i] == 0.0
    ensures MaxOf(TypeCounts("")) == 0.0
  {
    forall i | 0 <= i < |VisualTypes| ensures Matches(IntentTerms[i], "") == [] {
      NoMatchesInEmpty(IntentTerms[i]);
    }
  }

  lemma EmptyHints()
    ensures LastHitCategory(HydrologyCategories, "").None?
    ensures HydrologyHint("") == ControlledWash
    ensures SubstrateHint("") == ColdPress
  {
    forall c | c in HydrologyCategories ensures !Hit(c, "") {
      NoHitInEmpty(HydrologyTerms(c));
    }
    NoHitInEmpty(HotPressTerms);
    NoHitInEmpty(RoughTerms);
    NoHitInEmpty(MasaTerms);
    NoHitInEmpty(YupoTerms);
  }

  lemma {:induction false} NoHitInEmpty(terms: seq<string>)
    requires forall t :: t in terms ==> |t| > 0
    ensures !AnyHit(terms, "")
  {
    if |terms| > 0 {
      NoHitInEmpty(terms[1..]);
    }
  }

  lemma {:induction false} NoMatchesInEmpty(terms: seq<string>)
    requires forall t :: t in terms ==> |t| > 0
    ensures Matches(terms, "") == []
  {
    if |terms| > 0 {
      NoMatchesInEmpty(terms[1..]);
    }
  }
}
