/** Rhythmic oscillation between two dissolution states: a custom sequence
    (sinusoidal, triangle or sawtooth, sampled every quarter cycle) and the
    curated presets (one full sinusoidal cycle, every step kept). */
module Rhythm {
  import opened Reals
  import opened Results
  import opened Space
  import opened Transcendental
  import opened Taxonomy
  import opened Geometry
  import opened Resolution

  // ---------------------------------------------------------------- Python integer division

  /** Python's `a // b`: the quotient rounded towards minus infinity. */
  function FloorDiv(a: int, b: int): int
    requires b != 0
  {
    if b > 0 || a % b == 0 then a / b else a / b - 1
  }

  /** Python's `a % b`: the remainder has the sign of the divisor, and
      `(a // b) * b + a % b == a`. */
  function PyMod(a: int, b: int): (r: int)
    requires b != 0
    ensures b > 0 ==> 0 <= r < b
    ensures b < 0 ==> b < r <= 0
    ensures FloorDiv(a, b) * b + r == a
  {
    var e := a % b;
    if b > 0 || e == 0 then e
    else
      assert (a / b - 1) * b == (a / b) * b - b;
      e + b
  }

  /** The remainder is determined by the two Python laws: any `q, r` with
      `q * b + r == a` and `r` in the divisor's range give `r == a % b`. */
  lemma PyModUnique(a: int, b: int, q: int, r: int)
    requires b != 0
    requires q * b + r == a
    requires b > 0 ==> 0 <= r < b
    requires b < 0 ==> b < r <= 0
    ensures r == PyMod(a, b)
  {
    var q', r' := FloorDiv(a, b), PyMod(a, b);
    assert (q - q') * b == r' - r;
    if q > q' {
      MultipleAtLeast(q - q', b);
    } else if q < q' {
      MultipleAtLeast(q' - q, b);
    }
  }

  /** A non-zero multiple of `b` is at least `|b|` away from zero. */
  lemma {:induction false} MultipleAtLeast(k: int, b: int)
    requires k >= 1
    ensures b > 0 ==> k * b >= b
    ensures b < 0 ==> k * b <= b
    decreases k
  {
    if k > 1 {
      MultipleAtLeast(k - 1, b);
      assert k * b == (k - 1) * b + b;
    }
  }

  /** Shifting by one whole divisor leaves the remainder unchanged. */
  lemma PyModPeriodic(a: int, b: int)
    requires b != 0
    ensures PyMod(a + b, b) == PyMod(a, b)
  {
    var q, r := FloorDiv(a, b), PyMod(a, b);
    assert (q + 1) * b + r == a + b;
    PyModUnique(a + b, b, q + 1, r);
  }

  // ---------------------------------------------------------------- oscillation

  datatype Pattern = Sinusoidal | Triangle | Sawtooth

  /** The pattern name; any name other than "triangle" and "sawtooth" oscillates sinusoidally. */
  function ParsePattern(name: string): (p: Pattern)
    ensures p == Triangle <==> name == "triangle"
    ensures p == Sawtooth <==> name == "sawtooth"
    ensures p == Sinusoidal <==> name != "triangle" && name != "sawtooth"
  {
    if name == "triangle" then Triangle
    else if name == "sawtooth" then Sawtooth
    else Sinusoidal
  }

  /** How far `step` is into its cycle: `(step % spc) / spc`, always in [0, 1). */
  function CyclePosition(step: int, spc: int): (c: real)
    requires spc != 0
    ensures 0.0 <= c < 1.0
    ensures c * (spc as real) == PyMod(step, spc) as real
  {
    var r := PyMod(step, spc);
    var c := r as real / spc as real;
    assert (1.0 - c) * (spc as real) == (spc - r) as real;
    c
  }

  /** Within the first cycle of a positive cycle length, the position is the plain ratio. */
  lemma CyclePositionInFirstCycle(step: int, spc: int)
    requires 0 <= step < spc
    ensures CyclePosition(step, spc) == step as real / spc as real
  {
    PyModUnique(step, spc, 0, step);
  }

  /** The position repeats every `spc` steps. */
  lemma CyclePositionPeriodic(step: int, spc: int)
    requires spc != 0
    ensures CyclePosition(step + spc, spc) == CyclePosition(step, spc)
  {
    PyModPeriodic(step, spc);
  }

  /** `0.5 * (1 + sin(2*pi*x))`, in [0, 1]. */
  function SineWave(x: real, m: Math): (t: real)
    requires Valid(m)
    ensures 0.0 <= t <= 1.0
  {
    0.5 * (1.0 + m.sinTurns(x))
  }

  /** Up over the first half of the cycle and down over the second. */
  function TriangleWave(c: real): (t: real)
    requires 0.0 <= c < 1.0
    ensures 0.0 <= t <= 1.0
    ensures t == 0.0 <==> c == 0.0
    ensures t == 1.0 <==> c == 0.5
  {
    if c < 0.5 then 2.0 * c else 2.0 * (1.0 - c)
  }

  /** The triangle is symmetric about the middle of the cycle. */
  lemma TriangleSymmetric(c: real)
    requires 0.0 < c < 1.0
    ensures TriangleWave(c) == TriangleWave(1.0 - c)
  {
  }

  /** The interpolation parameter at `step`. */
  function Oscillation(pattern: Pattern, step: int, spc: int, phaseOffset: real, m: Math): (t: real)
    requires Valid(m) && spc != 0
    ensures 0.0 <= t <= 1.0
  {
    match pattern
    case Sinusoidal => SineWave(step as real / spc as real + phaseOffset, m)
    case Triangle => TriangleWave(CyclePosition(step, spc))
    case Sawtooth => CyclePosition(step, spc)
  }

  /** Triangle and sawtooth repeat every cycle, whatever the sign of the cycle length. */
  lemma OscillationPeriodic(pattern: Pattern, step: int, spc: int, phaseOffset: real, m: Math)
    requires Valid(m) && spc != 0 && pattern != Sinusoidal
    ensures Oscillation(pattern, step + spc, spc, phaseOffset, m) == Oscillation(pattern, step, spc, phaseOffset, m)
  {
    CyclePositionPeriodic(step, spc);
  }

  /** The sawtooth ramps linearly from 0 over the first cycle. */
  lemma SawtoothRamp(step: int, spc: int, phaseOffset: real, m: Math)
    requires Valid(m) && 0 <= step < spc
    ensures Oscillation(Sawtooth, step, spc, phaseOffset, m) == step as real / spc as real
  {
    CyclePositionInFirstCycle(step, spc);
  }

  /** The triangle starts at 0 and peaks at 1 at the middle of an even-length cycle. */
  lemma TrianglePeak(spc: int, phaseOffset: real, m: Math)
    requires Valid(m) && spc > 0 && spc % 2 == 0
    ensures Oscillation(Triangle, 0, spc, phaseOffset, m) == 0.0
    ensures Oscillation(Triangle, spc / 2, spc, phaseOffset, m) == 1.0
  {
    CyclePositionInFirstCycle(0, spc);
    CyclePositionInFirstCycle(spc / 2, spc);
    assert (spc / 2) as real * 2.0 == spc as real;
  }

  // ---------------------------------------------------------------- beats

  datatype Beat = Beat(step: int, t: real, state: Point, nearest: VisualType)

  /** The state at parameter `t` between `a` and `b`, and its nearest visual type. */
  function BeatAt(step: int, t: real, a: Point, b: Point): (s: Beat)
    ensures s.step == step && s.t == t && s.state == Lerp(a, b, t)
    ensures s.nearest == NearestType(s.state)
    ensures 0.0 <= t <= 1.0 ==>
              forall k :: Min(a.Coord(k), b.Coord(k)) <= s.state.Coord(k) <= Max(a.Coord(k), b.Coord(k))
  {
    var state := Lerp(a, b, t);
    Beat(step, t, state, NearestType(state))
  }

  /** Only every `max(1, spc // 4)`-th step is recorded. */
  function Decimation(spc: int): (d: int)
    ensures d >= 1
    ensures spc >= 8 ==> 4 * d <= spc < 4 * d + 4
    ensures spc < 8 ==> d == 1
  {
    if spc / 4 >= 1 then spc / 4 else 1
  }

  predicate Kept(step: int, spc: int)
  {
    step % Decimation(spc) == 0
  }

  /** The steps of a beat list. */
  function Steps(bs: seq<Beat>): (ss: seq<int>)
    ensures |ss| == |bs|
    ensures forall i :: 0 <= i < |bs| ==> ss[i] == bs[i].step
  {
    seq(|bs|, i requires 0 <= i < |bs| => bs[i].step)
  }

  /** The beat recorded at `step`. */
  function BeatOf(pattern: Pattern, step: int, spc: int, phaseOffset: real, a: Point, b: Point, m: Math): (s: Beat)
    requires Valid(m) && spc != 0
    ensures s == BeatAt(step, Oscillation(pattern, step, spc, phaseOffset, m), a, b)
    ensures 0.0 <= s.t <= 1.0
  {
    BeatAt(step, Oscillation(pattern, step, spc, phaseOffset, m), a, b)
  }

  /** The recorded steps among `from .. total-1`: exactly the kept ones, in increasing order. */
  function KeptSteps(spc: int, total: int, from: int): (ss: seq<int>)
    ensures forall s :: s in ss <==> from <= s < total && Kept(s, spc)
    ensures forall i, j :: 0 <= i < j < |ss| ==> ss[i] < ss[j]
    decreases total - from
  {
    if from >= total then []
    else
      var rest := KeptSteps(spc, total, from + 1);
      if Kept(from, spc) then
        assert forall i :: 0 <= i < |rest| ==> from < rest[i] by {
          forall i | 0 <= i < |rest| ensures from < rest[i] {
            assert rest[i] in rest;
          }
        }
        [from] + rest
      else rest
  }

  /** The beats of the recorded steps. */
  function Beats(a: Point, b: Point, pattern: Pattern, spc: int, phaseOffset: real, total: int, m: Math)
    : (bs: seq<Beat>)
    requires Valid(m) && spc != 0
    ensures Steps(bs) == KeptSteps(spc, total, 0)
    ensures forall i :: 0 <= i < |bs| ==> bs[i] == BeatOf(pattern, bs[i].step, spc, phaseOffset, a, b, m)
  {
    var ks := KeptSteps(spc, total, 0);
    var bs := seq(|ks|, i requires 0 <= i < |ks| => BeatOf(pattern, ks[i], spc, phaseOffset, a, b, m));
    assert Steps(bs) == ks;
    bs
  }

  // ---------------------------------------------------------------- custom sequence

  datatype RhythmicRun = RhythmicRun(totalSteps: int, samples: seq<Beat>)

  /** The custom rhythmic sequence between two ids (resolved canonical state
      first, then visual type, then attractor preset; the first id is checked
      first). A non-positive step total gives no samples, even for a zero cycle length. */
  function RhythmicSequence(aId: string, bId: string, spc: int, cycles: int, patternName: string,
                            phaseOffset: real, m: Math): (r: Result<RhythmicRun>)
    requires Valid(m)
    ensures Resolve(aId).None? ==> r == Err(UnknownId(aId))
    ensures Resolve(aId).Some? && Resolve(bId).None? ==> r == Err(UnknownId(bId))
    ensures r.Ok? <==> Resolve(aId).Some? && Resolve(bId).Some?
    ensures r.Ok? ==> r.value.totalSteps == spc * cycles
    ensures r.Ok? && spc * cycles <= 0 ==> r.value.samples == []
    ensures r.Ok? && spc * cycles > 0 ==>
              && spc != 0
              && |r.value.samples| > 0 && r.value.samples[0].step == 0
              && r.value.samples == Beats(Resolve(aId).value, Resolve(bId).value, ParsePattern(patternName),
                                          spc, phaseOffset, spc * cycles, m)
    ensures r.Ok? ==> forall i :: 0 <= i < |r.value.samples| ==> 0.0 <= r.value.samples[i].t <= 1.0
  {
    match (ResolveOrFail(aId), ResolveOrFail(bId))
    case (Err(e), _) => Err(e)
    case (_, Err(e)) => Err(e)
    case (Ok(a), Ok(b)) =>
      var total := spc * cycles;
      if total <= 0 then Ok(RhythmicRun(total, []))
      else
        assert spc != 0;
        var bs := Beats(a, b, ParsePattern(patternName), spc, phaseOffset, total, m);
        FirstKeptStepIsZero(spc, total);
        Ok(RhythmicRun(total, bs))
  }

  /** Step 0 is always recorded first. */
  lemma FirstKeptStepIsZero(spc: int, total: int)
    requires total > 0
    ensures var ks := KeptSteps(spc, total, 0); |ks| > 0 && ks[0] == 0
  {
    var ks := KeptSteps(spc, total, 0);
    assert 0 in ks;
    var j :| 0 <= j < |ks| && ks[j] == 0;
    if j > 0 {
      assert ks[0] in ks;
    }
  }

  // ---------------------------------------------------------------- presets

  /** A preset endpoint: a visual type's center, else a canonical state's
      coordinates (any other id would be a missing-key error). */
  function PresetEndpoint(id: string): (p: Point)
    requires id in VisualTypeIds || id in CanonicalIds()
    ensures Some(p) == Resolve(id)
  {
    match ParseVisualType(id)
    case Some(v) =>
      ResolveVisualType(v);
      Center(v)
    case None => FindCanonical(id).value
  }

  /** Every endpoint named by a preset is a visual type. */
  lemma PresetEndpointsAreVisualTypes(p: RhythmicPreset)
    requires p in RhythmicPresets
    ensures p.stateA in VisualTypeIds && p.stateB in VisualTypeIds
    ensures p.period > 0
  {
  }

  datatype PresetRun = PresetRun(preset: RhythmicPreset, a: Point, b: Point, samples: seq<Beat>)

  /** One sinusoidal cycle of `period` beats, every step kept. */
  function Cycle(a: Point, b: Point, period: int, m: Math): (bs: seq<Beat>)
    requires Valid(m) && period > 0
    ensures |bs| == period
    ensures forall i :: 0 <= i < period ==>
              bs[i] == BeatAt(i, Oscillation(Sinusoidal, i, period, 0.0, m), a, b)
    ensures forall i :: 0 <= i < |bs| ==>
              bs[i].step == i && 0.0 <= bs[i].t <= 1.0 && bs[i].state == Lerp(a, b, bs[i].t)
  {
    seq(period, i requires 0 <= i < period => BeatAt(i, SineWave(i as real / period as real, m), a, b))
  }

  /** Apply a curated preset by name; an unknown name is an error listing the valid names. */
  function ApplyPreset(name: string, m: Math): (r: Result<PresetRun>)
    requires Valid(m)
    ensures r.Err? <==> name !in RhythmicPresetIds
    ensures r.Err? ==> r.error == UnknownPreset(name, RhythmicPresetIds)
    ensures r.Ok? ==>
              var run := r.value;
              && run.preset in RhythmicPresets && run.preset.id == name
              && Some(run.a) == Resolve(run.preset.stateA) && Some(run.b) == Resolve(run.preset.stateB)
              && |run.samples| == run.preset.period
              && run.samples == Cycle(run.a, run.b, run.preset.period, m)
              && forall i :: 0 <= i < |run.samples| ==>
                   && run.samples[i].step == i
                   && 0.0 <= run.samples[i].t <= 1.0
                   && run.samples[i].state == Lerp(run.a, run.b, run.samples[i].t)
  {
    match FindRhythmicPreset(name)
    case None => Err(UnknownPreset(name, RhythmicPresetIds))
    case Some(p) =>
      PresetEndpointsAreVisualTypes(p);
      var a, b := PresetEndpoint(p.stateA), PresetEndpoint(p.stateB);
      Ok(PresetRun(p, a, b, Cycle(a, b, p.period, m)))
  }

  /** A preset is the custom sinusoidal sequence of one cycle between its two
      endpoints with every step recorded: the custom sequence keeps exactly the
      preset's beats at the kept steps. */
  lemma PresetIsOneSinusoidalCycle(name: string, m: Math)
    requires Valid(m) && name in RhythmicPresetIds
    ensures var r := ApplyPreset(name, m);
            && r.Ok?
            && var p := r.value.preset;
            var s := RhythmicSequence(p.stateA, p.stateB, p.period, 1, "sinusoidal", 0.0, m);
            && s.Ok?
            && s.value.totalSteps == p.period
            && forall i :: 0 <= i < |s.value.samples| ==>
                 && 0 <= s.value.samples[i].step < p.period
                 && s.value.samples[i] == r.value.samples[s.value.samples[i].step]
  {
    var run := ApplyPreset(name, m).value;
    var p := run.preset;
    PresetEndpointsAreVisualTypes(p);
    var s := RhythmicSequence(p.stateA, p.stateB, p.period, 1, "sinusoidal", 0.0, m).value;
    var bs := s.samples;
    forall i | 0 <= i < |bs|
      ensures 0 <= bs[i].step < p.period && bs[i] == run.samples[bs[i].step]
    {
      assert bs[i].step in Steps(bs);
    }
  }
}
