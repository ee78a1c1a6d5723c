/** The bitrate suggestion of the adaptive bitrate controller
    (Sources/Core/Processing/AdaptiveBitrateController.swift:85-111): audio
    complexity metrics are normalised into a score, the score picks a
    target between the minimum and maximum bitrate, the target is smoothed
    towards the base bitrate, clamped, snapped to the nearest common
    bitrate step, and capped for quiet or noisy content.

    The metrics come from an FFT analysis of a buffer (`analyze`), which is
    not modelled: they are inputs here. `Float` and `Double` arithmetic is
    modelled on exact reals. */
module AdaptiveBitrate {
  import opened Ints

  datatype ComplexityMetrics = ComplexityMetrics(rms: real, spectralCentroidHz: real, spectralFlatness: real)

  datatype AdaptiveBitrateController = AdaptiveBitrateController(sampleRate: real, analysisCounter: Int64)

  /** `init(sampleRate:)`. */
  function NewController(sampleRate: real): AdaptiveBitrateController {
    AdaptiveBitrateController(sampleRate, 0)
  }

  datatype Suggestion = Suggestion(controller: AdaptiveBitrateController, kbps: UInt32)

  /** The common bitrates a suggestion snaps to, ascending. */
  const STEPS: seq<int> := [64, 96, 128, 160, 192, 224, 256, 320]

  /** The ceiling for quiet or noisy content. */
  const CAP_KBPS: int := 128

  /** The bitrate range `suggestBitrate` uses when the caller gives none. */
  const DEFAULT_MIN_KBPS: UInt32 := 64
  const DEFAULT_MAX_KBPS: UInt32 := 320

  function Clamp01(x: real): (r: real)
    ensures 0.0 <= r <= 1.0
    ensures 0.0 <= x <= 1.0 ==> r == x
  {
    MinReal(MaxReal(x, 0.0), 1.0)
  }

  /** Loud, bright and tonal content scores high: half loudness, three
      tenths brightness, one fifth tonality, each normalised to 0..1. */
  function Score(sampleRate: real, m: ComplexityMetrics): (r: real)
    requires sampleRate != 0.0
    ensures 0.0 <= r <= 1.0
  {
    var rmsNorm := Clamp01(m.rms / 0.2);
    var centroidNorm := Clamp01(m.spectralCentroidHz / (sampleRate / 4.0));
    var tonality := 1.0 - Clamp01(m.spectralFlatness);
    0.5 * rmsNorm + 0.3 * centroidNorm + 0.2 * tonality
  }

  /** Every third analysis leans towards the target, the others towards the
      base bitrate. */
  function Alpha(counter: int): real {
    if counter % 3 == 0 then 0.7 else 0.4
  }

  function Distance(s: int, x: int): nat {
    if s > x then s - x else x - s
  }

  /** The loop over the steps: a step replaces the current choice only when
      strictly nearer. */
  function ScanSteps(steps: seq<int>, x: int, nearest: int, bestDiff: int): int
    decreases |steps|
  {
    if |steps| == 0 then nearest
    else
      var d := Distance(steps[0], x);
      if d < bestDiff then ScanSteps(steps[1..], x, steps[0], d)
      else ScanSteps(steps[1..], x, nearest, bestDiff)
  }

  /** The step nearest to `x`, the lower of two equally near. */
  function NearestStep(x: UInt32): (r: int)
    ensures r in STEPS
  {
    StepBands(x);
    ScanSteps(STEPS, x, STEPS[0], UINT32_LIMIT - 1)
  }

  /** An independent description of the snapping: each step owns the band
      of values up to the midpoint to the next step, midpoint included. */
  function Band(x: int): int {
    if x <= 80 then 64
    else if x <= 112 then 96
    else if x <= 144 then 128
    else if x <= 176 then 160
    else if x <= 208 then 192
    else if x <= 240 then 224
    else if x <= 288 then 256
    else 320
  }

  lemma StepBands(x: UInt32)
    ensures ScanSteps(STEPS, x, STEPS[0], UINT32_LIMIT - 1) == Band(x)
  {
    var s := STEPS;
    assert s[1..] == [96, 128, 160, 192, 224, 256, 320];
    assert s[1..][1..] == [128, 160, 192, 224, 256, 320];
    assert s[1..][1..][1..] == [160, 192, 224, 256, 320];
    assert s[1..][1..][1..][1..] == [192, 224, 256, 320];
    assert s[1..][1..][1..][1..][1..] == [224, 256, 320];
    assert s[1..][1..][1..][1..][1..][1..] == [256, 320];
    assert s[1..][1..][1..][1..][1..][1..][1..] == [320];
    assert s[1..][1..][1..][1..][1..][1..][1..][1..] == [];
  }

  /** The snapped step is nearest to `x` among all steps, and the lower of
      two equally near ones. */
  lemma NearestStepIsNearest(x: UInt32)
    ensures forall i :: 0 <= i < |STEPS| ==> Distance(NearestStep(x), x) <= Distance(STEPS[i], x)
    ensures forall i :: 0 <= i < |STEPS| && Distance(STEPS[i], x) == Distance(NearestStep(x), x) ==>
      NearestStep(x) <= STEPS[i]
  {
    StepBands(x);
    forall i | 0 <= i < |STEPS|
      ensures Distance(Band(x), x) <= Distance(STEPS[i], x)
      ensures Distance(STEPS[i], x) == Distance(Band(x), x) ==> Band(x) <= STEPS[i]
    {
      BandNearest(x, STEPS[i]);
    }
  }

  lemma BandNearest(x: int, s: int)
    requires s in STEPS
    ensures Distance(Band(x), x) <= Distance(s, x)
    ensures Distance(s, x) == Distance(Band(x), x) ==> Band(x) <= s
  {
  }

  /** Snapping never moves a larger value to a smaller step. */
  lemma NearestStepMonotone(x: UInt32, y: UInt32)
    requires x <= y
    ensures NearestStep(x) <= NearestStep(y)
  {
    StepBands(x);
    StepBands(y);
  }

  /** The score's point between the minimum and the maximum bitrate. */
  function Target(minKbps: UInt32, maxKbps: UInt32, score: real): (r: real)
    requires minKbps <= maxKbps && 0.0 <= score <= 1.0
    ensures minKbps as real <= r <= maxKbps as real
  {
    var range := (maxKbps - minKbps) as real;
    ScaleBounds(score, range, range);
    minKbps as real + score * range
  }

  /** The weighted mix of target and base, before rounding: it lies
      between the two. */
  function Smoothed(alpha: real, target: real, baseKbps: UInt32): (r: real)
    requires 0.0 <= alpha <= 1.0 && 0.0 <= target
    ensures 0.0 <= r <= MaxReal(target, baseKbps as real)
    ensures target <= (UINT32_LIMIT - 1) as real ==> RoundHalfUp(r) < UINT32_LIMIT
  {
    ConvexBound(alpha, target, baseKbps as real, MaxReal(target, baseKbps as real));
    MulNonnegReal(alpha, target);
    MulNonnegReal(1.0 - alpha, baseKbps as real);
    alpha * target + (1.0 - alpha) * baseKbps as real
  }

  /** `min(max(minKbps, UInt32(smoothed.rounded())), maxKbps)`. The
      conversion to `UInt32` traps when the rounded value does not fit,
      which the precondition excludes; `UncappedStep` shows that it
      always fits there. */
  function Snapped(minKbps: UInt32, maxKbps: UInt32, smoothed: real): (r: UInt32)
    requires minKbps <= maxKbps && 0.0 <= smoothed
    requires RoundHalfUp(smoothed) < UINT32_LIMIT
    ensures minKbps <= r <= maxKbps
    ensures minKbps <= RoundHalfUp(smoothed) <= maxKbps ==> r == RoundHalfUp(smoothed)
  {
    Min(Max(minKbps, RoundHalfUp(smoothed)), maxKbps)
  }

  /** The step the suggestion starts from before the caps: the target
      smoothed towards the base, rounded, clamped to [min, max] and snapped
      to the nearest common step. The rounded value always fits `UInt32`,
      so the conversion never traps. */
  function UncappedStep(c: AdaptiveBitrateController, baseKbps: UInt32, minKbps: UInt32, maxKbps: UInt32,
                        m: ComplexityMetrics): (r: int)
    requires c.sampleRate != 0.0
    requires minKbps <= maxKbps
    ensures r in STEPS
    ensures var smoothed := Smoothed(Alpha(c.analysisCounter + 1), Target(minKbps, maxKbps, Score(c.sampleRate, m)), baseKbps);
      RoundHalfUp(smoothed) < UINT32_LIMIT
  {
    var target := Target(minKbps, maxKbps, Score(c.sampleRate, m));
    NearestStep(Snapped(minKbps, maxKbps, Smoothed(Alpha(c.analysisCounter + 1), target, baseKbps)))
  }

  /** `suggestBitrate(baseKbps:minKbps:maxKbps:metrics:)`: the uncapped
      step, lowered to at most 128 kbps for quiet or noisy content. Swift
      traps when `maxKbps - minKbps` underflows or the analysis counter
      overflows, and a zero sample rate makes the brightness undefined; the
      preconditions exclude those. */
  function SuggestBitrate(c: AdaptiveBitrateController, baseKbps: UInt32, minKbps: UInt32, maxKbps: UInt32,
                          m: ComplexityMetrics): (r: Suggestion)
    requires c.sampleRate != 0.0
    requires minKbps <= maxKbps
    requires c.analysisCounter < INT64_LIMIT - 1
    ensures r.controller == c.(analysisCounter := c.analysisCounter + 1)
    ensures r.kbps in STEPS
    ensures m.rms < 0.01 || m.spectralFlatness > 0.85 ==>
      r.kbps == Min(UncappedStep(c, baseKbps, minKbps, maxKbps, m), CAP_KBPS)
    ensures !(m.rms < 0.01 || m.spectralFlatness > 0.85) ==> r.kbps == UncappedStep(c, baseKbps, minKbps, maxKbps, m)
    ensures r.kbps <= UncappedStep(c, baseKbps, minKbps, maxKbps, m)
  {
    var nearest := UncappedStep(c, baseKbps, minKbps, maxKbps, m);
    var capped1 := if m.rms < 0.01 then Min(nearest, CAP_KBPS) else nearest;
    var capped2 := if m.spectralFlatness > 0.85 then Min(capped1, CAP_KBPS) else capped1;
    Suggestion(c.(analysisCounter := c.analysisCounter + 1), capped2)
  }

  /** A weighted mean of two values below `hi` is below `hi`. */
  lemma ConvexBound(a: real, x: real, y: real, hi: real)
    requires 0.0 <= a <= 1.0 && x <= hi && y <= hi
    ensures a * x + (1.0 - a) * y <= hi
  {
    var b := 1.0 - a;
    MulLeReal(a, x, hi);
    MulLeReal(b, y, hi);
    var p, q, r1, r2 := a * x, b * y, a * hi, b * hi;
    assert p <= r1;
    assert q <= r2;
    assert r2 == hi - r1;
    assert p + q <= hi;
  }

  /** Scaling by a factor in 0..1 keeps the order and the sign. */
  lemma ScaleBounds(a: real, x: real, y: real)
    requires 0.0 <= a <= 1.0 && 0.0 <= x <= y
    ensures 0.0 <= a * x <= a * y
    ensures a * x <= x
  {
    MulLeReal(a, 0.0, x);
    MulLeReal(a, x, y);
    MulLeReal(x, a, 1.0);
  }

  /** Rounding half up preserves order. */
  lemma RoundMonotone(x: real, y: real)
    requires 0.0 <= x <= y
    ensures RoundHalfUp(x) <= RoundHalfUp(y)
  {
  }

  /** A higher base bitrate never lowers the suggestion, all else equal. */
  lemma SuggestMonotoneInBase(c: AdaptiveBitrateController, b1: UInt32, b2: UInt32, minKbps: UInt32, maxKbps: UInt32,
                              m: ComplexityMetrics)
    requires c.sampleRate != 0.0
    requires minKbps <= maxKbps
    requires c.analysisCounter < INT64_LIMIT - 1
    requires b1 <= b2
    ensures SuggestBitrate(c, b1, minKbps, maxKbps, m).kbps <= SuggestBitrate(c, b2, minKbps, maxKbps, m).kbps
  {
    var alpha := Alpha(c.analysisCounter + 1);
    var target := Target(minKbps, maxKbps, Score(c.sampleRate, m));
    var sm1, sm2 := Smoothed(alpha, target, b1), Smoothed(alpha, target, b2);
    MulLeReal(1.0 - alpha, b1 as real, b2 as real);
    assert sm1 <= sm2;
    RoundMonotone(sm1, sm2);
    NearestStepMonotone(Snapped(minKbps, maxKbps, sm1), Snapped(minKbps, maxKbps, sm2));
  }

  /** A concrete run: silent audio at 48 kHz with base 192 kbps on the
      first analysis, in the default 64..320 kbps range. The score is 0.2 (pure tonality), the target 115.2,
      the smoothed value 161.28, rounded 161, snapped to 160 and capped to
      128 because the audio is quiet. */
  lemma SilentExample()
    ensures SuggestBitrate(NewController(48000.0), 192, DEFAULT_MIN_KBPS, DEFAULT_MAX_KBPS, ComplexityMetrics(0.0, 0.0, 0.0)).kbps == 128
  {
    SilentScore();
    SilentSnapped();
    StepBands(161);
  }

  /** The score of silence: only tonality counts. */
  lemma SilentScore()
    ensures Score(48000.0, ComplexityMetrics(0.0, 0.0, 0.0)) == 0.2
  {
  }

  /** Every analysis but each third one leans towards the base bitrate. */
  lemma AlphaOfOne()
    ensures Alpha(1) == 0.4
  {
    assert 1 % 3 == 1;
  }

  /** The silent example's smoothing: 0.4 of 115.2 and 0.6 of 192 make
      161.28, which rounds to 161 inside the 64..320 range. */
  lemma SilentSnapped()
    ensures Snapped(64, 320, Smoothed(Alpha(1), Target(64, 320, 0.2), 192)) == 161
  {
    AlphaOfOne();
    assert Target(64, 320, 0.2) == 115.2;
    assert Smoothed(0.4, 115.2, 192) == 161.28;
    var rounded := RoundHalfUp(161.28);
    assert 160.78 < rounded as real <= 161.78;
  }
}
