/**
 * The audio environment view model: it turns each audio sample into a
 * loudness between 0 and 100 and names one of seven loudness bands. The
 * level is pre-boosted and smoothed, fused with the peak, cleared of a
 * noise floor, amplified, bent by a gamma curve, boosted at the low end
 * and compressed above a knee.
 */
module AudioConditioner {
  import Protocol
  import opened Smoothing

  /** The smoothing factor of the level and of the rms. */
  const Alpha: real := 0.22

  const InputGain: real := 3.2
  const Gamma: real := 0.90
  const NoiseFloor: real := 0.008
  /** The floor under the denominator of the noise removal. */
  const MinDenominator: real := 0.000000001

  const PeakWeight: real := 0.62
  const LevelWeight: real := 0.38

  const LowBoostStrength: real := 1.05

  const TopKneeStart: real := 0.86
  const TopKneeRatio: real := 0.65

  const PreBoostExponent: real := 0.78

  /** The highest loudness the curve can reach: the knee maps 1 to 0.86 + 0.14 * 0.65. */
  const Ceiling: real := 0.951

  /**
   * The power function is a parameter of the model; all it relies on is
   * that a base in [0,1] raised to a positive exponent stays in [0,1].
   */
  ghost predicate PowOnUnit(pow: (real, real) -> real) {
    forall b, e :: 0.0 <= b <= 1.0 && 0.0 < e ==> 0.0 <= pow(b, e) <= 1.0
  }

  // ---------------------------------------------------------------------------
  // The stages of the curve

  /**
   * The pre-boosted level: the sample's level clamped to [0,100], raised
   * to the power 0.78 as a fraction of 100 and capped at 100.
   */
  function PreBoost(level: int, pow: (real, real) -> real): (r: real)
    requires PowOnUnit(pow)
    ensures 0.0 <= r <= 100.0
  {
    var rawLevel := Min(Max(level as real, 0.0), 100.0);
    Min(100.0, pow(rawLevel / 100.0, PreBoostExponent) * 100.0)
  }

  /** The peak as a fraction of the largest peak, clamped to [0,1]; exact for a peak in range. */
  function PeakNorm(peak: int): (r: real)
    ensures 0.0 <= r <= 1.0
    ensures 0 <= peak <= Protocol.PeakMax ==> r * 32767.0 == peak as real
  {
    Protocol.ClampUnit(peak as real / 32767.0)
  }

  /**
   * The weighted sum of the peak and level fractions, capped at 1. Since
   * the weights add up to 1, the cap never binds for fractions in [0,1],
   * and the result lies between the smaller and the larger fraction.
   */
  function Fuse(peakNorm: real, levelNorm: real): (r: real)
    ensures r <= 1.0
    ensures 0.0 <= peakNorm <= 1.0 && 0.0 <= levelNorm <= 1.0 ==>
      r == peakNorm * PeakWeight + levelNorm * LevelWeight && Min(peakNorm, levelNorm) <= r <= Max(peakNorm, levelNorm)
  {
    Min(1.0, peakNorm * PeakWeight + levelNorm * LevelWeight)
  }

  /**
   * The fused value with the noise floor removed and rescaled so that 1
   * stays 1: never negative, 0 up to the floor, at most 1 for an input of
   * at most 1.
   */
  function Denoise(c: real): (r: real)
    ensures 0.0 <= r
    ensures c <= NoiseFloor ==> r == 0.0
    ensures c <= 1.0 ==> r <= 1.0
    ensures c == 1.0 ==> r == 1.0
  {
    var denominator := Max(MinDenominator, 1.0 - NoiseFloor);
    Max(0.0, (c - NoiseFloor) / denominator)
  }

  /**
   * The gain: the value times 3.2, capped at 1. A non-negative value is
   * never lowered below itself, and from 0.3125 on the result is 1.
   */
  function Gain(d: real): (r: real)
    ensures r <= 1.0
    ensures 0.0 <= d ==> 0.0 <= r && Min(d, 1.0) <= r
    ensures d >= 1.0 / InputGain ==> r == 1.0
  {
    Min(1.0, d * InputGain)
  }

  /** The gamma curve, `x` to the power 0.90, which keeps [0,1]. */
  function GammaCurve(x: real, pow: (real, real) -> real): (r: real)
    requires PowOnUnit(pow)
    ensures 0.0 <= x <= 1.0 ==> 0.0 <= r <= 1.0
  {
    pow(x, Gamma)
  }

  /**
   * The low boost `x + 1.05 (x - x^2)`: it keeps 0 and 1 where they are and
   * lifts every value strictly between them.
   */
  function LowBoost(x: real): (r: real)
    ensures 0.0 <= x <= 1.0 ==> x <= r
    ensures 0.0 < x < 1.0 ==> x < r
  {
    var bump := x - x * x;
    assert 0.0 <= x <= 1.0 ==> 0.0 <= bump by {
      if 0.0 <= x <= 1.0 { ProductNonNegative(x, 1.0 - x); assert x * (1.0 - x) == bump; }
    }
    assert 0.0 < x < 1.0 ==> 0.0 < bump by {
      if 0.0 < x < 1.0 { ProductPositive(x, 1.0 - x); assert x * (1.0 - x) == bump; }
    }
    x + LowBoostStrength * bump
  }

  lemma LowBoostKeepsEnds()
    ensures LowBoost(0.0) == 0.0 && LowBoost(1.0) == 1.0
  {
  }

  /** Near the top the boost overshoots 1, so the clamp after it is needed. */
  lemma LowBoostOvershoots()
    ensures LowBoost(0.976) > 1.0
  {
  }

  /**
   * The soft knee: values up to 0.86 pass unchanged; above it the excess is
   * scaled by 0.65, so the result is strictly lower but still above the
   * knee, and 1 maps to the ceiling 0.951.
   */
  function SoftKnee(x: real): (r: real)
    ensures x <= TopKneeStart ==> r == x
    ensures x > TopKneeStart ==> TopKneeStart < r < x
    ensures x <= 1.0 ==> r <= Ceiling
  {
    if x > TopKneeStart then TopKneeStart + (x - TopKneeStart) * TopKneeRatio else x
  }

  /** The knee keeps the order of values strictly. */
  lemma SoftKneeStrictlyMonotone(a: real, b: real)
    requires a < b
    ensures SoftKnee(a) < SoftKnee(b)
  {
  }

  /** The shown loudness: a percentage, clamped to [0,100]; exact for a value in [0,1]. */
  function DisplayLevel(x: real): (r: real)
    ensures 0.0 <= r <= 100.0
    ensures 0.0 <= x <= 1.0 ==> r == x * 100.0
  {
    Min(100.0, Max(0.0, x * 100.0))
  }

  /**
   * The curve from a peak and a smoothed level to the value that is shown
   * as a percentage: it lies in [0, 0.951], so the loudness shown never
   * exceeds 95.1.
   */
  function Curve(peak: int, smoothLevel: real, pow: (real, real) -> real): (x: real)
    requires PowOnUnit(pow)
    ensures 0.0 <= x <= Ceiling
  {
    var combined := Fuse(PeakNorm(peak), Protocol.ClampUnit(smoothLevel / 100.0));
    var x := Gain(Denoise(combined));
    var x := GammaCurve(x, pow);
    var x := Protocol.ClampUnit(LowBoost(x));
    SoftKnee(x)
  }

  /** A loudness of exactly 100 cannot be shown. */
  lemma LoudnessBelowFull(peak: int, smoothLevel: real, pow: (real, real) -> real)
    requires PowOnUnit(pow)
    ensures DisplayLevel(Curve(peak, smoothLevel, pow)) <= 95.1
  {
  }

  /**
   * Silence: when the peak and the smoothed level are both 0, and the
   * power function sends 0 to 0, the shown loudness is 0.
   */
  lemma SilenceShowsZero(smoothLevel: real, pow: (real, real) -> real)
    requires PowOnUnit(pow) && smoothLevel <= 0.0 && pow(0.0, Gamma) == 0.0
    ensures DisplayLevel(Curve(0, smoothLevel, pow)) == 0.0
  {
    assert Protocol.ClampUnit(smoothLevel / 100.0) == 0.0;
    assert Fuse(PeakNorm(0), 0.0) == 0.0;
    assert Gain(Denoise(0.0)) == 0.0;
    assert LowBoost(0.0) == 0.0;
  }

  // ---------------------------------------------------------------------------
  // Loudness bands

  datatype Loudness = Silent | NearSilent | Low | ModerateMinus | Moderate | ModeratePlus | High | VeryHigh

  function LoudnessText(l: Loudness): string {
    match l
    case Silent => "Silent"
    case NearSilent => "Near silent"
    case Low => "Low"
    case ModerateMinus => "Moderate-"
    case Moderate => "Moderate"
    case ModeratePlus => "Moderate+"
    case High => "High"
    case VeryHigh => "Very high"
  }

  /** The position of a band among the seven `classify` names, from 0 to 6. */
  function Rank(l: Loudness): nat {
    match l
    case Silent => 0
    case NearSilent => 0
    case Low => 1
    case ModerateMinus => 2
    case Moderate => 3
    case ModeratePlus => 4
    case High => 5
    case VeryHigh => 6
  }

  /** The lower edge of band `i`, for `i` from 1 to 6. */
  function Boundary(i: nat): real
    requires 1 <= i <= 6
  {
    [12.0, 24.0, 38.0, 54.0, 70.0, 86.0][i - 1]
  }

  /**
   * `classify(level:)`: seven contiguous bands with lower edges at 12, 24,
   * 38, 54, 70 and 86. The band's rank is the number of edges at or below
   * the level.
   */
  function Classify(level: real): (l: Loudness)
    ensures l != Silent
    ensures forall i :: 1 <= i <= 6 ==> (Boundary(i) <= level <==> i <= Rank(l))
  {
    if level < 12.0 then NearSilent
    else if level < 24.0 then Low
    else if level < 38.0 then ModerateMinus
    else if level < 54.0 then Moderate
    else if level < 70.0 then ModeratePlus
    else if level < 86.0 then High
    else VeryHigh
  }

  /** A louder level never names a quieter band. */
  lemma ClassifyMonotone(a: real, b: real)
    requires a <= b
    ensures Rank(Classify(a)) <= Rank(Classify(b))
  {
  }

  // ---------------------------------------------------------------------------
  // The view model

  class EnvironmentAudioViewModel {
    var level: int
    var rms: real
    var peak: int
    var smoothLevel: real
    var smoothRms: real
    var displayLevel: real
    var status: Loudness

    /**
     * The smoothed level stays in [0,100], the shown loudness in [0, 95.1],
     * and once a sample has arrived the band is that of the shown loudness.
     */
    predicate Valid()
      reads this`smoothLevel, this`displayLevel, this`status
    {
      && 0.0 <= smoothLevel <= 100.0
      && 0.0 <= displayLevel <= 95.1
      && (status != Silent ==> status == Classify(displayLevel))
    }

    constructor ()
      ensures level == 0 && rms == 0.0 && peak == 0
      ensures smoothLevel == 0.0 && smoothRms == 0.0 && displayLevel == 0.0 && status == Silent
      ensures Valid()
    {
      level, rms, peak := 0, 0.0, 0;
      smoothLevel, smoothRms, displayLevel, status := 0.0, 0.0, 0.0, Silent;
    }

    /**
     * The `audioSample` sink: copies the raw sample, smooths the pre-boosted
     * level and the rms, runs the curve on the peak and the new smoothed
     * level, and names the band of the result.
     */
    method OnSample(s: Protocol.AudioSample, pow: (real, real) -> real)
      requires PowOnUnit(pow) && Valid()
      modifies this
      ensures level == s.level && rms == s.rms && peak == s.peak
      ensures smoothLevel == Ema(old(smoothLevel), PreBoost(s.level, pow), Alpha)
      ensures smoothRms == Ema(old(smoothRms), s.rms, Alpha)
      ensures displayLevel == DisplayLevel(Curve(s.peak, smoothLevel, pow))
      ensures status == Classify(displayLevel)
      ensures Valid()
    {
      level, rms, peak := s.level, s.rms, s.peak;

      var preboostLevel := PreBoost(s.level, pow);
      smoothLevel := smoothLevel + (preboostLevel - smoothLevel) * Alpha;
      smoothRms := smoothRms + (s.rms - smoothRms) * Alpha;

      var peakNorm := PeakNorm(s.peak);
      var levelNorm := Protocol.ClampUnit(smoothLevel / 100.0);
      var combined := Fuse(peakNorm, levelNorm);

      var x := Gain(Denoise(combined));
      x := GammaCurve(x, pow);
      x := Protocol.ClampUnit(LowBoost(x));
      if x > TopKneeStart {
        var over := x - TopKneeStart;
        x := TopKneeStart + over * TopKneeRatio;
      }

      displayLevel := DisplayLevel(x);
      status := Classify(displayLevel);
    }
  }
}
