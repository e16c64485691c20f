/**
 * The gyroscope view model: it smooths the three axes, measures the tilt
 * of the smoothed x and y axes, calls the board level when the tilt is
 * small and shows how level it is as a progress from 0 to 1.
 */
module GyroConditioner {
  import opened Protocol
  import opened Smoothing

  /** The smoothing factor of each axis. */
  const Alpha: real := 0.18

  /** The largest tilt that still counts as level. */
  const LevelThreshold: real := 0.10

  /** The tilt at which the progress reaches 0. */
  const MaxVisualTilt: real := 1.80

  /**
   * The square root is a parameter of the model; all it relies on is that
   * the root of a non-negative number is non-negative.
   */
  ghost predicate NonNegativeRoot(sqrt: real -> real) {
    forall v :: 0.0 <= v ==> 0.0 <= sqrt(v)
  }

  /** A root that squares back to its argument. */
  predicate IsRootOf(sqrt: real -> real, v: real) {
    0.0 <= sqrt(v) && sqrt(v) * sqrt(v) == v
  }

  /** The tilt of the smoothed x and y axes. */
  function Tilt(sqrt: real -> real, dx: real, dy: real): real {
    sqrt(dx * dx + dy * dy)
  }

  /** `isLevel`: the tilt is at most the threshold. */
  predicate IsLevel(magnitude: real) {
    magnitude <= LevelThreshold
  }

  /**
   * `levelProgress`: one minus the tilt as a fraction of the largest shown
   * tilt, clamped. It is 1 for no tilt, 0 from the largest shown tilt on,
   * and always in [0,1].
   */
  function Progress(magnitude: real): (p: real)
    ensures 0.0 <= p <= 1.0
    ensures magnitude <= 0.0 ==> p == 1.0
    ensures magnitude >= MaxVisualTilt ==> p == 0.0
  {
    1.0 - ClampUnit(magnitude / MaxVisualTilt)
  }

  /** More tilt never shows more progress. */
  lemma ProgressAntitone(a: real, b: real)
    requires a <= b
    ensures Progress(b) <= Progress(a)
  {
  }

  /**
   * For a tilt that is not negative, the level flag and the progress agree:
   * level exactly when the progress is at least 1 - 0.10/1.80 = 17/18.
   */
  lemma LevelIffProgress(magnitude: real)
    requires 0.0 <= magnitude
    ensures IsLevel(magnitude) <==> Progress(magnitude) >= 17.0 / 18.0
  {
  }

  /** With a true square root, level means the smoothed x and y lie within the circle of radius 0.10. */
  lemma LevelIffWithinRadius(sqrt: real -> real, dx: real, dy: real)
    requires IsRootOf(sqrt, dx * dx + dy * dy)
    ensures IsLevel(Tilt(sqrt, dx, dy)) <==> dx * dx + dy * dy <= LevelThreshold * LevelThreshold
  {
    var m := Tilt(sqrt, dx, dy);
    SquareMonotone(m, LevelThreshold);
  }

  /** For non-negative numbers, squaring keeps and reflects the order. */
  lemma SquareMonotone(m: real, t: real)
    requires 0.0 <= m && 0.0 <= t
    ensures m <= t <==> m * m <= t * t
  {
    if m <= t {
      ProductNonNegative(t - m, t + m);
      assert t * t - m * m == (t - m) * (t + m);
    } else {
      ProductPositive(m - t, m + t);
      assert m * m - t * t == (m - t) * (m + t);
    }
  }

  class GiroscopeViewModel {
    var displayX: real
    var displayY: real
    var displayZ: real
    var isLevel: bool
    var levelProgress: real

    /** The progress lies in [0,1] and the level flag agrees with it. */
    predicate Valid()
      reads this`isLevel, this`levelProgress
    {
      && 0.0 <= levelProgress <= 1.0
      && (isLevel <==> levelProgress >= 17.0 / 18.0)
    }

    constructor ()
      ensures displayX == 0.0 && displayY == 0.0 && displayZ == 0.0
      ensures isLevel && levelProgress == 1.0
      ensures Valid()
    {
      displayX, displayY, displayZ := 0.0, 0.0, 0.0;
      isLevel, levelProgress := true, 1.0;
    }

    /**
     * The `gyroSample` sink: each axis moves towards its own reading; the
     * flag and the progress follow the tilt of x and y alone.
     */
    method OnSample(s: GyroSample, sqrt: real -> real)
      requires NonNegativeRoot(sqrt)
      modifies this
      ensures displayX == Ema(old(displayX), s.x, Alpha)
      ensures displayY == Ema(old(displayY), s.y, Alpha)
      ensures displayZ == Ema(old(displayZ), s.z, Alpha)
      ensures isLevel == IsLevel(Tilt(sqrt, displayX, displayY))
      ensures levelProgress == Progress(Tilt(sqrt, displayX, displayY))
      ensures Valid()
    {
      displayX := displayX + (s.x - displayX) * Alpha;
      displayY := displayY + (s.y - displayY) * Alpha;
      displayZ := displayZ + (s.z - displayZ) * Alpha;
      var magnitude := Tilt(sqrt, displayX, displayY);
      isLevel := magnitude <= LevelThreshold;
      var normalized := ClampUnit(magnitude / MaxVisualTilt);
      levelProgress := 1.0 - normalized;
      TiltNonNegative(sqrt, displayX, displayY);
      LevelIffProgress(magnitude);
    }
  }

  /** The tilt is never negative. */
  lemma TiltNonNegative(sqrt: real -> real, dx: real, dy: real)
    requires NonNegativeRoot(sqrt)
    ensures 0.0 <= Tilt(sqrt, dx, dy)
  {
    SquareNonNegative(dx);
    SquareNonNegative(dy);
  }
}
