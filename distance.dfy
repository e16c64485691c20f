/**
 * The distance view model: it takes the worker's proximity reading and its
 * fraction of the sensor's range, turns the fraction around so that near
 * reads high, smooths it and names a distance band from the smoothed value.
 */
module DistanceConditioner {
  import opened Protocol
  import opened Smoothing

  /** The smoothing factor. */
  const Alpha: real := 0.14

  /** The sensor reads high for far objects; the view shows near as high. */
  const InvertScale: bool := true

  datatype Band = NoReading | Far | Medium | VeryClose

  function BandText(b: Band): string {
    match b
    case NoReading => "No reading"
    case Far => "Far"
    case Medium => "Medium"
    case VeryClose => "Very close"
  }

  /** How near a band is. */
  function Nearness(b: Band): nat {
    match b
    case NoReading => 0
    case Far => 0
    case Medium => 1
    case VeryClose => 2
  }

  /**
   * The fraction shown: clamped into [0,1] and then turned around, so a
   * fraction inside the unit interval maps to its complement and anything
   * outside lands on the nearer end.
   */
  function UiNormalized(norm: real): (u: real)
    ensures 0.0 <= u <= 1.0
    ensures 0.0 <= norm <= 1.0 ==> u + norm == 1.0
    ensures norm <= 0.0 ==> u == 1.0
    ensures norm >= 1.0 ==> u == 0.0
  {
    var clamped := ClampUnit(norm);
    if InvertScale then 1.0 - clamped else clamped
  }

  /** Turning around twice gives back the clamped fraction. */
  lemma UiNormalizedTwice(norm: real)
    ensures UiNormalized(UiNormalized(norm)) == ClampUnit(norm)
  {
  }

  /** A higher reading never shows higher. */
  lemma UiNormalizedAntitone(a: real, b: real)
    requires a <= b
    ensures UiNormalized(b) <= UiNormalized(a)
  {
  }

  /** The band of the smoothed value: Far below 0.20, Medium below 0.60, Very close from there. */
  function BandOf(smooth: real): (b: Band)
    ensures b != NoReading
    ensures b == Far <==> smooth < 0.20
    ensures b == Medium <==> 0.20 <= smooth < 0.60
    ensures b == VeryClose <==> smooth >= 0.60
  {
    if smooth < 0.20 then Far
    else if smooth < 0.60 then Medium
    else VeryClose
  }

  /** A higher smoothed value never names a farther band. */
  lemma BandMonotone(a: real, b: real)
    requires a <= b
    ensures Nearness(BandOf(a)) <= Nearness(BandOf(b))
  {
  }

  class DistanceViewModel {
    var rawValue: int
    var normalized: real
    var smoothNormalized: real
    var status: Band

    /**
     * The shown and the smoothed fractions stay in [0,1], and once a reading
     * has arrived the band is that of the smoothed value.
     */
    predicate Valid()
      reads this
    {
      && 0.0 <= normalized <= 1.0
      && 0.0 <= smoothNormalized <= 1.0
      && (status != NoReading ==> status == BandOf(smoothNormalized))
    }

    constructor ()
      ensures rawValue == 0 && normalized == 0.0 && smoothNormalized == 0.0 && status == NoReading
      ensures Valid()
    {
      rawValue, normalized, smoothNormalized, status := 0, 0.0, 0.0, NoReading;
    }

    /**
     * The sink of the combined proximity value and fraction: copies the
     * value, shows the turned-around fraction and moves the smoothed
     * fraction towards it; the band follows the smoothed fraction, not the
     * reading.
     */
    method OnSample(raw: int, norm: real)
      requires Valid()
      modifies this
      ensures rawValue == raw
      ensures normalized == UiNormalized(norm)
      ensures smoothNormalized == Ema(old(smoothNormalized), normalized, Alpha)
      ensures status == BandOf(smoothNormalized)
      ensures Valid()
    {
      rawValue := raw;
      var clamped := if norm < 0.0 then 0.0 else if norm > 1.0 then 1.0 else norm;
      var uiNorm := if InvertScale then 1.0 - clamped else clamped;
      normalized := uiNorm;
      smoothNormalized := smoothNormalized + (uiNorm - smoothNormalized) * Alpha;
      if smoothNormalized < 0.20 {
        status := Far;
      } else if smoothNormalized < 0.60 {
        status := Medium;
      } else {
        status := VeryClose;
      }
    }
  }
}
