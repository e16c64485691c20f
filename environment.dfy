/**
 * The environment view model: it smooths each reading of temperature,
 * humidity and pressure, scores the comfort of the smoothed temperature and
 * humidity, names a comfort status and follows the trend of the smoothed
 * pressure from one reading to the next.
 */
module EnvironmentConditioner {
  import opened Protocol
  import opened Smoothing

  /** The smoothing factor of all three readings. */
  const Alpha: real := 0.15

  /** Millimetres of mercury per hectopascal. */
  const MmHgPerHpa: real := 0.750061683

  /** The smallest change of smoothed pressure between two readings that counts as a trend. */
  const TrendThreshold: real := 0.12

  datatype Status = NoReading | Comfortable | Acceptable | Attention | Uncomfortable

  function StatusText(s: Status): string {
    match s
    case NoReading => "No reading"
    case Comfortable => "Comfortable"
    case Acceptable => "Acceptable"
    case Attention => "Attention"
    case Uncomfortable => "Uncomfortable"
  }

  /** How much worse a status is than Comfortable. */
  function Severity(s: Status): nat {
    match s
    case NoReading => 0
    case Comfortable => 0
    case Acceptable => 1
    case Attention => 2
    case Uncomfortable => 3
  }

  datatype Trend = Stable | Rising | Falling

  function TrendText(t: Trend): string {
    match t
    case Stable => "Stable"
    case Rising => "Rising"
    case Falling => "Falling"
  }

  /**
   * `pressureMmHg`: the smoothed pressure in millimetres of mercury. A
   * non-negative pressure converts to a smaller non-negative one, and the
   * conversion keeps the order of pressures.
   */
  function HpaToMmHg(hpa: real): (r: real)
    ensures 0.0 <= hpa ==> 0.0 <= r <= hpa
    ensures 0.0 < hpa ==> r < hpa
  {
    hpa * MmHgPerHpa
  }

  lemma HpaToMmHgMonotone(a: real, b: real)
    requires a <= b
    ensures HpaToMmHg(a) <= HpaToMmHg(b)
  {
    HpaToMmHgAdditive(a, b);
  }

  /**
   * The conversion is linear: a sum of pressures converts to the sum of
   * their conversions, so a change of pressure converts on its own.
   */
  lemma HpaToMmHgAdditive(a: real, b: real)
    ensures HpaToMmHg(a + b) == HpaToMmHg(a) + HpaToMmHg(b)
    ensures HpaToMmHg(b) - HpaToMmHg(a) == HpaToMmHg(b - a)
  {
  }

  /**
   * `computeComfort`: each of temperature and humidity costs a penalty that
   * grows with the distance from 23 °C and 50 % and is capped at 1; the
   * score is one minus their 58/42 weighted sum, floored at 0. It lies in
   * [0,1] and is 1 exactly at 23 °C and 50 %.
   */
  function ComfortScore(tempC: real, humidity: real): (r: real)
    ensures 0.0 <= r <= 1.0
    ensures r == 1.0 <==> tempC == 23.0 && humidity == 50.0
  {
    var tempPenalty := Min(Abs(tempC - 23.0) / 12.0, 1.0);
    var humPenalty := Min(Abs(humidity - 50.0) / 50.0, 1.0);
    Max(0.0, 1.0 - (0.58 * tempPenalty + 0.42 * humPenalty))
  }

  /** A temperature closer to 23 °C never scores lower, at the same humidity. */
  lemma ComfortTemperatureMonotone(t1: real, t2: real, h: real)
    requires Abs(t1 - 23.0) <= Abs(t2 - 23.0)
    ensures ComfortScore(t1, h) >= ComfortScore(t2, h)
  {
  }

  /** A humidity closer to 50 % never scores lower, at the same temperature. */
  lemma ComfortHumidityMonotone(t: real, h1: real, h2: real)
    requires Abs(h1 - 50.0) <= Abs(h2 - 50.0)
    ensures ComfortScore(t, h1) >= ComfortScore(t, h2)
  {
  }

  /**
   * Both penalties at their cap give a score of 0: the weights add up to 1.
   * The view model's starting values, 0 °C and 0 %, are such a point.
   */
  lemma ComfortFloor(t: real, h: real)
    requires Abs(t - 23.0) >= 12.0 && Abs(h - 50.0) >= 50.0
    ensures ComfortScore(t, h) == 0.0
  {
  }

  /**
   * `computeStatus`: four bands of the score, closed below and open above,
   * at 0.85, 0.65 and 0.40; everything below 0.40 is Uncomfortable.
   */
  function StatusOf(score: real): (s: Status)
    ensures s != NoReading
    ensures s == Comfortable <==> score >= 0.85
    ensures s == Acceptable <==> 0.65 <= score < 0.85
    ensures s == Attention <==> 0.40 <= score < 0.65
    ensures s == Uncomfortable <==> score < 0.40
  {
    if score >= 0.85 then Comfortable
    else if score >= 0.65 then Acceptable
    else if score >= 0.40 then Attention
    else Uncomfortable
  }

  /** A higher score never yields a worse status. */
  lemma StatusMonotone(a: real, b: real)
    requires a <= b
    ensures Severity(StatusOf(b)) <= Severity(StatusOf(a))
  {
  }

  /**
   * `computePressureTrend`'s verdict: Stable while there is no earlier
   * positive pressure; otherwise Rising or Falling when the pressure moved
   * by more than the threshold, and Stable for a change of at most the
   * threshold either way.
   */
  function TrendOf(previous: real, current: real): (t: Trend)
    ensures previous <= 0.0 ==> t == Stable
    ensures previous > 0.0 ==> (t == Rising <==> current - previous > TrendThreshold)
    ensures previous > 0.0 ==> (t == Falling <==> current - previous < -TrendThreshold)
  {
    if previous <= 0.0 then Stable
    else
      var delta := current - previous;
      if delta > TrendThreshold then Rising
      else if delta < -TrendThreshold then Falling
      else Stable
  }

  /**
   * Since the smoothed pressure moves by 0.15 of the gap to the reading, a
   * trend shows exactly when a reading differs from the smoothed pressure
   * by more than 0.8 hPa.
   */
  lemma TrendFromReading(s: real, reading: real)
    requires s > 0.0
    ensures TrendOf(s, Ema(s, reading, Alpha)) == Rising <==> reading - s > 0.8
    ensures TrendOf(s, Ema(s, reading, Alpha)) == Falling <==> reading - s < -0.8
  {
    assert Ema(s, reading, Alpha) - s == (reading - s) * Alpha;
  }

  /**
   * The smoothed pressure starts at 0 and climbs towards the readings: a
   * first reading is always Stable, and a second equal reading above
   * 0.95 hPa, every realistic one, reads as Rising.
   */
  lemma WarmUpReadsRising(p: real)
    requires p > 0.95
    ensures TrendOf(0.0, Ema(0.0, p, Alpha)) == Stable
    ensures TrendOf(Ema(0.0, p, Alpha), Ema(Ema(0.0, p, Alpha), p, Alpha)) == Rising
  {
    var s1 := Ema(0.0, p, Alpha);
    assert s1 == 0.15 * p;
    TrendFromReading(s1, p);
  }

  class EnvironmentViewModel {
    var temperatureC: real
    var humidityRH: real
    var pressureHpa: real

    var smoothTemperatureC: real
    var smoothHumidityRH: real
    var smoothPressureHpa: real

    var comfortScore: real
    var status: Status
    var pressureTrend: Trend

    var previousSmoothPressure: real

    /**
     * Once a reading has arrived, the published score and status agree with
     * the smoothed readings; the trend's memory always holds the smoothed
     * pressure of the last reading. (Before the first reading the score is
     * 0, which ComfortFloor shows is also the score of the starting values.)
     */
    predicate Valid()
      reads this
    {
      && (status != NoReading ==>
            comfortScore == ComfortScore(smoothTemperatureC, smoothHumidityRH) && status == StatusOf(comfortScore))
      && previousSmoothPressure == smoothPressureHpa
    }

    constructor ()
      ensures temperatureC == 0.0 && humidityRH == 0.0 && pressureHpa == 0.0
      ensures smoothTemperatureC == 0.0 && smoothHumidityRH == 0.0 && smoothPressureHpa == 0.0
      ensures comfortScore == 0.0 && status == NoReading && pressureTrend == Stable
      ensures Valid()
    {
      temperatureC, humidityRH, pressureHpa := 0.0, 0.0, 0.0;
      smoothTemperatureC, smoothHumidityRH, smoothPressureHpa := 0.0, 0.0, 0.0;
      comfortScore, status, pressureTrend := 0.0, NoReading, Stable;
      previousSmoothPressure := 0.0;
    }

    /**
     * `computePressureTrend`: the verdict against the remembered pressure,
     * which is replaced by the current one on every path.
     */
    method ComputePressureTrend(current: real) returns (t: Trend)
      modifies this`previousSmoothPressure
      ensures t == TrendOf(old(previousSmoothPressure), current)
      ensures previousSmoothPressure == current
    {
      t := TrendOf(previousSmoothPressure, current);
      previousSmoothPressure := current;
    }

    /**
     * The `environmentSample` sink: copies the reading, moves each smoothed
     * value towards its own reading only, and recomputes score, status and
     * trend from the smoothed values.
     */
    method OnSample(s: EnvironmentSample)
      requires Valid()
      modifies this
      ensures Valid()
      ensures temperatureC == s.temperatureC && humidityRH == s.humidityRH && pressureHpa == s.pressureHpa
      ensures smoothTemperatureC == Ema(old(smoothTemperatureC), s.temperatureC, Alpha)
      ensures smoothHumidityRH == Ema(old(smoothHumidityRH), s.humidityRH, Alpha)
      ensures smoothPressureHpa == Ema(old(smoothPressureHpa), s.pressureHpa, Alpha)
      ensures status == StatusOf(ComfortScore(smoothTemperatureC, smoothHumidityRH))
      ensures pressureTrend == TrendOf(old(smoothPressureHpa), smoothPressureHpa)
    {
      temperatureC, humidityRH, pressureHpa := s.temperatureC, s.humidityRH, s.pressureHpa;
      smoothTemperatureC := smoothTemperatureC + (s.temperatureC - smoothTemperatureC) * Alpha;
      smoothHumidityRH := smoothHumidityRH + (s.humidityRH - smoothHumidityRH) * Alpha;
      smoothPressureHpa := smoothPressureHpa + (s.pressureHpa - smoothPressureHpa) * Alpha;
      comfortScore := ComfortScore(smoothTemperatureC, smoothHumidityRH);
      status := StatusOf(comfortScore);
      pressureTrend := ComputePressureTrend(smoothPressureHpa);
    }

    /** `pressureMmHg`. */
    function PressureMmHg(): (r: real)
      reads this`smoothPressureHpa
      ensures 0.0 <= smoothPressureHpa ==> 0.0 <= r <= smoothPressureHpa
    {
      HpaToMmHg(smoothPressureHpa)
    }
  }
}
