/**
 * The client side of the newline-delimited JSON telemetry protocol: how the
 * Bluetooth worker splits the notification byte stream into lines, picks a
 * parser for each line by its `"type":"<kind>"` marker, and what each parser
 * does to the published samples and to the log.
 *
 * JSON decoding is not modelled: a `JsonDecoder` is any function from a
 * parser's schema and a line to an optional payload whose fields are all
 * optional, which is what the Swift `Decodable` structs with optional fields
 * give.
 */
module Protocol {
  import opened Common

  // ---------------------------------------------------------------------------
  // Samples published by the worker

  datatype GyroSample = GyroSample(x: real, y: real, z: real)

  datatype EnvironmentSample = EnvironmentSample(temperatureC: real, humidityRH: real, pressureHpa: real)

  datatype AudioSample = AudioSample(rms: real, level: int, peak: int)

  const GyroZero := GyroSample(0.0, 0.0, 0.0)
  const EnvironmentZero := EnvironmentSample(0.0, 0.0, 0.0)
  const AudioZero := AudioSample(0.0, 0, 0)

  /** A reading of the wall clock (`Date()`); the model only compares and stores them. */
  type Instant = int

  /** Every sample the worker publishes, with the time of its last update. */
  datatype Telemetry = Telemetry(
    gyro: GyroSample,
    lastGyroAt: Option<Instant>,
    proximityValue: int,
    proximityNormalized: real,
    lastProximityAt: Option<Instant>,
    environment: EnvironmentSample,
    lastEnvironmentAt: Option<Instant>,
    audio: AudioSample,
    lastAudioAt: Option<Instant>)

  const TelemetryZero := Telemetry(GyroZero, None, 0, 0.0, None, EnvironmentZero, None, AudioZero, None)

  /** The part of the worker's state that decoding a line can change: the samples and the log. */
  datatype Snapshot = Snapshot(telemetry: Telemetry, logs: seq<string>)

  // ---------------------------------------------------------------------------
  // The bounded log

  /** At most this many log entries are kept. */
  const LogCap := 500

  /** A log that respects the cap. */
  type BoundedLog = s: seq<string> | |s| <= LogCap

  /**
   * `appendLog`: appends the entry and then drops the oldest entries beyond
   * the cap. The result holds the newest entries, in order, the new one last.
   */
  function AppendBounded(logs: seq<string>, entry: string): (r: BoundedLog)
    ensures |r| == if |logs| < LogCap then |logs| + 1 else LogCap
    ensures r[|r| - 1] == entry
    ensures forall i :: 0 <= i < |r| - 1 ==> r[i] == logs[|logs| - (|r| - 1) + i]
  {
    var a := logs + [entry];
    if |a| > LogCap then a[|a| - LogCap..] else a
  }

  /** Appends several entries one after the other. */
  function AppendAll(logs: seq<string>, entries: seq<string>): (r: seq<string>)
    decreases |entries|
  {
    if entries == [] then logs
    else AppendAll(AppendBounded(logs, entries[0]), entries[1..])
  }

  /** Appending a batch never takes the log above the cap, whatever it held before. */
  lemma {:induction false} AppendAllBounded(logs: seq<string>, entries: seq<string>)
    requires |logs| <= LogCap
    ensures |AppendAll(logs, entries)| <= LogCap
    ensures |AppendAll(logs, entries)| >= |logs|
    decreases |entries|
  {
    if entries != [] {
      AppendAllBounded(AppendBounded(logs, entries[0]), entries[1..]);
    }
  }

  /** Appending two batches one after the other is appending their concatenation. */
  lemma {:induction false} AppendAllConcat(logs: seq<string>, a: seq<string>, b: seq<string>)
    ensures AppendAll(logs, a + b) == AppendAll(AppendAll(logs, a), b)
    decreases |a|
  {
    if a == [] {
      assert a + b == b;
    } else {
      assert (a + b)[1..] == a[1..] + b;
      AppendAllConcat(AppendBounded(logs, a[0]), a[1..], b);
    }
  }

  // ---------------------------------------------------------------------------
  // Payload schemas and the type markers

  /** The seven parsers of the worker, in the order the dispatcher tries them. */
  datatype Tag = Gyroscope | Proximity | Environment | Temperature | Humidity | Pressure | Audio

  /** Position of a parser in the dispatch chain. */
  function Rank(t: Tag): nat {
    match t
    case Gyroscope => 0
    case Proximity => 1
    case Environment => 2
    case Temperature => 3
    case Humidity => 4
    case Pressure => 5
    case Audio => 6
  }

  /** The value of the `type` field that selects a parser. */
  function TypeName(t: Tag): string {
    match t
    case Gyroscope => "gyroscope"
    case Proximity => "proximity"
    case Environment => "environment"
    case Temperature => "temperature"
    case Humidity => "humidity"
    case Pressure => "pressure"
    case Audio => "audio"
  }

  /** The exact substring a parser looks for: `"type":"<kind>"`, without spaces. */
  function Marker(t: Tag): (m: string)
    ensures |m| == |TypeName(t)| + 9
  {
    "\"type\":\"" + TypeName(t) + "\""
  }

  /** The kind's name sits between the opening `"type":"` and a closing quote. */
  lemma MarkerShape(t: Tag)
    ensures StartsWith(Marker(t), "\"type\":\"")
    ensures OccursAt(Marker(t), TypeName(t), 8)
    ensures Marker(t)[|Marker(t)| - 1] == '"'
  {
  }

  /** Each parser has its own marker. */
  lemma MarkerInjective(t: Tag, u: Tag)
    ensures Marker(t) == Marker(u) <==> t == u
  {
    if Marker(t) == Marker(u) {
      MarkerShape(t);
      MarkerShape(u);
      assert TypeName(t) == Marker(t)[8..|Marker(t)| - 1];
      assert TypeName(u) == Marker(u)[8..|Marker(u)| - 1];
    }
  }

  /** The word a parser puts in front of its log entries. */
  function LogName(t: Tag): string {
    match t
    case Gyroscope => "GYRO"
    case Proximity => "PROX"
    case Environment => "ENV"
    case Temperature => "TEMP"
    case Humidity => "HUM"
    case Pressure => "PRESS"
    case Audio => "AUDIO"
  }

  /**
   * A decoded message. Every field is optional; a parser's schema reads only
   * its own fields and `error`.
   */
  datatype Payload = Payload(
    x: Option<real>, y: Option<real>, z: Option<real>,
    value: Option<int>,
    c: Option<real>, rh: Option<real>, hpa: Option<real>,
    rms: Option<real>, level: Option<int>, peak: Option<int>,
    error: Option<string>)

  /** `JSONDecoder().decode(P.self, from:)` for the schema of each parser; `None` is a thrown error. */
  type JsonDecoder = (Tag, string) -> Option<Payload>

  /**
   * The `||` chain of `handleIncomingText`: the first parser, in dispatch
   * order, whose marker the line contains; `None` when it contains no marker.
   */
  function Classify(line: string): (r: Option<Tag>)
    ensures r.Some? ==> Contains(line, Marker(r.value))
    ensures r.Some? ==> forall u: Tag :: Rank(u) < Rank(r.value) ==> !Contains(line, Marker(u))
    ensures r.None? <==> forall u: Tag :: !Contains(line, Marker(u))
  {
    if Contains(line, Marker(Gyroscope)) then Some(Gyroscope)
    else if Contains(line, Marker(Proximity)) then Some(Proximity)
    else if Contains(line, Marker(Environment)) then Some(Environment)
    else if Contains(line, Marker(Temperature)) then Some(Temperature)
    else if Contains(line, Marker(Humidity)) then Some(Humidity)
    else if Contains(line, Marker(Pressure)) then Some(Pressure)
    else if Contains(line, Marker(Audio)) then Some(Audio)
    else None
  }

  // ---------------------------------------------------------------------------
  // Numeric policy

  /** Swift's `max(lo, min(x, hi))` on `Int`. */
  function ClampInt(x: int, lo: int, hi: int): (r: int)
    requires lo <= hi
    ensures lo <= r <= hi
    ensures lo <= x <= hi ==> r == x
    ensures x < lo ==> r == lo
    ensures x > hi ==> r == hi
  {
    if x < lo then lo else if x > hi then hi else x
  }

  /** Swift's `min(max(x, 0), 1)` on `Double`. */
  function ClampUnit(x: real): (r: real)
    ensures 0.0 <= r <= 1.0
    ensures 0.0 <= x <= 1.0 ==> r == x
    ensures x < 0.0 ==> r == 0.0
    ensures x > 1.0 ==> r == 1.0
  {
    if x < 0.0 then 0.0 else if x > 1.0 then 1.0 else x
  }

  /** Swift's `Double.rounded()`: to the nearest integer, halves away from zero. */
  function RoundHalfAwayFromZero(x: real): (r: int)
    ensures x - 0.5 <= r as real <= x + 0.5
    ensures r as real - x == 0.5 ==> x > 0.0
    ensures x - r as real == 0.5 ==> x < 0.0
  {
    if x >= 0.0 then (x + 0.5).Floor else -((-x + 0.5).Floor)
  }

  /** The largest proximity reading and of an audio peak. */
  const ProximityMax := 255
  const PeakMax := 32767

  /** The proximity value as a fraction of its range. */
  function ProximityFraction(v: int): (r: real)
    requires 0 <= v <= ProximityMax
    ensures 0.0 <= r <= 1.0
    ensures r == 0.0 <==> v == 0
    ensures r == 1.0 <==> v == ProximityMax
  {
    v as real / 255.0
  }

  /**
   * The audio sample built from a payload: rms defaults to 0 and is clamped
   * to [0,1]; level defaults to the rounded rms percentage and is clamped to
   * [0,100]; peak defaults to 0 and is clamped to [0,32767].
   */
  function AudioOf(p: Payload): (a: AudioSample)
    ensures 0.0 <= a.rms <= 1.0 && 0 <= a.level <= 100 && 0 <= a.peak <= PeakMax
    ensures a.rms == (if p.rms.Some? then ClampUnit(p.rms.value) else 0.0)
    ensures p.level.None? ==> a.level == RoundHalfAwayFromZero(a.rms * 100.0)
    ensures p.level.Some? ==> a.level == ClampInt(p.level.value, 0, 100)
    ensures a.peak == (if p.peak.Some? then ClampInt(p.peak.value, 0, PeakMax) else 0)
  {
    var rms := ClampUnit(p.rms.GetOr(0.0));
    var level := ClampInt(p.level.GetOr(RoundHalfAwayFromZero(rms * 100.0)), 0, 100);
    var peak := ClampInt(p.peak.GetOr(0), 0, PeakMax);
    AudioSample(rms, level, peak)
  }

  // ---------------------------------------------------------------------------
  // What one line does

  /** The state change one decoded line asks for. */
  datatype Effect =
    | Unchanged
    | Note(entry: string)
    | NewGyro(gyro: GyroSample)
    | NewProximity(value: int)
    | NewEnvironment(environment: EnvironmentSample)
    | NewTemperature(temperatureC: real)
    | NewHumidity(humidityRH: real)
    | NewPressure(pressureHpa: real)
    | NewAudio(audio: AudioSample)

  /** The parser whose sample an effect writes, if it writes one. */
  function Target(e: Effect): Option<Tag> {
    match e
    case Unchanged => None
    case Note(_) => None
    case NewGyro(_) => Some(Gyroscope)
    case NewProximity(_) => Some(Proximity)
    case NewEnvironment(_) => Some(Environment)
    case NewTemperature(_) => Some(Temperature)
    case NewHumidity(_) => Some(Humidity)
    case NewPressure(_) => Some(Pressure)
    case NewAudio(_) => Some(Audio)
  }

  /** The four published environment-sample writers. */
  predicate WritesEnvironment(e: Effect) {
    e.NewEnvironment? || e.NewTemperature? || e.NewHumidity? || e.NewPressure?
  }

  /** Effects whose numbers are inside the ranges the parsers clamp to. */
  predicate InRange(e: Effect) {
    && (e.NewProximity? ==> 0 <= e.value <= ProximityMax)
    && (e.NewAudio? ==> 0.0 <= e.audio.rms <= 1.0 && 0 <= e.audio.level <= 100 && 0 <= e.audio.peak <= PeakMax)
  }

  function ParseFailEntry(t: Tag, line: string): string {
    LogName(t) + " parse fail: " + line
  }

  function ErrorEntry(t: Tag, message: string): string {
    LogName(t) + " error: " + message
  }

  function UnrecognizedEntry(line: string): string {
    "RX <= " + line
  }

  /** The payload fields a parser may read. */
  datatype Field = X | Y | Z | Value | C | Rh | Hpa

  /** The fields a parser's `guard let` insists on; the audio parser defaults every field instead. */
  function Required(t: Tag): set<Field> {
    match t
    case Gyroscope => {X, Y, Z}
    case Proximity => {Value}
    case Environment => {C, Rh, Hpa}
    case Temperature => {C}
    case Humidity => {Rh}
    case Pressure => {Hpa}
    case Audio => {}
  }

  predicate Present(p: Payload, f: Field) {
    match f
    case X => p.x.Some?
    case Y => p.y.Some?
    case Z => p.z.Some?
    case Value => p.value.Some?
    case C => p.c.Some?
    case Rh => p.rh.Some?
    case Hpa => p.hpa.Some?
  }

  /**
   * The `guard let` of each parser: the line is dropped exactly when one of
   * the parser's required fields is absent, so the audio parser never drops.
   */
  function Missing(t: Tag, p: Payload): (r: bool)
    ensures r <==> exists f :: f in Required(t) && !Present(p, f)
    ensures t == Audio ==> !r
  {
    match t
    case Gyroscope =>
      if p.x.None? then assert !Present(p, X); true
      else if p.y.None? then assert !Present(p, Y); true
      else if p.z.None? then assert !Present(p, Z); true
      else false
    case Proximity => assert Present(p, Value) <==> p.value.Some?; p.value.None?
    case Environment =>
      if p.c.None? then assert !Present(p, C); true
      else if p.rh.None? then assert !Present(p, Rh); true
      else if p.hpa.None? then assert !Present(p, Hpa); true
      else false
    case Temperature => assert Present(p, C) <==> p.c.Some?; p.c.None?
    case Humidity => assert Present(p, Rh) <==> p.rh.Some?; p.rh.None?
    case Pressure => assert Present(p, Hpa) <==> p.hpa.Some?; p.hpa.None?
    case Audio => false
  }

  /**
   * The body of one `parse*` function once its marker matched, given what the
   * decoder made of the line: a decode failure and an `error` field each give
   * exactly one log entry, a missing required field gives nothing, and
   * otherwise the parser's own sample is written.
   */
  function Interpret(t: Tag, line: string, decoded: Option<Payload>): (e: Effect)
    ensures decoded.None? ==> e == Note(ParseFailEntry(t, line))
    ensures decoded.Some? && decoded.value.error.Some? ==> e == Note(ErrorEntry(t, decoded.value.error.value))
    ensures e.Unchanged? <==> decoded.Some? && decoded.value.error.None? && Missing(t, decoded.value)
    ensures e.Note? <==> decoded.None? || decoded.value.error.Some?
    ensures Target(e).Some? ==> Target(e) == Some(t)
    ensures Target(e).None? ==> e.Unchanged? || e.Note?
    ensures InRange(e)
    ensures e.NewProximity? ==> e.value == ClampInt(decoded.value.value.value, 0, ProximityMax)
    ensures e.NewAudio? ==> e.audio == AudioOf(decoded.value)
    ensures e.NewGyro? ==>
      && decoded.Some? && decoded.value.x.Some? && decoded.value.y.Some? && decoded.value.z.Some?
      && e.gyro == GyroSample(decoded.value.x.value, decoded.value.y.value, decoded.value.z.value)
    ensures e.NewEnvironment? ==>
      && decoded.Some? && decoded.value.c.Some? && decoded.value.rh.Some? && decoded.value.hpa.Some?
      && e.environment == EnvironmentSample(decoded.value.c.value, decoded.value.rh.value, decoded.value.hpa.value)
    ensures e.NewTemperature? ==> decoded.Some? && decoded.value.c == Some(e.temperatureC)
    ensures e.NewHumidity? ==> decoded.Some? && decoded.value.rh == Some(e.humidityRH)
    ensures e.NewPressure? ==> decoded.Some? && decoded.value.hpa == Some(e.pressureHpa)
  {
    match decoded
    case None => Note(ParseFailEntry(t, line))
    case Some(p) =>
      if p.error.Some? then Note(ErrorEntry(t, p.error.value))
      else if Missing(t, p) then Unchanged
      else
        match t
        case Gyroscope => NewGyro(GyroSample(p.x.value, p.y.value, p.z.value))
        case Proximity => NewProximity(ClampInt(p.value.value, 0, ProximityMax))
        case Environment => NewEnvironment(EnvironmentSample(p.c.value, p.rh.value, p.hpa.value))
        case Temperature => NewTemperature(p.c.value)
        case Humidity => NewHumidity(p.rh.value)
        case Pressure => NewPressure(p.hpa.value)
        case Audio => NewAudio(AudioOf(p))
  }

  /** A line after trimming, as `handleIncomingText` dispatches it. */
  function TrimLine(raw: string): string {
    Trim(raw, WhitespacesAndNewlines)
  }

  /** No parser's log entry reads like an unrecognised line. */
  lemma ParserEntriesAreNotUnrecognized(t: Tag, line: string, e: Effect, other: string)
    requires e == Interpret(t, line, None) || (exists m :: e == Note(ErrorEntry(t, m)))
    ensures e != Note(UnrecognizedEntry(other))
  {
    if e.Note? {
      assert e.entry[0] == LogName(t)[0];
      assert UnrecognizedEntry(other)[0] == 'R';
    }
  }

  /**
   * What one raw line (the text before its `\n`) does: a line that is blank
   * after trimming does nothing; a line with no marker is logged as
   * `RX <= line`; otherwise the first matching parser handles it and nothing
   * falls through to the next parser.
   */
  function LineEffect(raw: string, decode: JsonDecoder): (e: Effect)
    ensures TrimLine(raw) == [] ==> e == Unchanged
    ensures TrimLine(raw) != [] && Classify(TrimLine(raw)).None? ==> e == Note(UnrecognizedEntry(TrimLine(raw)))
    ensures TrimLine(raw) != [] && Classify(TrimLine(raw)).Some? ==>
      var t := Classify(TrimLine(raw)).value;
      e == Interpret(t, TrimLine(raw), decode(t, TrimLine(raw)))
    ensures InRange(e)
  {
    var line := TrimLine(raw);
    if line == [] then Unchanged
    else
      match Classify(line)
      case None => Note(UnrecognizedEntry(line))
      case Some(t) => Interpret(t, line, decode(t, line))
  }

  /** Only a non-blank line that matches no marker is logged as `RX <= line`. */
  lemma {:induction false} UnrecognizedOnlyWithoutMarker(raw: string, decode: JsonDecoder)
    ensures LineEffect(raw, decode) == Note(UnrecognizedEntry(TrimLine(raw)))
        <==> TrimLine(raw) != [] && Classify(TrimLine(raw)).None?
  {
    var line := TrimLine(raw);
    if line != [] && Classify(line).Some? {
      var t := Classify(line).value;
      var d := decode(t, line);
      var e := LineEffect(raw, decode);
      if d.None? {
        ParserEntriesAreNotUnrecognized(t, line, e, line);
      } else if d.value.error.Some? {
        ParserEntriesAreNotUnrecognized(t, line, e, line);
      }
    }
  }

  // ---------------------------------------------------------------------------
  // Applying an effect to the published state

  /**
   * The main-queue block a parser schedules, or the `appendLog` call: an
   * update writes one sample and its timestamp, a note appends one log entry.
   */
  function Apply(s: Snapshot, e: Effect, now: Instant): (r: Snapshot)
    ensures e.Unchanged? ==> r == s
    ensures e.Note? ==> r.telemetry == s.telemetry && r.logs == AppendBounded(s.logs, e.entry)
    ensures !e.Note? ==> r.logs == s.logs
    ensures Target(e) != Some(Gyroscope) ==>
      r.telemetry.gyro == s.telemetry.gyro && r.telemetry.lastGyroAt == s.telemetry.lastGyroAt
    ensures Target(e) != Some(Proximity) ==>
      && r.telemetry.proximityValue == s.telemetry.proximityValue
      && r.telemetry.proximityNormalized == s.telemetry.proximityNormalized
      && r.telemetry.lastProximityAt == s.telemetry.lastProximityAt
    ensures !WritesEnvironment(e) ==>
      r.telemetry.environment == s.telemetry.environment && r.telemetry.lastEnvironmentAt == s.telemetry.lastEnvironmentAt
    ensures Target(e) != Some(Audio) ==>
      r.telemetry.audio == s.telemetry.audio && r.telemetry.lastAudioAt == s.telemetry.lastAudioAt
    ensures Target(e).Some? ==> r.logs == s.logs
    ensures e.NewGyro? ==> r.telemetry.gyro == e.gyro && r.telemetry.lastGyroAt == Some(now)
    ensures e.NewProximity? ==>
      && r.telemetry.proximityValue == e.value
      && (0 <= e.value <= ProximityMax ==> r.telemetry.proximityNormalized == ProximityFraction(e.value))
      && r.telemetry.lastProximityAt == Some(now)
    ensures WritesEnvironment(e) ==> r.telemetry.lastEnvironmentAt == Some(now)
    ensures e.NewAudio? ==> r.telemetry.audio == e.audio && r.telemetry.lastAudioAt == Some(now)
  {
    var t := s.telemetry;
    match e
    case Unchanged => s
    case Note(entry) => s.(logs := AppendBounded(s.logs, entry))
    case NewGyro(g) => s.(telemetry := t.(gyro := g, lastGyroAt := Some(now)))
    case NewProximity(v) =>
      s.(telemetry := t.(proximityValue := v, proximityNormalized := v as real / 255.0, lastProximityAt := Some(now)))
    case NewEnvironment(env) => s.(telemetry := t.(environment := env, lastEnvironmentAt := Some(now)))
    case NewTemperature(c) =>
      s.(telemetry := t.(environment := t.environment.(temperatureC := c), lastEnvironmentAt := Some(now)))
    case NewHumidity(h) =>
      s.(telemetry := t.(environment := t.environment.(humidityRH := h), lastEnvironmentAt := Some(now)))
    case NewPressure(p) =>
      s.(telemetry := t.(environment := t.environment.(pressureHpa := p), lastEnvironmentAt := Some(now)))
    case NewAudio(a) => s.(telemetry := t.(audio := a, lastAudioAt := Some(now)))
  }

  /** The telemetry invariant: the stored proximity and audio numbers are inside their clamped ranges. */
  predicate WellFormed(t: Telemetry) {
    && 0 <= t.proximityValue <= ProximityMax
    && t.proximityNormalized == ProximityFraction(t.proximityValue)
    && 0.0 <= t.audio.rms <= 1.0
    && 0 <= t.audio.level <= 100
    && 0 <= t.audio.peak <= PeakMax
  }

  /**
   * A single-field environment line replaces that field only, and a full
   * environment line replaces all three.
   */
  lemma EnvironmentMerges(s: Snapshot, v: real, env: EnvironmentSample, now: Instant)
    ensures Apply(s, NewTemperature(v), now).telemetry.environment
         == EnvironmentSample(v, s.telemetry.environment.humidityRH, s.telemetry.environment.pressureHpa)
    ensures Apply(s, NewHumidity(v), now).telemetry.environment
         == EnvironmentSample(s.telemetry.environment.temperatureC, v, s.telemetry.environment.pressureHpa)
    ensures Apply(s, NewPressure(v), now).telemetry.environment
         == EnvironmentSample(s.telemetry.environment.temperatureC, s.telemetry.environment.humidityRH, v)
    ensures Apply(s, NewEnvironment(env), now).telemetry.environment == env
  {
  }

  /** Partial environment updates of different fields commute: neither clobbers the other. */
  lemma PartialUpdatesCommute(s: Snapshot, c: real, h: real, p: real, now: Instant)
    ensures Apply(Apply(s, NewTemperature(c), now), NewHumidity(h), now)
         == Apply(Apply(s, NewHumidity(h), now), NewTemperature(c), now)
    ensures Apply(Apply(s, NewHumidity(h), now), NewPressure(p), now)
         == Apply(Apply(s, NewPressure(p), now), NewHumidity(h), now)
    ensures Apply(Apply(s, NewTemperature(c), now), NewPressure(p), now)
         == Apply(Apply(s, NewPressure(p), now), NewTemperature(c), now)
  {
  }

  /** The three single-field lines together amount to one full environment line. */
  lemma {:induction false} ThreePartialsMakeOneFull(s: Snapshot, c: real, h: real, p: real, now: Instant)
    ensures Apply(Apply(Apply(s, NewTemperature(c), now), NewHumidity(h), now), NewPressure(p), now)
         == Apply(s, NewEnvironment(EnvironmentSample(c, h, p)), now)
  {
  }

  /** Applying a clamped effect keeps the telemetry well formed. */
  lemma ApplyKeepsWellFormed(s: Snapshot, e: Effect, now: Instant)
    requires WellFormed(s.telemetry) && InRange(e)
    ensures WellFormed(Apply(s, e, now).telemetry)
  {
  }

  /**
   * A line that reaches a parser, decodes without an `error` and carries the
   * parser's required fields stores exactly the decoded numbers, stamped with
   * the time of the update.
   */
  lemma DecodedLineIsStored(raw: string, decode: JsonDecoder, p: Payload, s: Snapshot, now: Instant)
    ensures Classify(TrimLine(raw)).Some? ==>
      var t := Classify(TrimLine(raw)).value;
      var r := Apply(s, LineEffect(raw, decode), now).telemetry;
      decode(t, TrimLine(raw)) == Some(p) && p.error.None? ==>
      && (t == Gyroscope && p.x.Some? && p.y.Some? && p.z.Some? ==>
            r.gyro == GyroSample(p.x.value, p.y.value, p.z.value) && r.lastGyroAt == Some(now))
      && (t == Proximity && p.value.Some? ==>
            r.proximityValue == ClampInt(p.value.value, 0, ProximityMax) && r.lastProximityAt == Some(now))
      && (t == Environment && p.c.Some? && p.rh.Some? && p.hpa.Some? ==>
            r.environment == EnvironmentSample(p.c.value, p.rh.value, p.hpa.value) && r.lastEnvironmentAt == Some(now))
      && (t == Temperature && p.c.Some? ==>
            r.environment.temperatureC == p.c.value && r.lastEnvironmentAt == Some(now))
      && (t == Humidity && p.rh.Some? ==>
            r.environment.humidityRH == p.rh.value && r.lastEnvironmentAt == Some(now))
      && (t == Pressure && p.hpa.Some? ==>
            r.environment.pressureHpa == p.hpa.value && r.lastEnvironmentAt == Some(now))
      && (t == Audio ==> r.audio == AudioOf(p) && r.lastAudioAt == Some(now))
  {
    var line := TrimLine(raw);
    if Classify(line).Some? && decode(Classify(line).value, line) == Some(p) {
      var t := Classify(line).value;
      assert line != [] by { MarkerShape(t); }
      assert LineEffect(raw, decode) == Interpret(t, line, Some(p));
    }
  }

  // ---------------------------------------------------------------------------
  // Line reassembly

  /** Index of the first `\n`. */
  function FirstNewline(s: string): (i: nat)
    requires '\n' in s
    ensures i < |s| && s[i] == '\n' && '\n' !in s[..i]
  {
    if s[0] == '\n' then 0
    else
      var j := FirstNewline(s[1..]);
      assert s[..j + 1] == [s[0]] + s[1..][..j];
      j + 1
  }

  /** The first `\n` is the only one with no `\n` before it. */
  lemma FirstNewlineUnique(s: string, i: nat)
    requires i < |s| && s[i] == '\n' && '\n' !in s[..i]
    ensures FirstNewline(s) == i
  {
  }

  /** The complete lines of a buffer, without their terminators, in order; none holds a `\n`. */
  function RawLines(s: string): (lines: seq<string>)
    ensures NoNewlines(lines)
    decreases |s|
  {
    if '\n' in s then
      var i := FirstNewline(s);
      var rest := RawLines(s[i + 1..]);
      assert forall k :: 1 <= k < |[s[..i]] + rest| ==> ([s[..i]] + rest)[k] == rest[k - 1];
      [s[..i]] + rest
    else []
  }

  /** There is one complete line per `\n` in the buffer. */
  lemma {:induction false} LineCount(s: string)
    ensures |RawLines(s)| == multiset(s)['\n']
    decreases |s|
  {
    if '\n' in s {
      var i := FirstNewline(s);
      LineCount(s[i + 1..]);
      assert s == s[..i] + [s[i]] + s[i + 1..];
      assert multiset(s[..i])['\n'] == 0;
    } else {
      assert multiset(s)['\n'] == 0;
    }
  }

  /** What stays in the buffer after the last `\n`. */
  function Remainder(s: string): (r: string)
    ensures '\n' !in r
    decreases |s|
  {
    if '\n' in s then Remainder(s[FirstNewline(s) + 1..]) else s
  }

  /** Lines written back with their terminators. */
  function Joined(lines: seq<string>): string
    decreases |lines|
  {
    if lines == [] then [] else lines[0] + "\n" + Joined(lines[1..])
  }

  /** No line contains a newline. */
  predicate NoNewlines(lines: seq<string>) {
    forall k :: 0 <= k < |lines| ==> '\n' !in lines[k]
  }

  /** Unfolds the splitting functions once at the first `\n`. */
  lemma SplitAtFirstNewline(s: string)
    requires '\n' in s
    ensures var i := FirstNewline(s);
      && RawLines(s) == [s[..i]] + RawLines(s[i + 1..])
      && Remainder(s) == Remainder(s[i + 1..])
      && s == s[..i] + "\n" + s[i + 1..]
  {
    var i := FirstNewline(s);
    assert s[..i] + "\n" == s[..i + 1];
    assert s[..i + 1] + s[i + 1..] == s;
  }

  /**
   * Splitting loses nothing: the complete lines, each followed by its `\n`,
   * and then the remainder give back the buffer.
   */
  lemma {:induction false} Reassembly(s: string)
    ensures Joined(RawLines(s)) + Remainder(s) == s
    decreases |s|
  {
    if '\n' in s {
      var i := FirstNewline(s);
      var line, rest := s[..i], s[i + 1..];
      SplitAtFirstNewline(s);
      Reassembly(rest);
      var ls := RawLines(s);
      assert ls[0] == line && ls[1..] == RawLines(rest);
      assert Joined(ls) == line + "\n" + Joined(RawLines(rest));
      Regroup(line + "\n", Joined(RawLines(rest)), Remainder(rest));
    }
  }

  lemma Regroup(a: string, b: string, c: string)
    ensures (a + b) + c == a + (b + c)
  {
  }

  /** Joining distributes over concatenation. */
  lemma {:induction false} JoinedAppend(a: seq<string>, b: seq<string>)
    ensures Joined(a + b) == Joined(a) + Joined(b)
    decreases |a|
  {
    if a == [] {
      assert a + b == b;
    } else {
      JoinedAppend(a[1..], b);
      assert (a + b)[0] == a[0];
      assert (a + b)[1..] == a[1..] + b;
      calc {
        Joined(a + b);
        a[0] + "\n" + Joined(a[1..] + b);
        a[0] + "\n" + (Joined(a[1..]) + Joined(b));
        (a[0] + "\n" + Joined(a[1..])) + Joined(b);
      }
    }
  }

  /** Splitting inverts joining: lines without newlines come back unchanged. */
  lemma {:induction false} SplitJoined(lines: seq<string>, rest: string)
    requires NoNewlines(lines) && '\n' !in rest
    ensures RawLines(Joined(lines) + rest) == lines
    ensures Remainder(Joined(lines) + rest) == rest
    decreases |lines|
  {
    var s := Joined(lines) + rest;
    if lines != [] {
      var l := lines[0];
      var tail := Joined(lines[1..]) + rest;
      assert s == l + "\n" + tail;
      assert s[|l|] == '\n';
      assert s[..|l|] == l;
      FirstNewlineUnique(s, |l|);
      assert s[|l| + 1..] == tail;
      SplitJoined(lines[1..], rest);
      assert RawLines(s) == [l] + lines[1..];
    }
  }

  /**
   * Chunk boundaries do not matter: the lines of `s + t` are the lines of
   * `s` followed by the lines of what `s` left over with `t` appended.
   */
  lemma {:induction false} LinesOfConcat(s: string, t: string)
    ensures RawLines(s + t) == RawLines(s) + RawLines(Remainder(s) + t)
    ensures Remainder(s + t) == Remainder(Remainder(s) + t)
  {
    var l1, r1 := RawLines(s), Remainder(s);
    var l2, r2 := RawLines(r1 + t), Remainder(r1 + t);
    Reassembly(s);
    Reassembly(r1 + t);
    JoinedAppend(l1, l2);
    Regroup(Joined(l1), r1, t);
    Regroup(Joined(l1), Joined(l2), r2);
    assert s + t == Joined(l1 + l2) + r2;
    assert NoNewlines(l1 + l2) by {
      forall k | 0 <= k < |l1 + l2| ensures '\n' !in (l1 + l2)[k] {
        if k < |l1| { assert (l1 + l2)[k] == l1[k]; } else { assert (l1 + l2)[k] == l2[k - |l1|]; }
      }
    }
    SplitJoined(l1 + l2, r2);
  }

  // ---------------------------------------------------------------------------
  // Feeding chunks

  /**
   * Effects of the given raw lines, applied in order. Replaying keeps the
   * telemetry well formed, so nothing out of range is ever stored, and keeps
   * the log within its cap.
   */
  function Replay(s: Snapshot, lines: seq<string>, decode: JsonDecoder, now: Instant): (r: Snapshot)
    ensures WellFormed(s.telemetry) ==> WellFormed(r.telemetry)
    ensures |s.logs| <= LogCap ==> |r.logs| <= LogCap
    decreases |lines|
  {
    if lines == [] then s
    else
      var previous := Replay(s, lines[..|lines| - 1], decode, now);
      var e := LineEffect(lines[|lines| - 1], decode);
      assert WellFormed(s.telemetry) ==> WellFormed(Apply(previous, e, now).telemetry) by {
        if WellFormed(s.telemetry) { ApplyKeepsWellFormed(previous, e, now); }
      }
      Apply(previous, e, now)
  }

  /** Replaying one more line applies its effect to the state the earlier lines left. */
  lemma ReplaySnoc(s: Snapshot, lines: seq<string>, raw: string, decode: JsonDecoder, now: Instant)
    ensures Replay(s, lines + [raw], decode, now) == Apply(Replay(s, lines, decode, now), LineEffect(raw, decode), now)
  {
    assert (lines + [raw])[..|lines|] == lines;
  }

  lemma {:induction false} ReplayAppend(s: Snapshot, a: seq<string>, b: seq<string>, decode: JsonDecoder, now: Instant)
    ensures Replay(s, a + b, decode, now) == Replay(Replay(s, a, decode, now), b, decode, now)
    decreases |b|
  {
    if b != [] {
      assert (a + b)[..|a + b| - 1] == a + b[..|b| - 1];
      ReplayAppend(s, a, b[..|b| - 1], decode, now);
    } else {
      assert a + b == a;
    }
  }

  /** A line reader's state: the unterminated tail of the stream, and the published state. */
  datatype Reader = Reader(buffer: string, snapshot: Snapshot)

  /**
   * `handleIncomingText` as a function: the chunk is appended to the buffer,
   * every complete line is dispatched in order, and what follows the last
   * `\n` stays buffered.
   */
  function Feed(st: Reader, chunk: string, decode: JsonDecoder, now: Instant): (r: Reader)
    ensures '\n' !in r.buffer
  {
    var all := st.buffer + chunk;
    Reader(Remainder(all), Replay(st.snapshot, RawLines(all), decode, now))
  }

  /** Delivering a text in two chunks has the same effect as delivering it in one. */
  lemma {:induction false} FeedInTwoChunks(st: Reader, c1: string, c2: string, decode: JsonDecoder, now: Instant)
    ensures Feed(Feed(st, c1, decode, now), c2, decode, now) == Feed(st, c1 + c2, decode, now)
  {
    var all := st.buffer + c1;
    Regroup(st.buffer, c1, c2);
    LinesOfConcat(all, c2);
    var mid := Feed(st, c1, decode, now);
    assert mid == Reader(Remainder(all), Replay(st.snapshot, RawLines(all), decode, now));
    ReplayAppend(st.snapshot, RawLines(all), RawLines(Remainder(all) + c2), decode, now);
  }

  /** No line is dispatched before its terminator arrives: a chunk without `\n` only grows the buffer. */
  lemma {:induction false} NoDispatchWithoutTerminator(st: Reader, chunk: string, decode: JsonDecoder, now: Instant)
    requires '\n' !in st.buffer && '\n' !in chunk
    ensures Feed(st, chunk, decode, now) == Reader(st.buffer + chunk, st.snapshot)
  {
    var all := st.buffer + chunk;
    assert '\n' !in all by {
      forall k | 0 <= k < |all| ensures all[k] != '\n' {
        if k < |st.buffer| { assert all[k] == st.buffer[k]; } else { assert all[k] == chunk[k - |st.buffer|]; }
      }
    }
  }

  /**
   * A line split over two chunks: the first chunk, without a terminator, is
   * only buffered; the second completes it, and the joined line is
   * dispatched exactly once.
   */
  lemma {:induction false} SplitLineDispatchedOnce(first: string, second: string, decode: JsonDecoder, now: Instant, s: Snapshot)
    requires '\n' !in first && '\n' !in second
    ensures Feed(Feed(Reader([], s), first, decode, now), second + "\n", decode, now)
         == Reader([], Apply(s, LineEffect(first + second, decode), now))
  {
    NoDispatchWithoutTerminator(Reader([], s), first, decode, now);
    assert [] + first == first;
    var all := first + (second + "\n");
    assert all == Joined([first + second]) + [];
    assert NoNewlines([first + second]) by {
      assert '\n' !in first + second by {
        forall k | 0 <= k < |first + second| ensures (first + second)[k] != '\n' {
          if k < |first| { assert (first + second)[k] == first[k]; }
          else { assert (first + second)[k] == second[k - |first|]; }
        }
      }
    }
    SplitJoined([first + second], []);
    assert [first + second][..0] == [];
  }
}
