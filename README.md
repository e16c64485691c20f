# BLE control app — a Dafny model of its telemetry client

This project models the client side of the BLE control app for the Arduino Nano 33 BLE
Sense. The app talks to the board over a Nordic-UART-style service. It writes text commands
on the command (RX) characteristic. The board answers with newline-delimited JSON lines on
the telemetry (TX) characteristic.

The model covers three parts:

- **The Bluetooth worker** (`Worker.BluetoothWorker`, with the pure protocol in `Protocol`).
  This covers:
  - the session: search, discovery, connect, characteristic discovery and disconnect;
  - the four per-kind polling timers, each an optional period with no clock;
  - the log, capped at 500 entries;
  - the line decoder: it reassembles notification chunks into lines, trims them, sends
    each to the first parser whose `"type":"<kind>"` marker the line contains, and lets
    that parser update a sample or write one log entry.
- **The dashboard view model** (`Dashboard.DashboardViewModel`). This covers the per-kind
  stream toggles and intervals and how they drive the worker's timers, together with the
  mirrors of the worker's `connectedName`, `canSend` and `logs`.
- **The four sensor view models**, called signal conditioners here:
  - `EnvironmentConditioner`: comfort score, status and pressure trend.
  - `DistanceConditioner`: inverted proximity and its distance band.
  - `GyroConditioner`: level flag and level progress.
  - `AudioConditioner`: the loudness curve and its seven bands.

  Each of them smooths its input with an exponential moving average (`Smoothing.Ema`)
  and then classifies the smoothed value against thresholds.

Modelling choices:

- Swift `Double` is modelled as an exact `real`.
- `JSONDecoder` is a parameter `decode: (Tag, string) -> Option<Payload>`. It decodes one
  schema per parser, and every field of the schema is optional.
- `Date()` is a parameter `now`.
- `sqrt` and `pow` are function parameters. The model relies only on their ranges:
  - a non-negative argument has a non-negative root;
  - a base in [0,1] raised to a positive exponent stays in [0,1].
- Every `DispatchQueue.main.async` block runs immediately, in program order.
- Every Combine sink is a method, called once per published value.

Three behaviours of the code that a reader might not expect, and that the model keeps:

- `parseAudio` fills in defaults for missing fields. It does not drop the line as the
  other parsers do.
- The pressure trend waits for a positive previous smoothed pressure, not for a count of
  samples.
- The worker can send only when it knows a command characteristic. The converse does not
  hold: `didFailToConnect` clears `canSend` and keeps the characteristic.

## Model

All source paths are under `Sources/BLEControlApp/`.

| member | source | states |
|---|---|---|
| Common.Trim | Sources/BLEControlApp/BluetoothWorker.swift:249 | `trimmingCharacters(in:)`: the result is no longer than the input |
| Common.TrimOccurs | Sources/BLEControlApp/BluetoothWorker.swift:249 | the trimmed line is an infix of the raw line, starting where the leading blanks end |
| Common.TrimEnds | Sources/BLEControlApp/BluetoothWorker.swift:249 | a non-empty trimmed line neither starts nor ends with a character of the set |
| Common.TrimEmpty | Sources/BLEControlApp/BluetoothWorker.swift:249-251 | a line trims to empty, and is skipped, exactly when every character is whitespace or a newline |
| Common.ContainsIffOccurs | Sources/BLEControlApp/BluetoothWorker.swift:259 | the `contains` marker test holds exactly when the marker occurs at some offset of the line |
| Common.Contains | Sources/BLEControlApp/BluetoothWorker.swift:259 | `String.contains`: only a string at most as long as the line can be found, and the empty string is found everywhere |
| Common.DigitChar | Sources/BLEControlApp/BluetoothWorker.swift:140 | the digit character of `d` reads back as `d` |
| Common.NatToString | Sources/BLEControlApp/BluetoothWorker.swift:140 | decimal interpolation of a natural number: digits only, with no leading zero |
| Common.NatToStringValue | Sources/BLEControlApp/BluetoothWorker.swift:140 | the rendered digits read back as the number |
| Common.IntToString | Sources/BLEControlApp/BluetoothWorker.swift:140 | decimal interpolation of an interval: non-empty, with a leading `-` exactly for negative values |
| Common.IntToStringValue | Sources/BLEControlApp/BluetoothWorker.swift:140 | an integer's rendering reads back as its value: the whole string when non-negative, the digits after `-` when negative |
| Protocol.AppendBounded | Sources/BLEControlApp/BluetoothWorker.swift:353-356 | `appendLog`: the log holds at most 500 entries, the new entry is last, and the others are the newest earlier entries, in order |
| Protocol.AppendAllBounded | Sources/BLEControlApp/BluetoothWorker.swift:353-356 | any batch of appends keeps the log within the cap and never shortens it |
| Protocol.AppendAllConcat | Sources/BLEControlApp/BluetoothWorker.swift:353-356 | appending two batches one after the other is the same as appending their concatenation |
| Protocol.Marker | Sources/BLEControlApp/BluetoothWorker.swift:259 | the `"type":"<kind>"` literal each parser looks for is nine characters longer than the kind's name |
| Protocol.MarkerShape | Sources/BLEControlApp/BluetoothWorker.swift:259 | each marker is `"type":"`, then the kind's name, then a closing quote |
| Protocol.MarkerInjective | Sources/BLEControlApp/BluetoothWorker.swift:259-332 | two parsers have the same marker only if they are the same parser |
| Protocol.Classify | Sources/BLEControlApp/BluetoothWorker.swift:253 | the `\|\|` chain picks the first parser, in the fixed order gyroscope … audio, whose exact marker the line contains; it picks none exactly when no marker occurs |
| Protocol.ClampInt | Sources/BLEControlApp/BluetoothWorker.swift:277 | `max(lo, min(x, hi))` lies in [lo, hi], is `x` inside the range, and is the nearer bound outside it |
| Protocol.ClampUnit | Sources/BLEControlApp/BluetoothWorker.swift:337 | `min(max(x, 0), 1)` lies in [0,1] and is `x` inside it |
| Protocol.RoundHalfAwayFromZero | Sources/BLEControlApp/BluetoothWorker.swift:338 | `Double.rounded()`: within 1/2 of `x`, with halves going away from zero |
| Protocol.ProximityFraction | Sources/BLEControlApp/BluetoothWorker.swift:278 | `clamped / 255` lies in [0,1]; it is 0 exactly at 0 and 1 exactly at 255 |
| Protocol.AudioOf | Sources/BLEControlApp/BluetoothWorker.swift:337-339 | audio fields: rms defaults to 0 and is clamped to [0,1]; level defaults to the rounded rms percentage and is clamped to [0,100]; peak defaults to 0 and is clamped to [0,32767] |
| Protocol.Missing | Sources/BLEControlApp/BluetoothWorker.swift:264-325 | the `guard let` of each parser: the line is dropped exactly when one of its required fields (gyro x/y/z, proximity value, environment c/rh/hpa, or the single field of temperature, humidity, pressure) is absent; the audio parser never drops |
| Protocol.Interpret | Sources/BLEControlApp/BluetoothWorker.swift:258-343 | one `parse*` body: a decode failure gives exactly `<KIND> parse fail: line`; an `error` field gives exactly `<KIND> error: e`; a missing required field changes nothing; otherwise only that parser's own sample is written: gyro x/y/z, environment c/rh/hpa and the single temperature, humidity or pressure field exactly as decoded, proximity and audio clamped |
| Protocol.ParserEntriesAreNotUnrecognized | Sources/BLEControlApp/BluetoothWorker.swift:254-266 | no parser's log entry is the `RX <= line` entry of an unrecognised line |
| Protocol.LineEffect | Sources/BLEControlApp/BluetoothWorker.swift:249-254 | one raw line: blank after trimming does nothing; no marker logs `RX <= line`; otherwise the first matching parser alone handles the trimmed line |
| Protocol.UnrecognizedOnlyWithoutMarker | Sources/BLEControlApp/BluetoothWorker.swift:253-254 | a line is logged as `RX <= line` if and only if it is non-blank and matches no marker |
| Protocol.Apply | Sources/BLEControlApp/BluetoothWorker.swift:263-340 | a note appends one log entry and leaves the samples alone; an update stores its gyro sample, proximity value and fraction, environment field(s) or audio sample, sets that sample's timestamp to the update time, and leaves the log and every other sample alone |
| Protocol.EnvironmentMerges | Sources/BLEControlApp/BluetoothWorker.swift:290-326 | a temperature, humidity or pressure line replaces exactly its own field; an environment line replaces all three |
| Protocol.PartialUpdatesCommute | Sources/BLEControlApp/BluetoothWorker.swift:302-326 | single-field environment updates of different fields commute |
| Protocol.ThreePartialsMakeOneFull | Sources/BLEControlApp/BluetoothWorker.swift:290-326 | a temperature line, a humidity line and a pressure line together equal one environment line |
| Protocol.DecodedLineIsStored | Sources/BLEControlApp/BluetoothWorker.swift:249-343 | a line that reaches a parser, decodes without `error` and has the parser's required fields stores exactly the decoded numbers (proximity clamped, audio as `AudioOf`) with the update time as timestamp |
| Protocol.ApplyKeepsWellFormed | Sources/BLEControlApp/BluetoothWorker.swift:277-278 | applying an effect whose numbers are in range keeps proximity in [0,255], its fraction consistent, and audio in its ranges |
| Protocol.FirstNewline | Sources/BLEControlApp/BluetoothWorker.swift:248 | `firstIndex(of: "\n")`: a `\n` with none before it |
| Protocol.FirstNewlineUnique | Sources/BLEControlApp/BluetoothWorker.swift:248 | a `\n` with none before it is the first one |
| Protocol.Remainder | Sources/BLEControlApp/BluetoothWorker.swift:248-250 | what stays buffered contains no `\n` |
| Protocol.SplitAtFirstNewline | Sources/BLEControlApp/BluetoothWorker.swift:248-250 | taking the text before the first `\n` off the buffer yields the first line, and the rest of the buffer holds the remaining lines and the same remainder |
| Protocol.RawLines | Sources/BLEControlApp/BluetoothWorker.swift:248-250 | the lines the loop extracts, in order; none contains `\n` |
| Protocol.LineCount | Sources/BLEControlApp/BluetoothWorker.swift:248-250 | one line is extracted per `\n` in the buffer |
| Protocol.Reassembly | Sources/BLEControlApp/BluetoothWorker.swift:247-250 | the extracted lines, each followed by `\n`, and then the remainder give back the buffer exactly |
| Protocol.JoinedAppend | Sources/BLEControlApp/BluetoothWorker.swift:247-250 | writing lines back with terminators distributes over concatenation |
| Protocol.SplitJoined | Sources/BLEControlApp/BluetoothWorker.swift:247-250 | splitting inverts joining: terminated lines plus a tail without `\n` split back into the same lines and tail |
| Protocol.LinesOfConcat | Sources/BLEControlApp/BluetoothWorker.swift:247-250 | the lines of `s + t` are the lines of `s` followed by those of `s`'s remainder with `t` appended |
| Protocol.Replay | Sources/BLEControlApp/BluetoothWorker.swift:246-343 | dispatching lines in order never stores an out-of-range proximity or audio value and keeps the log within its cap |
| Protocol.ReplaySnoc | Sources/BLEControlApp/BluetoothWorker.swift:248-255 | dispatching one more line applies its effect to the state the earlier lines left |
| Protocol.ReplayAppend | Sources/BLEControlApp/BluetoothWorker.swift:248-255 | dispatching two batches of lines is dispatching their concatenation |
| Protocol.Feed | Sources/BLEControlApp/BluetoothWorker.swift:246-256 | after a chunk is handled, the buffer holds no `\n` |
| Protocol.FeedInTwoChunks | Sources/BLEControlApp/BluetoothWorker.swift:246-256 | delivering a text in two chunks has the same effect, on the buffer and the state, as delivering it in one |
| Protocol.NoDispatchWithoutTerminator | Sources/BLEControlApp/BluetoothWorker.swift:246-256 | a chunk without `\n` only grows the buffer; nothing is dispatched |
| Protocol.SplitLineDispatchedOnce | Sources/BLEControlApp/BluetoothWorker.swift:246-256 | a line split over two chunks is dispatched once, as the joined line, when its terminator arrives |
| Worker.PeriodMs | Sources/BLEControlApp/BluetoothWorker.swift:142 | `max(min, intervalMs)`: at least the kind's floor (30/40/150/50 ms) and at least the request, and one of the two |
| Worker.InsertByRssi | Sources/BLEControlApp/BluetoothWorker.swift:199 | inserting into a strongest-first list keeps it strongest-first, adds exactly that device and keeps every other |
| Worker.SortedDevices | Sources/BLEControlApp/BluetoothWorker.swift:199 | `discovered.values.sorted { $0.rssi > $1.rssi }`: exactly the table's values, as many as the table has entries, strongest signal first |
| Worker.FindCharacteristics | Sources/BLEControlApp/BluetoothWorker.swift:234 | the scan over a discovery report finds the command characteristic exactly when it is reported, and the same for the telemetry characteristic |
| Worker.ConsumeLine | Sources/BLEControlApp/BluetoothWorker.swift:248-250 | taking the first line off the buffer moves it from the pending lines to the dispatched ones |
| Worker.BluetoothWorker.constructor | Sources/BLEControlApp/BluetoothWorker.swift:41-80 | starts with no devices, an empty log, no session, zero samples, no timers and an empty buffer, with the invariant established |
| Worker.BluetoothWorker.AppendLog | Sources/BLEControlApp/BluetoothWorker.swift:353-356 | the new log is `AppendBounded` of the old one |
| Worker.BluetoothWorker.ClearLogs | Sources/BLEControlApp/BluetoothWorker.swift:89-93 | the log is empty |
| Worker.BluetoothWorker.Search | Sources/BLEControlApp/BluetoothWorker.swift:95-105 | with the radio off, only `Bluetooth is not ready.` is logged; with it on, the devices and the table are cleared, scanning starts and `Scanning...` is logged; the list keeps matching the table |
| Worker.BluetoothWorker.StopSearch | Sources/BLEControlApp/BluetoothWorker.swift:107-111 | scanning stops and `Scan stopped.` is logged |
| Worker.BluetoothWorker.Connect | Sources/BLEControlApp/BluetoothWorker.swift:113-119 | stops scanning, logs both entries in order and remembers the peripheral |
| Worker.BluetoothWorker.DidUpdateState | Sources/BLEControlApp/BluetoothWorker.swift:189-194 | readiness is exactly "powered on", and the state is logged |
| Worker.BluetoothWorker.DidDiscover | Sources/BLEControlApp/BluetoothWorker.swift:196-200 | the table keeps the last report per identifier, named `Unknown` when nameless; the list stays the table sorted strongest first, and grows only for a new identifier |
| Worker.BluetoothWorker.DidConnect | Sources/BLEControlApp/BluetoothWorker.swift:202-205 | the connected name is the peripheral's name or `Unknown`, and it is logged |
| Worker.BluetoothWorker.DidFailToConnect | Sources/BLEControlApp/BluetoothWorker.swift:207-209 | logs the failure and cannot send |
| Worker.BluetoothWorker.DidDiscoverServices | Sources/BLEControlApp/BluetoothWorker.swift:225-229 | an error is logged; otherwise nothing observable changes |
| Worker.BluetoothWorker.DidDiscoverCharacteristics | Sources/BLEControlApp/BluetoothWorker.swift:231-237 | on error only a log entry; with a report, the characteristics found are remembered (earlier ones kept), `Notify enabled.` is logged when a telemetry characteristic is known, and `canSend` is exactly "a command characteristic is known" |
| Worker.BluetoothWorker.Send | Sources/BLEControlApp/BluetoothWorker.swift:345-351 | with a peripheral and a command characteristic the text is written once, and logged trimmed of newlines if asked; otherwise nothing is written and `Not connected.` is logged if asked |
| Worker.BluetoothWorker.LedOn | Sources/BLEControlApp/BluetoothWorker.swift:130 | writes `LED ON\n` exactly when sending is possible, and logs `TX => LED ON` then, `Not connected.` otherwise |
| Worker.BluetoothWorker.LedOff | Sources/BLEControlApp/BluetoothWorker.swift:131 | writes `LED OFF\n` exactly when sending is possible, and logs `TX => LED OFF` then, `Not connected.` otherwise |
| Worker.BluetoothWorker.Ping | Sources/BLEControlApp/BluetoothWorker.swift:132 | writes `PING\n` exactly when sending is possible, and logs `TX => PING` then, `Not connected.` otherwise |
| Worker.BluetoothWorker.RequestOnce | Sources/BLEControlApp/BluetoothWorker.swift:134-135 | writes `ENV\n` or `AUDIO\n` exactly when sending is possible, and logs `TX => ENV`/`TX => AUDIO` then, `Not connected.` otherwise |
| Worker.BluetoothWorker.StartStreaming | Sources/BLEControlApp/BluetoothWorker.swift:137-185 | without `canSend` only `No connection for <KIND>.` is logged; with a timer already running nothing changes; otherwise one timer with period `max(min, interval)` and `<Kind> stream ON (<n>ms)`; other kinds untouched |
| Worker.BluetoothWorker.StopStreaming | Sources/BLEControlApp/BluetoothWorker.swift:148-187 | clears only its own timer and logs `<Kind> stream OFF` exactly when one was running |
| Worker.BluetoothWorker.StopAllStreaming | Sources/BLEControlApp/BluetoothWorker.swift:82-87 | all four timers absent; one OFF entry per running timer, gyroscope first |
| Worker.BluetoothWorker.TimerFired | Sources/BLEControlApp/BluetoothWorker.swift:143 | a tick writes its kind's poll command (`GIROSCOPE\n`, `PROXIMITY\n`, `ENV\n`, `AUDIO\n`) without logging |
| Worker.BluetoothWorker.Disconnect | Sources/BLEControlApp/BluetoothWorker.swift:121-128 | all four timers absent, with one OFF entry per timer that was running |
| Worker.BluetoothWorker.DidDisconnect | Sources/BLEControlApp/BluetoothWorker.swift:211-223 | logs `Disconnected.`, then no name, no characteristics, cannot send, and all four timers absent |
| Worker.BluetoothWorker.Publish | Sources/BLEControlApp/BluetoothWorker.swift:48-59 | the published telemetry is exactly the given one |
| Worker.BluetoothWorker.Perform | Sources/BLEControlApp/BluetoothWorker.swift:263-340 | the observable state becomes `Apply` of the old one, and the telemetry stays in range |
| Worker.BluetoothWorker.ParseLine | Sources/BLEControlApp/BluetoothWorker.swift:258-343 | a parser claims the line exactly when its marker occurs; a claimed line is handled by `Interpret` and an unclaimed one changes nothing |
| Worker.BluetoothWorker.DispatchLine | Sources/BLEControlApp/BluetoothWorker.swift:249-254 | the imperative `\|\|` chain with its fallback has exactly the effect `LineEffect` specifies |
| Worker.BluetoothWorker.HandleIncomingText | Sources/BLEControlApp/BluetoothWorker.swift:246-256 | the buffer and observable state after the loop are exactly `Feed` of the old ones: every complete line dispatched in order, no `\n` left buffered |
| Worker.BluetoothWorker.DidUpdateValue | Sources/BLEControlApp/BluetoothWorker.swift:239-244 | text goes to the line decoder; a read error or binary data only adds its log entry; a missing value changes nothing |
| Dashboard.DashboardViewModel.constructor | Sources/BLEControlApp/DashboardViewModel.swift:14-43 | no toggle on, default intervals 80/120/500/120 ms, empty log mirror |
| Dashboard.DashboardViewModel.SetStreaming | Sources/BLEControlApp/DashboardViewModel.swift:35-38 | sets exactly one kind's toggle |
| Dashboard.DashboardViewModel.OnConnectedNameChanged | Sources/BLEControlApp/DashboardViewModel.swift:84-98 | mirrors the name; a nil name turns all four toggles off, and a name leaves them unchanged |
| Dashboard.DashboardViewModel.OnCanSendChanged | Sources/BLEControlApp/DashboardViewModel.swift:100-102 | mirrors `canSend` |
| Dashboard.DashboardViewModel.OnLogsChanged | Sources/BLEControlApp/DashboardViewModel.swift:72-74 | mirrors the worker's log |
| Dashboard.DashboardViewModel.ClearLogsFallback | Sources/BLEControlApp/DashboardViewModel.swift:225-227 | empties the local mirror only; the worker's log is outside its frame |
| Dashboard.DashboardViewModel.ToggleStream | Sources/BLEControlApp/DashboardViewModel.swift:161-187 | the toggle always follows the user; without the mirrored `canSend` the worker is untouched; otherwise its timer is stopped, logging OFF only if it ran, or started as `StartStreaming` does, logging `No connection for <KIND>.`, nothing, or `<Kind> stream ON (<n>ms)`; other kinds untouched |
| Dashboard.DashboardViewModel.ApplyInterval | Sources/BLEControlApp/DashboardViewModel.swift:189-211 | nothing unless the mirror can send and the kind is toggled on; then exactly one timer with the current interval remains, or none if the worker itself cannot send; the log gains the OFF entry if a timer ran, then the ON entry or `No connection for <KIND>.` |
| Dashboard.DashboardViewModel.StopAllStreams | Sources/BLEControlApp/DashboardViewModel.swift:213-223 | all toggles off and all four worker timers absent, one OFF entry per running timer |
| Dashboard.DashboardViewModel.Disconnect | Sources/BLEControlApp/DashboardViewModel.swift:152-155 | stop-all, then the worker's disconnect: everything off, and each running stream is logged as stopped exactly once |
| Smoothing.Scale | Sources/BLEControlApp/EnvironmentViewModel.swift:50 | `d * alpha` for alpha in [0,1] keeps the sign of `d` and does not exceed it |
| Smoothing.Ema | Sources/BLEControlApp/EnvironmentViewModel.swift:50-52 | `s += (x - s) * alpha`: the new value lies between `s` and `x`, its gap to `x` shrinks by `1 - alpha`, and with alpha > 0 it stays put only when `s == x` |
| EnvironmentConditioner.HpaToMmHg | Sources/BLEControlApp/EnvironmentViewModel.swift:75-77 | ×0.750061683 takes a non-negative pressure to a smaller non-negative one |
| EnvironmentConditioner.HpaToMmHgMonotone | Sources/BLEControlApp/EnvironmentViewModel.swift:75-77 | the conversion keeps the order of pressures |
| EnvironmentConditioner.HpaToMmHgAdditive | Sources/BLEControlApp/EnvironmentViewModel.swift:75-77 | the conversion is linear: sums and differences of pressures convert term by term |
| EnvironmentConditioner.ComfortScore | Sources/BLEControlApp/EnvironmentViewModel.swift:79-83 | `computeComfort` lies in [0,1] and is 1 exactly at 23 °C and 50 % |
| EnvironmentConditioner.ComfortTemperatureMonotone | Sources/BLEControlApp/EnvironmentViewModel.swift:79-83 | a temperature closer to 23 °C never scores lower |
| EnvironmentConditioner.ComfortHumidityMonotone | Sources/BLEControlApp/EnvironmentViewModel.swift:79-83 | a humidity closer to 50 % never scores lower |
| EnvironmentConditioner.ComfortFloor | Sources/BLEControlApp/EnvironmentViewModel.swift:79-83 | both penalties at their cap give score 0 |
| EnvironmentConditioner.StatusOf | Sources/BLEControlApp/EnvironmentViewModel.swift:85-92 | `computeStatus`: Comfortable iff ≥ 0.85, Acceptable iff in [0.65, 0.85), Attention iff in [0.40, 0.65), Uncomfortable iff < 0.40 |
| EnvironmentConditioner.StatusMonotone | Sources/BLEControlApp/EnvironmentViewModel.swift:85-92 | a higher score never yields a worse status |
| EnvironmentConditioner.TrendOf | Sources/BLEControlApp/EnvironmentViewModel.swift:94-103 | Stable while the previous pressure is ≤ 0; otherwise Rising iff the change is > 0.12 and Falling iff it is < -0.12, so ±0.12 is Stable |
| EnvironmentConditioner.TrendFromReading | Sources/BLEControlApp/EnvironmentViewModel.swift:52-59 | after smoothing, a trend shows iff the reading differs from the smoothed pressure by more than 0.8 hPa |
| EnvironmentConditioner.WarmUpReadsRising | Sources/BLEControlApp/EnvironmentViewModel.swift:27-59 | starting from 0, the first reading is Stable and a second equal reading above 0.95 hPa reads Rising |
| EnvironmentConditioner.EnvironmentViewModel.constructor | Sources/BLEControlApp/EnvironmentViewModel.swift:11-27 | all readings 0, status `No reading`, trend Stable |
| EnvironmentConditioner.EnvironmentViewModel.ComputePressureTrend | Sources/BLEControlApp/EnvironmentViewModel.swift:94-103 | the verdict is `TrendOf` the remembered pressure, and the memory becomes the current pressure on every path |
| EnvironmentConditioner.EnvironmentViewModel.OnSample | Sources/BLEControlApp/EnvironmentViewModel.swift:43-60 | copies the reading, moves each smoothed value towards its own reading only, and sets the status of the comfort of the smoothed values and the trend of the smoothed pressure; keeps the invariant |
| EnvironmentConditioner.EnvironmentViewModel.PressureMmHg | Sources/BLEControlApp/EnvironmentViewModel.swift:75-77 | the smoothed pressure in mmHg is at most the pressure in hPa, and non-negative |
| DistanceConditioner.UiNormalized | Sources/BLEControlApp/DistanceViewModel.swift:49-52 | clamp then invert: in [0,1], the complement inside the unit interval, 1 below it and 0 above it |
| DistanceConditioner.UiNormalizedTwice | Sources/BLEControlApp/DistanceViewModel.swift:49-52 | inverting twice gives back the clamped fraction |
| DistanceConditioner.UiNormalizedAntitone | Sources/BLEControlApp/DistanceViewModel.swift:49-52 | a higher reading never shows higher |
| DistanceConditioner.BandOf | Sources/BLEControlApp/DistanceViewModel.swift:61-68 | Far iff < 0.20, Medium iff in [0.20, 0.60), Very close iff ≥ 0.60 |
| DistanceConditioner.BandMonotone | Sources/BLEControlApp/DistanceViewModel.swift:61-68 | a higher smoothed value never names a farther band |
| DistanceConditioner.DistanceViewModel.constructor | Sources/BLEControlApp/DistanceViewModel.swift:12-16 | zero values and `No reading` |
| DistanceConditioner.DistanceViewModel.OnSample | Sources/BLEControlApp/DistanceViewModel.swift:43-69 | copies the raw value, shows the inverted fraction, smooths it, and names the band of the smoothed fraction; both fractions stay in [0,1] |
| GyroConditioner.Progress | Sources/BLEControlApp/GiroscopeViewModel.swift:47-48 | `levelProgress` lies in [0,1], is 1 with no tilt and 0 from a tilt of 1.80 on |
| GyroConditioner.ProgressAntitone | Sources/BLEControlApp/GiroscopeViewModel.swift:47-48 | more tilt never shows more progress |
| GyroConditioner.LevelIffProgress | Sources/BLEControlApp/GiroscopeViewModel.swift:46-48 | for a non-negative tilt, `isLevel` holds iff the progress is at least 17/18 |
| GyroConditioner.LevelIffWithinRadius | Sources/BLEControlApp/GiroscopeViewModel.swift:45-46 | with a true square root, level iff the smoothed x and y lie within radius 0.10 |
| GyroConditioner.SquareMonotone | Sources/BLEControlApp/GiroscopeViewModel.swift:45-46 | for non-negative numbers, squaring keeps and reflects the order |
| GyroConditioner.TiltNonNegative | Sources/BLEControlApp/GiroscopeViewModel.swift:45 | the tilt is never negative |
| GyroConditioner.GiroscopeViewModel.constructor | Sources/BLEControlApp/GiroscopeViewModel.swift:13-17 | level, with progress 1 |
| GyroConditioner.GiroscopeViewModel.OnSample | Sources/BLEControlApp/GiroscopeViewModel.swift:39-49 | each axis moves towards its own reading; the flag and the progress depend on the x and y axes only; the flag agrees with the progress |
| AudioConditioner.PreBoost | Sources/BLEControlApp/EnvironmentAudioViewModel.swift:63-64 | the pre-boosted level lies in [0,100] |
| AudioConditioner.PeakNorm | Sources/BLEControlApp/EnvironmentAudioViewModel.swift:69 | in [0,1], and exactly `peak / 32767` for a peak in range |
| AudioConditioner.Fuse | Sources/BLEControlApp/EnvironmentAudioViewModel.swift:71 | at most 1; for fractions in [0,1] it is the 0.62/0.38 weighted sum and lies between them |
| AudioConditioner.Denoise | Sources/BLEControlApp/EnvironmentAudioViewModel.swift:74 | never negative, 0 up to the noise floor, at most 1 for inputs at most 1, and 1 maps to 1 |
| AudioConditioner.Gain | Sources/BLEControlApp/EnvironmentAudioViewModel.swift:75 | at most 1; never lowers a non-negative value below `min(d, 1)`; 1 from 1/3.2 on |
| AudioConditioner.GammaCurve | Sources/BLEControlApp/EnvironmentAudioViewModel.swift:78 | keeps [0,1] |
| AudioConditioner.LowBoost | Sources/BLEControlApp/EnvironmentAudioViewModel.swift:81-84 | never lowers a value in [0,1] and strictly lifts every value strictly inside it |
| AudioConditioner.LowBoostKeepsEnds | Sources/BLEControlApp/EnvironmentAudioViewModel.swift:81-84 | 0 maps to 0 and 1 maps to 1 |
| AudioConditioner.LowBoostOvershoots | Sources/BLEControlApp/EnvironmentAudioViewModel.swift:84-85 | `LowBoost(0.976) > 1`, so the clamp after it is needed |
| AudioConditioner.SoftKnee | Sources/BLEControlApp/EnvironmentAudioViewModel.swift:88-91 | unchanged up to 0.86; above it strictly lower but still above 0.86; at most 0.951 for inputs at most 1 |
| AudioConditioner.SoftKneeStrictlyMonotone | Sources/BLEControlApp/EnvironmentAudioViewModel.swift:88-91 | the knee keeps the order strictly |
| AudioConditioner.DisplayLevel | Sources/BLEControlApp/EnvironmentAudioViewModel.swift:93 | in [0,100], exactly `x * 100` for `x` in [0,1] |
| AudioConditioner.Curve | Sources/BLEControlApp/EnvironmentAudioViewModel.swift:69-91 | the whole curve lands in [0, 0.951] |
| AudioConditioner.LoudnessBelowFull | Sources/BLEControlApp/EnvironmentAudioViewModel.swift:69-93 | the shown loudness never exceeds 95.1 |
| AudioConditioner.SilenceShowsZero | Sources/BLEControlApp/EnvironmentAudioViewModel.swift:69-93 | a zero peak and a zero smoothed level show 0 when the power function sends 0 to 0 |
| AudioConditioner.Classify | Sources/BLEControlApp/EnvironmentAudioViewModel.swift:108-118 | seven contiguous bands: for each edge 12, 24, 38, 54, 70, 86, the level is at or above it iff the band ranks at or above it |
| AudioConditioner.ClassifyMonotone | Sources/BLEControlApp/EnvironmentAudioViewModel.swift:108-118 | a louder level never names a quieter band |
| AudioConditioner.EnvironmentAudioViewModel.constructor | Sources/BLEControlApp/EnvironmentAudioViewModel.swift:12-18 | zero values and `Silent` |
| AudioConditioner.EnvironmentAudioViewModel.OnSample | Sources/BLEControlApp/EnvironmentAudioViewModel.swift:56-96 | copies the sample; smooths the pre-boosted level and the rms; the shown loudness is the curve of the peak and the new smoothed level, and the band is that of the shown loudness; keeps the smoothed level in [0,100] and the display in [0, 95.1] |

## Left out

- CoreBluetooth is not modelled: the central and peripheral objects, scanning options, service discovery, `setNotifyValue`, `writeValue` and the choice of write type. Callbacks are methods whose parameters carry what the callback delivers. A peripheral is its identifier. A write is an entry appended to `sent`.
- Concurrency is not modelled: `DispatchQueue.main.async` hops, the timer event handlers on a global queue, and Combine's delivery. Each callback and each sink is one sequential state update.
- Timers have no clock. A running timer is the period it was scheduled with, and a tick is `TimerFired`.
- `JSONDecoder` is a foreign library. It is a parameter from a schema and a line to an optional payload. Type mismatches inside the JSON are whatever that parameter makes of them.
- `Date()` is a parameter. `DateFormatter` and the `String(format:)` texts are not modelled: `lastUpdateText`, `lastGyroText`, `proximityPercentText`, `distancePercentText`, and the temperature, humidity, pressure and audio texts.
- The `devices`, `isScanning` and `isBluetoothReady` mirrors of the dashboard are not modelled, and neither are its sample mirrors. They are plain assignments that drive only views.
- The numerics of `sqrt` and `pow` are parameters. The model relies only on their ranges. Floating-point rounding, NaN and infinities are not modelled, because Double is an exact real.
- `Protocol.FirstNewline`, `Protocol.RawLines`, `Protocol.Feed`, `Worker.BluetoothWorker.HandleIncomingText`, `Common.Contains` and `Protocol.Classify` work on Unicode scalars; the line-splitting members split at every `\n` scalar. Swift strings are sequences of grapheme clusters, and `"\r\n"` is a single Character that is not `"\n"`, so `firstIndex(of: "\n")` never finds the terminator of a CRLF-terminated line. On CRLF input the program therefore never dispatches a line and its buffer grows without bound, while the model dispatches every line. In the same way, `String.contains` compares Characters, so a marker whose closing quote is followed by a combining mark does not match in the program but matches in `Common.Contains` and `Protocol.Classify`.
- The dashboard's forwarding methods are not modelled: `search`, `stopSearch`, `connect`, `ledOn` and `ledOff`, which only call the worker. The same holds for each sensor view model's `startStreaming`/`stopStreaming`, which call the worker with the default interval.
- The `combineLatest` wiring of the distance view model is not modelled. It can invoke the sink more than once per sample, for example once for the value and once for the fraction. `DistanceConditioner.DistanceViewModel.OnSample` models one invocation of the sink.
- `EnvironmentConditioner.EnvironmentViewModel.Valid` ties the score to the smoothed readings only once a reading has arrived. Before that the score is the initial 0, which `ComfortFloor` shows is also the score of the initial readings.
- The SwiftUI views, the app's object wiring and the package manifest are not part of this model.
