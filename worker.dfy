/**
 * The Bluetooth worker: the session with one peripheral (scan, connect,
 * characteristic discovery, disconnect), the four per-kind polling timers,
 * the bounded log, and the line decoder fed by notifications.
 *
 * CoreBluetooth calls are not modelled; each delegate callback is a method
 * whose parameters carry what the callback delivers, and every
 * `DispatchQueue.main.async` block runs at once, in program order. A timer
 * is the period it was scheduled with; time itself is not modelled.
 */
module Worker {
  import opened Common
  import opened Protocol

  // ---------------------------------------------------------------------------
  // Streams

  /** The four polled telemetry kinds, each with its own timer. */
  datatype StreamKind = GyroStream | ProximityStream | EnvironmentStream | AudioStream

  /** The floor on a timer's period, in milliseconds. */
  function MinPeriodMs(k: StreamKind): nat {
    match k
    case GyroStream => 30
    case ProximityStream => 40
    case EnvironmentStream => 150
    case AudioStream => 50
  }

  /** The interval a `start*Streaming` call uses when none is given. */
  function DefaultIntervalMs(k: StreamKind): int {
    match k
    case GyroStream => 80
    case ProximityStream => 120
    case EnvironmentStream => 500
    case AudioStream => 120
  }

  /** The command each tick writes. The gyroscope command is spelled GIROSCOPE on the wire. */
  function PollCommand(k: StreamKind): string {
    match k
    case GyroStream => "GIROSCOPE\n"
    case ProximityStream => "PROXIMITY\n"
    case EnvironmentStream => "ENV\n"
    case AudioStream => "AUDIO\n"
  }

  /** The name in the "No connection for ..." entry. */
  function CommandName(k: StreamKind): string {
    match k
    case GyroStream => "GYROSCOPE"
    case ProximityStream => "PROXIMITY"
    case EnvironmentStream => "ENV"
    case AudioStream => "AUDIO"
  }

  /** The name in the "... stream ON/OFF" entries. */
  function StreamLabel(k: StreamKind): string {
    match k
    case GyroStream => "Gyro"
    case ProximityStream => "Proximity"
    case EnvironmentStream => "Environment"
    case AudioStream => "Audio"
  }

  /** `max(min, intervalMs)`: the requested interval, raised to the kind's floor. */
  function PeriodMs(k: StreamKind, intervalMs: int): (p: nat)
    ensures p >= MinPeriodMs(k) && p >= intervalMs
    ensures p == MinPeriodMs(k) || p == intervalMs
  {
    if intervalMs > MinPeriodMs(k) then intervalMs else MinPeriodMs(k)
  }

  function StreamOnEntry(k: StreamKind, intervalMs: int): string {
    StreamLabel(k) + " stream ON (" + IntToString(intervalMs) + "ms)"
  }

  function StreamOffEntry(k: StreamKind): string {
    StreamLabel(k) + " stream OFF"
  }

  function NoConnectionEntry(k: StreamKind): string {
    "No connection for " + CommandName(k) + "."
  }

  /** The entry a stop call writes: one line if the timer was running, none otherwise. */
  function OffEntries(k: StreamKind, timer: Option<nat>): seq<string> {
    if timer.Some? then [StreamOffEntry(k)] else []
  }

  // ---------------------------------------------------------------------------
  // Discovered devices

  /** A peripheral's stable identifier. */
  datatype Uuid = Uuid(bits: nat)

  /** A discovered peripheral: its identifier, display name and signal strength. */
  datatype Device = Device(id: Uuid, name: string, rssi: int)

  /** Strongest signal first. */
  predicate ByRssi(s: seq<Device>) {
    forall i, j :: 0 <= i < j < |s| ==> s[i].rssi >= s[j].rssi
  }

  /** Every entry of the discovery table is stored under its own identifier. */
  predicate KeyedById(m: map<Uuid, Device>) {
    forall id :: id in m ==> m[id].id == id
  }

  /** `devices` is the discovery table's values, strongest first. */
  ghost predicate ListsTable(devices: seq<Device>, m: map<Uuid, Device>) {
    && ByRssi(devices)
    && |devices| == |m|
    && forall d :: d in devices <==> d.id in m && m[d.id] == d
  }

  /** Inserts a device before the first one whose signal is not stronger. */
  function InsertByRssi(s: seq<Device>, d: Device): (r: seq<Device>)
    requires ByRssi(s)
    ensures ByRssi(r)
    ensures |r| == |s| + 1
    ensures forall x :: x in r <==> x in s || x == d
  {
    if s == [] || d.rssi >= s[0].rssi then [d] + s
    else
      var rest := InsertByRssi(s[1..], d);
      assert s == [s[0]] + s[1..];
      assert forall k :: 0 <= k < |rest| ==> rest[k].rssi <= s[0].rssi by {
        forall k | 0 <= k < |rest| ensures rest[k].rssi <= s[0].rssi {
          if rest[k] != d {
            assert rest[k] in rest;
            assert rest[k] in s[1..];
            var j :| 0 <= j < |s[1..]| && s[1..][j] == rest[k];
            assert s[j + 1] == rest[k];
          }
        }
      }
      [s[0]] + rest
  }

  /**
   * `discovered.values.sorted { $0.rssi > $1.rssi }`: the values of the
   * discovery table, strongest signal first. Devices of equal strength may
   * come in any order, as with Swift's unstable sort.
   */
  method SortedDevices(m: map<Uuid, Device>) returns (r: seq<Device>)
    requires KeyedById(m)
    ensures ListsTable(r, m)
  {
    r := [];
    var pending := m.Keys;
    ghost var done: set<Uuid> := {};
    while pending != {}
      invariant pending + done == m.Keys && pending !! done
      invariant ByRssi(r) && |r| == |done|
      invariant forall d :: d in r <==> d.id in done && m[d.id] == d
      decreases pending
    {
      var id :| id in pending;
      r := InsertByRssi(r, m[id]);
      pending := pending - {id};
      done := done + {id};
    }
    assert m.Keys == done;
  }

  // ---------------------------------------------------------------------------
  // What callbacks deliver

  /** A characteristic reported by the Nordic UART service. */
  datatype Characteristic = RxCharacteristic | TxCharacteristic | OtherCharacteristic

  /** A value notification on the telemetry characteristic. */
  datatype Notification =
    | ReadError(message: string)   // the callback's `error`
    | NoValue                      // `characteristic.value` was nil
    | Utf8(text: string)           // the bytes decoded as UTF-8
    | Binary(byteCount: nat)       // the bytes were not valid UTF-8

  /** `CBManagerState.poweredOn.rawValue`. */
  const PoweredOnState := 5

  /** Sending needs a command characteristic. */
  predicate SessionInvariant(canSend: bool, hasRxChar: bool) {
    canSend ==> hasRxChar
  }

  /** No running timer is faster than its kind's floor. */
  predicate TimersInvariant(gyro: Option<nat>, proximity: Option<nat>, environment: Option<nat>, audio: Option<nat>) {
    && (gyro.Some? ==> gyro.value >= MinPeriodMs(GyroStream))
    && (proximity.Some? ==> proximity.value >= MinPeriodMs(ProximityStream))
    && (environment.Some? ==> environment.value >= MinPeriodMs(EnvironmentStream))
    && (audio.Some? ==> audio.value >= MinPeriodMs(AudioStream))
  }

  class BluetoothWorker {
    // Published state
    var devices: seq<Device>
    var logs: BoundedLog
    var isScanning: bool
    var isBluetoothReady: bool
    var connectedName: Option<string>
    var canSend: bool

    var gyroSample: GyroSample
    var lastGyroAt: Option<Instant>
    var proximityValue: int
    var proximityNormalized: real
    var lastProximityAt: Option<Instant>
    var environmentSample: EnvironmentSample
    var lastEnvironmentAt: Option<Instant>
    var audioSample: AudioSample
    var lastAudioAt: Option<Instant>

    // Session
    var discovered: map<Uuid, Device>
    var currentPeripheral: Option<Uuid>
    var hasRxChar: bool
    var hasTxChar: bool

    // Timers: the period each was scheduled with, or None when not running
    var gyroTimer: Option<nat>
    var proximityTimer: Option<nat>
    var environmentTimer: Option<nat>
    var audioTimer: Option<nat>

    var rxLineBuffer: string

    /** Everything written to the command characteristic, oldest first. */
    var sent: seq<string>

    function Published(): Telemetry
      reads this`gyroSample, this`lastGyroAt, this`proximityValue, this`proximityNormalized,
        this`lastProximityAt, this`environmentSample, this`lastEnvironmentAt, this`audioSample, this`lastAudioAt
    {
      Telemetry(gyroSample, lastGyroAt, proximityValue, proximityNormalized, lastProximityAt,
                environmentSample, lastEnvironmentAt, audioSample, lastAudioAt)
    }

    function Observed(): Snapshot
      reads this`logs, this`gyroSample, this`lastGyroAt, this`proximityValue, this`proximityNormalized,
        this`lastProximityAt, this`environmentSample, this`lastEnvironmentAt, this`audioSample, this`lastAudioAt
    {
      Snapshot(Published(), logs)
    }

    function Timer(k: StreamKind): Option<nat>
      reads this`gyroTimer, this`proximityTimer, this`environmentTimer, this`audioTimer
    {
      match k
      case GyroStream => gyroTimer
      case ProximityStream => proximityTimer
      case EnvironmentStream => environmentTimer
      case AudioStream => audioTimer
    }

    /** Sending needs a command characteristic. */
    ghost predicate SessionValid()
      reads this`canSend, this`hasRxChar
    {
      SessionInvariant(canSend, hasRxChar)
    }

    /** The stored samples are in their clamped ranges. */
    ghost predicate TelemetryValid()
      reads this`gyroSample, this`lastGyroAt, this`proximityValue, this`proximityNormalized,
        this`lastProximityAt, this`environmentSample, this`lastEnvironmentAt, this`audioSample, this`lastAudioAt
    {
      WellFormed(Published())
    }

    /** Between chunks no complete line waits in the buffer. */
    ghost predicate BufferValid()
      reads this`rxLineBuffer
    {
      '\n' !in rxLineBuffer
    }

    /** No timer runs faster than its kind's floor. */
    ghost predicate TimersValid()
      reads this`gyroTimer, this`proximityTimer, this`environmentTimer, this`audioTimer
    {
      TimersInvariant(gyroTimer, proximityTimer, environmentTimer, audioTimer)
    }

    /** The device list is the discovery table, strongest first. */
    ghost predicate TableValid()
      reads this`discovered, this`devices
    {
      KeyedById(discovered) && ListsTable(devices, discovered)
    }

    /**
     * The worker's invariant. Each method requires and ensures the parts
     * over the fields it writes; its `modifies` frame keeps the others.
     */
    ghost predicate Valid()
      reads this`canSend, this`hasRxChar, this`rxLineBuffer, this`discovered, this`devices,
        this`gyroTimer, this`proximityTimer, this`environmentTimer, this`audioTimer,
        this`gyroSample, this`lastGyroAt, this`proximityValue, this`proximityNormalized,
        this`lastProximityAt, this`environmentSample, this`lastEnvironmentAt, this`audioSample, this`lastAudioAt
    {
      SessionValid() && TelemetryValid() && BufferValid() && TimersValid() && TableValid()
    }

    constructor ()
      ensures Valid()
      ensures devices == [] && logs == [] && discovered == map[]
      ensures !isScanning && !isBluetoothReady && !canSend
      ensures connectedName.None? && currentPeripheral.None? && !hasRxChar && !hasTxChar
      ensures Published() == TelemetryZero
      ensures forall k :: Timer(k).None?
      ensures rxLineBuffer == [] && sent == []
    {
      devices, logs, discovered := [], [], map[];
      isScanning, isBluetoothReady, canSend := false, false, false;
      connectedName, currentPeripheral := None, None;
      hasRxChar, hasTxChar := false, false;
      gyroSample, lastGyroAt := GyroZero, None;
      proximityValue, proximityNormalized, lastProximityAt := 0, 0.0, None;
      environmentSample, lastEnvironmentAt := EnvironmentZero, None;
      audioSample, lastAudioAt := AudioZero, None;
      gyroTimer, proximityTimer, environmentTimer, audioTimer := None, None, None, None;
      rxLineBuffer, sent := [], [];
    }

    // -------------------------------------------------------------------------
    // Log

    method AppendLog(entry: string)
      modifies this`logs
      ensures logs == AppendBounded(old(logs), entry)
    {
      var a := logs + [entry];
      if |a| > LogCap {
        logs := a[|a| - LogCap..];
      } else {
        logs := a;
      }
    }

    method ClearLogs()
      modifies this`logs
      ensures logs == []
    {
      logs := [];
    }

    // -------------------------------------------------------------------------
    // Scanning and connecting

    /** `search`: only when the radio is powered on; clears the earlier results. */
    method Search(poweredOn: bool)
      requires TableValid()
      modifies this`logs, this`devices, this`discovered, this`isScanning
      ensures TableValid()
      ensures !poweredOn ==>
        && logs == AppendBounded(old(logs), "Bluetooth is not ready.")
        && devices == old(devices) && discovered == old(discovered) && isScanning == old(isScanning)
      ensures poweredOn ==>
        && devices == [] && discovered == map[] && isScanning
        && logs == AppendBounded(old(logs), "Scanning...")
    {
      if !poweredOn {
        AppendLog("Bluetooth is not ready.");
      } else {
        devices := [];
        discovered := map[];
        isScanning := true;
        AppendLog("Scanning...");
      }
    }

    method StopSearch()
      modifies this`logs, this`isScanning
      ensures !isScanning && logs == AppendBounded(old(logs), "Scan stopped.")
    {
      isScanning := false;
      AppendLog("Scan stopped.");
    }

    /** `connect`: stops scanning and remembers the peripheral; the transport reports the outcome later. */
    method Connect(device: Device)
      modifies this`logs, this`isScanning, this`currentPeripheral
      ensures !isScanning && currentPeripheral == Some(device.id)
      ensures logs == AppendBounded(AppendBounded(old(logs), "Scan stopped."), "Connecting to " + device.name + "...")
    {
      StopSearch();
      AppendLog("Connecting to " + device.name + "...");
      currentPeripheral := Some(device.id);
    }

    /** `centralManagerDidUpdateState`: readiness follows the radio's state. */
    method DidUpdateState(state: int)
      modifies this`logs, this`isBluetoothReady
      ensures isBluetoothReady == (state == PoweredOnState)
      ensures logs == AppendBounded(old(logs), "Central state: " + IntToString(state))
    {
      isBluetoothReady := state == PoweredOnState;
      AppendLog("Central state: " + IntToString(state));
    }

    /**
     * `didDiscover`: the table keeps the last report per identifier, and the
     * device list is rebuilt from it, strongest signal first.
     */
    method DidDiscover(id: Uuid, name: Option<string>, rssi: int)
      requires TableValid()
      modifies this`discovered, this`devices
      ensures TableValid()
      ensures discovered == old(discovered)[id := Device(id, name.GetOr("Unknown"), rssi)]
      ensures |devices| == if id in old(discovered) then |old(devices)| else |old(devices)| + 1
      ensures Device(id, name.GetOr("Unknown"), rssi) in devices
    {
      var dev := Device(id, name.GetOr("Unknown"), rssi);
      discovered := discovered[id := dev];
      devices := SortedDevices(discovered);
    }

    method DidConnect(name: Option<string>)
      modifies this`logs, this`connectedName
      ensures connectedName == Some(name.GetOr("Unknown"))
      ensures logs == AppendBounded(old(logs), "Connected: " + name.GetOr("Unknown"))
    {
      connectedName := Some(name.GetOr("Unknown"));
      AppendLog("Connected: " + connectedName.value);
    }

    method DidFailToConnect(error: Option<string>)
      requires SessionValid()
      modifies this`logs, this`canSend
      ensures SessionValid()
      ensures !canSend
      ensures logs == AppendBounded(old(logs), "Connection failed: " + error.GetOr("unknown"))
    {
      AppendLog("Connection failed: " + error.GetOr("unknown"));
      canSend := false;
    }

    method DidDiscoverServices(error: Option<string>)
      modifies this`logs
      ensures logs == if error.Some? then AppendBounded(old(logs), "discoverServices error: " + error.value) else old(logs)
    {
      if error.Some? {
        AppendLog("discoverServices error: " + error.value);
      }
    }

    /**
     * `didDiscoverCharacteristicsFor`: remembers the command (RX) and
     * telemetry (TX) characteristics found, enables notifications when a
     * telemetry characteristic is known, and can send exactly when a command
     * characteristic is known. A characteristic found earlier is kept.
     */
    method DidDiscoverCharacteristics(error: Option<string>, chars: Option<seq<Characteristic>>)
      requires SessionValid()
      modifies this`logs, this`hasRxChar, this`hasTxChar, this`canSend
      ensures SessionValid()
      ensures error.Some? ==>
        && logs == AppendBounded(old(logs), "characteristics error: " + error.value)
        && hasRxChar == old(hasRxChar) && hasTxChar == old(hasTxChar) && canSend == old(canSend)
      ensures error.None? && chars.None? ==>
        logs == old(logs) && hasRxChar == old(hasRxChar) && hasTxChar == old(hasTxChar) && canSend == old(canSend)
      ensures error.None? && chars.Some? ==>
        && hasRxChar == (old(hasRxChar) || RxCharacteristic in chars.value)
        && hasTxChar == (old(hasTxChar) || TxCharacteristic in chars.value)
        && canSend == hasRxChar
        && logs == if hasTxChar then AppendBounded(old(logs), "Notify enabled.") else old(logs)
    {
      if error.Some? {
        AppendLog("characteristics error: " + error.value);
      } else if chars.Some? {
        var rx, tx := FindCharacteristics(chars.value);
        if rx { hasRxChar := true; }
        if tx { hasTxChar := true; }
        if hasTxChar {
          AppendLog("Notify enabled.");
        }
        canSend := hasRxChar;
      }
    }

    // -------------------------------------------------------------------------
    // Writing commands

    /**
     * `send`: writes the text when a peripheral and a command characteristic
     * are known; logs the write, or the failure, only when asked to.
     */
    method Send(text: string, log: bool)
      modifies this`sent, this`logs
      ensures currentPeripheral.Some? && hasRxChar ==>
        && sent == old(sent) + [text]
        && logs == if log then AppendBounded(old(logs), "TX => " + Trim(text, Newlines)) else old(logs)
      ensures !(currentPeripheral.Some? && hasRxChar) ==>
        && sent == old(sent)
        && logs == if log then AppendBounded(old(logs), "Not connected.") else old(logs)
    {
      if !(currentPeripheral.Some? && hasRxChar) {
        if log {
          AppendLog("Not connected.");
        }
      } else {
        sent := sent + [text];
        if log {
          AppendLog("TX => " + Trim(text, Newlines));
        }
      }
    }

    /** The entry a logged `send` writes: the text without its newlines when it can be written, the failure otherwise. */
    function SendEntry(text: string): string
      reads this`currentPeripheral, this`hasRxChar
    {
      if currentPeripheral.Some? && hasRxChar then "TX => " + Trim(text, Newlines) else "Not connected."
    }

    method LedOn()
      modifies this`sent, this`logs
      ensures sent == if currentPeripheral.Some? && hasRxChar then old(sent) + ["LED ON\n"] else old(sent)
      ensures logs == AppendBounded(old(logs), SendEntry("LED ON\n"))
    {
      Send("LED ON\n", true);
    }

    method LedOff()
      modifies this`sent, this`logs
      ensures sent == if currentPeripheral.Some? && hasRxChar then old(sent) + ["LED OFF\n"] else old(sent)
      ensures logs == AppendBounded(old(logs), SendEntry("LED OFF\n"))
    {
      Send("LED OFF\n", true);
    }

    method Ping()
      modifies this`sent, this`logs
      ensures sent == if currentPeripheral.Some? && hasRxChar then old(sent) + ["PING\n"] else old(sent)
      ensures logs == AppendBounded(old(logs), SendEntry("PING\n"))
    {
      Send("PING\n", true);
    }

    /** `requestEnvironment` and `requestAudio`: a single poll, logged. */
    method RequestOnce(k: StreamKind)
      requires k == EnvironmentStream || k == AudioStream
      modifies this`sent, this`logs
      ensures sent == if currentPeripheral.Some? && hasRxChar then old(sent) + [PollCommand(k)] else old(sent)
      ensures logs == AppendBounded(old(logs), SendEntry(PollCommand(k)))
    {
      Send(PollCommand(k), true);
    }

    // -------------------------------------------------------------------------
    // Stream timers

    method SetTimer(k: StreamKind, t: Option<nat>)
      requires TimersValid()
      requires t.Some? ==> t.value >= MinPeriodMs(k)
      modifies this`gyroTimer, this`proximityTimer, this`environmentTimer, this`audioTimer
      ensures TimersValid()
      ensures Timer(k) == t
      ensures forall j :: j != k ==> Timer(j) == old(Timer(j))
    {
      match k
      case GyroStream => gyroTimer := t;
      case ProximityStream => proximityTimer := t;
      case EnvironmentStream => environmentTimer := t;
      case AudioStream => audioTimer := t;
    }

    /**
     * `start*Streaming`: without a command channel only a log entry; with a
     * timer already running nothing at all; otherwise one timer whose period
     * is the interval raised to the kind's floor.
     */
    method StartStreaming(k: StreamKind, intervalMs: int)
      requires TimersValid()
      modifies this`gyroTimer, this`proximityTimer, this`environmentTimer, this`audioTimer, this`logs
      ensures TimersValid()
      ensures forall j :: j != k ==> Timer(j) == old(Timer(j))
      ensures !canSend ==> Timer(k) == old(Timer(k)) && logs == AppendBounded(old(logs), NoConnectionEntry(k))
      ensures canSend && old(Timer(k)).Some? ==> Timer(k) == old(Timer(k)) && logs == old(logs)
      ensures canSend && old(Timer(k)).None? ==>
        Timer(k) == Some(PeriodMs(k, intervalMs)) && logs == AppendBounded(old(logs), StreamOnEntry(k, intervalMs))
    {
      if !canSend {
        AppendLog(NoConnectionEntry(k));
      } else if Timer(k).None? {
        AppendLog(StreamOnEntry(k, intervalMs));
        SetTimer(k, Some(PeriodMs(k, intervalMs)));
      }
    }

    /** `stop*Streaming`: clears this kind's timer, and logs only if one was running. */
    method StopStreaming(k: StreamKind)
      requires TimersValid()
      modifies this`gyroTimer, this`proximityTimer, this`environmentTimer, this`audioTimer, this`logs
      ensures TimersValid()
      ensures Timer(k).None?
      ensures forall j :: j != k ==> Timer(j) == old(Timer(j))
      ensures logs == AppendAll(old(logs), OffEntries(k, old(Timer(k))))
    {
      if Timer(k).Some? {
        AppendLog(StreamOffEntry(k));
      }
      SetTimer(k, None);
    }

    /** The "stream OFF" entries that stopping every stream writes now: one per running timer, gyroscope first. */
    function RunningOffEntries(): seq<string>
      reads this`gyroTimer, this`proximityTimer, this`environmentTimer, this`audioTimer
    {
      OffEntries(GyroStream, gyroTimer) + OffEntries(ProximityStream, proximityTimer)
      + OffEntries(EnvironmentStream, environmentTimer) + OffEntries(AudioStream, audioTimer)
    }

    /** The four stop calls, gyroscope first, as `deinit`, `disconnect` and the disconnect callback make them. */
    method StopAllStreaming()
      requires TimersValid()
      modifies this`gyroTimer, this`proximityTimer, this`environmentTimer, this`audioTimer, this`logs
      ensures TimersValid()
      ensures forall k :: Timer(k).None?
      ensures logs == AppendAll(old(logs), old(RunningOffEntries()))
    {
      ghost var l0 := logs;
      ghost var e1, e2 := OffEntries(GyroStream, gyroTimer), OffEntries(ProximityStream, proximityTimer);
      ghost var e3, e4 := OffEntries(EnvironmentStream, environmentTimer), OffEntries(AudioStream, audioTimer);
      StopStreaming(GyroStream);
      StopStreaming(ProximityStream);
      StopStreaming(EnvironmentStream);
      StopStreaming(AudioStream);
      AppendAllConcat(l0, e1, e2);
      AppendAllConcat(l0, e1 + e2, e3);
      AppendAllConcat(l0, e1 + e2 + e3, e4);
    }

    /** A timer tick: writes the kind's poll command without logging. */
    method TimerFired(k: StreamKind)
      requires Timer(k).Some?
      modifies this`sent, this`logs
      ensures logs == old(logs)
      ensures sent == if currentPeripheral.Some? && hasRxChar then old(sent) + [PollCommand(k)] else old(sent)
    {
      Send(PollCommand(k), false);
    }

    // -------------------------------------------------------------------------
    // Disconnecting

    /**
     * `disconnect`: stops every stream; cancelling the connection is a
     * transport call whose completion arrives as `DidDisconnect`.
     */
    method Disconnect()
      requires TimersValid()
      modifies this`gyroTimer, this`proximityTimer, this`environmentTimer, this`audioTimer, this`logs
      ensures TimersValid()
      ensures forall k :: Timer(k).None?
      ensures logs == AppendAll(old(logs), old(RunningOffEntries()))
    {
      StopAllStreaming();
    }

    /**
     * `didDisconnectPeripheral`: tears the session down whoever initiated
     * it: no name, no characteristics, cannot send, no timer.
     */
    method DidDisconnect()
      requires SessionValid() && TimersValid()
      modifies this`logs, this`connectedName, this`canSend, this`hasRxChar, this`hasTxChar,
        this`gyroTimer, this`proximityTimer, this`environmentTimer, this`audioTimer
      ensures SessionValid() && TimersValid()
      ensures connectedName.None? && !canSend && !hasRxChar && !hasTxChar
      ensures forall k :: Timer(k).None?
      ensures logs == AppendAll(AppendBounded(old(logs), "Disconnected."), old(RunningOffEntries()))
    {
      AppendLog("Disconnected.");
      connectedName := None;
      canSend := false;
      hasRxChar := false;
      hasTxChar := false;
      StopAllStreaming();
    }

    // -------------------------------------------------------------------------
    // Incoming telemetry

    /** Writes every published telemetry field. */
    method Publish(t: Telemetry)
      modifies this`gyroSample, this`lastGyroAt, this`proximityValue, this`proximityNormalized,
        this`lastProximityAt, this`environmentSample, this`lastEnvironmentAt, this`audioSample, this`lastAudioAt
      ensures Published() == t
    {
      gyroSample, lastGyroAt := t.gyro, t.lastGyroAt;
      proximityValue, proximityNormalized, lastProximityAt := t.proximityValue, t.proximityNormalized, t.lastProximityAt;
      environmentSample, lastEnvironmentAt := t.environment, t.lastEnvironmentAt;
      audioSample, lastAudioAt := t.audio, t.lastAudioAt;
    }

    /**
     * Performs one effect: a log entry, or one sample and its timestamp. This
     * is the field-by-field rendering of the parsers' main-queue blocks; its
     * contract ties it to the functional `Apply`.
     */
    method Perform(e: Effect, now: Instant)
      requires TelemetryValid() && InRange(e)
      modifies this`logs, this`gyroSample, this`lastGyroAt, this`proximityValue, this`proximityNormalized,
        this`lastProximityAt, this`environmentSample, this`lastEnvironmentAt, this`audioSample, this`lastAudioAt
      ensures TelemetryValid()
      ensures Observed() == Apply(old(Observed()), e, now)
    {
      ApplyKeepsWellFormed(Observed(), e, now);
      var t := Published();
      match e
      case Unchanged =>
      case Note(entry) => AppendLog(entry);
      case NewGyro(g) => Publish(t.(gyro := g, lastGyroAt := Some(now)));
      case NewProximity(v) =>
        Publish(t.(proximityValue := v, proximityNormalized := v as real / 255.0, lastProximityAt := Some(now)));
      case NewEnvironment(env) => Publish(t.(environment := env, lastEnvironmentAt := Some(now)));
      case NewTemperature(c) =>
        Publish(t.(environment := t.environment.(temperatureC := c), lastEnvironmentAt := Some(now)));
      case NewHumidity(h) =>
        Publish(t.(environment := t.environment.(humidityRH := h), lastEnvironmentAt := Some(now)));
      case NewPressure(p) =>
        Publish(t.(environment := t.environment.(pressureHpa := p), lastEnvironmentAt := Some(now)));
      case NewAudio(a) => Publish(t.(audio := a, lastAudioAt := Some(now)));
    }

    /**
     * One `parse*` function: declines a line without its marker; otherwise
     * decodes it with its own schema and handles it completely.
     */
    method ParseLine(t: Tag, line: string, decode: JsonDecoder, now: Instant) returns (handled: bool)
      requires TelemetryValid()
      modifies this`logs, this`gyroSample, this`lastGyroAt, this`proximityValue, this`proximityNormalized,
        this`lastProximityAt, this`environmentSample, this`lastEnvironmentAt, this`audioSample, this`lastAudioAt
      ensures TelemetryValid()
      ensures handled == Contains(line, Marker(t))
      ensures handled ==> Observed() == Apply(old(Observed()), Interpret(t, line, decode(t, line)), now)
      ensures !handled ==> Observed() == old(Observed())
    {
      handled := Contains(line, Marker(t));
      if handled {
        Perform(Interpret(t, line, decode(t, line)), now);
      }
    }

    /** Dispatches one raw line: blank lines are skipped, the first matching parser wins, others are logged. */
    method DispatchLine(raw: string, decode: JsonDecoder, now: Instant)
      requires TelemetryValid()
      modifies this`logs, this`gyroSample, this`lastGyroAt, this`proximityValue, this`proximityNormalized,
        this`lastProximityAt, this`environmentSample, this`lastEnvironmentAt, this`audioSample, this`lastAudioAt
      ensures TelemetryValid()
      ensures Observed() == Apply(old(Observed()), LineEffect(raw, decode), now)
    {
      var line := TrimLine(raw);
      if line != [] {
        var handled := ParseLine(Gyroscope, line, decode, now);
        if !handled { handled := ParseLine(Proximity, line, decode, now); }
        if !handled { handled := ParseLine(Environment, line, decode, now); }
        if !handled { handled := ParseLine(Temperature, line, decode, now); }
        if !handled { handled := ParseLine(Humidity, line, decode, now); }
        if !handled { handled := ParseLine(Pressure, line, decode, now); }
        if !handled { handled := ParseLine(Audio, line, decode, now); }
        if !handled {
          AppendLog(UnrecognizedEntry(line));
        }
      }
    }

    /**
     * `handleIncomingText`: appends the chunk, then takes every complete line
     * off the front of the buffer and dispatches it. Afterwards the buffer
     * holds only what follows the last `\n`.
     */
    method HandleIncomingText(chunk: string, decode: JsonDecoder, now: Instant)
      requires TelemetryValid()
      modifies this`rxLineBuffer, this`logs, this`gyroSample, this`lastGyroAt, this`proximityValue,
        this`proximityNormalized, this`lastProximityAt, this`environmentSample, this`lastEnvironmentAt,
        this`audioSample, this`lastAudioAt
      ensures TelemetryValid() && BufferValid()
      ensures Reader(rxLineBuffer, Observed()) == Feed(Reader(old(rxLineBuffer), old(Observed())), chunk, decode, now)
    {
      rxLineBuffer := rxLineBuffer + chunk;
      ghost var all := rxLineBuffer;
      ghost var start := Observed();
      ghost var done: seq<string> := [];
      while '\n' in rxLineBuffer
        invariant RawLines(all) == done + RawLines(rxLineBuffer)
        invariant Remainder(all) == Remainder(rxLineBuffer)
        invariant Observed() == Replay(start, done, decode, now)
        invariant TelemetryValid()
        decreases |rxLineBuffer|
      {
        var nl := FirstNewline(rxLineBuffer);
        var raw := rxLineBuffer[..nl];
        ConsumeLine(all, done, rxLineBuffer);
        ReplaySnoc(start, done, raw, decode, now);
        rxLineBuffer := rxLineBuffer[nl + 1..];
        done := done + [raw];
        DispatchLine(raw, decode, now);
      }
      assert RawLines(rxLineBuffer) == [] && Remainder(rxLineBuffer) == rxLineBuffer;
      assert done + [] == done;
    }

    /** `didUpdateValueFor`: text goes to the line decoder; errors and binary data are only logged. */
    method DidUpdateValue(n: Notification, decode: JsonDecoder, now: Instant)
      requires TelemetryValid() && BufferValid()
      modifies this`rxLineBuffer, this`logs, this`gyroSample, this`lastGyroAt, this`proximityValue,
        this`proximityNormalized, this`lastProximityAt, this`environmentSample, this`lastEnvironmentAt,
        this`audioSample, this`lastAudioAt
      ensures TelemetryValid() && BufferValid()
      ensures n.Utf8? ==>
        Reader(rxLineBuffer, Observed()) == Feed(Reader(old(rxLineBuffer), old(Observed())), n.text, decode, now)
      ensures !n.Utf8? ==> rxLineBuffer == old(rxLineBuffer) && Published() == old(Published())
      ensures n.ReadError? ==> logs == AppendBounded(old(logs), "RX error: " + n.message)
      ensures n.NoValue? ==> logs == old(logs)
      ensures n.Binary? ==> logs == AppendBounded(old(logs), "RX <= " + IntToString(n.byteCount) + " bytes (binary)")
    {
      match n
      case ReadError(m) => AppendLog("RX error: " + m);
      case NoValue =>
      case Binary(count) => AppendLog("RX <= " + IntToString(count) + " bytes (binary)");
      case Utf8(text) => HandleIncomingText(text, decode, now);
    }
  }

  /** Which of the two UART characteristics a discovery report contains. */
  method FindCharacteristics(cs: seq<Characteristic>) returns (rx: bool, tx: bool)
    ensures rx <==> RxCharacteristic in cs
    ensures tx <==> TxCharacteristic in cs
  {
    rx, tx := false, false;
    var i := 0;
    while i < |cs|
      invariant 0 <= i <= |cs|
      invariant rx <==> RxCharacteristic in cs[..i]
      invariant tx <==> TxCharacteristic in cs[..i]
    {
      assert cs[..i + 1] == cs[..i] + [cs[i]];
      if cs[i] == RxCharacteristic { rx := true; }
      if cs[i] == TxCharacteristic { tx := true; }
      i := i + 1;
    }
    assert cs[..i] == cs;
  }

  /** Taking the first line off the buffer moves it from the pending lines to the dispatched ones. */
  lemma ConsumeLine(all: string, done: seq<string>, buf: string)
    requires '\n' in buf
    requires RawLines(all) == done + RawLines(buf) && Remainder(all) == Remainder(buf)
    ensures var i := FirstNewline(buf);
      && RawLines(all) == (done + [buf[..i]]) + RawLines(buf[i + 1..])
      && Remainder(all) == Remainder(buf[i + 1..])
  {
    var i := FirstNewline(buf);
    SplitAtFirstNewline(buf);
    assert done + ([buf[..i]] + RawLines(buf[i + 1..])) == (done + [buf[..i]]) + RawLines(buf[i + 1..]);
  }
}
