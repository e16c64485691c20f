/**
 * The dashboard view model: the stream toggles and intervals the user
 * controls, and the mirrors of the worker's published state that drive
 * them. Each Combine subscription that the toggles depend on is a sink
 * method, run when the worker publishes a new value.
 */
module Dashboard {
  import opened Common
  import opened Protocol
  import opened Worker

  class DashboardViewModel {
    const worker: BluetoothWorker

    // Mirrors of the worker's published state
    var logs: seq<string>
    var connectedName: Option<string>
    var canSend: bool

    // Stream controls
    var isGyroStreaming: bool
    var isProximityStreaming: bool
    var isEnvironmentStreaming: bool
    var isAudioStreaming: bool

    var gyroIntervalMs: int
    var proximityIntervalMs: int
    var environmentIntervalMs: int
    var audioIntervalMs: int

    function Streaming(k: StreamKind): bool
      reads this`isGyroStreaming, this`isProximityStreaming, this`isEnvironmentStreaming, this`isAudioStreaming
    {
      match k
      case GyroStream => isGyroStreaming
      case ProximityStream => isProximityStreaming
      case EnvironmentStream => isEnvironmentStreaming
      case AudioStream => isAudioStreaming
    }

    function IntervalMs(k: StreamKind): int
      reads this`gyroIntervalMs, this`proximityIntervalMs, this`environmentIntervalMs, this`audioIntervalMs
    {
      match k
      case GyroStream => gyroIntervalMs
      case ProximityStream => proximityIntervalMs
      case EnvironmentStream => environmentIntervalMs
      case AudioStream => audioIntervalMs
    }

    constructor (worker: BluetoothWorker)
      ensures this.worker == worker
      ensures logs == [] && connectedName.None? && !canSend
      ensures forall k :: !Streaming(k) && IntervalMs(k) == DefaultIntervalMs(k)
    {
      this.worker := worker;
      logs, connectedName, canSend := [], None, false;
      isGyroStreaming, isProximityStreaming, isEnvironmentStreaming, isAudioStreaming := false, false, false, false;
      gyroIntervalMs, proximityIntervalMs := DefaultIntervalMs(GyroStream), DefaultIntervalMs(ProximityStream);
      environmentIntervalMs, audioIntervalMs := DefaultIntervalMs(EnvironmentStream), DefaultIntervalMs(AudioStream);
    }

    method SetStreaming(k: StreamKind, on: bool)
      modifies this`isGyroStreaming, this`isProximityStreaming, this`isEnvironmentStreaming, this`isAudioStreaming
      ensures Streaming(k) == on
      ensures forall j :: j != k ==> Streaming(j) == old(Streaming(j))
    {
      match k
      case GyroStream => isGyroStreaming := on;
      case ProximityStream => isProximityStreaming := on;
      case EnvironmentStream => isEnvironmentStreaming := on;
      case AudioStream => isAudioStreaming := on;
    }

    // -------------------------------------------------------------------------
    // Mirrors

    /**
     * The `connectedName` sink: mirrors the name, and when the connection is
     * gone turns every stream toggle off.
     */
    method OnConnectedNameChanged(name: Option<string>)
      modifies this`connectedName,
        this`isGyroStreaming, this`isProximityStreaming, this`isEnvironmentStreaming, this`isAudioStreaming
      ensures connectedName == name
      ensures name.None? ==> forall k :: !Streaming(k)
      ensures name.Some? ==> forall k :: Streaming(k) == old(Streaming(k))
    {
      connectedName := name;
      if name.None? {
        isGyroStreaming, isProximityStreaming, isEnvironmentStreaming, isAudioStreaming := false, false, false, false;
      }
    }

    /** The `canSend` subscription. */
    method OnCanSendChanged(value: bool)
      modifies this`canSend
      ensures canSend == value
    {
      canSend := value;
    }

    /** The `logs` subscription: every publication of the worker's log replaces the mirror. */
    method OnLogsChanged(value: seq<string>)
      modifies this`logs
      ensures logs == value
    {
      logs := value;
    }

    /** `clearLogsFallback`: empties the mirror only; the worker's log is untouched. */
    method ClearLogsFallback()
      modifies this`logs
      ensures logs == []
    {
      logs := [];
    }

    // -------------------------------------------------------------------------
    // Stream controls

    /**
     * `toggle*Stream`: the toggle always follows the user; the worker is told
     * only when the mirrored `canSend` is set.
     */
    method ToggleStream(k: StreamKind, on: bool)
      requires worker.TimersValid()
      modifies this`isGyroStreaming, this`isProximityStreaming, this`isEnvironmentStreaming, this`isAudioStreaming,
        worker`gyroTimer, worker`proximityTimer, worker`environmentTimer, worker`audioTimer, worker`logs
      ensures worker.TimersValid()
      ensures Streaming(k) == on
      ensures forall j :: j != k ==> Streaming(j) == old(Streaming(j)) && worker.Timer(j) == old(worker.Timer(j))
      ensures !canSend ==> worker.Timer(k) == old(worker.Timer(k)) && worker.logs == old(worker.logs)
      ensures canSend && !on ==> worker.Timer(k).None?
      ensures canSend && on && !worker.canSend ==> worker.Timer(k) == old(worker.Timer(k))
      ensures canSend && on && worker.canSend ==>
        worker.Timer(k) == if old(worker.Timer(k)).Some? then old(worker.Timer(k)) else Some(PeriodMs(k, IntervalMs(k)))
      ensures canSend && on ==>
        worker.logs == if !worker.canSend then AppendBounded(old(worker.logs), NoConnectionEntry(k))
                       else if old(worker.Timer(k)).Some? then old(worker.logs)
                       else AppendBounded(old(worker.logs), StreamOnEntry(k, IntervalMs(k)))
      ensures canSend && !on ==> worker.logs == AppendAll(old(worker.logs), OffEntries(k, old(worker.Timer(k))))
    {
      SetStreaming(k, on);
      if canSend {
        if on {
          worker.StartStreaming(k, IntervalMs(k));
        } else {
          worker.StopStreaming(k);
        }
      }
    }

    /**
     * `apply*Interval`: a running stream is stopped and started again, so
     * the new interval takes effect; otherwise nothing happens.
     */
    method ApplyInterval(k: StreamKind)
      requires worker.TimersValid()
      modifies worker`gyroTimer, worker`proximityTimer, worker`environmentTimer, worker`audioTimer, worker`logs
      ensures worker.TimersValid()
      ensures forall j :: j != k ==> worker.Timer(j) == old(worker.Timer(j))
      ensures !(canSend && Streaming(k)) ==> worker.Timer(k) == old(worker.Timer(k)) && worker.logs == old(worker.logs)
      ensures canSend && Streaming(k) ==>
        worker.Timer(k) == if worker.canSend then Some(PeriodMs(k, IntervalMs(k))) else None
      ensures canSend && Streaming(k) ==>
        worker.logs == AppendBounded(AppendAll(old(worker.logs), OffEntries(k, old(worker.Timer(k)))),
                                     if worker.canSend then StreamOnEntry(k, IntervalMs(k)) else NoConnectionEntry(k))
    {
      if canSend && Streaming(k) {
        worker.StopStreaming(k);
        worker.StartStreaming(k, IntervalMs(k));
      }
    }

    /** `stopAllStreams`: every toggle off and every timer stopped, gyroscope first. */
    method StopAllStreams()
      requires worker.TimersValid()
      modifies this`isGyroStreaming, this`isProximityStreaming, this`isEnvironmentStreaming, this`isAudioStreaming,
        worker`gyroTimer, worker`proximityTimer, worker`environmentTimer, worker`audioTimer, worker`logs
      ensures worker.TimersValid()
      ensures forall k :: !Streaming(k) && worker.Timer(k).None?
      ensures worker.logs == AppendAll(old(worker.logs), old(worker.RunningOffEntries()))
    {
      isGyroStreaming, isProximityStreaming, isEnvironmentStreaming, isAudioStreaming := false, false, false, false;
      worker.StopAllStreaming();
    }

    /**
     * `disconnect`: stops every stream here and then asks the worker to
     * disconnect, which stops them again. The second round finds no timer
     * running, so each running stream is logged as stopped exactly once.
     */
    method Disconnect()
      requires worker.TimersValid()
      modifies this`isGyroStreaming, this`isProximityStreaming, this`isEnvironmentStreaming, this`isAudioStreaming,
        worker`gyroTimer, worker`proximityTimer, worker`environmentTimer, worker`audioTimer, worker`logs
      ensures worker.TimersValid()
      ensures forall k :: !Streaming(k) && worker.Timer(k).None?
      ensures worker.logs == AppendAll(old(worker.logs), old(worker.RunningOffEntries()))
    {
      StopAllStreams();
      assert worker.Timer(GyroStream).None? && worker.Timer(ProximityStream).None?;
      assert worker.Timer(EnvironmentStream).None? && worker.Timer(AudioStream).None?;
      assert worker.RunningOffEntries() == [];
      ghost var afterStop := worker.logs;
      worker.Disconnect();
      assert worker.logs == afterStop;
    }
  }
}
