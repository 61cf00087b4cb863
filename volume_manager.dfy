/**
 * The polling audio monitor of VolumeManager.cs: a snapshot record, a field-wise change
 * detector, and a manager object that binds the default playback device, validates the
 * volume and mute commands, and publishes StateChanged(current, previous) only on a real change.
 *
 * The native audio controller is an oracle: each refresh of the default device is given as a
 * DeviceQuery, and the clock that stamps snapshots is a parameter `now`.
 */
module VolumeManagement {
  import opened Optional

  /** A VolumeState snapshot (VolumeManager.cs:7-28). */
  datatype VolumeState = VolumeState(volume: int, isMuted: bool, deviceName: string,
                                     isDeviceAvailable: bool, timestamp: int)

  /** The part of a snapshot that carries meaning; the timestamp is dropped. */
  datatype Reading = Reading(volume: int, isMuted: bool, deviceName: string, isDeviceAvailable: bool)

  function ReadingOf(s: VolumeState): Reading {
    Reading(s.volume, s.isMuted, s.deviceName, s.isDeviceAvailable)
  }

  /** The four-argument VolumeState constructor: a null device name becomes "Unknown". */
  function NewVolumeState(volume: int, isMuted: bool, deviceName: Option<string>,
                          isDeviceAvailable: bool, now: int): (s: VolumeState)
    ensures s.deviceName == (if deviceName.Some? then deviceName.value else "Unknown")
    ensures s.volume == volume && s.isMuted == isMuted
    ensures s.isDeviceAvailable == isDeviceAvailable && s.timestamp == now
  {
    VolumeState(volume, isMuted, deviceName.GetOr("Unknown"), isDeviceAvailable, now)
  }

  /**
   * HasStateChanged: a missing snapshot always counts as a change; otherwise two snapshots
   * differ exactly when their timestamp-free readings differ.
   */
  function HasStateChanged(previous: Option<VolumeState>, current: Option<VolumeState>): (changed: bool)
    ensures changed <==> (previous.None? || current.None? ||
                          ReadingOf(previous.value) != ReadingOf(current.value))
  {
    if previous.None? || current.None? then true
    else
      var p, c := previous.value, current.value;
      p.volume != c.volume || p.isMuted != c.isMuted ||
      p.deviceName != c.deviceName || p.isDeviceAvailable != c.isDeviceAvailable
  }

  lemma TimestampIgnored(previous: VolumeState, current: VolumeState, t1: int, t2: int)
    ensures HasStateChanged(Some(previous), Some(current)) ==
            HasStateChanged(Some(previous.(timestamp := t1)), Some(current.(timestamp := t2)))
    ensures !HasStateChanged(Some(current.(timestamp := t1)), Some(current.(timestamp := t2)))
  {
  }

  /**
   * The native CoreAudioDevice as last obtained from the controller. When `healthy` is false,
   * every read or write of its properties throws.
   */
  datatype Device = Device(volume: int, isMuted: bool, fullName: Option<string>, healthy: bool)

  /** What asking the controller for DefaultPlaybackDevice gives: none, an exception, or a device. */
  datatype DeviceQuery = NoDefaultDevice | QueryFailed | DefaultDevice(device: Device)

  /** A property read that may throw. */
  datatype Read<T> = Value(value: T) | Threw

  /** The outcome of SetVolume: the out-of-range exception, or the returned flag. */
  datatype SetVolumeOutcome = OutOfRange | Completed(ok: bool)

  /** One invocation of StateChanged(current, previous). */
  datatype StateChange = StateChange(current: VolumeState, previous: Option<VolumeState>)

  /** The device RefreshDevice binds: null without a controller, on failure, or without a default. */
  function BoundDevice(hasController: bool, query: DeviceQuery): (bound: Option<Device>)
    ensures bound.Some? <==> hasController && query.DefaultDevice?
    ensures bound.Some? ==> bound.value == query.device
  {
    if hasController && query.DefaultDevice? then Some(query.device) else None
  }

  /** The device after `_defaultDevice.Volume = volume` succeeds. */
  function WithVolume(d: Device, volume: int): (r: Device)
    ensures r.volume == volume
    ensures r.isMuted == d.isMuted && r.fullName == d.fullName && r.healthy == d.healthy
  {
    d.(volume := volume)
  }

  /** The device after `Mute(!wasMuted)` succeeds. */
  function Toggled(d: Device): (r: Device)
    ensures r.isMuted == !d.isMuted
    ensures r.volume == d.volume && r.fullName == d.fullName && r.healthy == d.healthy
  {
    d.(isMuted := !d.isMuted)
  }

  /** Toggling the mute state twice restores the device. */
  lemma ToggleTwiceRestores(d: Device)
    ensures Toggled(Toggled(d)) == d
  {
  }

  class VolumeManager {
    var hasController: bool              // _audioController != null
    var controllerDisposals: nat         // calls of _audioController.Dispose()
    var defaultDevice: Option<Device>    // _defaultDevice
    var monitoringTimer: bool            // _monitoringTimer != null
    var timersCreated: nat               // timers constructed by StartMonitoring
    var timerDisposals: nat              // calls of _monitoringTimer.Dispose()
    var previousState: Option<VolumeState>
    var isMonitoring: bool
    var stateChanged: seq<StateChange>   // StateChanged invocations, in order

    ghost predicate Valid()
      reads this
    {
      (!hasController ==> defaultDevice.None?) &&
      isMonitoring == monitoringTimer &&
      timersCreated == timerDisposals + (if monitoringTimer then 1 else 0) &&
      previousState.Some?
    }

    /** InitializeAudio, then the first snapshot; no event is raised. */
    constructor (controllerCreated: bool, query: DeviceQuery, now: int)
      ensures Valid()
      ensures hasController == controllerCreated && controllerDisposals == 0
      ensures defaultDevice == BoundDevice(controllerCreated, query)
      ensures previousState == Some(GetCurrentState(now))
      ensures !isMonitoring && stateChanged == [] && timersCreated == 0 && timerDisposals == 0
    {
      hasController := controllerCreated;
      controllerDisposals := 0;
      defaultDevice := None;
      monitoringTimer := false;
      timersCreated := 0;
      timerDisposals := 0;
      isMonitoring := false;
      stateChanged := [];
      previousState := None;
      new;
      if controllerCreated {
        RefreshDevice(query);
      }
      previousState := Some(GetCurrentState(now));
    }

    function CurrentVolume(): (v: Read<int>)
      reads this
      ensures defaultDevice.None? ==> v == Value(0)
      ensures defaultDevice.Some? ==> v == if defaultDevice.value.healthy then Value(defaultDevice.value.volume) else Threw
    {
      match defaultDevice
      case None => Value(0)
      case Some(d) => if d.healthy then Value(d.volume) else Threw
    }

    function IsMuted(): (m: Read<bool>)
      reads this
      ensures defaultDevice.None? ==> m == Value(false)
      ensures defaultDevice.Some? ==> m == if defaultDevice.value.healthy then Value(defaultDevice.value.isMuted) else Threw
    {
      match defaultDevice
      case None => Value(false)
      case Some(d) => if d.healthy then Value(d.isMuted) else Threw
    }

    /** DeviceName: a bound device with a null name also reads as "No device". */
    function DeviceName(): (n: Read<string>)
      reads this
      ensures defaultDevice.None? ==> n == Value("No device")
      ensures defaultDevice.Some? ==> n == if !defaultDevice.value.healthy then Threw
                                           else Value(defaultDevice.value.fullName.GetOr("No device"))
    {
      match defaultDevice
      case None => Value("No device")
      case Some(d) => if d.healthy then Value(d.fullName.GetOr("No device")) else Threw
    }

    function IsAvailable(): (a: bool)
      reads this
      ensures a <==> defaultDevice.Some?
    {
      defaultDevice.Some?
    }

    /** GetCurrentState: a snapshot of the bound device; never throws. */
    function GetCurrentState(now: int): (s: VolumeState)
      reads this
      ensures s.timestamp == now
      ensures s.isDeviceAvailable <==> defaultDevice.Some? && defaultDevice.value.healthy
      ensures defaultDevice.None? ==> ReadingOf(s) == Reading(0, false, "No device", false)
      ensures defaultDevice.Some? && !defaultDevice.value.healthy ==>
                ReadingOf(s) == Reading(0, false, "Error reading device", false)
      ensures defaultDevice.Some? && defaultDevice.value.healthy ==>
                var d := defaultDevice.value;
                ReadingOf(s) == Reading(d.volume, d.isMuted, d.fullName.GetOr("Unknown"), true)
    {
      match defaultDevice
      case None => NewVolumeState(0, false, Some("No device"), false, now)
      case Some(d) =>
        if d.healthy then NewVolumeState(d.volume, d.isMuted, d.fullName, true, now)
        else NewVolumeState(0, false, Some("Error reading device"), false, now)
    }

    /** The stored snapshot agrees with the device: a further check would raise nothing. */
    ghost predicate Settled(now: int)
      reads this
    {
      !HasStateChanged(previousState, Some(GetCurrentState(now)))
    }

    /**
     * What one CheckForStateChange did, given the stored snapshot `prev` and the event log
     * `log` from before it.
     */
    ghost predicate Published(prev: Option<VolumeState>, log: seq<StateChange>, now: int)
      reads this
    {
      var current := GetCurrentState(now);
      if HasStateChanged(prev, Some(current)) then
        previousState == Some(current) && stateChanged == log + [StateChange(current, prev)]
      else
        previousState == prev && stateChanged == log
    }

    method RefreshDevice(query: DeviceQuery)
      modifies this`defaultDevice
      ensures defaultDevice == BoundDevice(hasController, query)
    {
      if hasController {
        match query
        case DefaultDevice(d) => defaultDevice := Some(d);
        case NoDefaultDevice => defaultDevice := None;
        case QueryFailed => defaultDevice := None;
      } else {
        defaultDevice := None;
      }
    }

    method CheckForStateChange(now: int)
      requires Valid()
      modifies this`previousState, this`stateChanged
      ensures Valid()
      ensures Published(old(previousState), old(stateChanged), now)
      ensures Settled(now)
    {
      var currentState := GetCurrentState(now);
      if HasStateChanged(previousState, Some(currentState)) {
        var previous := previousState;
        previousState := Some(currentState);
        stateChanged := stateChanged + [StateChange(currentState, previous)];
      }
    }

    /** SetVolume: range check first, then refresh, then write and publish. */
    method SetVolume(volume: int, query: DeviceQuery, now: int) returns (outcome: SetVolumeOutcome)
      requires Valid()
      modifies this`defaultDevice, this`previousState, this`stateChanged
      ensures Valid()
      ensures (volume < 0 || volume > 100) ==>
                outcome == OutOfRange && defaultDevice == old(defaultDevice) &&
                previousState == old(previousState) && stateChanged == old(stateChanged)
      ensures 0 <= volume <= 100 ==>
                var bound := BoundDevice(hasController, query);
                if bound.Some? && bound.value.healthy then
                  outcome == Completed(true) && defaultDevice == Some(WithVolume(bound.value, volume)) &&
                  Published(old(previousState), old(stateChanged), now) && Settled(now)
                else
                  outcome == Completed(false) && defaultDevice == bound &&
                  previousState == old(previousState) && stateChanged == old(stateChanged)
    {
      if volume < 0 || volume > 100 {
        return OutOfRange;
      }
      RefreshDevice(query);
      if defaultDevice.None? {
        return Completed(false);
      }
      if !defaultDevice.value.healthy {
        // the write of Volume throws and is caught
        return Completed(false);
      }
      defaultDevice := Some(WithVolume(defaultDevice.value, volume));
      CheckForStateChange(now);
      return Completed(true);
    }

    /** ToggleMute: refresh, then flip the mute state and publish. */
    method ToggleMute(query: DeviceQuery, now: int) returns (ok: bool)
      requires Valid()
      modifies this`defaultDevice, this`previousState, this`stateChanged
      ensures Valid()
      ensures var bound := BoundDevice(hasController, query);
              if bound.Some? && bound.value.healthy then
                ok && defaultDevice == Some(Toggled(bound.value)) &&
                Published(old(previousState), old(stateChanged), now) && Settled(now)
              else
                !ok && defaultDevice == bound &&
                previousState == old(previousState) && stateChanged == old(stateChanged)
    {
      RefreshDevice(query);
      if defaultDevice.None? {
        return false;
      }
      if !defaultDevice.value.healthy {
        // reading IsMuted throws and is caught
        return false;
      }
      var wasMuted := defaultDevice.value.isMuted;
      defaultDevice := Some(defaultDevice.value.(isMuted := !wasMuted));
      CheckForStateChange(now);
      return true;
    }

    method StartMonitoring()
      requires Valid()
      modifies this`isMonitoring, this`monitoringTimer, this`timersCreated
      ensures Valid()
      ensures old(isMonitoring) ==> monitoringTimer == old(monitoringTimer)
      ensures timersCreated == old(timersCreated) + (if old(isMonitoring) then 0 else 1)
      ensures timerDisposals == old(timerDisposals)
      ensures isMonitoring
    {
      if isMonitoring {
        return;
      }
      isMonitoring := true;
      monitoringTimer := true;
      timersCreated := timersCreated + 1;
    }

    method StopMonitoring()
      requires Valid()
      modifies this`isMonitoring, this`monitoringTimer, this`timerDisposals
      ensures Valid()
      ensures !isMonitoring && !monitoringTimer
      ensures timerDisposals == old(timerDisposals) + (if old(monitoringTimer) then 1 else 0)
    {
      isMonitoring := false;
      if monitoringTimer {
        timerDisposals := timerDisposals + 1;
      }
      monitoringTimer := false;
    }

    /**
     * One tick of the 500 ms timer. GetCurrentState reads the bound native device's live
     * properties, so a change made outside the manager (a volume key, another application, the
     * device failing) is seen here: `live` is what the bound device reads as at this tick. It
     * is ignored when no device is bound.
     */
    method MonitoringCallback(now: int, live: Device)
      requires Valid()
      modifies this`defaultDevice, this`previousState, this`stateChanged
      ensures Valid()
      ensures !isMonitoring ==> defaultDevice == old(defaultDevice) &&
                                previousState == old(previousState) && stateChanged == old(stateChanged)
      ensures isMonitoring ==> defaultDevice == (if old(defaultDevice).Some? then Some(live) else None)
      ensures isMonitoring ==> Published(old(previousState), old(stateChanged), now) && Settled(now)
      ensures isMonitoring && old(defaultDevice).Some? && live.healthy ==>
                var p := old(previousState).value;
                var differs := p.volume != live.volume || p.isMuted != live.isMuted ||
                               p.deviceName != live.fullName.GetOr("Unknown") || !p.isDeviceAvailable;
                stateChanged == old(stateChanged) + (if differs then [StateChange(GetCurrentState(now), old(previousState))] else [])
    {
      if !isMonitoring {
        return;
      }
      if defaultDevice.Some? {
        defaultDevice := Some(live);
      }
      CheckForStateChange(now);
    }

    method Dispose()
      requires Valid()
      modifies this`isMonitoring, this`monitoringTimer, this`timerDisposals, this`controllerDisposals
      ensures Valid()
      ensures !isMonitoring && !monitoringTimer
      ensures timerDisposals == old(timerDisposals) + (if old(monitoringTimer) then 1 else 0)
      ensures controllerDisposals == old(controllerDisposals) + (if hasController then 1 else 0)
    {
      StopMonitoring();
      if hasController {
        controllerDisposals := controllerDisposals + 1;
      }
    }
  }

  /**
   * When no getter throws, the getters and GetCurrentState describe the same device, except
   * that a bound device without a name reads "No device" from the getter and "Unknown" in the
   * snapshot.
   */
  lemma GettersAgreeWithSnapshot(m: VolumeManager, now: int)
    requires m.defaultDevice.None? || m.defaultDevice.value.healthy
    ensures var s := m.GetCurrentState(now);
            m.CurrentVolume() == Value(s.volume) && m.IsMuted() == Value(s.isMuted) &&
            m.IsAvailable() == s.isDeviceAvailable &&
            (m.defaultDevice.None? || m.defaultDevice.value.fullName.Some? ==> m.DeviceName() == Value(s.deviceName))
    ensures m.defaultDevice.Some? && m.defaultDevice.value.fullName.None? ==>
              m.DeviceName() == Value("No device") && m.GetCurrentState(now).deviceName == "Unknown"
  {
  }
}
