/**
 * Lib/Audio/AudioStore.cs: the notification-driven audio model. It stays bound to one default
 * playback device, holds one volume-change subscription on it, and posts copies of the
 * device's Name, Volume and IsMuted onto the dispatcher queue, which later writes them to the
 * observable properties in order.
 *
 * Devices are values read from the native controller at the moment of a notification; `id` is
 * the object identity the source compares with `!=`.
 */
module LibAudio {
  import opened Optional

  const NameProperty: string := "Name"
  const VolumeProperty: string := "Volume"
  const IsMutedProperty: string := "IsMuted"

  /** The default playback device as read at one moment. */
  datatype AudioDevice = AudioDevice(id: nat, fullName: string, volume: int, isMuted: bool)

  /** One queued work item, or the shown values: Name, Volume and IsMuted. */
  datatype AudioUpdate = AudioUpdate(name: string, volume: int, isMuted: bool)

  /** The copy a queued work item makes of a device. */
  function SnapshotOf(d: AudioDevice): (u: AudioUpdate)
    ensures u.name == d.fullName && u.volume == d.volume && u.isMuted == d.isMuted
  {
    AudioUpdate(d.fullName, d.volume, d.isMuted)
  }

  /** What the properties show once every queued work item has run, in order: the last item queued. */
  function Drained(shown: AudioUpdate, queue: seq<AudioUpdate>): (r: AudioUpdate)
    ensures |queue| == 0 ==> r == shown
    ensures |queue| > 0 ==> r == queue[|queue| - 1]
    decreases |queue|
  {
    if |queue| == 0 then shown else Drained(queue[0], queue[1..])
  }

  /** Whatever is shown and queued, appending a device's snapshot makes the properties converge to it. */
  lemma ConvergesToLastSnapshot(shown: AudioUpdate, queue: seq<AudioUpdate>, d: AudioDevice)
    ensures Drained(shown, queue + [SnapshotOf(d)]) == AudioUpdate(d.fullName, d.volume, d.isMuted)
  {
  }

  /**
   * The notifications the three setters of one work item raise, moving the shown values from
   * `before` to `after`: one per property that changes, in the order Name, Volume, IsMuted.
   */
  function Changes(before: AudioUpdate, after: AudioUpdate): (names: seq<string>)
    ensures NameProperty in names <==> before.name != after.name
    ensures VolumeProperty in names <==> before.volume != after.volume
    ensures IsMutedProperty in names <==> before.isMuted != after.isMuted
    ensures names == [] <==> before == after
    ensures |names| == (if before.name != after.name then 1 else 0) +
                       (if before.volume != after.volume then 1 else 0) +
                       (if before.isMuted != after.isMuted then 1 else 0)
    ensures before.name != after.name ==> names[0] == NameProperty
    ensures before.isMuted != after.isMuted ==> names[|names| - 1] == IsMutedProperty
  {
    (if before.name != after.name then [NameProperty] else []) +
    (if before.volume != after.volume then [VolumeProperty] else []) +
    (if before.isMuted != after.isMuted then [IsMutedProperty] else [])
  }

  /** The index set `volumeSubscription?.Dispose()` disposes: the newest subscription, if there is one. */
  function Newest(subscriptions: seq<nat>): (s: set<nat>)
    ensures |subscriptions| == 0 ==> s == {}
    ensures |subscriptions| > 0 ==> s == {|subscriptions| - 1}
  {
    if |subscriptions| == 0 then {} else {|subscriptions| - 1}
  }

  /**
   * The subscription discipline of ResetDevice: every subscription but the newest is disposed,
   * and the newest is on the bound device.
   */
  predicate SubscribedOnlyTo(subscriptions: seq<nat>, disposed: set<nat>, id: nat) {
    |subscriptions| > 0 && subscriptions[|subscriptions| - 1] == id &&
    (forall i :: 0 <= i < |subscriptions| - 1 ==> i in disposed) &&
    (forall i :: i in disposed ==> 0 <= i < |subscriptions|)
  }

  /** Under that discipline at most one subscription is live, and a live one is on the bound device. */
  lemma AtMostOneLive(subscriptions: seq<nat>, disposed: set<nat>, id: nat, i: nat, j: nat)
    requires SubscribedOnlyTo(subscriptions, disposed, id)
    requires i < |subscriptions| && i !in disposed
    requires j < |subscriptions| && j !in disposed
    ensures i == j == |subscriptions| - 1
    ensures subscriptions[i] == id
  {
  }

  /** Disposing the newest and appending one on `id` keeps the discipline, and the new one is live. */
  lemma ResubscribeKeepsDiscipline(subscriptions: seq<nat>, disposed: set<nat>, old_id: nat, id: nat)
    requires SubscribedOnlyTo(subscriptions, disposed, old_id)
    ensures SubscribedOnlyTo(subscriptions + [id], disposed + Newest(subscriptions), id)
    ensures |subscriptions| !in disposed + Newest(subscriptions)
  {
    var subs', disposed' := subscriptions + [id], disposed + Newest(subscriptions);
    forall i | 0 <= i < |subs'| - 1
      ensures i in disposed'
    {
      if i < |subscriptions| - 1 {
        assert i in disposed;
      }
    }
  }

  class AudioStore {
    const debugBuild: bool                    // Debug.WriteLine is compiled in
    var name: string
    var volume: int
    var isMuted: bool
    var propertyChanged: seq<string>          // PropertyChanged notifications, in order
    var device: AudioDevice                   // the bound device
    var subscriptions: seq<nat>               // the device of every VolumeChanged subscription made, in order
    var disposed: set<nat>                    // the indices of the subscriptions disposed so far
    var deviceChangedSubscribed: bool
    var controllerDisposals: nat
    var pending: seq<AudioUpdate>             // the dispatcher queue

    function Shown(): AudioUpdate
      reads this
    {
      AudioUpdate(name, volume, isMuted)
    }

    /** Subscription `i` exists and is not yet disposed. */
    predicate Live(i: nat)
      reads this
    {
      i < |subscriptions| && i !in disposed
    }

    /** Every subscription but the newest is disposed; the newest is on the bound device. */
    ghost predicate Valid()
      reads this
    {
      SubscribedOnlyTo(subscriptions, disposed, device.id) &&
      (controllerDisposals == 0 ==> deviceChangedSubscribed)
    }

    /** Binds the current default device, resets on it and subscribes to device changes. */
    constructor (defaultDevice: AudioDevice, debugBuild: bool)
      ensures Valid() && this.debugBuild == debugBuild
      ensures device == defaultDevice && deviceChangedSubscribed && controllerDisposals == 0
      ensures subscriptions == [defaultDevice.id] && disposed == {} && Live(0)
      ensures Shown() == AudioUpdate("", 0, false) && propertyChanged == []
      ensures pending == [SnapshotOf(defaultDevice)]
    {
      this.debugBuild := debugBuild;
      name := "";
      volume := 0;
      isMuted := false;
      propertyChanged := [];
      device := defaultDevice;
      subscriptions := [];
      disposed := {};
      deviceChangedSubscribed := false;
      controllerDisposals := 0;
      pending := [];
      new;
      var _ := ResetDevice(Some(defaultDevice));
      deviceChangedSubscribed := true;
    }

    /**
     * ResetDevice: dispose the newest subscription, subscribe on `d`, and queue one copy of `d`.
     * A null `d` (None) throws: in a debug build at the log line, before anything happens;
     * otherwise at the new subscription, after the old one has been disposed.
     */
    method ResetDevice(d: Option<AudioDevice>) returns (threw: bool)
      modifies this`subscriptions, this`disposed, this`pending
      ensures threw <==> d.None?
      ensures d.None? && debugBuild ==>
                subscriptions == old(subscriptions) && disposed == old(disposed) && pending == old(pending)
      ensures d.None? && !debugBuild ==>
                subscriptions == old(subscriptions) && disposed == old(disposed) + Newest(old(subscriptions)) &&
                pending == old(pending)
      ensures d.Some? ==>
                disposed == old(disposed) + Newest(old(subscriptions)) &&
                subscriptions == old(subscriptions) + [d.value.id] &&
                pending == old(pending) + [SnapshotOf(d.value)]
    {
      if d.None? && debugBuild {
        return true;
      }
      disposed := disposed + Newest(subscriptions);
      if d.None? {
        return true;
      }
      subscriptions := subscriptions + [d.value.id];
      pending := pending + [SnapshotOf(d.value)];
      return false;
    }

    /**
     * The AudioDeviceChanged handler: rebind only when the default device is another object.
     * A null default (None) differs from the bound device, so ResetDevice is called and throws.
     */
    method OnAudioDeviceChanged(newDevice: Option<AudioDevice>) returns (threw: bool)
      requires Valid()
      modifies this`device, this`subscriptions, this`disposed, this`pending
      ensures Valid()
      ensures threw <==> newDevice.None?
      ensures newDevice.Some? && newDevice.value.id != old(device).id ==>
                device == newDevice.value &&
                subscriptions == old(subscriptions) + [device.id] &&
                disposed == old(disposed) + {|old(subscriptions)| - 1} && Live(|subscriptions| - 1) &&
                pending == old(pending) + [SnapshotOf(newDevice.value)]
      ensures newDevice.Some? && newDevice.value.id == old(device).id ==>
                device == old(device) && subscriptions == old(subscriptions) &&
                disposed == old(disposed) && pending == old(pending)
      ensures newDevice.None? ==>
                device == old(device) && subscriptions == old(subscriptions) && pending == old(pending) &&
                disposed == old(disposed) + (if debugBuild then {} else {|old(subscriptions)| - 1})
    {
      threw := false;
      if newDevice.None? || newDevice.value.id != device.id {
        ResubscribeKeepsDiscipline(subscriptions, disposed, device.id, if newDevice.Some? then newDevice.value.id else device.id);
        threw := ResetDevice(newDevice);
        if threw {
          return;
        }
        device := newDevice.value;
      }
    }

    /** The VolumeChanged subscription `k` fires: queue a copy of the device it was made on. */
    method OnVolumeChanged(k: nat, source: AudioDevice)
      requires Valid() && Live(k) && subscriptions[k] == source.id
      modifies this`pending
      ensures Valid()
      ensures pending == old(pending) + [SnapshotOf(source)]
    {
      pending := pending + [SnapshotOf(source)];
    }

    method SetName(value: string)
      modifies this`name, this`propertyChanged
      ensures name == value
      ensures propertyChanged == old(propertyChanged) + (if old(name) != value then [NameProperty] else [])
    {
      if name != value {
        name := value;
        propertyChanged := propertyChanged + [NameProperty];
      }
    }

    method SetVolume(value: int)
      modifies this`volume, this`propertyChanged
      ensures volume == value
      ensures propertyChanged == old(propertyChanged) + (if old(volume) != value then [VolumeProperty] else [])
    {
      if volume != value {
        volume := value;
        propertyChanged := propertyChanged + [VolumeProperty];
      }
    }

    method SetIsMuted(value: bool)
      modifies this`isMuted, this`propertyChanged
      ensures isMuted == value
      ensures propertyChanged == old(propertyChanged) + (if old(isMuted) != value then [IsMutedProperty] else [])
    {
      if isMuted != value {
        isMuted := value;
        propertyChanged := propertyChanged + [IsMutedProperty];
      }
    }

    /** The dispatcher runs the oldest queued work item. */
    method RunNextUpdate()
      requires |pending| > 0
      modifies this`name, this`volume, this`isMuted, this`propertyChanged, this`pending
      ensures Shown() == old(pending[0]) && pending == old(pending[1..])
      ensures propertyChanged == old(propertyChanged) + Changes(old(Shown()), old(pending[0]))
      ensures Drained(Shown(), pending) == old(Drained(Shown(), pending))
    {
      var u := pending[0];
      pending := pending[1..];
      SetName(u.name);
      SetVolume(u.volume);
      SetIsMuted(u.isMuted);
    }

    /** Dispose: release the volume subscription and the controller. */
    method Dispose()
      requires Valid()
      modifies this`disposed, this`controllerDisposals
      ensures Valid()
      ensures disposed == old(disposed) + Newest(subscriptions)
      ensures forall i :: !Live(i)
      ensures controllerDisposals == old(controllerDisposals) + 1
    {
      disposed := disposed + Newest(subscriptions);
      controllerDisposals := controllerDisposals + 1;
    }
  }
}
