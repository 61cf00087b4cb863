# Matsu device-state monitor and policy agent, modelled in Dafny

Matsu watches two pieces of host state: the Wi-Fi connection (connected flag and SSID) and
the default audio output device (volume, mute, name). It republishes them as de-duplicated
observable state. A policy agent mutes the audio unless the machine is joined to one
allow-listed network.

This project models the sequential logic of that core, one module per source file:

| module | file | models |
|---|---|---|
| `VolumeManagement` | `volume_manager.dfy` | `VolumeManager.cs`: the `VolumeState` snapshot, `HasStateChanged`, and the polling `VolumeManager` class (device binding, `SetVolume`, `ToggleMute`, monitoring flag, `CheckForStateChange`) |
| `WiFiScan` | `wifi_scan.dfy` | the derivation and de-duplication shared by both Wi-Fi monitors: first connected interface wins, publish only on change, a failure publishes `(false, "")` |
| `WiFiStatus` | `wifi_status_monitor.dfy` | `WiFiStatusMonitor.cs` |
| `WiFiDemo` | `wifi_demo_monitor.dfy` | `demos/wifi/WiFiMonitor.cs` (its console logging is not modelled) |
| `LibWiFi` | `wifi_store.dfy` | `Lib/WiFi/WifiStore.cs`: the three-field observable record and its refresh |
| `LibAudio` | `audio_store.dfy` | `Lib/Audio/AudioStore.cs`: device rebinding, the single live volume subscription, the dispatcher queue |
| `LibAgent` | `prototype_agent.dfy` | `Lib/Agent/PrototypeAgent.cs`: the mute rule and its handler |
| `Services` | `agent_service.dfy` | `Services/AgentService.cs`: enable, disable and toggle, and the lazy instance |
| `Optional` | `optional.dfy` | an `Option` type standing in for nullable references |

Objects whose fields the source reassigns are classes with those fields. Event invocations
are `seq` fields that the methods append to:
- `StateChanged` and `StatusChanged`;
- `PropertyChanged` notifications;
- the `SetMute` commands;
- the dispatcher queue.

Native calls are parameters of the methods that make them:
- `DeviceQuery` is the default playback device the audio controller returns.
- The timer tick of `VolumeManager` takes `live`: what the bound device's properties read as
  at that tick. A change made outside the manager (a volume key, another application) shows
  up there.
- `Enumeration` is the interface list, or one of the two caught exceptions.
- The Wi-Fi store takes the connected SSID list (`None` when the enumeration throws), and
  whether the Wi-Fi player could be created.
- `AudioDevice` is a device read at the moment of a notification; a null default device is
  `None`. Whether `Debug.WriteLine` is compiled in is the audio store's `debugBuild`, because
  a null device throws at a different point in each build.

The clock that stamps volume snapshots is a parameter `now`.

Behaviour of the code worth knowing:
- `Initialize` of both Wi-Fi monitors always returns true. `GetCurrentStatus` catches every
  enumeration failure itself, so the permission error is never reported as a typed failure.
- A failed enumeration publishes `(false, "")` every time, with no de-duplication. It does
  not update the remembered pair. So after a failure, a successful read of the same
  connection as before raises nothing: subscribers stay on "disconnected" while
  `IsConnected` and `CurrentSSID` still report the connection.
- `ToggleMute` returns a success flag, not the new mute state.
- `SetVolume` signals an out-of-range value with an exception (`OutOfRange` here) before it
  refreshes or touches the device.
- The agent does not look at the current mute state. It does not skip redundant commands. A
  repeated identical Wi-Fi update issues no command only because the `Ssid` setter raises no
  notification when the value is unchanged.
- `PrototypeAgent` calls `SetMute` on its audio store, which `AudioStore` does not define.
  The model records the issued commands in a sink (`muteCommands`).

The toolkit's property setters raise `PropertyChanged` only when the value changes. This
behaviour is an assumption, written out in `SetWifiState`, `SetSsid`, `SetName`,
`SetVolume`, `SetIsMuted` and `SetIsAgentEnabled`. It is not verified against the toolkit.

## Model

| member | source | states |
|---|---|---|
| `VolumeManagement.NewVolumeState` | VolumeManager.cs:20-27 | the snapshot copies volume, mute and availability; a null device name becomes "Unknown" |
| `VolumeManagement.HasStateChanged` | VolumeManager.cs:232-241 | true iff either snapshot is absent or the timestamp-free readings (volume, mute, name, availability) differ |
| `VolumeManagement.TimestampIgnored` | VolumeManager.cs:232-241 | changing either timestamp never changes the verdict; two snapshots of the same reading never differ |
| `VolumeManagement.WithVolume` | VolumeManager.cs:161 | a successful volume write sets the volume and nothing else |
| `VolumeManagement.Toggled` | VolumeManager.cs:183-184 | a successful toggle negates the mute state and keeps the other fields |
| `VolumeManagement.ToggleTwiceRestores` | VolumeManager.cs:183-184 | two toggles restore the device |
| `VolumeManagement.VolumeManager.constructor` | VolumeManager.cs:85-102 | binds the default device (none when the controller or the query fails), stores a first snapshot, raises nothing, not monitoring |
| `VolumeManagement.VolumeManager.CurrentVolume` | VolumeManager.cs:41-50 | 0 without a device, the device volume otherwise; the read throws on a failing device |
| `VolumeManagement.VolumeManager.IsMuted` | VolumeManager.cs:52-61 | false without a device, the device mute state otherwise; the read throws on a failing device |
| `VolumeManagement.VolumeManager.DeviceName` | VolumeManager.cs:63-72 | "No device" without a device or when the device has no name |
| `VolumeManagement.VolumeManager.IsAvailable` | VolumeManager.cs:74-83 | true iff a device is bound |
| `VolumeManagement.VolumeManager.GetCurrentState` | VolumeManager.cs:122-145 | `(0, false, "No device", false)` without a device, `(0, false, "Error reading device", false)` on a read failure, the device's values with available true otherwise; available iff the device is readable |
| `VolumeManagement.GettersAgreeWithSnapshot` | VolumeManager.cs:41-145 | when no getter throws, the getters and the snapshot report the same volume, mute, name and availability; they differ only for a nameless device ("No device" against "Unknown") |
| `VolumeManagement.BoundDevice` | VolumeManager.cs:91-120 | a device is bound exactly when a controller exists and its default-device query returns one, and then it is that device |
| `VolumeManagement.VolumeManager.RefreshDevice` | VolumeManager.cs:104-120 | the bound device is the controller's default, or none without a controller or on failure |
| `VolumeManagement.VolumeManager.CheckForStateChange` | VolumeManager.cs:219-230 | raises `StateChanged(current, previous)` and stores `current` exactly when `HasStateChanged` holds; afterwards the stored snapshot agrees with the device, so an immediate second check raises nothing |
| `VolumeManagement.VolumeManager.SetVolume` | VolumeManager.cs:147-170 | outside 0..100 gives `OutOfRange` with nothing changed or refreshed; otherwise refreshes, returns false and publishes nothing when no readable device is bound, else sets exactly that volume, publishes on change and returns true |
| `VolumeManagement.VolumeManager.ToggleMute` | VolumeManager.cs:172-193 | refreshes; returns false and publishes nothing without a readable device, else negates the mute state, publishes on change and returns true |
| `VolumeManagement.VolumeManager.StartMonitoring` | VolumeManager.cs:195-202 | afterwards monitoring with a timer; creates exactly one timer when not monitoring and none when already monitoring, so at most one undisposed timer ever exists |
| `VolumeManagement.VolumeManager.StopMonitoring` | VolumeManager.cs:204-209 | afterwards not monitoring and no timer; the current timer, if any, is disposed exactly once |
| `VolumeManagement.VolumeManager.MonitoringCallback` | VolumeManager.cs:211-217 | does nothing when not monitoring; otherwise the bound device reads as `live` and one `CheckForStateChange` runs: for a readable live device it raises `StateChanged(current, previous)` exactly when its volume, mute state or name differs from the stored snapshot (or that snapshot was unavailable), and stays silent otherwise |
| `VolumeManagement.VolumeManager.Dispose` | VolumeManager.cs:243-247 | stops monitoring, disposing the current timer, and disposes the controller if there is one |
| `WiFiScan.MakeEventArgs` | WiFiStatusMonitor.cs:102-106 | the event carries the flag and the SSID; a null SSID becomes "" |
| `WiFiScan.FirstConnectedIndex` | WiFiStatusMonitor.cs:58-66 | the result is the least index of a connected interface, or the length when none is connected |
| `WiFiScan.FirstConnectedIndexUnique` | WiFiStatusMonitor.cs:58-66 | any index with no connected interface before it, and a connected one at it (or the end), is the first-connected index |
| `WiFiScan.LaterInterfacesIgnored` | WiFiStatusMonitor.cs:58-66 | once some interface is connected, interfaces appended after it never change the derived pair |
| `WiFiScan.DerivedStatus` | WiFiStatusMonitor.cs:53-66 | the pair is `(true, ProfileName)` of a connected interface with none connected before it, or `(false, "")` when no interface is connected |
| `WiFiScan.DerivedConnectedIffSomeConnected` | WiFiStatusMonitor.cs:55-66 | the derived flag is true iff some interface is connected; when false the SSID is "" |
| `WiFiScan.Scan` | WiFiStatusMonitor.cs:55-66 | the foreach-with-break loop yields `(true, ProfileName)` of the first connected interface, else `(false, "")` |
| `WiFiScan.Step` | WiFiStatusMonitor.cs:49-85 | a successful read remembers the derived pair, a failed one remembers nothing new and always raises; a read that raises nothing changes nothing; an event from a successful read carries the newly remembered pair, which differs from the old one |
| `WiFiScan.SuccessfulReadPublishesOnChange` | WiFiStatusMonitor.cs:68-73 | a successful read always ends remembering the derived pair, and raises an event carrying that pair iff it differs from the pair remembered before |
| `WiFiScan.FirstReadAlwaysFires` | WiFiStatusMonitor.cs:11-12 | since the remembered flag starts null, the first successful read always raises an event, even when disconnected |
| `WiFiScan.FailedReadPublishesDisconnected` | WiFiStatusMonitor.cs:75-84 | a failed read raises `(false, "")` whatever is remembered and leaves the remembered pair unchanged |
| `WiFiScan.FailureThenSameReadIsSilent` | WiFiStatusMonitor.cs:68-84 | a failed read raises `(false, "")` but keeps the remembered connection, so a following successful read of that same connection raises nothing |
| `WiFiScan.RepeatedReadIsSilent` | WiFiStatusMonitor.cs:68-73 | repeating a successful read raises nothing the second time |
| `WiFiScan.SameReadingsFireAtMostOnce` | WiFiStatusMonitor.cs:68-73 | any run of successful reads deriving one pair raises exactly one event, carrying that pair, if it differs from the remembered one, none otherwise, and ends remembering it |
| `WiFiScan.FailuresKeepRecorded` | WiFiStatusMonitor.cs:75-84 | a run of failed reads keeps the remembered pair and raises one `(false, "")` per read |
| `WiFiStatus.WiFiStatusMonitor.constructor` | WiFiStatusMonitor.cs:19-23 | handler attached, nothing remembered (null flag, SSID ""), no event, not disposed |
| `WiFiStatus.WiFiStatusMonitor.IsConnected` | WiFiStatusMonitor.cs:16 | true iff the remembered flag is true; false before any successful read |
| `WiFiStatus.WiFiStatusMonitor.CurrentSSID` | WiFiStatusMonitor.cs:17 | the remembered SSID |
| `WiFiStatus.WiFiStatusMonitor.GetCurrentStatus` | WiFiStatusMonitor.cs:49-85 | the remembered pair and the events raised are exactly one `WiFiScan.Step` of the read |
| `WiFiStatus.WiFiStatusMonitor.Initialize` | WiFiStatusMonitor.cs:25-42 | one read as `GetCurrentStatus`; always returns true |
| `WiFiStatus.WiFiStatusMonitor.OnConnectionChanged` | WiFiStatusMonitor.cs:44-47 | a full re-read, whatever the payload |
| `WiFiStatus.WiFiStatusMonitor.Dispose` | WiFiStatusMonitor.cs:87-94 | releases the player on the first call only; a second call is a no-op |
| `WiFiDemo.WiFiMonitor.constructor` | demos/wifi/WiFiMonitor.cs:16-20 | handler attached, nothing remembered, no event, not disposed |
| `WiFiDemo.WiFiMonitor.GetCurrentStatus` | demos/wifi/WiFiMonitor.cs:61-117 | first-match derivation, an event only when flag or SSID changed (pair stored first), a failure raises `(false, "")` without storing: one `WiFiScan.Step` |
| `WiFiDemo.WiFiMonitor.Initialize` | demos/wifi/WiFiMonitor.cs:22-40 | one read as `GetCurrentStatus`; always returns true |
| `WiFiDemo.WiFiMonitor.OnConnectionChanged` | demos/wifi/WiFiMonitor.cs:42-59 | every notification triggers a full re-read, whatever its payload |
| `WiFiDemo.WiFiMonitor.Dispose` | demos/wifi/WiFiMonitor.cs:119-126 | idempotent; the player is released once |
| `LibWiFi.StatusFor` | Lib/WiFi/WifiStore.cs:75-85 | "Connected" with the first SSID for a non-empty list, "Not Connected" with "" for an empty one; never any other state |
| `LibWiFi.Raised` | Lib/WiFi/WifiStore.cs:76-85 | one notification per field the refresh changes, "WifiState" before "Ssid"; none exactly when the status is unchanged |
| `LibWiFi.RefreshIsIdempotent` | Lib/WiFi/WifiStore.cs:75-85 | refreshing again with the same list raises no notification; a refresh with another list raises a notification exactly when the connected flag or the first SSID differs |
| `LibWiFi.WifiStore.constructor` | Lib/WiFi/WifiStore.cs:20-50 | a refused player ends in "Failed to start up" with the permission message and no handler; with a player the handler is attached and the state is `StatusFor` the list (never "Pending..."), with no error |
| `LibWiFi.WifiStore.SetWifiState` | Lib/WiFi/WifiStore.cs:20-21 | sets WifiState; notifies "WifiState" only on a change |
| `LibWiFi.WifiStore.SetSsid` | Lib/WiFi/WifiStore.cs:23-24 | sets Ssid; notifies "Ssid" only on a change |
| `LibWiFi.WifiStore.UpdateWifiStatus` | Lib/WiFi/WifiStore.cs:68-86 | without a player nothing changes; an enumeration that throws escapes and changes nothing; otherwise the state becomes `StatusFor` the list, notifying each changed property in order; ErrorMessage is never written |
| `LibWiFi.WifiStore.WifiPlayerConnectionChanged` | Lib/WiFi/WifiStore.cs:52-66 | runs one `UpdateWifiStatus`, with its escaping exception, and keeps the store's invariant |
| `LibWiFi.WifiStore.SubscribePropertyChanged` | Lib/Agent/PrototypeAgent.cs:17 | one more PropertyChanged handler is attached |
| `LibAudio.SnapshotOf` | Lib/Audio/AudioStore.cs:74-80 | a queued update copies the device's name, volume and mute state |
| `LibAudio.Drained` | Lib/Audio/AudioStore.cs:66-80 | running a queue of work items in order leaves the properties showing its last item, or unchanged when it is empty |
| `LibAudio.Changes` | Lib/Audio/AudioStore.cs:68-70 | one work item notifies one property per value that changes, in the order Name, Volume, IsMuted, and nothing when all three are unchanged |
| `LibAudio.AtMostOneLive` | Lib/Audio/AudioStore.cs:63-64 | when every subscription but the newest is disposed, at most one is live, and it is on the bound device |
| `LibAudio.ResubscribeKeepsDiscipline` | Lib/Audio/AudioStore.cs:63-64 | disposing the newest subscription before making one on the new device keeps that discipline, with the new subscription live |
| `LibAudio.ConvergesToLastSnapshot` | Lib/Audio/AudioStore.cs:59-81 | after a reset on a device, draining the queue shows exactly that device's values |
| `LibAudio.AudioStore.constructor` | Lib/Audio/AudioStore.cs:44-57 | binds the default device, makes one live subscription on it, queues one copy of it, and subscribes to device changes |
| `LibAudio.AudioStore.ResetDevice` | Lib/Audio/AudioStore.cs:59-81 | disposes the newest subscription, appends one on the new device and queues exactly one copy of it; a null device throws, before anything in a debug build, after the dispose otherwise |
| `LibAudio.AudioStore.OnAudioDeviceChanged` | Lib/Audio/AudioStore.cs:48-56 | when the default is another device: rebinds, disposes the old subscription, makes a live one on the new device and queues a copy; the same device changes nothing; a null default throws, leaving the device bound and, outside a debug build, its subscription disposed |
| `LibAudio.AudioStore.OnVolumeChanged` | Lib/Audio/AudioStore.cs:64-72 | a notification through a live subscription (necessarily the one on the bound device) queues one copy of its three fields |
| `LibAudio.AudioStore.SetName` | Lib/Audio/AudioStore.cs:17-22 | sets Name; notifies only on a change |
| `LibAudio.AudioStore.SetVolume` | Lib/Audio/AudioStore.cs:24-29 | sets Volume; notifies only on a change |
| `LibAudio.AudioStore.SetIsMuted` | Lib/Audio/AudioStore.cs:31-36 | sets IsMuted; notifies only on a change |
| `LibAudio.AudioStore.RunNextUpdate` | Lib/Audio/AudioStore.cs:66-80 | the oldest queued update is shown and removed, notifying exactly the `Changes` it makes; what the drained queue will show is unchanged |
| `LibAudio.AudioStore.Dispose` | Lib/Audio/AudioStore.cs:83-88 | the newest subscription is disposed, so none is live, and the controller is disposed |
| `LibAgent.MuteCommand` | Lib/Agent/PrototypeAgent.cs:20-38 | a command exactly for an "Ssid" notification from the store: unmute iff the SSID is "dlink-8CD6-5GHz", mute for any other value |
| `LibAgent.OneCommandPerSsidNotification` | Lib/Agent/PrototypeAgent.cs:20-38 | delivering any sequence of notifications issues one command per "Ssid" among them, each the rule's command for the current SSID |
| `LibAgent.RefreshIssuesOneCommandOnSsidChange` | Lib/Agent/PrototypeAgent.cs:24-36 | one store refresh issues exactly one command when the SSID changed (unmute for the allow-listed network, mute otherwise) and none when it did not |
| `LibAgent.DisconnectMutes` | Lib/WiFi/WifiStore.cs:81-85 | losing the connection after a named network issues exactly one mute |
| `LibAgent.PrototypeAgent.constructor` | Lib/Agent/PrototypeAgent.cs:12-18 | creates its store and attaches the handler exactly once; no command yet |
| `LibAgent.PrototypeAgent.WifiStorePropertyChanged` | Lib/Agent/PrototypeAgent.cs:20-38 | appends exactly the rule's command for the store's current SSID; mute state is not consulted |
| `LibAgent.PrototypeAgent.OnWifiConnectionChanged` | Lib/Agent/PrototypeAgent.cs:17-38 | the store refreshes and its notifications reach the handler in order: one command iff the SSID changed, none for an identical update or a failed enumeration |
| `Services.AgentService.constructor` | Services/AgentService.cs:44-47 | disabled, no agent |
| `Services.AgentService.SetIsAgentEnabled` | Services/AgentService.cs:38-42 | sets the flag; notifies only on a change |
| `Services.AgentService.EnableAgent` | Services/AgentService.cs:52-59 | creates a fresh agent and enables when disabled; a no-op when enabled; keeps enabled iff agent present |
| `Services.AgentService.DisableAgent` | Services/AgentService.cs:64-72 | drops the agent and disables when enabled; a no-op when disabled |
| `Services.AgentService.ToggleAgent` | Services/AgentService.cs:77-87 | negates the flag (so two toggles restore it) and keeps enabled iff agent present |
| `Services.AgentServiceStatics.constructor` | Services/AgentService.cs:11 | no instance yet |
| `Services.AgentServiceStatics.Instance` | Services/AgentService.cs:20-33 | creates a disabled service on first access and returns that same object on every later access |

## Left out

- Threads and locks are not modelled. This covers the `lock` in `VolumeManager`, the 500 ms
  timer thread, `SynchronizationContext.Post` against `Task.Run`, `DispatcherQueue` threading
  and double-checked locking in `Instance`. Each operation is one atomic step. Posted work
  runs in order.
- Console and debug output is not modelled.
- Exceptions thrown by event subscribers are not modelled.
- Subscribers to `StateChanged`, `StatusChanged` and `PropertyChanged` are replaced by logs
  of the invocations.
- Volume is an `int`, not a `double`. The `(int)` casts and any clamping by the device are
  not modelled.
- `VolumeManagement.Device`: a failing native device is a per-device `healthy` flag. Every
  read or write of that device throws. A device that fails on some reads and not others is
  not modelled.
- The parameterless `VolumeState()` constructor is not modelled. The core never calls it.
- `WiFiScan.Scan`: a profile name is always a string. A null `ProfileName` is not modelled;
  the source would remember it and pass it to the event arguments as "".
- `LibWiFi.WifiStore.constructor`: only `UnauthorizedAccessException` from the player is
  caught, as in the source. Other exceptions from the player or from the SSID enumeration
  would escape the constructor; a Dafny constructor cannot fail, so the model assumes they do
  not occur. After construction the enumeration's exception is modelled (`UpdateWifiStatus`).
- `WiFiStatus.WiFiStatusMonitor.constructor`: an exception from `new NativeWifiPlayer()`
  escapes the constructor and no monitor exists. A Dafny constructor cannot fail, so only a
  successful construction is modelled.
- `WiFiDemo.WiFiMonitor.constructor`: the same; the demo's caller wraps construction in `try`.
- `LibAudio.AudioStore.OnVolumeChanged`, `LibAudio.AudioStore.ResetDevice`,
  `LibAudio.SnapshotOf` and `LibAudio.ConvergesToLastSnapshot`: a queued work item copies the
  device when it is queued. The source's work items, both the one `ResetDevice` queues and the
  one a volume notification queues, read the device when they run.
- `LibAudio.AudioStore.OnVolumeChanged`: this notification requires a live subscription.
  The native library does not deliver on a disposed subscription.
- `LibAudio.AudioStore.constructor`: a null default device is not modelled. The source
  throws `NullReferenceException` on it in `ResetDevice`, and no store exists.
- `LibAudio.AudioStore.OnAudioDeviceChanged`: the exception a null default throws leaves the handler. Whether
  the native library keeps delivering device changes after that is not modelled; the model
  keeps accepting them.
- `LibAgent.PrototypeAgent.constructor`: the agent's own `AudioStore` instance is not
  created. It appears only as the mute commands sent to it.
- `Services.AgentService.DisableAgent`: the source only drops the reference (disposal is
  marked TODO). The dropped agent's Wi-Fi store is not tracked after that.
