/**
 * WiFiStatusMonitor.cs: the application's Wi-Fi monitor. Every connection-changed notification
 * and Initialize re-read the interfaces (WiFiScan.Step); StatusChanged invocations are logged.
 */
module WiFiStatus {
  import opened Optional
  import opened WiFiScan

  class WiFiStatusMonitor {
    var disposed: bool
    var playerDisposals: nat                  // calls of _wifiPlayer.Dispose()
    var connectionHandlerAttached: bool
    var lastConnectionState: Option<bool>
    var lastSsid: string
    var statusChanged: seq<WiFiStatusEventArgs>

    ghost predicate Valid()
      reads this
    {
      playerDisposals == (if disposed then 1 else 0) && connectionHandlerAttached
    }

    function Remembered(): Recorded
      reads this
    {
      Recorded(lastConnectionState, lastSsid)
    }

    /** Creates the player and attaches OnConnectionChanged; nothing is read yet. */
    constructor ()
      ensures Valid() && !disposed
      ensures Remembered() == Initial && statusChanged == []
    {
      disposed := false;
      playerDisposals := 0;
      connectionHandlerAttached := true;
      lastConnectionState := None;
      lastSsid := "";
      statusChanged := [];
    }

    /** IsConnected: the remembered flag, false before any successful read. */
    function IsConnected(): (connected: bool)
      reads this
      ensures connected <==> lastConnectionState == Some(true)
    {
      lastConnectionState.GetOr(false)
    }

    /** CurrentSSID: the remembered SSID, "" before any successful read. */
    function CurrentSSID(): (ssid: string)
      reads this
      ensures ssid == Remembered().lastSsid
    {
      lastSsid
    }

    method GetCurrentStatus(e: Enumeration)
      modifies this`lastConnectionState, this`lastSsid, this`statusChanged
      ensures var u := Step(old(Remembered()), e);
              Remembered() == u.recorded && statusChanged == old(statusChanged) + u.fired.ToSeq()
    {
      match e
      case Enumerated(connections) =>
        var currentConnectionState, currentSsid := Scan(connections);
        if lastConnectionState != Some(currentConnectionState) || lastSsid != currentSsid {
          lastConnectionState := Some(currentConnectionState);
          lastSsid := currentSsid;
          statusChanged := statusChanged + [MakeEventArgs(currentConnectionState, Some(currentSsid))];
        }
      case AccessDenied =>
        statusChanged := statusChanged + [MakeEventArgs(false, Some(""))];
      case EnumerationFailed =>
        statusChanged := statusChanged + [MakeEventArgs(false, Some(""))];
    }

    /** Initialize: one read; GetCurrentStatus absorbs every failure, so it always reports success. */
    method Initialize(e: Enumeration) returns (ok: bool)
      modifies this`lastConnectionState, this`lastSsid, this`statusChanged
      ensures ok
      ensures var u := Step(old(Remembered()), e);
              Remembered() == u.recorded && statusChanged == old(statusChanged) + u.fired.ToSeq()
    {
      GetCurrentStatus(e);
      return true;
    }

    /** A connection-changed notification: a full re-read whatever the payload says. */
    method OnConnectionChanged(args: ConnectionChangedEventArgs, e: Enumeration)
      modifies this`lastConnectionState, this`lastSsid, this`statusChanged
      ensures var u := Step(old(Remembered()), e);
              Remembered() == u.recorded && statusChanged == old(statusChanged) + u.fired.ToSeq()
    {
      GetCurrentStatus(e);
    }

    /** Dispose: the player is released on the first call only. */
    method Dispose()
      requires Valid()
      modifies this`disposed, this`playerDisposals
      ensures Valid() && disposed
      ensures playerDisposals == old(playerDisposals) + (if old(disposed) then 0 else 1)
    {
      if !disposed {
        playerDisposals := playerDisposals + 1;
        disposed := true;
      }
    }
  }
}
