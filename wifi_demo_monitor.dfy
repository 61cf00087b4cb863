/**
 * demos/wifi/WiFiMonitor.cs: the console demo's Wi-Fi monitor, the same algorithm as
 * WiFiStatusMonitor.cs without the IsConnected and CurrentSSID getters; its logging is not
 * modelled.
 */
module WiFiDemo {
  import opened Optional
  import opened WiFiScan

  class WiFiMonitor {
    var disposed: bool
    var playerDisposals: nat                  // calls of _wifiPlayer.Dispose()
    var connectionHandlerAttached: bool
    var lastConnectionState: Option<bool>
    var lastSsid: string
    var statusChanged: seq<WiFiStatusEventArgs>

    ghost predicate Valid()
      reads this
    {
      playerDisposals == (if disposed then 1 else 0) && connectionHandlerAttached
    }

    function Remembered(): Recorded
      reads this
    {
      Recorded(lastConnectionState, lastSsid)
    }

    constructor ()
      ensures Valid() && !disposed
      ensures Remembered() == Initial && statusChanged == []
    {
      disposed := false;
      playerDisposals := 0;
      connectionHandlerAttached := true;
      lastConnectionState := None;
      lastSsid := "";
      statusChanged := [];
    }

    method GetCurrentStatus(e: Enumeration)
      modifies this`lastConnectionState, this`lastSsid, this`statusChanged
      ensures var u := Step(old(Remembered()), e);
              Remembered() == u.recorded && statusChanged == old(statusChanged) + u.fired.ToSeq()
    {
      match e
      case Enumerated(connections) =>
        var currentConnectionState, currentSsid := Scan(connections);
        // only fire when the connected flag or the SSID changed
        if lastConnectionState != Some(currentConnectionState) || lastSsid != currentSsid {
          lastConnectionState := Some(currentConnectionState);
          lastSsid := currentSsid;
          statusChanged := statusChanged + [MakeEventArgs(currentConnectionState, Some(currentSsid))];
        }
      case AccessDenied =>
        statusChanged := statusChanged + [MakeEventArgs(false, Some(""))];
      case EnumerationFailed =>
        statusChanged := statusChanged + [MakeEventArgs(false, Some(""))];
    }

    /** Initialize: the initial read; failures are absorbed by GetCurrentStatus, so it returns true. */
    method Initialize(e: Enumeration) returns (ok: bool)
      modifies this`lastConnectionState, this`lastSsid, this`statusChanged
      ensures ok
      ensures var u := Step(old(Remembered()), e);
              Remembered() == u.recorded && statusChanged == old(statusChanged) + u.fired.ToSeq()
    {
      GetCurrentStatus(e);
      return true;
    }

    /** Every notification triggers a full re-read; its payload does not influence the result. */
    method OnConnectionChanged(args: ConnectionChangedEventArgs, e: Enumeration)
      modifies this`lastConnectionState, this`lastSsid, this`statusChanged
      ensures var u := Step(old(Remembered()), e);
              Remembered() == u.recorded && statusChanged == old(statusChanged) + u.fired.ToSeq()
    {
      GetCurrentStatus(e);
    }

    method Dispose()
      requires Valid()
      modifies this`disposed, this`playerDisposals
      ensures Valid() && disposed
      ensures playerDisposals == old(playerDisposals) + (if old(disposed) then 0 else 1)
    {
      if !disposed {
        playerDisposals := playerDisposals + 1;
        disposed := true;
      }
    }
  }
}
