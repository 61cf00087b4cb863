/**
 * Lib/WiFi/WifiStore.cs: an observable record of the Wi-Fi state (WifiState, Ssid, ErrorMessage).
 * The native player is either created or refused at construction; each refresh reads the list
 * of connected SSIDs, given here as a parameter.
 *
 * The generated property setters raise PropertyChanged only when the value changes; that
 * behaviour of the toolkit is assumed here (SetWifiState, SetSsid), not verified.
 */
module LibWiFi {
  import opened Optional

  const Initializing: string := "Initializing..."
  const Pending: string := "Pending..."
  const FailedToStartUp: string := "Failed to start up"
  const PermissionRequired: string := "Permission required for WiFi."
  const Connected: string := "Connected"
  const NotConnected: string := "Not Connected"

  const WifiStateProperty: string := "WifiState"
  const SsidProperty: string := "Ssid"

  /** The two fields UpdateWifiStatus writes. */
  datatype StoreStatus = StoreStatus(wifiState: string, ssid: string)

  /** What UpdateWifiStatus publishes for a list of connected SSIDs: the first one, if any. */
  function StatusFor(ssids: seq<string>): (s: StoreStatus)
    ensures s.wifiState == Connected || s.wifiState == NotConnected
    ensures s.wifiState == Connected <==> |ssids| > 0
    ensures |ssids| > 0 ==> s.ssid == ssids[0]
    ensures |ssids| == 0 ==> s.ssid == ""
  {
    if |ssids| > 0 then StoreStatus(Connected, ssids[0]) else StoreStatus(NotConnected, "")
  }

  /**
   * The notifications raised when the two setters move the status from `before` to `after`:
   * one per field that changes, WifiState before Ssid.
   */
  function Raised(before: StoreStatus, after: StoreStatus): (names: seq<string>)
    ensures WifiStateProperty in names <==> before.wifiState != after.wifiState
    ensures SsidProperty in names <==> before.ssid != after.ssid
    ensures names == [] <==> before == after
    ensures |names| == (if before.wifiState != after.wifiState then 1 else 0) +
                       (if before.ssid != after.ssid then 1 else 0)
    ensures |names| == 2 ==> names == [WifiStateProperty, SsidProperty]
  {
    (if before.wifiState != after.wifiState then [WifiStateProperty] else []) +
    (if before.ssid != after.ssid then [SsidProperty] else [])
  }

  /**
   * A refresh leaves the store showing StatusFor(ssids), so a second refresh with the same
   * list raises nothing, and one with another list raises something exactly when the status differs.
   */
  lemma RefreshIsIdempotent(ssids: seq<string>, later: seq<string>)
    ensures Raised(StatusFor(ssids), StatusFor(ssids)) == []
    ensures Raised(StatusFor(ssids), StatusFor(later)) == [] <==>
              (|ssids| > 0 <==> |later| > 0) && (|ssids| > 0 ==> ssids[0] == later[0])
  {
  }

  class WifiStore {
    var hasPlayer: bool                      // _wifiPlayer != null
    var connectionHandlerAttached: bool
    var propertyChangedSubscribers: nat
    var wifiState: string
    var ssid: string
    var errorMessage: string
    var propertyChanged: seq<string>         // PropertyChanged notifications, in order

    function Status(): StoreStatus
      reads this
    {
      StoreStatus(wifiState, ssid)
    }

    /**
     * After construction: without a player the store shows the start-up failure for good;
     * with one it shows "Connected" or "Not Connected" and no error.
     */
    ghost predicate Valid()
      reads this
    {
      connectionHandlerAttached == hasPlayer &&
      (!hasPlayer ==> wifiState == FailedToStartUp && ssid == "" && errorMessage == PermissionRequired) &&
      (hasPlayer ==> (wifiState == Connected || wifiState == NotConnected) && errorMessage == "")
    }

    constructor (playerCreated: bool, ssids: seq<string>)
      ensures Valid()
      ensures hasPlayer == playerCreated && propertyChangedSubscribers == 0
      ensures !playerCreated ==> Status() == StoreStatus(FailedToStartUp, "") && propertyChanged == []
      ensures playerCreated ==> Status() == StatusFor(ssids) &&
                                 propertyChanged == Raised(StoreStatus(Pending, ""), StatusFor(ssids))
    {
      wifiState := Initializing;
      ssid := "";
      errorMessage := "";
      propertyChanged := [];
      propertyChangedSubscribers := 0;
      if playerCreated {
        hasPlayer := true;
        wifiState := Pending;
      } else {
        // UnauthorizedAccessException from the player's constructor
        hasPlayer := false;
        wifiState := FailedToStartUp;
        errorMessage := PermissionRequired;
      }
      connectionHandlerAttached := hasPlayer;
      new;
      var _ := UpdateWifiStatus(Some(ssids));
    }

    /** The WifiState setter. */
    method SetWifiState(value: string)
      modifies this`wifiState, this`propertyChanged
      ensures wifiState == value
      ensures propertyChanged == old(propertyChanged) + (if old(wifiState) != value then [WifiStateProperty] else [])
    {
      if wifiState != value {
        wifiState := value;
        propertyChanged := propertyChanged + [WifiStateProperty];
      }
    }

    /** The Ssid setter. */
    method SetSsid(value: string)
      modifies this`ssid, this`propertyChanged
      ensures ssid == value
      ensures propertyChanged == old(propertyChanged) + (if old(ssid) != value then [SsidProperty] else [])
    {
      if ssid != value {
        ssid := value;
        propertyChanged := propertyChanged + [SsidProperty];
      }
    }

    /**
     * UpdateWifiStatus: does nothing without a player; ErrorMessage is never written. `read` is
     * the result of enumerating the connected SSIDs, None when the enumeration throws; that
     * exception is not caught, so `threw` reports it and nothing is written.
     */
    method UpdateWifiStatus(read: Option<seq<string>>) returns (threw: bool)
      modifies this`wifiState, this`ssid, this`propertyChanged
      ensures errorMessage == old(errorMessage)
      ensures threw <==> hasPlayer && read.None?
      ensures !hasPlayer || read.None? ==> Status() == old(Status()) && propertyChanged == old(propertyChanged)
      ensures hasPlayer && read.Some? ==>
                Status() == StatusFor(read.value) &&
                propertyChanged == old(propertyChanged) + Raised(old(Status()), StatusFor(read.value))
    {
      if !hasPlayer {
        return false;
      }
      if read.None? {
        return true;
      }
      var ssids := read.value;
      threw := false;
      if |ssids| > 0 {
        SetWifiState(Connected);
        SetSsid(ssids[0]);
      } else {
        SetWifiState(NotConnected);
        SetSsid("");
      }
    }

    /**
     * The ConnectionChanged handler: the posted UpdateWifiStatus, run in order. An exception
     * from the enumeration escapes the posted work item (`threw`) and leaves the store as it was.
     */
    method WifiPlayerConnectionChanged(read: Option<seq<string>>) returns (threw: bool)
      requires Valid()
      modifies this`wifiState, this`ssid, this`propertyChanged
      ensures Valid()
      ensures threw <==> hasPlayer && read.None?
      ensures !hasPlayer || read.None? ==> Status() == old(Status()) && propertyChanged == old(propertyChanged)
      ensures hasPlayer && read.Some? ==>
                Status() == StatusFor(read.value) &&
                propertyChanged == old(propertyChanged) + Raised(old(Status()), StatusFor(read.value))
    {
      threw := UpdateWifiStatus(read);
    }

    /** Attaching one more PropertyChanged handler. */
    method SubscribePropertyChanged()
      modifies this`propertyChangedSubscribers
      ensures propertyChangedSubscribers == old(propertyChangedSubscribers) + 1
    {
      propertyChangedSubscribers := propertyChangedSubscribers + 1;
    }
  }
}
