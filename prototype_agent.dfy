/**
 * Lib/Agent/PrototypeAgent.cs: the policy agent. It owns a WifiStore and reacts to its "Ssid"
 * notifications: the allow-listed network unmutes, every other value (including "" when not
 * connected) mutes. The audio store's SetMute is an abstract command sink: the model records
 * the commands issued to it, in order.
 */
module LibAgent {
  import opened Optional
  import LibWiFi

  const AllowedSsid: string := "dlink-8CD6-5GHz"

  /** The rule of WifiStore_PropertyChanged: the SetMute argument it issues, if any. */
  function MuteCommand(fromWifiStore: bool, propertyName: string, ssid: string): (mute: Option<bool>)
    ensures mute.Some? <==> fromWifiStore && propertyName == LibWiFi.SsidProperty
    ensures mute == Some(false) <==> fromWifiStore && propertyName == LibWiFi.SsidProperty && ssid == AllowedSsid
    ensures mute == Some(true) <==> fromWifiStore && propertyName == LibWiFi.SsidProperty && ssid != AllowedSsid
  {
    if fromWifiStore && propertyName == LibWiFi.SsidProperty then Some(ssid != AllowedSsid) else None
  }

  /** The commands issued when the store delivers `names`, in order, while its Ssid is `ssid`. */
  function CommandsFor(names: seq<string>, ssid: string): seq<bool> {
    if |names| == 0 then [] else MuteCommand(true, names[0], ssid).ToSeq() + CommandsFor(names[1..], ssid)
  }

  function CountOf(names: seq<string>, name: string): nat {
    if |names| == 0 then 0 else (if names[0] == name then 1 else 0) + CountOf(names[1..], name)
  }

  lemma {:induction false} CommandsForAppend(names: seq<string>, name: string, ssid: string)
    ensures CommandsFor(names + [name], ssid) == CommandsFor(names, ssid) + MuteCommand(true, name, ssid).ToSeq()
  {
    if |names| > 0 {
      assert (names + [name])[1..] == names[1..] + [name];
      CommandsForAppend(names[1..], name, ssid);
    }
  }

  /**
   * Each delivered "Ssid" notification issues exactly one command, and every command is the
   * one the rule gives for the current Ssid; other notifications issue none.
   */
  lemma {:induction false} OneCommandPerSsidNotification(names: seq<string>, ssid: string)
    ensures |CommandsFor(names, ssid)| == CountOf(names, LibWiFi.SsidProperty)
    ensures forall i :: 0 <= i < |CommandsFor(names, ssid)| ==> CommandsFor(names, ssid)[i] == (ssid != AllowedSsid)
  {
    if |names| > 0 {
      OneCommandPerSsidNotification(names[1..], ssid);
    }
  }

  /**
   * One store refresh issues one command when the Ssid changed (unmute for the allow-listed
   * network, mute otherwise) and none when it did not.
   */
  lemma RefreshIssuesOneCommandOnSsidChange(before: LibWiFi.StoreStatus, ssids: seq<string>)
    ensures var after := LibWiFi.StatusFor(ssids);
            CommandsFor(LibWiFi.Raised(before, after), after.ssid) ==
              if before.ssid != after.ssid then [after.ssid != AllowedSsid] else []
  {
    var after := LibWiFi.StatusFor(ssids);
    var names := LibWiFi.Raised(before, after);
    var tail := if before.ssid != after.ssid then [LibWiFi.SsidProperty] else [];
    assert CommandsFor(tail, after.ssid) == if before.ssid != after.ssid then [after.ssid != AllowedSsid] else [];
    if before.wifiState != after.wifiState {
      assert names == [LibWiFi.WifiStateProperty] + tail;
      assert names[1..] == tail;
    } else {
      assert names == tail;
    }
  }

  /** Losing the connection (an empty SSID list) after a named network issues exactly one mute. */
  lemma DisconnectMutes(before: LibWiFi.StoreStatus)
    requires before.ssid != ""
    ensures CommandsFor(LibWiFi.Raised(before, LibWiFi.StatusFor([])), "") == [true]
  {
    RefreshIssuesOneCommandOnSsidChange(before, []);
  }

  class PrototypeAgent {
    const wifiStore: LibWiFi.WifiStore
    var muteCommands: seq<bool>             // arguments of audioStore.SetMute, in order

    ghost predicate Valid()
      reads this, wifiStore
    {
      wifiStore.Valid() && wifiStore.propertyChangedSubscribers == 1
    }

    /** Creates the store and attaches the handler, once. */
    constructor (playerCreated: bool, ssids: seq<string>)
      ensures Valid() && fresh(wifiStore) && muteCommands == []
      ensures wifiStore.hasPlayer == playerCreated
      ensures playerCreated ==> wifiStore.Status() == LibWiFi.StatusFor(ssids)
      ensures !playerCreated ==> wifiStore.Status() == LibWiFi.StoreStatus(LibWiFi.FailedToStartUp, "")
    {
      var store := new LibWiFi.WifiStore(playerCreated, ssids);
      store.SubscribePropertyChanged();
      wifiStore := store;
      muteCommands := [];
    }

    /** WifiStore_PropertyChanged: one command per "Ssid" notification from the store; mute state is not consulted. */
    method WifiStorePropertyChanged(fromWifiStore: bool, propertyName: string)
      modifies this`muteCommands
      ensures muteCommands == old(muteCommands) + MuteCommand(fromWifiStore, propertyName, wifiStore.ssid).ToSeq()
    {
      if fromWifiStore {
        if propertyName == LibWiFi.SsidProperty {
          if wifiStore.ssid == AllowedSsid {
            muteCommands := muteCommands + [false];
          } else {
            muteCommands := muteCommands + [true];
          }
        }
      }
    }

    /**
     * A connection change seen by the store: it refreshes from `read` (None when the SSID
     * enumeration throws, which leaves everything as it was), and each notification it raises
     * is delivered, in order, to the handler.
     */
    method OnWifiConnectionChanged(read: Option<seq<string>>)
      requires Valid()
      modifies wifiStore`wifiState, wifiStore`ssid, wifiStore`propertyChanged, this`muteCommands
      ensures Valid()
      ensures var before := LibWiFi.StoreStatus(old(wifiStore.wifiState), old(wifiStore.ssid));
              if wifiStore.hasPlayer && read.Some? then
                var after := LibWiFi.StatusFor(read.value);
                wifiStore.Status() == after &&
                wifiStore.propertyChanged == old(wifiStore.propertyChanged) + LibWiFi.Raised(before, after) &&
                muteCommands == old(muteCommands) + (if before.ssid != after.ssid then [after.ssid != AllowedSsid] else [])
              else
                wifiStore.Status() == before && wifiStore.propertyChanged == old(wifiStore.propertyChanged) &&
                muteCommands == old(muteCommands)
    {
      ghost var before := wifiStore.Status();
      var delivered := |wifiStore.propertyChanged|;
      var _ := wifiStore.WifiPlayerConnectionChanged(read);
      var raised := wifiStore.propertyChanged[delivered..];
      for i := 0 to |raised|
        modifies this`muteCommands
        invariant muteCommands == old(muteCommands) + CommandsFor(raised[..i], wifiStore.ssid)
      {
        CommandsForAppend(raised[..i], raised[i], wifiStore.ssid);
        assert raised[..i + 1] == raised[..i] + [raised[i]];
        WifiStorePropertyChanged(true, raised[i]);
      }
      assert raised[..|raised|] == raised;
      if wifiStore.hasPlayer && read.Some? {
        RefreshIssuesOneCommandOnSsidChange(before, read.value);
      }
    }
  }
}
