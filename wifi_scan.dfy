/**
 * The Wi-Fi status derivation and de-duplication shared, line for line, by
 * WiFiStatusMonitor.cs and demos/wifi/WiFiMonitor.cs: the first connected interface in
 * enumeration order gives (connected, ssid); the pair is published only when it differs from
 * the remembered one; a failed enumeration publishes (false, "") without remembering it.
 */
module WiFiScan {
  import opened Optional

  /** One entry of NativeWifi.EnumerateInterfaceConnections(). */
  datatype InterfaceConnection = InterfaceConnection(isConnected: bool, profileName: string)

  /** The result of enumerating the interfaces: the list, or one of the two caught exceptions. */
  datatype Enumeration =
    | Enumerated(connections: seq<InterfaceConnection>)
    | AccessDenied          // UnauthorizedAccessException
    | EnumerationFailed     // any other exception

  /**
   * The native player's ConnectionChanged payload, received by both monitors. Neither reads
   * it to decide anything: each re-enumerates the interfaces instead.
   */
  datatype ConnectionChangedEventArgs = ConnectionChangedEventArgs(interfaceId: int, changedState: int,
                                                                   profileName: Option<string>)

  /** The payload of StatusChanged. */
  datatype WiFiStatusEventArgs = WiFiStatusEventArgs(isConnected: bool, ssid: string)

  /** The WiFiStatusEventArgs constructor: a null SSID becomes "". */
  function MakeEventArgs(isConnected: bool, ssid: Option<string>): (e: WiFiStatusEventArgs)
    ensures e.isConnected == isConnected
    ensures e.ssid == (if ssid.Some? then ssid.value else "")
  {
    WiFiStatusEventArgs(isConnected, ssid.GetOr(""))
  }

  /** The index of the first connected interface, or |cs| when none is connected. */
  function FirstConnectedIndex(cs: seq<InterfaceConnection>): (k: nat)
    ensures k <= |cs|
    ensures forall j :: 0 <= j < k ==> !cs[j].isConnected
    ensures k < |cs| ==> cs[k].isConnected
  {
    if |cs| == 0 then 0
    else if cs[0].isConnected then 0
    else 1 + FirstConnectedIndex(cs[1..])
  }

  /** The (connected, ssid) pair derived from an enumeration, first match wins. */
  datatype DerivedPair = DerivedPair(connected: bool, ssid: string)

  function DerivedStatus(cs: seq<InterfaceConnection>): (d: DerivedPair)
    ensures d.connected ==> exists i :: 0 <= i < |cs| && cs[i].isConnected && d.ssid == cs[i].profileName &&
                                        forall j :: 0 <= j < i ==> !cs[j].isConnected
    ensures !d.connected ==> d.ssid == "" && forall i :: 0 <= i < |cs| ==> !cs[i].isConnected
  {
    var k := FirstConnectedIndex(cs);
    if k < |cs| then DerivedPair(true, cs[k].profileName) else DerivedPair(false, "")
  }

  /** FirstConnectedIndex is determined by its contract: the least connected index, or |cs|. */
  lemma FirstConnectedIndexUnique(cs: seq<InterfaceConnection>, i: nat)
    requires i <= |cs|
    requires forall j :: 0 <= j < i ==> !cs[j].isConnected
    requires i < |cs| ==> cs[i].isConnected
    ensures FirstConnectedIndex(cs) == i
  {
  }

  /** Connected interfaces after the first connected one never matter. */
  lemma LaterInterfacesIgnored(cs: seq<InterfaceConnection>, later: seq<InterfaceConnection>)
    requires exists i :: 0 <= i < |cs| && cs[i].isConnected
    ensures DerivedStatus(cs + later) == DerivedStatus(cs)
  {
    var k := FirstConnectedIndex(cs);
    FirstConnectedIndexUnique(cs + later, k);
  }

  /** The derived pair is "connected" exactly when some interface is connected. */
  lemma DerivedConnectedIffSomeConnected(cs: seq<InterfaceConnection>)
    ensures DerivedStatus(cs).connected <==> exists i :: 0 <= i < |cs| && cs[i].isConnected
    ensures !DerivedStatus(cs).connected ==> DerivedStatus(cs).ssid == ""
  {
  }

  /** The foreach loop of GetCurrentStatus: stop at the first connected interface. */
  method Scan(connections: seq<InterfaceConnection>) returns (currentConnectionState: bool, currentSsid: string)
    ensures DerivedPair(currentConnectionState, currentSsid) == DerivedStatus(connections)
  {
    currentConnectionState := false;
    currentSsid := "";
    for i := 0 to |connections|
      invariant forall j :: 0 <= j < i ==> !connections[j].isConnected
      invariant !currentConnectionState && currentSsid == ""
    {
      if connections[i].isConnected {
        currentConnectionState := true;
        currentSsid := connections[i].profileName;
        FirstConnectedIndexUnique(connections, i);
        return;
      }
    }
    FirstConnectedIndexUnique(connections, |connections|);
  }

  /** The remembered pair: _lastConnectionState (null before the first successful read) and _lastSSID. */
  datatype Recorded = Recorded(lastConnectionState: Option<bool>, lastSsid: string)

  const Initial: Recorded := Recorded(None, "")

  function RecordedFor(s: DerivedPair): Recorded {
    Recorded(Some(s.connected), s.ssid)
  }

  /** The effect of one GetCurrentStatus: the new remembered pair and the event raised, if any. */
  datatype Update = Update(recorded: Recorded, fired: Option<WiFiStatusEventArgs>)

  function Step(r: Recorded, e: Enumeration): (u: Update)
    ensures e.Enumerated? ==> u.recorded == RecordedFor(DerivedStatus(e.connections))
    ensures !e.Enumerated? ==> u.recorded == r && u.fired.Some?
    ensures u.fired.None? ==> u.recorded == r
    ensures e.Enumerated? && u.fired.Some? ==>
              u.recorded != r && RecordedFor(DerivedPair(u.fired.value.isConnected, u.fired.value.ssid)) == u.recorded
  {
    match e
    case Enumerated(cs) =>
      var d := DerivedStatus(cs);
      if r.lastConnectionState != Some(d.connected) || r.lastSsid != d.ssid then
        Update(RecordedFor(d), Some(MakeEventArgs(d.connected, Some(d.ssid))))
      else
        Update(r, None)
    case _ => Update(r, Some(MakeEventArgs(false, Some(""))))
  }

  /**
   * A successful read remembers the derived pair, and raises StatusChanged, carrying that
   * pair, exactly when the pair differs from the one remembered before.
   */
  lemma SuccessfulReadPublishesOnChange(r: Recorded, cs: seq<InterfaceConnection>)
    ensures var d := DerivedStatus(cs);
            var u := Step(r, Enumerated(cs));
            u.recorded == RecordedFor(d) &&
            (u.fired.Some? <==> r != RecordedFor(d)) &&
            (u.fired.Some? ==> u.fired.value == WiFiStatusEventArgs(d.connected, d.ssid))
  {
  }

  /** The first successful read always raises StatusChanged, even when disconnected. */
  lemma FirstReadAlwaysFires(cs: seq<InterfaceConnection>)
    ensures Step(Initial, Enumerated(cs)).fired.Some?
  {
  }

  /** A failed read raises (false, "") whatever is remembered, and forgets nothing. */
  lemma FailedReadPublishesDisconnected(r: Recorded, e: Enumeration)
    requires !e.Enumerated?
    ensures Step(r, e) == Update(r, Some(WiFiStatusEventArgs(false, "")))
  {
  }

  /** Repeating the same successful read raises nothing the second time. */
  lemma RepeatedReadIsSilent(r: Recorded, e: Enumeration)
    requires e.Enumerated?
    ensures Step(Step(r, e).recorded, e).fired == None
  {
  }

  /**
   * A failed read between two successful reads of the same connection hides the recovery:
   * subscribers were last told (false, ""), but the remembered pair still holds the
   * connection, so the next read of it raises nothing.
   */
  lemma FailureThenSameReadIsSilent(cs: seq<InterfaceConnection>, f: Enumeration)
    requires !f.Enumerated?
    ensures var u := Step(RecordedFor(DerivedStatus(cs)), f);
            u.fired == Some(WiFiStatusEventArgs(false, "")) &&
            u.recorded == RecordedFor(DerivedStatus(cs)) &&
            Step(u.recorded, Enumerated(cs)).fired == None
  {
  }

  /** A run of reads: the final remembered pair and every event raised, in order. */
  function Run(r: Recorded, results: seq<Enumeration>): (Recorded, seq<WiFiStatusEventArgs>)
    decreases |results|
  {
    if |results| == 0 then (r, [])
    else
      var u := Step(r, results[0]);
      var (last, events) := Run(u.recorded, results[1..]);
      (last, u.fired.ToSeq() + events)
  }

  /**
   * Any number of successful reads that all derive the same pair raise StatusChanged at most
   * once in total: once if the pair differs from the one remembered, never otherwise.
   */
  lemma {:induction false} SameReadingsFireAtMostOnce(r: Recorded, results: seq<Enumeration>, d: DerivedPair)
    requires |results| > 0
    requires forall i :: 0 <= i < |results| ==> results[i].Enumerated? && DerivedStatus(results[i].connections) == d
    ensures Run(r, results).0 == RecordedFor(d)
    ensures Run(r, results).1 == if r == RecordedFor(d) then [] else [WiFiStatusEventArgs(d.connected, d.ssid)]
    decreases |results|
  {
    SuccessfulReadPublishesOnChange(r, results[0].connections);
    if |results| > 1 {
      var next := Step(r, results[0]).recorded;
      SameReadingsFireAtMostOnce(next, results[1..], d);
    }
  }

  /** Failed reads never change the remembered pair, and each raises exactly one event. */
  lemma {:induction false} FailuresKeepRecorded(r: Recorded, results: seq<Enumeration>)
    requires forall i :: 0 <= i < |results| ==> !results[i].Enumerated?
    ensures Run(r, results).0 == r
    ensures Run(r, results).1 == seq(|results|, _ => WiFiStatusEventArgs(false, ""))
  {
    if |results| > 0 {
      FailuresKeepRecorded(r, results[1..]);
    }
  }
}
