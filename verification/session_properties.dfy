/** Properties of the session controller over single events and over
    whole event sequences. */
module SessionProperties {
  import opened Wrappers
  import opened Permissions
  import opened Devices
  import opened Session

  /** The device list holds only filtered devices, each address once, and a
      running scan always has a timeout pending that will stop it. */
  predicate Valid(s: State)
  {
    && NoDuplicates(s.devices)
    && AllAccepted(s.devices)
    && (s.scanning ==> s.pendingStops >= 1)
  }

  /** Every event keeps the state valid. */
  lemma StepPreservesValid(s: State, e: Event)
    requires Valid(s)
    ensures Valid(Step(s, e).state)
  {
  }

  /** Every event sequence keeps the state valid. */
  lemma {:induction false} RunPreservesValid(s: State, events: seq<Event>)
    decreases |events|
    requires Valid(s)
    ensures Valid(Run(s, events))
  {
    if events != [] {
      StepPreservesValid(s, events[0]);
      RunPreservesValid(Step(s, events[0]).state, events[1..]);
    }
  }

  /** Whatever happens after start-up, the list never holds a duplicate or
      a device the filter rejects, and no scan runs without a pending
      timeout. */
  lemma ReachableValid(events: seq<Event>)
    ensures NoDuplicates(Run(Initial, events).devices)
    ensures AllAccepted(Run(Initial, events).devices)
    ensures Run(Initial, events).scanning ==> Run(Initial, events).pendingStops >= 1
  {
    RunPreservesValid(Initial, events);
  }

  /** No event sets the activity's toggle flag: it is only ever reset. */
  lemma {:induction false} ToggleFlagNeverSet(s: State, events: seq<Event>)
    decreases |events|
    requires !s.toggledOn
    ensures !Run(s, events).toggledOn
  {
    if events != [] {
      ToggleFlagNeverSet(Step(s, events[0]).state, events[1..]);
    }
  }

  /** Every event other than an explicit disconnect keeps the earlier log
      entries as they were and adds at most one at the end; an entry is
      added only by a CONNECTED or DISCONNECTED callback or by a
      notification carrying a value. */
  lemma LogAppendOnly(s: State, e: Event)
    requires !e.DisconnectRequested?
    ensures s.messages <= Step(s, e).state.messages
    ensures |Step(s, e).state.messages| <= |s.messages| + 1
    ensures |Step(s, e).state.messages| == |s.messages| + 1 <==>
      || (e.ConnectionStateChanged? && (e.newState == StateConnected || e.newState == StateDisconnected))
      || (e.CharacteristicChanged? && e.value.Some?)
  {
  }

  /** Without an explicit disconnect, a run only ever appends to the log. */
  lemma {:induction false} RunLogAppendOnly(s: State, events: seq<Event>)
    decreases |events|
    requires forall i :: 0 <= i < |events| ==> !events[i].DisconnectRequested?
    ensures s.messages <= Run(s, events).messages
  {
    if events != [] {
      LogAppendOnly(s, events[0]);
      RunLogAppendOnly(Step(s, events[0]).state, events[1..]);
    }
  }

  /** A scan is started only from the scan button with all four permissions
      held, or from the launcher with all four granted, and only when no
      scan was running; conversely each of those starts one. */
  lemma ScanStartsOnlyWhenPermitted(s: State, e: Event)
    ensures StartScan in Step(s, e).commands <==>
      && !s.scanning
      && ((e.ScanRequested? && AllGranted(e.granted)) || (e.PermissionsAnswered? && LauncherGranted(e.answers)))
  {
  }

  /** A refused permission leaves the state exactly as it was. */
  lemma RefusalChangesNothing(s: State, e: Event)
    requires (e.ScanRequested? && !AllGranted(e.granted)) || (e.PermissionsAnswered? && !LauncherGranted(e.answers))
    ensures Step(s, e).state == s
    ensures StartScan !in Step(s, e).commands
  {
  }

  /** Pressing scan twice restores the scanning flag; a started scan always
      begins from an empty list, a stopped one keeps its list. */
  lemma ScanToggleTwice(s: State)
    ensures ScanLeDevice(ScanLeDevice(s).state).state.scanning == s.scanning
    ensures ScanLeDevice(ScanLeDevice(s).state).state.devices == []
  {
  }

  /** In a valid state a running scan is ended by the next timeout to run. */
  lemma TimeoutEndsRunningScan(s: State)
    requires Valid(s) && s.scanning
    ensures !Step(s, ScanPeriodElapsed).state.scanning
    ensures Step(s, ScanPeriodElapsed).commands == [StopScan]
  {
  }

  /** The scan timeout is not cancelled when a scan is toggled off: after a
      stop and a restart, the earlier window's timeout is still pending
      beside the new one, and when it runs it ends the new scan while the
      new window's timeout is still pending. */
  lemma StaleTimeoutStopsNewScan(s: State)
    requires s.scanning && s.pendingStops == 1
    ensures
      var stopped := Step(s, ScanRequested(AllPermissions)).state;
      var restarted := Step(stopped, ScanRequested(AllPermissions)).state;
      var timedOut := Step(restarted, ScanPeriodElapsed).state;
      && !stopped.scanning && stopped.pendingStops == 1
      && restarted.scanning && restarted.pendingStops == 2
      && !timedOut.scanning && timedOut.pendingStops == 1
  {
  }

  /** The single-result events a batch stands for, in arrival order. */
  function Singles(results: seq<Device>): (events: seq<Event>)
    ensures |events| == |results|
    ensures forall i :: 0 <= i < |results| ==> events[i] == ScanResult(results[i])
  {
    seq(|results|, i requires 0 <= i < |results| => ScanResult(results[i]))
  }

  /** A batch of results has the effect of its results delivered one at a
      time in order. */
  lemma {:induction false} BatchIsSequenceOfSingles(s: State, results: seq<Device>)
    decreases |results|
    ensures Step(s, BatchScanResults(results)).state == Run(s, Singles(results))
    ensures Step(s, BatchScanResults(results)).commands == []
  {
    if results != [] {
      var next := Step(s, ScanResult(results[0])).state;
      assert Singles(results)[0] == ScanResult(results[0]);
      assert Singles(results)[1..] == Singles(results[1..]);
      BatchIsSequenceOfSingles(next, results[1..]);
    }
  }

  /** A disconnect leaves the session in the same cleared state whatever it
      started from (the scan and its timeouts aside, which it does not
      touch), shows "Disconnected", and a second disconnect does nothing
      further and issues no platform call. */
  lemma DisconnectClearsAndIsIdempotent(s: State, t: State)
    requires s.scanning == t.scanning && s.pendingStops == t.pendingStops
    ensures DisconnectDevice(s).state == DisconnectDevice(t).state
    ensures Status(DisconnectDevice(s).state) == "Disconnected"
    ensures DisconnectDevice(DisconnectDevice(s).state) == Outcome(DisconnectDevice(s).state, [])
  {
  }

  /** The status shown is "Connected" exactly after a CONNECTED callback
      and "Disconnected" after a DISCONNECTED one, whatever came before. */
  lemma StatusFollowsConnectionCallbacks(s: State, peer: Option<Device>)
    ensures Status(Step(s, ConnectionStateChanged(peer, StateConnected)).state) == "Connected"
    ensures Status(Step(s, ConnectionStateChanged(peer, StateDisconnected)).state) == "Disconnected"
  {
  }

  /** Selecting a device while a link is open neither closes the old link nor
      changes the connection flag or the log, whether or not a new handle is
      returned. */
  lemma ConnectKeepsPreviousSession(s: State, d: Device, linked: bool)
    ensures Step(s, DeviceSelected(d, linked)).state.connected == s.connected
    ensures Step(s, DeviceSelected(d, linked)).state.messages == s.messages
    ensures DisconnectLink !in Step(s, DeviceSelected(d, linked)).commands
    ensures CloseLink !in Step(s, DeviceSelected(d, linked)).commands
  {
  }

  /** A callback from a link left open by an earlier connect still drives
      the session: its DISCONNECTED marks the session disconnected although
      the current link is up. */
  lemma StaleLinkDisconnects(a: Device, b: Device)
    ensures
      var first := Step(Step(Initial, DeviceSelected(a, true)).state, ConnectionStateChanged(Some(a), StateConnected)).state;
      var up := Step(Step(first, DeviceSelected(b, true)).state, ConnectionStateChanged(Some(b), StateConnected)).state;
      && up.connected && up.gatt == Some(b)
      && !Step(up, ConnectionStateChanged(Some(a), StateDisconnected)).state.connected
  {
  }

  /** Without a handle a toggle has no effect at all; with one it issues
      exactly one write, of "U" or "L" when the characteristic was found
      and of a null characteristic otherwise. The state never changes. */
  lemma ToggleEffect(s: State, on: bool, channelFound: bool)
    ensures s.gatt.None? ==> Step(s, ToggleChanged(on, channelFound)) == Outcome(s, [])
    ensures s.gatt.Some? && channelFound ==>
      Step(s, ToggleChanged(on, channelFound)).commands == [WriteCharacteristic(Some(if on then "U" else "L"))]
    ensures s.gatt.Some? && !channelFound ==>
      Step(s, ToggleChanged(on, channelFound)).commands == [WriteCharacteristic(None)]
    ensures Step(s, ToggleChanged(on, channelFound)).state == s
  {
  }

  /** A notification adds its text as the last log entry, after all
      earlier ones. */
  lemma NotificationAppended(s: State, peer: Option<Device>, text: string)
    ensures Step(s, CharacteristicChanged(peer, Some(text))).state.messages ==
      s.messages + ["Message from " + NameText(peer) + ": " + text]
  {
  }

  const Sensor: Device := Device("AA:BB", Some("HM-10-BLE"))

  /** Scanning with all permissions and hearing the sensor twice lists it
      exactly once. */
  lemma ScanFindsSensorOnce()
    ensures
      var scanning := Step(Initial, ScanRequested(AllPermissions)).state;
      var found := Step(Step(scanning, ScanResult(Sensor)).state, ScanResult(Sensor)).state;
      scanning.scanning && found.devices == [Sensor]
  {
    FirstMatchingAdvertisement();
    var s1 := Step(Initial, ScanRequested(AllPermissions)).state;
    assert s1.devices == [];
    var s2 := Step(s1, ScanResult(Sensor)).state;
    assert Listed(s2.devices, Sensor.address);
  }

  /** Connecting to the sensor and hearing CONNECTED then a successful
      discovery shows "Connected" and logs exactly one line. */
  lemma ConnectScenario(s: State)
    ensures
      var linked := Step(s, DeviceSelected(Sensor, true));
      var up := Step(linked.state, ConnectionStateChanged(Some(Sensor), StateConnected));
      var ready := Step(up.state, ServicesDiscovered(Some(Sensor), GattSuccess, true));
      && linked.commands == [OpenLink(Sensor)]
      && up.commands == [DiscoverServices]
      && ready.commands == [SetNotification(true), WriteDescriptor(true)]
      && Status(ready.state) == "Connected"
      && ready.state.messages == s.messages + ["Connected to HM-10-BLE"]
  {
    assert NameText(Some(Sensor)) == "HM-10-BLE";
    assert "Connected to " + "HM-10-BLE" == "Connected to HM-10-BLE";
  }

  /** While connected, the sensor sending "hello" appends one tagged line. */
  lemma HelloScenario(s: State)
    ensures Step(s, CharacteristicChanged(Some(Sensor), Some("hello"))).state.messages ==
      s.messages + ["Message from HM-10-BLE: hello"]
  {
    assert NameText(Some(Sensor)) == "HM-10-BLE";
    assert "Message from " + "HM-10-BLE" + ": " + "hello" == "Message from HM-10-BLE: hello";
  }

  /** The sensor dropping the link shows "Disconnected", logs one line and
      issues no platform call (no reconnect). */
  lemma DropScenario(s: State)
    ensures
      var dropped := Step(s, ConnectionStateChanged(Some(Sensor), StateDisconnected));
      && Status(dropped.state) == "Disconnected"
      && dropped.state.messages == s.messages + ["Disconnected from HM-10-BLE"]
      && dropped.commands == []
  {
    assert NameText(Some(Sensor)) == "HM-10-BLE";
    assert "Disconnected from " + "HM-10-BLE" == "Disconnected from HM-10-BLE";
  }
}
