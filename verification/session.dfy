/** The BLE session controller of the main activity as a pure, event-driven
    state machine. Every platform callback, user intent and the scan timeout
    is one atomic `Event`; `Step` maps a state and an event to the next state
    and the platform calls the activity makes (`Command`s), which are not
    modelled further. */
module Session {
  import opened Wrappers
  import opened Permissions
  import opened Devices

  /** The scan window, in milliseconds. */
  const ScanPeriodMs: int := 10000

  /** Android's `BluetoothProfile.STATE_DISCONNECTED` and `STATE_CONNECTED`. */
  const StateDisconnected: int := 0
  const StateConnected: int := 2

  /** Android's `BluetoothGatt.GATT_SUCCESS`. */
  const GattSuccess: int := 0

  /** The observable fields of the activity. `gatt` is the GATT handle
      stored by the last `connectToDevice`, standing for the device it was
      opened on (None when no handle is held). `pendingStops` counts the
      scan-stop runnables posted to the handler that have not run yet. */
  datatype State = State(
    scanning: bool,
    devices: seq<Device>,
    connected: bool,
    toggledOn: bool,
    messages: seq<string>,
    gatt: Option<Device>,
    pendingStops: nat)

  const Initial: State := State(false, [], false, false, [], None, 0)

  /** The platform calls the controller issues. A call taking the looked-up
      characteristic records whether the lookup found it: the activity makes
      the call with a null argument when it did not. A characteristic write
      carries the value set on the characteristic, or None for a null one. */
  datatype Command =
    | RequestPermissions(permissions: seq<Permission>)
    | ScheduleScanStop(delayMs: int)
    | StartScan
    | StopScan
    | OpenLink(device: Device)
    | DiscoverServices
    | SetNotification(found: bool)
    | WriteDescriptor(found: bool)
    | WriteCharacteristic(value: Option<string>)
    | DisconnectLink
    | CloseLink

  datatype Outcome = Outcome(state: State, commands: seq<Command>)

  /** The events that drive the controller. `linked` says whether
      `connectGatt` returned a handle; `peer` is `gatt?.device` of a
      callback (None when the callback's handle is null); `channelFound`
      says whether the service/characteristic lookup on the handle returned
      a characteristic; a notification's value arrives already decoded as
      text, or None when the characteristic or value was null. */
  datatype Event =
    | ScanRequested(granted: set<Permission>)
    | PermissionsAnswered(answers: map<Permission, bool>)
    | ScanPeriodElapsed
    | ScanResult(device: Device)
    | BatchScanResults(results: seq<Device>)
    | ScanFailed(errorCode: int)
    | DeviceSelected(device: Device, linked: bool)
    | ConnectionStateChanged(peer: Option<Device>, newState: int)
    | ServicesDiscovered(peer: Option<Device>, status: int, channelFound: bool)
    | CharacteristicChanged(peer: Option<Device>, value: Option<string>)
    | ToggleChanged(on: bool, channelFound: bool)
    | DisconnectRequested

  /** The peer's name as string interpolation renders it: "null" when the
      handle, its device or the device's name is null. */
  function NameText(peer: Option<Device>): (r: string)
    ensures peer.Some? && peer.value.name.Some? ==> r == peer.value.name.value
    ensures peer.None? || peer.value.name.None? ==> r == "null"
  {
    match peer
    case Some(Device(_, Some(n))) => n
    case _ => "null"
  }

  /** The status line shown to the user. */
  function Status(s: State): (r: string)
    ensures r == "Connected" <==> s.connected
    ensures r == "Disconnected" <==> !s.connected
  {
    if s.connected then "Connected" else "Disconnected"
  }

  /** The scan button's action: start a scan when none runs, otherwise stop
      it. Starting clears the list and posts one more timeout; stopping
      neither touches the list nor cancels any posted timeout. */
  function ScanLeDevice(s: State): (r: Outcome)
    ensures r.state.scanning == !s.scanning
    ensures r.state.devices == (if s.scanning then s.devices else [])
    ensures r.state.pendingStops == (if s.scanning then s.pendingStops else s.pendingStops + 1)
    ensures r.state.(scanning := s.scanning, devices := s.devices, pendingStops := s.pendingStops) == s
    ensures StartScan in r.commands <==> !s.scanning
    ensures StopScan in r.commands <==> s.scanning
    ensures ScheduleScanStop(ScanPeriodMs) in r.commands <==> !s.scanning
  {
    if !s.scanning then
      Outcome(s.(scanning := true, devices := [], pendingStops := s.pendingStops + 1),
              [ScheduleScanStop(ScanPeriodMs), StartScan])
    else
      Outcome(s.(scanning := false), [StopScan])
  }

  /** The scan button: toggle the scan when every permission is held,
      otherwise ask for them and change nothing. */
  function CheckPermissionsAndScan(s: State, granted: set<Permission>): (r: Outcome)
    ensures AllGranted(granted) ==> r == ScanLeDevice(s)
    ensures !AllGranted(granted) ==> r.state == s && r.commands == [RequestPermissions(Required)]
  {
    if AllGranted(granted) then ScanLeDevice(s)
    else Outcome(s, [RequestPermissions(Required)])
  }

  /** The permission launcher's callback: toggle the scan when all four were
      granted, otherwise do nothing. */
  function OnPermissionsResult(s: State, answers: map<Permission, bool>): (r: Outcome)
    ensures LauncherGranted(answers) ==> r == ScanLeDevice(s)
    ensures !LauncherGranted(answers) ==> r == Outcome(s, [])
  {
    if LauncherGranted(answers) then ScanLeDevice(s) else Outcome(s, [])
  }

  /** A posted timeout runs: whatever scan runs now is stopped. With no
      timeout pending there is nothing to run. */
  function OnScanPeriodElapsed(s: State): (r: Outcome)
    ensures s.pendingStops == 0 ==> r == Outcome(s, [])
    ensures s.pendingStops > 0 ==>
      && !r.state.scanning
      && r.state.pendingStops == s.pendingStops - 1
      && r.state.(scanning := s.scanning, pendingStops := s.pendingStops) == s
      && r.commands == [StopScan]
  {
    if s.pendingStops == 0 then Outcome(s, [])
    else Outcome(s.(scanning := false, pendingStops := s.pendingStops - 1), [StopScan])
  }

  /** `connectToDevice`: the handle is replaced by what `connectGatt`
      returns, a handle on the chosen device or null. A previous link is not
      disconnected or closed, and the connection flag, the log and the lists
      are left alone. */
  function ConnectToDevice(s: State, d: Device, linked: bool): (r: Outcome)
    ensures linked ==> r.state.gatt == Some(d)
    ensures !linked ==> r.state.gatt.None?
    ensures r.state.(gatt := s.gatt) == s
    ensures r.commands == [OpenLink(d)]
  {
    Outcome(s.(gatt := if linked then Some(d) else None), [OpenLink(d)])
  }

  /** `disconnectDevice`: close the current handle if any and clear the
      session; a running scan and its timeouts are left alone. */
  function DisconnectDevice(s: State): (r: Outcome)
    ensures r.state.gatt.None? && !r.state.connected && !r.state.toggledOn
    ensures r.state.messages == [] && r.state.devices == []
    ensures r.state.scanning == s.scanning && r.state.pendingStops == s.pendingStops
    ensures r.commands == (if s.gatt.Some? then [DisconnectLink, CloseLink] else [])
  {
    Outcome(
      State(s.scanning, [], false, false, [], None, s.pendingStops),
      if s.gatt.Some? then [DisconnectLink, CloseLink] else [])
  }

  /** A connection-state callback. CONNECTED marks the session connected at
      once (service discovery is only requested) and logs one line;
      DISCONNECTED marks it disconnected and logs one line, keeping the
      handle; any other state changes nothing. */
  function OnConnectionStateChange(s: State, peer: Option<Device>, newState: int): (r: Outcome)
    ensures newState == StateConnected ==>
      && r.state == s.(connected := true, messages := s.messages + ["Connected to " + NameText(peer)])
      && r.commands == (if peer.Some? then [DiscoverServices] else [])
    ensures newState == StateDisconnected ==>
      && r.state == s.(connected := false, messages := s.messages + ["Disconnected from " + NameText(peer)])
      && r.commands == []
    ensures newState != StateConnected && newState != StateDisconnected ==> r == Outcome(s, [])
  {
    if newState == StateConnected then
      Outcome(
        s.(connected := true, messages := s.messages + ["Connected to " + NameText(peer)]),
        if peer.Some? then [DiscoverServices] else [])
    else if newState == StateDisconnected then
      Outcome(s.(connected := false, messages := s.messages + ["Disconnected from " + NameText(peer)]), [])
    else
      Outcome(s, [])
  }

  /** Service discovery: on success, through a non-null handle, turn on
      notifications for the looked-up characteristic and write its
      descriptor, even when the lookup found nothing; the state never
      changes. */
  function OnServicesDiscovered(s: State, peer: Option<Device>, status: int, channelFound: bool): (r: Outcome)
    ensures r.state == s
    ensures status == GattSuccess && peer.Some? ==>
      r.commands == [SetNotification(channelFound), WriteDescriptor(channelFound)]
    ensures status != GattSuccess || peer.None? ==> r.commands == []
  {
    Outcome(s, if status == GattSuccess && peer.Some?
               then [SetNotification(channelFound), WriteDescriptor(channelFound)]
               else [])
  }

  /** A notification: a non-null value is logged, tagged with the peer. */
  function OnCharacteristicChanged(s: State, peer: Option<Device>, value: Option<string>): (r: Outcome)
    ensures value.Some? ==> r.state == s.(messages := s.messages + ["Message from " + NameText(peer) + ": " + value.value])
    ensures value.None? ==> r.state == s
    ensures r.commands == []
  {
    match value
    case Some(text) => Outcome(s.(messages := s.messages + ["Message from " + NameText(peer) + ": " + text]), [])
    case None => Outcome(s, [])
  }

  /** The one-character command sent for a toggle position. */
  function TogglePayload(on: bool): (r: string)
    ensures |r| == 1
    ensures r == "U" <==> on
    ensures r == "L" <==> !on
  {
    if on then "U" else "L"
  }

  /** `writeToggleToDevice`: with a handle, exactly one write of the looked-up
      characteristic, carrying the toggle's payload (null when the lookup
      found nothing); without a handle, nothing. The state (including
      `toggledOn`) never changes. */
  function WriteToggleToDevice(s: State, on: bool, channelFound: bool): (r: Outcome)
    ensures r.state == s
    ensures s.gatt.Some? && channelFound ==> r.commands == [WriteCharacteristic(Some(TogglePayload(on)))]
    ensures s.gatt.Some? && !channelFound ==> r.commands == [WriteCharacteristic(None)]
    ensures s.gatt.None? ==> r.commands == []
  {
    Outcome(s, if s.gatt.None? then []
               else [WriteCharacteristic(if channelFound then Some(TogglePayload(on)) else None)])
  }

  /** One event, dispatched to its handler. */
  function Step(s: State, e: Event): Outcome
  {
    match e
    case ScanRequested(granted) => CheckPermissionsAndScan(s, granted)
    case PermissionsAnswered(answers) => OnPermissionsResult(s, answers)
    case ScanPeriodElapsed => OnScanPeriodElapsed(s)
    case ScanResult(d) => Outcome(s.(devices := AddResult(s.devices, d)), [])
    case BatchScanResults(results) => Outcome(s.(devices := AddBatch(s.devices, results)), [])
    case ScanFailed(_) => Outcome(s, [])
    case DeviceSelected(d, linked) => ConnectToDevice(s, d, linked)
    case ConnectionStateChanged(peer, newState) => OnConnectionStateChange(s, peer, newState)
    case ServicesDiscovered(peer, status, channelFound) => OnServicesDiscovered(s, peer, status, channelFound)
    case CharacteristicChanged(peer, value) => OnCharacteristicChanged(s, peer, value)
    case ToggleChanged(on, channelFound) => WriteToggleToDevice(s, on, channelFound)
    case DisconnectRequested => DisconnectDevice(s)
  }

  /** A sequence of events, applied in order; the commands are dropped. */
  function Run(s: State, events: seq<Event>): State
    decreases |events|
  {
    if events == [] then s else Run(Step(s, events[0]).state, events[1..])
  }
}
