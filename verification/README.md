# CarGuard BLE session controller — Dafny model

This project models the Bluetooth Low Energy session controller of the
CarGuard Android app's `MainActivity`: scanning for "HM-10" serial modules,
keeping the list of discovered devices, connecting to one, logging
connection events and notifications, writing the one-character toggle
command, and disconnecting. The activity's mutable fields become an
immutable `Session.State` record; every Android callback, user intent and
the scan timeout becomes one atomic `Session.Event`; and `Session.Step` maps
a state and an event to the next state plus the platform calls the activity
makes (`Session.Command`: start/stop scan, open/close the GATT link, write a
payload, ...).

Modules:

- `Wrappers`: `Option`, standing for Kotlin's nullable references.
- `CaseFold`: case-insensitive substring search (`contains(…, ignoreCase = true)`),
  a reference predicate and the executable search proved equal to it.
- `Permissions`: the four permissions and the two permission gates (the
  self-check before a scan and the launcher's callback).
- `Devices`: `Device` (address + optional name), the "HM-10" name filter, and
  the order-preserving, address-keyed device list.
- `Session`: state, events, commands, one function per handler, `Step`, `Run`.
- `SessionProperties`: properties of single steps and of whole runs.

The model follows the code where it departs from the app's intended design:

- `connectToDevice` only replaces the GATT handle; it does not disconnect or
  close a previous link, so callbacks from the old link keep changing the
  session (`SessionProperties.StaleLinkDisconnects`).
- The DISCONNECTED callback clears the connection flag and logs a line but
  keeps the GATT handle; only `disconnectDevice` drops it.
- Toggling a scan off does not cancel the posted timeout. The state counts
  the posted stops still pending, so an earlier window's timeout is shown
  still pending after a restart and ending the new scan
  (`SessionProperties.StaleTimeoutStopsNewScan`).
- `connectGatt` may return null; the handle is then dropped (not closed),
  and later toggles and disconnects issue no call.
- A toggle or a successful discovery whose characteristic lookup fails
  still calls the platform, with a null characteristic.
- `connected` becomes true on the CONNECTED callback, before service
  discovery completes.
- The activity's `isToggledOn` field is only ever reset, never set
  (`SessionProperties.ToggleFlagNeverSet`); the switch's position lives in
  the UI.
- The toggle writes "U" for on and "L" for off.

## Model

| member | source | states |
|---|---|---|
| CaseFold.IndexOfIgnoreCase | app/src/main/java/com/example/bluetoothsensorapp/MainActivity.kt:162 | The search returns -1 exactly when the name does not contain the marker ignoring case, otherwise the first offset where it matches. |
| CaseFold.RegionMatches | app/src/main/java/com/example/bluetoothsensorapp/MainActivity.kt:162 | Character-wise case-insensitive comparison at an offset, false when too little text is left. |
| CaseFold.ContainsIgnoresCaseOfText | app/src/main/java/com/example/bluetoothsensorapp/MainActivity.kt:162 | Lower- or upper-casing the name never changes whether it contains the marker. |
| CaseFold.ContainsIgnoresCaseOfPattern | app/src/main/java/com/example/bluetoothsensorapp/MainActivity.kt:162 | Lower- or upper-casing the marker never changes the answer. |
| CaseFold.ContainsInContext | app/src/main/java/com/example/bluetoothsensorapp/MainActivity.kt:162 | A name containing the marker still contains it with any text added before or after. |
| Devices.IsCandidate | app/src/main/java/com/example/bluetoothsensorapp/MainActivity.kt:159-162 | A device passes exactly when its name is non-null and contains "HM-10" ignoring case. |
| Devices.NamelessRejected | app/src/main/java/com/example/bluetoothsensorapp/MainActivity.kt:161 | A device with a null name is always rejected. |
| Devices.AcceptsIgnoresCase | app/src/main/java/com/example/bluetoothsensorapp/MainActivity.kt:161-162 | The filter's verdict does not depend on the case of the name. |
| Devices.FilterExamples | app/src/main/java/com/example/bluetoothsensorapp/MainActivity.kt:160-162 | "my hm-10 sensor" passes, "HM-1" does not. |
| Devices.AddResult | app/src/main/java/com/example/bluetoothsensorapp/MainActivity.kt:157-167 | A result grows the list by one, at the end and leaving earlier entries alone, exactly when it passes the filter and its address is not listed; otherwise the list is unchanged; no duplicates and no rejected device ever enter. |
| Devices.AddBatch | app/src/main/java/com/example/bluetoothsensorapp/MainActivity.kt:170-182 | A batch only appends, only accepted devices from the batch, and keeps the list free of duplicates. |
| Devices.OnBatchScanResults | app/src/main/java/com/example/bluetoothsensorapp/MainActivity.kt:170-182 | The batch callback's loop computes the in-order fold of the single-result rule. |
| Devices.AddBatchListed | app/src/main/java/com/example/bluetoothsensorapp/MainActivity.kt:172-181 | After a batch an address is listed iff it was before or an accepted result of the batch carries it. |
| Devices.AddBatchSplit | app/src/main/java/com/example/bluetoothsensorapp/MainActivity.kt:172-181 | Delivering a batch in two parts, in order, equals delivering it whole. |
| Devices.AddBatchUnchanged | app/src/main/java/com/example/bluetoothsensorapp/MainActivity.kt:175-178 | A batch whose accepted results are all listed already changes nothing. |
| Devices.AddBatchIdempotent | app/src/main/java/com/example/bluetoothsensorapp/MainActivity.kt:170-182 | Delivering the same batch twice adds nothing the second time. |
| Devices.SingleIsBatchOfOne | app/src/main/java/com/example/bluetoothsensorapp/MainActivity.kt:157-182 | A batch of one result equals the single-result callback. |
| Devices.FirstMatchingAdvertisement | app/src/main/java/com/example/bluetoothsensorapp/MainActivity.kt:159-166 | "HM-10-BLE" at "AA:BB" seen by an empty list becomes its only entry. |
| Permissions.AllGrantedIffEveryRequired | app/src/main/java/com/example/bluetoothsensorapp/MainActivity.kt:101-104 | The self-check passes iff each of the four permissions it tests is held, which is iff every permission is held. |
| Permissions.LauncherAgreesWithSelfCheck | app/src/main/java/com/example/bluetoothsensorapp/MainActivity.kt:53-56 | The launcher admits exactly the answers that grant what the self-check requires. |
| Permissions.OneDenialRefuses | app/src/main/java/com/example/bluetoothsensorapp/MainActivity.kt:53-56 | One denied or missing answer refuses the scan. |
| Session.Status | app/src/main/java/com/example/bluetoothsensorapp/MainActivity.kt:73 | The status is "Connected" iff connected and "Disconnected" iff not. |
| Session.NameText | app/src/main/java/com/example/bluetoothsensorapp/MainActivity.kt:197 | The peer's name, or "null" when the handle, device or name is null. |
| Session.ScanLeDevice | app/src/main/java/com/example/bluetoothsensorapp/MainActivity.kt:121-134 | Flips the scanning flag; a start empties the list, starts the scan and posts one more 10000 ms stop; a stop keeps the list and cancels no posted stop; nothing else changes. |
| Session.CheckPermissionsAndScan | app/src/main/java/com/example/bluetoothsensorapp/MainActivity.kt:99-118 | With all four permissions held it toggles the scan; otherwise it requests them and leaves the state unchanged. |
| Session.OnPermissionsResult | app/src/main/java/com/example/bluetoothsensorapp/MainActivity.kt:50-60 | A grant of all four toggles the scan; anything else does nothing. |
| Session.OnScanPeriodElapsed | app/src/main/java/com/example/bluetoothsensorapp/MainActivity.kt:123-126 | A pending posted stop, when it runs, clears the scanning flag, stops the scan and is no longer pending; with none pending nothing happens. |
| Session.ConnectToDevice | app/src/main/java/com/example/bluetoothsensorapp/MainActivity.kt:137-139 | The handle becomes whatever connectGatt returns (a link on the device, or null); the previous link is not torn down and nothing else changes. |
| Session.DisconnectDevice | app/src/main/java/com/example/bluetoothsensorapp/MainActivity.kt:142-153 | Ends with no handle, not connected, toggle off, empty log and empty list; the scan and its pending stops are kept; the link is disconnected and closed only if there was one. |
| Session.OnConnectionStateChange | app/src/main/java/com/example/bluetoothsensorapp/MainActivity.kt:192-205 | CONNECTED sets connected and appends one "Connected to" line, asking for discovery; DISCONNECTED clears connected and appends one "Disconnected from" line; other states change nothing. |
| Session.OnServicesDiscovered | app/src/main/java/com/example/bluetoothsensorapp/MainActivity.kt:208-216 | Never changes the state; on success through a non-null handle it enables notifications and writes the descriptor, with a null characteristic when the lookup failed. |
| Session.OnCharacteristicChanged | app/src/main/java/com/example/bluetoothsensorapp/MainActivity.kt:220-227 | A non-null value appends one "Message from <name>: <text>" line; a null one changes nothing. |
| Session.TogglePayload | app/src/main/java/com/example/bluetoothsensorapp/MainActivity.kt:232 | The payload is one character, "U" iff on and "L" iff off. |
| Session.WriteToggleToDevice | app/src/main/java/com/example/bluetoothsensorapp/MainActivity.kt:231-238 | With a handle, exactly one characteristic write, carrying "U"/"L" when the characteristic was found and a null characteristic otherwise; without a handle, none; the state never changes. |
| SessionProperties.StepPreservesValid | app/src/main/java/com/example/bluetoothsensorapp/MainActivity.kt:121-182 | No event puts a duplicate or a rejected device into the list, or leaves a scan running with no stop pending. |
| SessionProperties.RunPreservesValid | app/src/main/java/com/example/bluetoothsensorapp/MainActivity.kt:121-182 | No sequence of events does either. |
| SessionProperties.ReachableValid | app/src/main/java/com/example/bluetoothsensorapp/MainActivity.kt:44 | From start-up, the list always holds distinct addresses of accepted devices and a running scan always has a stop pending. |
| SessionProperties.ToggleFlagNeverSet | app/src/main/java/com/example/bluetoothsensorapp/MainActivity.kt:48 | The activity's toggle flag, false at start, stays false under every run. |
| SessionProperties.LogAppendOnly | app/src/main/java/com/example/bluetoothsensorapp/MainActivity.kt:46 | Every event but a disconnect keeps earlier log entries and adds at most one, exactly on a CONNECTED/DISCONNECTED callback or a notification with a value. |
| SessionProperties.RunLogAppendOnly | app/src/main/java/com/example/bluetoothsensorapp/MainActivity.kt:192-227 | Without a disconnect, a run only appends to the log. |
| SessionProperties.ScanStartsOnlyWhenPermitted | app/src/main/java/com/example/bluetoothsensorapp/MainActivity.kt:50-60 | A scan starts iff no scan runs and the event is a scan press with all four held or a launcher answer granting all four. |
| SessionProperties.RefusalChangesNothing | app/src/main/java/com/example/bluetoothsensorapp/MainActivity.kt:99-118 | A missing or denied permission leaves the state unchanged and starts no scan. |
| SessionProperties.ScanToggleTwice | app/src/main/java/com/example/bluetoothsensorapp/MainActivity.kt:121-134 | Two presses restore the scanning flag and leave the list empty. |
| SessionProperties.TimeoutEndsRunningScan | app/src/main/java/com/example/bluetoothsensorapp/MainActivity.kt:123-126 | In a valid state the next posted stop to run ends a running scan and stops it. |
| SessionProperties.StaleTimeoutStopsNewScan | app/src/main/java/com/example/bluetoothsensorapp/MainActivity.kt:123-133 | Stopping cancels no posted stop: after stop and restart two stops are pending, and the earlier one ends the new scan while the new one stays pending. |
| SessionProperties.BatchIsSequenceOfSingles | app/src/main/java/com/example/bluetoothsensorapp/MainActivity.kt:157-182 | A batch has the effect of its results delivered one at a time in order. |
| SessionProperties.DisconnectClearsAndIsIdempotent | app/src/main/java/com/example/bluetoothsensorapp/MainActivity.kt:142-153 | Disconnect reaches the same cleared state from anywhere with the same scan state, shows "Disconnected", and a second one does nothing and issues no call. |
| SessionProperties.StatusFollowsConnectionCallbacks | app/src/main/java/com/example/bluetoothsensorapp/MainActivity.kt:193-203 | After CONNECTED the status is "Connected", after DISCONNECTED "Disconnected". |
| SessionProperties.ConnectKeepsPreviousSession | app/src/main/java/com/example/bluetoothsensorapp/MainActivity.kt:137-139 | Connecting again closes nothing and keeps the flag and log, whether or not a handle is returned. |
| SessionProperties.StaleLinkDisconnects | app/src/main/java/com/example/bluetoothsensorapp/MainActivity.kt:137-139 | A DISCONNECTED from a superseded link marks the session disconnected while the new link is up. |
| SessionProperties.ToggleEffect | app/src/main/java/com/example/bluetoothsensorapp/MainActivity.kt:231-238 | Without a handle a toggle has no effect; with one it writes exactly once, "U" or "L" when the characteristic exists and a null characteristic otherwise; the state never changes. |
| SessionProperties.NotificationAppended | app/src/main/java/com/example/bluetoothsensorapp/MainActivity.kt:220-226 | A notification's text is the new last log entry after all earlier ones. |
| SessionProperties.ScanFindsSensorOnce | app/src/main/java/com/example/bluetoothsensorapp/MainActivity.kt:121-166 | A permitted scan hearing the sensor twice lists it once. |
| SessionProperties.ConnectScenario | app/src/main/java/com/example/bluetoothsensorapp/MainActivity.kt:137-216 | Connect, CONNECTED and a successful discovery issue open, discover and subscribe calls, show "Connected" and log exactly one "Connected to HM-10-BLE" line. |
| SessionProperties.HelloScenario | app/src/main/java/com/example/bluetoothsensorapp/MainActivity.kt:220-226 | "hello" from the sensor appends "Message from HM-10-BLE: hello". |
| SessionProperties.DropScenario | app/src/main/java/com/example/bluetoothsensorapp/MainActivity.kt:199-203 | A dropped link shows "Disconnected", logs one line and reconnects nothing. |

## Left out

- Android SDK calls (`BluetoothAdapter`, `BluetoothLeScanner`, `BluetoothGatt`, `connectGatt`, `discoverServices`, descriptor writes): they are foreign; the model emits them as `Command` values and takes their answers (did `connectGatt` return a handle? is the characteristic there?) as event parameters.
- Session.OnServicesDiscovered: the descriptor lookup is not a separate answer; the descriptor is taken to be present exactly when the characteristic is.
- The service, characteristic and descriptor UUIDs: only the platform uses them; the lookup's outcome is the `channelFound` event parameter.
- `Handler.postDelayed` and `runOnUiThread`: each callback, UI action and the timeout is one atomic event; no interleaving inside an event is modelled.
- UTF-8 decoding of notification bytes: the value arrives as already-decoded text.
- `onScanFailed`: it only prints; the model treats it as an event that changes nothing.
- The Compose UI (`NavigationComponent`, `MainScreen` with its own switch state and label, `DefaultPreview`), `onCreate`, and the hardcoded login check in `LoginScreen`: rendering and a UI gate, outside the BLE logic.
- ui/theme/Theme.kt: colours and theme selection only.
- CaseFold.IndexOfIgnoreCase: folds ASCII letters only, an approximation of Kotlin's Unicode `ignoreCase`; they agree for the ASCII marker "HM-10" on ASCII names.
