# Bluetooth switch enabler and default autofill picker, modelled in Dafny

This project models two pieces of decision logic from the Android Settings
application.

- **BluetoothEnabler** keeps the Bluetooth on/off switch in step with the
  local adapter. The switch widget is a class with `checked`, `enabled` and
  `listening` fields. The handler is a class holding a queue of pending
  messages. The adapter is a nullable class with a reported state, the answer
  it gives to enable requests, and a log of the requests it has received.
  Receiver registration is a boolean. The enabler class keeps an invariant,
  `Valid()`: the receiver is registered exactly while the listener flag is set;
  the flag is only set when there is an adapter and the widget is listening;
  the handler holds at most one message, and it is a search-index update.
- **DefaultAutofillPicker** lists the resolved autofill services. It stores the
  chosen key in the secure settings and answers an app that asked to become the
  autofill service. **AutofillSettingIntentProvider** searches the resolved
  services for the selected key and returns the first match's settings
  activity. Resolved services are a `seq` of (package, name, settings activity)
  records. The secure settings table is a map. A component is flattened as
  `package + "/" + class`.

Platform answers are inputs: the resolved service list, the airplane-mode
radio check, the adapter's state and its answer. Java `null` strings are
`Option<string>`; nullable objects are nullable class types.

Files: `wrappers.dfy` (Option), `bluetooth_platform.dfy` (switch widget,
handler queue, adapter, manager, adapter state constants),
`bluetooth_enabler.dfy` (the enabler), `android_content.dfy` (component names,
intents, activity, secure settings), `default_autofill_picker.dfy` (the picker
and the intent provider).

## Model

| member | source | states |
|---|---|---|
| `Bluetooth.BluetoothEnabler.constructor` | src/com/android/settings/bluetooth/BluetoothEnabler.java:79-96 | starts with the listener flag false, nothing registered and an empty handler queue; without a manager the adapter is null and the switch is disabled, checked and listening untouched; with a manager the adapter is the manager's and the switch is not touched |
| `Bluetooth.BluetoothEnabler.Resume` | src/com/android/settings/bluetooth/BluetoothEnabler.java:106-122 | without an adapter only disables the switch and changes nothing else; with one it adopts the new context, syncs switch and queue to the adapter's current state (`Reflects`), then the widget listens, the receiver is registered and the listener flag is true; the invariant is kept |
| `Bluetooth.BluetoothEnabler.Pause` | src/com/android/settings/bluetooth/BluetoothEnabler.java:124-133 | afterwards the flag is false and nothing is registered; if the flag was already false nothing changes, so a second pause is a no-op; otherwise the widget stops listening and its checked/enabled values are kept |
| `Bluetooth.BluetoothEnabler.HandleStateChanged` | src/com/android/settings/bluetooth/BluetoothEnabler.java:135-158 | TURNING_ON/TURNING_OFF: switch disabled, checked value and queue unchanged; ON: checked and enabled, queue is exactly one index update carrying true; OFF and every unrecognised state: unchecked and enabled, one index update carrying false; listening unchanged |
| `Bluetooth.BluetoothEnabler.SetChecked` | src/com/android/settings/bluetooth/BluetoothEnabler.java:160-172 | the switch ends with the requested value; when it already had it the widget is untouched; listening is the same afterwards, and while the listener is valid the enabler's own write raises no toggle notification |
| `Bluetooth.BluetoothEnabler.UpdateSearchIndex` | src/com/android/settings/bluetooth/BluetoothEnabler.java:174-181 | the queue is the old queue without index updates plus one new update; under the invariant it is exactly that single update with the latest value |
| `Bluetooth.BluetoothEnabler.OnSwitchToggled` | src/com/android/settings/bluetooth/BluetoothEnabler.java:183-210 | returns true iff not (turning on and (radio disallowed or adapter refuses)). Forcing the switch off while it is listening and checked runs the same callback with `false` first, which sends a disable request and disables the switch. Radio disallowed: the switch ends off, the only request is that nested disable, and the switch is disabled if the nested call ran and otherwise keeps its enabled flag. Otherwise the adapter gets this toggle's request. Refusal: the request log is `[true]`, then `false` if the nested call ran; the switch ends off and enabled. Success: the switch is disabled and keeps its checked value |
| `BluetoothPlatform.WithoutWhat` | src/com/android/settings/bluetooth/BluetoothEnabler.java:175 | a message is in the filtered queue iff it was in the old queue and has a different code, and the queue is no longer. Order and multiplicity are stated by `WithoutWhatAppend` and `WithoutWhatSingle` |
| `BluetoothPlatform.WithoutWhatAppend` | src/com/android/settings/bluetooth/BluetoothEnabler.java:175 | filtering a concatenated queue equals concatenating the filtered parts, so kept messages keep their order and multiplicity |
| `BluetoothPlatform.WithoutWhatSingle` | src/com/android/settings/bluetooth/BluetoothEnabler.java:175 | a single message is dropped exactly when it carries the removed code |
| `BluetoothPlatform.WithoutWhatKeepsOthers` | src/com/android/settings/bluetooth/BluetoothEnabler.java:175 | a queue with no message of the code is returned unchanged, duplicates included |
| `BluetoothPlatform.ReplaceLeavesOnePending` | src/com/android/settings/bluetooth/BluetoothEnabler.java:174-181 | for any queue, remove-then-send leaves exactly one message of the code, it carries the value just sent, and messages of other codes survive |
| `BluetoothPlatform.CountWhatAppend` | src/com/android/settings/bluetooth/BluetoothEnabler.java:180 | counting messages of a code is additive over appending to the queue |
| `BluetoothPlatform.Handler.RemoveMessages` | src/com/android/settings/bluetooth/BluetoothEnabler.java:175 | the queue becomes the old queue with that code filtered out |
| `DefaultApps.DefaultAutofillPicker.OnCreate` | src/com/android/settings/applications/defaultapps/DefaultAutofillPicker.java:56-67 | installs a cancel listener bound to the activity iff an activity exists and its intent carries the package-name extra; otherwise the listener is left as it was |
| `DefaultApps.OnCancel` | src/com/android/settings/applications/defaultapps/DefaultAutofillPicker.java:62-65 | the captured activity ends with result CANCELED and finished |
| `DefaultApps.DefaultAutofillPicker.GetCandidates` | src/com/android/settings/applications/defaultapps/DefaultAutofillPicker.java:86-96 | one candidate per resolved service, same order, each built from that service's package and name for the picker's user |
| `DefaultApps.DefaultAutofillPicker.GetConfirmationMessage` | src/com/android/settings/applications/defaultapps/DefaultAutofillPicker.java:107-116 | no message exactly when there is no candidate; otherwise the message names the candidate's label |
| `DefaultApps.DefaultAutofillPicker.GetDefaultKey` | src/com/android/settings/applications/defaultapps/DefaultAutofillPicker.java:98-105 | the key is the value stored under the autofill setting, and null when the setting is unset |
| `DefaultApps.DefaultAutofillPicker.ShouldShowItemNone` | src/com/android/settings/applications/defaultapps/DefaultAutofillPicker.java:82-84 | the picker always offers a "None" entry |
| `DefaultApps.DefaultAutofillPicker.SetDefaultKey` | src/com/android/settings/applications/defaultapps/DefaultAutofillPicker.java:118-135 | always returns true; the setting now maps to the key, so reading the default key back gives it; with a package-name extra the activity is finished with OK iff the key is non-null and starts with that package, else CANCELED; without the extra the activity is untouched |
| `DefaultApps.FlattenedKeyResult` | src/com/android/settings/applications/defaultapps/DefaultAutofillPicker.java:128-129 | when the requested package name contains no '/', a component's flattened key gives OK iff that name is a prefix of the component's package name. This is a character prefix, so "com.foo" accepts "com.foobar". A requested name with a '/' can also match into the class name |
| `DefaultApps.FirstMatch` | src/com/android/settings/applications/defaultapps/DefaultAutofillPicker.java:155-159 | the found index holds a service whose flattened component equals the key and no earlier one does; no index means no service matches (a null key matches none) |
| `DefaultApps.SettingsIntent` | src/com/android/settings/applications/defaultapps/DefaultAutofillPicker.java:160-167 | none iff the settings activity is null or empty; otherwise a MAIN intent to (service package, settings activity) |
| `DefaultApps.AutofillSettingIntentProvider.constructor` | src/com/android/settings/applications/defaultapps/DefaultAutofillPicker.java:145-148 | keeps the selected key |
| `DefaultApps.AutofillSettingIntentProvider.GetIntent` | src/com/android/settings/applications/defaultapps/DefaultAutofillPicker.java:150-172 | null when no service matches; otherwise exactly the settings intent of the first match, so an empty settings activity there gives null whatever later services hold |
| `DefaultApps.FirstMatchIgnoresLaterServices` | src/com/android/settings/applications/defaultapps/DefaultAutofillPicker.java:155-168 | once a prefix of the list holds a match, appending services does not change which one is found |
| `DefaultApps.CandidateIsSelectable` | src/com/android/settings/applications/defaultapps/DefaultAutofillPicker.java:155-159 | the flattened key of any listed service is found by the search, at or before that service, at a service with the same component |
| `AndroidContent.FlattenToString` | src/com/android/settings/applications/defaultapps/DefaultAutofillPicker.java:157-158 | the flattened key is the package, then '/', then the class name |
| `AndroidContent.FlattenInjective` | src/com/android/settings/applications/defaultapps/DefaultAutofillPicker.java:157-159 | two components whose packages hold no '/' have equal flattened keys only if they are equal |

## Left out

- Delivery of the handler's index-update messages and the search-index update they trigger: asynchronous platform work. Only the pending queue is modelled.
- The broadcast receiver's `onReceive`, the intent filter and the EXTRA_STATE lookup: platform delivery. The state is an input to `HandleStateChanged`, and registration is one boolean rather than a registration per context.
- Toasts, metrics logging, `updateTitle`, `Html.fromHtml`, string resources and label loading: UI or foreign calls with no stateable effect. The non-null confirmation message is modelled only as carrying the candidate's label.
- Bluetooth.BluetoothEnabler.SetChecked: a widget that listens while the listener flag is false gets a change notification. That notification is recorded in `toggleEvents` but not dispatched to `OnSwitchToggled`. The enabler only starts listening together with setting the flag, so this happens only for a widget that was already listening before the first resume.
- `setupSwitchController` and `teardownSwitchController` forward to the switch controller, which is not part of this model. `setListener(this)` is reflected only in that a notification raised inside `OnSwitchToggled` is dispatched to this enabler.
- `WirelessUtils.isRadioAllowed`, `LocalBluetoothAdapter.setBluetoothEnabled` and `getBluetoothState`, `PackageManager.queryIntentServices`, and `AutofillServiceInfo` metadata parsing are platform services. Their answers are parameters or fields: `radioAllowed`, the adapter's `accepts` and `state`, the resolved service list, and each service's `settingsActivity`.
- `getMetricsCategory` and `newConfirmationDialogFragment` only forward constants and objects to the framework.
- The tests under tests/robotests exercise classes that are not part of this model.
