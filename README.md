# VolumeBuddy, modelled in Dafny

VolumeBuddy is a macOS menu-bar app that gives volume control to a monitor whose own volume is fixed. It points the system's default output at the BlackHole 16ch virtual device. It then joins BlackHole and the monitor ("DELL U2725QE") in a private aggregate device, and plays the captured audio into the monitor through an `AVAudioEngine` whose mixer applies the user's gain. The volume keys are taken over with an event tap. The app reacts to device-list changes and to wake from sleep. Before it redirects audio it writes a breadcrumb file naming the original default output, so that a run that dies without shutting down can be repaired at the next launch.

The model has these parts:

- `core_audio.dfy`: the operating system as the app sees it.
  - The class `Host` holds the CoreAudio device snapshot, the two default-output settings, the live aggregates the app created and the breadcrumb file.
  - Its ghost `trace` records every change the app makes.
  - `Apply` and `Replay` give an independent meaning to a trace, as its effect on the observed state (`Observed`).
  - The device queries read a snapshot of the system's answers (`Hal`).
  - Every other call the system can refuse takes its answer as a parameter: the default-output queries and settings, creating, binding and destroying the aggregate, the engine's start, and writing and removing the breadcrumb. The contracts therefore hold for every answer the system can give to those calls.
- `device_manager.dfy` (`DeviceManager.swift`): enumerating the output devices, finding a device by name, filtering the fixed-volume devices, probing for a volume control, and getting and setting the default output.
- `audio_engine.dfy` (`AudioEngine.swift`): the aggregate description, start, stop, restart, the volume and running flag, and `EngineError`.
- `media_keys.dfy` (`MediaKeyInterceptor.swift`): `MediaKey`, decoding the `data1` word, `handleEvent`, and the tap's start and stop.
- `status_icon.dfy` (`StatusBarController.swift`): the symbol `updateIcon` chooses, and the icon `setup` draws.
- `breadcrumb.dfy` and `decimal.dfy`: the breadcrumb's text. The id is written as Swift prints it and parsed back as `AudioDeviceID(String)` parses it. The error descriptions print signed statuses the same way.
- `app_delegate.dfy` (`AppDelegate.swift`):
  - the `volume` and `muted` observers, `stepVolume` and `toggleMute`;
  - media-key dispatch;
  - `handleDeviceChange` and `handleWake`;
  - the breadcrumb's write, remove and restore;
  - `shutdown`, and termination, which runs `applicationWillTerminate`;
  - the launch sequence.

The launch is split along the source's own steps:

- `RestoreBreadcrumbIfNeeded`;
- `RestoreSavedState`;
- `FindDevicesAndRoute`;
- `Route`;
- `CaptureOriginal`;
- `RedirectAndStart`;
- `StartEngineOrTerminate`.

Each step's trace and observed state is stated through a specification function. Lemmas show that each function agrees with `Replay` of the step's trace. From that, `LaunchLeavesConsistentRouting`, `CrashRecovery` and `BreadcrumbPrecedesRedirect` state what a launch guarantees.

Points of the code's behaviour that the model keeps:

- The breadcrumb holds one id, the original default output, in decimal. Only the default output is redirected and restored. `setDefaultSystemOutput` is modelled, and no code path calls it.
- Recovery at launch is the breadcrumb step alone: the system's aggregates are left as they are.
- The monitor is found by the fixed name "DELL U2725QE", as BlackHole is by "BlackHole 16ch". `fixedVolumeOutputDevices` is modelled, and no code path calls it.
- When a later step of `start` fails, the aggregate it created stays recorded in `aggregateDeviceID`. The next `stop` destroys it; during a launch, that is the terminating `shutdown`.
- `restart` is `stop` followed by `start`, so a failed restart after a device change or a wake leaves the engine stopped.
- `shutdown` always asks for the breadcrumb's removal. The breadcrumb step at launch does too, once a stale breadcrumb parses, whatever the system answered to the restore.
- A destroy or a removal that the system refuses is ignored. The aggregate or the breadcrumb then stays.

## Model

| member | source | states |
|---|---|---|
| Decimal.FormatDecimal | Sources/VolumeBuddy/AppDelegate.swift:215 | the interpolated text of an id is non-empty, all digits, and has no leading zero |
| Decimal.FormatSigned | Sources/VolumeBuddy/AudioEngine.swift:101-102 | the interpolated text of a status reads back as that status, and starts with `-` exactly when the status is negative |
| Decimal.ValueOfFormat | Sources/VolumeBuddy/AppDelegate.swift:213-224 | the digits written for `n` have value `n` |
| Decimal.FormatDecimalInjective | Sources/VolumeBuddy/AppDelegate.swift:215 | distinct ids are written as distinct texts |
| Decimal.FormatOfValue | Sources/VolumeBuddy/AppDelegate.swift:224 | every canonical digit string is the text written for its own value |
| Breadcrumb.BreadcrumbText | Sources/VolumeBuddy/AppDelegate.swift:215 | the breadcrumb's content is a non-empty string of decimal digits |
| Breadcrumb.ParseDeviceId | Sources/VolumeBuddy/AppDelegate.swift:224 | `AudioDeviceID(String)` accepts only digits with an optional `+` or `-`; plain or `+`-signed digits succeed exactly when their value fits in 32 bits and yield it; `-` digits succeed exactly for the value 0 |
| Breadcrumb.BreadcrumbRoundTrip | Sources/VolumeBuddy/AppDelegate.swift:213-224 | the breadcrumb written for an id parses back to exactly that id |
| Breadcrumb.ParsedCanonicalIsBreadcrumb | Sources/VolumeBuddy/AppDelegate.swift:222-224 | a canonical text that parses is exactly the breadcrumb written for the parsed id |
| Engine.Clamp | Sources/VolumeBuddy/AudioEngine.swift:11 | `max(0, min(1, v))` lies in [0, 1], is `v` inside the range and the nearer end outside it |
| Engine.ClampIdempotent | Sources/VolumeBuddy/AudioEngine.swift:11 | clamping a clamped value changes nothing |
| Engine.AggregateDescriptionFor | Sources/VolumeBuddy/AudioEngine.swift:73-83 | the aggregate has the reserved UID, is private, has members input then output, and takes master and clock from the output |
| Engine.ClockFollowsOutputMember | Sources/VolumeBuddy/AudioEngine.swift:77-82 | the clock and master device is a member of the aggregate, and is not the capture member when the UIDs differ |
| Engine.ErrorDescription | Sources/VolumeBuddy/AudioEngine.swift:99-104 | an `EngineError`'s description is its case's fixed text, then its status in decimal, then `)`; an error the engine's own `start()` throws keeps its description |
| Engine.ErrorDescriptionIdentifiesError | Sources/VolumeBuddy/AudioEngine.swift:95-105 | two `EngineError`s with the same description are the same case with the same status |
| Engine.StartError | Sources/VolumeBuddy/AudioEngine.swift:18-53 | the error `start` throws comes from the first step that fails: create, then bind, then engine start |
| Engine.Destroyed | Sources/VolumeBuddy/AudioEngine.swift:59-62 | a destroy removes the recorded aggregate exactly when there is one and the system accepts |
| Engine.AudioEngine.constructor | Sources/VolumeBuddy/AudioEngine.swift:5-7 | a new engine has no render engine and no aggregate |
| Engine.AudioEngine.Volume | Sources/VolumeBuddy/AudioEngine.swift:10 | the mixer's output volume, or 1.0 when there is no engine |
| Engine.AudioEngine.IsRunning | Sources/VolumeBuddy/AudioEngine.swift:14 | running exactly when an engine exists and runs |
| Engine.AudioEngine.SetVolume | Sources/VolumeBuddy/AudioEngine.swift:11 | sets the clamped volume on an existing engine, and does nothing without one |
| Engine.AudioEngine.CreateAggregateDevice | Sources/VolumeBuddy/AudioEngine.swift:72-91 | returns an id exactly when the status is `noErr`; the aggregate is then alive and its creation is traced |
| Engine.AudioEngine.Start | Sources/VolumeBuddy/AudioEngine.swift:18-53 | succeeds exactly when all three steps do; a failed creation changes nothing; otherwise the aggregate is recorded and a new engine exists, running only on success |
| Engine.AudioEngine.Stop | Sources/VolumeBuddy/AudioEngine.swift:55-63 | drops the engine and forgets the recorded aggregate; the aggregate is gone exactly when the system accepts its destroy, after which none of the app's remain if it was the only one |
| Engine.AudioEngine.Restart | Sources/VolumeBuddy/AudioEngine.swift:65-68 | the old aggregate is destroyed when the system accepts, and the new one, if created, is added and recorded; running exactly when the start succeeds |
| Devices.Lookup | Sources/VolumeBuddy/DeviceManager.swift:93-104 | a property query reaches the listed object with that id, and fails when no object has it |
| Devices.HasOutputStreams | Sources/VolumeBuddy/DeviceManager.swift:166-177 | true exactly when the stream-size query succeeds with a positive size |
| Devices.DeviceUID | Sources/VolumeBuddy/DeviceManager.swift:75-82 | the UID of the first listed object with that id; a UID comes only from such an object, and there is none when no object has the id |
| Devices.DeviceName | Sources/VolumeBuddy/DeviceManager.swift:84-91 | the name of the first listed object with that id; a name comes only from such an object, and there is none when no object has the id |
| Devices.Describe | Sources/VolumeBuddy/DeviceManager.swift:40-44 | the closure yields a device exactly for an id with output streams, a UID and a name, and that device carries them |
| Devices.EnumeratedIds | Sources/VolumeBuddy/DeviceManager.swift:29-38 | no ids when either query fails; otherwise byte size / 4 ids, the listed objects' ids in order, and `kAudioObjectUnknown` in the slots beyond them |
| Devices.CompactMap | Sources/VolumeBuddy/DeviceManager.swift:40-44 | no longer than the read ids, and never holds an id more often than it was read |
| Devices.CompactMapSound | Sources/VolumeBuddy/DeviceManager.swift:40-44 | every kept device is the closure's answer for one of the read ids |
| Devices.CompactMapComplete | Sources/VolumeBuddy/DeviceManager.swift:40-44 | every read id that has output streams, a UID and a name is kept |
| Devices.CompactMapOrdered | Sources/VolumeBuddy/DeviceManager.swift:40-44 | the kept ids are in enumeration order |
| Devices.CompactMapCounts | Sources/VolumeBuddy/DeviceManager.swift:40-44 | each kept id occurs as often as it was read, and no other id occurs |
| Devices.CompactMapCountsAt | Sources/VolumeBuddy/DeviceManager.swift:40-44 | a given id is kept as often as it was read when it is listed, and never otherwise |
| Devices.CompactMapKeepsListed | Sources/VolumeBuddy/DeviceManager.swift:40-44 | the closure keeps exactly the ids that have output streams, a UID and a name, in order, each with its own UID and name |
| Devices.AllOutputDevices | Sources/VolumeBuddy/DeviceManager.swift:23-45 | empty when the device list cannot be read |
| Devices.AllOutputDevicesSpec | Sources/VolumeBuddy/DeviceManager.swift:23-45 | the result is, in enumeration order, exactly the read ids that are output devices with a UID and a name, each as often as it was read |
| Devices.FirstMatchIndex | Sources/VolumeBuddy/DeviceManager.swift:48 | the first position whose name contains the pattern, or none when no name does |
| Devices.FindDevice | Sources/VolumeBuddy/DeviceManager.swift:47-49 | none exactly when no output device's name contains the name; otherwise the first device whose name does |
| Devices.KeepFixedVolume | Sources/VolumeBuddy/DeviceManager.swift:52-56 | keeps exactly the candidates, in order, each as often as it occurs |
| Devices.FixedVolumeOutputDevices | Sources/VolumeBuddy/DeviceManager.swift:51-57 | in order, exactly the output devices that are not BlackHole, not the app's aggregate, and have no volume control, each as often as it is listed |
| Devices.DeviceManager.constructor | Sources/VolumeBuddy/DeviceManager.swift:17-19 | initialisation registers the device-list listener |
| Devices.DeviceManager.HasVolumeControl | Sources/VolumeBuddy/DeviceManager.swift:59-71 | the loop over elements 0 and 1 answers true exactly when either element has an output volume scalar |
| Devices.DeviceManager.DefaultOutputDeviceID | Sources/VolumeBuddy/DeviceManager.swift:108-120 | the current default output, or none exactly when the query fails |
| Devices.DeviceManager.SetDefaultOutput | Sources/VolumeBuddy/DeviceManager.swift:122-134 | true exactly when the system accepts, and only then is the default changed; the attempt is traced |
| Devices.DeviceManager.DefaultSystemOutputDeviceID | Sources/VolumeBuddy/DeviceManager.swift:136-148 | the current default system output, or none exactly when the query fails |
| Devices.DeviceManager.SetDefaultSystemOutput | Sources/VolumeBuddy/DeviceManager.swift:150-162 | true exactly when the system accepts, and only then is the default system output changed |
| MediaKeys.KeyFromRawValue | Sources/VolumeBuddy/MediaKeyInterceptor.swift:5-9 | a key exists exactly for the raw values 0, 1 and 7 |
| MediaKeys.RawValue | Sources/VolumeBuddy/MediaKeyInterceptor.swift:5-9 | each key's raw value is below 8, and `MediaKey(rawValue:)` gives that key back |
| MediaKeys.RawValueRoundTrip | Sources/VolumeBuddy/MediaKeyInterceptor.swift:5-9 | `MediaKey(rawValue:)` yields a key only from that key's own raw value |
| MediaKeys.KeyCode | Sources/VolumeBuddy/MediaKeyInterceptor.swift:84 | the key code fits in 16 bits |
| MediaKeys.KeyFlags | Sources/VolumeBuddy/MediaKeyInterceptor.swift:85 | the flags fit in 16 bits |
| MediaKeys.IsKeyDown | Sources/VolumeBuddy/MediaKeyInterceptor.swift:86 | key-down exactly when both bit 0x0800 and bit 0x0200 are set |
| MediaKeys.DecodeData1 | Sources/VolumeBuddy/MediaKeyInterceptor.swift:83-85 | decoding a `data1` built from a 16-bit code and flags gives them back |
| MediaKeys.EncodeDecodedData1 | Sources/VolumeBuddy/MediaKeyInterceptor.swift:83-85 | the decoded code and flags determine the low 32 bits of `data1` |
| MediaKeys.HandleEvent | Sources/VolumeBuddy/MediaKeyInterceptor.swift:72-102 | events that are not system-defined, not of subtype 8, or carry another key code pass through; key-down and key-up of the three keys are swallowed; a callback fires exactly for a key-down, and it is that key's callback |
| MediaKeys.MediaKeyInterceptor.constructor | Sources/VolumeBuddy/MediaKeyInterceptor.swift:16-18 | no tap, source or timer initially |
| MediaKeys.MediaKeyInterceptor.Start | Sources/VolumeBuddy/MediaKeyInterceptor.swift:23-54 | with a tap: tap, source and timer installed and the tap enabled; without one nothing changes |
| MediaKeys.MediaKeyInterceptor.Stop | Sources/VolumeBuddy/MediaKeyInterceptor.swift:56-68 | timer, source and tap all released, and the tap disabled if there was one |
| StatusIcon.IconFor | Sources/VolumeBuddy/StatusBarController.swift:22-32 | slash exactly when muted or at zero; one, two or three waves exactly for volumes below 0.33, below 0.66, and at or above 0.66 |
| StatusIcon.IconMonotone | Sources/VolumeBuddy/StatusBarController.swift:24-32 | unmuted, a louder volume never shows fewer waves |
| StatusIcon.SymbolName | Sources/VolumeBuddy/StatusBarController.swift:25-31 | a filled speaker symbol: `slash` when silent, otherwise `wave.` and its number of waves |
| StatusIcon.SymbolNamesDistinct | Sources/VolumeBuddy/StatusBarController.swift:25-31 | the four symbol names are distinct |
| StatusIcon.SetupIcon | Sources/VolumeBuddy/StatusBarController.swift:8-11 | `setup` shows `speaker.wave.3.fill` |
| App.EffectiveGain | Sources/VolumeBuddy/AppDelegate.swift:18 | zero when muted, the volume otherwise, and within [0, 1] for a volume in range |
| App.SteppedVolume | Sources/VolumeBuddy/AppDelegate.swift:133-140 | one step of 1/16 up or down, stopping at 0 and at 1 |
| App.StepsUndoEachOther | Sources/VolumeBuddy/AppDelegate.swift:133-140 | away from the ends, a step down undoes a step up and vice versa |
| App.StepDirection | Sources/VolumeBuddy/AppDelegate.swift:133-140 | a step up never lowers the volume and a step down never raises it |
| App.AlertText | Sources/VolumeBuddy/AppDelegate.swift:98 | the alert for a failed start is a fixed prefix followed by the engine error's description |
| App.AlertIdentifiesFailure | Sources/VolumeBuddy/AppDelegate.swift:68-98 | the launch alerts tell the failures apart, apart from an error thrown by the engine's own start |
| App.AlertEnding | Sources/VolumeBuddy/AppDelegate.swift:68-98 | the last characters of each kind of alert |
| App.CapturedOriginal | Sources/VolumeBuddy/AppDelegate.swift:83 | the original is captured exactly when the query succeeds, and is then the current default |
| App.RouteOutcome | Sources/VolumeBuddy/AppDelegate.swift:86-103 | once both devices are found, the launch runs exactly when the redirect and the engine start both succeed |
| App.LaunchOutcomeFor | Sources/VolumeBuddy/AppDelegate.swift:67-103 | the launch runs exactly when both devices are found and the redirect and the start succeed; a missing BlackHole terminates with its alert |
| App.SavedStateWrites | Sources/VolumeBuddy/AppDelegate.swift:45-48 | restoring writes the clamped saved volume, when one is saved, and then the mute flag |
| App.StaleObservedIsReplay | Sources/VolumeBuddy/AppDelegate.swift:222-228 | consuming the breadcrumb has the effect its actions have |
| App.ReplayWrite | Sources/VolumeBuddy/AppDelegate.swift:213-216 | writing the breadcrumb changes only the file |
| App.ReplayRestore | Sources/VolumeBuddy/AppDelegate.swift:203-206 | setting the original back changes only the default output |
| App.ReplayCreate | Sources/VolumeBuddy/AudioEngine.swift:85-90 | creating the aggregate adds it to the live aggregates |
| App.ReplayDestroy | Sources/VolumeBuddy/AudioEngine.swift:59-62 | an accepted destroy removes the aggregate from the live aggregates; a refused one changes nothing |
| App.ShutdownReplayFrame | Sources/VolumeBuddy/AppDelegate.swift:198-209 | shutdown's actions destroy the engine's aggregate, restore the original and remove the breadcrumb, each when the system accepts, and change nothing else |
| App.ShutdownRestores | Sources/VolumeBuddy/AppDelegate.swift:198-209 | shutdown never leaves more aggregates than it found; none of the app's after an accepted destroy, no breadcrumb after an accepted removal, and the original default if the system accepted the restore |
| App.EngineStepIsReplay | Sources/VolumeBuddy/AppDelegate.swift:94-103 | the effect of the engine step, on success and on failure |
| App.RedirectObservedIsReplay | Sources/VolumeBuddy/AppDelegate.swift:86-103 | the specified effect of the steps from the redirect on is the effect of their actions |
| App.RouteObservedIsReplay | Sources/VolumeBuddy/AppDelegate.swift:79-103 | the specified effect of the steps after both devices are found is the effect of their actions |
| App.LaunchObservedIsReplay | Sources/VolumeBuddy/AppDelegate.swift:40-125 | the specified effect of a whole launch is the effect of its actions |
| App.LaunchLeavesConsistentRouting | Sources/VolumeBuddy/AppDelegate.swift:40-125 | a terminated launch leaves at most the aggregate its failed start created, none after an accepted destroy, no breadcrumb after an accepted removal and otherwise the written one naming the original, and returns audio to the original when captured and accepted; a running launch leaves the default on BlackHole, exactly one aggregate, and the breadcrumb naming the original |
| App.CrashRecovery | Sources/VolumeBuddy/AppDelegate.swift:213-228 | after a launch that wrote the breadcrumb and then ran, or terminated without removing it, the next launch finds it, restores the original default when accepted, and deletes it when the removal is accepted |
| App.RouteTraceHead | Sources/VolumeBuddy/AppDelegate.swift:82-88 | once the original is captured and the breadcrumb written, the route's first two actions are that write and the redirect |
| App.LaunchTraceRoutes | Sources/VolumeBuddy/AppDelegate.swift:40-91 | with both devices present, a launch consumes the stale breadcrumb and then routes to them |
| App.BreadcrumbPrecedesRedirect | Sources/VolumeBuddy/AppDelegate.swift:82-91 | the breadcrumb naming the original is written before the default output is pointed at BlackHole |
| App.AppDelegate.constructor | Sources/VolumeBuddy/AppDelegate.swift:5-36 | volume 1.0, unmuted, nothing found, captured or started |
| App.AppDelegate.SetVolume | Sources/VolumeBuddy/AppDelegate.swift:15-23 | volume becomes the clamped value, the engine gets the effective gain, and the value is persisted |
| App.AppDelegate.SetMuted | Sources/VolumeBuddy/AppDelegate.swift:25-31 | mute changes, the engine gets the effective gain, and the flag is persisted |
| App.AppDelegate.StepVolume | Sources/VolumeBuddy/AppDelegate.swift:133-140 | a step up while muted only unmutes and persists the flag; otherwise the volume moves one step, is persisted, and the mute flag is kept; the engine is neither created nor dropped |
| App.AppDelegate.ToggleMute | Sources/VolumeBuddy/AppDelegate.swift:142-145 | mute flips and is persisted, volume is kept, and the engine gets the new gain |
| App.AppDelegate.VolumeSliderMoved | Sources/VolumeBuddy/AppDelegate.swift:54-58 | unmutes and takes the clamped slider value, persisting both in that order; the engine is neither created nor dropped |
| App.AppDelegate.HandleMediaKeyEvent | Sources/VolumeBuddy/AppDelegate.swift:106-108 | the tap's decision, with volume-up, volume-down and mute wired to `stepVolume` and `toggleMute`, each with its state change and preference write; an event that fires no callback changes nothing |
| App.AppDelegate.HandleDeviceChange | Sources/VolumeBuddy/AppDelegate.swift:149-164 | a missing device stops the engine, destroying its aggregate when accepted; a stopped engine with cached UIDs restarts; otherwise nothing changes; after an accepted destroy the only live aggregate of the app is the recorded one |
| App.AppDelegate.RestartFromCache | Sources/VolumeBuddy/AppDelegate.swift:159-163 | restarts from the cached UIDs, the old aggregate destroyed when accepted, running exactly when the start succeeds, with the gain pushed again |
| App.AppDelegate.HandleWake | Sources/VolumeBuddy/AppDelegate.swift:166-194 | without both devices nothing changes; with them, the UIDs are refreshed, BlackHole is made default if accepted, and the engine restarts, the old aggregate destroyed when accepted |
| App.AppDelegate.Reconnect | Sources/VolumeBuddy/AppDelegate.swift:179-192 | refreshes the UIDs, re-points the default at BlackHole, and restarts, the old aggregate destroyed when accepted, running exactly when the start succeeds |
| App.AppDelegate.WriteBreadcrumb | Sources/VolumeBuddy/AppDelegate.swift:213-216 | writes the original's id only when it is known and the write succeeds |
| App.AppDelegate.RemoveBreadcrumb | Sources/VolumeBuddy/AppDelegate.swift:218-220 | the breadcrumb is gone when the system accepts the removal and stays when it refuses; the attempt is traced |
| App.AppDelegate.RestoreBreadcrumbIfNeeded | Sources/VolumeBuddy/AppDelegate.swift:222-228 | a breadcrumb that parses is applied when accepted and then removed when accepted; a missing or unparsable one is left alone |
| App.AppDelegate.Shutdown | Sources/VolumeBuddy/AppDelegate.swift:198-209 | keys and engine stopped; the recorded aggregate destroyed when accepted, leaving none when it was the only one; the original restored if captured and accepted; the breadcrumb removed if accepted |
| App.AppDelegate.Quit | Sources/VolumeBuddy/AppDelegate.swift:62-65 | shutdown followed by the termination's second shutdown; the original is restored if either attempt is accepted, and the breadcrumb is gone if either removal is |
| App.AppDelegate.Terminate | Sources/VolumeBuddy/AppDelegate.swift:127-129 | termination runs shutdown with the system's answers |
| App.AppDelegate.CaptureOriginal | Sources/VolumeBuddy/AppDelegate.swift:82-84 | captures the original default when the query succeeds, and writes its breadcrumb |
| App.AppDelegate.StartEngineOrTerminate | Sources/VolumeBuddy/AppDelegate.swift:93-103 | on success the engine runs with the effective gain; on failure the original is restored and the app shuts down, destroying the created aggregate when accepted |
| App.AppDelegate.RedirectAndStart | Sources/VolumeBuddy/AppDelegate.swift:86-109 | a refused redirect terminates; otherwise the engine step runs and, when running, the keys start |
| App.AppDelegate.Route | Sources/VolumeBuddy/AppDelegate.swift:79-109 | caches the UIDs, captures the original, writes the breadcrumb, then redirects and starts |
| App.AppDelegate.FindDevicesAndRoute | Sources/VolumeBuddy/AppDelegate.swift:67-109 | a missing BlackHole or monitor terminates; otherwise `Route` |
| App.AppDelegate.ApplicationDidFinishLaunching | Sources/VolumeBuddy/AppDelegate.swift:40-125 | the launch's outcome, restored volume and mute with their preference writes, its full trace of actions and their effect, and the engine state for each outcome |
| App.AppDelegate.RestoreSavedState | Sources/VolumeBuddy/AppDelegate.swift:44-48 | volume restored only when one was saved, and mute always, with the matching preference writes |

## Left out

- `VolumeOSD.swift` is not part of this model. The on-screen display only shows values.
- `test_volume.swift` and `Package.swift` are not part of this model. They are a manual test script and the build manifest.
- The audio graph: connecting input, mixer and output, the formats and `prepare` (`AudioEngine.swift:40-51`). The engine is modelled as its running flag and mixer volume.
- The status item's drawing and menu, `updateSlider`, and the alert window. `StatusIcon.IconFor` gives the symbol chosen; the AppKit views are not modelled. `AlertText` gives the message; the modal alert is not modelled.
- App.AppDelegate.SetVolume: does not model the `updateIcon` and `updateSlider` calls in the observers, because those only draw.
- `updateSlider`, `onVolumeChanged` and `onMuteToggled` are used by `AppDelegate.swift` but not defined in `StatusBarController.swift`. `AudioEngine.aggregateUID`, used by `fixedVolumeOutputDevices`, is not defined in `AudioEngine.swift` either. The model takes it to be the reserved UID of `AudioEngine.swift:74`.
- `UserDefaults` is modelled as a ghost log of writes. The values read at launch are parameters.
- Volume is a real number, and `Float` rounding is not modelled. The icon thresholds 0.33 and 0.66 are taken as exact decimals.
- Timing and threads are left out: the 2-second `asyncAfter` before the wake handler runs, the weak-self guard when the delegate is gone, the listener block, the notification observer, and the tap's 2-second health timer. The handlers are methods the environment calls.
- The health timer's action, re-enabling a tap the system has disabled (`MediaKeyInterceptor.swift:48-53`), is not modelled, and neither is the system disabling the tap. The tap flags kept are the ones `start` and `stop` set.
- CoreAudio is taken never to return `kAudioObjectUnknown` (0) as the id of an aggregate it created with `noErr` (`AudioEngine.swift:85-90`); `LiveId` excludes 0, and the proofs about the created aggregate rely on it.
- Devices.Contains: compares code points, where Swift's `String.contains` compares grapheme clusters. The two can differ for names with combining characters.
- `AVAudioEngine` stopping on its own, for instance after a configuration change, is not a transition of the model. The running flag changes only through `start` and `stop`.
- `getStringProperty`'s two queries (`DeviceManager.swift:93-104`) are collapsed into one optional value per property.
- Log messages (`print`) are left out.
- A standing invariant tying `Host`'s fields to `Replay` of its whole trace is not stated. Each method states its exact trace and new state, and the link to `Replay` is proved for the launch sequence.
