# Recorder core of the obs-studio-node Electron example, in Dafny

The example application drives the native OBS engine from two JavaScript
files. `obsRecorder.js`, in the main process, holds the session flag and
the rest of the module-level state. It brings the engine up (with its
table of init-failure messages), reads and writes the engine's nested
settings (`setSetting`, `getAvailableValues`) and assigns mixer tracks to
the audio devices (`setupSources`). It also waits for recording signals in
`start`/`stop`, passes the streaming toggle on, places the preview and
shuts down. `renderer.js`, in the window, formats the recording timer,
copies the stream server and key into the form (`getStream`), and flips
the recording and streaming state.

The engine is a value (`ObsRecorder.Engine`). It holds:

- the settings store: category → subcategories → parameters;
- the log of commands sent to it, including every settings save;
- the queue of signal events it will emit;
- what its probes report: the init status code, and the output and input audio devices.

The settings and setup steps of the recorder have a specification function
`…Run` giving the engine it leaves and whether it completed or threw:
`setSetting`, `initOBS`, `configureOBS`, `setupScene`, the `setupSources`
loops, the whole boot, and `udpateRtmp`. The methods of class `Recorder`
carry out the steps on a mutable `engine` field and the session fields,
and are proved equal to those functions. Properties are then proved about
the functions. `Shutdown`, `NextSignal`, `Start`, `Stop`, `ToggleStreaming`
and `ResizePreview` have no such function: their contracts state the new
engine and session fields directly.

The renderer's state is class `Renderer.Page`. The DOM is reduced to the
values written into it. The clock is a `now` parameter. The synchronous
IPC replies are parameters.

Modules:

- `Wrappers`: `Option` and `Outcome`.
- `Decimal`: how a number is rendered in a template literal, `padStart(2, '0')`, and the parsers that serve as their partners.
- `Settings`: the settings lists, what `setSetting` does to them (the overwrite and the old value), and the `getAvailableValues` lookup.
- `Tracks`: the track and mixer-mask allocation of `setupSources`, and the `RecTracks` mask.
- `ObsRecorder`: the engine, the step functions, their lemmas, and class `Recorder`.
- `Renderer`: the timer text and its parser, `getStream`, and class `Page`.

Two behaviours of the code are worth noting:

- `setSetting` also saves when no parameter has the name. The old value is then `undefined`, and `value != undefined` holds.
- `stop` takes two signals without checking what they are.

## Model

| member | source | states |
|---|---|---|
| Settings.Overwrite | obsRecorder.js:396-403 | the list `setSetting`'s nested loops leave; `OverwriteSpec`, `OverwriteEstablishes`, `OverwriteFrame` and `OverwriteNoMatch` state what it is |
| Settings.LastMatch | obsRecorder.js:392-401 | the `oldValue` the nested loops leave; `LastMatchSpec` characterises it as the last match in subcategory-then-parameter order |
| Settings.OverwriteParamsSpec | obsRecorder.js:397-402 | the inner loop keeps the length and the order, sets `currentValue` on every parameter with the name and leaves every other parameter as it was |
| Settings.OverwriteSpec | obsRecorder.js:396-403 | after the nested loops every subcategory keeps its name, its parameter count and its position; parameter (i, j) is overwritten exactly when its name matches |
| Settings.LastMatchParamsSpec | obsRecorder.js:397-401 | within one subcategory the old value is undefined iff no parameter has the name, and otherwise is the current value of the last one that has it |
| Settings.LastMatchSpec | obsRecorder.js:392-403 | `oldValue` after the loops is undefined iff no parameter in any subcategory has the name, and otherwise is the previous value of the last match in subcategory-then-parameter order |
| Settings.OverwriteEstablishes | obsRecorder.js:396-403 | once a name that occurs has been overwritten, its last match holds the new value |
| Settings.OverwriteFrame | obsRecorder.js:396-403 | overwriting one name leaves the last match of every other name unchanged |
| Settings.OverwriteNoMatch | obsRecorder.js:396-403 | overwriting a name that occurs nowhere gives back the same list |
| Settings.ApplyToParams | obsRecorder.js:397-402 | the inner `forEach`, run as a loop over one subcategory, produces the overwritten parameters; `oldValue` is the last match in it, or the value carried in from earlier subcategories |
| Settings.ApplySetting | obsRecorder.js:392-403 | the nested loops of `setSetting`, run on the fetched list, produce exactly the overwritten list and the last match as `oldValue` |
| Settings.FindSub | obsRecorder.js:419 | `find` returns nothing iff no subcategory has the name, and otherwise the first one that has it |
| Settings.FindParam | obsRecorder.js:425 | `find` returns nothing iff no parameter has the name, and otherwise the first one that has it |
| Settings.AvailableValues | obsRecorder.js:411-432 | the result is `[]` when the category is missing, when no subcategory has the name, or when the first matching subcategory has no such parameter; otherwise it has one element per entry of the first matching parameter's `values`, in order, each that entry's first field |
| Tracks.MixerMask | obsRecorder.js:252 | `1 \| (1 << currentTrack - 1)` as an unsigned number; its contract says bit 0 (track 1) is always set, and `MixerMaskBits` gives all its bits |
| Tracks.NonDefault | obsRecorder.js:249 | the devices that get a track; `NonDefaultSpec` and `NonDefaultKeeps` state which, in which order |
| Tracks.PlanDevices | obsRecorder.js:248-255 | the reference allocation of one device loop; `PlanDevicesSpec` gives each entry, and `ObsRecorder.AddDevicesPlan` ties the loop to it |
| Tracks.Plan | obsRecorder.js:246-264 | the reference allocation of both loops; `PlanLength`, `PlanOutputAt`, `PlanInputAt` and `PlanTrackAt` state its entries |
| Tracks.RecTracks | obsRecorder.js:266 | `parseInt('1'.repeat(n), 2)`; `RecTracksSpec` proves it is 2^n − 1 |
| Tracks.MixerMaskBits | obsRecorder.js:252 | `1 \| (1 << track - 1)` sets exactly bit 0 and bit `(track - 1) mod 32`, JavaScript taking the shift count modulo 32 |
| Tracks.PlanDevicesSpec | obsRecorder.js:248-255 | one device loop gives the k-th device that is not "default" the track `first + k` and that track's mask, and assigns nothing else |
| Tracks.NonDefaultSpec | obsRecorder.js:249 | no device with id "default" gets a track |
| Tracks.NonDefaultKeeps | obsRecorder.js:248-264 | every device with another id is kept, in order: it is the entry that follows the devices kept before it |
| Tracks.NonDefaultOnly | obsRecorder.js:248-264 | and nothing else is kept: every entry is a device with another id, at the position counted by the devices kept before it |
| Tracks.PlanLength | obsRecorder.js:246-264 | the allocation has one entry per output or input device that is not "default" |
| Tracks.PlanOutputAt | obsRecorder.js:246-255 | the k-th output device that is not "default" gets track k + 2 |
| Tracks.PlanInputAt | obsRecorder.js:257-264 | the k-th input device that is not "default" gets track n + k + 2, where n output devices got a track |
| Tracks.PlanTrackAt | obsRecorder.js:246-264 | across both loops the tracks are consecutive from 2, each with its own mask |
| Tracks.RecTracksSpec | obsRecorder.js:266 | `parseInt('1'.repeat(n), 2)` is 2^n − 1, i.e. exactly bits 0 to n − 1 |
| Tracks.MasksWithinRecTracks | obsRecorder.js:252-266 | every bit of every device's mask is a bit of `RecTracks`, so the recording keeps every track a device is routed to |
| Decimal.NatToString | renderer.js:133-136 | a rendered natural number is a non-empty string of digits without a leading zero |
| Decimal.ParseIntToString | obsRecorder.js:64 | a rendered integer reads back as itself |
| Decimal.IntToStringInjective | obsRecorder.js:64 | different integers render differently |
| Decimal.PadStart2 | renderer.js:134-136 | `padStart(2, '0')` gives length max(len, 2): the string itself, preceded by zeros |
| Decimal.PaddedNatParses | renderer.js:134-136 | a padded rendering of n is all digits and reads back as n |
| Decimal.PadTwoDigits | renderer.js:134-135 | a number below 100 pads to exactly its tens digit and its units digit |
| ObsRecorder.InitErrorMessage | obsRecorder.js:58-64 | the message of the init-failure table; `InitErrorMessageInjective` proves different codes give different messages, and `InitFailure` that a nonzero status throws it |
| ObsRecorder.SetSettingRun | obsRecorder.js:391-409 | one `setSetting` on the engine; `SetSettingTwice`, `SetSettingEstablishes` and `SetSettingFrame` state its effect, and `Recorder.SetSetting` is proved equal to it |
| ObsRecorder.EncoderChoice | obsRecorder.js:84 | `availableEncoders.slice(-1)[0] \|\| 'x264'`: always a truthy value; the last available encoder when that is truthy, otherwise "x264" |
| ObsRecorder.BootRun | obsRecorder.js:28-39 | the setup steps of `initialize`, stopping at the first that throws; `InitFailure` states the failing-init case, `SetupSourcesRecTracks` the final `RecTracks`, and `Recorder.Initialize` is proved equal to it |
| ObsRecorder.StreamingCommand | obsRecorder.js:542-549 | the engine command of `toggleStreaming`: start exactly when the state is false, otherwise a forced stop |
| ObsRecorder.InitErrorMessageInjective | obsRecorder.js:58-64 | the messages for -2 and -5 and the "unknown error #N" messages all differ, so the message identifies the status code |
| ObsRecorder.InitFailure | obsRecorder.js:49-71 | for a nonzero init status, initialisation sends the three bring-up commands, throws that code's message, and does nothing more; the session is not raised, so the `shutdown()` on that path sends nothing |
| ObsRecorder.SetSettingTwice | obsRecorder.js:391-409 | a repeated `setSetting` of an existing parameter saves nothing; for a missing parameter it saves the unchanged list once more |
| ObsRecorder.SetSettingEstablishes | obsRecorder.js:391-409 | after `setSetting` of a parameter that exists, the last match in the engine's store holds the value |
| ObsRecorder.SetSettingFrame | obsRecorder.js:391-409 | `setSetting` leaves the last match of every other parameter, and every other category, as it was |
| ObsRecorder.UpdateRtmpStores | obsRecorder.js:532-539 | when both parameters exist, `udpateRtmp` completes, and a later read of "Stream" finds the new server and key |
| ObsRecorder.ApplyPlanAppend | obsRecorder.js:248-264 | applying two parts of an allocation applies the first, then the second unless the first threw |
| ObsRecorder.AddDevicesPlan | obsRecorder.js:248-255 | one device loop, with its counter and its skips, performs the callbacks of the reference allocation of its devices and ends with the counter advanced by their number |
| ObsRecorder.DeviceTracksPlan | obsRecorder.js:246-266 | the two device loops followed by `RecTracks` do exactly what applying the whole allocation and then `RecTracks` of its last track does |
| ObsRecorder.ApplyPlanKeeps | obsRecorder.js:248-264 | the per-device `Track⟨n⟩Name` writes leave every other parameter of "Output" as it was, in particular `RecTracks` and `Track1Name` |
| ObsRecorder.TrackNameInjective | obsRecorder.js:251 | different tracks write different `Track⟨n⟩Name` parameters |
| ObsRecorder.PlanSparesTrack1 | obsRecorder.js:246-264 | every device track is 2 or more, so no device writes `Track1Name` |
| ObsRecorder.SetupSourcesTrack1Name | obsRecorder.js:245-266 | when `setupSources` completes and `Track1Name` exists, it holds "Mixed: all sources" at the end |
| ObsRecorder.SetupSourcesRecTracks | obsRecorder.js:243-266 | when `setupSources` completes and `RecTracks` exists, its stored value is the mask of tracks 1 to the last track assigned |
| ObsRecorder.Recorder.constructor | obsRecorder.js:24-25 | the module starts with the flag down and no scene (lines 24-25), no preview window and `initY` 0 (lines 289-290) |
| ObsRecorder.Recorder.SetSetting | obsRecorder.js:391-409 | fetches the category, runs the loops, and saves the overwritten list iff the value differs from the old value; a missing category throws |
| ObsRecorder.Recorder.GetAvailableValues | obsRecorder.js:411-432 | the lookup on the engine's store: `[]` when the category is missing, when no subcategory has the name, or when the first matching subcategory has no such parameter; otherwise one element per entry of the first matching parameter's `values`, in order, each that entry's first field |
| ObsRecorder.Recorder.Shutdown | obsRecorder.js:370-389 | with no session it returns false and changes nothing; otherwise it sends the two teardown commands, lowers the flag and returns true |
| ObsRecorder.Recorder.InitObs | obsRecorder.js:49-78 | sends the bring-up commands; for a nonzero status it calls `shutdown()` and throws the table message, otherwise it connects the signal callback |
| ObsRecorder.Recorder.ConfigureObs | obsRecorder.js:80-91 | advanced mode, then the last available encoder (or "x264" when it is missing or falsy), then the file path, "mkv", 10000 and 60, stopping at the first write that throws |
| ObsRecorder.Recorder.SetupScene | obsRecorder.js:178-222 | creates the desktop capture, sets the base and output resolution "1920x⟨height⟩", and builds "test-scene" around the capture |
| ObsRecorder.Recorder.AddAudioSource | obsRecorder.js:249-254 | one device callback: create the input, name its track, set its mixer mask, route its track |
| ObsRecorder.Recorder.AddAudioSources | obsRecorder.js:248-255 | one `forEach` with the `currentTrack` counter does exactly what `AddDevicesRun` specifies, including where it stops when a callback throws |
| ObsRecorder.Recorder.SetupSources | obsRecorder.js:234-267 | routes the scene to track 1, names it "Mixed: all sources", then runs both device loops and sets `RecTracks` |
| ObsRecorder.Recorder.AddDeviceTracks | obsRecorder.js:246-266 | the output loop from track 2, the input loop continuing the count, then `RecTracks` of `currentTrack - 1` |
| ObsRecorder.Recorder.Initialize | obsRecorder.js:28-46 | with a session up it returns and changes nothing; otherwise it runs the four setup steps, raises the flag exactly when all complete, and then throws when there is no window |
| ObsRecorder.Recorder.NextSignal | obsRecorder.js:436-441 | takes the next queued signal, or times out when none is queued |
| ObsRecorder.Recorder.Start | obsRecorder.js:328-346 | with a session up it sends the start command, consumes exactly one signal and fails with its error iff its `signal` is "Stop"; without one it runs `initialize()` with no window, which throws, leaving the engine, the flag and the scene as the boot leaves them and the preview fields as they were |
| ObsRecorder.Recorder.Stop | obsRecorder.js:349-367 | sends the stop command and consumes exactly two signals without inspecting them |
| ObsRecorder.Recorder.ToggleStreaming | obsRecorder.js:542-549 | starts streaming iff the state passed is false, and otherwise forces a stop |
| ObsRecorder.Recorder.UpdateRtmp | obsRecorder.js:532-539 | sets the stream server and then the key |
| ObsRecorder.Recorder.ResizePreview | obsRecorder.js:291-325 | remembers the first nonzero vertical offset; on macOS it rebuilds the preview window (destroying the old one if there was one) and places it mirrored about that offset, elsewhere it moves the display |
| Renderer.TimerParts | renderer.js:131-136 | the four numbers of the timer; `TimerPartsSpec` proves their ranges and the time they stand for |
| Renderer.FormatTimer | renderer.js:130-137 | the timer text; `TimerRoundTrip` proves it reads back as the elapsed time to the tenth of a second, and `TimerShape` gives its shape |
| Renderer.JsRem | renderer.js:133-135 | JavaScript's `%`: Dafny's remainder for a non-negative dividend, and for a negative one the value in (−b, 0] that differs from the dividend by a multiple of b |
| Renderer.TimerPartsSpec | renderer.js:133-136 | for `diff ≥ 0`, minutes and seconds lie in 0..59 and tenths in 0..9, and hours·3600000 + minutes·60000 + seconds·1000 + tenths·100 is `diff` rounded down to a multiple of 100 |
| Renderer.ParseClockTail | renderer.js:133-137 | the `:MM:SS.d` part of a clock in range is eight characters and reads back as its minutes, seconds and tenths |
| Renderer.FormatClockParses | renderer.js:136-137 | the text of a clock in range reads back as the time it stands for |
| Renderer.TimerRoundTrip | renderer.js:130-137 | the text written for an elapsed `diff ≥ 0` reads back as `diff` rounded down to the tenth of a second |
| Renderer.ParsedIsShaped | renderer.js:137 | every text the parser accepts has the shape `HH:MM:SS.d` |
| Renderer.TimerShape | renderer.js:133-137 | for `diff ≥ 0` the text is at least two hour digits, then `:MM:SS.d` with a single tenths digit |
| Renderer.ReadStreamParameters | renderer.js:103-117 | the inner `forEach` leaves the server field at the last "server" parameter's value and the key field at the last "key" parameter's value, and ignores every other name |
| Renderer.ReadStream | renderer.js:102-118 | across all subcategories the fields hold the last "server" and "key" values in subcategory-then-parameter order, and keep their content when there is none |
| Renderer.ReadAfterSave | renderer.js:168-174 | when both parameters exist, the `udpateRtmp` that `saveSetting` invokes completes, and the `getStream` that follows sets the server and key fields to exactly the saved values, whatever they held before |
| Renderer.Page.constructor | renderer.js:33-35 | not recording, no start time, no timer |
| Renderer.Page.UpdateTimer | renderer.js:130-138 | the timer text is the formatted elapsed time since the start, a `null` start counting as 0; nothing else on the page changes |
| Renderer.Page.GetStream | renderer.js:96-119 | an undefined reply throws before touching the fields; otherwise the fields take the last "server" and "key" values; the recording and streaming parts of the page are unchanged |
| Renderer.Page.UpdateUi | renderer.js:46-61 | the button label follows the recording flag; recording starts the timer at `now`, not recording stops it; then the stream fields are read; the streaming part of the page is unchanged |
| Renderer.Page.SwitchRecording | renderer.js:37-44 | the recording flag flips on every call, the label and the timer follow it, the stream fields take the last "server" and "key" values, and the streaming part of the page is unchanged |
| Renderer.Page.Streaming | renderer.js:206-219 | sends the stored status, stores its negation (so the stored status alternates), and sets the label to "结束直播" when it was false and "开始直播" when it was true; with no stored item it throws; the recording part of the page and the stream fields are unchanged |

## Left out

- The native engine's own behaviour is not modelled: recording, streaming, encoders, capture, scenes. Commands to it are entries in a log. Settings reads and writes go to an abstract store. The signals it will emit are a given queue.
- Electron IPC and `index.js`. Its fixed `{ recording: true/false }` replies are the reason the renderer's flag simply flips. The synchronous replies the renderer receives (`getSetting`, `toggleStreaming`) are parameters.
- The DOM, `localStorage` access, `Date.now` and the timers are left out, as are the `performanceStatistics` interval and its `win.on('close')` handler. Time is a `now` parameter, and `setInterval`/`clearInterval` become a `timerRunning` flag. Intervals leaked by repeated `startTimer()` calls are not modelled.
- The 30-second signal timeout is modelled as an empty queue. The `Subject`/`first()` subscription, where only signals emitted after subscribing are seen, is modelled as a queue consumed in order.
- `NextSignal`: a `Subject` delivers each signal to every subscriber, so two overlapping waits see the same signal. This happens when `stop()` is called while `start()` is still waiting, which index.js:16-24 allows because it does not await. The queue model hands each signal to one wait only.
- `Tracks.MixerMask`: for a track ≡ 1 (mod 32) beyond 1, the mask is bit 0 alone, and for a track ≡ 0 (mod 32) JavaScript's `1 | (1 << 31)` is the negative 32-bit number -2147483647. The model records the unsigned reading 2147483649 of that bit pattern.
- Floating-point geometry is left out: `displayInfo`, aspect ratio, scale factors, scene item scaling, camera placement, and `resizePreview`'s display size. The output height is a parameter of the recorder. `ResizePreview` takes the floored `x` and `y` and records the unscaled coordinates, since the scale factor is 1 on macOS and a float elsewhere.
- These are foreign calls or OS dispatch: camera probing and `getCameraSource`, the body of `getAudioDevices` (its result is the engine's two device lists), `byOS`/`getOS`, `operating-systems.js`, `node-window-rendering` surfaces, `videoSource.update/save`, `selectDisPlay`, `cameraSelect`, `getALlCameras`, `getAllScene`, `showSourceInfo`, `busySleep`.
- `getSetting` (obsRecorder.js:488-491) is one read of the store, `Settings.Fetch`. `Page.GetStream` gets its reply as a parameter.
- In `setupSources` the two device lists are read before the loops instead of between them. No setting changes them.
- JavaScript's loose `!=` in `setSetting` is modelled as typed equality of `Settings.Value`. Values are strings, integers or booleans, and floating-point numbers are not modelled.
- `Page.Streaming`: the stored item is `Option<bool>`. `Boolean(...)` coercion of other JSON values is not modelled.
- `Tracks.RecTracks`: `parseInt` is exact here, with no loss of precision beyond 2^53.
- `Shutdown`: the `try`/`catch` around the teardown commands is left out, because the engine's calls do not throw in the model.
- `Renderer.TimerRoundTrip`, `Renderer.TimerPartsSpec` and `Renderer.TimerShape` are stated only for `diff ≥ 0`. For a negative `diff` the JavaScript remainder makes fields negative. The model computes that text (`JsRem`), but no property is proved about it.
- `ObsRecorder.Recorder.Start`: the `initialize()` it runs without a window raises the session flag before throwing. The model leaves the flag raised and reports the throw, as the code does.
- `ObsRecorder.Recorder.InitObs`: requires the session flag down, which its only caller `initialize()` guarantees; the `shutdown()` on its failure path is then a no-op.
- `Page.GetStream`: the form fields are DOM `.value` properties, which turn whatever is assigned into a string. The model keeps the `Settings.Value` as it is, so a numeric or boolean parameter appears in the field without that conversion.
