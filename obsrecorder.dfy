/**
 * The recorder of obsRecorder.js: the session flag and the other
 * module-level state, initialisation with its error table, shutdown, the
 * settings adapter run against the engine, audio-track setup, the signal
 * waits of start/stop recording, and the streaming toggle.
 *
 * The native engine is abstract: a value of type `Engine` holding its
 * settings store, the log of commands sent to it, the queue of signal events
 * it will emit, and what its probes report (the status code of its
 * initialisation and the audio devices it lists).  The spec functions
 * `...Run` say what each step does to that value; the methods of class
 * `Recorder` perform the steps and are proved to match them.
 */
module ObsRecorder {

  import opened Wrappers
  import opened Decimal
  import opened Settings
  import opened Tracks

  /** `{ type, signal, error }` as the engine's output-signal callback delivers it. */
  datatype SignalInfo = SignalInfo(signalType: string, signal: string, error: Option<string>)

  /** The engine objects the recorder wires into its scene and outputs. */
  datatype Source = Scene(sceneName: string) | DesktopCapture | Audio(kind: AudioKind, deviceId: string)

  /** The commands the recorder sends to the engine, in the order they are logged. */
  datatype Call =
    | IpcHost
    | SetWorkingDirectory
    | InitApi
    | ConnectOutputSignals
    | SaveSettings(category: string, data: seq<SubCategory>)
    | CreateInput(source: Source)
    | CreateScene(sceneName: string)
    | AddToScene(source: Source)
    | SetAudioMixers(source: Source, mask: nat)
    | SetOutputSource(channel: nat, source: Source)
    | StartRecording
    | StopRecording
    | StartStreaming
    | StopStreaming(force: bool)
    | RemoveCallback
    | IpcDisconnect
    | MoveDisplay(x: int, y: int)
    | MoveWindow(x: int, y: int)
    | RecreatePreviewWindow(destroyedOld: bool)

  datatype Engine = Engine(
    settings: Store,
    calls: seq<Call>,
    signals: seq<SignalInfo>,
    initCode: int,               // what OBS_API_initAPI returns
    outputDevices: seq<Device>,  // what the desktop-audio probe lists
    inputDevices: seq<Device>)   // what the mic-audio probe lists

  /** The engine after a step, and whether the step completed or threw. */
  datatype Run = Run(engine: Engine, outcome: Outcome)

  const SceneName := "test-scene"
  const SignalTimeout := "Output signal timeout"
  /** The TypeError thrown when `setSetting` iterates an undefined `data`. */
  const MissingSettings := "TypeError: settings data is undefined"
  /** The TypeError thrown by `win.on(...)` when `initialize` got no window. */
  const NoWindow := "TypeError: win is undefined"

  // The two table messages, written as short pieces so that the verifier can see their characters.
  const DirectXMessage := "DirectX could not be found on your system. " + "Please install the latest version of " +
    "DirectX for your machine here " + "<https://www.microsoft.com/" + "en-us/download/details.aspx?id=35?>" +
    " and try again."
  const DriverMessage := "Failed to initialize OBS. " + "Your video drivers may be out of date, " +
    "or Streamlabs OBS may not be supported " + "on your system."
  const UnknownPrefix := "An unknown error #"
  const UnknownSuffix := " was encountered while initializing OBS."

  // ---------------------------------------------------------------------------
  // initOBS error table
  // ---------------------------------------------------------------------------

  /** The message `initOBS` throws for a nonzero status code. */
  function InitErrorMessage(code: int): string {
    if code == -2 then DirectXMessage
    else if code == -5 then DriverMessage
    else UnknownPrefix + IntToString(code) + UnknownSuffix
  }

  /** The first characters of the three kinds of message differ. */
  lemma MessageHeads()
    ensures DirectXMessage[0] == 'D' && DriverMessage[0] == 'F'
    ensures forall code :: InitErrorMessage(code)[0] == 'A' || code == -2 || code == -5
  {
    var d := "DirectX could not be found on your system. ";
    assert DirectXMessage[..|d|] == d;
    assert DirectXMessage[0] == d[0];
    var f := "Failed to initialize OBS. ";
    assert DriverMessage[..|f|] == f;
    assert DriverMessage[0] == f[0];
  }

  /** Different status codes give different messages, so the message identifies the code. */
  lemma InitErrorMessageInjective(c1: int, c2: int)
    requires InitErrorMessage(c1) == InitErrorMessage(c2)
    ensures c1 == c2
  {
    MessageHeads();
    var m := InitErrorMessage(c1);
    if c1 != -2 && c1 != -5 {
      assert m[0] == 'A';
      assert c2 != -2 && c2 != -5;
      var n1 := IntToString(c1);
      var n2 := IntToString(c2);
      assert |n1| == |n2| by {
        assert |m| == |UnknownPrefix| + |n1| + |UnknownSuffix|;
        assert |m| == |UnknownPrefix| + |n2| + |UnknownSuffix|;
      }
      assert n1 == m[|UnknownPrefix|..|UnknownPrefix| + |n1|];
      assert n2 == m[|UnknownPrefix|..|UnknownPrefix| + |n2|];
      IntToStringInjective(c1, c2);
    } else {
      assert m[0] != 'A';
    }
  }

  // ---------------------------------------------------------------------------
  // Spec functions: what each step does to the engine
  // ---------------------------------------------------------------------------

  /**
   * `setSetting(category, parameter, value)`: the fetched list is
   * overwritten and saved back exactly when `value` differs from the old
   * value of the last matching parameter (also when nothing matches, since
   * the old value is then undefined).  An unsaved overwrite is discarded
   * with the local copy.  A missing category throws.
   */
  function SetSettingRun(e: Engine, category: string, parameter: string, value: Value): Run {
    match Fetch(e.settings, category)
    case None => Run(e, Fail(MissingSettings))
    case Some(subs) =>
      if LastMatch(subs, parameter) != Some(value) then
        var saved := Overwrite(subs, parameter, value);
        Run(e.(settings := e.settings[category := saved], calls := e.calls + [SaveSettings(category, saved)]), Pass)
      else Run(e, Pass)
  }

  /** The arguments of one `setSetting` call. */
  datatype Write = Write(category: string, parameter: string, value: Value)

  /** Consecutive `setSetting` calls, stopping at the first that throws. */
  function SetSettingsRun(e: Engine, writes: seq<Write>): Run
    decreases |writes|
  {
    if writes == [] then Run(e, Pass)
    else
      var r := SetSettingRun(e, writes[0].category, writes[0].parameter, writes[0].value);
      if r.outcome.Fail? then r else SetSettingsRun(r.engine, writes[1..])
  }

  /** `initOBS`: host the IPC channel, start the engine, and connect its signals unless it failed. */
  function InitObsRun(e: Engine): Run {
    var e1 := e.(calls := e.calls + [IpcHost, SetWorkingDirectory, InitApi]);
    if e.initCode != 0 then Run(e1, Fail(InitErrorMessage(e.initCode)))
    else Run(e1.(calls := e1.calls + [ConnectOutputSignals]), Pass)
  }

  /** JavaScript truthiness of a setting value. */
  predicate Truthy(v: Value) {
    match v
    case Str(s) => s != ""
    case Num(n) => n != 0
    case Bool(b) => b
  }

  /**
   * `availableEncoders.slice(-1)[0] || 'x264'`: never a falsy value, and
   * either the last available encoder or the fallback.
   */
  function EncoderChoice(available: seq<Option<Value>>): (r: Value)
    ensures Truthy(r)
    ensures r == Str("x264") || (available != [] && available[|available| - 1] == Some(r))
    ensures available != [] && available[|available| - 1].Some? && Truthy(available[|available| - 1].value) ==>
      r == available[|available| - 1].value
  {
    if available != [] && available[|available| - 1].Some? && Truthy(available[|available| - 1].value)
    then available[|available| - 1].value
    else Str("x264")
  }

  /** The writes of `configureOBS` that follow the switch to advanced output mode. */
  function ConfigureWrites(encoder: Value, videosDir: string): seq<Write> {
    [Write("Output", "RecEncoder", encoder),
     Write("Output", "RecFilePath", Str(videosDir)),
     Write("Output", "RecFormat", Str("mkv")),
     Write("Output", "VBitrate", Num(10000)),
     Write("Video", "FPSCommon", Num(60))]
  }

  /**
   * `configureOBS`: advanced output mode, then the encoder read back from
   * the engine's list of available encoders, and the remaining writes.
   */
  function ConfigureRun(e: Engine, videosDir: string): Run {
    var r1 := SetSettingRun(e, "Output", "Mode", Str("Advanced"));
    if r1.outcome.Fail? then r1
    else
      var encoder := EncoderChoice(AvailableValues(r1.engine.settings, "Output", "Recording", "RecEncoder"));
      SetSettingsRun(r1.engine, ConfigureWrites(encoder, videosDir))
  }

  /** `${outputWidth}x${outputHeight}` with the output width fixed at 1920. */
  function Resolution(outputHeight: nat): string {
    "1920x" + NatToString(outputHeight)
  }

  /** `setupScene` without the camera: desktop capture, output resolution, the scene. */
  function SetupSceneRun(e: Engine, outputHeight: nat): Run {
    var e1 := e.(calls := e.calls + [CreateInput(DesktopCapture)]);
    var r2 := SetSettingsRun(e1, [Write("Video", "Base", Str(Resolution(outputHeight))),
                                  Write("Video", "Output", Str(Resolution(outputHeight)))]);
    if r2.outcome.Fail? then r2
    else Run(r2.engine.(calls := r2.engine.calls + [CreateScene(SceneName), AddToScene(DesktopCapture)]), Pass)
  }

  function TrackName(track: nat): string {
    "Track" + NatToString(track) + "Name"
  }

  /** One callback of a `forEach` in `setupSources`, for a device that is not "default". */
  function AddAudioRun(e: Engine, a: Assignment): Run {
    var src := Audio(a.kind, a.device.deviceId);
    var e1 := e.(calls := e.calls + [CreateInput(src)]);
    var r := SetSettingRun(e1, "Output", TrackName(a.track), Str(a.device.name));
    if r.outcome.Fail? then r
    else Run(r.engine.(calls := r.engine.calls + [SetAudioMixers(src, a.mask), SetOutputSource(a.track, src)]), Pass)
  }

  /** The callbacks for an allocation, in order, stopping at the first that throws. */
  function ApplyPlan(e: Engine, plan: seq<Assignment>): Run
    decreases |plan|
  {
    if plan == [] then Run(e, Pass)
    else
      var r := AddAudioRun(e, plan[0]);
      if r.outcome.Fail? then r else ApplyPlan(r.engine, plan[1..])
  }

  /** How far one `forEach` of `setupSources` got: the run so far and `currentTrack`. */
  datatype Progress = Progress(run: Run, nextTrack: nat)

  /**
   * One `forEach` of `setupSources` with `currentTrack` at `track`: a
   * "default" device is skipped, any other gets the current track, which
   * then advances; the first callback that throws ends the loop.
   */
  function AddDevicesRun(e: Engine, devices: seq<Device>, kind: AudioKind, track: nat): (p: Progress)
    requires track >= 1
    ensures p.nextTrack >= track
    decreases |devices|
  {
    if devices == [] then Progress(Run(e, Pass), track)
    else if devices[0].deviceId == "default" then AddDevicesRun(e, devices[1..], kind, track)
    else
      var r := AddAudioRun(e, AssignTrack(devices[0], kind, track));
      if r.outcome.Fail? then Progress(r, track) else AddDevicesRun(r.engine, devices[1..], kind, track + 1)
  }

  /** The two `forEach` loops of `setupSources` from track 2, then `RecTracks` from the final track. */
  function DeviceTracksRun(e: Engine, outputs: seq<Device>, inputs: seq<Device>): Run {
    var p1 := AddDevicesRun(e, outputs, DesktopAudio, 2);
    if p1.run.outcome.Fail? then p1.run
    else
      var p2 := AddDevicesRun(p1.run.engine, inputs, MicAudio, p1.nextTrack);
      if p2.run.outcome.Fail? then p2.run
      else SetSettingRun(p2.run.engine, "Output", "RecTracks", Num(RecTracks(p2.nextTrack - 1)))
  }

  /** `setupSources`: track 1 is the scene's mix, then the device loops. */
  function SetupSourcesRun(e: Engine): Run {
    var e1 := e.(calls := e.calls + [SetOutputSource(1, Scene(SceneName))]);
    var r1 := SetSettingRun(e1, "Output", "Track1Name", Str("Mixed: all sources"));
    if r1.outcome.Fail? then r1 else DeviceTracksRun(r1.engine, e.outputDevices, e.inputDevices)
  }

  /** The reference for the device loops: apply the whole allocation, then `RecTracks`. */
  function AllocateRun(e: Engine, plan: seq<Assignment>): Run {
    var r := ApplyPlan(e, plan);
    if r.outcome.Fail? then r else SetSettingRun(r.engine, "Output", "RecTracks", Num(RecTracks(LastTrack(plan))))
  }

  /** The outcome of the setup steps of `initialize`, and whether `scene` was assigned. */
  datatype Boot = Boot(run: Run, sceneBuilt: bool)

  function BootRun(e: Engine, videosDir: string, outputHeight: nat): Boot {
    var r1 := InitObsRun(e);
    if r1.outcome.Fail? then Boot(r1, false)
    else
      var r2 := ConfigureRun(r1.engine, videosDir);
      if r2.outcome.Fail? then Boot(r2, false)
      else
        var r3 := SetupSceneRun(r2.engine, outputHeight);
        if r3.outcome.Fail? then Boot(r3, false)
        else Boot(SetupSourcesRun(r3.engine), true)
  }

  /** `udpateRtmp`: the stream server, then the stream key. */
  function UpdateRtmpRun(e: Engine, server: string, key: string): Run {
    SetSettingsRun(e, [Write("Stream", "server", Str(server)), Write("Stream", "key", Str(key))])
  }

  /** `toggleStreaming(state)`: start streaming when not live, otherwise force a stop. */
  function StreamingCommand(state: bool): (c: Call)
    ensures c == StartStreaming <==> !state
    ensures state ==> c == StopStreaming(true)
  {
    if !state then StartStreaming else StopStreaming(true)
  }

  // ---------------------------------------------------------------------------
  // Properties of the spec functions
  // ---------------------------------------------------------------------------

  /**
   * A second `setSetting` with the same arguments saves nothing when the
   * parameter exists, and saves the unchanged list again when it does not.
   */
  lemma SetSettingTwice(e: Engine, category: string, parameter: string, value: Value)
    requires category in e.settings
    ensures SetSettingRun(e, category, parameter, value).outcome == Pass
    ensures var e1 := SetSettingRun(e, category, parameter, value).engine;
      if LastMatch(e.settings[category], parameter).Some?
      then SetSettingRun(e1, category, parameter, value) == Run(e1, Pass)
      else SetSettingRun(e1, category, parameter, value) ==
             Run(e1.(calls := e1.calls + [SaveSettings(category, e.settings[category])]), Pass)
  {
    var subs := e.settings[category];
    var e1 := SetSettingRun(e, category, parameter, value).engine;
    if LastMatch(subs, parameter) == Some(value) {
      assert e1 == e;
    } else if LastMatch(subs, parameter).Some? {
      OverwriteEstablishes(subs, parameter, value);
      assert e1.settings[category] == Overwrite(subs, parameter, value);
      assert LastMatch(e1.settings[category], parameter) == Some(value);
    } else {
      OverwriteNoMatch(subs, parameter, value);
      assert e1.settings[category] == subs;
      assert e1.settings == e.settings;
    }
  }

  /** After a successful `setSetting` of a name that occurs, its last match holds the value. */
  lemma SetSettingEstablishes(e: Engine, category: string, parameter: string, value: Value)
    requires category in e.settings && LastMatch(e.settings[category], parameter).Some?
    ensures var e1 := SetSettingRun(e, category, parameter, value).engine;
      category in e1.settings && LastMatch(e1.settings[category], parameter) == Some(value)
  {
    if LastMatch(e.settings[category], parameter) != Some(value) {
      OverwriteEstablishes(e.settings[category], parameter, value);
    }
  }

  /** `setSetting` leaves every other parameter's last match, and every other category, as it was. */
  lemma SetSettingFrame(e: Engine, category: string, parameter: string, value: Value, other: string)
    requires category in e.settings && other != parameter
    ensures var e1 := SetSettingRun(e, category, parameter, value).engine;
      category in e1.settings &&
      LastMatch(e1.settings[category], other) == LastMatch(e.settings[category], other) &&
      forall c :: c != category ==> Fetch(e1.settings, c) == Fetch(e.settings, c)
  {
    if LastMatch(e.settings[category], parameter) != Some(value) {
      OverwriteFrame(e.settings[category], parameter, value, other);
    }
  }

  /**
   * Saving the stream server and key, when both parameters exist, makes them
   * the values a later read of the "Stream" category finds last.
   */
  lemma UpdateRtmpStores(e: Engine, server: string, key: string)
    requires "Stream" in e.settings
    requires LastMatch(e.settings["Stream"], "server").Some? && LastMatch(e.settings["Stream"], "key").Some?
    ensures var r := UpdateRtmpRun(e, server, key);
      r.outcome == Pass && "Stream" in r.engine.settings &&
      LastMatch(r.engine.settings["Stream"], "server") == Some(Str(server)) &&
      LastMatch(r.engine.settings["Stream"], "key") == Some(Str(key))
  {
    var writes := [Write("Stream", "server", Str(server)), Write("Stream", "key", Str(key))];
    var e1 := SetSettingRun(e, "Stream", "server", Str(server)).engine;
    SetSettingEstablishes(e, "Stream", "server", Str(server));
    SetSettingFrame(e, "Stream", "server", Str(server), "key");
    assert UpdateRtmpRun(e, server, key) == SetSettingsRun(e1, writes[1..]);
    var r2 := SetSettingRun(e1, "Stream", "key", Str(key));
    assert writes[1..][1..] == [];
    assert SetSettingsRun(e1, writes[1..]) == r2;
    SetSettingEstablishes(e1, "Stream", "key", Str(key));
    SetSettingFrame(e1, "Stream", "key", Str(key), "server");
  }

  /**
   * A nonzero init status throws its table message after the three
   * bring-up commands and before anything else; the flag stays false, so
   * the `shutdown()` on that path sends nothing.
   */
  lemma InitFailure(e: Engine, videosDir: string, outputHeight: nat)
    requires e.initCode != 0
    ensures BootRun(e, videosDir, outputHeight) ==
      Boot(Run(e.(calls := e.calls + [IpcHost, SetWorkingDirectory, InitApi]), Fail(InitErrorMessage(e.initCode))), false)
  {
  }

  /** A step that throws ends the callbacks: the rest of the allocation is not applied. */
  lemma {:induction false} ApplyPlanAppend(e: Engine, p: seq<Assignment>, q: seq<Assignment>)
    ensures ApplyPlan(e, p + q) ==
      if ApplyPlan(e, p).outcome.Fail? then ApplyPlan(e, p) else ApplyPlan(ApplyPlan(e, p).engine, q)
    decreases |p|
  {
    if p == [] {
      assert p + q == q;
    } else {
      assert (p + q)[0] == p[0];
      assert (p + q)[1..] == p[1..] + q;
      var r := AddAudioRun(e, p[0]);
      if r.outcome.Pass? {
        ApplyPlanAppend(r.engine, p[1..], q);
      }
    }
  }

  /** One device loop performs the callbacks of its part of the allocation, and counts its tracks. */
  lemma {:induction false} AddDevicesPlan(e: Engine, devices: seq<Device>, kind: AudioKind, track: nat)
    requires track >= 1
    ensures AddDevicesRun(e, devices, kind, track).run == ApplyPlan(e, PlanDevices(devices, kind, track))
    ensures AddDevicesRun(e, devices, kind, track).run.outcome.Pass? ==>
      AddDevicesRun(e, devices, kind, track).nextTrack == track + |PlanDevices(devices, kind, track)|
    decreases |devices|
  {
    if devices != [] {
      if devices[0].deviceId == "default" {
        AddDevicesPlan(e, devices[1..], kind, track);
      } else {
        var a := AssignTrack(devices[0], kind, track);
        var rest := PlanDevices(devices[1..], kind, track + 1);
        assert ([a] + rest)[0] == a && ([a] + rest)[1..] == rest;
        var r := AddAudioRun(e, a);
        if r.outcome.Pass? {
          AddDevicesPlan(r.engine, devices[1..], kind, track + 1);
        }
      }
    }
  }

  /** The two device loops do exactly what applying the whole allocation and then `RecTracks` does. */
  lemma DeviceTracksPlan(e: Engine, outputs: seq<Device>, inputs: seq<Device>)
    ensures DeviceTracksRun(e, outputs, inputs) == AllocateRun(e, Plan(outputs, inputs))
  {
    var outPlan := PlanDevices(outputs, DesktopAudio, 2);
    var inPlan := PlanDevices(inputs, MicAudio, 2 + |outPlan|);
    var plan := Plan(outputs, inputs);
    assert plan == outPlan + inPlan;
    ApplyPlanAppend(e, outPlan, inPlan);
    AddDevicesPlan(e, outputs, DesktopAudio, 2);
    var p1 := AddDevicesRun(e, outputs, DesktopAudio, 2);
    if p1.run.outcome.Fail? {
      assert ApplyPlan(e, plan) == p1.run;
      assert DeviceTracksRun(e, outputs, inputs) == p1.run;
    } else {
      assert p1.nextTrack == 2 + |outPlan|;
      AddDevicesPlan(p1.run.engine, inputs, MicAudio, p1.nextTrack);
      var p2 := AddDevicesRun(p1.run.engine, inputs, MicAudio, p1.nextTrack);
      assert ApplyPlan(e, plan) == p2.run;
      if p2.run.outcome.Pass? {
        assert p2.nextTrack - 1 == LastTrack(plan);
      }
    }
  }

  /**
   * When the allocation's callbacks all complete and the category has a
   * `RecTracks` parameter, its last match is the mask of tracks 1 to the
   * last track assigned.
   */
  lemma SetupSourcesRecTracks(e: Engine)
    requires "Output" in e.settings && LastMatch(e.settings["Output"], "RecTracks").Some?
    requires SetupSourcesRun(e).outcome.Pass?
    ensures var e1 := SetupSourcesRun(e).engine;
      "Output" in e1.settings &&
      LastMatch(e1.settings["Output"], "RecTracks") == Some(Num(RecTracks(LastTrack(Plan(e.outputDevices, e.inputDevices)))))
  {
    var e1 := e.(calls := e.calls + [SetOutputSource(1, Scene(SceneName))]);
    var r1 := SetSettingRun(e1, "Output", "Track1Name", Str("Mixed: all sources"));
    SetSettingFrame(e1, "Output", "Track1Name", Str("Mixed: all sources"), "RecTracks");
    DeviceTracksPlan(r1.engine, e.outputDevices, e.inputDevices);
    var plan := Plan(e.outputDevices, e.inputDevices);
    forall k | 0 <= k < |plan|
      ensures TrackName(plan[k].track) != "RecTracks"
    {
      assert TrackName(plan[k].track)[0] == 'T' && "RecTracks"[0] == 'R';
    }
    ApplyPlanKeeps(r1.engine, plan, "RecTracks");
    SetSettingEstablishes(ApplyPlan(r1.engine, plan).engine, "Output", "RecTracks", Num(RecTracks(LastTrack(plan))));
  }

  /**
   * The track-name writes of the allocation leave every parameter of
   * "Output" that none of them names as it was.
   */
  lemma {:induction false} ApplyPlanKeeps(e: Engine, plan: seq<Assignment>, name: string)
    requires "Output" in e.settings
    requires forall k :: 0 <= k < |plan| ==> TrackName(plan[k].track) != name
    ensures var e1 := ApplyPlan(e, plan).engine;
      "Output" in e1.settings && LastMatch(e1.settings["Output"], name) == LastMatch(e.settings["Output"], name)
    decreases |plan|
  {
    if plan != [] {
      var a := plan[0];
      var src := Audio(a.kind, a.device.deviceId);
      var e1 := e.(calls := e.calls + [CreateInput(src)]);
      SetSettingFrame(e1, "Output", TrackName(a.track), Str(a.device.name), name);
      var r := AddAudioRun(e, a);
      if r.outcome.Pass? {
        assert forall k :: 0 <= k < |plan[1..]| ==> plan[1..][k] == plan[k + 1];
        ApplyPlanKeeps(r.engine, plan[1..], name);
      }
    }
  }

  /** Different tracks have different `Track⟨n⟩Name` parameters. */
  lemma TrackNameInjective(t: nat, u: nat)
    requires TrackName(t) == TrackName(u)
    ensures t == u
  {
    var a, b := TrackName(t), TrackName(u);
    assert a[5..|a| - 4] == NatToString(t);
    assert b[5..|b| - 4] == NatToString(u);
    ParseNatToString(t);
    ParseNatToString(u);
  }

  /** Every track of the allocation is 2 or more, so none is named "Track1Name". */
  lemma PlanSparesTrack1(outputs: seq<Device>, inputs: seq<Device>)
    ensures forall k :: 0 <= k < |Plan(outputs, inputs)| ==> TrackName(Plan(outputs, inputs)[k].track) != "Track1Name"
  {
    var plan := Plan(outputs, inputs);
    forall k | 0 <= k < |plan|
      ensures TrackName(plan[k].track) != "Track1Name"
    {
      PlanTrackAt(outputs, inputs, k);
      assert NatToString(1) == "1";
      if TrackName(plan[k].track) == TrackName(1) {
        TrackNameInjective(plan[k].track, 1);
      }
    }
  }

  /**
   * When `setupSources` completes and the category has a `Track1Name`
   * parameter, its last match is the name of the mix of all sources: no
   * device's track-name write, nor the `RecTracks` write, replaces it.
   */
  lemma SetupSourcesTrack1Name(e: Engine)
    requires "Output" in e.settings && LastMatch(e.settings["Output"], "Track1Name").Some?
    requires SetupSourcesRun(e).outcome.Pass?
    ensures var e1 := SetupSourcesRun(e).engine;
      "Output" in e1.settings && LastMatch(e1.settings["Output"], "Track1Name") == Some(Str("Mixed: all sources"))
  {
    var e1 := e.(calls := e.calls + [SetOutputSource(1, Scene(SceneName))]);
    var r1 := SetSettingRun(e1, "Output", "Track1Name", Str("Mixed: all sources"));
    SetSettingEstablishes(e1, "Output", "Track1Name", Str("Mixed: all sources"));
    DeviceTracksPlan(r1.engine, e.outputDevices, e.inputDevices);
    var plan := Plan(e.outputDevices, e.inputDevices);
    PlanSparesTrack1(e.outputDevices, e.inputDevices);
    ApplyPlanKeeps(r1.engine, plan, "Track1Name");
    SetSettingFrame(ApplyPlan(r1.engine, plan).engine, "Output", "RecTracks", Num(RecTracks(LastTrack(plan))), "Track1Name");
  }

  // ---------------------------------------------------------------------------
  // The recorder
  // ---------------------------------------------------------------------------

  /** The module-level state of obsRecorder.js, and the engine it drives. */
  class Recorder {
    var initialized: bool
    var scene: Option<string>
    var existingWindow: bool
    var initY: int
    var engine: Engine
    /** `path.join(__dirname, 'videos')` */
    const videosDir: string
    /** `Math.round(1920 / aspectRatio)` for the primary display. */
    const outputHeight: nat

    /** The recorder's own fields, which the settings and engine steps leave alone. */
    ghost function Session(): (bool, Option<string>, bool, int)
      reads this
    {
      (initialized, scene, existingWindow, initY)
    }

    constructor (engine: Engine, videosDir: string, outputHeight: nat)
      ensures this.engine == engine && this.videosDir == videosDir && this.outputHeight == outputHeight
      ensures !initialized && scene == None && !existingWindow && initY == 0
    {
      this.engine := engine;
      this.videosDir := videosDir;
      this.outputHeight := outputHeight;
      initialized := false;
      scene := None;
      existingWindow := false;
      initY := 0;
    }

    /** `setSetting(category, parameter, value)`. */
    method SetSetting(category: string, parameter: string, value: Value) returns (r: Outcome)
      modifies this
      ensures Run(engine, r) == SetSettingRun(old(engine), category, parameter, value)
      ensures Session() == old(Session())
    {
      var data := Fetch(engine.settings, category);
      if data.None? {
        return Fail(MissingSettings);
      }
      var updated, oldValue := ApplySetting(data.value, parameter, value);
      if Some(value) != oldValue {
        engine := engine.(settings := engine.settings[category := updated],
                          calls := engine.calls + [SaveSettings(category, updated)]);
      }
      r := Pass;
    }

    /** `getAvailableValues(category, subcategory, parameter)` against the engine's store. */
    function GetAvailableValues(category: string, subcategory: string, parameter: string): (r: seq<Option<Value>>)
      reads this
      ensures category !in engine.settings ==> r == []
      ensures category in engine.settings &&
              (forall i :: 0 <= i < |engine.settings[category]| ==>
                 engine.settings[category][i].nameSubCategory != subcategory)
              ==> r == []
      ensures category in engine.settings ==> forall i ::
                (IsFirstSub(engine.settings[category], subcategory, i) &&
                 forall j :: 0 <= j < |engine.settings[category][i].parameters| ==>
                   engine.settings[category][i].parameters[j].name != parameter)
                ==> r == []
      ensures category in engine.settings ==> forall i, j ::
                IsFirstSub(engine.settings[category], subcategory, i) &&
                IsFirstParam(engine.settings[category][i].parameters, parameter, j) ==>
                |r| == |engine.settings[category][i].parameters[j].values| &&
                forall k :: 0 <= k < |r| ==> r[k] == FirstField(engine.settings[category][i].parameters[j].values[k])
    {
      AvailableValues(engine.settings, category, subcategory, parameter)
    }

    /** `shutdown()`: reports whether there was a session to close. */
    method Shutdown() returns (closed: bool)
      modifies this
      ensures closed == old(initialized) && !initialized
      ensures engine == if old(initialized)
                        then old(engine).(calls := old(engine.calls) + [RemoveCallback, IpcDisconnect])
                        else old(engine)
      ensures scene == old(scene) && existingWindow == old(existingWindow) && initY == old(initY)
    {
      if !initialized {
        return false;
      }
      engine := engine.(calls := engine.calls + [RemoveCallback, IpcDisconnect]);
      initialized := false;
      closed := true;
    }

    /** `initOBS()`, reached only with the flag down. */
    method InitObs() returns (r: Outcome)
      requires !initialized
      modifies this
      ensures Run(engine, r) == InitObsRun(old(engine))
      ensures Session() == old(Session())
    {
      engine := engine.(calls := engine.calls + [IpcHost, SetWorkingDirectory, InitApi]);
      var initResult := engine.initCode;
      if initResult != 0 {
        var message := InitErrorMessage(initResult);
        var closed := Shutdown();
        return Fail(message);
      }
      engine := engine.(calls := engine.calls + [ConnectOutputSignals]);
      r := Pass;
    }

    /** `configureOBS()`. */
    method ConfigureObs() returns (r: Outcome)
      modifies this
      ensures Run(engine, r) == ConfigureRun(old(engine), videosDir)
      ensures Session() == old(Session())
    {
      ghost var start := engine;
      r := SetSetting("Output", "Mode", Str("Advanced"));
      if r.Fail? { return; }
      var availableEncoders := GetAvailableValues("Output", "Recording", "RecEncoder");
      var encoder := EncoderChoice(availableEncoders);
      ghost var writes := ConfigureWrites(encoder, videosDir);
      ghost var goal := SetSettingsRun(engine, writes);
      assert goal == ConfigureRun(start, videosDir);
      r := SetSetting("Output", "RecEncoder", encoder);
      if r.Fail? { return; }
      assert goal == SetSettingsRun(engine, writes[1..]);
      r := SetSetting("Output", "RecFilePath", Str(videosDir));
      if r.Fail? { return; }
      assert writes[1..][1..] == writes[2..];
      assert goal == SetSettingsRun(engine, writes[2..]);
      r := SetSetting("Output", "RecFormat", Str("mkv"));
      if r.Fail? { return; }
      assert writes[2..][1..] == writes[3..];
      assert goal == SetSettingsRun(engine, writes[3..]);
      r := SetSetting("Output", "VBitrate", Num(10000));
      if r.Fail? { return; }
      assert writes[3..][1..] == writes[4..];
      assert goal == SetSettingsRun(engine, writes[4..]);
      ghost var e4 := engine;
      r := SetSetting("Video", "FPSCommon", Num(60));
      assert writes[4..][0] == Write("Video", "FPSCommon", Num(60)) && writes[4..][1..] == [];
      assert SetSettingsRun(e4, writes[4..]) == Run(engine, r);
    }

    /** `setupScene()` without the camera and the scaling geometry. */
    method SetupScene() returns (r: Outcome)
      modifies this
      ensures Run(engine, r) == SetupSceneRun(old(engine), outputHeight)
      ensures Session() == old(Session())
    {
      engine := engine.(calls := engine.calls + [CreateInput(DesktopCapture)]);
      ghost var writes := [Write("Video", "Base", Str(Resolution(outputHeight))),
                           Write("Video", "Output", Str(Resolution(outputHeight)))];
      ghost var goal := SetSettingsRun(engine, writes);
      assert goal == SetSettingsRun(old(engine).(calls := old(engine).calls + [CreateInput(DesktopCapture)]), writes);
      r := SetSetting("Video", "Base", Str(Resolution(outputHeight)));
      if r.Fail? { return; }
      assert goal == SetSettingsRun(engine, writes[1..]);
      ghost var e1 := engine;
      r := SetSetting("Video", "Output", Str(Resolution(outputHeight)));
      assert writes[1..][0] == writes[1] && writes[1..][1..] == [];
      assert goal == SetSettingsRun(e1, writes[1..]) == Run(engine, r);
      if r.Fail? { return; }
      engine := engine.(calls := engine.calls + [CreateScene(SceneName), AddToScene(DesktopCapture)]);
    }

    /** The `forEach` callback of `setupSources` for one device that is not "default". */
    method AddAudioSource(a: Assignment) returns (r: Outcome)
      modifies this
      ensures Run(engine, r) == AddAudioRun(old(engine), a)
      ensures Session() == old(Session())
    {
      var source := Audio(a.kind, a.device.deviceId);
      engine := engine.(calls := engine.calls + [CreateInput(source)]);
      r := SetSetting("Output", TrackName(a.track), Str(a.device.name));
      if r.Fail? { return; }
      engine := engine.(calls := engine.calls + [SetAudioMixers(source, a.mask), SetOutputSource(a.track, source)]);
    }

    /** One of the two `forEach` loops of `setupSources`, numbering from `firstTrack`. */
    method AddAudioSources(devices: seq<Device>, kind: AudioKind, firstTrack: nat) returns (r: Outcome, nextTrack: nat)
      requires firstTrack >= 1
      modifies this
      ensures Progress(Run(engine, r), nextTrack) == AddDevicesRun(old(engine), devices, kind, firstTrack)
      ensures Session() == old(Session())
    {
      ghost var goal := AddDevicesRun(engine, devices, kind, firstTrack);
      var currentTrack := firstTrack;
      var i := 0;
      while i < |devices|
        invariant 0 <= i <= |devices|
        invariant currentTrack >= firstTrack
        invariant Session() == old(Session())
        invariant goal == AddDevicesRun(engine, devices[i..], kind, currentTrack)
      {
        var device := devices[i];
        assert devices[i..][0] == device && devices[i..][1..] == devices[i + 1..];
        if device.deviceId != "default" {
          r := AddAudioSource(AssignTrack(device, kind, currentTrack));
          if r.Fail? {
            return r, currentTrack;
          }
          currentTrack := currentTrack + 1;
        }
        i := i + 1;
      }
      r, nextTrack := Pass, currentTrack;
    }

    /**
     * `setupSources()`: track 1 is the scene, then the two device loops, then
     * `RecTracks`.  The device lists are the engine's probes, which no
     * setting changes, so they are read up front.
     */
    method SetupSources() returns (r: Outcome)
      modifies this
      ensures Run(engine, r) == SetupSourcesRun(old(engine))
      ensures Session() == old(Session())
    {
      var outputs := engine.outputDevices;
      var inputs := engine.inputDevices;
      engine := engine.(calls := engine.calls + [SetOutputSource(1, Scene(SceneName))]);
      r := SetSetting("Output", "Track1Name", Str("Mixed: all sources"));
      if r.Fail? { return; }
      r := AddDeviceTracks(outputs, inputs);
    }

    /** The two device loops of `setupSources`, outputs first, then `RecTracks`. */
    method AddDeviceTracks(outputs: seq<Device>, inputs: seq<Device>) returns (r: Outcome)
      modifies this
      ensures Run(engine, r) == DeviceTracksRun(old(engine), outputs, inputs)
      ensures Session() == old(Session())
    {
      var currentTrack;
      r, currentTrack := AddAudioSources(outputs, DesktopAudio, 2);
      if r.Fail? { return; }
      r, currentTrack := AddAudioSources(inputs, MicAudio, currentTrack);
      if r.Fail? { return; }
      r := SetSetting("Output", "RecTracks", Num(RecTracks(currentTrack - 1)));
    }

    /**
     * `initialize(win)`: does nothing when a session is up; otherwise runs
     * the setup steps, raises the flag once they all complete, and then
     * throws when there is no window to attach the statistics timer to.
     */
    method Initialize(hasWindow: bool) returns (r: Outcome)
      modifies this
      ensures old(initialized) ==> r == Pass && engine == old(engine) && Session() == old(Session())
      ensures !old(initialized) ==>
        var b := BootRun(old(engine), videosDir, outputHeight);
        engine == b.run.engine &&
        initialized == b.run.outcome.Pass? &&
        scene == (if b.sceneBuilt then Some(SceneName) else old(scene)) &&
        existingWindow == old(existingWindow) && initY == old(initY) &&
        r == (if b.run.outcome.Fail? then b.run.outcome else if hasWindow then Pass else Fail(NoWindow))
    {
      if initialized {
        return Pass;
      }
      r := InitObs();
      if r.Fail? { return; }
      r := ConfigureObs();
      if r.Fail? { return; }
      r := SetupScene();
      if r.Fail? { return; }
      scene := Some(SceneName);
      r := SetupSources();
      if r.Fail? { return; }
      initialized := true;
      if !hasWindow {
        r := Fail(NoWindow);
      }
    }

    /** `getNextSignalInfo()`: the next queued signal, or the timeout when none is queued. */
    method NextSignal() returns (r: Option<SignalInfo>)
      modifies this
      ensures old(engine.signals) == [] ==> r == None && engine == old(engine)
      ensures old(engine.signals) != [] ==>
        r == Some(old(engine.signals)[0]) && engine == old(engine).(signals := old(engine.signals)[1..])
      ensures Session() == old(Session())
    {
      if engine.signals == [] {
        return None;
      }
      r := Some(engine.signals[0]);
      engine := engine.(signals := engine.signals[1..]);
    }

    /**
     * `start()`: with a session up, sends the start command, takes exactly
     * one signal and fails with its error exactly when it is "Stop".
     * Without one, it runs `initialize()` with no window, which throws.
     */
    method Start() returns (r: Outcome)
      modifies this
      ensures !old(initialized) ==>
        var b := BootRun(old(engine), videosDir, outputHeight);
        engine == b.run.engine && initialized == b.run.outcome.Pass? &&
        scene == (if b.sceneBuilt then Some(SceneName) else old(scene)) &&
        existingWindow == old(existingWindow) && initY == old(initY) &&
        r == (if b.run.outcome.Fail? then b.run.outcome else Fail(NoWindow))
      ensures old(initialized) ==> Session() == old(Session())
      ensures old(initialized) ==> var q := old(engine.signals);
        engine == old(engine).(calls := old(engine.calls) + [StartRecording], signals := if q == [] then [] else q[1..]) &&
        r == (if q == [] then Fail(SignalTimeout)
              else if q[0].signal == "Stop" then Fail(q[0].error.GetOr(""))
              else Pass)
    {
      if !initialized {
        r := Initialize(false);
        return;
      }
      engine := engine.(calls := engine.calls + [StartRecording]);
      var signalInfo := NextSignal();
      if signalInfo.None? {
        return Fail(SignalTimeout);
      }
      if signalInfo.value.signal == "Stop" {
        return Fail(signalInfo.value.error.GetOr(""));
      }
      r := Pass;
    }

    /** `stop()`: sends the stop command and takes two signals without looking at them. */
    method Stop() returns (r: Outcome)
      modifies this
      ensures var q := old(engine.signals);
        engine == old(engine).(calls := old(engine.calls) + [StopRecording],
                               signals := if |q| >= 2 then q[2..] else []) &&
        r == (if |q| >= 2 then Pass else Fail(SignalTimeout))
      ensures Session() == old(Session())
    {
      engine := engine.(calls := engine.calls + [StopRecording]);
      var signalInfo := NextSignal();
      if signalInfo.None? {
        return Fail(SignalTimeout);
      }
      signalInfo := NextSignal();
      if signalInfo.None? {
        return Fail(SignalTimeout);
      }
      r := Pass;
    }

    /** `toggleStreaming(state)`. */
    method ToggleStreaming(state: bool)
      modifies this
      ensures engine == old(engine).(calls := old(engine.calls) + [StreamingCommand(state)])
      ensures Session() == old(Session())
    {
      if !state {
        engine := engine.(calls := engine.calls + [StartStreaming]);
      } else {
        engine := engine.(calls := engine.calls + [StopStreaming(true)]);
      }
    }

    /** `udpateRtmp(window, { server, key })`. */
    method UpdateRtmp(server: string, key: string) returns (r: Outcome)
      modifies this
      ensures Run(engine, r) == UpdateRtmpRun(old(engine), server, key)
      ensures Session() == old(Session())
    {
      ghost var writes := [Write("Stream", "server", Str(server)), Write("Stream", "key", Str(key))];
      ghost var goal := SetSettingsRun(engine, writes);
      r := SetSetting("Stream", "server", Str(server));
      if r.Fail? { return; }
      assert goal == SetSettingsRun(engine, writes[1..]);
      ghost var e1 := engine;
      r := SetSetting("Stream", "key", Str(key));
      assert writes[1..][0] == writes[1] && writes[1..][1..] == [];
      assert goal == SetSettingsRun(e1, writes[1..]) == Run(engine, r);
    }

    /**
     * The placement part of `resizePreview(window, bounds)`, given the
     * floored `bounds.x` and `bounds.y`.  The first nonzero vertical offset
     * is remembered; on macOS (scale factor 1) the preview window is rebuilt
     * and placed mirrored about that offset, elsewhere the display is moved.
     */
    method ResizePreview(displayX: int, displayY: int, onMac: bool)
      modifies this
      ensures initY == if old(initY) == 0 then displayY else old(initY)
      ensures existingWindow == (old(existingWindow) || onMac)
      ensures engine == old(engine).(calls := old(engine.calls) +
        if onMac then [RecreatePreviewWindow(old(existingWindow)), MoveWindow(displayX, 2 * initY - displayY)]
        else [MoveDisplay(displayX, displayY)])
      ensures initialized == old(initialized) && scene == old(scene)
    {
      if initY == 0 {
        initY := displayY;
      }
      if onMac {
        engine := engine.(calls := engine.calls + [RecreatePreviewWindow(existingWindow),
                                                   MoveWindow(displayX, initY - displayY + initY)]);
        existingWindow := true;
      } else {
        engine := engine.(calls := engine.calls + [MoveDisplay(displayX, displayY)]);
      }
    }
  }

}
