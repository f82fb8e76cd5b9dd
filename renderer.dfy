/**
 * The renderer of renderer.js: the recording timer and its text, the copy
 * of the stream server and key into the form fields, the recording switch,
 * and the streaming toggle kept in local storage.
 *
 * The DOM is reduced to the values the code writes into it, the clock to a
 * `now` parameter, and the synchronous IPC replies to parameters.
 */
module Renderer {

  import opened Wrappers
  import opened Decimal
  import opened Settings
  import ObsRecorder

  // ---------------------------------------------------------------------------
  // updateTimer
  // ---------------------------------------------------------------------------

  /** JavaScript's `a % b` for a positive divisor: the remainder takes the sign of `a`. */
  function JsRem(a: int, b: int): (r: int)
    requires b > 0
    ensures a >= 0 ==> r == a % b
    ensures a < 0 ==> -b < r <= 0
    ensures (a - r) % b == 0
  {
    if a >= 0 then
      RemainderStep(a, b);
      a % b
    else
      RemainderStep(-a, b);
      NegatedMultiple(-a - (-a) % b, b);
      -((-a) % b)
  }

  /** Taking away the remainder leaves a multiple of `b`. */
  lemma RemainderStep(a: int, b: int)
    requires b > 0
    ensures (a - a % b) % b == 0
  {
    var q := a / b;
    assert a - a % b == q * b;
    MultipleMod(q, b);
  }

  /** The negation of a multiple of `b` is one. */
  lemma NegatedMultiple(x: int, b: int)
    requires b > 0 && x % b == 0
    ensures (-x) % b == 0
  {
    var q := x / b;
    assert x == q * b;
    assert -x == (-q) * b;
    MultipleMod(-q, b);
  }

  /** A multiple of `b` leaves no remainder. */
  lemma {:induction false} MultipleMod(q: int, b: int)
    requires b > 0
    ensures (q * b) % b == 0
  {
    var k := q - (q * b) / b;
    assert k * b == (q * b) % b;
    if k >= 1 {
      MultipleAtLeast(k, b);
    } else if k <= -1 {
      MultipleAtLeast(-k, b);
    }
  }

  /** A positive multiple of `b` is at least `b`. */
  lemma {:induction false} MultipleAtLeast(k: int, b: int)
    requires k >= 1 && b > 0
    ensures k * b >= b
    decreases k
  {
    if k > 1 {
      MultipleAtLeast(k - 1, b);
      assert k * b == (k - 1) * b + b;
    }
  }

  /** The four numbers `updateTimer` renders. */
  datatype Clock = Clock(hours: int, minutes: int, seconds: int, tenths: int)

  /** The time in milliseconds that a clock stands for. */
  function ClockMillis(c: Clock): int {
    c.hours * 3600000 + c.minutes * 60000 + c.seconds * 1000 + c.tenths * 100
  }

  /**
   * `Math.floor(diff / 3600000)`, `Math.floor(diff % 3600000 / 60000)`,
   * `Math.floor(diff % 60000 / 1000)` and `Math.floor(diff % 1000 / 100)`;
   * Dafny's division by a positive constant is the floor.
   */
  function TimerParts(diff: int): Clock {
    Clock(diff / 3600000, JsRem(diff, 3600000) / 60000, JsRem(diff, 60000) / 1000, JsRem(diff, 1000) / 100)
  }

  /** `:${minutes}:${seconds}.${decimals}`, minutes and seconds padded to two characters. */
  function ClockTail(c: Clock): string {
    ":" + PadStart2(IntToString(c.minutes)) + ":" + PadStart2(IntToString(c.seconds)) + "." + IntToString(c.tenths)
  }

  /** `${hours}:${minutes}:${seconds}.${decimals}`, the first three padded to two characters. */
  function FormatClock(c: Clock): string {
    PadStart2(IntToString(c.hours)) + ClockTail(c)
  }

  /** The text `updateTimer` writes for `diff` milliseconds since the start. */
  function FormatTimer(diff: int): string {
    FormatClock(TimerParts(diff))
  }

  /**
   * For a non-negative elapsed time the minutes and seconds are below 60 and
   * the tenths below 10, and together they give the elapsed time rounded
   * down to a tenth of a second.
   */
  lemma TimerPartsSpec(diff: int)
    requires diff >= 0
    ensures var c := TimerParts(diff);
      c.hours >= 0 && 0 <= c.minutes < 60 && 0 <= c.seconds < 60 && 0 <= c.tenths < 10 &&
      ClockMillis(c) == diff - diff % 100
  {
    var h := diff / 3600000;
    var r1 := diff % 3600000;
    var m := r1 / 60000;
    var r2 := r1 % 60000;
    DivModUnique(diff, 60000, 60 * h + m, r2);
    var s := r2 / 1000;
    var r3 := r2 % 1000;
    DivModUnique(diff, 1000, 3600 * h + 60 * m + s, r3);
    DivModUnique(diff, 100, 36000 * h + 600 * m + 10 * s + r3 / 100, r3 % 100);
  }

  /** Euclidean division is unique: a quotient and a remainder in range are `x / b` and `x % b`. */
  lemma DivModUnique(x: int, b: int, q: int, r: int)
    requires b > 0 && 0 <= r < b && x == q * b + r
    ensures x / b == q && x % b == r
  {
    var k := q - x / b;
    assert k * b == x % b - r;
    if k >= 1 {
      MultipleAtLeast(k, b);
    } else if k <= -1 {
      MultipleAtLeast(-k, b);
    }
  }

  /** Reads `:MM:SS.D` back as milliseconds. */
  function ParseTail(u: string): Option<int>
    requires |u| == 8
  {
    if u[0] == ':' && IsDigit(u[1]) && IsDigit(u[2]) && u[3] == ':' && IsDigit(u[4]) && IsDigit(u[5]) &&
       u[6] == '.' && IsDigit(u[7])
    then
      var minutes := 10 * DigitValue(u[1]) + DigitValue(u[2]);
      var seconds := 10 * DigitValue(u[4]) + DigitValue(u[5]);
      Some(minutes * 60000 + seconds * 1000 + DigitValue(u[7]) * 100)
    else None
  }

  /**
   * Reads a timer text back: at least two hour digits, then `:MM:SS.D`.
   * The result is in milliseconds.
   */
  function ParseTimer(t: string): Option<int> {
    if |t| < 10 then None else ParseFields(t[..|t| - 8], t[|t| - 8..])
  }

  /** The hours digits `hs` and the tail `u` of a timer text, read back as milliseconds. */
  function ParseFields(hs: string, u: string): Option<int>
    requires |u| == 8
  {
    if !AllDigits(hs) then None
    else match ParseTail(u)
      case None => None
      case Some(rest) => Some(ParseNat(hs) * 3600000 + rest)
  }

  lemma DigitRoundTrip(d: nat)
    requires d < 10
    ensures DigitValue(DigitChar(d)) == d
  {
  }

  /** Where the characters of a `:MM:SS.D` tail come from. */
  lemma TailChars(mm: string, ss: string, dd: string)
    requires |mm| == 2 && |ss| == 2 && |dd| == 1
    ensures var u := ":" + mm + ":" + ss + "." + dd;
      |u| == 8 && u[0] == ':' && u[1] == mm[0] && u[2] == mm[1] && u[3] == ':' &&
      u[4] == ss[0] && u[5] == ss[1] && u[6] == '.' && u[7] == dd[0]
  {
  }

  /** The tail of a clock with fields in range reads back as its value in milliseconds. */
  lemma ParseClockTail(c: Clock)
    requires 0 <= c.minutes < 60 && 0 <= c.seconds < 60 && 0 <= c.tenths < 10
    ensures |ClockTail(c)| == 8
    ensures ParseTail(ClockTail(c)) == Some(c.minutes * 60000 + c.seconds * 1000 + c.tenths * 100)
  {
    var mm := PadStart2(IntToString(c.minutes));
    var ss := PadStart2(IntToString(c.seconds));
    var dd := IntToString(c.tenths);
    PadTwoDigits(c.minutes);
    PadTwoDigits(c.seconds);
    assert dd == [DigitChar(c.tenths)];
    TailChars(mm, ss, dd);
    DigitRoundTrip(c.minutes / 10);
    DigitRoundTrip(c.minutes % 10);
    DigitRoundTrip(c.seconds / 10);
    DigitRoundTrip(c.seconds % 10);
    DigitRoundTrip(c.tenths);
  }

  /** A timer text splits into its hours and its 8-character tail. */
  lemma ParseTimerSplit(hs: string, u: string)
    requires AllDigits(hs) && |hs| >= 2 && |u| == 8
    ensures ParseTimer(hs + u) == ParseFields(hs, u)
  {
    var t := hs + u;
    assert t[..|t| - 8] == hs;
    assert t[|t| - 8..] == u;
  }

  /** The text of a clock with fields in range reads back as the time it stands for. */
  lemma FormatClockParses(c: Clock)
    requires c.hours >= 0 && 0 <= c.minutes < 60 && 0 <= c.seconds < 60 && 0 <= c.tenths < 10
    ensures ParseTimer(FormatClock(c)) == Some(ClockMillis(c))
  {
    var hs := PadStart2(IntToString(c.hours));
    assert IntToString(c.hours) == NatToString(c.hours);
    PaddedNatParses(c.hours);
    ParseClockTail(c);
    ParseTimerSplit(hs, ClockTail(c));
  }

  /** The timer text of a non-negative elapsed time reads back as that time, down to the tenth. */
  lemma TimerRoundTrip(diff: int)
    requires diff >= 0
    ensures ParseTimer(FormatTimer(diff)) == Some(diff - diff % 100)
  {
    var c := TimerParts(diff);
    TimerPartsSpec(diff);
    FormatClockParses(c);
    assert FormatTimer(diff) == FormatClock(c);
  }

  /**
   * `HH:MM:SS.d`: at least two hour digits, then two minute digits, two
   * second digits and one tenths digit, with the separators in between.
   */
  predicate TimerShaped(t: string) {
    var n := |t|;
    n >= 10 && AllDigits(t[..n - 8]) &&
    t[n - 8] == ':' && IsDigit(t[n - 7]) && IsDigit(t[n - 6]) &&
    t[n - 5] == ':' && IsDigit(t[n - 4]) && IsDigit(t[n - 3]) &&
    t[n - 2] == '.' && IsDigit(t[n - 1])
  }

  /** Every text the parser accepts has the timer's shape. */
  lemma ParsedIsShaped(t: string)
    requires ParseTimer(t).Some?
    ensures TimerShaped(t)
  {
    var n := |t|;
    var u := t[n - 8..];
    assert u[0] == t[n - 8] && u[1] == t[n - 7] && u[2] == t[n - 6] && u[3] == t[n - 5];
    assert u[4] == t[n - 4] && u[5] == t[n - 3] && u[6] == t[n - 2] && u[7] == t[n - 1];
  }

  /** For a non-negative elapsed time the timer text has exactly the shape `HH:MM:SS.d`. */
  lemma TimerShape(diff: int)
    requires diff >= 0
    ensures TimerShaped(FormatTimer(diff))
  {
    TimerRoundTrip(diff);
    ParsedIsShaped(FormatTimer(diff));
  }

  // ---------------------------------------------------------------------------
  // getStream
  // ---------------------------------------------------------------------------

  /** The inner `forEach` of `getStream`: each "server" or "key" parameter overwrites its field. */
  method ReadStreamParameters(ps: seq<Parameter>, server0: Value, key0: Value) returns (server: Value, key: Value)
    ensures server == LastMatchParams(ps, "server").GetOr(server0)
    ensures key == LastMatchParams(ps, "key").GetOr(key0)
  {
    server, key := server0, key0;
    var j := 0;
    while j < |ps|
      invariant 0 <= j <= |ps|
      invariant server == LastMatchParams(ps[..j], "server").GetOr(server0)
      invariant key == LastMatchParams(ps[..j], "key").GetOr(key0)
    {
      assert ps[..j + 1][..j] == ps[..j];
      if ps[j].name == "server" {
        server := ps[j].currentValue;
      } else if ps[j].name == "key" {
        key := ps[j].currentValue;
      }
      j := j + 1;
    }
    assert ps[..j] == ps;
  }

  /**
   * `getStream()` over the "Stream" settings: the fields end up holding the
   * current value of the last "server" and "key" parameters, and keep what
   * they held when there is none.
   */
  method ReadStream(streamSettings: seq<SubCategory>, server0: Value, key0: Value) returns (server: Value, key: Value)
    ensures server == LastMatch(streamSettings, "server").GetOr(server0)
    ensures key == LastMatch(streamSettings, "key").GetOr(key0)
  {
    server, key := server0, key0;
    var i := 0;
    while i < |streamSettings|
      invariant 0 <= i <= |streamSettings|
      invariant server == LastMatch(streamSettings[..i], "server").GetOr(server0)
      invariant key == LastMatch(streamSettings[..i], "key").GetOr(key0)
    {
      assert streamSettings[..i + 1][..i] == streamSettings[..i];
      assert streamSettings[..i + 1][i] == streamSettings[i];
      server, key := ReadStreamParameters(streamSettings[i].parameters, server, key);
      i := i + 1;
    }
    assert streamSettings[..i] == streamSettings;
  }

  /**
   * `saveSetting()`: `udpateRtmp` stores the server and key, and the
   * `getStream()` that follows sets each field to the last match in the
   * "Stream" list or keeps its previous content (`server0`, `key0`), as
   * `Page.GetStream` states.  When both parameters exist the form shows
   * exactly the saved values, whatever it held before.
   */
  lemma ReadAfterSave(e: ObsRecorder.Engine, server: string, key: string, server0: Value, key0: Value)
    requires "Stream" in e.settings
    requires LastMatch(e.settings["Stream"], "server").Some? && LastMatch(e.settings["Stream"], "key").Some?
    ensures var r := ObsRecorder.UpdateRtmpRun(e, server, key);
      r.outcome == Pass && "Stream" in r.engine.settings &&
      LastMatch(r.engine.settings["Stream"], "server").GetOr(server0) == Str(server) &&
      LastMatch(r.engine.settings["Stream"], "key").GetOr(key0) == Str(key)
  {
    ObsRecorder.UpdateRtmpStores(e, server, key);
  }

  // ---------------------------------------------------------------------------
  // The page state
  // ---------------------------------------------------------------------------

  const StopRecordingLabel := "⏹️ Stop recording"
  const StartRecordingLabel := "⏺️ Start recording"
  /** The streaming button's two labels, "end live" and "start live". */
  const EndLiveLabel := "结束直播"
  const StartLiveLabel := "开始直播"
  /** The TypeError `getStream` raises when the "Stream" settings are undefined. */
  const NoStreamSettings := "TypeError: streamSettings is undefined"
  /** The TypeError `streaming` raises when local storage holds no status. */
  const NoStoredStatus := "TypeError: cannot read 'status' of null"

  /** The module-level state of renderer.js and the page elements it writes. */
  class Page {
    var recording: bool
    /** `null` until the first `startTimer()`. */
    var recordingStartedAt: Option<int>
    var timerRunning: bool
    var timerText: string
    var recordLabel: string
    var serverField: Value
    var keyField: Value
    /** `localStorage['streaming_status'].status`, `None` when the item is absent. */
    var storedStatus: Option<bool>
    var streamingLabel: string
    /** The flags sent on the `toggleStreaming` channel, oldest first. */
    var toggles: seq<bool>

    /** The recording side of the page: the flag, the timer and the record button's label. */
    ghost function RecordingState(): (bool, Option<int>, bool, string, string)
      reads this
    {
      (recording, recordingStartedAt, timerRunning, timerText, recordLabel)
    }

    /** The stream form fields that `getStream` fills. */
    ghost function StreamFields(): (Value, Value)
      reads this
    {
      (serverField, keyField)
    }

    /** The streaming side of the page: the stored status, the live button's label and the toggles sent. */
    ghost function StreamingState(): (Option<bool>, string, seq<bool>)
      reads this
    {
      (storedStatus, streamingLabel, toggles)
    }

    constructor (storedStatus: Option<bool>)
      ensures !recording && recordingStartedAt == None && !timerRunning
      ensures serverField == Str("") && keyField == Str("") && timerText == "" && recordLabel == ""
      ensures this.storedStatus == storedStatus && streamingLabel == "" && toggles == []
    {
      recording := false;
      recordingStartedAt := None;
      timerRunning := false;
      timerText := "";
      recordLabel := "";
      serverField := Str("");
      keyField := Str("");
      this.storedStatus := storedStatus;
      streamingLabel := "";
      toggles := [];
    }

    /**
     * `updateTimer()` at time `now`.  Before any `startTimer()` the start is
     * `null`, which subtraction treats as 0.
     */
    method UpdateTimer(now: int)
      modifies this
      ensures timerText == FormatTimer(now - old(recordingStartedAt).GetOr(0))
      ensures recordingStartedAt == old(recordingStartedAt) && timerRunning == old(timerRunning)
      ensures recording == old(recording) && recordLabel == old(recordLabel)
      ensures StreamFields() == old(StreamFields()) && StreamingState() == old(StreamingState())
    {
      timerText := FormatTimer(now - recordingStartedAt.GetOr(0));
    }

    /** `getStream()` with the reply of the `getSetting` channel; an undefined reply throws first. */
    method GetStream(streamSettings: Option<seq<SubCategory>>) returns (r: Outcome)
      modifies this
      ensures streamSettings.None? ==> r == Fail(NoStreamSettings) && serverField == old(serverField) && keyField == old(keyField)
      ensures streamSettings.Some? ==>
        (r == Pass &&
         serverField == LastMatch(streamSettings.value, "server").GetOr(old(serverField)) &&
         keyField == LastMatch(streamSettings.value, "key").GetOr(old(keyField)))
      ensures RecordingState() == old(RecordingState()) && StreamingState() == old(StreamingState())
    {
      if streamSettings.None? {
        return Fail(NoStreamSettings);
      }
      serverField, keyField := ReadStream(streamSettings.value, serverField, keyField);
      r := Pass;
    }

    /**
     * The part of `updateUI()` that follows the recording flag: the button
     * label and the timer, then the stream fields.
     */
    method UpdateUi(now: int, streamSettings: Option<seq<SubCategory>>) returns (r: Outcome)
      modifies this
      ensures recordLabel == if recording then StopRecordingLabel else StartRecordingLabel
      ensures recording ==> recordingStartedAt == Some(now) && timerRunning
      ensures !recording ==> recordingStartedAt == old(recordingStartedAt) && !timerRunning
      ensures recording == old(recording) && timerText == old(timerText)
      ensures r == if streamSettings.None? then Fail(NoStreamSettings) else Pass
      ensures streamSettings.Some? ==>
        serverField == LastMatch(streamSettings.value, "server").GetOr(old(serverField)) &&
        keyField == LastMatch(streamSettings.value, "key").GetOr(old(keyField))
      ensures streamSettings.None? ==> serverField == old(serverField) && keyField == old(keyField)
      ensures StreamingState() == old(StreamingState())
    {
      if recording {
        recordLabel := StopRecordingLabel;
        recordingStartedAt := Some(now);
        timerRunning := true;
      } else {
        recordLabel := StartRecordingLabel;
        timerRunning := false;
      }
      r := GetStream(streamSettings);
    }

    /**
     * `switchRecording()`.  The main process answers `recording-start` with
     * `{ recording: true }` and `recording-stop` with `{ recording: false }`
     * whatever the recorder does, so the flag simply flips.
     */
    method SwitchRecording(now: int, streamSettings: Option<seq<SubCategory>>) returns (r: Outcome)
      modifies this
      ensures recording == !old(recording)
      ensures recordLabel == if recording then StopRecordingLabel else StartRecordingLabel
      ensures recording ==> recordingStartedAt == Some(now) && timerRunning
      ensures !recording ==> recordingStartedAt == old(recordingStartedAt) && !timerRunning
      ensures timerText == old(timerText)
      ensures r == if streamSettings.None? then Fail(NoStreamSettings) else Pass
      ensures streamSettings.Some? ==>
        serverField == LastMatch(streamSettings.value, "server").GetOr(old(serverField)) &&
        keyField == LastMatch(streamSettings.value, "key").GetOr(old(keyField))
      ensures streamSettings.None? ==> serverField == old(serverField) && keyField == old(keyField)
      ensures StreamingState() == old(StreamingState())
    {
      if recording {
        recording := false;
      } else {
        recording := true;
      }
      r := UpdateUi(now, streamSettings);
    }

    /**
     * `streaming()`: sends the stored status to the main process, which
     * starts streaming for `false` and stops it for `true`, then stores the
     * negation.  With no stored item `JSON.parse(null).status` throws.
     */
    method Streaming() returns (r: Outcome)
      modifies this
      ensures old(storedStatus).None? ==>
        (r == Fail(NoStoredStatus) && storedStatus == None && toggles == old(toggles) &&
         streamingLabel == old(streamingLabel))
      ensures old(storedStatus).Some? ==> var status := old(storedStatus).value;
        r == Pass && toggles == old(toggles) + [status] && storedStatus == Some(!status) &&
        streamingLabel == (if !status then EndLiveLabel else StartLiveLabel)
      ensures RecordingState() == old(RecordingState()) && StreamFields() == old(StreamFields())
    {
      if storedStatus.None? {
        return Fail(NoStoredStatus);
      }
      var status := storedStatus.value;
      if !status {
        streamingLabel := EndLiveLabel;
      } else {
        streamingLabel := StartLiveLabel;
      }
      toggles := toggles + [status];
      storedStatus := Some(!status);
      r := Pass;
    }
  }
}
