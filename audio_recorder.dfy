/** The `AudioRecorder` component of src/components/AudioRecorder.tsx: the
    `formatTime` display helper and the six state cells its handlers and its
    one-second timer update. Calls into the recorder/player library and the
    file system are parameters: whether each awaited call completed or threw,
    and what it returned. */
module AudioRecording {
  import opened Values
  import opened Text

  // ---------------------------------------------------------------------------
  // formatTime

  /** The display of `mins` minutes and `secs` seconds: the minutes padded to
      at least two digits, a colon, and the seconds padded to two digits. */
  function Clock(mins: nat, secs: nat): string {
    PadStart(NatToString(mins), 2, '0') + ":" + PadStart(NatToString(secs), 2, '0')
  }

  /** `formatTime(ms)`: the whole minutes and the seconds within the minute. */
  function FormatTime(ms: nat): string {
    var seconds := ms / 1000;
    Clock(seconds / 60, seconds % 60)
  }

  /** Reads an `m:ss` display back as a number of whole seconds. */
  function ParseTime(s: string): Option<nat> {
    if |s| >= 4 && s[|s| - 3] == ':' && AllDigits(s[..|s| - 3]) && AllDigits(s[|s| - 2..])
       && ParseDigits(s[|s| - 2..]) < 60
    then Some(ParseDigits(s[..|s| - 3]) * 60 + ParseDigits(s[|s| - 2..]))
    else None
  }

  lemma {:induction false} NatToStringAtMostTwo(n: nat)
    requires n < 100
    ensures |NatToString(n)| <= 2
  {
    if n >= 10 { NatToStringTwoDigits(n); }
  }

  lemma {:induction false} NatToStringAtLeastThree(n: nat)
    requires n >= 100
    ensures |NatToString(n)| >= 3
  {
    assert NatToString(n) == NatToString(n / 10) + [DigitChar(n % 10)];
  }

  lemma ParseTwoDigits(t: string)
    requires |t| == 2 && AllDigits(t)
    ensures ParseDigits(t) == DigitValue(t[0]) * 10 + DigitValue(t[1])
  {
    var head := t[..1];
    assert head == [t[0]] && head[..0] == [];
    assert ParseDigits(head) == ParseDigits(head[..0]) * 10 + DigitValue(head[0]);
    assert ParseDigits(t) == ParseDigits(head) * 10 + DigitValue(t[1]);
  }

  /** The seconds field: exactly two digits, the first at most 5. */
  lemma SecondsField(secs: nat)
    requires secs < 60
    ensures var t := PadStart(NatToString(secs), 2, '0');
      |t| == 2 && AllDigits(t) && ParseDigits(t) == secs && '0' <= t[0] <= '5'
  {
    var t := PadStart(NatToString(secs), 2, '0');
    NatToStringAtMostTwo(secs);
    PadStartDigits(secs, 2);
    ParseTwoDigits(t);
  }

  /** `r` shows `mins` minutes and `secs` seconds: a minutes field of at least
      two digits reading back as `mins`, then ':', then exactly two digits
      reading back as `secs`, the first of them at most 5. */
  predicate ShowsClock(r: string, mins: nat, secs: nat) {
    |r| >= 5 && r[|r| - 3] == ':'
    && AllDigits(r[..|r| - 3]) && ParseDigits(r[..|r| - 3]) == mins
    && AllDigits(r[|r| - 2..]) && ParseDigits(r[|r| - 2..]) == secs
    && '0' <= r[|r| - 2] <= '5'
  }

  /** Two digit fields joined by ':' show the clock they read back as. */
  lemma ClockPieces(m: string, t: string)
    requires |m| >= 2 && AllDigits(m)
    requires |t| == 2 && AllDigits(t) && '0' <= t[0] <= '5'
    ensures ShowsClock(m + ":" + t, ParseDigits(m), ParseDigits(t))
  {
    var r := m + ":" + t;
    assert |r| == |m| + 3;
    assert r[..|m|] == m;
    assert r[|m| + 1..] == t;
    assert r[|m|] == ':' && r[|m| + 1] == t[0];
  }

  lemma ClockFields(mins: nat, secs: nat)
    requires secs < 60
    ensures ShowsClock(Clock(mins, secs), mins, secs)
  {
    var m := PadStart(NatToString(mins), 2, '0');
    var t := PadStart(NatToString(secs), 2, '0');
    PadStartDigits(mins, 2);
    SecondsField(secs);
    ClockPieces(m, t);
  }

  /** The fields of the display: the minutes field reads back as
      floor(floor(ms / 1000) / 60) and the seconds field, 00 to 59, as the
      seconds within the minute. */
  lemma FormatTimeFields(ms: nat)
    ensures ShowsClock(FormatTime(ms), ms / 1000 / 60, ms / 1000 % 60)
  {
    ClockFields(ms / 1000 / 60, ms / 1000 % 60);
  }

  /** Reading the display back gives the whole seconds in `ms`: the
      sub-second remainder is dropped and nothing else is lost. */
  lemma FormatTimeRoundTrip(ms: nat)
    ensures ParseTime(FormatTime(ms)) == Some(ms / 1000)
  {
    FormatTimeFields(ms);
  }

  /** The display is exactly five characters (`mm:ss`) below 100 minutes,
      and longer from there on. */
  lemma FormatTimeLength(ms: nat)
    ensures |FormatTime(ms)| == 5 <==> ms < 6000000
  {
    var mins := ms / 1000 / 60;
    NatToStringAtMostTwo(ms / 1000 % 60);
    if ms < 6000000 {
      NatToStringAtMostTwo(mins);
    } else {
      NatToStringAtLeastThree(mins);
    }
  }

  /** From 100 minutes on, the minutes field is the plain decimal text of the
      minutes: `padStart` adds no zero, so the display never starts with '0'. */
  lemma FormatTimeLongMinutes(ms: nat)
    ensures var r := FormatTime(ms);
      |r| > 5 ==> r[..|r| - 3] == NatToString(ms / 1000 / 60) && r[0] != '0'
  {
    var mins, secs := ms / 1000 / 60, ms / 1000 % 60;
    var m := PadStart(NatToString(mins), 2, '0');
    var t := PadStart(NatToString(secs), 2, '0');
    NatToStringAtMostTwo(secs);
    assert FormatTime(ms) == m + ":" + t;
    if |m| > 2 {
      assert m == NatToString(mins);
      ClockPieces(m, t);
    }
  }

  /** Two times in the same whole second show the same display. */
  lemma FormatTimeIgnoresMillis(ms: nat, other: nat)
    requires ms / 1000 == other / 1000
    ensures FormatTime(ms) == FormatTime(other)
  {
  }

  /** What the recording display shows: `formatTime(recordingTime * 1000)`
      reads back as exactly `recordingTime` seconds. */
  lemma RecordingDisplay(recordingTime: nat)
    ensures ParseTime(FormatTime(recordingTime * 1000)) == Some(recordingTime)
  {
    FormatTimeRoundTrip(recordingTime * 1000);
    ThousandsBack(recordingTime);
  }

  lemma ThousandsBack(t: nat)
    ensures t * 1000 / 1000 == t
  {
  }

  // ---------------------------------------------------------------------------
  // The recorder state

  /** A call into the recorder/player library or the file system. */
  datatype RecorderCall = StopRecorder | StopPlayer | Unlink(path: string)

  /** The dialog `onStartRecord` shows. */
  datatype RecorderAlert = PermissionRequired | StartFailed

  /** The calls a cleanup that tests the two flags makes: stop the recorder if
      recording, stop the player if playing. */
  function CleanupCalls(isRecording: bool, isPlaying: bool): (calls: seq<RecorderCall>)
    ensures StopRecorder in calls <==> isRecording
    ensures StopPlayer in calls <==> isPlaying
    ensures |calls| <= 2
  {
    (if isRecording then [StopRecorder] else []) + (if isPlaying then [StopPlayer] else [])
  }

  class Recorder {
    var isRecording: bool
    var recordingTime: nat
    var audioPath: Option<string>
    var isPlaying: bool
    var playTime: nat
    var duration: nat

    /** The first render: idle, nothing recorded. */
    constructor ()
      ensures !isRecording && recordingTime == 0 && audioPath == None
      ensures !isPlaying && playTime == 0 && duration == 0
    {
      isRecording, recordingTime, audioPath := false, 0, None;
      isPlaying, playTime, duration := false, 0, 0;
    }

    /** `onStartRecord`: without permission, only the dialog; otherwise start
        the recorder and, once it returns its uri, record into it from zero. */
    method OnStartRecord(hasPermission: bool, started: Completion<string>) returns (alert: Option<RecorderAlert>)
      modifies this
      ensures !hasPermission ==> alert == Some(PermissionRequired) && unchanged(this)
      ensures hasPermission && started.Threw? ==> alert == Some(StartFailed) && unchanged(this)
      ensures hasPermission && started.Completed? ==>
        alert == None && audioPath == Some(started.value) && isRecording && recordingTime == 0
        && isPlaying == old(isPlaying) && playTime == old(playTime) && duration == old(duration)
    {
      if !hasPermission {
        return Some(PermissionRequired);
      }
      match started
      case Threw =>
        alert := Some(StartFailed);
      case Completed(uri) =>
        audioPath := Some(uri);
        isRecording := true;
        recordingTime := 0;
        alert := None;
    }

    /** `onStopRecord`: once the recorder stops, recording is over; the
        elapsed time and the file stay. */
    method OnStopRecord(stopped: bool)
      modifies this
      ensures stopped ==> !isRecording
      ensures !stopped ==> isRecording == old(isRecording)
      ensures recordingTime == old(recordingTime) && audioPath == old(audioPath)
      ensures isPlaying == old(isPlaying) && playTime == old(playTime) && duration == old(duration)
    {
      if stopped {
        isRecording := false;
      }
    }

    /** `onStartPlay`: with no recording (no path, or an empty one) nothing
        happens; otherwise the player starts on the path and playing begins.
        Returns the path handed to the player, if any. */
    method OnStartPlay(started: bool) returns (played: Option<string>)
      modifies this
      ensures !Truthy(old(audioPath)) ==> played == None && unchanged(this)
      ensures Truthy(old(audioPath)) ==> played == old(audioPath)
      ensures isPlaying == (old(isPlaying) || (Truthy(old(audioPath)) && started))
      ensures isRecording == old(isRecording) && recordingTime == old(recordingTime)
      ensures audioPath == old(audioPath) && playTime == old(playTime) && duration == old(duration)
    {
      if !Truthy(audioPath) {
        return None;
      }
      played := audioPath;
      if started {
        isPlaying := true;
      }
    }

    /** `onStopPlay`: once the player stops, playing is over and the position
        is back at zero. */
    method OnStopPlay(stopped: bool)
      modifies this
      ensures stopped ==> !isPlaying && playTime == 0
      ensures !stopped ==> isPlaying == old(isPlaying) && playTime == old(playTime)
      ensures isRecording == old(isRecording) && recordingTime == old(recordingTime)
      ensures audioPath == old(audioPath) && duration == old(duration)
    {
      if stopped {
        isPlaying := false;
        playTime := 0;
      }
    }

    /** The playback listener: record the position and length, and stop the
        player once the position reaches the end. */
    method OnPlayBack(currentPosition: nat, total: nat, stopped: bool)
      modifies this
      ensures duration == total
      ensures currentPosition >= total && stopped ==> !isPlaying && playTime == 0
      ensures !(currentPosition >= total && stopped) ==> isPlaying == old(isPlaying) && playTime == currentPosition
      ensures isRecording == old(isRecording) && recordingTime == old(recordingTime) && audioPath == old(audioPath)
    {
      playTime := currentPosition;
      duration := total;
      if currentPosition >= total {
        OnStopPlay(stopped);
      }
    }

    /** One firing of the one-second interval: it exists only while recording,
        and adds one second each time. */
    method Tick()
      modifies this
      ensures old(isRecording) ==> recordingTime == old(recordingTime) + 1
      ensures !old(isRecording) ==> recordingTime == old(recordingTime)
      ensures isRecording == old(isRecording) && audioPath == old(audioPath)
      ensures isPlaying == old(isPlaying) && playTime == old(playTime) && duration == old(duration)
    {
      if isRecording {
        recordingTime := recordingTime + 1;
      }
    }

    /** `onRetake`: stop what runs, delete the file if there is one, and go
        back to the idle state, whatever the stops and the deletion did. The
        handler tests the flags and the path as they were when it was called. */
    method OnRetake(stopPlayOk: bool, stopRecordOk: bool) returns (calls: seq<RecorderCall>)
      modifies this
      ensures audioPath == None && playTime == 0 && duration == 0 && recordingTime == 0
      ensures !isRecording && !isPlaying
      ensures calls == (if old(isPlaying) then [StopPlayer] else [])
                       + (if old(isRecording) then [StopRecorder] else [])
                       + (if Truthy(old(audioPath)) then [Unlink(old(audioPath).value)] else [])
    {
      var wasPlaying, wasRecording, path := isPlaying, isRecording, audioPath;
      calls := [];
      if wasPlaying {
        OnStopPlay(stopPlayOk);
        calls := calls + [StopPlayer];
      }
      if wasRecording {
        OnStopRecord(stopRecordOk);
        calls := calls + [StopRecorder];
      }
      if Truthy(path) {
        calls := calls + [Unlink(path.value)];
      }
      audioPath := None;
      playTime := 0;
      duration := 0;
      recordingTime := 0;
      isRecording := false;
      isPlaying := false;
    }

    /** The time display: the recording time while recording, else the
        playback position. While recording it reads back as `recordingTime`
        seconds. */
    function TimeText(): (r: string)
      reads this
      ensures isRecording ==> ParseTime(r) == Some(recordingTime)
      ensures !isRecording ==> ParseTime(r) == Some(playTime / 1000)
    {
      RecordingDisplay(recordingTime);
      FormatTimeRoundTrip(playTime);
      FormatTime(if isRecording then recordingTime * 1000 else playTime)
    }

    /** The unmount cleanup as written: its closure was made at the first
        render, so it tests the flags as they were then, both false. */
    method UnmountAsWritten() returns (calls: seq<RecorderCall>)
      ensures calls == []
    {
      var firstRenderRecording, firstRenderPlaying := false, false;
      calls := CleanupCalls(firstRenderRecording, firstRenderPlaying);
    }

    /** The unmount cleanup as evidently intended: stop the recorder and the
        player if they are running now. */
    method Unmount() returns (calls: seq<RecorderCall>)
      ensures calls == CleanupCalls(isRecording, isPlaying)
    {
      calls := [];
      if isRecording { calls := calls + [StopRecorder]; }
      if isPlaying { calls := calls + [StopPlayer]; }
    }
  }

  /** As written, unmounting never stops anything, even in the middle of a
      recording; the corrected cleanup stops exactly what is running. */
  lemma UnmountDuringRecording(isRecording: bool, isPlaying: bool)
    requires isRecording
    ensures StopRecorder !in CleanupCalls(false, false)
    ensures StopRecorder in CleanupCalls(isRecording, isPlaying)
  {
  }

  /** The screen opens, a recording starts into `uri`, and the screen is
      unmounted: the cleanup as written leaves the recorder running, the
      corrected one stops it. */
  method UnmountWhileRecording(uri: string) returns (asWritten: seq<RecorderCall>, corrected: seq<RecorderCall>)
    ensures StopRecorder !in asWritten
    ensures StopRecorder in corrected
  {
    var recorder := new Recorder();
    var alert := recorder.OnStartRecord(true, Completed(uri));
    assert recorder.isRecording;
    asWritten := recorder.UnmountAsWritten();
    corrected := recorder.Unmount();
  }
}
