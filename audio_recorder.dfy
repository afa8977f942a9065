// VoiceInk-ios/AudioRecorder.swift: the recorder's published state, the
// file a recording goes to, and the meter timer that keeps the last 40
// input levels. The OS calls are boolean arguments; the meter timer is the
// explicit `MeterTick`; the clock is the whole seconds it reads.
module Recorder {
  import opened Base
  import opened Paths
  import Records

  const WindowSize: nat := 40

  /** A power reading in dB mapped onto [0, 1]: -60 dB and below is silence,
      0 dB and above is full scale. */
  function Normalize(power: real): (n: real)
    ensures 0.0 <= n <= 1.0
    ensures power <= -60.0 ==> n == 0.0
    ensures power >= 0.0 ==> n == 1.0
    ensures -60.0 <= power <= 0.0 ==> n == (power + 60.0) / 60.0
  {
    var x := (power + 60.0) / 60.0;
    if x < 0.0 then 0.0 else if x > 1.0 then 1.0 else x
  }

  /** Louder readings never show lower. */
  lemma NormalizeMonotone(p: real, q: real)
    requires p <= q
    ensures Normalize(p) <= Normalize(q)
  {
  }

  /** The last 40 levels of a history. */
  function Last40(s: seq<real>): (r: seq<real>)
    ensures |r| <= WindowSize && |r| == if |s| <= WindowSize then |s| else WindowSize
  {
    if |s| <= WindowSize then s else s[|s| - WindowSize..]
  }

  /** One meter reading: append, then drop the oldest beyond 40. */
  function Window(levels: seq<real>, x: real): (r: seq<real>)
    ensures |r| <= WindowSize && r != [] && r[|r| - 1] == x
    ensures |levels| < WindowSize ==> r == levels + [x]
  {
    Last40(levels + [x])
  }

  /** The window after a run of readings. */
  function Windows(levels: seq<real>, xs: seq<real>): seq<real> {
    if xs == [] then levels else Window(Windows(levels, xs[..|xs| - 1]), xs[|xs| - 1])
  }

  /** Trimming before appending keeps the same last 40. */
  lemma TrimThenAppend(a: seq<real>, x: real)
    ensures Last40(Last40(a) + [x]) == Last40(a + [x])
  {
    var t := Last40(a);
    assert t + [x] == (a + [x])[|a| - |t|..];
  }

  /** Starting from an empty history, the window always holds the most
      recent 40 readings in arrival order. */
  lemma {:induction false} WindowKeepsMostRecent(xs: seq<real>)
    ensures Windows([], xs) == Last40(xs)
  {
    if xs != [] {
      var n := |xs| - 1;
      var init := xs[..n];
      WindowKeepsMostRecent(init);
      assert Windows([], xs) == Window(Last40(init), xs[n]);
      TrimThenAppend(init, xs[n]);
      assert init + [xs[n]] == xs;
    }
  }

  /** `recording_<seconds>.wav`. */
  function RecordingFileName(seconds: int): (name: string)
    ensures '/' !in name && name != []
  {
    var digits := IntToString(seconds);
    assert forall i :: 0 <= i < |digits| ==> digits[i] != '/';
    "recording_" + digits + ".wav"
  }

  /** A recording's file inside the recordings directory, named so that the
      record's stored file name resolves back to it. */
  lemma RecordingFileResolves(documents: string, seconds: int)
    ensures var url := JoinPath(Records.RecordingsDirectory(documents), RecordingFileName(seconds));
      LastPathComponent(url) == RecordingFileName(seconds)
      && Records.ResolveAudioPath(Some(LastPathComponent(url)), documents) == Some(url)
  {
    var name := RecordingFileName(seconds);
    LastComponentOfJoin(Records.RecordingsDirectory(documents), name);
    Records.ResolveStoredFileName(documents, name);
  }

  /** `AudioRecorder`. `hasRecorder` and `hasMeterTimer` stand for the
      optional recorder and timer objects. */
  class AudioRecorder {
    var isRecording: bool
    var currentRecordingURL: Option<string>
    var currentDuration: real
    var levelsHistory: seq<real>
    var hasRecorder: bool
    var hasMeterTimer: bool
    const documents: string

    /** The level window never holds more than 40 readings. */
    predicate Valid()
      reads this
    {
      |levelsHistory| <= WindowSize
    }

    constructor(documents: string)
      ensures Valid() && this.documents == documents
      ensures !isRecording && currentRecordingURL.None? && currentDuration == 0.0 && levelsHistory == []
      ensures !hasRecorder && !hasMeterTimer
    {
      this.documents := documents;
      isRecording := false;
      currentRecordingURL := None;
      currentDuration := 0.0;
      levelsHistory := [];
      hasRecorder := false;
      hasMeterTimer := false;
    }

    /** `startRecording`: `sessionOk` is the session set-up, `created` the
        recorder's construction and `started` its `record()` answer. Any
        failure throws before the published state changes; a recorder that
        was created but did not start is kept. */
    method StartRecording(sessionOk: bool, seconds: int, created: bool, started: bool) returns (failed: bool)
      requires Valid()
      modifies this
      ensures Valid() && levelsHistory == old(levelsHistory)
      ensures failed <==> !(sessionOk && created && started)
      ensures failed ==> isRecording == old(isRecording) && currentRecordingURL == old(currentRecordingURL)
                         && currentDuration == old(currentDuration) && hasMeterTimer == old(hasMeterTimer)
      ensures failed ==> hasRecorder == (if sessionOk && created then true else old(hasRecorder))
      ensures !failed ==>
        && currentRecordingURL == Some(JoinPath(Records.RecordingsDirectory(documents), RecordingFileName(seconds)))
        && isRecording && currentDuration == 0.0 && hasRecorder && hasMeterTimer
    {
      if !sessionOk {
        return true;
      }
      var url := JoinPath(Records.RecordingsDirectory(documents), RecordingFileName(seconds));
      if !created {
        return true;
      }
      hasRecorder := true;
      if !started {
        return true;
      }
      currentRecordingURL := Some(url);
      isRecording := true;
      currentDuration := 0.0;
      hasMeterTimer := true;
      failed := false;
    }

    /** One firing of the meter timer. `power` is the recorder's average
        power; only a live recorder gives one, and without it there is none. */
    method MeterTick(power: Option<real>)
      requires Valid() && hasMeterTimer
      requires power.Some? ==> hasRecorder
      modifies this
      ensures Valid()
      ensures currentDuration == old(currentDuration) + 0.1
      ensures levelsHistory == if power.Some? then Window(old(levelsHistory), Normalize(power.value))
                               else old(levelsHistory)
      ensures isRecording == old(isRecording) && currentRecordingURL == old(currentRecordingURL)
      ensures hasRecorder == old(hasRecorder) && hasMeterTimer == old(hasMeterTimer)
    {
      currentDuration := currentDuration + 0.1;
      if power.Some? {
        var normalized := Normalize(power.value);
        levelsHistory := levelsHistory + [normalized];
        if |levelsHistory| > WindowSize {
          levelsHistory := levelsHistory[|levelsHistory| - WindowSize..];
        }
      }
    }

    /** `stopRecording`: recorder and timer gone, the window emptied; the URL
        and the duration stay for the caller to read. */
    method StopRecording()
      modifies this
      ensures Valid()
      ensures !isRecording && levelsHistory == [] && !hasRecorder && !hasMeterTimer
      ensures currentRecordingURL == old(currentRecordingURL) && currentDuration == old(currentDuration)
    {
      hasRecorder := false;
      hasMeterTimer := false;
      isRecording := false;
      levelsHistory := [];
    }

    /** `discard`: a stop, then the file is deleted (the answer is the path
        whose removal is attempted) and the URL and duration are reset. */
    method Discard() returns (removedPath: Option<string>)
      modifies this
      ensures Valid()
      ensures removedPath == old(currentRecordingURL)
      ensures !isRecording && levelsHistory == [] && !hasRecorder && !hasMeterTimer
      ensures currentRecordingURL.None? && currentDuration == 0.0
    {
      StopRecording();
      removedPath := currentRecordingURL;
      currentRecordingURL := None;
      currentDuration := 0.0;
    }
  }
}
