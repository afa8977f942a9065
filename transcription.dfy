// VoiceInk-ios/VoiceInk-ios/Transcription.swift: the persisted transcript
// record, its status and the resolution of its audio file reference.
module Records {
  import opened Base
  import opened Paths

  datatype TranscriptionStatus = Pending | Completed | Failed

  const AllStatuses: seq<TranscriptionStatus> := [Pending, Completed, Failed]

  function StatusRawValue(s: TranscriptionStatus): string {
    match s
    case Pending => "pending"
    case Completed => "completed"
    case Failed => "failed"
  }

  function StatusFromRawValue(raw: string): (r: Option<TranscriptionStatus>)
    ensures r.Some? ==> StatusRawValue(r.value) == raw
  {
    if raw == "pending" then Some(Pending)
    else if raw == "completed" then Some(Completed)
    else if raw == "failed" then Some(Failed)
    else None
  }

  /** The stored raw value reads back as the same status. */
  lemma StatusRawValueRoundTrip(s: TranscriptionStatus)
    ensures StatusFromRawValue(StatusRawValue(s)) == Some(s)
  {
  }

  /** The recordings directory under the app's documents directory. */
  function RecordingsDirectory(documents: string): string {
    JoinPath(documents, "Recordings")
  }

  /** `fullAudioPath` on the stored reference: nothing for a missing or empty
      reference, an absolute path as is, and a bare file name inside the
      recordings directory. */
  function ResolveAudioPath(reference: Option<string>, documents: string): (r: Option<string>)
    ensures r.None? <==> reference.None? || reference.value == []
    ensures r.Some? && reference.value[0] == '/' ==> r.value == reference.value
    ensures r.Some? && reference.value[0] != '/' ==>
      r.value == JoinPath(RecordingsDirectory(documents), reference.value)
  {
    match reference
    case None => None
    case Some(name) =>
      if name == [] then None
      else if name[0] == '/' then Some(name)
      else Some(JoinPath(RecordingsDirectory(documents), name))
  }

  /** A record stores only the last component of the recording's path; for a
      file in the recordings directory that resolves back to the full path. */
  lemma ResolveStoredFileName(documents: string, name: string)
    requires name != [] && '/' !in name
    ensures ResolveAudioPath(Some(LastPathComponent(JoinPath(RecordingsDirectory(documents), name))), documents)
            == Some(JoinPath(RecordingsDirectory(documents), name))
  {
    LastComponentOfJoin(RecordingsDirectory(documents), name);
    assert name[0] in name;
  }

  /** The SwiftData record. `UUID()` and `Date()` are supplied by the caller;
      durations are seconds as reals. */
  class Transcription {
    var id: nat
    var text: string
    var enhancedText: Option<string>
    var timestamp: real
    var duration: real
    var audioFileURL: Option<string>
    var transcriptionModelName: Option<string>
    var aiEnhancementModelName: Option<string>
    var transcriptionDuration: Option<real>
    var enhancementDuration: Option<real>
    var transcriptionStatus: TranscriptionStatus
    var transcriptionError: Option<string>

    /** `init(text:duration:...)` with every optional argument defaulted but
        the file reference: the status starts `.pending` with no error. */
    constructor(id: nat, text: string, duration: real, timestamp: real,
                audioFileURL: Option<string> := None,
                transcriptionStatus: TranscriptionStatus := Pending)
      ensures this.id == id && this.text == text && this.duration == duration
      ensures this.timestamp == timestamp && this.audioFileURL == audioFileURL
      ensures this.transcriptionStatus == transcriptionStatus
      ensures enhancedText.None? && transcriptionModelName.None? && aiEnhancementModelName.None?
      ensures transcriptionDuration.None? && enhancementDuration.None?
      ensures transcriptionError.None?
    {
      this.id := id;
      this.text := text;
      this.enhancedText := None;
      this.timestamp := timestamp;
      this.duration := duration;
      this.audioFileURL := audioFileURL;
      this.transcriptionModelName := None;
      this.aiEnhancementModelName := None;
      this.transcriptionDuration := None;
      this.enhancementDuration := None;
      this.transcriptionStatus := transcriptionStatus;
      this.transcriptionError := None;
    }

    /** Pending and failed records are the ones still to transcribe. */
    function NeedsTranscription(): (r: bool)
      reads this
      ensures r <==> transcriptionStatus != Completed
    {
      transcriptionStatus == Pending || transcriptionStatus == Failed
    }

    /** `fullAudioPath` of this record (see ResolveAudioPath). */
    function FullAudioPath(documents: string): Option<string>
      reads this
    {
      ResolveAudioPath(audioFileURL, documents)
    }
  }
}
