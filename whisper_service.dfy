// VoiceInk-ios/WhisperTranscriptionService.swift: on-device transcription of
// a recorded WAV file with the downloaded base model.
module LocalTranscription {
  import opened Base
  import opened Whisper
  import RiffWave
  import LocalModels

  datatype WhisperTranscriptionError =
    | NoModelAvailable
    | ModelLoadFailed
    | AudioProcessingFailed
    | TranscriptionFailed

  function Description(e: WhisperTranscriptionError): string {
    match e
    case NoModelAvailable => "No local Whisper model is available. Please download a model first."
    case ModelLoadFailed => "Failed to load the Whisper model."
    case AudioProcessingFailed => "Failed to process audio file for transcription."
    case TranscriptionFailed => "Whisper transcription failed."
  }

  const NoAudioDetected: string := "No audio detected."

  /** `decodeWaveFile`: the file's bytes (absent when unreadable) decoded. */
  function DecodeWaveFile(fileData: Option<seq<Byte>>): (r: Option<seq<real>>)
    ensures r.Some? <==> fileData.Some? && |fileData.value| > RiffWave.HeaderSize
    ensures r.Some? ==> r == Some(RiffWave.DecodeWave(fileData.value).value)
  {
    match fileData
    case None => None
    case Some(data) =>
      match RiffWave.DecodeWave(data)
      case Err(_) => None
      case Ok(samples) => Some(samples)
  }

  /** What one local transcription answers. The order of the checks is the
      order of the failures: no model, then a load failure, then audio that
      cannot be decoded, then a failed run. An empty transcript reads as
      "No audio detected.". */
  function Outcome(modelPath: Option<string>, loaded: Option<Handle>, fileData: Option<seq<Byte>>,
                   cpu: int, vadModelPath: Option<string>,
                   native: (Handle, FullParams, seq<real>) -> int,
                   segmentsOf: Handle -> seq<Option<string>>): (r: Result<string, WhisperTranscriptionError>)
    ensures modelPath.None? ==> r == Err(NoModelAvailable)
    ensures modelPath.Some? && loaded.None? ==> r == Err(ModelLoadFailed)
    ensures modelPath.Some? && loaded.Some? && DecodeWaveFile(fileData).None? ==> r == Err(AudioProcessingFailed)
    ensures r.Ok? ==> r.value != [] && modelPath.Some? && loaded.Some? && DecodeWaveFile(fileData).Some?
    ensures r.Ok? ==>
      var t := Trim(Concat(segmentsOf(loaded.value)));
      r.value == (if t == [] then NoAudioDetected else t)
    ensures r == Err(TranscriptionFailed) <==>
      modelPath.Some? && loaded.Some? && DecodeWaveFile(fileData).Some?
      && native(loaded.value, ParamsFor(cpu, vadModelPath), DecodeWaveFile(fileData).value) != 0
  {
    if modelPath.None? then Err(NoModelAvailable)
    else if loaded.None? then Err(ModelLoadFailed)
    else
      match DecodeWaveFile(fileData)
      case None => Err(AudioProcessingFailed)
      case Some(samples) =>
        if native(loaded.value, ParamsFor(cpu, vadModelPath), samples) != 0 then Err(TranscriptionFailed)
        else
          var t := Trim(Concat(segmentsOf(loaded.value)));
          Ok(if t == [] then NoAudioDetected else t)
  }

  /** `transcribeAudioFile`. The model path comes from the model manager's
      view of the disk; `loaded` is the native loader's answer for it. Every
      path that created a context frees it exactly once, counting the release
      and the context's end of life when the call returns. The base URL,
      key, model and language arguments play no part. */
  method TranscribeAudioFile(documents: string, files: set<string>, loaded: Option<Handle>,
                             vadModelPath: Option<string>, fileData: Option<seq<Byte>>, cpu: int,
                             native: (Handle, FullParams, seq<real>) -> int,
                             segmentsOf: Handle -> seq<Option<string>>)
    returns (r: Result<string, WhisperTranscriptionError>, ghost created: WhisperContext?)
    ensures r == Outcome(LocalModels.BaseModelPath(documents, files), loaded, fileData, cpu, vadModelPath, native, segmentsOf)
    ensures created == null <==> LocalModels.BaseModelPath(documents, files).None? || loaded.None?
    ensures created != null ==>
      fresh(created) && !created.live && created.freed == [loaded.value] && created.context.None?
  {
    created := null;
    var modelPath := LocalModels.BaseModelPath(documents, files);
    if modelPath.None? {
      return Err(NoModelAvailable), null;
    }
    var loadResult := CreateContext(modelPath.value, loaded, vadModelPath);
    if loadResult.Err? {
      return Err(ModelLoadFailed), null;
    }
    var context := loadResult.value;
    created := context;
    var audioSamples := DecodeWaveFile(fileData);
    if audioSamples.None? {
      context.ReleaseResources();
      context.Deinit();
      return Err(AudioProcessingFailed), created;
    }
    var success := context.FullTranscribe(audioSamples.value, cpu, native);
    if success {
      var transcription := context.GetTranscription(segmentsOf);
      context.ReleaseResources();
      context.Deinit();
      r := Ok(if transcription == [] then NoAudioDetected else transcription);
    } else {
      context.ReleaseResources();
      context.Deinit();
      r := Err(TranscriptionFailed);
    }
  }

  /** `verifyAPIKey`: whether a model is on disk, whatever the key. */
  function VerifyAPIKey(documents: string, files: set<string>, apiKey: string): (ok: bool)
    ensures ok <==> LocalModels.HasAvailableModel(documents, files)
    ensures ok <==> LocalModels.BaseModelPath(documents, files).Some?
  {
    LocalModels.AvailabilityAgrees(documents, files);
    LocalModels.HasAvailableModel(documents, files)
  }
}
