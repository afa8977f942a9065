// VoiceInk-ios/TranscriptionRetryService.swift: transcribing an existing
// record again with the current settings. The record is changed in place;
// no record is created.
module Retry {
  import opened Base
  import opened Providers
  import opened Settings
  import opened TextCleanup
  import Records
  import opened Pipeline

  /** `TranscriptionError`, plus the transcription service's own errors,
      which the retry passes on. */
  datatype RetryError = AudioFileNotFound | NoApiKey | ServiceError(message: string)

  /** `errorDescription`. */
  function Description(e: RetryError): (d: string)
    ensures e == NoApiKey ==> d == NoApiKeyMessage
  {
    match e
    case AudioFileNotFound => "Audio file not found"
    case NoApiKey => "No API key configured"
    case ServiceError(message) => message
  }

  /** The retry as a value: the audio file must resolve and exist, then the
      transcription back end needs a key; the service's error is passed on;
      otherwise the cleaned text goes through the optional rewrite. */
  function RetryOutcome(e: EffectiveSettings, keys: map<Provider, string>, audioPath: Option<string>,
                        files: set<string>, transcribe: Transcriber, rewrite: Rewriter)
    : (r: Result<PostProcessed, RetryError>)
    requires CloudProviders <= keys.Keys
    ensures r == Err(AudioFileNotFound) <==> audioPath.None? || audioPath.value !in files
    ensures r == Err(NoApiKey) <==>
      audioPath.Some? && audioPath.value in files && TranscriptionKey(e, keys) == []
    ensures r.Err? && r.error.ServiceError? <==>
      audioPath.Some? && audioPath.value in files && TranscriptionKey(e, keys) != []
      && RawTranscript(e, keys, audioPath.value, transcribe).Err?
    ensures r.Ok? ==>
      r.value == OptionalRewrite(e, keys, Clean(RawTranscript(e, keys, audioPath.value, transcribe).value), rewrite)
  {
    if audioPath.None? || audioPath.value !in files then Err(AudioFileNotFound)
    else if TranscriptionKey(e, keys) == [] then Err(NoApiKey)
    else
      match RawTranscript(e, keys, audioPath.value, transcribe)
      case Err(message) => Err(ServiceError(message))
      case Ok(raw) => Ok(OptionalRewrite(e, keys, Clean(raw), rewrite))
  }

  /** For a record whose audio file is present, the retry fails or completes
      exactly when the background job would, with the same error text; but
      where the job keeps the cleaned text and files the rewrite as the
      enhanced text, the retry stores the final text itself. */
  lemma RetryAgreesWithBackground(f: NoteFields, e: EffectiveSettings, keys: map<Provider, string>,
                                  path: string, files: set<string>, transcribe: Transcriber, rewrite: Rewriter)
    requires CloudProviders <= keys.Keys
    requires path in files
    ensures var r := RetryOutcome(e, keys, Some(path), files, transcribe, rewrite);
      var g := Applied(f, Background(e, keys, path, transcribe, rewrite), e);
      && (r.Ok? <==> g.status == Records.Completed)
      && (r.Err? ==> g.error == Some(Description(r.error)))
      && (r.Ok? ==> r.value.error == g.error && Clean(RawTranscript(e, keys, path, transcribe).value) == g.text)
      && (r.Ok? && g.enhancedText.Some? ==> r.value.finalText == g.enhancedText.value)
      && (r.Ok? && g.enhancedText.None? ==> r.value.finalText == g.text)
  {
  }

  /** The record fields a retry writes. */
  datatype RetryFields = RetryFields(text: string, status: Records.TranscriptionStatus, error: Option<string>)

  function RetryFieldsOf(note: Records.Transcription): RetryFields
    reads note
  {
    RetryFields(note.text, note.transcriptionStatus, note.transcriptionError)
  }

  /** `retranscribe(note:)`: `documents` and `files` stand for the documents
      directory and the files that exist. A thrown error leaves the record
      as it was; success completes the same record, stores the final text,
      replaces any earlier error by the rewrite's failure (or none) and
      returns the stored text. */
  method Retranscribe(note: Records.Transcription, documents: string, files: set<string>,
                      settings: AppSettings, transcribe: Transcriber, rewrite: Rewriter)
    returns (r: Result<string, RetryError>)
    requires settings.Valid()
    modifies note
    ensures var outcome := RetryOutcome(settings.CurrentEffective(), settings.apiKeys,
                                        old(note.FullAudioPath(documents)), files, transcribe, rewrite);
      && (outcome.Err? ==> r == Err(outcome.error) && RetryFieldsOf(note) == old(RetryFieldsOf(note)))
      && (outcome.Ok? ==>
            && r == Ok(outcome.value.finalText)
            && RetryFieldsOf(note) == RetryFields(outcome.value.finalText, Records.Completed, outcome.value.error))
    ensures note.enhancedText == old(note.enhancedText) && note.audioFileURL == old(note.audioFileURL)
    ensures note.id == old(note.id) && note.duration == old(note.duration) && note.timestamp == old(note.timestamp)
    ensures note.transcriptionModelName == old(note.transcriptionModelName)
    ensures note.aiEnhancementModelName == old(note.aiEnhancementModelName)
    ensures note.transcriptionDuration == old(note.transcriptionDuration)
    ensures note.enhancementDuration == old(note.enhancementDuration)
  {
    var audioPath := note.FullAudioPath(documents);
    var e := settings.CurrentEffective();
    ghost var outcome := RetryOutcome(e, settings.apiKeys, audioPath, files, transcribe, rewrite);
    if audioPath.None? || audioPath.value !in files {
      return Err(AudioFileNotFound);
    }
    var provider := e.transcriptionProvider;
    var apiKey := settings.ApiKey(provider);
    var model := e.transcriptionModel;
    if apiKey == [] {
      return Err(NoApiKey);
    }
    var fileURL := audioPath.value;
    var answer := transcribe(provider, apiKey, model, fileURL);
    if answer.Err? {
      assert outcome == Err(ServiceError(answer.error));
      return Err(ServiceError(answer.error));
    }
    var cleanedText := Clean(answer.value);
    var finalText, enhancedText, postProcessingError := PostProcess(settings, e, cleanedText, rewrite);
    assert outcome == Ok(PostProcessed(finalText, enhancedText, postProcessingError));
    CompleteRetry(note, finalText, postProcessingError);
    r := Ok(finalText);
  }

  /** Lines 79-81: the same record takes the final text and completes. */
  method CompleteRetry(note: Records.Transcription, finalText: string, postProcessingError: Option<string>)
    modifies note
    ensures RetryFieldsOf(note) == RetryFields(finalText, Records.Completed, postProcessingError)
    ensures note.enhancedText == old(note.enhancedText) && note.audioFileURL == old(note.audioFileURL)
    ensures note.id == old(note.id) && note.duration == old(note.duration) && note.timestamp == old(note.timestamp)
    ensures note.transcriptionModelName == old(note.transcriptionModelName)
    ensures note.aiEnhancementModelName == old(note.aiEnhancementModelName)
    ensures note.transcriptionDuration == old(note.transcriptionDuration)
    ensures note.enhancementDuration == old(note.enhancementDuration)
  {
    note.text := finalText;
    note.transcriptionStatus := Records.Completed;
    note.transcriptionError := postProcessingError;
  }
}
