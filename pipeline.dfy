// The background transcription job that RecordingManager.swift (lines
// 167-249) and NotesListView.swift (lines 249-331) both launch once a stop
// has inserted a pending record: resolve the effective back end and key,
// transcribe, clean the text, optionally rewrite it, write the terminal
// state into the record, and reset the recorder. Also the pieces both
// recording screens share: the recording state, the automatic choice of a
// mode, and the store records are inserted into.
module Pipeline {
  import opened Base
  import opened Paths
  import opened Providers
  import opened Modes
  import opened Settings
  import opened TextCleanup
  import Records
  import Recorder

  /** The state a recording screen shows. */
  datatype RecordingState = Idle | Recording | Processing | Completed(message: string) | Error(message: string)

  const NoApiKeyMessage: string := "No API key configured"
  const PostProcessingFailedPrefix: string := "Post-processing failed: "

  /** `service(for: provider).transcribeAudioFile(apiBaseURL: provider.baseURL,
      apiKey:, model:, fileURL:, language: nil)`: back end, key, model and
      audio file path to the raw transcript or the error's description. */
  type Transcriber = (Provider, string, string, string) -> Result<string, string>

  /** `postProcessTranscript(provider:apiKey:model:prompt:transcript:)`: the
      rewritten transcript or the error's description. */
  type Rewriter = (Provider, string, string, string, string) -> Result<string, string>

  // ---------------------------------------------------------------------------
  // Choosing a mode before a recording starts

  /** The selection after "auto-select first mode if none is selected". */
  function AutoSelect(modes: seq<Mode>, selected: Option<ModeId>): (r: Option<ModeId>)
    ensures selected.Some? ==> r == selected
    ensures selected.None? && modes != [] ==> r == Some(modes[0].id)
    ensures modes == [] ==> r == selected
  {
    if selected.None? && modes != [] then Some(modes[0].id) else selected
  }

  /** The step itself, on the settings object: only the selection changes. */
  method SelectFirstModeIfNone(settings: AppSettings)
    requires settings.Valid()
    modifies settings
    ensures settings.Valid()
    ensures settings.selectedModeId == AutoSelect(old(settings.modes), old(settings.selectedModeId))
    ensures settings.modes == old(settings.modes) && settings.apiKeys == old(settings.apiKeys)
    ensures settings.keyVerified == old(settings.keyVerified)
  {
    if settings.selectedModeId.None? && settings.modes != [] {
      settings.selectedModeId := Some(settings.modes[0].id);
    }
  }

  /** Selecting the first mode only makes explicit what the effective
      settings already fell back to, so the recording uses the same
      settings either way. */
  lemma AutoSelectKeepsSettings(modes: seq<Mode>, selected: Option<ModeId>)
    ensures Effective(modes, AutoSelect(modes, selected)) == Effective(modes, selected)
    ensures modes != [] && selected.None? ==> SelectedMode(modes, AutoSelect(modes, selected)) == Some(modes[0])
  {
    if selected.None? && modes != [] {
      assert FirstWithId(modes, modes[0].id) == Some(modes[0]);
    }
  }

  // ---------------------------------------------------------------------------
  // The job, as values

  /** The transcription back end's key, as `apiKey(for:)` answers it. */
  function TranscriptionKey(e: EffectiveSettings, keys: map<Provider, string>): string
    requires CloudProviders <= keys.Keys
  {
    KeyFor(keys, e.transcriptionProvider)
  }

  /** The transcription service's answer for the job's audio file. */
  function RawTranscript(e: EffectiveSettings, keys: map<Provider, string>, fileURL: string,
                         transcribe: Transcriber): Result<string, string>
    requires CloudProviders <= keys.Keys
  {
    transcribe(e.transcriptionProvider, TranscriptionKey(e, keys), e.transcriptionModel, fileURL)
  }

  /** The rewrite runs only when it is enabled, the prompt is not blank and
      the rewriting back end has a key. */
  predicate RewriteAttempted(e: EffectiveSettings, keys: map<Provider, string>)
    requires CloudProviders <= keys.Keys
  {
    e.isPostProcessingEnabled && !IsBlank(e.customPrompt) && KeyFor(keys, e.postProcessingProvider) != []
  }

  /** The rewriting service's answer for the cleaned transcript. */
  function RewriteOf(e: EffectiveSettings, keys: map<Provider, string>, cleaned: string,
                     rewrite: Rewriter): Result<string, string>
    requires CloudProviders <= keys.Keys
  {
    rewrite(e.postProcessingProvider, KeyFor(keys, e.postProcessingProvider), e.postProcessingModel,
            e.customPrompt, cleaned)
  }

  /** `finalText`, `enhancedText` and `postProcessingError` after the
      optional rewrite. */
  datatype PostProcessed = PostProcessed(finalText: string, enhancedText: Option<string>, error: Option<string>)

  /** The optional rewrite: a rewritten text becomes the enhanced text; a
      failed rewrite keeps the cleaned text and records the failure; a
      skipped one changes nothing. */
  function OptionalRewrite(e: EffectiveSettings, keys: map<Provider, string>, cleaned: string,
                          rewrite: Rewriter): (p: PostProcessed)
    requires CloudProviders <= keys.Keys
    ensures p.enhancedText.Some? <==> RewriteAttempted(e, keys) && RewriteOf(e, keys, cleaned, rewrite).Ok?
    ensures p.error.Some? <==> RewriteAttempted(e, keys) && RewriteOf(e, keys, cleaned, rewrite).Err?
    ensures p.enhancedText.None? ==> p.finalText == cleaned
    ensures p.enhancedText.Some? ==>
      p.finalText == p.enhancedText.value == RewriteOf(e, keys, cleaned, rewrite).value
    ensures p.error.Some? ==>
      p.error.value == PostProcessingFailedPrefix + RewriteOf(e, keys, cleaned, rewrite).error
  {
    if !RewriteAttempted(e, keys) then PostProcessed(cleaned, None, None)
    else
      match RewriteOf(e, keys, cleaned, rewrite)
      case Ok(text) => PostProcessed(text, Some(text), None)
      case Err(message) => PostProcessed(cleaned, None, Some(PostProcessingFailedPrefix + message))
  }

  /** How a job ends. */
  datatype Outcome = NoKey | ServiceFailed(message: string) | Transcribed(cleaned: string, post: PostProcessed)

  /** The job's outcome: no request without a key, the service's error
      as is, otherwise the cleaned transcript and the optional rewrite. */
  function Background(e: EffectiveSettings, keys: map<Provider, string>, fileURL: string,
                      transcribe: Transcriber, rewrite: Rewriter): (o: Outcome)
    requires CloudProviders <= keys.Keys
    ensures o.NoKey? <==> TranscriptionKey(e, keys) == []
    ensures o.ServiceFailed? <==>
      TranscriptionKey(e, keys) != [] && RawTranscript(e, keys, fileURL, transcribe).Err?
    ensures o.ServiceFailed? ==> o.message == RawTranscript(e, keys, fileURL, transcribe).error
    ensures o.Transcribed? ==>
      o.cleaned == Clean(RawTranscript(e, keys, fileURL, transcribe).value)
      && o.post == OptionalRewrite(e, keys, o.cleaned, rewrite)
  {
    if TranscriptionKey(e, keys) == [] then NoKey
    else
      match RawTranscript(e, keys, fileURL, transcribe)
      case Err(message) => ServiceFailed(message)
      case Ok(raw) =>
        var cleaned := Clean(raw);
        Transcribed(cleaned, OptionalRewrite(e, keys, cleaned, rewrite))
  }

  /** A job that gets past the key check talks to a back end the service
      factory and the rewriter route: never the VoiceInk one, which has no
      key; and the on-device back end always gets past it. */
  lemma KeyedJobsAreRoutable(e: EffectiveSettings, keys: map<Provider, string>, fileURL: string,
                             transcribe: Transcriber, rewrite: Rewriter)
    requires CloudProviders <= keys.Keys
    ensures !Background(e, keys, fileURL, transcribe, rewrite).NoKey? ==> e.transcriptionProvider != VoiceInk
    ensures e.transcriptionProvider == Local ==> !Background(e, keys, fileURL, transcribe, rewrite).NoKey?
    ensures RewriteAttempted(e, keys) ==> e.postProcessingProvider != VoiceInk
  {
  }

  // ---------------------------------------------------------------------------
  // Writing the outcome into the record

  /** The record fields a job writes. */
  datatype NoteFields = NoteFields(
    text: string,
    enhancedText: Option<string>,
    transcriptionModelName: Option<string>,
    aiEnhancementModelName: Option<string>,
    status: Records.TranscriptionStatus,
    error: Option<string>)

  function FieldsOf(note: Records.Transcription): NoteFields
    reads note
  {
    NoteFields(note.text, note.enhancedText, note.transcriptionModelName, note.aiEnhancementModelName,
               note.transcriptionStatus, note.transcriptionError)
  }

  /** The record after a job: a failure sets only the status and the error;
      a transcription stores the cleaned text (the rewrite goes to the
      enhanced text) and the models used. */
  function Applied(f: NoteFields, o: Outcome, e: EffectiveSettings): NoteFields {
    match o
    case NoKey => f.(status := Records.Failed, error := Some(NoApiKeyMessage))
    case ServiceFailed(message) => f.(status := Records.Failed, error := Some(message))
    case Transcribed(cleaned, post) =>
      NoteFields(cleaned, post.enhancedText, Some(e.transcriptionModel),
                 if e.isPostProcessingEnabled then Some(e.postProcessingModel) else None,
                 Records.Completed, post.error)
  }

  /** What a finished job leaves in the record, for every answer of the two
      services: completed exactly when a key exists and the transcription
      succeeded; otherwise failed with the text untouched; a completed text
      is the raw transcript cleaned, with the same visible characters; an
      enhanced text or a "Post-processing failed" error only when the
      rewrite ran, and a rewrite failure still completes. */
  lemma JobOutcomes(f: NoteFields, e: EffectiveSettings, keys: map<Provider, string>, fileURL: string,
                    transcribe: Transcriber, rewrite: Rewriter)
    requires CloudProviders <= keys.Keys
    ensures var g := Applied(f, Background(e, keys, fileURL, transcribe, rewrite), e);
      var raw := RawTranscript(e, keys, fileURL, transcribe);
      && (g.status == Records.Completed <==> TranscriptionKey(e, keys) != [] && raw.Ok?)
      && (g.status != Records.Completed ==>
            g.status == Records.Failed && g.text == f.text && g.enhancedText == f.enhancedText
            && g.transcriptionModelName == f.transcriptionModelName && g.error.Some?)
      && (TranscriptionKey(e, keys) == [] ==> g.error == Some(NoApiKeyMessage))
      && (TranscriptionKey(e, keys) != [] && raw.Err? ==> g.error == Some(raw.error))
      && (g.status == Records.Completed ==>
            g.text == Clean(raw.value) && Visible(g.text) == Visible(raw.value)
            && SingleSpaced(g.text) && NoTripleNewline(g.text)
            && g.transcriptionModelName == Some(e.transcriptionModel)
            && (g.aiEnhancementModelName.Some? <==> e.isPostProcessingEnabled)
            && (g.enhancedText.Some? <==> RewriteAttempted(e, keys) && RewriteOf(e, keys, g.text, rewrite).Ok?)
            && (g.error.Some? <==> RewriteAttempted(e, keys) && RewriteOf(e, keys, g.text, rewrite).Err?)
            && (g.error.Some? ==> StartsWith(g.error.value, PostProcessingFailedPrefix)))
  {
    var raw := RawTranscript(e, keys, fileURL, transcribe);
    if TranscriptionKey(e, keys) != [] && raw.Ok? {
      CleanKeepsVisibleText(raw.value);
      var cleaned := Clean(raw.value);
      var p := OptionalRewrite(e, keys, cleaned, rewrite);
      if p.error.Some? {
        PrefixOfConcat(PostProcessingFailedPrefix, RewriteOf(e, keys, cleaned, rewrite).error);
      }
    }
  }

  // ---------------------------------------------------------------------------
  // Resetting the recorder when a job ends

  /** The recorder fields the job's deferred clean-up touches. */
  datatype RecorderView = RecorderView(isRecording: bool, url: Option<string>, duration: real)

  function ViewOf(recorder: Recorder.AudioRecorder): RecorderView
    reads recorder
  {
    RecorderView(recorder.isRecording, recorder.currentRecordingURL, recorder.currentDuration)
  }

  /** The deferred clean-up as written: whatever the recorder holds now is
      forgotten. */
  function CleanupAsWritten(v: RecorderView): (r: RecorderView)
    ensures r.url.None? && r.duration == 0.0 && r.isRecording == v.isRecording
  {
    v.(url := None, duration := 0.0)
  }

  /** The clean-up a job is meant to do: forget the recording it
      transcribed, and leave a newer one alone. */
  function Cleanup(v: RecorderView, jobURL: string): (r: RecorderView)
    ensures r.isRecording == v.isRecording
    ensures !v.isRecording && v.url == Some(jobURL) ==> r == CleanupAsWritten(v)
    ensures v.url != Some(jobURL) ==> r == v
  {
    if !v.isRecording && v.url == Some(jobURL) then v.(url := None, duration := 0.0) else v
  }

  /** The file a stop hands to a new record: stopping keeps the URL and the
      stop goes on only when there is one. */
  function StoppedFile(v: RecorderView): Option<string> {
    v.url
  }

  /** A job for recording A that ends while recording B is under way wipes
      B's URL as written, so stopping B inserts no record and B's audio is
      never transcribed; the intended clean-up keeps B and still forgets A
      when the recorder holds A. */
  lemma CleanupLosesNewerRecording(urlA: string, urlB: string, d: real)
    requires urlA != urlB
    ensures StoppedFile(CleanupAsWritten(RecorderView(true, Some(urlB), d))).None?
    ensures StoppedFile(Cleanup(RecorderView(true, Some(urlB), d), urlA)) == Some(urlB)
    ensures Cleanup(RecorderView(false, Some(urlA), d), urlA) == RecorderView(false, None, 0.0)
  {
  }

  /** The deferred clean-up of a job for the recording at `jobURL`. */
  method ReleaseRecording(recorder: Recorder.AudioRecorder, jobURL: string)
    modifies recorder
    ensures ViewOf(recorder) == Cleanup(old(ViewOf(recorder)), jobURL)
    ensures recorder.levelsHistory == old(recorder.levelsHistory)
    ensures recorder.hasRecorder == old(recorder.hasRecorder) && recorder.hasMeterTimer == old(recorder.hasMeterTimer)
  {
    if !recorder.isRecording && recorder.currentRecordingURL == Some(jobURL) {
      recorder.currentRecordingURL := None;
      recorder.currentDuration := 0.0;
    }
  }

  // ---------------------------------------------------------------------------
  // The job, step by step

  /** The SwiftData context: records are appended to it. */
  class NoteStore {
    var notes: seq<Records.Transcription>

    constructor()
      ensures notes == []
    {
      notes := [];
    }

    method Insert(note: Records.Transcription)
      modifies this
      ensures notes == old(notes) + [note]
    {
      notes := notes + [note];
    }
  }

  /** The fields of a record a stop has just inserted. */
  const PendingFields: NoteFields := NoteFields([], None, None, None, Records.Pending, None)

  /** A freshly inserted pending record: empty text, the recording's file
      name and duration, nothing transcribed yet. */
  predicate IsPendingNote(note: Records.Transcription, id: nat, now: real, audioFileName: string, duration: real)
    reads note
  {
    && FieldsOf(note) == PendingFields
    && note.id == id && note.timestamp == now && note.duration == duration
    && note.audioFileURL == Some(audioFileName)
    && note.transcriptionDuration.None? && note.enhancementDuration.None?
  }

  /** `Transcription(text: "", duration:, audioFileURL:, transcriptionStatus:
      .pending)` followed by `modelContext.insert`. */
  method InsertPendingNote(store: NoteStore, id: nat, now: real, audioFileName: string, duration: real)
    returns (note: Records.Transcription)
    modifies store
    ensures fresh(note) && store.notes == old(store.notes) + [note]
    ensures IsPendingNote(note, id, now, audioFileName, duration)
  {
    note := new Records.Transcription(id, "", duration, now, Some(audioFileName), Records.Pending);
    store.Insert(note);
  }

  /** A job launched by a stop: the record to complete and the file name it
      stores. */
  datatype Job = Job(note: Records.Transcription, audioFileName: string)

  /** The audio file of a job, in the recordings directory. */
  function JobURL(documents: string, audioFileName: string): string {
    JoinPath(Records.RecordingsDirectory(documents), audioFileName)
  }

  /** The optional rewrite inside the job, on the reassigned `finalText`,
      `enhancedText` and `postProcessingError`. */
  method PostProcess(settings: AppSettings, e: EffectiveSettings, cleanedText: string, rewrite: Rewriter)
    returns (finalText: string, enhancedText: Option<string>, postProcessingError: Option<string>)
    requires settings.Valid()
    ensures PostProcessed(finalText, enhancedText, postProcessingError)
            == OptionalRewrite(e, settings.apiKeys, cleanedText, rewrite)
  {
    finalText := cleanedText;
    enhancedText := None;
    postProcessingError := None;
    if e.isPostProcessingEnabled {
      var ppPrompt := e.customPrompt;
      if !IsBlank(ppPrompt) {
        var llmProvider := e.postProcessingProvider;
        var llmKey := settings.ApiKey(llmProvider);
        var llmModel := e.postProcessingModel;
        if llmKey != [] {
          var rewritten := rewrite(llmProvider, llmKey, llmModel, ppPrompt, cleanedText);
          match rewritten
          case Ok(text) =>
            finalText := text;
            enhancedText := Some(finalText);
          case Err(message) =>
            postProcessingError := Some(PostProcessingFailedPrefix + message);
            finalText := cleanedText;
        }
      }
    }
  }

  /** The failure branch's write: status and error only. */
  method FailNote(note: Records.Transcription, message: string)
    modifies note
    ensures FieldsOf(note) == old(FieldsOf(note)).(status := Records.Failed, error := Some(message))
    ensures note.id == old(note.id) && note.timestamp == old(note.timestamp)
    ensures note.duration == old(note.duration) && note.audioFileURL == old(note.audioFileURL)
    ensures note.transcriptionDuration == old(note.transcriptionDuration)
    ensures note.enhancementDuration == old(note.enhancementDuration)
  {
    note.transcriptionStatus := Records.Failed;
    note.transcriptionError := Some(message);
  }

  /** The success branch's write. */
  method CompleteNote(note: Records.Transcription, cleanedText: string, enhancedText: Option<string>,
                      model: string, enhancementModel: Option<string>, postProcessingError: Option<string>)
    modifies note
    ensures FieldsOf(note) == NoteFields(cleanedText, enhancedText, Some(model), enhancementModel,
                                         Records.Completed, postProcessingError)
    ensures note.id == old(note.id) && note.timestamp == old(note.timestamp)
    ensures note.duration == old(note.duration) && note.audioFileURL == old(note.audioFileURL)
    ensures note.transcriptionDuration == old(note.transcriptionDuration)
    ensures note.enhancementDuration == old(note.enhancementDuration)
  {
    note.text := cleanedText;
    note.enhancedText := enhancedText;
    note.transcriptionModelName := Some(model);
    note.aiEnhancementModelName := enhancementModel;
    note.transcriptionStatus := Records.Completed;
    note.transcriptionError := postProcessingError;
  }

  /** `transcribeInBackground`: the settings are read, the services answer
      through `transcribe` and `rewrite`, the record receives the job's
      outcome and the recorder is released on every path. */
  method TranscribeInBackground(job: Job, documents: string, settings: AppSettings,
                                recorder: Recorder.AudioRecorder,
                                transcribe: Transcriber, rewrite: Rewriter)
    requires settings.Valid()
    modifies job.note, recorder
    ensures FieldsOf(job.note) ==
      Applied(old(FieldsOf(job.note)),
              Background(settings.CurrentEffective(), settings.apiKeys, JobURL(documents, job.audioFileName),
                         transcribe, rewrite),
              settings.CurrentEffective())
    ensures job.note.id == old(job.note.id) && job.note.timestamp == old(job.note.timestamp)
    ensures job.note.duration == old(job.note.duration) && job.note.audioFileURL == old(job.note.audioFileURL)
    ensures job.note.transcriptionDuration == old(job.note.transcriptionDuration)
    ensures job.note.enhancementDuration == old(job.note.enhancementDuration)
    ensures ViewOf(recorder) == Cleanup(old(ViewOf(recorder)), JobURL(documents, job.audioFileName))
    ensures recorder.levelsHistory == old(recorder.levelsHistory)
    ensures recorder.hasRecorder == old(recorder.hasRecorder) && recorder.hasMeterTimer == old(recorder.hasMeterTimer)
  {
    var note := job.note;
    var e := settings.CurrentEffective();
    var provider := e.transcriptionProvider;
    var apiKey := settings.ApiKey(provider);
    var model := e.transcriptionModel;
    var fileURL := JobURL(documents, job.audioFileName);
    ghost var outcome := Background(e, settings.apiKeys, fileURL, transcribe, rewrite);

    if apiKey == [] {
      assert outcome == NoKey;
      FailNote(note, NoApiKeyMessage);
    } else {
      var answer := transcribe(provider, apiKey, model, fileURL);
      match answer
      case Err(message) =>
        assert outcome == ServiceFailed(message);
        FailNote(note, message);
      case Ok(rawText) =>
        var cleanedText := Clean(rawText);
        var finalText, enhancedText, postProcessingError := PostProcess(settings, e, cleanedText, rewrite);
        assert outcome == Transcribed(cleanedText, PostProcessed(finalText, enhancedText, postProcessingError));
        CompleteNote(note, cleanedText, enhancedText, model,
                     if e.isPostProcessingEnabled then Some(e.postProcessingModel) else None,
                     postProcessingError);
    }
    ReleaseRecording(recorder, fileURL);
  }
}
