# VoiceInk for iOS — a Dafny model of the capture → transcribe → store core

VoiceInk records speech on the phone, turns it into text and keeps each
result as a transcript record. A recording is written as a 16 kHz WAV file.
A background job then sends it to the transcription provider of the active
mode. That provider is a hosted one (Groq, OpenAI, Gemini, Cerebras through a
multipart upload; Deepgram through a query-parameter request) or the
on-device whisper.cpp model. The job cleans the text (trim, collapse
blank-line and space runs) and optionally has an LLM rewrite it with the
mode's prompt. It then stores the record as completed or failed. A failed
record can be retried from the notes list. Settings hold the provider keys
and their verification flags, the modes (transcription and post-processing
choices) and the selected mode. The keyboard extension and the app
coordinate through a shared app-group state.

The model gives each source file its own module. Code that computes values
is modelled as datatypes, functions and lemmas. Code that updates objects in
place is modelled as classes: the recorder, the audio session, the settings
store, the recording flow, the notes list and the key screen. Their methods
are proved against pure functions of the old state, and the invariants those
functions keep are proved as lemmas. Several things are parameters: the
network (a function from request to reply), whisper.cpp and the LLM (result
oracles), the file system (a set of names), identifiers and clocks.

## Model

| member | source | states |
|---|---|---|
| RiffWave.Int16LE | VoiceInk-ios/RiffWaveUtils.swift:22-24 | the two little-endian bytes read as a signed 16-bit value, negative exactly when the high byte's top bit is set |
| RiffWave.Int16RoundTrip | VoiceInk-ios/RiffWaveUtils.swift:22-24 | reading back the little-endian encoding of any 16-bit value gives that value |
| RiffWave.Normalise | VoiceInk-ios/RiffWaveUtils.swift:26 | the float lies in [-1, 1], is non-negative exactly when the sample is, and equals sample / 32767 for every sample above -32768 |
| RiffWave.NormaliseEnds | VoiceInk-ios/RiffWaveUtils.swift:26 | -32768 clamps to -1, 32767 maps to 1 and 0 to 0 |
| RiffWave.NormaliseMonotone | VoiceInk-ios/RiffWaveUtils.swift:26 | normalising keeps the order of samples |
| RiffWave.StrideOffsets | VoiceInk-ios/RiffWaveUtils.swift:21 | the stride visits 44, 46, ... below the file length: none for a file of at most 44 bytes, ceil((n - 44) / 2) offsets otherwise |
| RiffWave.StrideReadsInBoundsIffEven | VoiceInk-ios/RiffWaveUtils.swift:21-22 | for a file longer than 44 bytes, every two-byte read of the stride stays inside the data exactly when the payload length is even |
| RiffWave.OddPayloadReadsPastEnd | VoiceInk-ios/RiffWaveUtils.swift:21-22 | a 45-byte file makes the stride read its second byte at offset 45, past the end |
| RiffWave.Samples | VoiceInk-ios/RiffWaveUtils.swift:21-24 | one signed 16-bit value per complete byte pair after the header, sample i taken from bytes 44 + 2i and 45 + 2i |
| RiffWave.DecodeWave | VoiceInk-ios/RiffWaveUtils.swift:12-30 | the error "Invalid WAV file - too small" exactly for files of at most 44 bytes; otherwise one value per complete sample, in file order, each the normalised sample and inside [-1, 1] |
| RiffWave.EncodePcm | VoiceInk-ios/RiffWaveUtils.swift:21-24 | the inverse layout used to state the round trip: two bytes per sample |
| RiffWave.EncodePcmAt | VoiceInk-ios/RiffWaveUtils.swift:22-24 | sample i sits, low byte first, at bytes 2i and 2i + 1 of the encoding |
| RiffWave.SampleReadsBack | VoiceInk-ios/RiffWaveUtils.swift:21-24 | after any 44-byte header, sample i of an encoded payload reads back as the i-th value |
| RiffWave.SamplesRoundTrip | VoiceInk-ios/RiffWaveUtils.swift:21-24 | reading the samples of a header followed by encoded samples gives exactly those samples |
| RiffWave.DecodeEncoded | VoiceInk-ios/RiffWaveUtils.swift:12-30 | a header plus at least one encoded sample decodes successfully to the normalised samples, in order |
| RiffWave.DecodeMatchesStrideOnEvenPayload | VoiceInk-ios/RiffWaveUtils.swift:21 | on an even payload the decoder yields exactly as many values as the source's stride has offsets |
| Recorder.Normalize | VoiceInk-ios/AudioRecorder.swift:56 | the level lies in [0, 1]: 0 at or below -60 dB, 1 at or above 0 dB, (power + 60) / 60 in between |
| Recorder.NormalizeMonotone | VoiceInk-ios/AudioRecorder.swift:56 | a louder reading never shows a lower level |
| Recorder.Last40 | VoiceInk-ios/AudioRecorder.swift:58 | the kept history has min(40, length) entries |
| Recorder.Window | VoiceInk-ios/AudioRecorder.swift:57-58 | after a reading the window holds at most 40 levels and ends with the new one; below 40 the reading is simply appended |
| Recorder.TrimThenAppend | VoiceInk-ios/AudioRecorder.swift:57-58 | trimming to 40 before appending keeps the same last 40 as trimming afterwards |
| Recorder.WindowKeepsMostRecent | VoiceInk-ios/AudioRecorder.swift:57-58 | from an empty history, any run of readings leaves exactly the most recent 40, in arrival order |
| Recorder.RecordingFileName | VoiceInk-ios/AudioRecorder.swift:26 | `recording_<seconds>.wav` is a non-empty name without a path separator |
| Recorder.RecordingFileResolves | VoiceInk-ios/AudioRecorder.swift:26-27 | the recording's URL ends in its file name, and the stored name resolves back to that URL |
| Recorder.AudioRecorder.constructor | VoiceInk-ios/AudioRecorder.swift:12-18 | not recording, no URL, zero duration, empty history, no recorder and no timer |
| Recorder.AudioRecorder.StartRecording | VoiceInk-ios/AudioRecorder.swift:20-47 | fails exactly when the session, the recorder or `record()` fails, and then the published state is unchanged; on success the URL is `Recordings/recording_<seconds>.wav`, recording is on and the duration is 0 |
| Recorder.AudioRecorder.MeterTick | VoiceInk-ios/AudioRecorder.swift:48-61 | the duration grows by 0.1 on every tick; a power reading (which only a live recorder gives) enters the window normalised, and without one the history is unchanged |
| Recorder.AudioRecorder.StopRecording | VoiceInk-ios/AudioRecorder.swift:64-74 | recording off, history empty, recorder and timer released; URL and duration kept |
| Recorder.AudioRecorder.Discard | VoiceInk-ios/AudioRecorder.swift:76-83 | everything stop does, the old URL is the file removed, then no URL and zero duration |
| AudioSession.Cancelled | VoiceInk-ios/AudioSessionManager.swift:127-131 | no timer and nothing remaining; whether the session is active is untouched |
| AudioSession.Activated | VoiceInk-ios/AudioSessionManager.swift:28-51 | a successful activation leaves the session active with no timer and nothing remaining; a failed one changes nothing |
| AudioSession.Deactivated | VoiceInk-ios/AudioSessionManager.swift:96-109 | the timer is always cancelled; the session stays active exactly when it was active and the OS refused |
| AudioSession.Forced | VoiceInk-ios/AudioSessionManager.swift:112-123 | as deactivation, without first checking that the session is active |
| AudioSession.Scheduled | VoiceInk-ios/AudioSessionManager.swift:54-84 | a timeout of 0 or less deactivates at once and arms nothing; a positive one arms a single timer with the full timeout remaining |
| AudioSession.Extended | VoiceInk-ios/AudioSessionManager.swift:87-93 | nothing changes for an inactive session; an active one is rescheduled |
| AudioSession.Ticked | VoiceInk-ios/AudioSessionManager.swift:68-81 | without a timer nothing happens; otherwise one second is counted off, and the session is deactivated when no time remains |
| AudioSession.OperationsKeepConsistent | VoiceInk-ios/AudioSessionManager.swift:54-131 | every operation keeps the invariant that time remains only while a timer is armed and an armed timer has time left |
| AudioSession.Countdown | VoiceInk-ios/AudioSessionManager.swift:75-79 | before the last second, j ticks lower the remaining time by exactly j |
| AudioSession.DeactivatesOnKthTick | VoiceInk-ios/AudioSessionManager.swift:65-79 | after scheduling a timeout k > 0, the first k - 1 ticks only count down and the k-th tick deactivates |
| AudioSession.SchedulingReplacesTimer | VoiceInk-ios/AudioSessionManager.swift:54-55 | scheduling ignores any timer that was pending: at most one deactivation timer exists |
| AudioSession.AudioSessionManager.constructor | VoiceInk-ios/AudioSessionManager.swift:17-23 | inactive, nothing remaining, no timer |
| AudioSession.AudioSessionManager.CancelScheduledDeactivation | VoiceInk-ios/AudioSessionManager.swift:127-131 | the state becomes its cancelled form |
| AudioSession.AudioSessionManager.ActivateSessionForRecording | VoiceInk-ios/AudioSessionManager.swift:28-51 | fails exactly when either OS call fails; the state becomes its activated form |
| AudioSession.AudioSessionManager.ScheduleDeactivation | VoiceInk-ios/AudioSessionManager.swift:54-84 | the state becomes its scheduled form for the configured timeout |
| AudioSession.AudioSessionManager.Tick | VoiceInk-ios/AudioSessionManager.swift:68-81 | one firing of the timer: the state becomes its ticked form |
| AudioSession.AudioSessionManager.ExtendTimeout | VoiceInk-ios/AudioSessionManager.swift:87-93 | the state becomes its extended form |
| AudioSession.AudioSessionManager.DeactivateSession | VoiceInk-ios/AudioSessionManager.swift:96-109 | the state becomes its deactivated form |
| AudioSession.AudioSessionManager.ForceDeactivate | VoiceInk-ios/AudioSessionManager.swift:112-123 | the state becomes its forced form |
| AudioSession.AudioSessionManager.HandleAppWillTerminate | VoiceInk-ios/AudioSessionManager.swift:162-164 | termination is a forced deactivation |
| Records.StatusFromRawValue | VoiceInk-ios/VoiceInk-ios/Transcription.swift:4-8 | a raw value is accepted only as the raw value of the status it names |
| Records.StatusRawValueRoundTrip | VoiceInk-ios/VoiceInk-ios/Transcription.swift:4-8 | every status's raw value ("pending", "completed", "failed") reads back as that status |
| Records.ResolveAudioPath | VoiceInk-ios/VoiceInk-ios/Transcription.swift:45-57 | no path exactly for a missing or empty reference; a reference starting with `/` is returned verbatim; any other resolves to `<documents>/Recordings/<name>` |
| Records.ResolveStoredFileName | VoiceInk-ios/VoiceInk-ios/Transcription.swift:45-57 | storing only the last path component of a recording's URL and resolving it gives the URL back |
| Records.Transcription.constructor | VoiceInk-ios/VoiceInk-ios/Transcription.swift:25-38 | the given fields are stored, status defaults to pending, and every optional field, the error included, is absent |
| Records.Transcription.NeedsTranscription | VoiceInk-ios/VoiceInk-ios/Transcription.swift:40-42 | holds exactly when the status is not completed |
| RecordingFlow.AlertId | VoiceInk-ios/RecordingManager.swift:23-29 | the alert id is "permissionDenied", "busy", or "generic-" followed by exactly the error's description |
| RecordingFlow.Started | VoiceInk-ios/RecordingManager.swift:68-86 | after a successful start the manager is recording, animating, shows the sheet and has a fresh timer at zero; any pending alert is kept |
| RecordingFlow.StartFailed | VoiceInk-ios/RecordingManager.swift:80-85 | after a failed start the manager is idle, not animating, carries the generic alert, and the sheet and timer are as before |
| RecordingFlow.Stopped | VoiceInk-ios/RecordingManager.swift:88-112 | after a stop the manager is idle, not animating, hides the sheet, has no timer and keeps the measured duration |
| RecordingFlow.Cancelled | VoiceInk-ios/RecordingManager.swift:118-125 | after a cancel the manager is idle with no sheet and no timer, and the duration is reset to zero |
| RecordingFlow.CancelForgetsStart | VoiceInk-ios/RecordingManager.swift:68-125 | cancelling right after a successful start leaves the same state as cancelling without having started |
| RecordingFlow.RecordingManager.constructor | VoiceInk-ios/RecordingManager.swift:34-39 | a new manager is idle, not animating, without sheet, alert, note or timer, at duration zero |
| RecordingFlow.RecordingManager.IsRecording | VoiceInk-ios/RecordingManager.swift:46-48 | true exactly in the recording state |
| RecordingFlow.RecordingManager.StartRecordingFlow | VoiceInk-ios/RecordingManager.swift:51-66 | a denied or refused permission only raises the permission alert and touches nothing else; a granted one auto-selects a mode and ends in the started state when the session, file and recorder all succeed, in the failed state otherwise |
| RecordingFlow.RecordingManager.ProceedToStartRecording | VoiceInk-ios/RecordingManager.swift:68-86 | selects the first mode when none is selected, leaves the rest of the settings alone, and ends either recording (recorder running) or in the failed state with the recorder untouched |
| RecordingFlow.RecordingManager.StartDurationTimer | VoiceInk-ios/RecordingManager.swift:152-159 | the duration restarts at zero with a timer running; nothing else changes |
| RecordingFlow.RecordingManager.DurationTick | VoiceInk-ios/RecordingManager.swift:154-157 | each tick of a running timer adds 0.1 seconds to the duration and changes nothing else |
| RecordingFlow.RecordingManager.StopDurationTimer | VoiceInk-ios/RecordingManager.swift:161-164 | the timer is gone; nothing else changes |
| RecordingFlow.RecordingManager.StopRecording | VoiceInk-ios/RecordingManager.swift:88-116 | the recorder is stopped; without a recording file nothing else but the timer changes and no job is launched; otherwise exactly one fresh pending note named by the file's last path component, with the measured duration, is appended to the store, becomes the current note, and is handed to the background job |
| RecordingFlow.RecordingManager.CancelRecording | VoiceInk-ios/RecordingManager.swift:118-125 | the recorder's file is handed back for removal and forgotten, recording stops and the manager reaches the cancelled state |
| Pipeline.AutoSelect | VoiceInk-ios/RecordingManager.swift:72-75 | an existing selection is kept; with none, the first mode's id is chosen when there is a mode; with no modes nothing changes |
| Pipeline.SelectFirstModeIfNone | VoiceInk-ios/NotesListView.swift:209-212 | the settings' selection becomes the auto-selected one while the modes, keys and verification flags stay as they were |
| Pipeline.AutoSelectKeepsSettings | VoiceInk-ios/RecordingManager.swift:72-75 | the automatic choice never changes the effective settings a job will read, and after it the first mode is the selected mode |
| Pipeline.OptionalRewrite | VoiceInk-ios/RecordingManager.swift:206-227 | an enhanced text exists exactly when the rewrite ran and succeeded, and is then the final text; an error exists exactly when it ran and failed, and is "Post-processing failed: " followed by the error; otherwise the final text is the cleaned text |
| Pipeline.Background | VoiceInk-ios/RecordingManager.swift:175-227 | the job finds no key exactly when the back end's key is empty, fails with the service's own message exactly when the keyed request fails, and otherwise carries the cleaned transcript and the optional rewrite of it |
| Pipeline.KeyedJobsAreRoutable | VoiceInk-ios/RecordingManager.swift:178-198 | a job that passes the key check never addresses the VoiceInk back end, the on-device back end always passes it, and a rewrite is only sent to a routable back end |
| Pipeline.JobOutcomes | VoiceInk-ios/RecordingManager.swift:182-247 | a finished record is completed exactly when a key existed and the transcription succeeded; otherwise it is failed with "No API key configured" or the service's message and its text untouched; a completed text is the cleaned transcript with the same visible characters, single-spaced and without runs of three newlines; the rewrite's result or its prefixed failure is recorded only when the rewrite ran |
| Pipeline.CleanupAsWritten | VoiceInk-ios/RecordingManager.swift:169-173 | the deferred clean-up as written forgets whatever URL and duration the recorder holds now |
| Pipeline.Cleanup | VoiceInk-ios/RecordingManager.swift:169-173 | the intended clean-up forgets the job's own stopped recording and leaves a newer one untouched |
| Pipeline.CleanupLosesNewerRecording | VoiceInk-ios/RecordingManager.swift:169-173 | a job that ends while a newer recording runs erases that recording's URL as written, so its stop finds no file; the intended clean-up keeps it |
| Pipeline.ReleaseRecording | VoiceInk-ios/RecordingManager.swift:169-173 | the recorder's URL and duration after the job are the intended clean-up of those before it; levels, recorder and meter timer are untouched |
| Pipeline.NoteStore.constructor | VoiceInk-ios/RecordingManager.swift:105 | a new store holds no records |
| Pipeline.NoteStore.Insert | VoiceInk-ios/RecordingManager.swift:105 | the inserted record is appended after every earlier one |
| Pipeline.InsertPendingNote | VoiceInk-ios/RecordingManager.swift:99-106 | exactly one fresh record is appended, with empty text, pending status, the file name and duration of the recording, and nothing transcribed yet |
| Pipeline.PostProcess | VoiceInk-ios/RecordingManager.swift:206-227 | the three reassigned variables end as the optional rewrite prescribes |
| Pipeline.FailNote | VoiceInk-ios/RecordingManager.swift:184-188 | only the status (failed) and the error change; every other field of the record is kept |
| Pipeline.CompleteNote | VoiceInk-ios/RecordingManager.swift:230-238 | the text, enhanced text, both model names, the completed status and the error are written; identity, time, duration and file name are kept |
| Pipeline.TranscribeInBackground | VoiceInk-ios/RecordingManager.swift:167-249 | the record ends with exactly the fields the job's outcome prescribes for the settings it reads, every other field is kept, and the recorder is released as the intended clean-up says on every path |
| NotesList.Filtered | VoiceInk-ios/NotesListView.swift:34-40 | every kept note is in the list and matches the search, and every matching note of the list is kept |
| NotesList.EmptySearchKeepsAll | VoiceInk-ios/NotesListView.swift:36 | an empty search keeps every note in order |
| NotesList.FilteredAppend | VoiceInk-ios/NotesListView.swift:34-40 | filtering distributes over concatenation, so the result keeps the list's order |
| NotesList.ButtonActionFor | VoiceInk-ios/NotesListView.swift:84-92 | the button only raises the no-modes alert exactly when there are no modes, and stops exactly when there are modes and a recording runs |
| NotesList.NotesListView.constructor | VoiceInk-ios/NotesListView.swift:26-30 | the view starts idle, without search, alert, animation or current note |
| NotesList.NotesListView.StartInlineRecording | VoiceInk-ios/NotesListView.swift:205-219 | a mode is auto-selected and the rest of the settings kept; a successful start is recording, a failed one shows the error's description and leaves the recorder as it was |
| NotesList.NotesListView.StopInlineRecording | VoiceInk-ios/NotesListView.swift:221-247 | without a recording file only the recorder stops; otherwise one fresh pending record with the recorder's duration is appended, becomes current, the view turns idle and the record is handed to the background job |
| NotesList.NotesListView.RecordButtonTapped | VoiceInk-ios/NotesListView.swift:83-93 | with no modes only the alert is raised; in the recording state the tap stops and inserts a pending record exactly when there is a file; in every other state it starts, reaching the recording state exactly when the start succeeds |
| Retry.Description | VoiceInk-ios/TranscriptionRetryService.swift:91-97 | the missing-key error reads exactly like the background job's "No API key configured" |
| Retry.RetryOutcome | VoiceInk-ios/TranscriptionRetryService.swift:18-84 | the retry fails with "audio file not found" exactly when the path does not resolve or the file does not exist, with "no API key" exactly when the file exists but the back end's key is empty, with the service's error exactly when the keyed request fails, and otherwise yields the optional rewrite of the cleaned transcript |
| Retry.RetryAgreesWithBackground | VoiceInk-ios/TranscriptionRetryService.swift:29-81 | for a record whose file exists, the retry succeeds exactly when the background job would complete, fails with the same error text, records the same rewrite error, and stores the rewrite where the job files it as the enhanced text |
| Retry.Retranscribe | VoiceInk-ios/TranscriptionRetryService.swift:18-84 | a thrown error leaves the record untouched; success completes the same record with the final text and the rewrite's error (or none), returns that text, and changes no other field (the two duration fields included) |
| Retry.CompleteRetry | VoiceInk-ios/TranscriptionRetryService.swift:79-81 | text, status (completed) and error are written; every other field, the transcription and enhancement durations included, is kept |
| Settings.FirstWithId | VoiceInk-ios/AppSettings.swift:23-26 | nothing is found exactly when no mode carries the id; otherwise the result is a mode of the list with that id and no earlier mode carries it |
| Settings.SelectedMode | VoiceInk-ios/AppSettings.swift:23-26 | no selection selects nothing; a selection selects the first mode with its id |
| Settings.EffectiveMode | VoiceInk-ios/AppSettings.swift:185-193 | a mode is in effect exactly when the list is not empty; it is the selected mode when there is one and the first mode otherwise |
| Settings.SettingsOfMode | VoiceInk-ios/AppSettings.swift:185-248 | a mode's providers, prompt and switch are read as they are; a VoiceInk provider forces its hard-coded model in place of the mode's |
| Settings.Effective | VoiceInk-ios/AppSettings.swift:185-248 | with no modes the fall-backs apply (Groq, "whisper-large-v3", "llama-3.1-8b-instant", empty prompt, post-processing off); otherwise the settings of the mode in effect |
| Settings.SelectionDecides | VoiceInk-ios/AppSettings.swift:185-248 | an id no mode carries behaves like no selection, i.e. the first mode; a carried id makes its first mode decide |
| Settings.VoiceInkForcesModels | VoiceInk-ios/AppSettings.swift:196-260 | a mode on VoiceInk for both steps runs "whisper-large-v3" and "openai/gpt-oss-120b" whatever models it names |
| Settings.KeyFor | VoiceInk-ios/AppSettings.swift:100-110 | the on-device back end's key is "local", VoiceInk's is empty, and each cloud provider's is its stored key |
| Settings.LocalKeyNeverEmpty | VoiceInk-ios/AppSettings.swift:107-108 | the on-device back end never lacks a key and VoiceInk always does |
| Settings.Verified | VoiceInk-ios/AppSettings.swift:141-151 | a cloud provider is verified exactly when its flag is set and its key is not empty; the on-device one exactly when a model is downloaded; VoiceInk always |
| Settings.FlagAfterSetAsWritten | VoiceInk-ios/AppSettings.swift:114-117 | as written, storing a key never changes its verification flag, because the comparison runs after the assignment |
| Settings.FlagAfterSet | VoiceInk-ios/AppSettings.swift:116-117 | the intended reset: the flag survives exactly when it was set and the key is unchanged |
| Settings.SetAPIKeyKeepsStaleVerification | VoiceInk-ios/AppSettings.swift:114-117 | replacing a verified key "a" by "b" keeps it verified as written, and clears the flag as intended |
| Settings.AppSettings.constructor | VoiceInk-ios/AppSettings.swift:74-98 | the settings hold the loaded modes, selection, keys and flags, one key and one flag per cloud provider |
| Settings.AppSettings.SetAPIKeyAsWritten | VoiceInk-ios/AppSettings.swift:112-139 | a cloud provider's key is replaced and every flag is kept; the on-device and VoiceInk back ends change nothing |
| Settings.AppSettings.SetAPIKey | VoiceInk-ios/AppSettings.swift:112-139 | a cloud provider's key is replaced and its flag cleared when the key differs from the old one; the on-device and VoiceInk back ends change nothing |
| Settings.AppSettings.SetKeyVerified | VoiceInk-ios/AppSettings.swift:153-163 | a cloud provider's flag takes the given value; the other two back ends change nothing; keys and modes are kept |
| Providers.Index | VoiceInk-ios/Provider.swift:8-14 | every provider sits in the list of all cases, at the position the function gives |
| Providers.CloudProvidersAreCloud | VoiceInk-ios/AppSettings.swift:100-110 | the five providers with a stored key are exactly the hosted ones |
| Providers.Id | VoiceInk-ios/Provider.swift:16 | a provider's id decodes back to that provider, so ids identify providers |
| Providers.FromRawValue | VoiceInk-ios/Provider.swift:8-14 | a decoded provider has the given raw value |
| Providers.RawValueRoundTrip | VoiceInk-ios/Provider.swift:8-16 | decoding a provider's raw value gives the provider back |
| Providers.RawValuesDistinct | VoiceInk-ios/Provider.swift:8-14 | distinct providers have distinct raw values |
| Providers.BaseURL | VoiceInk-ios/Provider.swift:18-27 | the base endpoint is "http://localhost" exactly for the on-device back end |
| Providers.ModelListsDisjoint | VoiceInk-ios/Provider.swift:40-95 | no provider offers one model identifier for both transcription and post-processing |
| Providers.CapabilityGaps | VoiceInk-ios/Provider.swift:65-94 | Deepgram and the on-device back end offer no post-processing, Cerebras and Gemini no transcription, the on-device back end only "base", and Groq's first models are the defaults a new mode falls back to |
| Modes.FirstModelOr | VoiceInk-ios/Mode.swift:28-31 | the provider's first model for the capability, or the fall-back when it offers none |
| Modes.NewMode | VoiceInk-ios/Mode.swift:18-33 | the mode keeps every given field; a missing model becomes the provider's first model, or the fixed fall-back |
| Modes.NewModeDefaults | VoiceInk-ios/Mode.swift:18-33 | a mode created with every default runs Groq with "whisper-large-v3" and "llama-3.1-8b-instant", both offered by Groq, post-processing off and an empty prompt |
| Modes.DefaultModelIsOffered | VoiceInk-ios/Mode.swift:28-31 | when the provider offers models, the defaulted one is among them |
| PromptTemplates.DisplayName | VoiceInk-ios/PromptTemplate.swift:10-12 | the display name is non-empty and belongs to no other template kind |
| PromptTemplates.TemplatePrompt | VoiceInk-ios/PromptTemplate.swift:14-27 | the custom kind has the empty prompt and every other kind a non-empty one opening with "Please " |
| PromptTemplates.EffectivePrompt | VoiceInk-ios/PromptTemplate.swift:41-48 | a custom template uses its own prompt; every other kind its canned, non-empty prompt |
| PromptTemplates.Description | VoiceInk-ios/PromptTemplate.swift:51-58 | canned kinds show their display name; an empty custom prompt shows "Custom prompt (empty)"; otherwise "Custom: ", the first at most 50 characters of the prompt, and "..." |
| PromptTemplates.Prefix | VoiceInk-ios/PromptTemplate.swift:54 | the result is the prefix of the string of length min(n, length) |
| PromptTemplates.PoliteTextNotBlank | VoiceInk-ios/PromptTemplate.swift:19-25 | text opening with "Please " is never blank |
| PromptTemplates.CannedPromptsAreNotBlank | VoiceInk-ios/PromptTemplate.swift:14-48 | a canned template's effective prompt is never blank, so a post-processing step given it always runs |
| PromptTemplates.RawValuesDistinct | VoiceInk-ios/PromptTemplate.swift:3-8 | distinct kinds have distinct raw values |
| DefaultModes.DefaultMode | VoiceInk-ios/DefaultModeManager.swift:26-36 | the default mode is called "Default", transcribes on the device with "base" (a model the device offers) and leaves post-processing off, on Groq with "llama-3.1-8b-instant" |
| DefaultModes.WithDefaultMode | VoiceInk-ios/DefaultModeManager.swift:12-23 | an existing list and selection are kept; an empty list becomes the default mode alone, selected |
| DefaultModes.WithDefaultModeIdempotent | VoiceInk-ios/DefaultModeManager.swift:12-23 | ensuring a default mode twice is the same as once |
| DefaultModes.DefaultModeIsEffective | VoiceInk-ios/DefaultModeManager.swift:12-23 | after the default mode is created on a first start, the effective settings are the on-device "base" model with post-processing off |
| DefaultModes.EnsureDefaultModeExists | VoiceInk-ios/DefaultModeManager.swift:12-23 | the settings' modes and selection become what the pure step prescribes; keys and flags are kept |
| ModeConfiguration.Filter | VoiceInk-ios/ModeConfigurationView.swift:21-33 | the kept providers are exactly those of the list that pass, and a list in case order stays in case order |
| ModeConfiguration.FilterHeadFirst | VoiceInk-ios/ModeConfigurationView.swift:21-33 | putting a list's first provider in front of providers drawn from its tail keeps case order |
| ModeConfiguration.Offered | VoiceInk-ios/ModeConfigurationView.swift:22-28 | VoiceInk is always offered; any other provider is offered exactly when it has models for the capability and its key is verified |
| ModeConfiguration.AvailableProviders | VoiceInk-ios/ModeConfigurationView.swift:20-41 | the picker's list always holds VoiceInk and holds only providers that pass the offer test for the capability |
| ModeConfiguration.AllCasesInOrder | VoiceInk-ios/Provider.swift:8-14 | the list of all cases is in case order |
| ModeConfiguration.AvailableProvidersSound | VoiceInk-ios/ModeConfigurationView.swift:20-41 | a provider is offered for a capability exactly when it is VoiceInk, or it offers models for the capability and is verified; the offer keeps case order |
| ModeConfiguration.NoPostProcessingWithoutModels | VoiceInk-ios/ModeConfigurationView.swift:32-41 | the on-device back end and Deepgram are never offered for post-processing |
| ModeConfiguration.ResetModel | VoiceInk-ios/ModeConfigurationView.swift:115-136 | VoiceInk gets its hard-coded model; otherwise a model the provider offers is kept, a model it does not offer becomes its first one, and a provider offering none leaves the empty model |
| ModeConfiguration.ResetModelIdempotent | VoiceInk-ios/ModeConfigurationView.swift:115-136 | resetting twice is the same as resetting once |
| ModeConfiguration.SaveDisabled | VoiceInk-ios/ModeConfigurationView.swift:112 | saving is disabled exactly when the name is all whitespace |
| ModeConfiguration.ModeEditor.constructor | VoiceInk-ios/ModeConfigurationView.swift:12-17 | an edited mode is taken as is; a new one is the default mode with an empty name |
| ModeConfiguration.ModeEditor.OnTranscriptionProviderChange | VoiceInk-ios/ModeConfigurationView.swift:115-125 | only the transcription model changes, to its reset for the new provider |
| ModeConfiguration.ModeEditor.OnPostProcessingProviderChange | VoiceInk-ios/ModeConfigurationView.swift:126-136 | only the post-processing model changes, to its reset for the new provider |
| ModeLists.FirstIndexWithId | VoiceInk-ios/ModesView.swift:18 | no index exactly when no mode has the id; otherwise the index of a mode with the id with none before it |
| ModeLists.FirstIndexAgreesWithLookup | VoiceInk-ios/ModesView.swift:18 | the index search and the settings' lookup by id find the same mode |
| ModeLists.ReplaceFirstWithId | VoiceInk-ios/ModesView.swift:17-20 | the length is kept; without a mode of that id nothing changes; otherwise only the first such mode is replaced |
| ModeLists.ReplaceLeavesLaterDuplicates | VoiceInk-ios/ModesView.swift:18-19 | a later mode sharing the id is left as it was |
| ModeLists.Kept | VoiceInk-ios/ModesView.swift:94-96 | the surviving positions are exactly those below the length not in the offsets, in increasing order |
| ModeLists.RemoveOffsets | VoiceInk-ios/ModesView.swift:94-96 | removing offsets never lengthens the list or adds a mode, and removing any valid offset shortens it |
| ModeLists.RemoveOffsetsKeeps | VoiceInk-ios/ModesView.swift:94-96 | removal keeps exactly the modes at the surviving positions, in their order |
| ModeLists.RemoveNothing | VoiceInk-ios/ModesView.swift:94-96 | removing no offsets keeps the list |
| ModeLists.UpdateMode | VoiceInk-ios/ModesView.swift:17-20 | the settings' modes become the list with the first mode of that id replaced; selection, keys and flags are kept |
| ModeLists.AppendMode | VoiceInk-ios/ModesView.swift:36-38 | the new mode is appended after every existing one; the rest is kept |
| ModeLists.DeleteModes | VoiceInk-ios/ModesView.swift:94-96 | the settings' modes lose exactly the modes at the offsets; the selection is left as it was |
| SettingsList.WithoutLocal | VoiceInk-ios/SettingsView.swift:44 | the kept providers are exactly those of the list other than the on-device one |
| SettingsList.KeyEntryProvidersInOrder | VoiceInk-ios/SettingsView.swift:44 | the key list shows Groq, OpenAI, Deepgram, Cerebras, Gemini and VoiceInk, in that order |
| SettingsList.ShowsKeySet | VoiceInk-ios/SettingsView.swift:49-53 | a cloud provider shows the key mark exactly when its key is not empty; VoiceInk never does |
| ServiceFactory.ServiceFor | VoiceInk-ios/TranscriptionServiceFactory.swift:8-17 | Deepgram exactly gets the query-parameter client, the on-device back end exactly the whisper service, and Groq, OpenAI, Cerebras and Gemini the multipart client |
| ServiceFactory.CloudProvidersUseNetwork | VoiceInk-ios/TranscriptionServiceFactory.swift:8-17 | no hosted provider is routed to the on-device service |
| MultipartClient.AppendLines | VoiceInk-ios/GroqTranscriptionService.swift:33-35 | the body grows by exactly the UTF-8 bytes of the three lines |
| MultipartClient.AppendFormField | VoiceInk-ios/GroqTranscriptionService.swift:32-36 | the body grows by exactly one form-data part: delimiter, disposition naming the field, blank line, value and line break |
| MultipartClient.AppendFilePartHead | VoiceInk-ios/GroqTranscriptionService.swift:47-49 | the body grows by exactly the file part's delimiter, disposition with the file name and "Content-Type: audio/wav" header |
| MultipartClient.BuildMultipartBody | VoiceInk-ios/GroqTranscriptionService.swift:30-54 | the built body is the model part, the optional language part, the file part with the audio bytes, and the close delimiter |
| MultipartClient.PreambleOpensWithDelimiter | VoiceInk-ios/GroqTranscriptionService.swift:33-39 | the text before the audio opens with the boundary delimiter |
| MultipartClient.PreambleEndsWithTypeLines | VoiceInk-ios/GroqTranscriptionService.swift:47-49 | the text before the audio ends with the audio/wav type header and the blank line |
| MultipartClient.BodyOpensWithDelimiter | VoiceInk-ios/GroqTranscriptionService.swift:30-54 | the body's first bytes are the delimiter "--" + boundary + CRLF |
| MultipartClient.BodyEndsWithCloseDelimiter | VoiceInk-ios/GroqTranscriptionService.swift:53 | the body's last bytes are the close delimiter "--" + boundary + "--" + CRLF |
| MultipartClient.CRLFBytes | VoiceInk-ios/GroqTranscriptionService.swift:51 | the line break encodes as the bytes 13, 10 |
| MultipartClient.AudioThenCRLF | VoiceInk-ios/GroqTranscriptionService.swift:50-51 | right after the text part the body holds the audio bytes unchanged, then CRLF |
| MultipartClient.TypeLinesBeforeAudio | VoiceInk-ios/GroqTranscriptionService.swift:49-50 | the bytes right before the audio are the audio/wav header and the blank line |
| MultipartClient.FileBytesVerbatim | VoiceInk-ios/GroqTranscriptionService.swift:47-51 | the audio sits verbatim between its type header and its closing CRLF |
| MultipartClient.PartOrder | VoiceInk-ios/GroqTranscriptionService.swift:38-48 | the model part comes first, followed by the language part when a language is given and directly by the file part otherwise |
| MultipartClient.TranscriptionRequest | VoiceInk-ios/GroqTranscriptionService.swift:20-54 | a POST to base + "/v1/audio/transcriptions" with the Bearer key, the multipart content type naming the boundary, and the body |
| MultipartClient.HeaderBoundaryMatchesBody | VoiceInk-ios/GroqTranscriptionService.swift:28-33 | the boundary named in the Content-Type header is the one that opens the body |
| MultipartClient.SelectTranscript | VoiceInk-ios/GroqTranscriptionService.swift:56-71 | success exactly for an HTTP reply with a 2xx status; a transport failure, a non-HTTP reply and a non-2xx status (as a "GroqAPI" error carrying the body text) fail; a success returns the JSON text when present, else the body as UTF-8, else the empty string |
| MultipartClient.Transcribe | VoiceInk-ios/GroqTranscriptionService.swift:19-72 | an unreadable audio file fails before any request; otherwise the multipart request is sent once and its reply decides |
| MultipartClient.SuccessNeverFails | VoiceInk-ios/GroqTranscriptionService.swift:58-71 | any 2xx reply yields a transcript, even an empty or undecodable one |
| MultipartClient.VerifyAPIKey | VoiceInk-ios/GroqTranscriptionService.swift:74-85 | the key is accepted exactly when the GET to "/v1/models" with its Bearer header gets an HTTP reply with a 2xx status |
| QueryParameterClient.QueryItemsLayout | VoiceInk-ios/DeepgramTranscriptionService.swift:27-36 | the query is the model, then smart_format=true, punctuate=true and diarize=false, then the language only when given, and only in last place |
| QueryParameterClient.BuildQueryItems | VoiceInk-ios/DeepgramTranscriptionService.swift:27-36 | the built query items are the fixed layout for the model and language |
| QueryParameterClient.ListenRequest | VoiceInk-ios/DeepgramTranscriptionService.swift:38-50 | a POST to base + "/v1/listen" with the query items, the "Token" authorization and the audio/wav content type, carrying the raw audio bytes |
| QueryParameterClient.FirstTranscript | VoiceInk-ios/DeepgramTranscriptionService.swift:61 | the first alternative of the first channel, or the empty string when either list is empty |
| QueryParameterClient.SelectTranscript | VoiceInk-ios/DeepgramTranscriptionService.swift:52-61 | success exactly for a 2xx HTTP reply whose body decodes; transport failures, non-HTTP replies, non-2xx statuses (as "DeepgramAPI" errors with the body text) and undecodable bodies fail; success returns the first transcript |
| QueryParameterClient.Transcribe | VoiceInk-ios/DeepgramTranscriptionService.swift:25-62 | an unreadable audio file fails without a request; otherwise the listen request is sent once and its reply decides |
| QueryParameterClient.VerifyAPIKey | VoiceInk-ios/DeepgramTranscriptionService.swift:64-76 | the key is accepted exactly when the GET to "/v1/projects" with its Token header gets a 2xx HTTP reply |
| Http.Bearer | VoiceInk-ios/GroqTranscriptionService.swift:25 | the Authorization header is the "Bearer " scheme followed by the key, so splitting off the scheme gives the key back |
| Http.TokenAuth | VoiceInk-ios/DeepgramTranscriptionService.swift:45 | the Authorization header is the "Token " scheme followed by the key, so splitting off the scheme gives the key back |
| Http.ReplyAccepted | VoiceInk-ios/GroqTranscriptionService.swift:79-84 | a probe succeeds exactly for an HTTP reply with status 200 to 299; a transport error or a non-HTTP reply fails |
| Http.CredentialProbe | VoiceInk-ios/GroqTranscriptionService.swift:76-77 | a GET to base + path with only the authorization header, no query and no body |
| PostProcessor.ChatPayload | VoiceInk-ios/LLMPostProcessor.swift:30-35 | the payload names the model, temperature 0.2, and exactly two messages: the fixed system prompt, then the user's prompt and the transcript |
| PostProcessor.CompletionRequest | VoiceInk-ios/LLMPostProcessor.swift:24-36 | a POST to base + "/v1/chat/completions" with the JSON content type, the Bearer key, and the payload encoded as JSON |
| PostProcessor.SelectRewrite | VoiceInk-ios/LLMPostProcessor.swift:38-43 | success exactly for a 2xx HTTP reply whose body decodes; a non-HTTP or non-2xx reply is "invalid response"; success returns the first choice's content, or the transcript unchanged when there is no choice |
| PostProcessor.PostProcessTranscript | VoiceInk-ios/LLMPostProcessor.swift:21-44 | a blank prompt returns the transcript; otherwise one completion request to the provider's base endpoint is sent and its reply decides |
| PostProcessor.BlankPromptSendsNothing | VoiceInk-ios/LLMPostProcessor.swift:22 | with a blank prompt the answer is the transcript whatever the network would have replied |
| OpenAIClient.VerifyAPIKey | VoiceInk-ios/OpenAICompatibleClient.swift:9-17 | the key is accepted exactly when the GET to "/v1/models" with its Bearer header gets a 2xx HTTP reply |
| OpenAIClient.ChatRequestFor | VoiceInk-ios/OpenAICompatibleClient.swift:20-25 | a POST to base + "/v1/chat/completions" with the Bearer key and the model, messages and temperature encoded as JSON |
| OpenAIClient.ChatCompletion | VoiceInk-ios/OpenAICompatibleClient.swift:19-32 | transport failures propagate, non-HTTP and non-2xx replies fail with "Invalid response", success exactly for a 2xx reply whose body decodes, returning the first choice's content or the empty string |
| OpenAIClient.NoChoicesDiffer | VoiceInk-ios/OpenAICompatibleClient.swift:31 | on a reply without choices the post-processor returns the transcript while the generic client returns the empty string (the post-processor's branch is LLMPostProcessor.swift line 43) |
| Paths.JoinPath | VoiceInk-ios/RecordingManager.swift:194-196 | the path is the directory, one "/" and the name |
| Paths.LastPathComponent | VoiceInk-ios/RecordingManager.swift:95 | the last component is no longer than the path and holds no "/" |
| Paths.LastComponentIsTail | VoiceInk-ios/RecordingManager.swift:95 | the last component is the tail of the path, preceded by a "/" whenever it is not the whole path |
| Paths.LastComponentOfJoin | VoiceInk-ios/RecordingManager.swift:95 | the last component of a directory joined with a name without "/" is that name, so the file name a record stores finds its file again |
| Whisper.ThreadCount | VoiceInk-ios/LibWhisper.swift:41 | the thread count lies between 1 and 8: two fewer than the processors, at least one and at most eight |
| Whisper.ParamsFor | VoiceInk-ios/LibWhisper.swift:41-77 | automatic language, no translation, no context, several segments, offset 0, temperature 0.2, 1 to 8 threads, and voice-activity detection exactly when a detector model path is known, with that path |
| Whisper.ConcatAppend | VoiceInk-ios/LibWhisper.swift:93-97 | joining the segment texts distributes over concatenation of the segment lists |
| Whisper.SegmentTextInPlace | VoiceInk-ios/LibWhisper.swift:93-97 | each present segment's text appears in the joined text verbatim, between the text of the segments before it and after it |
| Whisper.WhisperContext.Empty | VoiceInk-ios/LibWhisper.swift:26 | a context created empty holds no native context, no detector path and has freed nothing |
| Whisper.WhisperContext.constructor | VoiceInk-ios/LibWhisper.swift:28-30 | a context built on a native handle holds it and has freed nothing |
| Whisper.WhisperContext.FullTranscribe | VoiceInk-ios/LibWhisper.swift:38-88 | without a native context the run fails; otherwise it succeeds exactly when the native call with the wrapper's parameters returns 0 |
| Whisper.WhisperContext.GetTranscription | VoiceInk-ios/LibWhisper.swift:90-99 | without a native context the text is empty; otherwise the texts of the present segments joined in order and trimmed |
| Whisper.WhisperContext.InitializeModel | VoiceInk-ios/LibWhisper.swift:114-131 | a load failure throws "could not initialise context" and changes nothing; a loaded handle becomes the context |
| Whisper.WhisperContext.SetVADModelPath | VoiceInk-ios/LibWhisper.swift:133-138 | only the detector path changes |
| Whisper.WhisperContext.ReleaseResources | VoiceInk-ios/LibWhisper.swift:140-145 | a held native context is freed once and forgotten; with none nothing is freed |
| Whisper.WhisperContext.Deinit | VoiceInk-ios/LibWhisper.swift:32-36 | the context's end of life frees a still-held native context once; a released one is not freed again |
| Whisper.CreateContext | VoiceInk-ios/LibWhisper.swift:101-112 | fails exactly when the model does not load; otherwise a fresh context holds the loaded handle and the detector path |
| LocalTranscription.DecodeWaveFile | VoiceInk-ios/WhisperTranscriptionService.swift:60-71 | samples exist exactly when the file was read and is longer than the 44-byte header, and are then the samples of the corrected decoder (equal to the source's own for an even payload) |
| LocalTranscription.Outcome | VoiceInk-ios/WhisperTranscriptionService.swift:43-89 | failures come in order: no model, load failure, undecodable audio, failed run (exactly when the native call returns non-zero); a success is never empty: the trimmed joined text, or "No audio detected." |
| LocalTranscription.TranscribeAudioFile | VoiceInk-ios/WhisperTranscriptionService.swift:33-90 | answers as the outcome prescribes, creates a context exactly when a model exists and loads, and frees that context's native handle exactly once on every path |
| LocalTranscription.VerifyAPIKey | VoiceInk-ios/WhisperTranscriptionService.swift:93-96 | the key is accepted exactly when a model is on disk, whatever the key |
| LocalModels.BaseModelFileName | VoiceInk-ios/LocalModelManager.swift:26-39 | the base model's file is "ggml-base.bin" in the models directory |
| LocalModels.BaseModelPath | VoiceInk-ios/LocalModelManager.swift:209-212 | a path exists exactly when the base model's file is on disk, and is then that file |
| LocalModels.FirstDownloaded | VoiceInk-ios/LocalModelManager.swift:220-222 | nothing exactly when no listed model is on disk; otherwise a listed model that is on disk |
| LocalModels.AvailabilityAgrees | VoiceInk-ios/LocalModelManager.swift:209-222 | a model is available exactly when a first available model exists, exactly when the base model path exists |
| LocalModels.CompletionFailure | VoiceInk-ios/LocalModelManager.swift:139-156 | a transport error reads "Download failed: " and its description; else a missing or non-2xx status reads "Server error during download"; else a missing file reads "No file received"; there is no failure exactly when all three checks pass |
| LocalModels.UsageIgnoresOtherFiles | VoiceInk-ios/LocalModelManager.swift:233-240 | a file without the "bin" extension adds neither to the count nor to the size |
| LocalModels.BinCountBounded | VoiceInk-ios/LocalModelManager.swift:233-240 | the model count never exceeds the number of directory entries |
| LocalModels.LocalModelManager.constructor | VoiceInk-ios/LocalModelManager.swift:50-73 | a new manager tracks no download, progress, error, task or observation |
| LocalModels.LocalModelManager.Downloading | VoiceInk-ios/LocalModelManager.swift:81 | a model is downloading exactly when its flag is present and set, absent counting as false |
| LocalModels.LocalModelManager.DownloadModel | VoiceInk-ios/LocalModelManager.swift:80-124 | a model already downloading is left alone; an unparsable URL throws "invalid URL" and changes nothing; otherwise the model is marked downloading at progress 0, the error is cleared, and its task and progress observation are registered |
| LocalModels.LocalModelManager.ObserveProgress | VoiceInk-ios/LocalModelManager.swift:109-113 | only the model's progress changes, to the reported fraction |
| LocalModels.LocalModelManager.HandleDownloadCompletion | VoiceInk-ios/LocalModelManager.swift:126-176 | on every path the model stops downloading and loses its progress, task and observation; a failed completion records its message and leaves the disk alone; a successful save puts the model's file on disk; a failed removal of the old file records "Failed to save model: " and keeps the old file; a failed move after the old file was removed records the same message and leaves no model file |
| LocalModels.LocalModelManager.CancelDownload | VoiceInk-ios/LocalModelManager.swift:179-185 | the model stops downloading and loses its progress, task and observation; the error and the files are kept |
| LocalModels.LocalModelManager.DeleteModel | VoiceInk-ios/LocalModelManager.swift:188-206 | a model not on disk is a silent no-op; otherwise the call fails exactly when the removal fails, and a successful removal takes exactly its file off the disk |
| LocalModels.LocalModelManager.GetModelsDiskUsage | VoiceInk-ios/LocalModelManager.swift:225-247 | an unreadable directory gives zero and zero; otherwise the total size and number of the "bin" files |
| AppGroup.Request | VoiceInk-ios/AppGroupCoordinator.swift:47-68 | the requested flag is set and the request time stored; every other flag is untouched |
| AppGroup.Consume | VoiceInk-ios/AppGroupCoordinator.swift:101-124 | the answer is the flag's value, the flag is false afterwards, and every other key is untouched |
| AppGroup.Update | VoiceInk-ios/AppGroupCoordinator.swift:89-98 | the recording state and the time are stored; both request flags are untouched |
| AppGroup.ReadRecording | VoiceInk-ios/AppGroupCoordinator.swift:71-84 | a stored "recording" older than 30 seconds reads as false and is written back as not recording at the current time; otherwise the stored state is read and nothing changes |
| AppGroup.Cleared | VoiceInk-ios/AppGroupCoordinator.swift:193-199 | the four shared keys are removed and every other key is kept |
| AppGroup.ConsumeOnce | VoiceInk-ios/AppGroupCoordinator.swift:47-124 | a request is seen by exactly one consume: the first returns true, a second returns false |
| AppGroup.RequestsIndependent | VoiceInk-ios/AppGroupCoordinator.swift:47-68 | requesting a start leaves a pending stop as it was, and the other way round |
| AppGroup.UpdateReadsBack | VoiceInk-ios/AppGroupCoordinator.swift:71-98 | a state written now reads back as written and changes nothing |
| AppGroup.StalenessBoundary | VoiceInk-ios/AppGroupCoordinator.swift:77 | a "recording" state still reads as recording exactly 30 seconds after it was written, and as not recording at any later time |
| AppGroup.ClearedReadsFalse | VoiceInk-ios/AppGroupCoordinator.swift:193-199 | after clearing, no request is pending and the state reads as not recording without any write |
| AppGroup.AppGroupCoordinator.constructor | VoiceInk-ios/AppGroupCoordinator.swift:35-38 | the coordinator starts over an empty shared store, or none when the app group is unavailable |
| AppGroup.AppGroupCoordinator.RequestStartRecording | VoiceInk-ios/AppGroupCoordinator.swift:47-56 | the shared store takes the start request; without a store nothing changes |
| AppGroup.AppGroupCoordinator.RequestStopRecording | VoiceInk-ios/AppGroupCoordinator.swift:59-68 | the shared store takes the stop request; without a store nothing changes |
| AppGroup.AppGroupCoordinator.IsRecording | VoiceInk-ios/AppGroupCoordinator.swift:71-84 | without a store the answer is false; otherwise answer and new store are the stale-aware read |
| AppGroup.AppGroupCoordinator.UpdateRecordingState | VoiceInk-ios/AppGroupCoordinator.swift:89-98 | the shared store takes the state and time; without a store nothing changes |
| AppGroup.AppGroupCoordinator.CheckAndConsumeStartRecordingFlag | VoiceInk-ios/AppGroupCoordinator.swift:101-111 | without a store false; otherwise the start flag is read and consumed |
| AppGroup.AppGroupCoordinator.CheckAndConsumeStopRecordingFlag | VoiceInk-ios/AppGroupCoordinator.swift:114-124 | without a store false; otherwise the stop flag is read and consumed |
| AppGroup.AppGroupCoordinator.ClearAllSharedData | VoiceInk-ios/AppGroupCoordinator.swift:193-199 | the shared store is cleared of the four keys; without a store nothing changes |
| ProviderKeyView.Bullets | VoiceInk-ios/ProviderAPIKeyView.swift:126-131 | a run of exactly n bullets |
| ProviderKeyView.SuffixCount | VoiceInk-ios/ProviderAPIKeyView.swift:127-128 | between 0 and 4 characters of the end are shown, and all 4 for a key of 8 or more |
| ProviderKeyView.Mask | VoiceInk-ios/ProviderAPIKeyView.swift:125-132 | the masked key is never shorter than the key |
| ProviderKeyView.ObfuscatedKey | VoiceInk-ios/ProviderAPIKeyView.swift:122-124 | nothing is shown exactly when the saved key is blank; otherwise the mask of the trimmed key |
| ProviderKeyView.MaskRevealsLittle | VoiceInk-ios/ProviderAPIKeyView.swift:122-133 | a key of up to 6 characters shows only bullets; a longer key shows its first 4 and its last 3 or 4 characters around at least 4 bullets, and never fewer bullets than hidden characters |
| ProviderKeyView.CheckFor | VoiceInk-ios/ProviderAPIKeyView.swift:103-110 | Deepgram exactly gets the Deepgram check, Gemini, OpenAI and Cerebras exactly the OpenAI-compatible check, the rest the Groq check |
| ProviderKeyView.CheckFollowsTranscriptionClient | VoiceInk-ios/ProviderAPIKeyView.swift:103-110 | the key check each provider gets is the very probe its transcription client would run |
| ProviderKeyView.KeyToVerify | VoiceInk-ios/ProviderAPIKeyView.swift:99-100 | a non-blank entry is checked trimmed (never empty); a blank one checks the saved key |
| ProviderKeyView.ProviderAPIKeyView.constructor | VoiceInk-ios/ProviderAPIKeyView.swift:4-9 | the screen starts editing with an empty entry, no check running and no result |
| ProviderKeyView.ProviderAPIKeyView.Appear | VoiceInk-ios/ProviderAPIKeyView.swift:78-82 | the entry shows the saved key, the result is cleared, and editing is offered exactly when the key is not verified |
| ProviderKeyView.ProviderAPIKeyView.EditKey | VoiceInk-ios/ProviderAPIKeyView.swift:83-85 | an edit takes the new entry and clears the last result, nothing else |
| ProviderKeyView.ProviderAPIKeyView.SaveKey | VoiceInk-ios/ProviderAPIKeyView.swift:92-94 | a non-blank entry is stored as typed through the corrected key setter (Findings row 2), so the verification survives only for an unchanged key; every other provider's flag and the modes and selection are kept, and the on-device back end is left alone |
| ProviderKeyView.ProviderAPIKeyView.VerifyKey | VoiceInk-ios/ProviderAPIKeyView.swift:96-120 | the result is the provider's check on the trimmed entry or the saved key; a failure changes only the result; a success stores a non-blank entry trimmed, marks the key verified and closes the editor; modes and selection are kept |
| ProviderKeyView.ProviderAPIKeyView.AcceptKey | VoiceInk-ios/ProviderAPIKeyView.swift:114-118 | a non-empty entry becomes the key and the key is marked verified; nothing else changes |
| ProviderKeyView.ProviderAPIKeyView.Change | VoiceInk-ios/ProviderAPIKeyView.swift:45-50 | editing reopens on the saved key with no result, the keys, modes, selection, the running-check flag and every other provider's flag are kept, and the key no longer counts as verified |
| ProviderKeyView.PassingCheckVerifies | VoiceInk-ios/ProviderAPIKeyView.swift:114-116 | after a passing check of a non-blank entry the hosted provider counts as verified |
| Visualizer.Clamp01 | VoiceInk-ios/AudioVisualizerView.swift:41 | the level is clamped into [0, 1] and a level already inside is kept |
| Visualizer.SourceIndexInRange | VoiceInk-ios/AudioVisualizerView.swift:35-38 | every bar reads inside the history, bar 0 reads the newest level, and a later bar never reads a newer level than an earlier one |
| Visualizer.HeightBounded | VoiceInk-ios/AudioVisualizerView.swift:32-44 | every bar is between 4 points and the view's height, and an empty history draws 4-point bars |
| Visualizer.BarWidth | VoiceInk-ios/AudioVisualizerView.swift:28-30 | a bar is at least 2 points wide, and exactly the padded share of the width when that is wider |
| NoteRow.StatusShownDistinctly | VoiceInk-ios/NoteRowView.swift:48-68 | two records share an icon exactly when they share a status, and likewise for the colour |
| NoteRow.TranscriptText | VoiceInk-ios/NoteRowView.swift:70-79 | the row's second line is never empty: the pending and failed messages for those statuses, and for a completed record its transcript, or the no-content message when that is empty |
| NoteRow.Title | VoiceInk-ios/NoteRowView.swift:19 | the title shown is never empty and is the record's own title whenever it has one |
| NoteRow.TruncateToInt | VoiceInk-ios/NoteRowView.swift:82 | conversion to Int truncates toward zero: the floor for a non-negative value, minus the floor of the magnitude for a negative one |
| NoteRow.TruncatingDiv | VoiceInk-ios/NoteRowView.swift:83 | Swift's `/` on Int: Euclidean quotient for a non-negative dividend, rounded toward zero for a negative one |
| NoteRow.TruncatingRem | VoiceInk-ios/NoteRowView.swift:84 | Swift's `%` on Int: quotient times divisor plus remainder gives the dividend back, and the remainder takes the dividend's sign |
| NoteRow.Pad2 | VoiceInk-ios/NoteRowView.swift:85 | `%02d` gives at least two characters, exactly two below 100, all digits for a non-negative value |
| NoteRow.NatToStringAtLeastTwo | VoiceInk-ios/NoteRowView.swift:85 | a value from 10 up prints as its plain decimal digits, at least two of them |
| NoteRow.Pad2Value | VoiceInk-ios/NoteRowView.swift:85 | the padded digits read back as the number printed |
| NoteRow.TimeStringReadsBack | VoiceInk-ios/NoteRowView.swift:81-86 | a non-negative duration renders as digits, a colon and two digits whose seconds are below 60 and whose minutes times 60 plus seconds give back the whole seconds; NotesListView.swift lines 343-348 render durations the same way |
| NoteRow.NegativeDurationRendering | VoiceInk-ios/NotesListView.swift:343-348 | a negative duration such as -65.5 renders as "-1:-5", because of truncating division |
| NoteRow.DurationLabel | VoiceInk-ios/NoteRowView.swift:38-42 | the duration label appears exactly when the duration is positive, and then shows its `mm:ss` rendering |
| TextCleanup.DropNewlines | VoiceInk-ios/RecordingManager.swift:203 | what remains of a newline run is no longer and never starts with a newline |
| TextCleanup.DropNewlinesSuffix | VoiceInk-ios/RecordingManager.swift:203 | the result is a suffix of the input and everything dropped was a newline |
| TextCleanup.DropBlanks | VoiceInk-ios/RecordingManager.swift:204 | what remains of a space/tab run is no longer and never starts with a space or tab |
| TextCleanup.DropBlanksSuffix | VoiceInk-ios/RecordingManager.swift:204 | the result is a suffix of the input and everything dropped was a space or a tab |
| TextCleanup.CollapseNewlines | VoiceInk-ios/RecordingManager.swift:203 | replacing each run of two or more newlines by two empties only the empty text and keeps the first and last characters' kind |
| TextCleanup.CollapseNewlinesBoundsRuns | VoiceInk-ios/RecordingManager.swift:203 | after the replacement no three newlines stand in a row |
| TextCleanup.CollapseBlanks | VoiceInk-ios/RecordingManager.swift:204 | replacing each space/tab run by one space leaves no tab and no two spaces together, and keeps first and last characters |
| TextCleanup.CollapseBlanksKeepsNewlineRuns | VoiceInk-ios/RecordingManager.swift:203-204 | collapsing spaces and tabs cannot create a run of three newlines |
| TextCleanup.Clean | VoiceInk-ios/RecordingManager.swift:201-204 | the cleaned transcript is single-spaced, has no three newlines in a row, starts and ends with a character outside the Unicode white-space set, and is empty exactly when the raw text is blank; the retry path in NotesListView.swift lines 283-286 cleans the same way |
| TextCleanup.VisibleAppend | VoiceInk-ios/RecordingManager.swift:201-204 | the visible characters of a concatenation are those of its parts in order |
| TextCleanup.VisibleBehindWhitespace | VoiceInk-ios/RecordingManager.swift:202 | leading whitespace adds no visible characters |
| TextCleanup.VisibleOfWhitespace | VoiceInk-ios/RecordingManager.swift:202 | all-whitespace text has no visible characters |
| TextCleanup.VisibleAfterWhitespace | VoiceInk-ios/RecordingManager.swift:202 | dropping a whitespace prefix keeps the visible characters |
| TextCleanup.NewlineRunVisible | VoiceInk-ios/RecordingManager.swift:203 | handling a newline run loses no visible characters |
| TextCleanup.KeptCharVisible | VoiceInk-ios/RecordingManager.swift:203-204 | a copied first character plus a tail with the same visible text keeps the visible text |
| TextCleanup.CollapseNewlinesVisible | VoiceInk-ios/RecordingManager.swift:203 | collapsing newline runs keeps every visible character in order |
| TextCleanup.BlankRunVisible | VoiceInk-ios/RecordingManager.swift:204 | handling a space/tab run loses no visible characters |
| TextCleanup.DroppedBlanksInvisible | VoiceInk-ios/RecordingManager.swift:204 | a dropped space/tab run had no visible characters |
| TextCleanup.CollapseBlanksVisible | VoiceInk-ios/RecordingManager.swift:204 | collapsing space/tab runs keeps every visible character in order |
| TextCleanup.TrimVisible | VoiceInk-ios/RecordingManager.swift:202 | trimming keeps every visible character in order |
| TextCleanup.CleanKeepsVisibleText | VoiceInk-ios/RecordingManager.swift:201-204 | cleaning only changes whitespace: the visible characters of the transcript are exactly those of the raw text |
| TextCleanup.WhitespaceRunSeparates | VoiceInk-ios/RecordingManager.swift:203-204 | any non-empty whitespace run, of whatever length and characters, ends the word being read and nothing more |
| TextCleanup.TrailingWhitespaceNoWord | VoiceInk-ios/RecordingManager.swift:202 | whitespace at the end of a text adds no word |
| TextCleanup.TrimKeepsWords | VoiceInk-ios/RecordingManager.swift:202 | trimming keeps the text's words (maximal non-whitespace runs) exactly, in order |
| TextCleanup.CollapseNewlinesKeepsWords | VoiceInk-ios/RecordingManager.swift:203 | shortening newline runs keeps every word and every boundary between words |
| TextCleanup.CollapseBlanksKeepsWords | VoiceInk-ios/RecordingManager.swift:204 | turning space/tab runs into one space keeps every word and every boundary between words |
| TextCleanup.CleanKeepsWords | VoiceInk-ios/RecordingManager.swift:201-204 | the cleaned transcript has exactly the words of the raw text in order, so whitespace between words is collapsed, never deleted |
| Base.TrimStart | VoiceInk-ios/RecordingManager.swift:202 | the result is no longer and does not start with a character of the Unicode White_Space set that `whitespacesAndNewlines` names |
| Base.TrimStartDropsWhitespace | VoiceInk-ios/RecordingManager.swift:202 | the result is a suffix of the input and everything dropped is whitespace |
| Base.TrimEnd | VoiceInk-ios/RecordingManager.swift:202 | the result is no longer and does not end with a character of the Unicode White_Space set that `whitespacesAndNewlines` names |
| Base.TrimEndDropsWhitespace | VoiceInk-ios/RecordingManager.swift:202 | the result is a prefix of the input and everything dropped is whitespace |
| Base.Trim | VoiceInk-ios/RecordingManager.swift:202 | trimmed text neither starts nor ends with Unicode white space (no-break and line-separator characters included) |
| Base.UnicodeSpaceTrimmed | VoiceInk-ios/RecordingManager.swift:202 | no-break spaces around a word are trimmed away, and a lone line separator counts as blank |
| Base.TrimIsInfix | VoiceInk-ios/RecordingManager.swift:202 | trimmed text is a slice of the input with only whitespace cut from both ends |
| Base.BlankIffAllWhitespace | VoiceInk-ios/LLMPostProcessor.swift:22 | text trims to empty exactly when every character is whitespace |
| Base.LeadingTextNotBlank | VoiceInk-ios/LLMPostProcessor.swift:22 | text that starts with a visible character is not blank |
| Base.Contains | VoiceInk-ios/NotesListView.swift:37-38 | containment holds exactly when the needle occurs at some position of the text |
| Base.NatToString | VoiceInk-ios/NoteRowView.swift:85 | a decimal rendering is non-empty and all digits |
| Base.NatToStringRoundTrip | VoiceInk-ios/NoteRowView.swift:85 | reading the decimal rendering back gives the number |
| Base.Utf8Char | VoiceInk-ios/GroqTranscriptionService.swift:33-35 | a character encodes as 1 to 4 bytes, and as 1 byte exactly when it is ASCII |
| Base.Utf8 | VoiceInk-ios/GroqTranscriptionService.swift:33-35 | the encoding has at least as many bytes as characters |
| Base.Utf8Append | VoiceInk-ios/GroqTranscriptionService.swift:33-53 | encoding a concatenation is concatenating the encodings, so appending pieces of the body piecewise equals encoding it whole |

## Left out

- Audio hardware, AVAudioSession, AVAudioRecorder metering, the network, whisper.cpp, the Keychain and UserDefaults persistence and the file system are parameters or oracles. Their own behaviour is not modelled.
- UUID() and Date() become parameters (`id`, `now`).
- The detached `Task` in transcribeInBackground is modelled as a separate step that runs after stop. Interleavings of several jobs are modelled only in the deferred clean-up finding below.
- Floating-point values (durations, levels, sample scaling) are modelled as reals, so rounding is not modelled. Int64 disk-usage sums are unbounded.
- Whisper's voice-activity-detection float thresholds and durations are not modelled. They only configure the external library; the thread count and temperature are modelled in Whisper.ThreadCount and Whisper.ParamsFor.
- NotesListView.deleteItems is not modelled. It only hands records to the SwiftData context.
- The convenience extension of WhisperTranscriptionService is not modelled. It only forwards to the modelled call.
- getDebugInfo, consoleURL and the notification observers are not modelled. They are diagnostics and OS plumbing.
- View layout, styling and animation are not modelled. Only the values the views compute are.
- setupForFirstTimeUser is covered by DefaultModes, since all it does is ensure the default mode exists.
- Provider.swift lists six providers, but AppSettings, ModeConfigurationView and SettingsView also use `.voiceink`, so the model adds a VoiceInk case. Providers.BaseURL, ServiceFactory.ServiceFor and the key screen require a provider other than VoiceInk, because the source has no branch for it there.
- DefaultModes.DefaultMode: the `promptTemplate:` argument that createDefaultMode passes is dropped, because the `Mode` initialiser in Mode.swift has no such parameter and a mode stores no template.
- Paths.LastPathComponent: returns the empty string for a path that ends in "/", where URL.lastPathComponent skips trailing slashes; the app only asks for the last component of file paths it built, which never end in "/".
- ProviderKeyView.ProviderAPIKeyView.SaveKey: stores the key through the corrected Settings.AppSettings.SetAPIKey of Findings row 2, so a changed key loses its verified flag; the source's saveKey calls setAPIKey as written, which keeps the flag (Settings.AppSettings.SetAPIKeyAsWritten models that behaviour).
- Strings are sequences of Unicode code points, while Swift's `count`, `prefix(_:)` and `suffix(_:)` count grapheme clusters. In PromptTemplates.Description, PromptTemplates.Prefix, ProviderKeyView.Mask, ProviderKeyView.SuffixCount and ProviderKeyView.MaskRevealsLittle, a "character" is a code point, so text with combining marks (an "é" written as e + U+0301) counts more characters in the model than in the app.
- NotesList.Filtered: uses case-sensitive containment instead of localizedCaseInsensitiveContains, because locale-aware case folding is not modelled.
- Retry: TranscriptionRetryService.retranscribe takes a `Note` (Note.swift), which has a `transcript` field but no `fullAudioPath`, `transcriptionStatus` or `transcriptionError`, so the source as written does not type-check. The model substitutes the `Transcription` record (Transcription.swift) for `Note`, so the retry reads its audio path and status and writes its `text` field.
- LocalTranscription.DecodeWaveFile: with LocalTranscription.Outcome and LocalTranscription.TranscribeAudioFile, decodes with the corrected RiffWave.DecodeWave (first row under Findings); on a file whose payload after the 44-byte header has an odd length the source's decoder reads past the end and traps (RiffWave.OddPayloadReadsPastEnd), while the model drops the stray byte, so these three state the intended behaviour there, not the crash.

## Findings

| source | as written | input that shows it | evidently intended | confidence | as-written member | corrected member |
|---|---|---|---|---|---|---|
| VoiceInk-ios/RiffWaveUtils.swift:21-24 | the sample stride runs over every even offset from 44 up to the file size and reads two bytes at each | a 45-byte file: offset 44 reads bytes 44 and 45, and byte 45 does not exist | decode only complete 16-bit samples (or reject an odd payload) | not executed | RiffWave.OddPayloadReadsPastEnd | RiffWave.DecodeWave |
| VoiceInk-ios/AppSettings.swift:114-133 | the key is assigned first and then compared with itself, so the "reset verification" branch never runs | groq key "a" verified, then setAPIKey("b", .groq): the flag stays true for key "b" | a changed key loses its verified flag | not executed | Settings.SetAPIKeyKeepsStaleVerification | Settings.AppSettings.SetAPIKey |
| VoiceInk-ios/RecordingManager.swift:169-173 | the background job's deferred clean-up clears the recorder's current URL and duration, whatever recording they now belong to | job A is still transcribing when recording B starts; A ends and clears B's URL, so stopping B inserts no record | clear only the job's own stopped recording | not executed | Pipeline.CleanupLosesNewerRecording | Pipeline.ReleaseRecording |
