// VoiceInk-ios/NotesListView.swift: the notes list with its search filter
// and the inline record button, which starts and stops recordings itself
// and hands each stopped one to the background job.
module NotesList {
  import opened Base
  import opened Paths
  import opened Modes
  import opened Settings
  import Records
  import Recorder
  import opened Pipeline

  /** A note is kept when the search is empty or occurs in its text or in
      its enhanced text. */
  predicate Matches(note: Records.Transcription, search: string)
    reads note
  {
    search == [] || Contains(note.text, search) || Contains(note.enhancedText.GetOr(""), search)
  }

  /** `filteredNotes`: the matching notes, in the list's order. */
  function Filtered(notes: seq<Records.Transcription>, search: string): (r: seq<Records.Transcription>)
    reads set i | 0 <= i < |notes| :: notes[i]
    ensures |r| <= |notes|
    ensures forall j :: 0 <= j < |r| ==> r[j] in notes && Matches(r[j], search)
    ensures forall i :: 0 <= i < |notes| && Matches(notes[i], search) ==> notes[i] in r
  {
    if notes == [] then []
    else
      var last := notes[|notes| - 1];
      var front := Filtered(notes[..|notes| - 1], search);
      front + (if Matches(last, search) then [last] else [])
  }

  /** An empty search keeps every note, in order. */
  lemma {:induction false} EmptySearchKeepsAll(notes: seq<Records.Transcription>)
    ensures Filtered(notes, []) == notes
  {
    if notes != [] {
      EmptySearchKeepsAll(notes[..|notes| - 1]);
    }
  }

  /** Filtering two runs of notes one after the other is filtering each:
      the filter keeps the list's order. */
  lemma {:induction false} FilteredAppend(a: seq<Records.Transcription>, b: seq<Records.Transcription>, search: string)
    ensures Filtered(a + b, search) == Filtered(a, search) + Filtered(b, search)
    decreases |b|
  {
    if b == [] {
      assert a + b == a;
    } else {
      var init := b[..|b| - 1];
      assert (a + b)[..|a + b| - 1] == a + init;
      FilteredAppend(a, init, search);
    }
  }

  /** What the record button does. */
  datatype ButtonAction = ShowNoModesAlert | StartRecording | StopRecording

  /** With no mode the button only raises the alert; otherwise it stops a
      running recording and starts one in every other state. */
  function ButtonActionFor(modes: seq<Mode>, state: RecordingState): (a: ButtonAction)
    ensures a == ShowNoModesAlert <==> modes == []
    ensures a == StopRecording <==> modes != [] && state == Recording
  {
    if modes == [] then ShowNoModesAlert
    else
      match state
      case Idle => StartRecording
      case Completed(_) => StartRecording
      case Error(_) => StartRecording
      case Processing => StartRecording
      case Recording => StopRecording
  }

  class NotesListView {
    var searchText: string
    var showingNoModesAlert: bool
    var currentRecordingNote: Option<Records.Transcription>
    var recordingState: RecordingState
    var animate: bool
    const recorder: Recorder.AudioRecorder
    const settings: AppSettings
    const documents: string

    predicate Valid()
      reads this, recorder, settings
    {
      recorder.Valid() && settings.Valid() && recorder.documents == documents
    }

    constructor(recorder: Recorder.AudioRecorder, settings: AppSettings)
      requires recorder.Valid() && settings.Valid()
      ensures Valid() && this.recorder == recorder && this.settings == settings
      ensures searchText == [] && !showingNoModesAlert && currentRecordingNote.None?
      ensures recordingState == Idle && !animate
    {
      this.recorder := recorder;
      this.settings := settings;
      this.documents := recorder.documents;
      searchText := [];
      showingNoModesAlert := false;
      currentRecordingNote := None;
      recordingState := Idle;
      animate := false;
    }

    /** `filteredNotes` over the records the query returns. */
    function FilteredNotes(notes: seq<Records.Transcription>): seq<Records.Transcription>
      reads this, set i | 0 <= i < |notes| :: notes[i]
    {
      Filtered(notes, searchText)
    }

    /** `startInlineRecording`: a failure shows its description as an error
        state and leaves the animation running. */
    method StartInlineRecording(sessionOk: bool, seconds: int, created: bool, started: bool,
                                errorDescription: string)
      requires Valid()
      modifies this, recorder, settings
      ensures Valid()
      ensures settings.selectedModeId == AutoSelect(old(settings.modes), old(settings.selectedModeId))
      ensures settings.modes == old(settings.modes) && settings.apiKeys == old(settings.apiKeys)
      ensures settings.keyVerified == old(settings.keyVerified)
      ensures animate && searchText == old(searchText) && showingNoModesAlert == old(showingNoModesAlert)
      ensures currentRecordingNote == old(currentRecordingNote)
      ensures sessionOk && created && started ==> recordingState == Recording && recorder.isRecording
      ensures !(sessionOk && created && started) ==>
        && recordingState == Error(errorDescription)
        && recorder.isRecording == old(recorder.isRecording)
        && recorder.currentRecordingURL == old(recorder.currentRecordingURL)
    {
      recordingState := Recording;
      animate := true;
      SelectFirstModeIfNone(settings);
      var failed := recorder.StartRecording(sessionOk, seconds, created, started);
      if failed {
        recordingState := Error(errorDescription);
      }
    }

    /** `stopInlineRecording`: as the manager's stop, but the duration is the
        recorder's own count. The returned job is what the detached
        background task (`TranscribeInBackground`) then runs. */
    method StopInlineRecording(store: NoteStore, id: nat, now: real) returns (job: Option<Job>)
      requires Valid()
      modifies this, recorder, store
      ensures Valid()
      ensures !recorder.isRecording && recorder.levelsHistory == []
      ensures recorder.currentRecordingURL == old(recorder.currentRecordingURL)
      ensures recorder.currentDuration == old(recorder.currentDuration)
      ensures searchText == old(searchText) && showingNoModesAlert == old(showingNoModesAlert)
      ensures job.None? <==> old(recorder.currentRecordingURL).None?
      ensures job.None? ==>
        && store.notes == old(store.notes) && currentRecordingNote == old(currentRecordingNote)
        && recordingState == old(recordingState) && animate == old(animate)
      ensures job.Some? ==>
        var note := job.value.note;
        && fresh(note)
        && store.notes == old(store.notes) + [note]
        && job.value.audioFileName == LastPathComponent(old(recorder.currentRecordingURL).value)
        && IsPendingNote(note, id, now, job.value.audioFileName, old(recorder.currentDuration))
        && currentRecordingNote == Some(note)
        && recordingState == Idle && !animate
    {
      recorder.StopRecording();
      if recorder.currentRecordingURL.None? {
        return None;
      }
      var fileURL := recorder.currentRecordingURL.value;
      var audioFileName := LastPathComponent(fileURL);
      var recordingDuration := recorder.currentDuration;
      var note := InsertPendingNote(store, id, now, audioFileName, recordingDuration);
      recordingState := Idle;
      animate := false;
      currentRecordingNote := Some(note);
      job := Some(Job(note, audioFileName));
    }

    /** The record button's action. */
    method RecordButtonTapped(store: NoteStore, id: nat, now: real,
                              sessionOk: bool, seconds: int, created: bool, started: bool,
                              errorDescription: string)
      returns (job: Option<Job>)
      requires Valid()
      modifies this, recorder, settings, store
      ensures Valid()
      ensures ButtonActionFor(old(settings.modes), old(recordingState)) == ShowNoModesAlert ==>
        && showingNoModesAlert && recordingState == old(recordingState) && animate == old(animate)
        && unchanged(recorder) && unchanged(settings) && job.None? && store.notes == old(store.notes)
      ensures ButtonActionFor(old(settings.modes), old(recordingState)) == StartRecording ==>
        && job.None? && store.notes == old(store.notes)
        && (recordingState == Recording <==> sessionOk && created && started)
        && settings.selectedModeId == AutoSelect(old(settings.modes), old(settings.selectedModeId))
      ensures ButtonActionFor(old(settings.modes), old(recordingState)) == StopRecording ==>
        && (job.None? <==> old(recorder.currentRecordingURL).None?)
        && (job.Some? ==> store.notes == old(store.notes) + [job.value.note] && fresh(job.value.note)
                          && recordingState == Idle && FieldsOf(job.value.note) == PendingFields)
    {
      job := None;
      if settings.modes == [] {
        showingNoModesAlert := true;
      } else {
        match recordingState
        case Recording =>
          job := StopInlineRecording(store, id, now);
        case _ =>
          StartInlineRecording(sessionOk, seconds, created, started, errorDescription);
      }
    }
  }
}
