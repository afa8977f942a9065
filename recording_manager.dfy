// VoiceInk-ios/RecordingManager.swift: the recording screen's controller.
// It asks for the microphone, starts the recorder, counts the duration,
// and on stop inserts a pending record and hands it to the background job.
module RecordingFlow {
  import opened Base
  import opened Paths
  import opened Settings
  import Records
  import Recorder
  import opened Pipeline

  /** `recordPermission` as the manager reads it. */
  datatype MicrophonePermission = Granted | Denied | Undetermined

  /** The alert on show; a generic one stands for any thrown error. */
  datatype RecordingAlert = PermissionDenied | Busy | Generic

  /** `ActiveRecordingAlert.id`. */
  function AlertId(a: RecordingAlert, errorDescription: string): (id: string)
    ensures a == PermissionDenied ==> id == "permissionDenied"
    ensures a == Busy ==> id == "busy"
    ensures a == Generic ==> StartsWith(id, "generic-") && id[|"generic-"|..] == errorDescription
  {
    match a
    case PermissionDenied => "permissionDenied"
    case Busy => "busy"
    case Generic => "generic-" + errorDescription
  }

  /** The manager's published fields, together. */
  datatype ManagerState = ManagerState(
    recordingState: RecordingState,
    animate: bool,
    isRecordingSheetPresented: bool,
    activeRecordingAlert: Option<RecordingAlert>,
    currentDuration: real,
    hasDurationTimer: bool)

  /** The state after a recording has started. */
  function Started(s: ManagerState): (r: ManagerState)
    ensures r.recordingState == Recording && r.animate && r.isRecordingSheetPresented
    ensures r.currentDuration == 0.0 && r.hasDurationTimer
    ensures r.activeRecordingAlert == s.activeRecordingAlert
  {
    s.(recordingState := Recording, animate := true, currentDuration := 0.0, hasDurationTimer := true,
       isRecordingSheetPresented := true)
  }

  /** The state after a failed start: back to idle with a generic alert. */
  function StartFailed(s: ManagerState): (r: ManagerState)
    ensures r.recordingState == Idle && !r.animate && r.activeRecordingAlert == Some(Generic)
    ensures r.isRecordingSheetPresented == s.isRecordingSheetPresented
    ensures r.currentDuration == s.currentDuration && r.hasDurationTimer == s.hasDurationTimer
  {
    s.(recordingState := Idle, animate := false, activeRecordingAlert := Some(Generic))
  }

  /** The state after a stop that produced a record. */
  function Stopped(s: ManagerState): (r: ManagerState)
    ensures r.recordingState == Idle && !r.animate && !r.isRecordingSheetPresented && !r.hasDurationTimer
    ensures r.currentDuration == s.currentDuration && r.activeRecordingAlert == s.activeRecordingAlert
  {
    s.(recordingState := Idle, animate := false, isRecordingSheetPresented := false, hasDurationTimer := false)
  }

  /** The state after a cancel. */
  function Cancelled(s: ManagerState): (r: ManagerState)
    ensures r.recordingState == Idle && !r.animate && !r.isRecordingSheetPresented && !r.hasDurationTimer
    ensures r.currentDuration == 0.0 && r.activeRecordingAlert == s.activeRecordingAlert
  {
    s.(recordingState := Idle, animate := false, isRecordingSheetPresented := false, hasDurationTimer := false,
       currentDuration := 0.0)
  }

  /** A cancel after a start leaves the screen exactly as a cancel without
      one: nothing of the started recording survives. */
  lemma CancelForgetsStart(s: ManagerState)
    ensures Cancelled(Started(s)) == Cancelled(s)
  {
  }

  class RecordingManager {
    var recordingState: RecordingState
    var animate: bool
    var isRecordingSheetPresented: bool
    var activeRecordingAlert: Option<RecordingAlert>
    var currentRecordingNote: Option<Records.Transcription>
    var currentDuration: real
    var hasDurationTimer: bool
    const recorder: Recorder.AudioRecorder
    const settings: AppSettings
    const documents: string

    function State(): ManagerState
      reads this
    {
      ManagerState(recordingState, animate, isRecordingSheetPresented, activeRecordingAlert,
                   currentDuration, hasDurationTimer)
    }

    /** The recorder is the manager's own and keeps its level window; the
        settings hold a key for every hosted back end. */
    predicate Valid()
      reads this, recorder, settings
    {
      recorder.Valid() && settings.Valid() && recorder.documents == documents
    }

    constructor(recorder: Recorder.AudioRecorder, settings: AppSettings)
      requires recorder.Valid() && settings.Valid()
      ensures Valid() && this.recorder == recorder && this.settings == settings
      ensures recordingState == Idle && !animate && !isRecordingSheetPresented
      ensures activeRecordingAlert.None? && currentRecordingNote.None?
      ensures currentDuration == 0.0 && !hasDurationTimer
    {
      this.recorder := recorder;
      this.settings := settings;
      this.documents := recorder.documents;
      recordingState := Idle;
      animate := false;
      isRecordingSheetPresented := false;
      activeRecordingAlert := None;
      currentRecordingNote := None;
      currentDuration := 0.0;
      hasDurationTimer := false;
    }

    function IsRecording(): (r: bool)
      reads this
      ensures r <==> recordingState.Recording?
    {
      recordingState == Recording
    }

    /** `startRecordingFlow`: `permission` is the current microphone
        permission and `granted` the answer to the request made when it is
        undetermined; the remaining arguments are the recorder's answers. */
    method StartRecordingFlow(permission: MicrophonePermission, granted: bool,
                              sessionOk: bool, seconds: int, created: bool, started: bool)
      requires Valid()
      modifies this, recorder, settings
      ensures Valid()
      ensures permission == Denied || (permission == Undetermined && !granted) ==>
        State() == old(State()).(activeRecordingAlert := Some(PermissionDenied))
        && unchanged(recorder) && unchanged(settings) && currentRecordingNote == old(currentRecordingNote)
      ensures permission == Granted || (permission == Undetermined && granted) ==>
        && settings.selectedModeId == AutoSelect(old(settings.modes), old(settings.selectedModeId))
        && settings.modes == old(settings.modes) && settings.apiKeys == old(settings.apiKeys)
        && (if sessionOk && created && started then State() == Started(old(State()))
            else State() == StartFailed(old(State())))
    {
      match permission
      case Granted =>
        ProceedToStartRecording(sessionOk, seconds, created, started);
      case Denied =>
        activeRecordingAlert := Some(PermissionDenied);
      case Undetermined =>
        if granted {
          ProceedToStartRecording(sessionOk, seconds, created, started);
        } else {
          activeRecordingAlert := Some(PermissionDenied);
        }
    }

    /** `proceedToStartRecording`: the state turns to recording before the
        recorder is asked; a failure turns it back with a generic alert. */
    method ProceedToStartRecording(sessionOk: bool, seconds: int, created: bool, started: bool)
      requires Valid()
      modifies this, recorder, settings
      ensures Valid()
      ensures settings.selectedModeId == AutoSelect(old(settings.modes), old(settings.selectedModeId))
      ensures settings.modes == old(settings.modes) && settings.apiKeys == old(settings.apiKeys)
      ensures settings.keyVerified == old(settings.keyVerified)
      ensures currentRecordingNote == old(currentRecordingNote)
      ensures sessionOk && created && started ==> State() == Started(old(State())) && recorder.isRecording
      ensures !(sessionOk && created && started) ==>
        && State() == StartFailed(old(State()))
        && recorder.isRecording == old(recorder.isRecording)
        && recorder.currentRecordingURL == old(recorder.currentRecordingURL)
    {
      recordingState := Recording;
      animate := true;
      SelectFirstModeIfNone(settings);
      var failed := recorder.StartRecording(sessionOk, seconds, created, started);
      if failed {
        activeRecordingAlert := Some(Generic);
        recordingState := Idle;
        animate := false;
      } else {
        StartDurationTimer();
        isRecordingSheetPresented := true;
      }
    }

    /** `startDurationTimer`: the count restarts at zero. */
    method StartDurationTimer()
      modifies this
      ensures State() == old(State()).(currentDuration := 0.0, hasDurationTimer := true)
      ensures currentRecordingNote == old(currentRecordingNote)
    {
      currentDuration := 0.0;
      hasDurationTimer := true;
    }

    /** One firing of the 0.1 s duration timer. */
    method DurationTick()
      requires hasDurationTimer
      modifies this
      ensures State() == old(State()).(currentDuration := old(currentDuration) + 0.1)
      ensures currentRecordingNote == old(currentRecordingNote)
    {
      currentDuration := currentDuration + 0.1;
    }

    /** `stopRecording(modelContext:)`: without a recording URL nothing is
        inserted and the screen keeps its state; otherwise a pending record
        with empty text, the file's name and the counted duration is
        inserted, the screen is reset, and the returned job is what the
        background transcription then runs. `id` and `now` stand for
        `UUID()` and `Date()`. */
    method StopRecording(store: NoteStore, id: nat, now: real) returns (job: Option<Job>)
      requires Valid()
      modifies this, recorder, store
      ensures Valid()
      ensures !recorder.isRecording && recorder.levelsHistory == []
      ensures recorder.currentRecordingURL == old(recorder.currentRecordingURL)
      ensures recorder.currentDuration == old(recorder.currentDuration)
      ensures job.None? <==> old(recorder.currentRecordingURL).None?
      ensures job.None? ==>
        store.notes == old(store.notes) && currentRecordingNote == old(currentRecordingNote)
        && State() == old(State()).(hasDurationTimer := false)
      ensures job.Some? ==>
        var note := job.value.note;
        && fresh(note)
        && store.notes == old(store.notes) + [note]
        && job.value.audioFileName == LastPathComponent(old(recorder.currentRecordingURL).value)
        && IsPendingNote(note, id, now, job.value.audioFileName, old(currentDuration))
        && currentRecordingNote == Some(note)
        && State() == Stopped(old(State()))
    {
      recorder.StopRecording();
      StopDurationTimer();
      if recorder.currentRecordingURL.None? {
        return None;
      }
      var fileURL := recorder.currentRecordingURL.value;
      var audioFileName := LastPathComponent(fileURL);
      var recordingDuration := currentDuration;
      var note := InsertPendingNote(store, id, now, audioFileName, recordingDuration);
      recordingState := Idle;
      animate := false;
      currentRecordingNote := Some(note);
      isRecordingSheetPresented := false;
      job := Some(Job(note, audioFileName));
    }

    method StopDurationTimer()
      modifies this
      ensures State() == old(State()).(hasDurationTimer := false)
      ensures currentRecordingNote == old(currentRecordingNote)
    {
      hasDurationTimer := false;
    }

    /** `cancelRecording`: the recording is discarded and no record is made. */
    method CancelRecording() returns (removedPath: Option<string>)
      requires Valid()
      modifies this, recorder
      ensures Valid()
      ensures State() == Cancelled(old(State()))
      ensures currentRecordingNote == old(currentRecordingNote)
      ensures removedPath == old(recorder.currentRecordingURL)
      ensures !recorder.isRecording && recorder.currentRecordingURL.None? && recorder.currentDuration == 0.0
    {
      removedPath := recorder.Discard();
      StopDurationTimer();
      recordingState := Idle;
      animate := false;
      isRecordingSheetPresented := false;
      currentDuration := 0.0;
    }
  }
}
