// VoiceInk-ios/AppGroupCoordinator.swift: the flags the keyboard extension
// and the app exchange through the shared app-group defaults. The clock is
// the `now` argument, in seconds since 1970.
module AppGroup {
  const ShouldStartRecording: string := "shouldStartRecording"
  const ShouldStopRecording: string := "shouldStopRecording"
  const IsRecordingKey: string := "isRecording"
  const LastRecordingTimestamp: string := "lastRecordingTimestamp"

  /** A stored defaults value. */
  datatype StoreValue = BoolValue(b: bool) | DoubleValue(d: real)

  type Store = map<string, StoreValue>

  /** `bool(forKey:)`: false when missing; a number reads as true when non-zero. */
  function BoolFor(s: Store, key: string): bool {
    if key !in s then false
    else match s[key]
      case BoolValue(b) => b
      case DoubleValue(d) => d != 0.0
  }

  /** `double(forKey:)`: 0 when missing; a boolean reads as 1 or 0. */
  function DoubleFor(s: Store, key: string): real {
    if key !in s then 0.0
    else match s[key]
      case BoolValue(b) => if b then 1.0 else 0.0
      case DoubleValue(d) => d
  }

  /** A request from the keyboard: raise its flag and stamp the time. */
  function Request(s: Store, flag: string, now: real): (r: Store)
    requires flag == ShouldStartRecording || flag == ShouldStopRecording
    ensures BoolFor(r, flag) && DoubleFor(r, LastRecordingTimestamp) == now
    ensures forall k :: k != flag && k != LastRecordingTimestamp ==> BoolFor(r, k) == BoolFor(s, k)
  {
    s[flag := BoolValue(true)][LastRecordingTimestamp := DoubleValue(now)]
  }

  /** Check and consume a flag: whether it was raised, and the store with it
      lowered; nothing else changes. */
  function Consume(s: Store, flag: string): (r: (bool, Store))
    ensures r.0 <==> BoolFor(s, flag)
    ensures !BoolFor(r.1, flag)
    ensures forall k :: k != flag ==> BoolFor(r.1, k) == BoolFor(s, k) && DoubleFor(r.1, k) == DoubleFor(s, k)
  {
    if BoolFor(s, flag) then (true, s[flag := BoolValue(false)]) else (false, s)
  }

  /** `updateRecordingState`: the state and the time it was set. */
  function Update(s: Store, recording: bool, now: real): (r: Store)
    ensures BoolFor(r, IsRecordingKey) == recording && DoubleFor(r, LastRecordingTimestamp) == now
    ensures BoolFor(r, ShouldStartRecording) == BoolFor(s, ShouldStartRecording)
    ensures BoolFor(r, ShouldStopRecording) == BoolFor(s, ShouldStopRecording)
  {
    s[IsRecordingKey := BoolValue(recording)][LastRecordingTimestamp := DoubleValue(now)]
  }

  /** A recording state older than 30 seconds, strictly, is stale. */
  predicate IsStale(s: Store, now: real) {
    BoolFor(s, IsRecordingKey) && now - DoubleFor(s, LastRecordingTimestamp) > 30.0
  }

  /** The `isRecording` read: a stale true reads as false and is cleared. */
  function ReadRecording(s: Store, now: real): (r: (bool, Store))
    ensures r.0 ==> BoolFor(s, IsRecordingKey) && !IsStale(s, now) && r.1 == s
    ensures IsStale(s, now) ==> !r.0 && r.1 == Update(s, false, now)
    ensures !IsStale(s, now) ==> r == (BoolFor(s, IsRecordingKey), s)
  {
    if IsStale(s, now) then (false, Update(s, false, now)) else (BoolFor(s, IsRecordingKey), s)
  }

  /** `clearAllSharedData`: the four keys removed. */
  function Cleared(s: Store): (r: Store)
    ensures ShouldStartRecording !in r && ShouldStopRecording !in r
    ensures IsRecordingKey !in r && LastRecordingTimestamp !in r
    ensures forall k :: (k in s && k != ShouldStartRecording && k != ShouldStopRecording
                         && k != IsRecordingKey && k != LastRecordingTimestamp) ==> k in r && r[k] == s[k]
  {
    s - {ShouldStartRecording, ShouldStopRecording, IsRecordingKey, LastRecordingTimestamp}
  }

  /** A request is consumed once: the first check answers true, an immediate
      second one false. */
  lemma ConsumeOnce(s: Store, flag: string, now: real)
    requires flag == ShouldStartRecording || flag == ShouldStopRecording
    ensures var first := Consume(Request(s, flag, now), flag);
      first.0 && !Consume(first.1, flag).0
  {
  }

  /** A start request leaves a pending stop request as it was, and the other
      way round. */
  lemma RequestsIndependent(s: Store, now: real)
    ensures BoolFor(Request(s, ShouldStartRecording, now), ShouldStopRecording) == BoolFor(s, ShouldStopRecording)
    ensures BoolFor(Request(s, ShouldStopRecording, now), ShouldStartRecording) == BoolFor(s, ShouldStartRecording)
  {
  }

  /** The state just written reads back unchanged. */
  lemma UpdateReadsBack(s: Store, recording: bool, now: real)
    ensures ReadRecording(Update(s, recording, now), now) == (recording, Update(s, recording, now))
  {
  }

  /** Exactly 30 seconds is not yet stale; anything later is, and reads as
      false. */
  lemma StalenessBoundary(s: Store, setAt: real)
    requires BoolFor(s, IsRecordingKey) && DoubleFor(s, LastRecordingTimestamp) == setAt
    ensures ReadRecording(s, setAt + 30.0).0
    ensures forall now :: now > setAt + 30.0 ==> !ReadRecording(s, now).0
  {
  }

  /** After clearing, nothing reads as raised. */
  lemma ClearedReadsFalse(s: Store, now: real)
    ensures !BoolFor(Cleared(s), ShouldStartRecording) && !BoolFor(Cleared(s), ShouldStopRecording)
    ensures ReadRecording(Cleared(s), now) == (false, Cleared(s))
  {
  }

  /** The coordinator over its shared defaults, which may be missing
      (`hasStore` false), in which case every write is lost and every check
      answers false. */
  class AppGroupCoordinator {
    const hasStore: bool
    var defaults: Store

    constructor(hasStore: bool)
      ensures this.hasStore == hasStore && defaults == map[]
    {
      this.hasStore := hasStore;
      defaults := map[];
    }

    method RequestStartRecording(now: real)
      modifies this
      ensures defaults == if hasStore then Request(old(defaults), ShouldStartRecording, now) else old(defaults)
    {
      if hasStore {
        defaults := defaults[ShouldStartRecording := BoolValue(true)];
        defaults := defaults[LastRecordingTimestamp := DoubleValue(now)];
      }
    }

    method RequestStopRecording(now: real)
      modifies this
      ensures defaults == if hasStore then Request(old(defaults), ShouldStopRecording, now) else old(defaults)
    {
      if hasStore {
        defaults := defaults[ShouldStopRecording := BoolValue(true)];
        defaults := defaults[LastRecordingTimestamp := DoubleValue(now)];
      }
    }

    /** The `isRecording` property, which clears a stale state as it reads. */
    method IsRecording(now: real) returns (recording: bool)
      modifies this
      ensures !hasStore ==> !recording && defaults == old(defaults)
      ensures hasStore ==> (recording, defaults) == ReadRecording(old(defaults), now)
    {
      var storedState := if hasStore then BoolFor(defaults, IsRecordingKey) else false;
      var timestamp := if hasStore then DoubleFor(defaults, LastRecordingTimestamp) else 0.0;
      if storedState && now - timestamp > 30.0 {
        UpdateRecordingState(false, now);
        return false;
      }
      recording := storedState;
    }

    method UpdateRecordingState(recording: bool, now: real)
      modifies this
      ensures defaults == if hasStore then Update(old(defaults), recording, now) else old(defaults)
    {
      if hasStore {
        defaults := defaults[IsRecordingKey := BoolValue(recording)];
        defaults := defaults[LastRecordingTimestamp := DoubleValue(now)];
      }
    }

    method CheckAndConsumeStartRecordingFlag() returns (shouldStart: bool)
      modifies this
      ensures !hasStore ==> !shouldStart && defaults == old(defaults)
      ensures hasStore ==> (shouldStart, defaults) == Consume(old(defaults), ShouldStartRecording)
    {
      if !hasStore {
        return false;
      }
      shouldStart := BoolFor(defaults, ShouldStartRecording);
      if shouldStart {
        defaults := defaults[ShouldStartRecording := BoolValue(false)];
      }
    }

    method CheckAndConsumeStopRecordingFlag() returns (shouldStop: bool)
      modifies this
      ensures !hasStore ==> !shouldStop && defaults == old(defaults)
      ensures hasStore ==> (shouldStop, defaults) == Consume(old(defaults), ShouldStopRecording)
    {
      if !hasStore {
        return false;
      }
      shouldStop := BoolFor(defaults, ShouldStopRecording);
      if shouldStop {
        defaults := defaults[ShouldStopRecording := BoolValue(false)];
      }
    }

    method ClearAllSharedData()
      modifies this
      ensures defaults == if hasStore then Cleared(old(defaults)) else old(defaults)
    {
      if hasStore {
        defaults := defaults - {ShouldStartRecording};
        defaults := defaults - {ShouldStopRecording};
        defaults := defaults - {IsRecordingKey};
        defaults := defaults - {LastRecordingTimestamp};
      }
    }
  }
}
