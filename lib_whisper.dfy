// VoiceInk-ios/LibWhisper.swift: the wrapper around one whisper.cpp context.
// The native library is an oracle: a loaded context is an opaque handle, the
// full run answers a status code, and the segments are read back as texts.
module Whisper {
  import opened Base

  /** An opaque native `whisper_context *`. */
  type Handle = nat

  datatype WhisperError = CouldNotInitializeContext

  function Max(a: int, b: int): int { if a < b then b else a }
  function Min(a: int, b: int): int { if a < b then a else b }

  /** `max(1, min(8, cpuCount() - 2))`. */
  function ThreadCount(cpu: int): (n: int)
    ensures 1 <= n <= 8
    ensures 3 <= cpu <= 10 ==> n == cpu - 2
    ensures cpu <= 3 ==> n == 1
    ensures cpu >= 10 ==> n == 8
  {
    Max(1, Min(8, cpu - 2))
  }

  /** The parameters of a full run that the wrapper sets (the floating-point
      voice-activity tuning values are not modelled). */
  datatype FullParams = FullParams(
    language: string,
    nThreads: int,
    translate: bool,
    offsetMs: int,
    noContext: bool,
    singleSegment: bool,
    temperature: real,
    vad: bool,
    vadModelPath: Option<string>)

  /** Greedy decoding in automatic language, with voice-activity detection
      exactly when a detector model is known. */
  function ParamsFor(cpu: int, vadModelPath: Option<string>): (p: FullParams)
    ensures p.vad <==> vadModelPath.Some?
    ensures p.vadModelPath == vadModelPath
    ensures p.language == "auto" && !p.translate && p.noContext && !p.singleSegment
    ensures 1 <= p.nThreads <= 8 && p.temperature == 0.2 && p.offsetMs == 0
  {
    FullParams("auto", ThreadCount(cpu), false, 0, true, false, 0.2, vadModelPath.Some?, vadModelPath)
  }

  /** The concatenation of the segment texts in index order; a segment with no
      text contributes nothing. */
  function Concat(segments: seq<Option<string>>): string {
    if segments == [] then ""
    else
      var last := segments[|segments| - 1];
      Concat(segments[..|segments| - 1]) + (if last.Some? then last.value else "")
  }

  /** Concatenation distributes over appending segment lists. */
  lemma {:induction false} ConcatAppend(a: seq<Option<string>>, b: seq<Option<string>>)
    ensures Concat(a + b) == Concat(a) + Concat(b)
    decreases |b|
  {
    if b == [] {
      assert a + b == a;
    } else {
      var n := |b| - 1;
      assert (a + b)[..|a + b| - 1] == a + b[..n];
      ConcatAppend(a, b[..n]);
    }
  }

  /** Every segment's text is part of the transcript, in place: the text of
      segment i follows the texts of the segments before it. */
  lemma SegmentTextInPlace(segments: seq<Option<string>>, i: nat)
    requires i < |segments| && segments[i].Some?
    ensures Concat(segments) == Concat(segments[..i]) + segments[i].value + Concat(segments[i + 1..])
  {
    var pre := segments[..i];
    var one := [segments[i]];
    var post := segments[i + 1..];
    assert segments == pre + (one + post);
    ConcatAppend(pre, one + post);
    ConcatAppend(one, post);
    assert one[..0] == [];
    assert Concat(one) == segments[i].value;
    AppendAssoc(Concat(pre), segments[i].value, Concat(post));
  }

  /** The actor: the native context (absent once released) and the detector
      model path. `freed` records the handles passed to `whisper_free`. */
  class WhisperContext {
    var context: Option<Handle>
    var vadModelPath: Option<string>
    ghost var freed: seq<Handle>
    ghost var live: bool

    /** No handle is freed twice, and a live context does not hold a freed one. */
    ghost predicate Valid()
      reads this
    {
      && (forall i, j :: 0 <= i < j < |freed| ==> freed[i] != freed[j])
      && (live && context.Some? ==> context.value !in freed)
    }

    /** The private `init()`: no context yet. */
    constructor Empty()
      ensures context.None? && vadModelPath.None? && freed == [] && live && Valid()
    {
      context := None;
      vadModelPath := None;
      freed := [];
      live := true;
    }

    /** `init(context:)`. */
    constructor (h: Handle)
      ensures context == Some(h) && vadModelPath.None? && freed == [] && live && Valid()
    {
      context := Some(h);
      vadModelPath := None;
      freed := [];
      live := true;
    }

    /** `fullTranscribe`: false without a context, otherwise success exactly
        when the native run answers 0. */
    method FullTranscribe(samples: seq<real>, cpu: int,
                          native: (Handle, FullParams, seq<real>) -> int) returns (success: bool)
      requires live
      ensures context.None? ==> !success
      ensures context.Some? ==> (success <==> native(context.value, ParamsFor(cpu, vadModelPath), samples) == 0)
    {
      if context.None? {
        return false;
      }
      var params := ParamsFor(cpu, vadModelPath);
      success := true;
      if native(context.value, params, samples) != 0 {
        success := false;
      }
    }

    /** `getTranscription`: the trimmed concatenation of the segment texts,
        or "" without a context. */
    method GetTranscription(segmentsOf: Handle -> seq<Option<string>>) returns (t: string)
      requires live
      ensures context.None? ==> t == ""
      ensures context.Some? ==> t == Trim(Concat(segmentsOf(context.value)))
    {
      if context.None? {
        return "";
      }
      var segments := segmentsOf(context.value);
      var transcription := "";
      var i := 0;
      while i < |segments|
        invariant 0 <= i <= |segments|
        invariant transcription == Concat(segments[..i])
      {
        assert segments[..i + 1][..i] == segments[..i];
        if segments[i].Some? {
          transcription := transcription + segments[i].value;
        }
        i := i + 1;
      }
      assert segments[..|segments|] == segments;
      t := Trim(transcription);
    }

    /** `initializeModel`: `loaded` is what the native loader answered for
        `path`; a null answer throws and leaves the context as it was. */
    method InitializeModel(path: string, loaded: Option<Handle>) returns (error: Option<WhisperError>)
      requires Valid() && live
      requires loaded.Some? ==> loaded.value !in freed
      modifies this
      ensures loaded.None? ==> error == Some(CouldNotInitializeContext) && context == old(context)
      ensures loaded.Some? ==> error.None? && context == loaded
      ensures vadModelPath == old(vadModelPath) && freed == old(freed) && live && Valid()
    {
      if loaded.Some? {
        context := loaded;
        error := None;
      } else {
        error := Some(CouldNotInitializeContext);
      }
    }

    method SetVADModelPath(path: Option<string>)
      requires live
      modifies this
      ensures vadModelPath == path
      ensures context == old(context) && freed == old(freed) && live
    {
      vadModelPath := path;
    }

    /** `releaseResources`: frees the context if there is one and forgets it;
        a second call frees nothing. */
    method ReleaseResources()
      requires Valid() && live
      modifies this
      ensures context.None? && vadModelPath == old(vadModelPath) && live && Valid()
      ensures freed == old(freed) + (if old(context).Some? then [old(context).value] else [])
    {
      if context.Some? {
        freed := freed + [context.value];
        context := None;
      }
    }

    /** `deinit`: frees a context still held; the object is dead afterwards. */
    method Deinit()
      requires Valid() && live
      modifies this
      ensures !live && Valid() && context == old(context)
      ensures freed == old(freed) + (if old(context).Some? then [old(context).value] else [])
    {
      if context.Some? {
        freed := freed + [context.value];
      }
      live := false;
    }
  }

  /** `createContext`: load the model, then set the detector model path. On a
      load failure the fresh object dies holding nothing, so nothing is freed. */
  method CreateContext(path: string, loaded: Option<Handle>, vadModelPath: Option<string>)
    returns (r: Result<WhisperContext, WhisperError>)
    ensures r.Err? <==> loaded.None?
    ensures r.Err? ==> r.error == CouldNotInitializeContext
    ensures r.Ok? ==> fresh(r.value) && r.value.context == loaded && r.value.vadModelPath == vadModelPath
                      && r.value.freed == [] && r.value.live && r.value.Valid()
  {
    var whisperContext := new WhisperContext.Empty();
    var error := whisperContext.InitializeModel(path, loaded);
    if error.Some? {
      whisperContext.Deinit();
      return Err(error.value);
    }
    whisperContext.SetVADModelPath(vadModelPath);
    r := Ok(whisperContext);
  }
}
