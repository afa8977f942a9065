// VoiceInk-ios/Mode.swift: a named bundle of transcription and
// post-processing settings.
module Modes {
  import opened Base
  import opened Providers

  /** `UUID()` is modelled as an identifier the caller supplies. */
  type ModeId = nat

  datatype Mode = Mode(
    id: ModeId,
    name: string,
    transcriptionProvider: Provider,
    transcriptionModel: string,
    isPostProcessingEnabled: bool,
    postProcessingProvider: Provider,
    postProcessingModel: string,
    customPrompt: string)

  /** The model a provider offers first for a capability, or `fallback`
      when it offers none (`models(for:).first ?? fallback`). */
  function FirstModelOr(p: Provider, t: ModelType, fallback: string): (m: string)
    ensures Models(p, t) != [] ==> m == Models(p, t)[0]
    ensures Models(p, t) == [] ==> m == fallback
  {
    if Models(p, t) == [] then fallback else Models(p, t)[0]
  }

  /** `Mode.init`: an omitted model name falls back to the provider's first
      model, and failing that to the Groq default. */
  function NewMode(id: ModeId, name: string,
                   transcriptionProvider: Provider, transcriptionModel: Option<string>,
                   isPostProcessingEnabled: bool,
                   postProcessingProvider: Provider, postProcessingModel: Option<string>,
                   customPrompt: string): (m: Mode)
    ensures m.id == id && m.name == name && m.customPrompt == customPrompt
    ensures m.transcriptionProvider == transcriptionProvider
    ensures m.postProcessingProvider == postProcessingProvider
    ensures m.isPostProcessingEnabled == isPostProcessingEnabled
    ensures transcriptionModel.Some? ==> m.transcriptionModel == transcriptionModel.value
    ensures transcriptionModel.None? ==>
      m.transcriptionModel == FirstModelOr(transcriptionProvider, Transcription, "whisper-large-v3")
    ensures postProcessingModel.Some? ==> m.postProcessingModel == postProcessingModel.value
    ensures postProcessingModel.None? ==>
      m.postProcessingModel == FirstModelOr(postProcessingProvider, PostProcessing, "llama-3.1-8b-instant")
  {
    Mode(id, name, transcriptionProvider,
         transcriptionModel.GetOr(FirstModelOr(transcriptionProvider, Transcription, "whisper-large-v3")),
         isPostProcessingEnabled, postProcessingProvider,
         postProcessingModel.GetOr(FirstModelOr(postProcessingProvider, PostProcessing, "llama-3.1-8b-instant")),
         customPrompt)
  }

  /** With every default taken, a new mode transcribes with Groq's first
      model and would post-process with Groq's first chat model, disabled,
      with an empty prompt. */
  lemma NewModeDefaults(id: ModeId, name: string)
    ensures var m := NewMode(id, name, Groq, None, false, Groq, None, "");
      m.transcriptionModel == "whisper-large-v3" && m.postProcessingModel == "llama-3.1-8b-instant"
      && m.transcriptionModel in Models(Groq, Transcription)
      && m.postProcessingModel in Models(Groq, PostProcessing)
      && !m.isPostProcessingEnabled && m.customPrompt == ""
  {
  }

  /** When the provider offers models and none is named, the chosen model is
      one the provider offers. */
  lemma DefaultModelIsOffered(p: Provider, t: ModelType, fallback: string)
    requires Models(p, t) != []
    ensures FirstModelOr(p, t, fallback) in Models(p, t)
  {
  }
}
