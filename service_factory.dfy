// VoiceInk-ios/TranscriptionServiceFactory.swift: which client transcribes
// for which provider.
module ServiceFactory {
  import opened Providers

  /** The three transcription clients. */
  datatype ServiceKind = MultipartService | QueryParameterService | OnDeviceService

  /** `service(for:)`; the switch covers the six enum cases, so the VoiceInk
      back end has no service. */
  function ServiceFor(p: Provider): (s: ServiceKind)
    requires p != VoiceInk
    ensures s == QueryParameterService <==> p == Deepgram
    ensures s == OnDeviceService <==> p == Local
    ensures s == MultipartService <==> p in {Groq, OpenAI, Cerebras, Gemini}
  {
    match p
    case Deepgram => QueryParameterService
    case Groq => MultipartService
    case OpenAI => MultipartService
    case Cerebras => MultipartService
    case Gemini => MultipartService
    case Local => OnDeviceService
  }

  /** Every hosted back end goes over the network. */
  lemma CloudProvidersUseNetwork(p: Provider)
    requires IsCloud(p)
    ensures ServiceFor(p) != OnDeviceService
  {
  }
}
