// VoiceInk-ios/Provider.swift: the closed set of back ends, their base
// endpoints and the model identifiers each offers per capability.
module Providers {
  import opened Base

  /** Seven cases: the six of the enum plus `voiceink`, which the settings,
      the mode editor and the key list all use. */
  datatype Provider = Groq | OpenAI | Deepgram | Cerebras | Gemini | Local | VoiceInk

  datatype ModelType = Transcription | PostProcessing

  /** `Provider.allCases`, in declaration order. */
  const AllCases: seq<Provider> := [Groq, OpenAI, Deepgram, Cerebras, Gemini, Local, VoiceInk]

  /** Position in `AllCases`; the order every filtered provider list keeps. */
  function Index(p: Provider): (i: nat)
    ensures i < |AllCases| && AllCases[i] == p
  {
    match p
    case Groq => 0
    case OpenAI => 1
    case Deepgram => 2
    case Cerebras => 3
    case Gemini => 4
    case Local => 5
    case VoiceInk => 6
  }

  /** The five hosted back ends that need a user-supplied API key. */
  predicate IsCloud(p: Provider) {
    p != Local && p != VoiceInk
  }

  const CloudProviders: set<Provider> := {Groq, OpenAI, Deepgram, Cerebras, Gemini}

  lemma CloudProvidersAreCloud(p: Provider)
    ensures p in CloudProviders <==> IsCloud(p)
  {
  }

  function RawValue(p: Provider): string {
    match p
    case Groq => "Groq"
    case OpenAI => "OpenAI"
    case Deepgram => "Deepgram"
    case Cerebras => "Cerebras"
    case Gemini => "Gemini"
    case Local => "Local (Whisper)"
    case VoiceInk => "VoiceInk"
  }

  /** `Identifiable.id`: the id names its provider and no other. */
  function Id(p: Provider): (id: string)
    ensures FromRawValue(id) == Some(p)
  {
    RawValue(p)
  }

  /** Raw values identify providers: decoding a raw value gives the provider back. */
  function FromRawValue(s: string): (r: Option<Provider>)
    ensures r.Some? ==> RawValue(r.value) == s
  {
    if s == "Groq" then Some(Groq)
    else if s == "OpenAI" then Some(OpenAI)
    else if s == "Deepgram" then Some(Deepgram)
    else if s == "Cerebras" then Some(Cerebras)
    else if s == "Gemini" then Some(Gemini)
    else if s == "Local (Whisper)" then Some(Local)
    else if s == "VoiceInk" then Some(VoiceInk)
    else None
  }

  lemma RawValueRoundTrip(p: Provider)
    ensures FromRawValue(RawValue(p)) == Some(p)
    ensures Id(p) == RawValue(p)
  {
  }

  /** Distinct providers have distinct raw values (and hence distinct ids). */
  lemma RawValuesDistinct(p: Provider, q: Provider)
    ensures p != q ==> RawValue(p) != RawValue(q)
  {
    RawValueRoundTrip(p);
    RawValueRoundTrip(q);
  }

  /** The fixed endpoint of each back end; the VoiceInk back end has none. */
  function BaseURL(p: Provider): (url: string)
    requires p != VoiceInk
    ensures p == Local <==> url == "http://localhost"
  {
    match p
    case Groq => "https://api.groq.com/openai"
    case OpenAI => "https://api.openai.com"
    case Deepgram => "https://api.deepgram.com"
    case Cerebras => "https://api.cerebras.ai"
    case Gemini => "https://generativelanguage.googleapis.com/v1beta/openai"
    case Local => "http://localhost"
  }

  function Models(p: Provider, t: ModelType): seq<string> {
    match (p, t)
    case (Groq, Transcription) => ["whisper-large-v3", "whisper-large-v3-turbo", "whisper-medium", "whisper-small"]
    case (Groq, PostProcessing) => ["llama-3.1-8b-instant", "llama-3.1-70b-versatile"]
    case (OpenAI, Transcription) => ["whisper-1", "gpt-4o-transcribe", "gpt-4o-mini-transcribe"]
    case (OpenAI, PostProcessing) => ["gpt-4o-mini", "gpt-3.5-turbo"]
    case (Deepgram, Transcription) => ["nova-2", "nova-3"]
    case (Deepgram, PostProcessing) => []
    case (Cerebras, Transcription) => []
    case (Cerebras, PostProcessing) => ["llama3.1-8b", "llama3.1-70b"]
    case (Gemini, Transcription) => []
    case (Gemini, PostProcessing) => ["gemini-2.0-flash", "gemini-2.5-flash", "gemini-1.5-flash", "gemini-1.5-pro"]
    case (Local, Transcription) => ["base"]
    case (Local, PostProcessing) => []
    case (VoiceInk, _) => []
  }

  /** No model identifier is offered for both capabilities by one provider. */
  lemma ModelListsDisjoint(p: Provider, m: string)
    ensures !(m in Models(p, Transcription) && m in Models(p, PostProcessing))
  {
  }

  /** Which capabilities each back end lacks, and the lists the defaults rely on. */
  lemma CapabilityGaps()
    ensures Models(Deepgram, PostProcessing) == [] && Models(Local, PostProcessing) == []
    ensures Models(Cerebras, Transcription) == [] && Models(Gemini, Transcription) == []
    ensures Models(Local, Transcription) == ["base"]
    ensures Models(Groq, Transcription)[0] == "whisper-large-v3"
    ensures Models(Groq, PostProcessing)[0] == "llama-3.1-8b-instant"
  {
  }
}
