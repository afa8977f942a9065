// VoiceInk-ios/LLMPostProcessor.swift: rewriting a transcript with a chat
// completion, following the mode's prompt.
module PostProcessor {
  import opened Base
  import opened Http
  import opened Providers

  const SystemPrompt: string := "You are a helpful assistant that rewrites raw speech-to-text transcripts to be concise, well-punctuated, and readable notes, preserving meaning."

  /** The user message: the prompt as given (untrimmed), then the transcript. */
  function UserContent(prompt: string, transcript: string): string {
    "Prompt: " + prompt + "\n\nTranscript:\n" + transcript
  }

  /** The payload: exactly a system and a user message, at temperature 0.2. */
  function ChatPayload(model: string, prompt: string, transcript: string): (c: ChatRequest)
    ensures c.model == model && c.temperature == Some(0.2)
    ensures c.messages == [ChatMessage("system", SystemPrompt), ChatMessage("user", UserContent(prompt, transcript))]
  {
    ChatRequest(model, [ChatMessage("system", SystemPrompt), ChatMessage("user", UserContent(prompt, transcript))], Some(0.2))
  }

  /** The POST to `<base>/v1/chat/completions` with a JSON body. */
  function CompletionRequest(baseURL: string, apiKey: string, payload: ChatRequest): (req: HttpRequest)
    ensures req.verb == Post && req.url == baseURL + "/v1/chat/completions"
    ensures req.headers == [Header("Content-Type", "application/json"), Bearer(apiKey)]
    ensures req.body == ChatJson(payload)
  {
    HttpRequest(Post, baseURL + "/v1/chat/completions", [],
                [Header("Content-Type", "application/json"), Bearer(apiKey)], ChatJson(payload))
  }

  /** The reply to a completion: anything but a 2xx HTTP reply is an invalid
      response; the first choice's content wins, and with no choices the
      transcript comes back as it was. */
  function SelectRewrite(reply: HttpReply, transcript: string,
                         decode: seq<Byte> -> Option<ChatResponse>): (r: Result<string, ServiceError>)
    ensures reply.TransportError? ==> r == Err(Transport(reply.message))
    ensures reply.NonHttpResponse? || (reply.Response? && !IsSuccessStatus(reply.status)) ==>
      r == Err(InvalidResponse)
    ensures r.Ok? <==> reply.Response? && IsSuccessStatus(reply.status) && decode(reply.body).Some?
    ensures r.Ok? && decode(reply.body).value.choices == [] ==> r.value == transcript
    ensures r.Ok? && decode(reply.body).value.choices != [] ==>
      r.value == decode(reply.body).value.choices[0].content
  {
    match reply
    case TransportError(m) => Err(Transport(m))
    case NonHttpResponse => Err(InvalidResponse)
    case Response(code, data) =>
      if !IsSuccessStatus(code) then Err(InvalidResponse)
      else
        match decode(data)
        case None => Err(DecodeFailure)
        case Some(response) =>
          if response.choices == [] then Ok(transcript) else Ok(response.choices[0].content)
  }

  /** `postProcessTranscript`. A blank prompt returns the transcript without
      building a request. */
  function PostProcessTranscript(exchange: Exchange, provider: Provider, apiKey: string, model: string,
                                 prompt: string, transcript: string,
                                 decode: seq<Byte> -> Option<ChatResponse>): (r: Result<string, ServiceError>)
    requires provider != VoiceInk
    ensures IsBlank(prompt) ==> r == Ok(transcript)
    ensures !IsBlank(prompt) ==>
      r == SelectRewrite(exchange(CompletionRequest(BaseURL(provider), apiKey, ChatPayload(model, prompt, transcript))),
                         transcript, decode)
  {
    if IsBlank(prompt) then Ok(transcript)
    else
      var req := CompletionRequest(BaseURL(provider), apiKey, ChatPayload(model, prompt, transcript));
      SelectRewrite(exchange(req), transcript, decode)
  }

  /** With a blank prompt the network plays no part: any two exchanges give
      the same answer. */
  lemma BlankPromptSendsNothing(e1: Exchange, e2: Exchange, provider: Provider, apiKey: string,
                                model: string, prompt: string, transcript: string,
                                decode: seq<Byte> -> Option<ChatResponse>)
    requires provider != VoiceInk && AllWhitespace(prompt)
    ensures PostProcessTranscript(e1, provider, apiKey, model, prompt, transcript, decode)
         == PostProcessTranscript(e2, provider, apiKey, model, prompt, transcript, decode)
         == Ok(transcript)
  {
    BlankIffAllWhitespace(prompt);
  }
}
