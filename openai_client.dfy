// VoiceInk-ios/OpenAICompatibleClient.swift: the credential check and the
// plain chat completion of the OpenAI-compatible chat endpoint.
module OpenAIClient {
  import opened Base
  import opened Http
  import PostProcessor

  /** What a failed completion throws. */
  const InvalidResponseError: ServiceError := NSError("OAChat", 1, "Invalid response")

  /** `verifyAPIKey`: a bearer-authorised GET of `/v1/models` answered 2xx. */
  function VerifyAPIKey(exchange: Exchange, baseURL: string, apiKey: string): (ok: bool)
    ensures var reply := exchange(CredentialProbe(baseURL, "/v1/models", Bearer(apiKey)));
      ok <==> reply.Response? && IsSuccessStatus(reply.status)
  {
    ReplyAccepted(exchange(CredentialProbe(baseURL, "/v1/models", Bearer(apiKey))))
  }

  /** The request of a completion: the messages go out as given. */
  function ChatRequestFor(baseURL: string, apiKey: string, model: string,
                          messages: seq<ChatMessage>, temperature: Option<real>): (req: HttpRequest)
    ensures req.verb == Post && req.url == baseURL + "/v1/chat/completions"
    ensures req.body == ChatJson(ChatRequest(model, messages, temperature))
    ensures Bearer(apiKey) in req.headers
  {
    HttpRequest(Post, baseURL + "/v1/chat/completions", [],
                [Header("Content-Type", "application/json"), Bearer(apiKey)],
                ChatJson(ChatRequest(model, messages, temperature)))
  }

  /** `chatCompletion`: a non-2xx or non-HTTP reply fails with "Invalid
      response"; with no choices the answer is the empty string. The
      temperature defaults to 0.2. */
  function ChatCompletion(exchange: Exchange, baseURL: string, apiKey: string, model: string,
                          messages: seq<ChatMessage>, decode: seq<Byte> -> Option<ChatResponse>,
                          temperature: Option<real> := Some(0.2)): (r: Result<string, ServiceError>)
    ensures var reply := exchange(ChatRequestFor(baseURL, apiKey, model, messages, temperature));
      && (reply.TransportError? ==> r == Err(Transport(reply.message)))
      && (reply.NonHttpResponse? || (reply.Response? && !IsSuccessStatus(reply.status)) ==> r == Err(InvalidResponseError))
      && (r.Ok? <==> reply.Response? && IsSuccessStatus(reply.status) && decode(reply.body).Some?)
      && (r.Ok? && decode(reply.body).value.choices == [] ==> r.value == "")
      && (r.Ok? && decode(reply.body).value.choices != [] ==> r.value == decode(reply.body).value.choices[0].content)
  {
    match exchange(ChatRequestFor(baseURL, apiKey, model, messages, temperature))
    case TransportError(m) => Err(Transport(m))
    case NonHttpResponse => Err(InvalidResponseError)
    case Response(code, data) =>
      if !IsSuccessStatus(code) then Err(InvalidResponseError)
      else
        match decode(data)
        case None => Err(DecodeFailure)
        case Some(response) =>
          if response.choices == [] then Ok("") else Ok(response.choices[0].content)
  }

  /** On a 2xx reply with no choices the two chat callers differ: the
      post-processor keeps the transcript, the client answers "". */
  lemma NoChoicesDiffer(code: int, data: seq<Byte>, transcript: string,
                        decode: seq<Byte> -> Option<ChatResponse>)
    requires IsSuccessStatus(code) && decode(data) == Some(ChatResponse([]))
    ensures PostProcessor.SelectRewrite(Response(code, data), transcript, decode) == Ok(transcript)
    ensures ChatCompletion(_ => Response(code, data), "", "", "", [], decode) == Ok("")
  {
  }
}
