// VoiceInk-ios/DeepgramTranscriptionService.swift: the client that sends
// the raw audio as the request body and its options as query items.
module QueryParameterClient {
  import opened Base
  import opened Http

  /** The decoded `{results: {channels: [{alternatives: [{transcript}]}]}}`. */
  datatype Alternative = Alternative(transcript: string)
  datatype Channel = Channel(alternatives: seq<Alternative>)
  datatype DeepgramResponse = DeepgramResponse(channels: seq<Channel>)

  /** The fixed options every request carries, in order. */
  const FixedOptions: seq<QueryItem> :=
    [QueryItem("smart_format", "true"), QueryItem("punctuate", "true"), QueryItem("diarize", "false")]

  /** The query items a request carries. */
  function QueryItems(model: string, language: Option<string>): seq<QueryItem> {
    [QueryItem("model", model)] + FixedOptions
      + (if language.Some? then [QueryItem("language", language.value)] else [])
  }

  /** The model comes first, then the fixed options; the language is last
      and present only when given. */
  lemma QueryItemsLayout(model: string, language: Option<string>)
    ensures var items := QueryItems(model, language);
      |items| == (if language.Some? then 5 else 4)
      && items[0] == QueryItem("model", model)
      && items[1..4] == FixedOptions
      && (language.Some? ==> items[4] == QueryItem("language", language.value))
      && (forall i :: 0 <= i < |items| && items[i].name == "language" ==>
            language.Some? && i == |items| - 1)
  {
  }

  /** `var queryItems = [...]`, then the language appended when given. */
  method BuildQueryItems(model: string, language: Option<string>) returns (queryItems: seq<QueryItem>)
    ensures queryItems == QueryItems(model, language)
  {
    queryItems := [
      QueryItem("model", model),
      QueryItem("smart_format", "true"),
      QueryItem("punctuate", "true"),
      QueryItem("diarize", "false")
    ];
    if language.Some? {
      queryItems := queryItems + [QueryItem("language", language.value)];
    }
  }

  /** The POST to `<base>/v1/listen`: token authorisation, a WAV content
      type and the audio file as the whole body. */
  function ListenRequest(baseURL: string, apiKey: string, model: string, language: Option<string>,
                         audio: seq<Byte>): (req: HttpRequest)
    ensures req.verb == Post && req.url == baseURL + "/v1/listen"
    ensures req.query == QueryItems(model, language)
    ensures req.headers == [TokenAuth(apiKey), Header("Content-Type", "audio/wav")]
    ensures req.body == Bytes(audio)
  {
    HttpRequest(Post, baseURL + "/v1/listen", QueryItems(model, language),
                [TokenAuth(apiKey), Header("Content-Type", "audio/wav")], Bytes(audio))
  }

  /** `channels.first?.alternatives.first?.transcript ?? ""`. */
  function FirstTranscript(response: DeepgramResponse): (t: string)
    ensures response.channels == [] || response.channels[0].alternatives == [] ==> t == ""
    ensures response.channels != [] && response.channels[0].alternatives != [] ==>
      t == response.channels[0].alternatives[0].transcript
  {
    if response.channels == [] then ""
    else if response.channels[0].alternatives == [] then ""
    else response.channels[0].alternatives[0].transcript
  }

  /** How a reply becomes the transcript: a status outside 2xx fails with
      the code and the body text, and a 2xx body that does not decode fails
      too. */
  function SelectTranscript(reply: HttpReply, decode: seq<Byte> -> Option<DeepgramResponse>,
                            decodeUtf8: seq<Byte> -> Option<string>): (r: Result<string, ServiceError>)
    ensures r.Ok? <==> reply.Response? && IsSuccessStatus(reply.status) && decode(reply.body).Some?
    ensures reply.TransportError? ==> r == Err(Transport(reply.message))
    ensures reply.NonHttpResponse? ==> r == Err(BadServerResponse)
    ensures reply.Response? && !IsSuccessStatus(reply.status) ==>
      r == Err(NSError("DeepgramAPI", reply.status, decodeUtf8(reply.body).GetOr("")))
    ensures reply.Response? && IsSuccessStatus(reply.status) && decode(reply.body).None? ==>
      r == Err(DecodeFailure)
    ensures r.Ok? ==> r.value == FirstTranscript(decode(reply.body).value)
  {
    match reply
    case TransportError(m) => Err(Transport(m))
    case NonHttpResponse => Err(BadServerResponse)
    case Response(code, data) =>
      if !IsSuccessStatus(code) then Err(NSError("DeepgramAPI", code, decodeUtf8(data).GetOr("")))
      else
        match decode(data)
        case None => Err(DecodeFailure)
        case Some(response) => Ok(FirstTranscript(response))
  }

  /** `transcribeAudioFile`: an unreadable audio file fails before any
      request is sent. */
  function Transcribe(exchange: Exchange, baseURL: string, apiKey: string, model: string,
                      audio: Option<seq<Byte>>, language: Option<string>,
                      decode: seq<Byte> -> Option<DeepgramResponse>,
                      decodeUtf8: seq<Byte> -> Option<string>): (r: Result<string, ServiceError>)
    ensures audio.None? ==> r == Err(FileUnreadable)
    ensures audio.Some? ==>
      r == SelectTranscript(exchange(ListenRequest(baseURL, apiKey, model, language, audio.value)), decode, decodeUtf8)
  {
    match audio
    case None => Err(FileUnreadable)
    case Some(data) => SelectTranscript(exchange(ListenRequest(baseURL, apiKey, model, language, data)), decode, decodeUtf8)
  }

  /** `verifyAPIKey`: a token-authorised GET of `/v1/projects` answered 2xx. */
  function VerifyAPIKey(exchange: Exchange, baseURL: string, apiKey: string): (ok: bool)
    ensures var reply := exchange(CredentialProbe(baseURL, "/v1/projects", TokenAuth(apiKey)));
      ok <==> reply.Response? && IsSuccessStatus(reply.status)
  {
    ReplyAccepted(exchange(CredentialProbe(baseURL, "/v1/projects", TokenAuth(apiKey))))
  }
}
