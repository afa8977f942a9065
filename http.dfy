// The HTTP vocabulary shared by the cloud clients: requests as values, the
// reply the network hands back (an oracle), the success-class test of
// section 15.3 of RFC 9110 and the authorization credentials of section 2.1
// of RFC 6750 ("Bearer") and of the query-parameter service ("Token").
module Http {
  import opened Base

  datatype Verb = Get | Post

  datatype Header = Header(name: string, value: string)

  datatype QueryItem = QueryItem(name: string, value: string)

  datatype ChatMessage = ChatMessage(role: string, content: string)

  /** The JSON body `{model, messages, temperature}` of a chat completion. */
  datatype ChatRequest = ChatRequest(model: string, messages: seq<ChatMessage>, temperature: Option<real>)

  /** The decoded `{choices: [{message: {role, content}}]}` reply. */
  datatype ChatResponse = ChatResponse(choices: seq<ChatMessage>)

  datatype RequestBody = NoBody | Bytes(data: seq<Byte>) | ChatJson(chat: ChatRequest)

  datatype HttpRequest = HttpRequest(
    verb: Verb,
    url: string,
    query: seq<QueryItem>,
    headers: seq<Header>,
    body: RequestBody)

  /** What `URLSession.shared.data(for:)` yields: a thrown transport error, a
      response that is not an `HTTPURLResponse`, or a status code and body. */
  datatype HttpReply = TransportError(message: string) | NonHttpResponse | Response(status: int, body: seq<Byte>)

  /** What the clients throw. `NSError` carries the domain, code and
      description the source builds; the others stand for `URLError`s, a
      failed JSON decode, an unreadable audio file and the post-processor's
      own `invalidResponse`. */
  datatype ServiceError =
    | Transport(message: string)
    | BadServerResponse
    | NSError(domain: string, code: int, description: string)
    | DecodeFailure
    | FileUnreadable
    | InvalidResponse

  /** The network seen from the model: a total function from request to reply. */
  type Exchange = HttpRequest -> HttpReply

  /** `(200..<300).contains(statusCode)`: the 2xx class. */
  predicate IsSuccessStatus(code: int) {
    200 <= code < 300
  }

  /** The server splits the header at the scheme and gets the key back. */
  function Bearer(key: string): (h: Header)
    ensures h.name == "Authorization"
    ensures |h.value| == 7 + |key| && h.value[..7] == "Bearer " && h.value[7..] == key
  {
    Header("Authorization", "Bearer " + key)
  }

  /** As Bearer, with Deepgram's `Token` scheme. */
  function TokenAuth(key: string): (h: Header)
    ensures h.name == "Authorization"
    ensures |h.value| == 6 + |key| && h.value[..6] == "Token " && h.value[6..] == key
  {
    Header("Authorization", "Token " + key)
  }

  /** A credential check succeeds exactly on an HTTP reply with a 2xx status;
      a transport error or a non-HTTP reply counts as failure. */
  function ReplyAccepted(reply: HttpReply): (ok: bool)
    ensures ok <==> reply.Response? && 200 <= reply.status <= 299
  {
    match reply
    case Response(status, _) => IsSuccessStatus(status)
    case _ => false
  }

  /** `GET <base>/<path>` carrying only an authorization header, as every
      `verifyAPIKey` sends it. */
  function CredentialProbe(baseURL: string, path: string, auth: Header): (req: HttpRequest)
    ensures req.verb == Get && req.url == baseURL + path
    ensures req.headers == [auth] && req.body == NoBody && req.query == []
  {
    HttpRequest(Get, baseURL + path, [], [auth], NoBody)
  }
}
