// VoiceInk-ios/GroqTranscriptionService.swift: the client of the
// OpenAI-compatible transcription endpoint (Groq, OpenAI, Cerebras,
// Gemini). The audio travels in a multipart/form-data body as sections 4.1
// and 4.2 of RFC 7578 describe it, with the delimiter and close-delimiter
// lines of section 5.1.1 of RFC 2046.
module MultipartClient {
  import opened Base
  import opened Http

  const CRLF: string := "\r\n"

  /** `"Boundary-\(UUID().uuidString)"`; the UUID text is supplied. */
  function Boundary(uuid: string): string {
    "Boundary-" + uuid
  }

  /** The value of the request's `Content-Type` header. */
  function ContentType(boundary: string): string {
    "multipart/form-data; boundary=" + boundary
  }

  /** The dash-boundary line opening every part. */
  function Delimiter(boundary: string): string {
    "--" + boundary + CRLF
  }

  /** The line that closes the body. */
  function CloseDelimiter(boundary: string): string {
    "--" + boundary + "--" + CRLF
  }

  /** The header lines of a form field, ending with the blank line. */
  function DispositionLines(name: string): string {
    "Content-Disposition: form-data; name=\"" + name + "\"" + CRLF + CRLF
  }

  /** The field's value and the CRLF that ends it. */
  function ValueLine(value: string): string {
    value + CRLF
  }

  /** What `appendFormField(name, value)` appends: its three lines. */
  function FieldPart(boundary: string, name: string, value: string): string {
    Delimiter(boundary) + DispositionLines(name) + ValueLine(value)
  }

  /** The disposition line of the file part. */
  function FileDispositionLine(filename: string): string {
    "Content-Disposition: form-data; name=\"file\"; filename=\"" + filename + "\"" + CRLF
  }

  /** The content type of the audio and the blank line before it. */
  const FileTypeLines: string := "Content-Type: audio/wav" + CRLF + CRLF

  /** The head of the file part, up to the blank line before the audio. */
  function FilePartHead(boundary: string, filename: string): string {
    Delimiter(boundary) + FileDispositionLine(filename) + FileTypeLines
  }

  /** The language field, present only when a language is given. */
  function LanguagePart(boundary: string, language: Option<string>): string {
    if language.Some? then FieldPart(boundary, "language", language.value) else ""
  }

  /** Every text part that precedes the audio bytes: the model field, the
      language field when a language is given, then the file head. */
  function Preamble(boundary: string, model: string, language: Option<string>, filename: string): string {
    FieldPart(boundary, "model", model) + LanguagePart(boundary, language) + FilePartHead(boundary, filename)
  }

  /** The text after the audio: a CRLF, then the close delimiter. */
  function Epilogue(boundary: string): string {
    CRLF + CloseDelimiter(boundary)
  }

  /** The complete request body. */
  function MultipartBody(boundary: string, model: string, language: Option<string>,
                         filename: string, fileData: seq<Byte>): seq<Byte> {
    Utf8(Preamble(boundary, model, language, filename)) + fileData + Utf8(Epilogue(boundary))
  }

  /** Three appends of encoded lines are one append of their concatenation. */
  method AppendLines(body: seq<Byte>, line1: string, line2: string, line3: string)
    returns (body': seq<Byte>)
    ensures body' == body + Utf8(line1 + line2 + line3)
  {
    body' := body + Utf8(line1);
    body' := body' + Utf8(line2);
    body' := body' + Utf8(line3);
    Utf8Append3(line1, line2, line3);
  }

  /** `appendFormField`: the three appends of one field part. */
  method AppendFormField(body: seq<Byte>, boundary: string, name: string, value: string)
    returns (body': seq<Byte>)
    ensures body' == body + Utf8(FieldPart(boundary, name, value))
  {
    body' := AppendLines(body, Delimiter(boundary), DispositionLines(name), ValueLine(value));
  }

  /** The three appends that open the file part. */
  method AppendFilePartHead(body: seq<Byte>, boundary: string, filename: string)
    returns (body': seq<Byte>)
    ensures body' == body + Utf8(FilePartHead(boundary, filename))
  {
    body' := AppendLines(body, Delimiter(boundary), FileDispositionLine(filename), FileTypeLines);
  }

  /** The body as the source assembles it, append by append. */
  method BuildMultipartBody(boundary: string, model: string, language: Option<string>,
                            filename: string, fileData: seq<Byte>)
    returns (body: seq<Byte>)
    ensures body == MultipartBody(boundary, model, language, filename, fileData)
  {
    var modelPart := FieldPart(boundary, "model", model);
    var languagePart := LanguagePart(boundary, language);
    var head := FilePartHead(boundary, filename);
    body := AppendFormField([], boundary, "model", model);
    EmptyPrefix(Utf8(modelPart));
    if language.Some? {
      body := AppendFormField(body, boundary, "language", language.value);
    } else {
      EmptySuffix(Utf8(modelPart));
    }
    body := AppendFilePartHead(body, boundary, filename);
    Utf8Append3(modelPart, languagePart, head);
    ghost var pre := Utf8(Preamble(boundary, model, language, filename));
    body := body + fileData;
    body := body + Utf8(CRLF);
    body := body + Utf8(CloseDelimiter(boundary));
    Utf8Append(CRLF, CloseDelimiter(boundary));
    AppendAssoc(pre + fileData, Utf8(CRLF), Utf8(CloseDelimiter(boundary)));
  }

  /** The text of the body before the audio, split after its first line. */
  lemma PreambleOpensWithDelimiter(boundary: string, model: string, language: Option<string>, filename: string)
    ensures Preamble(boundary, model, language, filename)
      == Delimiter(boundary) + (DispositionLines("model") + ValueLine(model)
                                + LanguagePart(boundary, language) + FilePartHead(boundary, filename))
  {
    RegroupAfterFirst(Delimiter(boundary), DispositionLines("model"), ValueLine(model),
                      LanguagePart(boundary, language), FilePartHead(boundary, filename));
  }

  /** The text of the body before the audio, split before its last lines. */
  lemma PreambleEndsWithTypeLines(boundary: string, model: string, language: Option<string>, filename: string)
    ensures Preamble(boundary, model, language, filename)
      == (FieldPart(boundary, "model", model) + LanguagePart(boundary, language)
          + Delimiter(boundary) + FileDispositionLine(filename)) + FileTypeLines
  {
    RegroupLastThree(FieldPart(boundary, "model", model), LanguagePart(boundary, language),
                     Delimiter(boundary), FileDispositionLine(filename), FileTypeLines);
  }

  /** The body opens with the delimiter of the model part. */
  lemma BodyOpensWithDelimiter(boundary: string, model: string, language: Option<string>,
                               filename: string, fileData: seq<Byte>)
    ensures var body := MultipartBody(boundary, model, language, filename, fileData);
      var open := Utf8(Delimiter(boundary));
      |open| <= |body| && body[..|open|] == open
  {
    var rest := DispositionLines("model") + ValueLine(model)
                + LanguagePart(boundary, language) + FilePartHead(boundary, filename);
    PreambleOpensWithDelimiter(boundary, model, language, filename);
    Utf8Append(Delimiter(boundary), rest);
    FirstOfFour(Utf8(Delimiter(boundary)), Utf8(rest), fileData, Utf8(Epilogue(boundary)));
  }

  /** The body ends with the close delimiter. */
  lemma BodyEndsWithCloseDelimiter(boundary: string, model: string, language: Option<string>,
                                   filename: string, fileData: seq<Byte>)
    ensures var body := MultipartBody(boundary, model, language, filename, fileData);
      var close := Utf8(CloseDelimiter(boundary));
      |close| <= |body| && body[|body| - |close|..] == close
  {
    Utf8Append(CRLF, CloseDelimiter(boundary));
    EndsWithLastPiece(MultipartBody(boundary, model, language, filename, fileData),
                      Utf8(Preamble(boundary, model, language, filename)), fileData,
                      Utf8(Epilogue(boundary)), Utf8(CRLF), Utf8(CloseDelimiter(boundary)));
  }

  /** The line break after the audio is two bytes. */
  lemma CRLFBytes()
    ensures Utf8(CRLF) == [13, 10]
  {
  }

  /** The audio bytes, then the CRLF, follow the encoded preamble. */
  lemma AudioThenCRLF(boundary: string, model: string, language: Option<string>,
                      filename: string, fileData: seq<Byte>)
    ensures var body := MultipartBody(boundary, model, language, filename, fileData);
      var k := |Utf8(Preamble(boundary, model, language, filename))|;
      k + |fileData| + 2 <= |body|
      && body[k..k + |fileData|] == fileData
      && body[k + |fileData|..k + |fileData| + 2] == Utf8(CRLF)
  {
    CRLFBytes();
    Utf8Append(CRLF, CloseDelimiter(boundary));
    MiddlePieces(MultipartBody(boundary, model, language, filename, fileData),
                 Utf8(Preamble(boundary, model, language, filename)), fileData,
                 Utf8(Epilogue(boundary)), Utf8(CRLF), Utf8(CloseDelimiter(boundary)));
  }

  /** The encoded preamble ends with the `audio/wav` content type and the
      blank line. */
  lemma TypeLinesBeforeAudio(boundary: string, model: string, language: Option<string>,
                             filename: string, fileData: seq<Byte>)
    ensures var body := MultipartBody(boundary, model, language, filename, fileData);
      var k := |Utf8(Preamble(boundary, model, language, filename))|;
      var head := Utf8(FileTypeLines);
      |head| <= k <= |body| && body[k - |head|..k] == head
  {
    var front := FieldPart(boundary, "model", model) + LanguagePart(boundary, language)
                 + Delimiter(boundary) + FileDispositionLine(filename);
    PreambleEndsWithTypeLines(boundary, model, language, filename);
    Utf8Append(front, FileTypeLines);
    SecondOfFour(Utf8(front), Utf8(FileTypeLines), fileData, Utf8(Epilogue(boundary)));
  }

  /** The audio bytes sit unaltered right after the file head, which ends
      with the `audio/wav` content type and a blank line, and are followed
      by CRLF. */
  lemma FileBytesVerbatim(boundary: string, model: string, language: Option<string>,
                          filename: string, fileData: seq<Byte>)
    ensures var body := MultipartBody(boundary, model, language, filename, fileData);
      var k := |Utf8(Preamble(boundary, model, language, filename))|;
      var head := Utf8(FileTypeLines);
      k + |fileData| + 2 <= |body|
      && body[k..k + |fileData|] == fileData
      && body[k + |fileData|..k + |fileData| + 2] == Utf8(CRLF)
      && |head| <= k && body[k - |head|..k] == head
  {
    AudioThenCRLF(boundary, model, language, filename, fileData);
    TypeLinesBeforeAudio(boundary, model, language, filename, fileData);
  }

  /** The parts come in the order model, language (only when given), file. */
  lemma PartOrder(boundary: string, model: string, language: Option<string>, filename: string)
    ensures var p := Preamble(boundary, model, language, filename);
      var m := FieldPart(boundary, "model", model);
      StartsWith(p, m)
      && (language.Some? ==> StartsWith(p[|m|..], FieldPart(boundary, "language", language.value)))
      && (language.None? ==> p[|m|..] == FilePartHead(boundary, filename))
  {
    var m := FieldPart(boundary, "model", model);
    var l := LanguagePart(boundary, language);
    var h := FilePartHead(boundary, filename);
    DropFirstPiece(m, l, h);
    PrefixOfConcat(m, l + h);
    assert m + (l + h) == m + l + h;
    PrefixOfConcat(l, h);
    if language.None? {
      assert l + h == h;
    }
  }

  /** The POST to `<base>/v1/audio/transcriptions`. */
  function TranscriptionRequest(baseURL: string, apiKey: string, boundary: string, body: seq<Byte>): (req: HttpRequest)
    ensures req.verb == Post && req.url == baseURL + "/v1/audio/transcriptions"
    ensures Bearer(apiKey) in req.headers
    ensures Header("Content-Type", ContentType(boundary)) in req.headers
    ensures req.body == Bytes(body)
  {
    HttpRequest(Post, baseURL + "/v1/audio/transcriptions", [],
                [Bearer(apiKey), Header("Content-Type", ContentType(boundary))], Bytes(body))
  }

  /** The boundary announced in the header is the one delimiting the body. */
  lemma HeaderBoundaryMatchesBody(baseURL: string, apiKey: string, uuid: string, model: string,
                                  language: Option<string>, filename: string, fileData: seq<Byte>)
    ensures var b := Boundary(uuid);
      var body := MultipartBody(b, model, language, filename, fileData);
      var req := TranscriptionRequest(baseURL, apiKey, b, body);
      Header("Content-Type", "multipart/form-data; boundary=" + b) in req.headers
      && |Utf8(Delimiter(b))| <= |req.body.data|
      && req.body.data[..|Utf8(Delimiter(b))|] == Utf8(Delimiter(b))
  {
    BodyOpensWithDelimiter(Boundary(uuid), model, language, filename, fileData);
  }

  /** How a reply becomes the transcript: a non-HTTP reply or a status
      outside 2xx fails, the latter with the status code and the body text;
      a 2xx body yields its JSON `text`, else its UTF-8 text, else "". */
  function SelectTranscript(reply: HttpReply, decodeText: seq<Byte> -> Option<Option<string>>,
                            decodeUtf8: seq<Byte> -> Option<string>): (r: Result<string, ServiceError>)
    ensures r.Ok? <==> reply.Response? && IsSuccessStatus(reply.status)
    ensures reply.TransportError? ==> r == Err(Transport(reply.message))
    ensures reply.NonHttpResponse? ==> r == Err(BadServerResponse)
    ensures reply.Response? && !IsSuccessStatus(reply.status) ==>
      r == Err(NSError("GroqAPI", reply.status, decodeUtf8(reply.body).GetOr("")))
    ensures r.Ok? && decodeText(reply.body).Some? && decodeText(reply.body).value.Some? ==>
      r.value == decodeText(reply.body).value.value
    ensures r.Ok? && !(decodeText(reply.body).Some? && decodeText(reply.body).value.Some?) ==>
      r.value == decodeUtf8(reply.body).GetOr("")
  {
    match reply
    case TransportError(m) => Err(Transport(m))
    case NonHttpResponse => Err(BadServerResponse)
    case Response(code, data) =>
      if !IsSuccessStatus(code) then Err(NSError("GroqAPI", code, decodeUtf8(data).GetOr("")))
      else
        var decoded := decodeText(data);
        if decoded.Some? && decoded.value.Some? then Ok(decoded.value.value)
        else if decodeUtf8(data).Some? then Ok(decodeUtf8(data).value)
        else Ok("")
  }

  /** `transcribeAudioFile`: an unreadable audio file fails before any
      request is sent; otherwise the reply to the multipart request decides. */
  function Transcribe(exchange: Exchange, baseURL: string, apiKey: string, model: string,
                      filename: string, fileData: Option<seq<Byte>>, language: Option<string>,
                      uuid: string, decodeText: seq<Byte> -> Option<Option<string>>,
                      decodeUtf8: seq<Byte> -> Option<string>): (r: Result<string, ServiceError>)
    ensures fileData.None? ==> r == Err(FileUnreadable)
    ensures fileData.Some? ==>
      var b := Boundary(uuid);
      r == SelectTranscript(
        exchange(TranscriptionRequest(baseURL, apiKey, b, MultipartBody(b, model, language, filename, fileData.value))),
        decodeText, decodeUtf8)
  {
    match fileData
    case None => Err(FileUnreadable)
    case Some(data) =>
      var b := Boundary(uuid);
      var req := TranscriptionRequest(baseURL, apiKey, b, MultipartBody(b, model, language, filename, data));
      SelectTranscript(exchange(req), decodeText, decodeUtf8)
  }

  /** Unlike the query-parameter client, a 2xx reply never fails here: an
      undecodable body still yields a string. */
  lemma SuccessNeverFails(code: int, data: seq<Byte>, decodeText: seq<Byte> -> Option<Option<string>>,
                          decodeUtf8: seq<Byte> -> Option<string>)
    requires IsSuccessStatus(code)
    ensures SelectTranscript(Response(code, data), decodeText, decodeUtf8).Ok?
  {
  }

  /** `verifyAPIKey`: a bearer-authorised GET of `/v1/models` answered 2xx. */
  function VerifyAPIKey(exchange: Exchange, baseURL: string, apiKey: string): (ok: bool)
    ensures var reply := exchange(CredentialProbe(baseURL, "/v1/models", Bearer(apiKey)));
      ok <==> reply.Response? && IsSuccessStatus(reply.status)
  {
    ReplyAccepted(exchange(CredentialProbe(baseURL, "/v1/models", Bearer(apiKey))))
  }
}
