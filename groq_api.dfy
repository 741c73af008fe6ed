/**
 * The client of the speech-to-text service (GroqAPI.swift): the multipart/form-data
 * upload of a recording (RFC 7578), the Bearer credentials of section 2.1 of
 * RFC 6750, and the rules that turn a response into a transcript, an error or
 * an authentication verdict.
 *
 * The network, the JSON decoder, the file system and the UUID that serves as the
 * boundary are not modelled: their results are parameters.
 */
module GroqApi {
  import opened Wrappers
  import opened Text
  import opened Utf8
  import Multipart

  const TranscriptionEndpoint: string := "https://api.groq.com/openai/v1/audio/transcriptions"
  const ModelsEndpoint: string := "https://api.groq.com/openai/v1/models"
  const AudioMimeType: string := "audio/m4a"

  // ---------------------------------------------------------------------------
  // Form fields.

  /** A form-data field: a plain text value, or a file with its name, type and bytes. */
  datatype FormPart =
    | Field(name: string, value: string)
    | File(name: string, fileName: string, contentType: string, data: seq<byte>)

  /** The part's header lines, without the blank line that ends them. */
  function HeaderText(p: FormPart): string {
    match p
    case Field(name, _) =>
      "Content-Disposition: form-data; name=\"" + name + "\""
    case File(name, fileName, contentType, _) =>
      "Content-Disposition: form-data; name=\"" + name + "\"; filename=\"" + fileName + "\"\r\n"
      + "Content-Type: " + contentType
  }

  /** A field's value in UTF-8, or a file's bytes unchanged. */
  function Content(p: FormPart): seq<byte> {
    match p
    case Field(_, value) => Encode(value)
    case File(_, _, _, data) => data
  }

  function ToPart(p: FormPart): Multipart.Part {
    Multipart.Part(Encode(HeaderText(p)), Content(p))
  }

  function ToParts(ps: seq<FormPart>): (raw: seq<Multipart.Part>)
    ensures |raw| == |ps|
    ensures forall i :: 0 <= i < |ps| ==> raw[i] == ToPart(ps[i])
  {
    seq(|ps|, i requires 0 <= i < |ps| => ToPart(ps[i]))
  }

  /** The bytes of the form, with `boundary` between its parts. */
  function FormBody(boundary: string, ps: seq<FormPart>): seq<byte> {
    Multipart.Body(boundary, ToParts(ps))
  }

  /** The last component of a slash-separated path: everything after its last '/'. */
  function LastPathComponent(path: string): (name: string)
    ensures '/' !in name
    ensures |name| <= |path| && path[|path| - |name|..] == name
    ensures |name| < |path| ==> path[|path| - |name| - 1] == '/'
  {
    if path == [] then []
    else if path[|path| - 1] == '/' then []
    else LastPathComponent(path[..|path| - 1]) + [path[|path| - 1]]
  }

  /**
   * The fields of a transcription upload, in the order they are written: the
   * model, the language only when it is not blank (written as given, untrimmed),
   * the recording, and the response format.
   */
  function TranscriptionParts(model: string, language: string, fileName: string, fileData: seq<byte>): (ps: seq<FormPart>)
    ensures |ps| == if IsBlank(language) then 3 else 4
    ensures ps[0] == Field("model", model)
    ensures Field("language", language) in ps <==> !IsBlank(language)
    ensures !IsBlank(language) ==> ps[1] == Field("language", language)
    ensures ps[|ps| - 2] == File("file", fileName, AudioMimeType, fileData)
    ensures ps[|ps| - 1] == Field("response_format", "json")
  {
    [Field("model", model)]
    + (if IsBlank(language) then [] else [Field("language", language)])
    + [File("file", fileName, AudioMimeType, fileData), Field("response_format", "json")]
  }

  /** The body of a transcription upload. */
  function TranscriptionBody(boundary: string, model: string, language: string, fileName: string, fileData: seq<byte>): seq<byte> {
    FormBody(boundary, TranscriptionParts(model, language, fileName, fileData))
  }

  // ---------------------------------------------------------------------------
  // Requests and responses.

  /** An HTTP request as the client prepares it; the upload body travels beside it. */
  datatype Request = Request(httpMethod: string, url: string, headers: map<string, string>)

  /** What the transport hands back: a failure, a response that is not HTTP, or an HTTP status with its bytes. */
  datatype Exchange =
    | TransportFailed
    | NonHttp(data: seq<byte>)
    | Http(statusCode: int, data: seq<byte>)

  /** The ways an API call ends without a result. */
  datatype ApiError = FileUnreadable | Transport | BadServerResponse | DecodeFailed

  /** The Bearer credentials of section 2.1 of RFC 6750. */
  function BearerCredentials(apiKey: string): string {
    "Bearer " + apiKey
  }

  /** The media type of the upload, naming the boundary that separates its parts. */
  function MultipartContentType(boundary: string): string {
    "multipart/form-data; boundary=" + boundary
  }

  function TranscriptionRequest(apiKey: string, boundary: string): Request {
    Request("POST", TranscriptionEndpoint,
      map["Authorization" := BearerCredentials(apiKey), "Content-Type" := MultipartContentType(boundary)])
  }

  function AuthenticationRequest(apiKey: string): Request {
    Request("GET", ModelsEndpoint, map["Authorization" := BearerCredentials(apiKey)])
  }

  /** How a transcription response is judged: only status 200 with a decodable body yields text. */
  function TranscriptionResult(e: Exchange, decodeText: seq<byte> -> Option<string>): (r: Result<string, ApiError>)
    ensures r.Success? <==> e.Http? && e.statusCode == 200 && decodeText(e.data).Some?
    ensures r.Success? ==> r.value == decodeText(e.data).value
    ensures r == Failure(Transport) <==> e.TransportFailed?
    ensures r == Failure(BadServerResponse) <==> e.NonHttp? || (e.Http? && e.statusCode != 200)
    ensures r == Failure(DecodeFailed) <==> e.Http? && e.statusCode == 200 && decodeText(e.data).None?
  {
    match e
    case TransportFailed => Failure(Transport)
    case NonHttp(_) => Failure(BadServerResponse)
    case Http(status, data) =>
      if status != 200 then Failure(BadServerResponse)
      else match decodeText(data)
        case None => Failure(DecodeFailed)
        case Some(text) => Success(text)
  }

  /** How the credentials check is judged: true exactly for HTTP status 200; a transport failure is an error. */
  function AuthenticationResult(e: Exchange): (r: Result<bool, ApiError>)
    ensures r.Failure? <==> e.TransportFailed?
    ensures r.Failure? ==> r.error == Transport
    ensures r.Success? ==> (r.value <==> e.Http? && e.statusCode == 200)
  {
    match e
    case TransportFailed => Failure(Transport)
    case NonHttp(_) => Success(false)
    case Http(status, _) => Success(status == 200)
  }

  /**
   * What a transcription call returns: an error when the recording cannot be
   * read, otherwise the judgement of what the upload of the request and body brings back.
   */
  function TranscriptionOutcome(
    audioFilePath: string, apiKey: string, model: string, language: string, boundary: string,
    fileContents: Option<seq<byte>>,
    upload: (Request, seq<byte>) -> Exchange, decodeText: seq<byte> -> Option<string>): Result<string, ApiError>
  {
    match fileContents
    case None => Failure(FileUnreadable)
    case Some(fileData) =>
      var body := TranscriptionBody(boundary, model, language, LastPathComponent(audioFilePath), fileData);
      TranscriptionResult(upload(TranscriptionRequest(apiKey, boundary), body), decodeText)
  }

  // ---------------------------------------------------------------------------
  // The client's two calls, written as the client writes them.

  /**
   * Uploads the recording at `audioFilePath` for transcription. The file's
   * bytes (None when it cannot be read), the boundary, the transport and the
   * JSON decoder are parameters.
   */
  method Transcribe(
    audioFilePath: string, apiKey: string, model: string, language: string, boundary: string,
    fileContents: Option<seq<byte>>,
    upload: (Request, seq<byte>) -> Exchange, decodeText: seq<byte> -> Option<string>)
    returns (r: Result<string, ApiError>)
    ensures r == TranscriptionOutcome(audioFilePath, apiKey, model, language, boundary, fileContents, upload, decodeText)
  {
    var request := Request("POST", TranscriptionEndpoint, map[]);
    request := request.(headers := request.headers["Authorization" := "Bearer " + apiKey]);
    request := request.(headers := request.headers["Content-Type" := "multipart/form-data; boundary=" + boundary]);

    var data: seq<byte> := [];
    // Model parameter
    data := AppendField(data, boundary, "model", model);
    ghost var afterModel := data;
    // Language parameter
    if !IsBlank(language) {
      data := AppendField(data, boundary, "language", language);
    }
    ghost var afterLanguage := data;
    // File parameter
    if fileContents.None? {
      r := Failure(FileUnreadable);
      return;
    }
    var fileData := fileContents.value;
    var fileName := LastPathComponent(audioFilePath);
    var mimeType := "audio/m4a";
    data := AppendFile(data, boundary, "file", fileName, mimeType, fileData);
    ghost var afterFile := data;
    // Output format
    data := AppendField(data, boundary, "response_format", "json");
    ghost var afterFormat := data;
    data := data + Encode("--" + boundary + "--\r\n");

    ghost var head := if IsBlank(language) then [ToPart(Field("model", model))]
                      else [ToPart(Field("model", model)), ToPart(Field("language", language))];
    LeadingFrames(boundary, ToPart(Field("model", model)), ToPart(Field("language", language)));
    BodyOfFrames(boundary, head, ToPart(File("file", fileName, mimeType, fileData)), ToPart(Field("response_format", "json")),
      afterLanguage, afterFile, afterFormat, data);
    TranscriptionRawParts(model, language, fileName, fileData);
    var response := upload(request, data);
    r := JudgeTranscription(response, decodeText);
  }

  /** Appends one text field: its dash-boundary line, its disposition line and blank line, its value and CRLF. */
  method AppendField(data: seq<byte>, boundary: string, name: string, value: string) returns (data': seq<byte>)
    ensures data' == data + Multipart.Frame(boundary, ToPart(Field(name, value)))
  {
    data' := data;
    data' := data' + Encode("--" + boundary + "\r\n");
    data' := data' + Encode("Content-Disposition: form-data; name=\"" + name + "\"\r\n\r\n");
    data' := data' + Encode(value + "\r\n");
    FieldBytes(boundary, name, value);
    Prefixed(data, Encode("--" + boundary + "\r\n"),
      Encode("Content-Disposition: form-data; name=\"" + name + "\"\r\n\r\n"), Encode(value + "\r\n"), [], []);
  }

  /** Appends the file field: its dash-boundary line, its two header lines and blank line, the bytes unchanged and CRLF. */
  method AppendFile(data: seq<byte>, boundary: string, name: string, fileName: string, mimeType: string, fileData: seq<byte>)
    returns (data': seq<byte>)
    ensures data' == data + Multipart.Frame(boundary, ToPart(File(name, fileName, mimeType, fileData)))
  {
    data' := data;
    data' := data' + Encode("--" + boundary + "\r\n");
    data' := data' + Encode("Content-Disposition: form-data; name=\"" + name + "\"; filename=\"" + fileName + "\"\r\n");
    data' := data' + Encode("Content-Type: " + mimeType + "\r\n\r\n");
    data' := data' + fileData;
    data' := data' + Encode("\r\n");
    FileBytes(boundary, name, fileName, mimeType, fileData);
    Prefixed(data, Encode("--" + boundary + "\r\n"),
      Encode("Content-Disposition: form-data; name=\"" + name + "\"; filename=\"" + fileName + "\"\r\n"),
      Encode("Content-Type: " + mimeType + "\r\n\r\n"), fileData, Encode("\r\n"));
  }

  /** The checks on the upload's response: HTTP, then status 200, then a decodable body. */
  method JudgeTranscription(response: Exchange, decodeText: seq<byte> -> Option<string>) returns (r: Result<string, ApiError>)
    ensures r == TranscriptionResult(response, decodeText)
  {
    match response {
      case TransportFailed =>
        r := Failure(Transport);
      case NonHttp(_) =>
        r := Failure(BadServerResponse);
      case Http(statusCode, responseData) =>
        if statusCode != 200 {
          r := Failure(BadServerResponse);
        } else {
          var decoded := decodeText(responseData);
          if decoded.None? {
            r := Failure(DecodeFailed);
          } else {
            r := Success(decoded.value);
          }
        }
    }
  }

  /** Asks the models endpoint whether `apiKey` is accepted; the transport is a parameter. */
  method TestAuthentication(apiKey: string, fetch: Request -> Exchange) returns (r: Result<bool, ApiError>)
    ensures r == AuthenticationResult(fetch(AuthenticationRequest(apiKey)))
  {
    var request := Request("GET", ModelsEndpoint, map[]);
    request := request.(headers := request.headers["Authorization" := "Bearer " + apiKey]);
    var response := fetch(request);
    if response.TransportFailed? {
      return Failure(Transport);
    }
    if response.Http? {
      return Success(response.statusCode == 200);
    }
    return Success(false);
  }

  // ---------------------------------------------------------------------------
  // The appends, part by part.

  lemma {:induction false} FramesAppend(boundary: string, xs: seq<Multipart.Part>, ys: seq<Multipart.Part>)
    ensures Multipart.Frames(boundary, xs + ys) == Multipart.Frames(boundary, xs) + Multipart.Frames(boundary, ys)
    decreases |xs|
  {
    if xs == [] {
      assert xs + ys == ys;
    } else {
      assert (xs + ys)[1..] == xs[1..] + ys;
      FramesAppend(boundary, xs[1..], ys);
    }
  }

  lemma ToPartsAppend(xs: seq<FormPart>, ys: seq<FormPart>)
    ensures ToParts(xs + ys) == ToParts(xs) + ToParts(ys)
  {
  }

  lemma ToPartsShort(x: FormPart, y: FormPart)
    ensures ToParts([x]) == [ToPart(x)]
    ensures ToParts([x, y]) == [ToPart(x), ToPart(y)]
  {
  }

  /** The frames of one or two leading parts. */
  lemma LeadingFrames(boundary: string, x: Multipart.Part, y: Multipart.Part)
    ensures Multipart.Frames(boundary, [x]) == [] + Multipart.Frame(boundary, x)
    ensures Multipart.Frames(boundary, [x, y]) == [] + Multipart.Frame(boundary, x) + Multipart.Frame(boundary, y)
  {
    assert [x][1..] == [];
    assert [x, y][1..] == [y];
    assert [y][1..] == [];
  }

  /** Two more parts after `head`, then the close-delimiter. */
  lemma TrailingFrames(boundary: string, head: seq<Multipart.Part>, x: Multipart.Part, y: Multipart.Part)
    ensures Multipart.Body(boundary, head + [x, y])
         == Multipart.Frames(boundary, head) + Multipart.Frame(boundary, x)
            + Multipart.Frame(boundary, y) + Multipart.CloseDelimiter(boundary)
  {
    FramesAppend(boundary, head, [x, y]);
    LeadingFrames(boundary, x, y);
  }

  /** Frames written after `head`'s, then the close-delimiter, make the body of all those parts. */
  lemma BodyOfFrames(boundary: string, head: seq<Multipart.Part>, f: Multipart.Part, j: Multipart.Part,
                     afterHead: seq<byte>, afterFile: seq<byte>, afterFormat: seq<byte>, data: seq<byte>)
    requires afterHead == Multipart.Frames(boundary, head)
    requires afterFile == afterHead + Multipart.Frame(boundary, f)
    requires afterFormat == afterFile + Multipart.Frame(boundary, j)
    requires data == afterFormat + Encode("--" + boundary + "--\r\n")
    ensures data == Multipart.Body(boundary, head + [f, j])
  {
    TrailingFrames(boundary, head, f, j);
    CloseBytes(boundary);
  }

  /** The parts of a transcription upload, as multipart parts: model, the language when not blank, file, format. */
  lemma TranscriptionRawParts(model: string, language: string, fileName: string, fileData: seq<byte>)
    ensures ToParts(TranscriptionParts(model, language, fileName, fileData))
         == (if IsBlank(language) then [ToPart(Field("model", model))]
             else [ToPart(Field("model", model)), ToPart(Field("language", language))])
            + [ToPart(File("file", fileName, AudioMimeType, fileData)), ToPart(Field("response_format", "json"))]
  {
    var fm, fl := Field("model", model), Field("language", language);
    var ff, fj := File("file", fileName, AudioMimeType, fileData), Field("response_format", "json");
    if IsBlank(language) {
      assert TranscriptionParts(model, language, fileName, fileData) == [fm] + [ff, fj];
      ToPartsAppend([fm], [ff, fj]);
    } else {
      assert TranscriptionParts(model, language, fileName, fileData) == [fm, fl] + [ff, fj];
      ToPartsAppend([fm, fl], [ff, fj]);
    }
    ToPartsShort(fm, fl);
    ToPartsShort(ff, fj);
  }

  lemma DashBoundaryLine(boundary: string)
    ensures Encode("--" + boundary + "\r\n") == Multipart.DashBoundary(boundary) + Multipart.CRLF
  {
    EncodeAppend("--" + boundary, "\r\n");
    EncodeAppend("--", boundary);
    DashesBytes();
    CrlfBytes();
  }

  /** The three appends of a text field write that field's frame. */
  lemma FieldBytes(boundary: string, name: string, value: string)
    ensures Encode("--" + boundary + "\r\n")
          + Encode("Content-Disposition: form-data; name=\"" + name + "\"\r\n\r\n")
          + Encode(value + "\r\n")
         == Multipart.Frame(boundary, ToPart(Field(name, value)))
  {
    DashBoundaryLine(boundary);
    FieldHeaderBytes(name, value);
    LineBytes(value);
    Regroup(Multipart.DashBoundary(boundary), Multipart.CRLF, Encode(HeaderText(Field(name, value))),
      Multipart.HeaderEnd, Encode(value), Multipart.CRLF);
  }

  /** The five appends of the recording write the file part's frame. */
  lemma FileBytes(boundary: string, name: string, fileName: string, mimeType: string, fileData: seq<byte>)
    ensures Encode("--" + boundary + "\r\n")
          + Encode("Content-Disposition: form-data; name=\"" + name + "\"; filename=\"" + fileName + "\"\r\n")
          + Encode("Content-Type: " + mimeType + "\r\n\r\n")
          + fileData + Encode("\r\n")
         == Multipart.Frame(boundary, ToPart(File(name, fileName, mimeType, fileData)))
  {
    var f := File(name, fileName, mimeType, fileData);
    DashBoundaryLine(boundary);
    FileHeaderBytes(name, fileName, mimeType, fileData);
    CrlfBytes();
    Assemble(Encode("--" + boundary + "\r\n"),
      Encode("Content-Disposition: form-data; name=\"" + name + "\"; filename=\"" + fileName + "\"\r\n"),
      Encode("Content-Type: " + mimeType + "\r\n\r\n"), fileData, Encode("\r\n"),
      Multipart.DashBoundary(boundary), Multipart.CRLF, Encode(HeaderText(f)), Multipart.HeaderEnd);
  }

  /** Appends that write a dash-boundary line, a header block and a content line, regrouped as a frame. */
  lemma Assemble(a: seq<byte>, b: seq<byte>, c: seq<byte>, x: seq<byte>, e: seq<byte>,
                 d: seq<byte>, nl: seq<byte>, h: seq<byte>, he: seq<byte>)
    requires a == d + nl && b + c == h + he && e == nl
    ensures a + b + c + x + e == d + nl + h + he + x + nl
  {
    calc {
      a + b + c + x + e;
      a + (b + c) + x + e;
      (d + nl) + (h + he) + x + nl;
    }
  }

  lemma CrlfBytes()
    ensures Encode("\r\n") == Multipart.CRLF
  {
  }

  lemma LineBytes(value: string)
    ensures Encode(value + "\r\n") == Encode(value) + Multipart.CRLF
  {
    EncodeAppend(value, "\r\n");
  }

  lemma FieldHeaderBytes(name: string, value: string)
    ensures Encode("Content-Disposition: form-data; name=\"" + name + "\"\r\n\r\n")
         == Encode(HeaderText(Field(name, value))) + Multipart.HeaderEnd
  {
    var h := HeaderText(Field(name, value));
    assert "Content-Disposition: form-data; name=\"" + name + "\"\r\n\r\n" == h + "\r\n\r\n";
    EncodeAppend(h, "\r\n\r\n");
    HeaderEndBytes();
  }

  lemma FileHeaderBytes(name: string, fileName: string, mimeType: string, fileData: seq<byte>)
    ensures Encode("Content-Disposition: form-data; name=\"" + name + "\"; filename=\"" + fileName + "\"\r\n")
          + Encode("Content-Type: " + mimeType + "\r\n\r\n")
         == Encode(HeaderText(File(name, fileName, mimeType, fileData))) + Multipart.HeaderEnd
  {
    var line1 := "Content-Disposition: form-data; name=\"" + name + "\"; filename=\"" + fileName + "\"\r\n";
    var line2 := "Content-Type: " + mimeType;
    assert HeaderText(File(name, fileName, mimeType, fileData)) == line1 + line2;
    EncodeAppend(line1, line2);
    EncodeAppend(line2, "\r\n\r\n");
    HeaderEndBytes();
    Reassociate(Encode(line1), Encode(line2), Multipart.HeaderEnd);
  }

  lemma HeaderEndBytes()
    ensures Encode("\r\n\r\n") == Multipart.HeaderEnd
  {
  }

  lemma Reassociate(a: seq<byte>, b: seq<byte>, c: seq<byte>)
    ensures a + (b + c) == (a + b) + c
  {
  }

  lemma Prefixed(d: seq<byte>, a: seq<byte>, b: seq<byte>, c: seq<byte>, e: seq<byte>, f: seq<byte>)
    ensures d + a + b + c + e + f == d + (a + b + c + e + f)
  {
  }

  lemma Regroup(a: seq<byte>, b: seq<byte>, c: seq<byte>, d: seq<byte>, e: seq<byte>, f: seq<byte>)
    ensures (a + b) + (c + d) + (e + f) == a + b + c + d + e + f
  {
  }

  /** The closing append writes the close-delimiter. */
  lemma CloseBytes(boundary: string)
    ensures Encode("--" + boundary + "--\r\n") == Multipart.CloseDelimiter(boundary)
  {
    EncodeAppend("--" + boundary, "--\r\n");
    EncodeAppend("--", boundary);
    DashesBytes();
    CloseTailBytes();
  }

  lemma DashesBytes()
    ensures Encode("--") == Multipart.Dashes
  {
  }

  lemma CloseTailBytes()
    ensures Encode("--\r\n") == Multipart.Dashes + Multipart.CRLF
  {
  }

  // ---------------------------------------------------------------------------
  // What a receiver makes of the upload.

  /** The value of the boundary parameter of a multipart/form-data media type, when it has that form. */
  function BoundaryParameter(contentType: string): (b: Option<string>)
    ensures b.Some? ==> MultipartContentType(b.value) == contentType
  {
    var prefix := "multipart/form-data; boundary=";
    if |contentType| >= |prefix| && contentType[..|prefix|] == prefix then Some(contentType[|prefix|..])
    else None
  }

  /** The boundary read back from the Content-Type header is the one the body was framed with. */
  lemma BoundaryParameterOfContentType(boundary: string)
    ensures BoundaryParameter(MultipartContentType(boundary)) == Some(boundary)
  {
    var prefix := "multipart/form-data; boundary=";
    assert MultipartContentType(boundary)[..|prefix|] == prefix;
    assert MultipartContentType(boundary)[|prefix|..] == boundary;
  }

  /** A text field whose name and value hold no carriage return can be framed by any boundary. */
  lemma FieldFramable(boundary: string, name: string, value: string)
    requires '\r' !in name && '\r' !in value
    ensures Multipart.Framable(boundary, ToPart(Field(name, value)))
  {
    var h := HeaderText(Field(name, value));
    assert '\r' !in h by {
      assert forall i :: 0 <= i < |h| ==> h[i] != '\r' by {
        forall i | 0 <= i < |h|
          ensures h[i] != '\r'
        {
          var prefix := "Content-Disposition: form-data; name=\"";
          if i < |prefix| {
            assert h[i] == prefix[i];
          } else if i < |prefix| + |name| {
            assert h[i] == name[i - |prefix|];
          } else {
            assert h[i] == '"';
          }
        }
      }
    }
    EncodeWithoutCarriageReturn(h);
    EncodeWithoutCarriageReturn(value);
    Multipart.NoCarriageReturnNoEarlyMatch(Multipart.HeaderEnd, Encode(h));
    Multipart.NoCarriageReturnNoEarlyMatch(Multipart.Delimiter(boundary), Encode(value));
  }

  lemma NoCarriageReturnConcat(a: string, b: string)
    requires '\r' !in a && '\r' !in b
    ensures '\r' !in a + b
  {
    forall i | 0 <= i < |a + b|
      ensures (a + b)[i] != '\r'
    {
      if i < |a| {
        assert (a + b)[i] == a[i];
      } else {
        assert (a + b)[i] == b[i - |a|];
      }
    }
  }

  /** The file field's header text is two lines: the disposition and the media type. */
  lemma FileHeaderLines(name: string, fileName: string, contentType: string, data: seq<byte>)
    ensures Encode(HeaderText(File(name, fileName, contentType, data)))
         == Encode("Content-Disposition: form-data; name=\"" + name + "\"; filename=\"" + fileName + "\"")
            + Multipart.CRLF + Encode("Content-Type: " + contentType)
  {
    var d := "Content-Disposition: form-data; name=\"" + name + "\"; filename=\"" + fileName + "\"";
    var t := "Content-Type: " + contentType;
    assert HeaderText(File(name, fileName, contentType, data)) == d + "\r\n" + t;
    EncodeAppend(d + "\r\n", t);
    EncodeAppend(d, "\r\n");
    CrlfBytes();
  }

  lemma FileDispositionNoCarriageReturn(name: string, fileName: string)
    requires '\r' !in name && '\r' !in fileName
    ensures '\r' !in "Content-Disposition: form-data; name=\"" + name + "\"; filename=\"" + fileName + "\""
  {
    NoCarriageReturnConcat("Content-Disposition: form-data; name=\"", name);
    NoCarriageReturnConcat("Content-Disposition: form-data; name=\"" + name, "\"; filename=\"");
    NoCarriageReturnConcat("Content-Disposition: form-data; name=\"" + name + "\"; filename=\"", fileName);
    NoCarriageReturnConcat("Content-Disposition: form-data; name=\"" + name + "\"; filename=\"" + fileName, "\"");
  }

  /**
   * The file field can be framed when its name, file name and media type hold
   * no carriage return and its bytes do not hold the delimiter.
   */
  lemma FileFramable(boundary: string, name: string, fileName: string, contentType: string, data: seq<byte>)
    requires '\r' !in name && '\r' !in fileName && '\r' !in contentType
    requires Multipart.NoEarlyMatch(Multipart.Delimiter(boundary), data)
    ensures Multipart.Framable(boundary, ToPart(File(name, fileName, contentType, data)))
  {
    var d := "Content-Disposition: form-data; name=\"" + name + "\"; filename=\"" + fileName + "\"";
    var t := "Content-Type: " + contentType;
    FileHeaderLines(name, fileName, contentType, data);
    FileDispositionNoCarriageReturn(name, fileName);
    NoCarriageReturnConcat("Content-Type: ", contentType);
    EncodeWithoutCarriageReturn(d);
    EncodeWithoutCarriageReturn(t);
    assert |Encode(t)| >= |t| > 0;
    Multipart.TwoLinesNoHeaderEnd(Encode(d), Encode(t));
  }

  /** The fixed names and values the client writes hold no carriage return. */
  lemma FixedTextNoCarriageReturn()
    ensures '\r' !in "model" && '\r' !in "language" && '\r' !in "file"
    ensures '\r' !in "response_format" && '\r' !in "json" && '\r' !in AudioMimeType
  {
  }

  lemma AllFramable(boundary: string, raw: seq<Multipart.Part>, blank: bool,
                     m: Multipart.Part, l: Multipart.Part, f: Multipart.Part, j: Multipart.Part)
    requires raw == (if blank then [m] else [m, l]) + [f, j]
    requires Multipart.Framable(boundary, m) && Multipart.Framable(boundary, l)
    requires Multipart.Framable(boundary, f) && Multipart.Framable(boundary, j)
    ensures forall i :: 0 <= i < |raw| ==> Multipart.Framable(boundary, raw[i])
  {
  }

  /**
   * A transcription upload whose model, language and file name hold no carriage
   * return, and whose recording does not hold the delimiter, splits back into
   * exactly its fields, in order.
   */
  lemma TranscriptionBodyParses(boundary: string, model: string, language: string, fileName: string, fileData: seq<byte>)
    requires '\r' !in model && '\r' !in language && '\r' !in fileName
    requires Multipart.NoEarlyMatch(Multipart.Delimiter(boundary), fileData)
    ensures Multipart.Parse(boundary, TranscriptionBody(boundary, model, language, fileName, fileData))
         == Some(ToParts(TranscriptionParts(model, language, fileName, fileData)))
  {
    var m, l := ToPart(Field("model", model)), ToPart(Field("language", language));
    var f, j := ToPart(File("file", fileName, AudioMimeType, fileData)), ToPart(Field("response_format", "json"));
    TranscriptionRawParts(model, language, fileName, fileData);
    FixedTextNoCarriageReturn();
    FieldFramable(boundary, "model", model);
    FieldFramable(boundary, "language", language);
    FileFramable(boundary, "file", fileName, AudioMimeType, fileData);
    FieldFramable(boundary, "response_format", "json");
    var raw := ToParts(TranscriptionParts(model, language, fileName, fileData));
    AllFramable(boundary, raw, IsBlank(language), m, l, f, j);
    Multipart.ParseBody(boundary, raw);
  }

  /**
   * End to end: a receiver that takes the boundary from the request's
   * Content-Type header and splits the body there recovers every field.
   */
  lemma UploadReadsBack(apiKey: string, boundary: string, model: string, language: string, fileName: string, fileData: seq<byte>)
    requires '\r' !in model && '\r' !in language && '\r' !in fileName
    requires Multipart.NoEarlyMatch(Multipart.Delimiter(boundary), fileData)
    ensures "Content-Type" in TranscriptionRequest(apiKey, boundary).headers
    ensures var b := BoundaryParameter(TranscriptionRequest(apiKey, boundary).headers["Content-Type"]);
      b.Some? && Multipart.Parse(b.value, TranscriptionBody(boundary, model, language, fileName, fileData))
              == Some(ToParts(TranscriptionParts(model, language, fileName, fileData)))
  {
    BoundaryParameterOfContentType(boundary);
    TranscriptionBodyParses(boundary, model, language, fileName, fileData);
  }

  /** The token of an Authorization value in the Bearer scheme, when it has that form. */
  function BearerToken(authorization: string): (token: Option<string>)
    ensures token.Some? ==> BearerCredentials(token.value) == authorization
  {
    var scheme := "Bearer ";
    if |authorization| >= |scheme| && authorization[..|scheme|] == scheme then Some(authorization[|scheme|..])
    else None
  }

  /** Both calls present the API key, unchanged, as a Bearer token, and the upload names its boundary. */
  lemma RequestsCarryCredentials(apiKey: string, boundary: string)
    ensures "Authorization" in TranscriptionRequest(apiKey, boundary).headers
    ensures "Authorization" in AuthenticationRequest(apiKey).headers
    ensures BearerToken(TranscriptionRequest(apiKey, boundary).headers["Authorization"]) == Some(apiKey)
    ensures BearerToken(AuthenticationRequest(apiKey).headers["Authorization"]) == Some(apiKey)
    ensures TranscriptionRequest(apiKey, boundary).httpMethod == "POST"
    ensures AuthenticationRequest(apiKey).httpMethod == "GET"
  {
    var scheme := "Bearer ";
    assert BearerCredentials(apiKey)[..|scheme|] == scheme;
    assert BearerCredentials(apiKey)[|scheme|..] == apiKey;
  }
}
