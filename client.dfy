/** The HTTP helper every provider uses (`_client.py`): URL and header assembly, the mapping from
    an error status to the SDK's exception classes, and the framing of a streamed body into
    `data:` payloads. The transport itself is not modelled: a response enters as its status, its
    text, its decoded JSON body (None when it does not decode) and, when streamed, its lines. */
module HttpClient {
  import opened Types

  /** The concrete subclasses of `APIError` that `_handle_error` raises. */
  datatype ErrorKind = AuthenticationError | NotFoundError | RateLimitError | InvalidRequestError

  /** An `APIError`: its message, `status_code` and `response` (the decoded error body). */
  datatype ApiError = ApiError(kind: ErrorKind, message: Json, statusCode: int, response: Option<Json>)

  /** What a request can raise: an API error, or a success body that is not JSON. */
  datatype ClientError = Api(error: ApiError) | BodyNotJson

  datatype Result<T> = Ok(value: T) | Err(error: ClientError)

  /** `response.ok` of the HTTP library: false exactly for 4xx and 5xx statuses. */
  predicate ResponseOk(status: int) {
    !(400 <= status < 600)
  }

  /** The message and `error_data` of `_handle_error`: `body["error"]["message"]` when the body is an
      object whose "error" entry is an object holding a message; the raw text otherwise. A `.get` on
      something that is not a dictionary raises inside the `try`, and then `error_data` is None. */
  function ErrorDetails(text: string, body: Option<Json>): (r: (Json, Option<Json>))
    ensures body.None? || !body.value.Obj? ==> r == (Str(text), None)
    ensures r.1.Some? ==> r.1 == body
    ensures (body.Some? && body.value.Obj? && "error" in body.value.fields
             && body.value.fields["error"].Obj? && "message" in body.value.fields["error"].fields)
            ==> r == (body.value.fields["error"].fields["message"], body)
    ensures r.0 != Str(text) ==> r.1 == body && body.Some?
    ensures (body.Some? && body.value.Obj?
             && ("error" !in body.value.fields
                 || (body.value.fields["error"].Obj? && "message" !in body.value.fields["error"].fields)))
            ==> r == (Str(text), body)
    ensures (body.Some? && body.value.Obj? && "error" in body.value.fields && !body.value.fields["error"].Obj?)
            ==> r == (Str(text), None)
  {
    match body
    case None => (Str(text), None)
    case Some(data) =>
      if !data.Obj? then (Str(text), None)
      else if "error" !in data.fields then (Str(text), body)
      else
        var err := data.fields["error"];
        if !err.Obj? then (Str(text), None)
        else if "message" in err.fields then (err.fields["message"], body)
        else (Str(text), body)
  }

  /** `_handle_error`: None when it returns normally (status below 400), otherwise the error it raises. */
  function HandleError(status: int, text: string, body: Option<Json>): (r: Option<ApiError>)
    ensures r.None? <==> status < 400
    ensures r.Some? ==> r.value.statusCode == status
    ensures r.Some? ==> (r.value.message, r.value.response) == ErrorDetails(text, body)
    ensures r.Some? ==> (r.value.kind == AuthenticationError <==> status == 401)
    ensures r.Some? ==> (r.value.kind == NotFoundError <==> status == 404)
    ensures r.Some? ==> (r.value.kind == RateLimitError <==> status == 429)
    ensures r.Some? ==> (r.value.kind == InvalidRequestError <==> status != 401 && status != 404 && status != 429)
  {
    var (message, data) := ErrorDetails(text, body);
    if status == 401 then Some(ApiError(AuthenticationError, message, status, data))
    else if status == 404 then Some(ApiError(NotFoundError, message, status, data))
    else if status == 429 then Some(ApiError(RateLimitError, message, status, data))
    else if status >= 400 then Some(ApiError(InvalidRequestError, message, status, data))
    else None
  }

  /** `_handle_error` is only called on a response that is not ok, and there it always raises. */
  lemma NotOkAlwaysRaises(status: int, text: string, body: Option<Json>)
    requires !ResponseOk(status)
    ensures HandleError(status, text, body).Some?
    ensures HandleError(status, text, body).value.statusCode == status
  {
  }

  /** `HttpClient.post` seen from its response: the decoded body unchanged when the response is ok,
      the mapped API error when it is not. */
  function Post(status: int, text: string, body: Option<Json>): (r: Result<Json>)
    ensures ResponseOk(status) && body.Some? ==> r == Ok(body.value)
    ensures ResponseOk(status) && body.None? ==> r == Err(BodyNotJson)
    ensures !ResponseOk(status) ==> r.Err? && r.error.Api? && Some(r.error.error) == HandleError(status, text, body)
  {
    if !ResponseOk(status) then
      NotOkAlwaysRaises(status, text, body);
      Err(Api(HandleError(status, text, body).value))
    else if body.Some? then Ok(body.value)
    else Err(BodyNotJson)
  }

  /** `str.rstrip("/")`. */
  function StripTrailingSlashes(s: string): (r: string)
    ensures |r| <= |s| && r == s[..|r|]
    ensures r == [] || r[|r| - 1] != '/'
    ensures forall i :: |r| <= i < |s| ==> s[i] == '/'
    decreases |s|
  {
    if s != [] && s[|s| - 1] == '/' then StripTrailingSlashes(s[..|s| - 1]) else s
  }

  /** A client bound to one endpoint and credential. The requests session is transport state and
      is not modelled. */
  class Client {
    const baseUrl: string
    const apiKey: string
    const defaultHeaders: map<string, string>

    ghost predicate Valid() {
      baseUrl == [] || baseUrl[|baseUrl| - 1] != '/'
    }

    /** `HttpClient.__init__`: trailing slashes are stripped from the base URL; missing default
        headers become an empty dictionary. */
    constructor (baseUrl: string, apiKey: string, defaultHeaders: Option<map<string, string>>)
      ensures Valid()
      ensures this.baseUrl == StripTrailingSlashes(baseUrl)
      ensures this.apiKey == apiKey
      ensures this.defaultHeaders == defaultHeaders.GetOr(map[])
    {
      this.baseUrl := StripTrailingSlashes(baseUrl);
      this.apiKey := apiKey;
      this.defaultHeaders := defaultHeaders.GetOr(map[]);
    }

    /** `_build_url`: the base URL followed by the endpoint; the base URL never ends in a slash, so
        an endpoint beginning with "/" is joined with exactly one. */
    function BuildUrl(endpoint: string): (url: string)
      requires Valid()
      ensures |url| == |baseUrl| + |endpoint|
      ensures url[..|baseUrl|] == baseUrl && url[|baseUrl|..] == endpoint
      ensures baseUrl != [] ==> url[|baseUrl| - 1] != '/'
    {
      baseUrl + endpoint
    }

    /** The headers of one request: the defaults, overridden key by key by the per-call headers. */
    function FinalHeaders(headers: Option<map<string, string>>): (h: map<string, string>)
      ensures h.Keys == defaultHeaders.Keys + headers.GetOr(map[]).Keys
      ensures forall k :: k in headers.GetOr(map[]) ==> h[k] == headers.GetOr(map[])[k]
      ensures forall k :: k in defaultHeaders && k !in headers.GetOr(map[]) ==> h[k] == defaultHeaders[k]
    {
      defaultHeaders + headers.GetOr(map[])
    }
  }

  /** A line that `post_stream` yields from: it starts with "data: " (so it is not empty). */
  predicate IsDataLine(line: string) {
    |line| >= 6 && line[..6] == "data: "
  }

  /** The data line that ends a stream. */
  predicate IsDoneLine(line: string) {
    IsDataLine(line) && line[6..] == "[DONE]"
  }

  /** The payloads `post_stream` yields from a list of lines: every data line without its prefix,
      in order, up to the first "[DONE]". */
  function DataPayloads(lines: seq<string>): seq<string>
    decreases |lines|
  {
    if lines == [] then []
    else if IsDoneLine(lines[0]) then []
    else if IsDataLine(lines[0]) then [lines[0][6..]] + DataPayloads(lines[1..])
    else DataPayloads(lines[1..])
  }

  /** `HttpClient.post_stream` seen from its response: the mapped error when the response is not ok,
      otherwise the payloads of its lines, read one line at a time. */
  method PostStream(status: int, text: string, body: Option<Json>, lines: seq<string>) returns (r: Result<seq<string>>)
    ensures !ResponseOk(status) ==> r.Err? && r.error.Api? && Some(r.error.error) == HandleError(status, text, body)
    ensures ResponseOk(status) ==> r == Ok(DataPayloads(lines))
  {
    if !ResponseOk(status) {
      var e := HandleError(status, text, body);
      return Err(Api(e.value));
    }
    var payloads: seq<string> := [];
    var i := 0;
    while i < |lines|
      invariant 0 <= i <= |lines|
      invariant payloads + DataPayloads(lines[i..]) == DataPayloads(lines)
    {
      var line := lines[i];
      assert lines[i..][0] == line && lines[i..][1..] == lines[i + 1..];
      if line != "" && |line| >= 6 && line[..6] == "data: " {
        var data := line[6..];
        if data == "[DONE]" {
          assert IsDoneLine(lines[i..][0]);
          assert DataPayloads(lines[i..]) == [];
          assert payloads == DataPayloads(lines);
          break;
        }
        payloads := payloads + [data];
      }
      i := i + 1;
    }
    assert payloads == DataPayloads(lines);
    r := Ok(payloads);
  }

  /** Nothing yielded is the sentinel, and every payload is the rest of a data line of the input. */
  lemma {:induction false} PayloadsComeFromDataLines(lines: seq<string>)
    ensures forall p :: p in DataPayloads(lines) ==> p != "[DONE]" && "data: " + p in lines
    decreases |lines|
  {
    if lines != [] {
      PayloadsComeFromDataLines(lines[1..]);
      forall p | p in DataPayloads(lines[1..]) ensures "data: " + p in lines {
        assert "data: " + p in lines[1..];
      }
      if IsDataLine(lines[0]) && !IsDoneLine(lines[0]) {
        assert lines[0] == lines[0][..6] + lines[0][6..];
      }
    }
  }

  /** Lines before the first "[DONE]" are framed independently of what follows them. */
  lemma {:induction false} PayloadsConcat(a: seq<string>, b: seq<string>)
    requires forall l :: l in a ==> !IsDoneLine(l)
    ensures DataPayloads(a + b) == DataPayloads(a) + DataPayloads(b)
    decreases |a|
  {
    if a == [] {
      assert a + b == b;
    } else {
      assert (a + b)[0] == a[0] && (a + b)[1..] == a[1..] + b;
      PayloadsConcat(a[1..], b);
    }
  }

  /** "[DONE]" ends the stream: it is not yielded, and nothing after it is. */
  lemma {:induction false} DoneEndsStream(before: seq<string>, done: string, after: seq<string>)
    requires forall l :: l in before ==> !IsDoneLine(l)
    requires IsDoneLine(done)
    ensures DataPayloads(before + [done] + after) == DataPayloads(before)
  {
    PayloadsConcat(before, [done] + after);
    assert before + [done] + after == before + ([done] + after);
    assert DataPayloads([done] + after) == [];
  }
}
