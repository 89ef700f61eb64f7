/** SystemHttpClient, the part of it that decides what a request turns into:
    which builder a method gets, how a transport exception becomes a status,
    how a response becomes the response info, and the guard that lets a
    request complete only once. */
module HttpClient {
  import opened Common

  const ContentTypeHeader: string := "Content-Type"
  const DefaultMime: string := "application/octet-stream"
  const JsonMime: string := "application/json"

  /** The HTTP methods of Request. */
  const MethodGet: string := "GET"
  const MethodHead: string := "HEAD"
  const MethodPost: string := "POST"
  const MethodPut: string := "PUT"

  /** The fields of a Request the client reads. */
  datatype Request = Request(httpMethod: string, urlString: string, allHeaders: map<string, string>, httpBody: seq<byte>)

  /** What createRequestBuilder builds: a GET request, or a POST/PUT request
      with a body and the body's media type (none for an empty body). */
  datatype BuiltRequest =
    | GetRequest(url: string, headers: map<string, string>)
    | BodyRequest(httpMethod: string, url: string, headers: map<string, string>, mediaType: Option<string>, body: seq<byte>)

  /** createRequestBuilder: GET and HEAD both give a GET request, POST and
      PUT a request with a body; any other method, or no request, gives
      none. A non-empty body has the Content-Type header's media type, or
      application/octet-stream without that header. */
  function CreateRequestBuilder(request: Option<Request>): Option<BuiltRequest>
  {
    if request.None? then None
    else
      var req := request.value;
      if req.httpMethod == MethodHead || req.httpMethod == MethodGet then
        Some(GetRequest(req.urlString, req.allHeaders))
      else if req.httpMethod == MethodPost || req.httpMethod == MethodPut then
        if |req.httpBody| > 0 then
          var mime := if ContentTypeHeader in req.allHeaders then req.allHeaders[ContentTypeHeader] else DefaultMime;
          Some(BodyRequest(req.httpMethod, req.urlString, req.allHeaders, Some(mime), req.httpBody))
        else
          Some(BodyRequest(req.httpMethod, req.urlString, req.allHeaders, None, []))
      else None
  }

  /** Which builder each method gets, and the body's media type. */
  lemma RequestBuilderDispatch(req: Request)
    ensures CreateRequestBuilder(None).None?
    ensures CreateRequestBuilder(Some(req)).None? <==> req.httpMethod !in {MethodGet, MethodHead, MethodPost, MethodPut}
    ensures req.httpMethod in {MethodGet, MethodHead} ==>
      CreateRequestBuilder(Some(req)) == Some(GetRequest(req.urlString, req.allHeaders))
    ensures req.httpMethod in {MethodPost, MethodPut} ==>
      var b := CreateRequestBuilder(Some(req));
      b.Some? && b.value.BodyRequest? && b.value.httpMethod == req.httpMethod &&
      b.value.headers == req.allHeaders && b.value.body == req.httpBody &&
      (|req.httpBody| == 0 ==> b.value.mediaType.None?) &&
      (|req.httpBody| > 0 && ContentTypeHeader !in req.allHeaders ==> b.value.mediaType == Some(DefaultMime)) &&
      (|req.httpBody| > 0 && ContentTypeHeader in req.allHeaders ==> b.value.mediaType == Some(req.allHeaders[ContentTypeHeader]))
  {
  }

  /** The kind of a transport exception, as far as the classifier tells
      kinds apart; every other exception is OtherException. */
  datatype ExceptionKind =
    | CancellationException
    | UnknownHostException
    | SocketTimeoutException
    | ConnectException
    | ProtocolException
    | SSLException
    | OtherException

  datatype TransportException = TransportException(kind: ExceptionKind, message: Option<string>)

  predicate StartsWith(s: string, prefix: string)
  {
    |prefix| <= |s| && s[..|prefix|] == prefix
  }

  /** String.contains. */
  predicate Contains(s: string, part: string)
    decreases |s|
  {
    StartsWith(s, part) || (|s| > 0 && Contains(s[1..], part))
  }

  predicate MessageContains(e: TransportException, part: string)
  {
    e.message.Some? && Contains(e.message.value, part)
  }

  /** msg.indexOf(prefix) == 0. */
  predicate MessageStartsWith(e: TransportException, prefix: string)
  {
    e.message.Some? && StartsWith(e.message.value, prefix)
  }

  /** getStatusCodeByException. */
  function StatusByException(e: TransportException): Status
  {
    if MessageContains(e, "Canceled") then Cancelled
    else if e.kind == CancellationException then Cancelled
    else if e.kind == UnknownHostException then UnknownHost
    else if MessageStartsWith(e, "Broken pipe") then NetworkConnectionLost
    else if e.kind == SocketTimeoutException then TimedOut
    else if e.kind == ConnectException then CannotConnectToHost
    else if e.kind == ProtocolException then NetworkProtocolError
    else if e.kind == SSLException then NetworkSSLError
    else NetworkError
  }

  /** A test of the classifier: the message contains a text, the message
      starts with a text, or the exception is of a kind. */
  datatype Test = MessageHas(part: string) | MessageBegins(prefix: string) | KindIs(kind: ExceptionKind)

  predicate Holds(t: Test, e: TransportException)
  {
    match t
    case MessageHas(part) => MessageContains(e, part)
    case MessageBegins(prefix) => MessageStartsWith(e, prefix)
    case KindIs(kind) => e.kind == kind
  }

  /** One line of the classifier: a test and the status it gives. */
  datatype Rule = Rule(test: Test, status: Status)

  /** The classifier's rules in the order they are tried. */
  function Rules(): seq<Rule>
  {
    [ Rule(MessageHas("Canceled"), Cancelled),
      Rule(KindIs(CancellationException), Cancelled),
      Rule(KindIs(UnknownHostException), UnknownHost),
      Rule(MessageBegins("Broken pipe"), NetworkConnectionLost),
      Rule(KindIs(SocketTimeoutException), TimedOut),
      Rule(KindIs(ConnectException), CannotConnectToHost),
      Rule(KindIs(ProtocolException), NetworkProtocolError),
      Rule(KindIs(SSLException), NetworkSSLError) ]
  }

  /** The status of the first rule whose test holds, `otherwise` if none. */
  function FirstMatch(rules: seq<Rule>, e: TransportException, otherwise: Status): Status
  {
    if rules == [] then otherwise
    else if Holds(rules[0].test, e) then rules[0].status
    else FirstMatch(rules[1..], e, otherwise)
  }

  /** The first match is the status of a rule that holds with no earlier
      rule holding, and `otherwise` exactly when no rule holds. */
  lemma {:induction false} FirstMatchIsFirst(rules: seq<Rule>, e: TransportException, otherwise: Status)
    ensures (exists i :: 0 <= i < |rules| && Holds(rules[i].test, e)) ==>
      exists i :: 0 <= i < |rules| && Holds(rules[i].test, e) && FirstMatch(rules, e, otherwise) == rules[i].status &&
                  forall j :: 0 <= j < i ==> !Holds(rules[j].test, e)
    ensures (forall i :: 0 <= i < |rules| ==> !Holds(rules[i].test, e)) ==> FirstMatch(rules, e, otherwise) == otherwise
  {
    if rules != [] && !Holds(rules[0].test, e) {
      FirstMatchIsFirst(rules[1..], e, otherwise);
      if exists i :: 0 <= i < |rules| && Holds(rules[i].test, e) {
        var i :| 0 <= i < |rules| && Holds(rules[i].test, e);
        assert Holds(rules[1..][i - 1].test, e);
        var k :| 0 <= k < |rules[1..]| && Holds(rules[1..][k].test, e) && FirstMatch(rules[1..], e, otherwise) == rules[1..][k].status &&
                 forall j :: 0 <= j < k ==> !Holds(rules[1..][j].test, e);
        assert Holds(rules[k + 1].test, e) && forall j :: 0 <= j < k + 1 ==> !Holds(rules[j].test, e);
      }
      if forall i :: 0 <= i < |rules| ==> !Holds(rules[i].test, e) {
        assert forall i :: 0 <= i < |rules[1..]| ==> !Holds(rules[1..][i].test, e) by {
          forall i | 0 <= i < |rules[1..]| ensures !Holds(rules[1..][i].test, e) {
            assert rules[1..][i] == rules[i + 1];
          }
        }
      }
    }
  }

  /** The classifier is the first match over its rule table, with
      NetworkError when no rule matches. */
  lemma ClassifierIsFirstMatch(e: TransportException)
    ensures StatusByException(e) == FirstMatch(Rules(), e, NetworkError)
  {
    var rs := Rules();
    assert rs[0..] == rs;
    FirstMatchStep(rs, 0, e, NetworkError);
    FirstMatchStep(rs, 1, e, NetworkError);
    FirstMatchStep(rs, 2, e, NetworkError);
    FirstMatchStep(rs, 3, e, NetworkError);
    FirstMatchStep(rs, 4, e, NetworkError);
    FirstMatchStep(rs, 5, e, NetworkError);
    FirstMatchStep(rs, 6, e, NetworkError);
    FirstMatchStep(rs, 7, e, NetworkError);
    assert rs[8..] == [];
  }

  /** One step of the first match: try rule k, else go on with the rest. */
  lemma FirstMatchStep(rules: seq<Rule>, k: nat, e: TransportException, otherwise: Status)
    requires k < |rules|
    ensures FirstMatch(rules[k..], e, otherwise) ==
      if Holds(rules[k].test, e) then rules[k].status else FirstMatch(rules[k + 1..], e, otherwise)
  {
    assert rules[k..][0] == rules[k];
    assert rules[k..][1..] == rules[k + 1..];
  }

  /** Each status, and exactly when the classifier gives it. */
  lemma ClassifierCases(e: TransportException)
    ensures StatusByException(e) == Cancelled <==> MessageContains(e, "Canceled") || e.kind == CancellationException
    ensures StatusByException(e) == UnknownHost <==> !MessageContains(e, "Canceled") && e.kind == UnknownHostException
    ensures StatusByException(e) == NetworkConnectionLost <==>
      !MessageContains(e, "Canceled") && e.kind !in {CancellationException, UnknownHostException} && MessageStartsWith(e, "Broken pipe")
    ensures StatusByException(e) == TimedOut <==>
      !MessageContains(e, "Canceled") && !MessageStartsWith(e, "Broken pipe") && e.kind == SocketTimeoutException
    ensures StatusByException(e) == CannotConnectToHost <==>
      !MessageContains(e, "Canceled") && !MessageStartsWith(e, "Broken pipe") && e.kind == ConnectException
    ensures StatusByException(e) == NetworkProtocolError <==>
      !MessageContains(e, "Canceled") && !MessageStartsWith(e, "Broken pipe") && e.kind == ProtocolException
    ensures StatusByException(e) == NetworkSSLError <==>
      !MessageContains(e, "Canceled") && !MessageStartsWith(e, "Broken pipe") && e.kind == SSLException
    ensures StatusByException(e) == NetworkError <==>
      !MessageContains(e, "Canceled") && !MessageStartsWith(e, "Broken pipe") && e.kind == OtherException
  {
  }

  /** A message that starts with "Canceled" also contains it, so such an
      exception is Cancelled whatever its kind. */
  lemma CanceledMessageWins(e: TransportException)
    requires e.message.Some? && StartsWith(e.message.value, "Canceled")
    ensures StatusByException(e) == Cancelled
  {
  }

  /** The status and message a failed call is reported with: a cancelled
      call is Cancelled with "user cancelled" whatever the exception. */
  function FailureStatus(e: TransportException, isCanceled: bool): (Status, Option<string>)
  {
    if isCanceled then (Cancelled, Some("user cancelled")) else (StatusByException(e), e.message)
  }

  lemma CancelledOverride(e: TransportException, isCanceled: bool)
    ensures isCanceled ==> FailureStatus(e, isCanceled) == (Cancelled, Some("user cancelled"))
    ensures !isCanceled ==> FailureStatus(e, isCanceled).0 == StatusByException(e)
    ensures FailureStatus(e, isCanceled).0 == Cancelled <==>
      isCanceled || MessageContains(e, "Canceled") || e.kind == CancellationException
  {
    ClassifierCases(e);
  }

  /** A Java string value together with its identity as far as `!=` on
      strings sees it: a literal is the one interned object for its text,
      a string built at run time is a new object. */
  datatype JavaString = Literal(text: string) | Built(text: string)

  /** `a != "literal"` on references. */
  predicate ReferenceDiffers(a: JavaString, literal: string)
  {
    a != Literal(literal)
  }

  datatype MediaType = MediaType(kind: string, subtype: string)

  /** The parts of an okhttp Response the client reads. `body` is None when
      reading the body fails. */
  datatype HttpResponse = HttpResponse(
    code: int,
    headers: seq<(string, string)>,
    body: Option<seq<byte>>,
    message: string,
    mediaType: Option<MediaType>)

  /** responseContentType: "" without a media type, otherwise
      type + "/" + subtype, built at run time. */
  function ResponseContentType(response: HttpResponse): (r: JavaString)
    ensures r.text == "" <==> response.mediaType.None?
    ensures response.mediaType.Some? ==>
      r.Built? && r.text == response.mediaType.value.kind + "/" + response.mediaType.value.subtype
  {
    if response.mediaType.None? then Literal("")
    else
      var t := response.mediaType.value.kind + "/" + response.mediaType.value.subtype;
      assert t[|response.mediaType.value.kind|] == '/';
      Built(t)
  }

  /** A JSON object, as the list of its members. */
  datatype JsonObject = JsonObject(members: seq<(string, string)>)

  /** The outcome of building a JSON object from text. */
  datatype JsonResult = JsonOk(obj: JsonObject) | JsonFailed(message: string)

  /** buildJsonResp: an empty body is an empty object; anything else is
      parsed (`parse` stands for org.json, `decode` for the UTF-8 decoding). */
  function BuildJsonResp(body: seq<byte>, decode: seq<byte> -> string, parse: string -> JsonResult): (r: JsonResult)
    ensures |decode(body)| == 0 ==> r == JsonOk(JsonObject([]))
    ensures |decode(body)| > 0 ==> r == parse(decode(body))
  {
    var s := decode(body);
    if |s| == 0 then JsonOk(JsonObject([])) else parse(s)
  }

  /** What handleResponse makes of the body: the status, the JSON object
      and the error message. */
  datatype BodyOutcome = BodyOutcome(status: Status, json: Option<JsonObject>, error: Option<string>)

  /** The lenient branch: a non-empty body is parsed, a failure ignored. */
  function LenientJson(body: seq<byte>, decode: seq<byte> -> string, parse: string -> JsonResult): Option<JsonObject>
  {
    var s := decode(body);
    if |s| > 0 && parse(s).JsonOk? then Some(parse(s).obj) else None
  }

  /** The body handling of handleResponse as written, where the content type
      is compared with "application/json" by reference. */
  function BodyOutcomeAsWritten(response: HttpResponse, decode: seq<byte> -> string, parse: string -> JsonResult): BodyOutcome
  {
    if response.body.None? then BodyOutcome(Http(response.code), None, Some(response.message))
    else if ReferenceDiffers(ResponseContentType(response), JsonMime) then
      BodyOutcome(Http(response.code), LenientJson(response.body.value, decode, parse), None)
    else
      match BuildJsonResp(response.body.value, decode, parse)
      case JsonOk(obj) => BodyOutcome(Http(response.code), Some(obj), None)
      case JsonFailed(msg) => BodyOutcome(ParseError, None, Some(msg))
  }

  /** The body handling as intended: a JSON response goes through
      buildJsonResp, so an empty JSON body is an empty object and a JSON body
      that does not parse is a parse error; any other body is parsed
      leniently. */
  function BodyOutcomeOf(response: HttpResponse, decode: seq<byte> -> string, parse: string -> JsonResult): BodyOutcome
  {
    if response.body.None? then BodyOutcome(Http(response.code), None, Some(response.message))
    else if ResponseContentType(response).text != JsonMime then
      BodyOutcome(Http(response.code), LenientJson(response.body.value, decode, parse), None)
    else
      match BuildJsonResp(response.body.value, decode, parse)
      case JsonOk(obj) => BodyOutcome(Http(response.code), Some(obj), None)
      case JsonFailed(msg) => BodyOutcome(ParseError, None, Some(msg))
  }

  /** As written the JSON branch is dead: the content type is never the
      literal object, so every response is parsed leniently and a parse
      error is never reported. */
  lemma AsWrittenNeverBuildsJson(response: HttpResponse, decode: seq<byte> -> string, parse: string -> JsonResult)
    ensures ReferenceDiffers(ResponseContentType(response), JsonMime)
    ensures BodyOutcomeAsWritten(response, decode, parse).status == Http(response.code)
  {
  }

  /** An "application/json" response with an empty body: as written it has
      no JSON object, as intended it has the empty object. */
  lemma AsWrittenDropsEmptyJsonObject(decode: seq<byte> -> string, parse: string -> JsonResult)
    requires decode([]) == ""
    ensures var response := HttpResponse(200, [], Some([]), "OK", Some(MediaType("application", "json")));
      BodyOutcomeAsWritten(response, decode, parse).json.None? &&
      BodyOutcomeOf(response, decode, parse).json == Some(JsonObject([]))
  {
    var response := HttpResponse(200, [], Some([]), "OK", Some(MediaType("application", "json")));
    assert ResponseContentType(response).text == JsonMime;
  }

  /** The intended body handling: a missing body reports the response
      message; a JSON body gives the empty object when empty, the parsed
      object when it parses and a parse error when it does not; any other
      body never changes the status. */
  lemma BodyOutcomeCases(response: HttpResponse, decode: seq<byte> -> string, parse: string -> JsonResult)
    ensures var r := BodyOutcomeOf(response, decode, parse);
      (response.body.None? ==> r == BodyOutcome(Http(response.code), None, Some(response.message))) &&
      (response.body.Some? && ResponseContentType(response).text == JsonMime ==>
        (|decode(response.body.value)| == 0 ==> r == BodyOutcome(Http(response.code), Some(JsonObject([])), None)) &&
        (|decode(response.body.value)| > 0 && parse(decode(response.body.value)).JsonFailed? ==>
          r.status == ParseError && r.json.None?) &&
        (|decode(response.body.value)| > 0 && parse(decode(response.body.value)).JsonOk? ==>
          r == BodyOutcome(Http(response.code), Some(parse(decode(response.body.value)).obj), None))) &&
      (response.body.Some? && ResponseContentType(response).text != JsonMime ==>
        r.status == Http(response.code) && r.error.None?)
  {
  }

  /** String.toLowerCase on ASCII letters. */
  function LowerChar(c: char): char
  {
    if 'A' <= c <= 'Z' then (c as int + 32) as char else c
  }

  function Lower(s: string): (r: string)
    ensures |r| == |s| && forall i :: 0 <= i < |s| ==> r[i] == LowerChar(s[i])
  {
    if s == [] then [] else [LowerChar(s[0])] + Lower(s[1..])
  }

  predicate IsLower(s: string)
  {
    forall i :: 0 <= i < |s| ==> !('A' <= s[i] <= 'Z')
  }

  /** The response header map: each name lower-cased, a later header
      replacing an earlier one of the same lower-cased name. */
  function HeaderMap(headers: seq<(string, string)>): map<string, string>
  {
    if headers == [] then map[]
    else HeaderMap(headers[..|headers| - 1])[Lower(headers[|headers| - 1].0) := headers[|headers| - 1].1]
  }

  /** Every name in the map is lower-case and comes from a header; every
      header's lower-cased name is in the map, with the value of the last
      header of that name. */
  lemma {:induction false} HeaderMapContents(headers: seq<(string, string)>)
    ensures forall k :: k in HeaderMap(headers) ==> IsLower(k)
    ensures forall k :: k in HeaderMap(headers) <==> exists i :: 0 <= i < |headers| && Lower(headers[i].0) == k
    ensures forall i :: 0 <= i < |headers| ==>
      (forall j :: i < j < |headers| ==> Lower(headers[j].0) != Lower(headers[i].0)) ==>
      HeaderMap(headers)[Lower(headers[i].0)] == headers[i].1
  {
    if headers != [] {
      var init := headers[..|headers| - 1];
      HeaderMapContents(init);
      var last := headers[|headers| - 1];
      forall k | k in HeaderMap(headers) ensures exists i :: 0 <= i < |headers| && Lower(headers[i].0) == k {
        if k != Lower(last.0) {
          assert k in HeaderMap(init);
          var i :| 0 <= i < |init| && Lower(init[i].0) == k;
          assert headers[i] == init[i];
        }
      }
      forall k | exists i :: 0 <= i < |headers| && Lower(headers[i].0) == k ensures k in HeaderMap(headers) {
        var i :| 0 <= i < |headers| && Lower(headers[i].0) == k;
        if i < |init| {
          assert init[i] == headers[i];
        }
      }
      forall k | k in HeaderMap(headers) ensures IsLower(k) {
        if k == Lower(last.0) {
          LowerIsLower(last.0);
        }
      }
      forall i | 0 <= i < |headers| && (forall j :: i < j < |headers| ==> Lower(headers[j].0) != Lower(headers[i].0))
        ensures HeaderMap(headers)[Lower(headers[i].0)] == headers[i].1
      {
        if i < |init| {
          assert init[i] == headers[i];
          assert forall j :: i < j < |init| ==> init[j] == headers[j];
        }
      }
    }
  }

  lemma LowerIsLower(s: string)
    ensures IsLower(Lower(s))
  {
  }

  /** ResponseInfo.create's record: the status, the header map, the JSON
      object and the error message. */
  datatype ClientResponse = ClientResponse(status: Status, headers: map<string, string>, json: Option<JsonObject>, error: Option<string>)

  /** UploadSingleRequestMetrics: the recorded response and request. */
  datatype SingleRequestMetrics = SingleRequestMetrics(response: Option<ClientResponse>, request: Option<Request>)

  /** What the transport did with the call: it failed with an exception
      (and the call may have been cancelled), or a response came back. */
  datatype Transport = Failed(e: TransportException, isCanceled: bool) | Responded(response: HttpResponse)

  class SystemHttpClient {
    var currentRequest: Option<Request>
    var metrics: Option<SingleRequestMetrics>
    var hasHttpClient: bool
    var hasCall: bool
    var hasProgress: bool
    var hasCompleteHandler: bool
    /** What the complete handler was given, in order. */
    var completed: seq<ClientResponse>

    constructor ()
      ensures currentRequest.None? && metrics.None? && !hasHttpClient && !hasCall && !hasProgress && !hasCompleteHandler
      ensures completed == []
    {
      currentRequest := None;
      metrics := None;
      hasHttpClient := false;
      hasCall := false;
      hasProgress := false;
      hasCompleteHandler := false;
      completed := [];
    }

    /** Whether a completion may still happen. */
    predicate Open()
      reads this
    {
      metrics.Some? && metrics.value.response.None?
    }

    /** releaseResource: drops the request, the handlers, the metrics, the
        client and the call. */
    method ReleaseResource()
      modifies this
      ensures currentRequest.None? && metrics.None? && !hasHttpClient && !hasCall && !hasProgress && !hasCompleteHandler
      ensures completed == old(completed)
    {
      currentRequest := None;
      hasProgress := false;
      hasCompleteHandler := false;
      metrics := None;
      hasHttpClient := false;
      hasCall := false;
    }

    /** handleError: when no completion happened yet, records and hands on
        a response with the status and message and releases everything;
        otherwise does nothing. */
    method HandleError(request: Request, status: Status, errorMsg: Option<string>)
      modifies this
      ensures !old(Open()) ==> unchanged(this)
      ensures old(Open()) ==>
        completed == old(completed) + [ClientResponse(status, map[], None, errorMsg)] && metrics.None? &&
        currentRequest.None? && !hasCall && !hasHttpClient
    {
      if metrics.None? || metrics.value.response.Some? {
        return;
      }
      var info := ClientResponse(status, map[], None, errorMsg);
      metrics := Some(metrics.value.(response := Some(info), request := Some(request)));
      completed := completed + [info];
      ReleaseResource();
    }

    /** handleResponse: when no completion happened yet, gathers the header
        map with lower-cased names, reads the body, hands on the response
        and releases everything; otherwise does nothing. */
    method HandleResponse(request: Request, response: HttpResponse, decode: seq<byte> -> string, parse: string -> JsonResult)
      modifies this
      ensures !old(Open()) ==> unchanged(this)
      ensures old(Open()) ==>
        var body := BodyOutcomeOf(response, decode, parse);
        completed == old(completed) + [ClientResponse(body.status, HeaderMap(response.headers), body.json, body.error)] &&
        metrics.None? && currentRequest.None? && !hasCall && !hasHttpClient
    {
      if metrics.None? || metrics.value.response.Some? {
        return;
      }
      var headers := response.headers;
      var responseHeader: map<string, string> := map[];
      for i := 0 to |headers|
        invariant responseHeader == HeaderMap(headers[..i])
      {
        assert headers[..i + 1][..i] == headers[..i];
        responseHeader := responseHeader[Lower(headers[i].0) := headers[i].1];
      }
      assert headers[..|headers|] == headers;
      var body := BodyOutcomeOf(response, decode, parse);
      var info := ClientResponse(body.status, responseHeader, body.json, body.error);
      metrics := Some(metrics.value.(response := Some(info), request := Some(request)));
      completed := completed + [info];
      ReleaseResource();
    }

    /** request: sets up the request, builds it, and completes once: with an
        invalid-argument error when it cannot be built, with the
        exception's status (Cancelled for a cancelled call) when the call
        fails, or with the response. */
    method SendRequest(request: Request, hasProgress: bool, transport: Transport,
                       decode: seq<byte> -> string, parse: string -> JsonResult)
      modifies this
      ensures |completed| == |old(completed)| + 1 && completed[..|old(completed)|] == old(completed)
      ensures !Open() && currentRequest.None?
      ensures CreateRequestBuilder(Some(request)).None? ==> completed[|completed| - 1].status == InvalidArgument
      ensures CreateRequestBuilder(Some(request)).Some? && transport.Failed? ==>
        completed[|completed| - 1].status == FailureStatus(transport.e, transport.isCanceled).0
      ensures CreateRequestBuilder(Some(request)).Some? && transport.Responded? ==>
        completed[|completed| - 1].status == BodyOutcomeOf(transport.response, decode, parse).status &&
        completed[|completed| - 1].headers == HeaderMap(transport.response.headers)
    {
      metrics := Some(SingleRequestMetrics(None, Some(request)));
      currentRequest := Some(request);
      hasHttpClient := true;
      this.hasProgress := hasProgress;
      hasCompleteHandler := true;
      var builder := CreateRequestBuilder(currentRequest);
      if builder.None? {
        HandleError(request, InvalidArgument, Some("invalid http request"));
        return;
      }
      hasCall := true;
      match transport
      case Failed(e, isCanceled) =>
        var failure := FailureStatus(e, isCanceled);
        HandleError(request, failure.0, failure.1);
      case Responded(response) =>
        HandleResponse(request, response, decode, parse);
    }

    /** A second completion of the same request, by either handler, changes
        nothing. */
    method CompleteTwice(request: Request, status: Status, errorMsg: Option<string>, response: HttpResponse,
                         decode: seq<byte> -> string, parse: string -> JsonResult)
      requires Open()
      modifies this
      ensures completed == old(completed) + [ClientResponse(status, map[], None, errorMsg)]
      ensures metrics.None?
    {
      HandleError(request, status, errorMsg);
      HandleResponse(request, response, decode, parse);
      HandleError(request, status, errorMsg);
    }
  }
}
