/** handleHttpRequest (index.js:44-102): the validation chain that maps an inbound request to
    a status code and status message, the gating of the storage handler, and the response. */
module HttpHandler {
  import opened Wrappers
  import opened Json
  import JsString
  import opened RequestHandler

  /** What the `body/json` decoder reports for the request body. */
  datatype BodyDecode = Decoded(value: Json) | DecodeError

  /** An inbound request; `verb` is `request.method`. Node.js lower-cases header names, so the content type is found
      under "content-type". */
  datatype Request = Request(verb: string, headers: map<string, string>, body: BodyDecode)

  /** A header value as `setHeader` receives it: a text or a number. */
  datatype HeaderValue = Text(s: string) | Number(n: nat)

  const JsonMediaType: string := "application/json"

  /** `!request.headers["content-type"]`: the header is absent or is the (falsy) empty text. */
  predicate NoContentType(req: Request)
  {
    "content-type" !in req.headers || req.headers["content-type"] == ""
  }

  /** A POST whose content type starts with "application/json" (a prefix test, so parameters
      such as "; charset=utf-8" may follow). */
  predicate Admissible(req: Request)
  {
    && req.verb == "POST"
    && !NoContentType(req)
    && JsonMediaType <= req.headers["content-type"]
  }

  /** The locals `status`, `statusMessage` and `message` when the validation try-block ends. */
  datatype Stage = Stage(status: int, statusMessage: string, message: Json)

  /** The validation chain: the checks run in a fixed order and the first that fails decides. */
  function Validation(req: Request): (s: Stage)
    ensures s.status == 405 <==> req.verb != "POST"
    ensures s.status == 200 <==> Admissible(req) && req.body.Decoded?
    ensures s.status == 400 <==> req.verb == "POST" && !(Admissible(req) && req.body.Decoded?)
    ensures s.status == 200 <==> s.statusMessage == "OK"
    ensures s.status == 200 ==> req.body == Decoded(s.message)
    ensures s.status != 200 ==> s.message == JNull
  {
    if req.verb != "POST" then Stage(405, "Only POST supported", JNull)
    else if NoContentType(req) then Stage(400, "No Content-Type", JNull)
    else if !(JsonMediaType <= req.headers["content-type"]) then Stage(400, "Has to be application/json", JNull)
    else match req.body
      case DecodeError => Stage(400, "Bad JSON body", JNull)
      case Decoded(v) => Stage(200, "OK", v)
  }

  /** Everything handleHttpRequest does to the response, and the storage call it causes:
      the status code and message assigned, the headers set, the text written. */
  datatype Reply = Reply(statusCode: int, status: string, headers: map<string, HeaderValue>,
                         written: string, put: Option<PutRequest>)

  /** The response to a request with nothing set and nothing written. */
  function Bare(statusCode: int, status: string): Reply
  {
    Reply(statusCode, status, map[], "", None)
  }

  /** The headers of a successful response carrying `body`. */
  function JsonHeaders(body: string): map<string, HeaderValue>
  {
    map["Content-Type" := Text(JsonMediaType), "Content-Length" := Number(JsString.Length(body))]
  }

  /** The specification of handleHttpRequest. `time` is the instant the handler reads,
      `answer` what the storage would reply to a put, and `stringify` is `JSON.stringify`. */
  function Respond(req: Request, time: Instant, answer: PutAnswer, stringify: Json -> string): (r: Reply)
    // the method check comes first: a non-POST gets 405 whatever its headers and body
    ensures req.verb != "POST" ==> r == Bare(405, "Only POST supported")
    ensures req.verb == "POST" && NoContentType(req) ==> r == Bare(400, "No Content-Type")
    ensures req.verb == "POST" && !NoContentType(req) && !Admissible(req) ==>
              r == Bare(400, "Has to be application/json")
    ensures Admissible(req) && req.body.DecodeError? ==> r == Bare(400, "Bad JSON body")
    // a body that decodes to null passes validation but skips the handler
    ensures Admissible(req) && req.body == Decoded(JNull) ==> r == Bare(200, "OK")
    ensures r.statusCode in {200, 400, 405, 500}
    // storage is reached only when every check passed and the message is not null
    ensures r.put.Some? <==> Admissible(req) && req.body.Decoded? && AcceptsProperties(req.body.value)
    ensures r.put.Some? ==> r.put == Some(PutRequest(TemperatureTable, ItemOf(req.body.value, time)))
    ensures r.statusCode in {400, 405} ==> r.put.None? && r.headers == map[] && r.written == ""
    // a rejected handler gives 500 and no body
    ensures r.statusCode == 500 <==>
              Admissible(req) && req.body.Decoded? && req.body.value != JNull
              && !(AcceptsProperties(req.body.value) && answer.Stored?)
    ensures r.statusCode == 500 ==> r.status == "Internal server error" && r.headers == map[] && r.written == ""
    // a resolved handler gives 200 with its serialised data and the matching headers
    ensures r.written != "" || r.headers != map[] ==> r.put.Some? && answer.Stored?
    ensures r.put.Some? && answer.Stored? ==>
              && r.statusCode == 200 && r.status == "OK"
              && r.written == stringify(answer.data)
              && r.headers.Keys == {"Content-Type", "Content-Length"}
              && r.headers["Content-Type"] == Text(JsonMediaType)
              && r.headers["Content-Length"] == Number(JsString.Length(r.written))
  {
    var stage := Validation(req);
    if stage.status == 200 && stage.message != JNull then
      var h := Handled(stage.message, time, answer);
      match h.outcome
      case Success(data) =>
        var body := stringify(data);
        Reply(stage.status, stage.statusMessage, JsonHeaders(body), body, h.put)
      case Failure(_) =>
        Reply(500, "Internal server error", map[], "", h.put)
    else
      Bare(stage.status, stage.statusMessage)
  }

  /** The Node.js response object, as far as handleHttpRequest uses it. `status` is the
      property the source assigns its status message to. `headersSent` becomes true with the
      first write, after which Node.js refuses `setHeader`. */
  class Response {
    var statusCode: int
    var status: string
    var headers: map<string, HeaderValue>
    var written: string
    var headersSent: bool
    var ended: bool

    /** A response as Node.js hands it to the request listener. Node.js gives it no `status`
        property at all; the empty text stands in for that absent value, and handleHttpRequest
        always assigns it before ending the response. */
    constructor ()
      ensures statusCode == 200 && status == "" && headers == map[] && written == ""
      ensures !headersSent && !ended
    {
      statusCode := 200;
      status := "";
      headers := map[];
      written := "";
      headersSent := false;
      ended := false;
    }

    method SetHeader(name: string, value: HeaderValue)
      requires !headersSent && !ended
      modifies this
      ensures headers == old(headers)[name := value]
      ensures statusCode == old(statusCode) && status == old(status)
      ensures written == old(written) && headersSent == old(headersSent) && ended == old(ended)
    {
      headers := headers[name := value];
    }

    method Write(chunk: string)
      requires !ended
      modifies this
      ensures written == old(written) + chunk && headersSent
      ensures statusCode == old(statusCode) && status == old(status)
      ensures headers == old(headers) && ended == old(ended)
    {
      written := written + chunk;
      headersSent := true;
    }

    method End()
      modifies this
      ensures ended && headersSent
      ensures statusCode == old(statusCode) && status == old(status)
      ensures headers == old(headers) && written == old(written)
    {
      headersSent := true;
      ended := true;
    }
  }

  /** handleHttpRequest: the throws of the validation try-block become breaks out of the
      labelled block; the handler runs only when status is 200 and the message is not null. */
  method HandleHttpRequest(request: Request, response: Response, time: Instant,
                           answer: PutAnswer, stringify: Json -> string)
    returns (put: Option<PutRequest>)
    requires !response.headersSent && !response.ended
    modifies response
    ensures var r := Respond(request, time, answer, stringify);
      && response.statusCode == r.statusCode
      && response.status == r.status
      && response.headers == old(response.headers) + r.headers
      && response.written == old(response.written) + r.written
      && response.headersSent && response.ended
      && put == r.put
  {
    ghost var r := Respond(request, time, answer, stringify);
    ghost var headers0, written0 := response.headers, response.written;
    var status := 200;
    var statusMessage := "";
    var message := JNull;
    put := None;

    label validation: {
      if request.verb != "POST" { statusMessage := "Only POST supported"; status := 405; break validation; }
      if NoContentType(request) { statusMessage := "No Content-Type"; status := 400; break validation; }
      if !(JsonMediaType <= request.headers["content-type"]) {
        statusMessage := "Has to be application/json"; status := 400; break validation;
      }
      statusMessage := "Bad JSON body";
      match request.body {
        case DecodeError => status := 400; break validation;
        case Decoded(v) => message := v;
      }
      statusMessage := "OK";
    }
    assert Stage(status, statusMessage, message) == Validation(request);

    if status == 200 && message != JNull {
      var outcome;
      put, outcome := HandleRequest(message, time, answer);
      match outcome {
        case Success(data) =>
          var responseBody := stringify(data);
          response.SetHeader("Content-Type", Text(JsonMediaType));
          response.SetHeader("Content-Length", Number(JsString.Length(responseBody)));
          response.Write(responseBody);
          assert response.headers == headers0 + JsonHeaders(responseBody);
          assert r == Reply(status, statusMessage, JsonHeaders(responseBody), responseBody, put);
        case Failure(_) =>
          status := 500;
          statusMessage := "Internal server error";
          assert r == Reply(status, statusMessage, map[], "", put);
      }
    } else {
      assert r == Bare(status, statusMessage);
    }
    assert response.headers == headers0 + r.headers && response.written == written0 + r.written;

    response.statusCode := status;
    response.status := statusMessage;
    response.End();
  }

  /** On success Content-Length is the body's character count exactly when the serialised
      body has no character outside the Basic Multilingual Plane. */
  lemma ContentLengthIsCharCountIffBmp(req: Request, time: Instant, answer: PutAnswer,
                                       stringify: Json -> string)
    requires Respond(req, time, answer, stringify).put.Some? && answer.Stored?
    ensures var r := Respond(req, time, answer, stringify);
      r.headers["Content-Length"] == Number(|r.written|) <==>
      forall i :: 0 <= i < |r.written| ==> JsString.InBmp(r.written[i])
  {
    JsString.LengthIsCharCountIffBmp(Respond(req, time, answer, stringify).written);
  }

  /** On success Content-Length equals the number of bytes Node.js writes for the body
      (its UTF-8 encoding) exactly when the body is plain ASCII; for any other body the header
      is smaller than the body sent. */
  lemma ContentLengthIsByteCountIffAscii(req: Request, time: Instant, answer: PutAnswer,
                                         stringify: Json -> string)
    requires Respond(req, time, answer, stringify).put.Some? && answer.Stored?
    ensures var r := Respond(req, time, answer, stringify);
      && r.headers["Content-Length"].n <= JsString.Utf8Length(r.written)
      && (r.headers["Content-Length"] == Number(JsString.Utf8Length(r.written)) <==>
          forall i :: 0 <= i < |r.written| ==> JsString.IsAscii(r.written[i]))
  {
    JsString.Utf8LengthIsLengthIffAscii(Respond(req, time, answer, stringify).written);
  }

  /** The prefix test accepts "application/json" followed by anything, for instance the
      parameter "; charset=utf-8". */
  lemma JsonMediaTypeWithAnySuffixIsAdmissible(suffix: string, body: BodyDecode)
    ensures Admissible(Request("POST", map["content-type" := JsonMediaType + suffix], body))
  {
  }

  /** A POST whose content type does not begin with exactly the characters of
      "application/json" (a shorter text, or any of those characters differing, in case
      too) is refused. */
  lemma OtherLeadingTextIsRefused(req: Request, k: nat)
    requires req.verb == "POST" && "content-type" in req.headers
    requires k < |JsonMediaType|
    requires k < |req.headers["content-type"]| ==> req.headers["content-type"][k] != JsonMediaType[k]
    ensures !Admissible(req)
  {
  }
}
