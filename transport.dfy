/**
 * The JSON-RPC 1.0 transport of the LimeSurvey RemoteControl client: it builds
 * the request envelope, posts it, and turns the HTTP response into either the
 * payload's `result` or a typed error, checking the response in a fixed order.
 *
 * The HTTP connection is a scripted Network: each exchange on it supplies the
 * request id that `rand` would have drawn and the server's answer to the
 * posted request. URI parsing, JSON decoding and Object#inspect are Ruby
 * library code, passed in as the total functions of a Runtime.
 */
module Transport {
  import opened JsonData
  import opened Errors

  const JsonRpcVersion := "1.0"

  /** Request ids are drawn by `rand(10**12)`. */
  const IdBound := 1_000_000_000_000

  type RequestId = id: int | 0 <= id < IdBound

  /** What a library parser returns: a value, or the message of the exception it raised. */
  datatype Parse<+T> = Parsed(value: T) | Unparsable(message: string)

  /** The library code the transport calls: URI.parse(..).to_s, MultiJson.decode and Object#inspect. */
  datatype Runtime = Runtime(
    parseUri: string -> Parse<string>,
    decode: string -> Parse<Json>,
    inspect: Json -> string)

  /** An HTTP response as far as the transport looks at it: its body, possibly nil. */
  datatype HttpResponse = HttpResponse(body: Option<string>)

  /** What `connection.post` gives back: a response object (possibly nil), or an HTTP-layer failure. */
  datatype Reply = Delivered(response: Option<HttpResponse>) | Failed(message: string)

  /** One scripted round trip: the id `make_id` draws, and how the server answers a post to a URI. */
  datatype Exchange = Exchange(id: RequestId, answer: (string, Json) -> Reply)

  /** A request as it was posted: the endpoint and the JSON envelope. */
  datatype Post = Post(uri: string, request: Json)

  /** The content of a JSON-RPC 1.0 request. */
  datatype Request = Request(methodName: string, params: seq<Json>, id: int)

  /** The result of one invocation: its outcome, the exchanges left and what was posted. */
  datatype Trip = Trip(outcome: Outcome<Json>, pending: seq<Exchange>, posted: seq<Post>)

  /** The failure an exhausted network script stands for: no further round trip can happen. */
  const NoExchangeLeft := "connection failed: the network answers no further requests"


  // ---------------------------------------------------------------------------
  // The request envelope
  // ---------------------------------------------------------------------------

  /** The JSON object `invoke` encodes and posts. */
  function Envelope(name: string, args: seq<Json>, id: int): (j: Json)
    ensures j.JObject? && j.fields.Keys == {"jsonrpc", "method", "params", "id"}
    ensures RequestOf(j) == Some(Request(name, args, id))
  {
    JObject(map[
      "jsonrpc" := JString(JsonRpcVersion),
      "method" := JString(name),
      "params" := JArray(args),
      "id" := JInt(id)])
  }

  /** Reads a JSON-RPC 1.0 request out of a JSON object with exactly the four request keys. */
  function RequestOf(j: Json): Option<Request>
  {
    if j.JObject? && j.fields.Keys == {"jsonrpc", "method", "params", "id"}
       && j.fields["jsonrpc"] == JString(JsonRpcVersion)
       && j.fields["method"].JString? && j.fields["params"].JArray? && j.fields["id"].JInt?
    then Some(Request(j.fields["method"].s, j.fields["params"].items, j.fields["id"].i))
    else None
  }

  /** An object read as a request is exactly the envelope of that request: nothing else is sent. */
  lemma EnvelopeIsExactly(j: Json, r: Request)
    requires RequestOf(j) == Some(r)
    ensures j == Envelope(r.methodName, r.params, r.id)
  {
    var e := Envelope(r.methodName, r.params, r.id);
    assert forall k :: k in j.fields ==> j.fields[k] == e.fields[k];
    assert j.fields == e.fields;
  }

  // ---------------------------------------------------------------------------
  // Response validation
  // ---------------------------------------------------------------------------

  /** Ruby's `payload['id'] == request_id`: an equal Integer, or a Float of equal value. */
  predicate SameId(j: Json, requestId: int) {
    j == JInt(requestId) || (j.JReal? && j.r == requestId as real)
  }

  /** A JSON-RPC error object with an Integer `code` and a String `message`. */
  predicate WellFormedErrorBody(e: Json) {
    && e.JObject?
    && "code" in e.fields && e.fields["code"].JInt?
    && "message" in e.fields && e.fields["message"].JString?
  }

  /**
   * A JSON-RPC 1.0 response to request `requestId`: a Hash echoing the id, with
   * both a `result` and an `error` key, whose error, unless nil or false, is a
   * well-formed error object.
   */
  predicate WellFormedPayload(p: Json, requestId: int) {
    && p.JObject?
    && "id" in p.fields && SameId(p.fields["id"], requestId)
    && "result" in p.fields && "error" in p.fields
    && (Truthy(p.fields["error"]) ==> WellFormedErrorBody(p.fields["error"]))
  }

  /** verify_response: there is a response, it has a body, and the body is not empty. */
  function VerifyResponse(response: Option<HttpResponse>): (r: Check)
    ensures r.Pass? <==> response.Some? && response.value.body.Some? && response.value.body.value != ""
    ensures response.None? ==> r == Fail(InvalidResponse(ResponseIsNil))
    ensures response.Some? && response.value.body.None? ==> r == Fail(InvalidResponse(BodyIsNil))
    ensures response.Some? && response.value.body == Some("") ==> r == Fail(InvalidResponse(BodyIsEmpty))
  {
    if response.None? then Fail(InvalidResponse(ResponseIsNil))
    else if response.value.body.None? then Fail(InvalidResponse(BodyIsNil))
    else if response.value.body.value == "" then Fail(InvalidResponse(BodyIsEmpty))
    else Pass
  }

  /** payload_from: decode the body; a decoder failure becomes InvalidResponse with its message. */
  function PayloadFrom(body: string, rt: Runtime): (r: Outcome<Json>)
    ensures r.Ok? <==> rt.decode(body).Parsed?
    ensures r.Err? ==> r.error.InvalidResponse? && r.error.flaw.Undecodable?
    ensures r.Ok? ==> r.value == rt.decode(body).value
    ensures r.Err? ==> r.error == InvalidResponse(Undecodable(rt.decode(body).message))
  {
    match rt.decode(body)
    case Parsed(j) => Ok(j)
    case Unparsable(m) => Err(InvalidResponse(Undecodable(m)))
  }

  /** The checks verify_payload runs on a truthy `error` value, in their order. */
  function VerifyErrorBody(e: Json): (r: Check)
    ensures r.Pass? <==> WellFormedErrorBody(e)
    ensures r.Fail? ==> r.error.InvalidResponse?
    ensures !e.JObject? ==> r == Fail(InvalidResponse(ErrorNotAHash))
    ensures e.JObject? && "code" !in e.fields ==> r == Fail(InvalidResponse(ErrorMissingCode))
    ensures e.JObject? && "code" in e.fields && !e.fields["code"].JInt? ==>
      r == Fail(InvalidResponse(ErrorCodeNotNumber))
    ensures e.JObject? && "code" in e.fields && e.fields["code"].JInt? && "message" !in e.fields ==>
      r == Fail(InvalidResponse(ErrorMissingMessage))
    ensures e.JObject? && "code" in e.fields && e.fields["code"].JInt?
            && "message" in e.fields && !e.fields["message"].JString? ==>
      r == Fail(InvalidResponse(ErrorMessageNotString))
  {
    if !e.JObject? then Fail(InvalidResponse(ErrorNotAHash))
    else if "code" !in e.fields then Fail(InvalidResponse(ErrorMissingCode))
    else if !e.fields["code"].JInt? then Fail(InvalidResponse(ErrorCodeNotNumber))
    else if "message" !in e.fields then Fail(InvalidResponse(ErrorMissingMessage))
    else if !e.fields["message"].JString? then Fail(InvalidResponse(ErrorMessageNotString))
    else Pass
  }

  /** verify_payload: the structural checks on the decoded body, in their order. */
  function VerifyPayload(p: Json, requestId: int, inspect: Json -> string): (r: Check)
    ensures r.Pass? <==> WellFormedPayload(p, requestId)
    ensures r.Fail? ==> r.error.InvalidResponse?
    ensures !p.JObject? ==> r == Fail(InvalidResponse(BodyNotAHash))
    ensures p.JObject? && "id" !in p.fields ==> r == Fail(InvalidResponse(BodyMissingId))
    ensures p.JObject? && "id" in p.fields && !SameId(p.fields["id"], requestId) ==>
      r == Fail(InvalidResponse(IdMismatch(ToS(p.fields["id"], inspect), requestId)))
    ensures p.JObject? && "id" in p.fields && SameId(p.fields["id"], requestId)
            && !("error" in p.fields && "result" in p.fields) ==>
      r == Fail(InvalidResponse(BodyMissingResultOrError))
    ensures p.JObject? && "id" in p.fields && SameId(p.fields["id"], requestId)
            && "error" in p.fields && "result" in p.fields && Truthy(p.fields["error"]) ==>
      r == VerifyErrorBody(p.fields["error"])
  {
    if !p.JObject? then Fail(InvalidResponse(BodyNotAHash))
    else if "id" !in p.fields then Fail(InvalidResponse(BodyMissingId))
    else if !SameId(p.fields["id"], requestId) then
      Fail(InvalidResponse(IdMismatch(ToS(p.fields["id"], inspect), requestId)))
    else if !("error" in p.fields && "result" in p.fields) then
      Fail(InvalidResponse(BodyMissingResultOrError))
    else if Truthy(p.fields["error"]) then VerifyErrorBody(p.fields["error"])
    else Pass
  }

  /** The response's body decodes to `p`: the response passed verify_response and payload_from. */
  ghost predicate Carries(response: Option<HttpResponse>, rt: Runtime, p: Json) {
    && response.Some? && response.value.body.Some? && response.value.body.value != ""
    && rt.decode(response.value.body.value) == Parsed(p)
  }

  /** process_response: the result of a well-formed answer, or the first check that fails. */
  function ProcessResponse(response: Option<HttpResponse>, requestId: int, rt: Runtime): (r: Outcome<Json>)
    ensures r.Err? ==> r.error.InvalidResponse? || r.error.ServerError?
    ensures r.Err? ==> r.error.IsLimeadeError()
  {
    match VerifyResponse(response)
    case Fail(e) => Err(e)
    case Pass =>
      match PayloadFrom(response.value.body.value, rt)
      case Err(e) => Err(e)
      case Ok(payload) =>
        match VerifyPayload(payload, requestId, rt.inspect)
        case Fail(e) => Err(e)
        case Pass =>
          var error := payload.fields["error"];
          if Truthy(error) then
            Err(ServerError(error.fields["code"].i, error.fields["message"].s))
          else
            Ok(payload.fields["result"])
  }

  /**
   * Nothing but a well-formed answer to this very request gets through: a
   * value comes from the `result` of a decoded, well-formed payload whose error
   * is nil or false, and a ServerError from its well-formed error object.
   */
  lemma ProcessResponseSound(response: Option<HttpResponse>, requestId: int, rt: Runtime)
    ensures var r := ProcessResponse(response, requestId, rt);
      r.Ok? ==>
        exists p :: Carries(response, rt, p) && WellFormedPayload(p, requestId)
                    && !Truthy(p.fields["error"]) && r.value == p.fields["result"]
    ensures var r := ProcessResponse(response, requestId, rt);
      r.Err? && r.error.ServerError? ==>
        exists p :: Carries(response, rt, p) && WellFormedPayload(p, requestId)
                    && Truthy(p.fields["error"])
                    && r.error == ServerError(p.fields["error"].fields["code"].i,
                                              p.fields["error"].fields["message"].s)
  {
    var r := ProcessResponse(response, requestId, rt);
    if r.Ok? || r.error.ServerError? {
      var p := rt.decode(response.value.body.value).value;
      assert Carries(response, rt, p);
    }
  }

  /** A well-formed answer without an error yields its `result` as it is, whatever its JSON type. */
  lemma ResultReturnedVerbatim(response: Option<HttpResponse>, requestId: int, rt: Runtime, p: Json)
    requires Carries(response, rt, p) && WellFormedPayload(p, requestId)
    requires !Truthy(p.fields["error"])
    ensures ProcessResponse(response, requestId, rt) == Ok(p.fields["result"])
  {
  }

  /** A well-formed error object always wins, even when `result` is also present and not nil. */
  lemma ServerErrorTakesPrecedence(response: Option<HttpResponse>, requestId: int, rt: Runtime, p: Json)
    requires Carries(response, rt, p) && WellFormedPayload(p, requestId)
    requires Truthy(p.fields["error"])
    ensures ProcessResponse(response, requestId, rt)
         == Err(ServerError(p.fields["error"].fields["code"].i, p.fields["error"].fields["message"].s))
  {
  }

  /** A body the decoder rejects yields InvalidResponse carrying the decoder's message. */
  lemma UndecodableBody(response: Option<HttpResponse>, requestId: int, rt: Runtime, message: string)
    requires response.Some? && response.value.body.Some? && response.value.body.value != ""
    requires rt.decode(response.value.body.value) == Unparsable(message)
    ensures ProcessResponse(response, requestId, rt) == Err(InvalidResponse(Undecodable(message)))
  {
  }

  /**
   * The id echo: a decoded Hash whose id differs from the request's is rejected
   * with a message naming both ids, whatever its result and error hold.
   */
  lemma IdEchoEnforced(response: Option<HttpResponse>, requestId: int, rt: Runtime, p: Json)
    requires Carries(response, rt, p)
    requires p.JObject? && "id" in p.fields && !SameId(p.fields["id"], requestId)
    ensures ProcessResponse(response, requestId, rt)
         == Err(InvalidResponse(IdMismatch(ToS(p.fields["id"], rt.inspect), requestId)))
  {
  }

  /** Both keys must be present, even with nil values; a missing one is reported before any error check. */
  lemma BothKeysRequired(response: Option<HttpResponse>, requestId: int, rt: Runtime, p: Json)
    requires Carries(response, rt, p)
    requires p.JObject? && "id" in p.fields && SameId(p.fields["id"], requestId)
    requires "result" !in p.fields || "error" !in p.fields
    ensures ProcessResponse(response, requestId, rt) == Err(InvalidResponse(BodyMissingResultOrError))
  {
  }

  /** A nil or false `error` counts as no error: the result comes back even beside `"error": false`. */
  lemma FalseErrorIsNoError(response: Option<HttpResponse>, requestId: int, rt: Runtime, p: Json)
    requires Carries(response, rt, p)
    requires p.JObject? && "id" in p.fields && SameId(p.fields["id"], requestId)
    requires "result" in p.fields && "error" in p.fields && p.fields["error"] == JBool(false)
    ensures ProcessResponse(response, requestId, rt) == Ok(p.fields["result"])
  {
  }

  // ---------------------------------------------------------------------------
  // Invocation over the network
  // ---------------------------------------------------------------------------

  /**
   * One `invoke`: the envelope is posted once to `uri` with the id the next
   * exchange supplies, and the server's answer is processed for that id.
   */
  function Call(uri: string, rt: Runtime, pending: seq<Exchange>, name: string, args: seq<Json>): (t: Trip)
    ensures |pending| == 0 ==> t.outcome == Err(ConnectionFailed(NoExchangeLeft)) && t.pending == [] && t.posted == []
    ensures |pending| > 0 ==>
      && t.pending == pending[1..] && |t.posted| == 1 && t.posted[0].uri == uri
      && RequestOf(t.posted[0].request) == Some(Request(name, args, pending[0].id))
      && 0 <= pending[0].id < IdBound
    ensures t.outcome.Err? ==> t.outcome.error.InvalidResponse? || t.outcome.error.ServerError? || t.outcome.error.ConnectionFailed?
    ensures t.outcome.Err? ==> t.outcome.error.IsLimeadeError() || t.outcome.error.ConnectionFailed?
  {
    if |pending| == 0 then Trip(Err(ConnectionFailed(NoExchangeLeft)), [], [])
    else
      var x := pending[0];
      var request := Envelope(name, args, x.id);
      var outcome :=
        match x.answer(uri, request)
        case Failed(m) => Err(ConnectionFailed(m))
        case Delivered(response) => ProcessResponse(response, x.id, rt);
      Trip(outcome, pending[1..], [Post(uri, request)])
  }

  /**
   * The outcome of `invoke` is the server's answer to the envelope it posted,
   * judged against the id that envelope carries: a failed exchange is a
   * ConnectionFailed with its message, a delivered response goes through
   * process_response for the posted id.
   */
  lemma CallJudgesPostedId(uri: string, rt: Runtime, pending: seq<Exchange>, name: string, args: seq<Json>)
    requires |pending| > 0
    ensures var t := Call(uri, rt, pending, name, args);
      var sent := t.posted[0].request;
      RequestOf(sent).Some? &&
      match pending[0].answer(uri, sent)
      case Failed(m) => t.outcome == Err(ConnectionFailed(m))
      case Delivered(response) => t.outcome == ProcessResponse(response, RequestOf(sent).value.id, rt)
  {
    var t := Call(uri, rt, pending, name, args);
    assert RequestOf(t.posted[0].request) == Some(Request(name, args, pending[0].id));
  }

  /** The HTTP side: the round trips still to come, and every request posted so far. */
  class Network {
    var pending: seq<Exchange>
    var posted: seq<Post>

    constructor (script: seq<Exchange>)
      ensures pending == script && posted == []
    {
      pending := script;
      posted := [];
    }
  }

  /** Limeade::JSON_RPC: the validated endpoint and the retry options handed to the HTTP layer. */
  class JsonRpc {
    const uri: string
    const retryOptions: map<string, Json>
    const rt: Runtime

    constructor (uri: string, retryOptions: map<string, Json>, rt: Runtime)
      ensures this.uri == uri && this.retryOptions == retryOptions && this.rt == rt
    {
      this.uri := uri;
      this.retryOptions := retryOptions;
      this.rt := rt;
    }

    /** JSON_RPC.new: rejects an endpoint that is not a URI, stores its string form, and nil options as {}. */
    static method New(endpoint: string, retryOptions: Option<map<string, Json>>, rt: Runtime)
      returns (r: Outcome<JsonRpc>)
      ensures rt.parseUri(endpoint).Unparsable? ==> r == Err(InvalidUri(rt.parseUri(endpoint).message))
      ensures rt.parseUri(endpoint).Parsed? ==>
        && r.Ok? && fresh(r.value) && r.value.uri == rt.parseUri(endpoint).value && r.value.rt == rt
        && r.value.retryOptions == (if retryOptions.None? then map[] else retryOptions.value)
    {
      match rt.parseUri(endpoint)
      case Unparsable(m) =>
        r := Err(InvalidUri(m));
      case Parsed(text) =>
        var options := if retryOptions.None? then map[] else retryOptions.value;
        var t := new JsonRpc(text, options, rt);
        r := Ok(t);
    }

    /** invoke: draws the id, posts the envelope, and processes the answer. */
    method Invoke(net: Network, name: string, args: seq<Json>) returns (r: Outcome<Json>)
      modifies net
      ensures var t := Call(uri, rt, old(net.pending), name, args);
        r == t.outcome && net.pending == t.pending && net.posted == old(net.posted) + t.posted
    {
      if |net.pending| == 0 {
        return Err(ConnectionFailed(NoExchangeLeft));
      }
      var exchange := net.pending[0];
      var requestId := exchange.id;
      var request := Envelope(name, args, requestId);
      var reply := exchange.answer(uri, request);
      net.pending := net.pending[1..];
      net.posted := net.posted + [Post(uri, request)];
      match reply
      case Failed(m) =>
        r := Err(ConnectionFailed(m));
      case Delivered(response) =>
        r := ProcessResponse(response, requestId, rt);
    }
  }
}
