/** The `ask_ollama` handler of backend/main.py (lines 103-171): resolution of
    the defaults, construction of the upstream call, extraction of the answer
    of a non-streaming call and the mapping of failures to HTTP errors. */
module Dispatch {
  import opened Wrappers
  import opened ChatValidation

  /** A parsed JSON value, as `response.json()` returns it. */
  datatype Json =
    | JNull
    | JBool(b: bool)
    | JNumber(n: real)
    | JString(s: string)
    | JArray(items: seq<Json>)
    | JObject(fields: map<string, Json>)

  /** Python truthiness of a decoded JSON value. */
  predicate Truthy(j: Json) {
    match j
    case JNull => false
    case JBool(b) => b
    case JNumber(n) => n != 0.0
    case JString(s) => s != ""
    case JArray(items) => items != []
    case JObject(fields) => fields != map[]
  }

  /** The settings the handler reads from the environment. */
  datatype Config = Config(baseUrl: string, timeout: real, defaultModel: string, defaultTemperature: real)

  /** The values used when the environment sets nothing. */
  const DEFAULT_CONFIG := Config("http://localhost:11434", 60.0, "llama3.3", 0.5)

  const CHAT_PATH := "/api/chat"

  /** One element of the `messages` list sent upstream: `{"role", "content"}`. */
  datatype WireMessage = WireMessage(role: string, content: string)

  /** The JSON body posted upstream:
      `{"model", "messages", "stream", "options": {"temperature"}}`. */
  datatype Payload = Payload(model: string, messages: seq<WireMessage>, stream: bool, temperature: real)

  /** One upstream HTTP call: target URL, body and timeout. */
  datatype Call = Call(url: string, payload: Payload, timeout: real)

  /** `request.model or default_model`: an absent or empty model falls back
      to the default. */
  function ResolveModel(cfg: Config, req: ChatRequest): (model: string)
    ensures req.model.Some? && req.model.value != "" ==> model == req.model.value
    ensures req.model == None || req.model == Some("") ==> model == cfg.defaultModel
  {
    if req.model.Some? && req.model.value != "" then req.model.value else cfg.defaultModel
  }

  /** `request.temperature or default_temperature`: `None` and `0.0` are both
      falsy, so both fall back to the default. */
  function ResolveTemperature(cfg: Config, req: ChatRequest): (t: real)
    ensures req.temperature.Some? && req.temperature.value != 0.0 ==> t == req.temperature.value
    ensures req.temperature == None || req.temperature == Some(0.0) ==> t == cfg.defaultTemperature
  {
    if req.temperature.Some? && req.temperature.value != 0.0 then req.temperature.value
    else cfg.defaultTemperature
  }

  /** `[{"role": msg.role, "content": msg.content} for msg in request.messages]` */
  function Project(ms: seq<Message>): (wire: seq<WireMessage>)
    ensures |wire| == |ms|
    ensures forall i :: 0 <= i < |ms| ==>
      wire[i].role == ms[i].role && wire[i].content == ms[i].content
  {
    if ms == [] then [] else [WireMessage(ms[0].role, ms[0].content)] + Project(ms[1..])
  }

  /** `if stream:` on an `Optional[bool]`: `None` and `False` are falsy. */
  predicate StreamRequested(req: ChatRequest): (streaming: bool)
    ensures streaming <==> req.stream != None && req.stream != Some(false)
  {
    match req.stream
    case Some(b) => b
    case None => false
  }

  /** The upstream call of either branch; `stream` is the literal of that branch. */
  function BuildCall(cfg: Config, req: ChatRequest, stream: bool): (call: Call)
    ensures call.url == cfg.baseUrl + "/api/chat"
    ensures call.timeout == cfg.timeout
    ensures call.payload.stream == stream
    ensures call.payload.model == ResolveModel(cfg, req)
    ensures call.payload.temperature == ResolveTemperature(cfg, req)
    ensures |call.payload.messages| == |req.messages|
    ensures forall i :: 0 <= i < |req.messages| ==>
      call.payload.messages[i] == WireMessage(req.messages[i].role, req.messages[i].content)
  {
    Call(cfg.baseUrl + CHAT_PATH,
         Payload(ResolveModel(cfg, req), Project(req.messages), stream, ResolveTemperature(cfg, req)),
         cfg.timeout)
  }

  /** With nothing set in the environment, a request without model or
      temperature is posted to the local default server with the default
      model, temperature and timeout. */
  lemma DefaultCall(req: ChatRequest, stream: bool)
    requires req.model.None? && req.temperature.None?
    ensures var call := BuildCall(DEFAULT_CONFIG, req, stream);
      && call.url == "http://localhost:11434/api/chat"
      && call.timeout == 60.0
      && call.payload.model == "llama3.3"
      && call.payload.temperature == 0.5
  {
  }

  /** A temperature of exactly `0.0` is sent upstream as the default: `or`
      treats it as missing. */
  lemma ZeroTemperatureReplaced(cfg: Config, req: ChatRequest, stream: bool)
    requires req.temperature == Some(0.0)
    ensures BuildCall(cfg, req, stream).payload.temperature == cfg.defaultTemperature
  {
  }

  /** An exception raised inside the `try` of `ask_ollama`. */
  datatype Raised =
    | HttpException(status: int, detail: string)  // `HTTPException`, already classified
    | Timeout                                     // `httpx.TimeoutException` and its subclasses
    | ConnectError                                // `httpx.ConnectError`
    | Unexpected(text: string)                    // any other exception, with its message

  /** The error response the framework renders for an `HTTPException`. */
  datatype HttpError = HttpError(status: int, detail: string)

  const SERVICE_ERROR := "AI service error occurred"
  const TIMEOUT_DETAIL := "AI service timeout"
  const UNAVAILABLE_DETAIL := "AI service unavailable"
  const INTERNAL_DETAIL := "Internal server error"

  /** The `except` clauses of lines 161-171, tried in order. */
  function MapException(e: Raised): (h: HttpError)
    ensures e.HttpException? ==> h == HttpError(e.status, e.detail)
    ensures e.Timeout? ==> h == HttpError(504, "AI service timeout")
    ensures e.ConnectError? ==> h == HttpError(503, "AI service unavailable")
    ensures e.Unexpected? ==> h == HttpError(500, "Internal server error")
  {
    match e
    case HttpException(status, detail) => HttpError(status, detail)
    case Timeout => HttpError(504, TIMEOUT_DETAIL)
    case ConnectError => HttpError(503, UNAVAILABLE_DETAIL)
    case Unexpected(_) => HttpError(500, INTERNAL_DETAIL)
  }

  /** A classified error passes through a second mapping unchanged: mapping is
      idempotent, so an error is never wrapped twice. */
  lemma MapExceptionIdempotent(e: Raised)
    ensures var h := MapException(e);
      MapException(HttpException(h.status, h.detail)) == h
  {
  }

  /** The text of an unexpected exception never reaches the caller. */
  lemma UnexpectedTextHidden(t1: string, t2: string)
    ensures MapException(Unexpected(t1)) == MapException(Unexpected(t2))
    ensures MapException(Unexpected(t1)).detail == "Internal server error"
  {
  }

  /** What `client.post(...)` itself can raise: httpx never raises an
      `HTTPException`. */
  type PostError = e: Raised | !e.HttpException? witness Timeout

  /** What the non-streaming `client.post(...)` produced: a response with a
      status and a body that did or did not parse as JSON, or an exception. */
  datatype PostOutcome =
    | Replied(status: int, body: Option<Json>)
    | PostFailed(failure: PostError)

  /** Lines 155-159: `response.json()`, the truthiness test of `error`, and
      `response_data["message"]["content"]`. A body that is not JSON, not an
      object, or lacks `message.content` raises inside the `try`. */
  function ExtractAnswer(body: Option<Json>): (r: Result<Json, Raised>)
    ensures r.Success? <==>
      && body.Some? && body.value.JObject?
      && !("error" in body.value.fields && Truthy(body.value.fields["error"]))
      && "message" in body.value.fields && body.value.fields["message"].JObject?
      && "content" in body.value.fields["message"].fields
    ensures r.Success? ==>
      r.value == JObject(map["response" := body.value.fields["message"].fields["content"]])
    ensures (body.Some? && body.value.JObject? && "error" in body.value.fields
             && Truthy(body.value.fields["error"])) ==>
      r == Failure(HttpException(400, "AI service error occurred"))
    ensures r.Failure? ==> r.error.HttpException? || r.error.Unexpected?
  {
    match body
    case None => Failure(Unexpected("JSONDecodeError"))
    case Some(data) =>
      if !data.JObject? then Failure(Unexpected("AttributeError: object has no attribute 'get'"))
      else if "error" in data.fields && Truthy(data.fields["error"]) then
        Failure(HttpException(400, SERVICE_ERROR))
      else if "message" !in data.fields then Failure(Unexpected("KeyError: 'message'"))
      else
        var message := data.fields["message"];
        if !message.JObject? then Failure(Unexpected("TypeError"))
        else if "content" !in message.fields then Failure(Unexpected("KeyError: 'content'"))
        else Success(JObject(map["response" := message.fields["content"]]))
  }

  /** The non-streaming branch, with the exception mapping applied. */
  function NonStreamingAnswer(outcome: PostOutcome): (r: Result<Json, HttpError>)
    ensures outcome.PostFailed? ==> r == Failure(MapException(outcome.failure))
    ensures outcome.Replied? ==>
      r == match ExtractAnswer(outcome.body)
           case Success(j) => Success(j)
           case Failure(e) => Failure(MapException(e))
  {
    match outcome
    case PostFailed(e) => Failure(MapException(e))
    case Replied(_, body) =>
      match ExtractAnswer(body)
      case Success(j) => Success(j)
      case Failure(e) => Failure(MapException(e))
  }

  /** The upstream's own error text is never forwarded: any truthy `error`
      field gives the same fixed 400, whatever its value and whatever else the
      body holds. */
  lemma UpstreamErrorHidden(status1: int, status2: int, f1: map<string, Json>, f2: map<string, Json>)
    requires "error" in f1 && Truthy(f1["error"])
    requires "error" in f2 && Truthy(f2["error"])
    ensures NonStreamingAnswer(Replied(status1, Some(JObject(f1))))
         == NonStreamingAnswer(Replied(status2, Some(JObject(f2))))
         == Failure(HttpError(400, "AI service error occurred"))
  {
  }

  /** The answer is `{"response": content}` for a body with
      `{"message": {"content": content}}` and no truthy `error`. */
  lemma SuccessfulAnswer(status: int, content: Json)
    ensures NonStreamingAnswer(Replied(status, Some(JObject(map["message" := JObject(map["content" := content])]))))
         == Success(JObject(map["response" := content]))
  {
  }

  /** The HTTP status of the upstream reply is never looked at: only its
      body decides the answer. */
  lemma StatusIgnored(status1: int, status2: int, body: Option<Json>)
    ensures NonStreamingAnswer(Replied(status1, body)) == NonStreamingAnswer(Replied(status2, body))
  {
  }

  /** Errors of the non-streaming branch are one of the four fixed pairs. */
  lemma {:induction false} NonStreamingErrors(outcome: PostOutcome)
    requires NonStreamingAnswer(outcome).Failure?
    ensures NonStreamingAnswer(outcome).error in {
      HttpError(400, "AI service error occurred"), HttpError(504, "AI service timeout"),
      HttpError(503, "AI service unavailable"), HttpError(500, "Internal server error")}
  {
    match outcome
    case PostFailed(e) =>
    case Replied(_, body) =>
      var x := ExtractAnswer(body);
      if x.Failure? && x.error.HttpException? {
        assert x.error == HttpException(400, SERVICE_ERROR);
      }
  }

  /** What the endpoint hands back to the framework. */
  datatype Reply =
    | Rejected(fields: set<FieldName>)  // 422: validation failed, the handler never ran
    | JsonReply(body: Json)              // 200 with a JSON body
    | ErrorReply(error: HttpError)       // an `HTTPException` rendered by the framework
    | Streamed(call: Call)               // a `StreamingResponse` over the relay of `call`

  /** `ask_ollama` on a validated request. `upstream` is the response (or
      exception) the non-streaming POST of a call produces. The streaming
      branch returns the `StreamingResponse` at once: its relay runs later,
      outside the `try`. */
  function AskOllama(cfg: Config, req: ChatRequest, upstream: Call -> PostOutcome): (reply: Reply)
    ensures StreamRequested(req) ==> reply == Streamed(BuildCall(cfg, req, true))
    ensures !StreamRequested(req) ==>
      match NonStreamingAnswer(upstream(BuildCall(cfg, req, false)))
      case Success(j) => reply == JsonReply(j)
      case Failure(h) => reply == ErrorReply(h)
  {
    if StreamRequested(req) then Streamed(BuildCall(cfg, req, true))
    else
      match NonStreamingAnswer(upstream(BuildCall(cfg, req, false)))
      case Success(j) => JsonReply(j)
      case Failure(h) => ErrorReply(h)
  }

  /** The endpoint as the framework runs it: validation first, then the handler. */
  function HandleChat(cfg: Config, raw: RawChatRequest, upstream: Call -> PostOutcome): (reply: Reply)
    ensures Validate(raw).Failure? ==> reply == Rejected(Validate(raw).error)
    ensures Validate(raw).Success? ==> reply == AskOllama(cfg, Validate(raw).value, upstream)
  {
    match Validate(raw)
    case Failure(fields) => Rejected(fields)
    case Success(req) => AskOllama(cfg, req, upstream)
  }

  /** A rejected request never reaches the upstream: the reply is the same
      whatever the upstream would have done. An empty message list is one such
      request. */
  lemma RejectedBeforeDispatch(cfg: Config, raw: RawChatRequest, u1: Call -> PostOutcome, u2: Call -> PostOutcome)
    requires Validate(raw).Failure?
    ensures HandleChat(cfg, raw, u1) == HandleChat(cfg, raw, u2)
    ensures HandleChat(cfg, raw, u1).Rejected?
  {
  }

  /** In the streaming branch no POST is made and nothing is mapped: the
      reply is a stream over the streaming call whatever the POST would give. */
  lemma StreamingSkipsPost(cfg: Config, req: ChatRequest, u1: Call -> PostOutcome, u2: Call -> PostOutcome)
    requires StreamRequested(req)
    ensures AskOllama(cfg, req, u1) == AskOllama(cfg, req, u2)
    ensures AskOllama(cfg, req, u1).Streamed?
    ensures AskOllama(cfg, req, u1).call.payload.stream
  {
  }

  /** In the non-streaming branch a refused connection is a 503 and a timeout
      a 504, and the POST carries `"stream": false`. */
  lemma NonStreamingFailures(cfg: Config, req: ChatRequest, upstream: Call -> PostOutcome)
    requires !StreamRequested(req)
    ensures !BuildCall(cfg, req, false).payload.stream
    ensures upstream(BuildCall(cfg, req, false)) == PostFailed(ConnectError) ==>
      AskOllama(cfg, req, upstream) == ErrorReply(HttpError(503, "AI service unavailable"))
    ensures upstream(BuildCall(cfg, req, false)) == PostFailed(Timeout) ==>
      AskOllama(cfg, req, upstream) == ErrorReply(HttpError(504, "AI service timeout"))
  {
  }
}
