/**
 * The request router of the Worker (cloudflare-workers-openai-agent/src/index.ts,
 * `fetch`): an ordered chain of checks on the path, the method, the parsed
 * body, the `message` field and the API key, each ending in one response.
 *
 * The agent SDK is an input: `run` gives what `run(triageAgent, message)`
 * would produce and `runStreamed` what `run(triageAgent, message, { stream: true })`
 * would produce. The clock reading `new Date().toISOString()` is the input `now`.
 */
module WorkerRouter {
  import opened Wrappers
  import opened JsonText
  import opened EventStream

  /** How `await request.json()` ends: it throws, or it gives a value. */
  datatype BodyParse = Unparseable | Parsed(value: Json)

  /** The parts of a request the router reads; `verb` is `request.method`, `path` is `new URL(request.url).pathname`. */
  datatype Request = Request(verb: string, path: string, userAgent: Option<string>, body: BodyParse)

  /** The Worker's bindings; only `OPENAI_API_KEY` is read. */
  datatype Env = Env(openAiApiKey: Option<string>)

  /** A thrown JavaScript value: an `Error` with its message, or anything else. */
  datatype Thrown = ErrorObject(message: string) | NonErrorValue

  /** The outcome of the non-streaming `run`. */
  datatype RunResult = Finished(finalOutput: Option<string>) | RunThrew(thrown: Thrown)

  /** The outcome of starting a streamed run: its events and how they end, or an exception. */
  datatype StreamStart = Started(ticks: seq<Tick>, end: StreamEnd) | StartThrew(thrown: Thrown)

  datatype Body = NoBody | JsonBody(doc: Json) | EventStreamBody(ticks: seq<Tick>, end: StreamEnd)

  datatype Response = Response(status: int, headers: map<string, string>, body: Body)

  /** `const { message, streaming = false } = body`; absent properties are `None`. */
  datatype AgentRequest = AgentRequest(message: Option<Json>, streaming: Json)

  const TestMessage := "Hello from Cloudflare Workers with TypeScript!"
  const InvalidJson := "Invalid JSON in request body"
  const MessageRequired := "Message is required"
  const KeyNotConfigured := "OpenAI API key not configured"
  const AgentFailed := "Failed to process agent request"
  const UnknownError := "Unknown error"
  /** The engine's message for destructuring `null` (V8 wording). */
  const NullBodyTypeError := "Cannot destructure property 'message' of 'body' as it is null."
  const Endpoints := ["GET /api/test", "GET /health", "POST /api/agent"]

  const AllowOrigin := map["Access-Control-Allow-Origin" := "*"]
  const CorsHeaders := map[
    "Access-Control-Allow-Origin" := "*",
    "Access-Control-Allow-Methods" := "GET, POST, PUT, DELETE, OPTIONS",
    "Access-Control-Allow-Headers" := "Content-Type, Authorization"]
  const JsonType := map["Content-Type" := "application/json"]
  const AgentHeaders := JsonType + AllowOrigin
  const EventStreamHeaders := map[
    "Content-Type" := "text/event-stream",
    "Cache-Control" := "no-cache",
    "Connection" := "keep-alive",
    "Access-Control-Allow-Origin" := "*"]

  // ---------------------------------------------------------------------------
  // Pieces of the chain

  /** Destructuring the parsed body; `None` when it is `null`, which throws a TypeError. */
  function Destructure(v: Json): Option<AgentRequest> {
    match v
    case JNull => None
    case JObject(f) =>
      Some(AgentRequest(if "message" in f then Some(f["message"]) else None,
                        if "streaming" in f then f["streaming"] else JBool(false)))
    case _ => Some(AgentRequest(None, JBool(false)))
  }

  /** `!env.OPENAI_API_KEY` is false. */
  predicate KeyConfigured(env: Env) {
    env.openAiApiKey.Some? && env.openAiApiKey.value != ""
  }

  function ErrorReply(status: int, error: string): Response {
    Response(status, AgentHeaders, JsonBody(JObject(map["error" := JString(error)])))
  }

  /** `error instanceof Error ? error.message : 'Unknown error'`. */
  function Details(t: Thrown): string {
    match t
    case ErrorObject(m) => m
    case NonErrorValue => UnknownError
  }

  /** The outer `catch` of the agent branch. */
  function AgentFailure(t: Thrown): Response {
    Response(500, AgentHeaders,
             JsonBody(JObject(map["error" := JString(AgentFailed), "details" := JString(Details(t))])))
  }

  /** `result.finalOutput || ''`. */
  function OutputText(finalOutput: Option<string>): string {
    if finalOutput.Some? then finalOutput.value else ""
  }

  /** The `/api/test` document; `userAgent` is left out when the header is absent or empty. */
  function TestDoc(req: Request, now: Timestamp): Json {
    var base := map["message" := JString(TestMessage), "timestamp" := JString(now),
                    "method" := JString(req.verb), "path" := JString(req.path)];
    if req.userAgent.Some? && req.userAgent.value != ""
    then JObject(base["userAgent" := JString(req.userAgent.value)])
    else JObject(base)
  }

  const NotFoundDoc := JObject(map["error" := JString("Not Found"),
                                   "availableEndpoints" := JArray([JString(Endpoints[0]), JString(Endpoints[1]), JString(Endpoints[2])])])

  /** The `POST /api/agent` branch, checks in source order. */
  function HandleAgent(body: BodyParse, env: Env,
                       run: Json -> RunResult, runStreamed: Json -> StreamStart): Response {
    match body
    case Unparseable => ErrorReply(400, InvalidJson)
    case Parsed(v) =>
      match Destructure(v)
      case None => AgentFailure(ErrorObject(NullBodyTypeError))
      case Some(AgentRequest(message, streaming)) =>
        if !Truthy(message) then ErrorReply(400, MessageRequired)
        else if !KeyConfigured(env) then ErrorReply(500, KeyNotConfigured)
        else if Truthy(Some(streaming)) then
          match runStreamed(message.value)
          case Started(ticks, end) => Response(200, EventStreamHeaders, EventStreamBody(ticks, end))
          case StartThrew(t) => AgentFailure(t)
        else
          match run(message.value)
          case Finished(out) => Response(200, AgentHeaders, JsonBody(JObject(map["output" := JString(OutputText(out))])))
          case RunThrew(t) => AgentFailure(t)
  }

  /** `fetch(request, env, ctx)`. */
  function Route(req: Request, env: Env, now: Timestamp,
                 run: Json -> RunResult, runStreamed: Json -> StreamStart): Response {
    if req.path == "/api/test" && req.verb == "GET" then
      Response(200, JsonType + CorsHeaders, JsonBody(TestDoc(req, now)))
    else if req.path == "/health" && req.verb == "GET" then
      Response(200, JsonType, JsonBody(JObject(map["status" := JString("healthy"), "timestamp" := JString(now)])))
    else if req.path == "/api/agent" && req.verb == "POST" then
      HandleAgent(req.body, env, run, runStreamed)
    else if req.verb == "OPTIONS" then
      Response(200, CorsHeaders, NoBody)
    else
      Response(404, JsonType, JsonBody(NotFoundDoc))
  }

  /** The three checks before the agent runs all pass. */
  predicate ChecksPass(body: BodyParse, env: Env) {
    && body.Parsed?
    && Destructure(body.value).Some?
    && Truthy(Destructure(body.value).value.message)
    && KeyConfigured(env)
  }

  // ---------------------------------------------------------------------------
  // Properties

  /** `GET /api/test` echoes method and path with a 200 and the CORS headers. */
  lemma TestEndpoint(req: Request, env: Env, now: Timestamp, run: Json -> RunResult, runStreamed: Json -> StreamStart)
    requires req.path == "/api/test" && req.verb == "GET"
    ensures var r := Route(req, env, now, run, runStreamed);
      && r.status == 200
      && r.headers == map["Content-Type" := "application/json",
                          "Access-Control-Allow-Origin" := "*",
                          "Access-Control-Allow-Methods" := "GET, POST, PUT, DELETE, OPTIONS",
                          "Access-Control-Allow-Headers" := "Content-Type, Authorization"]
      && r.body.JsonBody? && r.body.doc.JObject?
      && var f := r.body.doc.fields;
      && "method" in f && f["method"] == JString("GET")
      && "path" in f && f["path"] == JString("/api/test")
      && "message" in f && f["message"] == JString(TestMessage)
      && "timestamp" in f && f["timestamp"] == JString(now)
      && ("userAgent" in f <==> req.userAgent.Some? && req.userAgent.value != "")
  {
  }

  /** `GET /health` reports `status: 'healthy'` with only a content type header. */
  lemma HealthEndpoint(req: Request, env: Env, now: Timestamp, run: Json -> RunResult, runStreamed: Json -> StreamStart)
    requires req.path == "/health" && req.verb == "GET"
    ensures var r := Route(req, env, now, run, runStreamed);
      && r.status == 200
      && r.headers == map["Content-Type" := "application/json"]
      && r.body == JsonBody(JObject(map["status" := JString("healthy"), "timestamp" := JString(now)]))
  {
  }

  /**
   * `POST /api/agent` checks, in this order: a body that does not parse, a falsy
   * `message`, a missing API key.
   */
  lemma AgentChecksInOrder(req: Request, env: Env, now: Timestamp, run: Json -> RunResult, runStreamed: Json -> StreamStart)
    requires req.path == "/api/agent" && req.verb == "POST"
    ensures var r := Route(req, env, now, run, runStreamed);
      && (req.body.Unparseable? ==> r == ErrorReply(400, InvalidJson))
      && (req.body.Parsed? && Destructure(req.body.value).Some? && !Truthy(Destructure(req.body.value).value.message)
          ==> r == ErrorReply(400, MessageRequired))
      && (req.body.Parsed? && Destructure(req.body.value).Some? &&
          Truthy(Destructure(req.body.value).value.message) && !KeyConfigured(env)
          ==> r == ErrorReply(500, KeyNotConfigured))
      && (req.body == Parsed(JNull) ==> r == AgentFailure(ErrorObject(NullBodyTypeError)))
  {
  }

  /** The agent is consulted only when all three checks pass: otherwise the response does not depend on it. */
  lemma AgentRunsOnlyAfterChecks(req: Request, env: Env, now: Timestamp,
                                 run: Json -> RunResult, runStreamed: Json -> StreamStart,
                                 run': Json -> RunResult, runStreamed': Json -> StreamStart)
    requires !(req.path == "/api/agent" && req.verb == "POST" && ChecksPass(req.body, env))
    ensures Route(req, env, now, run, runStreamed) == Route(req, env, now, run', runStreamed')
  {
  }

  /**
   * Past the checks, a falsy or absent `streaming` runs the agent without
   * streaming and answers `finalOutput || ''`; a thrown error becomes a 500 with
   * its message as `details`.
   */
  lemma NonStreamingReply(req: Request, env: Env, now: Timestamp, run: Json -> RunResult, runStreamed: Json -> StreamStart)
    requires req.path == "/api/agent" && req.verb == "POST" && ChecksPass(req.body, env)
    requires !Truthy(Some(Destructure(req.body.value).value.streaming))
    ensures var m := Destructure(req.body.value).value.message.value;
      var r := Route(req, env, now, run, runStreamed);
      && (run(m).Finished? ==> r == Response(200, AgentHeaders, JsonBody(JObject(map["output" := JString(OutputText(run(m).finalOutput))]))))
      && (run(m).RunThrew? ==> r == AgentFailure(run(m).thrown))
  {
  }

  /** `streaming` defaults to false: a body without it never starts a stream. */
  lemma StreamingDefaultsToFalse(fields: map<string, Json>)
    requires "streaming" !in fields
    ensures Destructure(JObject(fields)).Some?
    ensures !Truthy(Some(Destructure(JObject(fields)).value.streaming))
  {
  }

  /** The final output, or `''` when it is absent or empty. */
  lemma OutputFallsBackToEmpty(out: Option<string>)
    ensures OutputText(out) == "" <==> out.None? || out.value == ""
    ensures out.Some? && out.value != "" ==> OutputText(out) == out.value
  {
  }

  /** The 500 for a thrown error carries its message, or "Unknown error" for a non-`Error` value. */
  lemma FailureDetails(t: Thrown)
    ensures AgentFailure(t).status == 500
    ensures AgentFailure(t).body.doc.fields["error"] == JString("Failed to process agent request")
    ensures AgentFailure(t).body.doc.fields["details"]
         == JString(if t.ErrorObject? then t.message else "Unknown error")
  {
  }

  /** A truthy `streaming` answers with the event stream of the streamed run, or a 500 if starting it throws. */
  lemma StreamingReply(req: Request, env: Env, now: Timestamp, run: Json -> RunResult, runStreamed: Json -> StreamStart)
    requires req.path == "/api/agent" && req.verb == "POST" && ChecksPass(req.body, env)
    requires Truthy(Some(Destructure(req.body.value).value.streaming))
    ensures var m := Destructure(req.body.value).value.message.value;
      var r := Route(req, env, now, run, runStreamed);
      && (runStreamed(m).Started? ==>
            r == Response(200, EventStreamHeaders, EventStreamBody(runStreamed(m).ticks, runStreamed(m).end)))
      && (runStreamed(m).StartThrew? ==> r == AgentFailure(runStreamed(m).thrown))
  {
  }

  /** Any OPTIONS request is a preflight: no body, the CORS headers. */
  lemma OptionsIsPreflight(req: Request, env: Env, now: Timestamp, run: Json -> RunResult, runStreamed: Json -> StreamStart)
    requires req.verb == "OPTIONS"
    ensures Route(req, env, now, run, runStreamed) == Response(200, CorsHeaders, NoBody)
  {
  }

  /** A 404 listing the three endpoints comes exactly for the requests no branch matches. */
  lemma NotFoundExactlyWhenUnmatched(req: Request, env: Env, now: Timestamp, run: Json -> RunResult, runStreamed: Json -> StreamStart)
    ensures Route(req, env, now, run, runStreamed).status == 404
      <==> && !(req.path == "/api/test" && req.verb == "GET")
           && !(req.path == "/health" && req.verb == "GET")
           && !(req.path == "/api/agent" && req.verb == "POST")
           && req.verb != "OPTIONS"
    ensures Route(req, env, now, run, runStreamed).status == 404 ==>
      Route(req, env, now, run, runStreamed).body == JsonBody(NotFoundDoc)
  {
  }

  /** For example, `POST /api/test` is not an endpoint. */
  lemma PostToTestIsNotFound(ua: Option<string>, body: BodyParse, env: Env, now: Timestamp,
                             run: Json -> RunResult, runStreamed: Json -> StreamStart)
    ensures Route(Request("POST", "/api/test", ua, body), env, now, run, runStreamed)
         == Response(404, map["Content-Type" := "application/json"], JsonBody(NotFoundDoc))
  {
  }
}
