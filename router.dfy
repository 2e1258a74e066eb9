/**
 * The HTTP server's `/mcp` endpoint (cmd/mcpserver/main.go, the handler
 * registered in main): which answer a request gets from its HTTP method,
 * its Accept header and its decoded JSON-RPC body, and how the session
 * header is issued and echoed. The test suite's copy of the handler
 * (cmd/mcpserver/main_test.go, createMCPHandler) is modelled beside it: it
 * lacks the SSE default for tools/call.
 */
module Router {
  import opened Wrappers
  import opened Json
  import opened Text
  import opened Rpc
  import opened Sessions

  const StatusOk: int := 200
  const StatusNoContent: int := 204
  const StatusMethodNotAllowed: int := 405

  /** The value of the Allow header in the answer to OPTIONS. */
  const AllowHeader: string := "POST, OPTIONS"

  /** The parts of an HTTP request the endpoint looks at; `body` is None when it is not valid JSON. */
  datatype HttpRequest = HttpRequest(httpMethod: string, accept: string, sessionHeader: string, body: Option<McpRequest>)

  /** What the endpoint does with a request. */
  datatype Route =
      // 204 with `Allow: POST, OPTIONS`.
    | Discovery
      // 405.
    | NotAllowed
      // A JSON-RPC error response.
    | Failure(id: Json, code: int, message: string)
      // Create a session and answer `initialize`.
    | Initialize
      // 204 with no body.
    | Acknowledge
    | ListTools
      // tools/call, streamed as server-sent events or answered once as JSON.
    | CallTool(sse: bool)

  /** The methods the endpoint implements; the stdio server implements the same four. */
  predicate KnownMethod(m: string) {
    m in {"initialize", "notifications/initialized", "tools/list", "tools/call"}
  }

  /**
   * The endpoint's decision once it knows whether a tools/call would be
   * streamed: OPTIONS and POST only; then a parse error, a missing method, a
   * known method, or an unknown one — each failure with its own code.
   */
  function Dispatch(req: HttpRequest, sse: bool): (r: Route)
    ensures r == Discovery <==> req.httpMethod == "OPTIONS"
    ensures r == NotAllowed <==> req.httpMethod !in {"OPTIONS", "POST"}
    ensures r.Failure? ==> req.httpMethod == "POST" && r.code in {ParseError, InvalidRequest, MethodNotFound}
    ensures (r.Failure? && r.code == ParseError) <==> req.httpMethod == "POST" && req.body.None?
    ensures (r.Failure? && r.code == InvalidRequest) <==>
      req.httpMethod == "POST" && req.body.Some? && req.body.value.methodName == ""
    ensures (r.Failure? && r.code == MethodNotFound) <==>
      req.httpMethod == "POST" && req.body.Some? && req.body.value.methodName != "" && !KnownMethod(req.body.value.methodName)
    ensures r.Failure? ==> r.id == (if req.body.Some? then req.body.value.id else JNull)
    ensures r.Failure? && r.code == MethodNotFound ==> r.message == "method not found: " + req.body.value.methodName
    ensures r.CallTool? ==> r.sse == sse
  {
    if req.httpMethod == "OPTIONS" then Discovery
    else if req.httpMethod != "POST" then NotAllowed
    else
      match req.body
      case None => Failure(JNull, ParseError, "invalid JSON")
      case Some(body) =>
        if body.methodName == "" then Failure(body.id, InvalidRequest, "missing method")
        else if body.methodName == "initialize" then Initialize
        else if body.methodName == "notifications/initialized" then Acknowledge
        else if body.methodName == "tools/list" then ListTools
        else if body.methodName == "tools/call" then CallTool(sse)
        else Failure(body.id, MethodNotFound, "method not found: " + body.methodName)
  }

  /** The server streams a tools/call unless the client asked for JSON alone. */
  function ServerStreams(accept: string): (sse: bool)
    ensures sse <==> Contains(accept, "text/event-stream") || !Contains(accept, "application/json")
  {
    var acceptSse := Contains(accept, "text/event-stream");
    var explicitJson := Contains(accept, "application/json") && !Contains(accept, "text/event-stream");
    acceptSse || !explicitJson
  }

  /** The server's routing. */
  function ServerRoute(req: HttpRequest): Route {
    Dispatch(req, ServerStreams(req.accept))
  }

  /** The test helper's routing: it streams only when text/event-stream is accepted. */
  function HelperRoute(req: HttpRequest): Route {
    Dispatch(req, Contains(req.accept, "text/event-stream"))
  }

  /**
   * The server and its test copy agree on everything but the mode of a
   * tools/call, and disagree on it exactly when the Accept header names
   * neither JSON nor an event stream.
   */
  lemma HelperDiffersOnlyInMode(req: HttpRequest)
    ensures ServerRoute(req) != HelperRoute(req) <==>
      && ServerRoute(req).CallTool?
      && !Contains(req.accept, "text/event-stream") && !Contains(req.accept, "application/json")
  {
  }

  /** A tools/call without an Accept header is streamed by the server, answered as JSON by the helper. */
  lemma NoAcceptHeader(body: McpRequest, sessionHeader: string)
    requires body.methodName == "tools/call"
    ensures ServerRoute(HttpRequest("POST", "", sessionHeader, Some(body))) == CallTool(true)
    ensures HelperRoute(HttpRequest("POST", "", sessionHeader, Some(body))) == CallTool(false)
  {
    assert !Contains("", "text/event-stream") && !Contains("", "application/json");
  }

  /** The answer's status line, session header and route. */
  datatype Answer = Answer(status: int, sessionId: Option<string>, route: Route)

  /** The HTTP status each route answers with. */
  function Status(r: Route): (status: int)
    ensures status == StatusNoContent <==> r.Discovery? || r.Acknowledge?
    ensures status == StatusMethodNotAllowed <==> r.NotAllowed?
  {
    if r.Discovery? || r.Acknowledge? then StatusNoContent
    else if r.NotAllowed? then StatusMethodNotAllowed
    else StatusOk
  }

  /**
   * The whole endpoint over the session store: `initialize` always creates a
   * session from `random` and `now` and sends its id; the requests that reach
   * the second dispatch echo the client's session header when that session
   * exists; nothing else touches the store.
   */
  method HandleMcp(store: SessionStore, req: HttpRequest, random: seq<byte>, now: int) returns (answer: Answer)
    requires |random| == 16 && store.Valid()
    modifies store
    ensures store.Valid()
    ensures answer.route == ServerRoute(req)
    ensures answer.status == Status(answer.route)
    ensures answer.route.Initialize? ==>
      && answer.sessionId == Some(GenerateSessionId(random))
      && store.sessions == old(store.sessions)[GenerateSessionId(random) := Session(GenerateSessionId(random), now)]
    ensures !answer.route.Initialize? ==> store.sessions == old(store.sessions)
    ensures answer.route.ListTools? || answer.route.CallTool? || (answer.route.Failure? && answer.route.code == MethodNotFound)
      ==> answer.sessionId == (if req.sessionHeader != "" && req.sessionHeader in store.sessions then Some(req.sessionHeader) else None)
    ensures answer.route in {Discovery, NotAllowed, Acknowledge} || (answer.route.Failure? && answer.route.code != MethodNotFound)
      ==> answer.sessionId == None
  {
    var route := ServerRoute(req);
    var sessionId: Option<string> := None;
    match route {
      case Initialize =>
        var s := store.Create(random, now);
        sessionId := Some(s.id);
      case ListTools =>
        sessionId := LookUp(store, req.sessionHeader);
      case CallTool(_) =>
        sessionId := LookUp(store, req.sessionHeader);
      case Failure(_, code, _) =>
        if code == MethodNotFound {
          sessionId := LookUp(store, req.sessionHeader);
        }
      case _ =>
    }
    answer := Answer(Status(route), sessionId, route);
  }

  /** The session header to echo: the client's, when it names a live session. */
  method LookUp(store: SessionStore, sessionHeader: string) returns (sessionId: Option<string>)
    requires store.Valid()
    ensures sessionId == (if sessionHeader != "" && sessionHeader in store.sessions then Some(sessionHeader) else None)
  {
    sessionId := None;
    if sessionHeader != "" {
      var sess := store.Get(sessionHeader);
      if sess.Some? {
        sessionId := Some(sess.value.id);
      }
    }
  }

  /**
   * A client that initializes and then lists the tools with the id it was
   * given gets that id echoed back, whatever it sends as Accept header.
   */
  method InitializeThenList(store: SessionStore, init: McpRequest, list: McpRequest, accept: string, random: seq<byte>, now: int)
    returns (first: Answer, second: Answer)
    requires |random| == 16 && store.Valid()
    requires init.methodName == "initialize" && list.methodName == "tools/list"
    modifies store
    ensures first.sessionId.Some? && IsSessionId(first.sessionId.value)
    ensures second.route == ListTools && second.sessionId == first.sessionId
  {
    var initRequest := HttpRequest("POST", accept, "", Some(init));
    first := HandleMcp(store, initRequest, random, now);
    var id := GenerateSessionId(random);
    assert first.sessionId == Some(id) && id in store.sessions;
    var listRequest := HttpRequest("POST", accept, id, Some(list));
    second := HandleMcp(store, listRequest, random, now);
  }
}
