/**
 * The JSON-RPC 2.0 and Model Context Protocol vocabulary shared by the HTTP
 * server (cmd/mcpserver) and the stdio server (cmd/mcpstdio): error codes,
 * tool names, the decoded shapes of requests and tool arguments, and the
 * JSON envelopes the servers marshal.
 */
module Rpc {
  import opened Wrappers
  import opened Json

  // Error codes of section 5.1 of the JSON-RPC 2.0 Specification, plus the
  // one implementation-defined server error the bridge uses.
  const ParseError: int := -32700
  const InvalidRequest: int := -32600
  const MethodNotFound: int := -32601
  const InvalidParams: int := -32602
  const ServerError: int := -32000

  /** The MCP revision both servers announce. */
  const ProtocolVersion: string := "2024-11-05"

  const ToolExec: string := "opencode_exec"
  const ToolRun: string := "opencode_run"
  const ToolModels: string := "opencode_models"
  const ToolSessionList: string := "opencode_session_list"
  const ToolAgentList: string := "opencode_agent_list"

  /** What unmarshalling a tool's `arguments` into the exec shape yields. */
  datatype ExecArgs = ExecArgs(args: seq<string>, cwd: string, stdin: string)

  /**
   * What unmarshalling a tool's `arguments` into the run shape yields. The
   * stdio server's shape has no `session` or `continue` field; it ignores them.
   */
  datatype RunArgs = RunArgs(
    message: string, cwd: string, model: string,
    session: string, continueLast: bool, files: seq<string>)

  /**
   * The `params` of a tools/call request after unmarshalling: the tool name
   * and the outcome of unmarshalling its raw `arguments` into each of the two
   * shapes (None where json.Unmarshal returns an error, which includes absent
   * arguments).
   */
  datatype ToolCall = ToolCall(name: string, exec: Option<ExecArgs>, run: Option<RunArgs>)

  /**
   * A decoded JSON-RPC request. `params` is the outcome of unmarshalling the
   * raw params into the tool-call shape (None on error or when absent);
   * `cwd` is the HTTP server's top-level extension field ("" when absent).
   */
  datatype McpRequest = McpRequest(methodName: string, id: Json, params: Option<ToolCall>, cwd: string)

  /** The `result` of a tools/call: one text content item and the error flag. */
  datatype ToolResult = ToolResult(text: string, isError: bool)

  /** The marshalled toolCallResult; `text` and `isError` are omitempty. */
  function ToolResultJson(r: ToolResult): (j: Json)
    ensures j.JObject? && "content" in j.fields
    ensures "isError" in j.fields <==> r.isError
  {
    var item := map["type" := JString("text")]
      + (if r.text != "" then map["text" := JString(r.text)] else map[]);
    JObject(map["content" := JArray([JObject(item)])]
      + (if r.isError then map["isError" := JBool(true)] else map[]))
  }

  /** The result of `initialize`, identical in both servers. */
  function InitializeResultJson(): (j: Json)
    ensures j.JObject? && Get(j.fields, "protocolVersion") == JString(ProtocolVersion)
  {
    JObject(map[
      "protocolVersion" := JString(ProtocolVersion),
      "capabilities" := JObject(map["tools" := JObject(map[])]),
      "serverInfo" := JObject(map["name" := JString("opencode-mcp"), "version" := JString("0.1.0")])])
  }

  /** A marshalled mcpResponse carrying a result (`error` omitted). */
  function ResponseJson(id: Json, result: Json): Json {
    JObject(map["jsonrpc" := JString("2.0"), "id" := id, "result" := result])
  }

  /** A marshalled mcpResponse carrying an error (`result` omitted). */
  function ErrorJson(id: Json, code: int, message: string): Json {
    JObject(map[
      "jsonrpc" := JString("2.0"), "id" := id,
      "error" := JObject(map["code" := JInt(code), "message" := JString(message)])])
  }

  /** A marshalled notification: no id, so no response is expected. */
  function NotificationJson(methodName: string, params: Json): Json {
    JObject(map["jsonrpc" := JString("2.0"), "method" := JString(methodName), "params" := params])
  }
}
