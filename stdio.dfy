/**
 * The stdio server (cmd/mcpstdio/main.go): one JSON-RPC request per line of
 * standard input, answered by lines on standard output. The outside world
 * is a `Host`: the JSON decoders, the start of the CLI process with the
 * stdout it then writes, the default model and the tool catalog.
 */
module Stdio {
  import opened Wrappers
  import opened Json
  import opened Text
  import opened Rpc
  import opened Events
  import opened Tools
  import Sse
  import Router

  /** One line the server writes to standard output. */
  datatype Output =
    | Reply(id: Json, result: Json)
    | ErrorReply(id: Json, code: int, message: string)
    | Notify(methodName: string, params: Json)

  /** The JSON each output line is marshalled from. */
  function OutputJson(o: Output): Json {
    match o
    case Reply(id, result) => ResponseJson(id, result)
    case ErrorReply(id, code, message) => ErrorJson(id, code, message)
    case Notify(m, params) => NotificationJson(m, params)
  }

  /** A response (not a notification) to the request with id `id`. */
  predicate Answers(o: Output, id: Json) {
    (o.Reply? || o.ErrorReply?) && o.id == id
  }

  /** What starting the CLI yields: the stdout it writes, or the error of StdoutPipe or Start. */
  datatype StartResult = Started(stdout: string) | StartFailed(reason: string)

  /**
   * The stand-ins for everything outside the server: `parse` unmarshals a
   * stdin line into a request, `decode` unmarshals a stdout line of the CLI,
   * `start` runs the CLI with an argument vector in a directory ("" for the
   * server's own), `defaultModel` is what getDefaultModel returns and
   * `catalog` is the tool list getTools returns.
   */
  datatype Host = Host(
    parse: string -> Option<McpRequest>,
    decode: string -> Option<Json>,
    start: (seq<string>, string) -> StartResult,
    defaultModel: string,
    catalog: Json)

  // -----------------------------------------------------------------------
  // Validation and argument vectors

  /** The tools the stdio server knows; the session and agent listings are not among them. */
  predicate StdioTool(name: string) {
    name in {ToolRun, ToolModels, ToolExec}
  }

  /** The run invocation of the stdio server: it never passes a session or `--continue`. */
  function StdioRun(args: RunArgs, defaultModel: string): RunInvocation {
    RunInvocation(if args.model == "" then defaultModel else args.model, "", false, args.files, args.message)
  }

  /**
   * handleToolsCall's checks, before any process exists: every refusal is
   * -32602; an accepted call names the argument vector, no stdin and the
   * directory its own arguments give.
   */
  function StdioDecision(params: Option<ToolCall>, defaultModel: string): (d: Decision)
    ensures d.Reject? ==> d.code == InvalidParams
    ensures params.None? ==> d == Reject(InvalidParams, "invalid params")
    ensures d.Launch? <==> params.Some? && StdioTool(params.value.name) && ArgumentsValid(params.value)
    ensures params.Some? && !StdioTool(params.value.name) ==>
      d == Reject(InvalidParams, "unknown tool: " + params.value.name)
    ensures d.Launch? ==> d.stdin == "" && d.cwd == ArgumentCwd(params.value)
    ensures d.Launch? && params.value.name == ToolRun ==>
      && d.argv == RunArgv(StdioRun(params.value.run.value, defaultModel))
      && ParseRunArgv(d.argv) == Some(StdioRun(params.value.run.value, defaultModel))
    ensures d.Launch? && params.value.name == ToolExec ==> d.argv == params.value.exec.value.args
    ensures d.Launch? && params.value.name == ToolModels ==> d.argv == ["models"]
  {
    match params
    case None => Reject(InvalidParams, "invalid params")
    case Some(call) =>
      if !StdioTool(call.name) then Reject(InvalidParams, "unknown tool: " + call.name)
      else
        match CheckArguments(call)
        case Some(message) => Reject(InvalidParams, message)
        case None =>
          if call.name == ToolRun then
            RunArgvRoundTrip(StdioRun(call.run.value, defaultModel));
            Launch(RunArgv(StdioRun(call.run.value, defaultModel)), "", call.run.value.cwd)
          else if call.name == ToolModels then Launch(["models"], "", "")
          else Launch(call.exec.value.args, "", call.exec.value.cwd)
  }

  /** The run tool's argument vector, built as the source builds it. */
  method BuildRunArgv(model: string, files: seq<string>, message: string) returns (argv: seq<string>)
    ensures argv == RunArgv(RunInvocation(model, "", false, files, message))
    ensures ParseRunArgv(argv) == Some(RunInvocation(model, "", false, files, message))
  {
    argv := ["run", "--format", "json", "--model", model];
    var i := 0;
    while i < |files|
      invariant 0 <= i <= |files|
      invariant argv == ["run", "--format", "json", "--model", model] + FilePairs(files[..i])
    {
      assert files[..i + 1][..i] == files[..i];
      argv := argv + ["--file", files[i]];
      i := i + 1;
    }
    assert files[..|files|] == files;
    argv := argv + [message];
    RunArgvRoundTrip(RunInvocation(model, "", false, files, message));
  }

  /**
   * The session and agent listings, which the HTTP server runs, are unknown
   * tools to the stdio server.
   */
  lemma ListingsUnknownToStdio(call: ToolCall, stat: string -> PathInfo, defaultModel: string)
    requires call.name in {ToolSessionList, ToolAgentList}
    ensures StdioDecision(Some(call), defaultModel) == Reject(InvalidParams, "unknown tool: " + call.name)
    ensures JsonModeDecision(Some(call), "", stat, defaultModel).Launch?
  {
  }

  /**
   * For a run call without a session and without `--continue`, in a valid
   * directory, both servers run the same argument vector.
   */
  lemma RunArgvSharedWithHttp(call: ToolCall, stat: string -> PathInfo, defaultModel: string)
    requires call.name == ToolRun && call.run.Some? && call.run.value.message != ""
    requires call.run.value.session == "" && !call.run.value.continueLast
    requires call.run.value.cwd == "" || stat(call.run.value.cwd).Directory?
    ensures StdioDecision(Some(call), defaultModel).Launch?
    ensures JsonModeDecision(Some(call), "", stat, defaultModel).Launch?
    ensures StdioDecision(Some(call), defaultModel).argv == JsonModeDecision(Some(call), "", stat, defaultModel).argv
  {
    assert StdioRun(call.run.value, defaultModel) == RunRequest(call.run.value, defaultModel);
  }

  // -----------------------------------------------------------------------
  // The run tool's progress stream

  /**
   * The fragment a stdout line of the run tool contributes: the `part.text`
   * of a `text` event whose part is an object and whose text is a string.
   */
  function TextOf(decode: string -> Option<Json>, line: string): (text: Option<string>)
    ensures text.Some? <==>
      line != "" && DecodeEvent(decode, line).Some? && Classify(DecodeEvent(decode, line).value).TextFragment?
    ensures text.Some? ==> text.value == Classify(DecodeEvent(decode, line).value).content
  {
    if line == "" then None
    else
      match DecodeEvent(decode, line)
      case None => None
      case Some(event) =>
        var part := Part(event);
        if EventType(event) == "text" && part.JObject? && Get(part.fields, "text").JString?
        then Some(Get(part.fields, "text").s)
        else None
  }

  function LinePieces(decode: string -> Option<Json>, line: string): seq<string> {
    match TextOf(decode, line)
    case Some(text) => [text]
    case None => []
  }

  /** The fragments of a run's stdout lines, in order. */
  function TextPieces(decode: string -> Option<Json>, lines: seq<string>): seq<string> {
    FlatMap(l => LinePieces(decode, l), lines)
  }

  /** The progress notification sent once the collector holds `collected`. */
  function ProgressNote(id: Json, collected: string, text: string): Output {
    Notify(Sse.ProgressMethod, JObject(map[
      "progressToken" := id, "progress" := JInt(Utf8Len(collected)), "message" := JString(text)]))
  }

  /** The notifications for a run of fragments: one per fragment, in order. */
  function ProgressNotes(id: Json, pieces: seq<string>): (notes: seq<Output>)
    ensures |notes| == |pieces|
    ensures forall k :: 0 <= k < |notes| ==> notes[k].Notify? && notes[k].methodName == Sse.ProgressMethod
    decreases |pieces|
  {
    if |pieces| == 0 then []
    else ProgressNotes(id, pieces[..|pieces| - 1]) + [ProgressNote(id, Concat(pieces), pieces[|pieces| - 1])]
  }

  /**
   * The scanner loop of the run tool: the notifications it writes and the
   * text it collects.
   */
  method StreamRun(decode: string -> Option<Json>, id: Json, stdout: string)
    returns (notes: seq<Output>, collector: string)
    ensures notes == ProgressNotes(id, TextPieces(decode, ScanLines(stdout)))
    ensures collector == Concat(TextPieces(decode, ScanLines(stdout)))
  {
    var lines := ScanLines(stdout);
    notes := [];
    collector := "";
    var i := 0;
    while i < |lines|
      invariant 0 <= i <= |lines|
      invariant notes == ProgressNotes(id, TextPieces(decode, lines[..i]))
      invariant collector == Concat(TextPieces(decode, lines[..i]))
    {
      var line := lines[i];
      assert lines[..i + 1][..i] == lines[..i];
      RunStep(decode, id, lines[..i], line);
      notes, collector := RunLine(decode, id, line, notes, collector);
      i := i + 1;
    }
    assert lines[..|lines|] == lines;
  }

  /**
   * One iteration of the scanner loop: a line carrying a fragment appends it
   * to the collector and sends one notification; any other line is skipped.
   */
  method RunLine(decode: string -> Option<Json>, id: Json, line: string, notes: seq<Output>, collector: string)
    returns (notes': seq<Output>, collector': string)
    ensures TextOf(decode, line).None? ==> notes' == notes && collector' == collector
    ensures TextOf(decode, line).Some? ==>
      var text := TextOf(decode, line).value;
      collector' == collector + text && notes' == notes + [ProgressNote(id, collector', text)]
  {
    notes', collector' := notes, collector;
    if line == "" {
      return;
    }
    var event := DecodeEvent(decode, line);
    if event.None? {
      return;
    }
    var eventType := EventType(event.value);
    var part := Part(event.value);
    if eventType == "text" && part.JObject? && Get(part.fields, "text").JString? {
      var text := Get(part.fields, "text").s;
      collector' := collector' + text;
      notes' := notes' + [Notify(Sse.ProgressMethod, JObject(map[
        "progressToken" := id, "progress" := JInt(Utf8Len(collector')), "message" := JString(text)]))];
    }
  }

  /** What one more line does to the fragments, the notifications and the collected text. */
  lemma RunStep(decode: string -> Option<Json>, id: Json, prefix: seq<string>, line: string)
    ensures var before := TextPieces(decode, prefix);
      var after := TextPieces(decode, prefix + [line]);
      match TextOf(decode, line)
      case None => after == before
      case Some(text) =>
        && Concat(after) == Concat(before) + text
        && ProgressNotes(id, after) == ProgressNotes(id, before) + [ProgressNote(id, Concat(before) + text, text)]
  {
    var f := l => LinePieces(decode, l);
    assert (prefix + [line])[..|prefix|] == prefix;
    assert FlatMap(f, prefix + [line]) == FlatMap(f, prefix) + f(line);
    var before := TextPieces(decode, prefix);
    if TextOf(decode, line).Some? {
      var after := before + [TextOf(decode, line).value];
      assert after[..|after| - 1] == before;
    }
  }

  /** The progress a notification reports (0 when it reports none). */
  function NoteProgress(o: Output): int {
    if o.Notify? && o.params.JObject? && Get(o.params.fields, "progress").JInt?
    then Get(o.params.fields, "progress").n
    else 0
  }

  /**
   * The k-th notification carries the k-th fragment as its message and the
   * UTF-8 length of everything collected up to and including it.
   */
  lemma {:induction false} ProgressIsCumulative(id: Json, pieces: seq<string>)
    ensures forall k :: 0 <= k < |pieces| ==>
      ProgressNotes(id, pieces)[k] == ProgressNote(id, Concat(pieces[..k + 1]), pieces[k])
    decreases |pieces|
  {
    if |pieces| > 0 {
      var init := pieces[..|pieces| - 1];
      ProgressIsCumulative(id, init);
      forall k | 0 <= k < |pieces|
        ensures ProgressNotes(id, pieces)[k] == ProgressNote(id, Concat(pieces[..k + 1]), pieces[k])
      {
        if k < |init| {
          assert init[..k + 1] == pieces[..k + 1];
        } else {
          assert pieces[..k + 1] == pieces;
        }
      }
    }
  }

  /**
   * Progress never goes down: a later notification reports at least what an
   * earlier one did, and the last one reports the length of the final text.
   */
  lemma ProgressNonDecreasing(id: Json, pieces: seq<string>, j: nat, k: nat)
    requires j <= k < |pieces|
    ensures NoteProgress(ProgressNotes(id, pieces)[j]) <= NoteProgress(ProgressNotes(id, pieces)[k])
    ensures k == |pieces| - 1 ==> NoteProgress(ProgressNotes(id, pieces)[k]) == Utf8Len(Concat(pieces))
  {
    ProgressIsCumulative(id, pieces);
    var notes := ProgressNotes(id, pieces);
    var upToJ, upToK := pieces[..j + 1], pieces[..k + 1];
    NoteProgressOf(id, Concat(upToJ), pieces[j]);
    NoteProgressOf(id, Concat(upToK), pieces[k]);
    assert NoteProgress(notes[j]) == Utf8Len(Concat(upToJ));
    assert NoteProgress(notes[k]) == Utf8Len(Concat(upToK));
    assert upToJ + pieces[j + 1..k + 1] == upToK;
    ConcatAppend(upToJ, pieces[j + 1..k + 1]);
    Utf8LenAppend(Concat(upToJ), Concat(pieces[j + 1..k + 1]));
    assert k == |pieces| - 1 ==> upToK == pieces;
  }

  lemma NoteProgressOf(id: Json, collected: string, text: string)
    ensures NoteProgress(ProgressNote(id, collected, text)) == Utf8Len(collected)
  {
    var fields := map["progressToken" := id, "progress" := JInt(Utf8Len(collected)), "message" := JString(text)];
    assert Get(fields, "progress") == JInt(Utf8Len(collected));
  }

  /** A line that carries no fragment changes neither the notifications nor the text. */
  lemma SilentLineSkipped(decode: string -> Option<Json>, before: seq<string>, line: string, after: seq<string>)
    requires TextOf(decode, line).None?
    ensures TextPieces(decode, before + [line] + after) == TextPieces(decode, before + after)
  {
    var f := l => LinePieces(decode, l);
    assert f(line) == [];
    FlatMapSkip(f, before, line, after);
  }

  /**
   * Both servers collect the same text from the same stdout of the run
   * tool: the stdio collector equals the HTTP server's streaming collector.
   */
  lemma {:induction false} CollectorSharedWithSse(decode: string -> Option<Json>, lines: seq<string>)
    ensures Concat(TextPieces(decode, lines)) == Sse.Collected(true, decode, lines)
    decreases |lines|
  {
    if |lines| > 0 {
      var init := lines[..|lines| - 1];
      var line := lines[|lines| - 1];
      CollectorSharedWithSse(decode, init);
      assert TextPieces(decode, lines) == TextPieces(decode, init) + LinePieces(decode, line);
      ConcatAppend(TextPieces(decode, init), LinePieces(decode, line));
      LinePieceAsSse(decode, line);
    }
  }

  /** One line's fragment, read the stdio way and the streaming way. */
  lemma LinePieceAsSse(decode: string -> Option<Json>, line: string)
    ensures Concat(LinePieces(decode, line)) == Sse.LineCollected(true, decode, line)
  {
    if TextOf(decode, line).Some? {
      assert Concat(LinePieces(decode, line)) == Concat([] + [TextOf(decode, line).value]);
    }
  }

  // -----------------------------------------------------------------------
  // tools/call

  /**
   * Everything handleToolsCall writes: a refusal, a start failure, or the
   * run tool's progress notifications followed by the one result, whose
   * text is the collected fragments for run and stdout verbatim otherwise,
   * and whose error flag is never set.
   */
  function ToolsCallOutputs(host: Host, id: Json, params: Option<ToolCall>): (out: seq<Output>)
    ensures |out| >= 1 && Answers(out[|out| - 1], id)
    ensures forall k :: 0 <= k < |out| - 1 ==> out[k].Notify? && out[k].methodName == Sse.ProgressMethod
    ensures var d := StdioDecision(params, host.defaultModel);
      d.Reject? ==> out == [ErrorReply(id, InvalidParams, d.message)]
    ensures var d := StdioDecision(params, host.defaultModel);
      d.Launch? && host.start(d.argv, d.cwd).StartFailed? ==>
        out == [ErrorReply(id, ServerError, host.start(d.argv, d.cwd).reason)]
    ensures var d := StdioDecision(params, host.defaultModel);
      d.Launch? && host.start(d.argv, d.cwd).Started? && params.value.name != ToolRun ==>
        out == [Reply(id, ToolResultJson(ToolResult(host.start(d.argv, d.cwd).stdout, false)))]
    ensures out[|out| - 1].Reply? ==> out[|out| - 1].result.JObject? && "isError" !in out[|out| - 1].result.fields
  {
    var d := StdioDecision(params, host.defaultModel);
    match d
    case Reject(code, message) => [ErrorReply(id, code, message)]
    case Launch(argv, _, cwd) =>
      match host.start(argv, cwd)
      case StartFailed(reason) => [ErrorReply(id, ServerError, reason)]
      case Started(stdout) =>
        if params.value.name == ToolRun then
          var pieces := TextPieces(host.decode, ScanLines(stdout));
          ProgressNotes(id, pieces) + [Reply(id, ToolResultJson(ToolResult(Concat(pieces), false)))]
        else [Reply(id, ToolResultJson(ToolResult(stdout, false)))]
  }

  /** handleToolsCall, step by step as the source takes them. */
  method HandleToolsCall(host: Host, id: Json, params: Option<ToolCall>) returns (out: seq<Output>)
    ensures out == ToolsCallOutputs(host, id, params)
  {
    if params.None? {
      return [ErrorReply(id, InvalidParams, "invalid params")];
    }
    var call := params.value;
    var argv: seq<string>;
    var cwd := "";
    if call.name == ToolRun {
      if call.run.None? {
        return [ErrorReply(id, InvalidParams, "invalid arguments")];
      }
      var args := call.run.value;
      if args.message == "" {
        return [ErrorReply(id, InvalidParams, "missing message")];
      }
      var model := args.model;
      if model == "" {
        model := host.defaultModel;
      }
      argv := BuildRunArgv(model, args.files, args.message);
      cwd := args.cwd;
    } else if call.name == ToolModels {
      argv := ["models"];
    } else if call.name == ToolExec {
      if call.exec.None? {
        return [ErrorReply(id, InvalidParams, "invalid arguments")];
      }
      if |call.exec.value.args| == 0 {
        return [ErrorReply(id, InvalidParams, "missing args")];
      }
      argv := call.exec.value.args;
      cwd := call.exec.value.cwd;
    } else {
      return [ErrorReply(id, InvalidParams, "unknown tool: " + call.name)];
    }
    match host.start(argv, cwd) {
      case StartFailed(reason) =>
        return [ErrorReply(id, ServerError, reason)];
      case Started(stdout) =>
        var notes: seq<Output> := [];
        var text: string;
        if call.name == ToolRun {
          notes, text := StreamRun(host.decode, id, stdout);
        } else {
          text := stdout;
        }
        out := notes + [Reply(id, ToolResultJson(ToolResult(text, false)))];
    }
  }

  /** A refused call starts no process: its answer does not depend on `start`. */
  lemma RefusalStartsNothing(host: Host, start: (seq<string>, string) -> StartResult, id: Json, params: Option<ToolCall>)
    requires StdioDecision(params, host.defaultModel).Reject?
    ensures ToolsCallOutputs(host, id, params) == ToolsCallOutputs(host.(start := start), id, params)
  {
  }

  /**
   * The run tool's answer: one progress notification per fragment, with
   * cumulative progress, and a final text that is the fragments joined.
   */
  lemma RunAnswer(host: Host, id: Json, call: ToolCall, stdout: string)
    requires call.name == ToolRun && StdioDecision(Some(call), host.defaultModel).Launch?
    requires var d := StdioDecision(Some(call), host.defaultModel); host.start(d.argv, d.cwd) == Started(stdout)
    ensures var pieces := TextPieces(host.decode, ScanLines(stdout));
      var out := ToolsCallOutputs(host, id, Some(call));
      && |out| == |pieces| + 1
      && (forall k :: 0 <= k < |pieces| ==> out[k] == ProgressNote(id, Concat(pieces[..k + 1]), pieces[k]))
      && out[|pieces|] == Reply(id, ToolResultJson(ToolResult(Sse.Collected(true, host.decode, ScanLines(stdout)), false)))
  {
    var pieces := TextPieces(host.decode, ScanLines(stdout));
    ProgressIsCumulative(id, pieces);
    CollectorSharedWithSse(host.decode, ScanLines(stdout));
  }

  // -----------------------------------------------------------------------
  // Requests and the stdin loop

  /**
   * Everything handleRequest writes for one decoded request: nothing for the
   * initialized notification, otherwise exactly one response with the
   * request's id, preceded only by progress notifications.
   */
  function RequestOutputs(host: Host, req: McpRequest): (out: seq<Output>)
    ensures req.methodName == "notifications/initialized" <==> out == []
    ensures out != [] ==>
      && Answers(out[|out| - 1], req.id)
      && forall k :: 0 <= k < |out| - 1 ==> out[k].Notify?
    ensures req.methodName == "initialize" ==>
      out == [Reply(req.id, InitializeResultJson())]
      && Get(out[0].result.fields, "protocolVersion") == JString(ProtocolVersion)
    ensures !Router.KnownMethod(req.methodName) ==>
      out == [ErrorReply(req.id, MethodNotFound, "method not found: " + req.methodName)]
  {
    if req.methodName == "initialize" then [Reply(req.id, InitializeResultJson())]
    else if req.methodName == "notifications/initialized" then []
    else if req.methodName == "tools/list" then [Reply(req.id, JObject(map["tools" := host.catalog]))]
    else if req.methodName == "tools/call" then ToolsCallOutputs(host, req.id, req.params)
    else [ErrorReply(req.id, MethodNotFound, "method not found: " + req.methodName)]
  }

  /** handleRequest. */
  method HandleRequest(host: Host, req: McpRequest) returns (out: seq<Output>)
    ensures out == RequestOutputs(host, req)
  {
    match req.methodName {
      case "initialize" =>
        out := [Reply(req.id, InitializeResultJson())];
      case "notifications/initialized" =>
        out := [];
      case "tools/list" =>
        out := [Reply(req.id, JObject(map["tools" := host.catalog]))];
      case "tools/call" =>
        out := HandleToolsCall(host, req.id, req.params);
      case _ =>
        out := [ErrorReply(req.id, MethodNotFound, "method not found: " + req.methodName)];
    }
  }

  /**
   * An empty method is "method not found" on stdio, where the HTTP server
   * answers "missing method" with -32600.
   */
  lemma EmptyMethodNotFound(host: Host, req: McpRequest, accept: string, sessionHeader: string)
    requires req.methodName == ""
    ensures RequestOutputs(host, req) == [ErrorReply(req.id, MethodNotFound, "method not found: ")]
    ensures Router.ServerRoute(Router.HttpRequest("POST", accept, sessionHeader, Some(req)))
      == Router.Failure(req.id, InvalidRequest, "missing method")
  {
    assert "method not found: " + req.methodName == "method not found: ";
  }

  /** What one stdin line produces: nothing when empty, a parse error with a null id when undecodable. */
  function LineOutputs(host: Host, line: string): seq<Output> {
    if line == "" then []
    else
      match host.parse(line)
      case None => [ErrorReply(JNull, ParseError, "invalid JSON")]
      case Some(req) => RequestOutputs(host, req)
  }

  /** Everything the server writes for the lines of its standard input. */
  function SessionOutputs(host: Host, lines: seq<string>): seq<Output> {
    FlatMap(l => LineOutputs(host, l), lines)
  }

  /** The stdin loop of main. */
  method Serve(host: Host, input: string) returns (outputs: seq<Output>)
    ensures outputs == SessionOutputs(host, ScanLines(input))
  {
    var lines := ScanLines(input);
    outputs := [];
    var i := 0;
    while i < |lines|
      invariant 0 <= i <= |lines|
      invariant outputs == SessionOutputs(host, lines[..i])
    {
      var line := lines[i];
      SessionStep(host, lines, i);
      if line == "" {
        i := i + 1;
        continue;
      }
      var req := host.parse(line);
      if req.None? {
        outputs := outputs + [ErrorReply(JNull, ParseError, "invalid JSON")];
        i := i + 1;
        continue;
      }
      var out := HandleRequest(host, req.value);
      assert out == LineOutputs(host, line);
      outputs := outputs + out;
      i := i + 1;
    }
    assert lines[..|lines|] == lines;
  }

  /** What the server has written grows by one line's outputs per line. */
  lemma SessionStep(host: Host, lines: seq<string>, i: nat)
    requires i < |lines|
    ensures SessionOutputs(host, lines[..i + 1]) == SessionOutputs(host, lines[..i]) + LineOutputs(host, lines[i])
  {
    var f := l => LineOutputs(host, l);
    assert lines[..i + 1][..i] == lines[..i];
    assert FlatMap(f, lines[..i + 1]) == FlatMap(f, lines[..i]) + f(lines[i]);
  }

  /**
   * An undecodable line is answered by exactly one parse error with a null
   * id, and the lines after it are served as if it had not been there.
   */
  lemma BadLineThenContinue(host: Host, before: seq<string>, line: string, after: seq<string>)
    requires line != "" && host.parse(line).None?
    ensures SessionOutputs(host, before + [line] + after)
      == SessionOutputs(host, before) + [ErrorReply(JNull, ParseError, "invalid JSON")] + SessionOutputs(host, after)
  {
    var f := l => LineOutputs(host, l);
    FlatMapAppend(f, before + [line], after);
    FlatMapAppend(f, before, [line]);
    assert FlatMap(f, [line]) == FlatMap(f, []) + f(line);
  }

  /** Empty lines produce nothing. */
  lemma EmptyLineSkipped(host: Host, before: seq<string>, after: seq<string>)
    ensures SessionOutputs(host, before + [""] + after) == SessionOutputs(host, before + after)
  {
    var f := l => LineOutputs(host, l);
    assert f("") == [];
    FlatMapSkip(f, before, "", after);
  }
}
