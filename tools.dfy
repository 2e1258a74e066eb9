/**
 * What the HTTP server decides for a tools/call before any process starts
 * (cmd/mcpserver/main.go, handleToolsCall and handleToolsCallSSE): either a
 * JSON-RPC error, or the argument vector, standard input and working
 * directory of one CLI invocation. The aggregated JSON mode and the SSE mode
 * differ in which tools have their working directory checked.
 */
module Tools {
  import opened Wrappers
  import opened Json
  import opened Text
  import opened Rpc

  // -----------------------------------------------------------------------
  // The run tool's argument vector

  /** The parameters of one `run` invocation of the CLI. */
  datatype RunInvocation = RunInvocation(
    model: string, session: string, continueLast: bool, files: seq<string>, message: string)

  /** One `--file f` pair per file, in order. */
  function FilePairs(files: seq<string>): seq<string>
    decreases |files|
  {
    if |files| == 0 then [] else FilePairs(files[..|files| - 1]) + ["--file", files[|files| - 1]]
  }

  /**
   * What goes between the model and the message: `--session s` when the
   * session is not empty, then `--continue` when set, then the file pairs.
   */
  function RunOptions(inv: RunInvocation): seq<string> {
    (if inv.session != "" then ["--session", inv.session] else [])
      + (if inv.continueLast then ["--continue"] else [])
      + FilePairs(inv.files)
  }

  /** `run --format json --model m`, the options, and the message last. */
  function RunArgv(inv: RunInvocation): seq<string> {
    ["run", "--format", "json", "--model", inv.model] + RunOptions(inv) + [inv.message]
  }

  /** How the CLI reads a sequence of `--file f` pairs back. */
  function ParseFilePairs(s: seq<string>): Option<seq<string>>
    decreases |s|
  {
    if |s| == 0 then Some([])
    else if |s| < 2 || s[|s| - 2] != "--file" then None
    else
      match ParseFilePairs(s[..|s| - 2])
      case None => None
      case Some(files) => Some(files + [s[|s| - 1]])
  }

  /** A leading `--session s`, if any, and what follows it. */
  function SplitSession(options: seq<string>): (string, seq<string>) {
    if |options| >= 2 && options[0] == "--session" then (options[1], options[2..]) else ("", options)
  }

  /** A leading `--continue`, if any, and what follows it. */
  function SplitContinue(rest: seq<string>): (bool, seq<string>) {
    if |rest| >= 1 && rest[0] == "--continue" then (true, rest[1..]) else (false, rest)
  }

  /** How the CLI reads the options back: session, continue flag and files. */
  function ParseRunOptions(options: seq<string>): Option<(string, bool, seq<string>)> {
    var (session, rest) := SplitSession(options);
    var (continueLast, pairs) := SplitContinue(rest);
    match ParseFilePairs(pairs)
    case None => None
    case Some(files) => Some((session, continueLast, files))
  }

  /** How the CLI reads a `run` argument vector back. */
  function ParseRunArgv(argv: seq<string>): Option<RunInvocation> {
    if |argv| < 6 || argv[..4] != ["run", "--format", "json", "--model"] then None
    else
      match ParseRunOptions(argv[5..|argv| - 1])
      case None => None
      case Some((session, continueLast, files)) =>
        Some(RunInvocation(argv[4], session, continueLast, files, argv[|argv| - 1]))
  }

  /** The file pairs hold each file at an odd position, in order. */
  lemma {:induction false} FilePairsLayout(files: seq<string>)
    ensures |FilePairs(files)| == 2 * |files|
    ensures forall k :: 0 <= k < |files| ==> FilePairs(files)[2 * k] == "--file" && FilePairs(files)[2 * k + 1] == files[k]
    decreases |files|
  {
    if |files| > 0 {
      FilePairsLayout(files[..|files| - 1]);
    }
  }

  lemma {:induction false} FilePairsRoundTrip(files: seq<string>)
    ensures ParseFilePairs(FilePairs(files)) == Some(files)
    decreases |files|
  {
    if |files| > 0 {
      var init := files[..|files| - 1];
      FilePairsRoundTrip(init);
      var s := FilePairs(files);
      assert s[..|s| - 2] == FilePairs(init);
      assert init + [files[|files| - 1]] == files;
    }
  }

  /** The file pairs are twice as many words as files and start with `--file`. */
  lemma {:induction false} FilePairsHead(files: seq<string>)
    ensures |FilePairs(files)| == 2 * |files|
    ensures |files| > 0 ==> FilePairs(files)[0] == "--file"
    decreases |files|
  {
    if |files| > 0 {
      FilePairsHead(files[..|files| - 1]);
    }
  }

  lemma SplitSessionBack(session: string, rest: seq<string>)
    requires |rest| == 0 || rest[0] != "--session"
    ensures SplitSession((if session != "" then ["--session", session] else []) + rest) == (session, rest)
  {
    if session != "" {
      assert (["--session", session] + rest)[2..] == rest;
    } else {
      assert [] + rest == rest;
    }
  }

  lemma SplitContinueBack(continueLast: bool, pairs: seq<string>)
    requires |pairs| == 0 || pairs[0] != "--continue"
    ensures SplitContinue((if continueLast then ["--continue"] else []) + pairs) == (continueLast, pairs)
  {
    if continueLast {
      assert (["--continue"] + pairs)[1..] == pairs;
    } else {
      assert [] + pairs == pairs;
    }
  }

  /** The options can be read back. */
  lemma RunOptionsRoundTrip(inv: RunInvocation)
    ensures ParseRunOptions(RunOptions(inv)) == Some((inv.session, inv.continueLast, inv.files))
  {
    var sessionPart := if inv.session != "" then ["--session", inv.session] else [];
    var continuePart := if inv.continueLast then ["--continue"] else [];
    var pairs := FilePairs(inv.files);
    var rest := continuePart + pairs;
    assert RunOptions(inv) == sessionPart + rest;
    FilePairsRoundTrip(inv.files);
    FilePairsHead(inv.files);
    SplitContinueBack(inv.continueLast, pairs);
    assert |rest| == 0 || rest[0] in {"--continue", "--file"};
    SplitSessionBack(inv.session, rest);
  }

  /**
   * The argument vector loses nothing: the invocation can be read back from
   * it, whatever the message, session or file names are.
   */
  lemma RunArgvRoundTrip(inv: RunInvocation)
    ensures ParseRunArgv(RunArgv(inv)) == Some(inv)
  {
    var argv := RunArgv(inv);
    assert argv[..4] == ["run", "--format", "json", "--model"];
    assert argv[5..|argv| - 1] == RunOptions(inv);
    RunOptionsRoundTrip(inv);
  }

  /** Different invocations never share an argument vector. */
  lemma RunArgvInjective(a: RunInvocation, b: RunInvocation)
    requires RunArgv(a) == RunArgv(b)
    ensures a == b
  {
    RunArgvRoundTrip(a);
    RunArgvRoundTrip(b);
  }

  // -----------------------------------------------------------------------
  // Working directory

  /** What os.Stat reports for a path. */
  datatype PathInfo = StatFailed(reason: string) | Directory | NotDirectory

  /**
   * validateCwd: the empty path (inherit the server's directory) and existing
   * directories are accepted; otherwise the error message.
   */
  function ValidateCwd(cwd: string, stat: string -> PathInfo): (err: Option<string>)
    ensures err.None? <==> cwd == "" || stat(cwd).Directory?
    ensures err.Some? && stat(cwd).StatFailed? ==> err.value == "invalid cwd: " + stat(cwd).reason
    ensures err.Some? && stat(cwd).NotDirectory? ==> err.value == "invalid cwd: not a directory"
  {
    if cwd == "" then None
    else
      match stat(cwd)
      case StatFailed(reason) => Some("invalid cwd: " + reason)
      case NotDirectory => Some("invalid cwd: not a directory")
      case Directory => None
  }

  /** The argument's directory, or the request's top-level `cwd` when it is empty. */
  function OrRequestCwd(argCwd: string, reqCwd: string): string {
    if argCwd == "" then reqCwd else argCwd
  }

  // -----------------------------------------------------------------------
  // Decisions

  /** The outcome of validating a tools/call. */
  datatype Decision =
    | Reject(code: int, message: string)
    | Launch(argv: seq<string>, stdin: string, cwd: string)

  predicate KnownTool(name: string) {
    name in {ToolExec, ToolRun, ToolModels, ToolSessionList, ToolAgentList}
  }

  /** The arguments of a known tool are usable: exec has arguments, run has a message. */
  predicate ArgumentsValid(call: ToolCall) {
    && KnownTool(call.name)
    && (call.name == ToolExec ==> call.exec.Some? && |call.exec.value.args| > 0)
    && (call.name == ToolRun ==> call.run.Some? && call.run.value.message != "")
  }

  /** The directory a tool's own arguments name ("" for the listing tools). */
  function ArgumentCwd(call: ToolCall): string {
    if call.name == ToolExec && call.exec.Some? then call.exec.value.cwd
    else if call.name == ToolRun && call.run.Some? then call.run.value.cwd
    else ""
  }

  /** The invocation the run tool asks for; an empty model means the default one. */
  function RunRequest(args: RunArgs, defaultModel: string): RunInvocation {
    RunInvocation(
      if args.model == "" then defaultModel else args.model,
      args.session, args.continueLast, args.files, args.message)
  }

  /** The fixed argument vectors of the listing tools. */
  function ListingArgv(name: string): seq<string> {
    if name == ToolModels then ["models"]
    else if name == ToolSessionList then ["session", "list"]
    else ["agent", "list"]
  }

  /** The argument checks shared by both modes, in the order the source makes them. */
  function CheckArguments(call: ToolCall): (err: Option<string>)
    ensures err.None? <==> ArgumentsValid(call)
    ensures err.Some? && !KnownTool(call.name) ==> err.value == "unknown tool: " + call.name
  {
    if call.name == ToolExec then
      if call.exec.None? then Some("invalid arguments")
      else if |call.exec.value.args| == 0 then Some("missing args")
      else None
    else if call.name == ToolRun then
      if call.run.None? then Some("invalid arguments")
      else if call.run.value.message == "" then Some("missing message")
      else None
    else if KnownTool(call.name) then None
    else Some("unknown tool: " + call.name)
  }

  /** What the accepted call runs, in the directory `cwd`. */
  function LaunchFor(call: ToolCall, defaultModel: string, cwd: string): (d: Decision)
    requires ArgumentsValid(call)
    ensures d.Launch? && d.cwd == cwd
    ensures call.name == ToolExec ==> d.argv == call.exec.value.args && d.stdin == call.exec.value.stdin
    ensures call.name == ToolRun ==>
      && d.argv == RunArgv(RunRequest(call.run.value, defaultModel))
      && ParseRunArgv(d.argv) == Some(RunRequest(call.run.value, defaultModel)) && d.stdin == ""
    ensures call.name == ToolModels ==> d.argv == ["models"] && d.stdin == ""
    ensures call.name == ToolSessionList ==> d.argv == ["session", "list"] && d.stdin == ""
    ensures call.name == ToolAgentList ==> d.argv == ["agent", "list"] && d.stdin == ""
  {
    if call.name == ToolExec then Launch(call.exec.value.args, call.exec.value.stdin, cwd)
    else if call.name == ToolRun then
      RunArgvRoundTrip(RunRequest(call.run.value, defaultModel));
      Launch(RunArgv(RunRequest(call.run.value, defaultModel)), "", cwd)
    else Launch(ListingArgv(call.name), "", cwd)
  }

  /**
   * The aggregated JSON mode: the working directory is the argument's or
   * else the request's, and is checked for exec and run only; the listing
   * tools run in the server's own directory. Every refusal is -32602.
   */
  function JsonModeDecision(params: Option<ToolCall>, reqCwd: string,
                            stat: string -> PathInfo, defaultModel: string): (d: Decision)
    ensures d.Reject? ==> d.code == InvalidParams
    ensures params.None? ==> d == Reject(InvalidParams, "invalid params")
    ensures d.Launch? <==>
      && params.Some? && ArgumentsValid(params.value)
      && (params.value.name in {ToolExec, ToolRun} ==>
            ValidateCwd(OrRequestCwd(ArgumentCwd(params.value), reqCwd), stat).None?)
    ensures d.Launch? ==>
      d == LaunchFor(params.value, defaultModel,
             if params.value.name in {ToolExec, ToolRun} then OrRequestCwd(ArgumentCwd(params.value), reqCwd) else "")
  {
    match params
    case None => Reject(InvalidParams, "invalid params")
    case Some(call) =>
      match CheckArguments(call)
      case Some(message) => Reject(InvalidParams, message)
      case None =>
        if call.name in {ToolExec, ToolRun} then
          var cwd := OrRequestCwd(ArgumentCwd(call), reqCwd);
          match ValidateCwd(cwd, stat)
          case Some(message) => Reject(InvalidParams, message)
          case None => LaunchFor(call, defaultModel, cwd)
        else LaunchFor(call, defaultModel, "")
  }

  /**
   * The SSE mode: the request's directory stands in for an empty one and is
   * checked for every tool, the listing tools included.
   */
  function SseModeDecision(params: Option<ToolCall>, reqCwd: string,
                           stat: string -> PathInfo, defaultModel: string): (d: Decision)
    ensures d.Reject? ==> d.code == InvalidParams
    ensures params.None? ==> d == Reject(InvalidParams, "invalid params")
    ensures d.Launch? <==>
      && params.Some? && ArgumentsValid(params.value)
      && ValidateCwd(OrRequestCwd(ArgumentCwd(params.value), reqCwd), stat).None?
    ensures d.Launch? ==>
      d == LaunchFor(params.value, defaultModel, OrRequestCwd(ArgumentCwd(params.value), reqCwd))
  {
    match params
    case None => Reject(InvalidParams, "invalid params")
    case Some(call) =>
      match CheckArguments(call)
      case Some(message) => Reject(InvalidParams, message)
      case None =>
        var cwd := OrRequestCwd(ArgumentCwd(call), reqCwd);
        match ValidateCwd(cwd, stat)
        case Some(message) => Reject(InvalidParams, message)
        case None => LaunchFor(call, defaultModel, cwd)
  }

  // -----------------------------------------------------------------------
  // The two modes side by side

  /**
   * The modes agree on exec and run; they disagree on a listing tool called
   * with a top-level `cwd` that is not a directory: JSON mode runs it in the
   * server's directory, SSE mode refuses it.
   */
  lemma ModesAgreeOnExecAndRun(params: Option<ToolCall>, reqCwd: string, stat: string -> PathInfo, defaultModel: string)
    requires params.Some? && params.value.name in {ToolExec, ToolRun}
    ensures JsonModeDecision(params, reqCwd, stat, defaultModel) == SseModeDecision(params, reqCwd, stat, defaultModel)
  {
  }

  lemma ListingCwdCheckedOnlyInSse(name: string, reqCwd: string, stat: string -> PathInfo, defaultModel: string)
    requires name in {ToolModels, ToolSessionList, ToolAgentList}
    requires reqCwd != "" && !stat(reqCwd).Directory?
    ensures JsonModeDecision(Some(ToolCall(name, None, None)), reqCwd, stat, defaultModel).Launch?
    ensures JsonModeDecision(Some(ToolCall(name, None, None)), reqCwd, stat, defaultModel).cwd == ""
    ensures SseModeDecision(Some(ToolCall(name, None, None)), reqCwd, stat, defaultModel).Reject?
  {
    assert ArgumentsValid(ToolCall(name, None, None));
  }

  /**
   * A run call with session, continue and two files, and no model of its
   * own: the default model is filled in and the message comes last.
   */
  lemma RunArgvExample(defaultModel: string)
    ensures RunArgv(RunRequest(RunArgs("fix it", "", "", "s1", true, ["a.go", "b.go"]), defaultModel))
         == ["run", "--format", "json", "--model", defaultModel, "--session", "s1", "--continue",
             "--file", "a.go", "--file", "b.go", "fix it"]
  {
    assert FilePairs(["a.go", "b.go"]) == FilePairs(["a.go"]) + ["--file", "b.go"];
    assert FilePairs(["a.go"]) == FilePairs([]) + ["--file", "a.go"];
  }
}
