# opencode MCP bridge, modelled in Dafny

The bridge exposes an external code-assistant CLI as tools of the Model Context
Protocol (revision 2024-11-05). It speaks JSON-RPC 2.0 in two ways:

- The HTTP server (`cmd/mcpserver/main.go`) serves the `/mcp` endpoint. It
  answers a `tools/call` either once as JSON or as a stream of server-sent
  events.
- The stdio server (`cmd/mcpstdio/main.go`) reads one request per line of
  standard input and writes one line per response or notification.

The model covers the deterministic core between the JSON decoder and the
child process:

- **Events** (`events.dfy`): how one line of the CLI's `--format json`
  output is decoded and classified, and `extractEventData`.
- **Aggregation** (`aggregate.dfy`): `parseJSONEventStream`, which turns the
  whole event stream into the readable answer of JSON mode.
- **Terminal results** (`terminal.dfy`): `runCommand`'s four results, and how
  the JSON mode and the SSE mode each build the final text and error flag.
- **Streaming** (`sse.dfy`): the SSE loop of `handleToolsCallSSE`, as a
  class that holds the frames written so far and the text collector.
- **Validation** (`tools.dfy`): tool-call validation, working-directory
  checks and the run tool's argument vector, in JSON mode and in SSE mode.
- **Sessions** (`sessions.dfy`): the session registry and its hex ids.
- **Routing** (`router.dfy`): the `/mcp` handler. It covers method and
  Accept-header routing, error codes, and issuing and echoing the session
  header. The test suite's copy of the handler is modelled beside it.
- **Models** (`models.dfy`): model-list parsing, default-model selection in
  both servers, and the time-to-live model cache.
- **Stdio** (`stdio.dfy`): the stdio server. It covers `handleRequest`,
  `handleToolsCall` with its progress notifications, and the stdin loop.

Shared vocabulary lives in the remaining files:

- `wrappers.dfy`: `Option`.
- `text.dfy`: Go's string functions, such as `strings.TrimSpace`,
  `strings.Split`, `strings.Fields`, `bufio.ScanLines`, `%d` and the UTF-8
  byte length.
- `json.dfy`: a closed `Json` datatype that stands for Go's `any`.
- `rpc.dfy`: error codes, tool names, decoded request shapes and response
  envelopes.

Everything outside the core becomes a parameter:

- The JSON decoder of a line.
- What the CLI printed and how it exited.
- `os.Stat` of a directory.
- The random bytes of a session id.
- The clock.
- The default model.

## Model

| member | source | states |
|---|---|---|
| Events.DecodeEvent | cmd/mcpserver/main.go:1089-1092 | a line decodes to an event exactly when the decoder yields a JSON object or `null`; any other value or a decoding failure gives none |
| Events.ExtractEventData | cmd/mcpserver/main.go:1041-1075 | the event itself when `part` is not an object; the string `part.text` of a text event; `{tool, status, input?, output?}` of a tool_use event with an object state (input only when it is an object, output whenever the key is present); `{type, reason}` for step_start/step_finish; the event itself in every other case |
| Events.TextPayloadIsFragment | cmd/mcpserver/main.go:1049-1052 | a `text` event whose extracted data is a string is exactly a classified text fragment, and the data is its content |
| Aggregate.LineEvent | cmd/mcpserver/main.go:1083-1097 | a line yields an event exactly when its trimmed form is non-empty and decodes to an object or null, and the event is what the trimmed line decodes to |
| Aggregate.ScanLine | cmd/mcpserver/main.go:1083-1115 | one loop iteration contributes at most one text part and at most one tool block, and exactly those the line's classification gives |
| Aggregate.ParseJSONEventStream | cmd/mcpserver/main.go:1078-1127 | the loop's result equals the aggregation of the lines split on newline: text parts joined, then the tool-outputs heading and the blocks separated by blank lines when any tool completed with output |
| Aggregate.ContributionsFollowClassification | cmd/mcpserver/main.go:1099-1115 | a text part is added iff the event is a non-empty text fragment, and it is that content; a tool block is added iff the event is a completed tool_use with a non-empty string output, and it is `[Tool: name]` then a newline then the output |
| Aggregate.PartsOfOneLine | cmd/mcpserver/main.go:1083-1115 | the parts collected from a one-line stream are that line's contribution |
| Aggregate.SilentContributesNothing | cmd/mcpserver/main.go:1085-1097 | a blank, undecodable or part-less line contributes nothing |
| Aggregate.SilentLineIgnored | cmd/mcpserver/main.go:1085-1097 | inserting such a line anywhere in the stream changes neither collected list |
| Aggregate.TextComesFirst | cmd/mcpserver/main.go:1118-1124 | the result starts with the concatenated text parts; it is exactly that iff no tool output was collected, and otherwise the heading follows |
| Aggregate.TextLine | cmd/mcpserver/main.go:1101-1104 | a line holding `{"type":"text","part":{"text":t}}` with non-empty `t` contributes exactly `t` |
| Aggregate.ToolLine | cmd/mcpserver/main.go:1105-1113 | a completed tool_use line with non-empty output contributes exactly its tool block |
| Aggregate.TextToolTextParts | cmd/mcpserver/main.go:1078-1127 | a text line, a completed tool line with output and another text line contribute exactly the two texts, in order, and the one tool block |
| Aggregate.WorkedExample | cmd/mcpserver/main.go:1078-1127 | text "A", a completed tool x with output "B" and text "C" aggregate to `AC`, the heading, then `[Tool: x]` and `B` |
| Terminal.RunCommand | cmd/mcpserver/main.go:595-611 | an error is reported iff the process did not exit with 0; stderr is reported only for a non-zero exit; a process that did not start gives empty output and exit code -1 |
| Terminal.ExitMarkerNamesCode | cmd/mcpserver/main.go:578 | the `[exit code: N]` marker parses back to the code it was made from |
| Terminal.JsonModeBase | cmd/mcpserver/main.go:563-572 | non-run tools answer raw stdout; the run tool answers the aggregation when stdout and the aggregation are both non-empty, raw stdout otherwise |
| Terminal.JsonModeResult | cmd/mcpserver/main.go:563-584 | the exact text: the base, then a newline, `[stderr]` and stderr when stderr is non-empty, then the exit marker exactly when the command failed; isError iff it failed with a non-zero code |
| Terminal.JsonModeSuccess | cmd/mcpserver/main.go:600-603 | a process exiting 0 yields its (possibly aggregated) stdout and no error, whatever it wrote to stderr |
| Terminal.JsonModeLaunchFailure | cmd/mcpserver/main.go:609-610 | a process that could not start is answered with text `[exit code: -1]` and isError set |
| Terminal.SseExitCode | cmd/mcpserver/main.go:1003-1010 | a non-zero exit code only comes from an exit status reported by Wait |
| Terminal.SseResult | cmd/mcpserver/main.go:1013-1028 | the exact text: the collector; then, when stderr is non-empty, a blank line (only if something was collected), `[stderr]` and stderr; then the exit marker iff the code is non-zero; isError iff the code is non-zero |
| Terminal.StderrSeparatorsDiffer | cmd/mcpserver/main.go:1015-1019 | for the same outcome the two modes differ: one newline before `[stderr]` in JSON mode, a blank line in SSE mode |
| Terminal.WaitFailureHiddenInSse | cmd/mcpserver/main.go:1004-1010 | a Wait error that is not an exit status leaves the SSE result unflagged and unmarked, while JSON mode flags a process it could not run |
| Terminal.FailingCommandExample | cmd/mcpserver/main.go:574-584 | a CLI that writes `boom` and exits 2 gives the two exact texts of the two modes, both flagged |
| Terminal.ListingExample | cmd/mcpserver/main.go:563-584 | a listing that exits 0 is answered with its output verbatim, not flagged |
| Sse.LineFrame | cmd/mcpserver/main.go:958-1000 | for the run tool a decodable line becomes `notifications/message` with the event type and extracted data; every other line becomes `notifications/progress` carrying the raw line |
| Sse.CollectorPiece | cmd/mcpserver/main.go:967-972 | the text a decoded event adds to the collector is its content when it is a text fragment, and nothing otherwise |
| Sse.NonEmpty | cmd/mcpserver/main.go:955-958 | the lines the loop handles are the scanned lines that are not empty: none of them is empty, and a string is among them iff it is a non-empty scanned line |
| Sse.SseStream.Line | cmd/mcpserver/main.go:954-1001 | one loop iteration appends exactly that line's frame (none for an empty line) and that line's text |
| Sse.SseStream.Finish | cmd/mcpserver/main.go:1003-1037 | after Wait, exactly one final response frame is appended, built from the collector, stderr and the exit code; the collector is unchanged |
| Sse.StreamToolCall | cmd/mcpserver/main.go:949-1037 | the frames written are the line frames of the scanned stdout in order, then one final frame with the collected text |
| Sse.OneFramePerLine | cmd/mcpserver/main.go:954-1001 | there is exactly one notification per non-empty line, in line order, and the k-th is that line's frame |
| Sse.ResultFrameIsLast | cmd/mcpserver/main.go:1030-1037 | the last frame is the result and every earlier frame is a notification |
| Sse.CollectorIsStreamedText | cmd/mcpserver/main.go:967-984 | the collected text equals the concatenated data of the `text` message frames a client received |
| Sse.NonRunCollectsNothing | cmd/mcpserver/main.go:988-1000 | a non-run tool collects no text and forwards every non-empty line as a raw progress frame |
| Sse.WireFrameIsOneEvent | cmd/mcpserver/main.go:983-984 | with a serializer that writes no newline, each frame on the wire is one `data:` line followed by a blank line |
| Tools.FilePairsLayout | cmd/mcpserver/main.go:543-545 | the file options are `--file f` pairs, one per file, in order |
| Tools.FilePairsRoundTrip | cmd/mcpserver/main.go:543-545 | the file list can be read back from its pairs |
| Tools.RunOptionsRoundTrip | cmd/mcpserver/main.go:537-545 | session, continue flag and files can be read back from the options |
| Tools.RunArgvRoundTrip | cmd/mcpserver/main.go:536-546 | the run argument vector parses back to the invocation it was built from |
| Tools.RunArgvInjective | cmd/mcpserver/main.go:536-546 | different invocations give different argument vectors |
| Tools.RunArgvExample | cmd/mcpserver/main.go:536-546 | a call with a session, `--continue` and two files gives the expected vector, in that order |
| Tools.ValidateCwd | cmd/mcpserver/main.go:651-663 | no error iff the directory is empty or is a directory; otherwise `invalid cwd: ` with the stat error or `not a directory` |
| Tools.CheckArguments | cmd/mcpserver/main.go:483-561 | no error iff the tool is known, exec has arguments and run has a message; an unknown tool is `unknown tool: <name>` |
| Tools.LaunchFor | cmd/mcpserver/main.go:483-557 | an accepted call runs exec's own arguments and stdin, exactly `RunArgv` of the requested invocation (the default model when none is given), which parses back to it, or the fixed vectors of the listing tools |
| Tools.JsonModeDecision | cmd/mcpserver/main.go:469-561 | every refusal is -32602; a call is launched iff its params decode, its arguments are valid and, for exec and run only, the directory is valid; listing tools run in the server's directory |
| Tools.SseModeDecision | cmd/mcpserver/main.go:820-905 | as in JSON mode, but the directory is checked for every tool |
| Tools.ModesAgreeOnExecAndRun | cmd/mcpserver/main.go:899-905 | for exec and run both modes reach the same decision |
| Tools.ListingCwdCheckedOnlyInSse | cmd/mcpserver/main.go:899-905 | a listing tool with an invalid request directory runs in JSON mode but is refused in SSE mode |
| Sessions.HexEncode | cmd/mcpserver/main.go:712-716 | the encoding has two characters per byte, all lowercase hex digits |
| Sessions.HexRoundTrip | cmd/mcpserver/main.go:712-716 | decoding an encoded id gives back the random bytes |
| Sessions.HexEncodeInjective | cmd/mcpserver/main_test.go:225-228 | different random bytes give different ids |
| Sessions.GenerateSessionId | cmd/mcpserver/main_test.go:214-235 | the id is 32 lowercase hex characters and decodes to the random bytes |
| Sessions.SessionStore.Create | cmd/mcpserver/main.go:694-704 | exactly one entry is added, under the new id; every other entry is unchanged; the store stays well formed |
| Sessions.SessionStore.Get | cmd/mcpserver/main.go:706-710 | the stored session iff the id is present, nothing otherwise |
| Sessions.CreateThenGet | cmd/mcpserver/main_test.go:246-256 | a session just created is found under its id |
| Sessions.MalformedIdAbsent | cmd/mcpserver/main_test.go:258-262 | an id that is not 32 hex digits, such as `nonexistent`, is never found |
| Router.Dispatch | cmd/mcpserver/main.go:153-231 | OPTIONS is discovery; anything but POST is 405; an undecodable body is -32700 with a null id; an empty method is -32600; an unknown method is -32601 `method not found: <m>`; other errors carry the request id |
| Router.ServerStreams | cmd/mcpserver/main.go:167-188 | a tools/call streams unless the client accepts JSON and not event streams |
| Router.HelperDiffersOnlyInMode | cmd/mcpserver/main_test.go:1090-1091 | the test copy routes every request like the server except a tools/call whose Accept header names neither JSON nor an event stream |
| Router.NoAcceptHeader | cmd/mcpserver/main_test.go:1090-1091 | without an Accept header the server streams a tools/call and the test copy answers it as JSON |
| Router.Status | cmd/mcpserver/main.go:154-164 | 204 for discovery and the initialized notification, 405 for other HTTP methods |
| Router.HandleMcp | cmd/mcpserver/main.go:192-221 | initialize creates a session and returns its id; tools/list, tools/call and unknown methods echo the client's session header only when it names a live session; nothing else changes the store |
| Router.LookUp | cmd/mcpserver/main.go:208-218 | the session to echo is the client's header when it is non-empty and stored |
| Router.InitializeThenList | cmd/mcpserver/main.go:196-217 | a client that initializes and then lists the tools with the id it got, whatever its Accept header, is answered with the tool list and has that id echoed |
| Models.LineModel | cmd/mcpserver/main.go:748-756 | a line gives a model iff, trimmed, it is non-empty, does not start with `#` and, in the HTTP server, does not start with `Available`; the model is its first whitespace-free field |
| Models.ParseModelList | cmd/mcpserver/main.go:746-757 | the loop keeps each line's model in order |
| Models.ParsedModelsAreWords | cmd/mcpserver/main.go:746-757 | there are at most as many models as lines, each non-empty and free of whitespace |
| Models.SkippedLineIgnored | cmd/mcpserver/main.go:750-751 | a skipped line can be removed without changing the list |
| Models.HeadingKeptOnlyByStdio | cmd/mcpstdio/main.go:410-416 | a line starting with `Available` is dropped by the HTTP server but kept by the stdio server |
| Models.ServerDefaultModel | cmd/mcpserver/main.go:769-817 | the result is listed or is the configured fallback, and is listed whenever the list is non-empty; each step of the search is stated for all lists by PreferredModelWins, ServerPicksFirstContaining, ServerFallsBackInListOrder and EmptyListFallsBack |
| Models.ServerPicksFirstContaining | cmd/mcpserver/main.go:780-798 | with no preferred model listed exactly, the first preferred model any listed model contains selects the first listed model containing it |
| Models.ServerFallsBackInListOrder | cmd/mcpserver/main.go:790-812 | when no listed model contains a preferred model, the HTTP server, like the stdio server, picks the first `github-copilot/` model, else the first model |
| Models.StdioDefaultModel | cmd/mcpstdio/main.go:429-460 | the result is listed or is the built-in default, and is listed whenever the list is non-empty |
| Models.PreferredModelWins | cmd/mcpserver/main.go:781-786 | the first preferred model, in preference order, that is listed exactly is chosen by both servers |
| Models.StdioFallsBackInListOrder | cmd/mcpstdio/main.go:448-457 | with no preferred model listed, the stdio server picks the first `github-copilot/` model, else the first model |
| Models.EmptyListFallsBack | cmd/mcpserver/main.go:809-816 | an empty list gives the fallback |
| Models.SubstringStepDiffers | cmd/mcpserver/main.go:791-797 | for a list `[a, "proxy/" + preferred]` with a short non-Copilot `a`, the HTTP server picks the entry that only contains a preferred name, the stdio server picks `a` |
| Models.FirstIndex | cmd/mcpserver/main.go:781-805 | the search stops at the first element that matches and no earlier one does |
| Models.ModelCache.Fetch | cmd/mcpserver/main.go:719-766 | a hit (non-empty and younger than the time to live) returns the cache unchanged; a failed listing returns nothing; otherwise the parsed list is returned and stored, with the current time, only when non-empty |
| Models.FetchTwice | cmd/mcpserver/main.go:720-724 | a non-empty list fetched once is served from the cache within the time to live |
| Models.ServerGetDefaultModel | cmd/mcpserver/main.go:769-817 | the list used is the one the fetch returns (the cache on a hit, nothing on failure, else the parsed output), the model is ServerDefaultModel of that list, and it is a cached model or the fallback |
| Models.StdioGetDefaultModel | cmd/mcpstdio/main.go:429-460 | the list used is the one the fetch returns, the model is StdioDefaultModel of that list, and it is a cached model or the built-in default |
| Stdio.StdioDecision | cmd/mcpstdio/main.go:200-266 | every refusal is -32602; a call is launched iff its params decode, the tool is run, models or exec, and its arguments are valid; session and agent listings are unknown tools; the run vector is exactly `RunArgv` of the run arguments without session or continue; no directory check and no stdin |
| Stdio.BuildRunArgv | cmd/mcpstdio/main.go:237-241 | the vector is `run --format json --model m`, one `--file f` pair per file, then the message, and parses back to that invocation |
| Stdio.ListingsUnknownToStdio | cmd/mcpstdio/main.go:263-265 | the session and agent listings are refused as unknown tools, though the HTTP server runs them |
| Stdio.RunArgvSharedWithHttp | cmd/mcpstdio/main.go:230-242 | without session and `--continue`, both servers run the same vector for a run call |
| Stdio.TextOf | cmd/mcpstdio/main.go:298-313 | a line contributes a fragment iff it decodes to a text event with an object part and a string `part.text`, and the fragment is that text |
| Stdio.ProgressNotes | cmd/mcpstdio/main.go:313-320 | there is one `notifications/progress` per fragment |
| Stdio.RunLine | cmd/mcpstdio/main.go:297-323 | a contributing line appends its fragment and sends one notification with the new length; any other line changes nothing |
| Stdio.StreamRun | cmd/mcpstdio/main.go:292-324 | the notifications and the collector are those of the scanned lines' fragments |
| Stdio.ProgressIsCumulative | cmd/mcpstdio/main.go:313-320 | the k-th notification's message is the k-th fragment and its progress is the UTF-8 length of the first k+1 fragments |
| Stdio.ProgressNonDecreasing | cmd/mcpstdio/main.go:316-320 | progress never decreases, and the last notification reports the length of the final text |
| Stdio.SilentLineSkipped | cmd/mcpstdio/main.go:298-305 | a line without a fragment changes neither notifications nor text |
| Stdio.CollectorSharedWithSse | cmd/mcpstdio/main.go:310-313 | the stdio collector equals the HTTP server's streaming collector for the same output |
| Stdio.ToolsCallOutputs | cmd/mcpstdio/main.go:200-339 | exactly one response with the request's id comes last, preceded only by progress notifications; a refusal or start failure writes only the error; non-run tools answer stdout verbatim; isError is never set |
| Stdio.HandleToolsCall | cmd/mcpstdio/main.go:200-339 | the step-by-step handler writes exactly those outputs |
| Stdio.RefusalStartsNothing | cmd/mcpstdio/main.go:205-266 | the answer to a refused call does not depend on process start |
| Stdio.RunAnswer | cmd/mcpstdio/main.go:292-338 | the run tool answers one cumulative notification per fragment, then the collected text, which is the streaming server's collector |
| Stdio.RequestOutputs | cmd/mcpstdio/main.go:111-139 | initialize answers protocolVersion 2024-11-05; the initialized notification writes nothing; every other request gets exactly one response with its id; unknown methods, including the empty one, are -32601 `method not found: <m>` |
| Stdio.HandleRequest | cmd/mcpstdio/main.go:111-139 | the dispatcher writes exactly those outputs |
| Stdio.EmptyMethodNotFound | cmd/mcpstdio/main.go:136-137 | an empty method is -32601 on stdio and -32600 `missing method` over HTTP |
| Stdio.Serve | cmd/mcpstdio/main.go:90-104 | the loop writes each scanned line's outputs in order |
| Stdio.BadLineThenContinue | cmd/mcpstdio/main.go:96-100 | an undecodable line produces one -32700 `invalid JSON` with a null id, and the following lines are served as if it were absent |
| Stdio.EmptyLineSkipped | cmd/mcpstdio/main.go:92-94 | empty lines produce nothing |
| Rpc.ToolResultJson | cmd/mcpserver/main.go:79-87 | the marshalled result has its content and an `isError` key exactly when the flag is set |
| Rpc.InitializeResultJson | cmd/mcpserver/main.go:353-370 | the initialize result announces protocol version 2024-11-05 |
| Text.TrimSpace | cmd/mcpserver/main.go:1084 | the trimmed line has no leading or trailing white space and is empty iff the line is all white space |
| Text.Split | cmd/mcpserver/main.go:1082 | splitting gives at least one piece and no piece holds the separator |
| Text.JoinSplit | cmd/mcpserver/main.go:747 | joining the pieces with the separator gives back the input |
| Text.FirstField | cmd/mcpserver/main.go:752-754 | the first field is empty iff the line is all white space, and holds no white space |
| Text.ScanLines | cmd/mcpserver/main.go:952-955 | no scanned line holds a newline |
| Text.IntToDecimalRoundTrip | cmd/mcpserver/main.go:578 | the decimal form of an exit code parses back to it |
| Text.Utf8LenAppend | cmd/mcpstdio/main.go:318 | the byte length of a concatenation is the sum of the lengths, and is at least the character count |

## Left out

- Process execution is left out: `exec.CommandContext`, pipes, `Start`, `Wait`, timeouts and killing on cancel. Their results are inputs: `ProcessOutcome` and `WaitResult` for the HTTP server, `StartResult` for the stdio server.
- The SSE mode's -32000 errors from `StdoutPipe`, `StderrPipe` and `Start` are left out, and so is the "streaming unsupported" path. The stream is modelled from a started process on.
- Concurrency is left out: the stderr goroutine is reduced to its final text. The locks of the session store and of the model cache are dropped, so the cache's double check under the write lock is a single check.
- HTTP plumbing is left out: the headers other than the session id, `Content-Type`, flushing, `http.Error` bodies and the encoders' trailing newlines.
- The JSON serializer is abstract. Key order, escaping and number formatting are not modelled.
- Scanner buffer limits are left out. A line longer than 1 MB (or 10 MB on stdin) ends the source's scanner early, but in the model every line is scanned.
- The tool catalogs (`handleToolsList`, `getTools`) are left out. They are constant JSON; the stdio server gets its catalog as a parameter.
- Configuration from environment variables (`getenv`, `getenvInt`) is left out, and so are the `/health`, `/exec` and `/exec/stream` endpoints and `main`'s server setup.
- The text of runCommand's error (`command failed: …`) is left out, because only whether an error occurred reaches the result.
- Tools.JsonModeDecision: the default model is a parameter. In SSE mode the source asks for it before checking the directory, and in JSON mode after. That ordering, and the model-listing process it may start, are not captured.
- Stdio.StdioDecision: the stdio server's run arguments have no `session` or `continue` field. The decoded arguments are shared with the HTTP server, so a call whose `session` has the wrong JSON type is not distinguished.
- Stdio.ToolsCallOutputs: the stdio server ignores the process's exit status and stderr. The model therefore has no input for them, and the stderr the CLI writes to the server's own stderr is not modelled.
- Stdio.Serve: the default model is fixed for the whole session. In the source each call may refresh it through the cache, which `Models.ModelCache` models separately.
- Router.HandleMcp: it decides the route, the status and the session header. The bodies come from `Rpc`, `Tools`, `Terminal` and `Sse`.
