/**
 * The one terminal result of a tools/call, composed from what the CLI
 * process produced. The HTTP server has two deliberately different variants:
 * the aggregated JSON mode (cmd/mcpserver/main.go, handleToolsCall after
 * runCommand) and the SSE mode (the end of handleToolsCallSSE). Both are pure
 * string functions of the collected text, the captured stderr, the exit code
 * and the error flag.
 */
module Terminal {
  import opened Wrappers
  import opened Json
  import opened Text
  import opened Rpc
  import Aggregate

  /** How the process ended, as exec.Cmd.Output reports it. */
  datatype ProcessOutcome =
      // The process ran and exited with `code` (0 is success; Go reports -1
      // for a process killed by a signal, as on timeout).
    | Exited(stdout: string, stderr: string, code: int)
      // Any error that is not an *exec.ExitError, e.g. the executable is missing.
    | NotStarted

  /** runCommand's four results: stdout, stderr, exit code, and whether err != nil. */
  datatype CommandResult = CommandResult(stdout: string, stderr: string, exitCode: int, failed: bool)

  /**
   * runCommand: stdout whenever the process ran; stderr only when it failed
   * (Output captures stderr into the *exec.ExitError alone); exit code -1 and
   * nothing else when it could not run.
   */
  function RunCommand(outcome: ProcessOutcome): (r: CommandResult)
    ensures r.failed <==> !(outcome.Exited? && outcome.code == 0)
    ensures r.stderr != "" ==> r.failed
    ensures outcome.Exited? ==> r.stdout == outcome.stdout && r.exitCode == outcome.code
    ensures outcome.Exited? && outcome.code != 0 ==> r.stderr == outcome.stderr
    ensures outcome.NotStarted? ==> r.stdout == "" && r.stderr == "" && r.exitCode == -1
  {
    match outcome
    case Exited(stdout, stderr, code) =>
      if code == 0 then CommandResult(stdout, "", 0, false)
      else CommandResult(stdout, stderr, code, true)
    case NotStarted => CommandResult("", "", -1, true)
  }

  const StderrLabel: string := "[stderr]\n"

  /** fmt.Sprintf("\n[exit code: %d]", code). */
  function ExitMarker(code: int): string {
    "\n[exit code: " + IntToDecimal(code) + "]"
  }

  /** The exit-code marker can be read back: it names the code it was made from. */
  lemma ExitMarkerNamesCode(code: int)
    ensures var m := ExitMarker(code);
      && "\n[exit code: " <= m && m[|m| - 1] == ']'
      && ParseDecimal(m[13..|m| - 1]) == code
  {
    var m := ExitMarker(code);
    assert m[13..|m| - 1] == IntToDecimal(code);
    IntToDecimalRoundTrip(code);
  }

  // -----------------------------------------------------------------------
  // JSON mode

  /**
   * The text JSON mode starts from: for the run tool, the aggregated event
   * stream when stdout is non-empty and the aggregation is non-empty;
   * otherwise raw stdout.
   */
  function JsonModeBase(isRun: bool, stdout: string, decode: string -> Option<Json>): (base: string)
    ensures !isRun ==> base == stdout
    ensures base == stdout || (isRun && base == Aggregate.AggregatedText(stdout, decode) != "")
    ensures isRun && stdout != "" && Aggregate.AggregatedText(stdout, decode) != "" ==>
      base == Aggregate.AggregatedText(stdout, decode)
  {
    if isRun && stdout != "" then
      var parsed := Aggregate.AggregatedText(stdout, decode);
      if parsed != "" then parsed else stdout
    else stdout
  }

  /**
   * handleToolsCall's result: the base text, then "\n[stderr]\n" and stderr
   * when stderr is non-empty, then the exit-code marker exactly when the
   * command returned an error; isError only for an error with a non-zero
   * exit code.
   */
  function JsonModeResult(isRun: bool, res: CommandResult, decode: string -> Option<Json>): (r: ToolResult)
    ensures r.text == JsonModeBase(isRun, res.stdout, decode)
                      + (if res.stderr != "" then "\n" + StderrLabel + res.stderr else "")
                      + (if res.failed then ExitMarker(res.exitCode) else "")
    ensures r.isError <==> res.failed && res.exitCode != 0
  {
    var text := JsonModeBase(isRun, res.stdout, decode);
    var text := if res.stderr != "" then text + ("\n" + StderrLabel + res.stderr) else text;
    var text := if res.failed then text + ExitMarker(res.exitCode) else text;
    ToolResult(text, res.failed && res.exitCode != 0)
  }

  /**
   * Through runCommand, a successful process yields exactly its (possibly
   * aggregated) stdout and no error; stderr of a successful process never
   * shows.
   */
  lemma JsonModeSuccess(isRun: bool, stdout: string, stderr: string, decode: string -> Option<Json>)
    ensures JsonModeResult(isRun, RunCommand(Exited(stdout, stderr, 0)), decode)
         == ToolResult(JsonModeBase(isRun, stdout, decode), false)
  {
  }

  /**
   * A process that could not be started is still answered with a normal
   * result: empty text but for the marker "[exit code: -1]", flagged as an
   * error.
   */
  lemma JsonModeLaunchFailure(isRun: bool, decode: string -> Option<Json>)
    ensures JsonModeResult(isRun, RunCommand(NotStarted), decode) == ToolResult(ExitMarker(-1), true)
  {
    assert Aggregate.AggregatedText("", decode) == "" || JsonModeBase(isRun, "", decode) == "";
  }

  // -----------------------------------------------------------------------
  // SSE mode

  /** What cmd.Wait reported after the stream ended. */
  datatype WaitResult = WaitOk | WaitExitError(code: int) | WaitOtherError

  /** The SSE exit code: from an *exec.ExitError only; any other error leaves it 0. */
  function SseExitCode(w: WaitResult): (code: int)
    ensures code != 0 ==> w.WaitExitError?
  {
    if w.WaitExitError? then w.code else 0
  }

  /**
   * handleToolsCallSSE's final result: the collected text, a blank line only
   * when both it and stderr are non-empty, "[stderr]\n" and stderr when
   * stderr is non-empty, then the exit-code marker exactly when the exit code
   * is non-zero; isError exactly when the exit code is non-zero.
   */
  function SseResult(collector: string, stderr: string, exitCode: int): (r: ToolResult)
    ensures r.text == collector
                      + (if stderr != "" then (if collector != "" then "\n\n" else "") + StderrLabel + stderr else "")
                      + (if exitCode != 0 then ExitMarker(exitCode) else "")
    ensures r.isError <==> exitCode != 0
  {
    var text := collector;
    var text := if stderr != "" then text + ((if text != "" then "\n\n" else "") + StderrLabel + stderr) else text;
    var text := if exitCode != 0 then text + ExitMarker(exitCode) else text;
    ToolResult(text, exitCode != 0)
  }

  // -----------------------------------------------------------------------
  // The two variants side by side

  /**
   * The two modes disagree on the same outcome: JSON mode separates stderr
   * from the text with one newline, SSE mode with a blank line.
   */
  lemma StderrSeparatorsDiffer(text: string, stderr: string, code: int)
    requires text != "" && stderr != "" && code != 0
    ensures JsonModeResult(false, CommandResult(text, stderr, code, true), x => None).text
         == text + "\n" + StderrLabel + stderr + ExitMarker(code)
    ensures SseResult(text, stderr, code).text
         == text + "\n\n" + StderrLabel + stderr + ExitMarker(code)
    ensures JsonModeResult(false, CommandResult(text, stderr, code, true), x => None).text
         != SseResult(text, stderr, code).text
  {
    var j := text + "\n" + StderrLabel + stderr + ExitMarker(code);
    var s := text + "\n\n" + StderrLabel + stderr + ExitMarker(code);
    assert JsonModeResult(false, CommandResult(text, stderr, code, true), x => None).text
        == text + ("\n" + StderrLabel + stderr) + ExitMarker(code);
    assert text + ("\n" + StderrLabel + stderr) + ExitMarker(code) == j;
    assert SseResult(text, stderr, code).text == text + ("\n\n" + StderrLabel + stderr) + ExitMarker(code);
    assert text + ("\n\n" + StderrLabel + stderr) + ExitMarker(code) == s;
    assert j[|text| + 1] == '[' && s[|text| + 1] == '\n';
  }

  /**
   * A wait error that is not an exit status is invisible in SSE mode (exit
   * code 0, no marker, not an error), while JSON mode reports a process it
   * could not run as an error with exit code -1.
   */
  lemma WaitFailureHiddenInSse(collector: string)
    ensures SseResult(collector, "", SseExitCode(WaitOtherError)) == ToolResult(collector, false)
    ensures JsonModeResult(false, RunCommand(NotStarted), x => None).isError
  {
  }

  /**
   * A CLI that writes "boom" to stderr and exits with status 2: both modes
   * flag an error, show "boom" under the stderr label and end with
   * "[exit code: 2]".
   */
  lemma FailingCommandExample()
    ensures JsonModeResult(false, RunCommand(Exited("", "boom", 2)), x => None)
         == ToolResult("\n[stderr]\nboom\n[exit code: 2]", true)
    ensures SseResult("", "boom", SseExitCode(WaitExitError(2)))
         == ToolResult("[stderr]\nboom\n[exit code: 2]", true)
  {
    ExitMarkerTwo();
    FailingCommandJson();
    FailingCommandSse();
  }

  /** The marker for exit status 2. */
  lemma ExitMarkerTwo()
    ensures ExitMarker(2) == "\n[exit code: 2]"
  {
    assert NatToDecimal(2) == [DigitChar(2)] == "2";
  }

  lemma FailingCommandJson()
    requires ExitMarker(2) == "\n[exit code: 2]"
    ensures JsonModeResult(false, RunCommand(Exited("", "boom", 2)), x => None)
         == ToolResult("\n[stderr]\nboom\n[exit code: 2]", true)
  {
    var res := RunCommand(Exited("", "boom", 2));
    assert res == CommandResult("", "boom", 2, true);
    assert JsonModeBase(false, "", x => None) == "";
    assert "" + ("\n" + StderrLabel + "boom") + "\n[exit code: 2]" == "\n[stderr]\nboom\n[exit code: 2]";
  }

  lemma FailingCommandSse()
    requires ExitMarker(2) == "\n[exit code: 2]"
    ensures SseResult("", "boom", SseExitCode(WaitExitError(2)))
         == ToolResult("[stderr]\nboom\n[exit code: 2]", true)
  {
    assert "" + ("" + StderrLabel + "boom") + "\n[exit code: 2]" == "[stderr]\nboom\n[exit code: 2]";
  }

  /**
   * A CLI that prints "modelA\nmodelB\n" and exits 0, called as a non-run
   * tool: the result is that output verbatim and is not an error.
   */
  lemma ListingExample()
    ensures JsonModeResult(false, RunCommand(Exited("modelA\nmodelB\n", "", 0)), x => None)
         == ToolResult("modelA\nmodelB\n", false)
  {
  }
}
