/**
 * Aggregation of a finished `--format json` event stream into one readable
 * text (cmd/mcpserver/main.go, parseJSONEventStream): the text fragments in
 * order, then, when any tool completed with output, a "--- Tool Outputs ---"
 * section of `[Tool: name]` blocks.
 */
module Aggregate {
  import opened Wrappers
  import opened Json
  import opened Text
  import opened Events

  const ToolOutputsHeading: string := "\n\n--- Tool Outputs ---\n"
  const BlockSeparator: string := "\n\n"

  /** One completed tool's block in the tool-outputs section. */
  function ToolBlock(toolName: string, output: string): string {
    "[Tool: " + toolName + "]\n" + output
  }

  /** The text fragment a decoded event adds to `textParts`, if any. */
  function TextPartOf(event: Json): Option<string>
    requires IsEventValue(event)
  {
    var part := Part(event);
    if !part.JObject? || EventType(event) != "text" then None
    else
      var text := Get(part.fields, "text");
      if text.JString? && text.s != "" then Some(text.s) else None
  }

  /** The block a decoded event adds to `toolOutputs`, if any. */
  function ToolOutputOf(event: Json): Option<string>
    requires IsEventValue(event)
  {
    var part := Part(event);
    if !part.JObject? || EventType(event) != "tool_use" || !Get(part.fields, "state").JObject? then None
    else
      var state := Get(part.fields, "state").fields;
      if StringOr(Get(state, "status")) != "completed" then None
      else
        var output := Get(state, "output");
        if output.JString? && output.s != "" then
          Some(ToolBlock(StringOr(Get(part.fields, "tool")), output.s))
        else None
  }

  /**
   * The decoded event of one raw line, trimmed first; blank lines and lines
   * that do not decode to an object (or null) have none.
   */
  function LineEvent(decode: string -> Option<Json>, line: string): (r: Option<Json>)
    ensures r.Some? ==> IsEventValue(r.value) && TrimSpace(line) != "" && decode(TrimSpace(line)) == r
    ensures r.None? ==>
      TrimSpace(line) == "" || decode(TrimSpace(line)).None? || !IsEventValue(decode(TrimSpace(line)).value)
  {
    var trimmed := TrimSpace(line);
    if trimmed == "" then None else DecodeEvent(decode, trimmed)
  }

  function LineTextParts(decode: string -> Option<Json>, line: string): seq<string> {
    match LineEvent(decode, line)
    case None => []
    case Some(event) => if TextPartOf(event).Some? then [TextPartOf(event).value] else []
  }

  function LineToolOutputs(decode: string -> Option<Json>, line: string): seq<string> {
    match LineEvent(decode, line)
    case None => []
    case Some(event) => if ToolOutputOf(event).Some? then [ToolOutputOf(event).value] else []
  }

  /** `textParts` after the loop has seen `lines`. */
  function TextParts(decode: string -> Option<Json>, lines: seq<string>): seq<string> {
    FlatMap(line => LineTextParts(decode, line), lines)
  }

  /** `toolOutputs` after the loop has seen `lines`. */
  function ToolOutputs(decode: string -> Option<Json>, lines: seq<string>): seq<string> {
    FlatMap(line => LineToolOutputs(decode, line), lines)
  }

  /** The final text built from the collected parts. */
  function Compose(textParts: seq<string>, toolOutputs: seq<string>): string {
    Concat(textParts)
      + (if |toolOutputs| > 0 then ToolOutputsHeading + Join(toolOutputs, BlockSeparator) else "")
  }

  /** What parseJSONEventStream returns for the whole stdout `jsonLines`. */
  function AggregatedText(jsonLines: string, decode: string -> Option<Json>): string {
    var lines := Split(jsonLines, '\n');
    Compose(TextParts(decode, lines), ToolOutputs(decode, lines))
  }

  /**
   * One iteration of parseJSONEventStream's loop: what the line appends to
   * `textParts` and to `toolOutputs` (at most one piece each).
   */
  method ScanLine(decode: string -> Option<Json>, rawLine: string) returns (textPart: seq<string>, toolOutput: seq<string>)
    ensures textPart == LineTextParts(decode, rawLine)
    ensures toolOutput == LineToolOutputs(decode, rawLine)
    ensures |textPart| <= 1 && |toolOutput| <= 1
  {
    textPart, toolOutput := [], [];
    var line := TrimSpace(rawLine);
    if line == "" {
      return;
    }
    var decoded := DecodeEvent(decode, line);
    if decoded.None? {
      return;
    }
    var event := decoded.value;
    assert LineEvent(decode, rawLine) == Some(event);
    var part := Part(event);
    if !part.JObject? {
      assert TextPartOf(event).None? && ToolOutputOf(event).None?;
      return;
    }
    var eventType := EventType(event);
    if eventType == "text" {
      assert ToolOutputOf(event).None?;
      var text := Get(part.fields, "text");
      if text.JString? && text.s != "" {
        textPart := [text.s];
      }
    } else if eventType == "tool_use" {
      assert TextPartOf(event).None?;
      var state := Get(part.fields, "state");
      if state.JObject? {
        var status := StringOr(Get(state.fields, "status"));
        if status == "completed" {
          var toolName := StringOr(Get(part.fields, "tool"));
          var output := Get(state.fields, "output");
          if output.JString? && output.s != "" {
            toolOutput := [ToolBlock(toolName, output.s)];
          }
        }
      }
    }
  }

  /** parseJSONEventStream. */
  method ParseJSONEventStream(jsonLines: string, decode: string -> Option<Json>) returns (result: string)
    ensures result == AggregatedText(jsonLines, decode)
  {
    var textParts: seq<string> := [];
    var toolOutputs: seq<string> := [];
    var lines := Split(jsonLines, '\n');
    var i := 0;
    while i < |lines|
      invariant 0 <= i <= |lines|
      invariant textParts == TextParts(decode, lines[..i])
      invariant toolOutputs == ToolOutputs(decode, lines[..i])
    {
      PartsStep(decode, lines, i);
      var textPart, toolOutput := ScanLine(decode, lines[i]);
      textParts := textParts + textPart;
      toolOutputs := toolOutputs + toolOutput;
      i := i + 1;
    }
    assert lines[..|lines|] == lines;
    result := Concat(textParts);
    if |toolOutputs| > 0 {
      result := result + ToolOutputsHeading + Join(toolOutputs, BlockSeparator);
    }
  }

  /** The loop's lists after one more line. */
  lemma PartsStep(decode: string -> Option<Json>, lines: seq<string>, i: nat)
    requires i < |lines|
    ensures TextParts(decode, lines[..i + 1]) == TextParts(decode, lines[..i]) + LineTextParts(decode, lines[i])
    ensures ToolOutputs(decode, lines[..i + 1]) == ToolOutputs(decode, lines[..i]) + LineToolOutputs(decode, lines[i])
  {
    assert lines[..i + 1][..i] == lines[..i];
  }

  // -----------------------------------------------------------------------
  // Properties

  /**
   * The aggregator and the streaming classifier agree: a line adds a text
   * part exactly for a non-empty text fragment, and a tool block exactly for
   * a tool_use whose status is the string "completed" and whose output is a
   * non-empty string.
   */
  lemma ContributionsFollowClassification(event: Json)
    requires IsEventValue(event)
    ensures TextPartOf(event).Some? <==> Classify(event).TextFragment? && Classify(event).content != ""
    ensures TextPartOf(event).Some? ==> TextPartOf(event).value == Classify(event).content
    ensures ToolOutputOf(event).Some? <==>
      && Classify(event).ToolUse?
      && StringOr(Classify(event).status) == "completed"
      && Classify(event).output.Some? && Classify(event).output.value.JString?
      && Classify(event).output.value.s != ""
    ensures ToolOutputOf(event).Some? ==>
      ToolOutputOf(event).value == ToolBlock(StringOr(Classify(event).tool), Classify(event).output.value.s)
  {
  }

  lemma PartsAppend(decode: string -> Option<Json>, a: seq<string>, b: seq<string>)
    ensures TextParts(decode, a + b) == TextParts(decode, a) + TextParts(decode, b)
    ensures ToolOutputs(decode, a + b) == ToolOutputs(decode, a) + ToolOutputs(decode, b)
  {
    FlatMapAppend(line => LineTextParts(decode, line), a, b);
    FlatMapAppend(line => LineToolOutputs(decode, line), a, b);
  }

  /** A line that contributes nothing: blank, undecodable, or without a part. */
  predicate Silent(decode: string -> Option<Json>, line: string) {
    || TrimSpace(line) == ""
    || DecodeEvent(decode, TrimSpace(line)).None?
    || !Part(DecodeEvent(decode, TrimSpace(line)).value).JObject?
  }

  lemma PartsOfOneLine(decode: string -> Option<Json>, line: string)
    ensures TextParts(decode, [line]) == LineTextParts(decode, line)
    ensures ToolOutputs(decode, [line]) == LineToolOutputs(decode, line)
  {
    var f := l => LineTextParts(decode, l);
    var g := l => LineToolOutputs(decode, l);
    assert [line][..0] == [];
    assert FlatMap(f, [line]) == f(line);
    assert FlatMap(g, [line]) == g(line);
  }

  lemma SilentContributesNothing(decode: string -> Option<Json>, line: string)
    requires Silent(decode, line)
    ensures LineTextParts(decode, line) == [] && LineToolOutputs(decode, line) == []
  {
  }

  /**
   * Blank lines, undecodable lines and lines without an object `part` can be
   * inserted anywhere in the stream without changing the aggregated text.
   */
  lemma SilentLineIgnored(decode: string -> Option<Json>, before: seq<string>, line: string, after: seq<string>)
    requires Silent(decode, line)
    ensures TextParts(decode, before + [line] + after) == TextParts(decode, before + after)
    ensures ToolOutputs(decode, before + [line] + after) == ToolOutputs(decode, before + after)
  {
    SilentContributesNothing(decode, line);
    var f := l => LineTextParts(decode, l);
    var g := l => LineToolOutputs(decode, l);
    FlatMapSkip(f, before, line, after);
    FlatMapSkip(g, before, line, after);
  }

  /**
   * The text fragments come first, in order: the aggregated text always
   * starts with their concatenation, is exactly that when no tool completed
   * with output, and otherwise continues with the tool-outputs heading.
   */
  lemma TextComesFirst(jsonLines: string, decode: string -> Option<Json>)
    ensures var lines := Split(jsonLines, '\n');
      && Concat(TextParts(decode, lines)) <= AggregatedText(jsonLines, decode)
      && (ToolOutputs(decode, lines) == [] <==> AggregatedText(jsonLines, decode) == Concat(TextParts(decode, lines)))
      && (ToolOutputs(decode, lines) != [] ==>
            Concat(TextParts(decode, lines)) + ToolOutputsHeading <= AggregatedText(jsonLines, decode))
  {
  }

  /** `{"type":"text","part":{"text":t}}` */
  function TextEvent(t: string): Json {
    JObject(map["type" := JString("text"), "part" := JObject(map["text" := JString(t)])])
  }

  /** `{"type":"tool_use","part":{"tool":tool,"state":{"status":"completed","output":output}}}` */
  function CompletedToolEvent(tool: string, output: string): Json {
    JObject(map["type" := JString("tool_use"), "part" := JObject(map[
      "tool" := JString(tool),
      "state" := JObject(map["status" := JString("completed"), "output" := JString(output)])])])
  }

  lemma TextLine(decode: string -> Option<Json>, line: string, t: string)
    requires TrimSpace(line) == line != "" && decode(line) == Some(TextEvent(t)) && t != ""
    ensures LineTextParts(decode, line) == [t] && LineToolOutputs(decode, line) == []
  {
    var e := TextEvent(t);
    assert Part(e) == JObject(map["text" := JString(t)]);
    assert EventType(e) == "text";
  }

  lemma ToolLine(decode: string -> Option<Json>, line: string, tool: string, output: string)
    requires TrimSpace(line) == line != "" && decode(line) == Some(CompletedToolEvent(tool, output)) && output != ""
    ensures LineTextParts(decode, line) == [] && LineToolOutputs(decode, line) == [ToolBlock(tool, output)]
  {
    var e := CompletedToolEvent(tool, output);
    var state := map["status" := JString("completed"), "output" := JString(output)];
    assert Part(e) == JObject(map["tool" := JString(tool), "state" := JObject(state)]);
    assert EventType(e) == "tool_use";
    assert Get(state, "status") == JString("completed");
    assert Get(state, "output") == JString(output);
  }

  /**
   * The worked example: a text event "A", a completed tool "x" with output
   * "B", and a text event "C" aggregate to "AC" followed by one block for x.
   */
  lemma WorkedExample(decode: string -> Option<Json>, jsonLines: string, l1: string, l2: string, l3: string)
    requires Split(jsonLines, '\n') == [l1, l2, l3]
    requires TrimSpace(l1) == l1 != "" && TrimSpace(l2) == l2 != "" && TrimSpace(l3) == l3 != ""
    requires decode(l1) == Some(TextEvent("A"))
    requires decode(l2) == Some(CompletedToolEvent("x", "B"))
    requires decode(l3) == Some(TextEvent("C"))
    ensures AggregatedText(jsonLines, decode) == "AC" + ToolOutputsHeading + "[Tool: x]\nB"
  {
    TextToolTextParts(decode, l1, l2, l3, "A", "x", "B", "C");
    assert ToolBlock("x", "B") == "[Tool: x]\nB";
    assert AggregatedText(jsonLines, decode) == Compose(["A", "C"], ["[Tool: x]\nB"]);
    assert Join(["[Tool: x]\nB"], BlockSeparator) == "[Tool: x]\nB";
    assert Concat(["A", "C"]) == "AC" by {
      assert ["A", "C"][..1] == ["A"] && ["A"][..0] == [];
    }
  }

  /**
   * A text line, a completed tool line and another text line contribute the
   * two texts and the tool's block.
   */
  lemma TextToolTextParts(decode: string -> Option<Json>, l1: string, l2: string, l3: string,
                          first: string, tool: string, output: string, last: string)
    requires TrimSpace(l1) == l1 != "" && TrimSpace(l2) == l2 != "" && TrimSpace(l3) == l3 != ""
    requires first != "" && output != "" && last != ""
    requires decode(l1) == Some(TextEvent(first))
    requires decode(l2) == Some(CompletedToolEvent(tool, output))
    requires decode(l3) == Some(TextEvent(last))
    ensures TextParts(decode, [l1, l2, l3]) == [first, last]
    ensures ToolOutputs(decode, [l1, l2, l3]) == [ToolBlock(tool, output)]
  {
    TextLine(decode, l1, first);
    ToolLine(decode, l2, tool, output);
    TextLine(decode, l3, last);
    ThreeLines(decode, l1, l2, l3);
  }

  /** Three lines contribute the pieces of each line in turn. */
  lemma ThreeLines(decode: string -> Option<Json>, l1: string, l2: string, l3: string)
    ensures TextParts(decode, [l1, l2, l3]) == LineTextParts(decode, l1) + LineTextParts(decode, l2) + LineTextParts(decode, l3)
    ensures ToolOutputs(decode, [l1, l2, l3]) == LineToolOutputs(decode, l1) + LineToolOutputs(decode, l2) + LineToolOutputs(decode, l3)
  {
    var f := l => LineTextParts(decode, l);
    var g := l => LineToolOutputs(decode, l);
    FlatMapThree(f, l1, l2, l3);
    FlatMapThree(g, l1, l2, l3);
  }
}
