/**
 * The streaming variant of tools/call on the HTTP server
 * (cmd/mcpserver/main.go, handleToolsCallSSE): every non-empty stdout line
 * of the CLI becomes one JSON-RPC notification frame, text fragments are
 * collected on the way, and after the process has been waited for one final
 * frame carries the tool result. Frames are kept structured; their wire form
 * is one server-sent event each (section 9.2 of the WHATWG HTML Living
 * Standard) built by an abstract JSON serializer.
 */
module Sse {
  import opened Wrappers
  import opened Json
  import opened Text
  import opened Rpc
  import opened Events
  import opened Terminal

  /** One frame written to the event stream. */
  datatype Frame =
      // A JSON-RPC notification sent while the process runs.
    | Notification(methodName: string, params: Json)
      // The one response that ends the stream.
    | Final(id: Json, result: ToolResult)

  const MessageMethod: string := "notifications/message"
  const ProgressMethod: string := "notifications/progress"

  /**
   * The frame sent for one non-empty stdout line: for the run tool a line
   * that decodes as an event is forwarded as `notifications/message` with
   * its type and extracted data; every other line is forwarded raw as
   * `notifications/progress`.
   */
  function LineFrame(isRun: bool, decode: string -> Option<Json>, line: string): (f: Frame)
    ensures f.Notification? && f.params.JObject? && "data" in f.params.fields
    ensures f.methodName == MessageMethod <==> isRun && DecodeEvent(decode, line).Some?
    ensures f.methodName != MessageMethod ==> f.methodName == ProgressMethod && f.params.fields == map["data" := JString(line)]
    ensures f.methodName == MessageMethod ==>
      var event := DecodeEvent(decode, line).value;
      f.params.fields == map["type" := JString(EventType(event)), "data" := ExtractEventData(event)]
  {
    var decoded := if isRun then DecodeEvent(decode, line) else None;
    match decoded
    case Some(event) =>
      Notification(MessageMethod, JObject(map["type" := JString(EventType(event)), "data" := ExtractEventData(event)]))
    case None =>
      Notification(ProgressMethod, JObject(map["data" := JString(line)]))
  }

  /**
   * What one decoded event adds to the text collector: the check on the
   * event type and on the payload being a string picks out exactly the text
   * fragments.
   */
  function CollectorPiece(event: Json): (piece: string)
    requires IsEventValue(event)
    ensures piece == (if Classify(event).TextFragment? then Classify(event).content else "")
  {
    TextPayloadIsFragment(event);
    var data := ExtractEventData(event);
    if EventType(event) == "text" && data.JString? then data.s else ""
  }

  /** The frames one stdout line produces: none for an empty line. */
  function LineFrames(isRun: bool, decode: string -> Option<Json>, line: string): seq<Frame> {
    if line == "" then [] else [LineFrame(isRun, decode, line)]
  }

  /** What one stdout line adds to the collector. */
  function LineCollected(isRun: bool, decode: string -> Option<Json>, line: string): string {
    if line == "" || !isRun then ""
    else
      match DecodeEvent(decode, line)
      case Some(event) => CollectorPiece(event)
      case None => ""
  }

  /** The notification frames after the loop has seen `lines`. */
  function StreamFrames(isRun: bool, decode: string -> Option<Json>, lines: seq<string>): seq<Frame>
    decreases |lines|
  {
    if |lines| == 0 then []
    else StreamFrames(isRun, decode, lines[..|lines| - 1]) + LineFrames(isRun, decode, lines[|lines| - 1])
  }

  /** The text collector after the loop has seen `lines`. */
  function Collected(isRun: bool, decode: string -> Option<Json>, lines: seq<string>): string
    decreases |lines|
  {
    if |lines| == 0 then ""
    else Collected(isRun, decode, lines[..|lines| - 1]) + LineCollected(isRun, decode, lines[|lines| - 1])
  }

  /** The lines that are not empty, in order. */
  function NonEmpty(lines: seq<string>): (r: seq<string>)
    ensures |r| <= |lines|
    ensures forall k :: 0 <= k < |r| ==> r[k] != ""
    ensures forall s :: s in r <==> s in lines && s != ""
    decreases |lines|
  {
    if |lines| == 0 then []
    else NonEmpty(lines[..|lines| - 1]) + (if lines[|lines| - 1] == "" then [] else [lines[|lines| - 1]])
  }

  /**
   * The state of one streaming tools/call: the frames written so far and the
   * text collected for the final result.
   */
  class SseStream {
    const isRun: bool
    const decode: string -> Option<Json>
    var frames: seq<Frame>
    var collector: string

    constructor (isRun: bool, decode: string -> Option<Json>)
      ensures this.isRun == isRun && this.decode == decode
      ensures frames == [] && collector == ""
    {
      this.isRun := isRun;
      this.decode := decode;
      frames := [];
      collector := "";
    }

    /** One iteration of the scanner loop. */
    method Line(line: string)
      modifies this
      ensures frames == old(frames) + LineFrames(isRun, decode, line)
      ensures collector == old(collector) + LineCollected(isRun, decode, line)
    {
      if line == "" {
        return;
      }
      if isRun {
        var decoded := DecodeEvent(decode, line);
        if decoded.Some? {
          var event := decoded.value;
          var eventType := EventType(event);
          var eventData := ExtractEventData(event);
          if eventType == "text" && eventData.JString? {
            collector := collector + eventData.s;
          }
          frames := frames + [Notification(MessageMethod, JObject(map["type" := JString(eventType), "data" := eventData]))];
          return;
        }
      }
      frames := frames + [Notification(ProgressMethod, JObject(map["data" := JString(line)]))];
    }

    /** After Wait: the final frame, built from the collected text. */
    method Finish(id: Json, stderr: string, wait: WaitResult)
      modifies this
      ensures frames == old(frames) + [Final(id, SseResult(collector, stderr, SseExitCode(wait)))]
      ensures collector == old(collector)
    {
      var exitCode := 0;
      if wait.WaitExitError? {
        exitCode := wait.code;
      }
      frames := frames + [Final(id, SseResult(collector, stderr, exitCode))];
    }
  }

  /**
   * A streaming tools/call whose process has started: the CLI's stdout, its
   * stderr and what Wait reported go in; the frames written come out, one
   * notification per non-empty line and the final result last.
   */
  method StreamToolCall(isRun: bool, decode: string -> Option<Json>, id: Json,
                        stdout: string, stderr: string, wait: WaitResult)
    returns (frames: seq<Frame>)
    ensures var lines := ScanLines(stdout);
      frames == StreamFrames(isRun, decode, lines)
                + [Final(id, SseResult(Collected(isRun, decode, lines), stderr, SseExitCode(wait)))]
  {
    var stream := new SseStream(isRun, decode);
    var lines := ScanLines(stdout);
    var i := 0;
    while i < |lines|
      invariant 0 <= i <= |lines|
      invariant stream.isRun == isRun && stream.decode == decode
      invariant stream.frames == StreamFrames(isRun, decode, lines[..i])
      invariant stream.collector == Collected(isRun, decode, lines[..i])
    {
      assert lines[..i] + [lines[i]] == lines[..i + 1];
      Feed(stream, lines[..i], lines[i]);
      i := i + 1;
    }
    assert lines[..|lines|] == lines;
    stream.Finish(id, stderr, wait);
    frames := stream.frames;
  }

  /** The scanner loop's body: the stream has seen `prefix`, and now `line`. */
  method Feed(stream: SseStream, prefix: seq<string>, line: string)
    requires stream.frames == StreamFrames(stream.isRun, stream.decode, prefix)
    requires stream.collector == Collected(stream.isRun, stream.decode, prefix)
    modifies stream
    ensures stream.frames == StreamFrames(stream.isRun, stream.decode, prefix + [line])
    ensures stream.collector == Collected(stream.isRun, stream.decode, prefix + [line])
  {
    StreamStep(stream.isRun, stream.decode, prefix, line);
    stream.Line(line);
  }

  /** The loop's state after one more line. */
  lemma StreamStep(isRun: bool, decode: string -> Option<Json>, prefix: seq<string>, line: string)
    ensures StreamFrames(isRun, decode, prefix + [line]) == StreamFrames(isRun, decode, prefix) + LineFrames(isRun, decode, line)
    ensures Collected(isRun, decode, prefix + [line]) == Collected(isRun, decode, prefix) + LineCollected(isRun, decode, line)
  {
    assert (prefix + [line])[..|prefix|] == prefix;
  }

  // -----------------------------------------------------------------------
  // Properties

  /** Exactly one notification per non-empty line, in line order. */
  lemma {:induction false} OneFramePerLine(isRun: bool, decode: string -> Option<Json>, lines: seq<string>)
    ensures var frames := StreamFrames(isRun, decode, lines);
      var kept := NonEmpty(lines);
      && |frames| == |kept|
      && forall k :: 0 <= k < |frames| ==> frames[k] == LineFrame(isRun, decode, kept[k])
    decreases |lines|
  {
    if |lines| > 0 {
      OneFramePerLine(isRun, decode, lines[..|lines| - 1]);
    }
  }

  /**
   * The result frame is sent exactly once, after all notifications: every
   * frame but the last is a notification.
   */
  lemma ResultFrameIsLast(isRun: bool, decode: string -> Option<Json>, id: Json,
                          stdout: string, stderr: string, wait: WaitResult)
    ensures var lines := ScanLines(stdout);
      var frames := StreamFrames(isRun, decode, lines)
                    + [Final(id, SseResult(Collected(isRun, decode, lines), stderr, SseExitCode(wait)))];
      && frames[|frames| - 1].Final?
      && forall k :: 0 <= k < |frames| - 1 ==> frames[k].Notification?
  {
    OneFramePerLine(isRun, decode, ScanLines(stdout));
  }

  /** The text a client can read off a frame: the data of a text event. */
  function FrameText(f: Frame): string {
    if f.Notification? && f.methodName == MessageMethod && f.params.JObject?
       && Get(f.params.fields, "type") == JString("text") && Get(f.params.fields, "data").JString?
    then Get(f.params.fields, "data").s
    else ""
  }

  /** The concatenated text of a run of frames. */
  function StreamedText(frames: seq<Frame>): string
    decreases |frames|
  {
    if |frames| == 0 then "" else StreamedText(frames[..|frames| - 1]) + FrameText(frames[|frames| - 1])
  }

  /**
   * The collector holds exactly the text the notifications carried: a client
   * concatenating the data of the `text` messages sees the same text the
   * final result starts with.
   */
  lemma {:induction false} CollectorIsStreamedText(isRun: bool, decode: string -> Option<Json>, lines: seq<string>)
    ensures Collected(isRun, decode, lines) == StreamedText(StreamFrames(isRun, decode, lines))
    decreases |lines|
  {
    if |lines| > 0 {
      var init := lines[..|lines| - 1];
      var line := lines[|lines| - 1];
      CollectorIsStreamedText(isRun, decode, init);
      var before := StreamFrames(isRun, decode, init);
      if line == "" {
        assert StreamFrames(isRun, decode, lines) == before + [] == before;
      } else {
        var f := LineFrame(isRun, decode, line);
        assert StreamFrames(isRun, decode, lines) == before + [f];
        assert (before + [f])[..|before|] == before;
        assert StreamedText(before + [f]) == StreamedText(before) + FrameText(f);
        LineFrameText(isRun, decode, line);
      }
    }
  }

  /** The text read off one line's frame is what that line adds to the collector. */
  lemma LineFrameText(isRun: bool, decode: string -> Option<Json>, line: string)
    requires line != ""
    ensures FrameText(LineFrame(isRun, decode, line)) == LineCollected(isRun, decode, line)
  {
    if isRun && DecodeEvent(decode, line).Some? {
      TextPayloadIsFragment(DecodeEvent(decode, line).value);
    }
  }

  /** Tools other than run send only progress frames and collect no text. */
  lemma {:induction false} NonRunCollectsNothing(decode: string -> Option<Json>, lines: seq<string>)
    ensures Collected(false, decode, lines) == ""
    ensures |StreamFrames(false, decode, lines)| == |NonEmpty(lines)|
    ensures forall k :: 0 <= k < |NonEmpty(lines)| ==>
      StreamFrames(false, decode, lines)[k] == Notification(ProgressMethod, JObject(map["data" := JString(NonEmpty(lines)[k])]))
    decreases |lines|
  {
    OneFramePerLine(false, decode, lines);
    if |lines| > 0 {
      NonRunCollectsNothing(decode, lines[..|lines| - 1]);
    }
  }

  // -----------------------------------------------------------------------
  // Wire form

  /** The JSON a frame is marshalled from. */
  function FrameJson(f: Frame): Json {
    match f
    case Notification(m, params) => NotificationJson(m, params)
    case Final(id, result) => ResponseJson(id, ToolResultJson(result))
  }

  /** `fmt.Fprintf(w, "data: %s\n\n", marshal(frame))`. */
  function WireFrame(marshal: Json -> string, f: Frame): string {
    "data: " + marshal(FrameJson(f)) + "\n\n"
  }

  /**
   * With a serializer that writes no newline, every frame is one
   * server-sent event: a single `data:` line followed by a blank line.
   */
  lemma WireFrameIsOneEvent(marshal: Json -> string, f: Frame)
    requires '\n' !in marshal(FrameJson(f))
    ensures Split(WireFrame(marshal, f), '\n') == ["data: " + marshal(FrameJson(f)), "", ""]
  {
    var body := "data: " + marshal(FrameJson(f));
    assert '\n' !in body by {
      assert forall k :: 0 <= k < |body| ==> body[k] != '\n' by {
        forall k | 0 <= k < |body| ensures body[k] != '\n' {
          if k >= 6 {
            assert body[k] == marshal(FrameJson(f))[k - 6];
          } else {
            assert body[k] == "data: "[k];
          }
        }
      }
    }
    SplitNoSep(body, "\n\n");
  }

  /** Splitting a separator-free piece followed by two separators. */
  lemma {:induction false} SplitNoSep(body: string, tail: string)
    requires '\n' !in body && tail == "\n\n"
    ensures Split(body + tail, '\n') == [body, "", ""]
    decreases |body|
  {
    if |body| == 0 {
      assert body + tail == tail;
      assert Split("\n", '\n') == [""] + Split("", '\n');
      assert Split(tail, '\n') == [""] + Split("\n", '\n');
    } else {
      SplitNoSep(body[1..], tail);
      assert (body + tail)[1..] == body[1..] + tail;
      assert [body[0]] + body[1..] == body;
    }
  }
}
