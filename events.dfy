/**
 * Decoding one line of the CLI's `--format json` output and classifying it
 * (cmd/mcpserver/main.go, extractEventData).
 *
 * A line is unmarshalled into a Go map[string]any; that succeeds for a JSON
 * object and also for the literal `null` (a nil map). The decoded event is
 * classified into a closed set of domain events; the payload that
 * extractEventData returns is a projection of that classification.
 */
module Events {
  import opened Wrappers
  import opened Json

  /** The values a map[string]any can hold after unmarshalling: an object or nil. */
  predicate IsEventValue(event: Json) {
    event.JObject? || event.JNull?
  }

  /** The entries of a decoded event; a nil map has none. */
  function Fields(event: Json): map<string, Json> {
    if event.JObject? then event.fields else map[]
  }

  /** `eventType, _ := event["type"].(string)`. */
  function EventType(event: Json): string {
    StringOr(Get(Fields(event), "type"))
  }

  /** `event["part"]`; only an object counts as a part. */
  function Part(event: Json): Json {
    Get(Fields(event), "part")
  }

  /**
   * `json.Unmarshal([]byte(line), &event)` into a map[string]any, with the
   * JSON decoder given as `decode`: it fails on malformed text and on every
   * JSON value that is neither an object nor null.
   */
  function DecodeEvent(decode: string -> Option<Json>, line: string): (r: Option<Json>)
    ensures r.Some? ==> IsEventValue(r.value) && decode(line) == r
    ensures r.None? ==> decode(line).None? || !IsEventValue(decode(line).value)
  {
    match decode(line)
    case Some(v) => if IsEventValue(v) then Some(v) else None
    case None => None
  }

  /** The kinds of event the bridge recognises, with what each carries. */
  datatype DomainEvent =
    | TextFragment(content: string)
    | ToolUse(tool: Json, status: Json, input: Option<map<string, Json>>, output: Option<Json>)
    | StepBoundary(phase: string, reason: Json)
    | Unrecognized(raw: Json)

  /**
   * The typed reading of a decoded event: a `text` event needs a string
   * `part.text`, a `tool_use` event an object `part.state`, a step event only
   * a part; everything else, including any event without an object `part`,
   * is unrecognised and kept whole.
   */
  function Classify(event: Json): DomainEvent
    requires IsEventValue(event)
  {
    var eventType := EventType(event);
    var part := Part(event);
    if !part.JObject? then Unrecognized(event)
    else if eventType == "text" && Get(part.fields, "text").JString? then
      TextFragment(Get(part.fields, "text").s)
    else if eventType == "tool_use" && Get(part.fields, "state").JObject? then
      var state := Get(part.fields, "state").fields;
      ToolUse(
        Get(part.fields, "tool"),
        Get(state, "status"),
        if Get(state, "input").JObject? then Some(Get(state, "input").fields) else None,
        if "output" in state then Some(state["output"]) else None)
    else if eventType == "step_start" || eventType == "step_finish" then
      StepBoundary(eventType, Get(part.fields, "reason"))
    else Unrecognized(event)
  }

  /** The payload that is forwarded for each kind of event. */
  function Payload(e: DomainEvent): Json {
    match e
    case TextFragment(content) => JString(content)
    case ToolUse(tool, status, input, output) =>
      JObject(map["tool" := tool, "status" := status]
        + (if input.Some? then map["input" := JObject(input.value)] else map[])
        + (if output.Some? then map["output" := output.value] else map[]))
    case StepBoundary(phase, reason) =>
      JObject(map["type" := JString(phase), "reason" := reason])
    case Unrecognized(raw) => raw
  }

  /** The keys of the projected tool_use map. */
  function ToolUseKeys(state: map<string, Json>): set<string> {
    {"tool", "status"}
      + (if Get(state, "input").JObject? then {"input"} else {})
      + (if "output" in state then {"output"} else {})
  }

  /**
   * extractEventData: the readable payload of one decoded event, stated in
   * terms of the raw event's fields.
   */
  function ExtractEventData(event: Json): (r: Json)
    requires IsEventValue(event)
    // no object-valued part: the event itself
    ensures !Part(event).JObject? ==> r == event
    // text with a string part.text: exactly that string
    ensures Part(event).JObject? && EventType(event) == "text" && Get(Part(event).fields, "text").JString?
      ==> r == Get(Part(event).fields, "text")
    // text whose part.text is not a string: the event itself
    ensures Part(event).JObject? && EventType(event) == "text" && !Get(Part(event).fields, "text").JString?
      ==> r == event
    // tool_use with an object state: {tool, status, input?, output?}
    ensures Part(event).JObject? && EventType(event) == "tool_use" && Get(Part(event).fields, "state").JObject?
      ==> var part := Part(event).fields;
          var state := Get(part, "state").fields;
          && r.JObject?
          && r.fields.Keys == ToolUseKeys(state)
          && r.fields["tool"] == Get(part, "tool")
          && r.fields["status"] == Get(state, "status")
          && ("input" in r.fields ==> r.fields["input"] == Get(state, "input"))
          && ("output" in r.fields ==> r.fields["output"] == state["output"])
    // tool_use whose state is not an object: the event itself
    ensures Part(event).JObject? && EventType(event) == "tool_use" && !Get(Part(event).fields, "state").JObject?
      ==> r == event
    // step boundaries: {type, reason}
    ensures Part(event).JObject? && EventType(event) in {"step_start", "step_finish"}
      ==> r == JObject(map["type" := JString(EventType(event)), "reason" := Get(Part(event).fields, "reason")])
    // any other type: the event itself
    ensures EventType(event) !in {"text", "tool_use", "step_start", "step_finish"} ==> r == event
  {
    Payload(Classify(event))
  }

  /**
   * A payload is a string exactly when the event is a text fragment, and
   * then it is that fragment: the streaming loop's `eventType == "text"`
   * together with a string payload picks out text fragments and nothing else.
   */
  lemma TextPayloadIsFragment(event: Json)
    requires IsEventValue(event)
    ensures (EventType(event) == "text" && ExtractEventData(event).JString?) <==> Classify(event).TextFragment?
    ensures Classify(event).TextFragment? ==> ExtractEventData(event) == JString(Classify(event).content)
  {
  }
}
