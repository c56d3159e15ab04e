/** The client side: what each event of a stream contributes, and whether the whole was complete and
    exactly what was expected. */
module StreamChecker {
  import opened StreamEvents
  import opened StreamEmitter

  /** A text part: item id, output index, content index. */
  type PartKey = (string, int, int)

  datatype Stream = Stream(
    text: string, thought: string, tool: string,
    terminal: bool, done: bool,
    parts: map<PartKey, string>, completed: map<PartKey, string>,
    input: int, output: int, frames: nat, rawFrames: nat)

  const START: Stream := Stream("", "", "", false, false, map[], map[], 0, 0, 0, 0)

  datatype Result<T> = Ok(value: T) | Err

  /** How tool arguments are decoded and encoded. */
  datatype Codec = Codec(parse: string -> Result<Value>, marshal: Value -> string)

  /** What an event's type string means to the reader; every other string means nothing. */
  function TypeOf(t: string): EventType {
    if t == "response.output_text.delta" then TextDelta
    else if t == "response.reasoning_summary_text.delta" then SummaryDelta
    else if t == "response.reasoning_text.delta" then ReasoningDelta
    else if t == "response.function_call_arguments.delta" then ArgumentsDelta
    else if t == "response.output_text.done" then TextDone
    else if t == "response.failed" then Failed
    else if t == "response.incomplete" then Incomplete
    else if t == "error" then ErrorEvent
    else if t == "response.completed" then Completed
    else Created
  }

  function ClaudeTypeOf(t: string): EventType {
    if t == "message_start" then MessageStart
    else if t == "content_block_delta" then BlockDelta
    else if t == "message_delta" then MessageDelta
    else if t == "message_stop" then MessageStop
    else BlockStart
  }

  function WithContent(s: Stream, text: string): Stream {
    if text == "" then s else s.(text := s.text + text, frames := s.frames + 1)
  }

  function WithThought(s: Stream, text: string): Stream { s.(thought := s.thought + text) }

  function WithTool(s: Stream, text: string): Stream { s.(tool := s.tool + text) }

  /** Only positive counts are taken over. */
  function WithUsage(s: Stream, m: Fields, inName: Name, outName: Name): Stream {
    s.(input := Taken(s.input, NumberIn(m, inName)), output := Taken(s.output, NumberIn(m, outName)))
  }

  function Taken(was: int, v: int): int { if v > 0 then v else was }

  function ToolTexts(calls: seq<Value>): string {
    if calls == [] then "" else StringIn(ObjectIn(FieldsOf(calls[0]), Function), Arguments) + ToolTexts(calls[1..])
  }

  function ChatChoice(s: Stream, choice: Fields): Result<Stream> {
    var d := ObjectIn(choice, Delta);
    var t := WithTool(WithThought(WithContent(s, StringIn(d, Content)), StringIn(d, ReasoningContent)),
                      ToolTexts(ListIn(d, ToolCalls)));
    var reason := StringIn(choice, FinishReason);
    if reason == "" then Ok(t)
    else if reason != STOP && reason != TOOL_CALLS then Err
    else Ok(t.(terminal := true))
  }

  function ChatChoices(s: Stream, choices: seq<Value>): Result<Stream>
    decreases |choices|
  {
    if choices == [] then Ok(s) else
      match ChatChoice(s, FieldsOf(choices[0]))
      case Err => Err
      case Ok(t) => ChatChoices(t, choices[1..])
  }

  function ChatFrame(s: Stream, m: Fields): Result<Stream> {
    match ChatChoices(s, ListIn(m, Choices))
    case Err => Err
    case Ok(t) => Ok(WithUsage(t, ObjectIn(m, Usage), PromptTokens, CompletionTokens))
  }

  function PartKeyOf(m: Fields): PartKey { (StringIn(m, ItemId), NumberIn(m, OutputIndex), NumberIn(m, ContentIndex)) }

  function PartText(parts: map<PartKey, string>, k: PartKey): string { if k in parts then parts[k] else "" }

  function ResponsesFrame(s: Stream, m: Fields): Result<Stream> { ResponsesEvent(s, m, TypeOf(StringIn(m, Type))) }

  function ResponsesEvent(s: Stream, m: Fields, t: EventType): Result<Stream> {
    match t
    case TextDelta =>
      var delta := StringIn(m, Delta);
      var u := WithContent(s, delta);
      Ok(u.(parts := u.parts[PartKeyOf(m) := PartText(u.parts, PartKeyOf(m)) + delta]))
    case SummaryDelta => Ok(WithThought(s, StringIn(m, Delta)))
    case ReasoningDelta => Ok(WithThought(s, StringIn(m, Delta)))
    case ArgumentsDelta => Ok(WithTool(s, StringIn(m, Delta)))
    case TextDone => Ok(s.(completed := s.completed[PartKeyOf(m) := StringIn(m, Text)]))
    case Failed => Err
    case Incomplete => Err
    case ErrorEvent => Err
    case Completed =>
      var r := ObjectIn(m, Response);
      if StringIn(r, Status) != COMPLETED then Err
      else Ok(WithUsage(s.(terminal := true, done := true), ObjectIn(r, Usage), InputTokens, OutputTokens))
    case _ => Ok(s)
  }

  function ClaudeDelta(s: Stream, d: Fields): Stream {
    var kind := StringIn(d, Type);
    if kind == TEXT_DELTA then WithContent(s, StringIn(d, Text))
    else if kind == THINKING_DELTA then WithThought(s, StringIn(d, Thinking))
    else if kind == JSON_DELTA then WithTool(s, StringIn(d, PartialJson))
    else s
  }

  function ClaudeFrame(s: Stream, m: Fields): Result<Stream> { ClaudeEvent(s, m, ClaudeTypeOf(StringIn(m, Type))) }

  function ClaudeEvent(s: Stream, m: Fields, t: EventType): Result<Stream> {
    match t
    case MessageStart => Ok(WithUsage(s, ObjectIn(ObjectIn(m, Message), Usage), InputTokens, OutputTokens))
    case BlockDelta => Ok(ClaudeDelta(s, ObjectIn(m, Delta)))
    case MessageDelta =>
      var reason := StringIn(ObjectIn(m, Delta), StopReason);
      if reason != "" && reason != END_TURN && reason != TOOL_USE then Err
      else Ok(WithUsage(s.(terminal := s.terminal || reason != ""), ObjectIn(m, Usage), InputTokens, OutputTokens))
    case MessageStop => Ok(s.(done := true))
    case _ => Ok(s)
  }

  function GeminiPart(s: Stream, p: Fields, codec: Codec): Stream {
    var t := if Thought in p && p[Thought] == Bool(true) then WithThought(s, StringIn(p, Text)) else WithContent(s,
        StringIn(p, Text));
    if FunctionCall in p && p[FunctionCall].Object? then
      var f := p[FunctionCall].fields;
      WithTool(t, codec.marshal(if Args in f then f[Args] else Null))
    else t
  }

  function GeminiParts(s: Stream, parts: seq<Value>, codec: Codec): Stream
    decreases |parts|
  {
    if parts == [] then s else GeminiParts(GeminiPart(s, FieldsOf(parts[0]), codec), parts[1..], codec)
  }

  function GeminiCandidate(s: Stream, c: Fields, codec: Codec): Result<Stream> {
    var t := GeminiParts(s, ListIn(ObjectIn(c, Content), Parts), codec);
    var reason := StringIn(c, GeminiFinish);
    if reason == "" then Ok(t)
    else if reason != GEMINI_STOP then Err
    else Ok(t.(terminal := true, done := true))
  }

  function GeminiCandidates(s: Stream, candidates: seq<Value>, codec: Codec): Result<Stream>
    decreases |candidates|
  {
    if candidates == [] then Ok(s) else
      match GeminiCandidate(s, FieldsOf(candidates[0]), codec)
      case Err => Err
      case Ok(t) => GeminiCandidates(t, candidates[1..], codec)
  }

  function GeminiFrame(s: Stream, m: Fields, codec: Codec): Result<Stream> {
    match GeminiCandidates(s, ListIn(m, Candidates), codec)
    case Err => Err
    case Ok(t) => Ok(WithUsage(t, ObjectIn(m, UsageMetadata), PromptTokenCount, CandidatesTokenCount))
  }

  predicate IsError(m: Fields) { Error in m && m[Error] != Null }

  function EventFrame(s: Stream, m: Fields, p: Protocol, codec: Codec): Result<Stream> {
    match p
    case Chat => ChatFrame(s, m)
    case Responses => ResponsesFrame(s, m)
    case Claude => ClaudeFrame(s, m)
    case Gemini => GeminiFrame(s, m, codec)
  }

  /** A message once it has been counted. */
  function Handled(s: Stream, d: Data, p: Protocol, codec: Codec): Result<Stream> {
    match d
    case DoneMarker => Ok(s.(done := true))
    case Malformed => Err
    case Event(m) => if IsError(m) then Err else EventFrame(s, m, p, codec)
  }

  /** One message of the stream. */
  function Frame(s: Stream, d: Data, p: Protocol, codec: Codec): Result<Stream> {
    Handled(s.(rawFrames := s.rawFrames + 1), d, p, codec)
  }

  /** The reader stops at the first bad message. */
  function Frames(s: Stream, data: seq<Data>, p: Protocol, codec: Codec): Result<Stream>
    decreases |data|
  {
    if data == [] then Ok(s) else
      match Frame(s, data[0], p, codec)
      case Err => Err
      case Ok(t) => Frames(t, data[1..], p, codec)
  }

  /** A finished text part says what its own deltas said. */
  ghost predicate PartsAgree(s: Stream) {
    forall k :: k in s.completed ==> s.completed[k] == PartText(s.parts, k)
  }

  ghost predicate ToolAgrees(s: Stream, w: Workload, codec: Codec) {
    if w.tool == "" then s.tool == "" else
      && codec.parse(s.tool).Ok? && codec.parse(w.tool).Ok?
      && codec.marshal(codec.parse(s.tool).value) == codec.marshal(codec.parse(w.tool).value)
  }

  ghost predicate Finished(s: Stream, w: Workload, codec: Codec) {
    && s.terminal && s.done
    && s.text == w.text && PartsAgree(s) && s.thought == w.thought && ToolAgrees(s, w, codec)
    && s.input == w.input && s.output == w.output
  }

  /** A stream is accepted when every message is good and the whole is complete and as expected. */
  ghost predicate Accepted(data: seq<Data>, p: Protocol, w: Workload, codec: Codec) {
    && Frames(START, data, p, codec).Ok?
    && Finished(Frames(START, data, p, codec).value, w, codec)
  }
}
