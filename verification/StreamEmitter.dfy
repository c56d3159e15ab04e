/** The mock upstream: which events it writes for a protocol, a scenario and a number of frames. */
module StreamEmitter {
  import opened StreamEvents

  /** The event types of the Responses and Claude protocols. */
  datatype EventType =
    | TextDelta | SummaryDelta | ReasoningDelta | ArgumentsDelta | TextDone | Failed
    | Incomplete | ErrorEvent | Completed
    | Created | ItemAdded | PartAdded | SummaryPartAdded | PartDone | ItemDone
    | ArgumentsDone | SummaryDone | SummaryPartDone
    | MessageStart | BlockDelta | MessageDelta | MessageStop | BlockStart | BlockStop

  function Spelled(t: EventType): string {
    match t
    case TextDelta => "response.output_text.delta"
    case SummaryDelta => "response.reasoning_summary_text.delta"
    case ReasoningDelta => "response.reasoning_text.delta"
    case ArgumentsDelta => "response.function_call_arguments.delta"
    case TextDone => "response.output_text.done"
    case Failed => "response.failed"
    case Incomplete => "response.incomplete"
    case ErrorEvent => "error"
    case Completed => "response.completed"
    case Created => "response.created"
    case ItemAdded => "response.output_item.added"
    case PartAdded => "response.content_part.added"
    case SummaryPartAdded => "response.reasoning_summary_part.added"
    case PartDone => "response.content_part.done"
    case ItemDone => "response.output_item.done"
    case ArgumentsDone => "response.function_call_arguments.done"
    case SummaryDone => "response.reasoning_summary_text.done"
    case SummaryPartDone => "response.reasoning_summary_part.done"
    case MessageStart => "message_start"
    case BlockDelta => "content_block_delta"
    case MessageDelta => "message_delta"
    case MessageStop => "message_stop"
    case BlockStart => "content_block_start"
    case BlockStop => "content_block_stop"
  }

  /** The fixed words of finish reasons, statuses and delta types. */
  const STOP := "stop"
  const TOOL_CALLS := "tool_calls"
  const END_TURN := "end_turn"
  const TOOL_USE := "tool_use"
  const GEMINI_STOP := "STOP"
  const COMPLETED := "completed"
  const TEXT_DELTA := "text_delta"
  const THINKING_DELTA := "thinking_delta"
  const JSON_DELTA := "input_json_delta"

  function Typed(t: EventType): Value { Str(Spelled(t)) }

  function EmptyList(): Value { List([]) }

  function ChatEvent(id: string, model: string, delta: Fields, finish: Value): Fields {
    map[Id := Str(id), ObjectKind := Str("chat.completion.chunk"), Model := Str(model),
        Choices := List([Object(map[Index := Number(0), Delta := Object(delta), FinishReason := finish])])]
  }

  function GeminiEvent(id: string, parts: seq<Value>): Fields {
    map[ResponseId := Str(id),
        Candidates := List([Object(map[Index := Number(0),
                                       Content := Object(map[Role := Str("model"), Parts := List(parts)])])])]
  }

  function Preamble(p: Protocol, id: string, model: string, w: Workload): seq<Fields> {
    match p
    case Chat => [ChatEvent(id, model, map[Role := Str("assistant")], Null)]
    case Responses => [
      map[Type := Typed(Created), Response := Object(map[Id := Str(id), ObjectKind := Str("response"),
                                                         Status := Str("in_progress"), Model := Str(model),
                                                         Output := EmptyList()])],
      map[Type := Typed(ItemAdded), OutputIndex := Number(0),
          Item := Object(map[Id := Str("msg_" + id), Type := Str("message"), Role := Str("assistant"),
                             Status := Str("in_progress"), Content := EmptyList()])],
      map[Type := Typed(PartAdded), ItemId := Str("msg_" + id), OutputIndex := Number(0), ContentIndex := Number(0),
          Part := Object(map[Type := Str("output_text"), Text := Str(""), Annotations := EmptyList()])]]
    case Claude => [
      map[Type := Typed(MessageStart),
          Message := Object(map[Id := Str(id), Type := Str("message"), Role := Str("assistant"), Model := Str(model),
                                Content := EmptyList(), StopReason := Null,
        Usage := Object(map[InputTokens := Number(w.input), OutputTokens := Number(0)])])],
      map[Type := Typed(BlockStart), Index := Number(0),
          ContentBlock := Object(map[Type := Str("text"), Text := Str("")])]]
    case Gemini => [GeminiEvent(id, [])]
  }

  function ChatDelta(i: nat, sc: Scenario, total: nat, extra: nat): Fields
    requires i < total
  {
    var d: Fields := map[Content := Str(TextChunk(i, extra))];
    match sc
    case PlainText => d
    case Thinks => d[ReasoningContent := Str(ThoughtChunk(i))]
    case CallsTool => d[ToolCalls := List([Object(ToolCall(i, total))])]
  }

  /** Only the first fragment names the call. */
  function ToolCall(i: nat, total: nat): Fields
    requires i < total
  {
    if i == 0 then
      map[Index := Number(0), Function := Object(map[Arguments := Str(Fragment(i, total)), Title := Str("capture")]),
          Id := Str("call_fixture"), Type := Str("function")]
    else map[Index := Number(0), Function := Object(map[Arguments := Str(Fragment(i, total))])]
  }

  function TextDeltaEvent(id: string, text: string): Fields {
    map[Type := Typed(TextDelta), ItemId := Str("msg_" + id), OutputIndex := Number(0), ContentIndex := Number(0),
        Delta := Str(text)]
  }

  /** What announces the reasoning or the tool call, once. */
  function ResponsesStarts(id: string, i: nat, sc: Scenario): seq<Fields> {
    if i > 0 then [] else
      match sc
      case PlainText => []
      case Thinks => [
        map[Type := Typed(ItemAdded), OutputIndex := Number(1),
            Item := Object(map[Id := Str("reason_" + id), Type := Str("reasoning"), Summary := EmptyList()])],
        map[Type := Typed(SummaryPartAdded), ItemId := Str("reason_" + id), OutputIndex := Number(1),
            SummaryIndex := Number(0), Part := Object(map[Type := Str("summary_text"), Text := Str("")])]]
      case CallsTool => [
        map[Type := Typed(ItemAdded), OutputIndex := Number(1),
            Item := Object(map[Type := Str("function_call"), Id := Str("fc_" + id), CallId := Str("call_fixture"),
                               Title := Str("capture"), Arguments := Str(""), Status := Str("in_progress")])]]
  }

  function SummaryEvent(id: string, text: string): Fields {
    map[Type := Typed(SummaryDelta), ItemId := Str("reason_" + id), OutputIndex := Number(1), SummaryIndex := Number(0),
        Delta := Str(text)]
  }

  function ArgumentsEvent(id: string, text: string): Fields {
    map[Type := Typed(ArgumentsDelta), ItemId := Str("fc_" + id), OutputIndex := Number(1), Delta := Str(text)]
  }

  function ResponsesExtra(id: string, i: nat, sc: Scenario, total: nat): seq<Fields>
    requires i < total
  {
    match sc
    case PlainText => []
    case Thinks => [SummaryEvent(id, ThoughtChunk(i))]
    case CallsTool => [ArgumentsEvent(id, Fragment(i, total))]
  }

  function ResponsesContent(id: string, i: nat, sc: Scenario, total: nat, extra: nat): seq<Fields>
    requires i < total
  {
    [TextDeltaEvent(id, TextChunk(i, extra))] + ResponsesStarts(id, i, sc) + ResponsesExtra(id, i, sc, total)
  }

  function ClaudeDeltaEvent(index: int, delta: Fields): Fields {
    map[Type := Typed(BlockDelta), Index := Number(index), Delta := Object(delta)]
  }

  function ClaudeTextDelta(text: string): Fields { map[Type := Str(TEXT_DELTA), Text := Str(text)] }

  function ClaudeStarts(i: nat, sc: Scenario): seq<Fields> {
    if i > 0 then [] else
      match sc
      case PlainText => []
      case Thinks => [map[Type := Typed(BlockStart), Index := Number(1),
                          ContentBlock := Object(map[Type := Str("thinking"), Thinking := Str("")])]]
      case CallsTool => [map[Type := Typed(BlockStart), Index := Number(1),
                             ContentBlock := Object(map[Type := Str(TOOL_USE), Id := Str("call_fixture"),
                                                        Title := Str("capture"), Input := Object(map[])])]]
  }

  function ClaudeExtra(i: nat, sc: Scenario, total: nat): seq<Fields>
    requires i < total
  {
    match sc
    case PlainText => []
    case Thinks => [ClaudeDeltaEvent(1, map[Type := Str(THINKING_DELTA), Thinking := Str(ThoughtChunk(i))])]
    case CallsTool => [ClaudeDeltaEvent(1, map[Type := Str(JSON_DELTA), PartialJson := Str(Fragment(i, total))])]
  }

  function ClaudeContent(i: nat, sc: Scenario, total: nat, extra: nat): seq<Fields>
    requires i < total
  {
    [ClaudeDeltaEvent(0, ClaudeTextDelta(TextChunk(i, extra)))] + ClaudeStarts(i, sc) + ClaudeExtra(i, sc, total)
  }

  /** `args` is what the tool arguments decode to. */
  function GeminiParts(i: nat, sc: Scenario, extra: nat, args: Value): seq<Value> {
    [Object(map[Text := Str(TextChunk(i, extra))])] +
    match sc
    case PlainText => []
    case Thinks => [Object(map[Text := Str(ThoughtChunk(i)), Thought := Bool(true)])]
    case CallsTool => if i == 0 then [Object(map[FunctionCall := Object(map[Title := Str("capture"), Args := args])])]
      else []
  }

  function ContentEvents(p: Protocol, id: string, model: string, i: nat, sc: Scenario, total: nat, extra: nat,
                         args: Value): seq<Fields>
    requires i < total
  {
    match p
    case Chat => [ChatEvent(id, model, ChatDelta(i, sc, total, extra), Null)]
    case Responses => ResponsesContent(id, i, sc, total, extra)
    case Claude => ClaudeContent(i, sc, total, extra)
    case Gemini => [GeminiEvent(id, GeminiParts(i, sc, extra, args))]
  }

  function TextDoneEvent(id: string, w: Workload): Fields {
    map[Type := Typed(TextDone), ItemId := Str("msg_" + id), OutputIndex := Number(0), ContentIndex := Number(0),
        Text := Str(w.text)]
  }

  function DonePart(id: string, w: Workload): Fields {
    map[Type := Typed(PartDone), ItemId := Str("msg_" + id), OutputIndex := Number(0), ContentIndex := Number(0),
        Part := TextPart(w)]
  }

  function DoneItem(index: int, item: Value): Fields {
    map[Type := Typed(ItemDone), OutputIndex := Number(index), Item := item]
  }

  function DoneExtras(id: string, sc: Scenario, w: Workload): seq<Fields> {
    match sc
    case PlainText => []
    case CallsTool => [
      map[Type := Typed(ArgumentsDone), ItemId := Str("fc_" + id), OutputIndex := Number(1), Arguments := Str(w.tool)],
      DoneItem(1, ToolItem(id, w))]
    case Thinks => [
      map[Type := Typed(SummaryDone), ItemId := Str("reason_" + id), OutputIndex := Number(1),
          SummaryIndex := Number(0), Text := Str(w.thought)],
      map[Type := Typed(SummaryPartDone), ItemId := Str("reason_" + id), OutputIndex := Number(1),
          SummaryIndex := Number(0), Part := SummaryPart(w)],
      DoneItem(1, ReasonItem(id, w))]
  }

  /** Everything a Responses stream repeats before it completes. */
  function ResponsesDone(id: string, sc: Scenario, w: Workload): seq<Fields> {
    [TextDoneEvent(id, w)] + ([DonePart(id, w), DoneItem(0, MessageItem(id, w))] + DoneExtras(id, sc, w))
  }

  function TextPart(w: Workload): Value {
    Object(map[Type := Str("output_text"), Text := Str(w.text), Annotations := EmptyList()])
  }

  function SummaryPart(w: Workload): Value { Object(map[Type := Str("summary_text"), Text := Str(w.thought)]) }

  function MessageItem(id: string, w: Workload): Value {
    Object(map[Id := Str("msg_" + id), Type := Str("message"), Role := Str("assistant"), Status := Str(COMPLETED),
               Content := List([TextPart(w)])])
  }

  function ToolItem(id: string, w: Workload): Value {
    Object(map[Type := Str("function_call"), Id := Str("fc_" + id), CallId := Str("call_fixture"),
               Title := Str("capture"), Arguments := Str(w.tool), Status := Str(COMPLETED)])
  }

  function ReasonItem(id: string, w: Workload): Value {
    Object(map[Id := Str("reason_" + id), Type := Str("reasoning"), Summary := List([SummaryPart(w)])])
  }

  function UsageOf(w: Workload): Value {
    Object(map[InputTokens := Number(w.input), OutputTokens := Number(w.output),
               StreamEvents.TotalTokens := Number(w.input + w.output)])
  }

  function ExtraItems(id: string, sc: Scenario, w: Workload): seq<Value> {
    match sc
    case PlainText => []
    case CallsTool => [ToolItem(id, w)]
    case Thinks => [ReasonItem(id, w)]
  }

  function ResponsesCompleted(id: string, model: string, sc: Scenario, w: Workload): Fields {
    map[Type := Typed(Completed),
        Response := Object(map[Id := Str(id), ObjectKind := Str("response"), Status := Str(COMPLETED),
                               Model := Str(model),
                               Output := List([MessageItem(id, w)]
                                              + ExtraItems(id, sc, w)),
                               Usage := UsageOf(w)])]
  }

  function ClaudeMessageDelta(sc: Scenario, w: Workload): Fields {
    map[Type := Typed(MessageDelta),
        Delta := Object(map[StopReason := Str(if sc == CallsTool then TOOL_USE else END_TURN), StopSequence := Null]),
        Usage := Object(map[OutputTokens := Number(w.output)])]
  }

  function ClaudeBlockStops(sc: Scenario): seq<Fields> {
    [map[Type := Typed(BlockStop), Index := Number(0)]] +
    if sc == PlainText then [] else [map[Type := Typed(BlockStop), Index := Number(1)]]
  }

  function ClaudeStops(sc: Scenario, w: Workload): seq<Fields> { ClaudeBlockStops(sc) + [ClaudeMessageDelta(sc, w)] }

  function MessageStopEvent(): Fields { map[Type := Typed(MessageStop)] }

  function ChatFinish(id: string, model: string, sc: Scenario, w: Workload): Fields {
    ChatEvent(id, model, map[], Str(if sc == CallsTool then TOOL_CALLS else STOP))
      [Usage := Object(map[PromptTokens := Number(w.input), CompletionTokens := Number(w.output),
                           TotalTokens := Number(w.input + w.output)])]
  }

  function GeminiEnd(id: string, model: string, w: Workload): Fields {
    map[ResponseId := Str(id), ModelVersion := Str(model),
        Candidates := List([Object(map[Index := Number(0),
                                       Content := Object(map[Role := Str("model"), Parts := EmptyList()]),
                                       GeminiFinish := Str(GEMINI_STOP)])]),
        UsageMetadata := Object(map[PromptTokenCount := Number(w.input), CandidatesTokenCount := Number(w.output),
                                    TotalTokenCount := Number(w.input + w.output)])]
  }

  function TerminalEvents(p: Protocol, id: string, model: string, sc: Scenario, w: Workload): seq<Fields> {
    match p
    case Chat => [ChatFinish(id, model, sc, w)]
    case Responses => ResponsesDone(id, sc, w) + [ResponsesCompleted(id, model, sc, w)]
    case Claude => ClaudeStops(sc, w) + [MessageStopEvent()]
    case Gemini => [GeminiEnd(id, model, w)]
  }

  function AsData(events: seq<Fields>): seq<Data> {
    if events == [] then [] else [Event(events[0])] + AsData(events[1..])
  }

  /** One benchmark request; `args` is what the tool arguments decode to. */
  datatype Setup = Setup(p: Protocol, id: string, model: string, sc: Scenario, frames: nat, extra: nat, input: nat,
                         output: nat, args: Value)

  function Wanted(c: Setup): Workload { Expected(c.sc, c.frames, c.extra, c.input, c.output) }

  function Opening(c: Setup): seq<Data> { AsData(Preamble(c.p, c.id, c.model, Wanted(c))) }

  function FrameEvents(c: Setup, i: nat): seq<Fields>
    requires i < c.frames
  {
    ContentEvents(c.p, c.id, c.model, i, c.sc, c.frames, c.extra, c.args)
  }

  /** What has been sent after some frames. */
  function Sent(c: Setup, n: nat): seq<Data>
    requires n <= c.frames
  {
    if n == 0 then Opening(c) else Sent(c, n - 1) + AsData(FrameEvents(c, n - 1))
  }

  function Ending(c: Setup): seq<Data> {
    AsData(TerminalEvents(c.p, c.id, c.model, c.sc, Wanted(c))) + if c.p == Chat then [DoneMarker] else []
  }

  /** A whole successful stream. */
  function Emission(c: Setup): seq<Data> { Sent(c, c.frames) + Ending(c) }

  /** The synthetic failure. */
  function ErrorData(): Data {
    Event(map[Type := Typed(ErrorEvent),
              Error := Object(map[Type := Str("server_error"), Message := Str("synthetic failed terminal")])])
  }

  method Write(sink: seq<Data>, events: seq<Fields>) returns (r: seq<Data>)
    ensures r == sink + AsData(events)
  {
    r := sink;
    var i := 0;
    while i < |events|
      invariant 0 <= i <= |events| && r + AsData(events[i..]) == sink + AsData(events)
    {
      r := r + [Event(events[i])];
      i := i + 1;
    }
  }

  method ServeFrames(c: Setup, truncating: bool) returns (sent: seq<Data>, n: nat)
    ensures n <= c.frames && sent == Sent(c, n)
    ensures if truncating && c.frames > 0 then c.frames / 2 < n else n == c.frames
  {
    sent := Write([], Preamble(c.p, c.id, c.model, Wanted(c)));
    n := 0;
    while n < c.frames
      invariant n <= c.frames && sent == Sent(c, n)
      invariant truncating ==> n <= c.frames / 2
    {
      sent := Write(sent, FrameEvents(c, n));
      n := n + 1;
      if truncating && n - 1 >= c.frames / 2 { return; }
    }
  }

  /** A request is served in full, cut off after more than half of its frames, or failed at the end. */
  method ServeStream(c: Setup, truncating: bool, failing: bool) returns (sent: seq<Data>, ghost n: nat)
    ensures n <= c.frames
    ensures truncating && c.frames > 0 ==> c.frames / 2 < n && sent == Sent(c, n)
    ensures !(truncating && c.frames > 0) ==> sent == if failing then Sent(c, c.frames) + [ErrorData()] else Emission(c)
  {
    var frames: nat;
    sent, frames := ServeFrames(c, truncating);
    n := frames;
    if truncating && c.frames > 0 { return; }
    if failing {
      sent := sent + [ErrorData()];
      return;
    }
    var whole := Write(sent, TerminalEvents(c.p, c.id, c.model, c.sc, Wanted(c)));
    if c.p == Chat { whole := whole + [DoneMarker]; }
    sent := whole;
  }
}
