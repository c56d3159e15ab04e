/** The reader as it runs: builders, flags and counters updated message by message. */
module StreamReader {
  import opened StreamEvents
  import opened StreamEmitter
  import opened StreamChecker

  class StreamState {
    var text: string
    var thought: string
    var tool: string
    var terminal: bool
    var done: bool
    var textParts: map<PartKey, string>
    var completedTextParts: map<PartKey, string>
    var inputTokens: int
    var outputTokens: int
    var frames: nat
    var rawFrames: nat

    function View(): Stream
      reads this
    {
      Stream(text, thought, tool, terminal, done, textParts, completedTextParts, inputTokens, outputTokens, frames,
             rawFrames)
    }

    constructor ()
      ensures View() == START
    {
      text, thought, tool, terminal, done := "", "", "", false, false;
      textParts, completedTextParts := map[], map[];
      inputTokens, outputTokens, frames, rawFrames := 0, 0, 0, 0;
    }

    method AddContent(s: string)
      modifies `text, `frames
      ensures View() == WithContent(old(View()), s)
    {
      if s == "" { return; }
      frames := frames + 1;
      text := text + s;
    }

    method TakeUsage(m: Fields, inName: Name, outName: Name)
      modifies `inputTokens, `outputTokens
      ensures inputTokens == Taken(old(inputTokens), NumberIn(m, inName))
      ensures outputTokens == Taken(old(outputTokens), NumberIn(m, outName))
    {
      var a, b := NumberIn(m, inName), NumberIn(m, outName);
      inputTokens := if a > 0 then a else inputTokens;
      outputTokens := if b > 0 then b else outputTokens;
    }

    method AddToolCalls(calls: seq<Value>)
      modifies `tool
      ensures View() == WithTool(old(View()), ToolTexts(calls))
    {
      var i := 0;
      while i < |calls|
        invariant 0 <= i <= |calls| && tool + ToolTexts(calls[i..]) == old(tool) + ToolTexts(calls)
      {
        var more := StringIn(ObjectIn(FieldsOf(calls[i]), Function), Arguments);
        assert calls[i..][1..] == calls[i + 1..];
        assert tool + (more + ToolTexts(calls[i + 1..])) == (tool + more) + ToolTexts(calls[i + 1..]);
        tool := tool + more;
        i := i + 1;
      }
    }

    method TakeChoice(choice: Fields) returns (ok: bool)
      modifies this
      ensures ok <==> ChatChoice(old(View()), choice).Ok?
      ensures ok ==> View() == ChatChoice(old(View()), choice).value
    {
      var d := ObjectIn(choice, Delta);
      AddContent(StringIn(d, Content));
      thought := thought + StringIn(d, ReasoningContent);
      AddToolCalls(ListIn(d, ToolCalls));
      var reason := StringIn(choice, FinishReason);
      if reason != "" {
        if reason != STOP && reason != TOOL_CALLS { return false; }
        terminal := true;
      }
      ok := true;
    }

    method TakeChatFrame(m: Fields) returns (ok: bool)
      modifies this
      ensures ok <==> ChatFrame(old(View()), m).Ok?
      ensures ok ==> View() == ChatFrame(old(View()), m).value
    {
      var choices := ListIn(m, Choices);
      var i := 0;
      while i < |choices|
        invariant 0 <= i <= |choices| && ChatChoices(View(), choices[i..]) == ChatChoices(old(View()), choices)
      {
        assert choices[i..][1..] == choices[i + 1..];
        var taken := TakeChoice(FieldsOf(choices[i]));
        if !taken { return false; }
        i := i + 1;
      }
      TakeUsage(ObjectIn(m, Usage), PromptTokens, CompletionTokens);
      ok := true;
    }

    method TakeText(delta: string, key: PartKey)
      modifies `text, `frames, `textParts
      ensures var t := WithContent(old(View()), delta);
        View() == t.(parts := t.parts[key := PartText(t.parts, key) + delta])
    {
      AddContent(delta);
      ghost var parts := textParts;
      if key !in textParts { textParts := textParts[key := ""]; }
      textParts := textParts[key := textParts[key] + delta];
      assert textParts == parts[key := PartText(parts, key) + delta];
    }

    method TakeCompleted(r: Fields) returns (ok: bool)
      modifies this
      ensures ok <==> StringIn(r, Status) == COMPLETED
      ensures ok ==>
        View() == WithUsage(old(View()).(terminal := true, done := true), ObjectIn(r, Usage), InputTokens, OutputTokens)
    {
      if StringIn(r, Status) != COMPLETED { return false; }
      terminal, done := true, true;
      TakeUsage(ObjectIn(r, Usage), InputTokens, OutputTokens);
      ok := true;
    }

    method TakeResponsesFrame(m: Fields) returns (ok: bool)
      modifies this
      ensures ok <==> ResponsesFrame(old(View()), m).Ok?
      ensures ok ==> View() == ResponsesFrame(old(View()), m).value
    {
      var t := TypeOf(StringIn(m, Type));
      ok := true;
      match t
      case TextDelta => TakeText(StringIn(m, Delta), PartKeyOf(m));
      case SummaryDelta => thought := thought + StringIn(m, Delta);
      case ReasoningDelta => thought := thought + StringIn(m, Delta);
      case ArgumentsDelta => tool := tool + StringIn(m, Delta);
      case TextDone => completedTextParts := completedTextParts[PartKeyOf(m) := StringIn(m, Text)];
      case Failed => ok := false;
      case Incomplete => ok := false;
      case ErrorEvent => ok := false;
      case Completed => ok := TakeCompleted(ObjectIn(m, Response));
      case _ =>
    }

    method TakeClaudeDelta(d: Fields)
      modifies this
      ensures View() == ClaudeDelta(old(View()), d)
    {
      var kind := StringIn(d, Type);
      if kind == TEXT_DELTA {
        AddContent(StringIn(d, Text));
      } else if kind == THINKING_DELTA {
        thought := thought + StringIn(d, Thinking);
      } else if kind == JSON_DELTA {
        tool := tool + StringIn(d, PartialJson);
      }
    }

    method TakeClaudeFrame(m: Fields) returns (ok: bool)
      modifies this
      ensures ok <==> ClaudeFrame(old(View()), m).Ok?
      ensures ok ==> View() == ClaudeFrame(old(View()), m).value
    {
      var t := ClaudeTypeOf(StringIn(m, Type));
      ok := true;
      match t
      case MessageStart => TakeUsage(ObjectIn(ObjectIn(m, Message), Usage), InputTokens, OutputTokens);
      case BlockDelta => TakeClaudeDelta(ObjectIn(m, Delta));
      case MessageDelta =>
        var reason := StringIn(ObjectIn(m, Delta), StopReason);
        if reason != "" {
          if reason != END_TURN && reason != TOOL_USE { return false; }
          terminal := true;
        }
        TakeUsage(ObjectIn(m, Usage), InputTokens, OutputTokens);
      case MessageStop => done := true;
      case _ =>
    }

    method TakePart(p: Fields, codec: Codec)
      modifies this
      ensures View() == GeminiPart(old(View()), p, codec)
    {
      if Thought in p && p[Thought] == Bool(true) {
        thought := thought + StringIn(p, Text);
      } else {
        AddContent(StringIn(p, Text));
      }
      if FunctionCall in p && p[FunctionCall].Object? {
        var f := p[FunctionCall].fields;
        tool := tool + codec.marshal(if Args in f then f[Args] else Null);
      }
    }

    method TakeCandidate(c: Fields, codec: Codec) returns (ok: bool)
      modifies this
      ensures ok <==> GeminiCandidate(old(View()), c, codec).Ok?
      ensures ok ==> View() == GeminiCandidate(old(View()), c, codec).value
    {
      var parts := ListIn(ObjectIn(c, Content), Parts);
      var i := 0;
      while i < |parts|
        invariant 0 <= i <= |parts|
        invariant StreamChecker.GeminiParts(View(), parts[i..], codec) ==
          StreamChecker.GeminiParts(old(View()), parts, codec)
      {
        assert parts[i..][1..] == parts[i + 1..];
        TakePart(FieldsOf(parts[i]), codec);
        i := i + 1;
      }
      var reason := StringIn(c, GeminiFinish);
      if reason != "" {
        if reason != GEMINI_STOP { return false; }
        terminal, done := true, true;
      }
      ok := true;
    }

    method TakeGeminiFrame(m: Fields, codec: Codec) returns (ok: bool)
      modifies this
      ensures ok <==> GeminiFrame(old(View()), m, codec).Ok?
      ensures ok ==> View() == GeminiFrame(old(View()), m, codec).value
    {
      var candidates := ListIn(m, Candidates);
      var i := 0;
      while i < |candidates|
        invariant 0 <= i <= |candidates|
        invariant GeminiCandidates(View(), candidates[i..], codec) == GeminiCandidates(old(View()), candidates, codec)
      {
        assert candidates[i..][1..] == candidates[i + 1..];
        var taken := TakeCandidate(FieldsOf(candidates[i]), codec);
        if !taken { return false; }
        i := i + 1;
      }
      TakeUsage(ObjectIn(m, UsageMetadata), PromptTokenCount, CandidatesTokenCount);
      ok := true;
    }

    method TakeEvent(m: Fields, protocol: Protocol, codec: Codec) returns (ok: bool)
      modifies this
      ensures ok <==> EventFrame(old(View()), m, protocol, codec).Ok?
      ensures ok ==> View() == EventFrame(old(View()), m, protocol, codec).value
    {
      match protocol
      case Chat => ok := TakeChatFrame(m);
      case Responses => ok := TakeResponsesFrame(m);
      case Claude => ok := TakeClaudeFrame(m);
      case Gemini => ok := TakeGeminiFrame(m, codec);
    }

    method TakeMessage(data: Data, protocol: Protocol, codec: Codec) returns (ok: bool)
      modifies this
      ensures ok <==> Handled(old(View()), data, protocol, codec).Ok?
      ensures ok ==> View() == Handled(old(View()), data, protocol, codec).value
    {
      match data
      case DoneMarker =>
        done := true;
        ok := true;
      case Malformed => ok := false;
      case Event(m) =>
        if IsError(m) { return false; }
        ok := TakeEvent(m, protocol, codec);
    }

    method CountMessage()
      modifies `rawFrames
      ensures View() == old(View()).(rawFrames := old(View()).rawFrames + 1)
    {
      rawFrames := rawFrames + 1;
    }

    method TakeFrame(data: Data, protocol: Protocol, codec: Codec) returns (ok: bool)
      modifies this
      ensures ok <==> Frame(old(View()), data, protocol, codec).Ok?
      ensures ok ==> View() == Frame(old(View()), data, protocol, codec).value
    {
      CountMessage();
      ok := TakeMessage(data, protocol, codec);
    }

    method CheckParts() returns (ok: bool)
      ensures ok <==> PartsAgree(View())
    {
      var left := completedTextParts.Keys;
      while left != {}
        invariant left <= completedTextParts.Keys
        invariant forall k :: k in completedTextParts && k !in left ==> completedTextParts[k] == PartText(textParts, k)
      {
        var key :| key in left;
        var said := completedTextParts[key];
        if (key !in textParts && said != "") || (key in textParts && textParts[key] != said) { return false; }
        left := left - {key};
      }
      ok := true;
    }

    method CheckTool(w: Workload, codec: Codec) returns (ok: bool)
      ensures ok <==> ToolAgrees(View(), w, codec)
    {
      if w.tool == "" { return |tool| == 0; }
      var got, want := codec.parse(tool), codec.parse(w.tool);
      if got.Err? || want.Err? { return false; }
      ok := codec.marshal(got.value) == codec.marshal(want.value);
    }

    method Finish(w: Workload, codec: Codec) returns (ok: bool)
      ensures ok <==> Finished(View(), w, codec)
    {
      if !terminal || !done { return false; }
      if text != w.text { return false; }
      var parts := CheckParts();
      if !parts { return false; }
      if thought != w.thought { return false; }
      var called := CheckTool(w, codec);
      if !called { return false; }
      ok := inputTokens == w.input && outputTokens == w.output;
    }

    /** Reading a whole stream and finishing is acceptance. */
    method ReadStream(data: seq<Data>, protocol: Protocol, w: Workload, codec: Codec) returns (ok: bool)
      requires View() == START
      modifies this
      ensures ok <==> Accepted(data, protocol, w, codec)
    {
      var i := 0;
      while i < |data|
        invariant 0 <= i <= |data| && Frames(View(), data[i..], protocol, codec) == Frames(START, data, protocol, codec)
      {
        assert data[i..][1..] == data[i + 1..];
        var taken := TakeFrame(data[i], protocol, codec);
        if !taken { return false; }
        i := i + 1;
      }
      ok := Finish(w, codec);
    }
  }
}
