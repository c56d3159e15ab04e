/** What the reader makes of any stream at all, said of its messages: which messages it refuses, what the text,
    thought and tool arguments of an accepted stream are, and where its completion and usage come from. */
module StreamMeaning {
  import opened StreamEvents
  import opened StreamEmitter
  import opened StreamChecker

  // Members of a message.

  function Member(v: Value, k: Name): Value { if v.Object? && k in v.fields then v.fields[k] else Null }

  function TextIn(v: Value): string { if v.Str? then v.s else "" }

  function CountIn(v: Value): int { if v.Number? then v.n else 0 }

  function ItemsIn(v: Value): seq<Value> { if v.List? then v.items else [] }

  lemma MembersAre(m: Fields, k: Name)
    ensures TextIn(Member(Object(m), k)) == StringIn(m, k)
    ensures CountIn(Member(Object(m), k)) == NumberIn(m, k)
    ensures ItemsIn(Member(Object(m), k)) == ListIn(m, k)
    ensures FieldsOf(Member(Object(m), k)) == ObjectIn(m, k)
  {}

  // What is refused.

  /** A finish that is given and is not a successful one. */
  predicate EndsBadly(reason: string, good: set<string>) { reason != "" && reason !in good }

  ghost predicate BadChat(m: Value) {
    exists c :: c in ItemsIn(Member(m, Choices)) && EndsBadly(TextIn(Member(c, FinishReason)), {"stop", "tool_calls"})
  }

  ghost predicate BadGemini(m: Value) {
    exists c :: c in ItemsIn(Member(m, Candidates)) && EndsBadly(TextIn(Member(c, GeminiFinish)), {"STOP"})
  }

  predicate BadClaude(m: Value) {
    TextIn(Member(m, Type)) == "message_delta"
    && EndsBadly(TextIn(Member(Member(m, Delta), StopReason)), {"end_turn", "tool_use"})
  }

  predicate BadResponses(m: Value) {
    var t := TextIn(Member(m, Type));
    || t == "response.failed" || t == "response.incomplete" || t == "error"
    || (t == "response.completed" && TextIn(Member(Member(m, Response), Status)) != "completed")
  }

  ghost predicate BadFinish(m: Value, p: Protocol) {
    match p
    case Chat => BadChat(m)
    case Responses => BadResponses(m)
    case Claude => BadClaude(m)
    case Gemini => BadGemini(m)
  }

  /** No JSON, an error, or a finish without success. */
  ghost predicate Refused(d: Data, p: Protocol) {
    || d.Malformed?
    || (d.Event? && (Member(Object(d.fields), Error) != Null || BadFinish(Object(d.fields), p)))
  }

  lemma FieldMember(v: Value, k: Name)
    ensures StringIn(FieldsOf(v), k) == TextIn(Member(v, k))
    ensures ListIn(FieldsOf(v), k) == ItemsIn(Member(v, k))
    ensures ObjectIn(FieldsOf(v), k) == FieldsOf(Member(v, k))
    ensures NumberIn(FieldsOf(v), k) == CountIn(Member(v, k))
  {}

  lemma {:induction false} ChoicesFail(s: Stream, choices: seq<Value>)
    ensures ChatChoices(s, choices).Err? <==>
      exists c :: c in choices && EndsBadly(TextIn(Member(c, FinishReason)), {"stop", "tool_calls"})
    decreases |choices|
  {
    if choices != [] {
      FieldMember(choices[0], FinishReason);
      assert forall c :: c in choices <==> c == choices[0] || c in choices[1..];
      match ChatChoice(s, FieldsOf(choices[0]))
      case Err =>
      case Ok(t) => ChoicesFail(t, choices[1..]);
    }
  }

  lemma {:induction false} CandidatesFail(s: Stream, candidates: seq<Value>, codec: Codec)
    ensures GeminiCandidates(s, candidates, codec).Err? <==>
      exists c :: c in candidates && EndsBadly(TextIn(Member(c, GeminiFinish)), {"STOP"})
    decreases |candidates|
  {
    if candidates != [] {
      FieldMember(candidates[0], GeminiFinish);
      assert forall c :: c in candidates <==> c == candidates[0] || c in candidates[1..];
      match GeminiCandidate(s, FieldsOf(candidates[0]), codec)
      case Err =>
      case Ok(t) => CandidatesFail(t, candidates[1..], codec);
    }
  }

  lemma ClaudeFails(s: Stream, m: Fields)
    ensures ClaudeFrame(s, m).Err? <==> BadClaude(Object(m))
  {
    MembersAre(m, Type);
    MembersAre(m, Delta);
    FieldMember(Member(Object(m), Delta), StopReason);
  }

  predicate BadByType(t: EventType, status: string) {
    t in {Failed, Incomplete, ErrorEvent} || (t == Completed && status != COMPLETED)
  }

  lemma FailingTypes()
    ensures TypeOf("response.failed") == Failed && TypeOf("response.incomplete") == Incomplete
    ensures TypeOf("error") == ErrorEvent && TypeOf("response.completed") == Completed
  {}

  lemma FailingTypesAre(t: string, status: string)
    ensures BadByType(TypeOf(t), status) <==>
      || t == "response.failed" || t == "response.incomplete" || t == "error"
      || (t == "response.completed" && status != "completed")
  {
    FailingTypes();
  }

  lemma ResponsesFailsByType(s: Stream, m: Fields, t: EventType)
    ensures ResponsesEvent(s, m, t).Err? <==> BadByType(t, StringIn(ObjectIn(m, Response), Status))
  {}

  lemma ResponsesFails(s: Stream, m: Fields)
    ensures ResponsesFrame(s, m).Err? <==> BadResponses(Object(m))
  {
    ResponsesFailsByType(s, m, TypeOf(StringIn(m, Type)));
    ResponsesBad(m);
  }

  lemma ResponsesBad(m: Fields)
    ensures BadResponses(Object(m)) <==>
      BadByType(TypeOf(StringIn(m, Type)), StringIn(ObjectIn(m, Response), Status))
  {
    MembersAre(m, Type);
    MembersAre(m, Response);
    FieldMember(Member(Object(m), Response), Status);
    FailingTypesAre(StringIn(m, Type), StringIn(ObjectIn(m, Response), Status));
  }

  lemma EventFails(s: Stream, m: Fields, p: Protocol, codec: Codec)
    ensures EventFrame(s, m, p, codec).Err? <==> BadFinish(Object(m), p)
  {
    match p
    case Chat => MembersAre(m, Choices); ChoicesFail(s, ListIn(m, Choices));
    case Responses => ResponsesFails(s, m);
    case Claude => ClaudeFails(s, m);
    case Gemini => MembersAre(m, Candidates); CandidatesFail(s, ListIn(m, Candidates), codec);
  }

  /** A message is refused exactly when it is no JSON, is or carries an error, or finishes without success:
      in every state of the reader. */
  lemma FailsExactly(s: Stream, d: Data, p: Protocol, codec: Codec)
    ensures Frame(s, d, p, codec).Err? <==> Refused(d, p)
  {
    if d.Event? { EventFails(s.(rawFrames := s.rawFrames + 1), d.fields, p, codec); }
  }

  lemma {:induction false} FramesFail(s: Stream, data: seq<Data>, p: Protocol, codec: Codec)
    ensures Frames(s, data, p, codec).Err? <==> exists d :: d in data && Refused(d, p)
    decreases |data|
  {
    if data != [] {
      FailsExactly(s, data[0], p, codec);
      assert forall d :: d in data <==> d == data[0] || d in data[1..];
      match Frame(s, data[0], p, codec)
      case Err =>
      case Ok(t) => FramesFail(t, data[1..], p, codec);
    }
  }

  /** One refused message anywhere, and the stream is rejected, whatever is expected of it. */
  lemma RefusedIsRejected(data: seq<Data>, p: Protocol, w: Workload, codec: Codec, d: Data)
    requires d in data && Refused(d, p)
    ensures !Accepted(data, p, w, codec)
  {
    FramesFail(START, data, p, codec);
  }

  // What a message adds.

  datatype Gains = Gains(text: string, thought: string, tool: string, terminal: bool, done: bool)

  const NOTHING: Gains := Gains("", "", "", false, false)

  function Plus(a: Gains, b: Gains): Gains {
    Gains(a.text + b.text, a.thought + b.thought, a.tool + b.tool, a.terminal || b.terminal, a.done || b.done)
  }

  function CallTexts(calls: seq<Value>): string {
    if calls == [] then "" else TextIn(Member(Member(calls[0], Function), Arguments)) + CallTexts(calls[1..])
  }

  /** A choice adds its delta's content, reasoning and call arguments, and ends the answer when it has a finish. */
  function ChoiceGains(c: Value): Gains {
    var d := Member(c, Delta);
    Gains(TextIn(Member(d, Content)), TextIn(Member(d, ReasoningContent)), CallTexts(ItemsIn(Member(d, ToolCalls))),
          TextIn(Member(c, FinishReason)) != "", false)
  }

  function ChoicesGain(choices: seq<Value>): Gains {
    if choices == [] then NOTHING else Plus(ChoiceGains(choices[0]), ChoicesGain(choices[1..]))
  }

  function ResponsesGains(m: Value): Gains {
    var t, delta := TextIn(Member(m, Type)), TextIn(Member(m, Delta));
    if t == "response.output_text.delta" then NOTHING.(text := delta)
    else if t == "response.reasoning_summary_text.delta" || t == "response.reasoning_text.delta" then
      NOTHING.(thought := delta)
    else if t == "response.function_call_arguments.delta" then NOTHING.(tool := delta)
    else if t == "response.completed" then NOTHING.(terminal := true, done := true)
    else NOTHING
  }

  function ClaudeDeltaGains(d: Value): Gains {
    var kind := TextIn(Member(d, Type));
    if kind == "text_delta" then NOTHING.(text := TextIn(Member(d, Text)))
    else if kind == "thinking_delta" then NOTHING.(thought := TextIn(Member(d, Thinking)))
    else if kind == "input_json_delta" then NOTHING.(tool := TextIn(Member(d, PartialJson)))
    else NOTHING
  }

  function ClaudeGains(m: Value): Gains {
    var t, d := TextIn(Member(m, Type)), Member(m, Delta);
    if t == "content_block_delta" then ClaudeDeltaGains(d)
    else if t == "message_delta" then NOTHING.(terminal := TextIn(Member(d, StopReason)) != "")
    else if t == "message_stop" then NOTHING.(done := true)
    else NOTHING
  }

  /** A part adds its text, to the thought when it is marked so, and its call's arguments. */
  function PartGains(p: Value, codec: Codec): Gains {
    var text, call := TextIn(Member(p, Text)), Member(p, FunctionCall);
    var thought := Member(p, Thought) == Bool(true);
    Gains(if thought then "" else text, if thought then text else "",
          if call.Object? then codec.marshal(Member(call, Args)) else "", false, false)
  }

  function PartsGain(parts: seq<Value>, codec: Codec): Gains {
    if parts == [] then NOTHING else Plus(PartGains(parts[0], codec), PartsGain(parts[1..], codec))
  }

  function CandidateGains(c: Value, codec: Codec): Gains {
    var ends := TextIn(Member(c, GeminiFinish)) != "";
    Plus(PartsGain(ItemsIn(Member(Member(c, Content), Parts)), codec), NOTHING.(terminal := ends, done := ends))
  }

  function CandidatesGain(candidates: seq<Value>, codec: Codec): Gains {
    if candidates == [] then NOTHING
    else Plus(CandidateGains(candidates[0], codec), CandidatesGain(candidates[1..], codec))
  }

  function GainsOf(d: Data, p: Protocol, codec: Codec): Gains {
    match d
    case DoneMarker => NOTHING.(done := true)
    case Malformed => NOTHING
    case Event(m) =>
      match p
      case Chat => ChoicesGain(ItemsIn(Member(Object(m), Choices)))
      case Responses => ResponsesGains(Object(m))
      case Claude => ClaudeGains(Object(m))
      case Gemini => CandidatesGain(ItemsIn(Member(Object(m), Candidates)), codec)
  }

  /** What the whole stream adds. */
  function AllGains(data: seq<Data>, p: Protocol, codec: Codec): Gains {
    if data == [] then NOTHING else Plus(GainsOf(data[0], p, codec), AllGains(data[1..], p, codec))
  }

  function Held(s: Stream): Gains { Gains(s.text, s.thought, s.tool, s.terminal, s.done) }

  lemma PlusAssociates(a: Gains, b: Gains, c: Gains)
    ensures Plus(Plus(a, b), c) == Plus(a, Plus(b, c)) && Plus(a, NOTHING) == a
  {
    assert a.text + b.text + c.text == a.text + (b.text + c.text);
    assert a.thought + b.thought + c.thought == a.thought + (b.thought + c.thought);
    assert a.tool + b.tool + c.tool == a.tool + (b.tool + c.tool);
    assert a.text + "" == a.text && a.thought + "" == a.thought && a.tool + "" == a.tool;
  }

  lemma ContentHeld(s: Stream, text: string)
    ensures Held(WithContent(s, text)) == Plus(Held(s), NOTHING.(text := text))
  {
    assert s.text + "" == s.text && s.thought + "" == s.thought && s.tool + "" == s.tool;
  }

  lemma {:induction false} CallTextsAre(calls: seq<Value>)
    ensures ToolTexts(calls) == CallTexts(calls)
  {
    if calls != [] {
      FieldMember(calls[0], Function);
      FieldMember(Member(calls[0], Function), Arguments);
      CallTextsAre(calls[1..]);
    }
  }

  lemma ChoiceHeld(s: Stream, c: Value)
    requires ChatChoice(s, FieldsOf(c)).Ok?
    ensures Held(ChatChoice(s, FieldsOf(c)).value) == Plus(Held(s), ChoiceGains(c))
  {
    var d := Member(c, Delta);
    FieldMember(c, Delta);
    FieldMember(c, FinishReason);
    FieldMember(d, Content);
    FieldMember(d, ReasoningContent);
    FieldMember(d, ToolCalls);
    CallTextsAre(ItemsIn(Member(d, ToolCalls)));
    ContentHeld(s, TextIn(Member(d, Content)));
  }

  lemma {:induction false} ChoicesHeld(s: Stream, choices: seq<Value>)
    requires ChatChoices(s, choices).Ok?
    ensures Held(ChatChoices(s, choices).value) == Plus(Held(s), ChoicesGain(choices))
    decreases |choices|
  {
    if choices == [] {
      PlusAssociates(Held(s), NOTHING, NOTHING);
    } else {
      var t := ChatChoice(s, FieldsOf(choices[0])).value;
      ChoiceHeld(s, choices[0]);
      ChoicesHeld(t, choices[1..]);
      PlusAssociates(Held(s), ChoiceGains(choices[0]), ChoicesGain(choices[1..]));
    }
  }

  /** The types the Responses reader knows, as it spells them. */
  lemma GroundTypes()
    ensures TypeOf("response.output_text.delta") == TextDelta
    ensures TypeOf("response.reasoning_summary_text.delta") == SummaryDelta
    ensures TypeOf("response.reasoning_text.delta") == ReasoningDelta
    ensures TypeOf("response.function_call_arguments.delta") == ArgumentsDelta
    ensures TypeOf("response.output_text.done") == TextDone
    ensures TypeOf("response.completed") == Completed
  {}

  lemma TypesAre(t: string)
    ensures TypeOf(t) == TextDelta <==> t == "response.output_text.delta"
    ensures TypeOf(t) == SummaryDelta <==> t == "response.reasoning_summary_text.delta"
    ensures TypeOf(t) == ReasoningDelta <==> t == "response.reasoning_text.delta"
    ensures TypeOf(t) == ArgumentsDelta <==> t == "response.function_call_arguments.delta"
    ensures TypeOf(t) == TextDone <==> t == "response.output_text.done"
    ensures TypeOf(t) == Completed <==> t == "response.completed"
  {
    GroundTypes();
  }

  /** What a message of some type adds. */
  function GainsByType(t: EventType, delta: string): Gains {
    match t
    case TextDelta => NOTHING.(text := delta)
    case SummaryDelta => NOTHING.(thought := delta)
    case ReasoningDelta => NOTHING.(thought := delta)
    case ArgumentsDelta => NOTHING.(tool := delta)
    case Completed => NOTHING.(terminal := true, done := true)
    case _ => NOTHING
  }

  lemma ResponsesGainsAre(m: Fields)
    ensures ResponsesGains(Object(m)) == GainsByType(TypeOf(StringIn(m, Type)), StringIn(m, Delta))
  {
    MembersAre(m, Type);
    MembersAre(m, Delta);
    TypesAre(StringIn(m, Type));
  }

  lemma HeldByType(s: Stream, m: Fields, t: EventType)
    requires ResponsesEvent(s, m, t).Ok?
    ensures Held(ResponsesEvent(s, m, t).value) == Plus(Held(s), GainsByType(t, StringIn(m, Delta)))
  {
    ContentHeld(s, StringIn(m, Delta));
    PlusAssociates(Held(s), NOTHING, NOTHING);
  }

  lemma ResponsesHeld(s: Stream, m: Fields)
    requires ResponsesFrame(s, m).Ok?
    ensures Held(ResponsesFrame(s, m).value) == Plus(Held(s), ResponsesGains(Object(m)))
  {
    HeldByType(s, m, TypeOf(StringIn(m, Type)));
    ResponsesGainsAre(m);
  }

  lemma GroundClaudeTypes()
    ensures ClaudeTypeOf("message_start") == MessageStart && ClaudeTypeOf("content_block_delta") == BlockDelta
    ensures ClaudeTypeOf("message_delta") == MessageDelta && ClaudeTypeOf("message_stop") == MessageStop
  {}

  lemma ClaudeTypesAre(t: string)
    ensures ClaudeTypeOf(t) == MessageStart <==> t == "message_start"
    ensures ClaudeTypeOf(t) == BlockDelta <==> t == "content_block_delta"
    ensures ClaudeTypeOf(t) == MessageDelta <==> t == "message_delta"
    ensures ClaudeTypeOf(t) == MessageStop <==> t == "message_stop"
  {
    GroundClaudeTypes();
  }

  function ClaudeByType(t: EventType, d: Value): Gains {
    match t
    case BlockDelta => ClaudeDeltaGains(d)
    case MessageDelta => NOTHING.(terminal := TextIn(Member(d, StopReason)) != "")
    case MessageStop => NOTHING.(done := true)
    case _ => NOTHING
  }

  lemma ClaudeGainsAre(m: Fields)
    ensures ClaudeGains(Object(m)) == ClaudeByType(ClaudeTypeOf(StringIn(m, Type)), Member(Object(m), Delta))
  {
    MembersAre(m, Type);
    ClaudeTypesAre(StringIn(m, Type));
  }

  lemma ClaudeDeltaHeld(s: Stream, d: Value)
    ensures Held(ClaudeDelta(s, FieldsOf(d))) == Plus(Held(s), ClaudeDeltaGains(d))
  {
    FieldMember(d, Type);
    FieldMember(d, Text);
    FieldMember(d, Thinking);
    FieldMember(d, PartialJson);
    ContentHeld(s, TextIn(Member(d, Text)));
    PlusAssociates(Held(s), NOTHING, NOTHING);
  }

  lemma ClaudeHeldByType(s: Stream, m: Fields, t: EventType)
    requires ClaudeEvent(s, m, t).Ok?
    ensures Held(ClaudeEvent(s, m, t).value) == Plus(Held(s), ClaudeByType(t, Member(Object(m), Delta)))
  {
    var d := Member(Object(m), Delta);
    MembersAre(m, Delta);
    FieldMember(d, StopReason);
    ClaudeDeltaHeld(s, d);
    PlusAssociates(Held(s), NOTHING, NOTHING);
  }

  lemma ClaudeHeld(s: Stream, m: Fields)
    requires ClaudeFrame(s, m).Ok?
    ensures Held(ClaudeFrame(s, m).value) == Plus(Held(s), ClaudeGains(Object(m)))
  {
    ClaudeHeldByType(s, m, ClaudeTypeOf(StringIn(m, Type)));
    ClaudeGainsAre(m);
  }

  lemma PartHeld(s: Stream, p: Value, codec: Codec)
    ensures Held(GeminiPart(s, FieldsOf(p), codec)) == Plus(Held(s), PartGains(p, codec))
  {
    FieldMember(p, Text);
    ContentHeld(s, TextIn(Member(p, Text)));
    PlusAssociates(Held(s), NOTHING, NOTHING);
    var call := Member(p, FunctionCall);
    if call.Object? {
      var f := call.fields;
      assert (if Args in f then f[Args] else Null) == Member(call, Args);
    }
  }

  lemma {:induction false} PartsHeld(s: Stream, parts: seq<Value>, codec: Codec)
    ensures Held(StreamChecker.GeminiParts(s, parts, codec)) == Plus(Held(s), PartsGain(parts, codec))
    decreases |parts|
  {
    if parts == [] {
      PlusAssociates(Held(s), NOTHING, NOTHING);
    } else {
      PartHeld(s, parts[0], codec);
      PartsHeld(GeminiPart(s, FieldsOf(parts[0]), codec), parts[1..], codec);
      PlusAssociates(Held(s), PartGains(parts[0], codec), PartsGain(parts[1..], codec));
    }
  }

  lemma CandidateHeld(s: Stream, c: Value, codec: Codec)
    requires GeminiCandidate(s, FieldsOf(c), codec).Ok?
    ensures Held(GeminiCandidate(s, FieldsOf(c), codec).value) == Plus(Held(s), CandidateGains(c, codec))
  {
    var parts := ItemsIn(Member(Member(c, Content), Parts));
    FieldMember(c, Content);
    FieldMember(Member(c, Content), Parts);
    FieldMember(c, GeminiFinish);
    PartsHeld(s, parts, codec);
    var ends := TextIn(Member(c, GeminiFinish)) != "";
    PlusAssociates(Held(s), PartsGain(parts, codec), NOTHING.(terminal := ends, done := ends));
    PlusAssociates(Held(StreamChecker.GeminiParts(s, parts, codec)), NOTHING, NOTHING);
  }

  lemma {:induction false} CandidatesHeld(s: Stream, candidates: seq<Value>, codec: Codec)
    requires GeminiCandidates(s, candidates, codec).Ok?
    ensures Held(GeminiCandidates(s, candidates, codec).value) == Plus(Held(s), CandidatesGain(candidates, codec))
    decreases |candidates|
  {
    if candidates == [] {
      PlusAssociates(Held(s), NOTHING, NOTHING);
    } else {
      var t := GeminiCandidate(s, FieldsOf(candidates[0]), codec).value;
      CandidateHeld(s, candidates[0], codec);
      CandidatesHeld(t, candidates[1..], codec);
      PlusAssociates(Held(s), CandidateGains(candidates[0], codec), CandidatesGain(candidates[1..], codec));
    }
  }

  lemma ChatHeld(s: Stream, m: Fields)
    requires ChatFrame(s, m).Ok?
    ensures Held(ChatFrame(s, m).value) == Plus(Held(s), ChoicesGain(ItemsIn(Member(Object(m), Choices))))
  {
    MembersAre(m, Choices);
    ChoicesHeld(s, ListIn(m, Choices));
  }

  lemma GeminiHeld(s: Stream, m: Fields, codec: Codec)
    requires GeminiFrame(s, m, codec).Ok?
    ensures Held(GeminiFrame(s, m, codec).value) ==
      Plus(Held(s), CandidatesGain(ItemsIn(Member(Object(m), Candidates)), codec))
  {
    MembersAre(m, Candidates);
    CandidatesHeld(s, ListIn(m, Candidates), codec);
  }

  lemma EventHeld(s: Stream, m: Fields, p: Protocol, codec: Codec)
    requires EventFrame(s, m, p, codec).Ok?
    ensures Held(EventFrame(s, m, p, codec).value) == Plus(Held(s), GainsOf(Event(m), p, codec))
  {
    match p
    case Chat => ChatHeld(s, m);
    case Responses => ResponsesHeld(s, m);
    case Claude => ClaudeHeld(s, m);
    case Gemini => GeminiHeld(s, m, codec);
  }

  function Counted(s: Stream): (t: Stream)
    ensures Held(t) == Held(s) && SameUsage(s, t) && t.parts == s.parts && t.completed == s.completed
  {
    s.(rawFrames := s.rawFrames + 1)
  }

  lemma FrameIs(s: Stream, m: Fields, p: Protocol, codec: Codec)
    requires Frame(s, Event(m), p, codec).Ok?
    ensures Frame(s, Event(m), p, codec) == EventFrame(Counted(s), m, p, codec)
  {}

  /** A message that is not refused adds exactly its gains. */
  lemma MessageHeld(s: Stream, d: Data, p: Protocol, codec: Codec)
    requires Frame(s, d, p, codec).Ok?
    ensures Held(Frame(s, d, p, codec).value) == Plus(Held(s), GainsOf(d, p, codec))
  {
    if d.Event? {
      FrameIs(s, d.fields, p, codec);
      EventHeld(Counted(s), d.fields, p, codec);
    } else {
      PlusAssociates(Held(s), NOTHING, NOTHING);
    }
  }

  lemma {:induction false} StreamHeld(s: Stream, data: seq<Data>, p: Protocol, codec: Codec)
    requires Frames(s, data, p, codec).Ok?
    ensures Held(Frames(s, data, p, codec).value) == Plus(Held(s), AllGains(data, p, codec))
    decreases |data|
  {
    if data == [] {
      PlusAssociates(Held(s), NOTHING, NOTHING);
    } else {
      var t := Frame(s, data[0], p, codec).value;
      MessageHeld(s, data[0], p, codec);
      StreamHeld(t, data[1..], p, codec);
      PlusAssociates(Held(s), GainsOf(data[0], p, codec), AllGains(data[1..], p, codec));
    }
  }

  // Usage.

  /** The counts a message reports: input, then output. */
  function UsageIn(d: Data, p: Protocol): (int, int) {
    if !d.Event? then (0, 0) else
      var m := Object(d.fields);
      match p
      case Chat => Counts(Member(m, Usage), PromptTokens, CompletionTokens)
      case Gemini => Counts(Member(m, UsageMetadata), PromptTokenCount, CandidatesTokenCount)
      case Responses =>
        if TextIn(Member(m, Type)) == "response.completed"
        then Counts(Member(Member(m, Response), Usage), InputTokens, OutputTokens) else (0, 0)
      case Claude =>
        if TextIn(Member(m, Type)) == "message_start"
        then Counts(Member(Member(m, Message), Usage), InputTokens, OutputTokens)
        else if TextIn(Member(m, Type)) == "message_delta" then Counts(Member(m, Usage), InputTokens, OutputTokens)
        else (0, 0)
  }

  function Counts(v: Value, a: Name, b: Name): (int, int) { (CountIn(Member(v, a)), CountIn(Member(v, b))) }

  /** The last positive counts of the stream, from what was known before. */
  function LastUsage(data: seq<Data>, p: Protocol, was: (int, int)): (int, int) {
    if data == [] then was else
      var u := UsageIn(data[0], p);
      LastUsage(data[1..], p, (if u.0 > 0 then u.0 else was.0, if u.1 > 0 then u.1 else was.1))
  }

  predicate SameUsage(s: Stream, t: Stream) {
    t.input == s.input && t.output == s.output && t.completed == s.completed
  }

  predicate UsageTaken(s: Stream, t: Stream, u: (int, int)) {
    t.input == (if u.0 > 0 then u.0 else s.input) && t.output == if u.1 > 0 then u.1 else s.output
  }

  lemma {:induction false} ChoicesUsage(s: Stream, choices: seq<Value>)
    requires ChatChoices(s, choices).Ok?
    ensures SameUsage(s, ChatChoices(s, choices).value)
    decreases |choices|
  {
    if choices != [] { ChoicesUsage(ChatChoice(s, FieldsOf(choices[0])).value, choices[1..]); }
  }

  lemma {:induction false} PartsUsage(s: Stream, parts: seq<Value>, codec: Codec)
    ensures SameUsage(s, StreamChecker.GeminiParts(s, parts, codec))
    decreases |parts|
  {
    if parts != [] { PartsUsage(GeminiPart(s, FieldsOf(parts[0]), codec), parts[1..], codec); }
  }

  lemma {:induction false} CandidatesUsage(s: Stream, candidates: seq<Value>, codec: Codec)
    requires GeminiCandidates(s, candidates, codec).Ok?
    ensures SameUsage(s, GeminiCandidates(s, candidates, codec).value)
    decreases |candidates|
  {
    if candidates != [] {
      PartsUsage(s, ListIn(ObjectIn(FieldsOf(candidates[0]), Content), Parts), codec);
      CandidatesUsage(GeminiCandidate(s, FieldsOf(candidates[0]), codec).value, candidates[1..], codec);
    }
  }

  lemma CountsAre(v: Value, a: Name, b: Name)
    ensures Counts(v, a, b) == (NumberIn(FieldsOf(v), a), NumberIn(FieldsOf(v), b))
  {}

  function ClaudeUsageByType(t: EventType, m: Value): (int, int) {
    match t
    case MessageStart => Counts(Member(Member(m, Message), Usage), InputTokens, OutputTokens)
    case MessageDelta => Counts(Member(m, Usage), InputTokens, OutputTokens)
    case _ => (0, 0)
  }

  lemma ClaudeUsageIs(m: Fields)
    ensures UsageIn(Event(m), Claude) == ClaudeUsageByType(ClaudeTypeOf(StringIn(m, Type)), Object(m))
  {
    MembersAre(m, Type);
    ClaudeTypesAre(StringIn(m, Type));
  }

  lemma ClaudeTaken(s: Stream, m: Fields, t: EventType)
    requires ClaudeEvent(s, m, t).Ok?
    ensures UsageTaken(s, ClaudeEvent(s, m, t).value, ClaudeUsageByType(t, Object(m)))
    ensures ClaudeEvent(s, m, t).value.completed == s.completed
  {
    MembersAre(m, Message);
    MembersAre(m, Usage);
    FieldMember(Member(Object(m), Message), Usage);
    CountsAre(Member(Member(Object(m), Message), Usage), InputTokens, OutputTokens);
    CountsAre(Member(Object(m), Usage), InputTokens, OutputTokens);
  }

  function ResponsesUsageByType(t: EventType, m: Value): (int, int) {
    if t == Completed then Counts(Member(Member(m, Response), Usage), InputTokens, OutputTokens) else (0, 0)
  }

  lemma ResponsesUsageIs(m: Fields)
    ensures UsageIn(Event(m), Responses) == ResponsesUsageByType(TypeOf(StringIn(m, Type)), Object(m))
  {
    MembersAre(m, Type);
    TypesAre(StringIn(m, Type));
  }

  lemma ResponsesTaken(s: Stream, m: Fields, t: EventType)
    requires ResponsesEvent(s, m, t).Ok?
    ensures UsageTaken(s, ResponsesEvent(s, m, t).value, ResponsesUsageByType(t, Object(m)))
  {
    MembersAre(m, Response);
    FieldMember(Member(Object(m), Response), Usage);
    CountsAre(Member(Member(Object(m), Response), Usage), InputTokens, OutputTokens);
  }

  lemma ChatTaken(s: Stream, m: Fields)
    requires ChatFrame(s, m).Ok?
    ensures UsageTaken(s, ChatFrame(s, m).value, UsageIn(Event(m), Chat))
    ensures ChatFrame(s, m).value.completed == s.completed
  {
    ChoicesUsage(s, ListIn(m, Choices));
    MembersAre(m, Usage);
    CountsAre(Member(Object(m), Usage), PromptTokens, CompletionTokens);
  }

  lemma GeminiTaken(s: Stream, m: Fields, codec: Codec)
    requires GeminiFrame(s, m, codec).Ok?
    ensures UsageTaken(s, GeminiFrame(s, m, codec).value, UsageIn(Event(m), Gemini))
    ensures GeminiFrame(s, m, codec).value.completed == s.completed
  {
    CandidatesUsage(s, ListIn(m, Candidates), codec);
    MembersAre(m, UsageMetadata);
    CountsAre(Member(Object(m), UsageMetadata), PromptTokenCount, CandidatesTokenCount);
  }

  lemma EventUsage(s: Stream, m: Fields, p: Protocol, codec: Codec)
    requires EventFrame(s, m, p, codec).Ok?
    ensures UsageTaken(s, EventFrame(s, m, p, codec).value, UsageIn(Event(m), p))
    ensures p != Responses ==> EventFrame(s, m, p, codec).value.completed == s.completed
  {
    match p
    case Chat => ChatTaken(s, m);
    case Responses => ResponsesTaken(s, m, TypeOf(StringIn(m, Type))); ResponsesUsageIs(m);
    case Claude => ClaudeTaken(s, m, ClaudeTypeOf(StringIn(m, Type))); ClaudeUsageIs(m);
    case Gemini => GeminiTaken(s, m, codec);
  }

  lemma MessageUsage(s: Stream, d: Data, p: Protocol, codec: Codec)
    requires Frame(s, d, p, codec).Ok?
    ensures UsageTaken(s, Frame(s, d, p, codec).value, UsageIn(d, p))
    ensures p != Responses ==> Frame(s, d, p, codec).value.completed == s.completed
  {
    if d.Event? {
      FrameIs(s, d.fields, p, codec);
      EventUsage(Counted(s), d.fields, p, codec);
    }
  }

  lemma {:induction false} StreamUsage(s: Stream, data: seq<Data>, p: Protocol, codec: Codec)
    requires Frames(s, data, p, codec).Ok?
    ensures var t := Frames(s, data, p, codec).value; (t.input, t.output) == LastUsage(data, p, (s.input, s.output))
    ensures p != Responses ==> Frames(s, data, p, codec).value.completed == s.completed
    decreases |data|
  {
    if data != [] {
      MessageUsage(s, data[0], p, codec);
      StreamUsage(Frame(s, data[0], p, codec).value, data[1..], p, codec);
    }
  }

  // Finished text parts.

  /** What a message adds to one text part. */
  function PartDelta(d: Data, key: PartKey): string {
    if !d.Event? then "" else
      var m := Object(d.fields);
      if TextIn(Member(m, Type)) == "response.output_text.delta" && KeyOf(m) == key then TextIn(Member(m, Delta))
      else ""
  }

  function KeyOf(m: Value): PartKey {
    (TextIn(Member(m, ItemId)), CountIn(Member(m, OutputIndex)), CountIn(Member(m, ContentIndex)))
  }

  function PartDeltas(data: seq<Data>, key: PartKey): string {
    if data == [] then "" else PartDelta(data[0], key) + PartDeltas(data[1..], key)
  }

  /** A message that says what a finished part says. */
  predicate Finishes(d: Data, key: PartKey) {
    d.Event? && TextIn(Member(Object(d.fields), Type)) == "response.output_text.done" && KeyOf(Object(d.fields)) == key
  }

  lemma KeyIs(m: Fields)
    ensures PartKeyOf(m) == KeyOf(Object(m))
  {}

  predicate PartsTaken(s: Stream, t: Stream, key: PartKey, delta: string) {
    PartText(t.parts, key) == PartText(s.parts, key) + delta
  }

  /** What finished parts say is what they said, except for the finished key. */
  predicate FinishTaken(s: Stream, t: Stream, key: PartKey, finishes: bool, text: string) {
    if finishes then key in t.completed && t.completed[key] == text
    else (key in t.completed <==> key in s.completed) && (key in s.completed ==> t.completed[key] == s.completed[key])
  }

  lemma EventParts(s: Stream, m: Fields, key: PartKey, kind: EventType)
    requires ResponsesEvent(s, m, kind).Ok?
    ensures var t := ResponsesEvent(s, m, kind).value;
      && PartsTaken(s, t, key, if kind == TextDelta && PartKeyOf(m) == key then StringIn(m, Delta) else "")
      && FinishTaken(s, t, key, kind == TextDone && PartKeyOf(m) == key, StringIn(m, Text))
  {
    assert PartText(s.parts, key) + "" == PartText(s.parts, key);
  }

  lemma PartDeltaIs(m: Fields, key: PartKey)
    ensures PartDelta(Event(m), key) ==
      if TypeOf(StringIn(m, Type)) == TextDelta && PartKeyOf(m) == key then StringIn(m, Delta) else ""
    ensures Finishes(Event(m), key) <==> TypeOf(StringIn(m, Type)) == TextDone && PartKeyOf(m) == key
    ensures TextIn(Member(Object(m), Text)) == StringIn(m, Text)
  {
    KeyIs(m);
    MembersAre(m, Type);
    MembersAre(m, Delta);
    MembersAre(m, Text);
    TypesAre(StringIn(m, Type));
  }

  lemma FrameParts(s: Stream, m: Fields, key: PartKey)
    requires ResponsesFrame(s, m).Ok?
    ensures PartsTaken(s, ResponsesFrame(s, m).value, key, PartDelta(Event(m), key))
    ensures FinishTaken(s, ResponsesFrame(s, m).value, key, Finishes(Event(m), key), FinishText(Event(m)))
  {
    EventParts(s, m, key, TypeOf(StringIn(m, Type)));
    PartDeltaIs(m, key);
  }

  function FinishText(d: Data): string { if d.Event? then TextIn(Member(Object(d.fields), Text)) else "" }

  lemma MessageParts(s: Stream, d: Data, codec: Codec, key: PartKey)
    requires Frame(s, d, Responses, codec).Ok?
    ensures var t := Frame(s, d, Responses, codec).value;
      PartsTaken(s, t, key, PartDelta(d, key)) && FinishTaken(s, t, key, Finishes(d, key), FinishText(d))
  {
    if d.Event? {
      FrameIs(s, d.fields, Responses, codec);
      FrameParts(Counted(s), d.fields, key);
    } else {
      assert PartText(s.parts, key) + "" == PartText(s.parts, key);
    }
  }

  lemma {:induction false} StreamParts(s: Stream, data: seq<Data>, codec: Codec, key: PartKey)
    requires Frames(s, data, Responses, codec).Ok?
    ensures PartsTaken(s, Frames(s, data, Responses, codec).value, key, PartDeltas(data, key))
    decreases |data|
  {
    if data == [] {
      assert PartText(s.parts, key) + "" == PartText(s.parts, key);
    } else {
      var t := Frame(s, data[0], Responses, codec).value;
      MessageParts(s, data[0], codec, key);
      StreamParts(t, data[1..], codec, key);
      var u := Frames(t, data[1..], Responses, codec).value;
      PartsJoin(s, t, u, key, PartDelta(data[0], key), PartDeltas(data[1..], key));
    }
  }

  lemma PartsJoin(s: Stream, t: Stream, u: Stream, key: PartKey, x: string, y: string)
    requires PartsTaken(s, t, key, x) && PartsTaken(t, u, key, y)
    ensures PartsTaken(s, u, key, x + y)
  {
    assert PartText(s.parts, key) + x + y == PartText(s.parts, key) + (x + y);
  }

  /** The last message that says what a part says. */
  predicate LastSays(data: seq<Data>, key: PartKey, i: int) {
    0 <= i < |data| && Finishes(data[i], key) && forall j :: i < j < |data| ==> !Finishes(data[j], key)
  }

  ghost predicate Said(s: Stream, t: Stream, data: seq<Data>, key: PartKey, i: int) {
    if LastSays(data, key, i) then key in t.completed && t.completed[key] == FinishText(data[i]) else
      && (forall j :: 0 <= j < |data| ==> !Finishes(data[j], key))
      && FinishTaken(s, t, key, false, "")
  }

  /** Exactly the parts some message finished are complete, each as the last of them says. */
  lemma {:induction false} LastSaid(s: Stream, data: seq<Data>, codec: Codec, key: PartKey) returns (i: int)
    requires Frames(s, data, Responses, codec).Ok?
    ensures Said(s, Frames(s, data, Responses, codec).value, data, key, i)
    decreases |data|
  {
    i := -1;
    if data != [] {
      MessageParts(s, data[0], codec, key);
      var k := LastSaid(Frame(s, data[0], Responses, codec).value, data[1..], codec, key);
      if LastSays(data[1..], key, k) {
        i := k + 1;
      } else if Finishes(data[0], key) {
        i := 0;
      }
    }
  }

  /** What the last finish of a text part says is what that part's own deltas add up to. */
  ghost predicate PartsSayTheirDeltas(data: seq<Data>) {
    forall key, i | LastSays(data, key, i) :: FinishText(data[i]) == PartDeltas(data, key)
  }

  lemma OneLast(data: seq<Data>, key: PartKey, i: int, k: int)
    requires LastSays(data, key, i)
    requires LastSays(data, key, k) || forall j :: 0 <= j < |data| ==> !Finishes(data[j], key)
    ensures k == i
  {}

  lemma PartsAgreeExactly(data: seq<Data>, codec: Codec)
    requires Frames(START, data, Responses, codec).Ok?
    ensures PartsAgree(Frames(START, data, Responses, codec).value) <==> PartsSayTheirDeltas(data)
  {
    var t := Frames(START, data, Responses, codec).value;
    forall key ensures PartText(t.parts, key) == PartDeltas(data, key) {
      StreamParts(START, data, codec, key);
      assert "" + PartDeltas(data, key) == PartDeltas(data, key);
    }
    if PartsAgree(t) {
      forall key, i | LastSays(data, key, i) ensures FinishText(data[i]) == PartDeltas(data, key) {
        var k := LastSaid(START, data, codec, key);
        OneLast(data, key, i, k);
      }
    }
    if PartsSayTheirDeltas(data) {
      forall key | key in t.completed ensures t.completed[key] == PartText(t.parts, key) {
        var k := LastSaid(START, data, codec, key);
      }
    }
  }

  /** Both decode, and to the same arguments. */
  predicate SameArguments(a: string, b: string, codec: Codec) {
    codec.parse(a).Ok? && codec.parse(b).Ok?
    && codec.marshal(codec.parse(a).value) == codec.marshal(codec.parse(b).value)
  }

  /** What a stream must have added. */
  predicate Delivers(g: Gains, w: Workload, codec: Codec) {
    && g.text == w.text && g.thought == w.thought && g.terminal && g.done
    && (if w.tool == "" then g.tool == "" else SameArguments(g.tool, w.tool, codec))
  }

  /** A stream of any shape is accepted exactly when it has no refused message, its texts, thoughts and call arguments
      add up to what was expected, some message ends the answer and some the stream, its last positive counts are the
      expected ones and, for Responses, each finished part says what its deltas said. */
  lemma AcceptedExactly(data: seq<Data>, p: Protocol, w: Workload, codec: Codec)
    ensures Accepted(data, p, w, codec) <==>
      && (forall d :: d in data ==> !Refused(d, p))
      && Delivers(AllGains(data, p, codec), w, codec)
      && LastUsage(data, p, (0, 0)) == (w.input, w.output)
      && (p == Responses ==> PartsSayTheirDeltas(data))
  {
    FramesFail(START, data, p, codec);
    if Frames(START, data, p, codec).Ok? {
      var t, g := Frames(START, data, p, codec).value, AllGains(data, p, codec);
      StreamHeld(START, data, p, codec);
      StreamUsage(START, data, p, codec);
      assert Held(t) == g by { StartsEmpty(g); }
      if p == Responses { PartsAgreeExactly(data, codec); }
      FinishedIs(t, w, codec);
    }
  }

  lemma StartsEmpty(g: Gains)
    ensures Plus(Held(START), g) == g
  {
    assert "" + g.text == g.text && "" + g.thought == g.thought && "" + g.tool == g.tool;
  }

  lemma FinishedIs(t: Stream, w: Workload, codec: Codec)
    ensures Finished(t, w, codec) <==>
      Delivers(Held(t), w, codec) && (t.input, t.output) == (w.input, w.output) && PartsAgree(t)
  {}
}
