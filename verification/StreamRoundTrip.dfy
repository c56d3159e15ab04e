/** Emitter and checker agree: a full stream is accepted, and nothing shorter or failed is. */
module StreamRoundTrip {
  import opened StreamEvents
  import opened StreamEmitter
  import opened StreamChecker

  lemma {:induction false} FramesAppend(s: Stream, a: seq<Data>, b: seq<Data>, p: Protocol, codec: Codec)
    ensures Frames(s, a + b, p, codec) ==
      match Frames(s, a, p, codec) case Err => Err case Ok(t) => Frames(t, b, p, codec)
    decreases |a|
  {
    if a == [] {
      assert a + b == b;
    } else {
      assert (a + b)[1..] == a[1..] + b;
      var first := Frame(s, a[0], p, codec);
      if first.Ok? { FramesAppend(first.value, a[1..], b, p, codec); }
    }
  }

  lemma {:induction false} AsDataAppend(a: seq<Fields>, b: seq<Fields>)
    ensures AsData(a + b) == AsData(a) + AsData(b)
  {
    if a == [] {
      assert a + b == b;
    } else {
      assert (a + b)[1..] == a[1..] + b;
      AsDataAppend(a[1..], b);
    }
  }

  /** Every type the emitter writes is read back as what it is, or as something the reader skips. */
  lemma ResponsesDeltaTypes()
    ensures TypeOf(Spelled(TextDelta)) == TextDelta && TypeOf(Spelled(SummaryDelta)) == SummaryDelta
    ensures TypeOf(Spelled(ArgumentsDelta)) == ArgumentsDelta && TypeOf(Spelled(TextDone)) == TextDone
    ensures TypeOf(Spelled(Completed)) == Completed
  {}

  predicate Skipped(t: EventType) {
    t in {Created, ItemAdded, PartAdded, SummaryPartAdded, PartDone,
          ItemDone, ArgumentsDone, SummaryDone, SummaryPartDone}
  }

  lemma SkippedStarts(t: EventType)
    requires t in {Created, ItemAdded, PartAdded}
    ensures TypeOf(Spelled(t)) == Created
  {}

  lemma SkippedEnds(t: EventType)
    requires t in {PartDone, ItemDone, ArgumentsDone}
    ensures TypeOf(Spelled(t)) == Created
  {}

  lemma SkippedSummaries(t: EventType)
    requires t in {SummaryPartAdded, SummaryDone, SummaryPartDone}
    ensures TypeOf(Spelled(t)) == Created
  {}

  lemma SkippedTypes(t: EventType)
    requires Skipped(t)
    ensures TypeOf(Spelled(t)) == Created
  {
    if t in {Created, ItemAdded, PartAdded} {
      SkippedStarts(t);
    } else if t in {PartDone, ItemDone, ArgumentsDone} {
      SkippedEnds(t);
    } else {
      SkippedSummaries(t);
    }
  }

  lemma ClaudeTypes(t: EventType)
    requires t in {MessageStart, BlockDelta, MessageDelta, MessageStop, BlockStart, BlockStop}
    ensures ClaudeTypeOf(Spelled(t)) == if t == BlockStop then BlockStart else t
  {}

  lemma Words()
    ensures STOP != "" && TOOL_CALLS != "" && END_TURN != "" && TOOL_USE != "" && GEMINI_STOP != ""
    ensures THINKING_DELTA != TEXT_DELTA && JSON_DELTA != TEXT_DELTA && JSON_DELTA != THINKING_DELTA
  {}

  lemma ChunkIsSomething(i: nat, extra: nat)
    ensures TextChunk(i, extra) != ""
  {}

  /** The tool arguments decode to `args`, and encoding loses nothing. */
  ghost predicate Decodes(codec: Codec, args: Value) {
    && codec.parse(TOOL_ARGUMENTS) == Ok(args)
    && codec.parse(codec.marshal(args)) == Ok(args)
  }

  function ToolAfter(c: Setup, n: nat, codec: Codec): string
    requires n <= c.frames
  {
    if c.sc != CallsTool || n == 0 then ""
    else if c.p == Gemini then codec.marshal(c.args)
    else Fragments(n, c.frames)
  }

  function PartsAfter(c: Setup, n: nat): map<PartKey, string> {
    if c.p == Responses && n > 0 then map[("msg_" + c.id, 0, 0) := TextOf(n, c.extra)] else map[]
  }

  /** What the reader knows after the opening and n frames. */
  ghost predicate Reached(c: Setup, n: nat, s: Stream, codec: Codec)
    requires n <= c.frames
  {
    && s.text == TextOf(n, c.extra) && s.thought == ThoughtOf(n, c.sc) && s.tool == ToolAfter(c, n, codec)
    && !s.terminal && !s.done && s.parts == PartsAfter(c, n) && s.completed == map[]
    && s.input == (if c.p == Claude then c.input else 0) && s.output == 0
  }

  lemma FramesOne(s: Stream, e: Fields, p: Protocol, codec: Codec)
    ensures Frames(s, AsData([e]), p, codec) == Frame(s, Event(e), p, codec)
  {
    assert AsData([e]) == [Event(e)];
    if Frame(s, Event(e), p, codec).Ok? {
      assert [Event(e)][1..] == [];
    }
  }

  /** One event after others. */
  lemma FramesMore(s: Stream, a: seq<Fields>, e: Fields, p: Protocol, codec: Codec)
    ensures Frames(s, AsData(a + [e]), p, codec)
         == match Frames(s, AsData(a), p, codec) case Err => Err case Ok(t) => Frame(t, Event(e), p, codec)
  {
    AsDataAppend(a, [e]);
    FramesAppend(s, AsData(a), AsData([e]), p, codec);
    if Frames(s, AsData(a), p, codec).Ok? { FramesOne(Frames(s, AsData(a), p, codec).value, e, p, codec); }
  }

  // Chat.

  function Ticked(s: Stream): Stream { s.(rawFrames := s.rawFrames + 1) }

  /** A chat message with one choice and no finish reason adds its texts. */
  lemma ChatMessage(s: Stream, m: Fields, choice: Fields, codec: Codec)
    requires !IsError(m) && ListIn(m, Choices) == [Object(choice)] && StringIn(choice, FinishReason) == ""
      && ObjectIn(m, Usage) == map[]
    ensures var d := ObjectIn(choice, Delta);
      Frame(s, Event(m), Chat, codec)
      == Ok(WithTool(WithThought(WithContent(Ticked(s), StringIn(d, Content)), StringIn(d, ReasoningContent)),
                     ToolTexts(ListIn(d, ToolCalls))))
  {
    var t := ChatChoice(Ticked(s), choice).value;
    assert ChatChoices(t, []) == Ok(t);
    assert [Object(choice)][1..] == [];
  }

  lemma ChatEventIs(id: string, model: string, d: Fields, finish: Value)
    ensures var m := ChatEvent(id, model, d, finish);
      var choice: Fields := map[Index := Number(0), Delta := Object(d), FinishReason := finish];
      && !IsError(m) && ListIn(m, Choices) == [Object(choice)] && ObjectIn(m, Usage) == map[]
      && ObjectIn(choice, Delta) == d && (finish == Null ==> StringIn(choice, FinishReason) == "")
  {}

  lemma ChatOpening(c: Setup)
    requires c.p == Chat
    ensures Opening(c) == AsData([ChatEvent(c.id, c.model, map[Role := Str("assistant")], Null)])
  {}

  /** Reading these messages from s ends, without error, where n frames should. */
  ghost predicate Leads(c: Setup, s: Stream, data: seq<Data>, n: nat, codec: Codec)
    requires n <= c.frames
  {
    Frames(s, data, c.p, codec).Ok? && Reached(c, n, Frames(s, data, c.p, codec).value, codec)
  }

  lemma ChatOpens(c: Setup, codec: Codec)
    requires c.p == Chat
    ensures Leads(c, START, Opening(c), 0, codec)
  {
    var d: Fields := map[Role := Str("assistant")];
    ChatOpening(c);
    ChatEventIs(c.id, c.model, d, Null);
    var m := ChatEvent(c.id, c.model, d, Null);
    ChatMessage(START, m, map[Index := Number(0), Delta := Object(d), FinishReason := Null], codec);
    FramesOne(START, m, Chat, codec);
  }

  lemma ToolTextsOne(call: Fields)
    ensures ToolTexts([Object(call)]) == StringIn(ObjectIn(call, Function), Arguments)
  {
    assert [Object(call)][1..] == [];
  }

  lemma ChatDeltaIs(i: nat, sc: Scenario, total: nat, extra: nat)
    requires i < total
    ensures var d := ChatDelta(i, sc, total, extra);
      && StringIn(d, Content) == TextChunk(i, extra)
      && StringIn(d, ReasoningContent) == (if sc == Thinks then ThoughtChunk(i) else "")
      && ToolTexts(ListIn(d, ToolCalls)) == (if sc == CallsTool then Fragment(i, total) else "")
  {
    if sc == CallsTool { ToolTextsOne(ToolCall(i, total)); }
  }

  /** One more frame's texts bring the reader one frame further. */
  lemma Advance(c: Setup, n: nat, s: Stream, t: Stream, codec: Codec)
    requires n < c.frames && Reached(c, n, s, codec)
    requires t.text == s.text + TextChunk(n, c.extra)
    requires t.thought == s.thought + if c.sc == Thinks then ThoughtChunk(n) else ""
    requires c.p != Gemini ==> t.tool == s.tool + if c.sc == CallsTool then Fragment(n, c.frames) else ""
    requires c.p == Gemini ==> t.tool == s.tool + if c.sc == CallsTool && n == 0 then codec.marshal(c.args) else ""
    requires t.terminal == s.terminal && t.done == s.done && t.completed == s.completed && t.input == s.input
      && t.output == s.output
    requires t.parts == PartsAfter(c, n + 1)
    ensures Reached(c, n + 1, t, codec)
  {
    assert s.tool + "" == s.tool && s.thought + "" == s.thought;
    assert "" + codec.marshal(c.args) == codec.marshal(c.args);
    if c.p != Gemini && c.sc == CallsTool { ToolGrows(c, n, codec); }
  }

  lemma ToolGrows(c: Setup, n: nat, codec: Codec)
    requires n < c.frames && c.p != Gemini && c.sc == CallsTool
    ensures ToolAfter(c, n + 1, codec) == ToolAfter(c, n, codec) + Fragment(n, c.frames)
  {
    assert Fragments(n + 1, c.frames) == Fragments(n, c.frames) + Fragment(n, c.frames);
  }

  lemma ChatSteps(c: Setup, n: nat, s: Stream, codec: Codec)
    requires c.p == Chat && n < c.frames && Reached(c, n, s, codec)
    ensures Leads(c, s, AsData(FrameEvents(c, n)), n + 1, codec)
  {
    var d := ChatDelta(n, c.sc, c.frames, c.extra);
    var m := ChatEvent(c.id, c.model, d, Null);
    assert FrameEvents(c, n) == [m];
    ChatEventIs(c.id, c.model, d, Null);
    ChatDeltaIs(n, c.sc, c.frames, c.extra);
    ChunkIsSomething(n, c.extra);
    ChatMessage(s, m, map[Index := Number(0), Delta := Object(d), FinishReason := Null], codec);
    FramesOne(s, m, Chat, codec);
    Advance(c, n, s, Frame(s, Event(m), Chat, codec).value, codec);
  }

  // Responses and Claude.

  predicate IsTyped(m: Fields, t: EventType) { !IsError(m) && StringIn(m, Type) == Spelled(t) }

  /** An event the Responses reader passes over. */
  predicate IsSkipped(m: Fields) { !IsError(m) && TypeOf(StringIn(m, Type)) == Created }

  lemma TypedSkipped(m: Fields, t: EventType)
    requires IsTyped(m, t) && Skipped(t)
    ensures IsSkipped(m)
  {
    SkippedTypes(t);
  }

  lemma ResponsesSkips(s: Stream, m: Fields, codec: Codec)
    requires IsSkipped(m)
    ensures Frame(s, Event(m), Responses, codec) == Ok(Ticked(s))
  {}

  lemma ResponsesText(s: Stream, m: Fields, codec: Codec)
    requires IsTyped(m, TextDelta)
    ensures var k, t := PartKeyOf(m), WithContent(Ticked(s), StringIn(m, Delta));
      Frame(s, Event(m), Responses, codec) == Ok(t.(parts := t.parts[k := PartText(t.parts, k) + StringIn(m, Delta)]))
  {
    ResponsesDeltaTypes();
  }

  lemma ResponsesThought(s: Stream, m: Fields, codec: Codec)
    requires IsTyped(m, SummaryDelta)
    ensures Frame(s, Event(m), Responses, codec) == Ok(WithThought(Ticked(s), StringIn(m, Delta)))
  {
    ResponsesDeltaTypes();
  }

  lemma ResponsesTool(s: Stream, m: Fields, codec: Codec)
    requires IsTyped(m, ArgumentsDelta)
    ensures Frame(s, Event(m), Responses, codec) == Ok(WithTool(Ticked(s), StringIn(m, Delta)))
  {
    ResponsesDeltaTypes();
  }

  lemma ResponsesTextDone(s: Stream, m: Fields, codec: Codec)
    requires IsTyped(m, TextDone)
    ensures Frame(s, Event(m), Responses, codec)
         == Ok(Ticked(s).(completed := s.completed[PartKeyOf(m) := StringIn(m, Text)]))
  {
    ResponsesDeltaTypes();
  }

  /** A run of events the Responses reader skips. */
  predicate AllSkipped(events: seq<Fields>) {
    events == [] || (IsSkipped(events[0]) && AllSkipped(events[1..]))
  }

  lemma {:induction false} SkipsAll(s: Stream, events: seq<Fields>, codec: Codec)
    requires AllSkipped(events)
    ensures Frames(s, AsData(events), Responses, codec) == Ok(s.(rawFrames := s.rawFrames + |events|))
    decreases |events|
  {
    if events != [] {
      ResponsesSkips(s, events[0], codec);
      SkipsAll(Ticked(s), events[1..], codec);
      assert AsData(events)[1..] == AsData(events[1..]);
    }
  }

  lemma ResponsesOpening(c: Setup)
    requires c.p == Responses
    ensures Opening(c) == AsData(Preamble(Responses, c.id, c.model, Wanted(c)))
      && AllSkipped(Preamble(Responses, c.id, c.model, Wanted(c)))
  {
    var events := Preamble(Responses, c.id, c.model, Wanted(c));
    TypedSkipped(events[0], Created);
    TypedSkipped(events[1], ItemAdded);
    TypedSkipped(events[2], PartAdded);
    AllSkippedThree(events);
  }

  lemma SkippedCons(event: Fields, rest: seq<Fields>)
    requires IsSkipped(event) && AllSkipped(rest)
    ensures AllSkipped([event] + rest)
  {
    assert ([event] + rest)[1..] == rest;
  }

  lemma AllSkippedThree(events: seq<Fields>)
    requires |events| == 3 && IsSkipped(events[0]) && IsSkipped(events[1]) && IsSkipped(events[2])
    ensures AllSkipped(events)
  {
    SkippedCons(events[2], []);
    SkippedCons(events[1], [events[2]]);
    SkippedCons(events[0], [events[1]] + [events[2]]);
    assert events == [events[0]] + ([events[1]] + [events[2]]);
  }

  lemma ResponsesOpens(c: Setup, codec: Codec)
    requires c.p == Responses
    ensures Leads(c, START, Opening(c), 0, codec)
  {
    ResponsesOpening(c);
    SkipsAll(START, Preamble(Responses, c.id, c.model, Wanted(c)), codec);
  }

  lemma StartsSkipped(id: string, i: nat, sc: Scenario)
    ensures AllSkipped(ResponsesStarts(id, i, sc))
  {
    var events := ResponsesStarts(id, i, sc);
    if i == 0 && sc == Thinks {
      TypedSkipped(events[0], ItemAdded);
      TypedSkipped(events[1], SummaryPartAdded);
      SkippedCons(events[1], []);
      SkippedCons(events[0], [events[1]]);
      assert events == [events[0]] + [events[1]];
    } else if i == 0 && sc == CallsTool {
      TypedSkipped(events[0], ItemAdded);
      SkippedCons(events[0], []);
      assert events == [events[0]];
    }
  }

  /** Equal but for the number of messages read. */
  predicate Alike(s: Stream, t: Stream) { t == s.(rawFrames := t.rawFrames) }

  /** A text delta, announcements that are skipped, and at most one more delta. */
  lemma ResponsesFrameIs(s: Stream, first: Fields, starts: seq<Fields>, codec: Codec)
    requires IsTyped(first, TextDelta) && AllSkipped(starts)
    ensures Frames(s, AsData([first] + starts), Responses, codec).Ok?
    ensures Alike(Frame(s, Event(first), Responses, codec).value,
                  Frames(s, AsData([first] + starts), Responses, codec).value)
  {
    AsDataAppend([first], starts);
    FramesAppend(s, AsData([first]), AsData(starts), Responses, codec);
    FramesOne(s, first, Responses, codec);
    ResponsesText(s, first, codec);
    SkipsAll(Frame(s, Event(first), Responses, codec).value, starts, codec);
  }

  lemma TextDeltaIs(id: string, text: string)
    ensures var m := TextDeltaEvent(id, text);
      IsTyped(m, TextDelta) && StringIn(m, Delta) == text && PartKeyOf(m) == ("msg_" + id, 0, 0)
  {}

  lemma SummaryIs(id: string, text: string)
    ensures var m := SummaryEvent(id, text); IsTyped(m, SummaryDelta) && StringIn(m, Delta) == text
  {}

  lemma ArgumentsIs(id: string, text: string)
    ensures var m := ArgumentsEvent(id, text); IsTyped(m, ArgumentsDelta) && StringIn(m, Delta) == text
  {}

  lemma PartsGrow(c: Setup, n: nat)
    requires c.p == Responses && n < c.frames
    ensures var k, parts := ("msg_" + c.id, 0, 0), PartsAfter(c, n);
      parts[k := PartText(parts, k) + TextChunk(n, c.extra)] == PartsAfter(c, n + 1)
  {}

  /** What a frame's extra event adds. */
  lemma ExtraAdds(c: Setup, n: nat, s: Stream, codec: Codec)
    requires c.p == Responses && n < c.frames
    ensures var r := Frames(s, AsData(ResponsesExtra(c.id, n, c.sc, c.frames)), Responses, codec);
      r.Ok? && Alike(WithTool(WithThought(s, if c.sc == Thinks then ThoughtChunk(n) else ""),
                              if c.sc == CallsTool then Fragment(n, c.frames) else ""), r.value)
  {
    match c.sc
    case PlainText =>
      assert s.thought + "" == s.thought && s.tool + "" == s.tool;
    case Thinks =>
      var m := SummaryEvent(c.id, ThoughtChunk(n));
      SummaryIs(c.id, ThoughtChunk(n));
      ResponsesThought(s, m, codec);
      FramesOne(s, m, Responses, codec);
      assert s.tool + "" == s.tool;
    case CallsTool =>
      var m := ArgumentsEvent(c.id, Fragment(n, c.frames));
      ArgumentsIs(c.id, Fragment(n, c.frames));
      ResponsesTool(s, m, codec);
      FramesOne(s, m, Responses, codec);
      assert s.thought + "" == s.thought;
  }

  lemma ResponsesSteps(c: Setup, n: nat, s: Stream, codec: Codec)
    requires c.p == Responses && n < c.frames && Reached(c, n, s, codec)
    ensures Leads(c, s, AsData(FrameEvents(c, n)), n + 1, codec)
  {
    var first := TextDeltaEvent(c.id, TextChunk(n, c.extra));
    var starts, more := ResponsesStarts(c.id, n, c.sc), ResponsesExtra(c.id, n, c.sc, c.frames);
    assert FrameEvents(c, n) == [first] + starts + more;
    AsDataAppend([first] + starts, more);
    FramesAppend(s, AsData([first] + starts), AsData(more), Responses, codec);
    TextDeltaIs(c.id, TextChunk(n, c.extra));
    StartsSkipped(c.id, n, c.sc);
    ResponsesFrameIs(s, first, starts, codec);
    ResponsesText(s, first, codec);
    ChunkIsSomething(n, c.extra);
    PartsGrow(c, n);
    var mid := Frames(s, AsData([first] + starts), Responses, codec).value;
    ExtraAdds(c, n, mid, codec);
    Advance(c, n, s, Frames(mid, AsData(more), Responses, codec).value, codec);
  }

  // Claude.

  predicate ClaudeSkipped(m: Fields) { !IsError(m) && ClaudeTypeOf(StringIn(m, Type)) == BlockStart }

  lemma ClaudeTypedSkipped(m: Fields, t: EventType)
    requires IsTyped(m, t) && t in {BlockStart, BlockStop}
    ensures ClaudeSkipped(m)
  {
    ClaudeTypes(t);
  }

  predicate AllClaudeSkipped(events: seq<Fields>) {
    events == [] || (ClaudeSkipped(events[0]) && AllClaudeSkipped(events[1..]))
  }

  lemma ClaudeSkips(s: Stream, m: Fields, codec: Codec)
    requires ClaudeSkipped(m)
    ensures Frame(s, Event(m), Claude, codec) == Ok(Ticked(s))
  {}

  lemma {:induction false} ClaudeSkipsAll(s: Stream, events: seq<Fields>, codec: Codec)
    requires AllClaudeSkipped(events)
    ensures Frames(s, AsData(events), Claude, codec) == Ok(s.(rawFrames := s.rawFrames + |events|))
    decreases |events|
  {
    if events != [] {
      ClaudeSkips(s, events[0], codec);
      ClaudeSkipsAll(Ticked(s), events[1..], codec);
      assert AsData(events)[1..] == AsData(events[1..]);
    }
  }

  lemma ClaudeSkippedOne(event: Fields)
    requires ClaudeSkipped(event)
    ensures AllClaudeSkipped([event])
  {
    assert [event][1..] == [];
  }

  lemma ClaudeStartsSkipped(i: nat, sc: Scenario)
    ensures AllClaudeSkipped(ClaudeStarts(i, sc))
  {
    var events := ClaudeStarts(i, sc);
    if events != [] {
      ClaudeTypedSkipped(events[0], BlockStart);
      ClaudeSkippedOne(events[0]);
      assert events == [events[0]];
    }
  }

  lemma ClaudeStarted(s: Stream, m: Fields, codec: Codec)
    requires IsTyped(m, MessageStart)
    ensures Frame(s, Event(m), Claude, codec)
         == Ok(WithUsage(Ticked(s), ObjectIn(ObjectIn(m, Message), Usage), InputTokens, OutputTokens))
  {
    ClaudeTypes(MessageStart);
  }

  lemma ClaudeDeltas(s: Stream, m: Fields, codec: Codec)
    requires IsTyped(m, BlockDelta)
    ensures Frame(s, Event(m), Claude, codec) == Ok(ClaudeDelta(Ticked(s), ObjectIn(m, Delta)))
  {
    ClaudeTypes(BlockDelta);
  }

  lemma ClaudeOpeningIs(c: Setup)
    requires c.p == Claude
    ensures exists first, second ::
      && Opening(c) == AsData([first] + [second]) && IsTyped(first, MessageStart) && ClaudeSkipped(second)
      && NumberIn(ObjectIn(ObjectIn(first, Message), Usage), InputTokens) == c.input
      && NumberIn(ObjectIn(ObjectIn(first, Message), Usage), OutputTokens) == 0
  {
    var events := Preamble(Claude, c.id, c.model, Wanted(c));
    assert events == [events[0]] + [events[1]];
    ClaudeTypedSkipped(events[1], BlockStart);
    assert IsTyped(events[0], MessageStart);
  }

  lemma ClaudeOpens(c: Setup, codec: Codec)
    requires c.p == Claude
    ensures Leads(c, START, Opening(c), 0, codec)
  {
    ClaudeOpeningIs(c);
    var first, second :|
      && Opening(c) == AsData([first] + [second]) && IsTyped(first, MessageStart) && ClaudeSkipped(second)
      && NumberIn(ObjectIn(ObjectIn(first, Message), Usage), InputTokens) == c.input
      && NumberIn(ObjectIn(ObjectIn(first, Message), Usage), OutputTokens) == 0;
    ClaudeStarted(START, first, codec);
    FramesOne(START, first, Claude, codec);
    FramesMore(START, [first], second, Claude, codec);
    ClaudeSkips(Frame(START, Event(first), Claude, codec).value, second, codec);
  }

  lemma ClaudeDeltaEventIs(index: int, d: Fields)
    ensures var m := ClaudeDeltaEvent(index, d); IsTyped(m, BlockDelta) && ObjectIn(m, Delta) == d
  {}

  lemma ClaudeTextAdds(s: Stream, text: string)
    ensures ClaudeDelta(s, ClaudeTextDelta(text)) == WithContent(s, text)
  {}

  lemma ClaudeExtraAdds(c: Setup, n: nat, s: Stream, codec: Codec)
    requires c.p == Claude && n < c.frames
    ensures var r := Frames(s, AsData(ClaudeExtra(n, c.sc, c.frames)), Claude, codec);
      r.Ok? && Alike(WithTool(WithThought(s, if c.sc == Thinks then ThoughtChunk(n) else ""),
                              if c.sc == CallsTool then Fragment(n, c.frames) else ""), r.value)
  {
    Words();
    match c.sc
    case PlainText =>
      assert s.thought + "" == s.thought && s.tool + "" == s.tool;
    case Thinks =>
      var d: Fields := map[Type := Str(THINKING_DELTA), Thinking := Str(ThoughtChunk(n))];
      ClaudeDeltaEventIs(1, d);
      ClaudeDeltas(s, ClaudeDeltaEvent(1, d), codec);
      FramesOne(s, ClaudeDeltaEvent(1, d), Claude, codec);
      assert s.tool + "" == s.tool;
    case CallsTool =>
      var d: Fields := map[Type := Str(JSON_DELTA), PartialJson := Str(Fragment(n, c.frames))];
      ClaudeDeltaEventIs(1, d);
      ClaudeDeltas(s, ClaudeDeltaEvent(1, d), codec);
      FramesOne(s, ClaudeDeltaEvent(1, d), Claude, codec);
      assert s.thought + "" == s.thought;
  }

  lemma ClaudeSteps(c: Setup, n: nat, s: Stream, codec: Codec)
    requires c.p == Claude && n < c.frames && Reached(c, n, s, codec)
    ensures Leads(c, s, AsData(FrameEvents(c, n)), n + 1, codec)
  {
    var text := TextChunk(n, c.extra);
    var first := ClaudeDeltaEvent(0, ClaudeTextDelta(text));
    var starts, more := ClaudeStarts(n, c.sc), ClaudeExtra(n, c.sc, c.frames);
    assert FrameEvents(c, n) == [first] + starts + more;
    AsDataAppend([first] + starts, more);
    FramesAppend(s, AsData([first] + starts), AsData(more), Claude, codec);
    AsDataAppend([first], starts);
    FramesAppend(s, AsData([first]), AsData(starts), Claude, codec);
    FramesOne(s, first, Claude, codec);
    ClaudeDeltaEventIs(0, ClaudeTextDelta(text));
    ClaudeDeltas(s, first, codec);
    ClaudeTextAdds(Ticked(s), text);
    ClaudeStartsSkipped(n, c.sc);
    ClaudeSkipsAll(Frame(s, Event(first), Claude, codec).value, starts, codec);
    ChunkIsSomething(n, c.extra);
    var mid := Frames(s, AsData([first] + starts), Claude, codec).value;
    ClaudeExtraAdds(c, n, mid, codec);
    Advance(c, n, s, Frames(mid, AsData(more), Claude, codec).value, codec);
  }

  // Gemini.

  lemma GeminiMessage(s: Stream, m: Fields, candidate: Fields, codec: Codec)
    requires !IsError(m) && ListIn(m, Candidates) == [Object(candidate)] && StringIn(candidate, GeminiFinish) == ""
    requires ObjectIn(m, UsageMetadata) == map[]
    ensures Frame(s, Event(m), Gemini, codec)
         == Ok(StreamChecker.GeminiParts(Ticked(s), ListIn(ObjectIn(candidate, Content), Parts), codec))
  {
    var t := GeminiCandidate(Ticked(s), candidate, codec).value;
    assert [Object(candidate)][1..] == [];
    assert GeminiCandidates(t, [], codec) == Ok(t);
  }

  lemma GeminiEventIs(id: string, parts: seq<Value>)
    ensures var m := GeminiEvent(id, parts);
      var candidate: Fields := map[Index := Number(0),
                                   Content := Object(map[Role := Str("model"), Parts := List(parts)])];
      && !IsError(m) && ListIn(m, Candidates) == [Object(candidate)] && ObjectIn(m, UsageMetadata) == map[]
      && ListIn(ObjectIn(candidate, Content), Parts) == parts && StringIn(candidate, GeminiFinish) == ""
  {}

  /** A part list read by a Gemini message without a finish reason. */
  lemma GeminiReads(s: Stream, id: string, parts: seq<Value>, codec: Codec)
    ensures Frames(s, AsData([GeminiEvent(id, parts)]), Gemini, codec) ==
      Ok(StreamChecker.GeminiParts(Ticked(s), parts, codec))
  {
    GeminiEventIs(id, parts);
    GeminiMessage(s, GeminiEvent(id, parts),
                  map[Index := Number(0), Content := Object(map[Role := Str("model"), Parts := List(parts)])], codec);
    FramesOne(s, GeminiEvent(id, parts), Gemini, codec);
  }

  lemma GeminiOpens(c: Setup, codec: Codec)
    requires c.p == Gemini
    ensures Leads(c, START, Opening(c), 0, codec)
  {
    assert Preamble(Gemini, c.id, c.model, Wanted(c)) == [GeminiEvent(c.id, [])];
    GeminiReads(START, c.id, [], codec);
  }

  lemma GeminiTextPart(s: Stream, text: string, codec: Codec)
    ensures GeminiPart(s, map[Text := Str(text)], codec) == WithContent(s, text)
    ensures GeminiPart(s, map[Text := Str(text), Thought := Bool(true)], codec) == WithThought(s, text)
  {}

  lemma GeminiCallPart(s: Stream, args: Value, codec: Codec)
    ensures GeminiPart(s, map[FunctionCall := Object(map[Title := Str("capture"), Args := args])], codec) ==
      WithTool(s, codec.marshal(args))
  {}

  lemma GeminiPartsOne(s: Stream, a: Fields, codec: Codec)
    ensures StreamChecker.GeminiParts(s, [Object(a)], codec) == GeminiPart(s, a, codec)
  {
    assert [Object(a)][1..] == [];
  }

  lemma GeminiPartsTwo(s: Stream, a: Fields, b: Fields, codec: Codec)
    ensures StreamChecker.GeminiParts(s, [Object(a)] + [Object(b)], codec) ==
      GeminiPart(GeminiPart(s, a, codec), b, codec)
  {
    assert ([Object(a)] + [Object(b)])[1..] == [Object(b)];
    GeminiPartsOne(GeminiPart(s, a, codec), b, codec);
  }

  lemma GeminiPartsAdd(c: Setup, n: nat, s: Stream, codec: Codec)
    requires n < c.frames
    ensures StreamChecker.GeminiParts(s, StreamEmitter.GeminiParts(n, c.sc, c.extra, c.args), codec)
         == WithTool(WithThought(WithContent(s, TextChunk(n, c.extra)), if c.sc == Thinks then ThoughtChunk(n) else ""),
                     if c.sc == CallsTool && n == 0 then codec.marshal(c.args) else "")
  {
    var text := TextChunk(n, c.extra);
    var a: Fields := map[Text := Str(text)];
    GeminiTextPart(s, text, codec);
    var t := WithContent(s, text);
    assert t.thought + "" == t.thought && t.tool + "" == t.tool;
    if c.sc == Thinks {
      GeminiTextPart(t, ThoughtChunk(n), codec);
      GeminiPartsTwo(s, a, map[Text := Str(ThoughtChunk(n)), Thought := Bool(true)], codec);
    } else if c.sc == CallsTool && n == 0 {
      GeminiCallPart(t, c.args, codec);
      GeminiPartsTwo(s, a, map[FunctionCall := Object(map[Title := Str("capture"), Args := c.args])], codec);
    } else {
      assert StreamEmitter.GeminiParts(n, c.sc, c.extra, c.args) == [Object(a)];
      GeminiPartsOne(s, a, codec);
    }
  }

  lemma GeminiSteps(c: Setup, n: nat, s: Stream, codec: Codec)
    requires c.p == Gemini && n < c.frames && Reached(c, n, s, codec)
    ensures Leads(c, s, AsData(FrameEvents(c, n)), n + 1, codec)
  {
    var parts := StreamEmitter.GeminiParts(n, c.sc, c.extra, c.args);
    assert FrameEvents(c, n) == [GeminiEvent(c.id, parts)];
    GeminiReads(s, c.id, parts, codec);
    GeminiPartsAdd(c, n, Ticked(s), codec);
    ChunkIsSomething(n, c.extra);
    Advance(c, n, s, StreamChecker.GeminiParts(Ticked(s), parts, codec), codec);
  }

  // The whole stream.

  lemma Opens(c: Setup, codec: Codec)
    ensures Leads(c, START, Opening(c), 0, codec)
  {
    match c.p
    case Chat => ChatOpens(c, codec);
    case Responses => ResponsesOpens(c, codec);
    case Claude => ClaudeOpens(c, codec);
    case Gemini => GeminiOpens(c, codec);
  }

  lemma Steps(c: Setup, n: nat, s: Stream, codec: Codec)
    requires n < c.frames && Reached(c, n, s, codec)
    ensures Leads(c, s, AsData(FrameEvents(c, n)), n + 1, codec)
  {
    match c.p
    case Chat => ChatSteps(c, n, s, codec);
    case Responses => ResponsesSteps(c, n, s, codec);
    case Claude => ClaudeSteps(c, n, s, codec);
    case Gemini => GeminiSteps(c, n, s, codec);
  }

  /** After the opening and n frames the reader has exactly their texts, and is not finished. */
  lemma {:induction false} SentIsReached(c: Setup, n: nat, codec: Codec)
    requires n <= c.frames
    ensures Leads(c, START, Sent(c, n), n, codec)
  {
    if n == 0 {
      Opens(c, codec);
    } else {
      SentIsReached(c, n - 1, codec);
      var s := Frames(START, Sent(c, n - 1), c.p, codec).value;
      Steps(c, n - 1, s, codec);
      FramesAppend(START, Sent(c, n - 1), AsData(FrameEvents(c, n - 1)), c.p, codec);
    }
  }

  /** All but the last message of the ending, and the last. */
  function Before(c: Setup): seq<Fields> {
    match c.p
    case Chat => [ChatFinish(c.id, c.model, c.sc, Wanted(c))]
    case Responses => ResponsesDone(c.id, c.sc, Wanted(c))
    case Claude => ClaudeStops(c.sc, Wanted(c))
    case Gemini => []
  }

  function Last(c: Setup): Data {
    match c.p
    case Chat => DoneMarker
    case Responses => Event(ResponsesCompleted(c.id, c.model, c.sc, Wanted(c)))
    case Claude => Event(MessageStopEvent())
    case Gemini => Event(GeminiEnd(c.id, c.model, Wanted(c)))
  }

  lemma EndingSplits(c: Setup)
    ensures Ending(c) == AsData(Before(c)) + [Last(c)]
  {
    match c.p
    case Chat =>
    case Responses => AsDataAppend(Before(c), [ResponsesCompleted(c.id, c.model, c.sc, Wanted(c))]);
    case Claude => AsDataAppend(Before(c), [MessageStopEvent()]);
    case Gemini =>
  }

  /** Everything has been read but the last message. */
  ghost predicate Almost(c: Setup, s: Stream, codec: Codec) {
    && s.text == TextOf(c.frames, c.extra) && s.thought == ThoughtOf(c.frames, c.sc) && s.tool == ToolAfter(c, c.frames,
        codec)
    && !s.done && PartsAgree(s)
    && (c.p == Chat || c.p == Claude ==> s.terminal && s.input == c.input && s.output == c.output)
    && (c.p == Responses || c.p == Gemini ==> s.input == 0 && s.output == 0)
  }

  ghost predicate Nears(c: Setup, s: Stream, codec: Codec) {
    && Frames(s, AsData(Before(c)), c.p, codec).Ok?
    && Almost(c, Frames(s, AsData(Before(c)), c.p, codec).value, codec)
  }

  lemma ChatFinishIs(c: Setup)
    ensures var m := ChatFinish(c.id, c.model, c.sc, Wanted(c));
      var choice: Fields := map[Index := Number(0), Delta := Object(map[]),
                                FinishReason := Str(if c.sc == CallsTool then TOOL_CALLS else STOP)];
      && !IsError(m) && ListIn(m, Choices) == [Object(choice)]
      && NumberIn(ObjectIn(m, Usage), PromptTokens) == c.input
      && NumberIn(ObjectIn(m, Usage), CompletionTokens) == c.output
  {}

  /** A chat message that finishes a choice without adding to it. */
  lemma ChatCloses(s: Stream, m: Fields, choice: Fields, codec: Codec)
    requires !IsError(m) && ListIn(m, Choices) == [Object(choice)] && ObjectIn(choice, Delta) == map[]
    requires StringIn(choice, FinishReason) == STOP || StringIn(choice, FinishReason) == TOOL_CALLS
    ensures Frame(s, Event(m), Chat, codec)
         == Ok(WithUsage(Ticked(s).(terminal := true), ObjectIn(m, Usage), PromptTokens, CompletionTokens))
  {
    Words();
    var t := Ticked(s);
    assert t.thought + "" == t.thought && t.tool + "" == t.tool;
    assert ToolTexts([]) == "";
    assert ChatChoice(t, choice) == Ok(t.(terminal := true));
    assert [Object(choice)][1..] == [];
    assert ChatChoices(t.(terminal := true), []) == Ok(t.(terminal := true));
  }

  lemma ChatNears(c: Setup, s: Stream, codec: Codec)
    requires c.p == Chat && Reached(c, c.frames, s, codec)
    ensures Nears(c, s, codec)
  {
    var m := ChatFinish(c.id, c.model, c.sc, Wanted(c));
    ChatFinishIs(c);
    ChatCloses(s, m,
      map[Index := Number(0), Delta := Object(map[]),
          FinishReason := Str(if c.sc == CallsTool then TOOL_CALLS else STOP)], codec);
    FramesOne(s, m, Chat, codec);
  }

  lemma DoneExtrasSkipped(id: string, sc: Scenario, w: Workload)
    ensures AllSkipped(DoneExtras(id, sc, w))
  {
    var events := DoneExtras(id, sc, w);
    if sc == CallsTool {
      TypedSkipped(events[0], ArgumentsDone);
      TypedSkipped(events[1], ItemDone);
      SkippedCons(events[1], []);
      SkippedCons(events[0], [events[1]]);
      assert events == [events[0]] + [events[1]];
    } else if sc == Thinks {
      TypedSkipped(events[0], SummaryDone);
      TypedSkipped(events[1], SummaryPartDone);
      TypedSkipped(events[2], ItemDone);
      AllSkippedThree(events);
    }
  }

  lemma DonePartsSkipped(id: string, w: Workload, rest: seq<Fields>)
    requires AllSkipped(rest)
    ensures AllSkipped([DonePart(id, w), DoneItem(0, MessageItem(id, w))] + rest)
  {
    TypedSkipped(DonePart(id, w), PartDone);
    TypedSkipped(DoneItem(0, MessageItem(id, w)), ItemDone);
    SkippedCons(DoneItem(0, MessageItem(id, w)), rest);
    SkippedCons(DonePart(id, w), [DoneItem(0, MessageItem(id, w))] + rest);
    assert [DonePart(id, w), DoneItem(0, MessageItem(id, w))] + rest ==
      [DonePart(id, w)] + ([DoneItem(0, MessageItem(id, w))] + rest);
  }

  lemma TextDoneIs(id: string, w: Workload)
    ensures var m := TextDoneEvent(id, w);
      IsTyped(m, TextDone) && StringIn(m, Text) == w.text && PartKeyOf(m) == ("msg_" + id, 0, 0)
  {}

  lemma ResponsesNears(c: Setup, s: Stream, codec: Codec)
    requires c.p == Responses && Reached(c, c.frames, s, codec)
    ensures Nears(c, s, codec)
  {
    var w := Wanted(c);
    var first := TextDoneEvent(c.id, w);
    var rest := [DonePart(c.id, w), DoneItem(0, MessageItem(c.id, w))] + DoneExtras(c.id, c.sc, w);
    DoneExtrasSkipped(c.id, c.sc, w);
    DonePartsSkipped(c.id, w, DoneExtras(c.id, c.sc, w));
    AsDataAppend([first], rest);
    FramesAppend(s, AsData([first]), AsData(rest), Responses, codec);
    TextDoneIs(c.id, w);
    ResponsesTextDone(s, first, codec);
    FramesOne(s, first, Responses, codec);
    SkipsAll(Frame(s, Event(first), Responses, codec).value, rest, codec);
  }

  lemma ClaudeStopsSkipped(sc: Scenario)
    ensures AllClaudeSkipped(ClaudeBlockStops(sc))
  {
    var events := ClaudeBlockStops(sc);
    ClaudeTypedSkipped(events[0], BlockStop);
    if sc != PlainText {
      ClaudeTypedSkipped(events[1], BlockStop);
      ClaudeSkippedOne(events[1]);
      assert events[1..] == [events[1]];
    } else {
      assert events[1..] == [];
    }
  }

  lemma ClaudeClosing(s: Stream, m: Fields, codec: Codec)
    requires IsTyped(m, MessageDelta)
    requires StringIn(ObjectIn(m, Delta), StopReason) == END_TURN
      || StringIn(ObjectIn(m, Delta), StopReason) == TOOL_USE
    ensures Frame(s, Event(m), Claude, codec)
         == Ok(WithUsage(Ticked(s).(terminal := true), ObjectIn(m, Usage), InputTokens, OutputTokens))
  {
    Words();
    ClaudeTypes(MessageDelta);
  }

  lemma ClaudeMessageDeltaIs(sc: Scenario, w: Workload)
    ensures var m := ClaudeMessageDelta(sc, w);
      && IsTyped(m, MessageDelta)
      && StringIn(ObjectIn(m, Delta), StopReason) == (if sc == CallsTool then TOOL_USE else END_TURN)
      && NumberIn(ObjectIn(m, Usage), InputTokens) == 0 && NumberIn(ObjectIn(m, Usage), OutputTokens) == w.output
  {}

  lemma ClaudeNears(c: Setup, s: Stream, codec: Codec)
    requires c.p == Claude && Reached(c, c.frames, s, codec)
    ensures Nears(c, s, codec)
  {
    var w := Wanted(c);
    var stops, m := ClaudeBlockStops(c.sc), ClaudeMessageDelta(c.sc, w);
    assert Before(c) == stops + [m];
    ClaudeStopsSkipped(c.sc);
    ClaudeSkipsAll(s, stops, codec);
    FramesMore(s, stops, m, Claude, codec);
    ClaudeMessageDeltaIs(c.sc, w);
    ClaudeClosing(Frames(s, AsData(stops), Claude, codec).value, m, codec);
  }

  lemma EndingNears(c: Setup, s: Stream, codec: Codec)
    requires Reached(c, c.frames, s, codec)
    ensures Nears(c, s, codec)
  {
    match c.p
    case Chat => ChatNears(c, s, codec);
    case Responses => ResponsesNears(c, s, codec);
    case Claude => ClaudeNears(c, s, codec);
    case Gemini => assert Frames(s, AsData([]), Gemini, codec) == Ok(s);
  }

  /** The tool arguments the reader put together decode to the ones that were sent. */
  lemma ToolIsWhole(c: Setup, s: Stream, codec: Codec)
    requires s.tool == ToolAfter(c, c.frames, codec)
    requires c.sc == CallsTool ==> c.frames > 0 && Decodes(codec, c.args)
    ensures ToolAgrees(s, Wanted(c), codec)
  {
    if c.sc == CallsTool {
      assert |TOOL_ARGUMENTS| > 0;
      if c.p != Gemini { FragmentsWhole(c.frames); }
    }
  }

  lemma CompletedIs(c: Setup)
    ensures var m := ResponsesCompleted(c.id, c.model, c.sc, Wanted(c));
      var u := ObjectIn(ObjectIn(m, Response), Usage);
      && IsTyped(m, Completed) && StringIn(ObjectIn(m, Response), Status) == COMPLETED
      && NumberIn(u, InputTokens) == c.input && NumberIn(u, OutputTokens) == c.output
  {}

  lemma ResponsesCompletes(s: Stream, m: Fields, codec: Codec)
    requires IsTyped(m, Completed) && StringIn(ObjectIn(m, Response), Status) == COMPLETED
    ensures Frame(s, Event(m), Responses, codec)
         == Ok(WithUsage(Ticked(s).(terminal := true, done := true), ObjectIn(ObjectIn(m, Response), Usage),
                         InputTokens, OutputTokens))
  {
    ResponsesDeltaTypes();
  }

  lemma ClaudeStopped(s: Stream, codec: Codec)
    ensures Frame(s, Event(MessageStopEvent()), Claude, codec) == Ok(Ticked(s).(done := true))
  {
    ClaudeTypes(MessageStop);
    assert IsTyped(MessageStopEvent(), MessageStop);
  }

  lemma GeminiEndIs(c: Setup)
    ensures var m := GeminiEnd(c.id, c.model, Wanted(c));
      var candidate: Fields := map[Index := Number(0),
                                   Content := Object(map[Role := Str("model"), Parts := EmptyList()]),
                                   GeminiFinish := Str(GEMINI_STOP)];
      && !IsError(m) && ListIn(m, Candidates) == [Object(candidate)]
      && ListIn(ObjectIn(candidate, Content), Parts) == [] && StringIn(candidate, GeminiFinish) == GEMINI_STOP
      && NumberIn(ObjectIn(m, UsageMetadata), PromptTokenCount) == c.input
      && NumberIn(ObjectIn(m, UsageMetadata), CandidatesTokenCount) == c.output
  {}

  lemma GeminiCloses(s: Stream, m: Fields, candidate: Fields, codec: Codec)
    requires !IsError(m) && ListIn(m, Candidates) == [Object(candidate)]
      && StringIn(candidate, GeminiFinish) == GEMINI_STOP
    requires ListIn(ObjectIn(candidate, Content), Parts) == []
    ensures Frame(s, Event(m), Gemini, codec)
         == Ok(WithUsage(Ticked(s).(terminal := true, done := true), ObjectIn(m, UsageMetadata), PromptTokenCount,
                         CandidatesTokenCount))
  {
    Words();
    var t := Ticked(s).(terminal := true, done := true);
    assert GeminiCandidate(Ticked(s), candidate, codec) == Ok(t);
    assert [Object(candidate)][1..] == [];
    assert GeminiCandidates(t, [], codec) == Ok(t);
  }

  /** The last message completes what came before it. */
  lemma LastFinishes(c: Setup, s: Stream, codec: Codec)
    requires Almost(c, s, codec)
    requires c.sc == CallsTool ==> c.frames > 0 && Decodes(codec, c.args)
    ensures Frame(s, Last(c), c.p, codec).Ok? && Finished(Frame(s, Last(c), c.p, codec).value, Wanted(c), codec)
  {
    ToolIsWhole(c, s, codec);
    match c.p
    case Chat =>
    case Responses =>
      CompletedIs(c);
      ResponsesCompletes(s, ResponsesCompleted(c.id, c.model, c.sc, Wanted(c)), codec);
    case Claude => ClaudeStopped(s, codec);
    case Gemini =>
      GeminiEndIs(c);
      GeminiCloses(s, GeminiEnd(c.id, c.model, Wanted(c)),
                   map[Index := Number(0), Content := Object(map[Role := Str("model"), Parts := EmptyList()]),
                       GeminiFinish := Str(GEMINI_STOP)], codec);
  }

  /** Everything up to the last message. */
  function AllButLast(c: Setup): seq<Data> { Sent(c, c.frames) + AsData(Before(c)) }

  lemma AllButLastIs(c: Setup, codec: Codec)
    ensures Emission(c) == AllButLast(c) + [Last(c)]
    ensures Frames(START, AllButLast(c), c.p, codec).Ok?
      && Almost(c, Frames(START, AllButLast(c), c.p, codec).value, codec)
  {
    EndingSplits(c);
    SentIsReached(c, c.frames, codec);
    EndingNears(c, Frames(START, Sent(c, c.frames), c.p, codec).value, codec);
    FramesAppend(START, Sent(c, c.frames), AsData(Before(c)), c.p, codec);
  }

  lemma FramesLast(s: Stream, data: seq<Data>, d: Data, p: Protocol, codec: Codec)
    ensures Frames(s, data + [d], p, codec) ==
      match Frames(s, data, p, codec) case Err => Err case Ok(t) => Frame(t, d, p, codec)
  {
    FramesAppend(s, data, [d], p, codec);
    if Frames(s, data, p, codec).Ok? {
      var t := Frames(s, data, p, codec).value;
      assert [d][1..] == [];
      if Frame(t, d, p, codec).Ok? {
        assert Frames(Frame(t, d, p, codec).value, [], p, codec) == Frame(t, d, p, codec);
      }
    }
  }

  /** For every protocol, scenario and number of frames, the full stream is accepted with exactly the
      text, thought, tool arguments and usage that were sent. */
  lemma FullStreamAccepted(c: Setup, codec: Codec)
    requires c.sc == CallsTool ==> c.frames > 0 && Decodes(codec, c.args)
    ensures Accepted(Emission(c), c.p, Wanted(c), codec)
  {
    AllButLastIs(c, codec);
    FramesLast(START, AllButLast(c), Last(c), c.p, codec);
    LastFinishes(c, Frames(START, AllButLast(c), c.p, codec).value, codec);
  }

  // Nothing less is accepted.

  lemma {:induction false} ChatKeepsDone(s: Stream, choices: seq<Value>)
    requires ChatChoices(s, choices).Ok?
    ensures s.done ==> ChatChoices(s, choices).value.done
    decreases |choices|
  {
    if choices != [] { ChatKeepsDone(ChatChoice(s, FieldsOf(choices[0])).value, choices[1..]); }
  }

  lemma {:induction false} GeminiPartsKeepDone(s: Stream, parts: seq<Value>, codec: Codec)
    ensures StreamChecker.GeminiParts(s, parts, codec).done == s.done
    decreases |parts|
  {
    if parts != [] { GeminiPartsKeepDone(GeminiPart(s, FieldsOf(parts[0]), codec), parts[1..], codec); }
  }

  lemma {:induction false} GeminiKeepsDone(s: Stream, candidates: seq<Value>, codec: Codec)
    requires GeminiCandidates(s, candidates, codec).Ok?
    ensures s.done ==> GeminiCandidates(s, candidates, codec).value.done
    decreases |candidates|
  {
    if candidates != [] {
      var c := FieldsOf(candidates[0]);
      GeminiPartsKeepDone(s, ListIn(ObjectIn(c, Content), Parts), codec);
      GeminiKeepsDone(GeminiCandidate(s, c, codec).value, candidates[1..], codec);
    }
  }

  /** Once a protocol is done it stays done. */
  lemma FrameKeepsDone(s: Stream, d: Data, p: Protocol, codec: Codec)
    requires s.done && Frame(s, d, p, codec).Ok?
    ensures Frame(s, d, p, codec).value.done
  {
    if d.Event? {
      match p
      case Chat => ChatKeepsDone(Ticked(s), ListIn(d.fields, Choices));
      case Responses =>
      case Claude =>
      case Gemini => GeminiKeepsDone(Ticked(s), ListIn(d.fields, Candidates), codec);
    }
  }

  lemma {:induction false} FramesKeepDone(s: Stream, data: seq<Data>, p: Protocol, codec: Codec)
    requires s.done && Frames(s, data, p, codec).Ok?
    ensures Frames(s, data, p, codec).value.done
    decreases |data|
  {
    if data != [] {
      FrameKeepsDone(s, data[0], p, codec);
      FramesKeepDone(Frame(s, data[0], p, codec).value, data[1..], p, codec);
    }
  }

  /** A proper prefix of a full stream is rejected, whatever the reader expects. */
  lemma ProperPrefixRejected(c: Setup, k: nat, w: Workload, codec: Codec)
    requires k < |Emission(c)|
    ensures !Accepted(Emission(c)[..k], c.p, w, codec)
  {
    AllButLastIs(c, codec);
    var all := AllButLast(c);
    var part, rest := all[..k], all[k..];
    assert Emission(c)[..k] == part && all == part + rest;
    FramesAppend(START, part, rest, c.p, codec);
    var s := Frames(START, part, c.p, codec).value;
    if s.done { FramesKeepDone(s, rest, c.p, codec); }
  }

  /** A stream that ends in the synthetic failure is rejected at once. */
  lemma FailureRejected(c: Setup, n: nat, w: Workload, codec: Codec)
    requires n <= c.frames
    ensures Frames(START, Sent(c, n) + [ErrorData()], c.p, codec).Err?
    ensures !Accepted(Sent(c, n) + [ErrorData()], c.p, w, codec)
  {
    SentIsReached(c, n, codec);
    FramesLast(START, Sent(c, n), ErrorData(), c.p, codec);
  }

  /** A stream cut off after some frames is rejected. */
  lemma TruncationRejected(c: Setup, n: nat, w: Workload, codec: Codec)
    requires n <= c.frames
    ensures !Accepted(Sent(c, n), c.p, w, codec)
  {
    SentIsReached(c, n, codec);
  }
}
