/** The events of the four streaming protocols: JSON values whose member names are enumerated, and the
    texts a benchmark run is made of. */
module StreamEvents {
  import opened Division

  /** Member names: the protocols' own apart from case, except that `name` is Title, `object` is ObjectKind and
      `finishReason` is GeminiFinish, beside `finish_reason`, which is FinishReason. */
  datatype Name =
    | Id | ObjectKind | Model | Choices | Index | Delta | Role | Content | ReasoningContent
    | ToolCalls | Function | Arguments
    | Title | FinishReason | Usage | PromptTokens | CompletionTokens | TotalTokens
    | Type | Response | Status | Output | OutputIndex | Item | ItemId | ContentIndex
    | Part | Text | Annotations | CallId
    | Summary | SummaryIndex | InputTokens | OutputTokens | Error | Message
    | StopReason | StopSequence | ContentBlock | Thinking | PartialJson | Input
    | ResponseId | Candidates | Parts | Thought | FunctionCall | Args | GeminiFinish | UsageMetadata | PromptTokenCount
    | CandidatesTokenCount | TotalTokenCount | ModelVersion
    | Other(name: string)

  datatype Value =
    | Null
    | Bool(b: bool)
    | Number(n: int)
    | Str(s: string)
    | List(items: seq<Value>)
    | Object(fields: map<Name, Value>)

  type Fields = map<Name, Value>

  datatype Protocol = Chat | Responses | Claude | Gemini

  datatype Scenario = PlainText | Thinks | CallsTool

  /** One message of a stream as the reader sees it. */
  datatype Data = DoneMarker | Event(fields: Fields) | Malformed

  /** What a run is expected to deliver. */
  datatype Workload = Workload(text: string, thought: string, tool: string, input: nat, output: nat)

  function ObjectIn(m: Fields, k: Name): Fields { if k in m && m[k].Object? then m[k].fields else map[] }

  function StringIn(m: Fields, k: Name): string { if k in m && m[k].Str? then m[k].s else "" }

  function NumberIn(m: Fields, k: Name): int { if k in m && m[k].Number? then m[k].n else 0 }

  function ListIn(m: Fields, k: Name): seq<Value> { if k in m && m[k].List? then m[k].items else [] }

  function FieldsOf(v: Value): Fields { if v.Object? then v.fields else map[] }

  // Chunks.

  function Digits(n: nat): string {
    var digit := ["0123456789"[n % 10]];
    if n < 10 then digit else Digits(n / 10) + digit
  }

  function Padded(n: nat): string {
    if n < 10 then "00" + Digits(n) else if n < 100 then "0" + Digits(n) else Digits(n)
  }

  function Repeated(s: string, count: nat): (r: string)
    ensures |r| == |s| * count
  {
    if count == 0 then "" else s + Repeated(s, count - 1)
  }

  function TextChunk(i: nat, extra: nat): string {
    " segment-" + Padded(i) + " \U{5408}\U{6D41}\U{1F30A}" + Repeated(" light ", (extra + 6) / 7)[..extra]
  }

  function ThoughtChunk(i: nat): string { " reason-" + Padded(i) }

  const TOOL_ARGUMENTS: string := "{\"value\":\"synthetic-tool-value-\U{6D41}\U{5F0F}\"}"

  function TextOf(frames: nat, extra: nat): string {
    if frames == 0 then "" else TextOf(frames - 1, extra) + TextChunk(frames - 1, extra)
  }

  function ThoughtOf(frames: nat, sc: Scenario): string {
    if frames == 0 || sc != Thinks then "" else ThoughtOf(frames - 1, sc) + ThoughtChunk(frames - 1)
  }

  /** Where the i-th of `total` fragments of a text of some length starts. */
  function Cut(len: nat, i: nat, total: nat): nat
    requires total > 0
  {
    len * i / total
  }

  lemma CutsOrdered(len: nat, i: nat, total: nat)
    requires i < total
    ensures Cut(len, i, total) <= Cut(len, i + 1, total) <= len
  {
    assert len * (i + 1) == len * i + len;
    QuotientMonotone(len * i, len * (i + 1), total);
    assert len * (i + 1) <= len * total by { MulMonotone(i + 1, total, len); }
    assert (len * total) / total <= len by { AtMost(len * total, len, total); }
    QuotientMonotone(len * (i + 1), len * total, total);
  }

  lemma MulMonotone(a: nat, b: nat, k: nat)
    requires a <= b
    ensures k * a <= k * b
  {}

  lemma QuotientMonotone(x: nat, y: nat, d: nat)
    requires d > 0 && x <= y
    ensures x / d <= y / d
  {
    assert x / d * d <= x;
    AtLeast(y, x / d, d);
  }

  lemma CutEnds(len: nat, total: nat)
    requires total > 0
    ensures Cut(len, 0, total) == 0 && Cut(len, total, total) == len
  {
    AtMost(len * total, len, total);
    AtLeast(len * total, len, total);
  }

  /** The i-th fragment of the tool arguments. */
  function Fragment(i: nat, total: nat): string
    requires i < total
  {
    CutsOrdered(|TOOL_ARGUMENTS|, i, total);
    TOOL_ARGUMENTS[Cut(|TOOL_ARGUMENTS|, i, total)..Cut(|TOOL_ARGUMENTS|, i + 1, total)]
  }

  function Fragments(count: nat, total: nat): string
    requires count <= total
  {
    if count == 0 then "" else Fragments(count - 1, total) + Fragment(count - 1, total)
  }

  /** The fragments, however many, concatenate to the whole. */
  lemma {:induction false} FragmentsAre(count: nat, total: nat)
    requires count <= total && total > 0
    ensures Cut(|TOOL_ARGUMENTS|, count, total) <= |TOOL_ARGUMENTS|
    ensures Fragments(count, total) == TOOL_ARGUMENTS[..Cut(|TOOL_ARGUMENTS|, count, total)]
  {
    if count == 0 {
      CutEnds(|TOOL_ARGUMENTS|, total);
    } else {
      FragmentsAre(count - 1, total);
      CutsOrdered(|TOOL_ARGUMENTS|, count - 1, total);
    }
  }

  lemma FragmentsWhole(total: nat)
    requires total > 0
    ensures Fragments(total, total) == TOOL_ARGUMENTS
  {
    FragmentsAre(total, total);
    CutEnds(|TOOL_ARGUMENTS|, total);
  }

  /** What the checker is told to expect. */
  function Expected(sc: Scenario, frames: nat, extra: nat, input: nat, output: nat): Workload {
    Workload(TextOf(frames, extra), ThoughtOf(frames, sc), if sc == CallsTool then TOOL_ARGUMENTS else "", input,
             output)
  }
}
