/** The rewrites of a Responses request's input items, each with the byte scan that lets it skip
    decoding. XML envelopes and JSON encoding are parameters. */
module ResponsesInput {
  import opened JsonText
  import opened MarkerScan
  import Text

  /** The rewrites that edit items one by one. */
  datatype Rewrite = Delegation | AgentMessages | StripMetadata | Compaction

  type Item = map<string, Value>

  function Fields(v: Value): Item {
    if v.Obj? then v.fields else map[]
  }

  /** The string at a name, if a string can be decoded from it; null decodes to "". */
  function RawString(item: Item, name: string): Option<string> {
    if name !in item then None
    else match item[name]
      case Str(s) => Some(s)
      case Null => Some("")
      case _ => None
  }

  function TextAt(item: Item, name: string): string {
    match RawString(item, name) case Some(s) => s case None => ""
  }

  function Without(item: Item, names: set<string>): Item { item - names }

  predicate IsCodexDelegation(item: Item, envelope: string -> bool) {
    && TextAt(item, "type") == "function_call_output"
    && TextAt(item, "namespace") in {"codex_app", "codex_tui"}
    && TextAt(item, "name") in {"create_thread", "send_message_to_thread"}
    && ("call_id" in item ==> RawString(item, "call_id").Some? && Text.TrimSpace(TextAt(item, "call_id")) == "")
    && RawString(item, "output").Some? && envelope(TextAt(item, "output"))
  }

  /** Encrypted content parts become plain input text. */
  function AgentPart(part: Value): Value {
    var p := Fields(part);
    if TextAt(p, "type") == "encrypted_content" && RawString(p, "encrypted_content").Some? then
      Obj(Without(p["type" := Str("input_text")]["text" := Str(TextAt(p, "encrypted_content"))], {"encrypted_content"}))
    else part
  }

  predicate AllObjects(items: seq<Value>) {
    forall i | 0 <= i < |items| :: items[i].Obj? || items[i].Null?
  }

  function AgentContent(content: Value): Value {
    if content.Arr? && AllObjects(content.items) then
      Arr(seq(|content.items|, i requires 0 <= i < |content.items| => AgentPart(content.items[i])))
    else content
  }

  function AgentMessage(item: Item): Item {
    var read := if "content" in item then item["content" := AgentContent(item["content"])] else item;
    Without(read["type" := Str("message")]["role" := Str("user")], {"author", "recipient", "phase"})
  }

  const METADATA: set<string> := {"author", "recipient", "phase"}

  /** One item and whether it was rewritten. */
  function RewriteItem(k: Rewrite, envelope: string -> bool, v: Value): (Value, bool) {
    if !v.Obj? then (v, false) else
      var item := v.fields;
      match k
      case Delegation =>
        if IsCodexDelegation(item, envelope) then
          (Obj(map["type" := Str("message"), "role" := Str("user"),
                   "content" := Arr([Obj(map["type" := Str("input_text"),
                                             "text" := Str(TextAt(item, "output"))])])]), true)
        else (v, false)
      case AgentMessages => if TextAt(item, "type") == "agent_message" then (Obj(AgentMessage(item)), true) else (v,
          false)
      case StripMetadata =>
        if TextAt(item, "type") == "message" && item.Keys * METADATA != {} then (Obj(Without(item, METADATA)), true)
        else (v, false)
      case Compaction => if "id" in item then (Obj(Without(item, {"id"})), true) else (v, false)
  }

  function RewriteItems(k: Rewrite, envelope: string -> bool, items: seq<Value>): (r: (seq<Value>, bool))
    ensures |r.0| == |items|
  {
    if items == [] then ([], false) else
      var head, tail := RewriteItem(k, envelope, items[0]), RewriteItems(k, envelope, items[1..]);
      ([head.0] + tail.0, head.1 || tail.1)
  }

  /** What a rewrite looks for: unless one of these is in the input, it changes nothing. */
  function Markers(k: Rewrite): seq<string> {
    match k
    case Delegation => ["function_call_output"]
    case AgentMessages => ["agent_message"]
    case StripMetadata => ["author", "recipient", "phase"]
    case Compaction => ["id"]
  }

  /** The items of a decoded input: null is an empty list. Except for compaction, every item has to
      be an object (or null). */
  function ItemsOf(k: Rewrite, v: Value): Option<seq<Value>> {
    if v.Null? then Some([])
    else if v.Arr? && (k.Compaction? || AllObjects(v.items)) then Some(v.items)
    else None
  }

  /** Decoding and rewriting, without any scan: the new items, if anything changed. */
  function Decoded(k: Rewrite, envelope: string -> bool, input: string): Option<seq<Value>> {
    match Parse(input)
    case None => None
    case Some(v) =>
      match ItemsOf(k, v)
      case None => None
      case Some(items) =>
        var r := RewriteItems(k, envelope, items);
        if r.1 then Some(r.0) else None
  }

  lemma PlainMarkers(k: Rewrite)
    ensures forall m :: m in Markers(k) ==> Plain(m)
  {}

  /** An item free of the markers is left alone. */
  lemma FreeItem(k: Rewrite, envelope: string -> bool, v: Value)
    requires forall m :: m in Markers(k) ==> Free(v, m)
    ensures RewriteItem(k, envelope, v) == (v, false)
  {
    if v.Obj? {
      assert Markers(k)[0] in Markers(k);
      if k.StripMetadata? {
        assert Markers(k)[1] in Markers(k) && Markers(k)[2] in Markers(k);
      }
      if "type" in v.fields { assert Free(v.fields["type"], Markers(k)[0]); }
    }
  }

  lemma {:induction false} FreeItems(k: Rewrite, envelope: string -> bool, items: seq<Value>)
    requires forall m :: m in Markers(k) ==> Free(Arr(items), m)
    ensures RewriteItems(k, envelope, items) == (items, false)
  {
    if items != [] {
      FreeItem(k, envelope, items[0]);
      forall m | m in Markers(k) ensures Free(Arr(items[1..]), m) { assert Free(Arr(items), m); }
      FreeItems(k, envelope, items[1..]);
      assert items == [items[0]] + items[1..];
    }
  }

  /** Skipping the decode is exact: on every input the scan clears, decoding changes nothing. */
  lemma FastPathIsExact(k: Rewrite, envelope: string -> bool, input: string)
    requires !MayContain(input, Markers(k))
    ensures Decoded(k, envelope, input) == None
  {
    PlainMarkers(k);
    if Parse(input).Some? {
      var v := Parse(input).value;
      forall m | m in Markers(k) ensures Free(v, m) { ScanIsExact(input, Markers(k), m); }
      if v.Arr? { FreeItems(k, envelope, v.items); }
    }
  }

  /** Rewriting twice changes nothing more. */
  lemma ItemOnce(k: Rewrite, envelope: string -> bool, v: Value)
    ensures RewriteItem(k, envelope, RewriteItem(k, envelope, v).0) == (RewriteItem(k, envelope, v).0, false)
  {
    assert |"message"| == 7 && |"function_call_output"| == 20 && |"agent_message"| == 13;
    assert |"type"| == 4 && |"role"| == 4 && "type"[0] != "role"[0] && |"content"| == 7;
  }

  lemma {:induction false} ItemsOnce(k: Rewrite, envelope: string -> bool, items: seq<Value>)
    ensures RewriteItems(k, envelope, RewriteItems(k, envelope, items).0) == (RewriteItems(k, envelope, items).0, false)
  {
    if items != [] {
      ItemOnce(k, envelope, items[0]);
      ItemsOnce(k, envelope, items[1..]);
      var l := RewriteItems(k, envelope, items).0;
      assert l[1..] == RewriteItems(k, envelope, items[1..]).0;
    }
  }

  // Lifting tool declarations out of the input.

  datatype Lift = Kept | Lifted(items: seq<Value>, tools: seq<Value>) | Error

  /** The declarations an input item carries, if it is an additional_tools item. */
  predicate CarriesTools(v: Value) { v.Obj? && TextAt(v.fields, "type") == "additional_tools" }

  /** Its tools, when they are an array (null is an empty one). */
  function CarriedTools(v: Value): Option<seq<Value>> {
    if "tools" !in Fields(v) then None
    else match Fields(v)["tools"]
      case Arr(items) => Some(items)
      case Null => Some([])
      case _ => None
  }

  /** Walks the items: those kept, the tools collected, and whether any item was lifted; None when a
      carrier's tools are no array. */
  function Collect(items: seq<Value>): Option<(seq<Value>, seq<Value>, bool)> {
    if items == [] then Some(([], [], false)) else
      var rest := Collect(items[1..]);
      if !CarriesTools(items[0]) then
        (match rest case None => None case Some(r) => Some(([items[0]] + r.0, r.1, r.2)))
      else
        match CarriedTools(items[0])
        case None => None
        case Some(tools) =>
          match rest case None => None case Some(r) => Some((r.0, tools + r.1, true))
  }

  predicate NoTools(tools: string) { tools == "" || tools == "null" }

  function ListOf(v: Value): Option<seq<Value>> {
    match v case Null => Some([]) case Arr(items) => Some(items) case _ => None
  }

  /** The declared tools: None when they do not decode to an array. */
  function DeclaredTools(tools: string): Option<seq<Value>> {
    if NoTools(tools) then Some([])
    else match Parse(tools) case None => None case Some(v) => ListOf(v)
  }

  /** Decoding and lifting, without any scan. */
  function LiftDecoded(input: string, tools: string): Lift {
    match Parse(input)
    case None => Kept
    case Some(v) =>
      match ListOf(v)
      case None => Kept
      case Some(items) =>
        match DeclaredTools(tools)
        case None => Error
        case Some(declared) =>
          match Collect(items)
          case None => Error
          case Some((kept, lifted, changed)) => if changed then Lifted(kept, declared + lifted) else Kept
  }

  lemma {:induction false} CollectFree(items: seq<Value>)
    requires Free(Arr(items), "additional_tools")
    ensures Collect(items) == Some((items, [], false))
  {
    if items != [] {
      assert Free(items[0], "additional_tools");
      if items[0].Obj? && "type" in items[0].fields { assert Free(items[0].fields["type"], "additional_tools"); }
      assert Free(Arr(items[1..]), "additional_tools");
      CollectFree(items[1..]);
      assert items == [items[0]] + items[1..];
    }
  }

  /** With no tools declared, skipping the decode is exact for the lift too. */
  lemma LiftFastPathIsExact(input: string, tools: string)
    requires NoTools(tools) && !MayContain(input, ["additional_tools"])
    ensures LiftDecoded(input, tools) == Kept
  {
    if Parse(input).Some? {
      assert ["additional_tools"][0] in ["additional_tools"];
      ScanIsExact(input, ["additional_tools"], "additional_tools");
      var v := Parse(input).value;
      if v.Arr? { CollectFree(v.items); }
    }
  }

  /** Lifting keeps every other item, in order, and moves every carried tool behind the declared ones. */
  lemma {:induction false} CollectSplits(items: seq<Value>)
    requires Collect(items).Some?
    ensures var (kept, lifted, changed) := Collect(items).value;
      && kept == Others(items)
      && lifted == AllCarried(items)
      && (changed <==> exists i :: 0 <= i < |items| && CarriesTools(items[i]))
      && Collect(kept) == Some((kept, [], false))
  {
    if items != [] {
      CollectSplits(items[1..]);
      assert forall i :: 0 <= i < |items| ==> items[i] == if i == 0 then items[0] else items[1..][i - 1];
      if !CarriesTools(items[0]) { assert ([items[0]] + Others(items[1..]))[1..] == Others(items[1..]); }
    }
  }

  function Others(items: seq<Value>): seq<Value> {
    if items == [] then [] else (if CarriesTools(items[0]) then [] else [items[0]]) + Others(items[1..])
  }

  function AllCarried(items: seq<Value>): seq<Value> {
    if items == [] then [] else
      (if CarriesTools(items[0]) && CarriedTools(items[0]).Some? then CarriedTools(items[0]).value else [])
      + AllCarried(items[1..])
  }

  /** A Responses request's raw fields. `marshal` stands for the JSON encoder and `envelope` for the
      XML check of a delegation's output. */
  class ResponsesRequest {
    var input: string
    var tools: string
    const marshal: seq<Value> -> string
    const envelope: string -> bool

    constructor (input: string, tools: string, marshal: seq<Value> -> string, envelope: string -> bool)
      ensures this.input == input && this.tools == tools && this.marshal == marshal && this.envelope == envelope
    {
      this.input, this.tools, this.marshal, this.envelope := input, tools, marshal, envelope;
    }

    /** The item rewrites: scan, decode, rewrite, encode. The outcome is what decoding alone gives. */
    method NormalizeItems(k: Rewrite) returns (changed: bool)
      modifies this`input
      ensures changed <==> Decoded(k, envelope, old(input)).Some?
      ensures input == if changed then marshal(Decoded(k, envelope, old(input)).value) else old(input)
    {
      if |input| == 0 {
        EmptyInput();
        return false;
      }
      if !MayContain(input, Markers(k)) {
        FastPathIsExact(k, envelope, input);
        return false;
      }
      var v := Parse(input);
      if v.None? {
        return false;
      }
      var decoded := ItemsOf(k, v.value);
      if decoded.None? {
        return false;
      }
      var items;
      items, changed := RewriteAll(k, envelope, decoded.value);
      if changed { input := marshal(items); }
    }

    /** Moves turn-scoped tool declarations from the input into the tools field. */
    method LiftCodexAdditionalTools() returns (ok: bool, changed: bool)
      modifies this
      ensures ok <==> LiftDecoded(old(input), old(tools)) != Error
      ensures changed <==> LiftDecoded(old(input), old(tools)).Lifted?
      ensures changed ==>
        && input == marshal(LiftDecoded(old(input), old(tools)).items)
        && tools == marshal(LiftDecoded(old(input), old(tools)).tools)
      ensures !changed ==> input == old(input) && tools == old(tools)
    {
      if |input| == 0 {
        EmptyInput();
        return true, false;
      }
      if NoTools(tools) && !MayContain(input, ["additional_tools"]) {
        LiftFastPathIsExact(input, tools);
        return true, false;
      }
      var v := Parse(input);
      if v.None? || ListOf(v.value).None? {
        return true, false;
      }
      var declared := DeclaredTools(tools);
      if declared.None? {
        return false, false;
      }
      var collected := CollectAll(ListOf(v.value).value, declared.value);
      if collected.None? {
        return false, false;
      }
      var (kept, all, lifted) := collected.value;
      if lifted { input, tools := marshal(kept), marshal(all); }
      return true, lifted;
    }
  }

  method RewriteAll(k: Rewrite, envelope: string -> bool, decoded: seq<Value>)
    returns (items: seq<Value>, changed: bool)
    ensures (items, changed) == RewriteItems(k, envelope, decoded)
  {
    items, changed := decoded, false;
    for index := 0 to |items|
      invariant |items| == |decoded|
      invariant items[index..] == decoded[index..]
      invariant (items[..index], changed) == RewriteItems(k, envelope, decoded[..index])
    {
      ghost var was := items;
      RewriteSnoc(k, envelope, decoded, index);
      var (item, itemChanged) := RewriteItem(k, envelope, items[index]);
      items := items[index := item];
      changed := changed || itemChanged;
      assert items[..index + 1] == was[..index] + [item];
      assert items[index + 1..] == was[index..][1..];
    }
    assert items[..|items|] == items && decoded[..|items|] == decoded;
  }

  method CollectAll(items: seq<Value>, declared: seq<Value>) returns (r: Option<(seq<Value>, seq<Value>, bool)>)
    ensures match Collect(items)
      case None => r.None?
      case Some((kept, lifted, changed)) => r == Some((kept, declared + lifted, changed))
  {
    var kept: seq<Value>, all, changed := [], declared, false;
    var index := 0;
    assert items[0..] == items;
    while index < |items|
      invariant index <= |items|
      invariant CollectedSoFar(items, index, declared, kept, all, changed)
      decreases |items| - index
    {
      CollectStep(items, index, declared, kept, all, changed);
      if !CarriesTools(items[index]) {
        kept := kept + [items[index]];
      } else {
        var additional := CarriedTools(items[index]);
        if additional.None? {
          return None;
        }
        all := all + additional.value;
        changed := true;
      }
      index := index + 1;
    }
    assert items[index..] == [] && Collect(items[index..]) == Some(([], [], false));
    assert kept + [] == kept && all + [] == all;
    return Some((kept, all, changed));
  }

  lemma EmptyInput()
    ensures Parse("") == None
  {}

  lemma {:induction false} RewriteAppend(k: Rewrite, envelope: string -> bool, a: seq<Value>, b: seq<Value>)
    ensures var (x, y) := (RewriteItems(k, envelope, a), RewriteItems(k, envelope, b));
      RewriteItems(k, envelope, a + b) == (x.0 + y.0, x.1 || y.1)
  {
    if a == [] {
      assert a + b == b && [] + RewriteItems(k, envelope, b).0 == RewriteItems(k, envelope, b).0;
    } else {
      assert (a + b)[0] == a[0] && (a + b)[1..] == a[1..] + b;
      RewriteAppend(k, envelope, a[1..], b);
      var head := [RewriteItem(k, envelope, a[0]).0];
      assert head + (RewriteItems(k, envelope, a[1..]).0 + RewriteItems(k, envelope, b).0) ==
        head + RewriteItems(k, envelope, a[1..]).0 + RewriteItems(k, envelope, b).0;
    }
  }

  lemma RewriteSnoc(k: Rewrite, envelope: string -> bool, items: seq<Value>, i: nat)
    requires i < |items|
    ensures var (before, one) := (RewriteItems(k, envelope, items[..i]), RewriteItem(k, envelope, items[i]));
      RewriteItems(k, envelope, items[..i + 1]) == (before.0 + [one.0], before.1 || one.1)
  {
    var single := [items[i]];
    assert items[..i + 1] == items[..i] + single;
    RewriteAppend(k, envelope, items[..i], single);
    assert single[0] == items[i] && single[1..] == [];
    assert RewriteItems(k, envelope, single[1..]) == ([], false);
    assert [RewriteItem(k, envelope, items[i]).0] + [] == [RewriteItem(k, envelope, items[i]).0];
  }

  /** What has been kept and collected from the first i items, plus what the rest will give. */
  ghost predicate CollectedSoFar(items: seq<Value>, i: nat, declared: seq<Value>, kept: seq<Value>, all: seq<Value>,
                                 changed: bool)
    requires i <= |items|
  {
    match (Collect(items), Collect(items[i..]))
    case (Some(whole), Some(rest)) =>
      whole.0 == kept + rest.0 && declared + whole.1 == all + rest.1 && whole.2 == (changed || rest.2)
    case (None, None) => true
    case _ => false
  }

  lemma CollectStep(items: seq<Value>, i: nat, declared: seq<Value>, kept: seq<Value>, all: seq<Value>, changed: bool)
    requires i < |items| && CollectedSoFar(items, i, declared, kept, all, changed)
    ensures !CarriesTools(items[i]) ==> CollectedSoFar(items, i + 1, declared, kept + [items[i]], all, changed)
    ensures CarriesTools(items[i]) && CarriedTools(items[i]).None? ==> Collect(items).None?
    ensures CarriesTools(items[i]) && CarriedTools(items[i]).Some? ==>
      CollectedSoFar(items, i + 1, declared, kept, all + CarriedTools(items[i]).value, true)
  {
    assert items[i..][0] == items[i] && items[i..][1..] == items[i + 1..];
  }
}
