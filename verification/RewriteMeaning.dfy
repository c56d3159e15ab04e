/** What each rewrite of a Responses request's items does to the decoded items: which items it changes, what the
    new item says, and that everything else stays. */
module RewriteMeaning {
  import opened JsonText
  import opened ResponsesInput
  import Text

  /** A string can be decoded at the name: a string value, or a null, which decodes to nothing. */
  predicate Says(item: Item, name: string, text: string) {
    name in item && (item[name] == Str(text) || (item[name] == Null && text == ""))
  }

  /** The items agree on every member but these. */
  ghost predicate SameBut(a: Item, b: Item, names: set<string>) {
    forall n :: n !in names ==> (n in a <==> n in b) && (n in a ==> a[n] == b[n])
  }

  predicate Blank(text: string) { forall i | 0 <= i < |text| :: Text.IsSpace(text[i]) }

  lemma TrimmedAway(text: string)
    ensures Text.TrimSpace(text) == "" <==> Blank(text)
  {
    var a, b := Text.TrimIsSlice(text);
    if a < b { assert !Text.IsSpace(text[a]); }
  }

  lemma SaysIs(item: Item, name: string, text: string)
    ensures RawString(item, name) == Some(text) <==> Says(item, name, text)
    ensures TextAt(item, name) == text && text != "" ==> Says(item, name, text)
    ensures Says(item, name, text) ==> TextAt(item, name) == text
  {}

  // Delegations.

  /** A function call's output from the Codex app or TUI, for creating or messaging a thread, that answers no
      call and whose output is a delegation envelope. */
  ghost predicate IsDelegation(item: Item, envelope: string -> bool) {
    && Says(item, "type", "function_call_output")
    && (Says(item, "namespace", "codex_app") || Says(item, "namespace", "codex_tui"))
    && (Says(item, "name", "create_thread") || Says(item, "name", "send_message_to_thread"))
    && ("call_id" in item ==> exists id :: Says(item, "call_id", id) && Blank(id))
    && (exists output :: Says(item, "output", output) && envelope(output))
  }

  lemma DelegationIs(item: Item, envelope: string -> bool)
    ensures IsCodexDelegation(item, envelope) <==> IsDelegation(item, envelope)
  {
    SaysIs(item, "type", "function_call_output");
    SaysIs(item, "namespace", "codex_app");
    SaysIs(item, "namespace", "codex_tui");
    SaysIs(item, "name", "create_thread");
    SaysIs(item, "name", "send_message_to_thread");
    forall id { SaysIs(item, "call_id", id); }
    forall id { TrimmedAway(id); }
    forall output { SaysIs(item, "output", output); }
    if IsCodexDelegation(item, envelope) {
      assert Says(item, "output", TextAt(item, "output"));
      if "call_id" in item { assert Says(item, "call_id", TextAt(item, "call_id")); }
    }
  }

  /** A user message with one part of input text. */
  predicate IsUserMessage(v: Value, text: string) {
    && v.Obj? && v.fields.Keys == {"type", "role", "content"}
    && v.fields["type"] == Str("message") && v.fields["role"] == Str("user")
    && v.fields["content"].Arr? && |v.fields["content"].items| == 1
    && IsInputText(v.fields["content"].items[0], text)
  }

  predicate IsInputText(v: Value, text: string) {
    && v.Obj? && v.fields.Keys == {"type", "text"}
    && v.fields["type"] == Str("input_text") && v.fields["text"] == Str(text)
  }

  /** A delegation becomes a user message that says its output; every other item stays. */
  lemma DelegationMeaning(envelope: string -> bool, v: Value)
    ensures var (w, changed) := RewriteItem(Delegation, envelope, v);
      && (changed <==> v.Obj? && IsDelegation(v.fields, envelope))
      && (!changed ==> w == v)
      && (changed ==> forall output :: Says(v.fields, "output", output) ==> IsUserMessage(w, output))
  {
    if v.Obj? {
      DelegationIs(v.fields, envelope);
      forall output { SaysIs(v.fields, "output", output); }
      if RewriteItem(Delegation, envelope, v).1 { MessageIs(TextAt(v.fields, "output")); }
    }
  }

  lemma MessageIs(text: string)
    ensures var part := Obj(map["type" := Str("input_text"), "text" := Str(text)]);
      IsUserMessage(Obj(map["type" := Str("message"), "role" := Str("user"), "content" := Arr([part])]), text)
  {
    assert |"type"| == 4 && |"role"| == 4 && |"text"| == 4 && |"content"| == 7;
    assert "type"[0] == 't' && "role"[0] == 'r' && "type"[1] == 'y' && "text"[1] == 'e';
  }

  // Agent messages.

  ghost predicate IsEncrypted(p: Value) {
    && p.Obj? && Says(p.fields, "type", "encrypted_content")
    && exists text :: Says(p.fields, "encrypted_content", text)
  }

  /** An encrypted part becomes input text that says what it held; its other members and all other parts stay. */
  ghost predicate PartMeans(p: Value, q: Value) {
    if IsEncrypted(p) then
      && q.Obj? && "type" in q.fields && q.fields["type"] == Str("input_text")
      && "text" in q.fields
      && (forall text :: Says(p.fields, "encrypted_content", text) ==> q.fields["text"] == Str(text))
      && "encrypted_content" !in q.fields
      && SameBut(p.fields, q.fields, {"type", "text", "encrypted_content"})
    else q == p
  }

  lemma PartIs(p: Value)
    ensures PartMeans(p, AgentPart(p))
  {
    if p.Obj? {
      SaysIs(p.fields, "type", "encrypted_content");
      forall text { SaysIs(p.fields, "encrypted_content", text); }
      if RawString(p.fields, "encrypted_content").Some? {
        assert Says(p.fields, "encrypted_content", RawString(p.fields, "encrypted_content").value);
      }
      assert |"type"| == 4 && |"text"| == 4 && |"encrypted_content"| == 17 && "type"[1] == 'y' && "text"[1] == 'e';
    }
  }

  /** A list of objects is rewritten part by part; anything else stays. */
  ghost predicate ContentMeans(c: Value, d: Value) {
    if c.Arr? && AllObjects(c.items) then
      d.Arr? && |d.items| == |c.items| && forall i :: 0 <= i < |c.items| ==> PartMeans(c.items[i], d.items[i])
    else d == c
  }

  lemma ContentIs(c: Value)
    ensures ContentMeans(c, AgentContent(c))
  {
    if c.Arr? { forall i | 0 <= i < |c.items| { PartIs(c.items[i]); } }
  }

  /** The message an agent message becomes: a user message with its content, without routing members, and with
      every other member it had. */
  ghost predicate AgentMeans(item: Item, message: Item) {
    && "type" in message && message["type"] == Str("message")
    && "role" in message && message["role"] == Str("user")
    && "author" !in message && "recipient" !in message && "phase" !in message
    && ("content" in message <==> "content" in item)
    && ("content" in item ==> ContentMeans(item["content"], message["content"]))
    && SameBut(item, message, {"type", "role", "author", "recipient", "phase", "content"})
  }

  lemma AgentIs(item: Item)
    ensures AgentMeans(item, AgentMessage(item))
  {
    NamesDiffer();
    if "content" in item { ContentIs(item["content"]); }
  }

  lemma NamesDiffer()
    ensures "type" != "role" && "type" != "content" && "role" != "content"
    ensures {"type", "role", "content"} !! {"author", "recipient", "phase"}
  {
    assert |"type"| == 4 && |"role"| == 4 && |"content"| == 7;
    assert |"author"| == 6 && |"recipient"| == 9 && |"phase"| == 5;
    assert "type"[0] == 't' && "role"[0] == 'r';
  }

  lemma AgentMeaning(envelope: string -> bool, v: Value)
    ensures var (w, changed) := RewriteItem(AgentMessages, envelope, v);
      && (changed <==> v.Obj? && Says(v.fields, "type", "agent_message"))
      && (!changed ==> w == v)
      && (changed ==> w.Obj? && AgentMeans(v.fields, w.fields))
  {
    if v.Obj? {
      SaysIs(v.fields, "type", "agent_message");
      AgentIs(v.fields);
    }
  }

  // Metadata and ids.

  /** The named members are gone and nothing else changed. */
  ghost predicate Removed(a: Item, b: Item, names: set<string>) {
    (forall n :: n in names ==> n !in b) && SameBut(a, b, names)
  }

  predicate HasMetadata(item: Item) { "author" in item || "recipient" in item || "phase" in item }

  lemma StripMeaning(envelope: string -> bool, v: Value)
    ensures var (w, changed) := RewriteItem(StripMetadata, envelope, v);
      && (changed <==> v.Obj? && Says(v.fields, "type", "message") && HasMetadata(v.fields))
      && (!changed ==> w == v)
      && (changed ==> w.Obj? && Removed(v.fields, w.fields, {"author", "recipient", "phase"}))
  {
    if v.Obj? {
      SaysIs(v.fields, "type", "message");
      MetadataIs(v.fields);
    }
  }

  lemma MetadataIs(item: Item)
    ensures item.Keys * METADATA != {} <==> HasMetadata(item)
    ensures METADATA == {"author", "recipient", "phase"}
  {
    assert "author" in item.Keys * METADATA <==> "author" in item;
    assert "recipient" in item.Keys * METADATA <==> "recipient" in item;
    assert "phase" in item.Keys * METADATA <==> "phase" in item;
  }

  lemma CompactionMeaning(envelope: string -> bool, v: Value)
    ensures var (w, changed) := RewriteItem(Compaction, envelope, v);
      && (changed <==> v.Obj? && "id" in v.fields)
      && (!changed ==> w == v)
      && (changed ==> w.Obj? && Removed(v.fields, w.fields, {"id"}))
  {}

  // Whole inputs.

  lemma {:induction false} ItemwiseRewritten(k: Rewrite, envelope: string -> bool, items: seq<Value>)
    ensures var r := RewriteItems(k, envelope, items);
      && |r.0| == |items|
      && (forall i :: 0 <= i < |items| ==> r.0[i] == RewriteItem(k, envelope, items[i]).0)
      && (r.1 <==> exists i :: 0 <= i < |items| && RewriteItem(k, envelope, items[i]).1)
  {
    if items != [] {
      ItemwiseRewritten(k, envelope, items[1..]);
      var r := RewriteItems(k, envelope, items);
      var rest := RewriteItems(k, envelope, items[1..]).0;
      assert forall i :: 0 < i < |items| ==> items[i] == items[1..][i - 1] && r.0[i] == rest[i - 1];
    }
  }

  /** An input is rewritten exactly when it decodes to a list, of objects unless it is compacted, with an item the
      rewrite changes; the new list has each item rewritten, in place. */
  lemma DecodedMeaning(k: Rewrite, envelope: string -> bool, input: string)
    ensures Decoded(k, envelope, input).Some? <==>
      exists items: seq<Value> ::
        && Parse(input) == Some(Arr(items)) && (k != Compaction ==> forall v :: v in items ==> v.Obj? || v == Null)
        && exists v :: v in items && RewriteItem(k, envelope, v).1
    ensures Decoded(k, envelope, input).Some? ==>
      && Parse(input).Some? && Parse(input).value.Arr?
      && var items := Parse(input).value.items;
         && |Decoded(k, envelope, input).value| == |items|
         && forall i :: 0 <= i < |items| ==>
              Decoded(k, envelope, input).value[i] == RewriteItem(k, envelope, items[i]).0
  {
    if Parse(input).Some? && Parse(input).value.Arr? {
      var items := Parse(input).value.items;
      ItemwiseRewritten(k, envelope, items);
    }
  }

  // Lifting.

  lemma CarrierMeaning(v: Value)
    ensures CarriesTools(v) <==> v.Obj? && Says(v.fields, "type", "additional_tools")
    ensures CarriesTools(v) ==>
      (CarriedTools(v).Some? <==> "tools" in v.fields && (v.fields["tools"].Arr? || v.fields["tools"] == Null))
    ensures CarriesTools(v) && CarriedTools(v).Some? ==>
      CarriedTools(v).value == if v.fields["tools"].Arr? then v.fields["tools"].items else []
  {
    if v.Obj? { SaysIs(v.fields, "type", "additional_tools"); }
  }
}
