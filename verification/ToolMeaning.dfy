/** What rewriting a tool tree does to each tool: a function tool whose parameter schema is not portable gets the
    rewritten schema and is no longer strict, its nested tools likewise, and everything else stays. */
module ToolMeaning {
  import opened Json
  import opened ToolSchema
  import opened ToolList
  import Text

  /** The type reads "function", in any case and with any space around it. */
  ghost predicate ReadsFunction(t: string) {
    exists a: nat, b: nat :: Text.IsTrimmed(t, a, b) && b - a == 8 && Text.AtFolded(t, a, "function")
  }

  lemma FunctionTypeIs(t: string)
    ensures IsFunctionType(t) <==> ReadsFunction(t)
  {
    var a, b := Text.TrimIsSlice(t);
    var core := t[a..b];
    Text.LowerAt(core);
    assert forall i :: 0 <= i < b - a ==> core[i] == t[a + i];
    if IsFunctionType(t) {
      assert |core| == 8;
      assert forall j :: 0 <= j < 8 ==> Text.Lower(core)[j] == "function"[j];
      assert Text.AtFolded(t, a, "function");
    }
    if ReadsFunction(t) {
      var c: nat, d: nat :| Text.IsTrimmed(t, c, d) && d - c == 8 && Text.AtFolded(t, c, "function");
      OneTrim(t, a, b, c, d);
      assert Text.Lower(core) == "function";
    }
  }

  /** A text is trimmed in one way only, unless nothing is left. */
  lemma OneTrim(t: string, a: nat, b: nat, c: nat, d: nat)
    requires Text.IsTrimmed(t, a, b) && Text.IsTrimmed(t, c, d) && c < d
    ensures a == c && b == d
  {
    assert !Text.IsSpace(t[c]) && !Text.IsSpace(t[d - 1]);
    assert a <= c && d <= b;
    assert !Text.IsSpace(t[a]) && !Text.IsSpace(t[b - 1]);
  }

  /** A root that is no plain object schema: another type, or one of the six keywords. */
  predicate NotPortable(f: Fields) {
    || !("type" in f && f["type"] == Str("object"))
    || "oneOf" in f || "anyOf" in f || "allOf" in f || "enum" in f || "const" in f || "not" in f
  }

  lemma NotPortableIs(f: Fields)
    ensures NeedsNormalization(f) <==> NotPortable(f)
  {
    assert FORBIDDEN == ["oneOf", "anyOf", "allOf", "enum", "const", "not"];
    assert FORBIDDEN[0] in FORBIDDEN && FORBIDDEN[1] in FORBIDDEN && FORBIDDEN[2] in FORBIDDEN;
    assert FORBIDDEN[3] in FORBIDDEN && FORBIDDEN[4] in FORBIDDEN && FORBIDDEN[5] in FORBIDDEN;
    assert "object" != "";
  }

  /** A function tool whose parameter schema has to be rewritten. */
  ghost predicate Affected(f: Fields) {
    && "type" in f && f["type"].Str? && ReadsFunction(f["type"].s)
    && "parameters" in f && f["parameters"].Obj? && NotPortable(f["parameters"].fields)
  }

  /** Two tools agree on every member but these. */
  ghost predicate SameBut(f: Fields, g: Fields, names: set<string>) {
    forall n :: n !in names ==> (n in f <==> n in g) && (n in f ==> f[n] == g[n])
  }

  ghost predicate OwnMeans(f: Fields, g: Fields) {
    if Affected(f) then
      && "parameters" in g && g["parameters"] == Obj(Normalized(f["parameters"].fields))
      && "strict" in g && g["strict"] == Bool(false)
      && SameBut(f, g, {"parameters", "strict", "tools"})
    else SameBut(f, g, {"tools"})
  }

  /** The rewritten tool, its nested tools rewritten in place. */
  ghost predicate ToolMeans(tool: Json, out: Json)
    decreases tool
  {
    if !tool.Obj? then out == tool
    else
      && out.Obj? && OwnMeans(tool.fields, out.fields)
      && ("tools" in out.fields <==> "tools" in tool.fields)
      && ("tools" in tool.fields ==>
            if tool.fields["tools"].Arr? then
              && out.fields["tools"].Arr? && |out.fields["tools"].items| == |tool.fields["tools"].items|
              && forall i | 0 <= i < |tool.fields["tools"].items| ::
                   ToolMeans(tool.fields["tools"].items[i], out.fields["tools"].items[i])
            else out.fields["tools"] == tool.fields["tools"])
  }

  lemma NotAFunction(f: Fields)
    requires !("type" in f && f["type"].Str?)
    ensures !IsFunctionType(StringAt(f, "type"))
  {
    assert |Text.Lower(Text.TrimSpace(""))| == 0;
  }

  lemma OwnIs(f: Fields)
    ensures OwnMeans(f, NormalizeOwn(f).0)
    ensures NormalizeOwn(f).1 <==> Affected(f)
  {
    if "type" in f && f["type"].Str? { FunctionTypeIs(f["type"].s); } else { NotAFunction(f); }
    if "parameters" in f && f["parameters"].Obj? { NotPortableIs(f["parameters"].fields); }
    assert |"parameters"| == 10 && |"strict"| == 6 && |"tools"| == 5;
  }

  lemma SameWithTools(f: Fields, g: Fields, t: Json, names: set<string>)
    requires SameBut(f, g, names) && "tools" in names
    ensures SameBut(f, g["tools" := t], names)
  {}

  lemma OwnWithTools(f: Fields, g: Fields, t: Json)
    requires OwnMeans(f, g)
    ensures OwnMeans(f, g["tools" := t])
  {
    assert |"parameters"| == 10 && |"strict"| == 6 && |"tools"| == 5;
    SameWithTools(f, g, t, if Affected(f) then {"parameters", "strict", "tools"} else {"tools"});
  }

  lemma {:induction false} ToolIs(tool: Json)
    ensures ToolMeans(tool, NormalizeTool(tool).0)
    decreases tool, 0
  {
    match tool
    case Obj(f) =>
      OwnIs(f);
      OwnKeepsTools(f);
      if "tools" in f && f["tools"].Arr? {
        ToolsAre(f["tools"].items);
        OwnWithTools(f, NormalizeOwn(f).0, Arr(NormalizeTools(f["tools"].items).0));
      }
    case _ =>
  }

  /** For every tool list: each tool is rewritten in its place. */
  lemma {:induction false} ToolsAre(tools: seq<Json>)
    ensures var out := NormalizeTools(tools).0;
      |out| == |tools| && forall i | 0 <= i < |tools| :: ToolMeans(tools[i], out[i])
    decreases tools, 1
  {
    if tools != [] {
      ToolIs(tools[0]);
      ToolsAre(tools[1..]);
      var out := NormalizeTools(tools).0;
      var rest := NormalizeTools(tools[1..]).0;
      assert forall i :: 0 < i < |tools| ==> tools[i] == tools[1..][i - 1] && out[i] == rest[i - 1];
    }
  }

  /** Afterwards every function tool in the tree has a portable parameter schema. */
  ghost predicate AllPortable(tool: Json)
    decreases tool
  {
    tool.Obj? ==>
      && !Affected(tool.fields)
      && ("tools" in tool.fields && tool.fields["tools"].Arr? ==>
            forall t | t in tool.fields["tools"].items :: AllPortable(t))
  }

  lemma {:induction false} UnchangedIsPortable(tool: Json)
    requires NormalizeTool(tool) == (tool, false)
    ensures AllPortable(tool)
    decreases tool, 0
  {
    match tool
    case Obj(f) =>
      OwnIs(f);
      if "tools" in f && f["tools"].Arr? {
        assert NormalizeTools(f["tools"].items) == (f["tools"].items, false);
        UnchangedArePortable(f["tools"].items);
      }
    case _ =>
  }

  lemma {:induction false} UnchangedArePortable(tools: seq<Json>)
    requires NormalizeTools(tools) == (tools, false)
    ensures forall t | t in tools :: AllPortable(t)
    decreases tools, 1
  {
    if tools != [] {
      var head, tail := NormalizeTool(tools[0]), NormalizeTools(tools[1..]);
      assert tools[0] == ([head.0] + tail.0)[0] == head.0 && tools[1..] == ([head.0] + tail.0)[1..] == tail.0;
      UnchangedIsPortable(tools[0]);
      UnchangedArePortable(tools[1..]);
      assert forall t :: t in tools ==> t == tools[0] || t in tools[1..];
    }
  }

  lemma NormalizedIsAllPortable(tools: seq<Json>)
    ensures forall t | t in NormalizeTools(tools).0 :: AllPortable(t)
  {
    ToolsOnce(tools);
    UnchangedArePortable(NormalizeTools(tools).0);
  }
}
