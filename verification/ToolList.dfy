/** The tool-definition tree of a request: every function tool's parameter schema is normalized,
    in nested tool lists too. */
module ToolList {
  import opened Json
  import opened ToolSchema
  import Text

  predicate IsFunctionType(t: string) { Text.Lower(Text.TrimSpace(t)) == "function" }

  /** A parameter schema and whether it was rewritten. */
  function NormalizeParameters(value: Json): (Json, bool) {
    if value.Obj? && NeedsNormalization(value.fields) then (Obj(Normalized(value.fields)), true) else (value, false)
  }

  function NormalizeOwn(f: Fields): (Fields, bool) {
    if IsFunctionType(StringAt(f, "type")) && "parameters" in f && NormalizeParameters(f["parameters"]).1 then
      (f["parameters" := NormalizeParameters(f["parameters"]).0]["strict" := Bool(false)], true)
    else (f, false)
  }

  function NormalizeTool(tool: Json): (Json, bool)
    decreases tool
  {
    match tool
    case Obj(f) =>
      var own := NormalizeOwn(f);
      if "tools" in f && f["tools"].Arr? then
        var nested := NormalizeTools(f["tools"].items);
        (Obj(own.0["tools" := Arr(nested.0)]), own.1 || nested.1)
      else (Obj(own.0), own.1)
    case _ => (tool, false)
  }

  function NormalizeTools(tools: seq<Json>): (r: (seq<Json>, bool))
    ensures |r.0| == |tools|
    decreases tools
  {
    if tools == [] then ([], false) else
      var head, tail := NormalizeTool(tools[0]), NormalizeTools(tools[1..]);
      ([head.0] + tail.0, head.1 || tail.1)
  }

  lemma NormalizedIsPortable(f: Fields)
    ensures !NeedsNormalization(Normalized(f))
  {
    NormalizedType(f);
  }

  lemma OwnOnce(f: Fields)
    ensures NormalizeOwn(NormalizeOwn(f).0) == (NormalizeOwn(f).0, false)
    ensures NormalizeOwn(f).1 <==> NormalizeOwn(f).0 != f
  {
    var g := NormalizeOwn(f).0;
    assert |"type"| == 4 && |"parameters"| == 10 && |"strict"| == 6;
    if NormalizeOwn(f).1 {
      NormalizedIsPortable(f["parameters"].fields);
      assert g["parameters"] == Obj(Normalized(f["parameters"].fields));
      assert g["parameters"] != f["parameters"];
    }
  }

  lemma OwnKeepsTools(f: Fields)
    ensures var g := NormalizeOwn(f).0;
      ("tools" in g <==> "tools" in f) && ("tools" in f ==> g["tools"] == f["tools"])
  {
    assert |"tools"| == 5 && |"parameters"| == 10 && |"strict"| == 6;
  }

  lemma OwnIgnoresTools(f: Fields, t: Json)
    requires "tools" in f
    ensures NormalizeOwn(f["tools" := t]) == (NormalizeOwn(f).0["tools" := t], NormalizeOwn(f).1)
  {
    assert |"tools"| == 5 && |"parameters"| == 10 && |"strict"| == 6 && |"type"| == 4;
    assert "tools"[0] == 't';
    var g := f["tools" := t];
    assert StringAt(g, "type") == StringAt(f, "type");
    assert "parameters" in g <==> "parameters" in f;
    if NormalizeOwn(f).1 {
      var p := NormalizeParameters(f["parameters"]).0;
      assert g["parameters" := p]["strict" := Bool(false)] ==
        f["parameters" := p]["strict" := Bool(false)]["tools" := t];
    }
  }

  /** Rewriting a tool twice changes nothing more, and it reports a change exactly when there is one. */
  lemma {:induction false} ToolOnce(tool: Json)
    ensures NormalizeTool(NormalizeTool(tool).0) == (NormalizeTool(tool).0, false)
    ensures NormalizeTool(tool).1 <==> NormalizeTool(tool).0 != tool
    decreases tool
  {
    match tool
    case Obj(f) =>
      OwnOnce(f);
      OwnKeepsTools(f);
      if "tools" in f && f["tools"].Arr? {
        ToolsOnce(f["tools"].items);
        NestedOnce(f);
      }
    case _ =>
  }

  lemma NestedOnce(f: Fields)
    requires "tools" in f && f["tools"].Arr?
    requires var l := NormalizeTools(f["tools"].items);
      NormalizeTools(l.0) == (l.0, false) && (l.1 <==> l.0 != f["tools"].items)
    ensures NormalizeTool(NormalizeTool(Obj(f)).0) == (NormalizeTool(Obj(f)).0, false)
    ensures NormalizeTool(Obj(f)).1 <==> NormalizeTool(Obj(f)).0 != Obj(f)
  {
    var own, l := NormalizeOwn(f), NormalizeTools(f["tools"].items);
    var g := own.0["tools" := Arr(l.0)];
    OwnOnce(f);
    OwnKeepsTools(f);
    OwnIgnoresTools(own.0, Arr(l.0));
    assert g["tools" := Arr(l.0)] == g;
    if !own.1 && !l.1 { assert f["tools" := f["tools"]] == f; }
    if l.1 { assert g["tools"] != f["tools"]; }
    if own.1 { OwnMoves(f, Arr(l.0)); }
  }

  lemma OwnMoves(f: Fields, t: Json)
    requires NormalizeOwn(f).1
    ensures NormalizeOwn(f).0["tools" := t] != f
  {
    assert |"tools"| == 5 && |"parameters"| == 10 && |"strict"| == 6;
    NormalizedIsPortable(f["parameters"].fields);
    var g := NormalizeOwn(f).0["tools" := t];
    assert g["parameters"] != f["parameters"];
  }

  lemma {:induction false} ToolsOnce(tools: seq<Json>)
    ensures NormalizeTools(NormalizeTools(tools).0) == (NormalizeTools(tools).0, false)
    ensures NormalizeTools(tools).1 <==> NormalizeTools(tools).0 != tools
    decreases tools
  {
    if tools != [] {
      ToolOnce(tools[0]);
      ToolsOnce(tools[1..]);
      assert tools == [tools[0]] + tools[1..];
      var l := NormalizeTools(tools).0;
      assert l[0] == NormalizeTool(tools[0]).0 && l[1..] == NormalizeTools(tools[1..]).0;
    }
  }

  // The loops.

  function Only(f: Fields, names: set<string>): Fields { map n | n in f && n in names :: f[n] }

  method MergeProperties(properties: Fields, own: Fields) returns (r: Fields)
    ensures r == MergeBranch(properties, own)
  {
    r := properties;
    var todo := own.Keys;
    ghost var done: set<string> := {};
    while todo != {}
      invariant done + todo == own.Keys && done !! todo
      invariant r == MergeBranch(properties, Only(own, done))
      decreases todo
    {
      var name :| name in todo;
      ghost var before := r;
      r := r[name := MergePropertySchema(if name in r then r[name] else Null, own[name])];
      todo := todo - {name};
      done := done + {name};
    }
    assert Only(own, own.Keys) == own;
  }

  method MergeBranches(base: Fields, branches: seq<Fields>)
    returns (properties: Fields, common: set<string>, allDisallow: bool)
    requires branches != []
    ensures properties == MergedProperties(base, branches)
    ensures common == CommonRequired(branches)
    ensures allDisallow == AllTakenAsClosed(branches)
  {
    properties, common, allDisallow := base, {}, true;
    for i := 0 to |branches|
      invariant properties == MergedProperties(base, branches[..i])
      invariant i > 0 ==> common == CommonRequired(branches[..i])
      invariant allDisallow == AllTakenAsClosed(branches[..i])
    {
      MergedSnoc(base, branches, i);
      AllTakenSnoc(branches, i);
      properties := MergeProperties(properties, ObjectAt(branches[i], "properties"));
      var own := RequiredSet(branches[i]);
      common := if i == 0 then own else common * own;
      if !TakenAsClosed(branches[i]) { allDisallow := false; }
    }
    assert branches[..|branches|] == branches;
  }

  lemma MergedSnoc(base: Fields, branches: seq<Fields>, i: nat)
    requires i < |branches|
    ensures MergedProperties(base, branches[..i + 1]) ==
      MergeBranch(MergedProperties(base, branches[..i]), ObjectAt(branches[i], "properties"))
    ensures CommonRequired(branches[..i + 1]) ==
      if i == 0 then RequiredSet(branches[i]) else CommonRequired(branches[..i]) * RequiredSet(branches[i])
  {
    assert branches[..i + 1][..i] == branches[..i] && branches[..i + 1][i] == branches[i];
  }

  method NeedsRewriting(schema: Fields) returns (needs: bool)
    ensures needs == NeedsNormalization(schema)
  {
    needs := StringAt(schema, "type") != "object";
    for i := 0 to |FORBIDDEN|
      invariant needs <==> StringAt(schema, "type") != "object" || exists j | 0 <= j < i :: FORBIDDEN[j] in schema
    {
      if FORBIDDEN[i] in schema { needs := true; }
    }
  }

  method ShapeObject(kept: Fields, properties: Fields, required: set<string>) returns (fields: Fields)
    ensures fields == Shaped(kept, properties, required)
  {
    fields := kept["type" := Str("object")];
    if |properties| > 0 { fields := fields["properties" := Obj(properties)]; }
    if |required| > 0 { fields := fields["required" := Arr(Strings(SortNames(required)))]; }
  }

  /** The rewritten root, filled in step by step. */
  method BuildObjectSchema(schema: Fields) returns (fields: Fields)
    ensures fields == Normalized(schema)
  {
    var kept := Kept(schema);
    var properties := ObjectAt(schema, "properties");
    var branches := UnionObjectBranches(schema);
    var required := RequiredSet(schema);
    if |branches| > 0 {
      var common, allDisallow;
      properties, common, allDisallow := MergeBranches(properties, branches);
      required := required + common;
      if allDisallow { kept := kept["additionalProperties" := Bool(false)]; }
    }
    assert required == NormalizedRequired(schema);
    fields := ShapeObject(kept, properties, required);
  }

  method NormalizeFunctionParametersSchema(value: Json) returns (normalized: Json, changed: bool)
    ensures (normalized, changed) == NormalizeParameters(value)
  {
    if !value.Obj? {
      return value, false;
    }
    var needs := NeedsRewriting(value.fields);
    if !needs {
      return value, false;
    }
    var fields := BuildObjectSchema(value.fields);
    return Obj(fields), true;
  }

  lemma AllTakenSnoc(branches: seq<Fields>, i: nat)
    requires i < |branches|
    ensures AllTakenAsClosed(branches[..i + 1]) <==> AllTakenAsClosed(branches[..i]) && TakenAsClosed(branches[i])
  {
    assert forall j :: 0 <= j < i ==> branches[..i][j] == branches[..i + 1][j];
    assert branches[..i + 1][i] == branches[i];
  }

  /** A function tool's own schema. */
  method NormalizeOwnSchema(tool: Fields) returns (out: Fields, changed: bool)
    ensures (out, changed) == NormalizeOwn(tool)
  {
    out, changed := tool, false;
    if IsFunctionType(StringAt(tool, "type")) && "parameters" in tool {
      var normalized, schemaChanged := NormalizeFunctionParametersSchema(tool["parameters"]);
      if schemaChanged {
        out := out["parameters" := normalized];
        out := out["strict" := Bool(false)];
        changed := true;
      }
    }
  }

  method NormalizeToolItem(tool: Json) returns (out: Json, changed: bool)
    ensures (out, changed) == NormalizeTool(tool)
    decreases tool, 0
  {
    if !tool.Obj? {
      return tool, false;
    }
    var fields;
    fields, changed := NormalizeOwnSchema(tool.fields);
    OwnKeepsTools(tool.fields);
    if "tools" in fields && fields["tools"].Arr? {
      assert fields["tools"] == tool.fields["tools"];
      var nested, nestedChanged := NormalizeToolList(fields["tools"].items);
      fields := fields["tools" := Arr(nested)];
      if nestedChanged { changed := true; }
    }
    out := Obj(fields);
  }

  method NormalizeToolList(tools: seq<Json>) returns (out: seq<Json>, changed: bool)
    ensures (out, changed) == NormalizeTools(tools)
    decreases tools, 1
  {
    out, changed := tools, false;
    for i := 0 to |tools|
      invariant |out| == |tools|
      invariant out[i..] == tools[i..]
      invariant out[..i] == NormalizeTools(tools[..i]).0 && changed == NormalizeTools(tools[..i]).1
    {
      ghost var was := out;
      ToolsSnoc(tools, i);
      assert out[i] == out[i..][0] == tools[i];
      var item, itemChanged := NormalizeToolItem(out[i]);
      out := out[i := item];
      if itemChanged { changed := true; }
      assert out[..i + 1] == was[..i] + [item];
      assert out[i + 1..] == was[i..][1..];
    }
    assert out[..|tools|] == out && tools[..|tools|] == tools;
  }

  lemma {:induction false} ToolsAppend(a: seq<Json>, b: seq<Json>)
    ensures NormalizeTools(a + b) == (NormalizeTools(a).0 + NormalizeTools(b).0,
                                      NormalizeTools(a).1 || NormalizeTools(b).1)
  {
    if a == [] {
      assert a + b == b && [] + NormalizeTools(b).0 == NormalizeTools(b).0;
    } else {
      assert (a + b)[0] == a[0] && (a + b)[1..] == a[1..] + b;
      ToolsAppend(a[1..], b);
      var head := [NormalizeTool(a[0]).0];
      assert head + (NormalizeTools(a[1..]).0 + NormalizeTools(b).0) ==
        head + NormalizeTools(a[1..]).0 + NormalizeTools(b).0;
    }
  }

  lemma ToolsSnoc(tools: seq<Json>, i: nat)
    requires i < |tools|
    ensures NormalizeTools(tools[..i + 1]) ==
      (NormalizeTools(tools[..i]).0 + [NormalizeTool(tools[i]).0],
       NormalizeTools(tools[..i]).1 || NormalizeTool(tools[i]).1)
  {
    assert tools[..i + 1] == tools[..i] + [tools[i]];
    ToolsAppend(tools[..i], [tools[i]]);
    ToolsSingle(tools[i]);
  }

  lemma ToolsSingle(tool: Json)
    ensures NormalizeTools([tool]) == ([NormalizeTool(tool).0], NormalizeTool(tool).1)
  {
    var tools := [tool];
    assert tools[0] == tool && tools[1..] == [];
    assert NormalizeTools(tools[1..]) == ([], false);
    assert [NormalizeTool(tool).0] + [] == [NormalizeTool(tool).0];
  }

  /** A Responses request's tool definitions, as decoded JSON. */
  class ResponsesTools {
    var tools: Json

    constructor (tools: Json)
      ensures this.tools == tools
    {
      this.tools := tools;
    }

    /** Rewrites the tool tree in place. A null reads as an empty list; any other value that is no
        array is an error. */
    method NormalizeToolSchemas() returns (ok: bool, changed: bool)
      modifies this
      ensures ok == (old(tools).Arr? || old(tools).Null?)
      ensures !old(tools).Arr? ==> tools == old(tools) && !changed
      ensures old(tools).Arr? ==> tools == Arr(NormalizeTools(old(tools).items).0)
      ensures changed <==> tools != old(tools)
    {
      if tools.Null? {
        return true, false;
      }
      if !tools.Arr? {
        return false, false;
      }
      ToolsOnce(tools.items);
      var items, c := NormalizeToolList(tools.items);
      if c { tools := Arr(items); }
      return true, c;
    }
  }
}
