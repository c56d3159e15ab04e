/** Portable function-parameter schemas: a top-level JSON Schema union is rewritten to one object
    schema. Acceptance follows JSON Schema Core (draft 2020-12) sections 10.2.1 and 10.3.2 and
    JSON Schema Validation (draft 2020-12) section 6.5.3. */
module ToolSchema {
  import opened Json
  import opened Text

  type Fields = map<string, Json>

  /** What is left to the validator: the keywords not modelled here, as predicates of their own
      value and the instance, and the regular expressions of patternProperties. */
  datatype Semantics = Semantics(keyword: (string, Json, Json) -> bool, matches: (string, string) -> bool)

  const MODELLED: set<string> := {"type", "enum", "const", "not", "allOf", "anyOf", "oneOf",
    "required", "properties", "patternProperties", "additionalProperties"}

  const FORBIDDEN: seq<string> := ["oneOf", "anyOf", "allOf", "enum", "const", "not"]

  function TypeName(v: Json): string {
    match v
    case Null => "null"
    case Bool(_) => "boolean"
    case Number(_) => "number"
    case Str(_) => "string"
    case Arr(_) => "array"
    case Obj(_) => "object"
  }

  /** A type name allows the values of its type, and "integer" the numbers without a fraction. */
  predicate NameAllows(name: string, v: Json) {
    name == TypeName(v) || (name == "integer" && v.Number? && v.n.Floor as real == v.n)
  }

  predicate TypeAllows(t: Json, v: Json) {
    match t
    case Str(name) => NameAllows(name, v)
    case Arr(names) => exists i | 0 <= i < |names| :: names[i].Str? && NameAllows(names[i].s, v)
    case _ => true
  }

  /** The names a required list holds. */
  function Names(fields: seq<Json>): set<string> {
    set i | 0 <= i < |fields| && fields[i].Str? :: fields[i].s
  }

  /** Whether a schema accepts a value. A value that is no schema accepts nothing, and a keyword
      whose value has the wrong shape constrains nothing. */
  ghost predicate Accepts(sem: Semantics, schema: Json, v: Json)
    decreases schema
  {
    match schema
    case Bool(b) => b
    case Obj(f) =>
      && ("type" in f ==> TypeAllows(f["type"], v))
      && ("enum" in f && f["enum"].Arr? ==> v in f["enum"].items)
      && ("const" in f ==> v == f["const"])
      && ("not" in f ==> !Accepts(sem, f["not"], v))
      && ("allOf" in f && f["allOf"].Arr? ==> forall b | b in f["allOf"].items :: Accepts(sem, b, v))
      && ("anyOf" in f && f["anyOf"].Arr? ==> exists b | b in f["anyOf"].items :: Accepts(sem, b, v))
      && ("oneOf" in f && f["oneOf"].Arr? ==>
            exists i | 0 <= i < |f["oneOf"].items| :: Accepts(sem, f["oneOf"].items[i], v) &&
              forall j | 0 <= j < |f["oneOf"].items| :: j != i ==> !Accepts(sem, f["oneOf"].items[j], v))
      && (v.Obj? ==>
            && (forall n | n in Names(ListAt(f, "required")) :: n in v.fields)
            && (forall n | n in v.fields :: n in ObjectAt(f, "properties") ==>
                Accepts(sem, ObjectAt(f, "properties")[n], v.fields[n]))
            && (forall n, p | n in v.fields && p in ObjectAt(f, "patternProperties") ::
                  sem.matches(p, n) ==> Accepts(sem, ObjectAt(f, "patternProperties")[p], v.fields[n]))
            && ("additionalProperties" in f ==>
                  forall n | n in v.fields ::
                    n !in ObjectAt(f, "properties") && !Patterned(sem, f, n) ==>
                      Accepts(sem, f["additionalProperties"], v.fields[n])))
      && (forall k | k in f :: k !in MODELLED ==> sem.keyword(k, f[k], v))
    case _ => false
  }

  ghost predicate Patterned(sem: Semantics, f: Fields, n: string) {
    exists p :: p in ObjectAt(f, "patternProperties") && sem.matches(p, n)
  }

  /** The keywords that bear on an object's members. */
  ghost predicate MembersHold(sem: Semantics, f: Fields, o: Fields) {
    && (forall n | n in Names(ListAt(f, "required")) :: n in o)
    && (forall n | n in o :: n in ObjectAt(f, "properties") ==> Accepts(sem, ObjectAt(f, "properties")[n], o[n]))
    && (forall n, p | n in o && p in ObjectAt(f, "patternProperties") ::
          sem.matches(p, n) ==> Accepts(sem, ObjectAt(f, "patternProperties")[p], o[n]))
    && ("additionalProperties" in f ==>
          forall n | n in o ::
            n !in ObjectAt(f, "properties") && !Patterned(sem, f, n) ==> Accepts(sem, f["additionalProperties"], o[n]))
  }

  /** The keywords this module does not model. */
  ghost predicate OthersHold(sem: Semantics, f: Fields, v: Json) {
    forall k | k in f :: k !in MODELLED ==> sem.keyword(k, f[k], v)
  }

  function Forbidden(k: string): bool { k in FORBIDDEN }

  /** The object schemas of the root's unions, in keyword order. */
  function Objects(items: seq<Json>): seq<Fields> {
    if items == [] then []
    else (if items[0].Obj? then [items[0].fields] else []) + Objects(items[1..])
  }

  function UnionObjectBranches(f: Fields): seq<Fields> {
    Objects(ListAt(f, "oneOf")) + Objects(ListAt(f, "anyOf")) + Objects(ListAt(f, "allOf"))
  }

  /** Two constraints on one property: either may hold. */
  function MergePropertySchema(existing: Json, next: Json): Json {
    if existing == Null || existing == next then next
    else Obj(map["anyOf" := Arr([existing, next])])
  }

  function MergeBranch(properties: Fields, own: Fields): (r: Fields)
    ensures r.Keys == properties.Keys + own.Keys
  {
    map n | n in properties.Keys + own.Keys ::
      if n in own then MergePropertySchema(if n in properties then properties[n] else Null, own[n]) else properties[n]
  }

  /** The base properties, then each branch's, merged in order. */
  function MergedProperties(base: Fields, branches: seq<Fields>): Fields {
    if branches == [] then base
    else MergeBranch(MergedProperties(base, branches[..|branches| - 1]),
                     ObjectAt(branches[|branches| - 1], "properties"))
  }

  function RequiredSet(f: Fields): set<string> { Names(ListAt(f, "required")) - {""} }

  /** The names every branch requires. */
  function CommonRequired(branches: seq<Fields>): set<string>
    requires branches != []
  {
    if |branches| == 1 then RequiredSet(branches[0])
    else CommonRequired(branches[..|branches| - 1]) * RequiredSet(branches[|branches| - 1])
  }

  /** What the rewriting takes for a closed branch: `additionalProperties` is the boolean true,
      which is a branch left open. */
  predicate TakenAsClosed(f: Fields) {
    "additionalProperties" in f && f["additionalProperties"] == Bool(true)
  }

  /** A branch that is in fact closed. */
  predicate IsClosed(f: Fields) {
    "additionalProperties" in f && f["additionalProperties"] == Bool(false)
  }

  predicate AllTakenAsClosed(branches: seq<Fields>) {
    forall i | 0 <= i < |branches| :: TakenAsClosed(branches[i])
  }

  predicate NeedsNormalization(f: Fields) {
    StringAt(f, "type") != "object" || exists k | k in FORBIDDEN :: k in f
  }

  /** What the root requires after normalization. */
  function NormalizedRequired(f: Fields): set<string> {
    var branches := UnionObjectBranches(f);
    RequiredSet(f) + (if branches == [] then {} else CommonRequired(branches))
  }

  /** The rewriting closes the root. */
  predicate Closes(f: Fields) {
    UnionObjectBranches(f) != [] && AllTakenAsClosed(UnionObjectBranches(f))
  }

  predicate IsLeast(m: string, names: set<string>) {
    m in names && forall n | n in names :: n == m || Less(m, n)
  }

  lemma LeastExists(names: set<string>)
    requires names != {}
    ensures exists m :: IsLeast(m, names)
    ensures forall m, k :: IsLeast(m, names) && IsLeast(k, names) ==> m == k
  {
    var x :| x in names;
    if names == {x} {
      assert IsLeast(x, names);
    } else {
      assert names == {x} + (names - {x});
      LeastExists(names - {x});
      var m :| IsLeast(m, names - {x});
      LessTotal(m, x);
      if Less(m, x) {
        assert IsLeast(m, names);
      } else {
        forall n | n in names ensures n == x || Less(x, n) { if n != x && n != m { LessTransitive(x, m, n); } }
        assert IsLeast(x, names);
      }
    }
    forall m, k | IsLeast(m, names) && IsLeast(k, names) ensures m == k { LessTotal(m, k); }
  }

  /** sort.Strings over a set of names. */
  function SortNames(names: set<string>): (r: seq<string>)
    ensures forall n :: n in r <==> n in names
    ensures forall i, j :: 0 <= i < j < |r| ==> Less(r[i], r[j])
  {
    if names == {} then [] else
      LeastExists(names);
      var m :| IsLeast(m, names);
      [m] + SortNames(names - {m})
  }

  function Strings(names: seq<string>): seq<Json> {
    seq(|names|, i requires 0 <= i < |names| => Str(names[i]))
  }

  /** The rewritten root. */
  function Normalized(f: Fields): Fields {
    Shaped(if Closes(f) then Kept(f)["additionalProperties" := Bool(false)] else Kept(f),
           MergedProperties(ObjectAt(f, "properties"), UnionObjectBranches(f)), NormalizedRequired(f))
  }

  /** The keywords that survive as they are. */
  function Kept(f: Fields): Fields { map k | k in f && !Forbidden(k) && k != "required" :: f[k] }

  function Shaped(kept: Fields, properties: Fields, required: set<string>): Fields {
    var typed := kept["type" := Str("object")];
    var shaped := if properties != map[] then typed["properties" := Obj(properties)] else typed;
    if required != {} then shaped["required" := Arr(Strings(SortNames(required)))] else shaped
  }

  // What the rewritten root accepts.

  /** A schema of a single anyOf accepts what one of its members does. */
  lemma OnlyAnyOf(sem: Semantics, f: Fields, v: Json)
    requires f.Keys == {"anyOf"} && f["anyOf"].Arr?
    ensures Accepts(sem, Obj(f), v) <==> exists b | b in f["anyOf"].items :: Accepts(sem, b, v)
  {
    assert |"anyOf"| == 5 && |"type"| == 4 && |"enum"| == 4 && |"not"| == 3
      && |"required"| == 8 && |"properties"| == 10;
    assert |"patternProperties"| == 17 && |"additionalProperties"| == 20;
    assert "anyOf"[0] == 'a' && "const"[0] == 'c' && "oneOf"[0] == 'o' && "anyOf"[1] == 'n' && "allOf"[1] == 'l';
  }

  lemma EitherAccepts(sem: Semantics, a: Json, b: Json, v: Json)
    ensures Accepts(sem, Obj(map["anyOf" := Arr([a, b])]), v) <==> Accepts(sem, a, v) || Accepts(sem, b, v)
  {
    var f := map["anyOf" := Arr([a, b])];
    assert f["anyOf"].items == [a, b];
    OnlyAnyOf(sem, f, v);
    assert a in [a, b] && b in [a, b];
  }

  lemma MergeAccepts(sem: Semantics, existing: Json, next: Json, v: Json)
    ensures Accepts(sem, MergePropertySchema(existing, next), v) <==> Accepts(sem, existing, v) || Accepts(sem, next, v)
  {
    EitherAccepts(sem, existing, next, v);
  }

  /** Some schema declared for the property, at the root or in a branch, accepts the value. */
  ghost predicate DeclaredAccepts(sem: Semantics, base: Fields, branches: seq<Fields>, n: string, v: Json) {
    || (n in base && Accepts(sem, base[n], v))
    || exists i ::
         && 0 <= i < |branches| && n in ObjectAt(branches[i], "properties")
         && Accepts(sem, ObjectAt(branches[i], "properties")[n], v)
  }

  ghost predicate Declared(base: Fields, branches: seq<Fields>, n: string) {
    n in base || exists i :: 0 <= i < |branches| && n in ObjectAt(branches[i], "properties")
  }

  lemma DeclaredSnoc(sem: Semantics, base: Fields, rest: seq<Fields>, last: Fields, n: string, v: Json)
    ensures var own := ObjectAt(last, "properties");
      && (Declared(base, rest + [last], n) <==> Declared(base, rest, n) || n in own)
      && (DeclaredAccepts(sem, base, rest + [last], n, v) <==>
          DeclaredAccepts(sem, base, rest, n, v) || (n in own && Accepts(sem, own[n], v)))
  {
    var all := rest + [last];
    assert all[|rest|] == last && forall i :: 0 <= i < |rest| ==> all[i] == rest[i];
  }

  /** Merging one branch's properties. */
  lemma BranchAccepts(sem: Semantics, before: Fields, own: Fields, n: string, v: Json)
    ensures var m := MergeBranch(before, own);
      && (n in m <==> n in before || n in own)
      && (n in m ==> (Accepts(sem, m[n], v) <==>
          (n in before && Accepts(sem, before[n], v)) || (n in own && Accepts(sem, own[n], v))))
  {
    if n in own { MergeAccepts(sem, if n in before then before[n] else Null, own[n], v); }
  }

  /** A merged property accepts a value exactly when one of its declarations does. */
  lemma {:induction false} MergedAccepts(sem: Semantics, base: Fields, branches: seq<Fields>, n: string, v: Json)
    ensures var m := MergedProperties(base, branches);
      && (n in m <==> Declared(base, branches, n))
      && (n in m ==> (Accepts(sem, m[n], v) <==> DeclaredAccepts(sem, base, branches, n, v)))
  {
    if branches != [] {
      var rest, last := branches[..|branches| - 1], branches[|branches| - 1];
      MergedAccepts(sem, base, rest, n, v);
      DeclaredSnoc(sem, base, rest, last, n, v);
      assert rest + [last] == branches;
      BranchAccepts(sem, MergedProperties(base, rest), ObjectAt(last, "properties"), n, v);
    }
  }

  /** What the rewritten root asks of an object, in terms of the original schema. */
  ghost predicate NormalizedMeaning(sem: Semantics, f: Fields, o: Fields) {
    var base, branches := ObjectAt(f, "properties"), UnionObjectBranches(f);
    && OthersHold(sem, f, Obj(o))
    && NormalizedRequired(f) <= o.Keys
    && (forall n :: n in o && Declared(base, branches, n) ==> DeclaredAccepts(sem, base, branches, n, o[n]))
    && (forall n, p :: n in o && p in ObjectAt(f, "patternProperties") && sem.matches(p, n) ==>
          Accepts(sem, ObjectAt(f, "patternProperties")[p], o[n]))
    && (forall n :: n in o && !Declared(base, branches, n) && !Patterned(sem, f, n) ==>
          !Closes(f) && ("additionalProperties" in f ==> Accepts(sem, f["additionalProperties"], o[n])))
  }

  lemma NamesOfStrings(names: seq<string>)
    ensures Names(Strings(names)) == set i | 0 <= i < |names| :: names[i]
  {
    var items := Strings(names);
    forall n ensures n in Names(items) <==> n in set i | 0 <= i < |names| :: names[i] {
      if i :| 0 <= i < |names| && names[i] == n { assert items[i].Str? && items[i].s == n; }
    }
  }

  lemma {:induction false} BaseInMerged(base: Fields, branches: seq<Fields>)
    ensures base.Keys <= MergedProperties(base, branches).Keys
  {
    if branches != [] { BaseInMerged(base, branches[..|branches| - 1]); }
  }

  lemma ShapedType(kept: Fields, properties: Fields, required: set<string>)
    ensures var r := Shaped(kept, properties, required);
      && "type" in r && r["type"] == Str("object")
      && r.Keys <= kept.Keys + {"type", "properties", "required"}
  {
    assert |"type"| == 4 && |"properties"| == 10 && |"required"| == 8;
  }

  lemma NotForbidden()
    ensures "type" !in FORBIDDEN && "properties" !in FORBIDDEN && "required" !in FORBIDDEN
      && "additionalProperties" !in FORBIDDEN
  {
    assert |"type"| == 4 && |"additionalProperties"| == 20 && |"properties"| == 10 && |"required"| == 8;
    assert "enum"[0] == 'e' && "type"[0] == 't';
  }

  lemma NormalizedType(f: Fields)
    ensures var r := Normalized(f);
      "type" in r && r["type"] == Str("object") && forall k :: k in FORBIDDEN ==> k !in r
  {
    NotForbidden();
    var kept := if Closes(f) then Kept(f)["additionalProperties" := Bool(false)] else Kept(f);
    ShapedType(kept, MergedProperties(ObjectAt(f, "properties"), UnionObjectBranches(f)), NormalizedRequired(f));
  }

  lemma NormalizedProperties(f: Fields)
    ensures ObjectAt(Normalized(f), "properties") == MergedProperties(ObjectAt(f, "properties"), UnionObjectBranches(f))
  {
    assert |"type"| == 4 && |"additionalProperties"| == 20 && |"properties"| == 10 && |"required"| == 8;
    var base, properties := ObjectAt(f, "properties"), MergedProperties(ObjectAt(f, "properties"),
                                                                        UnionObjectBranches(f));
    BaseInMerged(base, UnionObjectBranches(f));
    if properties == map[] {
      assert base.Keys == {} && base == map[];
      var r := Normalized(f);
      assert "properties" in r ==> "properties" in f && r["properties"] == f["properties"];
    }
  }

  lemma NormalizedNames(f: Fields)
    ensures Names(ListAt(Normalized(f), "required")) == NormalizedRequired(f)
  {
    assert |"type"| == 4 && |"additionalProperties"| == 20 && |"properties"| == 10 && |"required"| == 8;
    var required := NormalizedRequired(f);
    if required != {} {
      NamesOfStrings(SortNames(required));
    } else {
      assert "required" !in Normalized(f) && Names([]) == {};
    }
  }

  /** A keyword the rewriting does not name is carried over. */
  lemma KeptAt(f: Fields, k: string)
    requires !Forbidden(k) && k !in {"type", "properties", "required"} && (k == "additionalProperties" ==> !Closes(f))
    ensures var r := Normalized(f); (k in r <==> k in f) && (k in f ==> r[k] == f[k])
  {}

  lemma NormalizedKept(f: Fields)
    ensures var r := Normalized(f);
      && ObjectAt(r, "patternProperties") == ObjectAt(f, "patternProperties")
      && ("additionalProperties" in r <==> Closes(f) || "additionalProperties" in f)
      && ("additionalProperties" in r ==>
          r["additionalProperties"] == if Closes(f) then Bool(false) else f["additionalProperties"])
      && (forall k :: k !in MODELLED ==> (k in r <==> k in f) && (k in f ==> r[k] == f[k]))
  {
    assert |"patternProperties"| == 17 && |"additionalProperties"| == 20 && |"properties"| == 10 && |"required"| == 8;
    KeptAt(f, "patternProperties");
    if !Closes(f) { KeptAt(f, "additionalProperties"); }
    forall k | k !in MODELLED ensures (k in Normalized(f) <==> k in f) && (k in f ==> Normalized(f)[k] == f[k]) {
      KeptAt(f, k);
    }
  }

  /** An object schema without unions accepts the objects its member keywords allow. */
  lemma PlainAccepts(sem: Semantics, r: Fields, o: Fields)
    requires "type" in r && r["type"] == Str("object") && forall k :: k in FORBIDDEN ==> k !in r
    ensures Accepts(sem, Obj(r), Obj(o)) <==> MembersHold(sem, r, o) && OthersHold(sem, r, Obj(o))
  {
    assert FORBIDDEN[0] == "oneOf" && FORBIDDEN[1] == "anyOf" && FORBIDDEN[2] == "allOf";
    assert FORBIDDEN[3] == "enum" && FORBIDDEN[4] == "const" && FORBIDDEN[5] == "not";
  }

  /** What the rewritten root says about one member of an object. */
  lemma MemberIs(sem: Semantics, f: Fields, n: string, v: Json)
    ensures var p, base, branches := ObjectAt(Normalized(f), "properties"),
      ObjectAt(f, "properties"), UnionObjectBranches(f);
      && (n in p <==> Declared(base, branches, n))
      && (n in p ==> (Accepts(sem, p[n], v) <==> DeclaredAccepts(sem, base, branches, n, v)))
      && (Patterned(sem, Normalized(f), n) <==> Patterned(sem, f, n))
  {
    NormalizedProperties(f);
    NormalizedKept(f);
    MergedAccepts(sem, ObjectAt(f, "properties"), UnionObjectBranches(f), n, v);
  }

  lemma MembersMean(sem: Semantics, f: Fields, o: Fields)
    requires MembersHold(sem, Normalized(f), o) && OthersHold(sem, f, Obj(o))
    ensures NormalizedMeaning(sem, f, o)
  {
    NormalizedNames(f);
    NormalizedKept(f);
    forall n | n in o
      ensures Declared(ObjectAt(f, "properties"), UnionObjectBranches(f), n) ==>
        DeclaredAccepts(sem, ObjectAt(f, "properties"), UnionObjectBranches(f), n, o[n])
      ensures !Declared(ObjectAt(f, "properties"), UnionObjectBranches(f), n) && !Patterned(sem, f, n) ==>
        !Closes(f) && ("additionalProperties" in f ==> Accepts(sem, f["additionalProperties"], o[n]))
    {
      MemberIs(sem, f, n, o[n]);
    }
  }

  lemma MeaningHolds(sem: Semantics, f: Fields, o: Fields)
    requires NormalizedMeaning(sem, f, o)
    ensures MembersHold(sem, Normalized(f), o)
  {
    NormalizedNames(f);
    NormalizedKept(f);
    var r := Normalized(f);
    forall n | n in o
      ensures n in ObjectAt(r, "properties") ==> Accepts(sem, ObjectAt(r, "properties")[n], o[n])
      ensures n !in ObjectAt(r, "properties") && !Patterned(sem, r, n) && "additionalProperties" in r ==>
        Accepts(sem, r["additionalProperties"], o[n])
    {
      MemberIs(sem, f, n, o[n]);
    }
  }

  lemma NormalizedMembers(sem: Semantics, f: Fields, o: Fields)
    ensures MembersHold(sem, Normalized(f), o) && OthersHold(sem, f, Obj(o)) <==> NormalizedMeaning(sem, f, o)
  {
    if MembersHold(sem, Normalized(f), o) && OthersHold(sem, f, Obj(o)) { MembersMean(sem, f, o); }
    if NormalizedMeaning(sem, f, o) { MeaningHolds(sem, f, o); }
  }

  /** The rewritten root accepts exactly the objects with the names it still requires, each declared
      property meeting one of its declarations, and nothing undeclared where the rewriting closes it. */
  lemma NormalizedAccepts(sem: Semantics, f: Fields, o: Fields)
    ensures Accepts(sem, Obj(Normalized(f)), Obj(o)) <==> NormalizedMeaning(sem, f, o)
  {
    NormalizedType(f);
    NormalizedKept(f);
    PlainAccepts(sem, Normalized(f), o);
    NormalizedMembers(sem, f, o);
  }

  // Which objects of the original schema are kept.

  /** Every property of the object is declared somewhere, or matches a root pattern. */
  ghost predicate OnlyKnown(sem: Semantics, f: Fields, o: Fields) {
    forall n :: n in o ==> Declared(ObjectAt(f, "properties"), UnionObjectBranches(f), n) || Patterned(sem, f, n)
  }

  /** Every member of every root union is an object schema. */
  predicate UnionsAreObjects(f: Fields) {
    && (forall i | 0 <= i < |ListAt(f, "oneOf")| :: ListAt(f, "oneOf")[i].Obj?)
    && (forall i | 0 <= i < |ListAt(f, "anyOf")| :: ListAt(f, "anyOf")[i].Obj?)
    && (forall i | 0 <= i < |ListAt(f, "allOf")| :: ListAt(f, "allOf")[i].Obj?)
  }

  lemma {:induction false} ObjectsAll(items: seq<Json>)
    requires forall i | 0 <= i < |items| :: items[i].Obj?
    ensures |Objects(items)| == |items|
    ensures forall i {:trigger Objects(items)[i]} :: 0 <= i < |items| ==> Obj(Objects(items)[i]) == items[i]
  {
    if items != [] { ObjectsAll(items[1..]); }
  }

  lemma AcceptsUnions(sem: Semantics, f: Fields, v: Json)
    requires Accepts(sem, Obj(f), v)
    ensures ListAt(f, "oneOf") != [] ==> exists i ::
      0 <= i < |ListAt(f, "oneOf")| && Accepts(sem, ListAt(f, "oneOf")[i], v)
    ensures ListAt(f, "anyOf") != [] ==> exists i ::
      0 <= i < |ListAt(f, "anyOf")| && Accepts(sem, ListAt(f, "anyOf")[i], v)
    ensures ListAt(f, "allOf") != [] ==> Accepts(sem, ListAt(f, "allOf")[0], v)
  {}

  lemma AcceptsMembers(sem: Semantics, f: Fields, o: Fields)
    requires Accepts(sem, Obj(f), Obj(o))
    ensures MembersHold(sem, f, o) && OthersHold(sem, f, Obj(o))
  {}

  lemma UnionMember(sem: Semantics, items: seq<Json>, before: seq<Fields>, after: seq<Fields>, i: nat, v: Json)
    requires forall j | 0 <= j < |items| :: items[j].Obj?
    requires i < |items| && Accepts(sem, items[i], v)
    ensures |Objects(items)| == |items| && Accepts(sem, Obj((before + Objects(items) + after)[|before| + i]), v)
  {
    ObjectsAll(items);
    assert (before + Objects(items) + after)[|before| + i] == Objects(items)[i];
    assert Obj(Objects(items)[i]) == items[i];
  }

  lemma UnionsJoined(f: Fields)
    ensures var one, any, all := Objects(ListAt(f, "oneOf")), Objects(ListAt(f, "anyOf")), Objects(ListAt(f, "allOf"));
      && UnionObjectBranches(f) == [] + one + (any + all)
      && UnionObjectBranches(f) == one + any + all
      && UnionObjectBranches(f) == (one + any) + all + []
  {}

  /** An accepted value is accepted by one of the root's union branches, if there are any. */
  lemma SomeBranchAccepts(sem: Semantics, f: Fields, v: Json) returns (i: nat)
    requires Accepts(sem, Obj(f), v) && UnionsAreObjects(f) && UnionObjectBranches(f) != []
    ensures i < |UnionObjectBranches(f)| && Accepts(sem, Obj(UnionObjectBranches(f)[i]), v)
  {
    var one, any, all := ListAt(f, "oneOf"), ListAt(f, "anyOf"), ListAt(f, "allOf");
    AcceptsUnions(sem, f, v);
    UnionsJoined(f);
    if one != [] {
      i :| 0 <= i < |one| && Accepts(sem, one[i], v);
      UnionMember(sem, one, [], Objects(any) + Objects(all), i, v);
    } else if any != [] {
      var k: nat :| k < |any| && Accepts(sem, any[k], v);
      UnionMember(sem, any, Objects(one), Objects(all), k, v);
      i := |Objects(one)| + k;
    } else {
      UnionMember(sem, all, Objects(one) + Objects(any), [], 0, v);
      i := |Objects(one) + Objects(any)|;
    }
  }

  lemma {:induction false} CommonInEach(branches: seq<Fields>, i: nat)
    requires i < |branches|
    ensures CommonRequired(branches) <= RequiredSet(branches[i])
  {
    if |branches| > 1 && i < |branches| - 1 { CommonInEach(branches[..|branches| - 1], i); }
  }

  lemma RequiredKept(sem: Semantics, f: Fields, o: Fields)
    requires Accepts(sem, Obj(f), Obj(o)) && UnionsAreObjects(f)
    ensures NormalizedRequired(f) <= o.Keys
  {
    AcceptsMembers(sem, f, o);
    if UnionObjectBranches(f) != [] {
      var i := SomeBranchAccepts(sem, f, Obj(o));
      CommonInEach(UnionObjectBranches(f), i);
      AcceptsMembers(sem, UnionObjectBranches(f)[i], o);
    }
  }

  /** For every schema: an accepted object is kept exactly when it has the names the rewritten root requires,
      each declared property it has meets one of its declarations and, where the rewriting closes the root,
      it has no other property. */
  lemma KeptExactly(sem: Semantics, f: Fields, o: Fields)
    requires Accepts(sem, Obj(f), Obj(o))
    ensures var base, branches := ObjectAt(f, "properties"), UnionObjectBranches(f);
      Accepts(sem, Obj(Normalized(f)), Obj(o)) <==>
      && NormalizedRequired(f) <= o.Keys
      && (forall n :: n in o && Declared(base, branches, n) ==> DeclaredAccepts(sem, base, branches, n, o[n]))
      && (Closes(f) ==> OnlyKnown(sem, f, o))
  {
    NormalizedAccepts(sem, f, o);
    AcceptsMembers(sem, f, o);
    assert forall n :: n in ObjectAt(f, "properties") ==>
      Declared(ObjectAt(f, "properties"), UnionObjectBranches(f), n);
  }

  /** A union member that is no object schema is skipped, so the other members' required names become the
      root's: with anyOf [true, {required: [n]}], an object without n was accepted and no longer is. */
  lemma BooleanBranchLoses(sem: Semantics, o: Fields, n: string)
    requires n !in o && n != ""
    ensures var b := map["required" := Arr([Str(n)])];
      var f := map["anyOf" := Arr([Bool(true), Obj(b)])];
      Accepts(sem, Obj(f), Obj(o)) && !Accepts(sem, Obj(Normalized(f)), Obj(o))
  {
    var b := map["required" := Arr([Str(n)])];
    var items := [Bool(true), Obj(b)];
    var f := map["anyOf" := Arr(items)];
    assert items[0] in items && Accepts(sem, items[0], Obj(o));
    OnlyAnyOf(sem, f, Obj(o));
    SkippedBoolean(f, b, n);
    KeptExactly(sem, f, o);
  }

  lemma SkippedBoolean(f: Fields, b: Fields, n: string)
    requires f == map["anyOf" := Arr([Bool(true), Obj(b)])] && b == map["required" := Arr([Str(n)])] && n != ""
    ensures UnionObjectBranches(f) == [b] && n in NormalizedRequired(f)
  {
    assert |"anyOf"| == 5 && "anyOf"[0] == 'a' && "oneOf"[0] == 'o' && "allOf"[1] == 'l' && "anyOf"[1] == 'n';
    var items := [Bool(true), Obj(b)];
    assert items[1..] == [Obj(b)] && items[1..][1..] == [];
    assert Objects([]) == [] && Objects(items[1..]) == [b] && Objects(items) == [b];
    assert [Str(n)][0].s in Names([Str(n)]);
  }

  /** A branch is safe to merge: closed to all but its own properties, or, left open, declaring every
      property another branch declares and the root does not. */
  ghost predicate Mergeable(f: Fields, b: Fields) {
    if IsClosed(b) then "patternProperties" !in b
    else forall n :: Declared(map[], UnionObjectBranches(f), n) ==>
      n in ObjectAt(b, "properties") || n in ObjectAt(f, "properties")
  }

  lemma ClosedBranch(sem: Semantics, b: Fields, o: Fields, n: string)
    requires MembersHold(sem, b, o) && IsClosed(b) && "patternProperties" !in b && n in o
    ensures n in ObjectAt(b, "properties")
  {
    assert !Patterned(sem, b, n);
    assert !Accepts(sem, Bool(false), o[n]);
  }

  /** When every union branch is an object schema that is safe to merge, an argument object the
      original schema accepts is turned away exactly when it has a property nobody declares and
      every branch says `additionalProperties: true`. */
  lemma NormalizationKeepsAcceptance(sem: Semantics, f: Fields, o: Fields)
    requires Accepts(sem, Obj(f), Obj(o)) && UnionsAreObjects(f)
    requires forall i :: 0 <= i < |UnionObjectBranches(f)| ==> Mergeable(f, UnionObjectBranches(f)[i])
    ensures Accepts(sem, Obj(Normalized(f)), Obj(o)) <==> !Closes(f) || OnlyKnown(sem, f, o)
  {
    KeptExactly(sem, f, o);
    RequiredKept(sem, f, o);
    AcceptsMembers(sem, f, o);
    var base, branches := ObjectAt(f, "properties"), UnionObjectBranches(f);
    if branches != [] {
      var i := SomeBranchAccepts(sem, f, Obj(o));
      AcceptsMembers(sem, branches[i], o);
      assert Mergeable(f, branches[i]);
      forall n | n in o
        ensures Declared(base, branches, n) ==> DeclaredAccepts(sem, base, branches, n, o[n])
      {
        if IsClosed(branches[i]) { ClosedBranch(sem, branches[i], o, n); }
      }
    }
  }

  /** Where all branches are in fact closed, the root is left open: adding to an argument object a
      property nobody declares keeps it accepted, though the original schema turns it away. */
  lemma ClosedUnionIsOpened(sem: Semantics, f: Fields, o: Fields, n: string, v: Json)
    requires UnionsAreObjects(f) && UnionObjectBranches(f) != [] && "additionalProperties" !in f
    requires forall i :: 0 <= i < |UnionObjectBranches(f)| ==>
      IsClosed(UnionObjectBranches(f)[i]) && "patternProperties" !in UnionObjectBranches(f)[i]
    requires Accepts(sem, Obj(Normalized(f)), Obj(o)) && OthersHold(sem, f, Obj(o[n := v]))
    requires !Declared(ObjectAt(f, "properties"), UnionObjectBranches(f), n) && !Patterned(sem, f, n)
    ensures Accepts(sem, Obj(Normalized(f)), Obj(o[n := v])) && !Accepts(sem, Obj(f), Obj(o[n := v]))
  {
    var wider := o[n := v];
    NormalizedAccepts(sem, f, o);
    WiderMeans(sem, f, o, n, v);
    NormalizedAccepts(sem, f, wider);
    if Accepts(sem, Obj(f), Obj(wider)) {
      var i := SomeBranchAccepts(sem, f, Obj(wider));
      AcceptsMembers(sem, UnionObjectBranches(f)[i], wider);
      ClosedBranch(sem, UnionObjectBranches(f)[i], wider, n);
    }
  }

  lemma WiderMeans(sem: Semantics, f: Fields, o: Fields, n: string, v: Json)
    requires NormalizedMeaning(sem, f, o) && OthersHold(sem, f, Obj(o[n := v]))
    requires !Closes(f) && "additionalProperties" !in f
    requires !Declared(ObjectAt(f, "properties"), UnionObjectBranches(f), n) && !Patterned(sem, f, n)
    ensures NormalizedMeaning(sem, f, o[n := v])
  {}

  /** A union left open is closed: with anyOf [{additionalProperties: true}], an object with any
      member at all is no longer accepted. */
  lemma OpenUnionIsClosed(sem: Semantics, o: Fields, n: string)
    requires n in o
    ensures var b := map["additionalProperties" := Bool(true)];
      var f := map["anyOf" := Arr([Obj(b)])];
      Accepts(sem, Obj(f), Obj(o)) && !Accepts(sem, Obj(Normalized(f)), Obj(o))
  {
    var b := map["additionalProperties" := Bool(true)];
    var f := map["anyOf" := Arr([Obj(b)])];
    TrueAdditional(sem, b, o);
    SingleAccepts(sem, b, o);
    SingleBranch(f, b);
    UndeclaredLost(sem, f, b, o, n);
  }

  lemma SingleAccepts(sem: Semantics, b: Fields, o: Fields)
    requires Accepts(sem, Obj(b), Obj(o))
    ensures Accepts(sem, Obj(map["anyOf" := Arr([Obj(b)])]), Obj(o))
  {
    var f := map["anyOf" := Arr([Obj(b)])];
    assert f["anyOf"].items == [Obj(b)] && Obj(b) in [Obj(b)];
    OnlyAnyOf(sem, f, Obj(o));
  }

  lemma UndeclaredLost(sem: Semantics, f: Fields, b: Fields, o: Fields, n: string)
    requires Accepts(sem, Obj(f), Obj(o)) && n in o
    requires UnionObjectBranches(f) == [b] && TakenAsClosed(b) && ObjectAt(b, "properties") == map[]
    requires ObjectAt(f, "properties") == map[] && ObjectAt(f, "patternProperties") == map[]
    ensures !Accepts(sem, Obj(Normalized(f)), Obj(o))
  {
    assert TakenAsClosed([b][0]) && Closes(f);
    assert !Declared(map[], [b], n);
    assert !Patterned(sem, f, n);
    UnknownLost(sem, f, o, n);
  }

  lemma UnknownLost(sem: Semantics, f: Fields, o: Fields, n: string)
    requires Accepts(sem, Obj(f), Obj(o)) && n in o && Closes(f)
    requires !Declared(ObjectAt(f, "properties"), UnionObjectBranches(f), n) && !Patterned(sem, f, n)
    ensures !Accepts(sem, Obj(Normalized(f)), Obj(o))
  {
    KeptExactly(sem, f, o);
  }

  lemma TrueAdditional(sem: Semantics, b: Fields, o: Fields)
    requires b.Keys == {"additionalProperties"} && b["additionalProperties"] == Bool(true)
    ensures Accepts(sem, Obj(b), Obj(o)) && ObjectAt(b, "properties") == map[]
  {
    assert |"additionalProperties"| == 20 && |"properties"| == 10 && |"required"| == 8 && |"patternProperties"| == 17;
    assert |"type"| == 4 && |"enum"| == 4 && |"const"| == 5 && |"not"| == 3
      && |"allOf"| == 5 && |"anyOf"| == 5 && |"oneOf"| == 5;
    assert Names([]) == {};
  }

  lemma SingleBranch(f: Fields, b: Fields)
    requires f == map["anyOf" := Arr([Obj(b)])]
    ensures UnionObjectBranches(f) == [b] && UnionsAreObjects(f)
    ensures ObjectAt(f, "properties") == map[] && ObjectAt(f, "patternProperties") == map[]
  {
    assert |"properties"| == 10 && |"patternProperties"| == 17;
    assert |"anyOf"| == 5 && "anyOf"[0] == 'a' && "oneOf"[0] == 'o' && "allOf"[1] == 'l' && "anyOf"[1] == 'n';
    var items := [Obj(b)];
    assert items[1..] == [] && Objects(items) == [b] && Objects([]) == [];
  }

  /** An object accepted through one branch is lost when a property it has is declared only in the
      other branch, by a schema its value does not meet. */
  lemma UndeclaredInBranchLoses(sem: Semantics, a: Fields, b: Fields, o: Fields, n: string)
    requires Accepts(sem, Obj(b), Obj(o)) && n in o
    requires n in ObjectAt(a, "properties") && n !in ObjectAt(b, "properties")
    requires !Accepts(sem, ObjectAt(a, "properties")[n], o[n])
    ensures var f := map["anyOf" := Arr([Obj(a), Obj(b)])];
      Accepts(sem, Obj(f), Obj(o)) && !Accepts(sem, Obj(Normalized(f)), Obj(o))
  {
    var f := map["anyOf" := Arr([Obj(a), Obj(b)])];
    EitherAccepts(sem, Obj(a), Obj(b), Obj(o));
    OpenBranches(f, a, b);
    DeclaredInFirst(sem, a, b, n, o[n]);
    LostWhen(sem, f, o, n);
  }

  lemma LostWhen(sem: Semantics, f: Fields, o: Fields, n: string)
    requires Accepts(sem, Obj(f), Obj(o)) && n in o
    requires Declared(ObjectAt(f, "properties"), UnionObjectBranches(f), n)
    requires !DeclaredAccepts(sem, ObjectAt(f, "properties"), UnionObjectBranches(f), n, o[n])
    ensures !Accepts(sem, Obj(Normalized(f)), Obj(o))
  {
    KeptExactly(sem, f, o);
  }

  lemma DeclaredInFirst(sem: Semantics, a: Fields, b: Fields, n: string, v: Json)
    requires n in ObjectAt(a, "properties") && n !in ObjectAt(b, "properties")
    ensures Declared(map[], [a, b], n)
    ensures DeclaredAccepts(sem, map[], [a, b], n, v) <==> Accepts(sem, ObjectAt(a, "properties")[n], v)
  {
    assert [a, b][0] == a && [a, b][1] == b;
  }

  /** A branch left open that does not declare another branch's property loses objects: with
      anyOf [{a: string}, {b: number}], an object whose `a` is a boolean was accepted through
      the second branch, and is no longer. */
  lemma OpenBranchLosesObjects(sem: Semantics)
    ensures var a := map["properties" := Obj(map["a" := Obj(map["type" := Str("string")])])];
      var b := map["properties" := Obj(map["b" := Obj(map["type" := Str("number")])])];
      var f := map["anyOf" := Arr([Obj(a), Obj(b)])];
      var o := map["a" := Bool(true)];
      Accepts(sem, Obj(f), Obj(o)) && !Accepts(sem, Obj(Normalized(f)), Obj(o))
  {
    var sa, sb := Obj(map["type" := Str("string")]), Obj(map["type" := Str("number")]);
    var a := map["properties" := Obj(map["a" := sa])];
    var b := map["properties" := Obj(map["b" := sb])];
    var o := map["a" := Bool(true)];
    assert "a"[0] != "b"[0];
    OpenBranchAccepts(sem, b, o);
    assert !Accepts(sem, sa, Bool(true)) by { assert |"string"| == 6 && |"boolean"| == 7; }
    UndeclaredInBranchLoses(sem, a, b, o, "a");
  }

  lemma OpenBranchAccepts(sem: Semantics, b: Fields, o: Fields)
    requires b.Keys == {"properties"} && ObjectAt(b, "properties").Keys !! o.Keys
    ensures Accepts(sem, Obj(b), Obj(o))
  {
    assert Names([]) == {};
  }

  lemma OpenBranches(f: Fields, a: Fields, b: Fields)
    requires f == map["anyOf" := Arr([Obj(a), Obj(b)])]
    ensures UnionObjectBranches(f) == [a, b] && UnionsAreObjects(f) && ObjectAt(f, "properties") == map[]
  {
    assert |"properties"| == 10;
    assert |"anyOf"| == 5 && "anyOf"[0] == 'a' && "oneOf"[0] == 'o' && "allOf"[1] == 'l' && "anyOf"[1] == 'n';
    var items := [Obj(a), Obj(b)];
    assert items[1..] == [Obj(b)] && items[1..][1..] == [];
    assert Objects(items[1..]) == [b];
    assert Objects(items) == [a, b];
    assert Objects([]) == [];
  }
}
