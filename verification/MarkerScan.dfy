/** Why a byte scan can rule out decoding: a text without the escape prefix \u decodes to a name or
    string equal to a plain marker only where it contains the marker in quotes. */
module MarkerScan {
  import opened JsonText
  import opened Text

  /** A marker as the scan uses it: letters that no JSON escape but \u can produce. */
  predicate Plain(m: string) {
    forall i | 0 <= i < |m| :: 'a' <= m[i] <= 'z' || m[i] == '_'
  }

  function Quoted(m: string): string { "\"" + m + "\"" }

  /** The scan: false rules the markers out. */
  predicate MayContain(input: string, markers: seq<string>) {
    Contains(input, "\\u") || exists i | 0 <= i < |markers| :: Contains(input, Quoted(markers[i]))
  }

  /** No name and no string anywhere in the value is m. */
  ghost predicate Free(v: Value, m: string)
    decreases v
  {
    match v
    case Str(s) => s != m
    case Arr(items) => forall i | 0 <= i < |items| :: Free(items[i], m)
    case Obj(fields) => forall k | k in fields :: k != m && Free(fields[k], m)
    case _ => true
  }

  lemma {:induction false} ContainsAt(b: string, part: string, k: nat)
    requires At(b, k, part)
    ensures Contains(b, part)
  {
    if k > 0 {
      assert b[1..][k - 1..k - 1 + |part|] == b[k..k + |part|];
      ContainsAt(b[1..], part, k - 1);
    }
  }

  /** The text spells m from j on and then closes the token. */
  predicate Spells(b: string, j: nat, m: string)
    decreases m
  {
    if m == [] then Is(b, j, '"') else Is(b, j, m[0]) && Spells(b, j + 1, m[1..])
  }

  lemma {:induction false} SpellsAt(b: string, j: nat, m: string)
    requires Spells(b, j, m)
    ensures At(b, j, m + "\"")
    decreases m
  {
    if m == [] {
      assert b[j..j + 1] == "\"";
    } else {
      SpellsAt(b, j + 1, m[1..]);
      assert m + "\"" == [m[0]] + (m[1..] + "\"");
      assert b[j..j + |m| + 1] == [b[j]] + b[j + 1..j + |m| + 1];
    }
  }

  /** Where no \u occurs, a token that decodes to a plain string spells it out. */
  lemma {:induction false} PlainToken(b: string, j: nat, m: string)
    requires j <= |b| && !Contains(b, "\\u") && Plain(m)
    requires ScanString(b, j).Done? && ScanString(b, j).value == m
    ensures Spells(b, j, m)
    decreases |b| - j
  {
    if b[j] == '\\' {
      if b[j + 1] == 'u' { EscapeSeen(b, j); } else { EscapedHead(b, j); }
      assert false;
    } else if b[j] != '"' {
      LiteralHead(b, j, m);
      PlainToken(b, j + 1, m[1..]);
    }
  }

  lemma LiteralHead(b: string, j: nat, m: string)
    requires j < |b| && b[j] != '\\' && b[j] != '"' && Plain(m)
    requires ScanString(b, j).Done? && ScanString(b, j).value == m
    ensures m != [] && m[0] == b[j] && Plain(m[1..])
    ensures ScanString(b, j + 1).Done? && ScanString(b, j + 1).value == m[1..]
  {}

  /** A one-letter escape puts a character into the string that no plain marker has. */
  lemma EscapedHead(b: string, j: nat)
    requires j + 1 < |b| && b[j] == '\\' && b[j + 1] != 'u' && ScanString(b, j).Done?
    ensures !Plain(ScanString(b, j).value)
  {
    var s := ScanString(b, j).value;
    assert s[0] == SimpleEscape(b[j + 1]).value;
  }

  lemma EscapeSeen(b: string, j: nat)
    requires j + 1 < |b| && b[j] == '\\' && b[j + 1] == 'u'
    ensures Contains(b, "\\u")
  {
    assert b[j..j + 2] == "\\u";
    ContainsAt(b, "\\u", j);
  }

  /** A token at i that decodes to m puts the quoted m into the text. */
  lemma TokenSpells(b: string, i: nat, m: string)
    requires Plain(m) && !Contains(b, "\\u")
    requires ParseString(b, i).Done? && ParseString(b, i).value == m
    ensures Contains(b, Quoted(m))
  {
    PlainToken(b, i + 1, m);
    SpellsAt(b, i + 1, m);
    var rest := m + "\"";
    assert Quoted(m) == ['"'] + rest;
    assert b[i..i + 1 + |rest|] == ['"'] + b[i + 1..i + 1 + |rest|];
    ContainsAt(b, Quoted(m), i);
  }

  /** No string token of the text decodes to m. */
  ghost predicate NoToken(b: string, m: string) {
    forall i {:trigger ParseString(b, i)} :: 0 <= i < |b| && ParseString(b, i).Done? ==> ParseString(b, i).value != m
  }

  lemma ClearedText(b: string, m: string)
    requires Plain(m) && !Contains(b, "\\u") && !Contains(b, Quoted(m))
    ensures NoToken(b, m)
  {
    forall i | 0 <= i < |b| && ParseString(b, i).Done? ensures ParseString(b, i).value != m {
      if ParseString(b, i).value == m { TokenSpells(b, i, m); }
    }
  }

  lemma {:induction false} ValueFree(b: string, i: nat, depth: nat, m: string)
    requires i <= |b| && NoToken(b, m)
    ensures var v := ParseValue(b, i, depth); v.Done? ==> Free(v.value, m)
    decreases |b| - i, 2
  {
    if Is(b, i, '{') && depth > 0 {
      MembersFree(b, SkipSpace(b, i + 1), depth - 1, m);
    } else if Is(b, i, '[') && depth > 0 {
      ItemsFree(b, SkipSpace(b, i + 1), depth - 1, m);
    }
  }

  lemma FreeCons(head: Value, tail: seq<Value>, m: string)
    requires Free(head, m) && Free(Arr(tail), m)
    ensures Free(Arr([head] + tail), m)
  {
    var items := [head] + tail;
    forall i | 0 <= i < |items| ensures Free(items[i], m) { if i > 0 { assert items[i] == tail[i - 1]; } }
  }

  lemma {:induction false} ItemsFree(b: string, i: nat, depth: nat, m: string)
    requires i <= |b| && NoToken(b, m)
    ensures var v := ParseItems(b, i, depth); v.Done? ==> Free(Arr(v.value), m)
    decreases |b| - i, 3
  {
    ValueFree(b, i, depth, m);
    var head := ParseValue(b, i, depth);
    if head.Done? {
      var j := SkipSpace(b, head.next);
      if Is(b, j, ']') {
        FreeCons(head.value, [], m);
      } else if Is(b, j, ',') {
        ItemsFree(b, SkipSpace(b, j + 1), depth, m);
        var tail := ParseItems(b, SkipSpace(b, j + 1), depth);
        if tail.Done? { FreeCons(head.value, tail.value, m); }
      }
    }
  }

  lemma FreeWith(key: string, v: Value, rest: map<string, Value>, m: string)
    requires key != m && Free(v, m) && Free(Obj(rest), m)
    ensures Free(Obj(map[key := v] + rest), m)
  {
    var all := map[key := v] + rest;
    forall k | k in all ensures k != m && Free(all[k], m) { if k in rest { assert all[k] == rest[k]; } }
  }

  lemma {:induction false} MemberFree(b: string, i: nat, depth: nat, m: string)
    requires i <= |b| && NoToken(b, m)
    ensures var v := ParseMember(b, i, depth); v.Done? ==> v.value.0 != m && Free(v.value.1, m)
    decreases |b| - i, 3
  {
    var key := ParseString(b, i);
    if key.Done? {
      var j := SkipSpace(b, key.next);
      if Is(b, j, ':') { ValueFree(b, SkipSpace(b, j + 1), depth, m); }
    }
  }

  lemma {:induction false} MembersFree(b: string, i: nat, depth: nat, m: string)
    requires i <= |b| && NoToken(b, m)
    ensures var v := ParseMembers(b, i, depth); v.Done? ==> Free(Obj(v.value), m)
    decreases |b| - i, 4
  {
    MemberFree(b, i, depth, m);
    var v := ParseMember(b, i, depth);
    if v.Done? {
      var k := SkipSpace(b, v.next);
      if Is(b, k, '}') {
        assert Free(Obj(map[v.value.0 := v.value.1]), m);
      } else if Is(b, k, ',') {
        MembersFree(b, SkipSpace(b, k + 1), depth, m);
        var rest := ParseMembers(b, SkipSpace(b, k + 1), depth);
        if rest.Done? { FreeWith(v.value.0, v.value.1, rest.value, m); }
      }
    }
  }

  /** A text the scan clears holds none of the markers as a name or string, however it nests. */
  lemma ScanIsExact(b: string, markers: seq<string>, m: string)
    requires !MayContain(b, markers) && m in markers && Plain(m)
    ensures Parse(b).Some? ==> Free(Parse(b).value, m)
  {
    var i :| 0 <= i < |markers| && markers[i] == m;
    assert !Contains(b, Quoted(markers[i]));
    ClearedText(b, m);
    ValueFree(b, SkipSpace(b, 0), MAX_DEPTH, m);
  }
}
