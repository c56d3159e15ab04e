/** Decoding JSON text as encoding/json does: RFC 8259 values, with the escapes of its section 7,
    nested at most MAX_DEPTH deep. Numbers keep their text; the last of two equal names wins. */
module JsonText {

  datatype Value =
    | Null
    | Bool(b: bool)
    | Number(text: string)
    | Str(s: string)
    | Arr(items: seq<Value>)
    | Obj(fields: map<string, Value>)

  /** A decoded value and the position after it. */
  datatype Parsed<T> = Fail | Done(value: T, next: nat)

  const MAX_DEPTH: nat := 10000

  predicate IsSpace(c: char) { c == ' ' || c == '\t' || c == '\n' || c == '\r' }

  function SkipSpace(b: string, i: nat): (r: nat)
    requires i <= |b|
    ensures i <= r <= |b|
    decreases |b| - i
  {
    if i < |b| && IsSpace(b[i]) then SkipSpace(b, i + 1) else i
  }

  predicate At(b: string, i: nat, token: string) {
    i + |token| <= |b| && b[i..i + |token|] == token
  }

  predicate Is(b: string, i: nat, c: char) { i < |b| && b[i] == c }

  predicate IsHex(c: char) { '0' <= c <= '9' || 'a' <= c <= 'f' || 'A' <= c <= 'F' }

  function HexDigit(c: char): (d: nat)
    requires IsHex(c)
    ensures d < 16
  {
    if c <= '9' then (c - '0') as nat else if c <= 'F' then (c - 'A') as nat + 10 else (c - 'a') as nat + 10
  }

  /** The code unit of a \uXXXX escape at i. */
  function CodeUnit(b: string, i: nat): (u: Parsed<nat>)
    ensures u.Done? ==> u.next == i + 6 <= |b| && u.value < 0x10000 && b[i] == '\\' && b[i + 1] == 'u'
  {
    if i + 6 <= |b| && b[i] == '\\' && b[i + 1] == 'u'
       && IsHex(b[i + 2]) && IsHex(b[i + 3]) && IsHex(b[i + 4]) && IsHex(b[i + 5]) then
      Done(((HexDigit(b[i + 2]) * 16 + HexDigit(b[i + 3])) * 16 + HexDigit(b[i + 4])) * 16 + HexDigit(b[i + 5]), i + 6)
    else Fail
  }

  /** The character of a \u escape at i; a surrogate pair is one character, a lone surrogate U+FFFD. */
  function EscapedChar(b: string, i: nat): (r: Parsed<char>)
    ensures r.Done? ==> i + 6 <= r.next <= |b| && b[i] == '\\' && b[i + 1] == 'u'
  {
    var u := CodeUnit(b, i);
    if u.Fail? then Fail
    else if u.value < 0xD800 || u.value >= 0xE000 then Done(u.value as char, u.next)
    else
      var low := CodeUnit(b, u.next);
      if u.value < 0xDC00 && low.Done? && 0xDC00 <= low.value < 0xE000 then
        Done((0x10000 + (u.value - 0xD800) * 0x400 + (low.value - 0xDC00)) as char, low.next)
      else Done('\U{FFFD}', u.next)
  }

  /** The character a one-letter escape stands for. */
  function SimpleEscape(c: char): Parsed<char> {
    match c
    case '"' => Done('"', 0)
    case '\\' => Done('\\', 0)
    case '/' => Done('/', 0)
    case 'b' => Done('\U{8}', 0)
    case 'f' => Done('\U{C}', 0)
    case 'n' => Done('\n', 0)
    case 'r' => Done('\r', 0)
    case 't' => Done('\t', 0)
    case _ => Fail
  }

  /** The rest of a string token, from just after its opening quote or a later character. */
  function ScanString(b: string, j: nat): (r: Parsed<string>)
    requires j <= |b|
    ensures r.Done? ==> j < r.next <= |b|
    decreases |b| - j
  {
    if j == |b| || b[j] < ' ' then Fail
    else if b[j] == '"' then Done("", j + 1)
    else if b[j] != '\\' then
      var rest := ScanString(b, j + 1);
      if rest.Fail? then Fail else Done([b[j]] + rest.value, rest.next)
    else if j + 1 == |b| then Fail
    else if b[j + 1] == 'u' then
      var c := EscapedChar(b, j);
      if c.Fail? then Fail else
        var rest := ScanString(b, c.next);
        if rest.Fail? then Fail else Done([c.value] + rest.value, rest.next)
    else
      var c := SimpleEscape(b[j + 1]);
      if c.Fail? then Fail else
        var rest := ScanString(b, j + 2);
        if rest.Fail? then Fail else Done([c.value] + rest.value, rest.next)
  }

  /** The string token at i. */
  function ParseString(b: string, i: nat): (r: Parsed<string>)
    ensures r.Done? ==> i + 1 < r.next <= |b|
  {
    if Is(b, i, '"') then ScanString(b, i + 1) else Fail
  }

  // Reading back what was written.

  const HEX: string := "0123456789abcdef"

  /** A character inside a string, written with the escapes of section 7: quotes, backslashes and control
      characters are escaped, everything else stands for itself. */
  function WrittenChar(c: char): (w: string)
    ensures |w| > 0
  {
    if c == '"' || c == '\\' then ['\\', c]
    else if c < ' ' then "\\u00" + [HEX[c as nat / 16], HEX[c as nat % 16]]
    else [c]
  }

  function Written(s: string): string { if s == "" then "" else WrittenChar(s[0]) + Written(s[1..]) }

  lemma HexReads(n: nat)
    requires n < 16
    ensures IsHex(HEX[n]) && HexDigit(HEX[n]) == n
  {}

  /** The text holds these characters from j on. */
  predicate Holds(b: string, j: nat, text: string)
    decreases text
  {
    text == "" || (Is(b, j, text[0]) && Holds(b, j + 1, text[1..]))
  }

  lemma {:induction false} HoldsSplit(b: string, j: nat, x: string, y: string)
    requires Holds(b, j, x + y)
    ensures Holds(b, j, x) && Holds(b, j + |x|, y)
    decreases x
  {
    if x == "" {
      assert x + y == y;
    } else {
      assert (x + y)[0] == x[0] && (x + y)[1..] == x[1..] + y;
      HoldsSplit(b, j + 1, x[1..], y);
    }
  }

  lemma {:induction false} HoldsAt(b: string, j: nat, text: string, k: nat)
    requires Holds(b, j, text) && k < |text|
    ensures j + k < |b| && b[j + k] == text[k]
    decreases k
  {
    if k > 0 { HoldsAt(b, j + 1, text[1..], k - 1); }
  }

  /** A control character's escape reads back. */
  lemma ControlReads(b: string, j: nat, c: char)
    requires c < ' ' && Holds(b, j, WrittenChar(c))
    ensures j + 6 <= |b| && b[j] == '\\' && b[j + 1] == 'u' && EscapedChar(b, j) == Done(c, j + 6)
  {
    var w, n := WrittenChar(c), c as nat;
    assert w == ['\\', 'u', '0', '0', HEX[n / 16], HEX[n % 16]];
    HoldsAt(b, j, w, 0);
    HoldsAt(b, j, w, 1);
    HoldsAt(b, j, w, 2);
    HoldsAt(b, j, w, 3);
    HoldsAt(b, j, w, 4);
    HoldsAt(b, j, w, 5);
    HexReads(n / 16);
    HexReads(n % 16);
    assert CodeUnit(b, j) == Done(n, j + 6);
  }

  lemma CharReads(b: string, j: nat, c: char)
    requires Holds(b, j, WrittenChar(c)) && j + |WrittenChar(c)| <= |b|
    ensures var rest := ScanString(b, j + |WrittenChar(c)|);
      rest.Done? ==> ScanString(b, j) == Done([c] + rest.value, rest.next)
  {
    if c == '"' || c == '\\' {
      assert ['\\', c][1..] == [c];
    } else if c < ' ' {
      ControlReads(b, j, c);
    } else {
      assert WrittenChar(c) == [c];
    }
  }

  lemma WrittenSplit(b: string, j: nat, s: string)
    requires s != "" && Holds(b, j, Written(s) + "\"")
    ensures var w := WrittenChar(s[0]);
      Holds(b, j, w) && Holds(b, j + |w|, Written(s[1..]) + "\"")
      && j + |w| <= |b| && |Written(s)| == |w| + |Written(s[1..])|
  {
    var w, rest := WrittenChar(s[0]), Written(s[1..]);
    assert Written(s) + "\"" == w + (rest + "\"");
    HoldsSplit(b, j, w, rest + "\"");
    HoldsAt(b, j, w, |w| - 1);
  }

  lemma ScanEmpty(b: string, j: nat)
    requires Holds(b, j, Written("") + "\"") && j <= |b|
    ensures ScanString(b, j) == Done("", j + 1)
  {
    assert Written("") + "\"" == "\"";
  }

  lemma ScanStep(b: string, j: nat, s: string)
    requires s != "" && Holds(b, j, WrittenChar(s[0])) && j + |WrittenChar(s[0])| <= |b|
    requires ScanString(b, j + |WrittenChar(s[0])|).Done? && ScanString(b, j + |WrittenChar(s[0])|).value == s[1..]
    ensures ScanString(b, j) == Done(s, ScanString(b, j + |WrittenChar(s[0])|).next)
  {
    CharReads(b, j, s[0]);
    assert s == [s[0]] + s[1..];
  }

  lemma {:induction false} ScanWritten(b: string, j: nat, s: string)
    requires Holds(b, j, Written(s) + "\"") && j <= |b|
    ensures ScanString(b, j) == Done(s, j + |Written(s)| + 1)
    decreases s
  {
    if s == "" {
      ScanEmpty(b, j);
    } else {
      WrittenSplit(b, j, s);
      ScanWritten(b, j + |WrittenChar(s[0])|, s[1..]);
      ScanStep(b, j, s);
    }
  }

  /** Round trip: wherever a string stands in a text, written with its escapes and in quotes, the token
      decodes to it and ends where it ends. */
  lemma WrittenReads(b: string, i: nat, s: string)
    requires Holds(b, i, "\"" + Written(s) + "\"")
    ensures ParseString(b, i) == Done(s, i + |Written(s)| + 2)
  {
    assert "\"" + Written(s) + "\"" == "\"" + (Written(s) + "\"");
    HoldsSplit(b, i, "\"", Written(s) + "\"");
    ScanWritten(b, i + 1, s);
  }

  predicate IsDigit(c: char) { '0' <= c <= '9' }

  function Digits(b: string, i: nat): (r: nat)
    requires i <= |b|
    ensures i <= r <= |b|
    decreases |b| - i
  {
    if i < |b| && IsDigit(b[i]) then Digits(b, i + 1) else i
  }

  /** The end of a number token: sign, integer without leading zeros, fraction, exponent. */
  function ScanNumber(b: string, i: nat): (r: Parsed<string>)
    requires i < |b|
    ensures r.Done? ==> i < r.next <= |b|
  {
    var j := if b[i] == '-' then i + 1 else i;
    if j == |b| || !IsDigit(b[j]) then Fail else
      var k := if b[j] == '0' then j + 1 else Digits(b, j);
      var l := if k < |b| && b[k] == '.' then Digits(b, k + 1) else k;
      if k < |b| && b[k] == '.' && l == k + 1 then Fail
      else if l < |b| && (b[l] == 'e' || b[l] == 'E') then
        var m := if l + 1 < |b| && (b[l + 1] == '+' || b[l + 1] == '-') then l + 2 else l + 1;
        var n := Digits(b, m);
        if n == m then Fail else Done(b[i..n], n)
      else if l > i then Done(b[i..l], l) else Fail
  }

  function ParseValue(b: string, i: nat, depth: nat): (r: Parsed<Value>)
    requires i <= |b|
    ensures r.Done? ==> i < r.next <= |b|
    decreases |b| - i, 2
  {
    if i == |b| then Fail
    else if b[i] == '"' then
      var s := ParseString(b, i);
      if s.Fail? then Fail else Done(Str(s.value), s.next)
    else if b[i] == '{' then
      if depth == 0 then Fail else
        var j := SkipSpace(b, i + 1);
        if Is(b, j, '}') then Done(Obj(map[]), j + 1) else
          var members := ParseMembers(b, j, depth - 1);
          if members.Fail? then Fail else Done(Obj(members.value), members.next)
    else if b[i] == '[' then
      if depth == 0 then Fail else
        var j := SkipSpace(b, i + 1);
        if Is(b, j, ']') then Done(Arr([]), j + 1) else
          var items := ParseItems(b, j, depth - 1);
          if items.Fail? then Fail else Done(Arr(items.value), items.next)
    else if At(b, i, "true") then Done(Bool(true), i + 4)
    else if At(b, i, "false") then Done(Bool(false), i + 5)
    else if At(b, i, "null") then Done(Null, i + 4)
    else
      var n := ScanNumber(b, i);
      if n.Fail? then Fail else Done(Number(n.value), n.next)
  }

  /** The items of an array, from the first, through the closing bracket. */
  function ParseItems(b: string, i: nat, depth: nat): (r: Parsed<seq<Value>>)
    requires i <= |b|
    ensures r.Done? ==> i < r.next <= |b|
    decreases |b| - i, 3
  {
    var head := ParseValue(b, i, depth);
    if head.Fail? then Fail else
      var j := SkipSpace(b, head.next);
      if Is(b, j, ']') then Done([head.value], j + 1)
      else if !Is(b, j, ',') then Fail
      else
        var tail := ParseItems(b, SkipSpace(b, j + 1), depth);
        if tail.Fail? then Fail else Done([head.value] + tail.value, tail.next)
  }

  /** One name and its value. */
  function ParseMember(b: string, i: nat, depth: nat): (r: Parsed<(string, Value)>)
    requires i <= |b|
    ensures r.Done? ==> i < r.next <= |b|
    decreases |b| - i, 3
  {
    var key := ParseString(b, i);
    if key.Fail? then Fail else
      var j := SkipSpace(b, key.next);
      if !Is(b, j, ':') then Fail else
        var v := ParseValue(b, SkipSpace(b, j + 1), depth);
        if v.Fail? then Fail else Done((key.value, v.value), v.next)
  }

  /** The members of an object, from the first, through the closing brace; a later name wins. */
  function ParseMembers(b: string, i: nat, depth: nat): (r: Parsed<map<string, Value>>)
    requires i <= |b|
    ensures r.Done? ==> i < r.next <= |b|
    decreases |b| - i, 4
  {
    var m := ParseMember(b, i, depth);
    if m.Fail? then Fail else
      var one := map[m.value.0 := m.value.1];
      var k := SkipSpace(b, m.next);
      if Is(b, k, '}') then Done(one, k + 1)
      else if !Is(b, k, ',') then Fail
      else
        var rest := ParseMembers(b, SkipSpace(b, k + 1), depth);
        if rest.Fail? then Fail else Done(one + rest.value, rest.next)
  }

  datatype Option<T> = None | Some(value: T)

  /** A whole document: one value with nothing but white space around it. */
  function Parse(b: string): Option<Value> {
    var v := ParseValue(b, SkipSpace(b, 0), MAX_DEPTH);
    if v.Done? && SkipSpace(b, v.next) == |b| then Some(v.value) else None
  }
}
