/** The few string operations of the Go standard library that the models rely on. */
module Text {

  predicate IsSpace(c: char) {
    c in "\t\n\U{000B}\U{000C}\r \U{0085}\U{00A0}\U{1680}\U{2028}\U{2029}\U{202F}\U{205F}\U{3000}"
    || '\U{2000}' <= c <= '\U{200A}'
  }

  function TrimLeft(s: string): string {
    if s != [] && IsSpace(s[0]) then TrimLeft(s[1..]) else s
  }

  function TrimRight(s: string): string {
    if s != [] && IsSpace(s[|s| - 1]) then TrimRight(s[..|s| - 1]) else s
  }

  function TrimSpace(s: string): string { TrimRight(TrimLeft(s)) }

  function LowerChar(c: char): char {
    if 'A' <= c <= 'Z' then c + 32 as char else c
  }

  /** Lower case of the ASCII letters. */
  function Lower(s: string): string {
    if s == [] then [] else [LowerChar(s[0])] + Lower(s[1..])
  }

  predicate HasPrefix(s: string, prefix: string) {
    |prefix| <= |s| && s[..|prefix|] == prefix
  }

  predicate Contains(s: string, part: string) {
    HasPrefix(s, part) || (s != [] && Contains(s[1..], part))
  }

  // What these operations mean, position by position.

  predicate StandsAt(s: string, i: nat, part: string) {
    i + |part| <= |s| && forall j | 0 <= j < |part| :: s[i + j] == part[j]
  }

  /** The part stands somewhere in the text. */
  ghost predicate Occurs(s: string, part: string) { exists i: nat :: StandsAt(s, i, part) }

  lemma PrefixIsAt(s: string, part: string)
    ensures HasPrefix(s, part) <==> StandsAt(s, 0, part)
  {
    if StandsAt(s, 0, part) { assert s[..|part|] == part; }
    if HasPrefix(s, part) { assert forall j :: 0 <= j < |part| ==> s[..|part|][j] == s[j]; }
  }

  lemma {:induction false} ContainsIsOccurs(s: string, part: string)
    ensures Contains(s, part) <==> Occurs(s, part)
  {
    PrefixIsAt(s, part);
    if s != [] {
      ContainsIsOccurs(s[1..], part);
      if Occurs(s[1..], part) {
        var i: nat :| StandsAt(s[1..], i, part);
        assert StandsAt(s, i + 1, part);
      }
      if Occurs(s, part) {
        var i: nat :| StandsAt(s, i, part);
        if i > 0 { assert StandsAt(s[1..], i - 1, part); }
      }
    }
  }

  lemma {:induction false} LowerAt(s: string)
    ensures |Lower(s)| == |s| && forall i :: 0 <= i < |s| ==> Lower(s)[i] == LowerChar(s[i])
  {
    if s != [] { LowerAt(s[1..]); }
  }

  /** The trimmed text is a slice, and what is cut off is space. */
  ghost predicate IsTrimmed(s: string, a: nat, b: nat) {
    && a <= b <= |s|
    && (forall i :: 0 <= i < a ==> IsSpace(s[i]))
    && (forall i :: b <= i < |s| ==> IsSpace(s[i]))
    && (a < b ==> !IsSpace(s[a]) && !IsSpace(s[b - 1]))
  }

  lemma {:induction false} TrimLeftIs(s: string) returns (a: nat)
    ensures a <= |s| && TrimLeft(s) == s[a..]
    ensures (forall i :: 0 <= i < a ==> IsSpace(s[i])) && (a < |s| ==> !IsSpace(s[a]))
  {
    if s != [] && IsSpace(s[0]) {
      var k := TrimLeftIs(s[1..]);
      a := k + 1;
      assert s[1..][k..] == s[a..];
      assert forall i :: 0 < i < a ==> s[i] == s[1..][i - 1];
    } else {
      a := 0;
      assert s[0..] == s;
    }
  }

  lemma {:induction false} TrimRightIs(s: string) returns (b: nat)
    ensures b <= |s| && TrimRight(s) == s[..b]
    ensures (forall i :: b <= i < |s| ==> IsSpace(s[i])) && (b > 0 ==> !IsSpace(s[b - 1]))
  {
    if s != [] && IsSpace(s[|s| - 1]) {
      var init := s[..|s| - 1];
      b := TrimRightIs(init);
      assert TrimRight(s) == TrimRight(init) == init[..b] == s[..b];
      assert forall i :: b <= i < |s| - 1 ==> s[i] == init[i];
    } else {
      b := |s|;
      assert s[..b] == s;
    }
  }

  lemma TrimIsSlice(s: string) returns (a: nat, b: nat)
    ensures IsTrimmed(s, a, b) && TrimSpace(s) == s[a..b]
  {
    a := TrimLeftIs(s);
    var k := TrimRightIs(s[a..]);
    b := a + k;
    assert s[a..][..k] == s[a..b];
    assert forall i :: 0 <= i < |s| - a ==> s[a..][i] == s[a + i];
    forall i | b <= i < |s| ensures IsSpace(s[i]) { assert IsSpace(s[a..][i - a]); }
    if a < b { assert s[a..][k - 1] == s[b - 1]; }
  }

  /** Letter by letter, ignoring the case of ASCII letters. */
  predicate AtFolded(s: string, i: nat, part: string) {
    i + |part| <= |s| && forall j | 0 <= j < |part| :: LowerChar(s[i + j]) == part[j]
  }

  ghost predicate Mentions(s: string, part: string) { exists i: nat :: AtFolded(s, i, part) }

  lemma FoundIsMentioned(s: string, a: nat, b: nat, part: string)
    requires a <= b <= |s| && Occurs(Lower(s[a..b]), part)
    ensures Mentions(s, part)
  {
    var core := s[a..b];
    LowerAt(core);
    var i: nat :| StandsAt(Lower(core), i, part);
    forall j | 0 <= j < |part| ensures LowerChar(s[a + i + j]) == part[j] { assert core[i + j] == s[a + i + j]; }
    assert AtFolded(s, a + i, part);
  }

  lemma MentionedIsFound(s: string, a: nat, b: nat, part: string)
    requires IsTrimmed(s, a, b) && Mentions(s, part)
    requires part != [] && forall i :: 0 <= i < |part| ==> !IsSpace(part[i])
    ensures Occurs(Lower(s[a..b]), part)
  {
    var core := s[a..b];
    LowerAt(core);
    var i: nat :| AtFolded(s, i, part);
    NotSpace(s, i, part, 0);
    NotSpace(s, i, part, |part| - 1);
    assert a <= i && i + |part| <= b;
    forall j | 0 <= j < |part| ensures Lower(core)[i - a + j] == part[j] { assert core[i - a + j] == s[i + j]; }
    assert StandsAt(Lower(core), i - a, part);
  }

  /** A part without spaces is found after trimming and lowering exactly where the text mentions it. */
  lemma MentionsIs(s: string, part: string)
    requires part != [] && forall i :: 0 <= i < |part| ==> !IsSpace(part[i])
    ensures Contains(Lower(TrimSpace(s)), part) <==> Mentions(s, part)
  {
    var a, b := TrimIsSlice(s);
    ContainsIsOccurs(Lower(s[a..b]), part);
    if Occurs(Lower(s[a..b]), part) { FoundIsMentioned(s, a, b, part); }
    if Mentions(s, part) { MentionedIsFound(s, a, b, part); }
  }

  lemma NotSpace(s: string, i: nat, part: string, j: nat)
    requires AtFolded(s, i, part) && j < |part| && !IsSpace(part[j])
    ensures !IsSpace(s[i + j])
  {
    assert LowerChar(s[i + j]) == part[j];
  }

  // Order of names, character by character.

  predicate Less(a: string, b: string) {
    b != [] && (a == [] || a[0] < b[0] || (a[0] == b[0] && Less(a[1..], b[1..])))
  }

  lemma {:induction false} LessTotal(a: string, b: string)
    ensures a == b || Less(a, b) || Less(b, a)
    ensures !(Less(a, b) && Less(b, a)) && !Less(a, a)
  {
    if a != [] && b != [] && a[0] == b[0] {
      LessTotal(a[1..], b[1..]);
      assert a == [a[0]] + a[1..] && b == [b[0]] + b[1..];
    }
    if a != [] { LessTotal(a[1..], a[1..]); }
  }

  lemma {:induction false} LessTransitive(a: string, b: string, c: string)
    requires Less(a, b) && Less(b, c)
    ensures Less(a, c)
  {
    if a != [] && a[0] == b[0] == c[0] { LessTransitive(a[1..], b[1..], c[1..]); }
  }

  /** The texts agree up to k, where a ends or has the smaller character. */
  predicate SmallerAt(a: string, b: string, k: nat) {
    k <= |a| && k < |b| && (forall i | 0 <= i < k :: a[i] == b[i]) && (k == |a| || a[k] < b[k])
  }

  lemma {:induction false} LessMeans(a: string, b: string)
    ensures Less(a, b) <==> exists k: nat :: SmallerAt(a, b, k)
  {
    if a != [] && b != [] && a[0] == b[0] {
      LessMeans(a[1..], b[1..]);
      if Less(a, b) {
        var k: nat :| SmallerAt(a[1..], b[1..], k);
        assert forall i :: 0 < i < k + 1 ==> a[i] == a[1..][i - 1] && b[i] == b[1..][i - 1];
        assert SmallerAt(a, b, k + 1);
      }
      if k: nat :| SmallerAt(a, b, k) { assert SmallerAt(a[1..], b[1..], k - 1); }
    } else if b != [] {
      assert Less(a, b) ==> SmallerAt(a, b, 0);
    }
  }
}
