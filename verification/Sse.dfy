/** Server-sent event framing: what the mock writes, line by line, and how the reader puts it together. */
module Sse {

  const PREFIX: string := "data:"

  predicate IsData(line: string) { PREFIX <= line }

  function WithoutSpace(s: string): string { if s != "" && s[0] == ' ' then s[1..] else s }

  function Payload(line: string): string
    requires IsData(line)
  {
    WithoutSpace(line[|PREFIX|..])
  }

  function Joined(data: seq<string>): string {
    if data == [] then "" else if |data| == 1 then data[0] else Joined(data[..|data| - 1]) + "\n" + data[|data| - 1]
  }

  function Flush(data: seq<string>): seq<string> { if data == [] then [] else [Joined(data)] }

  /** The messages some lines dispatch, after the data lines already collected. */
  function Messages(lines: seq<string>, data: seq<string>): seq<string>
    decreases |lines|
  {
    if lines == [] then Flush(data)
    else if lines[0] == "" then Flush(data) + Messages(lines[1..], [])
    else if IsData(lines[0]) then Messages(lines[1..], data + [Payload(lines[0])])
    else Messages(lines[1..], data)
  }

  method ReadSSE(lines: seq<string>) returns (accepted: seq<string>)
    ensures accepted == Messages(lines, [])
  {
    accepted := [];
    var data: seq<string> := [];
    var i := 0;
    while i < |lines|
      invariant 0 <= i <= |lines|
      invariant accepted + Messages(lines[i..], data) == Messages(lines, [])
    {
      var line := lines[i];
      assert lines[i..][0] == line && lines[i..][1..] == lines[i + 1..];
      if line == "" {
        assert accepted + (Flush(data) + Messages(lines[i + 1..], [])) ==
          (accepted + Flush(data)) + Messages(lines[i + 1..], []);
        if |data| > 0 { accepted := accepted + [Joined(data)]; }
        data := [];
      } else if IsData(line) {
        data := data + [Payload(line)];
      }
      i := i + 1;
    }
    assert lines[i..] == [];
    if |data| > 0 { accepted := accepted + [Joined(data)]; }
  }

  // Any lines at all.

  /** What the data lines of a block say, in order. */
  function DataOf(lines: seq<string>): seq<string> {
    if lines == [] then [] else
      var init, last := lines[..|lines| - 1], lines[|lines| - 1];
      if PREFIX <= last then DataOf(init) + [WithoutSpace(last[5..])] else DataOf(init)
  }

  /** A block without a blank line is one message, its data lines joined by newlines, or none without a data line. */
  lemma {:induction false} BlockReads(lines: seq<string>, n: nat)
    requires n <= |lines| && "" !in lines
    ensures Messages(lines[n..], DataOf(lines[..n])) == if DataOf(lines) == [] then [] else [Joined(DataOf(lines))]
    decreases |lines| - n
  {
    if n == |lines| {
      assert lines[..n] == lines;
    } else {
      assert lines[n] in lines;
      assert lines[n..][0] == lines[n] && lines[n..][1..] == lines[n + 1..];
      assert lines[..n + 1][..n] == lines[..n];
      BlockReads(lines, n + 1);
    }
  }

  /** A blank line ends a message: what comes after it is read on its own. */
  lemma {:induction false} BlankSeparates(lines: seq<string>, rest: seq<string>, data: seq<string>)
    ensures Messages(lines + [""] + rest, data) == Messages(lines, data) + Messages(rest, [])
    decreases |lines|
  {
    if lines == [] {
      assert ([] + [""] + rest)[1..] == rest;
    } else {
      var all := lines + [""] + rest;
      assert all[0] == lines[0] && all[1..] == lines[1..] + [""] + rest;
      var next := if lines[0] == "" then [] else if IsData(lines[0]) then data + [Payload(lines[0])] else data;
      BlankSeparates(lines[1..], rest, next);
    }
  }

  /** A message as it is written: an optional event line, one data line, a blank line. */
  datatype Message = Message(event: string, payload: string)

  function Written(m: Message): seq<string> {
    (if m.event == "" then [] else ["event: " + m.event]) + ["data: " + m.payload, ""]
  }

  function WrittenAll(ms: seq<Message>): seq<string> { if ms == [] then [] else Written(ms[0]) + WrittenAll(ms[1..]) }

  function Payloads(ms: seq<Message>): seq<string> { if ms == [] then [] else [ms[0].payload] + Payloads(ms[1..]) }

  lemma DataLine(payload: string)
    ensures IsData("data: " + payload) && Payload("data: " + payload) == payload && "data: " + payload != ""
  {
    var line := "data: " + payload;
    assert line[..5] == PREFIX;
    assert line[5..] == " " + payload;
    assert (" " + payload)[1..] == payload;
  }

  lemma EventLine(event: string)
    ensures !IsData("event: " + event) && "event: " + event != ""
  {
    assert ("event: " + event)[0] == 'e' && PREFIX[0] == 'd';
  }

  lemma OneMessage(m: Message, rest: seq<string>)
    ensures Messages(Written(m) + rest, []) == [m.payload] + Messages(rest, [])
  {
    DataLine(m.payload);
    var body := ["data: " + m.payload, ""] + rest;
    assert body[1..] == [""] + rest && ([""] + rest)[1..] == rest;
    assert [] + [m.payload] == [m.payload];
    assert Messages([""] + rest, [m.payload]) == Flush([m.payload]) + Messages(rest, []);
    assert Messages(body, []) == [m.payload] + Messages(rest, []);
    if m.event == "" {
      assert Written(m) + rest == body;
    } else {
      EventLine(m.event);
      assert Written(m) + rest == ["event: " + m.event] + body;
      assert (["event: " + m.event] + body)[1..] == body;
    }
  }

  /** Reading what was written gives back the payloads, in order and whole. */
  lemma {:induction false} FramingRoundTrip(ms: seq<Message>)
    ensures Messages(WrittenAll(ms), []) == Payloads(ms)
  {
    if ms != [] {
      OneMessage(ms[0], WrittenAll(ms[1..]));
      FramingRoundTrip(ms[1..]);
    }
  }

  /** A stream cut inside a message, after its data line, still dispatches that message at its end; cut
      before it, nothing of the message is seen. */
  lemma {:induction false} CutRoundTrip(ms: seq<Message>, m: Message)
    ensures Messages(WrittenAll(ms) + ["data: " + m.payload], []) == Payloads(ms) + [m.payload]
    ensures Messages(WrittenAll(ms) + (if m.event == "" then [] else ["event: " + m.event]), []) == Payloads(ms)
  {
    if ms == [] {
      DataLine(m.payload);
      assert [] + [m.payload] == [m.payload];
      var one := ["data: " + m.payload];
      assert [] + one == one && one[1..] == [];
      assert Messages(one, []) == Flush([m.payload]);
      if m.event != "" {
        EventLine(m.event);
        var line := ["event: " + m.event];
        assert [] + line == line && line[1..] == [];
      }
    } else {
      var rest := WrittenAll(ms[1..]);
      CutRoundTrip(ms[1..], m);
      OneMessage(ms[0], rest + ["data: " + m.payload]);
      assert WrittenAll(ms) + ["data: " + m.payload] == Written(ms[0]) + (rest + ["data: " + m.payload]);
      var tail := if m.event == "" then [] else ["event: " + m.event];
      OneMessage(ms[0], rest + tail);
      assert WrittenAll(ms) + tail == Written(ms[0]) + (rest + tail);
      assert [ms[0].payload] + (Payloads(ms[1..]) + [m.payload]) == Payloads(ms) + [m.payload];
    }
  }
}
