/** The two framings of the MCP stdio transport (mcp_stdio.go): a JSON message per line, or a Content-Length
    header, a blank line and a body. */
module McpFraming {
  import opened Texts

  const NEWLINE := 0x0a

  /** The length of the blank character a text starts with, 0 when it starts with none. Blanks beyond ASCII are
      the ones of Unicode, by their UTF-8 bytes. */
  function BlankAtStart(t: Bytes): (n: nat)
    ensures n <= |t|
  {
    if t == [] then 0
    else if 0x09 <= t[0] <= 0x0d || t[0] == 0x20 then 1
    else if |t| >= 2 && t[0] == 0xc2 && (t[1] == 0x85 || t[1] == 0xa0) then 2
    else if |t| >= 3 && WideBlank(t[0], t[1], t[2]) then 3
    else 0
  }

  function BlankAtEnd(t: Bytes): (n: nat)
    ensures n <= |t|
  {
    var k := |t|;
    if k == 0 then 0
    else if 0x09 <= t[k - 1] <= 0x0d || t[k - 1] == 0x20 then 1
    else if k >= 2 && t[k - 2] == 0xc2 && (t[k - 1] == 0x85 || t[k - 1] == 0xa0) then 2
    else if k >= 3 && WideBlank(t[k - 3], t[k - 2], t[k - 1]) then 3
    else 0
  }

  predicate WideBlank(a: nat, b: nat, c: nat) {
    || (a == 0xe1 && b == 0x9a && c == 0x80)
    || (a == 0xe2 && b == 0x80 && (0x80 <= c <= 0x8a || c == 0xa8 || c == 0xa9 || c == 0xaf))
    || (a == 0xe2 && b == 0x81 && c == 0x9f)
    || (a == 0xe3 && b == 0x80 && c == 0x80)
  }

  function TrimLeft(t: Bytes): Bytes
    decreases |t|
  {
    if BlankAtStart(t) == 0 then t else TrimLeft(t[BlankAtStart(t)..])
  }

  function TrimRight(t: Bytes): (r: Bytes)
    ensures |r| <= |t| && r == t[..|r|]
    decreases |t|
  {
    if BlankAtEnd(t) == 0 then t else TrimRight(t[..|t| - BlankAtEnd(t)])
  }

  function Trim(t: Bytes): Bytes {
    TrimRight(TrimLeft(t))
  }

  function Lower(b: nat): nat {
    if 'A' as int <= b <= 'Z' as int then b + 32 else b
  }

  function Ascii(t: string): (b: Bytes)
    ensures |b| == |t|
  {
    seq(|t|, i requires 0 <= i < |t| => t[i] as int)
  }

  const HEADER: Bytes := Ascii("content-length:")

  predicate IsObject(t: Bytes) {
    t != [] && t[0] == '{' as int
  }

  predicate IsLengthHeader(t: Bytes) {
    |t| >= 15 && forall i :: 0 <= i < 15 ==> Lower(t[i]) == HEADER[i]
  }

  /** What follows the first colon, or nothing. */
  function AfterColon(t: Bytes): Bytes {
    if t == [] then [] else if t[0] == ':' as int then t[1..] else AfterColon(t[1..])
  }

  function ContentLength(header: Bytes): int {
    Atoi(Trim(AfterColon(header))).value
  }

  /** How many bytes a line takes, with its newline if it has one. */
  function LineLength(t: Bytes): (n: nat)
    ensures n <= |t| && (t != [] ==> n >= 1)
  {
    if t == [] then 0 else if t[0] == NEWLINE then 1 else 1 + LineLength(t[1..])
  }

  predicate Unfinished(line: Bytes) {
    line == [] || line[|line| - 1] != NEWLINE
  }

  datatype Outcome = Message(body: Bytes, lines: bool) | Failed(why: string)

  function BodyTaken(input: Bytes, length: int): (Outcome, Bytes) {
    if length <= 0 then (Failed("EOF"), input)
    else if length > |input| then (Failed(if input == [] then "EOF" else "unexpected EOF"), [])
    else (Message(input[..length], false), input[length..])
  }

  /** Skips the rest of a header block, then takes a body of the announced length. */
  function Finished(input: Bytes, length: int): (Outcome, Bytes)
    decreases |input|
  {
    var n := LineLength(input);
    if Unfinished(input[..n]) then (Failed("EOF"), [])
    else if Trim(input[..n]) != [] then Finished(input[n..], length)
    else BodyTaken(input[n..], length)
  }

  /** One read: lines that are neither kind are skipped. */
  function MessageRead(input: Bytes): (Outcome, Bytes)
    decreases |input|
  {
    var n := LineLength(input);
    var trimmed := Trim(input[..n]);
    if IsObject(trimmed) then (Message(trimmed, true), input[n..])
    else if IsLengthHeader(trimmed) then Finished(input[n..], ContentLength(trimmed))
    else if Unfinished(input[..n]) then (Failed("EOF"), [])
    else MessageRead(input[n..])
  }

  /** A buffered reader over the bytes that are left. */
  class Reader {
    var input: Bytes

    constructor (bytes: Bytes)
      ensures input == bytes
    {
      input := bytes;
    }

    /** A line with its newline; `whole` is false at the end of the input. */
    method ReadString() returns (line: Bytes, whole: bool)
      modifies this
      ensures line == old(input)[..LineLength(old(input))] && input == old(input)[LineLength(old(input))..]
      ensures whole <==> !Unfinished(line)
    {
      var n := LineLength(input);
      line, input := input[..n], input[n..];
      whole := line != [] && line[|line| - 1] == NEWLINE;
    }

    method ReadMcpMessage() returns (outcome: Outcome)
      modifies this
      ensures (outcome, input) == MessageRead(old(input))
    {
      while true
        invariant MessageRead(input) == MessageRead(old(input))
        decreases |input|
      {
        ghost var before := input;
        var line, whole := ReadString();
        var trimmed := Trim(line);
        if IsObject(trimmed) {
          return Message(trimmed, true);
        } else if IsLengthHeader(trimmed) {
          outcome := FinishMcpFrame(ContentLength(trimmed));
          return;
        } else if !whole {
          assert before[LineLength(before)..] == [] by {
            LastLine(before);
          }
          return Failed("EOF");
        }
      }
    }

    method FinishMcpFrame(length: int) returns (outcome: Outcome)
      modifies this
      ensures (outcome, input) == Finished(old(input), length)
    {
      while true
        invariant Finished(input, length) == Finished(old(input), length)
        decreases |input|
      {
        ghost var before := input;
        var line, whole := ReadString();
        if !whole {
          assert before[LineLength(before)..] == [] by {
            LastLine(before);
          }
          return Failed("EOF");
        }
        if Trim(line) == [] {
          assert Finished(before, length) == BodyTaken(input, length);
          break;
        }
      }
      if length <= 0 {
        return Failed("EOF");
      }
      if length > |input| {
        outcome := Failed(if |input| == 0 then "EOF" else "unexpected EOF");
        input := [];
        return;
      }
      outcome := Message(input[..length], false);
      input := input[length..];
    }
  }

  lemma {:induction false} LastLine(t: Bytes)
    requires Unfinished(t[..LineLength(t)])
    ensures LineLength(t) == |t|
  {
    if t == [] {
    } else {
      if t[0] != NEWLINE {
        var n := LineLength(t[1..]);
        assert t[1..][..n] == t[1..1 + n];
        LastLine(t[1..]);
      }
    }
  }

  function LineFrame(body: Bytes): Bytes {
    body + [NEWLINE]
  }

  function LengthFrame(body: Bytes): Bytes {
    Ascii("Content-Length: ") + Itoa(|body|) + [0x0d, 0x0a, 0x0d, 0x0a] + body
  }

  class Writer {
    var output: Bytes

    constructor ()
      ensures output == []
    {
      output := [];
    }

    method WriteMcpLine(body: Bytes)
      modifies this
      ensures output == old(output) + LineFrame(body)
    {
      output := output + (body + [NEWLINE]);
    }

    method WriteMcpFrame(body: Bytes)
      modifies this
      ensures output == old(output) + LengthFrame(body)
    {
      output := output + Ascii("Content-Length: ") + Itoa(|body|) + [0x0d, 0x0a, 0x0d, 0x0a];
      output := output + body;
    }
  }
}
