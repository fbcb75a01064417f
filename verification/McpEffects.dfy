/** What one read of the MCP transport makes of its input, line by line, and what the number parser accepts. */
module McpEffects {
  import opened Texts
  import opened McpFraming
  import opened McpLaws

  const TOP := 0x7fff_ffff_ffff_ffff

  lemma {:induction false} DigitsIff(t: Bytes)
    ensures Digits(t).Some? <==> AllDigits(t)
  {
    if t == [] {
    } else {
      var front := t[..|t| - 1];
      DigitsIff(front);
      assert forall i :: 0 <= i < |front| ==> front[i] == t[i];
      assert t == front + [t[|t| - 1]];
    }
  }

  /** Zeros in front do not count. */
  lemma {:induction false} ZeroInFront(t: Bytes)
    ensures Digits(['0' as int] + t) == Digits(t)
  {
    var all := ['0' as int] + t;
    if t == [] {
      assert all[..0] == [];
    } else {
      assert all[..|t|] == ['0' as int] + t[..|t| - 1];
      ZeroInFront(t[..|t| - 1]);
    }
  }

  /** A run of digits reads as its number, or as the greatest 64-bit number when it is more than that. */
  lemma UnsignedReads(t: Bytes)
    requires t != [] && AllDigits(t)
    ensures Digits(t).Some?
    ensures Atoi(t) == if Digits(t).value <= TOP then Parsed(Digits(t).value, true) else Parsed(TOP, false)
    ensures Atoi(['+' as int] + t) == Atoi(t)
  {
    DigitsIff(t);
    assert (['+' as int] + t)[1..] == t;
  }

  lemma NegativeReads(t: Bytes)
    requires t != [] && AllDigits(t)
    ensures Digits(t).Some?
    ensures Atoi(['-' as int] + t) ==
      if Digits(t).value <= TOP + 1 then Parsed(-(Digits(t).value as int), true) else Parsed(-TOP - 1, false)
  {
    DigitsIff(t);
    assert (['-' as int] + t)[1..] == t;
  }

  /** A number is an optional sign and at least one digit; without them the value is 0. */
  lemma NoDigits(sign: Bytes)
    requires sign in [[], ['+' as int], ['-' as int]]
    ensures Atoi(sign) == Parsed(0, false)
  {
    assert sign != [] ==> sign[1..] == [];
  }

  lemma {:induction false} LeadingAre(t: Bytes, rest: Bytes)
    requires AllDigits(t) && (rest == [] || !('0' as int <= rest[0] <= '9' as int))
    ensures LeadingDigits(t + rest) == |t|
  {
    if t == [] {
      assert t + rest == rest;
    } else {
      assert (t + rest)[1..] == t[1..] + rest;
      LeadingAre(t[1..], rest);
    }
  }

  lemma OtherDigits(t: Bytes, x: nat, rest: Bytes)
    requires AllDigits(t) && !('0' as int <= x <= '9' as int)
    ensures Digits(t).Some? && Digits(t + [x] + rest).None?
    ensures Overflows(t + [x] + rest) <==> Digits(t).value >= 2 * (TOP + 1)
  {
    hide Digits;
    var digits := t + [x] + rest;
    DigitsIff(t);
    DigitsIff(digits);
    assert digits[|t|] == x;
    assert digits == t + ([x] + rest);
    LeadingAre(t, [x] + rest);
    assert digits[..|t|] == t;
  }

  /** Another character makes it no number: the value is 0, or the greatest number of the sign when the digits before
      the character already exceed 64 bits. */
  lemma OtherReads(sign: Bytes, t: Bytes, x: nat, rest: Bytes)
    requires sign in [[], ['+' as int], ['-' as int]] && AllDigits(t) && !('0' as int <= x <= '9' as int)
    requires sign == [] && t == [] ==> x != '+' as int && x != '-' as int
    ensures Digits(t).Some?
    ensures Atoi(sign + (t + [x] + rest)) ==
      Parsed(if Digits(t).value < 2 * (TOP + 1) then 0 else if sign == ['-' as int] then -TOP - 1 else TOP, false)
  {
    hide Digits, Overflows;
    OtherDigits(t, x, rest);
    var digits := t + [x] + rest;
    var all := sign + digits;
    assert digits[0] == if t == [] then x else t[0];
    assert all[|sign|..] == digits;
  }

  lemma LengthIs(header: Bytes)
    requires IsLengthHeader(header)
    ensures ContentLength(header) == Atoi(Trim(header[15..])).value
  {
    hide Atoi, Trim;
    TitleIs();
    assert forall i :: 0 <= i < 15 ==> Lower(header[i]) == Lower(McpLaws.TITLE[i]);
    ColonAt(header, 14);
  }

  /** A text made of blank characters only. */
  predicate Blank(t: Bytes)
    decreases |t|
  {
    t == [] || (BlankAtStart(t) > 0 && Blank(t[BlankAtStart(t)..]))
  }

  predicate BlankBack(t: Bytes)
    decreases |t|
  {
    t == [] || (BlankAtEnd(t) > 0 && BlankBack(t[..|t| - BlankAtEnd(t)]))
  }

  /** What trimming gives: the stretch between the blanks in front and the blanks behind. */
  predicate Between(t: Bytes, a: int, b: int) {
    && 0 <= a <= b <= |t| && Blank(t[..a]) && BlankBack(t[b..])
    && BlankAtStart(t[a..b]) == 0 && BlankAtEnd(t[a..b]) == 0
  }

  lemma {:induction false} LeftIs(t: Bytes)
    ensures |TrimLeft(t)| <= |t| && Blank(t[..|t| - |TrimLeft(t)|])
    decreases |t|
  {
    hide BlankAtStart;
    TrimLeftSuffix(t);
    var n := BlankAtStart(t);
    if n == 0 {
    } else {
      var front := t[..|t| - |TrimLeft(t)|];
      TrimLeftSuffix(t[n..]);
      LeftIs(t[n..]);
      assert front[n..] == t[n..][..|t[n..]| - |TrimLeft(t[n..])|];
      BlankInFront(t, |front|);
    }
  }

  lemma BlankInFront(t: Bytes, k: nat)
    requires BlankAtStart(t) <= k <= |t|
    ensures BlankAtStart(t[..k]) == BlankAtStart(t)
  {
    var front := t[..k];
    assert forall i :: 0 <= i < k ==> front[i] == t[i];
  }

  lemma BlankBehind(t: Bytes, k: nat)
    requires k <= |t| && BlankAtEnd(t) <= |t| - k
    ensures BlankAtEnd(t[k..]) == BlankAtEnd(t)
  {
    var back := t[k..];
    assert forall i :: 0 <= i < |back| ==> back[i] == t[k + i];
  }

  lemma {:induction false} RightIs(t: Bytes)
    ensures BlankBack(t[|TrimRight(t)|..])
    decreases |t|
  {
    var n := BlankAtEnd(t);
    if n == 0 {
    } else {
      var left := t[..|t| - n];
      var back := t[|TrimRight(t)|..];
      RightIs(left);
      assert back[..|back| - n] == left[|TrimRight(left)|..];
      BlankBehind(t, |TrimRight(t)|);
    }
  }

  lemma TrimIs(t: Bytes)
    ensures exists a, b :: Between(t, a, b) && Trim(t) == t[a..b]
  {
    var left := TrimLeft(t);
    var a := |t| - |left|;
    TrimLeftSuffix(t);
    LeftIs(t);
    TrimmedEnd(left);
    RightIs(left);
    var b := a + |Trim(t)|;
    assert t[b..] == left[|Trim(t)|..] && t[a..b] == Trim(t);
    if BlankAtStart(t[a..b]) > 0 {
      StartOfPrefix(left, |Trim(t)|);
    }
    assert Between(t, a, b);
  }

  lemma StartOfPrefix(t: Bytes, k: nat)
    requires k <= |t| && BlankAtStart(t[..k]) > 0
    ensures BlankAtStart(t) > 0
  {
    var front := t[..k];
    assert forall i :: 0 <= i < k ==> front[i] == t[i];
  }

  /** A line that starts an object is a message, without the blanks around it. */
  lemma ObjectLine(line: Bytes, rest: Bytes)
    requires OneLine(line) && IsObject(Trim(line + [NEWLINE]))
    ensures MessageRead(line + [NEWLINE] + rest) == (Message(Trim(line + [NEWLINE]), true), rest)
  {
    hide Trim, LineLength;
    LineOf(line, rest);
  }

  /** A line of neither kind is skipped. */
  lemma OtherLine(line: Bytes, rest: Bytes)
    requires OneLine(line) && !IsObject(Trim(line + [NEWLINE])) && !IsLengthHeader(Trim(line + [NEWLINE]))
    ensures MessageRead(line + [NEWLINE] + rest) == MessageRead(rest)
  {
    hide Trim, LineLength;
    LineOf(line, rest);
  }

  lemma {:induction false} LastLength(line: Bytes)
    requires OneLine(line)
    ensures LineLength(line) == |line|
  {
    if line == [] {
    } else {
      LastLength(line[1..]);
    }
  }

  /** A last line without its newline is a message when it starts an object, and the end of the input otherwise. */
  lemma LastRead(line: Bytes)
    requires OneLine(line)
    ensures MessageRead(line) == if IsObject(Trim(line)) then (Message(Trim(line), true), []) else (Failed("EOF"), [])
  {
    hide Trim, LineLength, ContentLength;
    LastLength(line);
    assert line[..|line|] == line && line[|line|..] == [];
    assert Finished([], ContentLength(Trim(line))) == (Failed("EOF"), []);
  }

  function Block(lines: seq<Bytes>): Bytes {
    if lines == [] then [] else lines[0] + [NEWLINE] + Block(lines[1..])
  }

  predicate HeaderBlock(lines: seq<Bytes>) {
    forall i :: 0 <= i < |lines| ==> OneLine(lines[i]) && Trim(lines[i] + [NEWLINE]) != []
  }

  lemma {:induction false} BlockSkipped(lines: seq<Bytes>, after: Bytes, length: int)
    requires HeaderBlock(lines)
    ensures Finished(Block(lines) + after, length) == Finished(after, length)
  {
    hide Trim, LineLength;
    if lines == [] {
      assert Block(lines) + after == after;
    } else {
      var rest := Block(lines[1..]) + after;
      assert Block(lines) + after == lines[0] + [NEWLINE] + rest;
      LineOf(lines[0], rest);
      BlockSkipped(lines[1..], after, length);
    }
  }

  lemma HeaderFirst(header: Bytes, rest: Bytes)
    requires OneLine(header) && IsLengthHeader(Trim(header + [NEWLINE]))
    ensures MessageRead(header + [NEWLINE] + rest) ==
      Finished(rest, Atoi(Trim(Trim(header + [NEWLINE])[15..])).value)
  {
    hide Trim, LineLength, Atoi, ContentLength, Finished;
    LineOf(header, rest);
    LengthIs(Trim(header + [NEWLINE]));
    HeaderIsNoObject(Trim(header + [NEWLINE]));
  }

  lemma BlankEnds(blank: Bytes, body: Bytes, length: int)
    requires OneLine(blank) && Trim(blank + [NEWLINE]) == []
    ensures Finished(blank + [NEWLINE] + body, length) ==
      if length <= 0 then (Failed("EOF"), body)
      else if length > |body| then (Failed(if body == [] then "EOF" else "unexpected EOF"), [])
      else (Message(body[..length], false), body[length..])
  {
    hide Trim, LineLength;
    LineOf(blank, body);
  }

  /** A length header, any other header lines, a blank line, and a body: the message is the announced number of bytes.
      A number that is not positive takes nothing, and one above what is left takes everything. */
  lemma HeaderRead(header: Bytes, lines: seq<Bytes>, blank: Bytes, body: Bytes)
    requires OneLine(header) && IsLengthHeader(Trim(header + [NEWLINE])) && HeaderBlock(lines)
    requires OneLine(blank) && Trim(blank + [NEWLINE]) == []
    ensures var n := Atoi(Trim(Trim(header + [NEWLINE])[15..])).value;
      MessageRead(header + [NEWLINE] + (Block(lines) + (blank + [NEWLINE] + body))) ==
        if n <= 0 then (Failed("EOF"), body)
        else if n > |body| then (Failed(if body == [] then "EOF" else "unexpected EOF"), [])
        else (Message(body[..n], false), body[n..])
  {
    hide Trim, LineLength, Atoi, ContentLength, Finished, MessageRead, Block, OneLine, HeaderBlock;
    var end := blank + [NEWLINE] + body;
    var n := Atoi(Trim(Trim(header + [NEWLINE])[15..])).value;
    HeaderFirst(header, Block(lines) + end);
    BlockSkipped(lines, end, n);
    BlankEnds(blank, body, n);
  }

  lemma HeaderIsNoObject(t: Bytes)
    requires IsLengthHeader(t)
    ensures !IsObject(t)
  {
    TitleIs();
    assert Lower(t[0]) == HEADER[0] == Lower(McpLaws.TITLE[0]);
  }

  /** Without the blank line the read ends with the input. */
  lemma HeaderCut(header: Bytes, lines: seq<Bytes>, last: Bytes)
    requires OneLine(header) && IsLengthHeader(Trim(header + [NEWLINE])) && HeaderBlock(lines) && OneLine(last)
    ensures MessageRead(header + [NEWLINE] + (Block(lines) + last)) == (Failed("EOF"), [])
  {
    hide Trim, LineLength, Atoi, MessageRead, Block;
    var n := Atoi(Trim(Trim(header + [NEWLINE])[15..])).value;
    HeaderFirst(header, Block(lines) + last);
    BlockSkipped(lines, last, n);
    LastLength(last);
    assert last[..|last|] == last;
  }
}
