/** What is written in either framing is read back, one message a read. */
module McpLaws {
  import opened Texts
  import opened McpFraming

  predicate OneLine(t: Bytes) {
    forall i :: 0 <= i < |t| ==> t[i] != NEWLINE
  }

  lemma {:induction false} LineOf(t: Bytes, rest: Bytes)
    requires OneLine(t)
    ensures var all := t + [NEWLINE] + rest;
      LineLength(all) == |t| + 1 && all[..|t| + 1] == t + [NEWLINE] && all[|t| + 1..] == rest
  {
    var all := t + [NEWLINE] + rest;
    if t == [] {
      assert all[0] == NEWLINE;
    } else {
      assert all[1..] == t[1..] + [NEWLINE] + rest;
      LineOf(t[1..], rest);
    }
  }

  lemma {:induction false} LineSplits(t: Bytes)
    ensures var n := LineLength(t);
      (forall i :: 0 <= i < n - 1 ==> t[i] != NEWLINE) && (n > 0 && t[n - 1] != NEWLINE ==> n == |t|)
  {
    if t == [] || t[0] == NEWLINE {
    } else {
      LineSplits(t[1..]);
    }
  }

  lemma TrimNewline(t: Bytes)
    ensures TrimRight(t + [NEWLINE]) == TrimRight(t)
  {
    assert (t + [NEWLINE])[..|t|] == t;
  }

  /** A text survives trimming when no blank stands at either end. */
  lemma TrimTight(t: Bytes)
    requires BlankAtStart(t) == 0 && BlankAtEnd(t) == 0
    ensures Trim(t) == t && TrimLeft(t + [NEWLINE]) == (if t == [] then [] else t + [NEWLINE])
  {
    if t == [] {
      assert (t + [NEWLINE])[1..] == [];
    } else {
      assert BlankAtStart(t + [NEWLINE]) == 0 by {
        var u := t + [NEWLINE];
        assert forall i :: 0 <= i < |t| ==> u[i] == t[i];
      }
    }
  }

  lemma {:induction false} TrimmedEnd(t: Bytes)
    ensures BlankAtEnd(TrimRight(t)) == 0
    decreases |t|
  {
    if BlankAtEnd(t) == 0 {
    } else {
      TrimmedEnd(t[..|t| - BlankAtEnd(t)]);
    }
  }

  /** What line framing asks of a body. */
  predicate LineBody(body: Bytes) {
    IsObject(body) && OneLine(body) && BlankAtEnd(body) == 0
  }

  lemma LineRead(body: Bytes, rest: Bytes)
    requires LineBody(body)
    ensures MessageRead(LineFrame(body) + rest) == (Message(body, true), rest)
  {
    LineOf(body, rest);
    TrimTight(body);
    TrimNewline(body);
  }

  lemma {:induction false} TrimLeftSuffix(t: Bytes)
    ensures |TrimLeft(t)| <= |t| && TrimLeft(t) == t[|t| - |TrimLeft(t)|..] && BlankAtStart(TrimLeft(t)) == 0
    decreases |t|
  {
    hide BlankAtStart;
    var n := BlankAtStart(t);
    if n == 0 {
      assert TrimLeft(t) == t;
    } else {
      TrimLeftSuffix(t[n..]);
      assert TrimLeft(t) == t[n..][|t| - n - |TrimLeft(t)|..];
    }
  }

  /** A trimmed line holds no newline, and ends in no blank. */
  lemma TrimmedLine(t: Bytes)
    requires forall i :: 0 <= i < |t| - 1 ==> t[i] != NEWLINE
    ensures OneLine(Trim(t)) && BlankAtEnd(Trim(t)) == 0
  {
    var left := TrimLeft(t);
    TrimLeftSuffix(t);
    TrimmedEnd(left);
    var r := Trim(t);
    assert r == left[..|r|];
    assert r != [] ==> r[|r| - 1] != NEWLINE;
    forall i | 0 <= i < |r| - 1
      ensures r[i] != NEWLINE
    {
      assert r[i] == left[i] == t[|t| - |left| + i];
    }
  }

  /** Whatever the input, a message read from a line is a fit body for a line. */
  lemma {:induction false} ReadLineIsFit(input: Bytes)
    requires MessageRead(input).0.Message? && MessageRead(input).0.lines
    ensures LineBody(MessageRead(input).0.body)
    decreases |input|
  {
    var n := LineLength(input);
    LineSplits(input);
    TrimmedLine(input[..n]);
    if IsObject(Trim(input[..n])) {
    } else if IsLengthHeader(Trim(input[..n])) {
      FinishedIsFramed(input[n..], ContentLength(Trim(input[..n])));
    } else if !Unfinished(input[..n]) {
      ReadLineIsFit(input[n..]);
    }
  }

  lemma {:induction false} FinishedIsFramed(input: Bytes, length: int)
    ensures Finished(input, length).0.Message? ==> !Finished(input, length).0.lines
    decreases |input|
  {
    var n := LineLength(input);
    if !Unfinished(input[..n]) && Trim(input[..n]) != [] {
      FinishedIsFramed(input[n..], length);
    }
  }

  /** Line framing gives back exactly the bodies that start an object, hold no newline and end in no blank. */
  lemma LineRoundTripIff(body: Bytes, rest: Bytes)
    ensures MessageRead(LineFrame(body) + rest) == (Message(body, true), rest) <==> LineBody(body)
  {
    if LineBody(body) {
      LineRead(body, rest);
    } else if MessageRead(LineFrame(body) + rest) == (Message(body, true), rest) {
      ReadLineIsFit(LineFrame(body) + rest);
    }
  }

  lemma {:induction false} DigitsTight(t: Bytes)
    requires AllDigits(t)
    ensures BlankAtStart(t) == 0 && BlankAtEnd(t) == 0
  {
  }

  const TITLE: Bytes := Ascii("Content-Length: ")

  lemma TitleIs()
    ensures |TITLE| == 16 && OneLine(TITLE) && TITLE[0] == 'C' as int && TITLE[14] == ':' as int && TITLE[15] == 0x20
    ensures forall i :: 0 <= i < 14 ==> TITLE[i] != ':' as int
    ensures forall i :: 0 <= i < 15 ==> Lower(TITLE[i]) == HEADER[i]
  {
  }

  lemma {:induction false} ColonAt(t: Bytes, k: nat)
    requires k < |t| && t[k] == ':' as int && forall i :: 0 <= i < k ==> t[i] != ':' as int
    ensures AfterColon(t) == t[k + 1..]
  {
    if k == 0 {
    } else {
      ColonAt(t[1..], k - 1);
    }
  }

  lemma HeaderTrims(header: Bytes)
    requires header != [] && BlankAtStart(header) == 0 && BlankAtEnd(header) == 0 && header[0] < 0x80
    ensures Trim(header + [0x0d, NEWLINE]) == header
  {
    var line := header + [0x0d, NEWLINE];
    assert BlankAtStart(line) == 0;
    assert line == header + [0x0d] + [NEWLINE];
    TrimNewline(header + [0x0d]);
    assert (header + [0x0d])[..|header|] == header;
    assert BlankAtEnd(header + [0x0d]) == 1;
  }

  lemma HeaderLength(digits: Bytes)
    requires AllDigits(digits) && digits != []
    ensures ContentLength(TITLE + digits) == Atoi(digits).value
  {
    var header := TITLE + digits;
    TitleIs();
    DigitsTight(digits);
    ColonAt(header, 14);
    assert header[15..] == [0x20] + digits;
    TrimTight(digits);
    SpaceTrims(digits);
  }

  lemma SpaceTrims(t: Bytes)
    requires BlankAtStart(t) == 0
    ensures TrimLeft([0x20] + t) == t
  {
    var u := [0x20] + t;
    assert BlankAtStart(u) == 1 && u[1..] == t;
    assert TrimLeft(t) == t;
  }

  lemma TitleAhead(digits: Bytes)
    requires AllDigits(digits) && digits != []
    ensures var header := TITLE + digits;
      header[0] == 'C' as int && BlankAtStart(header) == 0 && BlankAtEnd(header) == 0 && IsLengthHeader(header)
  {
    var header := TITLE + digits;
    TitleIs();
    assert header[|header| - 1] == digits[|digits| - 1];
    assert forall i :: 0 <= i < 15 ==> header[i] == TITLE[i];
  }

  /** The header line as read: trimmed, recognised, and its length parsed. */
  lemma HeaderLine(n: nat)
    requires n <= MAX_INT
    ensures var header := TITLE + Itoa(n);
      Trim(header + [0x0d, NEWLINE]) == header && IsLengthHeader(header) && !IsObject(header)
        && ContentLength(header) == n
  {
    var digits := Itoa(n);
    var header := TITLE + digits;
    TitleIs();
    ItoaDigits(n);
    AtoiItoa(n);
    HeaderLength(digits);
    hide Itoa, Atoi, Trim, ContentLength;
    TitleAhead(digits);
    HeaderTrims(header);
  }

  lemma EmptyLine(rest: Bytes)
    ensures var all := [0x0d, NEWLINE] + rest;
      LineLength(all) == 2 && all[..2] == [0x0d, NEWLINE] && all[2..] == rest && Trim([0x0d, NEWLINE]) == []
  {
    LineOf([0x0d], rest);
    assert [0x0d] + [NEWLINE] + rest == [0x0d, NEWLINE] + rest;
    var line: Bytes, last: Bytes := [0x0d, NEWLINE], [NEWLINE];
    assert line[1..] == last && last[1..] == [];
    assert BlankAtStart(line) == 1 && BlankAtStart(last) == 1;
    assert TrimLeft(last) == [] && TrimLeft(line) == [];
  }

  lemma LengthRead(body: Bytes, rest: Bytes)
    requires |body| <= MAX_INT
    ensures MessageRead(LengthFrame(body) + rest) == BodyTaken(body + rest, |body|)
  {
    var header := TITLE + Itoa(|body|);
    var after := [0x0d, NEWLINE] + (body + rest);
    TitleIs();
    ItoaDigits(|body|);
    HeaderLine(|body|);
    assert LengthFrame(body) + rest == (header + [0x0d]) + [NEWLINE] + after;
    assert OneLine(header + [0x0d]);
    LineOf(header + [0x0d], after);
    assert header + [0x0d] + [NEWLINE] == header + [0x0d, NEWLINE];
    EmptyLine(body + rest);
  }

  /** Length framing gives back exactly the nonempty bodies. */
  lemma LengthRoundTripIff(body: Bytes, rest: Bytes)
    requires |body| <= MAX_INT
    ensures MessageRead(LengthFrame(body) + rest) == (Message(body, false), rest) <==> body != []
  {
    LengthRead(body, rest);
    assert (body + rest)[..|body|] == body && (body + rest)[|body|..] == rest;
  }

  predicate Fit(m: Outcome) {
    m.Message? && if m.lines then LineBody(m.body) else 0 < |m.body| <= MAX_INT
  }

  function FrameOf(m: Outcome): Bytes {
    if m.Failed? then [] else if m.lines then LineFrame(m.body) else LengthFrame(m.body)
  }

  function Frames(messages: seq<Outcome>): Bytes {
    if messages == [] then [] else FrameOf(messages[0]) + Frames(messages[1..])
  }

  /** The outcomes of n reads, and what is left. */
  function Reads(input: Bytes, n: nat): (seq<Outcome>, Bytes)
    decreases n
  {
    if n == 0 then ([], input)
    else
      var (first, rest) := MessageRead(input);
      var (later, left) := Reads(rest, n - 1);
      ([first] + later, left)
  }

  /** Any sequence of messages in any mix of the two framings is read back: the same bodies, the same framing
      flags, each read consuming exactly one message. */
  lemma {:induction false} MixedRoundTrip(messages: seq<Outcome>, rest: Bytes)
    requires forall i :: 0 <= i < |messages| ==> Fit(messages[i])
    ensures Reads(Frames(messages) + rest, |messages|) == (messages, rest)
  {
    if messages == [] {
      assert Frames(messages) + rest == rest;
    } else {
      var m := messages[0];
      var after := Frames(messages[1..]) + rest;
      assert Frames(messages) + rest == FrameOf(m) + after;
      LineRoundTripIff(m.body, after);
      if !m.lines {
        LengthRoundTripIff(m.body, after);
      }
      MixedRoundTrip(messages[1..], rest);
      assert [m] + messages[1..] == messages;
    }
  }
}
