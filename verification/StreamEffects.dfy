/** The bytes of a terminal frame, and what is made of a buffer, byte by byte. */
module StreamEffects {
  import opened Wrappers
  import opened TerminalStream
  import opened TerminalStreamLaws

  const TITLE: Bytes := [0x4f, 0x44, 0x54, 0x31]
  const SIXTEEN_MIB := 16_777_216

  /** The 32-bit number that four bytes hold, the most significant first. */
  function Word(b: Bytes, at: nat): nat
    requires at + 4 <= |b|
  {
    0x100_0000 * (b[at] as int) + 0x1_0000 * (b[at + 1] as int) + 0x100 * (b[at + 2] as int) + b[at + 3]
  }

  /** The signed 64-bit number that eight bytes hold. */
  function Long(b: Bytes, at: nat): int
    requires at + 8 <= |b|
  {
    var u := 0x1_0000_0000 * Word(b, at) + Word(b, at + 4);
    if u >= 0x8000_0000_0000_0000 then u - 0x1_0000_0000_0000_0000 else u
  }

  lemma TwoBytes(b: Bytes)
    requires |b| >= 2
    ensures FromBigEndian(b) == 0x1_0000 * FromBigEndian(b[..|b| - 2]) + 0x100 * (b[|b| - 2] as int) + b[|b| - 1]
  {
    assert b[..|b| - 1][..|b| - 2] == b[..|b| - 2];
  }

  lemma FourBytes(b: Bytes)
    requires |b| >= 4
    ensures FromBigEndian(b) == 0x1_0000_0000 * FromBigEndian(b[..|b| - 4]) + Word(b, |b| - 4)
  {
    TwoBytes(b);
    TwoBytes(b[..|b| - 2]);
    assert b[..|b| - 2][..|b| - 4] == b[..|b| - 4];
  }

  lemma WordIs(b: Bytes, at: nat)
    requires at + 4 <= |b|
    ensures FromBigEndian(b[at..at + 4]) == Word(b, at)
  {
    FourBytes(b[at..at + 4]);
  }

  lemma LongIs(b: Bytes, at: nat)
    requires at + 8 <= |b|
    ensures Signed64(FromBigEndian(b[at..at + 8])) == Long(b, at)
  {
    var c := b[at..at + 8];
    FourBytes(c);
    FourBytes(c[..4]);
  }

  /** The header: four letters, kind, flags, sequence and payload length, then the payload. */
  lemma WireIs(f: Frame)
    requires Representable(f)
    ensures var b := Wire(f);
      && |b| == 18 + |f.payload| && b[..4] == TITLE && b[4] == f.kind && b[5] == f.flags
      && Long(b, 6) == f.sequence && Word(b, 14) == |f.payload| && b[18..] == f.payload
  {
    var b := Wire(f);
    WireParts(f);
    Powers();
    BigEndianBack(Unsigned64(f.sequence), 8);
    BigEndianBack(|f.payload|, 4);
    SignedBack(f.sequence);
    WordIs(b, 14);
    LongIs(b, 6);
  }

  /** Encoding refuses exactly the payloads above 16 MiB. */
  lemma EncodedIs(f: Frame)
    ensures Encoded(f) == if |f.payload| > SIXTEEN_MIB then Err("frame too large") else Ok(Wire(f))
  {
  }

  /** Decoding refuses, in this order, a buffer without a whole header, other letters, and a length that is not that of
      the rest; it accepts payloads of any length. */
  lemma DecodedIs(b: Bytes)
    ensures Decoded(b) ==
      if |b| < 18 then Err("short frame")
      else if b[..4] != TITLE then Err("bad magic")
      else if |b| != 18 + Word(b, 14) then Err("bad length")
      else Ok(Frame(b[4], b[5], Long(b, 6), b[18..]))
  {
    if |b| >= 18 {
      WordIs(b, 14);
      LongIs(b, 6);
    }
  }

  lemma HeadIs(b: Bytes)
    ensures HeadOf(b) ==
      if |b| < 18 then More
      else if b[..4] != TITLE then Bad("bad magic")
      else if Word(b, 14) > SIXTEEN_MIB then Bad("bad length")
      else if |b| < 18 + Word(b, 14) then More
      else Whole(Frame(b[4], b[5], Long(b, 6), b[18..18 + Word(b, 14)]), 18 + Word(b, 14))
  {
    hide Decoded, FromBigEndian;
    if |b| >= 18 {
      WordIs(b, 14);
      if b[..4] == TITLE && Word(b, 14) <= |b| - 18 {
        WholeDecodes(b);
      }
    }
  }

  lemma WholeDecodes(b: Bytes)
    requires |b| >= 18 && b[..4] == TITLE && |b| >= 18 + Word(b, 14)
    ensures var end := 18 + Word(b, 14); Decoded(b[..end]) == Ok(Frame(b[4], b[5], Long(b, 6), b[18..end]))
  {
    hide Decoded, FromBigEndian;
    var whole := b[..18 + Word(b, 14)];
    DecodedIs(whole);
    assert whole[..4] == b[..4];
    assert Word(whole, 14) == Word(b, 14) && Long(whole, 6) == Long(b, 6);
  }

  /** A split stops, keeping the buffer, when it is short of a header or of the payload it announces; it fails, keeping
      it, on other letters and on an announced length above 16 MiB. */
  lemma SplitStops(b: Bytes)
    ensures |b| < 18 ==> SplitOf(b) == Split([], b, None)
    ensures |b| >= 18 ==>
      && (b[..4] != TITLE ==> SplitOf(b) == Split([], b, Some("bad magic")))
      && (b[..4] == TITLE && Word(b, 14) > SIXTEEN_MIB ==> SplitOf(b) == Split([], b, Some("bad length")))
      && (b[..4] == TITLE && |b| - 18 < Word(b, 14) <= SIXTEEN_MIB ==> SplitOf(b) == Split([], b, None))
  {
    hide HeadOf, SplitOf, Word;
    HeadIs(b);
    SplitUnfolds(b);
  }

  /** Otherwise it takes one frame off the buffer and goes on with what follows. */
  lemma SplitGoesOn(b: Bytes)
    requires |b| >= 18 && b[..4] == TITLE && Word(b, 14) <= SIXTEEN_MIB && Word(b, 14) <= |b| - 18
    ensures var end := 18 + Word(b, 14);
      var first, later := Frame(b[4], b[5], Long(b, 6), b[18..end]), SplitOf(b[end..]);
      SplitOf(b) == Split([first] + later.frames, later.rest, later.error)
  {
    hide HeadOf, SplitOf, Word, Long;
    HeadIs(b);
    SplitUnfolds(b);
  }

  /** An empty read changes nothing. Any other is added to what was pending and split: the frames go out, and what is
      left stays, unless the split failed without a frame. */
  lemma ReadLeaves(pending: Bytes, chunk: Bytes)
    ensures var all := SplitOf(pending + chunk);
      Streamed(pending, [chunk]) ==
        if chunk == [] then ([], pending)
        else if all.error.Some? && all.frames == [] then ([], [])
        else (all.frames, all.rest)
  {
    hide SplitOf;
    var none: seq<Bytes> := [];
    assert [chunk][1..] == none;
    var all := SplitOf(pending + chunk);
    assert Streamed(pending, none) == ([], pending);
    assert all.frames + [] == all.frames;
    if chunk != [] {
      var next := Fed(pending, chunk).1;
      assert Streamed(next, none) == ([], next);
    }
  }

  /** Reads happen in turn, each on what the one before left. */
  lemma ReadsInTurn(pending: Bytes, chunks: seq<Bytes>)
    requires chunks != []
    ensures var first := Streamed(pending, [chunks[0]]);
      var later := Streamed(first.1, chunks[1..]);
      Streamed(pending, chunks) == (first.0 + later.0, later.1)
  {
    hide SplitOf;
    ReadLeaves(pending, chunks[0]);
    var later := Streamed(pending, chunks[1..]);
    assert [] + later.0 == later.0;
  }
}
