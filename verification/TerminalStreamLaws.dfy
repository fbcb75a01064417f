/** Laws of the terminal stream's framing: round trips, and splitting under any partition into reads. */
module TerminalStreamLaws {
  import opened Wrappers
  import opened TerminalStream

  function Power256(k: nat): (p: nat)
    ensures p >= 1
  {
    if k == 0 then 1 else 256 * Power256(k - 1)
  }

  lemma DivLess(n: nat, p: nat)
    requires n < 256 * p
    ensures n / 256 < p
  {
  }

  lemma {:induction false} BigEndianBack(n: nat, width: nat)
    requires n < Power256(width)
    ensures FromBigEndian(BigEndian(n, width)) == n
  {
    if width == 0 {
    } else {
      DivLess(n, Power256(width - 1));
      BigEndianBack(n / 256, width - 1);
      var b := BigEndian(n, width);
      assert b[..|b| - 1] == BigEndian(n / 256, width - 1);
    }
  }

  lemma {:induction false} FromBigEndianBack(b: Bytes)
    ensures FromBigEndian(b) < Power256(|b|) && BigEndian(FromBigEndian(b), |b|) == b
  {
    if b == [] {
    } else {
      FromBigEndianBack(b[..|b| - 1]);
      var high, low := FromBigEndian(b[..|b| - 1]), b[|b| - 1];
      assert (256 * high + low) / 256 == high && (256 * high + low) % 256 == low;
      assert b == b[..|b| - 1] + [low];
    }
  }

  lemma Powers()
    ensures Power256(4) == TWO_32 && Power256(8) == TWO_64
  {
    assert Power256(2) == 0x1_0000 && Power256(3) == 0x100_0000 && Power256(4) == TWO_32;
    assert Power256(5) == 0x100_0000_0000 && Power256(6) == 0x1_0000_0000_0000 && Power256(7) == 0x100_0000_0000_0000;
  }

  lemma SignedBack(n: int)
    requires -TWO_63 <= n < TWO_63
    ensures Signed64(Unsigned64(n)) == n
  {
  }

  lemma UnsignedBack(u: nat)
    requires u < TWO_64
    ensures Unsigned64(Signed64(u)) == u && -TWO_63 <= Signed64(u) < TWO_63
  {
  }

  /** What the code's types allow: a 64-bit sequence, and a length that fits the header. */
  predicate Representable(f: Frame) {
    -TWO_63 <= f.sequence < TWO_63 && |f.payload| < TWO_32
  }

  lemma WireParts(f: Frame)
    ensures var b := Wire(f);
      && b[..4] == MAGIC && b[4] == f.kind && b[5] == f.flags && b[6..14] == BigEndian(Unsigned64(f.sequence), 8)
      && b[14..18] == BigEndian(|f.payload|, 4) && b[18..] == f.payload
  {
  }

  lemma WireDecodes(f: Frame)
    requires Representable(f)
    ensures Decoded(Wire(f)) == Ok(f)
  {
    WireParts(f);
    Powers();
    BigEndianBack(Unsigned64(f.sequence), 8);
    BigEndianBack(|f.payload|, 4);
    SignedBack(f.sequence);
  }

  lemma DecodedIsWire(b: Bytes)
    requires Decoded(b).Ok?
    ensures Representable(Decoded(b).value) && Wire(Decoded(b).value) == b
  {
    var f := Decoded(b).value;
    Powers();
    FromBigEndianBack(b[6..14]);
    FromBigEndianBack(b[14..18]);
    UnsignedBack(FromBigEndian(b[6..14]));
    assert b == b[..4] + [b[4], b[5]] + b[6..14] + b[14..18] + b[18..];
  }

  /** Decoding is the exact inverse of the wire form. */
  lemma DecodesIff(b: Bytes, f: Frame)
    ensures Decoded(b) == Ok(f) <==> Representable(f) && b == Wire(f)
  {
    if Decoded(b) == Ok(f) {
      DecodedIsWire(b);
    }
    if Representable(f) && b == Wire(f) {
      WireDecodes(f);
    }
  }

  /** Round trip: every frame within the payload limit decodes back from its encoding. */
  lemma DecodeEncode(f: Frame)
    requires -TWO_63 <= f.sequence < TWO_63
    ensures Encoded(f).Ok? <==> |f.payload| <= LIMIT
    ensures Encoded(f).Ok? ==> Decoded(Encoded(f).value) == Ok(f)
  {
    if |f.payload| <= LIMIT {
      WireDecodes(f);
    }
  }

  lemma HeadExtends(a: Bytes, b: Bytes)
    requires !HeadOf(a).More?
    ensures HeadOf(a + b) == HeadOf(a)
  {
    assert (a + b)[..4] == a[..4] && (a + b)[14..18] == a[14..18];
    var need := HEADER + FromBigEndian(a[14..18]);
    if need <= |a| {
      assert (a + b)[..need] == a[..need];
    }
  }

  lemma SplitUnfolds(b: Bytes)
    ensures HeadOf(b).More? ==> SplitOf(b) == Split([], b, None)
    ensures HeadOf(b).Bad? ==> SplitOf(b) == Split([], b, Some(HeadOf(b).why))
    ensures HeadOf(b).Whole? ==>
      var later := SplitOf(b[HeadOf(b).need..]); SplitOf(b) == later.(frames := [HeadOf(b).frame] + later.frames)
  {
    hide HeadOf;
  }

  /** Splitting a longer buffer gives the frames of its prefix first, then goes on from the prefix's rest. */
  lemma {:induction false} SplitExtends(a: Bytes, b: Bytes)
    ensures var first := SplitOf(a);
      && (first.error.Some? ==> SplitOf(a + b) == first.(rest := first.rest + b))
      && (first.error.None? ==>
            var later := SplitOf(first.rest + b); SplitOf(a + b) == later.(frames := first.frames + later.frames))
    decreases |a|
  {
    hide HeadOf, SplitOf;
    SplitUnfolds(a);
    if HeadOf(a).Bad? {
      HeadExtends(a, b);
      SplitUnfolds(a + b);
    } else if HeadOf(a).Whole? {
      var need := HeadOf(a).need;
      HeadExtends(a, b);
      SplitUnfolds(a + b);
      assert (a + b)[need..] == a[need..] + b;
      SplitExtends(a[need..], b);
      assert [HeadOf(a).frame] + SplitOf(a[need..]).frames == SplitOf(a).frames;
    } else {
      assert [] + SplitOf(a + b).frames == SplitOf(a + b).frames;
    }
  }

  function Joined(chunks: seq<Bytes>): Bytes {
    if chunks == [] then [] else chunks[0] + Joined(chunks[1..])
  }

  lemma {:induction false} RestIsDone(b: Bytes)
    requires SplitOf(b).error.None?
    ensures SplitOf(SplitOf(b).rest) == Split([], SplitOf(b).rest, None)
    decreases |b|
  {
    if !HeadOf(b).Whole? {
    } else {
      RestIsDone(b[HeadOf(b).need..]);
    }
  }

  lemma {:induction false} StreamedIsSplit(pending: Bytes, chunks: seq<Bytes>)
    requires SplitOf(pending + Joined(chunks)).error.None?
    requires SplitOf(pending) == Split([], pending, None)
    ensures var whole := SplitOf(pending + Joined(chunks)); Streamed(pending, chunks) == (whole.frames, whole.rest)
    decreases |chunks|
  {
    if chunks == [] {
      assert pending + [] == pending;
    } else if chunks[0] == [] {
      assert chunks[0] + Joined(chunks[1..]) == Joined(chunks[1..]);
      StreamedIsSplit(pending, chunks[1..]);
    } else {
      var a, b := pending + chunks[0], Joined(chunks[1..]);
      assert pending + Joined(chunks) == a + b;
      SplitExtends(a, b);
      RestIsDone(a);
      StreamedIsSplit(SplitOf(a).rest, chunks[1..]);
    }
  }

  /** However a stream is cut into reads, the loop pushes what one split of the whole stream gives. */
  lemma ChunkingIsIrrelevant(chunks: seq<Bytes>)
    requires SplitOf(Joined(chunks)).error.None?
    ensures Streamed([], chunks) == (SplitOf(Joined(chunks)).frames, SplitOf(Joined(chunks)).rest)
  {
    assert [] + Joined(chunks) == Joined(chunks);
    StreamedIsSplit([], chunks);
  }

  /** No frame starts in these bytes, at the front or after a cut: a cut drops at least a header. */
  ghost predicate Silent(b: Bytes) {
    !HeadOf(b).Whole? && NoFrameLater(b)
  }

  ghost predicate NoFrameLater(b: Bytes) {
    forall i :: HEADER <= i <= |b| ==> !HeadOf(b[i..]).Whole?
  }

  lemma SilentLater(b: Bytes, n: nat)
    requires NoFrameLater(b) && HEADER <= n <= |b|
    ensures Silent(b[n..])
  {
    forall i | HEADER <= i <= |b[n..]|
      ensures !HeadOf(b[n..][i..]).Whole?
    {
      assert b[n..][i..] == b[n + i..];
    }
  }

  lemma BadKinds(b: Bytes)
    ensures HeadOf(b).Bad? <==> |b| >= HEADER && (b[..4] != MAGIC || FromBigEndian(b[14..18]) > LIMIT)
  {
    if |b| >= HEADER && b[..4] == MAGIC && FromBigEndian(b[14..18]) <= LIMIT {
      var need := HEADER + FromBigEndian(b[14..18]);
      if need <= |b| {
        assert b[..need][..4] == b[..4] && b[..need][14..18] == b[14..18];
      }
    }
  }

  lemma BadIsLong(b: Bytes)
    ensures HeadOf(b).Bad? ==> |b| >= HEADER
    ensures HeadOf(b).Bad? ==> forall i :: HEADER <= i <= |b| ==> HeadOf(b[..i]).Bad?
  {
    hide HeadOf;
    BadKinds(b);
    if HeadOf(b).Bad? {
      forall i | HEADER <= i <= |b|
        ensures HeadOf(b[..i]).Bad?
      {
        assert b[..i][..4] == b[..4] && b[..i][14..18] == b[14..18];
        BadKinds(b[..i]);
      }
    }
  }

  /** However silent bytes are cut, nothing is pushed. */
  lemma {:induction false} SilentStreamed(pending: Bytes, chunks: seq<Bytes>)
    requires Silent(pending + Joined(chunks))
    ensures Streamed(pending, chunks).0 == []
    decreases |chunks|
  {
    hide HeadOf;
    if chunks == [] {
    } else if chunks[0] == [] {
      assert chunks[0] + Joined(chunks[1..]) == Joined(chunks[1..]);
      SilentStreamed(pending, chunks[1..]);
    } else {
      var a, later := pending + chunks[0], Joined(chunks[1..]);
      assert pending + Joined(chunks) == a + later;
      if HeadOf(a).Whole? {
        HeadExtends(a, later);
        assert false;
      } else if HeadOf(a).Bad? {
        BadIsLong(a);
        SilentLater(a + later, |a|);
        assert (a + later)[|a|..] == later == [] + later;
        SilentStreamed([], chunks[1..]);
      } else {
        SilentStreamed(a, chunks[1..]);
      }
    }
  }

  lemma NothingJoined(pending: Bytes, chunks: seq<Bytes>)
    requires chunks == []
    ensures pending + Joined(chunks) == pending
  {
  }

  /** A stream with an error pushes the frames before it, if no frame starts later. */
  lemma {:induction false} ErrorStreamed(pending: Bytes, chunks: seq<Bytes>)
    requires SplitOf(pending) == Split([], pending, None)
    requires SplitOf(pending + Joined(chunks)).error.Some? && NoFrameLater(SplitOf(pending + Joined(chunks)).rest)
    ensures Streamed(pending, chunks).0 == SplitOf(pending + Joined(chunks)).frames
    decreases |chunks|
  {
    hide HeadOf;
    if chunks == [] {
      NothingJoined(pending, chunks);
      assert false;
    } else if chunks[0] == [] {
      assert chunks[0] + Joined(chunks[1..]) == Joined(chunks[1..]);
      ErrorStreamed(pending, chunks[1..]);
    } else {
      var a, later := pending + chunks[0], Joined(chunks[1..]);
      var first := SplitOf(a);
      assert pending + Joined(chunks) == a + later;
      SplitExtends(a, later);
      if first.error.None? {
        RestIsDone(a);
        ErrorStreamed(first.rest, chunks[1..]);
      } else {
        RestIsBad(a);
        RestIsBad(a + later);
        BadIsLong(first.rest);
        if first.frames == [] {
          SilentLater(a + later, |a|);
          assert (a + later)[|a|..] == later == [] + later;
          SilentStreamed([], chunks[1..]);
        } else {
          SilentStreamed(first.rest, chunks[1..]);
        }
      }
    }
  }

  /** Where a split stops; with an error, what follows is no frame. */
  lemma {:induction false} RestIsBad(b: Bytes)
    ensures var split := SplitOf(b);
      && |split.rest| <= |b| && b[|b| - |split.rest|..] == split.rest
      && (split.error.Some? ==> HeadOf(split.rest).Bad?)
      && (split.frames == [] ==> split.rest == b)
    decreases |b|
  {
    hide HeadOf;
    if !HeadOf(b).Whole? {
    } else {
      RestIsBad(b[HeadOf(b).need..]);
    }
  }

  /** The bytes before are whole frames. */
  lemma {:induction false} FrontIsWhole(b: Bytes)
    ensures var split := SplitOf(b);
      |split.rest| <= |b| && SplitOf(b[..|b| - |split.rest|]) == Split(split.frames, [], None)
    decreases |b|
  {
    hide HeadOf, SplitOf;
    SplitUnfolds(b);
    if HeadOf(b).Whole? {
      var need := HeadOf(b).need;
      RestIsBad(b[need..]);
      FrontIsWhole(b[need..]);
      var n := |b| - |SplitOf(b).rest|;
      assert b[..n][need..] == b[need..][..n - need];
      HeadOfPrefix(b, n);
      SplitUnfolds(b[..n]);
    } else {
      assert b[..0] == [];
      NothingSplit();
    }
  }

  lemma NothingSplit()
    ensures SplitOf([]) == Split([], [], None)
  {
  }

  lemma HeadOfPrefix(b: Bytes, n: nat)
    requires HeadOf(b).Whole? && HeadOf(b).need <= n <= |b|
    ensures HeadOf(b[..n]) == HeadOf(b)
  {
    var need := HeadOf(b).need;
    assert b[..n][..4] == b[..4] && b[..n][14..18] == b[14..18] && b[..n][..need] == b[..need];
  }

  /** Every cutting of these bytes pushes what one split of them gives. */
  ghost predicate CutsAgree(b: Bytes) {
    forall chunks :: Joined(chunks) == b ==> Streamed([], chunks).0 == SplitOf(b).frames
  }

  /** Exactly when the cutting of a stream does not show: it splits without error, or no frame starts a header's length
      or more behind the error. */
  lemma CutsAgreeIff(b: Bytes)
    ensures CutsAgree(b) <==> SplitOf(b).error.None? || NoFrameLater(SplitOf(b).rest)
  {
    if SplitOf(b).error.None? {
      forall chunks | Joined(chunks) == b {
        ChunkingIsIrrelevant(chunks);
      }
    } else if NoFrameLater(SplitOf(b).rest) {
      forall chunks | Joined(chunks) == b
        ensures Streamed([], chunks).0 == SplitOf(b).frames
      {
        assert [] + b == b;
        ErrorStreamed([], chunks);
      }
    } else {
      var rest := SplitOf(b).rest;
      var i :| HEADER <= i <= |rest| && HeadOf(rest[i..]).Whole?;
      CutAfterError(b, i);
    }
  }

  lemma CutAfterError(b: Bytes, i: nat)
    requires SplitOf(b).error.Some? && HEADER <= i <= |SplitOf(b).rest| && HeadOf(SplitOf(b).rest[i..]).Whole?
    ensures !CutsAgree(b)
  {
    hide HeadOf, SplitOf, CutsAgree;
    var rest := SplitOf(b).rest;
    RestIsBad(b);
    FrontIsWhole(b);
    BadIsLong(rest);
    var x := b[..|b| - |rest|];
    assert x + rest == b;
    assert rest[..i] + rest[i..] == rest;
    ThreeParts(b, x, rest[..i], rest[i..]);
  }

  lemma ThreeParts(b: Bytes, x: Bytes, y: Bytes, z: Bytes)
    requires x + (y + z) == b && SplitOf(x) == Split(SplitOf(b).frames, [], None)
    requires HeadOf(y).Bad? && HeadOf(z).Whole? && y != []
    ensures !CutsAgree(b)
  {
    hide HeadOf, SplitOf, Streamed, Joined, CutsAgree;
    SplitUnfolds(y);
    SplitUnfolds(z);
    ThreeReads(x, y, z);
    Disagrees(b, [x, y, z]);
  }

  lemma Disagrees(b: Bytes, chunks: seq<Bytes>)
    requires Joined(chunks) == b && |Streamed([], chunks).0| > |SplitOf(b).frames|
    ensures !CutsAgree(b)
  {
    hide SplitOf, Streamed, Joined;
  }

  /** Whole frames, then a read with nothing but an error, then a read that starts afresh. */
  lemma ThreeReads(x: Bytes, y: Bytes, z: Bytes)
    requires SplitOf(x).rest == [] && SplitOf(x).error.None? && SplitOf(y).error.Some? && SplitOf(y).frames == []
    requires y != [] && z != []
    ensures Streamed([], [x, y, z]).0 == SplitOf(x).frames + SplitOf(z).frames && Joined([x, y, z]) == x + (y + z)
  {
    hide SplitOf;
    var chunks := [x, y, z];
    NothingSplit();
    assert chunks[1..] == [y, z] && [y, z][1..] == [z];
    assert [] + x == x && [] + y == y && [] + z == z && z + [] == z;
    assert Streamed([], [z]).0 == SplitOf(z).frames + [] == SplitOf(z).frames;
    assert Streamed([], [y, z]).0 == [] + SplitOf(z).frames == SplitOf(z).frames;
    assert Joined([z]) == z && Joined([y, z]) == y + z;
    if x == [] {
      assert SplitOf(x).frames == [];
    }
  }

  function Wires(frames: seq<Frame>): Bytes {
    if frames == [] then [] else Wire(frames[0]) + Wires(frames[1..])
  }

  predicate AllEncodable(frames: seq<Frame>) {
    forall i :: 0 <= i < |frames| ==> -TWO_63 <= frames[i].sequence < TWO_63 && |frames[i].payload| <= LIMIT
  }

  lemma WireHead(f: Frame, rest: Bytes)
    requires -TWO_63 <= f.sequence < TWO_63 && |f.payload| <= LIMIT
    ensures HeadOf(Wire(f) + rest) == Whole(f, |Wire(f)|)
  {
    WireParts(f);
    WireDecodes(f);
    Powers();
    BigEndianBack(|f.payload|, 4);
    assert Wire(f)[..|Wire(f)|] == Wire(f);
    HeadExtends(Wire(f), rest);
  }

  lemma {:induction false} WiresSplit(frames: seq<Frame>)
    requires AllEncodable(frames)
    ensures SplitOf(Wires(frames)) == Split(frames, [], None)
  {
    if frames == [] {
    } else {
      var f, rest := frames[0], Wires(frames[1..]);
      WireHead(f, rest);
      assert (Wire(f) + rest)[|Wire(f)|..] == rest;
      WiresSplit(frames[1..]);
      assert [f] + frames[1..] == frames;
    }
  }

  /** Any partition of a concatenation of encoded frames into reads yields exactly those frames, in order, with
      nothing pending. */
  lemma FramesSurviveAnyPartition(frames: seq<Frame>, chunks: seq<Bytes>)
    requires AllEncodable(frames) && Joined(chunks) == Wires(frames)
    ensures Streamed([], chunks) == (frames, [])
  {
    WiresSplit(frames);
    ChunkingIsIrrelevant(chunks);
  }
}
