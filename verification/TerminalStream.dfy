/** Framing of the live terminal stream (terminal_stream.go): an 18-byte header, then the payload. */
module TerminalStream {
  import opened Wrappers

  type Byte = n: nat | n < 256
  type Bytes = seq<Byte>

  const MAGIC: Bytes := ['O' as int, 'D' as int, 'T' as int, '1' as int]
  const HEADER := 18
  const LIMIT := 16 * 1024 * 1024
  const TWO_32 := 0x1_0000_0000
  const TWO_63 := 0x8000_0000_0000_0000
  const TWO_64 := 0x1_0000_0000_0000_0000

  datatype Frame = Frame(kind: Byte, flags: Byte, sequence: int, payload: Bytes)

  function Unsigned64(n: int): nat {
    n % TWO_64
  }

  function Signed64(u: nat): int {
    if u >= TWO_63 then u - TWO_64 else u
  }

  /** The `width` low bytes of n, the most significant first. */
  function BigEndian(n: nat, width: nat): (b: Bytes)
    ensures |b| == width
  {
    if width == 0 then [] else BigEndian(n / 256, width - 1) + [n % 256]
  }

  function FromBigEndian(b: Bytes): nat {
    if b == [] then 0 else 256 * FromBigEndian(b[..|b| - 1]) + b[|b| - 1]
  }

  /** The bytes of a frame, whatever its size. */
  function Wire(f: Frame): (b: Bytes)
    ensures |b| == HEADER + |f.payload|
  {
    MAGIC + [f.kind, f.flags] + BigEndian(Unsigned64(f.sequence), 8) + BigEndian(|f.payload|, 4) + f.payload
  }

  function Encoded(f: Frame): Result<Bytes> {
    if |f.payload| > LIMIT then Err("frame too large") else Ok(Wire(f))
  }

  /** Fills the output buffer part by part. */
  method EncodeTerminalFrame(f: Frame) returns (r: Result<array<Byte>>)
    ensures r.Ok? <==> Encoded(f).Ok?
    ensures r.Ok? ==> fresh(r.value) && r.value[..] == Encoded(f).value
    ensures r.Err? ==> r.reason == Encoded(f).reason
  {
    if |f.payload| > LIMIT {
      return Err("frame too large");
    }
    var out := new Byte[HEADER + |f.payload|];
    CopyTo(out, 0, MAGIC);
    out[4] := f.kind;
    out[5] := f.flags;
    CopyTo(out, 6, BigEndian(Unsigned64(f.sequence), 8));
    CopyTo(out, 14, BigEndian(|f.payload|, 4));
    CopyTo(out, 18, f.payload);
    assert out[..4] == MAGIC && out[4..6] == [f.kind, f.flags] && out[6..14] == BigEndian(Unsigned64(f.sequence), 8);
    assert out[14..18] == BigEndian(|f.payload|, 4) && out[18..] == f.payload;
    assert out[..] == out[..4] + out[4..6] + out[6..14] + out[14..18] + out[18..];
    return Ok(out);
  }

  method CopyTo(out: array<Byte>, at: nat, bytes: Bytes)
    requires at + |bytes| <= out.Length
    modifies out
    ensures forall k :: 0 <= k < out.Length ==> out[k] == if at <= k < at + |bytes| then bytes[k - at] else old(out[k])
  {
    var i := 0;
    while i < |bytes|
      invariant 0 <= i <= |bytes|
      invariant forall k :: 0 <= k < out.Length ==> out[k] == if at <= k < at + i then bytes[k - at] else old(out[k])
    {
      out[at + i] := bytes[i];
      i := i + 1;
    }
  }

  function Decoded(b: Bytes): Result<Frame> {
    if |b| < HEADER then Err("short frame")
    else if b[..4] != MAGIC then Err("bad magic")
    else if HEADER + FromBigEndian(b[14..18]) != |b| then Err("bad length")
    else Ok(Frame(b[4], b[5], Signed64(FromBigEndian(b[6..14])), b[18..]))
  }

  datatype Split = Split(frames: seq<Frame>, rest: Bytes, error: Option<string>)

  /** The first step of a split: a frame and how many bytes it took, or nothing more, or an error. */
  datatype Head = More | Bad(why: string) | Whole(frame: Frame, need: nat)

  function HeadOf(b: Bytes): (h: Head)
    ensures h.Whole? ==> HEADER <= h.need <= |b|
  {
    if |b| < HEADER then More
    else if b[..4] != MAGIC then Bad("bad magic")
    else
      var length := FromBigEndian(b[14..18]);
      if length > LIMIT then Bad("bad length")
      else if |b| < HEADER + length then More
      else match Decoded(b[..HEADER + length]) case Err(why) => Bad(why) case Ok(f) => Whole(f, HEADER + length)
  }

  /** What a split of the buffer gives. */
  function SplitOf(b: Bytes): Split
    decreases |b|
  {
    match HeadOf(b)
    case More => Split([], b, None)
    case Bad(why) => Split([], b, Some(why))
    case Whole(f, need) => var later := SplitOf(b[need..]); later.(frames := [f] + later.frames)
  }

  /** The frames found before an offset, then the split of what follows it. */
  function After(frames: seq<Frame>, b: Bytes): Split {
    SplitOf(b).(frames := frames + SplitOf(b).frames)
  }

  lemma AfterNothing(b: Bytes)
    ensures After([], b) == SplitOf(b)
  {
    assert [] + SplitOf(b).frames == SplitOf(b).frames;
  }

  lemma AfterStep(frames: seq<Frame>, b: Bytes)
    ensures match HeadOf(b)
      case More => After(frames, b) == Split(frames, b, None)
      case Bad(why) => After(frames, b) == Split(frames, b, Some(why))
      case Whole(f, need) => After(frames, b) == After(frames + [f], b[need..])
  {
    if HeadOf(b).Whole? {
      var f, later := HeadOf(b).frame, SplitOf(b[HeadOf(b).need..]).frames;
      assert frames + ([f] + later) == frames + [f] + later;
    }
  }

  /** What stands at an offset of the buffer. */
  method ReadHead(buf: Bytes, off: nat) returns (head: Head)
    requires off <= |buf|
    ensures head == HeadOf(buf[off..])
  {
    hide Decoded, FromBigEndian;
    ghost var b := buf[off..];
    if |buf| - off < HEADER {
      return More;
    }
    assert b[..4] == buf[off..off + 4] && b[14..18] == buf[off + 14..off + 18];
    if buf[off..off + 4] != MAGIC {
      return Bad("bad magic");
    }
    var length := FromBigEndian(buf[off + 14..off + 18]);
    if length > LIMIT {
      return Bad("bad length");
    }
    var need := HEADER + length;
    if |buf| - off < need {
      return More;
    }
    assert b[..need] == buf[off..off + need];
    var f := Decoded(buf[off..off + need]);
    if f.Err? {
      return Bad(f.reason);
    }
    return Whole(f.value, need);
  }

  method SplitTerminalFrames(buf: Bytes) returns (frames: seq<Frame>, rest: Bytes, error: Option<string>)
    ensures Split(frames, rest, error) == SplitOf(buf)
  {
    hide SplitOf, After, HeadOf, Decoded, FromBigEndian;
    var off := 0;
    frames := [];
    assert buf[0..] == buf;
    AfterNothing(buf);
    while true
      invariant 0 <= off <= |buf|
      invariant SplitOf(buf) == After(frames, buf[off..])
      decreases |buf| - off
    {
      AfterStep(frames, buf[off..]);
      var head := ReadHead(buf, off);
      match head {
        case More =>
          return frames, buf[off..], None;
        case Bad(why) =>
          return frames, buf[off..], Some(why);
        case Whole(f, need) =>
          assert buf[off..][need..] == buf[off + need..];
          frames := frames + [f];
          off := off + need;
      }
    }
  }

  /** One read of n > 0 bytes: the frames pushed and what stays pending. */
  function Fed(pending: Bytes, chunk: Bytes): (seq<Frame>, Bytes) {
    var split := SplitOf(pending + chunk);
    (split.frames, if split.error.Some? && split.frames == [] then [] else split.rest)
  }

  function Streamed(pending: Bytes, chunks: seq<Bytes>): (seq<Frame>, Bytes)
    decreases |chunks|
  {
    if chunks == [] then ([], pending)
    else if chunks[0] == [] then Streamed(pending, chunks[1..])
    else
      var (frames, next) := Fed(pending, chunks[0]);
      var (later, left) := Streamed(next, chunks[1..]);
      (frames + later, left)
  }

  /** The frames pushed so far, then what the remaining reads push. */
  function StreamedAfter(pushed: seq<Frame>, pending: Bytes, chunks: seq<Bytes>): (seq<Frame>, Bytes) {
    var (later, left) := Streamed(pending, chunks);
    (pushed + later, left)
  }

  lemma StreamStep(pushed: seq<Frame>, pending: Bytes, chunks: seq<Bytes>)
    requires chunks != []
    ensures StreamedAfter(pushed, pending, chunks) ==
      if chunks[0] == [] then StreamedAfter(pushed, pending, chunks[1..])
      else var (frames, next) := Fed(pending, chunks[0]); StreamedAfter(pushed + frames, next, chunks[1..])
  {
    hide Fed;
    if chunks[0] != [] {
      var (frames, next) := Fed(pending, chunks[0]);
      var later := Streamed(next, chunks[1..]).0;
      assert pushed + (frames + later) == pushed + frames + later;
    }
  }

  lemma StreamEnds(pushed: seq<Frame>, pending: Bytes, chunks: seq<Bytes>)
    ensures chunks == [] ==> StreamedAfter(pushed, pending, chunks) == (pushed, pending)
    ensures pushed == [] ==> StreamedAfter(pushed, pending, chunks) == Streamed(pending, chunks)
  {
    assert [] + Streamed(pending, chunks).0 == Streamed(pending, chunks).0;
    if chunks == [] {
      assert pushed + Streamed(pending, chunks).0 == pushed;
    }
  }

  /** The reading loop of a session's host stream; `pushed` is what the hub gets. */
  method StreamHostFrames(chunks: seq<Bytes>) returns (pushed: seq<Frame>, pending: Bytes)
    ensures (pushed, pending) == Streamed([], chunks)
  {
    hide SplitOf, Streamed, StreamedAfter;
    pushed, pending := [], [];
    var i := 0;
    assert chunks[0..] == chunks;
    StreamEnds([], [], chunks);
    while i < |chunks|
      invariant 0 <= i <= |chunks|
      invariant Streamed([], chunks) == StreamedAfter(pushed, pending, chunks[i..])
    {
      StreamStep(pushed, pending, chunks[i..]);
      assert chunks[i..][1..] == chunks[i + 1..];
      if |chunks[i]| > 0 {
        var frames, rest, error := SplitTerminalFrames(pending + chunks[i]);
        pending := rest;
        if error.Some? && |frames| == 0 {
          pending := [];
        }
        pushed := pushed + frames;
      }
      i := i + 1;
    }
    StreamEnds(pushed, pending, chunks[i..]);
  }
}
